/**
 `JournalSet`: journals of rollup blocks, appended, overwritten by a reorg, popped
 at either end.  Whatever was drained from the front, the set always describes the
 end of one hash-linked chain of consecutive heights.
 */
module JournalSets {
  import opened Words

  datatype Hash = Hash(word: nat)

  /** What the set reads of a journal; `hash` is the hash of its serialization. */
  datatype Journal = Journal(height: U64, prevHash: Hash, hash: Hash)

  /** The end of a chain. */
  datatype Tip = Tip(height: U64, hash: Hash)

  /** The next height; heights count modulo 2^64, as release builds compute them. */
  function Succ(height: U64): U64 {
    if height == U64_MAX then 0 else height + 1
  }

  function Pred(height: U64): U64 {
    if height == 0 then U64_MAX else height - 1
  }

  function Ahead(height: U64, n: nat): U64 {
    if n == 0 then height else Succ(Ahead(height, n - 1))
  }

  lemma {:induction false} AheadWithin(height: U64, n: nat)
    ensures Ahead(height, n) <= height + n
    ensures height + n <= U64_MAX ==> Ahead(height, n) == height + n
    ensures U64_MAX < height + n <= 2 * U64_MAX + 1 ==> Ahead(height, n) == height + n - U64_MAX - 1
  {
    if n != 0 {
      AheadWithin(height, n - 1);
    }
  }

  function TipOf(j: Journal): Tip {
    Tip(j.height, j.hash)
  }

  /** The tip a journal continues. */
  function Before(j: Journal): Tip {
    Tip(Pred(j.height), j.prevHash)
  }

  /** The two checks of `try_append` together say that the journal continues the tip. */
  lemma {:induction false} Continues(t: Tip, j: Journal)
    ensures Before(j) == t <==> j.height == WrapAdd64(t.height, 1) && j.prevHash == t.hash
    ensures Before(j) == t ==> j.height == Succ(t.height)
  {
  }

  function EndOf(base: Tip, links: seq<Journal>): Tip {
    if links == [] then base else TipOf(links[|links| - 1])
  }

  /** Each journal continues the one before it, the first one `base`. */
  ghost predicate Linked(base: Tip, links: seq<Journal>) {
    links == [] ||
    var before, last := links[..|links| - 1], links[|links| - 1];
    Linked(base, before) && Before(last) == EndOf(base, before)
  }

  lemma {:induction false} LinkedMore(base: Tip, links: seq<Journal>, j: Journal)
    ensures Linked(base, links + [j]) <==> Linked(base, links) && Before(j) == EndOf(base, links)
  {
    assert (links + [j])[..|links + [j]| - 1] == links;
  }

  lemma {:induction false} LinkedPrefix(base: Tip, links: seq<Journal>, n: nat)
    requires Linked(base, links) && n <= |links|
    ensures Linked(base, links[..n])
  {
    if n < |links| {
      var before := links[..|links| - 1];
      LinkedPrefix(base, before, n);
      assert before[..n] == links[..n];
    } else {
      assert links[..n] == links;
    }
  }

  lemma {:induction false} LinkAt(base: Tip, links: seq<Journal>, k: nat)
    requires Linked(base, links) && k < |links|
    ensures Before(links[k]) == EndOf(base, links[..k])
    ensures k > 0 ==> Before(links[k]) == TipOf(links[k - 1])
  {
    LinkedPrefix(base, links, k + 1);
    assert links[..k + 1][..k] == links[..k];
  }

  /** Heights are consecutive along the chain. */
  lemma {:induction false} HeightsCount(base: Tip, links: seq<Journal>, a: nat, b: nat)
    requires Linked(base, links) && a <= b < |links|
    ensures links[b].height == Ahead(links[a].height, b - a)
    decreases b
  {
    if a < b {
      HeightsCount(base, links, a, b - 1);
      LinkAt(base, links, b);
      Continues(TipOf(links[b - 1]), links[b]);
    }
  }

  // ---- the history behind a set ----

  /**
   `base` is the tip the first journal continued, unknown until there is one;
   `drained` were taken from the front, `stored` are still held.
   */
  datatype History = History(base: Option<Tip>, drained: seq<Journal>, stored: seq<Journal>)
  {
    /** What `latest_height` and `latest_hash` describe. */
    function Latest(): Option<Tip> {
      if base.None? then None else Some(EndOf(base.value, drained + stored))
    }

    /** One chain, whether or not its front has been drained. */
    ghost predicate Sound() {
      if base.Some? then Linked(base.value, drained + stored) else drained == [] && stored == []
    }

    function PoppedFront(): History {
      if stored == [] then this
      else this.(drained := drained + [stored[0]], stored := stored[1..])
    }

    function PoppedBack(): History {
      if stored == [] then this else this.(stored := stored[..|stored| - 1])
    }

    predicate CanAppend(j: Journal) {
      base.None? || Latest() == Some(Before(j))
    }

    function Appended(j: Journal): History {
      History(if base.None? then Some(Before(j)) else base, drained, stored + [j])
    }

    /** `index_of`: by counting from the earliest stored height. */
    function IndexOf(height: U64): (i: Option<nat>)
      ensures Sound() && i.Some? ==> i.value < |stored| && stored[i.value].height == height
    {
      if stored == [] || Latest().None? then None
      else if height < stored[0].height || height > Latest().value.height then None
      else
        CountedFrom(this, height);
        Some(height - stored[0].height)
    }

    /** The journal replaces the one at its height, and everything above goes. */
    function Overwritten(i: nat, j: Journal): History
      requires i < |stored|
    {
      this.(stored := stored[..i] + [j])
    }

    /** No stored height has wrapped. */
    predicate Linear() {
      stored == [] || stored[0].height + |stored| - 1 <= U64_MAX
    }
  }

  const EMPTY := History(None, [], [])

  lemma {:induction false} StoredCounts(h: History, a: nat, b: nat)
    requires h.Sound() && a <= b < |h.stored|
    ensures h.stored[b].height == Ahead(h.stored[a].height, b - a)
  {
    var n := |h.drained|;
    HeightsCount(h.base.value, h.drained + h.stored, n + a, n + b);
  }

  lemma {:induction false} LatestIsLast(h: History)
    requires h.Sound() && h.stored != []
    ensures h.Latest() == Some(TipOf(h.stored[|h.stored| - 1]))
  {
  }

  lemma {:induction false} CountedFrom(h: History, height: U64)
    requires h.stored != [] && h.Latest().Some?
    requires h.stored[0].height <= height <= h.Latest().value.height
    ensures h.Sound() ==>
              var i := height - h.stored[0].height;
              i < |h.stored| && h.stored[i].height == height
  {
    if h.Sound() {
      var start, n, i := h.stored[0].height, |h.stored| - 1, height - h.stored[0].height;
      LatestIsLast(h);
      StoredCounts(h, 0, n);
      AheadWithin(start, n);
      StoredCounts(h, 0, i);
      AheadWithin(start, i);
    }
  }

  /** As long as the stored heights do not wrap, lookup finds exactly what is stored. */
  lemma {:induction false} IndexIsExact(h: History, height: U64)
    requires h.Sound() && h.Linear()
    ensures h.IndexOf(height).Some? <==> exists j | j in h.stored :: j.height == height
    ensures forall i | 0 <= i < |h.stored| && h.stored[i].height == height ::
              h.IndexOf(height) == Some(i)
  {
    if h.IndexOf(height).Some? {
      assert h.stored[h.IndexOf(height).value] in h.stored;
    }
    forall i | 0 <= i < |h.stored|
      ensures h.IndexOf(h.stored[i].height) == Some(i)
    {
      var start, n := h.stored[0].height, |h.stored| - 1;
      LatestIsLast(h);
      StoredCounts(h, 0, n);
      AheadWithin(start, n);
      StoredCounts(h, 0, i);
      AheadWithin(start, i);
    }
  }

  /** Once they wrap, lookup finds nothing at all. */
  lemma {:induction false} WrappedIsLost(h: History, height: U64)
    requires h.Sound() && !h.Linear() && |h.stored| <= U64_MAX + 1
    ensures h.IndexOf(height) == None && h.IndexOf(h.stored[0].height) == None
  {
    var n := |h.stored| - 1;
    LatestIsLast(h);
    StoredCounts(h, 0, n);
    AheadWithin(h.stored[0].height, n);
  }

  // ---- runs ----

  datatype Op = Append(journal: Journal) | Overwrite(journal: Journal) | PopFront | PopBack

  /** What an operation does to the history; a refused one does nothing. */
  function Apply(h: History, op: Op): History
    requires h.Sound()
  {
    match op
    case Append(j) => if h.CanAppend(j) then h.Appended(j) else h
    case Overwrite(j) =>
      var at := h.IndexOf(j.height);
      if at.None? then h
      else
        var known := h.stored[at.value];
        if known.hash == j.hash || known.prevHash != j.prevHash then h else h.Overwritten(at.value, j)
    case PopFront => h.PoppedFront()
    case PopBack => h.PoppedBack()
  }

  lemma {:induction false} AppendKeepsChain(h: History, j: Journal)
    requires h.Sound() && h.CanAppend(j)
    ensures h.Appended(j).Sound() && h.Appended(j).Latest() == Some(TipOf(j))
  {
    var g := h.Appended(j);
    assert g.drained + g.stored == (h.drained + h.stored) + [j];
    if h.base.None? {
      assert h.drained + h.stored == [];
      assert Linked(g.base.value, []);
    }
    LinkedMore(g.base.value, h.drained + h.stored, j);
  }

  lemma {:induction false} PopBackKeepsChain(h: History)
    requires h.Sound()
    ensures h.PoppedBack().Sound()
    ensures h.stored != [] ==> h.PoppedBack().Latest() == Some(Before(h.stored[|h.stored| - 1]))
  {
    if h.stored != [] {
      var all, n := h.drained + h.stored, |h.drained + h.stored| - 1;
      assert h.drained + h.stored[..|h.stored| - 1] == all[..n];
      LinkedPrefix(h.base.value, all, n);
      LinkAt(h.base.value, all, n);
    }
  }

  lemma {:induction false} PopFrontKeepsChain(h: History)
    requires h.Sound()
    ensures h.PoppedFront().Sound() && h.PoppedFront().Latest() == h.Latest()
  {
    if h.stored != [] {
      assert h.PoppedFront().drained + h.PoppedFront().stored == h.drained + h.stored;
    }
  }

  /** A journal that continues the same tip as the one it replaces. */
  lemma {:induction false} OverwriteKeepsChain(h: History, i: nat, j: Journal)
    requires h.Sound() && i < |h.stored|
    requires Before(j) == Before(h.stored[i])
    ensures h.Overwritten(i, j).Sound() && h.Overwritten(i, j).Latest() == Some(TipOf(j))
  {
    var all, n := h.drained + h.stored, |h.drained| + i;
    var g := h.Overwritten(i, j);
    assert g.drained + g.stored == all[..n] + [j];
    LinkedPrefix(h.base.value, all, n);
    LinkAt(h.base.value, all, n);
    LinkedMore(h.base.value, all[..n], j);
  }

  lemma {:induction false} ApplyKeepsChain(h: History, op: Op)
    requires h.Sound()
    ensures Apply(h, op).Sound()
  {
    match op
    case Append(j) =>
      if h.CanAppend(j) { AppendKeepsChain(h, j); }
    case Overwrite(j) =>
      if Apply(h, op) != h {
        OverwriteKeepsChain(h, h.IndexOf(j.height).value, j);
      }
    case PopFront => PopFrontKeepsChain(h);
    case PopBack => PopBackKeepsChain(h);
  }

  ghost function Run(ops: seq<Op>): (h: History)
    ensures h.Sound()
  {
    if ops == [] then EMPTY
    else
      ApplyKeepsChain(Run(ops[..|ops| - 1]), ops[|ops| - 1]);
      Apply(Run(ops[..|ops| - 1]), ops[|ops| - 1])
  }

  // ---- undoing, redoing, reorganising ----

  /** Popping the journal just appended gives the set back; only the base stays known. */
  lemma {:induction false} PopUndoesAppend(h: History, j: Journal)
    requires h.Sound() && h.CanAppend(j)
    ensures h.Appended(j).PoppedBack() == h.(base := Some(if h.base.Some? then h.base.value else Before(j)))
    ensures h.Appended(j).PoppedBack().Latest() == Some(Before(j))
  {
    assert (h.stored + [j])[..|h.stored|] == h.stored;
    AppendKeepsChain(h, j);
    PopBackKeepsChain(h.Appended(j));
  }

  /** A popped journal can always be appended again, and nothing is lost. */
  lemma {:induction false} AppendUndoesPop(h: History)
    requires h.Sound() && h.stored != []
    ensures var last := h.stored[|h.stored| - 1];
            h.PoppedBack().CanAppend(last) && h.PoppedBack().Appended(last) == h
  {
    PopBackKeepsChain(h);
  }

  function Rewound(h: History, n: nat): History {
    if n == 0 then h else Rewound(h, n - 1).PoppedBack()
  }

  lemma {:induction false} RewoundTo(h: History, n: nat)
    requires h.Sound() && n <= |h.stored|
    ensures Rewound(h, n) == h.(stored := h.stored[..|h.stored| - n]) && Rewound(h, n).Sound()
  {
    if n != 0 {
      RewoundTo(h, n - 1);
      PopBackKeepsChain(Rewound(h, n - 1));
      assert h.stored[..|h.stored| - (n - 1)][..|h.stored| - n] == h.stored[..|h.stored| - n];
    }
  }

  /** A reorg is popping back past the replaced journal and appending the new one. */
  lemma {:induction false} OverwriteIsRewind(h: History, i: nat, j: Journal)
    requires h.Sound() && i < |h.stored| && Before(j) == Before(h.stored[i])
    ensures var back := Rewound(h, |h.stored| - i);
            back.CanAppend(j) && back.Appended(j) == h.Overwritten(i, j)
  {
    RewoundTo(h, |h.stored| - i - 1);
    RewoundTo(h, |h.stored| - i);
    PopBackKeepsChain(Rewound(h, |h.stored| - i - 1));
  }

  /** A changing overwrite leaves exactly the journals below its height and itself. */
  lemma {:induction false} OverwriteLeaves(h: History, j: Journal, x: Journal)
    requires h.Sound() && h.Linear() && Apply(h, Overwrite(j)) != h
    ensures x in Apply(h, Overwrite(j)).stored <==>
            x == j || (x in h.stored && x.height < j.height)
  {
    var i := h.IndexOf(j.height).value;
    if x in h.stored {
      var k :| 0 <= k < |h.stored| && h.stored[k] == x;
      IndexIsExact(h, x.height);
    }
    if x in h.stored[..i] {
      var k :| 0 <= k < i && h.stored[..i][k] == x;
      assert h.stored[k] == x;
    }
  }

  /**
   When a reorg happens: a journal with the height and the previous hash of one that is
   stored, and another hash, replaces it, and exactly the journals below it are left.
   With the same hash nothing changes, with another previous hash nothing either.
   */
  lemma {:induction false} OverwriteReplaces(h: History, i: nat, j: Journal)
    requires h.Sound() && h.Linear() && i < |h.stored| && h.stored[i].height == j.height
    ensures var after := Apply(h, Overwrite(j));
            if h.stored[i].hash != j.hash && h.stored[i].prevHash == j.prevHash then
              && after.stored == h.stored[..i] + [j] && after.Latest() == Some(TipOf(j))
              && (forall x :: x in after.stored <==> x == j || (x in h.stored && x.height < j.height))
            else after == h
  {
    IndexIsExact(h, j.height);
    if h.stored[i].hash != j.hash && h.stored[i].prevHash == j.prevHash {
      OverwriteKeepsChain(h, i, j);
      forall x
        ensures x in Apply(h, Overwrite(j)).stored <==> x == j || (x in h.stored && x.height < j.height)
      {
        OverwriteLeaves(h, j, x);
      }
    }
  }

  ghost predicate NoCollision(xs: seq<Journal>, ys: seq<Journal>) {
    forall i, j | 0 <= i < |xs| && 0 <= j < |ys| && xs[i].hash == ys[j].hash :: xs[i] == ys[j]
  }

  /**
   A hash commits to the history below it: where hashes do not collide, two chains
   that share a hash agree from there all the way down the shorter one.
   */
  lemma {:induction false} HashCommits(p: Tip, xs: seq<Journal>, a: nat, q: Tip, ys: seq<Journal>,
                                       b: nat, k: nat)
    requires Linked(p, xs) && Linked(q, ys) && NoCollision(xs, ys)
    requires k <= a < |xs| && k <= b < |ys| && xs[a].hash == ys[b].hash
    ensures xs[a - k] == ys[b - k]
    decreases k
  {
    if k > 0 {
      HashCommits(p, xs, a, q, ys, b, k - 1);
      LinkAt(p, xs, a - k + 1);
      LinkAt(q, ys, b - k + 1);
    }
  }

  // ---- the set ----

  datatype JournalSetError =
    | WrongHeight(actual: U64, expected: U64, journal: Journal)
    | WrongPrevHash(latestHash: Hash, inJournal: Hash, journal: Journal)
    | NotInRange(start: Option<U64>, end: Option<U64>, height: U64, journal: Journal)

  class JournalSet {
    var journals: seq<Journal>
    var latestHeight: Option<U64>
    var latestHash: Option<Hash>
    ghost var base: Option<Tip>
    ghost var drained: seq<Journal>

    ghost function Past(): History
      reads this
    {
      History(base, drained, journals)
    }

    ghost predicate Valid()
      reads this
    {
      && Past().Sound()
      && (match Past().Latest()
          case None => latestHeight == None && latestHash == None
          case Some(tip) => latestHeight == Some(tip.height) && latestHash == Some(tip.hash))
    }

    constructor ()
      ensures Valid() && Past() == EMPTY
    {
      journals, latestHeight, latestHash := [], None, None;
      base, drained := None, [];
    }

    constructor FromJournal(j: Journal)
      ensures Valid() && Past() == Apply(EMPTY, Append(j))
    {
      journals, latestHeight, latestHash := [j], Some(j.height), Some(j.hash);
      base, drained := Some(Before(j)), [];
      new;
      AppendKeepsChain(EMPTY, j);
    }

    method EarliestHeight() returns (height: Option<U64>)
      ensures height == if journals == [] then None else Some(journals[0].height)
    {
      height := if journals == [] then None else Some(journals[0].height);
    }

    method IndexOf(height: U64) returns (index: Option<nat>)
      requires Valid()
      ensures index == Past().IndexOf(height)
      ensures index.Some? ==>
                index.value < |journals| && journals[index.value].height == height
    {
      var start := EarliestHeight();
      if start.None? || latestHeight.None? {
        return None;
      }
      if height < start.value || height > latestHeight.value {
        return None;
      }
      index := Some(height - start.value);
    }

    method GetByRollupHeight(height: U64) returns (journal: Option<Journal>)
      requires Valid()
      ensures var at := Past().IndexOf(height);
              journal == if at.None? then None else Some(journals[at.value])
      ensures journal.Some? ==> journal.value.height == height
      ensures Past().Linear() ==>
                (journal.None? <==> forall j | j in journals :: j.height != height)
    {
      var index := IndexOf(height);
      journal := if index.None? then None else Some(journals[index.value]);
      if Past().Linear() {
        IndexIsExact(Past(), height);
      }
    }

    /** The range of stored heights, in reverse when it wraps. */
    method Range() returns (range: Option<(U64, U64)>)
      requires Valid()
      ensures range == if journals == [] then None
                       else Some((journals[0].height, journals[|journals| - 1].height))
    {
      var start := EarliestHeight();
      range := if start.None? || latestHeight.None? then None
               else Some((start.value, latestHeight.value));
    }

    method AppendInner(j: Journal)
      modifies this`journals, this`latestHeight, this`latestHash
      ensures journals == old(journals) + [j]
      ensures latestHeight == Some(j.height) && latestHash == Some(j.hash)
    {
      latestHeight := Some(j.height);
      latestHash := Some(j.hash);
      journals := journals + [j];
    }

    /** Appends a journal that continues the chain; refuses any other and gives it back. */
    method TryAppend(j: Journal) returns (result: Result<(), JournalSetError>)
      requires Valid()
      modifies this
      ensures Valid() && Past() == Apply(old(Past()), Append(j))
      ensures result.Ok? <==> old(Past()).CanAppend(j)
      ensures result.Ok? <==>
              old(latestHeight).None?
              || (j.height == WrapAdd64(old(latestHeight).value, 1) && old(latestHash) == Some(j.prevHash))
      ensures result.Ok? ==>
                && journals == old(journals) + [j] && drained == old(drained)
                && latestHeight == Some(j.height) && latestHash == Some(j.hash)
      ensures result.Err? ==>
                && result.error.journal == j
                && unchanged(this)
                && if j.height != WrapAdd64(latestHeight.value, 1) then
                     result.error == WrongHeight(j.height, WrapAdd64(latestHeight.value, 1), j)
                   else result.error == WrongPrevHash(latestHash.value, j.prevHash, j)
    {
      if latestHeight.Some? {
        Continues(Tip(latestHeight.value, latestHash.value), j);
        if j.height != WrapAdd64(latestHeight.value, 1) {
          return Err(WrongHeight(j.height, WrapAdd64(latestHeight.value, 1), j));
        }
      }
      if latestHash.Some? {
        if j.prevHash != latestHash.value {
          return Err(WrongPrevHash(latestHash.value, j.prevHash, j));
        }
      }
      AppendKeepsChain(Past(), j);
      if base.None? {
        base := Some(Before(j));
      }
      AppendInner(j);
      result := Ok(());
    }

    /** Truncates after the journal at this height, then pops it. */
    method UnwindTo(height: U64)
      requires Valid() && Past().IndexOf(height).Some?
      modifies this
      ensures Valid() && base == old(base) && drained == old(drained)
      ensures var i := old(Past()).IndexOf(height).value;
              && i < |old(journals)| && journals == old(journals)[..i]
              && latestHeight == Some(Pred(height)) && latestHash == Some(old(journals)[i].prevHash)
    {
      var index := IndexOf(height);
      var i := index.value;
      RewoundTo(Past(), |journals| - i - 1);
      journals := journals[..i + 1];
      var _ := PopBack();
    }

    /**
     Replaces the journal at this height if it continues the same tip; the branch
     for a height mismatch cannot be reached.
     */
    method AppendOverwrite(j: Journal) returns (result: Result<(), JournalSetError>)
      requires Valid()
      modifies this
      ensures Valid() && Past() == Apply(old(Past()), Overwrite(j))
      ensures result.Err? ==> unchanged(this) && result.error.journal == j
      ensures result.Err? <==>
              var at := old(Past()).IndexOf(j.height);
              at.None? || (old(journals)[at.value].hash != j.hash
                           && old(journals)[at.value].prevHash != j.prevHash)
      ensures var at := old(Past()).IndexOf(j.height);
              at.Some? && old(journals)[at.value].hash == j.hash ==> result.Ok? && unchanged(this)
      ensures var at := old(Past()).IndexOf(j.height);
              at.Some? && old(journals)[at.value].hash != j.hash
              && old(journals)[at.value].prevHash == j.prevHash ==>
                && result.Ok? && journals == old(journals)[..at.value] + [j] && drained == old(drained)
                && latestHeight == Some(j.height) && latestHash == Some(j.hash)
      ensures result.Err? ==>
                if old(Past()).IndexOf(j.height).None? then
                  result.error == NotInRange(if journals == [] then None else Some(journals[0].height),
                                             latestHeight, j.height, j)
                else
                  latestHash.Some? && result.error == WrongPrevHash(latestHash.value, j.prevHash, j)
    {
      var known := GetByRollupHeight(j.height);
      if known.None? {
        var start := EarliestHeight();
        return Err(NotInRange(start, latestHeight, j.height, j));
      }
      if known.value.hash == j.hash {
        return Ok(());
      }
      if known.value.height != j.height {
        assert false;
      }
      if known.value.prevHash != j.prevHash {
        return Err(WrongPrevHash(latestHash.value, j.prevHash, j));
      }
      OverwriteKeepsChain(Past(), Past().IndexOf(j.height).value, j);
      UnwindTo(j.height);
      AppendInner(j);
      result := Ok(());
    }

    method PopFront() returns (journal: Option<Journal>)
      requires Valid()
      modifies this`journals, this`drained
      ensures Valid() && Past() == Apply(old(Past()), Op.PopFront)
      ensures journal == if old(journals) == [] then None else Some(old(journals)[0])
      ensures old(journals) == [] ==> unchanged(this)
      ensures old(journals) != [] ==>
                && journals == old(journals)[1..] && drained == old(drained) + [old(journals)[0]]
    {
      PopFrontKeepsChain(Past());
      if journals == [] {
        return None;
      }
      journal := Some(journals[0]);
      drained := drained + [journals[0]];
      journals := journals[1..];
    }

    method PopBack() returns (journal: Option<Journal>)
      requires Past().Sound() && (journals == [] ==> Valid())
      modifies this`journals, this`latestHeight, this`latestHash
      ensures Valid() && Past() == Apply(old(Past()), Op.PopBack)
      ensures journal ==
              if old(journals) == [] then None else Some(old(journals)[|old(journals)| - 1])
      ensures old(journals) == [] ==> unchanged(this)
      ensures old(journals) != [] ==>
                var last := old(journals)[|old(journals)| - 1];
                && journals == old(journals)[..|old(journals)| - 1]
                && latestHeight == Some(Pred(last.height)) && latestHash == Some(last.prevHash)
    {
      PopBackKeepsChain(Past());
      if journals == [] {
        return None;
      }
      var last := journals[|journals| - 1];
      journals := journals[..|journals| - 1];
      latestHeight := Some(Pred(last.height));
      latestHash := Some(last.prevHash);
      journal := Some(last);
    }
  }
}

/**
 Is a cached item valid now, later, or never again?  A transaction is checked
 against its signer's account, a bundle by walking its transactions with a cache of
 nonces, against an independent reading of what the walk should decide.
 */
module Validity {
  import opened Words

  datatype AcctInfo = AcctInfo(nonce: U64, balance: U256)

  /** Account lookup; `None` when the source fails. */
  type StateSource = Address -> Option<AcctInfo>

  datatype SourceError = SourceError(account: Address)

  /** From least to most valid. */
  datatype SimItemValidity = Never | Future | Now
  {
    function Rank(): nat {
      match this
      case Never => 0
      case Future => 1
      case Now => 2
    }
  }

  function MinValidity(x: SimItemValidity, y: SimItemValidity): SimItemValidity {
    if x.Rank() <= y.Rank() then x else y
  }

  type Verdict = Result<SimItemValidity, SourceError>

  datatype TxRequirement = TxRequirement(signer: Address, nonce: U64, balance: U256)

  /** How many of the first `k` requirements are `a`'s. */
  function CountBy(reqs: seq<TxRequirement>, k: nat, a: Address): nat
    requires k <= |reqs|
  {
    if k == 0 then 0
    else CountBy(reqs, k - 1, a) + if reqs[k - 1].signer == a then 1 else 0
  }

  /** The nonce `a` has once its transactions among the first `k` have run. */
  function NonceAfter(reqs: seq<TxRequirement>, nonce: U64, k: nat, a: Address): U64
    requires k <= |reqs|
  {
    (nonce + CountBy(reqs, k, a)) % (U64_MAX + 1)
  }

  lemma {:induction false} NonceStep(reqs: seq<TxRequirement>, nonce: U64, k: nat, a: Address)
    requires k < |reqs|
    ensures NonceAfter(reqs, nonce, k + 1, a)
         == if reqs[k].signer == a then WrapAdd64(NonceAfter(reqs, nonce, k, a), 1)
            else NonceAfter(reqs, nonce, k, a)
  {
    WrapSum(NonceAfter(reqs, nonce, k, a), nonce + CountBy(reqs, k, a), 1);
  }

  lemma {:induction false} NotSeen(reqs: seq<TxRequirement>, k: nat, a: Address)
    requires k <= |reqs| && forall j | 0 <= j < k :: reqs[j].signer != a
    ensures CountBy(reqs, k, a) == 0
    ensures forall nonce :: NonceAfter(reqs, nonce, k, a) == nonce
  {
    if k > 0 {
      NotSeen(reqs, k - 1, a);
    }
  }

  /** The nonce transaction `k` must carry, when its signer's account can be read. */
  function Expected(reqs: seq<TxRequirement>, source: StateSource, k: nat): Option<U64>
    requires k < |reqs|
  {
    var info := source(reqs[k].signer);
    if info.None? then None
    else Some(NonceAfter(reqs, info.value.nonce, k, reqs[k].signer))
  }

  predicate Matches(reqs: seq<TxRequirement>, source: StateSource, k: nat)
    requires k < |reqs|
  {
    Expected(reqs, source, k) == Some(reqs[k].nonce)
  }

  /** What the `k`-th transaction decides when it is the first that does not match. */
  function Mismatch(reqs: seq<TxRequirement>, source: StateSource, k: nat): Verdict
    requires k < |reqs| && !Matches(reqs, source, k)
  {
    match Expected(reqs, source, k)
    case None => Err(SourceError(reqs[k].signer))
    case Some(nonce) => Ok(if reqs[k].nonce < nonce then Never else Future)
  }

  predicate FirstIsFunded(reqs: seq<TxRequirement>, source: StateSource)
    requires reqs != []
  {
    source(reqs[0].signer).Some? && reqs[0].balance <= source(reqs[0].signer).value.balance
  }

  /**
   The reading of the check: the first transaction's balance, then the first nonce
   that does not match, then nothing else.
   */
  ghost predicate Decides(reqs: seq<TxRequirement>, source: StateSource, verdict: Verdict) {
    if reqs == [] then verdict == Ok(Now)
    else if source(reqs[0].signer).None? then verdict == Err(SourceError(reqs[0].signer))
    else if !FirstIsFunded(reqs, source) then verdict == Ok(Future)
    else
      || (verdict == Ok(Now) && forall k | 0 <= k < |reqs| :: Matches(reqs, source, k))
      || (exists k | 0 <= k < |reqs| ::
            && !Matches(reqs, source, k) && verdict == Mismatch(reqs, source, k)
            && forall j | 0 <= j < k :: Matches(reqs, source, j))
  }

  /** There is only one such verdict. */
  lemma {:induction false} OneVerdict(reqs: seq<TxRequirement>, source: StateSource,
                                      x: Verdict, y: Verdict)
    requires Decides(reqs, source, x) && Decides(reqs, source, y)
    ensures x == y
  {
  }

  /** The verdict of the transactions from `k` on. */
  function Scan(reqs: seq<TxRequirement>, source: StateSource, k: nat): Verdict
    requires k <= |reqs|
    decreases |reqs| - k
  {
    if k == |reqs| then Ok(Now)
    else if !Matches(reqs, source, k) then Mismatch(reqs, source, k)
    else Scan(reqs, source, k + 1)
  }

  function ListVerdict(reqs: seq<TxRequirement>, source: StateSource): Verdict {
    if reqs == [] then Ok(Now)
    else if source(reqs[0].signer).None? then Err(SourceError(reqs[0].signer))
    else if !FirstIsFunded(reqs, source) then Ok(Future)
    else Scan(reqs, source, 0)
  }

  lemma {:induction false} ScanStops(reqs: seq<TxRequirement>, source: StateSource, k: nat)
    requires k <= |reqs|
    ensures Scan(reqs, source, k) == Ok(Now) <==>
            forall j | k <= j < |reqs| :: Matches(reqs, source, j)
    ensures Scan(reqs, source, k) != Ok(Now) ==>
              exists j | k <= j < |reqs| ::
                && !Matches(reqs, source, j) && Scan(reqs, source, k) == Mismatch(reqs, source, j)
                && forall i | k <= i < j :: Matches(reqs, source, i)
    decreases |reqs| - k
  {
    if k < |reqs| && Matches(reqs, source, k) {
      ScanStops(reqs, source, k + 1);
    }
  }

  /** The verdict is what the reading says, and valid now exactly when every nonce matches. */
  lemma {:induction false} VerdictDecides(reqs: seq<TxRequirement>, source: StateSource)
    ensures Decides(reqs, source, ListVerdict(reqs, source))
    ensures ListVerdict(reqs, source) == Ok(Now) <==>
            reqs == [] || (FirstIsFunded(reqs, source)
                           && forall k | 0 <= k < |reqs| :: Matches(reqs, source, k))
  {
    if reqs != [] {
      ScanStops(reqs, source, 0);
    }
  }

  /** The cache holds every signer seen, each at the nonce its next transaction must carry. */
  ghost predicate CacheRight(cache: map<Address, U64>, reqs: seq<TxRequirement>,
                             source: StateSource, k: nat)
    requires k <= |reqs|
  {
    && (forall j | 0 <= j < k :: reqs[j].signer in cache)
    && (forall a {:trigger a in cache} | a in cache ::
          source(a).Some? && cache[a] == NonceAfter(reqs, source(a).value.nonce, k, a))
  }

  lemma {:induction false} CacheAdvances(cache: map<Address, U64>, reqs: seq<TxRequirement>,
                                         source: StateSource, k: nat)
    requires k < |reqs| && CacheRight(cache, reqs, source, k) && reqs[k].signer in cache
    ensures CacheRight(cache[reqs[k].signer := WrapAdd64(cache[reqs[k].signer], 1)],
                       reqs, source, k + 1)
  {
    forall a | a in cache
      ensures var next := cache[reqs[k].signer := WrapAdd64(cache[reqs[k].signer], 1)];
              next[a] == NonceAfter(reqs, source(a).value.nonce, k + 1, a)
    {
      NonceStep(reqs, source(a).value.nonce, k, a);
    }
  }

  /** A signer not seen yet enters the cache at its state nonce. */
  lemma {:induction false} CacheLoads(cache: map<Address, U64>, reqs: seq<TxRequirement>,
                                      source: StateSource, k: nat, a: Address)
    requires k <= |reqs| && CacheRight(cache, reqs, source, k)
    requires a !in cache && source(a).Some?
    ensures CacheRight(cache[a := source(a).value.nonce], reqs, source, k)
  {
    NotSeen(reqs, k, a);
  }

  /** `check_bundle_tx_list`. */
  method CheckBundleTxList(items: seq<TxRequirement>, source: StateSource)
    returns (verdict: Verdict)
    ensures verdict == ListVerdict(items, source)
  {
    var nonceCache: map<Address, U64> := map[];
    if items != [] {
      var info := source(items[0].signer);
      if info.None? {
        return Err(SourceError(items[0].signer));
      }
      if items[0].balance > info.value.balance {
        return Ok(Future);
      }
      nonceCache := nonceCache[items[0].signer := info.value.nonce];
    }
    for k := 0 to |items|
      invariant ListVerdict(items, source) == Scan(items, source, k)
      invariant CacheRight(nonceCache, items, source, k)
    {
      var requirement := items[k];
      var stateNonce: U64;
      if requirement.signer in nonceCache {
        stateNonce := nonceCache[requirement.signer];
      } else {
        var info := source(requirement.signer);
        if info.None? {
          return Err(SourceError(requirement.signer));
        }
        CacheLoads(nonceCache, items, source, k, requirement.signer);
        nonceCache := nonceCache[requirement.signer := info.value.nonce];
        stateNonce := info.value.nonce;
      }
      assert requirement.signer in nonceCache && nonceCache[requirement.signer] == stateNonce;
      assert Expected(items, source, k) == Some(stateNonce);
      if requirement.nonce < stateNonce {
        return Ok(Never);
      }
      if requirement.nonce > stateNonce {
        return Ok(Future);
      }
      CacheAdvances(nonceCache, items, source, k);
      nonceCache := nonceCache[requirement.signer := WrapAdd64(stateNonce, 1)];
    }
    verdict := Ok(Now);
  }

  // ---- never is permanent ----

  /** A later state: no account's nonce has gone back; balances are arbitrary. */
  ghost predicate Later(now: StateSource, later: StateSource) {
    forall a | now(a).Some? && later(a).Some? :: now(a).value.nonce <= later(a).value.nonce
  }

  /** Where the first of `a`'s transactions matches, its nonce is the state's. */
  lemma {:induction false} FirstBy(reqs: seq<TxRequirement>, k: nat, a: Address) returns (j: nat)
    requires k <= |reqs| && CountBy(reqs, k, a) > 0
    ensures j < k && reqs[j].signer == a
    ensures forall nonce :: NonceAfter(reqs, nonce, j, a) == nonce
  {
    if CountBy(reqs, k - 1, a) > 0 {
      j := FirstBy(reqs, k - 1, a);
    } else {
      j := k - 1;
    }
  }

  /** What matches in a later state was not asked for too late in the earlier one. */
  lemma {:induction false} NotTooLow(reqs: seq<TxRequirement>, now: StateSource,
                                     later: StateSource, k: nat)
    requires Later(now, later) && k < |reqs|
    requires forall j | 0 <= j < k :: Matches(reqs, now, j)
    requires forall j | 0 <= j <= k :: Matches(reqs, later, j)
    ensures Expected(reqs, now, k).Some? ==> Expected(reqs, now, k).value <= reqs[k].nonce
  {
    var a := reqs[k].signer;
    assert Matches(reqs, later, k);
    if CountBy(reqs, k, a) > 0 {
      var j := FirstBy(reqs, k, a);
      assert Matches(reqs, now, j) && Matches(reqs, later, j);
    }
  }

  /** A nonce already used stays used, wrapping included. */
  lemma {:induction false} ListNeverIsPermanent(reqs: seq<TxRequirement>, now: StateSource,
                                                later: StateSource)
    requires Later(now, later) && ListVerdict(reqs, now) == Ok(Never)
    ensures ListVerdict(reqs, later) != Ok(Now)
  {
    VerdictDecides(reqs, now);
    VerdictDecides(reqs, later);
    if ListVerdict(reqs, later) == Ok(Now) {
      var k :| 0 <= k < |reqs|
            && !Matches(reqs, now, k) && Mismatch(reqs, now, k) == Ok(Never)
            && forall j | 0 <= j < k :: Matches(reqs, now, j);
      NotTooLow(reqs, now, later, k);
    }
  }

  // ---- items ----

  /** Distinguishes items: the transaction hash, or the bundle's replacement id. */
  datatype Identifier = Identifier(bytes: nat)

  /** `maxSpend` is the fee cap times the gas limit, plus the value sent. */
  datatype SimTx = SimTx(hash: Identifier, signer: Address, nonce: U64, maxSpend: U256)

  /** A bundle with its replacement id, for one block and a range of timestamps. */
  datatype RecoveredBundle = RecoveredBundle(uuid: Identifier, txs: seq<SimTx>, hostTxs: seq<SimTx>,
                                             blockNumber: U64, minTimestamp: Option<U64>,
                                             maxTimestamp: Option<U64>, reverting: seq<Identifier>)

  datatype SimItem = TxItem(tx: SimTx) | BundleItem(bundle: RecoveredBundle)
  {
    function Id(): Identifier {
      if TxItem? then tx.hash else bundle.uuid
    }
  }

  /** `tx_reqs` and `host_tx_reqs`. */
  function ReqsOf(txs: seq<SimTx>): seq<TxRequirement> {
    seq(|txs|, i requires 0 <= i < |txs| =>
      TxRequirement(txs[i].signer, txs[i].nonce, txs[i].maxSpend))
  }

  function TxVerdict(tx: SimTx, source: StateSource): Verdict {
    var info := source(tx.signer);
    if info.None? then Err(SourceError(tx.signer))
    else if info.value.nonce > tx.nonce then Ok(Never)
    else if info.value.nonce < tx.nonce then Ok(Future)
    else if info.value.balance < tx.maxSpend then Ok(Future)
    else Ok(Now)
  }

  /** A bundle is only as valid as the worse of its two lists. */
  function ItemVerdict(item: SimItem, source: StateSource, host: StateSource): Verdict {
    match item
    case TxItem(tx) => TxVerdict(tx, source)
    case BundleItem(b) =>
      var ru, h := ListVerdict(ReqsOf(b.txs), source), ListVerdict(ReqsOf(b.hostTxs), host);
      if ru.Err? then ru else if h.Err? then h else Ok(MinValidity(ru.value, h.value))
  }

  // ---- items, in terms of accounts ----

  /** How many of the first `k` transactions `a` signed. */
  function SignedBefore(txs: seq<SimTx>, k: nat, a: Address): nat
    requires k <= |txs|
  {
    if k == 0 then 0 else SignedBefore(txs, k - 1, a) + if txs[k - 1].signer == a then 1 else 0
  }

  /** The nonce of the account and of the transactions the same signer has before it. */
  predicate NonceFits(txs: seq<SimTx>, source: StateSource, k: nat)
    requires k < |txs|
  {
    var info := source(txs[k].signer);
    info.Some? && txs[k].nonce == (info.value.nonce + SignedBefore(txs, k, txs[k].signer)) % (U64_MAX + 1)
  }

  /** A list can run now: its first signer can pay, and every nonce fits. */
  predicate RunsNow(txs: seq<SimTx>, source: StateSource) {
    && (txs != [] ==>
          source(txs[0].signer).Some? && txs[0].maxSpend <= source(txs[0].signer).value.balance)
    && (forall k: nat | k < |txs| :: NonceFits(txs, source, k))
  }

  lemma {:induction false} SameCount(txs: seq<SimTx>, k: nat, a: Address)
    requires k <= |txs|
    ensures CountBy(ReqsOf(txs), k, a) == SignedBefore(txs, k, a)
  {
    if k > 0 {
      SameCount(txs, k - 1, a);
    }
  }

  lemma {:induction false} MatchFits(txs: seq<SimTx>, source: StateSource, k: nat)
    requires k < |txs|
    ensures Matches(ReqsOf(txs), source, k) <==> NonceFits(txs, source, k)
  {
    SameCount(txs, k, txs[k].signer);
  }

  lemma {:induction false} ListRunsNow(txs: seq<SimTx>, source: StateSource)
    ensures ListVerdict(ReqsOf(txs), source) == Ok(Now) <==> RunsNow(txs, source)
  {
    VerdictDecides(ReqsOf(txs), source);
    forall k: nat | k < |txs|
      ensures Matches(ReqsOf(txs), source, k) <==> NonceFits(txs, source, k)
    {
      MatchFits(txs, source, k);
    }
    if RunsNow(txs, source) {
      forall k | 0 <= k < |txs|
        ensures Matches(ReqsOf(txs), source, k)
      {
        assert NonceFits(txs, source, k);
      }
    }
  }

  /**
   When an item can run now: a transaction exactly when its nonce is the account's and the
   balance covers what it may spend, a bundle exactly when both its lists can run now.
   */
  lemma {:induction false} ItemRunsNow(item: SimItem, source: StateSource, host: StateSource)
    ensures ItemVerdict(item, source, host) == Ok(Now) <==>
            match item
            case TxItem(tx) =>
              var info := source(tx.signer);
              info.Some? && info.value.nonce == tx.nonce && tx.maxSpend <= info.value.balance
            case BundleItem(b) => RunsNow(b.txs, source) && RunsNow(b.hostTxs, host)
  {
    if item.BundleItem? {
      ListRunsNow(item.bundle.txs, source);
      ListRunsNow(item.bundle.hostTxs, host);
    }
  }

  method CheckItem(item: SimItem, source: StateSource, host: StateSource) returns (verdict: Verdict)
    ensures verdict == ItemVerdict(item, source, host)
    ensures item.TxItem? ==>
              var tx, info := item.tx, source(item.tx.signer);
              && (verdict.Err? <==> info.None?)
              && (verdict == Ok(Never) <==> info.Some? && tx.nonce < info.value.nonce)
              && (verdict == Ok(Now) <==>
                  info.Some? && tx.nonce == info.value.nonce && tx.maxSpend <= info.value.balance)
    ensures item.BundleItem? ==>
              var ru, h := ListVerdict(ReqsOf(item.bundle.txs), source),
                           ListVerdict(ReqsOf(item.bundle.hostTxs), host);
              && (verdict.Err? <==> ru.Err? || h.Err?)
              && (verdict == Ok(Never) <==> ru.Ok? && h.Ok? && (ru == Ok(Never) || h == Ok(Never)))
              && (verdict == Ok(Now) <==> ru == Ok(Now) && h == Ok(Now))
              && (verdict == Ok(Now) <==> RunsNow(item.bundle.txs, source) && RunsNow(item.bundle.hostTxs, host))
  {
    ItemRunsNow(item, source, host);
    match item
    case TxItem(tx) =>
      verdict := TxVerdict(tx, source);
    case BundleItem(b) =>
      var ruTx := CheckBundleTxList(ReqsOf(b.txs), source);
      var hostTx := CheckBundleTxList(ReqsOf(b.hostTxs), host);
      if ruTx.Err? {
        return ruTx;
      }
      if hostTx.Err? {
        return hostTx;
      }
      verdict := Ok(MinValidity(ruTx.value, hostTx.value));
  }

  /**
   An item that is never valid cannot become valid: in no later pair of states does
   it check as valid now.
   */
  lemma {:induction false} NeverIsPermanent(item: SimItem, now: StateSource, hostNow: StateSource,
                                            later: StateSource, hostLater: StateSource)
    requires Later(now, later) && Later(hostNow, hostLater)
    requires ItemVerdict(item, now, hostNow) == Ok(Never)
    ensures ItemVerdict(item, later, hostLater) != Ok(Now)
    ensures item.TxItem? && ItemVerdict(item, later, hostLater).Ok? ==>
              ItemVerdict(item, later, hostLater) == Ok(Never)
  {
    if item.BundleItem? {
      var reqs, hostReqs := ReqsOf(item.bundle.txs), ReqsOf(item.bundle.hostTxs);
      if ListVerdict(reqs, now) == Ok(Never) {
        ListNeverIsPermanent(reqs, now, later);
      }
      if ListVerdict(hostReqs, hostNow) == Ok(Never) {
        ListNeverIsPermanent(hostReqs, hostNow, hostLater);
      }
    }
  }
}

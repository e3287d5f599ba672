/**
 `SignetDriver`: executing a rollup block.  User transactions, mints, then the
 transacts that always pay for their whole gas limit; fills and orders settled
 one transaction at a time; the base fee credited at the end.
 */
module BlockDriver {
  import opened Words
  import opened Ledger
  import opened Settlement
  import opened Aggregation
  import opened Orders
  import opened Debits
  import opened Fills
  import opened Detector
  import opened Inspector
  import opened Supply
  import opened Native

  /** `sender` is `None` when the signature does not recover. */
  datatype UserTx = UserTx(sender: Option<Address>, isBlob: bool, id: nat)

  datatype Transact = Transact(sender: Address, gasLimit: U64, id: nat)

  /** A deposit from the host; one with `usdDecimals` is minted as native currency. */
  datatype Deposit = Deposit(recipient: Address, amount: U256, usdDecimals: Option<U8>, id: nat)

  datatype Job =
    | User(tx: UserTx)
    | System(transact: Transact)
    | TokenMint(deposit: Deposit)
    | NativeMint(credit: Deposit, decimals: U8)

  datatype EvmResult = TxError | DatabaseError | Ran(root: Frame, gas: U64, balances: Balances)

  type Evm = (Balances, Job) -> EvmResult

  /** What stays fixed over a block. */
  datatype Env = Env(evm: Evm, baseFee: U64, filter: Filter, chainId: U64)

  /**
   EIP-1559, section "Specification": the base fee of the gas used leaves
   circulation; nothing else does.  Mints run with gas charges disabled.
   */
  ghost predicate ChargesBaseFee(env: Env) {
    forall b, j | env.evm(b, j).Ran? ::
      && Total(env.evm(b, j).balances) + (if j.TokenMint? then 0 else env.baseFee * env.evm(b, j).gas)
         == Total(b)
      && (j.System? ==> env.evm(b, j).gas <= j.transact.gasLimit)
  }

  /**
   What happened so far: the gas of each accepted paying transaction, the native
   amount minted, the events settled, and whether a transaction was ever rejected
   after its fills had been absorbed.
   */
  datatype Books = Books(paid: seq<U64>, minted: nat, consumed: seq<TxEvents>, torn: bool)

  /** The driver, the chain state and the detector's lists between two jobs. */
  datatype World = World(balances: Balances, processed: seq<Job>, payable: U64, context: Table,
                         pending: Lists, books: Books)

  // ---- one job ----

  /** The lists once a frame has run on top of what was pending. */
  function Grown(env: Env, s: Lists, root: Frame): Lists {
    Extended(env.filter, s, Kept(root))
  }

  /** What `take_aggregates` would hand over. */
  function Taken(env: Env, s: Lists): TxEvents {
    EventsOf(env.chainId, s.fills, s.orders)
  }

  /** The job's events `e` are judged against the context. */
  ghost predicate Judged(pre: World, post: World, job: Job, gas: U64, after: Balances, e: TxEvents) {
    if Settles(pre.context, e) then
      post == World(after, pre.processed + [job], WrapAdd64(pre.payable, gas),
                    Settled(pre.context, e), NO_EVENTS,
                    pre.books.(paid := pre.books.paid + [gas], consumed := pre.books.consumed + [e]))
    else
      && post == World(pre.balances, pre.processed, pre.payable, post.context, NO_EVENTS,
                       pre.books.(torn := pre.books.torn || Check(pre.context, e)))
      && (if Check(pre.context, e) then LeftBy(pre.context, e, post.context)
          else post.context == pre.context)
  }

  /** The base fee of the gas a transact paid for and did not use. */
  function UnusedFee(baseFee: U64, limit: U64, used: U64): nat {
    if used < limit then Product(baseFee, limit - used) else 0
  }

  function Product(x: nat, y: nat): nat {
    MulMonotone(0, x, y);
    x * y
  }

  /** Charging a transact for the gas it did not use. */
  function Charged(b: Balances, sender: Address, debit: nat): Balances
    requires debit <= BalanceOf(b, sender)
  {
    b[sender := BalanceOf(b, sender) - debit]
  }

  ghost predicate UserStep(env: Env, pre: World, tx: UserTx, post: World) {
    if tx.isBlob || tx.sender.None? then post == pre
    else
      match env.evm(pre.balances, User(tx))
      case TxError => post == pre
      case DatabaseError => false
      case Ran(root, gas, after) =>
        Judged(pre, post, User(tx), gas, after, Taken(env, Grown(env, pre.pending, root)))
  }

  ghost predicate SystemStep(env: Env, pre: World, t: Transact, post: World) {
    match env.evm(pre.balances, System(t))
    case TxError => post == pre
    case DatabaseError => false
    case Ran(root, gas, after) =>
      var debit := UnusedFee(env.baseFee, t.gasLimit, gas);
      if BalanceOf(after, t.sender) < debit then
        // Rejected before the events are taken: they stay pending.
        post == pre.(pending := Grown(env, pre.pending, root))
      else
        Judged(pre, post, System(t), t.gasLimit, Charged(after, t.sender, debit),
               Taken(env, Grown(env, pre.pending, root)))
  }

  /** An unmetered mint is accepted without its events being taken. */
  ghost predicate TokenStep(env: Env, pre: World, d: Deposit, post: World) {
    match env.evm(pre.balances, TokenMint(d))
    case TxError => post == pre
    case DatabaseError => false
    case Ran(root, gas, after) =>
      post == pre.(balances := after, processed := pre.processed + [TokenMint(d)],
                   pending := Grown(env, pre.pending, root))
  }

  function Minted(b: Balances, d: Deposit, decimals: U8): Balances {
    b[d.recipient := BalanceOf(b, d.recipient) + MintAmount(d.amount, decimals)]
  }

  ghost predicate NativeStep(pre: World, d: Deposit, decimals: U8, post: World) {
    post == pre.(balances := Minted(pre.balances, d, decimals),
                 processed := pre.processed + [NativeMint(d, decimals)],
                 books := pre.books.(minted := pre.books.minted + MintAmount(d.amount, decimals)))
  }

  /** What one job may do, unless the database fails. */
  ghost predicate Steps(env: Env, pre: World, job: Job, post: World) {
    match job
    case User(tx) => UserStep(env, pre, tx, post)
    case System(t) => SystemStep(env, pre, t, post)
    case TokenMint(d) => TokenStep(env, pre, d, post)
    case NativeMint(d, decimals) => NativeStep(pre, d, decimals, post)
  }

  /** The jobs one after the other. */
  ghost predicate Runs(env: Env, pre: World, jobs: seq<Job>, post: World)
    decreases |jobs|
  {
    if jobs == [] then post == pre
    else
      var before, last := jobs[..|jobs| - 1], jobs[|jobs| - 1];
      exists mid :: Runs(env, pre, before, mid) && Steps(env, mid, last, post)
  }

  lemma {:induction false} RunsOneMore(env: Env, pre: World, jobs: seq<Job>, mid: World, job: Job,
                                       post: World)
    requires Runs(env, pre, jobs, mid) && Steps(env, mid, job, post)
    ensures Runs(env, pre, jobs + [job], post)
  {
    assert (jobs + [job])[..|jobs + [job]| - 1] == jobs;
  }

  lemma {:induction false} LastRun(env: Env, pre: World, jobs: seq<Job>, post: World)
    returns (mid: World)
    requires jobs != [] && Runs(env, pre, jobs, post)
    ensures Runs(env, pre, jobs[..|jobs| - 1], mid) && Steps(env, mid, jobs[|jobs| - 1], post)
  {
    var before, last := jobs[..|jobs| - 1], jobs[|jobs| - 1];
    mid :| Runs(env, pre, before, mid) && Steps(env, mid, last, post);
  }

  lemma {:induction false} RunsAppend(env: Env, pre: World, xs: seq<Job>, mid: World, ys: seq<Job>,
                                      post: World)
    requires Runs(env, pre, xs, mid) && Runs(env, mid, ys, post)
    ensures Runs(env, pre, xs + ys, post)
    decreases |ys|
  {
    if ys == [] {
      assert xs + ys == xs;
    } else {
      var before, last := ys[..|ys| - 1], ys[|ys| - 1];
      assert xs + ys == (xs + before) + [last];
      var w := LastRun(env, mid, ys, post);
      RunsAppend(env, pre, xs, mid, before, w);
      RunsOneMore(env, pre, xs + before, w, last, post);
    }
  }

  lemma {:induction false} ThreePhases(env: Env, a: World, xs: seq<Job>, b: World, ys: seq<Job>,
                                       c: World, zs: seq<Job>, d: World)
    requires Runs(env, a, xs, b) && Runs(env, b, ys, c) && Runs(env, c, zs, d)
    ensures Runs(env, a, xs + ys + zs, d)
  {
    RunsAppend(env, a, xs, b, ys, c);
    RunsAppend(env, a, xs + ys, c, zs, d);
  }

  // ---- what every run keeps ----

  function SumGas(paid: seq<U64>): nat {
    if paid == [] then 0 else SumGas(paid[..|paid| - 1]) + paid[|paid| - 1]
  }

  /**
   The base fee that left circulation is that of the gas paid for, mints added
   what they minted, and the payable gas counts exactly the gas paid for.
   */
  ghost predicate Balanced(env: Env, start: World, w: World) {
    && Total(w.balances) + env.baseFee * SumGas(w.books.paid) == Total(start.balances) + w.books.minted
    && w.payable == SumGas(w.books.paid) % (U64_MAX + 1)
  }

  /** The start of a block: nothing paid, minted or consumed. */
  predicate Fresh(w: World) {
    w.payable == 0 && w.books == Books([], 0, [], false)
  }

  lemma {:induction false} JudgedBalanced(env: Env, start: World, pre: World, post: World, job: Job,
                                          gas: U64, after: Balances, e: TxEvents)
    requires Balanced(env, start, pre) && Judged(pre, post, job, gas, after, e)
    requires Total(after) + env.baseFee * gas == Total(pre.balances)
    ensures Balanced(env, start, post)
  {
    assert (pre.books.paid + [gas])[..|pre.books.paid + [gas]| - 1] == pre.books.paid;
    Distribute(env.baseFee, SumGas(pre.books.paid), gas);
    WrapSum(pre.payable, SumGas(pre.books.paid), gas);
  }

  lemma {:induction false} ChargedTotal(before: Balances, after: Balances, sender: Address,
                                        baseFee: U64, used: U64, limit: U64, debit: nat)
    requires used <= limit && Total(after) + baseFee * used == Total(before)
    requires debit == UnusedFee(baseFee, limit, used) <= BalanceOf(after, sender)
    ensures Total(Charged(after, sender, debit)) + baseFee * limit == Total(before)
  {
    TotalSet(after, sender, BalanceOf(after, sender) - debit);
    Distribute(baseFee, used, limit - used);
  }

  lemma {:induction false} SystemBalanced(env: Env, start: World, pre: World, t: Transact, post: World)
    requires ChargesBaseFee(env) && Balanced(env, start, pre) && SystemStep(env, pre, t, post)
    ensures Balanced(env, start, post)
  {
    var run := env.evm(pre.balances, System(t));
    if run.Ran? {
      var debit := UnusedFee(env.baseFee, t.gasLimit, run.gas);
      if debit <= BalanceOf(run.balances, t.sender) {
        ChargedTotal(pre.balances, run.balances, t.sender, env.baseFee, run.gas, t.gasLimit, debit);
        JudgedBalanced(env, start, pre, post, System(t), t.gasLimit,
                       Charged(run.balances, t.sender, debit),
                       Taken(env, Grown(env, pre.pending, run.root)));
      }
    }
  }

  lemma {:induction false} StepBalanced(env: Env, start: World, pre: World, job: Job, post: World)
    requires ChargesBaseFee(env) && Balanced(env, start, pre) && Steps(env, pre, job, post)
    ensures Balanced(env, start, post)
  {
    var run := env.evm(pre.balances, job);
    match job
    case User(tx) =>
      if run.Ran? && post != pre {
        JudgedBalanced(env, start, pre, post, job, run.gas, run.balances,
                       Taken(env, Grown(env, pre.pending, run.root)));
      }
    case System(t) =>
      SystemBalanced(env, start, pre, t, post);
    case TokenMint(d) =>
    case NativeMint(d, decimals) =>
      TotalSet(pre.balances, d.recipient,
               BalanceOf(pre.balances, d.recipient) + MintAmount(d.amount, decimals));
  }

  lemma {:induction false} RunBalanced(env: Env, start: World, jobs: seq<Job>, w: World)
    requires ChargesBaseFee(env) && Fresh(start) && Runs(env, start, jobs, w)
    ensures Balanced(env, start, w)
    decreases |jobs|
  {
    if jobs != [] {
      var mid := LastRun(env, start, jobs, w);
      RunBalanced(env, start, jobs[..|jobs| - 1], mid);
      StepBalanced(env, start, mid, jobs[|jobs| - 1], w);
    }
  }

  // ---- what the ledger keeps ----

  /** Unless something was torn, the context is what consuming the events one by one leaves. */
  ghost predicate InStep(ctx: Table, w: World) {
    !w.books.torn ==>
      RunSettles(ctx, w.books.consumed) && w.context == RunSettled(ctx, w.books.consumed)
  }

  predicate PositiveOrders(orders: seq<Order>) {
    forall o, out | o in orders && out in o.outputs :: out.amount > 0
  }

  /** No contract call ever asks for an output of nothing. */
  ghost predicate EmitsPositive(env: Env) {
    forall b, j | env.evm(b, j).Ran? ::
      PositiveOrders(env.filter.OrdersIn(Kept(env.evm(b, j).root)))
  }

  lemma {:induction false} EntriesPositive(orders: seq<Order>)
    requires PositiveOrders(orders)
    ensures forall e | e in EntriesOf(orders) :: e.amount > 0
  {
    if orders != [] {
      var n := |orders| - 1;
      EntriesPositive(orders[..n]);
      assert orders[n] in orders;
      forall e | e in OrderEntries(orders[n].outputs)
        ensures e.amount > 0
      {
        var k :| 0 <= k < |orders[n].outputs| && OrderEntries(orders[n].outputs)[k] == e;
        assert orders[n].outputs[k] in orders[n].outputs;
      }
    }
  }

  /** In step, and with nothing but positive orders pending, so that nothing can tear. */
  ghost predicate Intact(ctx: Table, w: World) {
    && !w.books.torn && PositiveOrders(w.pending.orders)
    && RunSettles(ctx, w.books.consumed) && w.context == RunSettled(ctx, w.books.consumed)
  }

  lemma {:induction false} JudgedInStep(ctx: Table, pre: World, post: World, job: Job, gas: U64,
                                        after: Balances, e: TxEvents)
    requires InStep(ctx, pre) && Judged(pre, post, job, gas, after, e)
    ensures InStep(ctx, post)
  {
    assert (pre.books.consumed + [e])[..|pre.books.consumed + [e]| - 1] == pre.books.consumed;
  }

  /** Positive orders that pass the check are always removed: nothing is torn. */
  lemma {:induction false} JudgedIntact(ctx: Table, pre: World, post: World, job: Job, gas: U64,
                                        after: Balances, env: Env, s: Lists)
    requires InStep(ctx, pre) && Judged(pre, post, job, gas, after, Taken(env, s))
    ensures InStep(ctx, post)
    ensures Intact(ctx, pre) && PositiveOrders(s.orders) ==> Intact(ctx, post)
  {
    var e := Taken(env, s);
    JudgedInStep(ctx, pre, post, job, gas, after, e);
    if Intact(ctx, pre) && PositiveOrders(s.orders) && Check(pre.context, e) {
      EntriesPositive(s.orders);
      PositiveEntries(EntriesOf(s.orders));
      PositiveIsCovered(pre.context, e);
    }
  }

  /** More positive orders on top of positive ones. */
  lemma {:induction false} GrownPositive(env: Env, s: Lists, root: Frame)
    requires PositiveOrders(s.orders) && PositiveOrders(env.filter.OrdersIn(Kept(root)))
    ensures PositiveOrders(Grown(env, s, root).orders)
  {
  }

  lemma {:induction false} StepInStep(env: Env, ctx: Table, pre: World, job: Job, post: World)
    requires InStep(ctx, pre) && Steps(env, pre, job, post)
    ensures InStep(ctx, post)
    ensures EmitsPositive(env) && Intact(ctx, pre) ==> Intact(ctx, post)
  {
    var run := env.evm(pre.balances, job);
    if run.Ran? && !job.NativeMint? {
      var s := Grown(env, pre.pending, run.root);
      if EmitsPositive(env) && Intact(ctx, pre) {
        GrownPositive(env, pre.pending, run.root);
      }
      if job.User? && post != pre {
        JudgedIntact(ctx, pre, post, job, run.gas, run.balances, env, s);
      }
      if job.System? {
        var t := job.transact;
        var debit := UnusedFee(env.baseFee, t.gasLimit, run.gas);
        if debit <= BalanceOf(run.balances, t.sender) {
          JudgedIntact(ctx, pre, post, job, t.gasLimit, Charged(run.balances, t.sender, debit), env, s);
        }
      }
    }
  }

  /**
   Over any jobs the context stays in step with the events consumed until a
   removal is torn, and with positive orders none ever is.
   */
  lemma {:induction false} RunInStep(env: Env, start: World, jobs: seq<Job>, w: World)
    requires Fresh(start) && Runs(env, start, jobs, w)
    ensures InStep(start.context, w)
    ensures EmitsPositive(env) && PositiveOrders(start.pending.orders) ==> Intact(start.context, w)
    decreases |jobs|
  {
    if jobs != [] {
      var mid := LastRun(env, start, jobs, w);
      RunInStep(env, start, jobs[..|jobs| - 1], mid);
      StepInStep(env, start.context, mid, jobs[|jobs| - 1], w);
    }
  }

  /** While users run, nothing is left over: each is judged on its own surviving logs. */
  lemma {:induction false} UserJudgedAlone(env: Env, pre: World, tx: UserTx, post: World)
    requires pre.pending == NO_EVENTS && UserStep(env, pre, tx, post)
    ensures post.pending == NO_EVENTS
    ensures var run := env.evm(pre.balances, User(tx));
            if !tx.isBlob && tx.sender.Some? && run.Ran? then
              Judged(pre, post, User(tx), run.gas, run.balances,
                     EventsIn(env.filter, env.chainId, run.root))
            else post == pre
  {
    var run := env.evm(pre.balances, User(tx));
    if run.Ran? {
      ExtendedFromNone(env.filter, Kept(run.root));
    }
  }

  // ---- the end of the block ----

  /** `clear_ru_passage_balance`: what was sent to the passage is burned. */
  function Cleared(b: Balances, passage: Address): Balances {
    b[passage := 0]
  }

  /** `credit_base_fee`: the payable gas at the base fee; nothing is touched for an amount of zero. */
  function Credited(b: Balances, recipient: Address, amount: nat): Balances {
    if amount == 0 then b else b[recipient := BalanceOf(b, recipient) + amount]
  }

  lemma {:induction false} CreditedTotal(b: Balances, recipient: Address, amount: nat)
    ensures Total(Credited(b, recipient, amount)) == Total(b) + amount
  {
    TotalSet(b, recipient, BalanceOf(b, recipient) + amount);
  }

  lemma {:induction false} SameFee(fee: nat, x: nat, y: nat)
    requires y <= x
    ensures fee * y <= fee * x
    ensures fee * y == fee * x <==> fee == 0 || x == y
  {
    Distribute(fee, y, x - y);
    if fee > 0 && y < x {
      MulPositive(fee, x - y);
    }
  }

  /**
   Base-fee conservation over a whole block: what is credited at the end is the
   base fee that was charged, so that only mints and the passage change the
   supply, exactly when there is no base fee or the gas paid for fits its counter.
   */
  lemma {:induction false} BlockConserves(env: Env, start: World, jobs: seq<Job>, w: World,
                                          passage: Address, recipient: Address, end: Balances)
    requires ChargesBaseFee(env) && Fresh(start) && Runs(env, start, jobs, w)
    requires end == Credited(Cleared(w.balances, passage), recipient, Product(env.baseFee, w.payable))
    ensures var burned := BalanceOf(w.balances, passage);
            var paid := SumGas(w.books.paid);
            && Total(end) + burned + env.baseFee * paid
               == Total(start.balances) + w.books.minted + env.baseFee * w.payable
            && Total(end) + burned <= Total(start.balances) + w.books.minted
            && (Total(end) + burned == Total(start.balances) + w.books.minted <==>
                env.baseFee == 0 || paid <= U64_MAX)
  {
    RunBalanced(env, start, jobs, w);
    TotalSet(w.balances, passage, 0);
    CreditedTotal(Cleared(w.balances, passage), recipient, Product(env.baseFee, w.payable));
    var paid := SumGas(w.books.paid);
    Wrapped(paid, w.payable);
    SameFee(env.baseFee, paid, w.payable);
  }

  lemma {:induction false} Wrapped(x: nat, y: U64)
    requires y == x % (U64_MAX + 1)
    ensures y <= x && (y == x <==> x <= U64_MAX)
  {
  }

  function UserJob(tx: UserTx): Job {
    User(tx)
  }

  function SystemJob(t: Transact): Job {
    System(t)
  }

  function TokenJob(d: Deposit): Job {
    TokenMint(d)
  }

  /** A token the host counts as dollars is minted as native currency. */
  function DepositJob(d: Deposit): Job {
    if d.usdDecimals.Some? then NativeMint(d, d.usdDecimals.value) else TokenMint(d)
  }

  function Each<T>(job: T -> Job, xs: seq<T>): seq<Job> {
    seq(|xs|, i requires 0 <= i < |xs| => job(xs[i]))
  }

  /** A loop over `xs` has done one more. */
  lemma {:induction false} OneMore<T>(env: Env, start: World, job: T -> Job, xs: seq<T>, k: nat,
                                      before: World, after: World)
    requires k < |xs| && Runs(env, start, Each(job, xs[..k]), before)
    requires Steps(env, before, job(xs[k]), after)
    ensures Runs(env, start, Each(job, xs[..k + 1]), after)
  {
    RunsOneMore(env, start, Each(job, xs[..k]), before, job(xs[k]), after);
    assert Each(job, xs[..k]) + [job(xs[k])] == Each(job, xs[..k + 1]);
  }

  lemma {:induction false} AllDone<T>(job: T -> Job, xs: seq<T>)
    ensures Each(job, xs[..|xs|]) == Each(job, xs)
    ensures Each(job, xs[..0]) == []
  {
    assert xs[..|xs|] == xs;
  }

  predicate AreUsers(jobs: seq<Job>, txs: seq<UserTx>) {
    |jobs| == |txs| && forall i | 0 <= i < |txs| :: jobs[i] == User(txs[i])
  }

  predicate AreTokenMints(jobs: seq<Job>, enters: seq<Deposit>) {
    |jobs| == |enters| && forall i | 0 <= i < |enters| :: jobs[i] == TokenMint(enters[i])
  }

  predicate AreMints(jobs: seq<Job>, deposits: seq<Deposit>) {
    && |jobs| == |deposits|
    && forall i | 0 <= i < |deposits| ::
         jobs[i] == match deposits[i].usdDecimals
                    case Some(decimals) => NativeMint(deposits[i], decimals)
                    case None => TokenMint(deposits[i])
  }

  predicate AreTransacts(jobs: seq<Job>, transacts: seq<Transact>) {
    |jobs| == |transacts| && forall i | 0 <= i < |transacts| :: jobs[i] == System(transacts[i])
  }

  /**
   The jobs in their phases: every user transaction in the order of the queue, then a mint
   for every enter and every deposit, then every transact, and no job besides.
   */
  predicate InPhases(jobs: seq<Job>, txs: seq<UserTx>, enters: seq<Deposit>, deposits: seq<Deposit>,
                     transacts: seq<Transact>) {
    var first, second, third := |txs|, |txs| + |enters|, |txs| + |enters| + |deposits|;
    && |jobs| == third + |transacts|
    && AreUsers(jobs[..first], txs) && AreTokenMints(jobs[first..second], enters)
    && AreMints(jobs[second..third], deposits) && AreTransacts(jobs[third..], transacts)
  }

  lemma {:induction false} FourParts<T>(a: seq<T>, b: seq<T>, c: seq<T>, d: seq<T>)
    ensures var all, n, m := a + (b + c) + d, |a| + |b|, |a| + |b| + |c|;
            && |all| == m + |d|
            && all[..|a|] == a && all[|a|..n] == b && all[n..m] == c && all[m..] == d
  {
  }

  class SignetDriver {
    const env: Env
    const passage: Address
    const baseFeeRecipient: Address
    const enters: seq<Deposit>
    const enterTokens: seq<Deposit>
    const transacts: seq<Transact>
    const detector: OrderDetector
    const workingContext: AggregateFills
    var toProcess: seq<UserTx>
    var processed: seq<Job>
    var payableGasUsed: U64
    var balances: Balances
    ghost var books: Books

    constructor (env: Env, passage: Address, baseFeeRecipient: Address, enters: seq<Deposit>,
                 enterTokens: seq<Deposit>, transacts: seq<Transact>, context: Table,
                 balances: Balances, toProcess: seq<UserTx>)
      ensures Now() == World(balances, [], 0, context, NO_EVENTS, Books([], 0, [], false))
      ensures Listening()
      ensures this.env == env && this.toProcess == toProcess
      ensures this.passage == passage && this.baseFeeRecipient == baseFeeRecipient
      ensures this.enters == enters && this.enterTokens == enterTokens && this.transacts == transacts
      ensures fresh(workingContext) && fresh(detector)
      ensures fresh(detector.orders) && fresh(detector.filleds)
    {
      this.env, this.passage, this.baseFeeRecipient := env, passage, baseFeeRecipient;
      this.enters, this.enterTokens, this.transacts := enters, enterTokens, transacts;
      detector := new OrderDetector(env.filter, env.chainId);
      workingContext := new AggregateFills(context);
      this.toProcess, processed, payableGasUsed := toProcess, [], 0;
      this.balances := balances;
      books := Books([], 0, [], false);
    }

    ghost function Now(): World
      reads this, workingContext, detector, detector.orders, detector.filleds
    {
      World(balances, processed, payableGasUsed, workingContext.fills, detector.Contents(), books)
    }

    /** The detector watches this rollup's order contracts. */
    ghost predicate Listening() {
      detector.filter == env.filter && detector.chainId == env.chainId
    }

    /** Takes the pending events out of the detector and settles them if it can. */
    method SettlePending(ghost e: TxEvents) returns (accepted: bool)
      requires Listening() && e == Taken(env, detector.Contents())
      modifies workingContext, detector
      ensures detector.Contents() == NO_EVENTS
      ensures fresh(detector.orders) && fresh(detector.filleds)
      ensures accepted <==> Settles(old(workingContext.fills), e)
      ensures accepted ==> workingContext.fills == Settled(old(workingContext.fills), e)
      ensures !Check(old(workingContext.fills), e) ==>
                workingContext.fills == old(workingContext.fills)
      ensures Check(old(workingContext.fills), e) ==>
                LeftBy(old(workingContext.fills), e, workingContext.fills)
    {
      var fills, orders := detector.TakeAggregates();
      var outcome;
      ghost var visits;
      outcome, visits := workingContext.CheckedRemoveRuTxEvents(fills.fills, orders.outputs);
      accepted := outcome == Accepted;
    }

    /** `accept_tx`. */
    method AcceptTx(job: Job, after: Balances)
      modifies this`processed, this`balances
      ensures processed == old(processed) + [job] && balances == after
    {
      processed := processed + [job];
      balances := after;
    }

    /**
     `check_fills_and_accept`: the pending events settle and the new state is kept,
     or the outcome is discarded.
     */
    method CheckFillsAndAccept(job: Job, gas: U64, after: Balances, ghost e: TxEvents)
      requires Listening() && e == Taken(env, detector.Contents())
      modifies this`processed, this`payableGasUsed, this`balances, this`books
      modifies workingContext, detector
      ensures fresh(detector.orders) && fresh(detector.filleds)
      ensures Judged(old(Now()), Now(), job, gas, after, e)
      ensures if Settles(old(workingContext.fills), e)
              then
                && processed == old(processed) + [job] && balances == after
                && payableGasUsed == WrapAdd64(old(payableGasUsed), gas)
                && workingContext.fills == Settled(old(workingContext.fills), e)
              else
                processed == old(processed) && balances == old(balances)
                && payableGasUsed == old(payableGasUsed)
    {
      ghost var ctx := workingContext.fills;
      var accepted := SettlePending(e);
      if !accepted {
        books := books.(torn := books.torn || Check(ctx, e));
        return;
      }
      payableGasUsed := WrapAdd64(payableGasUsed, gas);
      books := books.(paid := books.paid + [gas], consumed := books.consumed + [e]);
      AcceptTx(job, after);
    }

    /**
     `execute_transaction`: an unrecoverable signer or a transaction the EVM refuses
     leaves no trace; otherwise the outcome is judged.
     */
    method ExecuteTransaction(tx: UserTx) returns (fatal: bool)
      requires Listening() && !tx.isBlob
      modifies this`processed, this`payableGasUsed, this`balances, this`books
      modifies workingContext, detector, detector.orders, detector.filleds
      ensures detector.orders == old(detector.orders) || fresh(detector.orders)
      ensures detector.filleds == old(detector.filleds) || fresh(detector.filleds)
      ensures fatal <==> tx.sender.Some? && env.evm(old(balances), User(tx)).DatabaseError?
      ensures !fatal ==> UserStep(env, old(Now()), tx, Now())
      ensures tx.sender.None? || env.evm(old(balances), User(tx)).TxError? ==> Now() == old(Now())
    {
      if tx.sender.None? {
        return false;
      }
      var run := env.evm(balances, User(tx));
      match run
      case TxError => fatal := false;
      case DatabaseError => fatal := true;
      case Ran(root, gas, after) =>
        detector.Run(root);
        CheckFillsAndAccept(User(tx), gas, after, Taken(env, detector.Contents()));
        fatal := false;
    }

    /** `execute_all_transactions`: the queue in order, blob transactions skipped. */
    method ExecuteAllTransactions() returns (fatal: bool)
      requires Listening()
      modifies this`toProcess, this`processed, this`payableGasUsed, this`balances, this`books
      modifies workingContext, detector, detector.orders, detector.filleds
      ensures detector.orders == old(detector.orders) || fresh(detector.orders)
      ensures detector.filleds == old(detector.filleds) || fresh(detector.filleds)
      ensures !fatal ==> toProcess == [] && Runs(env, old(Now()), Each(UserJob, old(toProcess)), Now())
    {
      ghost var start, txs, k := Now(), toProcess, 0;
      AllDone(UserJob, txs);
      while toProcess != []
        invariant 0 <= k <= |txs| && toProcess == txs[k..]
        invariant detector.orders == old(detector.orders) || fresh(detector.orders)
        invariant detector.filleds == old(detector.filleds) || fresh(detector.filleds)
        invariant Runs(env, start, Each(UserJob, txs[..k]), Now())
        decreases |toProcess|
      {
        var tx := toProcess[0];
        toProcess := toProcess[1..];
        ghost var before := Now();
        if !tx.isBlob {
          fatal := ExecuteTransaction(tx);
          if fatal {
            return;
          }
        }
        OneMore(env, start, UserJob, txs, k, before, Now());
        k := k + 1;
      }
      fatal := false;
    }

    /** `apply_metered_sys_transaction_single`. */
    method ApplyMetered(t: Transact) returns (fatal: bool)
      requires Listening()
      modifies this`processed, this`payableGasUsed, this`balances, this`books
      modifies workingContext, detector, detector.orders, detector.filleds
      ensures detector.orders == old(detector.orders) || fresh(detector.orders)
      ensures detector.filleds == old(detector.filleds) || fresh(detector.filleds)
      ensures fatal <==> env.evm(old(balances), System(t)).DatabaseError?
      ensures !fatal ==> SystemStep(env, old(Now()), t, Now())
      ensures var run := env.evm(old(balances), System(t));
              && (run.TxError? ==> Now() == old(Now()))
              && (run.Ran? && BalanceOf(run.balances, t.sender) < UnusedFee(env.baseFee, t.gasLimit, run.gas) ==>
                  && balances == old(balances) && processed == old(processed)
                  && payableGasUsed == old(payableGasUsed) && workingContext.fills == old(workingContext.fills))
    {
      var run := env.evm(balances, System(t));
      match run
      case TxError => fatal := false;
      case DatabaseError => fatal := true;
      case Ran(root, gas, after) =>
        fatal := false;
        detector.Run(root);
        var debit := UnusedFee(env.baseFee, t.gasLimit, gas);
        if debit <= BalanceOf(after, t.sender) {
          var charged := Charged(after, t.sender, debit);
          CheckFillsAndAccept(System(t), t.gasLimit, charged, Taken(env, detector.Contents()));
        }
    }

    /** `execute_all_transacts`. */
    method ExecuteAllTransacts() returns (fatal: bool)
      requires Listening()
      modifies this`processed, this`payableGasUsed, this`balances, this`books
      modifies workingContext, detector, detector.orders, detector.filleds
      ensures detector.orders == old(detector.orders) || fresh(detector.orders)
      ensures detector.filleds == old(detector.filleds) || fresh(detector.filleds)
      ensures !fatal ==> Runs(env, old(Now()), Each(SystemJob, transacts), Now())
    {
      ghost var start := Now();
      AllDone(SystemJob, transacts);
      for i := 0 to |transacts|
        invariant detector.orders == old(detector.orders) || fresh(detector.orders)
        invariant detector.filleds == old(detector.filleds) || fresh(detector.filleds)
        invariant Runs(env, start, Each(SystemJob, transacts[..i]), Now())
      {
        ghost var before := Now();
        fatal := ApplyMetered(transacts[i]);
        if fatal {
          return;
        }
        OneMore(env, start, SystemJob, transacts, i, before, Now());
      }
      fatal := false;
    }

    /** `apply_unmetered_sys_transaction_inner`: accepted without looking at its events. */
    method ApplyUnmetered(d: Deposit) returns (fatal: bool)
      requires Listening()
      modifies this`processed, this`balances, detector.orders, detector.filleds
      ensures fatal <==> env.evm(old(balances), TokenMint(d)).DatabaseError?
      ensures !fatal ==> TokenStep(env, old(Now()), d, Now())
      ensures var run := env.evm(old(balances), TokenMint(d));
              if run.Ran?
              then balances == run.balances && processed == old(processed) + [TokenMint(d)]
              else balances == old(balances) && processed == old(processed)
    {
      var run := env.evm(balances, TokenMint(d));
      match run
      case TxError => fatal := false;
      case DatabaseError => fatal := true;
      case Ran(root, _, after) =>
        detector.Run(root);
        AcceptTx(TokenMint(d), after);
        fatal := false;
    }

    /** `apply_sys_action_single` for a native mint: the EVM does not run. */
    method ApplyNativeMint(d: Deposit, decimals: U8)
      modifies this`processed, this`balances, this`books
      ensures NativeStep(old(Now()), d, decimals, Now())
      ensures forall a ::
                BalanceOf(balances, a)
                == BalanceOf(old(balances), a) + if a == d.recipient then MintAmount(d.amount, decimals) else 0
      ensures processed == old(processed) + [NativeMint(d, decimals)]
    {
      var amount := MintAmount(d.amount, decimals);
      balances := balances[d.recipient := BalanceOf(balances, d.recipient) + amount];
      processed := processed + [NativeMint(d, decimals)];
      books := books.(minted := books.minted + amount);
    }

    /** `run_mints_inner`: deposits of ether as tokens, then token deposits. */
    method RunAllMints() returns (fatal: bool)
      requires Listening()
      modifies this`processed, this`balances, this`books, detector.orders, detector.filleds
      ensures !fatal ==>
                Runs(env, old(Now()), Each(TokenJob, enters) + Each(DepositJob, enterTokens), Now())
    {
      ghost var start := Now();
      AllDone(TokenJob, enters);
      AllDone(DepositJob, enterTokens);
      for i := 0 to |enters|
        invariant Runs(env, start, Each(TokenJob, enters[..i]), Now())
      {
        ghost var before := Now();
        fatal := ApplyUnmetered(enters[i]);
        if fatal {
          return;
        }
        OneMore(env, start, TokenJob, enters, i, before, Now());
      }
      ghost var mid := Now();
      for i := 0 to |enterTokens|
        invariant Runs(env, mid, Each(DepositJob, enterTokens[..i]), Now())
      {
        var d := enterTokens[i];
        ghost var before := Now();
        if d.usdDecimals.Some? {
          ApplyNativeMint(d, d.usdDecimals.value);
        } else {
          fatal := ApplyUnmetered(d);
          if fatal {
            return;
          }
        }
        OneMore(env, mid, DepositJob, enterTokens, i, before, Now());
      }
      RunsAppend(env, start, Each(TokenJob, enters), mid, Each(DepositJob, enterTokens), Now());
      fatal := false;
    }

    method ClearPassage()
      modifies this`balances
      ensures balances == Cleared(old(balances), passage)
      ensures forall a :: BalanceOf(balances, a) == if a == passage then 0 else BalanceOf(old(balances), a)
    {
      balances := balances[passage := 0];
    }

    method CreditBaseFee(gasUsed: U64)
      modifies this`balances
      ensures balances == Credited(old(balances), baseFeeRecipient, Product(env.baseFee, gasUsed))
      ensures forall a ::
                BalanceOf(balances, a)
                == BalanceOf(old(balances), a) + if a == baseFeeRecipient then Product(env.baseFee, gasUsed) else 0
    {
      var amount := Product(env.baseFee, gasUsed);
      if amount == 0 {
        return;
      }
      balances := balances[baseFeeRecipient := BalanceOf(balances, baseFeeRecipient) + amount];
    }

    /** The jobs of the block, in the order in which they run. */
    ghost function Jobs(txs: seq<UserTx>): seq<Job> {
      Each(UserJob, txs) + (Each(TokenJob, enters) + Each(DepositJob, enterTokens))
      + Each(SystemJob, transacts)
    }

    lemma {:induction false} PhasesOf(txs: seq<UserTx>)
      ensures InPhases(Jobs(txs), txs, enters, enterTokens, transacts)
    {
      FourParts(Each(UserJob, txs), Each(TokenJob, enters), Each(DepositJob, enterTokens),
                Each(SystemJob, transacts));
    }

    /** User transactions, then mints, then transacts. */
    method RunPhases() returns (fatal: bool)
      requires Listening()
      modifies this`toProcess, this`processed, this`payableGasUsed, this`balances, this`books
      modifies workingContext, detector, detector.orders, detector.filleds
      ensures !fatal ==> toProcess == [] && Runs(env, old(Now()), Jobs(old(toProcess)), Now())
    {
      ghost var start, users := Now(), Each(UserJob, toProcess);
      fatal := ExecuteAllTransactions();
      if fatal { return; }
      ghost var second := Now();
      fatal := RunAllMints();
      if fatal { return; }
      ghost var third := Now();
      fatal := ExecuteAllTransacts();
      if fatal { return; }
      ThreePhases(env, start, users, second,
                  Each(TokenJob, enters) + Each(DepositJob, enterTokens), third,
                  Each(SystemJob, transacts), Now());
    }

    /** `run_txns`: the whole block; `w` is where it stood before the passage was cleared. */
    method RunTxns() returns (fatal: bool, ghost w: World)
      requires Listening()
      modifies this`toProcess, this`processed, this`payableGasUsed, this`balances, this`books
      modifies workingContext, detector, detector.orders, detector.filleds
      ensures !fatal ==>
                && toProcess == [] && Runs(env, old(Now()), Jobs(old(toProcess)), w)
                && Now() == w.(balances := balances)
                && balances == Credited(Cleared(w.balances, passage), baseFeeRecipient,
                                        Product(env.baseFee, w.payable))
      ensures InPhases(Jobs(old(toProcess)), old(toProcess), enters, enterTokens, transacts)
    {
      PhasesOf(toProcess);
      fatal := RunPhases();
      w := Now();
      if fatal { return; }
      ClearPassage();
      CreditBaseFee(payableGasUsed);
    }
  }
}

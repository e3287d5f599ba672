# Signet: orders, fills and blocks

A Dafny model of how the Signet rollup collects orders and fills, settles them,
builds blocks from a cache of candidate items, executes them in a node, and keeps
a chain of journals.  The properties are stated for all inputs, all runs and all
iteration or arrival orders.

## How the files fit together

- `Words`, `Ledger`, `Settlement`: machine integers; the nested balance maps with
  their sums and differences; when one transaction's fills and orders settle, and
  what a sequence of settlements keeps.
- `Batch`, `Agreement`, `Blocks`, `HostFirst`, `Saturation`: the builder checks running
  totals against a fixed context, the node consumes one transaction at a time.  These
  modules prove when the two agree, up to whole blocks, and where they do not.
- `Aggregation`, `Debits`, `Fills`, `Orders`: folding amounts into tables; taking orders
  out entry by entry in any order; the two aggregate classes with their in-place loops.
- `Signing`, `SignedSettlement`: signed fills, and the way from orders to a ledger in
  which they settle exactly.
- `Detector`, `Inspector`: the framed event lists driven by the hooks of the EVM,
  refined against call trees.
- `NodeLedger`, `BundleDriver`, `Dropped`: what a ledger makes of every transaction of a
  block; the loop over host and rollup transactions of one bundle; why transactions that
  a bundle drops matter.
- `Native`, `Supply`, `BlockDriver`, `Leftovers`: mint arithmetic, account totals, the
  execution of a block as a transition relation that the driver class follows, and the
  events that stay pending between its jobs.
- `JournalSet`: the journal chain.
- `Validity`, `Lru`, `CacheStore`, `Simulation`, `BlockBuild`: nonce checks, the memory
  of disallowed identifiers, the ranked cache, one round of simulation threads, and the
  building of a block.
- `NodeReplay`, `EndToEnd`: all runs of the block driver over a list of transactions, and
  over a block that was built with the same EVM.

A class stands where the source updates an object in place; its methods are proved
against functions and relations on values, and the theorems are about those.  A
`HashMap` is iterated by picking any remaining key; threads finish by picking any
remaining thread.  `u64` arithmetic wraps as in release builds (the
workspace does not enable overflow checks), `U256` operations saturate, wrap or are
checked as the source has it.

The EVM is a parameter: any function from a state and a job to a refusal, or to a
call tree with logs, gas and new balances.  Only two groups of theorems assume something
about it: those about the base fee, that the base fee of the gas used leaves circulation
and nothing else does (EIP-1559, section "Specification"); those of `EndToEnd`, that the
builder simulates with the EVM of the node.

## What the proofs found

- `BuiltBlock::ingest_bundle` puts every transaction of a bundle into the block, also one
  that may revert and was dropped for lack of fills.  With the host fills of a later bundle
  it may settle in a node, and then a transaction the builder settled need not
  (`DroppedTransactions.DroppedSettlesInNode`); or it may be half removed, with the same
  result (`DroppedTransactions.DroppedTearsNode`).  In every order of visits the node accepts
  exactly what the builder took, and keeps its ledger, if and only if that settles one by
  one and every dropped transaction is harmless at its place: it fails the check, or it
  misses a key while its fills add nothing and its orders ask for nothing
  (`NodeLedgers.FollowsWhen`, `BlockBuilding.BuiltBlockIsAccepted`,
  `EndToEnd.NodeRunsBuiltBlock`).  With positive orders that is: none of them settles at
  its place (`NodeLedgers.PositiveHarmless`).
- Running checks compare capped totals.  If the orders of a list exceed the largest
  U256 at a key, they can pass although the list cannot be consumed one by one
  (`Saturation.CappedTotalsMislead`); they agree for every list whose order totals
  fit (`Batch.BatchEqualsSequence`), and where no credit saturates for no other
  (`Batch.SettlesIffOrdersFit`).
- Crediting host fills before the first transaction may cost acceptance: a node rejects a
  block the builder settled by spending a full balance that a later bundle refills
  (`Saturation.RefillMatters`).  Of what the builder settled it accepts every block whose
  order totals fit a U256 and, where its own credits do not saturate, no other
  (`HostFirst.HostFillsFirst`).  Ending with
  the same ledger takes more: that no credit saturates (`HostFirst.HostFillsLeave`).
- `checked_remove_ru_tx_events` is documented as leaving the context untouched on
  error.  An order of zero for a key nobody has is rejected after the fills were
  absorbed (`Fills.RejectedYetCreditedExample`, `Fills.KnownYetCreditedExample`).
  `Debits.AtomicWhen` says exactly when the promise holds: in particular with positive
  orders, or whenever all ordered keys exist.
- `checked_remove_aggregate` panics for an order of zero when the asset exists and
  the recipient does not; the contract states the exact condition.
- A transact rejected for lack of balance, and every mint, leave their events in the
  detector.  The next transact that is judged answers for them, so that a fill whose state
  was discarded can pay an order (`Leftovers.DiscardedFillPays`,
  `Leftovers.TransactJudgedOn`).  Each job answers for its own events alone exactly when no
  such job comes before a judged one (`Leftovers.JudgedAlone`).  User transactions run
  before both, so they always do (`BlockDriver.UserJudgedAlone`).
- Splitting a deposit can mint more than the whole when the whole, scaled up, wraps
  (`Native.PartsMintMoreExample`); `Native.PartsMintNoMore` and, in amounts,
  `Native.FittingPartsMintNoMore` say exactly when it does not.
- The comment in `pop_back` says that height zero is handled; in release builds the
  height wraps to the largest `u64`, in debug builds the subtraction panics.  The
  chain invariant holds with wrapping heights; lookup is exact as long as the stored
  heights do not wrap (`JournalSets.IndexIsExact`, `JournalSets.WrappedIsLost`).
- At capacity the cache evicts its lowest item for any newcomer, also one with a
  lower fee (`CacheStores.LowFeeEvicts`).
- The `expect("checked during simulation")` fails exactly when an outcome orders a
  zero amount at a key nobody has, never with positive orders.

## Model

| member | source | states |
|---|---|---|
| Batch.BatchEqualsSequence | crates/types/src/agg/fill.rs:266-292 | A list of transactions whose order totals fit a U256 is consumed one by one exactly when every running total passes the check against the starting context and every ordered key exists in the context or the fills so far |
| Batch.SettlesIffOrdersFit | crates/bundle/src/send/driver.rs:303-328 | Exactly when order totals have to fit: where no credit saturates, a list that passes all running checks settles one by one if and only if no order total exceeds a U256 |
| Batch.BatchImpliesSequence | crates/bundle/src/send/driver.rs:303-328 | Where order totals fit a U256 and every transaction orders only keys that exist once its fills are in, running checks on totals are enough for one-by-one settlement, although fill totals may saturate |
| Batch.SequenceImpliesBatch | crates/evm/src/driver.rs:440-457 | Whatever the node consumes one by one passes every running check of the simulator |
| Batch.RunBalance | crates/types/src/agg/fill.rs:284-292 | After a run each balance plus the orders paid lies between the capped and the exact sum of start and fills |
| Batch.RunKeys | crates/types/src/agg/fill.rs:284-292 | A run has exactly the keys of the start and of the fills |
| Batch.LastCheck | crates/bundle/src/send/driver.rs:303-328 | A covered running total leaves the balances that the last transaction needs |
| Batch.AccumulateIsCumulative | crates/bundle/src/send/driver.rs:62-65 | Absorbing transaction after transaction yields the capped sum at every key, whatever the grouping |
| HostFirst.NodeAcceptsBuiltBlock | crates/evm/src/driver.rs:440-457 | A node that starts from all host fills and is given just the transactions the builder took settles them one by one when their order totals fit a U256, saturating fills included, and only then where its own credits do not saturate; without saturation anywhere it ends with the builder table |
| Blocks.BuilderIsRun | crates/sim/src/env/rollup.rs:95-101 | Settling the totals of whole items: the events settle one by one as well, and that run never leaves less than the builder; exactly the same without saturation |
| HostFirst.HostFillsFirst | crates/evm/src/driver.rs:249-249 | Crediting all host fills before the first transaction: what settled in the order of the builder settles in the node for every block whose order totals fit a U256, and for no other where the credits of the node do not saturate |
| HostFirst.HostFillsLeave | crates/evm/src/driver.rs:249-249 | Where the node accepts, it never ends with more than the run of the builder; without saturation it ends with the same ledger |
| Saturation.RefillMatters | crates/types/src/agg/fill.rs:128-129 | A block on the wrong side of that condition: a full balance that is spent and refilled settles in the order of the builder and not with host fills first, although no credit of the node saturates |
| Agreement.OneStepDominated | crates/sim/src/env/rollup.rs:95-101 | Settling the totals of a run at once is accepted and never leaves more than the run, saturation included |
| Agreement.OneStepEqual | crates/sim/src/env/rollup.rs:95-101 | Without saturation settling at once and one by one leave the same table |
| Agreement.ExtraCreditCommutes | crates/types/src/agg/fill.rs:124-132 | Fills that arrive before a run instead of after it never make it fail and never leave more; they leave the same when no balance saturates |
| Agreement.AcceptCannotFail | crates/sim/src/env/shared.rs:227-231 | Totals that passed the running checks settle exactly when every ordered key exists, and always when orders are positive |
| Agreement.PositiveBatchSettles | crates/bundle/src/send/driver.rs:303-328 | For positive orders whose totals fit a U256 the running checks alone decide one-by-one settlement, in both directions |
| Saturation.CappedTotalsMislead | crates/bundle/src/send/driver.rs:62-65 | Why order totals must fit: two orders of the largest U256 against one such fill pass the running checks and cannot be consumed one by one |
| Settlement.RunSettlesMonotone | crates/types/src/agg/fill.rs:284-292 | A context with at least the keys and balances of another accepts every run the other accepts, and stays ahead after each step, saturation included |
| Settlement.SettlesMonotone | crates/types/src/agg/fill.rs:175-205 | One checked removal keeps domination |
| Settlement.PositiveIsCovered | crates/types/src/agg/fill.rs:342-350 | A positive order that passes the balance check names only keys that exist |
| Settlement.RunSettlesAppend | crates/evm/src/driver.rs:536-553 | Consuming a concatenation is consuming its two parts in turn |
| Aggregation.AggregatedAt | crates/types/src/agg/fill.rs:85-94 | Each aggregated balance is the sum of its amounts, capped at the largest U256 |
| Aggregation.AggregateHomomorphism | crates/types/src/agg/fill.rs:124-132 | Aggregating a concatenation is absorbing the second aggregate into the first |
| Aggregation.AggregatePermutation | crates/evm/src/orders/framed.rs:81-98 | Aggregation does not depend on the order of its amounts |
| Debits.AtomicWhen | crates/types/src/agg/fill.rs:279-292 | When checked_remove_ru_tx_events is atomic for every iteration order: exactly when the check fails, or every ordered key exists, or the fills add nothing and the orders ask for nothing |
| Debits.AbsentFirst | crates/types/src/agg/fill.rs:284-292 | An iteration that meets an absent key first is rejected and leaves exactly the fills absorbed |
| Debits.PositiveFirst | crates/types/src/agg/fill.rs:175-205 | Where the fills add nothing, an iteration that meets a positive order first debits it before the rejection |
| Debits.DebitAllEnds | crates/types/src/agg/fill.rs:175-205 | In whatever order entries are met, all are taken out exactly when none is missing or short; otherwise each balance is untouched or fully debited and the error names an order that cannot be met |
| Fills.AggregateFills.CheckFilled | crates/types/src/agg/fill.rs:66-81 | Accepts exactly when the balance suffices; the error repeats what was asked for |
| Fills.AggregateFills.AddRawFill | crates/types/src/agg/fill.rs:85-94 | One balance grows, saturating; every other balance is as before |
| Fills.AggregateFills.AddFill | crates/types/src/agg/fill.rs:97-121 | Every output is credited on the emitting chain, whatever chain it names: there each balance grows by what is filled, capped, and no other changes |
| Fills.AggregateFills.Absorb | crates/types/src/agg/fill.rs:124-132 | The table becomes the pointwise saturating sum, whatever the iteration order |
| Fills.AggregateFills.UncheckedUnabsorb | crates/types/src/agg/fill.rs:135-152 | Succeeds exactly when every common balance suffices, and then subtracts at exactly the common keys |
| Fills.AggregateFills.CheckAggregate | crates/types/src/agg/fill.rs:155-169 | Accepts exactly when every asset exists and every balance suffices; a rejection names an order that really is short |
| Fills.AggregateFills.UncheckedRemoveAggregate | crates/types/src/agg/fill.rs:175-205 | Table and error are those of some iteration order; succeeds exactly when no key is missing and no balance short |
| Fills.AggregateFills.CheckedRemoveAggregate | crates/types/src/agg/fill.rs:209-226 | Rejections change nothing; the exact condition for the panic (an order of zero for an absent recipient) is stated |
| Fills.AggregateFills.CheckRuTxEvents | crates/types/src/agg/fill.rs:266-277 | Accepts exactly when context and fills together cover every order; a rejection names a key that is really short and the amount ordered |
| Fills.AggregateFills.CheckedRemoveRuTxEvents | crates/types/src/agg/fill.rs:284-292 | Succeeds exactly when the check passes and all keys exist, leaving capped sum less orders; a failed check changes nothing; after a passed check table and error are those of some iteration order |
| Fills.UnabsorbRestores | crates/types/src/agg/fill.rs:124-152 | Absorbing and taking back restores a balance exactly when the sum did not saturate |
| Fills.RejectedYetCredited | crates/types/src/agg/fill.rs:284-292 | After a passed check and a missing key, every new fill key stays whatever the iteration order |
| Fills.RejectedYetCreditedExample | crates/types/src/agg/fill.rs:342-350 | A fill of a new asset and an order of zero for an unknown one: the check passes and the call is not atomic |
| Fills.KnownYetCreditedExample | crates/types/src/agg/fill.rs:342-350 | The same with a fill of an asset the context already has |
| Orders.AggregateOrders.IngestRawOutput | crates/types/src/agg/order.rs:43-53 | One output amount is added, saturating, at its key |
| Orders.AggregateOrders.IngestRawInput | crates/types/src/agg/order.rs:61-64 | One input amount is added, saturating |
| Orders.AggregateOrders.Ingest | crates/types/src/agg/order.rs:67-70 | All outputs and all inputs of an order are added: each balance grows by what the order asks for or offers at its key, capped |
| Orders.AggregateOrders.Absorb | crates/types/src/agg/order.rs:134-145 | Outputs and inputs become the saturating sums, in any iteration order; assets without recipients are not carried over |
| Orders.AggregateOrders.TargetChainIds | crates/types/src/agg/order.rs:101-105 | Each chain with an output, exactly once |
| Orders.AggregateOrders.OutputsFor | crates/types/src/agg/order.rs:116-131 | Each recipient of the chain exactly once with its amount; the rollup id is cut to 32 bits |
| Signing.SignFor | crates/types/src/signing/fill.rs:256-303 | The fill lists all outputs for the chain with matching permissions, the deadline set or 12 seconds from now, the nonce set or the time in microseconds, and carries the signature of exactly that payload; each error occurs under its own condition, in the order in which they are checked |
| Signing.Sign | crates/types/src/signing/fill.rs:235-249 | One such fill for each chain asked for and for no other; an error is that of one of these chains |
| Signing.Validate | crates/types/src/signing/fill.rs:61-84 | Succeeds exactly up to the deadline and with permissions equal to the outputs; a passed deadline is reported first, any other failure is a mismatch |
| Signing.SignedFillsSettle | crates/types/src/signing/fill.rs:235-303 | Signed fills credited on their own chains, in any order, rebuild the outputs asked for; removing those leaves every balance zero |
| SignedSettlement.FillOrders | crates/types/src/signing/fill.rs:225-249 | From orders to an empty ledger: what is signed, for the contract registered for each chain, still valid and credited settles with every balance zero; with a signer that never refuses, both chains registered and deadlines ahead nothing else can happen |
| Signing.CreditedAt | crates/types/src/agg/fill.rs:119-121 | Crediting the fills of some chains yields exactly the outputs on those chains |
| Detector.FrameRefines | crates/evm/src/orders/inspector.rs:169-207 | From any state the hooks of a call tree never pop an empty stack, restore both boundary stacks, and append exactly the logs with no reverted ancestor |
| Detector.FailedKeepsNothing | crates/evm/src/orders/inspector.rs:174-207 | A transaction whose outermost frame fails contributes no event |
| Detector.KeptAre | crates/evm/src/orders/inspector.rs:143-167 | What a detector keeps of any list of logs, without its own filter: the fills of watched contracts, and unless only fills count their orders, each once and in the order of the logs |
| Detector.PrunedKeeps | crates/evm/src/orders/inspector.rs:174-207 | Failed subframes and the logs of other emitters might as well not be there: without them exactly the logs of those emitters survive |
| Detector.AllSurvive | crates/evm/src/orders/inspector.rs:169-207 | Where no frame failed every log survives, in the order in which it was emitted |
| Detector.Framed.RevertFrame | crates/evm/src/orders/framed.rs:56-60 | Drops what was added since the frame was entered |
| Inspector.OrderDetector.Log | crates/evm/src/orders/inspector.rs:143-167 | A contract that is not watched changes nothing; a watched one adds exactly its filled outputs, or its order unless only fills count |
| Inspector.OrderDetector.Replay | crates/evm/src/orders/inspector.rs:122-207 | Any hook stream that does not panic leaves the lists its step function gives |
| Inspector.OrderDetector.Run | crates/evm/src/orders/inspector.rs:122-207 | A whole transaction never panics and adds exactly the fills and orders that watched contracts emitted in surviving logs; deleting failed subframes and all other logs from the tree changes nothing |
| Inspector.OrderDetector.TakeAggregates | crates/evm/src/orders/inspector.rs:96-105 | Hands over the aggregates of all pending events and leaves none; each balance is the capped sum of the outputs filled on the chain of the detector, or asked for on the chain they name |
| Inspector.LeftoverJoinsNext | crates/evm/src/orders/inspector.rs:96-105 | The aggregate of pending events followed by new ones is the sum of the two aggregates |
| Inspector.EventSums | crates/evm/src/orders/framed.rs:81-98 | What the ledger is told, in amounts: every output of every fill event on the chain of the detector, every output of every order on the chain it names, capped at the largest U256 |
| Inspector.AggregateFilleds | crates/evm/src/orders/framed.rs:91-98 | Fill events are credited in order on the chain of the detector |
| Inspector.AggregateOrderEvents | crates/evm/src/orders/framed.rs:83-85 | Order events are ingested in order |
| BundleDriver.BundleInvariant | crates/bundle/src/send/driver.rs:207-347 | After every transaction the totals are the sums of exactly the events taken, and every prefix of those passed the check against the fill state |
| BundleDriver.SimulatedBundleSettles | crates/sim/src/env/sim_env.rs:225-229 | The recheck after a simulation never fails, and for positive orders neither does the accept step |
| BundleDriver.Driver.AbsorbIfCovered | crates/bundle/src/send/driver.rs:62-65 | The totals grow only if they stay covered; otherwise they are untouched |
| BundleDriver.Driver.RunHostTx | crates/bundle/src/send/driver.rs:207-255 | A host transaction contributes its fills and its gas, capped at the largest u64, exactly when it succeeds |
| BundleDriver.Driver.RunTx | crates/bundle/src/send/driver.rs:258-347 | A successful run whose events stay covered is taken with its gas; one that does not stay covered is dropped without, a failed one kept with its gas, both only if it may revert; anything else is the error of its kind and changes nothing |
| BundleDriver.Driver.RunBundle | crates/bundle/src/send/driver.rs:171-359 | Succeeds exactly when there are transactions, block number and timestamp match, every host run succeeds and each other one succeeded and was taken or may revert; totals and gas are those of the runs; the error is that of the first check or run that fails |
| BundleDriver.GasCounts | crates/bundle/src/send/driver.rs:52-59 | Over a whole run the gas is the sum over the executions taken or failed, dropped ones counting nothing, capped at the largest u64 |
| BundleDriver.ToleratedAre | crates/bundle/src/send/driver.rs:258-347 | A run goes through exactly when every execution does and each one succeeded and was taken, or may revert |
| BlockDriver.BlockConserves | crates/evm/src/driver.rs:578-607 | Base-fee conservation over a whole block: what is credited equals the base fee charged exactly when there is no base fee or the gas paid for fits 64 bits; it never exceeds it |
| BlockDriver.RunBalanced | crates/evm/src/driver.rs:431-458 | After any jobs the balances have lost exactly base fee times gas paid for and gained exactly the mints |
| BlockDriver.StepBalanced | crates/evm/src/sys/driver.rs:267-345 | Each kind of job keeps that equation; underfunded transacts change no balance, mints pay nothing |
| BlockDriver.ChargedTotal | crates/evm/src/sys/driver.rs:300-336 | An accepted transact pays for its whole gas limit |
| BlockDriver.RunInStep | crates/evm/src/driver.rs:440-457 | Over any jobs the context is what consuming the accepted events one by one leaves, until a removal is torn; with positive orders none ever is |
| BlockDriver.JudgedIntact | crates/types/src/agg/fill.rs:284-292 | Positive orders that pass the check are always removed completely |
| BlockDriver.UserJudgedAlone | crates/evm/src/driver.rs:509-533 | Each user transaction is judged on its own surviving events, and none are left over |
| Leftovers.TransactJudgedOn | crates/evm/src/sys/driver.rs:267-345 | Every transact that reaches the ledger is judged on the sum of pending and own events; these are its own exactly when the pending ones add no key and no amount, in particular when nothing is pending |
| Leftovers.TracePending | crates/evm/src/sys/driver.rs:327-335 | Over a whole run, what is pending at any time are the logs that rejected transacts and mints left since the last job that was judged |
| Leftovers.JudgedAlone | crates/evm/src/sys/driver.rs:119-155 | Over a whole run every judged job answers for its own events alone if and only if no underfunded transact or mint that keeps events comes before a judged job |
| Leftovers.DiscardedFillPays | crates/evm/src/sys/driver.rs:327-335 | For every pair of transacts that can pay for their gas up front, where the first fills, uses less gas than its limit and moves the rest of its balance away: it is rejected and leaves nothing but its fill, which pays the order of the second, which does not settle on its own events |
| BlockDriver.SignetDriver.CheckFillsAndAccept | crates/evm/src/driver.rs:431-458 | Events settle and the outcome is kept with its gas counted, or only the events are gone |
| BlockDriver.SignetDriver.ExecuteTransaction | crates/evm/src/driver.rs:509-533 | No trace of a transaction without signer or refused by the EVM; otherwise it is judged |
| BlockDriver.SignetDriver.ExecuteAllTransactions | crates/evm/src/driver.rs:536-553 | The queue is run to its end in order, blob transactions skipped |
| BlockDriver.SignetDriver.ApplyMetered | crates/evm/src/sys/driver.rs:267-345 | Charges the unused gas, or rejects and leaves the events pending and nothing else |
| BlockDriver.SignetDriver.ExecuteAllTransacts | crates/evm/src/sys/driver.rs:375-395 | Transacts run in order |
| BlockDriver.SignetDriver.ApplyUnmetered | crates/evm/src/sys/driver.rs:119-155 | A mint is accepted with its state, pays nothing and leaves its events pending |
| BlockDriver.SignetDriver.ApplyNativeMint | crates/evm/src/sys/driver.rs:63-92 | The recipient gains the scaled amount |
| BlockDriver.SignetDriver.RunAllMints | crates/evm/src/sys/driver.rs:408-491 | Enters as tokens, then token deposits, dollars as native currency |
| BlockDriver.SignetDriver.CreditBaseFee | crates/evm/src/driver.rs:578-607 | Credits payable gas times base fee; touches no account for an amount of zero |
| BlockDriver.SignetDriver.RunTxns | crates/evm/src/driver.rs:629-671 | The block is the run of all its jobs in their order, then the passage is cleared and the base fee credited |
| BlockDriver.SignetDriver.PhasesOf | crates/evm/src/driver.rs:653-663 | Those jobs are every user transaction of the queue, then a mint for every enter and every deposit, then every transact, each phase in its order and nothing besides |
| Native.ScaleUp | crates/evm/src/sys/native.rs:98-104 | Up to 18 decimals the mint is exact, and scales back to the amount, exactly when the product fits a U256 |
| Native.ScaleDown | crates/evm/src/sys/native.rs:169-184 | Above 18 decimals the mint is the amount in whole units, rounded down |
| Native.PartsMintNoMore | crates/evm/src/sys/native.rs:169-184 | Splitting a deposit into any number of parts never mints more than the whole, above 18 decimals and for zero always, from 1 to 18 exactly when the parts mint no more than a U256; the same amount when the scaled whole fits |
| Native.FittingPartsMintNoMore | crates/evm/src/sys/native.rs:169-184 | In amounts, for 1 to 18 decimals and parts that fit a U256 when scaled one by one: splitting mints no more exactly when they also fit together |
| Native.PartsMintMoreExample | crates/evm/src/sys/native.rs:169-184 | With 17 decimals two equal deposits that fit a U256 when scaled one by one and not together mint more than their sum |
| Native.DivisorNonzero | crates/evm/src/sys/native.rs:169-184 | The wrapped power of ten is never zero, so the division cannot panic |
| JournalSets.Run | crates/journal/src/set.rs:227-284 | After any sequence of appends, overwrites and pops, drained and stored journals form one hash-linked chain of consecutive heights |
| JournalSets.AppendKeepsChain | crates/journal/src/set.rs:220-235 | An accepted journal becomes the end of the chain |
| JournalSets.PopBackKeepsChain | crates/journal/src/set.rs:273-284 | Popping the end leaves a chain whose latest height and hash are those the popped journal continued |
| JournalSets.PopFrontKeepsChain | crates/journal/src/set.rs:268-270 | Draining the front changes neither the chain nor its end |
| JournalSets.OverwriteKeepsChain | crates/journal/src/set.rs:243-265 | A journal that continues the same tip may replace the one at its height |
| JournalSets.HeightsCount | crates/journal/src/set.rs:178-187 | Heights are consecutive along the chain, modulo 2^64 |
| JournalSets.History.IndexOf | crates/journal/src/set.rs:153-160 | What lookup finds is the journal at that height |
| JournalSets.IndexIsExact | crates/journal/src/set.rs:153-166 | As long as stored heights do not wrap, lookup finds exactly what is stored |
| JournalSets.WrappedIsLost | crates/journal/src/set.rs:153-160 | Once they wrap, lookup finds nothing |
| JournalSets.OverwriteIsRewind | crates/journal/src/set.rs:206-265 | A reorg equals popping back past the replaced journal and appending the new one |
| JournalSets.OverwriteLeaves | crates/journal/src/set.rs:243-265 | A changing overwrite leaves exactly the journals below its height and itself |
| JournalSets.OverwriteReplaces | crates/journal/src/set.rs:243-265 | When a reorg happens: a journal with the height and previous hash of a stored one and another hash replaces it, and exactly the journals below are left; otherwise nothing changes |
| JournalSets.PopUndoesAppend | crates/journal/src/set.rs:220-284 | Popping the journal just appended restores the set |
| JournalSets.AppendUndoesPop | crates/journal/src/set.rs:178-284 | A popped journal can always be appended again, with nothing lost |
| JournalSets.HashCommits | crates/journal/src/set.rs:190-199 | Where hashes do not collide, two chains that share a hash agree from there down |
| JournalSets.JournalSet.TryAppend | crates/journal/src/set.rs:227-235 | Accepts exactly a journal of the next height with the latest hash, and then it is the last and the latest; otherwise nothing changes and the error says which check failed and gives the journal back |
| JournalSets.JournalSet.AppendOverwrite | crates/journal/src/set.rs:243-265 | Where lookup finds the same previous hash and another hash, the journals below and the new one are left and it is the latest; the same hash changes nothing; anything else is refused without change, with the range error for an unknown height and the hash error otherwise |
| JournalSets.JournalSet.UnwindTo | crates/journal/src/set.rs:206-218 | Keeps exactly the journals below the given height; latest height and hash are what the one at that height continued |
| JournalSets.JournalSet.GetByRollupHeight | crates/journal/src/set.rs:163-166 | The journal at that height |
| JournalSets.JournalSet.Range | crates/journal/src/set.rs:170-175 | First and last stored height |
| JournalSets.JournalSet.PopFront | crates/journal/src/set.rs:268-270 | The front journal; latest height and hash stay |
| JournalSets.JournalSet.PopBack | crates/journal/src/set.rs:273-284 | The last journal; latest height and hash go back to what it continued |
| Validity.VerdictDecides | crates/sim/src/cache/validity.rs:57-127 | First the first balance, then the first nonce that does not match its state nonce plus the number of earlier transactions of its signer; valid now exactly when all match |
| Validity.OneVerdict | crates/sim/src/cache/validity.rs:57-127 | That reading determines one verdict |
| Validity.CheckBundleTxList | crates/sim/src/cache/validity.rs:57-127 | The walk with its nonce cache returns that verdict |
| Validity.CacheAdvances | crates/sim/src/cache/validity.rs:119-123 | The cache holds for every signer seen the nonce its next transaction must carry |
| Validity.NeverIsPermanent | crates/sim/src/cache/item.rs:119-203 | What checks as never valid is valid now in no later states with nonces at least as large; a transaction stays never valid |
| Validity.ListNeverIsPermanent | crates/sim/src/cache/validity.rs:110-122 | The same for one list of transactions, wrapping of nonces included |
| Validity.CheckItem | crates/sim/src/cache/item.rs:119-233 | A transaction by nonce then balance, each verdict under its exact condition; a bundle by the worse of its two lists |
| Validity.ItemRunsNow | crates/sim/src/cache/item.rs:119-233 | When an item is valid now: a transaction exactly when its nonce is that of the account and the balance covers what it may spend, a bundle exactly when in both lists the first signer can pay and every nonce is that of the account and the transactions of the signer before it |
| CacheStores.CacheStore.AddInner | crates/sim/src/cache/store.rs:262-286 | Nothing for an item disallowed or seen; otherwise it takes the greatest free rank up to its fee, or zero, and at capacity exactly the lowest item and its identifier go; the store stays consistent and within capacity |
| CacheStores.OfferIsStored | crates/sim/src/cache/store.rs:262-286 | Any offer that is neither disallowed nor seen is stored at the greatest free rank up to its fee, or at zero; with room nothing else changes, at capacity exactly the lowest item goes |
| CacheStores.OneRank | crates/sim/src/cache/store.rs:273-276 | That rank is unique |
| CacheStores.OverwrittenWhen | crates/sim/src/cache/store.rs:273-285 | An item is overwritten exactly when there is room and all ranks up to the fee are taken, at rank zero |
| CacheStores.LowFeeEvicts | crates/sim/src/cache/store.rs:278-285 | At capacity a newcomer below every rank evicts the lowest item and takes its own fee as rank |
| CacheStores.InsertKeeps | crates/sim/src/cache/store.rs:262-286 | Inserting keeps identifiers distinct, seen and allowed; only an overwritten one is seen without being stored |
| CacheStores.RemoveKeeps | crates/sim/src/cache/store.rs:316-323 | Removing forgets exactly the identifier of the item |
| CacheStores.CacheStore.AddAll | crates/sim/src/cache/store.rs:288-313 | Offers are added one after the other; the cache grows by at most one for each |
| CacheStores.CacheStore.Remove | crates/sim/src/cache/store.rs:316-323 | The item goes and may be added again |
| CacheStores.CacheStore.RemoveAndDisallow | crates/sim/src/cache/store.rs:326-330 | The item goes and is remembered as disallowed |
| CacheStores.CacheStore.Clean | crates/sim/src/cache/store.rs:334-370 | After trimming exactly the transactions stay, and the bundles for this block number whose timestamps allow it; those whose block or last timestamp has passed are disallowed, lowest rank first |
| CacheStores.CleanedMemory | crates/sim/src/cache/store.rs:342-369 | What cleaning disallows: exactly the bundles whose block or last timestamp has passed, lowest rank first |
| CacheStores.CleanedItems | crates/sim/src/cache/store.rs:342-369 | Cleaning keeps exactly the items that are current |
| CacheStores.CleanedForGood | crates/sim/src/cache/store.rs:342-369 | Cleaning disallows only items that will be current in no later block |
| CacheStores.DisallowedItems | crates/sim/src/cache/store.rs:326-330 | Disallowing several ranks removes exactly their items |
| CacheStores.DisallowedFor | crates/sim/src/cache/store.rs:326-330 | An identifier disallowed stays so exactly as long as fewer than 128 others have been disallowed since |
| Lrus.PutAllIsRecency | crates/sim/src/cache/store.rs:257-257 | The bounded memory is the list of everything put, most recent first, cut at its capacity |
| CacheStores.CacheStore.Trim | crates/sim/src/cache/store.rs:335-340 | Lowest ranks above capacity are disallowed |
| CacheStores.CacheStore.ReadBestValid | crates/sim/src/cache/store.rs:88-143 | Returns the best items valid now, best first, up to the limit; of what it looked at removes and disallows exactly what can never be valid; changes nothing when a source fails |
| CacheStores.ReadMeans | crates/sim/src/cache/store.rs:88-143 | In terms of the cache: a read returns the best items valid now, fewer than asked for only when there are no more, looked at everything down to the last of them, and removes of that exactly what can never be valid |
| CacheStores.ReadsTheBest | crates/sim/src/cache/store.rs:88-143 | What is read is the first n of all items valid now, best first |
| CacheStores.OneStop | crates/sim/src/cache/store.rs:114-117 | There is only one place where the read stops |
| CacheStores.Examine | crates/sim/src/cache/store.rs:109-127 | Collects the first n valid items of the snapshot and stops there, or at the first item a source fails on |
| CacheStores.DescendsAt | crates/sim/src/cache/store.rs:100-104 | In the snapshot every item ranks below all before it |
| CacheStores.NowIsNotNever | crates/sim/src/cache/store.rs:122-140 | Everything read stays in the cache; everything removed is never valid |
| Simulation.BestOfRound | crates/sim/src/env/sim_env.rs:351-370 | For every order in which threads finish, the winner is a candidate no candidate outscores, and there is none only if there was no candidate |
| Simulation.OrderHardlyMatters | crates/sim/src/env/sim_env.rs:351-370 | Two arrival orders choose the same score |
| Simulation.LaterReplaces | crates/sim/src/env/sim_env.rs:351-370 | A thread that finishes later replaces the winner exactly when its candidate scores more |
| Simulation.RoundChooses | crates/sim/src/env/sim_env.rs:298-370 | The choice of a round in terms of outcomes and budgets: no winner exactly when no outcome scores and fits both budgets, an exact fit included; otherwise such an outcome, and none outscores it |
| Simulation.RoundKeeps | crates/sim/src/env/sim_env.rs:298-345 | After a round exactly those of its items are left whose outcome scores and fits both budgets |
| Simulation.LeftAmong | crates/sim/src/env/sim_env.rs:342-345 | After a round exactly the items without a candidate are gone |
| Simulation.RoundLeaves | crates/sim/src/env/sim_env.rs:284-346 | The winner is still in the cache; without a winner every item simulated has left it |
| Simulation.OutcomeIsTotal | crates/sim/src/env/sim_env.rs:154-157 | Every outcome is the total of events that all passed the running checks |
| Simulation.SimulatedWhen | crates/sim/src/env/sim_env.rs:122-261 | When an item has an outcome: a transaction exactly when it runs and its events are covered; a bundle exactly when block and timestamps match, its host runs succeed and every other run succeeded and was taken or may revert |
| Simulation.OutcomeCounts | crates/sim/src/env/sim_env.rs:159-171 | An outcome carries the gas of the runs taken or failed and of the host runs, and the score and state of its item |
| Simulation.Simulate | crates/sim/src/env/sim_env.rs:252-261 | Runs the transaction, or the bundle driver with its recheck, and returns the outcome |
| Simulation.SimTask | crates/sim/src/env/sim_env.rs:298-345 | Sends the outcome exactly when it scores and fits both budgets, and otherwise removes the item from the cache |
| Simulation.SimRound | crates/sim/src/env/sim_env.rs:264-377 | Winner and cache are those of some order in which all threads finished: no winner exactly when no outcome scores and fits, otherwise a best one, and exactly the items with such outcomes are left |
| NodeLedgers.FollowsWhen | crates/evm/src/driver.rs:440-457 | A ledger that tries every transaction of a block in order settles exactly those the builder took, and keeps their ledger, in every order of visits, if and only if those settle one by one and every dropped one is harmless at its place: it fails the check, or misses a key while its fills add nothing and its orders ask for nothing |
| NodeLedgers.PositiveHarmless | crates/types/src/agg/fill.rs:279-292 | A dropped transaction with positive orders is harmless exactly when it does not settle |
| DroppedTransactions.DroppedSettlesInNode | crates/bundle/src/send/driver.rs:314-319 | Two bundles the builder takes, one of which drops a transaction: on every path a node given the block settles the dropped one, rejects the one the builder settled, and ends with other fills |
| DroppedTransactions.DroppedTearsNode | crates/types/src/agg/fill.rs:284-292 | The same where the dropped transaction settles nowhere: it passes the check and lacks a key, some order of visits half removes it, and the node rejects what the builder settled |
| BlockBuilding.BuiltBlockIsAccepted | crates/sim/src/task.rs:167-231 | For every build without a panic: a ledger that starts from all host fills and tries every transaction of the block, dropped ones included, settles exactly what was taken and keeps its ledger, in every order of visits, if and only if that settles one by one and every dropped transaction is harmless at its place; positive orders whose totals fit do settle, and without saturation the fills of the builder are left |
| BlockBuilding.TakenSettle | crates/sim/src/task.rs:167-231 | What a build took settles one by one in the node when its order totals fit a U256, and only then where the credits of the node do not saturate |
| NodeReplay.AgreesWhen | crates/evm/src/driver.rs:536-553 | Over all runs of the block driver, in every order of visits: it accepts exactly the transactions taken and keeps their ledger if and only if those settle one by one and every dropped one is harmless at its place |
| EndToEnd.NodeRunsBuiltBlock | crates/evm/src/driver.rs:629-671 | End to end, with one EVM under the simulations and the block driver: over all runs of the driver on a built block exactly the transactions taken are accepted if and only if they settle one by one and every dropped one is harmless at its place; positive orders whose totals fit do settle, and without saturation the driver ends in the state of the builder with its fills |
| EndToEnd.BuildReaches | crates/sim/src/env/shared.rs:217-246 | Over any number of turns the driver, taking what the builder took, sees each transaction emit what it emitted in the simulation and comes to the state the builder is in |
| EndToEnd.ItemExecutes | crates/sim/src/env/sim_env.rs:122-258 | The driver, started in the state an item was simulated on, gets through its transactions with the events that were recorded and ends where the simulation ended |
| BlockBuilding.BuildAccounted | crates/sim/src/task.rs:167-231 | Over any number of turns, whatever arrives, gas and host gas are the sums of the items and within their budgets, and the fill state has settled every item |
| BlockBuilding.TurnGrows | crates/sim/src/task.rs:136-231 | A turn adds an item to the block exactly when one of the best items valid then has an outcome that scores and fits what is left of both budgets, and then one with the highest score |
| BlockBuilding.ProductiveRounds | crates/sim/src/task.rs:192-231 | Rounds that simulate anything never outnumber the initial items and the arrivals together |
| BlockBuilding.PlayShrinks | crates/sim/src/env/shared.rs:164-218 | Every round that simulates an item leaves strictly fewer items in the cache |
| BlockBuilding.PlayPanics | crates/sim/src/env/shared.rs:227-231 | The expect fails exactly when the winner orders a key that nobody has; never with positive orders |
| BlockBuilding.PlaySettles | crates/sim/src/env/shared.rs:223-231 | A selected item fits what was left of both budgets, and the fill state settled the total of its checked events |
| BlockBuilding.PlaySelects | crates/sim/src/env/shared.rs:131-247 | What a round selects: nothing exactly when no outcome scores and fits both budgets, otherwise an item with the highest score among those, whose state is moved to and whose events are settled |
| BlockBuilding.PlayReads | crates/sim/src/env/shared.rs:152-181 | A round works on the best items valid in its view up to the limit, or on none when one could not be checked |
| BlockBuilding.WinnerSettles | crates/sim/src/env/shared.rs:212-231 | The winner fits the budgets and is a total of events that passed the running checks |
| BlockBuilding.OutcomeSettles | crates/sim/src/env/shared.rs:227-231 | A simulated outcome settles exactly when its keys exist, always for positive orders |
| BlockBuilding.RoundAccounted | crates/sim/src/task.rs:136-159 | One round keeps contents, gas sums, budgets and fill state accounted for |
| BlockBuilding.SharedSimEnv.Preflight | crates/sim/src/env/shared.rs:152-181 | Hands over the best items valid in the current view, up to the concurrency limit, and drops those examined that never can be |
| BlockBuilding.SharedSimEnv.Compete | crates/sim/src/env/shared.rs:164-215 | The winner of the preflighted items for some order of threads; rejected items have left the cache |
| BlockBuilding.SharedSimEnv.Accept | crates/sim/src/env/shared.rs:217-246 | Takes the winner out of the cache, moves to its state and settles its events, or panics |
| BlockBuilding.SharedSimEnv.SimRound | crates/sim/src/env/shared.rs:131-247 | A round is preflight, competition and acceptance, and determines cache, view and fill state; it selects nothing exactly when no outcome scores and fits |
| BlockBuilding.BuiltBlock.Ingest | crates/sim/src/built.rs:116-143 | Appends the transactions and host transactions of the item and adds its gas |
| BlockBuilding.BlockBuild.RunRound | crates/sim/src/task.rs:136-159 | The remaining gas never underflows; the block holds exactly the items recorded, also after a panic |
| BlockBuilding.BlockBuild.RunBuild | crates/sim/src/task.rs:167-231 | The build is the run of all its turns, a round in each with a non-empty cache; a block with transactions is left alone |

## Left out

- The `selfdestruct` hook: it pops a frame of its own and so breaks the nesting that the call-tree theorem is about.
- Log and calldata decoding, RLP, EIP-2718 and EIP-712: events and journals arrive decoded; a journal carries its hash.
- Hashing, signing and recovery: a signer is any partial function, a recovered sender an optional address.
- The EVM, its databases and precompiles: a parameter, as described above; failures of `accept_cache_ref` are not modelled.
- Aliasing of transact senders that have code: a transact names the account that pays.
- Block nonces of the minter, receipts, syslogs, cumulative gas of the output, header fields and seals.
- BlockDriver.SignetDriver.ApplyNativeMint: balances are unbounded naturals, and what `trevm` does at the largest U256 is not part of this model.
- BlockDriver.SignetDriver.CreditBaseFee: balances are unbounded naturals, so saturation of a single account at the largest U256 is not modelled.
- BlockDriver.BlockConserves: assumes an EVM that charges the base fee as EIP-1559 says; priority fees move between accounts and are part of the balances.
- HostFirst.HostFillsFirst: where a credit of the node itself saturates, order totals that fit are enough but need not be necessary.
- HostFirst.HostFillsLeave: where credits saturate, only that the node never ends ahead is proved.
- EndToEnd.NodeRunsBuiltBlock: the simulations are assumed to run the transactions of an item one after the other on the EVM of the driver, each on the state the taken ones left; how `trevm` keeps those states is not modelled.
- Deadlines and timeouts: a round runs until all threads are done, a build for a given number of rounds, so no partial winner and no lock failure.
- Concurrent writes to the cache within a round: arrivals come between rounds.
- Scores: any function of the state and the item; the beneficiary balances behind them are not modelled.
- `calculate_total_fee`: the fee is an input of the cache.
- The largest amount a transaction may spend is given with it; the `u128` product of fee cap and gas limit, which wraps in release builds, is not computed.
- `add_bundle` without replacement id, and the conversion of bundles to items: items have identifiers.
- `check_order`, `checked_remove_order` and their unchecked forms: one-order instances of the aggregate operations.
- Order streams, providers, the transaction cache client, fee policies, extraction routing, hardfork flags, `MagicSig`, `SignetCallBundle`: outside the settlement core.

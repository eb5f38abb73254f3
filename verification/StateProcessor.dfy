/** core/state_processor.go: applying the transactions of a block one after the other, up to the engine's Finalize. */
module StateProcessors {
  import opened Worlds
  import opened Options
  import opened StateTransitions

  /** What the consensus engine says of a transaction: common, system, or that it cannot tell. */
  datatype Kind = Common | System | Unclear

  /** A transaction; its message is missing if its sender or payer does not recover. */
  datatype Tx = Tx(kind: Kind, message: Option<Message>)

  datatype Receipt = Receipt(cumulativeGasUsed: Uint64, gasUsed: Uint64, failed: bool)

  datatype BlockError = Unknown | OutOfOrderSystemTx | NoMessage | Blacklisted | Inapplicable(error: Error)

  /** What surrounds the block: the chain rules, whether the engine knows system transactions, the code that runs. */
  datatype Setting = Setting(env: Env, posa: bool, miko: bool,
                             evm: (Message, World, Uint64) -> Outcome, blacklisted: (Message, World) -> bool)

  /** The header rule on block gas limits. */
  const MAX_GAS_LIMIT: nat := 0x7fff_ffff_ffff_ffff

  /** What a transaction's type guarantees: without a base fee only the gas price is offered, and blobs need Cancun. */
  predicate WellFormed(env: Env, m: Message)
  {
    (!env.london ==> m.gasFeeCap == m.gasPrice) && (m.blobs.Some? ==> env.cancun)
  }

  /** TransactionToMessage sets the price the gas is bought at. */
  function ToMessage(env: Env, m: Message): (r: Message)
    requires WellFormed(env, m)
    ensures Priced(env, r) && r == m.(gasPrice := r.gasPrice) && (!env.london ==> r == m)
    ensures env.london ==> r.gasPrice == Min(m.gasTipCap + env.baseFee, m.gasFeeCap)
  {
    m.(gasPrice := EffectivePrice(env, m.gasPrice, m.gasTipCap, m.gasFeeCap))
  }

  ghost predicate Sane(s: Setting)
  {
    Ordered(s.env) && forall m :: Honest(On(s, m))
  }

  function On(s: Setting, m: Message): (evm: Evm)
  {
    (w: World, g: Uint64) => s.evm(m, w, g)
  }

  predicate Usable(s: Setting, txs: seq<Tx>)
  {
    forall tx | tx in txs :: tx.message.Some? ==> WellFormed(s.env, tx.message.value)
  }

  predicate IsSystem(s: Setting, tx: Tx)
  {
    s.posa && tx.kind.System?
  }

  // ---------------------------------------------------------------- specification

  /** The transactions of one kind, in the order of the block. */
  function Select(s: Setting, txs: seq<Tx>, system: bool): (r: seq<Tx>)
  {
    if txs == [] then []
    else
      var last := txs[|txs| - 1];
      Select(s, txs[..|txs| - 1], system) + (if IsSystem(s, last) == system then [last] else [])
  }

  function GasSum(receipts: seq<Receipt>): (sum: nat)
  {
    if receipts == [] then 0 else GasSum(receipts[..|receipts| - 1]) + receipts[|receipts| - 1].gasUsed
  }

  function BurnSum(s: Setting, txs: seq<Tx>, receipts: seq<Receipt>): (sum: int)
    requires |txs| == |receipts| && Usable(s, txs) && forall tx | tx in txs :: tx.message.Some?
  {
    if txs == [] then 0
    else
      var n := |txs| - 1;
      BurnSum(s, txs[..n], receipts[..n])
      + IntendedBurn(s.env, ToMessage(s.env, txs[n].message.value), receipts[n].gasUsed)
  }

  /** The EVM moves money about but neither makes nor destroys any. */
  ghost predicate Conserves(s: Setting)
  {
    forall m, w, g :: Total(s.evm(m, w, g).world.accounts) == Total(w.accounts)
  }

  /** The receipts carry the running total of the gas used. */
  predicate Cumulative(receipts: seq<Receipt>)
  {
    forall i :: 0 <= i < |receipts| ==> receipts[i].cumulativeGasUsed == GasSum(receipts[..i + 1])
  }

  /** Each receipt's gas lies between what its message must pay and its limit. */
  predicate WithinLimits(s: Setting, txs: seq<Tx>, receipts: seq<Receipt>)
  {
    && |txs| == |receipts|
    && (forall i :: 0 <= i < |txs| ==> Within(s, txs[i], receipts[i]))
  }

  predicate Within(s: Setting, tx: Tx, receipt: Receipt)
  {
    tx.message.Some? && Floor(s.env, tx.message.value) <= receipt.gasUsed <= tx.message.value.gasLimit
  }

  lemma CumulativeNext(receipts: seq<Receipt>, r: Receipt)
    requires Cumulative(receipts) && r.cumulativeGasUsed == GasSum(receipts) + r.gasUsed
    ensures Cumulative(receipts + [r]) && GasSum(receipts + [r]) == GasSum(receipts) + r.gasUsed
  {
    var next := receipts + [r];
    assert next[..|receipts|] == receipts;
    forall i | 0 <= i < |next|
      ensures next[i].cumulativeGasUsed == GasSum(next[..i + 1])
    {
      if i < |receipts| { assert next[..i + 1] == receipts[..i + 1]; } else { assert next[..i + 1] == next; }
    }
  }

  lemma BurnNext(s: Setting, txs: seq<Tx>, receipts: seq<Receipt>, tx: Tx, receipt: Receipt)
    requires WithinLimits(s, txs, receipts) && Usable(s, txs) && Within(s, tx, receipt)
    requires WellFormed(s.env, tx.message.value)
    ensures WithinLimits(s, txs + [tx], receipts + [receipt]) && Usable(s, txs + [tx])
    ensures BurnSum(s, txs + [tx], receipts + [receipt]) ==
            BurnSum(s, txs, receipts) + IntendedBurn(s.env, ToMessage(s.env, tx.message.value), receipt.gasUsed)
  {
    assert (txs + [tx])[..|txs|] == txs && (receipts + [receipt])[..|receipts|] == receipts;
  }

  lemma SelectNext(s: Setting, txs: seq<Tx>, tx: Tx, system: bool)
    ensures Select(s, txs + [tx], system) == Select(s, txs, system) + (if IsSystem(s, tx) == system then [tx] else [])
  {
    assert (txs + [tx])[..|txs|] == txs;
  }

  /** No common transaction comes after a system transaction. */
  predicate SystemLast(s: Setting, txs: seq<Tx>)
  {
    forall j, k :: 0 <= j < k < |txs| && IsSystem(s, txs[j]) ==> IsSystem(s, txs[k])
  }

  lemma {:induction false} SelectedFrom(s: Setting, txs: seq<Tx>)
    ensures Select(s, txs, true) != [] <==> exists j :: 0 <= j < |txs| && IsSystem(s, txs[j])
  {
    if txs != [] { SelectedFrom(s, txs[..|txs| - 1]); }
  }

  /** Then the block is its common transactions followed by its system transactions. */
  lemma {:induction false} SystemLastSplits(s: Setting, txs: seq<Tx>)
    requires SystemLast(s, txs)
    ensures txs == Select(s, txs, false) + Select(s, txs, true)
  {
    if txs != [] {
      var init, last := txs[..|txs| - 1], txs[|txs| - 1];
      SystemLastSplits(s, init);
      assert txs == init + [last];
      SelectNext(s, init, last, false);
      SelectNext(s, init, last, true);
      if !IsSystem(s, last) { SelectedFrom(s, init); }
      Regroup(Select(s, init, false), Select(s, init, true), [last]);
    }
  }

  lemma Regroup<T>(a: seq<T>, b: seq<T>, c: seq<T>)
    ensures a + b + c == a + (b + c) && a + [] == a && [] + a == a
  {
  }

  // ---------------------------------------------------------------- progress through a block

  /** The local variables of the loop. */
  datatype Progress = Progress(receipts: seq<Receipt>, commonTxs: seq<Tx>, systemTxs: seq<Tx>, usedGas: Uint64,
                               world: World)

  datatype Processed = Done(p: Progress, pool: Uint64) | Failed(index: nat, error: BlockError)

  /** The transactions are sorted by kind, and after Miko the system transactions come last. */
  ghost predicate OrderKept(s: Setting, txs: seq<Tx>, p: Progress)
  {
    && p.commonTxs == Select(s, txs, false) && p.systemTxs == Select(s, txs, true)
    && (s.posa && s.miko ==> SystemLast(s, txs))
  }

  /** The receipts account for the gas used, and the burns for the money gone. */
  ghost predicate BooksKept(s: Setting, w: World, p: Progress)
  {
    && p.usedGas == GasSum(p.receipts) && Cumulative(p.receipts)
    && WithinLimits(s, p.commonTxs, p.receipts) && Usable(s, p.commonTxs) && Solvent(p.world)
    && (Conserves(s) ==> Total(p.world.accounts) == Total(w.accounts) - BurnSum(s, p.commonTxs, p.receipts))
  }

  /** Why the transaction cannot follow what has been processed so far, with `pool` gas left in the block. */
  ghost predicate Explains(s: Setting, tx: Tx, p: Progress, pool: Uint64, error: BlockError)
    requires Usable(s, [tx])
  {
    match error
    case Unknown => s.posa && tx.kind.Unclear?
    case OutOfOrderSystemTx => s.posa && s.miko && tx.kind.Common? && p.systemTxs != []
    case NoMessage => !IsSystem(s, tx) && tx.message.None?
    case Blacklisted => !IsSystem(s, tx) && tx.message.Some? && s.blacklisted(ToMessage(s.env, Sent(s, tx)), p.world)
    case Inapplicable(e) =>
      !IsSystem(s, tx) && tx.message.Some? && Rejection(s.env, p.world, ToMessage(s.env, Sent(s, tx)), pool) == Some(e)
  }

  function Sent(s: Setting, tx: Tx): (m: Message)
    requires Usable(s, [tx]) && tx.message.Some?
    ensures WellFormed(s.env, m)
  {
    assert tx in [tx];
    tx.message.value
  }

  lemma OrderNext(s: Setting, txs: seq<Tx>, p: Progress, tx: Tx, q: Progress)
    requires OrderKept(s, txs, p)
    requires IsSystem(s, tx) || p.systemTxs == [] || !s.posa || !s.miko
    requires q.commonTxs == p.commonTxs + (if IsSystem(s, tx) then [] else [tx])
    requires q.systemTxs == p.systemTxs + (if IsSystem(s, tx) then [tx] else [])
    ensures OrderKept(s, txs + [tx], q)
  {
    SelectNext(s, txs, tx, false);
    SelectNext(s, txs, tx, true);
    SelectedFrom(s, txs);
  }

  lemma BooksNext(s: Setting, w: World, p: Progress, tx: Tx, receipt: Receipt, q: Progress)
    requires BooksKept(s, w, p) && Within(s, tx, receipt) && WellFormed(s.env, tx.message.value)
    requires receipt.cumulativeGasUsed == p.usedGas + receipt.gasUsed == q.usedGas && Solvent(q.world)
    requires q.commonTxs == p.commonTxs + [tx] && q.receipts == p.receipts + [receipt]
    requires Conserves(s) ==> Total(q.world.accounts) == Total(p.world.accounts)
                              - IntendedBurn(s.env, ToMessage(s.env, tx.message.value), receipt.gasUsed)
    ensures BooksKept(s, w, q)
  {
    CumulativeNext(p.receipts, receipt);
    BurnNext(s, p.commonTxs, p.receipts, tx, receipt);
  }

  // ---------------------------------------------------------------- the loop

  datatype Application = Success(receipt: Receipt, world: World) | Failure(error: BlockError)

  /** The receipt of a message; the gas counted so far does not wrap within a block. */
  method MakeReceipt(usedGas: Uint64, gasUsed: Uint64, failed: bool) returns (receipt: Receipt)
    requires usedGas + gasUsed <= MAX_UINT64
    ensures receipt == Receipt(usedGas + gasUsed, gasUsed, failed)
  {
    receipt := Receipt(Wrap(usedGas + gasUsed), gasUsed, failed);
  }

  lemma RefundCleared(w: World)
    requires Solvent(w)
    ensures Solvent(w.(refund := 0)) && w.(refund := 0).accounts == w.accounts
  {
    forall a
      ensures 0 <= w.(refund := 0).Balance(a)
    {
      assert 0 <= w.Balance(a);
    }
  }

  /** What applying a message makes of a state, with its receipt: the EVM ran, the gas was settled, and the refund
      counter is cleared. */
  ghost predicate Applies(s: Setting, w: World, m: Message, receipt: Receipt, after: World)
  {
    && Unfunded(s.env, m).None?
    && var ran := Ran(s.env, w, m, On(s, m));
    && receipt.failed == ran.failed && GasSettled(s.env, m, ran, receipt.gasUsed) && receipt.gasUsed <= m.gasLimit
    && after.refund == 0 && after.accounts == Paid(s.env, ran.world, m, m.gasLimit - receipt.gasUsed).accounts
  }

  /** The end of an applied message.  If the EVM moves no money, it destroys what it is meant to. */
  lemma MessageDone(s: Setting, w: World, m: Message, r: Result, after: World, receipt: Receipt)
    requires Unfunded(s.env, m).None? && r.Applied? && r.usedGas <= m.gasLimit && r.usedGas <= MAX_GAS_LIMIT
    requires GasSettled(s.env, m, Ran(s.env, w, m, On(s, m)), r.usedGas)
    requires MoneyAccounted(s.env, w, m, On(s, m), r, after)
    requires receipt.gasUsed == r.usedGas && receipt.failed == r.failed
    ensures Applies(s, w, m, receipt, after.(refund := 0)) && Solvent(after.(refund := 0))
    ensures Conserves(s) ==> Total(after.accounts) == Total(w.accounts) - IntendedBurn(s.env, m, r.usedGas)
  {
    BurnIsIntended(s.env, m, r.usedGas);
    RefundCleared(after);
  }

  /** ApplyMessageWithEVM: the pool and the gas counted so far always add up to the same. */
  method ApplyMessageWithEVM(s: Setting, gp: GasPool, w: World, m: Message, usedGas: Uint64) returns (r: Application)
    requires Sane(s) && Priced(s.env, m) && Solvent(w) && gp.gas + usedGas <= MAX_GAS_LIMIT
    modifies gp
    ensures r == Failure(Blacklisted) <==> s.blacklisted(m, w)
    ensures r.Failure? && !s.blacklisted(m, w) ==>
              && r.error.Inapplicable? && Rejection(s.env, w, m, old(gp.gas)) == Some(r.error.error)
    ensures r.Success? ==> Rejection(s.env, w, m, old(gp.gas)).None? && Applies(s, w, m, r.receipt, r.world)
    ensures r.Success? ==>
              && r.receipt.cumulativeGasUsed == usedGas + r.receipt.gasUsed
              && gp.gas + r.receipt.gasUsed == old(gp.gas)
              && Floor(s.env, m) <= r.receipt.gasUsed <= m.gasLimit
              && Solvent(r.world)
              && (Conserves(s) ==>
                    Total(r.world.accounts) == Total(w.accounts) - IntendedBurn(s.env, m, r.receipt.gasUsed))
  {
    if s.blacklisted(m, w) { return Failure(Blacklisted); }
    var st := new StateTransition(gp, s.env, m, w);
    assert Honest(On(s, m));
    var result := st.TransitionDb(On(s, m));
    if result.Rejected? { return Failure(Inapplicable(result.error)); }
    var receipt := MakeReceipt(usedGas, result.usedGas, result.failed);
    MessageDone(s, w, m, result, st.world, receipt);
    return Success(receipt, st.world.(refund := 0));
  }

  datatype Advance = Onward(p: Progress, section: bool) | Stuck(error: BlockError)

  /** A transaction was applied to `w`, with `pool` gas left in the block. */
  ghost predicate Followed(s: Setting, pool: int, w: World, tx: Tx, receipt: Receipt, after: World)
  {
    && Usable(s, [tx]) && tx.message.Some? && 0 <= pool <= MAX_UINT64
    && var m := ToMessage(s.env, Sent(s, tx));
    !s.blacklisted(m, w) && Rejection(s.env, w, m, pool).None? && Applies(s, w, m, receipt, after)
  }

  /** Any relation between the gas left, a state, a transaction, its receipt and the next state. */
  type Step = (int, World, Tx, Receipt, World) -> bool

  ghost function StepOf(s: Setting): (ok: Step)
  {
    (pool: int, w: World, tx: Tx, receipt: Receipt, after: World) => Followed(s, pool, w, tx, receipt, after)
  }

  // The proofs about the loop need only that the relation covers what was applied.
  ghost predicate Covers(ok: Step, s: Setting)
  {
    forall pool, w, tx, receipt, after {:trigger Followed(s, pool, w, tx, receipt, after)} ::
      Followed(s, pool, w, tx, receipt, after) ==> ok(pool, w, tx, receipt, after)
  }

  lemma StepCovers(s: Setting)
    ensures Covers(StepOf(s), s)
  {
  }

  /** What a round adds: a system transaction waits for the engine, another one is applied and gets a receipt. */
  ghost predicate Added(ok: Step, system: bool, pool: Uint64, tx: Tx, p: Progress, q: Progress)
  {
    if system then q == p.(systemTxs := p.systemTxs + [tx])
    else
      && q.commonTxs == p.commonTxs + [tx] && q.systemTxs == p.systemTxs
      && |q.receipts| == |p.receipts| + 1
      && var receipt := q.receipts[|p.receipts|];
      q.receipts == p.receipts + [receipt] && ok(pool, p.world, tx, receipt, q.world)
  }

  /** The states between the transactions with a receipt; `worlds[i]` is the state that the one at `i` found. */
  ghost predicate Chained(ok: Step, gasLimit: Uint64, worlds: seq<World>, txs: seq<Tx>, receipts: seq<Receipt>)
  {
    && |worlds| == |txs| + 1 == |receipts| + 1
    && forall i {:trigger receipts[i]} :: 0 <= i < |receipts| ==>
         ok(gasLimit - receipts[i].cumulativeGasUsed + receipts[i].gasUsed, worlds[i], txs[i], receipts[i],
            worlds[i + 1])
  }

  lemma LastCumulative(receipts: seq<Receipt>, r: Receipt)
    requires Cumulative(receipts + [r])
    ensures r.cumulativeGasUsed == GasSum(receipts) + r.gasUsed
  {
    var more, n := receipts + [r], |receipts|;
    assert more[..n + 1] == more && more[..n] == receipts;
    assert more[n].cumulativeGasUsed == GasSum(more[..n + 1]);
  }

  lemma ChainedNext(ok: Step, gasLimit: Uint64, worlds: seq<World>, p: Progress, tx: Tx, q: Progress, pool: Uint64)
    requires Chained(ok, gasLimit, worlds, p.commonTxs, p.receipts) && worlds[|p.commonTxs|] == p.world
    requires Added(ok, false, pool, tx, p, q) && pool + p.usedGas == gasLimit
    requires var r := q.receipts[|p.receipts|]; r.cumulativeGasUsed == p.usedGas + r.gasUsed
    ensures Chained(ok, gasLimit, worlds + [q.world], q.commonTxs, q.receipts)
  {
    var longer := worlds + [q.world];
    forall i | 0 <= i < |q.receipts|
      ensures ok(gasLimit - q.receipts[i].cumulativeGasUsed + q.receipts[i].gasUsed, longer[i], q.commonTxs[i],
                 q.receipts[i], longer[i + 1])
    {
      if i < |p.receipts| { assert q.receipts[i] == p.receipts[i]; }
    }
  }

  /** The round is right: either everything is kept with one more transaction, or there is a reason. */
  ghost predicate Right(s: Setting, w: World, done: seq<Tx>, tx: Tx, p: Progress, pool: Uint64, left: Uint64,
                        r: Advance)
    requires Usable(s, [tx])
  {
    match r
    case Onward(q, section) =>
      && OrderKept(s, done + [tx], q) && BooksKept(s, w, q) && (section <==> q.systemTxs != [])
      && left + q.usedGas == pool + p.usedGas
    case Stuck(error) => Explains(s, tx, p, pool, error)
  }

  /** The transactions with a receipt were applied one after the other, from `w` to the state reached. */
  ghost predicate LedTo(ok: Step, gasLimit: Uint64, w: World, worlds: seq<World>, p: Progress)
  {
    && Chained(ok, gasLimit, worlds, p.commonTxs, p.receipts)
    && worlds[0] == w && worlds[|p.commonTxs|] == p.world
  }

  lemma LedToNext(ok: Step, gasLimit: Uint64, w: World, worlds: seq<World>, system: bool, tx: Tx, p: Progress,
                  q: Progress)
    requires LedTo(ok, gasLimit, w, worlds, p) && p.usedGas == GasSum(p.receipts) <= gasLimit && Cumulative(q.receipts)
    requires Added(ok, system, gasLimit - p.usedGas, tx, p, q)
    ensures LedTo(ok, gasLimit, w, if system then worlds else worlds + [q.world], q)
  {
    if !system {
      LastCumulative(p.receipts, q.receipts[|p.receipts|]);
      ChainedNext(ok, gasLimit, worlds, p, tx, q, gasLimit - p.usedGas);
    }
  }

  /** What applying the message of a transaction does. */
  datatype Settlement = Settled(receipt: Receipt, world: World) | Refused(error: BlockError)

  lemma IsFollowed(s: Setting, ok: Step, pool: Uint64, w: World, tx: Tx, receipt: Receipt, after: World)
    requires Covers(ok, s) && Usable(s, [tx]) && tx.message.Some?
    requires var m := ToMessage(s.env, Sent(s, tx));
             !s.blacklisted(m, w) && Rejection(s.env, w, m, pool).None? && Applies(s, w, m, receipt, after)
    ensures ok(pool, w, tx, receipt, after)
  {
    assert Followed(s, pool, w, tx, receipt, after);
  }

  /** The message of a common transaction is applied. */
  method ApplyMessage(s: Setting, ghost ok: Step, gp: GasPool, tx: Tx, p: Progress) returns (r: Settlement)
    requires Sane(s) && Covers(ok, s) && Usable(s, [tx]) && gp.gas + p.usedGas <= MAX_GAS_LIMIT && !IsSystem(s, tx)
    requires Solvent(p.world)
    modifies gp
    ensures r.Refused? ==> Explains(s, tx, p, old(gp.gas), r.error)
    ensures r.Settled? ==>
              && ok(old(gp.gas), p.world, tx, r.receipt, r.world) && Solvent(r.world)
              && Within(s, tx, r.receipt) && WellFormed(s.env, tx.message.value)
              && r.receipt.cumulativeGasUsed == p.usedGas + r.receipt.gasUsed
              && gp.gas + r.receipt.gasUsed == old(gp.gas)
              && (Conserves(s) ==>
                    Total(r.world.accounts) == Total(p.world.accounts)
                    - IntendedBurn(s.env, ToMessage(s.env, tx.message.value), r.receipt.gasUsed))
  {
    if tx.message.None? { return Refused(NoMessage); }
    var m := ToMessage(s.env, Sent(s, tx));
    ghost var pool := gp.gas;
    var applied := ApplyMessageWithEVM(s, gp, p.world, m, p.usedGas);
    if applied.Failure? { return Refused(applied.error); }
    IsFollowed(s, ok, pool, p.world, tx, applied.receipt, applied.world);
    return Settled(applied.receipt, applied.world);
  }

  /** A common transaction is applied. */
  method ApplyCommon(s: Setting, ghost ok: Step, gp: GasPool, tx: Tx, p: Progress, section: bool, ghost w: World,
                     ghost done: seq<Tx>)
      returns (r: Advance)
    requires Sane(s) && Covers(ok, s) && Usable(s, [tx]) && gp.gas + p.usedGas <= MAX_GAS_LIMIT && !IsSystem(s, tx)
    requires OrderKept(s, done, p) && BooksKept(s, w, p)
    requires (section <==> p.systemTxs != []) && (s.posa && s.miko ==> !section)
    modifies gp
    ensures Right(s, w, done, tx, p, old(gp.gas), gp.gas, r)
    ensures r.Onward? ==> Added(ok, false, old(gp.gas), tx, p, r.p)
  {
    var applied := ApplyMessage(s, ok, gp, tx, p);
    if applied.Refused? { return Stuck(applied.error); }
    var receipt := applied.receipt;
    var q := Progress(p.receipts + [receipt], p.commonTxs + [tx], p.systemTxs, receipt.cumulativeGasUsed,
                      applied.world);
    OrderNext(s, done, p, tx, q);
    BooksNext(s, w, p, tx, receipt, q);
    return Onward(q, section);
  }

  lemma SystemNext(s: Setting, w: World, done: seq<Tx>, tx: Tx, p: Progress, pool: Uint64)
    requires Usable(s, [tx]) && IsSystem(s, tx) && OrderKept(s, done, p) && BooksKept(s, w, p)
    ensures Right(s, w, done, tx, p, pool, pool, Onward(p.(systemTxs := p.systemTxs + [tx]), true))
  {
    OrderNext(s, done, p, tx, p.(systemTxs := p.systemTxs + [tx]));
  }

  /** One round of the loop over the transactions. */
  method Advanced(s: Setting, ghost ok: Step, gp: GasPool, tx: Tx, p: Progress, section: bool, ghost w: World,
                  ghost done: seq<Tx>)
      returns (r: Advance)
    requires Sane(s) && Covers(ok, s) && Usable(s, [tx]) && gp.gas + p.usedGas <= MAX_GAS_LIMIT
    requires OrderKept(s, done, p) && BooksKept(s, w, p) && (section <==> p.systemTxs != [])
    modifies gp
    ensures Right(s, w, done, tx, p, old(gp.gas), gp.gas, r)
    ensures r.Onward? ==> Added(ok, IsSystem(s, tx), old(gp.gas), tx, p, r.p)
  {
    if s.posa {
      if tx.kind.Unclear? { return Stuck(Unknown); }
      if tx.kind.System? {
        SystemNext(s, w, done, tx, p, gp.gas);
        return Onward(p.(systemTxs := p.systemTxs + [tx]), true);
      }
      if s.miko && section { return Stuck(OutOfOrderSystemTx); }
    }
    r := ApplyCommon(s, ok, gp, tx, p, section, w, done);
  }

  /** The loop over the transactions. */
  method ApplyAll(s: Setting, ghost ok: Step, gasLimit: Uint64, w: World, txs: seq<Tx>)
      returns (r: Processed, ghost reached: Progress, ghost worlds: seq<World>)
    requires Sane(s) && Covers(ok, s) && Usable(s, txs) && Solvent(w) && gasLimit <= MAX_GAS_LIMIT
    ensures r.Done? ==>
              reached == r.p && OrderKept(s, txs, r.p) && BooksKept(s, w, r.p) && r.pool + r.p.usedGas == gasLimit
    ensures LedTo(ok, gasLimit, w, worlds, reached)
    ensures r.Done? && s.posa && s.miko ==> txs == r.p.commonTxs + r.p.systemTxs
    ensures r.Failed? ==>
              && r.index < |txs| && reached.usedGas <= gasLimit
              && OrderKept(s, txs[..r.index], reached) && BooksKept(s, w, reached)
              && Usable(s, [txs[r.index]]) && Explains(s, txs[r.index], reached, gasLimit - reached.usedGas, r.error)
  {
    var gp := new GasPool(gasLimit);
    var p, section := Progress([], [], [], 0, w), false;
    worlds := [w];
    for i := 0 to |txs|
      invariant fresh(gp) && gp.gas + p.usedGas == gasLimit
      invariant section <==> p.systemTxs != []
      invariant OrderKept(s, txs[..i], p) && BooksKept(s, w, p)
      invariant LedTo(ok, gasLimit, w, worlds, p)
      modifies gp
    {
      assert txs[..i + 1] == txs[..i] + [txs[i]];
      var next := Advanced(s, ok, gp, txs[i], p, section, w, txs[..i]);
      if next.Stuck? { return Failed(i, next.error), p, worlds; }
      LedToNext(ok, gasLimit, w, worlds, IsSystem(s, txs[i]), txs[i], p, next.p);
      worlds := if IsSystem(s, txs[i]) then worlds else worlds + [next.p.world];
      p, section := next.p, next.section;
    }
    assert txs[..|txs|] == txs;
    if s.posa && s.miko { SystemLastSplits(s, txs); }
    return Done(p, gp.gas), p, worlds;
  }

  /** A processed block used no more than its gas limit; the receipts add up to what was used, each carrying the
      running total; the common transactions are exactly those with a receipt, and were applied one after the other,
      each to the state that the one before it left; once Miko is active they all come before the system transactions;
      and the money in the world has shrunk by the messages' burns.  A block is refused for a reason, at the first
      transaction that cannot follow those before it. */
  method Process(s: Setting, gasLimit: Uint64, w: World, txs: seq<Tx>)
      returns (r: Processed, ghost reached: Progress, ghost worlds: seq<World>)
    requires Sane(s) && Usable(s, txs) && Solvent(w) && gasLimit <= MAX_GAS_LIMIT
    ensures r.Done? ==>
              reached == r.p && OrderKept(s, txs, r.p) && BooksKept(s, w, r.p) && r.pool + r.p.usedGas == gasLimit
    ensures LedTo(StepOf(s), gasLimit, w, worlds, reached)
    ensures r.Done? && s.posa && s.miko ==> txs == r.p.commonTxs + r.p.systemTxs
    ensures r.Failed? ==>
              && r.index < |txs| && reached.usedGas <= gasLimit
              && OrderKept(s, txs[..r.index], reached) && BooksKept(s, w, reached)
              && Usable(s, [txs[r.index]]) && Explains(s, txs[r.index], reached, gasLimit - reached.usedGas, r.error)
  {
    StepCovers(s);
    r, reached, worlds := ApplyAll(s, StepOf(s), gasLimit, w, txs);
  }
}

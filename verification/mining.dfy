/**
 The mining protocol: transaction workers, automine and `evm_mine` callers, the interval miner,
 storage resets and readers of the latest state, any number of each, sharing the four miner
 locks and the latest-state lock.

 A thread's program counter says which locks it holds and which one it waits for. Reads of
 permanent storage, the database batch and the publication of the new block are separate steps.
 */
module Mining {
  import opened Common
  import opened Locks

  datatype Tx = Tx(hash: nat, input: BlockInfo)

  /** A block with the transactions executed for it, in order. */
  datatype Block = Block(info: BlockInfo, txs: seq<Tx>)

  /** `retry`: the interval miner retries a failed commit; others give up. */
  datatype Context = Context(holdsSave: bool, retry: bool)

  datatype Outcome = Success | InputMismatch | CommitError

  datatype Pc =
    // transaction worker
    | ReadHeader
    | WantSave(info: BlockInfo)
    | Save(info: BlockInfo, automine: bool)
    // mine and commit
    | WantMineAndCommit(ctx: Context)
    | WantMine(ctx: Context)
    | FinishPending(ctx: Context)
    | ReleaseMine(ctx: Context, block: Block)
    | WantCommit(ctx: Context, block: Block)
    | CheckNumbers(ctx: Context, block: Block)
    | WantState(ctx: Context, block: Block)
    | WriteBlock(ctx: Context, block: Block)
    | Publish(ctx: Context, block: Block)
    // reset, up to the point where it holds every lock
    | ResetWantSave
    | ResetWantMineAndCommit
    | ResetWantMine
    | ResetWantCommit
    | ResetWantState
    | Reset
    // reader of the latest state
    | WantRead
    | Reading
    | Done(outcome: Outcome)

  /** `held` are the locks a thread owns, always those of its program counter. */
  datatype Thread = Thread(pc: Pc, held: set<Lock>, hash: nat, attempts: nat, maxAttempts: nat)

  /** What became of the finished block that is not published yet, if there is one. */
  datatype Phase = Empty | Finished(block: Block) | Checked(block: Block) | Written(block: Block)

  /**
   The shared block state. `finished` lists the blocks taken from the pending block and
   `accepted` the transactions whose save succeeded, both in order; `lost` records that a
   finished block was given up.
   */
  datatype Ledger = Ledger(
    pending: Block,
    chain: seq<Block>,
    mined: nat,
    finished: seq<Block>,
    accepted: seq<Tx>,
    lost: bool,
    phase: Phase)

  /** `hand` is the thread that has the unpublished block. */
  datatype State = State(ledger: Ledger, hand: Option<ThreadId>, threads: map<ThreadId, Thread>)

  // -------------------------------------------------------------------------
  // Locks
  // -------------------------------------------------------------------------

  function SaveLock(ctx: Context): set<Lock> {
    if ctx.holdsSave then {SaveExecution} else {}
  }

  function Holds(pc: Pc): set<Lock> {
    match pc
    case Save(_, automine) => if automine then {SaveExecution} else {}
    case WantMineAndCommit(ctx) => SaveLock(ctx)
    case WantMine(ctx) => SaveLock(ctx) + {MineAndCommit}
    case FinishPending(ctx) => SaveLock(ctx) + {MineAndCommit, Mine}
    case ReleaseMine(ctx, _) => SaveLock(ctx) + {MineAndCommit, Mine}
    case WantCommit(ctx, _) => SaveLock(ctx) + {MineAndCommit}
    case CheckNumbers(ctx, _) => SaveLock(ctx) + {MineAndCommit, Commit}
    case WantState(ctx, _) => SaveLock(ctx) + {MineAndCommit, Commit}
    case WriteBlock(ctx, _) => SaveLock(ctx) + {MineAndCommit, Commit, StateWrite}
    case Publish(ctx, _) => SaveLock(ctx) + {MineAndCommit, Commit, StateWrite}
    case ResetWantMineAndCommit => {SaveExecution}
    case ResetWantMine => {SaveExecution, MineAndCommit}
    case ResetWantCommit => {SaveExecution, MineAndCommit, Mine}
    case ResetWantState => {SaveExecution, MineAndCommit, Mine, Commit}
    case Reset => {SaveExecution, MineAndCommit, Mine, Commit, StateWrite}
    case _ => {}
  }

  function Wants(pc: Pc): Option<Lock> {
    match pc
    case WantSave(_) => Some(SaveExecution)
    case WantMineAndCommit(_) => Some(MineAndCommit)
    case WantMine(_) => Some(Mine)
    case WantCommit(_, _) => Some(Commit)
    case WantState(_, _) => Some(StateWrite)
    case ResetWantSave => Some(SaveExecution)
    case ResetWantMineAndCommit => Some(MineAndCommit)
    case ResetWantMine => Some(Mine)
    case ResetWantCommit => Some(Commit)
    case ResetWantState => Some(StateWrite)
    case WantRead => Some(StateRead)
    case _ => None
  }

  /** Readers share the state lock, so it is not among the locks a thread owns. */
  function ClaimOf(th: Thread): Claim {
    Claim(if th.pc == Reading then th.held + {StateRead} else th.held, Wants(th.pc))
  }

  function ClaimsOf(s: State): Claims {
    map t | t in s.threads :: ClaimOf(s.threads[t])
  }

  // -------------------------------------------------------------------------
  // Steps
  // -------------------------------------------------------------------------

  datatype Job = SendTransaction(hash: nat, maxAttempts: nat) | MineOnce | IntervalTick | ResetStorage | ReadLatest

  function StartOf(job: Job): Thread {
    match job
    case SendTransaction(h, max) => Thread(ReadHeader, {}, h, 0, max)
    case MineOnce => Thread(WantMineAndCommit(Context(false, false)), {}, 0, 0, 0)
    case IntervalTick => Thread(WantMineAndCommit(Context(false, true)), {}, 0, 0, 0)
    case ResetStorage => Thread(ResetWantSave, {}, 0, 0, 0)
    case ReadLatest => Thread(WantRead, {}, 0, 0, 0)
  }

  function Acquired(pc: Pc): Pc {
    match pc
    case WantSave(info) => Save(info, true)
    case WantMineAndCommit(ctx) => WantMine(ctx)
    case WantMine(ctx) => FinishPending(ctx)
    case WantCommit(ctx, block) => CheckNumbers(ctx, block)
    case WantState(ctx, block) => WriteBlock(ctx, block)
    case ResetWantSave => ResetWantMineAndCommit
    case ResetWantMineAndCommit => ResetWantMine
    case ResetWantMine => ResetWantCommit
    case ResetWantCommit => ResetWantState
    case ResetWantState => Reset
    case WantRead => Reading
    case _ => pc
  }

  /**
   `Act` is the next step of a thread that does not wait for a lock. `timestamp` is the clock
   when a new pending block is created, and `choice` decides what the code leaves open: whether
   automine is on when a transaction is saved, and whether the database answers the lookup of the
   block's number and accepts its batch.
   */
  datatype Step =
    | Spawn(t: ThreadId, job: Job)
    | Acquire(t: ThreadId)
    | Act(t: ThreadId, timestamp: nat, choice: bool)

  predicate Enabled(s: State, step: Step) {
    match step
    case Spawn(t, _) => t !in s.threads
    case Acquire(t) =>
      t in s.threads && Wants(s.threads[t].pc).Some? && Available(ClaimsOf(s), Wants(s.threads[t].pc).value)
    case Act(t, _, _) => t in s.threads && Wants(s.threads[t].pc).None? && !s.threads[t].pc.Done?
  }

  predicate HasHash(txs: seq<Tx>, hash: nat) {
    exists i :: 0 <= i < |txs| && txs[i].hash == hash
  }

  /** Insertion in a map that keeps the position of the first insertion of a key. */
  function Push(txs: seq<Tx>, tx: Tx): seq<Tx> {
    if txs == [] then [tx]
    else if txs[0].hash == tx.hash then [tx] + txs[1..]
    else [txs[0]] + Push(txs[1..], tx)
  }

  function Accept(l: Ledger, tx: Tx): Ledger {
    l.(pending := l.pending.(txs := Push(l.pending.txs, tx)), accepted := l.accepted + [tx])
  }

  function FinishBlock(l: Ledger, timestamp: nat): Ledger {
    l.(pending := Block(BlockInfo(l.pending.info.number + 1, timestamp), []),
       finished := l.finished + [l.pending],
       phase := Finished(l.pending))
  }

  /** The checks of `save_block`; block zero only has to be absent. */
  predicate NumberAccepted(l: Ledger, block: Block) {
    && (block.info.number == 0 || block.info.number == l.mined + 1)
    && block.info.number < l.pending.info.number
    && block.info.number >= |l.chain|
  }

  /** `commit_retry` tries the same block again; any other caller gives it up. */
  function FailCommit(l: Ledger, block: Block, retry: bool): Ledger {
    if retry then l.(phase := Finished(block)) else l.(phase := Empty, lost := true)
  }

  function StoreBlock(l: Ledger, block: Block): Ledger {
    l.(chain := l.chain + [block], phase := Written(block))
  }

  function PublishBlock(l: Ledger, block: Block): Ledger {
    l.(mined := block.info.number, phase := Empty)
  }

  /** The program counter after the next action of a thread that waits for no lock. */
  function NextPc(l: Ledger, th: Thread, choice: bool): Pc {
    match th.pc
    case ReadHeader => if choice then WantSave(l.pending.info) else Save(l.pending.info, false)
    case Save(info, automine) =>
      if info != l.pending.info then (if th.attempts >= th.maxAttempts then Done(InputMismatch) else ReadHeader)
      else if automine then WantMineAndCommit(Context(true, false))
      else Done(Success)
    case FinishPending(ctx) => ReleaseMine(ctx, l.pending)
    case ReleaseMine(ctx, block) => WantCommit(ctx, block)
    case CheckNumbers(ctx, block) =>
      if choice && NumberAccepted(l, block) then WantState(ctx, block)
      else if ctx.retry then WantCommit(ctx, block)
      else Done(CommitError)
    case WriteBlock(ctx, block) =>
      if choice then Publish(ctx, block) else if ctx.retry then WantCommit(ctx, block) else Done(CommitError)
    case _ => Done(Success)
  }

  /** A save goes through only if the pending block is still the one executed for. */
  function NextLedger(l: Ledger, th: Thread, timestamp: nat, choice: bool): Ledger {
    match th.pc
    case Save(info, _) => if info == l.pending.info then Accept(l, Tx(th.hash, info)) else l
    case FinishPending(_) => FinishBlock(l, timestamp)
    case CheckNumbers(ctx, block) =>
      if choice && NumberAccepted(l, block) then l.(phase := Checked(block)) else FailCommit(l, block, ctx.retry)
    case WriteBlock(ctx, block) => if choice then StoreBlock(l, block) else FailCommit(l, block, ctx.retry)
    case Publish(_, block) => PublishBlock(l, block)
    case _ => l
  }

  function WithPc(th: Thread, pc: Pc): Thread {
    th.(pc := pc, held := Holds(pc), attempts := if th.pc == ReadHeader then th.attempts + 1 else th.attempts)
  }

  function NextHand(s: State, t: ThreadId, l: Ledger): Option<ThreadId> {
    if l.phase == Empty then None else if s.ledger.phase == Empty then Some(t) else s.hand
  }

  function Apply(s: State, step: Step): State
    requires Enabled(s, step)
  {
    match step
    case Spawn(t, job) => s.(threads := s.threads[t := StartOf(job)])
    case Acquire(t) => s.(threads := s.threads[t := WithPc(s.threads[t], Acquired(s.threads[t].pc))])
    case Act(t, timestamp, choice) =>
      var th := s.threads[t];
      var l := NextLedger(s.ledger, th, timestamp, choice);
      State(l, NextHand(s, t, l), s.threads[t := WithPc(th, NextPc(s.ledger, th, choice))])
  }

  ghost predicate ValidRun(s: State, steps: seq<Step>)
    decreases |steps|
  {
    steps == [] || (Enabled(s, steps[0]) && ValidRun(Apply(s, steps[0]), steps[1..]))
  }

  ghost function Run(s: State, steps: seq<Step>): State
    requires ValidRun(s, steps)
    decreases |steps|
  {
    if steps == [] then s else Run(Apply(s, steps[0]), steps[1..])
  }

  // -------------------------------------------------------------------------
  // Ledger invariant
  // -------------------------------------------------------------------------

  /** The length of the chain before any block of this run. */
  function Base(l: Ledger): int {
    l.pending.info.number - |l.finished|
  }

  predicate TxsMatch(b: Block) {
    forall i | 0 <= i < |b.txs| :: b.txs[i].input == b.info
  }

  /** Finished blocks are numbered without gap, and the chain continues with them in order. */
  ghost predicate BlocksOk(l: Ledger) {
    && 0 < Base(l) <= |l.chain| <= l.pending.info.number
    && (forall i | 0 <= i < |l.finished| :: l.finished[i].info.number == Base(l) + i && TxsMatch(l.finished[i]))
    && (forall i | Base(l) <= i < |l.chain| :: l.chain[i] == l.finished[i - Base(l)])
    && TxsMatch(l.pending)
  }

  /** How far the chain is behind the pending block. */
  ghost predicate NumbersOk(l: Ledger) {
    && (l.phase != Empty ==> l.finished != [] && l.phase.block == l.finished[|l.finished| - 1])
    && match l.phase
       case Empty => l.mined + 1 == |l.chain| && (l.lost <==> l.pending.info.number > |l.chain|)
       case Finished(_) =>
         && l.mined + 1 == |l.chain| < l.pending.info.number
         && (l.lost <==> l.pending.info.number > |l.chain| + 1)
       case Checked(_) => !l.lost && l.mined + 1 == |l.chain| && l.pending.info.number == |l.chain| + 1
       case Written(_) => !l.lost && l.mined + 2 == |l.chain| == l.pending.info.number
  }

  /** An accepted transaction is in the pending block or in the finished block it was executed for. */
  ghost predicate Settled(l: Ledger, tx: Tx) {
    if tx.input.number == l.pending.info.number then
      tx.input == l.pending.info && HasHash(l.pending.txs, tx.hash)
    else
      var i := tx.input.number - Base(l);
      0 <= i < |l.finished| && l.finished[i].info == tx.input && HasHash(l.finished[i].txs, tx.hash)
  }

  /** Blocks hold nothing but accepted transactions. */
  ghost predicate OnlyAccepted(l: Ledger) {
    && (forall i | 0 <= i < |l.pending.txs| :: l.pending.txs[i] in l.accepted)
    && (forall n, i | 0 <= n < |l.finished| && 0 <= i < |l.finished[n].txs| :: l.finished[n].txs[i] in l.accepted)
  }

  ghost predicate LedgerOk(l: Ledger) {
    BlocksOk(l) && NumbersOk(l) && OnlyAccepted(l) && forall i | 0 <= i < |l.accepted| :: Settled(l, l.accepted[i])
  }

  lemma {:induction false} PushKeeps(txs: seq<Tx>, tx: Tx, info: BlockInfo)
    requires tx.input == info && forall i | 0 <= i < |txs| :: txs[i].input == info
    ensures forall i | 0 <= i < |Push(txs, tx)| :: Push(txs, tx)[i].input == info
    ensures forall i | 0 <= i < |Push(txs, tx)| :: Push(txs, tx)[i] == tx || Push(txs, tx)[i] in txs
    ensures forall h :: HasHash(Push(txs, tx), h) <==> HasHash(txs, h) || h == tx.hash
  {
    if txs == [] {
      assert Push(txs, tx)[0].hash == tx.hash;
    } else {
      var rest := txs[1..];
      if txs[0].hash != tx.hash { PushKeeps(rest, tx, info); }
      var pushed := if txs[0].hash == tx.hash then rest else Push(rest, tx);
      assert Push(txs, tx)[1..] == pushed;
      forall h ensures HasHash(Push(txs, tx), h) <==> HasHash(txs, h) || h == tx.hash {
        HasHashSplit(txs, h);
        HasHashSplit(Push(txs, tx), h);
      }
    }
  }

  lemma HasHashSplit(txs: seq<Tx>, hash: nat)
    requires txs != []
    ensures HasHash(txs, hash) <==> txs[0].hash == hash || HasHash(txs[1..], hash)
  {
    if HasHash(txs[1..], hash) {
      var i :| 0 <= i < |txs[1..]| && txs[1..][i].hash == hash;
      assert txs[i + 1].hash == hash;
    }
    if HasHash(txs, hash) {
      var i :| 0 <= i < |txs| && txs[i].hash == hash;
      assert i > 0 ==> txs[1..][i - 1].hash == hash;
    }
  }

  lemma AcceptOk(l: Ledger, tx: Tx)
    requires LedgerOk(l) && tx.input == l.pending.info
    ensures LedgerOk(Accept(l, tx))
  {
    var l' := Accept(l, tx);
    PushKeeps(l.pending.txs, tx, tx.input);
    forall i | 0 <= i < |l'.accepted| ensures Settled(l', l'.accepted[i]) {
      if i < |l.accepted| { assert Settled(l, l.accepted[i]); }
    }
  }

  lemma FinishBlockOk(l: Ledger, timestamp: nat)
    requires LedgerOk(l) && l.phase == Empty
    ensures LedgerOk(FinishBlock(l, timestamp))
  {
    var l' := FinishBlock(l, timestamp);
    forall i | 0 <= i < |l'.accepted| ensures Settled(l', l'.accepted[i]) {
      assert Settled(l, l.accepted[i]);
    }
  }

  /** Steps of a commit move the block along without touching what was accepted. */
  lemma CommitStepOk(l: Ledger, l': Ledger)
    requires LedgerOk(l) && BlocksOk(l') && NumbersOk(l')
    requires l'.pending == l.pending && l'.finished == l.finished && l'.accepted == l.accepted
    ensures LedgerOk(l')
  {
    forall i | 0 <= i < |l'.accepted| ensures Settled(l', l'.accepted[i]) {
      assert Settled(l, l.accepted[i]);
    }
  }

  lemma StoreBlockOk(l: Ledger, block: Block)
    requires LedgerOk(l) && l.phase == Checked(block)
    ensures LedgerOk(StoreBlock(l, block))
  {
    CommitStepOk(l, StoreBlock(l, block));
  }

  // -------------------------------------------------------------------------
  // Thread invariant
  // -------------------------------------------------------------------------

  function PhaseOf(pc: Pc): Phase {
    match pc
    case ReleaseMine(_, block) => Finished(block)
    case WantCommit(_, block) => Finished(block)
    case CheckNumbers(_, block) => Finished(block)
    case WantState(_, block) => Checked(block)
    case WriteBlock(_, block) => Checked(block)
    case Publish(_, block) => Written(block)
    case _ => Empty
  }

  function AttemptLimit(max: nat): nat {
    if max == 0 then 1 else max
  }

  ghost predicate ThreadOk(s: State, t: ThreadId, th: Thread) {
    && th.held == Holds(th.pc)
    && PhaseOf(th.pc) == (if s.hand == Some(t) then s.ledger.phase else Empty)
    && th.attempts <= AttemptLimit(th.maxAttempts)
    && (th.pc == ReadHeader ==> th.attempts < AttemptLimit(th.maxAttempts))
  }

  ghost predicate MutualExclusion(s: State) {
    forall t, u | t in s.threads && u in s.threads && t != u :: s.threads[t].held !! s.threads[u].held
  }

  ghost predicate Inv(s: State) {
    && LedgerOk(s.ledger)
    && MutualExclusion(s)
    && (s.hand.None? <==> s.ledger.phase == Empty)
    && (s.hand.Some? ==> s.hand.value in s.threads)
    && (forall t | t in s.threads :: ThreadOk(s, t, s.threads[t]))
  }

  /** At start-up the genesis block is stored and the pending block is the next one. */
  ghost predicate Init(s: State) {
    var l := s.ledger;
    && |l.chain| > 0 && l.mined + 1 == |l.chain| == l.pending.info.number
    && l.pending.txs == [] && l.finished == [] && l.accepted == []
    && !l.lost && l.phase == Empty && s.hand == None && s.threads == map[]
  }

  lemma HoldsOfAcquired(pc: Pc)
    requires Wants(pc).Some?
    ensures Holds(Acquired(pc)) <= Holds(pc) + {Wants(pc).value}
    ensures StateRead !in Holds(Acquired(pc)) && PhaseOf(Acquired(pc)) == PhaseOf(pc)
    ensures Acquired(pc) != ReadHeader && pc != ReadHeader
  {
  }

  lemma HoldsOfNext(l: Ledger, th: Thread, choice: bool)
    requires Wants(th.pc).None?
    ensures Holds(NextPc(l, th, choice)) <= Holds(th.pc)
  {
  }

  lemma ThreadReplaced(s: State, s': State, t: ThreadId)
    requires Inv(s) && LedgerOk(s'.ledger)
    requires t in s'.threads && s'.threads == s.threads[t := s'.threads[t]]
    requires ThreadOk(s', t, s'.threads[t])
    requires forall u | u in s.threads && u != t :: s'.threads[t].held !! s.threads[u].held
    requires s'.hand.None? <==> s'.ledger.phase == Empty
    requires s'.hand == Some(t) || (s'.hand.None? && (s.hand.None? || s.hand == Some(t)))
             || (s'.hand == s.hand && s'.ledger.phase == s.ledger.phase)
    requires s'.hand == Some(t) ==> s.hand.None? || s.hand == Some(t)
    ensures Inv(s')
  {
    forall u | u in s'.threads ensures ThreadOk(s', u, s'.threads[u]) {
      if u != t { assert ThreadOk(s, u, s.threads[u]); }
    }
  }

  lemma AcquireOk(s: State, t: ThreadId)
    requires Inv(s) && Enabled(s, Acquire(t))
    ensures Inv(Apply(s, Acquire(t)))
  {
    var s' := Apply(s, Acquire(t));
    var th := s.threads[t];
    assert ThreadOk(s, t, th);
    HoldsOfAcquired(th.pc);
    forall u | u in s.threads && u != t ensures s'.threads[t].held !! s.threads[u].held {
      assert !Blocks(Wants(th.pc).value, ClaimsOf(s)[u]);
      assert ThreadOk(s, u, s.threads[u]) && th.held !! s.threads[u].held;
    }
    ThreadReplaced(s, s', t);
  }

  lemma CheckOk(l: Ledger, block: Block, retry: bool)
    requires LedgerOk(l) && l.phase == Finished(block)
    ensures NumberAccepted(l, block) <==> !l.lost
    ensures NumberAccepted(l, block) ==> LedgerOk(l.(phase := Checked(block)))
    ensures LedgerOk(FailCommit(l, block, retry))
  {
    if NumberAccepted(l, block) {
      CommitStepOk(l, l.(phase := Checked(block)));
    }
    CommitStepOk(l, FailCommit(l, block, retry));
  }

  lemma FailedWriteOk(l: Ledger, block: Block, retry: bool)
    requires LedgerOk(l) && l.phase == Checked(block)
    ensures LedgerOk(FailCommit(l, block, retry))
  {
    CommitStepOk(l, FailCommit(l, block, retry));
  }

  lemma PublishOk(l: Ledger, block: Block)
    requires LedgerOk(l) && l.phase == Written(block)
    ensures LedgerOk(PublishBlock(l, block))
  {
    CommitStepOk(l, PublishBlock(l, block));
  }

  /** `th` has the block of the ledger, or none; a thread that finishes a block finds none. */
  lemma LedgerStepOk(l: Ledger, th: Thread, timestamp: nat, choice: bool)
    requires LedgerOk(l) && (PhaseOf(th.pc) == Empty || PhaseOf(th.pc) == l.phase)
    requires th.pc.FinishPending? ==> l.phase == Empty
    ensures LedgerOk(NextLedger(l, th, timestamp, choice))
  {
    match th.pc
    case Save(info, _) => if info == l.pending.info { AcceptOk(l, Tx(th.hash, info)); }
    case FinishPending(_) => FinishBlockOk(l, timestamp);
    case CheckNumbers(ctx, block) => CheckOk(l, block, ctx.retry);
    case WriteBlock(ctx, block) => if choice { StoreBlockOk(l, block); } else { FailedWriteOk(l, block, ctx.retry); }
    case Publish(_, block) => PublishOk(l, block);
    case _ =>
  }

  lemma PhaseFollowsPc(l: Ledger, th: Thread, timestamp: nat, choice: bool)
    requires Wants(th.pc).None? && !th.pc.Done?
    requires PhaseOf(th.pc) == l.phase || (PhaseOf(th.pc) == Empty && !th.pc.FinishPending?)
    ensures var l' := NextLedger(l, th, timestamp, choice);
      var next := PhaseOf(NextPc(l, th, choice));
      if PhaseOf(th.pc) == l.phase then next == l'.phase else next == Empty && l'.phase == l.phase
  {
  }

  lemma PhaseNeedsLock(pc: Pc)
    ensures PhaseOf(pc) != Empty || pc.FinishPending? ==> MineAndCommit in Holds(pc)
  {
  }

  /** The block in hand is guarded by the mine-and-commit lock. */
  lemma NoBlockInHand(s: State, t: ThreadId)
    requires Inv(s) && t in s.threads && MineAndCommit in s.threads[t].held && PhaseOf(s.threads[t].pc) == Empty
    ensures s.hand == None
  {
    forall u | u in s.threads ensures s.hand != Some(u) {
      assert ThreadOk(s, u, s.threads[u]);
      if u != t {
        PhaseNeedsLock(s.threads[u].pc);
        assert MineAndCommit !in s.threads[u].held;
      }
    }
  }

  lemma ActOk(s: State, t: ThreadId, timestamp: nat, choice: bool)
    requires Inv(s) && Enabled(s, Act(t, timestamp, choice))
    ensures Inv(Apply(s, Act(t, timestamp, choice)))
  {
    var s' := Apply(s, Act(t, timestamp, choice));
    var th := s.threads[t];
    assert ThreadOk(s, t, th);
    HoldsOfNext(s.ledger, th, choice);
    if th.pc.FinishPending? {
      PhaseNeedsLock(th.pc);
      NoBlockInHand(s, t);
    }
    LedgerStepOk(s.ledger, th, timestamp, choice);
    PhaseFollowsPc(s.ledger, th, timestamp, choice);
    forall u | u in s.threads && u != t ensures s'.threads[t].held !! s.threads[u].held {
      assert th.held !! s.threads[u].held;
    }
    ThreadReplaced(s, s', t);
  }

  lemma SpawnOk(s: State, t: ThreadId, job: Job)
    requires Inv(s) && Enabled(s, Spawn(t, job))
    ensures Inv(Apply(s, Spawn(t, job)))
  {
    ThreadReplaced(s, Apply(s, Spawn(t, job)), t);
  }

  lemma StepPreservesInv(s: State, step: Step)
    requires Inv(s) && Enabled(s, step)
    ensures Inv(Apply(s, step))
  {
    match step
    case Spawn(t, job) => SpawnOk(s, t, job);
    case Acquire(t) => AcquireOk(s, t);
    case Act(t, timestamp, choice) => ActOk(s, t, timestamp, choice);
  }

  lemma {:induction false} RunPreservesInv(s: State, steps: seq<Step>)
    requires Inv(s) && ValidRun(s, steps)
    ensures Inv(Run(s, steps))
    decreases |steps|
  {
    if steps == [] {
    } else {
      StepPreservesInv(s, steps[0]);
      RunPreservesInv(Apply(s, steps[0]), steps[1..]);
    }
  }

  // -------------------------------------------------------------------------
  // Whole runs
  // -------------------------------------------------------------------------

  /** The blocks stored before the run stay, and numbering continues from them. */
  lemma {:induction false} RunKeepsBase(s: State, steps: seq<Step>)
    requires ValidRun(s, steps)
    ensures Base(Run(s, steps).ledger) == Base(s.ledger)
    ensures |s.ledger.chain| <= |Run(s, steps).ledger.chain|
    ensures Run(s, steps).ledger.chain[..|s.ledger.chain|] == s.ledger.chain
    decreases |steps|
  {
    if steps == [] {
    } else {
      var next := Apply(s, steps[0]);
      assert next.ledger.chain[..|s.ledger.chain|] == s.ledger.chain && Base(next.ledger) == Base(s.ledger);
      RunKeepsBase(next, steps[1..]);
      var end := Run(next, steps[1..]);
      assert end.ledger.chain[..|s.ledger.chain|] == end.ledger.chain[..|next.ledger.chain|][..|s.ledger.chain|];
    }
  }

  /** The blocks a run stores are the ones it finished. */
  lemma StoredIsFinished(start: State, steps: seq<Step>, n: nat)
    requires Init(start) && ValidRun(start, steps)
    requires |start.ledger.chain| <= n < |Run(start, steps).ledger.chain|
    ensures var l := Run(start, steps).ledger;
      && 0 <= n - |start.ledger.chain| < |l.finished|
      && l.chain[n] == l.finished[n - |start.ledger.chain|] && l.chain[n].info.number == n
  {
    RunPreservesInv(start, steps);
    RunKeepsBase(start, steps);
    assert BlocksOk(Run(start, steps).ledger);
  }

  ghost predicate IsFree(s: State, lock: Lock) {
    forall t | t in s.threads :: lock !in s.threads[t].held
  }

  /**
   Whenever nobody mines, the pending block is the one after the mined block, and the chain is
   the initial one followed by every finished block, once each and in mining order, if and only
   if no block was given up.
   */
  lemma NumbersAgreeIffNothingLost(start: State, steps: seq<Step>)
    requires Init(start) && ValidRun(start, steps) && IsFree(Run(start, steps), MineAndCommit)
    ensures var l := Run(start, steps).ledger;
      && (l.pending.info.number == l.mined + 1 <==> !l.lost)
      && (l.chain == start.ledger.chain + l.finished <==> !l.lost)
  {
    RunPreservesInv(start, steps);
    RunKeepsBase(start, steps);
    var s := Run(start, steps);
    forall u | u in s.threads ensures s.hand != Some(u) {
      assert ThreadOk(s, u, s.threads[u]);
      PhaseNeedsLock(s.threads[u].pc);
    }
    assert s.ledger.phase == Empty;
  }

  /** A commit is refused because of its number if and only if an earlier block was given up. */
  lemma NumberConflictsOnlyAfterALoss(start: State, steps: seq<Step>, t: ThreadId)
    requires Init(start) && ValidRun(start, steps)
    requires t in Run(start, steps).threads && Run(start, steps).threads[t].pc.CheckNumbers?
    ensures var s := Run(start, steps);
      NumberAccepted(s.ledger, s.threads[t].pc.block) <==> !s.ledger.lost
  {
    RunPreservesInv(start, steps);
    var s := Run(start, steps);
    assert ThreadOk(s, t, s.threads[t]);
    CheckOk(s.ledger, s.threads[t].pc.block, s.threads[t].pc.ctx.retry);
  }

  /** The database failed the lookup of a block or refused its batch, and the caller does not retry. */
  ghost predicate GivesUp(s: State, step: Step)
    requires Enabled(s, step)
  {
    && step.Act? && !step.choice
    && (s.threads[step.t].pc.CheckNumbers? || s.threads[step.t].pc.WriteBlock?)
    && !s.threads[step.t].pc.ctx.retry
  }

  ghost predicate GivesUpIn(s: State, steps: seq<Step>)
    requires ValidRun(s, steps)
    decreases |steps|
  {
    steps != [] && (GivesUp(s, steps[0]) || GivesUpIn(Apply(s, steps[0]), steps[1..]))
  }

  lemma LossOfStep(s: State, step: Step)
    requires Inv(s) && Enabled(s, step)
    ensures Apply(s, step).ledger.lost <==> s.ledger.lost || GivesUp(s, step)
    ensures s.ledger.lost ==> Apply(s, step).ledger.chain == s.ledger.chain
  {
    if step.Act? {
      var th := s.threads[step.t];
      assert ThreadOk(s, step.t, th);
      if th.pc.CheckNumbers? { CheckOk(s.ledger, th.pc.block, th.pc.ctx.retry); }
    }
  }

  /** A block is lost exactly when a failed database access is not retried. */
  lemma {:induction false} LostIffACommitIsGivenUp(s: State, steps: seq<Step>)
    requires Inv(s) && ValidRun(s, steps)
    ensures Run(s, steps).ledger.lost <==> s.ledger.lost || GivesUpIn(s, steps)
    decreases |steps|
  {
    if steps == [] {
    } else {
      LossOfStep(s, steps[0]);
      StepPreservesInv(s, steps[0]);
      LostIffACommitIsGivenUp(Apply(s, steps[0]), steps[1..]);
    }
  }

  // ----- by the calls of a run -----

  predicate AccessesDatabase(pc: Pc) {
    pc.CheckNumbers? || pc.WriteBlock?
  }

  /** `ticks`, and what the run adds to them, are the threads started by the interval miner. */
  function TicksAfter(ticks: set<ThreadId>, step: Step): set<ThreadId> {
    if step.Spawn? && step.job.IntervalTick? then ticks + {step.t} else ticks
  }

  /** Every database access that fails is one of a tick. */
  ghost predicate OnlyTicksFail(s: State, steps: seq<Step>, ticks: set<ThreadId>)
    requires ValidRun(s, steps)
    decreases |steps|
  {
    steps == [] ||
    (var step := steps[0];
     && (step.Act? && !step.choice && AccessesDatabase(s.threads[step.t].pc) ==> step.t in ticks)
     && OnlyTicksFail(Apply(s, step), steps[1..], TicksAfter(ticks, step)))
  }

  predicate InMiner(pc: Pc) {
    || pc.WantMineAndCommit? || pc.WantMine? || pc.FinishPending? || pc.ReleaseMine? || pc.WantCommit?
    || pc.CheckNumbers? || pc.WantState? || pc.WriteBlock? || pc.Publish?
  }

  /** Exactly the ticks retry, and none of them fails. */
  ghost predicate TicksRetry(s: State, ticks: set<ThreadId>) {
    && ticks <= s.threads.Keys
    && forall t | t in s.threads ::
         var pc := s.threads[t].pc;
         && (InMiner(pc) ==> (pc.ctx.retry <==> t in ticks))
         && (t in ticks ==> InMiner(pc) || pc == Done(Success))
  }

  lemma StepKeepsTicks(s: State, step: Step, ticks: set<ThreadId>)
    requires Enabled(s, step) && TicksRetry(s, ticks)
    ensures TicksRetry(Apply(s, step), TicksAfter(ticks, step))
  {
  }

  lemma {:induction false} LostIffOthersFail(s: State, steps: seq<Step>, ticks: set<ThreadId>)
    requires Inv(s) && ValidRun(s, steps) && TicksRetry(s, ticks)
    ensures Run(s, steps).ledger.lost <==> s.ledger.lost || !OnlyTicksFail(s, steps, ticks)
    decreases |steps|
  {
    if steps == [] {
    } else {
      var step := steps[0];
      LossOfStep(s, step);
      StepPreservesInv(s, step);
      StepKeepsTicks(s, step, ticks);
      LostIffOthersFail(Apply(s, step), steps[1..], TicksAfter(ticks, step));
    }
  }

  /** A block is lost exactly when the database fails somebody who is not the interval miner. */
  lemma LostIffDatabaseFailsOthers(start: State, steps: seq<Step>)
    requires Init(start) && ValidRun(start, steps)
    ensures Run(start, steps).ledger.lost <==> !OnlyTicksFail(start, steps, {})
  {
    LostIffOthersFail(start, steps, {});
  }

  /** However often it fails the interval miner, numbers and chain agree. */
  lemma IntervalMinerLosesNothing(start: State, steps: seq<Step>)
    requires Init(start) && ValidRun(start, steps) && OnlyTicksFail(start, steps, {})
    requires IsFree(Run(start, steps), MineAndCommit)
    ensures var l := Run(start, steps).ledger;
      !l.lost && l.pending.info.number == l.mined + 1 && l.chain == start.ledger.chain + l.finished
  {
    LostIffDatabaseFailsOthers(start, steps);
    NumbersAgreeIffNothingLost(start, steps);
  }

  ghost predicate CanLose(s: State) {
    exists steps :: ValidRun(s, steps) && Run(s, steps).ledger.lost
  }

  lemma LoseAfter(s: State, step: Step)
    requires Enabled(s, step) && CanLose(Apply(s, step))
    ensures CanLose(s)
  {
    var rest :| ValidRun(Apply(s, step), rest) && Run(Apply(s, step), rest).ledger.lost;
    var steps := [step] + rest;
    assert steps[0] == step && steps[1..] == rest;
    assert ValidRun(s, steps) && Run(s, steps).ledger.lost;
  }

  /** The only thread has mined a block for a caller that does not retry; the lookup of its number fails. */
  lemma LoseFinishedBlock(s: State, block: Block)
    requires s.threads.Keys == {0} && s.threads[0].pc == ReleaseMine(Context(false, false), block)
    requires s.threads[0].held == Holds(s.threads[0].pc)
    ensures CanLose(s)
  {
    var s1 := Apply(s, Act(0, 0, true));
    var s2 := Apply(s1, Acquire(0));
    var s3 := Apply(s2, Act(0, 0, false));
    assert ValidRun(s3, []) && Run(s3, []).ledger.lost;
    LoseAfter(s2, Act(0, 0, false));
    LoseAfter(s1, Acquire(0));
    LoseAfter(s, Act(0, 0, true));
  }

  /** From every initial state a block can be lost: mining once is enough. */
  lemma LossIsReachable(start: State)
    requires Init(start)
    ensures CanLose(start)
  {
    var s1 := Apply(start, Spawn(0, MineOnce));
    var s2 := Apply(s1, Acquire(0));
    var s3 := Apply(s2, Acquire(0));
    LoseFinishedBlock(Apply(s3, Act(0, 0, true)), start.ledger.pending);
    LoseAfter(s3, Act(0, 0, true));
    LoseAfter(s2, Acquire(0));
    LoseAfter(s1, Acquire(0));
    LoseAfter(start, Spawn(0, MineOnce));
  }

  /** After a loss no block is ever stored again. */
  lemma {:induction false} LossStopsTheChain(s: State, steps: seq<Step>)
    requires Inv(s) && ValidRun(s, steps) && s.ledger.lost
    ensures Run(s, steps).ledger.lost && Run(s, steps).ledger.chain == s.ledger.chain
    decreases |steps|
  {
    if steps == [] {
    } else {
      LossOfStep(s, steps[0]);
      StepPreservesInv(s, steps[0]);
      LossStopsTheChain(Apply(s, steps[0]), steps[1..]);
    }
  }

  /**
   A block stored by the run holds a transaction exactly when a save of that transaction succeeded
   with the block's own number and timestamp.
   */
  lemma StoredIffAccepted(start: State, steps: seq<Step>, hash: nat, n: nat)
    requires Init(start) && ValidRun(start, steps)
    requires |start.ledger.chain| <= n < |Run(start, steps).ledger.chain|
    ensures var l := Run(start, steps).ledger;
      HasHash(l.chain[n].txs, hash)
      <==> exists i :: 0 <= i < |l.accepted| && l.accepted[i] == Tx(hash, l.chain[n].info)
  {
    RunPreservesInv(start, steps);
    RunKeepsBase(start, steps);
    var l := Run(start, steps).ledger;
    var block := l.finished[n - Base(l)];
    assert l.chain[n] == block && block.info.number == n;
    if HasHash(block.txs, hash) {
      var k :| 0 <= k < |block.txs| && block.txs[k].hash == hash;
      assert block.txs[k] in l.accepted && block.txs[k] == Tx(hash, block.info);
    }
    forall i | 0 <= i < |l.accepted| && l.accepted[i] == Tx(hash, block.info) ensures HasHash(block.txs, hash) {
      assert Settled(l, l.accepted[i]);
    }
  }

  /**
   So a transaction that was saved under one header only is, of all blocks stored by the run, in
   exactly the one with that header.
   */
  lemma AcceptedTransactionsLandOnce(start: State, steps: seq<Step>, i: nat, n: nat)
    requires Init(start) && ValidRun(start, steps)
    requires i < |Run(start, steps).ledger.accepted|
    requires var l := Run(start, steps).ledger;
      |start.ledger.chain| <= n < |l.chain|
      && forall j | 0 <= j < |l.accepted| && l.accepted[j].hash == l.accepted[i].hash ::
           l.accepted[j].input == l.accepted[i].input
    ensures var l := Run(start, steps).ledger;
      HasHash(l.chain[n].txs, l.accepted[i].hash) <==> l.chain[n].info == l.accepted[i].input
  {
    StoredIffAccepted(start, steps, Run(start, steps).ledger.accepted[i].hash, n);
  }

  /** In the pending block, in the finished block that is not published yet, or in a stored block. */
  ghost predicate Kept(l: Ledger, tx: Tx) {
    || (tx.input == l.pending.info && HasHash(l.pending.txs, tx.hash))
    || (l.phase != Empty && l.phase.block.info == tx.input && HasHash(l.phase.block.txs, tx.hash))
    || (tx.input.number < |l.chain| && l.chain[tx.input.number].info == tx.input
        && HasHash(l.chain[tx.input.number].txs, tx.hash))
  }

  lemma SettledIsKept(l: Ledger, tx: Tx)
    requires BlocksOk(l) && NumbersOk(l) && !l.lost && Settled(l, tx)
    ensures Kept(l, tx)
  {
  }

  /** Nothing accepted is forgotten: without a loss it is pending, about to be stored, or stored. */
  lemma AcceptedTransactionsAreKept(start: State, steps: seq<Step>, i: nat)
    requires Init(start) && ValidRun(start, steps)
    requires i < |Run(start, steps).ledger.accepted| && !Run(start, steps).ledger.lost
    ensures Kept(Run(start, steps).ledger, Run(start, steps).ledger.accepted[i])
  {
    RunPreservesInv(start, steps);
    var l := Run(start, steps).ledger;
    SettledIsKept(l, l.accepted[i]);
  }

  /** A worker executes a transaction at most `maxAttempts` times, and once if that is zero. */
  lemma AttemptsAreBounded(start: State, steps: seq<Step>, t: ThreadId)
    requires Init(start) && ValidRun(start, steps) && t in Run(start, steps).threads
    ensures var th := Run(start, steps).threads[t]; th.attempts <= AttemptLimit(th.maxAttempts)
  {
    RunPreservesInv(start, steps);
    assert ThreadOk(Run(start, steps), t, Run(start, steps).threads[t]);
  }

  // -------------------------------------------------------------------------
  // Deadlock freedom
  // -------------------------------------------------------------------------

  /** Every path takes its locks in the one order. */
  lemma LocksAreTakenInOrder(pc: Pc, lock: Lock)
    requires Wants(pc).Some? && lock in Holds(pc)
    ensures HeldRank(lock) < Rank(Wants(pc).value)
  {
  }

  ghost predicate CanStep(s: State, t: ThreadId) {
    Enabled(s, Acquire(t)) || Enabled(s, Act(t, 0, false))
  }

  lemma ClaimsAreInOrder(s: State, t: ThreadId)
    requires Inv(s) && t in s.threads
    ensures InOrder(ClaimsOf(s)[t]) && (Busy(ClaimsOf(s)[t]) ==> !s.threads[t].pc.Done?)
  {
    var th := s.threads[t];
    assert ThreadOk(s, t, th);
    if Wants(th.pc).Some? {
      forall lock | lock in Holds(th.pc) ensures HeldRank(lock) < Rank(Wants(th.pc).value) {
        LocksAreTakenInOrder(th.pc, lock);
      }
    }
  }

  /** In every reachable state with an unfinished thread, some thread can take a step. */
  lemma NoDeadlock(start: State, steps: seq<Step>, t: ThreadId)
    requires Init(start) && ValidRun(start, steps)
    requires t in Run(start, steps).threads && !Run(start, steps).threads[t].pc.Done?
    ensures exists u :: CanStep(Run(start, steps), u)
  {
    RunPreservesInv(start, steps);
    var s := Run(start, steps);
    forall v | v in s.threads ensures InOrder(ClaimsOf(s)[v]) && (Busy(ClaimsOf(s)[v]) ==> !s.threads[v].pc.Done?) {
      ClaimsAreInOrder(s, v);
    }
    var u := BlockedByOneThatCanStep(ClaimsOf(s), t);
    assert CanStep(s, u);
  }
}

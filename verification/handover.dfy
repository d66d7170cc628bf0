/**
 The handover of leadership between two nodes by the deploy script, as a state machine: the script
 is at one request at a time, while clients, the interval miners and the importers go on. Requests,
 mined blocks and imported blocks are atomic, and only the script changes roles.

 A reply may get lost, in which case the script repeats the request (the model does not bound how
 often); an error, a failed check or a user who gives up ends the script at any request.
 Source: utils/deploy/deploy.py, src/eth/rpc/server.rs.
 */
module Handover {
  import opened Common
  import opened Roles
  import opened Polling

  type Tx = nat
  type Block = seq<Tx>

  datatype Peer = Peer(role: NodeState, chain: seq<Block>, pending: seq<Tx>)

  datatype Config = Config(attempts: nat, required: nat, stateAttempts: nat)

  /** The request or question the script is at. */
  datatype Pc =
    | CheckLeader(attempt: nat)
    | CheckFollower(attempt: nat)
    | AskTransactions
    | DisableLeaderTransactions
    | DisableFollowerTransactions
    | PollPending(attempt: nat, count: nat)
    | AskMiner
    | PauseMiner
    | SyncLeader(attempt: nat, sync: Sync)
    | SyncFollower(attempt: nat, sync: Sync, leader: nat)
    | AskDemote
    | Demote
    | CheckDemoted(attempt: nat)
    | CheckNoLeader(nodesLeft: nat)
    | AskPromote
    | Promote
    | CheckPromoted(attempt: nat)
    | EnableLeaderTransactions
    | EnableFollowerTransactions
    | Finished
    | ResumeMiner
    | RestoreLeaderTransactions
    | RestoreFollowerTransactions
    | ReturnedEarly
    | ReturnedLate
    | Aborted

  /** `retiring` is the node that leads at the start, `rising` the one that follows it. */
  datatype System = System(
    config: Config, start: Start, retiring: Peer, rising: Peer, accepted: seq<Tx>, pc: Pc)

  /** The flags when the script is started. */
  datatype Start = Start(retiring: Flags, rising: Flags)

  datatype Who = Retiring | Rising

  /** What a request meets: a user's answer, and whether the importer parameters and tasks are fine. */
  datatype Answer = Answer(yes: bool, validParameters: bool, importerStarts: bool, importerStops: bool)

  datatype Step =
    | Submit(who: Who, tx: Tx)
    | Tick(who: Who)
    | Import(who: Who)
    | EndImport(who: Who)
    | Request(answer: Answer)
    | LoseReply(answer: Answer)
    | Abort

  // ----- nodes -----

  function At(s: System, who: Who): Peer {
    if who == Retiring then s.retiring else s.rising
  }

  function Other(s: System, who: Who): Peer {
    if who == Retiring then s.rising else s.retiring
  }

  function With(s: System, who: Who, p: Peer): System {
    if who == Retiring then s.(retiring := p) else s.(rising := p)
  }

  function Mined(p: Peer): Peer {
    p.(chain := p.chain + [p.pending], pending := [])
  }

  /** A transaction is saved, and mined at once in automine mode. */
  function Saved(p: Peer, tx: Tx): Peer {
    var saved := p.(pending := p.pending + [tx]);
    if p.role.minerMode == Automine then Mined(saved) else saved
  }

  function Imported(p: Peer, from: Peer): Peer
    requires |p.chain| < |from.chain|
  {
    p.(chain := p.chain + [from.chain[|p.chain|]])
  }

  /** An importer past its stop block ends by itself. */
  function Ended(p: Peer): Peer {
    p.(role := After(p.role, ImporterEnds))
  }

  predicate Leads(p: Peer) {
    p.role.mode == Leader
  }

  predicate Follows(p: Peer) {
    p.role.mode == Follower
  }

  predicate Importing(p: Peer) {
    p.role.importer && !p.role.importerShutdown
  }

  predicate Ticking(p: Peer) {
    p.role.intervalRunning && !p.role.flags.paused
  }

  function WithTransactions(p: Peer, enabled: bool): Peer {
    p.(role := p.role.(flags := p.role.flags.(transactions := enabled)))
  }

  function WithPaused(p: Peer, paused: bool): Peer {
    p.(role := p.role.(flags := p.role.flags.(paused := paused)))
  }

  /** The role changes as the script makes them: nobody else toggles the flags meanwhile. */
  function DemotionOf(p: Peer, a: Answer): Demotion {
    Demotion(true, false, p.role.flags, |p.pending|, p.role.flags, |p.pending|, a.validParameters, a.importerStarts,
             MinerChanged(p.role, External, |p.pending|).0.flags)
  }

  function PromotionOf(p: Peer, a: Answer): Promotion {
    Promotion(true, false, p.role.flags, a.importerStops, p.role.flags, p.role.flags.(paused := false))
  }

  // ----- the script -----

  /** What the request the script is at does to the nodes. */
  function Effect(s: System, a: Answer): System {
    match s.pc
    case DisableLeaderTransactions => s.(retiring := WithTransactions(s.retiring, false))
    case DisableFollowerTransactions => s.(rising := WithTransactions(s.rising, false))
    case PauseMiner => s.(retiring := WithPaused(s.retiring, true))
    case Demote => s.(retiring := s.retiring.(role := Demoted(s.retiring.role, DemotionOf(s.retiring, a)).0))
    case Promote => s.(rising := s.rising.(role := Promoted(s.rising.role, PromotionOf(s.rising, a)).0))
    case EnableLeaderTransactions => s.(rising := WithTransactions(s.rising, true))
    case EnableFollowerTransactions => s.(retiring := WithTransactions(s.retiring, true))
    case ResumeMiner => s.(retiring := WithPaused(s.retiring, false))
    case RestoreLeaderTransactions => s.(retiring := WithTransactions(s.retiring, true))
    case RestoreFollowerTransactions => s.(rising := WithTransactions(s.rising, true))
    case _ => s
  }

  predicate DemotionSucceeds(s: System, a: Answer) {
    Demoted(s.retiring.role, DemotionOf(s.retiring, a)).1 == Ok(true)
  }

  predicate PromotionSucceeds(s: System, a: Answer) {
    Promoted(s.rising.role, PromotionOf(s.rising, a)).1 == Ok(true)
  }

  /** A loop that has made `attempt` of `total` attempts makes another one, or has failed. */
  function Try(attempt: nat, total: nat, again: Pc, failed: Pc): Pc {
    if attempt < total then again else failed
  }

  function TryState(s: System, attempt: nat, check: Pc): Pc {
    Try(attempt, s.config.stateAttempts, check, Aborted)
  }

  /** A failed wait for pending transactions enables transactions again. */
  function TryPending(config: Config, attempt: nat, count: nat): Pc {
    Try(attempt, config.attempts, PollPending(attempt, count), RestoreLeaderTransactions)
  }

  /** A failed wait for the follower resumes the miner before that. */
  function TrySync(config: Config, attempt: nat, sync: Sync): Pc {
    Try(attempt, config.attempts, SyncLeader(attempt, sync), ResumeMiner)
  }

  function AfterPending(config: Config, attempt: nat, count: nat, sample: Option<nat>): Pc {
    var now := PendingCount(count, sample);
    if now == config.required then AskMiner else TryPending(config, attempt + 1, now)
  }

  function AfterSync(config: Config, attempt: nat, sync: Sync, leader: Option<nat>, follower: Option<nat>): Pc {
    var now := SyncNext(sync, leader, follower);
    if now.count == config.required then AskDemote else TrySync(config, attempt + 1, now)
  }

  /** Where the script goes with the reply. */
  function Next(s: System, a: Answer): Pc {
    match s.pc
    case CheckLeader(i) =>
      if Leads(s.retiring) then TryState(s, 0, CheckFollower(0)) else TryState(s, i + 1, CheckLeader(i + 1))
    case CheckFollower(i) => if !Leads(s.rising) then AskTransactions else TryState(s, i + 1, CheckFollower(i + 1))
    case AskTransactions => if a.yes then DisableLeaderTransactions else ReturnedEarly
    case DisableLeaderTransactions => DisableFollowerTransactions
    case DisableFollowerTransactions => TryPending(s.config, 0, 0)
    case PollPending(i, count) => AfterPending(s.config, i, count, Some(|s.retiring.pending|))
    case AskMiner => if a.yes then PauseMiner else RestoreLeaderTransactions
    case PauseMiner => TrySync(s.config, 0, Sync(None, 0))
    case SyncLeader(i, sync) => SyncFollower(i, sync, |s.retiring.chain|)
    case SyncFollower(i, sync, leader) => AfterSync(s.config, i, sync, Some(leader), Some(|s.rising.chain|))
    case AskDemote => if a.yes then Demote else ResumeMiner
    case Demote =>
      if DemotionSucceeds(s, a) then TryState(s, 0, CheckDemoted(0)) else Aborted
    case CheckDemoted(i) => if !Leads(s.retiring) then CheckNoLeader(2) else TryState(s, i + 1, CheckDemoted(i + 1))
    case CheckNoLeader(left) =>
      if Leads(if left == 2 then s.retiring else s.rising) then Aborted
      else if left == 2 then CheckNoLeader(1) else AskPromote
    case AskPromote => if a.yes then Promote else ReturnedLate
    case Promote =>
      if PromotionSucceeds(s, a) then TryState(s, 0, CheckPromoted(0)) else Aborted
    case CheckPromoted(i) =>
      if Leads(s.rising) then EnableLeaderTransactions else TryState(s, i + 1, CheckPromoted(i + 1))
    case EnableLeaderTransactions => EnableFollowerTransactions
    case EnableFollowerTransactions => Finished
    case ResumeMiner => RestoreLeaderTransactions
    case RestoreLeaderTransactions => RestoreFollowerTransactions
    case RestoreFollowerTransactions => ReturnedEarly
    case _ => s.pc
  }

  predicate Running(pc: Pc) {
    !pc.Finished? && !pc.ReturnedEarly? && !pc.ReturnedLate? && !pc.Aborted?
  }

  predicate Enabled(s: System, step: Step) {
    match step
    case Submit(who, _) => Leads(At(s, who)) && At(s, who).role.flags.transactions
    case Tick(who) => Ticking(At(s, who))
    case Import(who) => Importing(At(s, who)) && |At(s, who).chain| < |Other(s, who).chain|
    case EndImport(who) => Importing(At(s, who))
    case _ => Running(s.pc)
  }

  function Apply(s: System, step: Step): System
    requires Enabled(s, step)
  {
    match step
    case Submit(who, tx) => With(s, who, Saved(At(s, who), tx)).(accepted := s.accepted + [tx])
    case Tick(who) => With(s, who, Mined(At(s, who)))
    case Import(who) => With(s, who, Imported(At(s, who), Other(s, who)))
    case EndImport(who) => With(s, who, Ended(At(s, who)))
    case Request(a) => Effect(s, a).(pc := Next(s, a))
    case LoseReply(a) => Effect(s, a)
    case Abort => s.(pc := Aborted)
  }

  predicate ValidRun(s: System, steps: seq<Step>)
    decreases |steps|
  {
    steps == [] || (Enabled(s, steps[0]) && ValidRun(Apply(s, steps[0]), steps[1..]))
  }

  function Run(s: System, steps: seq<Step>): System
    requires ValidRun(s, steps)
    decreases |steps|
  {
    if steps == [] then s else Run(Apply(s, steps[0]), steps[1..])
  }

  // ----- invariant -----

  function Transactions(chain: seq<Block>): seq<Tx> {
    if chain == [] then [] else Transactions(chain[..|chain| - 1]) + chain[|chain| - 1]
  }

  predicate NodeOk(p: Peer) {
    && Roles.Inv(p.role)
    && p.role.mode != FakeLeader
    && (Follows(p) ==> p.pending == [])
  }

  /** `leader` has every transaction accepted so far, in order, and `follower` a prefix of its blocks. */
  predicate LeaderOk(leader: Peer, follower: Peer, accepted: seq<Tx>) {
    && Follows(follower)
    && follower.chain <= leader.chain
    && accepted == Transactions(leader.chain) + leader.pending
  }

  /** At most one node leads; when none does, both hold everything. */
  predicate LedgerOk(s: System) {
    && NodeOk(s.retiring) && NodeOk(s.rising)
    && (Leads(s.retiring) ==> LeaderOk(s.retiring, s.rising, s.accepted))
    && (Leads(s.rising) ==> LeaderOk(s.rising, s.retiring, s.accepted))
    && (Follows(s.retiring) && Follows(s.rising) ==>
        s.retiring.chain == s.rising.chain && s.accepted == Transactions(s.rising.chain))
  }

  predicate TransactionsOff(s: System) {
    !s.retiring.role.flags.transactions && !s.rising.role.flags.transactions
  }

  predicate Quiet(s: System) {
    TransactionsOff(s) && !Ticking(s.retiring)
  }

  predicate Untouched(s: System) {
    s.retiring.role.flags == s.start.retiring && s.rising.role.flags == s.start.rising
  }

  predicate MinerUntouched(s: System) {
    s.retiring.role.flags.paused == s.start.retiring.paused
  }

  predicate MinerAsBefore(s: System) {
    s.retiring.role.flags.paused ==> s.start.retiring.paused
  }

  /** What was enabled at the start is enabled. */
  predicate EnabledAsBefore(s: System) {
    && (s.start.retiring.transactions ==> s.retiring.role.flags.transactions)
    && (s.start.rising.transactions ==> s.rising.role.flags.transactions)
    && MinerAsBefore(s)
  }

  predicate NewLeader(s: System) {
    && Leads(s.rising) && Follows(s.retiring)
    && s.rising.role.minerMode == Interval(LEADER_MINER_INTERVAL) && Ticking(s.rising)
  }

  /** What the script has brought about when it is at a request. */
  predicate ScriptOk(s: System) {
    match s.pc
    case CheckLeader(_) => Untouched(s)
    case CheckFollower(_) => Leads(s.retiring) && Untouched(s)
    case AskTransactions => Leads(s.retiring) && Untouched(s)
    case DisableLeaderTransactions => Leads(s.retiring) && MinerUntouched(s)
    case DisableFollowerTransactions =>
      Leads(s.retiring) && MinerUntouched(s) && !s.retiring.role.flags.transactions
    case PollPending(_, _) => Leads(s.retiring) && MinerUntouched(s) && TransactionsOff(s)
    case AskMiner => Leads(s.retiring) && MinerUntouched(s) && TransactionsOff(s)
    case PauseMiner => Leads(s.retiring) && TransactionsOff(s)
    case SyncLeader(_, sync) =>
      Leads(s.retiring) && Quiet(s) && (sync.count > 0 ==> s.retiring.chain == s.rising.chain)
    case SyncFollower(_, sync, leader) =>
      Leads(s.retiring) && Quiet(s) && leader == |s.retiring.chain|
      && (sync.count > 0 ==> s.retiring.chain == s.rising.chain)
    case AskDemote => Leads(s.retiring) && Quiet(s) && s.retiring.chain == s.rising.chain
    case Demote => Follows(s.rising) && Quiet(s) && s.retiring.chain == s.rising.chain
    case CheckDemoted(_) => Follows(s.retiring) && Follows(s.rising) && TransactionsOff(s)
    case CheckNoLeader(_) => Follows(s.retiring) && Follows(s.rising) && TransactionsOff(s)
    case AskPromote => Follows(s.retiring) && Follows(s.rising) && TransactionsOff(s)
    case Promote => Follows(s.retiring) && TransactionsOff(s)
    case CheckPromoted(_) => NewLeader(s)
    case EnableLeaderTransactions => NewLeader(s)
    case EnableFollowerTransactions => NewLeader(s) && s.rising.role.flags.transactions
    case Finished => NewLeader(s) && s.rising.role.flags.transactions && s.retiring.role.flags.transactions
    case ResumeMiner => Leads(s.retiring)
    case RestoreLeaderTransactions => Leads(s.retiring) && MinerAsBefore(s)
    case RestoreFollowerTransactions =>
      Leads(s.retiring) && MinerAsBefore(s) && s.retiring.role.flags.transactions
    case ReturnedEarly => Leads(s.retiring) && EnabledAsBefore(s)
    case ReturnedLate => Follows(s.retiring) && Follows(s.rising) && TransactionsOff(s)
    case Aborted => true
  }

  predicate Inv(s: System) {
    s.config.required > 0 && LedgerOk(s) && ScriptOk(s)
  }

  /** One node leads and the other follows it, whichever addresses the script was given. */
  predicate Init(s: System) {
    && s.config.required > 0
    && LedgerOk(s)
    && (Leads(s.retiring) || Leads(s.rising))
    && s.pc == TryState(s, 0, CheckLeader(0))
    && s.start == Start(s.retiring.role.flags, s.rising.role.flags)
  }

  // ----- steps of clients, miners and importers -----

  lemma TransactionsAppend(chain: seq<Block>, b: Block)
    ensures Transactions(chain + [b]) == Transactions(chain) + b
  {
    assert (chain + [b])[..|chain|] == chain;
  }

  lemma MiningKeepsTransactions(p: Peer)
    ensures Transactions(Mined(p).chain) + Mined(p).pending == Transactions(p.chain) + p.pending
  {
    TransactionsAppend(p.chain, p.pending);
  }

  lemma SavingAddsTransaction(p: Peer, tx: Tx)
    ensures Transactions(Saved(p, tx).chain) + Saved(p, tx).pending == Transactions(p.chain) + p.pending + [tx]
    ensures p.chain <= Saved(p, tx).chain
  {
    var saved := p.(pending := p.pending + [tx]);
    MiningKeepsTransactions(saved);
    assert Transactions(p.chain) + (p.pending + [tx]) == Transactions(p.chain) + p.pending + [tx];
  }

  lemma SubmitKeepsInv(s: System, who: Who, tx: Tx)
    requires Inv(s) && Enabled(s, Submit(who, tx))
    ensures Inv(Apply(s, Submit(who, tx)))
  {
    SavingAddsTransaction(At(s, who), tx);
  }

  lemma TickKeepsInv(s: System, who: Who)
    requires Inv(s) && Enabled(s, Tick(who))
    ensures Inv(Apply(s, Tick(who)))
  {
    MiningKeepsTransactions(At(s, who));
  }

  lemma ImportKeepsInv(s: System, who: Who)
    requires Inv(s) && Enabled(s, Import(who))
    ensures Inv(Apply(s, Import(who)))
  {
    var p, from := At(s, who), Other(s, who);
    if p.chain <= from.chain {
      assert Imported(p, from).chain == from.chain[..|p.chain| + 1];
    }
  }

  lemma EndImportKeepsInv(s: System, who: Who)
    requires Inv(s) && Enabled(s, EndImport(who))
    ensures Inv(Apply(s, EndImport(who)))
  {
  }

  // ----- steps of the script -----

  lemma DemoteKeepsLedger(s: System, a: Answer)
    requires Inv(s) && s.pc == Demote
    ensures LedgerOk(Effect(s, a)) && ScriptOk(Effect(s, a))
    ensures ScriptOk(Effect(s, a).(pc := Next(s, a)))
  {
    if Leads(s.retiring) {
      DemotionSucceedsIff(s.retiring.role, DemotionOf(s.retiring, a));
      DemotionKeepsInvIff(s.retiring.role, DemotionOf(s.retiring, a));
    }
  }

  lemma PromoteKeepsLedger(s: System, a: Answer)
    requires Inv(s) && s.pc == Promote
    ensures LedgerOk(Effect(s, a)) && ScriptOk(Effect(s, a))
    ensures ScriptOk(Effect(s, a).(pc := Next(s, a)))
  {
    PromotionSucceedsIff(s.rising.role, PromotionOf(s.rising, a));
    PromotionKeepsInv(s.rising.role, PromotionOf(s.rising, a));
  }

  lemma EffectKeepsInv(s: System, a: Answer)
    requires Inv(s) && Running(s.pc)
    ensures Inv(Effect(s, a))
  {
    if s.pc == Demote {
      DemoteKeepsLedger(s, a);
    } else if s.pc == Promote {
      PromoteKeepsLedger(s, a);
    }
  }

  /** The script at its checks, before it touches the miner. */
  predicate Opening(pc: Pc) {
    || pc.CheckLeader? || pc.CheckFollower? || pc.AskTransactions? || pc.DisableLeaderTransactions?
    || pc.DisableFollowerTransactions? || pc.PollPending? || pc.AskMiner?
  }

  /** The script with the leader quiet. */
  predicate Syncing(pc: Pc) {
    pc.PauseMiner? || pc.SyncLeader? || pc.SyncFollower? || pc.AskDemote?
  }

  /** The script on its way back. */
  predicate Restoring(pc: Pc) {
    pc.ResumeMiner? || pc.RestoreLeaderTransactions? || pc.RestoreFollowerTransactions?
  }

  lemma NextOfOpening(s: System, a: Answer)
    requires ScriptOk(s) && Opening(s.pc)
    ensures ScriptOk(Effect(s, a).(pc := Next(s, a)))
  {
  }

  lemma NextOfSyncing(s: System, a: Answer)
    requires ScriptOk(s) && Syncing(s.pc) && s.config.required > 0
    requires LeaderOk(s.retiring, s.rising, s.accepted)
    ensures ScriptOk(Effect(s, a).(pc := Next(s, a)))
  {
  }

  lemma NextOfRestoring(s: System, a: Answer)
    requires ScriptOk(s) && Restoring(s.pc)
    ensures ScriptOk(Effect(s, a).(pc := Next(s, a)))
  {
  }

  lemma NextOfClosing(s: System, a: Answer)
    requires ScriptOk(s) && Running(s.pc) && !Opening(s.pc) && !Syncing(s.pc) && !Restoring(s.pc)
    requires s.pc != Demote && s.pc != Promote
    ensures ScriptOk(Effect(s, a).(pc := Next(s, a)))
  {
  }

  lemma NextKeepsInv(s: System, a: Answer)
    requires Inv(s) && Running(s.pc)
    ensures ScriptOk(Effect(s, a).(pc := Next(s, a)))
  {
    if s.pc == Demote {
      DemoteKeepsLedger(s, a);
    } else if s.pc == Promote {
      PromoteKeepsLedger(s, a);
    } else if Opening(s.pc) {
      NextOfOpening(s, a);
    } else if Syncing(s.pc) {
      NextOfSyncing(s, a);
    } else if Restoring(s.pc) {
      NextOfRestoring(s, a);
    } else {
      NextOfClosing(s, a);
    }
  }

  lemma StepKeepsInv(s: System, step: Step)
    requires Inv(s) && Enabled(s, step)
    ensures Inv(Apply(s, step))
  {
    match step
    case Submit(who, tx) => SubmitKeepsInv(s, who, tx);
    case Tick(who) => TickKeepsInv(s, who);
    case Import(who) => ImportKeepsInv(s, who);
    case EndImport(who) => EndImportKeepsInv(s, who);
    case Request(a) =>
      EffectKeepsInv(s, a);
      NextKeepsInv(s, a);
    case LoseReply(a) => EffectKeepsInv(s, a);
    case Abort =>
  }

  lemma {:induction false} RunKeepsInv(s: System, steps: seq<Step>)
    requires Inv(s) && ValidRun(s, steps)
    ensures Inv(Run(s, steps))
    decreases |steps|
  {
    if steps == [] {
    } else {
      StepKeepsInv(s, steps[0]);
      RunKeepsInv(Apply(s, steps[0]), steps[1..]);
    }
  }

  // ----- what the handover guarantees -----

  /** Whatever is interleaved, lost or aborted, there are never two leaders. */
  lemma NeverTwoLeaders(s: System, steps: seq<Step>)
    requires Init(s) && ValidRun(s, steps)
    ensures !(Leads(Run(s, steps).retiring) && Leads(Run(s, steps).rising))
  {
    RunKeepsInv(s, steps);
  }

  /**
   At the moment the follower becomes leader, it holds exactly the blocks the old leader mined, and
   they hold, in order, every transaction that was ever accepted.
   */
  lemma PromotionLosesNothing(s: System, steps: seq<Step>, step: Step)
    requires Init(s) && ValidRun(s, steps)
    requires Enabled(Run(s, steps), step)
    requires !Leads(Run(s, steps).rising) && Leads(Apply(Run(s, steps), step).rising)
    ensures var before, after := Run(s, steps), Apply(Run(s, steps), step);
            && after.rising.chain == before.rising.chain == before.retiring.chain
            && after.accepted == before.accepted == Transactions(after.rising.chain)
            && before.retiring.pending == after.rising.pending == []
  {
    RunKeepsInv(s, steps);
    StepKeepsInv(Run(s, steps), step);
  }

  predicate HoldsEverything(s: System, who: Who) {
    && s.accepted == Transactions(At(s, who).chain) + At(s, who).pending
    && Other(s, who).chain <= At(s, who).chain
  }

  /** At all times some node has all that was accepted: in its blocks or waiting for the next one. */
  lemma NothingIsEverLost(s: System, steps: seq<Step>)
    requires Init(s) && ValidRun(s, steps)
    ensures exists who :: HoldsEverything(Run(s, steps), who)
  {
    RunKeepsInv(s, steps);
    var t := Run(s, steps);
    var who := if Leads(t.retiring) then Retiring else Rising;
    assert Transactions(t.rising.chain) + [] == Transactions(t.rising.chain);
    assert HoldsEverything(t, who);
  }

  /** A plain return before the change to follower leaves on whatever was on at the start. */
  lemma EarlyReturnRestores(s: System, steps: seq<Step>)
    requires Init(s) && ValidRun(s, steps) && Run(s, steps).pc == ReturnedEarly
    ensures Leads(Run(s, steps).retiring) && EnabledAsBefore(Run(s, steps))
  {
    RunKeepsInv(s, steps);
  }

  /** A plain return after it leaves two followers that accept nothing. */
  lemma LateReturnLeavesNoLeader(s: System, steps: seq<Step>)
    requires Init(s) && ValidRun(s, steps) && Run(s, steps).pc == ReturnedLate
    ensures Follows(Run(s, steps).retiring) && Follows(Run(s, steps).rising) && TransactionsOff(Run(s, steps))
  {
    RunKeepsInv(s, steps);
  }

  /** A script that gets to its end has handed over: the new leader mines and both accept. */
  lemma FinishedHandsOver(s: System, steps: seq<Step>)
    requires Init(s) && ValidRun(s, steps) && Run(s, steps).pc == Finished
    ensures NewLeader(Run(s, steps))
    ensures Run(s, steps).rising.role.flags.transactions && Run(s, steps).retiring.role.flags.transactions
  {
    RunKeepsInv(s, steps);
  }
}

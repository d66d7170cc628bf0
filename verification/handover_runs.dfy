/**
 Where the runs of the handover lead: back to where they started when somebody backs out, through the
 waits exactly as the polling loops say, and to the end when nobody does.
 Source: utils/deploy/deploy.py.
 */
module HandoverRuns {
  import opened Common
  import R = Roles
  import opened Polling
  import opened Handover

  // ----- the way back -----

  /** `n` more requests, whatever they meet, end the script with everything as it was. */
  ghost predicate RestoresIn(s: System, n: nat)
    decreases n
  {
    if n == 0 then s.pc == ReturnedEarly && Leads(s.retiring) && EnabledAsBefore(s)
    else Running(s.pc) && forall a :: RestoresIn(Apply(s, Request(a)), n - 1)
  }

  /** The user refuses, or the last sample of a loop does not complete the row that is required. */
  predicate BacksOut(s: System, a: Answer) {
    match s.pc
    case AskTransactions => !a.yes
    case AskMiner => !a.yes
    case AskDemote => !a.yes
    case PollPending(i, count) =>
      i + 1 >= s.config.attempts && PendingCount(count, Some(|s.retiring.pending|)) != s.config.required
    case SyncFollower(i, sync, leader) =>
      && i + 1 >= s.config.attempts
      && SyncNext(sync, Some(leader), Some(|s.rising.chain|)).count != s.config.required
    case _ => false
  }

  /** How many requests undo what was done by then. */
  function ToUndo(pc: Pc): nat {
    if pc.AskTransactions? then 0 else if pc.PollPending? || pc.AskMiner? then 2 else 3
  }

  function UndoneBy(n: nat): Pc
    requires n <= 3
  {
    if n == 3 then ResumeMiner else if n == 2 then RestoreLeaderTransactions
    else if n == 1 then RestoreFollowerTransactions else ReturnedEarly
  }

  lemma {:induction false} RestoringEnds(s: System, n: nat)
    requires Inv(s) && n <= 3 && s.pc == UndoneBy(n)
    ensures RestoresIn(s, n)
    decreases n
  {
    if n == 0 {
    } else {
      forall a ensures RestoresIn(Apply(s, Request(a)), n - 1) {
        StepKeepsInv(s, Request(a));
        RestoringEnds(Apply(s, Request(a)), n - 1);
      }
    }
  }

  /**
   A refused question and a failed wait before the change to follower lead back: the requests that
   follow end the script with the leader leading, and on whatever was on at the start.
   */
  lemma BackingOutRestores(start: System, steps: seq<Step>, a: Answer)
    requires Init(start) && ValidRun(start, steps) && BacksOut(Run(start, steps), a)
    ensures var s := Run(start, steps);
      Enabled(s, Request(a)) && RestoresIn(Apply(s, Request(a)), ToUndo(s.pc))
  {
    RunKeepsInv(start, steps);
    var s := Run(start, steps);
    StepKeepsInv(s, Request(a));
    RestoringEnds(Apply(s, Request(a)), ToUndo(s.pc));
  }

  /** The state check the script is at does not find what it expects, for the last time. */
  predicate LastCheckFails(s: System) {
    match s.pc
    case CheckLeader(i) => !Leads(s.retiring) && i + 1 >= s.config.stateAttempts
    case CheckFollower(i) => Leads(s.rising) && i + 1 >= s.config.stateAttempts
    case CheckDemoted(i) => Leads(s.retiring) && i + 1 >= s.config.stateAttempts
    case CheckPromoted(i) => !Leads(s.rising) && i + 1 >= s.config.stateAttempts
    case CheckNoLeader(left) => if left == 2 then Leads(s.retiring) else Leads(s.rising)
    case _ => false
  }

  /** With attempts left for every check, a request ends in an error exactly by a check or a role change. */
  lemma AbortsIff(s: System, a: Answer)
    requires Running(s.pc) && s.config.stateAttempts > 0
    ensures Apply(s, Request(a)).pc == Aborted <==>
            || LastCheckFails(s)
            || (s.pc == Demote && !DemotionSucceeds(s, a))
            || (s.pc == Promote && !PromotionSucceeds(s, a))
  {
  }

  // ----- the waits -----

  /** Where a wait for pending transactions ends, by what each of its requests sees. */
  function PendingPolled(config: Config, pc: Pc, samples: Samples): Pc
    decreases if pc.PollPending? then config.attempts - pc.attempt else -1
  {
    if pc.PollPending? && pc.attempt < config.attempts then
      PendingPolled(config, AfterPending(config, pc.attempt, pc.count, samples(pc.attempt)), samples)
    else pc
  }

  function SyncPolled(config: Config, pc: Pc, leader: Samples, follower: Samples): Pc
    decreases if pc.SyncLeader? then config.attempts - pc.attempt else -1
  {
    if pc.SyncLeader? && pc.attempt < config.attempts then
      var i := pc.attempt;
      SyncPolled(config, AfterSync(config, i, pc.sync, leader(i), follower(i)), leader, follower)
    else pc
  }

  lemma {:induction false} PendingPolledFrom(config: Config, i: nat, count: nat, samples: Samples)
    requires i <= config.attempts && PendingOk(samples, config.required, i, count)
    ensures PendingPolled(config, TryPending(config, i, count), samples) ==
            if PendingPasses(samples, config.required, config.attempts) then AskMiner else RestoreLeaderTransactions
    decreases config.attempts - i
  {
    if i == config.attempts {
    } else {
      PendingStep(samples, config.required, i, count);
      var now := PendingCount(count, samples(i));
      if now == config.required {
        assert PendingWindow(samples, i + 1 - now, config.required, config.attempts);
      } else {
        PendingPolledFrom(config, i + 1, now, samples);
      }
    }
  }

  /** The script goes on exactly when enough samples in a row have seen nothing pending. */
  lemma PendingPollPassesIff(config: Config, samples: Samples)
    requires config.required > 0
    ensures PendingPolled(config, TryPending(config, 0, 0), samples) ==
            if PendingPasses(samples, config.required, config.attempts) then AskMiner else RestoreLeaderTransactions
  {
    PendingPolledFrom(config, 0, 0, samples);
  }

  lemma {:induction false} SyncPolledFrom(config: Config, i: nat, sync: Sync, leader: Samples, follower: Samples)
    requires i <= config.attempts && SyncWaits(sync, leader, follower, config.required, i)
    ensures SyncPolled(config, TrySync(config, i, sync), leader, follower) ==
            if SyncPasses(leader, follower, config.required, config.attempts) then AskDemote else ResumeMiner
    decreases config.attempts - i
  {
    if i == config.attempts {
    } else {
      SyncWaitStep(sync, leader, follower, config.required, i);
      var now := SyncNext(sync, leader(i), follower(i));
      assert SyncPolled(config, SyncLeader(i, sync), leader, follower)
          == SyncPolled(config, AfterSync(config, i, sync, leader(i), follower(i)), leader, follower);
      if now.count == config.required {
        SyncStillPasses(leader, follower, i - config.required, config.required, i + 1, config.attempts);
      } else {
        SyncPolledFrom(config, i + 1, now, leader, follower);
      }
    }
  }

  /** And exactly when the follower has reported the leader's unchanged block often enough in a row. */
  lemma SyncPollPassesIff(config: Config, leader: Samples, follower: Samples)
    requires config.required > 0
    ensures SyncPolled(config, TrySync(config, 0, Sync(None, 0)), leader, follower) ==
            if SyncPasses(leader, follower, config.required, config.attempts) then AskDemote else ResumeMiner
  {
    SyncPolledFrom(config, 0, Sync(None, 0), leader, follower);
  }

  // ----- the ends the handover can come to -----

  const YES := Answer(true, true, true, true)
  const NO := Answer(false, true, true, true)

  ghost predicate CanReach(s: System, goal: Pc) {
    exists steps :: ValidRun(s, steps) && Run(s, steps).pc == goal
  }

  /** Handed over, or given up after the old leader stepped down. */
  predicate IsEnd(goal: Pc) {
    goal == Finished || goal == ReturnedLate
  }

  /** There are attempts enough. */
  predicate CanPass(config: Config) {
    config.required < config.attempts && config.stateAttempts > 0
  }

  lemma ReachAfter(s: System, step: Step, goal: Pc)
    requires Enabled(s, step) && CanReach(Apply(s, step), goal)
    ensures CanReach(s, goal)
  {
    var rest :| ValidRun(Apply(s, step), rest) && Run(Apply(s, step), rest).pc == goal;
    var steps := [step] + rest;
    assert steps[0] == step && steps[1..] == rest;
    assert ValidRun(s, steps) && Run(s, steps).pc == goal;
  }

  lemma {:induction false} ReachFromPromoted(s: System, left: nat, goal: Pc)
    requires Inv(s) && goal == Finished
    requires if left == 0 then s.pc.Finished? else if left == 1 then s.pc.EnableFollowerTransactions?
             else if left == 2 then s.pc.EnableLeaderTransactions? else left == 3 && s.pc.CheckPromoted?
    ensures CanReach(s, goal)
    decreases left
  {
    if left == 0 {
      assert ValidRun(s, []) && Run(s, []).pc == Finished;
    } else {
      StepKeepsInv(s, Request(YES));
      ReachFromPromoted(Apply(s, Request(YES)), left - 1, goal);
      ReachAfter(s, Request(YES), goal);
    }
  }

  lemma ReachFromPromote(s: System, goal: Pc)
    requires Inv(s) && s.pc == Promote && Follows(s.rising) && goal == Finished && s.config.stateAttempts > 0
    ensures CanReach(s, goal)
  {
    R.PromotionSucceedsIff(s.rising.role, PromotionOf(s.rising, YES));
    StepKeepsInv(s, Request(YES));
    ReachFromPromoted(Apply(s, Request(YES)), 3, goal);
    ReachAfter(s, Request(YES), goal);
  }

  lemma {:induction false} ReachFromDemoted(s: System, left: nat, goal: Pc)
    requires Inv(s) && IsEnd(goal) && s.config.stateAttempts > 0
    requires if left == 0 then s.pc.AskPromote? else if left == 1 then s.pc == CheckNoLeader(1)
             else if left == 2 then s.pc == CheckNoLeader(2) else left == 3 && s.pc.CheckDemoted?
    ensures CanReach(s, goal)
    decreases left
  {
    var step := Request(if left == 0 && goal == ReturnedLate then NO else YES);
    StepKeepsInv(s, step);
    if left > 0 {
      ReachFromDemoted(Apply(s, step), left - 1, goal);
    } else if goal == Finished {
      ReachFromPromote(Apply(s, step), goal);
    } else {
      var t := Apply(s, step);
      assert ValidRun(t, []) && Run(t, []).pc == goal;
    }
    ReachAfter(s, step, goal);
  }

  lemma ReachFromDemote(s: System, goal: Pc)
    requires Inv(s) && IsEnd(goal) && s.config.stateAttempts > 0
    requires s.pc == Demote && Leads(s.retiring) && s.retiring.pending == [] && s.retiring.role.flags.paused
    ensures CanReach(s, goal)
  {
    R.DemotionSucceedsIff(s.retiring.role, DemotionOf(s.retiring, YES));
    StepKeepsInv(s, Request(YES));
    ReachFromDemoted(Apply(s, Request(YES)), 3, goal);
    ReachAfter(s, Request(YES), goal);
  }

  lemma ReachFromAskDemote(s: System, goal: Pc)
    requires Inv(s) && IsEnd(goal) && s.config.stateAttempts > 0
    requires s.pc == AskDemote && s.retiring.pending == [] && s.retiring.role.flags.paused
    ensures CanReach(s, goal)
  {
    StepKeepsInv(s, Request(YES));
    ReachFromDemote(Apply(s, Request(YES)), goal);
    ReachAfter(s, Request(YES), goal);
  }

  /** In step and quiet: the samples the script still needs all agree. */
  predicate Settled(s: System) {
    s.retiring.pending == [] && s.retiring.role.flags.paused && s.retiring.chain == s.rising.chain
  }

  lemma {:induction false} ReachFromSync(s: System, missing: nat, goal: Pc)
    requires Inv(s) && IsEnd(goal) && s.config.stateAttempts > 0
    requires Settled(s) && s.pc.SyncLeader?
    requires s.pc.sync.previous == Some(|s.retiring.chain|) && s.pc.sync.count + missing == s.config.required
    requires missing > 0 && s.pc.attempt + missing <= s.config.attempts
    ensures CanReach(s, goal)
    decreases missing
  {
    StepKeepsInv(s, Request(YES));
    var t := Apply(s, Request(YES));
    StepKeepsInv(t, Request(YES));
    var u := Apply(t, Request(YES));
    if missing == 1 {
      ReachFromAskDemote(u, goal);
    } else {
      ReachFromSync(u, missing - 1, goal);
    }
    ReachAfter(t, Request(YES), goal);
    ReachAfter(s, Request(YES), goal);
  }

  lemma ReachFromFirstSync(s: System, goal: Pc)
    requires Inv(s) && IsEnd(goal) && s.config.stateAttempts > 0
    requires Settled(s) && s.pc == SyncLeader(0, Sync(None, 0)) && CanPass(s.config)
    ensures CanReach(s, goal)
  {
    StepKeepsInv(s, Request(YES));
    var t := Apply(s, Request(YES));
    StepKeepsInv(t, Request(YES));
    ReachFromSync(Apply(t, Request(YES)), s.config.required, goal);
    ReachAfter(t, Request(YES), goal);
    ReachAfter(s, Request(YES), goal);
  }

  lemma {:induction false} ReachFromImport(s: System, goal: Pc)
    requires Inv(s) && IsEnd(goal) && s.config.stateAttempts > 0
    requires s.retiring.pending == [] && s.retiring.role.flags.paused && Importing(s.rising)
    requires s.pc == SyncLeader(0, Sync(None, 0)) && CanPass(s.config)
    ensures CanReach(s, goal)
    decreases |s.retiring.chain| - |s.rising.chain|
  {
    if |s.rising.chain| < |s.retiring.chain| {
      StepKeepsInv(s, Import(Rising));
      ReachFromImport(Apply(s, Import(Rising)), goal);
      ReachAfter(s, Import(Rising), goal);
    } else {
      assert s.rising.chain == s.retiring.chain;
      ReachFromFirstSync(s, goal);
    }
  }

  lemma ReachFromAskMiner(s: System, goal: Pc)
    requires Inv(s) && IsEnd(goal) && s.config.stateAttempts > 0
    requires s.pc == AskMiner && s.retiring.pending == [] && Importing(s.rising)
    requires CanPass(s.config)
    ensures CanReach(s, goal)
  {
    StepKeepsInv(s, Request(YES));
    var t := Apply(s, Request(YES));
    StepKeepsInv(t, Request(YES));
    ReachFromImport(Apply(t, Request(YES)), goal);
    ReachAfter(t, Request(YES), goal);
    ReachAfter(s, Request(YES), goal);
  }

  lemma {:induction false} ReachFromPoll(s: System, missing: nat, goal: Pc)
    requires Inv(s) && IsEnd(goal) && s.config.stateAttempts > 0
    requires s.pc.PollPending? && s.retiring.pending == [] && Importing(s.rising)
    requires s.pc.count + missing == s.config.required && missing > 0
    requires s.pc.attempt + missing <= s.config.attempts && CanPass(s.config)
    ensures CanReach(s, goal)
    decreases missing
  {
    StepKeepsInv(s, Request(YES));
    if missing == 1 {
      ReachFromAskMiner(Apply(s, Request(YES)), goal);
    } else {
      ReachFromPoll(Apply(s, Request(YES)), missing - 1, goal);
    }
    ReachAfter(s, Request(YES), goal);
  }

  lemma {:induction false} ReachFromStart(s: System, left: nat, goal: Pc)
    requires Inv(s) && IsEnd(goal) && s.config.stateAttempts > 0
    requires s.retiring.pending == [] && Importing(s.rising) && CanPass(s.config)
    requires Leads(s.retiring)
    requires if left == 0 then s.pc == PollPending(0, 0) else if left == 1 then s.pc == DisableFollowerTransactions
             else if left == 2 then s.pc == DisableLeaderTransactions else if left == 3 then s.pc == AskTransactions
             else if left == 4 then s.pc.CheckFollower? else left == 5 && s.pc.CheckLeader?
    ensures CanReach(s, goal)
    decreases left
  {
    if left == 0 {
      ReachFromPoll(s, s.config.required, goal);
    } else {
      StepKeepsInv(s, Request(YES));
      ReachFromStart(Apply(s, Request(YES)), left - 1, goal);
      ReachAfter(s, Request(YES), goal);
    }
  }

  /** The importer was started and has not ended. */
  predicate HasImporter(p: Peer) {
    p.role.importer && p.role.importerRuntime && !p.role.importerShutdown
  }

  /**
   Both ends are reachable, from every initial state with a mining leader and an importing follower,
   however many blocks that one is behind.
   */
  lemma EndsAreReachable(s: System, goal: Pc)
    requires Init(s) && Leads(s.retiring) && Ticking(s.retiring) && HasImporter(s.rising)
    requires CanPass(s.config) && IsEnd(goal)
    ensures CanReach(s, goal)
  {
    StepKeepsInv(s, Tick(Retiring));
    ReachFromStart(Apply(s, Tick(Retiring)), 5, goal);
    ReachAfter(s, Tick(Retiring), goal);
  }

  /** No check of the script stands in its own way: some run hands over. */
  lemma HandoverCanFinish(s: System)
    requires Init(s) && Leads(s.retiring) && Ticking(s.retiring) && HasImporter(s.rising)
    requires CanPass(s.config)
    ensures CanReach(s, Finished)
  {
    EndsAreReachable(s, Finished);
  }

  /** And whoever refuses the last question is left without a leader. */
  lemma LastRefusalLeavesNoLeader(s: System) returns (steps: seq<Step>)
    requires Init(s) && Leads(s.retiring) && Ticking(s.retiring) && HasImporter(s.rising)
    requires CanPass(s.config)
    ensures ValidRun(s, steps) && Run(s, steps).pc == ReturnedLate
    ensures var end := Run(s, steps); Follows(end.retiring) && Follows(end.rising) && TransactionsOff(end)
  {
    EndsAreReachable(s, ReturnedLate);
    steps :| ValidRun(s, steps) && Run(s, steps).pc == ReturnedLate;
    LateReturnLeavesNoLeader(s, steps);
  }

  // ----- the nodes beside the script -----

  /** With automine a submitted transaction is in a block at once, and otherwise pending after the others. */
  lemma SubmittedIsMinedIff(s: System, who: Who, tx: Tx)
    requires Inv(s) && Enabled(s, Submit(who, tx))
    ensures var p, after := At(s, who), At(Apply(s, Submit(who, tx)), who);
      if p.role.minerMode == R.Automine then after.chain == p.chain + [p.pending + [tx]] && after.pending == []
      else after.chain == p.chain && after.pending == p.pending + [tx]
    ensures Apply(s, Submit(who, tx)).accepted == s.accepted + [tx]
    ensures var next := Apply(s, Submit(who, tx)); next == With(s, who, At(next, who)).(accepted := s.accepted + [tx])
  {
  }

  /** An importer that has ended imports nothing more. */
  lemma EndedImportsNothing(s: System, who: Who)
    requires Inv(s) && Enabled(s, EndImport(who))
    ensures !Enabled(Apply(s, EndImport(who)), Import(who))
    ensures At(Apply(s, EndImport(who)), who).chain == At(s, who).chain
  {
  }

  function Flip(who: Who): Who {
    if who == Retiring then Rising else Retiring
  }

  /** A node with a running importer can catch up with the other one. */
  lemma {:induction false} FollowerCanCatchUp(s: System, who: Who) returns (steps: seq<Step>)
    requires Inv(s) && HasImporter(At(s, who)) && At(s, who).chain <= At(s, Flip(who)).chain
    ensures ValidRun(s, steps)
    ensures Run(s, steps) == With(s, who, At(s, who).(chain := At(s, Flip(who)).chain))
    decreases |At(s, Flip(who)).chain| - |At(s, who).chain|
  {
    var mine, theirs := At(s, who).chain, At(s, Flip(who)).chain;
    if |mine| == |theirs| {
      steps := [];
    } else {
      StepKeepsInv(s, Import(who));
      var next := Apply(s, Import(who));
      assert At(next, who).chain == theirs[..|mine| + 1];
      var rest := FollowerCanCatchUp(next, who);
      steps := [Import(who)] + rest;
      assert steps[1..] == rest;
    }
  }

  /** So does the old leader after the handover. */
  lemma OldLeaderCanCatchUp(start: System, steps: seq<Step>) returns (more: seq<Step>)
    requires Init(start) && ValidRun(start, steps) && Run(start, steps).pc == Finished
    requires HasImporter(Run(start, steps).retiring)
    ensures var s := Run(start, steps);
      ValidRun(s, more) && Run(s, more).retiring.chain == s.rising.chain && Run(s, more).rising == s.rising
  {
    RunKeepsInv(start, steps);
    more := FollowerCanCatchUp(Run(start, steps), Retiring);
  }

  // ----- how long the script asks -----

  /** `n` more requests, whatever they meet, bring the script to `goal`. */
  ghost predicate GetsTo(s: System, n: nat, goal: Pc)
    decreases n
  {
    if n == 0 then s.pc == goal else Running(s.pc) && forall a :: GetsTo(Apply(s, Request(a)), n - 1, goal)
  }

  predicate AtCheck(s: System) {
    s.pc.CheckLeader? || s.pc.CheckFollower? || s.pc.CheckDemoted? || s.pc.CheckPromoted?
  }

  /** The state the check expects. */
  predicate AsExpected(s: System) {
    match s.pc
    case CheckLeader(_) => Leads(s.retiring)
    case CheckFollower(_) => !Leads(s.rising)
    case CheckDemoted(_) => !Leads(s.retiring)
    case CheckPromoted(_) => Leads(s.rising)
    case _ => false
  }

  /** While a node is not in the state expected, it is asked as often as configured, and no more. */
  lemma {:induction false} ChecksAreCounted(s: System)
    requires AtCheck(s) && !AsExpected(s) && s.pc.attempt < s.config.stateAttempts
    ensures GetsTo(s, s.config.stateAttempts - s.pc.attempt, Aborted)
    decreases s.config.stateAttempts - s.pc.attempt
  {
    forall a ensures GetsTo(Apply(s, Request(a)), s.config.stateAttempts - s.pc.attempt - 1, Aborted) {
      var next := Apply(s, Request(a));
      assert next.retiring == s.retiring && next.rising == s.rising && next.config == s.config;
      if s.pc.attempt + 1 == s.config.stateAttempts {
      } else {
        ChecksAreCounted(next);
      }
    }
  }

  /** Clients, miners and importers. */
  predicate IsBackground(step: Step) {
    step.Submit? || step.Tick? || step.Import? || step.EndImport?
  }

  lemma {:induction false} BackgroundKeepsScript(s: System, steps: seq<Step>)
    requires ValidRun(s, steps) && forall i | 0 <= i < |steps| :: IsBackground(steps[i])
    ensures Run(s, steps).pc == s.pc && Run(s, steps).config == s.config
    decreases |steps|
  {
    if steps == [] {
    } else {
      assert IsBackground(steps[0]);
      BackgroundKeepsScript(Apply(s, steps[0]), steps[1..]);
    }
  }

  /** A sample of the wait for the follower: the leader's block first, the follower's when its reply comes. */
  lemma SyncSample(s: System, a: Answer, between: seq<Step>, b: Answer)
    requires s.pc.SyncLeader?
    requires ValidRun(Apply(s, Request(a)), between) && forall i | 0 <= i < |between| :: IsBackground(between[i])
    ensures var t := Run(Apply(s, Request(a)), between);
      && Enabled(t, Request(b))
      && Apply(t, Request(b)).pc ==
         AfterSync(s.config, s.pc.attempt, s.pc.sync, Some(|s.retiring.chain|), Some(|t.rising.chain|))
  {
    BackgroundKeepsScript(Apply(s, Request(a)), between);
  }

  /** A sample of the wait for pending transactions is what the retiring node has pending. */
  lemma PendingSample(s: System, a: Answer)
    requires s.pc.PollPending?
    ensures Apply(s, Request(a)).pc ==
            AfterPending(s.config, s.pc.attempt, s.pc.count, Some(|s.retiring.pending|))
  {
  }

  // ----- replies, ends and clients -----

  /** A toggle, question or sample whose reply was lost is repeated without harm. */
  lemma LostRepliesAreHarmless(s: System, a: Answer, b: Answer)
    requires Running(s.pc) && s.pc != Demote && s.pc != Promote
    ensures Enabled(s, LoseReply(a)) && Enabled(Apply(s, LoseReply(a)), Request(b))
    ensures Apply(Apply(s, LoseReply(a)), Request(b)) == Apply(s, Request(b))
  {
  }

  /** A role change whose reply was lost is refused when it is repeated, and the script ends there. */
  lemma LostRoleChangeAborts(s: System, a: Answer, b: Answer)
    requires Inv(s)
    requires (s.pc == Demote && DemotionSucceeds(s, a)) || (s.pc == Promote && PromotionSucceeds(s, a))
    ensures Enabled(s, LoseReply(a)) && Enabled(Apply(s, LoseReply(a)), Request(b))
    ensures var end := Apply(Apply(s, LoseReply(a)), Request(b));
      && end.pc == Aborted
      && (s.pc == Demote && Leads(s.retiring) ==> Follows(end.retiring))
      && (s.pc == Promote && Follows(s.rising) ==> Leads(end.rising))
  {
    if s.pc == Demote {
      if Leads(s.retiring) { R.DemotionSucceedsIff(s.retiring.role, DemotionOf(s.retiring, a)); }
    } else {
      R.PromotionSucceedsIff(s.rising.role, PromotionOf(s.rising, a));
    }
  }

  /** The script may break off anywhere, and then touches nothing. */
  lemma AbortTouchesNothing(s: System)
    requires Running(s.pc)
    ensures Enabled(s, Abort) && Apply(s, Abort) == s.(pc := Aborted)
  {
  }

  predicate SameRoles(a: System, b: System) {
    && a.retiring.role.mode == b.retiring.role.mode && a.retiring.role.flags == b.retiring.role.flags
    && a.rising.role.mode == b.rising.role.mode && a.rising.role.flags == b.rising.role.flags
  }

  /** An end is final: whatever the nodes go on doing, roles and flags stay as the script left them. */
  lemma {:induction false} EndsAreFinal(s: System, steps: seq<Step>)
    requires ValidRun(s, steps)
    requires s.pc == Finished || s.pc == ReturnedEarly || s.pc == ReturnedLate || s.pc == Aborted
    ensures Run(s, steps).pc == s.pc && SameRoles(s, Run(s, steps))
    decreases |steps|
  {
    if steps == [] {
    } else {
      EndsAreFinal(Apply(s, steps[0]), steps[1..]);
    }
  }

  /** With transactions off at both nodes nothing is accepted. */
  lemma NothingIsAcceptedWhileOff(s: System, step: Step)
    requires Enabled(s, step) && TransactionsOff(s)
    ensures Apply(s, step).accepted == s.accepted
  {
  }

  /** After an early return the leader accepts again if it did before. */
  lemma ClientsAreServedAgain(start: System, steps: seq<Step>, tx: Tx)
    requires Init(start) && ValidRun(start, steps)
    requires Run(start, steps).pc == ReturnedEarly && Run(start, steps).start.retiring.transactions
    ensures Enabled(Run(start, steps), Submit(Retiring, tx))
  {
    EarlyReturnRestores(start, steps);
  }

  /** After a handover the new leader accepts and mines, and the old one does not accept. */
  lemma ClientsAreServedByTheNewLeader(start: System, steps: seq<Step>, tx: Tx)
    requires Init(start) && ValidRun(start, steps) && Run(start, steps).pc == Finished
    ensures var s := Run(start, steps);
      Enabled(s, Submit(Rising, tx)) && Enabled(s, Tick(Rising)) && !Enabled(s, Submit(Retiring, tx))
  {
    FinishedHandsOver(start, steps);
  }

  /** An importer may end whenever it runs, whether or not there is something left to import. */
  lemma ImportersMayEnd(s: System, who: Who)
    ensures HasImporter(At(s, who)) ==> Enabled(s, EndImport(who))
    ensures Enabled(s, EndImport(who)) ==> At(s, who).role.importer && !At(s, who).role.importerShutdown
  {
  }
}

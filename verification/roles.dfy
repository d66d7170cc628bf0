/**
 Role changes of one node: the admin calls that turn a node into leader or follower, the importer
 and miner calls they make on the way, and the toggles that may run beside them.
 Source: src/eth/rpc/server.rs, src/eth/follower/importer/config.rs, src/eth/miner/miner.rs,
 src/globals.rs.

 A semaphore with one permit lets at most one role change run; a second one is refused. What can
 run beside it are the toggles, so the two flags they set may take any value whenever the call
 waits: the parameters of type `Flags` are the values they have by then.
 */
module Roles {
  import opened Common

  datatype Mode = Leader | Follower | FakeLeader

  datatype MinerMode = Automine | Interval(seconds: nat) | External

  datatype RoleError =
    | Unauthorized
    | ModeChangeInProgress
    | TransactionsEnabled
    | PendingTransactionsExist
    | NotFollower
    | AlreadyShutdown
    | AlreadyRunning
    | ImporterInitError
    | InvalidParameters
    | MinerNotPaused
    | ConsensusSet
    | UnsupportedMinerMode

  const LEADER_MINER_INTERVAL: nat := 1

  datatype Flags = Flags(transactions: bool, paused: bool)

  datatype NodeState = NodeState(
    mode: Mode,
    flags: Flags,
    minerMode: MinerMode,
    intervalRunning: bool,
    importer: bool,
    importerRuntime: bool,
    importerShutdown: bool,
    cacheClears: nat)

  type Outcome = Result<bool, RoleError>

  /** What surrounds a call: whether it is allowed, what it gets from outside, and the flags it meets. */
  datatype Promotion = Promotion(
    authorized: bool, busy: bool, onEntry: Flags, importerStops: bool, onMinerChange: Flags, onExit: Flags)

  datatype Demotion = Demotion(
    authorized: bool, busy: bool, onEntry: Flags, pending: nat, onMinerChange: Flags, pendingLater: nat,
    validParameters: bool, importerStarts: bool, onExit: Flags)

  // ----- specification -----

  function MinerChanged(s: NodeState, to: MinerMode, pending: nat): (NodeState, Outcome) {
    if s.flags.transactions then (s, Err(TransactionsEnabled))
    else if s.minerMode == to then (s, Ok(false))
    else if !s.flags.paused && s.minerMode.Interval? then (s, Err(MinerNotPaused))
    else
      match to
      case External =>
        if pending > 0 then (s, Err(PendingTransactionsExist))
        else (s.(minerMode := External, intervalRunning := false, flags := s.flags.(paused := false)), Ok(true))
      case Interval(_) =>
        if s.importer then (s, Err(ConsensusSet))
        else if s.intervalRunning then (s, Ok(true))
        else (s.(minerMode := to, intervalRunning := true, flags := s.flags.(paused := false)), Ok(true))
      case Automine => (s, Err(UnsupportedMinerMode))
  }

  function ImporterStopped(s: NodeState, stops: bool): (NodeState, Outcome) {
    if s.mode != Follower then (s, Err(NotFollower))
    else if s.importerShutdown && !s.importer then (s, Err(AlreadyShutdown))
    else
      (s.(importer := false, importerRuntime := false, importerShutdown := true),
       if s.importerRuntime && !stops then Err(ImporterInitError) else Ok(true))
  }

  function ImporterStarted(s: NodeState, validParameters: bool, starts: bool): (NodeState, Outcome) {
    if !validParameters then (s, Err(InvalidParameters))
    else if s.mode != Follower then (s, Err(NotFollower))
    else if !s.importerShutdown then (s, Err(AlreadyRunning))
    else if starts then (s.(importer := true, importerRuntime := true, importerShutdown := false), Ok(true))
    else (s, Err(ImporterInitError))
  }

  function Promoted(s: NodeState, call: Promotion): (NodeState, Outcome) {
    if !call.authorized then (s, Err(Unauthorized))
    else if call.busy then (s, Err(ModeChangeInProgress))
    else if s.mode == Leader then (s.(flags := call.onEntry), Ok(false))
    else if call.onEntry.transactions then (s.(flags := call.onEntry), Err(TransactionsEnabled))
    else
      var (stopped, stop) := ImporterStopped(s.(flags := call.onEntry), call.importerStops);
      if stop.Err? && stop.error != AlreadyShutdown then (stopped, stop)
      else
        var (mined, change) := MinerChanged(stopped.(flags := call.onMinerChange), Interval(LEADER_MINER_INTERVAL), 0);
        if change.Err? then (mined, change)
        else (mined.(mode := Leader, cacheClears := s.cacheClears + 1, flags := call.onExit), Ok(true))
  }

  function Demoted(s: NodeState, call: Demotion): (NodeState, Outcome) {
    if !call.authorized then (s, Err(Unauthorized))
    else if call.busy then (s, Err(ModeChangeInProgress))
    else if s.mode == Follower then (s.(flags := call.onEntry), Ok(false))
    else if call.onEntry.transactions then (s.(flags := call.onEntry), Err(TransactionsEnabled))
    else if call.pending > 0 then (s.(flags := call.onEntry), Err(PendingTransactionsExist))
    else
      var (mined, change) := MinerChanged(s.(flags := call.onMinerChange), External, call.pendingLater);
      if change.Err? then (mined, change)
      else Following(mined.(mode := Follower, cacheClears := s.cacheClears + 1), call)
  }

  /** The last part of a demotion: start the importer, or go back to being a leader. */
  function Following(s: NodeState, call: Demotion): (NodeState, Outcome) {
    var (started, start) := ImporterStarted(s, call.validParameters, call.importerStarts);
    if start.Err? && start.error != AlreadyRunning then (started.(mode := Leader, flags := call.onExit), start)
    else (started.(flags := call.onExit), Ok(true))
  }

  // ----- the node -----

  class Node {
    var mode: Mode
    var flags: Flags
    var minerMode: MinerMode
    var intervalRunning: bool
    var importer: bool
    var importerRuntime: bool
    var importerShutdown: bool
    var cacheClears: nat

    ghost function View(): NodeState
      reads this
    {
      NodeState(mode, flags, minerMode, intervalRunning, importer, importerRuntime, importerShutdown, cacheClears)
    }

    /** A node starts with an importer unless it is a leader, and only a leader may mine. */
    constructor (mode: Mode, blockMode: MinerMode)
      ensures Initial(View())
      ensures View().mode == mode && (mode == Leader ==> View().minerMode == blockMode)
      ensures View().flags == Flags(true, false) && View().cacheClears == 0
    {
      this.mode := mode;
      this.flags := Flags(true, false);
      this.minerMode := if mode == Leader then blockMode else External;
      this.intervalRunning := mode == Leader && blockMode.Interval?;
      this.importer := mode != Leader;
      this.importerRuntime := mode != Leader;
      this.importerShutdown := mode == Leader;
      this.cacheClears := 0;
    }

    method SetTransactions(enabled: bool) returns (now: bool)
      modifies this`flags
      ensures View() == After(old(View()), Toggle(old(flags).(transactions := enabled))) && now == enabled
    {
      flags := flags.(transactions := enabled);
      now := flags.transactions;
    }

    method SetMinerPaused(paused: bool) returns (running: bool)
      modifies this`flags
      ensures View() == After(old(View()), Toggle(old(flags).(paused := paused))) && running == !paused
    {
      flags := flags.(paused := paused);
      running := !paused;
    }

    method StartIntervalMining(seconds: nat)
      modifies this`minerMode, this`flags, this`intervalRunning
      ensures old(intervalRunning) ==> View() == old(View())
      ensures !old(intervalRunning) ==>
                View() == old(View()).(minerMode := Interval(seconds), intervalRunning := true,
                                       flags := old(flags).(paused := false))
    {
      if intervalRunning {
        return;
      }
      minerMode := Interval(seconds);
      flags := flags.(paused := false);
      intervalRunning := true;
    }

    method SwitchToExternalMode()
      modifies this`minerMode, this`flags, this`intervalRunning
      ensures old(minerMode).External? ==> View() == old(View())
      ensures !old(minerMode).External? ==>
                View() == old(View()).(minerMode := External, intervalRunning := false,
                                       flags := old(flags).(paused := false))
    {
      if minerMode.External? {
        return;
      }
      intervalRunning := false;
      minerMode := External;
      flags := flags.(paused := false);
    }

    method ChangeMinerMode(to: MinerMode, pending: nat) returns (r: Outcome)
      modifies this`minerMode, this`flags, this`intervalRunning
      ensures (View(), r) == MinerChanged(old(View()), to, pending)
    {
      if flags.transactions {
        return Err(TransactionsEnabled);
      }
      var previous := minerMode;
      if previous == to {
        return Ok(false);
      }
      if !flags.paused && previous.Interval? {
        return Err(MinerNotPaused);
      }
      match to {
        case External =>
          if pending > 0 {
            return Err(PendingTransactionsExist);
          }
          SwitchToExternalMode();
        case Interval(seconds) =>
          if importer {
            return Err(ConsensusSet);
          }
          StartIntervalMining(seconds);
        case Automine =>
          return Err(UnsupportedMinerMode);
      }
      return Ok(true);
    }

    /** An importer that is past its stop block sets the shutdown flag itself and stays installed. */
    method ReachStopBlock()
      requires importerRuntime
      modifies this`importerShutdown
      ensures View() == After(old(View()), ImporterEnds)
    {
      importerShutdown := true;
    }

    method ShutdownImporter(stops: bool) returns (r: Outcome)
      modifies this`importer, this`importerRuntime, this`importerShutdown
      ensures (View(), r) == ImporterStopped(old(View()), stops)
    {
      if mode != Follower {
        return Err(NotFollower);
      }
      if importerShutdown && !importer {
        return Err(AlreadyShutdown);
      }
      importer := false;
      var runtime := importerRuntime;
      importerRuntime := false;
      importerShutdown := true;
      if runtime && !stops {
        return Err(ImporterInitError);
      }
      return Ok(true);
    }

    method InitImporter(validParameters: bool, starts: bool) returns (r: Outcome)
      modifies this`importer, this`importerRuntime, this`importerShutdown
      ensures (View(), r) == ImporterStarted(old(View()), validParameters, starts)
    {
      if !validParameters {
        return Err(InvalidParameters);
      }
      if mode != Follower {
        return Err(NotFollower);
      }
      if !importerShutdown {
        return Err(AlreadyRunning);
      }
      importerShutdown := false;
      if !starts {
        importerShutdown := true;
        return Err(ImporterInitError);
      }
      importer := true;
      importerRuntime := true;
      return Ok(true);
    }

    method ChangeToLeader(call: Promotion) returns (r: Outcome)
      modifies this
      ensures (View(), r) == Promoted(old(View()), call)
    {
      if !call.authorized {
        return Err(Unauthorized);
      }
      if call.busy {
        return Err(ModeChangeInProgress);
      }
      flags := call.onEntry;
      if mode == Leader {
        return Ok(false);
      }
      if flags.transactions {
        return Err(TransactionsEnabled);
      }
      r := ShutdownImporter(call.importerStops);
      if r.Err? && r.error != AlreadyShutdown {
        return;
      }
      flags := call.onMinerChange;
      r := ChangeMinerMode(Interval(LEADER_MINER_INTERVAL), 0);
      if r.Err? {
        return;
      }
      mode := Leader;
      cacheClears := cacheClears + 1;
      flags := call.onExit;
      return Ok(true);
    }

    method ChangeToFollower(call: Demotion) returns (r: Outcome)
      modifies this
      ensures (View(), r) == Demoted(old(View()), call)
    {
      if !call.authorized {
        return Err(Unauthorized);
      }
      if call.busy {
        return Err(ModeChangeInProgress);
      }
      flags := call.onEntry;
      if mode == Follower {
        return Ok(false);
      }
      if flags.transactions {
        return Err(TransactionsEnabled);
      }
      if call.pending > 0 {
        return Err(PendingTransactionsExist);
      }
      flags := call.onMinerChange;
      r := ChangeMinerMode(External, call.pendingLater);
      if r.Err? {
        return;
      }
      mode := Follower;
      cacheClears := cacheClears + 1;
      assert Demoted(old(View()), call) == Following(View(), call);
      r := InitImporter(call.validParameters, call.importerStarts);
      flags := call.onExit;
      if r.Err? && r.error != AlreadyRunning {
        mode := Leader;
        return;
      }
      return Ok(true);
    }
  }

  // ----- runs -----

  datatype Call =
    | ChangeToLeader(promotion: Promotion)
    | ChangeToFollower(demotion: Demotion)
    | Toggle(flags: Flags)
    | ImporterEnds

  function After(s: NodeState, call: Call): NodeState {
    match call
    case ChangeToLeader(p) => Promoted(s, p).0
    case ChangeToFollower(d) => Demoted(s, d).0
    case Toggle(flags) => s.(flags := flags)
    case ImporterEnds => if s.importerRuntime then s.(importerShutdown := true) else s
  }

  /** The states a run goes through, the first one included. */
  function States(s: NodeState, calls: seq<Call>): (states: seq<NodeState>)
    ensures |states| == |calls| + 1 && states[0] == s
    decreases |calls|
  {
    if calls == [] then [s] else [s] + States(After(s, calls[0]), calls[1..])
  }

  predicate Initial(s: NodeState) {
    && (s.mode == Leader ==> !s.importer && !s.importerRuntime && s.importerShutdown)
    && (s.mode != Leader ==> s.importer && s.importerRuntime && !s.importerShutdown && s.minerMode == External)
    && s.intervalRunning == s.minerMode.Interval?
  }

  /** The role, the importer and the miner agree. */
  predicate RolesAgree(s: NodeState) {
    && (s.mode == Leader ==> !s.importer && !s.importerRuntime && s.importerShutdown)
    && (s.mode != Leader ==> s.minerMode == External)
    && (s.importer ==> s.minerMode == External)
  }

  predicate Inv(s: NodeState) {
    && RolesAgree(s)
    && s.intervalRunning == s.minerMode.Interval?
    && s.importer == s.importerRuntime
    && (s.importer || s.importerShutdown)
    && (s.mode == FakeLeader ==> s.importer)
  }

  lemma InitialIsInv(s: NodeState)
    requires Initial(s)
    ensures Inv(s)
  {
  }

  /**
   The call that breaks the agreement: a fake leader, whose importer is installed, is told to become
   a follower and gets as far as the importer, where the parameters cannot be read, or the old
   importer has ended and the new one fails to start; it is put back as a leader.
   */
  predicate BreaksRoles(s: NodeState, call: Call) {
    && call.ChangeToFollower?
    && s.mode == FakeLeader
    && var d := call.demotion;
       d.authorized && !d.busy && !d.onEntry.transactions && d.pending == 0 && !d.onMinerChange.transactions
       && (!d.validParameters || (s.importerShutdown && !d.importerStarts))
  }

  lemma PromotionKeepsInv(s: NodeState, p: Promotion)
    requires Inv(s)
    ensures Inv(Promoted(s, p).0)
  {
  }

  lemma DemotionKeepsInvIff(s: NodeState, d: Demotion)
    requires Inv(s)
    ensures Inv(Demoted(s, d).0) <==> !BreaksRoles(s, ChangeToFollower(d))
    ensures RolesAgree(Demoted(s, d).0) <==> !BreaksRoles(s, ChangeToFollower(d))
  {
  }

  /** In every run, role, importer and miner agree in all states exactly when no call breaks them. */
  lemma {:induction false} RolesAgreeIff(s: NodeState, calls: seq<Call>)
    requires Inv(s)
    ensures var states := States(s, calls);
            (forall i | 0 <= i < |states| :: RolesAgree(states[i]))
            <==> (forall i | 0 <= i < |calls| :: !BreaksRoles(states[i], calls[i]))
    decreases |calls|
  {
    if calls == [] {
    } else {
      var next, rest := After(s, calls[0]), calls[1..];
      var states, later := States(s, calls), States(next, rest);
      assert states[1] == later[0];
      if calls[0].ChangeToLeader? { PromotionKeepsInv(s, calls[0].promotion); }
      if calls[0].ChangeToFollower? { DemotionKeepsInvIff(s, calls[0].demotion); }
      if BreaksRoles(s, calls[0]) {
        assert !RolesAgree(states[1]);
      } else {
        RolesAgreeIff(next, rest);
        assert forall i | 0 <= i < |later| :: later[i] == states[i + 1];
        assert forall i | 0 <= i < |rest| :: rest[i] == calls[i + 1];
        assert forall i | 0 < i < |states| :: states[i] == later[i - 1];
        assert forall i | 0 < i < |calls| :: calls[i] == rest[i - 1];
      }
    }
  }

  /** Exactly when a follower becomes leader, and what it is then. */
  lemma PromotionSucceedsIff(s: NodeState, p: Promotion)
    requires Inv(s)
    ensures Promoted(s, p).1 == Ok(true)
       <==> && p.authorized && !p.busy
            && s.mode == Follower
            && !p.onEntry.transactions && !p.onMinerChange.transactions
            && (s.importer ==> p.importerStops)
    ensures Promoted(s, p).1 == Ok(true) ==>
              Promoted(s, p).0 == NodeState(Leader, p.onExit, Interval(LEADER_MINER_INTERVAL), true,
                                            false, false, true, s.cacheClears + 1)
    ensures Promoted(s, p).0.mode != s.mode ==> Promoted(s, p).1 == Ok(true)
  {
  }

  /** Of several reasons the first one is given, and then nothing has changed. */
  lemma MinerChangeFailsIff(s: NodeState, to: MinerMode, pending: nat)
    ensures var (next, r) := MinerChanged(s, to, pending);
      var passes := !s.flags.transactions && s.minerMode != to;
      var allowed := passes && (s.minerMode.Interval? ==> s.flags.paused);
      && (r == Err(TransactionsEnabled) <==> s.flags.transactions)
      && (r == Ok(false) <==> !s.flags.transactions && s.minerMode == to)
      && (r == Err(MinerNotPaused) <==> passes && s.minerMode.Interval? && !s.flags.paused)
      && (r == Err(PendingTransactionsExist) <==> allowed && to == External && pending > 0)
      && (r == Err(ConsensusSet) <==> allowed && to.Interval? && s.importer)
      && (r == Err(UnsupportedMinerMode) <==> allowed && to == Automine)
      && (r == Ok(true) <==> allowed && if to == External then pending == 0 else to.Interval? && !s.importer)
      && (r != Ok(true) ==> next == s)
  {
  }

  /** A change of the miner that is made leaves it unpaused in the new mode, and all else as it was. */
  lemma MinerChangeWorks(s: NodeState, to: MinerMode, pending: nat)
    requires Inv(s) && MinerChanged(s, to, pending).1 == Ok(true)
    ensures var next := MinerChanged(s, to, pending).0;
      if s.minerMode.Interval? && to.Interval? then next == s
      else next == s.(minerMode := to, intervalRunning := to.Interval?, flags := s.flags.(paused := false))
  {
  }

  /** Which error an importer call gives, and what it does otherwise. */
  lemma ImporterCallFailsIff(s: NodeState, stops: bool, validParameters: bool, starts: bool)
    ensures var (next, r) := ImporterStopped(s, stops);
      var allowed := s.mode == Follower && (s.importer || !s.importerShutdown);
      && (r == Err(NotFollower) <==> s.mode != Follower)
      && (r == Err(AlreadyShutdown) <==> s.mode == Follower && !allowed)
      && (r == Err(ImporterInitError) <==> allowed && s.importerRuntime && !stops)
      && (r == Ok(true) <==> allowed && (s.importerRuntime ==> stops))
      && next == if allowed then s.(importer := false, importerRuntime := false, importerShutdown := true) else s
    ensures var (next, r) := ImporterStarted(s, validParameters, starts);
      && (r == Err(InvalidParameters) <==> !validParameters)
      && (r == Err(NotFollower) <==> validParameters && s.mode != Follower)
      && (r == Err(AlreadyRunning) <==> validParameters && s.mode == Follower && !s.importerShutdown)
      && (r == Err(ImporterInitError) <==> validParameters && s.mode == Follower && s.importerShutdown && !starts)
      && (r.Err? ==> next == s)
      && (r.Ok? ==> next == s.(importer := true, importerRuntime := true, importerShutdown := false))
  {
  }

  /** Which error a promotion ends with. */
  lemma PromotionFailsIff(s: NodeState, p: Promotion)
    requires Inv(s)
    ensures var r := Promoted(s, p).1;
      var admitted := p.authorized && !p.busy;
      var begun := admitted && s.mode != Leader && !p.onEntry.transactions;
      && (r == Err(Unauthorized) <==> !p.authorized)
      && (r == Err(ModeChangeInProgress) <==> p.authorized && p.busy)
      && (r == Ok(false) <==> admitted && s.mode == Leader)
      && (r == Err(NotFollower) <==> begun && s.mode == FakeLeader)
      && (r == Err(ImporterInitError) <==> begun && s.mode == Follower && s.importer && !p.importerStops)
      && (r == Err(TransactionsEnabled) <==>
          || (admitted && s.mode != Leader && p.onEntry.transactions)
          || (begun && s.mode == Follower && (s.importer ==> p.importerStops) && p.onMinerChange.transactions))
  {
  }

  /** Which error the demotion of a leader ends with. */
  lemma DemotionFailsIff(s: NodeState, d: Demotion)
    requires Inv(s) && s.mode == Leader
    ensures var r := Demoted(s, d).1;
      var admitted := d.authorized && !d.busy;
      var begun := admitted && !d.onEntry.transactions && d.pending == 0 && !d.onMinerChange.transactions;
      var paused := s.minerMode.Interval? ==> d.onMinerChange.paused;
      var drained := s.minerMode != External ==> d.pendingLater == 0;
      && (r == Err(Unauthorized) <==> !d.authorized)
      && (r == Err(ModeChangeInProgress) <==> d.authorized && d.busy)
      && (r == Err(TransactionsEnabled) <==>
          || (admitted && d.onEntry.transactions)
          || (admitted && !d.onEntry.transactions && d.pending == 0 && d.onMinerChange.transactions))
      && (r == Err(PendingTransactionsExist) <==>
          (admitted && !d.onEntry.transactions && d.pending > 0) || (begun && paused && !drained))
      && (r == Err(MinerNotPaused) <==> begun && !paused)
      && (r == Err(InvalidParameters) <==> begun && paused && drained && !d.validParameters)
      && (r == Err(ImporterInitError) <==> begun && paused && drained && d.validParameters && !d.importerStarts)
  {
  }

  /** Exactly when a leader becomes follower, and what it is then. */
  lemma DemotionSucceedsIff(s: NodeState, d: Demotion)
    requires Inv(s) && s.mode == Leader
    ensures Demoted(s, d).1 == Ok(true)
       <==> && d.authorized && !d.busy
            && !d.onEntry.transactions && !d.onMinerChange.transactions
            && d.pending == 0
            && (s.minerMode != External ==> d.pendingLater == 0 && (s.minerMode.Interval? ==> d.onMinerChange.paused))
            && d.validParameters && d.importerStarts
    ensures Demoted(s, d).1 == Ok(true) ==>
              Demoted(s, d).0 == NodeState(Follower, d.onExit, External, false, true, true, false, s.cacheClears + 1)
    ensures Demoted(s, d).1 != Ok(true) ==> Demoted(s, d).0.mode == Leader
  {
  }

  /** The demotion of a leader passes every check and fails to start the importer. */
  predicate FailsAtImporter(s: NodeState, d: Demotion) {
    && d.authorized && !d.busy
    && !d.onEntry.transactions && d.pending == 0
    && !d.onMinerChange.transactions
    && (s.minerMode.Interval? ==> d.onMinerChange.paused)
    && (s.minerMode != External ==> d.pendingLater == 0)
    && !(d.validParameters && d.importerStarts)
  }

  /**
   A leader that mines is left without a miner, and a leader still, exactly when its demotion fails
   at the importer.
   */
  lemma LeaderStopsMiningIff(s: NodeState, d: Demotion)
    requires Inv(s) && s.mode == Leader && s.minerMode.Interval?
    ensures Demoted(s, d).0.mode == Leader && !Demoted(s, d).0.intervalRunning <==> FailsAtImporter(s, d)
  {
  }

  /** A promotion does not repair it: it reports that nothing had to be changed. */
  lemma FailedImporterLeavesIdleLeader(s: NodeState, d: Demotion, p: Promotion)
    requires Inv(s) && s.mode == Leader && FailsAtImporter(s, d)
    requires p.authorized && !p.busy
    ensures var idle := Demoted(s, d).0;
            && idle.mode == Leader && idle.minerMode == External && !idle.intervalRunning
            && Promoted(idle, p) == (idle.(flags := p.onEntry), Ok(false))
  {
  }

  /** A node that is not started as a fake leader never becomes one, so its roles always agree. */
  lemma {:induction false} RolesAgreeWithoutFakeLeader(s: NodeState, calls: seq<Call>)
    requires Inv(s) && s.mode != FakeLeader
    ensures forall i | 0 <= i <= |calls| :: RolesAgree(States(s, calls)[i])
    decreases |calls|
  {
    if calls == [] {
    } else {
      if calls[0].ChangeToLeader? { PromotionKeepsInv(s, calls[0].promotion); }
      if calls[0].ChangeToFollower? { DemotionKeepsInvIff(s, calls[0].demotion); }
      RolesAgreeWithoutFakeLeader(After(s, calls[0]), calls[1..]);
    }
  }

  /** Both ways to fail are reachable: right after the start, and after the importer has ended. */
  lemma FakeLeaderCanBreakRoles(ended: bool)
    ensures exists s: NodeState, calls: seq<Call>, call: Call ::
              && Initial(s) && calls == (if ended then [ImporterEnds] else [])
              && call.ChangeToFollower? && call.demotion.validParameters == ended
              && var last := States(s, calls)[|calls|];
                 RolesAgree(last) && BreaksRoles(last, call) && !RolesAgree(After(last, call))
  {
    var off := Flags(false, false);
    var s := NodeState(FakeLeader, off, External, false, true, true, false, 0);
    var calls: seq<Call> := if ended then [ImporterEnds] else [];
    var call := ChangeToFollower(Demotion(true, false, off, 0, off, 0, ended, false, off));
    var last := States(s, calls)[|calls|];
    assert Initial(s) && last == s.(importerShutdown := ended);
    assert RolesAgree(last) && BreaksRoles(last, call) && !RolesAgree(After(last, call));
  }
}

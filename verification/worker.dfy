/**
 The transaction worker: the loop that executes a local transaction until its save is accepted, and
 the serial loop that runs tasks one after the other on one EVM.
 Source: src/eth/executor/transaction_worker.rs.
 */
module Worker {
  import opened Common

  datatype WorkerError = EvmInputMismatch | EvmFailed | SaveFailed

  /**
   What one attempt meets: the pending header it reads, the pending header when it saves (the miner
   may have finished blocks in between), and failures of the execution or of the save.
   */
  datatype Attempt = Attempt(read: BlockInfo, atSave: BlockInfo, evmFails: bool, saveFails: bool)

  /** A saved execution: the transaction and the header it was executed with. */
  datatype Execution = Execution(tx: nat, header: BlockInfo)

  predicate Accepted(a: Attempt) {
    !a.evmFails && a.read == a.atSave && !a.saveFails
  }

  predicate Mismatch(a: Attempt) {
    !a.evmFails && a.read != a.atSave
  }

  /** The save of a pending execution: its input has to match the pending header of that moment. */
  method SaveExecution(execution: Execution, a: Attempt) returns (r: Result<(), WorkerError>)
    ensures r.Ok? <==> execution.header == a.atSave && !a.saveFails
    ensures r.Err? ==> r.error == if execution.header != a.atSave then EvmInputMismatch else SaveFailed
  {
    if execution.header != a.atSave {
      return Err(EvmInputMismatch);
    }
    if a.saveFails {
      return Err(SaveFailed);
    }
    return Ok(());
  }

  /**
   Executes until a save is accepted, another error comes up, or the attempts are used up.
   Whatever the miner does in between: only the last attempt may be saved, an accepted execution
   has the header of the block it is saved to, a mismatch is reported exactly when every allowed
   attempt had one, and any other error ends the loop at once. One attempt is always made.
   */
  method ExecuteLocalTransactionAttempts(tx: nat, meets: nat -> Attempt, maxAttempts: nat)
    returns (r: Result<Execution, WorkerError>, attempts: nat)
    ensures 1 <= attempts <= if maxAttempts == 0 then 1 else maxAttempts
    ensures forall i | 0 <= i < attempts - 1 :: Mismatch(meets(i))
    ensures r.Ok? <==> Accepted(meets(attempts - 1))
    ensures r.Ok? ==> r.value == Execution(tx, meets(attempts - 1).atSave)
    ensures r == Err(EvmInputMismatch) <==> Mismatch(meets(attempts - 1))
    ensures r == Err(EvmInputMismatch) ==> attempts >= maxAttempts
    ensures r == Err(EvmFailed) <==> meets(attempts - 1).evmFails
  {
    attempts := 0;
    while true
      invariant attempts <= maxAttempts
      invariant maxAttempts > 0 ==> attempts < maxAttempts
      invariant forall i | 0 <= i < attempts :: Mismatch(meets(i))
      decreases maxAttempts - attempts
    {
      var now := meets(attempts);
      attempts := attempts + 1;
      if now.evmFails {
        return Err(EvmFailed), attempts;
      }
      var execution := Execution(tx, now.read);
      var saved := SaveExecution(execution, now);
      if saved.Ok? {
        return Ok(execution), attempts;
      }
      if saved.error != EvmInputMismatch || attempts >= maxAttempts {
        return Err(saved.error), attempts;
      }
    }
  }

  // ----- serial tasks -----

  /** A task ends with a result for its caller, or panics. */
  datatype Task = Completes(result: nat) | Panics

  datatype Response = Answer(result: nat) | ChannelClosed

  /** Which EVM ran each task, numbered in the order they were created. */
  predicate EvmsAreFresh(tasks: seq<Task>, evms: seq<nat>)
    requires |evms| == |tasks|
  {
    && (forall i | 0 <= i < |tasks| - 1 :: evms[i + 1] == if tasks[i].Panics? then evms[i] + 1 else evms[i])
    && (forall i, j | 0 <= i < j < |tasks| :: tasks[i].Panics? ==> evms[i] != evms[j])
  }

  /**
   Tasks are run in order, each gets its own answer, a panic costs only the task that panicked its
   answer, and no task runs on an EVM an earlier task has panicked on.
   */
  method RunTasks(tasks: seq<Task>) returns (responses: seq<Response>, evms: seq<nat>)
    ensures |responses| == |evms| == |tasks|
    ensures forall i | 0 <= i < |tasks| ::
              responses[i] == if tasks[i].Panics? then ChannelClosed else Answer(tasks[i].result)
    ensures EvmsAreFresh(tasks, evms)
  {
    responses, evms := [], [];
    var evm: nat := 0;
    for n := 0 to |tasks|
      invariant |responses| == |evms| == n
      invariant forall i | 0 <= i < n ::
                  responses[i] == if tasks[i].Panics? then ChannelClosed else Answer(tasks[i].result)
      invariant forall i | 0 <= i < n - 1 :: evms[i + 1] == if tasks[i].Panics? then evms[i] + 1 else evms[i]
      invariant n > 0 ==> evm == if tasks[n - 1].Panics? then evms[n - 1] + 1 else evms[n - 1]
      invariant forall i | 0 <= i < n :: evms[i] <= evm && (tasks[i].Panics? ==> evms[i] < evm)
      invariant forall i, j | 0 <= i < j < n :: tasks[i].Panics? ==> evms[i] != evms[j]
    {
      evms := evms + [evm];
      match tasks[n]
      case Completes(result) =>
        responses := responses + [Answer(result)];
      case Panics =>
        responses := responses + [ChannelClosed];
        evm := evm + 1;
    }
  }
}

/**
 The checks of `save_block` on block numbers appear in three models: as errors in order in `Storage`, as
 one condition in `Mining`, and as the guard of a commit in `LatestState`. They are the same checks.
 */
module NumberChecks {
  import opened Common
  import opened StateChanges
  import S = Storage
  import M = Mining
  import L = LatestState

  /** Blocks 0 up to a length, whatever is in them. */
  function Stored(length: nat, mined: nat, lockInfo: BlockInfo): S.Chain {
    S.Chain(map n | 0 <= n < length :: S.Block(BlockInfo(n, 0), 0), mined, lockInfo)
  }

  /** The database answers and accepts. */
  function Saving(info: BlockInfo, pending: nat): S.SaveCall {
    S.SaveCall(S.Block(info, 0), pending, true, true)
  }

  lemma MiningChecksAgree(l: M.Ledger, block: M.Block, lockInfo: BlockInfo)
    ensures M.NumberAccepted(l, block) <==>
            S.SaveError(Stored(|l.chain|, l.mined, lockInfo), Saving(block.info, l.pending.info.number)).None?
  {
  }

  /** A commit may begin exactly for a block that passes them, once the state lock is to be had. */
  lemma CommitGuardAgrees(s: L.State, info: BlockInfo, changes: Changes)
    requires info.number > 0
    ensures L.Enabled(s, L.LockForCommit(info, changes)) <==>
            && s.committer.Idle? && L.NoGuards(s) && CompleteFor(s.latest, changes)
            && S.SaveError(Stored(|s.headers|, s.mined, s.lockInfo), Saving(info, s.pending.number)).None?
  {
  }
}

/**
 The two loops with which the deploy script waits for a stable condition: no pending transactions
 on the leader, and the follower at the leader's block. A sample is what the "result" of a reply
 holds, `None` when it holds nothing usable. Block numbers, which travel as non-empty hexadecimal
 strings, are numbers here.
 Source: utils/deploy/deploy.py.
 */
module Polling {
  import opened Common

  type Samples = nat -> Option<nat>

  // ----- pending transactions -----

  function PendingCount(count: nat, sample: Option<nat>): nat {
    if sample == Some(0) then count + 1 else 0
  }

  predicate NonePending(samples: Samples, from: nat, to: nat) {
    forall k | from <= k < to :: samples(k) == Some(0)
  }

  predicate PendingWindow(samples: Samples, from: nat, required: nat, total: nat) {
    from + required <= total && NonePending(samples, from, from + required)
  }

  ghost predicate PendingPasses(samples: Samples, required: nat, total: nat) {
    exists from: nat :: PendingWindow(samples, from, required, total)
  }

  /** The counter is the length of the row of zeros so far, and no row was long enough. */
  ghost predicate PendingOk(samples: Samples, required: nat, used: nat, count: nat) {
    && count <= used && count < required
    && NonePending(samples, used - count, used)
    && (count < used ==> samples(used - count - 1) != Some(0))
    && forall from: nat :: !PendingWindow(samples, from, required, used)
  }

  lemma PendingStep(samples: Samples, required: nat, used: nat, count: nat)
    requires PendingOk(samples, required, used, count)
    ensures var now := PendingCount(count, samples(used));
      if now == required then PendingWindow(samples, used + 1 - required, required, used + 1)
      else PendingOk(samples, required, used + 1, now)
  {
    var now := PendingCount(count, samples(used));
    var next := used + 1;
    if now < required {
      forall from: nat ensures !PendingWindow(samples, from, required, next) {
        assert !PendingWindow(samples, from, required, used);
        if from + required == next {
          assert from <= used - now < next && samples(used - now) != Some(0);
        }
      }
    }
  }

  /**
   True exactly when `required` samples in a row are zero; the last ones read are such a row.
   A requirement of no checks is met by the first sample that is not zero.
   */
  method HasNoPendingTransactions(samples: Samples, total: nat, required: nat) returns (ok: bool, used: nat)
    ensures required > 0 ==> (ok <==> PendingPasses(samples, required, total))
    ensures required == 0 ==> (ok <==> exists i | 0 <= i < total :: samples(i) != Some(0))
    ensures used <= total && (ok ==> required <= used && NonePending(samples, used - required, used))
  {
    var count: nat := 0;
    used := 0;
    while used < total
      invariant used <= total
      invariant required > 0 ==> PendingOk(samples, required, used, count)
      invariant required == 0 ==> NonePending(samples, 0, used) && count == used
    {
      if required > 0 { PendingStep(samples, required, used, count); }
      count := PendingCount(count, samples(used));
      used := used + 1;
      if count == required {
        assert required > 0 ==> PendingWindow(samples, used - required, required, total);
        return true, used;
      }
    }
    return false, used;
  }

  // ----- block synchronization -----

  datatype Sync = Sync(previous: Option<nat>, count: nat)

  function SyncNext(s: Sync, leader: Option<nat>, follower: Option<nat>): Sync {
    if s.previous.None? then s.(previous := leader)
    else if leader == follower && leader == s.previous then s.(count := s.count + 1)
    else Sync(leader, 0)
  }

  /** After the sample at `from`, the leader stays at its block and the follower is there too. */
  predicate InStep(leader: Samples, follower: Samples, from: nat, to: nat) {
    leader(from).Some? && forall k | from < k <= to :: leader(k) == follower(k) == leader(from)
  }

  predicate SyncWindow(leader: Samples, follower: Samples, from: nat, required: nat, total: nat) {
    from + required < total && InStep(leader, follower, from, from + required)
  }

  ghost predicate SyncPasses(leader: Samples, follower: Samples, required: nat, total: nat) {
    exists from: nat :: SyncWindow(leader, follower, from, required, total)
  }

  /** The state of the loop says how long the two have been in step. */
  predicate SyncOk(s: Sync, leader: Samples, follower: Samples, used: nat) {
    && (used == 0 ==> s == Sync(None, 0))
    && (used > 0 ==>
        && s.previous == leader(used - 1)
        && s.count < used
        && (s.count > 0 ==> InStep(leader, follower, used - 1 - s.count, used - 1))
        && (s.previous.None? ==> s.count == 0)
        && (s.previous.Some? && s.count + 1 < used ==>
            !InStep(leader, follower, used - 2 - s.count, used - 1)))
  }

  lemma SyncStep(s: Sync, leader: Samples, follower: Samples, used: nat)
    requires SyncOk(s, leader, follower, used)
    ensures SyncOk(SyncNext(s, leader(used), follower(used)), leader, follower, used + 1)
  {
  }

  /** A longer window in step than the loop has counted does not exist. */
  lemma WindowIsCounted(s: Sync, leader: Samples, follower: Samples, used: nat, from: nat)
    requires SyncOk(s, leader, follower, used) && from < used && InStep(leader, follower, from, used - 1)
    ensures used - 1 - from <= s.count
  {
    if used - 1 - from > s.count {
      assert leader(used - 2 - s.count) == leader(from);
      assert InStep(leader, follower, used - 2 - s.count, used - 1);
    }
  }

  lemma NoSyncWindow(s: Sync, leader: Samples, follower: Samples, used: nat, required: nat)
    requires SyncOk(s, leader, follower, used + 1) && s.count < required
    requires forall from: nat :: !SyncWindow(leader, follower, from, required, used)
    ensures var next := used + 1; forall from: nat :: !SyncWindow(leader, follower, from, required, next)
  {
    var next := used + 1;
    forall from: nat ensures !SyncWindow(leader, follower, from, required, next) {
      assert !SyncWindow(leader, follower, from, required, used);
      if from + required == used && InStep(leader, follower, from, used) {
        WindowIsCounted(s, leader, follower, next, from);
      }
    }
  }

  lemma SyncStillPasses(leader: Samples, follower: Samples, from: nat, required: nat, used: nat, total: nat)
    requires SyncWindow(leader, follower, from, required, used) && used <= total
    ensures SyncPasses(leader, follower, required, total)
  {
    assert SyncWindow(leader, follower, from, required, total);
  }

  /** No row was long enough so far. */
  ghost predicate SyncWaits(s: Sync, leader: Samples, follower: Samples, required: nat, used: nat) {
    && SyncOk(s, leader, follower, used) && s.count < required
    && forall from: nat :: !SyncWindow(leader, follower, from, required, used)
  }

  lemma SyncWaitStep(s: Sync, leader: Samples, follower: Samples, required: nat, used: nat)
    requires SyncWaits(s, leader, follower, required, used)
    ensures var now := SyncNext(s, leader(used), follower(used));
      if now.count == required then
        required <= used && SyncWindow(leader, follower, used - required, required, used + 1)
      else SyncWaits(now, leader, follower, required, used + 1)
  {
    SyncStep(s, leader, follower, used);
    var now := SyncNext(s, leader(used), follower(used));
    if now.count < required { NoSyncWindow(now, leader, follower, used, required); }
  }

  /**
   True exactly when, after some sample, the leader's number stays the same and the follower
   reports it `required` times in a row; the last samples read are such a row. A requirement of no
   checks is met by the first sample, whatever it is.
   */
  method BlocksSynced(leader: Samples, follower: Samples, total: nat, required: nat) returns (ok: bool, used: nat)
    ensures required > 0 ==> (ok <==> SyncPasses(leader, follower, required, total))
    ensures required == 0 ==> (ok <==> total > 0)
    ensures used <= total
    ensures ok && required > 0 ==> required < used && InStep(leader, follower, used - 1 - required, used - 1)
  {
    var sync := Sync(None, 0);
    used := 0;
    while used < total
      invariant used <= total
      invariant required > 0 ==> SyncWaits(sync, leader, follower, required, used)
      invariant required == 0 ==> used == 0 && sync == Sync(None, 0)
    {
      if required > 0 { SyncWaitStep(sync, leader, follower, required, used); }
      sync := SyncNext(sync, leader(used), follower(used));
      used := used + 1;
      if sync.count == required {
        assert required > 0 ==> SyncWindow(leader, follower, used - 1 - required, required, total);
        return true, used;
      }
    }
    return false, used;
  }
}

/**
 The four locks of the miner and the latest-state lock, the order in which they are taken, and why
 threads that keep to it never all wait for each other.
 */
module Locks {
  import opened Common

  type ThreadId = nat

  /** The state lock is a readers-writer lock; `StateRead` and `StateWrite` are its two forms. */
  datatype Lock = SaveExecution | MineAndCommit | Mine | Commit | StateRead | StateWrite

  /** The locks a thread has, and the one it waits for. */
  datatype Claim = Claim(held: set<Lock>, wants: Option<Lock>)

  type Claims = map<ThreadId, Claim>

  /** A reader also gives way to a waiting writer; a writer needs all readers gone. */
  predicate Blocks(lock: Lock, other: Claim) {
    match lock
    case StateRead => StateWrite in other.held || other.wants == Some(StateWrite)
    case StateWrite => StateWrite in other.held || StateRead in other.held
    case _ => lock in other.held
  }

  predicate Available(claims: Claims, lock: Lock) {
    forall t | t in claims :: !Blocks(lock, claims[t])
  }

  function Rank(lock: Lock): nat {
    match lock
    case SaveExecution => 0
    case MineAndCommit => 1
    case Mine => 2
    case Commit => 3
    case StateRead => 4
    case StateWrite => 5
  }

  /** Nothing is taken under either form of the state lock. */
  function HeldRank(lock: Lock): nat {
    if lock == StateRead then 5 else Rank(lock)
  }

  predicate Above(held: set<Lock>, lock: Lock) {
    forall h | h in held :: HeldRank(h) < Rank(lock)
  }

  predicate InOrder(claim: Claim) {
    claim.wants.Some? ==> Above(claim.held, claim.wants.value)
  }

  predicate Busy(claim: Claim) {
    claim.held != {} || claim.wants.Some?
  }

  /** Whoever stands in the way of a lock is busy and waits, if at all, for a later lock. */
  lemma BlockerIsAhead(lock: Lock, other: Claim)
    requires Blocks(lock, other) && InOrder(other)
    ensures Busy(other) && (other.wants.Some? ==> Rank(other.wants.value) > Rank(lock))
  {
  }

  /** Following the thread that stands in the way ends at one that waits for nothing. */
  lemma {:induction false} BlockedByOneThatCanStep(claims: Claims, t: ThreadId) returns (u: ThreadId)
    requires t in claims && forall v | v in claims :: InOrder(claims[v])
    ensures u in claims && (u == t || Busy(claims[u]))
    ensures claims[u].wants.Some? ==> Available(claims, claims[u].wants.value)
    decreases if claims[t].wants.Some? then 6 - Rank(claims[t].wants.value) else 0
  {
    var wants := claims[t].wants;
    if wants.None? || Available(claims, wants.value) {
      u := t;
    } else {
      var other :| other in claims && Blocks(wants.value, claims[other]);
      BlockerIsAhead(wants.value, claims[other]);
      u := BlockedByOneThatCanStep(claims, other);
    }
  }
}

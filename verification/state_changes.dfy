/**
 Execution changes: how the state touched by transactions is merged into a block, reduced to
 what has to be stored, written to permanent storage, and replicated to a follower.

 The meaning of every representation is the permanent state it produces, so each theorem here
 compares what `Read` returns from two databases.
 */
module StateChanges {
  import opened Common

  /** 20-byte addresses, as numbers. */
  type Address = nat
  type Code = seq<int>

  const ZERO_ADDRESS: Address := 0
  const COINBASE: Address := 0xff

  /** Addresses whose updates are dropped before they reach permanent storage. */
  predicate IsIgnored(address: Address) {
    address == COINBASE || address == ZERO_ADDRESS
  }

  datatype Key =
    | AccountKey(address: Address)
    | SlotKey(address: Address, index: nat)

  /** What a column family holds for a key; accounts are stored without their address. */
  datatype Stored =
    | StoredAccount(nonce: nat, balance: nat, bytecode: Option<Code>)
    | StoredSlot(word: nat)

  type Database = map<Key, Stored>

  /** The value an absent key stands for. */
  function Default(k: Key): Stored {
    match k
    case AccountKey(_) => StoredAccount(0, 0, None)
    case SlotKey(_, _) => StoredSlot(0)
  }

  function Read(db: Database, k: Key): Stored {
    if k in db then db[k] else Default(k)
  }

  /** A field of a complete change: the value read before execution, or the value written. */
  datatype Field<+T> = Original(value: T) | Changed(value: T)

  datatype Entry =
    | AccountEntry(nonce: Field<nat>, balance: Field<nat>, bytecode: Field<Option<Code>>)
    | SlotEntry(word: Field<nat>)

  /** `State<Complete>`: everything an execution touched, changed or not. */
  type Changes = map<Key, Entry>

  predicate IsChanged(e: Entry) {
    match e
    case AccountEntry(n, b, c) => n.Changed? || b.Changed? || c.Changed?
    case SlotEntry(w) => w.Changed?
  }

  /** The value of an entry once it is applied, whichever fields it changed. */
  function Outcome(e: Entry): Stored {
    match e
    case AccountEntry(n, b, c) => StoredAccount(n.value, b.value, c.value)
    case SlotEntry(w) => StoredSlot(w.value)
  }

  function MergeField<T>(existing: Field<T>, incoming: Field<T>): Field<T> {
    if incoming.Changed? then incoming else existing
  }

  /** Merging entries of different kinds cannot happen, because the kind follows from the key. */
  function MergeEntry(existing: Entry, incoming: Entry): Entry {
    match (existing, incoming)
    case (AccountEntry(n, b, c), AccountEntry(n', b', c')) =>
      AccountEntry(MergeField(n, n'), MergeField(b, b'), MergeField(c, c'))
    case (SlotEntry(w), SlotEntry(w')) => SlotEntry(MergeField(w, w'))
    case (_, _) => incoming
  }

  function Merge(s: Changes, t: Changes): Changes {
    map k | k in s.Keys + t.Keys ::
      if k !in t then s[k] else if k !in s then t[k] else MergeEntry(s[k], t[k])
  }

  /** The entries that have to be stored. */
  function Finalize(s: Changes): Changes {
    map k | k in s && !IsIgnored(k.address) && IsChanged(s[k]) :: s[k]
  }

  /** The stored value of a finalized entry: an existing account keeps its unchanged fields. */
  function Updated(db: Database, k: Key, e: Entry): Stored {
    if k in db && db[k].StoredAccount? && e.AccountEntry? then
      StoredAccount(
        if e.nonce.Changed? then e.nonce.value else db[k].nonce,
        if e.balance.Changed? then e.balance.value else db[k].balance,
        if e.bytecode.Changed? then e.bytecode.value else db[k].bytecode)
    else
      Outcome(e)
  }

  /** What one block writes: the finalized entries, each resolved against the previous state. */
  function Writes(db: Database, s: Changes): Database {
    map k | k in Finalize(s) :: Updated(db, k, Finalize(s)[k])
  }

  function Commit(db: Database, s: Changes): Database {
    db + Writes(db, s)
  }

  /** The original fields of an entry are those of the state it was executed on. */
  predicate OriginalsMatch(pre: Stored, e: Entry) {
    match (pre, e)
    case (StoredAccount(n, b, c), AccountEntry(n', b', c')) =>
      && (n'.Original? ==> n'.value == n)
      && (b'.Original? ==> b'.value == b)
      && (c'.Original? ==> c'.value == c)
    case (StoredSlot(w), SlotEntry(w')) => w'.Original? ==> w'.value == w
    case (_, _) => false
  }

  /** `s` was produced by executing on `db`, and no ignored address is part of it. */
  ghost predicate CompleteFor(db: Database, s: Changes) {
    forall k | k in s :: !IsIgnored(k.address) && OriginalsMatch(Read(db, k), s[k])
  }

  ghost predicate SameState(a: Database, b: Database) {
    forall k :: Read(a, k) == Read(b, k)
  }

  /**
   Committing stores, for every key touched, exactly the value the execution ended with, even
   though only changed entries and changed fields are written; no other key is affected.
   */
  lemma CommitStoresResults(db: Database, s: Changes, k: Key)
    requires CompleteFor(db, s)
    ensures Read(Commit(db, s), k) == if k in s then Outcome(s[k]) else Read(db, k)
  {
    if k in s && !IsChanged(s[k]) {
      assert k !in Writes(db, s);
      assert Read(db, k) == Outcome(s[k]);
    }
  }

  /** A commit never overwrites a field its block did not change, whatever the block was executed on. */
  lemma UnchangedFieldsAreKept(db: Database, s: Changes, k: Key)
    requires k in db && db[k].StoredAccount? && k in s && s[k].AccountEntry?
    ensures var now := Read(Commit(db, s), k);
      && now.StoredAccount?
      && (!s[k].nonce.Changed? ==> now.nonce == db[k].nonce)
      && (!s[k].balance.Changed? ==> now.balance == db[k].balance)
      && (!s[k].bytecode.Changed? ==> now.bytecode == db[k].bytecode)
  {
    assert k in Writes(db, s) <==> k in Finalize(s);
  }

  lemma CompleteForSameState(a: Database, b: Database, s: Changes)
    requires SameState(a, b) && CompleteFor(a, s)
    ensures CompleteFor(b, s)
    ensures SameState(Commit(a, s), Commit(b, s))
  {
    forall k ensures Read(Commit(a, s), k) == Read(Commit(b, s), k) {
      CommitStoresResults(a, s, k);
      CommitStoresResults(b, s, k);
    }
  }

  lemma MergedEntry(db: Database, s: Changes, t: Changes, k: Key)
    requires CompleteFor(db, s)
    requires CompleteFor(Commit(db, s), t)
    requires k in Merge(s, t)
    ensures !IsIgnored(k.address) && OriginalsMatch(Read(db, k), Merge(s, t)[k])
    ensures Outcome(Merge(s, t)[k]) == if k in t then Outcome(t[k]) else Outcome(s[k])
  {
    CommitStoresResults(db, s, k);
  }

  /**
   Merging the changes of a second execution into those of a first one is complete for the
   state before both, and commits to the state the two leave when committed one after the other.
   */
  lemma MergeComposes(db: Database, s: Changes, t: Changes)
    requires CompleteFor(db, s)
    requires CompleteFor(Commit(db, s), t)
    ensures CompleteFor(db, Merge(s, t))
    ensures SameState(Commit(db, Merge(s, t)), Commit(Commit(db, s), t))
  {
    var merged := Merge(s, t);
    forall k | k in merged ensures !IsIgnored(k.address) && OriginalsMatch(Read(db, k), merged[k]) {
      MergedEntry(db, s, t, k);
    }
    forall k ensures Read(Commit(db, merged), k) == Read(Commit(Commit(db, s), t), k) {
      CommitStoresResults(db, s, k);
      CommitStoresResults(Commit(db, s), t, k);
      CommitStoresResults(db, merged, k);
      if k in merged { MergedEntry(db, s, t, k); }
    }
  }

  /** The pending state after saving the executions of a block, oldest first. */
  function MergeAll(executions: seq<Changes>): Changes {
    if executions == [] then map[]
    else Merge(MergeAll(executions[..|executions| - 1]), executions[|executions| - 1])
  }

  function CommitAll(db: Database, executions: seq<Changes>): Database {
    if executions == [] then db
    else Commit(CommitAll(db, executions[..|executions| - 1]), executions[|executions| - 1])
  }

  /** Every execution ran on the state left by the ones before it. */
  ghost predicate RanInOrder(db: Database, executions: seq<Changes>) {
    executions == [] ||
    (var before := executions[..|executions| - 1];
     RanInOrder(db, before) && CompleteFor(CommitAll(db, before), executions[|executions| - 1]))
  }

  /** One batch for the whole block stores what committing its transactions one by one would. */
  lemma {:induction false} BlockCommitsLikeItsTransactions(db: Database, executions: seq<Changes>)
    requires RanInOrder(db, executions)
    ensures CompleteFor(db, MergeAll(executions))
    ensures SameState(Commit(db, MergeAll(executions)), CommitAll(db, executions))
  {
    if executions == [] {
      assert Commit(db, map[]) == db;
    } else {
      var before, last := executions[..|executions| - 1], executions[|executions| - 1];
      BlockCommitsLikeItsTransactions(db, before);
      CompleteForSameState(CommitAll(db, before), Commit(db, MergeAll(before)), last);
      MergeComposes(db, MergeAll(before), last);
    }
  }

  // -------------------------------------------------------------------------
  // Replication
  // -------------------------------------------------------------------------

  /** A published field: only values changed by the block are carried. */
  datatype Published =
    | PublishedAccount(nonce: Option<nat>, balance: Option<nat>, bytecode: Option<Option<Code>>)
    | PublishedSlot(word: nat)

  function PublishField<T>(f: Field<T>): Option<T> {
    if f.Changed? then Some(f.value) else None
  }

  /** The block changes a leader stores beside the block and serves to followers. */
  function Publish(s: Changes): map<Key, Published> {
    map k | k in Finalize(s) ::
      match s[k]
      case AccountEntry(n, b, c) => PublishedAccount(PublishField(n), PublishField(b), PublishField(c))
      case SlotEntry(w) => PublishedSlot(w.value)
  }

  predicate CarriesOnlyChanges<T(==)>(published: Option<T>, f: Field<T>) {
    published == if f.Changed? then Some(f.value) else None
  }

  /** Published are the changed entries of addresses that are not ignored, with the changed fields alone. */
  lemma PublishesOnlyChanges(s: Changes, k: Key)
    ensures k in Publish(s) <==> k in s && !IsIgnored(k.address) && IsChanged(s[k])
    ensures k in Publish(s) ==>
      match (s[k], Publish(s)[k])
      case (AccountEntry(n, b, c), PublishedAccount(n', b', c')) =>
        CarriesOnlyChanges(n', n) && CarriesOnlyChanges(b', b) && CarriesOnlyChanges(c', c)
      case (SlotEntry(w), PublishedSlot(w')) => w.Changed? && w' == w.value
      case (_, _) => false
  {
  }

  function CompleteField<T>(published: Option<T>, original: T): Field<T> {
    if published.Some? then Changed(published.value) else Original(original)
  }

  /** A follower resolves the fields that were not published against its own permanent state. */
  function Complete(db: Database, published: map<Key, Published>): Changes {
    map k | k in published ::
      match (published[k], Read(db, k))
      case (PublishedAccount(n, b, c), StoredAccount(n', b', c')) =>
        AccountEntry(CompleteField(n, n'), CompleteField(b, b'), CompleteField(c, c'))
      case (PublishedAccount(n, b, c), StoredSlot(_)) =>
        AccountEntry(CompleteField(n, 0), CompleteField(b, 0), CompleteField(c, None))
      case (PublishedSlot(w), _) => SlotEntry(Changed(w))
  }

  lemma ReplicatedEntry(leader: Database, follower: Database, s: Changes, k: Key)
    requires SameState(leader, follower) && CompleteFor(leader, s) && k in Publish(s)
    ensures k in s && OriginalsMatch(Read(follower, k), Complete(follower, Publish(s))[k])
    ensures Outcome(Complete(follower, Publish(s))[k]) == Outcome(s[k])
  {
    assert Read(leader, k) == Read(follower, k);
    assert OriginalsMatch(Read(leader, k), s[k]);
  }

  /** A follower in the leader's state that commits the published changes ends in its next state. */
  lemma ReplicationReachesTheSameState(leader: Database, follower: Database, s: Changes)
    requires SameState(leader, follower)
    requires CompleteFor(leader, s)
    ensures CompleteFor(follower, Complete(follower, Publish(s)))
    ensures SameState(Commit(follower, Complete(follower, Publish(s))), Commit(leader, s))
  {
    var t := Complete(follower, Publish(s));
    forall k | k in t ensures !IsIgnored(k.address) && OriginalsMatch(Read(follower, k), t[k]) {
      ReplicatedEntry(leader, follower, s, k);
    }
    forall k ensures Read(Commit(follower, t), k) == Read(Commit(leader, s), k) {
      CommitStoresResults(leader, s, k);
      CommitStoresResults(follower, t, k);
      assert Read(leader, k) == Read(follower, k);
      if k in t {
        ReplicatedEntry(leader, follower, s, k);
      } else if k in s {
        assert !IsChanged(s[k]) && OriginalsMatch(Read(leader, k), s[k]);
      }
    }
  }

  /** A follower imports blocks one after the other, each completed against the state it then has. */
  function Imported(follower: Database, published: seq<map<Key, Published>>): Database {
    if published == [] then follower
    else
      var before := Imported(follower, published[..|published| - 1]);
      Commit(before, Complete(before, published[|published| - 1]))
  }

  /** A follower that starts in the leader's state is in it again after any number of blocks. */
  lemma {:induction false} FollowerKeepsUp(
    leader: Database, follower: Database, blocks: seq<Changes>, published: seq<map<Key, Published>>)
    requires SameState(leader, follower) && RanInOrder(leader, blocks)
    requires |published| == |blocks|
    requires forall i | 0 <= i < |blocks| :: published[i] == Publish(blocks[i])
    ensures SameState(Imported(follower, published), CommitAll(leader, blocks))
    decreases |blocks|
  {
    if blocks == [] {
    } else {
      var n := |blocks| - 1;
      FollowerKeepsUp(leader, follower, blocks[..n], published[..n]);
      ReplicationReachesTheSameState(CommitAll(leader, blocks[..n]), Imported(follower, published[..n]), blocks[n]);
    }
  }
}

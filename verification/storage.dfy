/**
 The storage proxy, one call at a time: the block-number checks of `save_block`, the commit,
 reads through the latest cache and the access-list loader.
 */
module Storage {
  import opened Common
  import opened StateChanges
  import opened LatestState

  datatype Block = Block(info: BlockInfo, body: nat)

  datatype StorageError =
    | MinedNumberConflict(number: nat, mined: nat)
    | PendingNumberConflict(number: nat, pending: nat)
    | BlockConflict(number: nat)
    | RocksError

  // -------------------------------------------------------------------------
  // Block numbers
  // -------------------------------------------------------------------------

  /** Stored blocks by number, the mined number and the value inside the latest-state lock. */
  datatype Chain = Chain(blocks: map<nat, Block>, mined: nat, lockInfo: BlockInfo)

  /**
   One call, with the pending number it reads, whether the database answers the lookup of the
   block's number, and whether it accepts the batch.
   */
  datatype SaveCall = SaveCall(block: Block, pending: nat, lookupOk: bool, databaseOk: bool)

  /** The three checks of `save_block`, in order, and then the commit. */
  function SaveError(c: Chain, call: SaveCall): Option<StorageError> {
    var number := call.block.info.number;
    if number != 0 && number != c.mined + 1 then Some(MinedNumberConflict(number, c.mined))
    else if number >= call.pending then Some(PendingNumberConflict(number, call.pending))
    else if !call.lookupOk then Some(RocksError)
    else if number in c.blocks then Some(BlockConflict(number))
    else if !call.databaseOk then Some(RocksError)
    else None
  }

  function Save(c: Chain, call: SaveCall): Chain {
    if SaveError(c, call).Some? then c
    else Chain(c.blocks[call.block.info.number := call.block], call.block.info.number, call.block.info)
  }

  function SaveAll(c: Chain, calls: seq<SaveCall>): Chain
    decreases |calls|
  {
    if calls == [] then c else SaveAll(Save(c, calls[0]), calls[1..])
  }

  /** Exactly the blocks 0 to mined are stored, each under its own number. */
  ghost predicate Contiguous(c: Chain) {
    && (forall n :: n in c.blocks <==> 0 <= n <= c.mined)
    && (forall n | n in c.blocks :: c.blocks[n].info.number == n)
    && c.lockInfo == c.blocks[c.mined].info
  }

  ghost predicate KeepsBlocks(c: Chain, c': Chain) {
    c.mined <= c'.mined && forall n | n in c.blocks :: n in c'.blocks && c'.blocks[n] == c.blocks[n]
  }

  /** With the genesis block stored, a block is accepted exactly when it is the next one. */
  lemma AcceptedIffNext(c: Chain, call: SaveCall)
    requires Contiguous(c)
    ensures SaveError(c, call).None? <==>
            && call.block.info.number == c.mined + 1 && call.block.info.number < call.pending
            && call.lookupOk && call.databaseOk
    ensures SaveError(c, call).Some? ==> Save(c, call) == c
  {
    assert 0 in c.blocks;
  }

  /**
   Which error a rejected block gets. That a block is there already is found out only of a second block
   zero: any other number that is not the next one fails the first check.
   */
  lemma RejectedBecause(c: Chain, call: SaveCall)
    requires Contiguous(c)
    ensures var number, error := call.block.info.number, SaveError(c, call);
      var inTurn := number == 0 || number == c.mined + 1;
      && (error == Some(MinedNumberConflict(number, c.mined)) <==> !inTurn)
      && (error == Some(PendingNumberConflict(number, call.pending)) <==> inTurn && number >= call.pending)
      && (error == Some(BlockConflict(number)) <==> number == 0 && call.pending > 0 && call.lookupOk)
      && (error == Some(RocksError) <==>
          inTurn && number < call.pending && (!call.lookupOk || (number > 0 && !call.databaseOk)))
      && (error.Some? ==> error.value in {MinedNumberConflict(number, c.mined), RocksError, BlockConflict(number),
                                          PendingNumberConflict(number, call.pending)})
  {
    assert 0 in c.blocks && c.mined + 1 !in c.blocks;
  }

  /** Whatever is submitted, no stored block is ever replaced and no number is skipped. */
  lemma {:induction false} SavesStayContiguous(c: Chain, calls: seq<SaveCall>)
    requires Contiguous(c)
    ensures Contiguous(SaveAll(c, calls)) && KeepsBlocks(c, SaveAll(c, calls))
    decreases |calls|
  {
    if calls == [] {
    } else {
      AcceptedIffNext(c, calls[0]);
      SavesStayContiguous(Save(c, calls[0]), calls[1..]);
    }
  }

  function SaveOf(number: nat): SaveCall {
    SaveCall(Block(BlockInfo(number, 0), 0), 9, true, true)
  }

  /**
   Without a genesis block the checks do not protect the numbers: block 1 is accepted, block 0
   then moves the mined number back, and from there every block is rejected.
   */
  lemma MissingGenesisWedgesTheChain(lockInfo: BlockInfo, calls: seq<SaveCall>)
    ensures var wedged := SaveAll(Chain(map[], 0, lockInfo), [SaveOf(1), SaveOf(0)]);
      wedged.mined == 0 && 1 in wedged.blocks && SaveAll(wedged, calls) == wedged
  {
    var one := Save(Chain(map[], 0, lockInfo), SaveOf(1));
    var wedged := Save(one, SaveOf(0));
    assert [SaveOf(1), SaveOf(0)][1..] == [SaveOf(0)] && [SaveOf(0)][1..] == [];
    assert SaveAll(one, [SaveOf(0)]) == SaveAll(wedged, []);
    WedgedStaysWedged(wedged, calls);
  }

  lemma {:induction false} WedgedStaysWedged(c: Chain, calls: seq<SaveCall>)
    requires c.mined == 0 && 0 in c.blocks && 1 in c.blocks
    ensures SaveAll(c, calls) == c
    decreases |calls|
  {
    if calls == [] {
    } else {
      assert SaveError(c, calls[0]).Some?;
      WedgedStaysWedged(c, calls[1..]);
    }
  }

  /** Either nothing is stored, or exactly the blocks 0 to mined. */
  ghost predicate Gapless(c: Chain) {
    c.blocks == map[] || forall n :: n in c.blocks <==> 0 <= n <= c.mined
  }

  /** The genesis block is exactly what it takes: with it no calls leave a gap, without it some do. */
  lemma GaplessIffGenesis(c: Chain)
    requires Contiguous(c) || (c.blocks == map[] && c.mined == 0)
    ensures (forall calls: seq<SaveCall> :: Gapless(SaveAll(c, calls))) <==> 0 in c.blocks
  {
    if Contiguous(c) {
      forall calls: seq<SaveCall> ensures Gapless(SaveAll(c, calls)) {
        SavesStayContiguous(c, calls);
      }
    } else {
      var calls := [SaveOf(1)];
      assert calls[1..] == [];
      assert SaveAll(c, calls) == SaveAll(Save(c, SaveOf(1)), []);
      assert 1 in SaveAll(c, calls).blocks && 0 !in SaveAll(c, calls).blocks;
    }
  }

  // -------------------------------------------------------------------------
  // Cache
  // -------------------------------------------------------------------------

  /** The account and slot caches; the kind of the key says which of the two an entry is in. */
  class StorageCache {
    var entries: map<Key, Value>

    constructor ()
      ensures entries == map[]
    {
      entries := map[];
    }

    method Clear()
      modifies this
      ensures entries == map[]
    {
      entries := map[];
    }

    method InsertIfMissing(k: Key, v: Value)
      modifies this
      ensures entries == if k in old(entries) then old(entries) else old(entries)[k := v]
    {
      if k !in entries {
        entries := entries[k := v];
      }
    }

    /** Accounts first, then slots, each in no particular order. */
    method CacheFromChanges(changes: Changes)
      modifies this
      ensures entries == old(entries) + CacheEntries(changes)
    {
      var accounts := set k | k in changes && k.AccountKey?;
      InsertOutcomes(changes, accounts);
      InsertOutcomes(changes, changes.Keys - accounts);
    }

    method InsertOutcomes(changes: Changes, keys: set<Key>)
      requires keys <= changes.Keys
      modifies this
      ensures entries.Keys == old(entries).Keys + keys
      ensures forall k | k in entries :: entries[k] == if k in keys then CachedValue(k, changes[k]) else old(entries)[k]
    {
      var todo := keys;
      while todo != {}
        invariant todo <= keys
        invariant entries.Keys == old(entries).Keys + (keys - todo)
        invariant forall k | k in entries ::
          entries[k] == if k in keys - todo then CachedValue(k, changes[k]) else old(entries)[k]
        decreases todo
      {
        var k :| k in todo;
        entries := entries[k := CachedValue(k, changes[k])];
        todo := todo - {k};
      }
    }
  }

  function CacheEntries(changes: Changes): map<Key, Value> {
    map k | k in changes :: CachedValue(k, changes[k])
  }

  // -------------------------------------------------------------------------
  // Proxy
  // -------------------------------------------------------------------------

  datatype FoundAt = Temp | Cache | PermLatest | PermHistorical

  datatype BlockFilter = PendingBlock | LatestBlock | Number(number: nat)

  class StratusStorage {
    var latest: Database
    var writes: seq<Database>
    var blocks: map<nat, Block>
    var mined: nat
    var lockInfo: BlockInfo
    var pending: BlockInfo
    const cache: StorageCache

    ghost function View(): Chain
      reads this
    {
      Chain(blocks, mined, lockInfo)
    }

    /** Between calls: contiguous blocks, a history that matches, and a coherent cache. */
    ghost predicate Valid()
      reads this, cache
    {
      && Contiguous(View())
      && |writes| == mined + 1
      && Synced(latest, writes)
      && (forall k | k in cache.entries :: Visible(cache.entries[k]) == StateChanges.Read(latest, k))
    }

    /** A storage opened on permanent data that holds at least the genesis block. */
    constructor (latest: Database, writes: seq<Database>, blocks: map<nat, Block>, mined: nat, pending: BlockInfo)
      requires |writes| == mined + 1 && Synced(latest, writes)
      requires forall n :: n in blocks <==> 0 <= n <= mined
      requires forall n | n in blocks :: blocks[n].info.number == n
      ensures Valid() && fresh(cache)
      ensures cache.entries == map[] && View() == Chain(blocks, mined, blocks[mined].info)
      ensures this.latest == latest && this.writes == writes && this.pending == pending
    {
      this.latest := latest;
      this.writes := writes;
      this.blocks := blocks;
      this.mined := mined;
      this.lockInfo := blocks[mined].info;
      this.pending := pending;
      this.cache := new StorageCache();
    }

    method CommitChanges(block: Block, changes: Changes, databaseOk: bool) returns (error: Option<StorageError>)
      requires Valid() && block.info.number == mined + 1 && CompleteFor(latest, changes)
      modifies this, cache
      ensures Valid() && pending == old(pending)
      ensures databaseOk ==>
        error == None && View() == Chain(old(blocks)[block.info.number := block], block.info.number, block.info)
      ensures databaseOk ==>
        latest == Commit(old(latest), changes) && writes == old(writes) + [Writes(old(latest), changes)]
      ensures databaseOk ==> cache.entries == old(cache.entries) + CacheEntries(changes)
      ensures !databaseOk ==> error == Some(RocksError) && View() == old(View())
      ensures !databaseOk ==> latest == old(latest) && writes == old(writes) && cache.entries == old(cache.entries)
    {
      if !databaseOk {
        return Some(RocksError);
      }
      ghost var before := latest;
      ghost var history := writes;
      forall k
        ensures StateChanges.Read(Commit(before, changes), k) ==
                if k in changes then Outcome(changes[k]) else StateChanges.Read(before, k)
        ensures AsOf(history + [Writes(before, changes)], k, |history|) == StateChanges.Read(Commit(before, changes), k)
      {
        BatchReads(before, history, changes, k);
      }
      writes := writes + [Writes(latest, changes)];
      latest := Commit(latest, changes);
      blocks := blocks[block.info.number := block];
      lockInfo := block.info;
      cache.CacheFromChanges(changes);
      mined := block.info.number;
      return None;
    }

    /** Accepts exactly the next block; a rejected block leaves no trace. */
    method SaveBlock(block: Block, changes: Changes, lookupOk: bool, databaseOk: bool)
      returns (error: Option<StorageError>)
      requires Valid() && CompleteFor(latest, changes)
      modifies this, cache
      ensures Valid()
      ensures error == SaveError(old(View()), SaveCall(block, old(pending).number, lookupOk, databaseOk))
      ensures View() == Save(old(View()), SaveCall(block, old(pending).number, lookupOk, databaseOk))
      ensures error.None? ==> latest == Commit(old(latest), changes)
      ensures error.Some? ==> latest == old(latest) && writes == old(writes) && cache.entries == old(cache.entries)
      ensures pending == old(pending)
    {
      AcceptedIffNext(View(), SaveCall(block, pending.number, lookupOk, databaseOk));
      var number := block.info.number;
      if number != 0 && number != mined + 1 {
        return Some(MinedNumberConflict(number, mined));
      }
      if number >= pending.number {
        return Some(PendingNumberConflict(number, pending.number));
      }
      if !lookupOk {
        return Some(RocksError);
      }
      if number in blocks {
        return Some(BlockConflict(number));
      }
      error := CommitChanges(block, changes, databaseOk);
    }

    /** `temp` is what temporary storage holds for the key, if anything. */
    method Read(k: Key, target: Target, temp: Option<Value>) returns (value: Value, foundAt: FoundAt)
      requires Valid() && !target.Loader?
      modifies cache
      ensures Valid()
      ensures foundAt == Temp <==> target == Pending && temp.Some?
      ensures foundAt == Temp ==> value == temp.value
      ensures target.Pinned? ==>
        Visible(value) == AsOf(writes, k, if target.block <= mined then target.block else mined)
      ensures target.Past? ==> Visible(value) == AsOf(writes, k, target.block) && foundAt == PermHistorical
      ensures target.Latest? || (target.Pending? && foundAt != Temp) ==> Visible(value) == AsOf(writes, k, mined)
      ensures cache.entries ==
              if foundAt == PermLatest && !target.Pending? then old(cache.entries)[k := value] else old(cache.entries)
      ensures foundAt == Cache ==> k in old(cache.entries) && value == old(cache.entries)[k]
      ensures foundAt == PermLatest ==> k !in old(cache.entries)
      ensures foundAt == PermHistorical <==> target.Past? || (target.Pinned? && target.block < mined)
    {
      if target == Pending && temp.Some? {
        return temp.value, Temp;
      }
      if target.Past? || (target.Pinned? && target.block < lockInfo.number) {
        return WithAddress(k.address, AsOf(writes, k, target.block)), PermHistorical;
      }
      if k in cache.entries {
        return cache.entries[k], Cache;
      }
      value, foundAt := ReaderValue(latest, k), PermLatest;
      if !target.Pending? {
        cache.InsertIfMissing(k, value);
      }
    }

    /** The header of the block a call is pinned to is that of the stored block. */
    method ReadBlockInfo(filter: BlockFilter) returns (info: Option<BlockInfo>)
      requires Valid()
      ensures filter.Number? && filter.number <= mined ==> info == Some(blocks[filter.number].info)
      ensures filter.Number? && filter.number > mined + 1 ==> info == None
      ensures filter == LatestBlock ==> info == Some(blocks[mined].info)
      ensures filter == PendingBlock || filter == Number(mined + 1) ==> info == Some(pending)
    {
      var number := lockInfo.number;
      var reduced := match filter {
        case Number(n) => if n == number + 1 then PendingBlock else if n == number then LatestBlock else filter
        case _ => filter
      };
      match reduced
      case PendingBlock => info := Some(pending);
      case LatestBlock => info := Some(lockInfo);
      case Number(n) => info := if n in blocks then Some(blocks[n].info) else None;
    }

    /**
     Loads the listed keys that neither temporary storage nor the cache holds. A failing read of
     permanent storage skips the keys of its kind.
     */
    method LoadAccessList(list: seq<(Address, seq<nat>)>, inTemp: set<Key>, accountsOk: bool, slotsOk: bool)
      requires Valid()
      modifies cache
      ensures Valid()
      ensures forall k :: k in cache.entries <==>
        || k in old(cache.entries)
        || (IsListed(list, k) && k !in inTemp && (if k.AccountKey? then accountsOk else slotsOk))
      ensures forall k | k in old(cache.entries) :: cache.entries[k] == old(cache.entries)[k]
    {
      var keys := ListedKeys(list);
      LoadMissing(keys, inTemp, accountsOk, slotsOk);
    }

    method LoadMissing(keys: seq<Key>, inTemp: set<Key>, accountsOk: bool, slotsOk: bool)
      requires Valid()
      modifies cache
      ensures Valid()
      ensures forall k :: k in cache.entries <==>
        || k in old(cache.entries)
        || (k in keys && k !in inTemp && (if k.AccountKey? then accountsOk else slotsOk))
      ensures forall k | k in old(cache.entries) :: cache.entries[k] == old(cache.entries)[k]
    {
      for i := 0 to |keys|
        invariant Valid()
        invariant forall k :: k in cache.entries <==>
          || k in old(cache.entries)
          || (k in keys[..i] && k !in inTemp && (if k.AccountKey? then accountsOk else slotsOk))
        invariant forall k | k in old(cache.entries) :: cache.entries[k] == old(cache.entries)[k]
      {
        var k := keys[i];
        assert keys[..i + 1] == keys[..i] + [k];
        if k !in inTemp && (if k.AccountKey? then accountsOk else slotsOk) {
          cache.InsertIfMissing(k, LoaderValue(latest, k));
        }
      }
      assert keys[..|keys|] == keys;
    }
  }

  ghost predicate HasKey(item: (Address, seq<nat>), k: Key) {
    k == AccountKey(item.0) || (k.SlotKey? && k.address == item.0 && k.index in item.1)
  }

  /** `k` is named by the access list. */
  ghost predicate IsListed(list: seq<(Address, seq<nat>)>, k: Key) {
    exists i :: 0 <= i < |list| && HasKey(list[i], k)
  }

  /** The keys of an access list, flattened. */
  method ListedKeys(list: seq<(Address, seq<nat>)>) returns (keys: seq<Key>)
    ensures forall k :: k in keys <==> IsListed(list, k)
  {
    keys := [];
    for i := 0 to |list|
      invariant forall k :: k in keys <==> exists i' :: 0 <= i' < i && HasKey(list[i'], k)
    {
      var (address, indexes) := list[i];
      ghost var before := keys;
      keys := keys + [AccountKey(address)];
      for j := 0 to |indexes|
        invariant forall k :: k in keys <==>
          k in before || k == AccountKey(address) || (k.SlotKey? && k.address == address && k.index in indexes[..j])
      {
        keys := keys + [SlotKey(address, indexes[j])];
        assert indexes[..j + 1] == indexes[..j] + [indexes[j]];
      }
      assert indexes[..|indexes|] == indexes;
      assert forall k :: k in keys <==> k in before || HasKey(list[i], k);
    }
  }
}

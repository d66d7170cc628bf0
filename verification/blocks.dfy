/**
 Building a block from a pending block, numbering its logs, and giving it the identity of an
 external block.
 Source: src/eth/types/block/block.rs, src/eth/types/block/pending_block.rs,
 src/eth/types/transaction/transaction_mined.rs. The hash of a block number and the root of the
 transaction trie are parameters.
 */
module Blocks {
  import opened Common

  type Hash = nat
  type Log = nat

  datatype Execution = Execution(hash: Hash, blockTime: nat, gasUsed: nat, logs: seq<Log>)

  datatype Mined = Mined(execution: Execution, index: nat, firstLogIndex: nat, blockHash: Hash)

  datatype Header = Header(
    number: nat, timestamp: nat, hash: Hash, gasUsed: nat, size: nat, transactionsRoot: Hash)

  datatype LogMessage = LogMessage(
    log: Log, transactionHash: Hash, transactionIndex: nat, blockHash: Hash, blockNumber: nat, index: nat)

  // ----- pending block -----

  predicate DistinctHashes(txs: seq<Execution>) {
    forall i, j | 0 <= i < j < |txs| :: txs[i].hash != txs[j].hash
  }

  /** The block that receives transactions, kept in the order of their first arrival. */
  class PendingBlock {
    const header: BlockInfo
    var transactions: seq<Execution>

    ghost predicate Valid()
      reads this
    {
      DistinctHashes(transactions)
    }

    constructor (header: BlockInfo)
      ensures Valid() && this.header == header && transactions == []
    {
      this.header := header;
      this.transactions := [];
    }

    /** A transaction with a new hash goes last, one with a known hash takes the place it had. */
    method PushTransaction(tx: Execution)
      requires Valid()
      modifies this`transactions
      ensures Valid()
      ensures (exists i | 0 <= i < |old(transactions)| :: old(transactions)[i].hash == tx.hash) ==>
                && |transactions| == |old(transactions)|
                && forall i | 0 <= i < |transactions| ::
                     transactions[i] == if old(transactions)[i].hash == tx.hash then tx else old(transactions)[i]
      ensures (forall i | 0 <= i < |old(transactions)| :: old(transactions)[i].hash != tx.hash) ==>
                transactions == old(transactions) + [tx]
    {
      var at := Find(transactions, tx.hash);
      if at < |transactions| {
        transactions := transactions[at := tx];
      } else {
        transactions := transactions + [tx];
      }
    }
  }

  method Find(txs: seq<Execution>, hash: Hash) returns (at: nat)
    ensures at <= |txs|
    ensures at < |txs| ==> txs[at].hash == hash
    ensures forall i | 0 <= i < at :: txs[i].hash != hash
  {
    at := 0;
    while at < |txs| && txs[at].hash != hash
      invariant at <= |txs|
      invariant forall i | 0 <= i < at :: txs[i].hash != hash
    {
      at := at + 1;
    }
  }

  // ----- block -----

  /** The gas of the first `n` transactions. */
  function Gas(txs: seq<Execution>, n: nat): nat
    requires n <= |txs|
  {
    if n == 0 then 0 else Gas(txs, n - 1) + txs[n - 1].gasUsed
  }

  /** The number of logs of the first `n` transactions. */
  function LogCount(txs: seq<Execution>, n: nat): nat
    requires n <= |txs|
  {
    if n == 0 then 0 else LogCount(txs, n - 1) + |txs[n - 1].logs|
  }

  function Hashes(txs: seq<Execution>): seq<Hash> {
    seq(|txs|, i requires 0 <= i < |txs| => txs[i].hash)
  }

  /** The mined transactions are the executions in order, each with its index and its first log's. */
  predicate MinedFrom(mined: seq<Mined>, txs: seq<Execution>, hash: Hash) {
    |mined| == |txs| && forall i | 0 <= i < |txs| :: MinedAt(mined, txs, i, hash)
  }

  predicate MinedAt(mined: seq<Mined>, txs: seq<Execution>, i: nat, hash: Hash)
    requires i < |txs| && i < |mined|
  {
    mined[i] == Mined(txs[i], i, LogCount(txs, i), hash)
  }

  class Block {
    var header: Header
    var transactions: seq<Mined>

    constructor FromPending(pending: BlockInfo, txs: seq<Execution>, hashOf: nat -> Hash, rootOf: seq<Hash> -> Hash,
                            emptyRoot: Hash)
      ensures header == Header(pending.number, pending.timestamp, hashOf(pending.number), Gas(txs, |txs|), |txs|,
                               if txs == [] then emptyRoot else rootOf(Hashes(txs)))
      ensures MinedFrom(transactions, txs, header.hash)
    {
      var hash := hashOf(pending.number);
      var gas, mined := MineAll(txs, hash);
      header := Header(pending.number, pending.timestamp, hash, gas, |txs|,
                       if txs == [] then emptyRoot else rootOf(Hashes(txs)));
      transactions := mined;
    }

    method CreateLogMessages() returns (messages: seq<LogMessage>)
      ensures messages == Messages(header, transactions, |transactions|)
    {
      messages := [];
      for i := 0 to |transactions|
        invariant messages == Messages(header, transactions, i)
      {
        var more := TransactionMessages(header, i, transactions[i]);
        messages := messages + more;
      }
    }

    /**
     The block takes the hash of an external block. It succeeds exactly when all timestamps are
     that block's, and then changes nothing but the hashes, which are all the same. A failing
     assertion is met with the header's hash changed and, if the header's timestamp is right, those of
     the transactions before the first odd one.
     */
    method ApplyExternal(hash: Hash, timestamp: nat) returns (ok: bool)
      modifies this
      ensures header == old(header).(hash := hash) && |transactions| == |old(transactions)|
      ensures ok <==> && old(header).timestamp == timestamp
                      && forall i | 0 <= i < |transactions| :: old(transactions)[i].execution.blockTime == timestamp
      ensures ok ==> forall i | 0 <= i < |transactions| :: transactions[i] == old(transactions)[i].(blockHash := hash)
      ensures !ok ==> exists n: nat ::
                && StopsAt(old(header).timestamp, old(transactions), timestamp, n)
                && Partly(transactions, old(transactions), n, hash)
    {
      header := header.(hash := hash);
      ghost var before := transactions;
      if header.timestamp != timestamp {
        assert StopsAt(header.timestamp, before, timestamp, 0) && Partly(transactions, before, 0, hash);
        return false;
      }
      var txs := transactions;
      var i: nat := 0;
      while i < |txs|
        invariant i <= |txs| == |before| && transactions == before
        invariant header == old(header).(hash := hash)
        invariant Partly(txs, before, i, hash)
        invariant forall k | 0 <= k < i :: before[k].execution.blockTime == timestamp
      {
        if txs[i].execution.blockTime != header.timestamp {
          transactions := txs;
          assert StopsAt(header.timestamp, before, timestamp, i) && Partly(transactions, before, i, hash);
          return false;
        }
        txs := txs[i := txs[i].(blockHash := hash)];
        i := i + 1;
      }
      transactions := txs;
      return true;
    }
  }

  /** The assertion that fails: that of the header, or that of the first odd transaction. */
  predicate StopsAt(headerTime: nat, txs: seq<Mined>, timestamp: nat, n: nat) {
    if headerTime != timestamp then n == 0
    else
      && n < |txs| && txs[n].execution.blockTime != timestamp
      && forall i | 0 <= i < n :: txs[i].execution.blockTime == timestamp
  }

  /** The first `n` transactions carry the hash, the others are as they were. */
  predicate Partly(now: seq<Mined>, before: seq<Mined>, n: nat, hash: Hash) {
    && |now| == |before|
    && forall i | 0 <= i < |now| :: now[i] == if i < n then before[i].(blockHash := hash) else before[i]
  }

  method MineAll(txs: seq<Execution>, hash: Hash) returns (gas: nat, mined: seq<Mined>)
    ensures gas == Gas(txs, |txs|) && MinedFrom(mined, txs, hash)
  {
    gas, mined := 0, [];
    var logIndex: nat := 0;
    for i := 0 to |txs|
      invariant gas == Gas(txs, i) && logIndex == LogCount(txs, i)
      invariant |mined| == i
      invariant forall k | 0 <= k < i :: MinedAt(mined, txs, k, hash)
    {
      var m := Mined(txs[i], i, logIndex, hash);
      gas := gas + m.execution.gasUsed;
      assert forall k | 0 <= k < i :: MinedAt(mined, txs, k, hash) ==> MinedAt(mined + [m], txs, k, hash);
      mined := mined + [m];
      logIndex := logIndex + |txs[i].logs|;
    }
  }

  // ----- log messages -----

  function MessageOf(header: Header, txIndex: nat, tx: Mined, i: nat): LogMessage
    requires i < |tx.execution.logs|
  {
    LogMessage(tx.execution.logs[i], tx.execution.hash, txIndex, header.hash, header.number, tx.firstLogIndex + i)
  }

  function MessagesOf(header: Header, txIndex: nat, tx: Mined): seq<LogMessage> {
    seq(|tx.execution.logs|, i requires 0 <= i < |tx.execution.logs| => MessageOf(header, txIndex, tx, i))
  }

  /** The messages of the first `n` transactions, one transaction after the other. */
  function Messages(header: Header, txs: seq<Mined>, n: nat): seq<LogMessage>
    requires n <= |txs|
  {
    if n == 0 then [] else Messages(header, txs, n - 1) + MessagesOf(header, n - 1, txs[n - 1])
  }

  method TransactionMessages(header: Header, txIndex: nat, tx: Mined) returns (messages: seq<LogMessage>)
    ensures messages == MessagesOf(header, txIndex, tx)
  {
    messages := [];
    for i := 0 to |tx.execution.logs|
      invariant messages == MessagesOf(header, txIndex, tx)[..i]
    {
      messages := messages + [MessageOf(header, txIndex, tx, i)];
    }
  }

  lemma {:induction false} MessagesCounted(header: Header, txs: seq<Execution>, mined: seq<Mined>, hash: Hash, n: nat)
    requires MinedFrom(mined, txs, hash) && n <= |txs|
    ensures |Messages(header, mined, n)| == LogCount(txs, n)
  {
    if n == 0 {
    } else {
      assert MinedAt(mined, txs, n - 1, hash);
      MessagesCounted(header, txs, mined, hash, n - 1);
    }
  }

  predicate NumberedFrom(messages: seq<LogMessage>, first: nat) {
    forall k | 0 <= k < |messages| :: messages[k].index == first + k
  }

  lemma {:induction false} MessagesNumbered(header: Header, txs: seq<Execution>, mined: seq<Mined>, hash: Hash, n: nat)
    requires MinedFrom(mined, txs, hash) && n <= |txs|
    ensures NumberedFrom(Messages(header, mined, n), 0)
  {
    if n == 0 {
    } else {
      assert MinedAt(mined, txs, n - 1, hash);
      MessagesCounted(header, txs, mined, hash, n - 1);
      MessagesNumbered(header, txs, mined, hash, n - 1);
    }
  }

  /**
   The log messages of a block built from a pending block are numbered 0, 1, 2, ... without gap or
   repeat across its transactions, whatever header it has by then.
   */
  lemma LogsAreNumbered(header: Header, txs: seq<Execution>, mined: seq<Mined>, hash: Hash)
    requires MinedFrom(mined, txs, hash)
    ensures |Messages(header, mined, |mined|)| == LogCount(txs, |txs|)
    ensures NumberedFrom(Messages(header, mined, |mined|), 0)
  {
    MessagesCounted(header, txs, mined, hash, |txs|);
    MessagesNumbered(header, txs, mined, hash, |txs|);
  }

  /** The messages of a transaction stay where they are when those of later ones are appended. */
  lemma {:induction false} MessagesStay(header: Header, mined: seq<Mined>, i: nat, n: nat, j: nat)
    requires i < n <= |mined| && j < |mined[i].execution.logs|
    ensures |Messages(header, mined, i)| + j < |Messages(header, mined, n)|
    ensures Messages(header, mined, n)[|Messages(header, mined, i)| + j] == MessageOf(header, i, mined[i], j)
    decreases n
  {
    if i == n - 1 {
    } else {
      MessagesStay(header, mined, i, n - 1, j);
    }
  }

  /** Every log of every transaction has its message, at the place given by the logs before it. */
  lemma MessageOrigin(header: Header, txs: seq<Execution>, mined: seq<Mined>, hash: Hash, i: nat, j: nat)
    requires MinedFrom(mined, txs, hash) && i < |txs| && j < |txs[i].logs|
    ensures LogCount(txs, i) + j < |Messages(header, mined, |mined|)|
    ensures Messages(header, mined, |mined|)[LogCount(txs, i) + j]
         == LogMessage(txs[i].logs[j], txs[i].hash, i, header.hash, header.number, LogCount(txs, i) + j)
  {
    assert MinedAt(mined, txs, i, hash);
    MessagesCounted(header, txs, mined, hash, i);
    MessagesStay(header, mined, i, |mined|, j);
  }

  /** After taking an external hash, a block built from a pending block still numbers its logs so. */
  lemma ExternalBlockKeepsNumbers(txs: seq<Execution>, before: seq<Mined>, after: seq<Mined>, local: Hash, hash: Hash)
    requires MinedFrom(before, txs, local) && Partly(after, before, |before|, hash)
    ensures MinedFrom(after, txs, hash)
  {
    forall i | 0 <= i < |txs| ensures MinedAt(after, txs, i, hash) {
      assert MinedAt(before, txs, i, local);
    }
  }
}

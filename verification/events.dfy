/**
 Account transfer events of a mined transaction: ERC-20 transfers are read from its logs (Transfer
 in the Events section of EIP-20), and each account involved gets one event with its debits and
 credits.
 Source: src/ledger/events.rs. The identifier and the time of a publication are not modelled.
 */
module TransferEvents {
  import opened Common

  type Byte = b: int | 0 <= b < 256
  type Address = nat
  type Topic = t: seq<Byte> | |t| == 32 witness seq(32, i => 0)

  datatype Log = Log(
    address: Address, topic0: Option<Topic>, topic1: Option<Topic>, topic2: Option<Topic>, data: seq<Byte>)

  datatype Tx = Tx(
    hash: nat, index: nat, blockNumber: nat, to: Option<Address>, data: seq<Byte>, logs: seq<Log>)

  datatype Transfer = Transfer(token: Address, from: Address, to: Address, amount: nat)

  datatype Direction = Debit | Credit

  datatype Entry = Entry(transfer: Transfer, direction: Direction)

  datatype Event = Event(
    account: Address, hash: nat, index: nat, contract: Address, functionId: seq<Byte>, blockNumber: nat,
    blockTime: nat, transfers: seq<Entry>)

  // ----- transfers in the logs -----

  function BigEndian(bytes: seq<Byte>): nat {
    if bytes == [] then 0 else BigEndian(bytes[..|bytes| - 1]) * 256 + bytes[|bytes| - 1]
  }

  /** A number as `n` bytes, the most significant first. */
  function Word(value: nat, n: nat): (bytes: seq<Byte>)
    ensures |bytes| == n
  {
    if n == 0 then [] else Word(value / 256, n - 1) + [value % 256]
  }

  /** The signature of the event, as its first topic. */
  const TRANSFER_EVENT: Topic := [
    0xdd, 0xf2, 0x52, 0xad, 0x1b, 0xe2, 0xc8, 0x9b, 0x69, 0xc2, 0xb0, 0x68, 0xfc, 0x37, 0x8d, 0xaa,
    0x95, 0x2b, 0xa7, 0xf1, 0x63, 0xc4, 0xa1, 0x16, 0x28, 0xf5, 0x5a, 0x4d, 0xf5, 0x23, 0xb3, 0xef]

  /** The last 20 bytes of a topic. */
  function TopicAddress(topic: Topic): Address {
    BigEndian(topic[12..32])
  }

  function Decoded(log: Log): Option<Transfer> {
    if log.topic0 == Some(TRANSFER_EVENT) && |log.data| == 32 && log.topic1.Some? && log.topic2.Some? then
      Some(Transfer(log.address, TopicAddress(log.topic1.value), TopicAddress(log.topic2.value), BigEndian(log.data)))
    else None
  }

  /** The transfers of the logs, in log order. */
  function Transfers(logs: seq<Log>): seq<Transfer> {
    if logs == [] then []
    else
      Transfers(logs[..|logs| - 1])
      + (match Decoded(logs[|logs| - 1]) case Some(t) => [t] case None => [])
  }

  // ----- the logs of an ERC-20 transfer -----

  function Power256(n: nat): nat {
    if n == 0 then 1 else 256 * Power256(n - 1)
  }

  lemma {:induction false} BigEndianOfWord(value: nat, n: nat)
    requires value < Power256(n)
    ensures BigEndian(Word(value, n)) == value
  {
    if n == 0 {
    } else {
      BigEndianOfWord(value / 256, n - 1);
      assert Word(value, n)[..n - 1] == Word(value / 256, n - 1);
    }
  }

  lemma {:induction false} TailOfWord(value: nat, n: nat, m: nat)
    requires m <= n
    ensures Word(value, n)[n - m..] == Word(value, m)
    decreases m
  {
    if m == 0 {
    } else {
      TailOfWord(value / 256, n - 1, m - 1);
      assert Word(value, n)[n - m..] == Word(value / 256, n - 1)[n - m..] + [value % 256];
    }
  }

  /** Whatever the other bytes of a topic are, its address is the last 20. */
  lemma AddressIsTheTail(high: seq<Byte>, address: Address)
    requires |high| == 12 && address < Power256(20)
    ensures TopicAddress(high + Word(address, 20)) == address
  {
    BigEndianOfWord(address, 20);
    assert (high + Word(address, 20))[12..32] == Word(address, 20);
  }

  /** The log an ERC-20 contract writes: both parties as indexed words, the amount as data. */
  function TransferLog(t: Transfer): Log {
    Log(t.token, Some(TRANSFER_EVENT), Some(Word(t.from, 32)), Some(Word(t.to, 32)), Word(t.amount, 32))
  }

  lemma AddressOfWord(address: Address)
    requires address < Power256(20)
    ensures TopicAddress(Word(address, 32)) == address
  {
    TailOfWord(address, 32, 20);
    BigEndianOfWord(address, 20);
    assert Word(address, 32)[12..32] == Word(address, 32)[12..];
  }

  /** It is read as that transfer, for every 20-byte address and every 32-byte amount. */
  lemma TransferRoundTrip(t: Transfer)
    requires t.from < Power256(20) && t.to < Power256(20) && t.amount < Power256(32)
    ensures Decoded(TransferLog(t)) == Some(t)
  {
    AddressOfWord(t.from);
    AddressOfWord(t.to);
    BigEndianOfWord(t.amount, 32);
  }

  /** Exactly the logs with that event, two more topics and a word of data are transfers. */
  lemma DecodedIff(log: Log)
    ensures Decoded(log).None? <==>
            log.topic0 != Some(TRANSFER_EVENT) || log.topic1.None? || log.topic2.None? || |log.data| != 32
  {
  }

  function DecodedAt(logs: seq<Log>): seq<nat> {
    if logs == [] then []
    else
      var last := |logs| - 1;
      DecodedAt(logs[..last]) + (if Decoded(logs[last]).Some? then [last] else [])
  }

  lemma {:induction false} DecodedAtIsSorted(logs: seq<Log>)
    ensures var at := DecodedAt(logs);
            && (forall i | 0 <= i < |at| :: at[i] < |logs|)
            && (forall i, j | 0 <= i < j < |at| :: at[i] < at[j])
            && (forall k | 0 <= k < |logs| :: k in at <==> Decoded(logs[k]).Some?)
  {
    if logs == [] {
    } else {
      DecodedAtIsSorted(logs[..|logs| - 1]);
    }
  }

  lemma {:induction false} TransfersAtPositions(logs: seq<Log>)
    ensures var at, transfers := DecodedAt(logs), Transfers(logs);
            && |transfers| == |at|
            && forall i | 0 <= i < |at| :: at[i] < |logs| && Decoded(logs[at[i]]) == Some(transfers[i])
  {
    if logs == [] {
    } else {
      var before := logs[..|logs| - 1];
      TransfersAtPositions(before);
      assert forall k | 0 <= k < |before| :: before[k] == logs[k];
    }
  }

  /** The transfers are those of the transfer logs, one each, in log order. */
  lemma TransfersKeepLogOrder(logs: seq<Log>)
    ensures var at, transfers := DecodedAt(logs), Transfers(logs);
            && |transfers| == |at|
            && (forall i | 0 <= i < |at| :: at[i] < |logs| && Decoded(logs[at[i]]) == Some(transfers[i]))
            && (forall i, j | 0 <= i < j < |at| :: at[i] < at[j])
            && (forall k | 0 <= k < |logs| :: k in at <==> Decoded(logs[k]).Some?)
  {
    DecodedAtIsSorted(logs);
    TransfersAtPositions(logs);
  }

  // ----- events -----

  function Involved(transfers: seq<Transfer>): set<Address> {
    (set t | t in transfers :: t.from) + (set t | t in transfers :: t.to)
  }

  /** What one account sees of a transfer: as sender a debit, otherwise as receiver a credit. */
  function Seen(account: Address, t: Transfer): seq<Entry> {
    if account == t.from then [Entry(t, Debit)] else if account == t.to then [Entry(t, Credit)] else []
  }

  function Entries(account: Address, transfers: seq<Transfer>): seq<Entry> {
    if transfers == [] then []
    else Entries(account, transfers[..|transfers| - 1]) + Seen(account, transfers[|transfers| - 1])
  }

  /** Where in the list an account is involved. */
  function Positions(account: Address, transfers: seq<Transfer>): seq<nat> {
    if transfers == [] then []
    else
      var last := |transfers| - 1;
      Positions(account, transfers[..last])
      + (if account == transfers[last].from || account == transfers[last].to then [last] else [])
  }

  predicate Involves(t: Transfer, account: Address) {
    account == t.from || account == t.to
  }

  /** The positions go up, and are all those of transfers that involve the account. */
  lemma {:induction false} PositionsAreThose(account: Address, transfers: seq<Transfer>)
    ensures var at := Positions(account, transfers);
            && (forall i | 0 <= i < |at| :: at[i] < |transfers|)
            && (forall i, j | 0 <= i < j < |at| :: at[i] < at[j])
            && (forall k | 0 <= k < |transfers| :: k in at <==> Involves(transfers[k], account))
  {
    if transfers == [] {
    } else {
      PositionsAreThose(account, transfers[..|transfers| - 1]);
    }
  }

  predicate EntryOf(e: Entry, account: Address, t: Transfer) {
    e.transfer == t && (e.direction.Debit? <==> account == t.from)
  }

  lemma {:induction false} EntriesAtPositions(account: Address, transfers: seq<Transfer>)
    ensures var at, entries := Positions(account, transfers), Entries(account, transfers);
            && |entries| == |at|
            && forall i | 0 <= i < |at| :: at[i] < |transfers| && EntryOf(entries[i], account, transfers[at[i]])
  {
    if transfers == [] {
    } else {
      var before := transfers[..|transfers| - 1];
      EntriesAtPositions(account, before);
      assert forall k | 0 <= k < |before| :: before[k] == transfers[k];
    }
  }

  /** The entries of an account are the transfers it is involved in, all of them, in log order. */
  lemma EntriesKeepLogOrder(account: Address, transfers: seq<Transfer>)
    ensures var at, entries := Positions(account, transfers), Entries(account, transfers);
            && |entries| == |at|
            && (forall i | 0 <= i < |at| :: at[i] < |transfers| && EntryOf(entries[i], account, transfers[at[i]]))
            && (forall i, j | 0 <= i < j < |at| :: at[i] < at[j])
            && (forall k | 0 <= k < |transfers| :: k in at <==> Involves(transfers[k], account))
  {
    PositionsAreThose(account, transfers);
    EntriesAtPositions(account, transfers);
  }

  method EntriesOf(account: Address, transfers: seq<Transfer>) returns (entries: seq<Entry>)
    ensures entries == Entries(account, transfers)
  {
    entries := [];
    for i := 0 to |transfers|
      invariant entries == Entries(account, transfers[..i])
    {
      var t := transfers[i];
      assert transfers[..i + 1][..i] == transfers[..i];
      if account != t.from && account != t.to {
        continue;
      }
      var direction := if account == t.from then Debit else Credit;
      entries := entries + [Entry(t, direction)];
    }
    assert transfers[..|transfers|] == transfers;
  }

  method InvolvedIn(transfers: seq<Transfer>) returns (accounts: set<Address>)
    ensures accounts == Involved(transfers)
  {
    accounts := {};
    for i := 0 to |transfers|
      invariant accounts == Involved(transfers[..i])
    {
      accounts := accounts + {transfers[i].from} + {transfers[i].to};
      assert transfers[..i + 1] == transfers[..i] + [transfers[i]];
      assert transfers[i] in transfers[..i + 1];
    }
    assert transfers[..|transfers|] == transfers;
  }

  function Accounts(events: seq<Event>): seq<Address> {
    seq(|events|, i requires 0 <= i < |events| => events[i].account)
  }

  predicate Distinct(accounts: seq<Address>) {
    forall i, j | 0 <= i < j < |accounts| :: accounts[i] != accounts[j]
  }

  /** An event says what its account saw, and which call it comes from. */
  predicate Describes(e: Event, tx: Tx, blockTime: nat) {
    && e.transfers == Entries(e.account, Transfers(tx.logs))
    && e.hash == tx.hash && e.index == tx.index && e.blockNumber == tx.blockNumber && e.blockTime == blockTime
    && e.contract == (if tx.to.Some? then tx.to.value else 0)
    && |e.functionId| == 4 && e.functionId <= tx.data
  }

  /** One event for each of the accounts and no other, in any order. */
  ghost predicate EventsFor(events: seq<Event>, accounts: set<Address>, tx: Tx, blockTime: nat) {
    && Distinct(Accounts(events))
    && (forall a :: a in Accounts(events) <==> a in accounts)
    && forall i | 0 <= i < |events| :: Describes(events[i], tx, blockTime)
  }

  ghost predicate EventsOf(events: seq<Event>, tx: Tx, blockTime: nat) {
    EventsFor(events, Involved(Transfers(tx.logs)), tx, blockTime)
  }

  lemma OneMoreEvent(events: seq<Event>, accounts: set<Address>, tx: Tx, blockTime: nat, e: Event)
    requires EventsFor(events, accounts, tx, blockTime) && Describes(e, tx, blockTime) && e.account !in accounts
    ensures EventsFor(events + [e], accounts + {e.account}, tx, blockTime)
  {
    assert Accounts(events + [e]) == Accounts(events) + [e.account];
    assert forall i | 0 <= i < |events| :: Accounts(events)[i] in Accounts(events);
  }

  lemma InvolvedIff(transfers: seq<Transfer>)
    ensures Involved(transfers) != {} <==> transfers != []
  {
    if transfers != [] {
      assert transfers[0] in transfers;
      assert transfers[0].from in Involved(transfers);
    }
  }

  method EventFor(account: Address, transfers: seq<Transfer>, tx: Tx, blockTime: nat) returns (e: Event)
    requires |tx.data| >= 4 && transfers == Transfers(tx.logs)
    ensures e.account == account && Describes(e, tx, blockTime)
  {
    var entries := EntriesOf(account, transfers);
    var contract := if tx.to.Some? then tx.to.value else 0;
    e := Event(account, tx.hash, tx.index, contract, tx.data[0..4], tx.blockNumber, blockTime, entries);
  }

  /**
   The events of a transaction, one for each account involved and no other, in any order. There is
   no result, because slicing the call data panics, exactly when there is a transfer and the data
   has no four bytes.
   */
  method TransactionToEvents(blockTime: nat, tx: Tx) returns (events: Option<seq<Event>>)
    ensures events.None? <==> Transfers(tx.logs) != [] && |tx.data| < 4
    ensures events.Some? ==> EventsOf(events.value, tx, blockTime)
  {
    var transfers := Transfers(tx.logs);
    var accounts := InvolvedIn(transfers);
    ghost var involved, done := accounts, {};
    InvolvedIff(transfers);
    var list: seq<Event> := [];
    while accounts != {}
      invariant done + accounts == involved && done !! accounts
      invariant EventsFor(list, done, tx, blockTime)
      invariant done != {} ==> |tx.data| >= 4
      decreases accounts
    {
      var account :| account in accounts;
      if |tx.data| < 4 {
        return None;
      }
      var event := EventFor(account, transfers, tx, blockTime);
      OneMoreEvent(list, done, tx, blockTime, event);
      list := list + [event];
      accounts := accounts - {account};
      done := done + {account};
    }
    assert done == involved;
    return Some(list);
  }

  // ----- conservation -----

  type Weight = Transfer -> nat

  /** A sum over the entries of one direction. */
  function Weigh(entries: seq<Entry>, direction: Direction, f: Weight): nat {
    if entries == [] then 0
    else
      Weigh(entries[..|entries| - 1], direction, f)
      + (var e := entries[|entries| - 1]; if e.direction == direction then f(e.transfer) else 0)
  }

  /** The same sum over all events. */
  function WeighAll(events: seq<Event>, direction: Direction, f: Weight): nat {
    if events == [] then 0
    else Weigh(events[0].transfers, direction, f) + WeighAll(events[1..], direction, f)
  }

  function Sum(transfers: seq<Transfer>, f: Weight): nat {
    if transfers == [] then 0 else Sum(transfers[..|transfers| - 1], f) + f(transfers[|transfers| - 1])
  }

  function BetweenDistinct(f: Weight): Weight {
    (t: Transfer) => if t.from == t.to then 0 else f(t)
  }

  /** What the accounts, taken together, see of a list of transfers. */
  function Shares(accounts: seq<Address>, transfers: seq<Transfer>, direction: Direction, f: Weight): nat {
    if accounts == [] then 0
    else Weigh(Entries(accounts[0], transfers), direction, f) + Shares(accounts[1..], transfers, direction, f)
  }

  /** The share of one transfer: its sender's debit, or its receiver's credit unless that is the sender. */
  function Share(a: Address, t: Transfer, direction: Direction, f: Weight): nat {
    if direction == Debit then (if a == t.from then f(t) else 0)
    else if a == t.to && a != t.from then f(t) else 0
  }

  lemma WeighSeen(a: Address, entries: seq<Entry>, t: Transfer, direction: Direction, f: Weight)
    ensures Weigh(entries + Seen(a, t), direction, f) == Weigh(entries, direction, f) + Share(a, t, direction, f)
  {
    var all := entries + Seen(a, t);
    if Seen(a, t) == [] {
      assert all == entries;
    } else {
      assert all[..|all| - 1] == entries;
    }
  }

  function ShareOf(accounts: seq<Address>, t: Transfer, direction: Direction, f: Weight): nat {
    if accounts == [] then 0 else Share(accounts[0], t, direction, f) + ShareOf(accounts[1..], t, direction, f)
  }

  lemma {:induction false} SharesGrow(accounts: seq<Address>, transfers: seq<Transfer>, t: Transfer,
                                      direction: Direction, f: Weight)
    ensures Shares(accounts, transfers + [t], direction, f)
         == Shares(accounts, transfers, direction, f) + ShareOf(accounts, t, direction, f)
  {
    if accounts == [] {
    } else {
      SharesGrow(accounts[1..], transfers, t, direction, f);
      assert (transfers + [t])[..|transfers|] == transfers;
      WeighSeen(accounts[0], Entries(accounts[0], transfers), t, direction, f);
    }
  }

  /** A transfer is debited once, to its sender, and credited once, unless it is to its sender. */
  lemma {:induction false} ShareIsWhole(accounts: seq<Address>, t: Transfer, direction: Direction, f: Weight)
    requires Distinct(accounts)
    ensures ShareOf(accounts, t, direction, f) ==
            if direction == Debit then (if t.from in accounts then f(t) else 0)
            else if t.to in accounts && t.from != t.to then f(t) else 0
  {
    if accounts == [] {
    } else {
      ShareIsWhole(accounts[1..], t, direction, f);
      assert accounts == [accounts[0]] + accounts[1..];
    }
  }

  lemma {:induction false} SharesAreWhole(accounts: seq<Address>, transfers: seq<Transfer>, f: Weight)
    requires Distinct(accounts)
    requires forall t | t in transfers :: t.from in accounts && t.to in accounts
    ensures Shares(accounts, transfers, Debit, f) == Sum(transfers, f)
    ensures Shares(accounts, transfers, Credit, f) == Sum(transfers, BetweenDistinct(f))
  {
    if transfers == [] {
      NoShares(accounts, Debit, f);
      NoShares(accounts, Credit, f);
    } else {
      var before, t := transfers[..|transfers| - 1], transfers[|transfers| - 1];
      assert transfers == before + [t] && t in transfers;
      SharesAreWhole(accounts, before, f);
      SharesGrow(accounts, before, t, Debit, f);
      SharesGrow(accounts, before, t, Credit, f);
      ShareIsWhole(accounts, t, Debit, f);
      ShareIsWhole(accounts, t, Credit, f);
    }
  }

  lemma {:induction false} NoShares(accounts: seq<Address>, direction: Direction, f: Weight)
    ensures Shares(accounts, [], direction, f) == 0
  {
    if accounts == [] {
    } else {
      NoShares(accounts[1..], direction, f);
    }
  }

  lemma {:induction false} WeighAllIsShares(
    events: seq<Event>, transfers: seq<Transfer>, direction: Direction, f: Weight)
    requires forall i | 0 <= i < |events| :: events[i].transfers == Entries(events[i].account, transfers)
    ensures WeighAll(events, direction, f) == Shares(Accounts(events), transfers, direction, f)
  {
    if events == [] {
    } else {
      WeighAllIsShares(events[1..], transfers, direction, f);
      assert Accounts(events)[1..] == Accounts(events[1..]);
    }
  }

  /**
   However transfers are weighed, the debits of all events weigh as much as all transfers, and the
   credits as much as those between distinct parties.
   */
  lemma TransfersAreConserved(events: seq<Event>, tx: Tx, blockTime: nat, f: Weight)
    requires EventsOf(events, tx, blockTime)
    ensures WeighAll(events, Debit, f) == Sum(Transfers(tx.logs), f)
    ensures WeighAll(events, Credit, f) == Sum(Transfers(tx.logs), BetweenDistinct(f))
  {
    var transfers := Transfers(tx.logs);
    WeighAllIsShares(events, transfers, Debit, f);
    WeighAllIsShares(events, transfers, Credit, f);
    SharesAreWhole(Accounts(events), transfers, f);
  }

  // ----- two ways to weigh -----

  function OneOf(x: Transfer): Weight {
    (t: Transfer) => if t == x then 1 else 0
  }

  function AmountOf(token: Address): Weight {
    (t: Transfer) => if t.token == token then t.amount else 0
  }

  function SelfAmountOf(token: Address): Weight {
    (t: Transfer) => if t.token == token && t.from == t.to then t.amount else 0
  }

  lemma {:induction false} SumCounts(transfers: seq<Transfer>, x: Transfer)
    ensures Sum(transfers, OneOf(x)) == multiset(transfers)[x]
    ensures Sum(transfers, BetweenDistinct(OneOf(x))) == if x.from == x.to then 0 else multiset(transfers)[x]
  {
    if transfers == [] {
    } else {
      SumCounts(transfers[..|transfers| - 1], x);
      assert transfers == transfers[..|transfers| - 1] + [transfers[|transfers| - 1]];
    }
  }

  /**
   Every transfer shows up as a debit as often as it is in the logs, and as a credit as often, or
   not at all when the sender is the receiver.
   */
  lemma EachTransferOnce(events: seq<Event>, tx: Tx, blockTime: nat, x: Transfer)
    requires EventsOf(events, tx, blockTime)
    ensures WeighAll(events, Debit, OneOf(x)) == multiset(Transfers(tx.logs))[x]
    ensures WeighAll(events, Credit, OneOf(x)) == if x.from == x.to then 0 else multiset(Transfers(tx.logs))[x]
  {
    TransfersAreConserved(events, tx, blockTime, OneOf(x));
    SumCounts(Transfers(tx.logs), x);
  }

  lemma {:induction false} SumSplits(transfers: seq<Transfer>, token: Address)
    ensures Sum(transfers, AmountOf(token))
         == Sum(transfers, BetweenDistinct(AmountOf(token))) + Sum(transfers, SelfAmountOf(token))
  {
    if transfers == [] {
    } else {
      SumSplits(transfers[..|transfers| - 1], token);
    }
  }

  /** Per token, debits exceed credits by what accounts sent to themselves. */
  lemma DebitsMinusCredits(events: seq<Event>, tx: Tx, blockTime: nat, token: Address)
    requires EventsOf(events, tx, blockTime)
    ensures WeighAll(events, Debit, AmountOf(token)) - WeighAll(events, Credit, AmountOf(token))
         == Sum(Transfers(tx.logs), SelfAmountOf(token))
  {
    TransfersAreConserved(events, tx, blockTime, AmountOf(token));
    SumSplits(Transfers(tx.logs), token);
  }
}

/**
 * submitAndWaitBatch: the items of a batch are grouped by their source
 * account; each account's queue is submitted in order, the reported
 * Sequence of each success is carried into the next item, and the first
 * failure stops that account's queue, sending the items after it to
 * `unsubmitted`.
 *
 * The reliable submission of one item is passed in as `attempt`. The
 * accounts, concurrent in the client, run here one after another in the
 * order they first appear in the batch.
 */
module Batch {
  import opened Wrappers
  import opened Submit
  import RequestTable

  datatype Item = Item(transaction: Transaction, opts: Options)

  /** What submitAndWait did with one item: its validated response, or the error it raised. */
  type Submitter = Item -> Result<TxResponse, SubmitError>

  /**
   * The result of running some queues: the three lists of a batch result,
   * and (for the proofs) every item handed to `attempt`, as it was then.
   */
  datatype Run = Run(success: seq<TxResponse>, error: seq<SubmitError>, unsubmitted: seq<Item>, attempted: seq<Item>)

  function AccountOf(item: Item): string
  {
    item.transaction.account
  }

  /** The distinct accounts of a batch, in the order they first appear: the key order of batchMap. */
  function Accounts(items: seq<Item>): (accounts: seq<string>)
    ensures forall i, j :: 0 <= i < j < |accounts| ==> accounts[i] != accounts[j]
  {
    if items == [] then []
    else
      var init := items[..|items| - 1];
      var last := items[|items| - 1];
      var accounts := Accounts(init);
      if AccountOf(last) in accounts then accounts else accounts + [AccountOf(last)]
  }

  /** The queue of one account: its items, in batch order. */
  function Queue(items: seq<Item>, account: string): (queue: seq<Item>)
    ensures forall i :: 0 <= i < |queue| ==> AccountOf(queue[i]) == account
  {
    if items == [] then []
    else
      var init := items[..|items| - 1];
      var last := items[|items| - 1];
      Queue(init, account) + (if AccountOf(last) == account then [last] else [])
  }

  /** Item `item` with the Sequence that follows a reported Sequence `s`. */
  function Resequenced(item: Item, s: int): Item
  {
    item.(transaction := item.transaction.(sequence := Some(s + 1)))
  }

  /** The rest of a queue after a success that reported Sequence `reported`: its head resequenced if there is one. */
  function RepairNext(rest: seq<Item>, reported: Option<int>): (repaired: seq<Item>)
    ensures |repaired| == |rest|
    ensures forall i :: 0 < i < |rest| ==> repaired[i] == rest[i]
  {
    if |rest| > 0 && reported.Some? then rest[0 := Resequenced(rest[0], reported.value)] else rest
  }

  /** The item that follows a success with reported Sequence `reported`, as it is attempted. */
  function Repaired(item: Item, reported: Option<int>): (repaired: Item)
    ensures repaired.opts == item.opts
    ensures repaired.transaction == item.transaction.(sequence := repaired.transaction.sequence)
    ensures reported.Some? ==> repaired.transaction.sequence == Some(reported.value + 1)
    ensures reported.None? ==> repaired == item
  {
    match reported
    case None => item
    case Some(s) => Resequenced(item, s)
  }

  /** One account's queue, run in order until the first failure. */
  function RunQueue(queue: seq<Item>, attempt: Submitter): (r: Run)
    ensures |r.success| + |r.error| + |r.unsubmitted| == |queue|
    ensures |r.error| <= 1
    ensures |r.attempted| == |r.success| + |r.error|
    decreases |queue|
  {
    if queue == [] then Run([], [], [], [])
    else match attempt(queue[0])
      case Failure(e) => Run([], [e], queue[1..], [queue[0]])
      case Success(response) =>
        var r := RunQueue(RepairNext(queue[1..], response.sequence), attempt);
        Run([response] + r.success, r.error, r.unsubmitted, [queue[0]] + r.attempted)
  }

  /**
   * Fail-fast with sequence repair: the items before the first failure
   * succeed in order, each one after the first carrying the Sequence its
   * predecessor reported (plus one) and otherwise unchanged; the failing
   * item's error is the only error; every later item is left unsubmitted,
   * unchanged and unattempted.
   */
  lemma {:induction false} QueueFailsFast(queue: seq<Item>, attempt: Submitter)
    ensures var r := RunQueue(queue, attempt);
            r.unsubmitted == queue[|r.attempted|..] &&
            (forall i :: 0 <= i < |r.success| ==> attempt(r.attempted[i]) == Success(r.success[i])) &&
            (|r.error| == 1 ==> attempt(r.attempted[|r.success|]) == Failure(r.error[0])) &&
            (r.error == [] ==> |r.success| == |queue|)
    decreases |queue|
  {
    if queue != [] && attempt(queue[0]).Success? {
      QueueFailsFast(RepairNext(queue[1..], attempt(queue[0]).value.sequence), attempt);
    }
  }

  /**
   * Sequence repair: the first item is attempted as it is, and every later
   * attempted item is its queue entry with at most the Sequence changed, to
   * the Sequence the previous success reported plus one.
   */
  lemma {:induction false} QueueRepairsSequence(queue: seq<Item>, attempt: Submitter)
    ensures var r := RunQueue(queue, attempt);
            (|r.attempted| > 0 ==> r.attempted[0] == queue[0]) &&
            (forall i :: 0 < i < |r.attempted| ==> r.attempted[i] == Repaired(queue[i], r.success[i - 1].sequence))
    decreases |queue|
  {
    if queue != [] && attempt(queue[0]).Success? {
      var response := attempt(queue[0]).value;
      var rest := RepairNext(queue[1..], response.sequence);
      QueueRepairsSequence(rest, attempt);
      var r := RunQueue(rest, attempt);
      assert |r.attempted| > 0 ==> r.attempted[0] == Repaired(queue[1], response.sequence);
    }
  }

  /** Two runs, one after the other. */
  function Then(first: Run, second: Run): Run
  {
    Run(first.success + second.success, first.error + second.error,
        first.unsubmitted + second.unsubmitted, first.attempted + second.attempted)
  }

  /** How many items the queues of `accounts` hold between them. */
  function Queued(items: seq<Item>, accounts: seq<string>): nat
  {
    if accounts == [] then 0
    else Queued(items, accounts[..|accounts| - 1]) + |Queue(items, accounts[|accounts| - 1])|
  }

  /** The queues of `accounts`, run in turn. */
  function RunAccounts(items: seq<Item>, accounts: seq<string>, attempt: Submitter): (r: Run)
    ensures |r.success| + |r.error| + |r.unsubmitted| == Queued(items, accounts)
    ensures |r.error| <= |accounts|
    ensures |r.attempted| == |r.success| + |r.error|
  {
    if accounts == [] then Run([], [], [], [])
    else
      Then(RunAccounts(items, accounts[..|accounts| - 1], attempt),
           RunQueue(Queue(items, accounts[|accounts| - 1]), attempt))
  }

  /**
   * The result of submitAndWaitBatch on `items`. Every item ends up in
   * exactly one of the lists, counting an attempted item once (its response
   * or its error), and no account yields more than one error.
   */
  function RunBatch(items: seq<Item>, attempt: Submitter): (r: Run)
    ensures |r.success| + |r.error| + |r.unsubmitted| == |items|
    ensures |r.error| <= |Accounts(items)|
    ensures |r.attempted| == |r.success| + |r.error|
  {
    PartitionIsExact(items);
    RunAccounts(items, Accounts(items), attempt)
  }

  /** An account no item names has an empty queue. */
  lemma {:induction false} QueueOfAbsentAccount(items: seq<Item>, account: string)
    requires account !in Accounts(items)
    ensures Queue(items, account) == []
  {
    if items != [] {
      var init := items[..|items| - 1];
      assert AccountOf(items[|items| - 1]) in Accounts(items);
      assert forall a :: a in Accounts(init) ==> a in Accounts(items);
      QueueOfAbsentAccount(init, account);
    }
  }

  /** An account's queue holds exactly the batch's items that name it. */
  lemma {:induction false} QueueMembers(items: seq<Item>, account: string, x: Item)
    ensures x in Queue(items, account) <==> x in items && AccountOf(x) == account
  {
    if items != [] {
      var init := items[..|items| - 1];
      var last := items[|items| - 1];
      assert items == init + [last];
      QueueMembers(init, account, x);
    }
  }

  /** An account is a key of batchMap exactly when some item of the batch names it. */
  lemma {:induction false} AccountsOfItems(items: seq<Item>, account: string)
    ensures account in Accounts(items) <==> exists i :: 0 <= i < |items| && AccountOf(items[i]) == account
  {
    if items != [] {
      var init := items[..|items| - 1];
      AccountsOfItems(init, account);
      if exists i :: 0 <= i < |init| && AccountOf(init[i]) == account {
        var i :| 0 <= i < |init| && AccountOf(init[i]) == account;
        assert AccountOf(items[i]) == account;
      }
      if exists i :: 0 <= i < |items| && AccountOf(items[i]) == account {
        var i :| 0 <= i < |items| && AccountOf(items[i]) == account;
        if i < |init| {
          assert AccountOf(init[i]) == account;
        }
      }
    }
  }

  /** Adding item `x` to a batch adds it to its own account's queue and to no other. */
  lemma {:induction false} QueuedAfterAppend(items: seq<Item>, x: Item, accounts: seq<string>)
    requires forall i, j :: 0 <= i < j < |accounts| ==> accounts[i] != accounts[j]
    ensures Queued(items + [x], accounts) == Queued(items, accounts) + (if AccountOf(x) in accounts then 1 else 0)
  {
    if accounts != [] {
      var init := accounts[..|accounts| - 1];
      var a := accounts[|accounts| - 1];
      assert accounts == init + [a];
      assert (items + [x])[..|items|] == items;
      QueuedAfterAppend(items, x, init);
    }
  }

  /** The queues of a batch's accounts hold exactly its items: each item lands in exactly one queue. */
  lemma {:induction false} PartitionIsExact(items: seq<Item>)
    ensures Queued(items, Accounts(items)) == |items|
  {
    if items != [] {
      var init := items[..|items| - 1];
      var last := items[|items| - 1];
      assert items == init + [last];
      PartitionIsExact(init);
      var accounts := Accounts(init);
      QueuedAfterAppend(init, last, accounts);
      if AccountOf(last) !in accounts {
        var extended := accounts + [AccountOf(last)];
        assert extended[..|extended| - 1] == accounts;
        QueueOfAbsentAccount(init, AccountOf(last));
        assert Queue(items, AccountOf(last)) == [last];
      }
    }
  }

  /** A queue whose every item belongs to `account` runs the same under two oracles that agree on that account. */
  lemma {:induction false} QueueIsolated(queue: seq<Item>, account: string, attempt: Submitter, attempt': Submitter)
    requires forall x :: x in queue ==> AccountOf(x) == account
    requires forall x :: AccountOf(x) == account ==> attempt(x) == attempt'(x)
    ensures RunQueue(queue, attempt) == RunQueue(queue, attempt')
    decreases |queue|
  {
    if queue != [] && attempt(queue[0]).Success? {
      var rest := RepairNext(queue[1..], attempt(queue[0]).value.sequence);
      forall x | x in rest
        ensures AccountOf(x) == account
      {
        var i :| 0 <= i < |rest| && rest[i] == x;
        assert AccountOf(rest[i]) == AccountOf(queue[i + 1]);
      }
      QueueIsolated(rest, account, attempt, attempt');
    }
  }

  /** What one account's queue produces depends only on how that account's items fare. */
  lemma AccountsAreIndependent(items: seq<Item>, account: string, attempt: Submitter, attempt': Submitter)
    requires forall x :: AccountOf(x) == account ==> attempt(x) == attempt'(x)
    ensures RunQueue(Queue(items, account), attempt) == RunQueue(Queue(items, account), attempt')
  {
    forall x | x in Queue(items, account)
      ensures AccountOf(x) == account
    {
      QueueMembers(items, account, x);
    }
    QueueIsolated(Queue(items, account), account, attempt, attempt');
  }

  /** The batch result the client fills in; the account workers append to it. */
  class BatchResult {
    var success: seq<TxResponse>
    var error: seq<SubmitError>
    var unsubmitted: seq<Item>

    constructor ()
      ensures success == [] && error == [] && unsubmitted == []
    {
      success := [];
      error := [];
      unsubmitted := [];
    }
  }

  /** Group a batch by account: batchMap, and its keys in insertion order. */
  method Partition(items: seq<Item>) returns (batchMap: map<string, seq<Item>>, keys: seq<string>)
    ensures keys == Accounts(items)
    ensures forall a :: a in batchMap <==> a in keys
    ensures forall a :: a in batchMap ==> batchMap[a] == Queue(items, a)
  {
    batchMap := map[];
    keys := [];
    for i := 0 to |items|
      invariant keys == Accounts(items[..i])
      invariant forall a :: a in batchMap <==> a in keys
      invariant forall a :: a in batchMap ==> batchMap[a] == Queue(items[..i], a)
    {
      assert items[..i + 1][..i] == items[..i];
      var account := items[i].transaction.account;
      if account !in batchMap {
        batchMap := batchMap[account := []];
        keys := keys + [account];
        QueueOfAbsentAccount(items[..i], account);
      }
      batchMap := batchMap[account := batchMap[account] + [items[i]]];
    }
    assert items[..|items|] == items;
  }

  /**
   * submitAndWaitBatchHelper: run the queue batchMap holds for `account`,
   * appending to `result`, then drop the account from batchMap. The caller
   * always has the account in batchMap; `missing` is the throw otherwise.
   */
  method SubmitAndWaitBatchHelper(account: string, batchMap: map<string, seq<Item>>, result: BatchResult, attempt: Submitter)
    returns (missing: bool, remaining: map<string, seq<Item>>)
    modifies result
    ensures missing <==> account !in batchMap
    ensures missing ==> remaining == batchMap && unchanged(result)
    ensures !missing ==>
              var r := RunQueue(batchMap[account], attempt);
              remaining == batchMap - {account} &&
              result.success == old(result.success) + r.success &&
              result.error == old(result.error) + r.error &&
              result.unsubmitted == old(result.unsubmitted) + r.unsubmitted
  {
    if account !in batchMap {
      return true, batchMap;
    }
    missing := false;
    var transactions := batchMap[account];
    ghost var full := RunQueue(transactions, attempt);
    var idx := 0;
    while idx < |transactions|
      invariant 0 <= idx <= |transactions| == |batchMap[account]|
      invariant var r := RunQueue(transactions[idx..], attempt);
                result.success + r.success == old(result.success) + full.success &&
                result.error == old(result.error) && r.error == full.error &&
                result.unsubmitted == old(result.unsubmitted) && r.unsubmitted == full.unsubmitted
      decreases |transactions| - idx
    {
      var tx := transactions[idx];
      assert transactions[idx..][1..] == transactions[idx + 1..];
      match attempt(tx)
      case Success(txResponse) =>
        ghost var rest := RunQueue(RepairNext(transactions[idx + 1..], txResponse.sequence), attempt);
        assert result.success + ([txResponse] + rest.success) == (result.success + [txResponse]) + rest.success;
        result.success := result.success + [txResponse];
        ghost var before := transactions;
        var nextTxIndex := idx + 1;
        if nextTxIndex < |transactions| && txResponse.sequence.Some? {
          transactions := transactions[nextTxIndex := Resequenced(transactions[nextTxIndex], txResponse.sequence.value)];
        }
        assert transactions[idx + 1..] == RepairNext(before[idx + 1..], txResponse.sequence);
        idx := idx + 1;
      case Failure(err) =>
        result.error := result.error + [err];
        result.unsubmitted := result.unsubmitted + transactions[idx + 1..];
        break;
    }
    remaining := batchMap - {account};
  }

  /**
   * submitAndWaitBatch: group the batch by account, run every account's
   * queue, and return what they appended.
   */
  method SubmitAndWaitBatch(transactions: seq<Item>, attempt: Submitter) returns (result: BatchResult)
    ensures fresh(result)
    ensures var r := RunBatch(transactions, attempt);
            result.success == r.success && result.error == r.error && result.unsubmitted == r.unsubmitted
  {
    result := new BatchResult();
    var batchMap, accounts := Partition(transactions);
    RunWorkers(transactions, accounts, batchMap, result, attempt);
  }

  /** Start one worker per key of batchMap, in key order, and wait for them all. */
  method RunWorkers(items: seq<Item>, accounts: seq<string>, batchMap: map<string, seq<Item>>,
                    result: BatchResult, attempt: Submitter)
    requires forall i, j :: 0 <= i < j < |accounts| ==> accounts[i] != accounts[j]
    requires forall a :: a in accounts ==> a in batchMap && batchMap[a] == Queue(items, a)
    requires result.success == [] && result.error == [] && result.unsubmitted == []
    modifies result
    ensures var r := RunAccounts(items, accounts, attempt);
            result.success == r.success && result.error == r.error && result.unsubmitted == r.unsubmitted
  {
    var remaining := batchMap;
    for j := 0 to |accounts|
      invariant forall k :: j <= k < |accounts| ==> accounts[k] in remaining && remaining[accounts[k]] == Queue(items, accounts[k])
      invariant var r := RunAccounts(items, accounts[..j], attempt);
                result.success == r.success && result.error == r.error && result.unsubmitted == r.unsubmitted
    {
      assert accounts[..j + 1][..j] == accounts[..j];
      assert forall k :: j < k < |accounts| ==> accounts[k] != accounts[j];
      var missing;
      missing, remaining := SubmitAndWaitBatchHelper(accounts[j], remaining, result, attempt);
    }
    assert accounts[..|accounts|] == accounts;
  }

  /** The error rippled reports for the malformed AccountDelete of the scenarios below. */
  const Refused: SubmitError :=
    RequestFailed(RequestTable.Rippled(Some("invalidTransaction"),
      RequestTable.Response(RequestTable.Key(RequestTable.Num(1)), Some("error"), Some("invalidTransaction"), None, "")))

  /** Payments validate and report the Sequence they were sent with; AccountDelete is refused. */
  function DeleteRefused(x: Item): Result<TxResponse, SubmitError>
  {
    if x.transaction.transactionType == "AccountDelete" then Failure(Refused)
    else Success(TxResponse(true, x.transaction.sequence))
  }

  function Payment(account: string, sequence: Option<int>): Item
  {
    Item(Transaction("Payment", account, sequence, Some(100), None, None), Options(None, None, Some(Wallet(account))))
  }

  function Delete(account: string): Item
  {
    Item(Transaction("AccountDelete", account, None, Some(100), None, None), Options(None, None, Some(Wallet(account))))
  }

  /** A batch of two items from one account is that account's queue, run in order. */
  lemma OneAccountPair(x: Item, y: Item, attempt: Submitter)
    requires AccountOf(x) == AccountOf(y)
    ensures RunBatch([x, y], attempt) == RunQueue([x, y], attempt)
  {
    var items := [x, y];
    assert items[..1] == [x];
    assert [x][..0] == [];
    assert Accounts([x]) == [AccountOf(x)];
    assert AccountOf(y) in Accounts([x]);
    assert Accounts(items) == [AccountOf(x)];
    assert Queue([x], AccountOf(x)) == [x];
    assert Queue(items, AccountOf(x)) == items;
    assert [AccountOf(x)][..0] == [];
    var r := RunQueue(items, attempt);
    assert Then(Run([], [], [], []), r) == r;
  }

  /** One account, two payments: both succeed, and the second is sent with the first's Sequence plus one. */
  lemma TwoPayments()
    ensures var r := RunBatch([Payment("A", Some(5)), Payment("A", Some(5))], DeleteRefused);
            |r.success| == 2 && r.error == [] && r.unsubmitted == [] &&
            r.attempted[1].transaction.sequence == Some(6)
  {
    OneAccountPair(Payment("A", Some(5)), Payment("A", Some(5)), DeleteRefused);
    TwoPaymentsQueue();
  }


  /** The queue of the two payments above: the second is attempted with Sequence 6. */
  lemma TwoPaymentsQueue()
    ensures RunQueue([Payment("A", Some(5)), Payment("A", Some(5))], DeleteRefused)
         == Run([TxResponse(true, Some(5)), TxResponse(true, Some(6))], [], [],
                [Payment("A", Some(5)), Payment("A", Some(6))])
  {
    var rest := RepairNext([Payment("A", Some(5))], Some(5));
    assert rest == [Payment("A", Some(6))];
    assert rest[1..] == [];
  }

  /** A payment that validates, then a refused AccountDelete, from one account. */
  lemma PaymentThenDeleteQueue(account: string)
    ensures RunQueue([Payment(account, None), Delete(account)], DeleteRefused)
         == Run([TxResponse(true, None)], [Refused], [], [Payment(account, None), Delete(account)])
  {
    assert [Payment(account, None), Delete(account)][1..] == [Delete(account)];
  }

  /** One account, a payment then a refused AccountDelete: one success, one error. */
  lemma PaymentThenRefusedDelete()
    ensures var r := RunBatch([Payment("A", None), Delete("A")], DeleteRefused);
            |r.success| == 1 && r.error == [Refused] && r.unsubmitted == []
  {
    OneAccountPair(Payment("A", None), Delete("A"), DeleteRefused);
    PaymentThenDeleteQueue("A");
  }


  /** One account, a refused AccountDelete first: the payment after it is never attempted. */
  lemma RefusedDeleteThenPayment()
    ensures var r := RunBatch([Delete("A"), Payment("A", None)], DeleteRefused);
            r.success == [] && r.error == [Refused] && r.unsubmitted == [Payment("A", None)]
  {
    var items := [Delete("A"), Payment("A", None)];
    OneAccountPair(items[0], items[1], DeleteRefused);
    assert RunQueue(items, DeleteRefused) == Run([], [Refused], [Payment("A", None)], [Delete("A")]) by {
      assert items[1..] == [Payment("A", None)];
    }
  }


  /** How the two-account batch below is grouped. */
  lemma TwoAccountLayout()
    ensures var items := [Payment("A", None), Delete("A"), Payment("B", None), Delete("B")];
            Accounts(items) == ["A", "B"] &&
            Queue(items, "A") == [Payment("A", None), Delete("A")] &&
            Queue(items, "B") == [Payment("B", None), Delete("B")]
  {
    var items := [Payment("A", None), Delete("A"), Payment("B", None), Delete("B")];
    var p1, p2, p3 := items[..1], items[..2], items[..3];
    assert p2[..1] == p1 && p3[..2] == p2 && items[..3] == p3;
    assert p1[..0] == [];
    assert Accounts(p1) == ["A"];
    assert Accounts(p2) == ["A"];
    assert Accounts(p3) == ["A", "B"];
    QueueOfAbsentAccount(p2, "B");
    assert Queue(p1, "A") == [Payment("A", None)];
    assert Queue(p2, "A") == [Payment("A", None), Delete("A")];
  }

  /** Two accounts, each a payment then a refused AccountDelete: two successes, two errors. */
  lemma TwoAccountsEachRefusedOnce()
    ensures var r := RunBatch([Payment("A", None), Delete("A"), Payment("B", None), Delete("B")], DeleteRefused);
            |r.success| == 2 && r.error == [Refused, Refused] && r.unsubmitted == []
  {
    TwoAccountLayout();
    PaymentThenDeleteQueue("A");
    PaymentThenDeleteQueue("B");
    assert ["A", "B"][..1] == ["A"] && ["A"][..0] == [];
  }
}

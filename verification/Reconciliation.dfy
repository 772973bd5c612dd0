/**
 What one reconciliation leaves, whoever crashed: nothing stays claimed past its deadline, no elapsed retry
 stays asleep, an attempt nobody reported ends as unknown, and nothing else moves.
 */
module Reconciliation {
  import opened Identities
  import opened WorkTable
  import opened WorkInvariants

  // ---- What a reconciliation looks for ----------------------------------------------------------

  predicate ClaimRanOut(r: Row, now: Time) {
    r.state == Claimed && r.claimUntil.Some? && r.claimUntil.value <= now
  }

  predicate BackoffOver(r: Row, now: Time) {
    r.state == RetryWait && r.availableAt <= now
  }

  /** The command of row i was never started although the row failed, or was started and missed its deadline. */
  predicate Lost(db: Db, i: nat, now: Time, started: bool) {
    && i < |db.work| && i in db.commands
    && if started then
         db.commands[i].status == Attempted && db.commands[i].deadline.Some? && db.commands[i].deadline.value <= now
       else db.commands[i].status == Pending && db.work[i].state == Failed
  }

  /** A command known not to have run is rejected; of one that was started nobody knows. */
  function Verdict(started: bool): CommandResult {
    if started then Unknown else Rejected
  }

  /** A fresh delivery that reports the result of the command of that row, in the row's lane. */
  predicate IsReceipt(r: Row, of: Row, command: nat, result: CommandResult, agentControlled: bool) {
    && r.kind == Delivery && r.source == ReceiptKey(command) && r.payload == Receipt(result, agentControlled)
    && r.lane == of.lane && r.agentEvent == CommandReceipt(of.source)
    && r.state == Ready && r.generation == 0 && r.attempts == 0 && !r.sendAttempted && r.claimUntil.None?
  }

  predicate HasReceipt(work: seq<Row>, command: nat) {
    exists j :: 0 <= j < |work| && work[j].kind == Delivery && work[j].source == ReceiptKey(command)
  }

  // ---- One command ------------------------------------------------------------------------------

  /** A row whose command is completed. */
  function Completed(r: Row): Row {
    r.(state := Done, generation := r.generation + 1, claimOwner := None, claimUntil := None)
  }

  lemma CompleteMeans(db: Db, id: nat, result: CommandResult, agentControlled: bool, now: Time)
    requires TableInv(db) && id < |db.work|
    ensures var r, after := db.work[id], CompleteCommand(db, id, result, agentControlled, now);
      && |db.work| <= |after.work| && after.lanes == db.lanes && after.cursors == db.cursors
      && after.commands == db.commands[id := Command(Finished(result), None)]
      && after.work[..|db.work|] == db.work[id := Completed(r)]
      && (forall i :: |db.work| <= i < |after.work| ==> IsReceipt(after.work[i], r, id, result, agentControlled))
      && |after.work| <= |db.work| + 1 && HasReceipt(after.work, id)
  {
    assert db.work[id].lane in db.lanes;
    hide TableInv, MaxSequence;
    var after := CompleteCommand(db, id, result, agentControlled, now);
    var found := FindSource(db.work, Delivery, ReceiptKey(id));
    var j := if found.Some? then found.value else |db.work|;
    assert j != id || after.work[j].kind == Delivery;
    assert after.work[j].kind == Delivery && after.work[j].source == ReceiptKey(id);
  }

  // ---- One pass over the commands ---------------------------------------------------------------

  predicate RowsClosed(db: Db, work: seq<Row>, n: nat, now: Time, started: bool) {
    |db.work| <= |work| &&
    forall i :: 0 <= i < |db.work| ==>
      work[i] == (if i < n && Lost(db, i, now, started) then Completed(db.work[i]) else db.work[i])
  }

  predicate CommandsClosed(db: Db, commands: map<nat, Command>, n: nat, now: Time, started: bool) {
    && commands.Keys == db.commands.Keys
    && forall i :: i in db.commands ==>
         commands[i] ==
           (if i < n && Lost(db, i, now, started) then Command(Finished(Verdict(started)), None) else db.commands[i])
  }

  predicate ReceiptsClosed(db: Db, work: seq<Row>, n: nat, now: Time, started: bool) {
    && (forall i :: |db.work| <= i < |work| ==> NewReceipt(db, work[i], n, now, started))
    && (forall i :: 0 <= i < n && Lost(db, i, now, started) ==> HasReceipt(work, i))
  }

  /** The first n rows' lost commands are completed, each with its receipt, and nothing else has moved. */
  predicate Closed(db: Db, after: Db, n: nat, now: Time, started: bool) {
    && after.lanes == db.lanes && after.cursors == db.cursors
    && RowsClosed(db, after.work, n, now, started)
    && CommandsClosed(db, after.commands, n, now, started)
    && ReceiptsClosed(db, after.work, n, now, started)
  }

  predicate NewReceipt(db: Db, r: Row, n: nat, now: Time, started: bool) {
    r.source.ReceiptKey? && r.source.work < n && Lost(db, r.source.work, now, started) &&
    IsReceipt(r, db.work[r.source.work], r.source.work, Verdict(started), false)
  }

  lemma ReceiptStays(a: seq<Row>, b: seq<Row>, command: nat)
    requires |a| <= |b| && HasReceipt(a, command)
    requires forall i :: 0 <= i < |a| ==> b[i].kind == a[i].kind && b[i].source == a[i].source
    ensures HasReceipt(b, command)
  {
    var j :| 0 <= j < |a| && a[j].kind == Delivery && a[j].source == ReceiptKey(command);
    assert b[j].source == ReceiptKey(command);
  }

  lemma MoreReceipts(db: Db, a: seq<Row>, b: seq<Row>, n: nat, now: Time, started: bool)
    requires |db.work| <= |a| <= |b| && ReceiptsClosed(db, a, n, now, started)
    requires n < |db.work| && Lost(db, n, now, started) && HasReceipt(b, n)
    requires forall i :: 0 <= i < |a| && i != n ==> b[i] == a[i]
    requires b[n].kind == a[n].kind && b[n].source == a[n].source
    requires forall i :: |a| <= i < |b| ==> IsReceipt(b[i], db.work[n], n, Verdict(started), false)
    ensures ReceiptsClosed(db, b, n + 1, now, started)
  {
    hide HasReceipt, IsReceipt, Lost, Verdict;
    forall i | |db.work| <= i < |b| ensures NewReceipt(db, b[i], n + 1, now, started) {
      if i < |a| {
        assert NewReceipt(db, a[i], n, now, started);
      } else {
        ReceiptNames(b[i], db.work[n], n, Verdict(started), false);
      }
    }
    forall i | 0 <= i < n + 1 && Lost(db, i, now, started) ensures HasReceipt(b, i) {
      if i < n {
        ReceiptStays(a, b, i);
      }
    }
  }

  lemma ReceiptNames(r: Row, of: Row, command: nat, result: CommandResult, agentControlled: bool)
    requires IsReceipt(r, of, command, result, agentControlled)
    ensures r.source.ReceiptKey? && r.source.work == command
  {
  }

  lemma LaterReceipts(db: Db, work: seq<Row>, n: nat, now: Time, started: bool)
    requires ReceiptsClosed(db, work, n, now, started) && !Lost(db, n, now, started)
    ensures ReceiptsClosed(db, work, n + 1, now, started)
  {
    hide HasReceipt, IsReceipt, Lost;
    forall i | |db.work| <= i < |work| ensures NewReceipt(db, work[i], n + 1, now, started) {
      assert NewReceipt(db, work[i], n, now, started);
    }
  }

  lemma RowAndCommand(db: Db, before: Db, n: nat, now: Time, started: bool)
    requires n < |db.work| && Closed(db, before, n, now, started)
    ensures n < |before.work| && before.work[n] == db.work[n]
    ensures n in before.commands <==> n in db.commands
    ensures n in db.commands ==> before.commands[n] == db.commands[n]
    ensures Lost(before, n, now, started) <==> Lost(db, n, now, started)
  {
    hide ReceiptsClosed;
  }

  /** Closing one more lost command. */
  lemma CloseOne(db: Db, before: Db, n: nat, now: Time, started: bool)
    requires TableInv(before) && n < |db.work| && Closed(db, before, n, now, started) && Lost(db, n, now, started)
    ensures Closed(db, CompleteCommand(before, n, Verdict(started), false, now), n + 1, now, started)
  {
    var result := Verdict(started);
    var after := CompleteCommand(before, n, result, false, now);
    hide TableInv, CompleteCommand, HasReceipt, IsReceipt, ReceiptsClosed, Verdict;
    RowAndCommand(db, before, n, now, started);
    CompleteMeans(before, n, result, false, now);
    assert forall i :: 0 <= i < |before.work| ==> after.work[i] == after.work[..|before.work|][i];
    MoreReceipts(db, before.work, after.work, n, now, started);
    OneMoreRow(db, before.work, after.work, n, now, started);
    OneMoreCommand(db, before.commands, n, now, started);
  }

  lemma OneMoreRow(db: Db, a: seq<Row>, b: seq<Row>, n: nat, now: Time, started: bool)
    requires n < |db.work| && RowsClosed(db, a, n, now, started) && Lost(db, n, now, started) && |a| <= |b|
    requires forall i :: 0 <= i < |a| ==> b[i] == if i == n then Completed(a[n]) else a[i]
    ensures RowsClosed(db, b, n + 1, now, started)
  {
    hide Lost, Completed;
  }

  lemma OneMoreCommand(db: Db, commands: map<nat, Command>, n: nat, now: Time, started: bool)
    requires CommandsClosed(db, commands, n, now, started) && Lost(db, n, now, started)
    ensures CommandsClosed(db, commands[n := Command(Finished(Verdict(started)), None)], n + 1, now, started)
  {
    assert n in db.commands;
    hide Lost, Verdict;
  }

  /** Passing by a row that has no lost command. */
  lemma CloseNone(db: Db, before: Db, n: nat, now: Time, started: bool)
    requires n < |db.work| && Closed(db, before, n, now, started) && !Lost(db, n, now, started)
    ensures Closed(db, before, n + 1, now, started)
  {
    hide Lost, ReceiptsClosed;
    LaterReceipts(db, before.work, n, now, started);
  }

  lemma {:induction false} RejectCloses(db: Db, n: nat, now: Time)
    requires TableInv(db) && n <= |db.work|
    ensures Closed(db, RejectStranded(db, n, now), n, now, false)
  {
    hide TableInv, CompleteCommand, Closed;
    CommandsAreRows(db);
    if n == 0 {
      NothingClosed(db, now, false);
    } else {
      RejectCloses(db, n - 1, now);
      RejectStrandedKeeps(db, n - 1, now);
      var before := RejectStranded(db, n - 1, now);
      RowAndCommand(db, before, n - 1, now, false);
      if Lost(db, n - 1, now, false) {
        CloseOne(db, before, n - 1, now, false);
      } else {
        CloseNone(db, before, n - 1, now, false);
      }
    }
  }

  lemma {:induction false} ExpireCloses(db: Db, n: nat, now: Time)
    requires TableInv(db) && n <= |db.work|
    ensures Closed(db, ExpireCommands(db, n, now), n, now, true)
  {
    hide TableInv, CompleteCommand, Closed;
    CommandsAreRows(db);
    if n == 0 {
      NothingClosed(db, now, true);
    } else {
      ExpireCloses(db, n - 1, now);
      ExpireCommandsKeeps(db, n - 1, now);
      var before := ExpireCommands(db, n - 1, now);
      RowAndCommand(db, before, n - 1, now, true);
      if Lost(db, n - 1, now, true) {
        CloseOne(db, before, n - 1, now, true);
      } else {
        CloseNone(db, before, n - 1, now, true);
      }
    }
  }

  lemma CommandsAreRows(db: Db)
    requires TableInv(db)
    ensures forall id :: id in db.commands ==> id < |db.work|
  {
  }

  lemma NothingClosed(db: Db, now: Time, started: bool)
    ensures Closed(db, db, 0, now, started)
  {
  }

  // ---- The whole reconciliation -----------------------------------------------------------------

  /** What becomes of a row without a lost command. */
  predicate Returned(r: Row, after: Row, now: Time) {
    if ClaimRanOut(r, now) then
      after == r.(state := if r.kind == Delivery && r.sendAttempted then DeliveryUnknown else Ready,
                  generation := r.generation + 1, claimOwner := None, claimUntil := None)
    else if BackoffOver(r, now) then after == r.(state := Ready)
    else after == r
  }

  predicate IsLost(db: Db, i: nat, now: Time) {
    Lost(db, i, now, false) || Lost(db, i, now, true)
  }

  predicate RowsReconciled(db: Db, work: seq<Row>, now: Time) {
    && |db.work| <= |work|
    && (forall i :: 0 <= i < |db.work| && IsLost(db, i, now) ==> work[i] == Completed(db.work[i]))
    && (forall i :: 0 <= i < |db.work| && !IsLost(db, i, now) ==> Returned(db.work[i], work[i], now))
  }

  predicate CommandsReconciled(db: Db, commands: map<nat, Command>, now: Time) {
    && commands.Keys == db.commands.Keys
    && forall i :: i in db.commands ==>
         commands[i] ==
           (if Lost(db, i, now, false) then Command(Finished(Rejected), None)
            else if Lost(db, i, now, true) then Command(Finished(Unknown), None)
            else db.commands[i])
  }

  /** Every lost command has its receipt queued, and nothing but such receipts is. */
  predicate ReceiptsReconciled(db: Db, work: seq<Row>, now: Time) {
    && (forall i :: 0 <= i < |db.work| && IsLost(db, i, now) ==> HasReceipt(work, i))
    && (forall i :: |db.work| <= i < |work| ==>
          NewReceipt(db, work[i], |db.work|, now, false) || NewReceipt(db, work[i], |db.work|, now, true))
  }

  predicate NothingOverdue(work: seq<Row>, now: Time) {
    forall i :: 0 <= i < |work| ==> !ClaimRanOut(work[i], now) && !BackoffOver(work[i], now)
  }

  lemma SweptReturns(r: Row, now: Time)
    ensures Returned(r, SweptRow(r, now), now)
    ensures !ClaimRanOut(SweptRow(r, now), now) && !BackoffOver(SweptRow(r, now), now)
    ensures r.state == Done || r.state == Ready || r.state == Failed ==> SweptRow(r, now) == r
  {
  }

  lemma StillLost(db: Db, rejected: Db, i: nat, now: Time)
    requires Closed(db, rejected, |db.work|, now, false) && i < |rejected.work|
    requires forall id :: id in db.commands ==> id < |db.work|
    ensures Lost(rejected, i, now, true) <==> Lost(db, i, now, true)
  {
    hide ReceiptsClosed;
  }

  /**
   After a reconciliation of any store: no claim is past its deadline and no elapsed retry still waits; a
   claim that ran out is ambiguous if it is a marked delivery and otherwise ready with its attempts kept,
   under the next generation; lost commands are completed as rejected or unknown, with their receipts; and
   everything else is as it was.
   */
  lemma ReconcileMeans(db: Db, now: Time)
    requires TableInv(db)
    ensures var after := Reconcile(db, now);
      && after.lanes == db.lanes && after.cursors == db.cursors
      && NothingOverdue(after.work, now)
      && RowsReconciled(db, after.work, now) && CommandsReconciled(db, after.commands, now)
      && ReceiptsReconciled(db, after.work, now)
  {
    hide TableInv;
    var rejected := RejectStranded(db, |db.work|, now);
    var expired := ExpireCommands(rejected, |rejected.work|, now);
    CommandsAreRows(db);
    RejectCloses(db, |db.work|, now);
    RejectStrandedKeeps(db, |db.work|, now);
    ExpireCloses(rejected, |rejected.work|, now);
    TwoPasses(db, rejected, expired, now);
  }

  lemma TwoPasses(db: Db, rejected: Db, expired: Db, now: Time)
    requires Closed(db, rejected, |db.work|, now, false) && Closed(rejected, expired, |rejected.work|, now, true)
    requires forall id :: id in db.commands ==> id < |db.work|
    ensures var after := Sweep(expired, now);
      && after.lanes == db.lanes && after.cursors == db.cursors
      && NothingOverdue(after.work, now)
      && RowsReconciled(db, after.work, now) && CommandsReconciled(db, after.commands, now)
      && ReceiptsReconciled(db, after.work, now)
  {
    var after := Sweep(expired, now);
    forall i | 0 <= i < |rejected.work| ensures Lost(rejected, i, now, true) <==> Lost(db, i, now, true) {
      StillLost(db, rejected, i, now);
    }
    forall i | 0 <= i < |expired.work|
      ensures after.work[i] == SweptRow(expired.work[i], now) && Returned(expired.work[i], after.work[i], now)
      ensures !ClaimRanOut(after.work[i], now) && !BackoffOver(after.work[i], now)
      ensures after.work[i].kind == expired.work[i].kind && after.work[i].source == expired.work[i].source
      ensures expired.work[i].state == Done || expired.work[i].state == Ready ==> after.work[i] == expired.work[i]
    {
      SweptReturns(expired.work[i], now);
    }
    hide SweptRow, Sweep, Lost, Returned, ClaimRanOut, BackoffOver, ReceiptsClosed, HasReceipt;
    RowsTwice(db, rejected, expired.work, after.work, now);
    CommandsTwice(db, rejected, expired.commands, now);
    ReceiptsTwice(db, rejected, expired.work, after.work, now);
  }

  lemma RowsTwice(db: Db, rejected: Db, expired: seq<Row>, after: seq<Row>, now: Time)
    requires RowsClosed(db, rejected.work, |db.work|, now, false) && |expired| == |after|
    requires RowsClosed(rejected, expired, |rejected.work|, now, true)
    requires forall i :: 0 <= i < |db.work| ==> (Lost(rejected, i, now, true) <==> Lost(db, i, now, true))
    requires forall i :: 0 <= i < |expired| ==> Returned(expired[i], after[i], now)
    requires forall i :: 0 <= i < |expired| && expired[i].state == Done ==> after[i] == expired[i]
    ensures RowsReconciled(db, after, now)
  {
    forall i | 0 <= i < |db.work|
      ensures if IsLost(db, i, now) then after[i] == Completed(db.work[i]) else Returned(db.work[i], after[i], now)
    {
      NotBothLost(db, i, now);
      hide Lost, Returned;
    }
    hide Lost, Returned, Completed;
  }

  lemma NotBothLost(db: Db, i: nat, now: Time)
    ensures !(Lost(db, i, now, false) && Lost(db, i, now, true))
  {
  }

  lemma CommandsTwice(db: Db, rejected: Db, commands: map<nat, Command>, now: Time)
    requires CommandsClosed(db, rejected.commands, |db.work|, now, false) && |db.work| <= |rejected.work|
    requires CommandsClosed(rejected, commands, |rejected.work|, now, true)
    requires forall i :: 0 <= i < |db.work| ==> (Lost(rejected, i, now, true) <==> Lost(db, i, now, true))
    requires forall id :: id in db.commands ==> id < |db.work|
    ensures CommandsReconciled(db, commands, now)
  {
    forall i | i in db.commands
      ensures commands[i] ==
        (if Lost(db, i, now, false) then Command(Finished(Rejected), None)
         else if Lost(db, i, now, true) then Command(Finished(Unknown), None)
         else db.commands[i])
    {
      NotBothLost(db, i, now);
      hide Lost;
    }
    hide Lost;
  }

  lemma ReceiptsTwice(db: Db, rejected: Db, expired: seq<Row>, after: seq<Row>, now: Time)
    requires |db.work| <= |rejected.work| <= |expired| == |after|
    requires RowsClosed(db, rejected.work, |db.work|, now, false)
    requires RowsClosed(rejected, expired, |rejected.work|, now, true)
    requires ReceiptsClosed(db, rejected.work, |db.work|, now, false)
    requires ReceiptsClosed(rejected, expired, |rejected.work|, now, true)
    requires forall i :: 0 <= i < |rejected.work| ==> (Lost(rejected, i, now, true) <==> Lost(db, i, now, true))
    requires forall i :: 0 <= i < |expired| ==> after[i].kind == expired[i].kind && after[i].source == expired[i].source
    requires forall i :: 0 <= i < |expired| && expired[i].state == Ready ==> after[i] == expired[i]
    ensures ReceiptsReconciled(db, after, now)
  {
    forall i | 0 <= i < |db.work| && IsLost(db, i, now) ensures HasReceipt(after, i) {
      if Lost(db, i, now, false) {
        ReceiptStays(rejected.work, after, i);
      } else {
        ReceiptStays(expired, after, i);
      }
      hide Lost, HasReceipt;
    }
    forall i | |db.work| <= i < |after|
      ensures NewReceipt(db, after[i], |db.work|, now, false) || NewReceipt(db, after[i], |db.work|, now, true)
    {
      LateReceipt(db, rejected, expired, i, now);
    }
    hide Lost, HasReceipt, NewReceipt, ReceiptsClosed, RowsClosed;
  }

  lemma LateReceipt(db: Db, rejected: Db, expired: seq<Row>, i: nat, now: Time)
    requires |db.work| <= |rejected.work| <= |expired| && |db.work| <= i < |expired|
    requires RowsClosed(db, rejected.work, |db.work|, now, false)
    requires RowsClosed(rejected, expired, |rejected.work|, now, true)
    requires ReceiptsClosed(db, rejected.work, |db.work|, now, false)
    requires ReceiptsClosed(rejected, expired, |rejected.work|, now, true)
    requires forall k :: 0 <= k < |rejected.work| ==> (Lost(rejected, k, now, true) <==> Lost(db, k, now, true))
    ensures expired[i].state == Ready
    ensures NewReceipt(db, expired[i], |db.work|, now, false) || NewReceipt(db, expired[i], |db.work|, now, true)
  {
    if i < |rejected.work| {
      assert NewReceipt(db, rejected.work[i], |db.work|, now, false);
      assert Lost(rejected, i, now, true) <==> Lost(db, i, now, true);
    } else {
      assert NewReceipt(rejected, expired[i], |rejected.work|, now, true);
    }
    hide HasReceipt;
  }
}

/** The checker and the notify tool as the program writes them. */
module SlackCheckers {
  import opened Identities
  import opened AgentEvents
  import opened SlackHandoff
  import opened MessageWorkStores
  import W = WorkTable
  import V = WorkInvariants

  datatype CheckResult = Error | Quiet | Activity(items: seq<nat>)

  class SlackChecker {
    var position: nat
    var pending: Option<Batch>
    var acknowledged: seq<nat>

    function State(): Checker
      reads this
    {
      Checker(position, pending, acknowledged)
    }

    constructor ()
      ensures State() == Checker(0, None, [])
    {
      position, pending, acknowledged := 0, None, [];
    }

    method IsFreeOfDuplicates(ids: seq<nat>) returns (unique: bool)
      ensures unique == NoDuplicates(ids)
    {
      for i := 0 to |ids|
        invariant NoDuplicates(ids[..i])
      {
        if ids[i] in ids[..i] {
          return false;
        }
      }
      assert ids[..|ids|] == ids;
      return true;
    }

    /** A batch once found is returned until it is acknowledged, whatever the browser would now show. */
    method CheckTabs(reading: Reading) returns (result: CheckResult)
      modifies this
      ensures State() == Check(old(State()), reading)
      ensures old(pending).Some? ==> result == Activity(old(pending).value.items)
      ensures result.Activity? <==> pending.Some?
      ensures result.Activity? ==> result.items == PendingIds(State())
    {
      if pending.Some? {
        return Activity(pending.value.items);
      }
      if reading.Unavailable? {
        return Error;
      }
      var unique := IsFreeOfDuplicates(reading.batch.items);
      if !unique {
        return Error;
      }
      if reading.batch.items == [] {
        position := reading.batch.position;
        return Quiet;
      }
      pending := Some(reading.batch);
      return Activity(reading.batch.items);
    }

    method PendingSourceIds() returns (ids: seq<nat>)
      ensures ids == PendingIds(State())
    {
      ids := if pending.Some? then pending.value.items else [];
    }

    method IsSameSet(ids: seq<nat>, expected: seq<nat>) returns (same: bool)
      ensures same == SameSet(ids, expected)
    {
      if |expected| == 0 || |ids| != |expected| {
        return false;
      }
      var unique := IsFreeOfDuplicates(ids);
      if !unique {
        return false;
      }
      for i := 0 to |ids|
        invariant forall k :: 0 <= k < i ==> ids[k] in expected
      {
        if ids[i] !in expected {
          return false;
        }
      }
      return true;
    }

    /** Exactly the whole pending batch, or the one acknowledged last; false is the error. */
    method AcknowledgeBatch(ids: seq<nat>) returns (ok: bool)
      modifies this
      ensures ok == Acknowledge(old(State()), ids).Some?
      ensures State() == if ok then Acknowledge(old(State()), ids).value else old(State())
    {
      hide SameSet;
      var again := IsSameSet(ids, acknowledged);
      if again {
        return true;
      }
      var expected := PendingSourceIds();
      var whole := IsSameSet(ids, expected);
      if !whole {
        return false;
      }
      PendingHasItems(ids, expected);
      position, pending, acknowledged := pending.value.position, None, ids;
      return true;
    }

    lemma PendingHasItems(ids: seq<nat>, expected: seq<nat>)
      requires SameSet(ids, expected) && expected == PendingIds(State())
      ensures pending.Some?
    {
    }
  }

  /** The notify tool of one isolated run: enqueue, then acknowledge. */
  class NotifyTool {
    const owners: Owners
    const checker: SlackChecker
    const store: MessageWorkStore

    constructor (owners: Owners, checker: SlackChecker, store: MessageWorkStore)
      ensures this.owners == owners && this.checker == checker && this.store == store
    {
      this.owners, this.checker, this.store := owners, checker, store;
    }

    method NotifySmolpaws(task: Option<TaskId>, message: string, ids: seq<nat>, now: Time) returns (receipt: Receipt)
      requires store.Valid()
      modifies store`work, store`commands
      ensures store.Valid()
      ensures (receipt, store.State()) == Notify(owners, checker.State(), old(store.State()), task, message, ids, now)
    {
      hide V.TableInv, Trim, W.MaxSequence, NoDuplicates;
      if Trim(message) == "" {
        return Refused(NoMessage);
      }
      if |ids| == 0 {
        return Refused(BadIdentities);
      }
      var unique := checker.IsFreeOfDuplicates(ids);
      if !unique {
        return Refused(BadIdentities);
      }
      if task.None? {
        return Refused(NotIsolated);
      }
      if owners(task.value).None? {
        return Refused(NoOwner);
      }
      var owner := owners(task.value).value;
      if owner.lane !in store.lanes {
        return Refused(NoLane);
      }
      if store.lanes[owner.lane] != owner.info {
        return Refused(OtherLane);
      }
      var key := KeyOf(task.value, owner, SetOf(ids));
      var previous := store.Lookup(W.Intake, key);
      if previous.Some? && store.work[previous.value].lane != owner.lane {
        return Refused(OtherLane);
      }
      if previous.Some? && (store.work[previous.value].state == W.Failed ||
        store.work[previous.value].state == W.Skipped) {
        return Refused(NeedsRepair);
      }
      if previous.None? {
        var expected := checker.PendingSourceIds();
        if |expected| == 0 || multiset(expected) != multiset(ids) {
          return Refused(NotPending);
        }
      }
      ghost var before := |store.work|;
      var work := store.AcceptIntake(owner.lane, key, Inbound(owner.info.platform, SlackBatch(task.value, SetOf(ids))),
                                     W.ThreadMessage(Trim(message)), false, now);
      SameRow(store.State(), work.value, if previous.Some? then previous.value else before);
      return Receipt(previous.None?, work.value);
    }

    lemma SameRow(db: W.Db, i: nat, j: nat)
      requires V.TableInv(db) && i < |db.work| && j < |db.work|
      requires db.work[i].kind == db.work[j].kind && db.work[i].source == db.work[j].source
      ensures i == j
    {
    }

    /**
     The whole tool call. It succeeds only with the batch durably in the owner's lane and acknowledged;
     when it fails before the enqueue nothing changed, and after it the batch is still pending.
     */
    method Execute(task: Option<TaskId>, message: string, ids: seq<nat>, now: Time) returns (ok: bool, receipt: Receipt)
      requires store.Valid() && GoodRows(owners, store.work)
      modifies store`work, store`commands, checker
      ensures store.Valid() && GoodRows(owners, store.work)
      ensures (receipt, store.State()) == Notify(owners, old(checker.State()), old(store.State()), task, message, ids,
        now)
      ensures ok <==> receipt.Receipt? && Acknowledge(old(checker.State()), ids).Some?
      ensures checker.State() == if ok then Acknowledge(old(checker.State()), ids).value else old(checker.State())
      ensures receipt.Receipt? ==> task.Some? && HandedOver(owners, store.work, task.value, SetOf(ids))
      ensures checker.position != old(checker.position) ==> ok
    {
      hide V.TableInv, Notify, Acknowledge, HandedOver, GoodRow, V.Evolves;
      ghost var db := store.State();
      NotifyHandsOver(owners, checker.State(), db, task, message, ids, now);
      RowsStayGood(owners, db, Notify(owners, checker.State(), db, task, message, ids, now).1);
      receipt := NotifySmolpaws(task, message, ids, now);
      if receipt.Refused? {
        return false, receipt;
      }
      ok := checker.AcknowledgeBatch(ids);
    }
  }
}

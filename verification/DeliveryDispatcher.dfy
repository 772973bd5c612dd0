/**
 dispatchNext as the program writes it: claim, validate, check readiness, mark, send, settle. One call
 sends at most once, only after a durable mark, and uses the store only in the ways CoordinatorInv allows.
 */
module DeliveryDispatchers {
  import opened Identities
  import opened WorkTable
  import opened WorkInvariants
  import opened CoordinatorInvariants
  import opened MessageWorkStores

  /** A platform: which payloads it can send, and whether its transport is connected. */
  datatype Target = Target(validates: Payload -> bool, ready: bool)

  /** How a send ends. A failed or timed-out one may have reached the platform all the same. */
  datatype SendResult = Delivered(ext: Option<nat>) | Failing(landed: bool)

  datatype DispatchOutcome =
    | NothingDue
    | Done(id: nat, ext: Option<nat>)
    | Rejected(id: nat)
    | InDoubt(id: nat)
    | Stale(id: nat)
    | TransportUnavailable(id: nat)

  class DeliveryDispatcher {
    const store: MessageWorkStore
    const targets: map<nat, Target>
    /** The rows whose message the platforms received, in order. */
    var sent: seq<nat>

    constructor (store: MessageWorkStore, targets: map<nat, Target>)
      ensures this.store == store && this.targets == targets && sent == []
    {
      this.store, this.targets, sent := store, targets, [];
    }

    predicate Legal()
      reads this, store
    {
      store.Valid() && Disciplined(store.State())
    }

    /** A claimed delivery nobody has started to send. */
    predicate Holds(db: Db, t: Token) {
      Live(db, t) && db.work[t.id].kind == Delivery && !db.work[t.id].sendAttempted
    }

    method Deliver(id: nat, result: SendResult)
      modifies this`sent
      ensures sent == old(sent) + (if result.Delivered? || result.landed then [id] else [])
    {
      if result.Delivered? || result.landed {
        sent := sent + [id];
      }
    }

    /** What one attempt leaves of the claimed row r: nothing else of the store changes. */
    predicate Ended(r: Row, after: Row, outcome: DispatchOutcome, now: Time) {
      match outcome
      case Rejected(_) => after == r.(state := Failed, claimOwner := None, claimUntil := None)
      case TransportUnavailable(_) =>
        after == r.(state := Ready, availableAt := now, claimOwner := None, claimUntil := None,
                    attempts := if r.attempts > 0 then r.attempts - 1 else 0)
      case Done(_, ext) =>
        after == r.(state := WorkState.Done, sendAttempted := true, externalId := ext, claimOwner := None,
                    claimUntil := None)
      case InDoubt(_) =>
        after == r.(state := DeliveryUnknown, sendAttempted := true, claimOwner := None, claimUntil := None)
      case _ => false
    }

    /** The platform of the lane has a target, and the target accepts the payload. */
    predicate Sendable(lane: WorkTable.Lane, payload: Payload) {
      lane.platform in targets && targets[lane.platform].validates(payload)
    }

    /**
     Which outcome an attempt has: a payload that cannot be sent is rejected, one that can waits for its
     transport, and otherwise the result of the send decides.
     */
    predicate Decided(lane: WorkTable.Lane, payload: Payload, result: SendResult, outcome: DispatchOutcome) {
      && (outcome.Rejected? <==> !Sendable(lane, payload))
      && (outcome.TransportUnavailable? <==> Sendable(lane, payload) && !targets[lane.platform].ready)
      && (outcome.Done? <==> Sendable(lane, payload) && targets[lane.platform].ready && result.Delivered?)
      && (outcome.InDoubt? <==> Sendable(lane, payload) && targets[lane.platform].ready && result.Failing?)
      && (outcome.Done? && result.Delivered? ==> outcome.ext == result.ext)
    }

    /** What the platform receives in one attempt: nothing unless the send started. */
    function Received(outcome: DispatchOutcome, result: SendResult): seq<nat> {
      if (outcome.Done? || outcome.InDoubt?) && (result.Delivered? || result.landed) then [outcome.id] else []
    }

    method Attempt(t: Token, now: Time, result: SendResult) returns (outcome: DispatchOutcome)
      requires Legal() && Holds(store.State(), t)
      modifies this`sent, store`work, store`commands
      ensures Legal() && store.State() == old(store.State()).(work := store.work)
      ensures |store.work| == |old(store.work)| && store.work == old(store.work)[t.id := store.work[t.id]]
      ensures !outcome.NothingDue? && !outcome.Stale? && outcome.id == t.id
      ensures Ended(old(store.work)[t.id], store.work[t.id], outcome, now)
      ensures old(store.work)[t.id].lane in store.lanes
      ensures Decided(store.lanes[old(store.work)[t.id].lane], old(store.work)[t.id].payload, result, outcome)
      ensures sent == old(sent) + Received(outcome, result)
    {
      hide TableInv, Disciplined, Backoff, CompleteCommand, Evolves;
      var row := store.work[t.id];
      LaneKnown(store.State(), t.id);
      var platform := store.lanes[row.lane].platform;
      if platform !in targets || !targets[platform].validates(row.payload) {
        SettleIsLegal(store.policy, store.State(), t, Fail, now);
        var _ := store.Settle(t, Fail, now);
        return DispatchOutcome.Rejected(t.id);
      }
      if !targets[platform].ready {
        ReleaseIsLegal(store.policy, store.State(), t, now);
        var _ := store.Release(t, now);
        return TransportUnavailable(t.id);
      }
      MarkIsLegal(store.policy, store.State(), t, now);
      var marked := store.MarkSending(t);
      if !marked {
        return Stale(t.id);
      }
      Deliver(t.id, result);
      if result.Delivered? {
        SettleIsLegal(store.policy, store.State(), t, Sent(result.ext), now);
        var _ := store.Settle(t, Sent(result.ext), now);
        return DispatchOutcome.Done(t.id, result.ext);
      }
      SettleIsLegal(store.policy, store.State(), t, Ambiguous, now);
      var _ := store.Settle(t, Ambiguous, now);
      return InDoubt(t.id);
    }

    /**
     One call sends at most once, and only a row it marked first; the row it worked on is the first due
     head, and a transport that is not connected leaves that row's attempts as they were.
     */
    method DispatchNext(worker: nat, now: Time, result: SendResult) returns (outcome: DispatchOutcome)
      requires Legal()
      modifies this`sent, store`work, store`commands
      ensures Legal() && !outcome.Stale?
      ensures outcome.NothingDue? <==> forall id :: 0 <= id < |old(store.work)| ==>
        !DueHead(old(store.work), Some(Delivery), now, id)
      ensures outcome.NothingDue? ==> store.State() == old(store.State()) && sent == old(sent)
      ensures !outcome.NothingDue? ==>
        && Claimable(old(store.work), Some(Delivery), now, outcome.id)
        && |store.work| == |old(store.work)|
        && store.State() == old(store.State()).(work := old(store.work)[outcome.id := store.work[outcome.id]])
        && Ended(ClaimedRow(store.policy, old(store.work)[outcome.id], worker, now), store.work[outcome.id], outcome,
          now)
        && sent == old(sent) + Received(outcome, result)
        && var r := old(store.work)[outcome.id];
           r.lane in store.lanes && Decided(store.lanes[r.lane], r.payload, result, outcome)
      ensures outcome.TransportUnavailable? ==> store.work[outcome.id].attempts == old(store.work)[outcome.id].attempts
    {
      hide TableInv, Disciplined, Claimable, DueHead, Holds;
      ghost var before := store.State();
      var claim := store.ClaimReady(worker, now, Some(Delivery));
      if claim.None? {
        return NothingDue;
      }
      ClaimHolds(store.policy, before, claim.value.id, worker, now);
      outcome := Attempt(claim.value, now, result);
      assert store.work == before.work[outcome.id := store.work[outcome.id]];
      hide Decided, Ended;
    }

    lemma LaneKnown(db: Db, id: nat)
      requires TableInv(db) && id < |db.work|
      ensures db.work[id].lane in db.lanes
    {
    }

    lemma ClaimHolds(policy: Policy, db: Db, id: nat, worker: nat, now: Time)
      requires CoordinatorInv(db) && Claimable(db.work, Some(Delivery), now, id)
      ensures id < |db.work|
      ensures var after := Claim(policy, db, id, worker, now);
        && Disciplined(after) && Holds(after, Token(id, db.work[id].generation + 1))
        && after == db.(work := db.work[id := ClaimedRow(policy, db.work[id], worker, now)])
    {
      ClaimDisciplined(policy, db, id, worker, now);
      assert GoodSend(db.work[id]) && DueHead(db.work, Some(Delivery), now, id);
      hide TableInv, Disciplined, DueHead;
    }

    /** A delivery is no command, so no settlement of one is rejected into a command's completion. */
    lemma SettleIsLegal(policy: Policy, db: Db, t: Token, outcome: Outcome, now: Time)
      requires CoordinatorInv(db) && Live(db, t) && db.work[t.id].kind == Delivery && !outcome.Retry?
      requires outcome.Fail? ==> !db.work[t.id].sendAttempted
      ensures Disciplined(Settle(policy, db, t, outcome, now))
      ensures Settle(policy, db, t, outcome, now) ==
        db.(work := db.work[t.id := SettledRow(policy, db.work[t.id], outcome, now)])
    {
      if t.id in db.commands { CommandIsIntake(db, t.id); assert false; }
      SettleDisciplined(policy, db, t, outcome, now);
      hide TableInv, Disciplined, SettledRow, CompleteCommand;
    }

    lemma ReleaseIsLegal(policy: Policy, db: Db, t: Token, now: Time)
      requires CoordinatorInv(db) && Holds(db, t)
      ensures Disciplined(Release(db, t, now))
    {
      ReleaseDisciplined(db, t, now);
      hide TableInv, Disciplined, Release;
    }

    lemma MarkIsLegal(policy: Policy, db: Db, t: Token, now: Time)
      requires CoordinatorInv(db) && Holds(db, t)
      ensures Disciplined(MarkSending(db, t))
    {
      MarkDisciplined(db, t);
      hide TableInv, Disciplined, MarkSending;
    }
  }
}

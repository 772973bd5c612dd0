/**
 integrateNextIntake and performCommand as the program writes them, with the agent-server's conversation
 logs as the object they append to.
 */
module IntakeWorkers {
  import opened Identities
  import opened WorkTable
  import opened WorkInvariants
  import opened CoordinatorInvariants
  import opened AgentEvents
  import R = Relay
  import opened StoreLaws
  import opened MessageWorkStores

  /** How a request to the agent-server ends; one that failed may have been carried out all the same. */
  datatype Reply = Accepted | Retryable(landed: bool) | Fatal(landed: bool)

  datatype IntegrationOutcome =
    | NothingDue
    | CommandStarted(id: nat)
    | Integrated(id: nat)
    | RetryLater(id: nat)
    | GaveUp(id: nat)

  /**
   What condense answered: no such operation, success, an HTTP status, or nothing before the timeout.
   `recognized` says that the body names agent-controlled condensation.
   */
  datatype CondenseAnswer = Unsupported | Condensed | Status(code: nat, recognized: bool) | NoAnswer

  /** Only a definite client error proves the condensation was not applied. */
  function ResultOf(answer: CondenseAnswer): CommandResult {
    match answer
    case Unsupported => CommandResult.Rejected
    case Condensed => Succeeded
    case Status(code, _) => if 400 <= code < 500 && code != 408 then CommandResult.Rejected else Unknown
    case NoAnswer => Unknown
  }

  /** Only an explicit, recognized rejection selects the specialised receipt. */
  predicate AgentControlled(answer: CondenseAnswer) {
    answer.Status? && answer.code == 409 && answer.recognized
  }

  /**
   What may be reported of a command: success if the server says so, rejection if it has no such operation or
   refused with a client error other than a timeout, and otherwise that nobody knows.
   */
  predicate Refused(answer: CondenseAnswer) {
    answer.Unsupported? || (answer.Status? && answer.code >= 400 && answer.code <= 499 && answer.code != 408)
  }

  function Reported(answer: CondenseAnswer): CommandResult {
    if answer.Condensed? then Succeeded else if Refused(answer) then CommandResult.Rejected else Unknown
  }

  /** Succeeded only if condensed, rejected only if it certainly was not applied, and the special receipt only then. */
  lemma AnswersMean(answer: CondenseAnswer)
    ensures ResultOf(answer) == Reported(answer) 
    ensures AgentControlled(answer) <==> answer.Status? && answer.code == 409 && answer.recognized
    ensures ResultOf(answer) == Succeeded <==> answer.Condensed?
    ensures AgentControlled(answer) ==> ResultOf(answer) == CommandResult.Rejected
    ensures answer.NoAnswer? || (answer.Status? && (answer.code == 408 || answer.code >= 500)) ==>
      ResultOf(answer) == Unknown
  {
  }

  class AgentServer {
    var logs: map<LaneKey, seq<Event>>

    function LogOf(lane: LaneKey): seq<Event>
      reads this
    {
      if lane in logs then logs[lane] else []
    }

    constructor ()
      ensures logs == map[]
    {
      logs := map[];
    }

    /** Idempotent on the event id. */
    method AppendEvent(lane: LaneKey, e: Event)
      modifies this
      ensures logs == old(logs)[lane := R.AppendOnce(old(LogOf(lane)), e)]
      ensures InLog(LogOf(lane), e.id)
    {
      var log := LogOf(lane);
      var known := false;
      for i := 0 to |log|
        invariant known <==> exists p :: 0 <= p < i && log[p].id == e.id
      {
        if log[i].id == e.id {
          known := true;
        }
      }
      if !known {
        InLogGrows(log, e, e.id);
        log := log + [e];
      }
      logs := logs[lane := log];
    }
  }

  class IntakeWorker {
    const store: MessageWorkStore
    const agent: AgentServer
    const timeout: nat
    /** Commands started and not yet reported. */
    var operations: set<Token>

    constructor (store: MessageWorkStore, agent: AgentServer, timeout: nat)
      ensures this.store == store && this.agent == agent && this.timeout == timeout && operations == {}
    {
      this.store, this.agent, this.timeout, operations := store, agent, timeout, {};
    }

    predicate Legal()
      reads this, store
    {
      store.Valid() && Disciplined(store.State())
    }

    /** A claimed intake row of which no command was started. */
    predicate Holds(db: Db, t: Token) {
      Live(db, t) && db.work[t.id].kind == Intake && !CommandIs(db, t.id, Attempted)
    }

    /** What integrating row id may change: that row, and at most a receipt behind all others. */
    predicate Touches(before: seq<Row>, after: seq<Row>, id: nat) {
      && |before| <= |after|
      && forall i :: 0 <= i < |before| && i != id ==> after[i] == before[i]
    }

    /** Where a failed integration leaves the row: a command is completed as rejected, never retried for ever. */
    predicate Failing(db: Db, id: nat) {
      id < |db.work| &&
      (if id in db.commands then db.work[id].state == Done && db.commands[id].status == Finished(CommandResult.Rejected)
       else db.work[id].state == Failed)
    }

    /** The row sleeps for its backoff, unclaimed. */
    predicate RetriesAt(r: Row, after: Row, now: Time) {
      after == r.(state := RetryWait, availableAt := now + Backoff(store.policy, r.attempts), claimOwner := None,
                  claimUntil := None)
    }

    /** The request that decides a row's integration: the append, unless the conversation or a command comes first. */
    function Decisive(command: bool, ensured: Reply, reply: Reply): Reply {
      if ensured.Accepted? && !command then reply else ensured
    }

    /**
     Which outcome an integration has: a command starts and a message is integrated if the agent-server took
     it, an error that may pass is retried while attempts remain, and anything else is given up.
     */
    predicate Decided(command: bool, attempts: nat, ensured: Reply, reply: Reply, outcome: IntegrationOutcome) {
      var answer := Decisive(command, ensured, reply);
      && (outcome.CommandStarted? <==> command && ensured.Accepted?)
      && (outcome.Integrated? <==> !command && ensured.Accepted? && reply.Accepted?)
      && (outcome.RetryLater? <==> answer.Retryable? && attempts < store.policy.maxAttempts)
      && (outcome.GaveUp? <==> answer.Fatal? || (answer.Retryable? && attempts >= store.policy.maxAttempts))
    }

    /** What a message row's append adds to its conversation: the user's message, once. */
    predicate Appends(before: seq<Event>, after: seq<Event>, event: EventId) {
      if InLog(before, event) then after == before
      else
        && |after| == |before| + 1 && after[..|before|] == before
        && var e := after[|before|]; e.MessageEvent? && e.id == event && e.source == FromUser && e.role == UserRole
    }

    /** The error path: retry while attempts remain, otherwise give up. */
    method Recover(t: Token, retryable: bool, now: Time) returns (outcome: IntegrationOutcome)
      requires Legal() && Holds(store.State(), t)
      modifies store`work, store`commands
      ensures Legal() && Touches(old(store.work), store.work, t.id)
      ensures outcome == RetryLater(t.id) || outcome == GaveUp(t.id)
      ensures outcome.RetryLater? ==>
        && retryable && store.work[t.id].state == RetryWait
        && store.work[t.id].attempts == old(store.work)[t.id].attempts < store.policy.maxAttempts
      ensures outcome.GaveUp? ==> Failing(store.State(), t.id)
      ensures outcome.RetryLater? <==> retryable && old(store.work)[t.id].attempts < store.policy.maxAttempts
      ensures outcome.RetryLater? ==> RetriesAt(old(store.work)[t.id], store.work[t.id], now)
      ensures outcome.GaveUp? && t.id !in old(store.commands) ==>
        t.id !in store.commands &&
        store.work[t.id] == old(store.work)[t.id].(state := Failed, claimOwner := None, claimUntil := None)
    {
      hide TableInv, Disciplined, Backoff, Evolves, FindSource, MaxSequence;
      ghost var db := store.State();
      HeldIsKnown(db, t);
      if retryable {
        SettleIsLegal(store.policy, db, t, Retry, now);
        var state := store.Settle(t, Retry, now);
        if state == Some(Failed) || state == Some(Done) {
          return GaveUp(t.id);
        }
        return RetryLater(t.id);
      }
      if t.id in store.commands && store.commands[t.id].status == Pending {
        FinishIsLegal(store.policy, db, t, now);
        var _ := store.FinishCommand(t, CommandResult.Rejected, false, now);
      } else {
        SettleIsLegal(store.policy, db, t, Fail, now);
        var _ := store.Settle(t, Fail, now);
      }
      return GaveUp(t.id);
    }

    /** One intake row: claimed, then appended to its conversation or started as a command. */
    method IntegrateNextIntake(worker: nat, now: Time, ensured: Reply, reply: Reply)
        returns (outcome: IntegrationOutcome)
      requires Legal()
      modifies this`operations, store`work, store`commands, agent
      ensures Legal()
      ensures outcome.NothingDue? <==> forall id :: 0 <= id < |old(store.work)| ==>
        !DueHead(old(store.work), Some(Intake), now, id)
      ensures outcome.NothingDue? ==> store.State() == old(store.State()) && agent.logs == old(agent.logs)
      ensures !outcome.NothingDue? ==>
        && Claimable(old(store.work), Some(Intake), now, outcome.id)
        && Touches(old(store.work), store.work, outcome.id)
        && Decided(outcome.id in old(store.commands), old(store.work)[outcome.id].attempts + 1, ensured, reply, outcome)
      ensures !outcome.NothingDue? ==>
        var r := old(store.work)[outcome.id];
        if ensured.Accepted? && outcome.id !in old(store.commands) && (reply.Accepted? || reply.landed) then
          Appends(old(agent.LogOf(r.lane)), agent.LogOf(r.lane), r.agentEvent)
        else agent.logs == old(agent.logs)
      ensures outcome.CommandStarted? ==>
        && CommandIs(store.State(), outcome.id, Attempted) && store.work[outcome.id].state == Claimed
        && store.commands[outcome.id].deadline == store.work[outcome.id].claimUntil == Some(now + timeout)
        && operations == old(operations) + {Token(outcome.id, store.work[outcome.id].generation)}
        && agent.logs == old(agent.logs)
      ensures !outcome.CommandStarted? ==> operations == old(operations)
      ensures outcome.Integrated? ==>
        && store.work[outcome.id] == ClaimedRow(store.policy, old(store.work)[outcome.id], worker, now).(
             state := Done, externalId := None, claimOwner := None, claimUntil := None)
        && ensured.Accepted? && reply.Accepted?
        && InLog(agent.LogOf(store.work[outcome.id].lane), store.work[outcome.id].agentEvent)
      ensures outcome.RetryLater? ==>
        RetriesAt(ClaimedRow(store.policy, old(store.work)[outcome.id], worker, now), store.work[outcome.id], now)
      ensures outcome.GaveUp? ==> Failing(store.State(), outcome.id)
      ensures outcome.GaveUp? && outcome.id !in old(store.commands) ==>
        store.work[outcome.id] == ClaimedRow(store.policy, old(store.work)[outcome.id], worker, now).(
          state := Failed, claimOwner := None, claimUntil := None)
      ensures agent.logs == old(agent.logs) ||
        (!outcome.NothingDue? &&
         var r := old(store.work)[outcome.id];
         agent.logs == old(agent.logs)[r.lane := R.AppendOnce(old(agent.LogOf(r.lane)), R.UserEvent(r))])
    {
      hide TableInv, Disciplined, Claimable, DueHead, Holds, Evolves, InLog, FindSource, MaxSequence, Failing,
        RetriesAt, Appends, R.AppendOnce, SettledRow;
      ghost var before := store.State();
      var claim := store.ClaimReady(worker, now, Some(Intake));
      if claim.None? {
        return NothingDue;
      }
      var t := claim.value;
      ClaimHolds(store.policy, before, t.id, worker, now);
      if !ensured.Accepted? {
        outcome := Recover(t, ensured.Retryable?, now);
        return;
      }
      if t.id in store.commands {
        StartIsLegal(store.policy, store.State(), t, now, timeout);
        var started := store.StartCommand(t, now, timeout);
        if started {
          operations := operations + {t};
        }
        return CommandStarted(t.id);
      }
      var row := store.work[t.id];
      if reply.Accepted? || reply.landed {
        AppendsOne(agent.LogOf(row.lane), row);
        agent.AppendEvent(row.lane, R.UserEvent(row));
      }
      if !reply.Accepted? {
        outcome := Recover(t, reply.Retryable?, now);
        return;
      }
      SettleSentIsLegal(store.policy, store.State(), t, now);
      var _ := store.Settle(t, Sent(None), now);
      return Integrated(t.id);
    }

    /** Reports how condense ended. A claim that was lost meanwhile changes nothing. */
    method PerformCommand(t: Token, answer: CondenseAnswer, now: Time)
      requires Legal() && t in operations
      modifies this`operations, store`work, store`commands
      ensures Legal() && operations == old(operations) - {t}
      ensures MayReport(old(store.State()), t, Reported(answer)) ==>
        CompletedAs(old(store.State()), store.State(), t.id, Reported(answer), AgentControlled(answer))
      ensures !MayReport(old(store.State()), t, Reported(answer)) ==> store.State() == old(store.State())
      ensures store.State() == FinishCommand(old(store.State()), t, ResultOf(answer), AgentControlled(answer), now)
    {
      hide TableInv, Disciplined, CompleteCommand, CompletedAs;
      AnswersMean(answer);
      FinishMeans(store.State(), t, ResultOf(answer), AgentControlled(answer), now);
      LegalCallKeeps(store.policy, store.State(), Call(OpFinishCommand(t, ResultOf(answer), AgentControlled(answer)),
        now));
      var _ := store.FinishCommand(t, ResultOf(answer), AgentControlled(answer), now);
      operations := operations - {t};
    }

    lemma AppendsOne(log: seq<Event>, r: Row)
      ensures Appends(log, R.AppendOnce(log, R.UserEvent(r)), r.agentEvent)
    {
      hide InLog;
    }

    // ---- Why each store call is a legal one -------------------------------------------------------

    lemma ClaimHolds(policy: Policy, db: Db, id: nat, worker: nat, now: Time)
      requires CoordinatorInv(db) && Claimable(db.work, Some(Intake), now, id)
      ensures id < |db.work|
      ensures var after := Claim(policy, db, id, worker, now);
        && Disciplined(after) && Holds(after, Token(id, db.work[id].generation + 1))
        && after == db.(work := db.work[id := ClaimedRow(policy, db.work[id], worker, now)])
        && (id in db.commands ==> CommandIs(after, id, Pending))
    {
      ClaimDisciplined(policy, db, id, worker, now);
      assert DueHead(db.work, Some(Intake), now, id);
      if id in db.commands { assert GoodCommand(db.work, id, db.commands[id]); }
      hide TableInv, Disciplined, DueHead, HasReceipt;
    }

    lemma HeldIsKnown(db: Db, t: Token)
      requires CoordinatorInv(db) && Holds(db, t)
      ensures db.work[t.id].lane in db.lanes && !db.work[t.id].sendAttempted
      ensures t.id in db.commands ==> db.commands[t.id].status == Pending
    {
      assert GoodSend(db.work[t.id]);
      if t.id in db.commands { assert GoodCommand(db.work, t.id, db.commands[t.id]); }
    }

    lemma SettleIsLegal(policy: Policy, db: Db, t: Token, outcome: Outcome, now: Time)
      requires CoordinatorInv(db) && Holds(db, t) && (outcome.Retry? || outcome.Fail?)
      ensures Disciplined(Settle(policy, db, t, outcome, now))
    {
      HeldIsKnown(db, t);
      SettleDisciplined(policy, db, t, outcome, now);
      hide TableInv, Disciplined, Settle;
    }

    lemma SettleSentIsLegal(policy: Policy, db: Db, t: Token, now: Time)
      requires CoordinatorInv(db) && Holds(db, t) && t.id !in db.commands
      ensures Disciplined(Settle(policy, db, t, Sent(None), now))
      ensures Settle(policy, db, t, Sent(None), now) ==
        db.(work := db.work[t.id := Unclaimed(db.work[t.id], Done).(externalId := None)])
    {
      SettleDisciplined(policy, db, t, Sent(None), now);
      hide TableInv, Disciplined;
    }

    lemma FinishIsLegal(policy: Policy, db: Db, t: Token, now: Time)
      requires CoordinatorInv(db) && Holds(db, t) && CommandIs(db, t.id, Pending)
      ensures Disciplined(FinishCommand(db, t, CommandResult.Rejected, false, now))
    {
      hide TableInv, Disciplined, FinishCommand, Holds;
      FinishDisciplined(db, t, CommandResult.Rejected, false, now);
    }

    lemma StartIsLegal(policy: Policy, db: Db, t: Token, now: Time, timeout: nat)
      requires CoordinatorInv(db) && Live(db, t)
      ensures Disciplined(StartCommand(db, t, now, timeout))
    {
      hide TableInv, Disciplined, StartCommand;
      LegalCallKeeps(policy, db, Call(OpStartCommand(t, timeout), now));
    }
  }
}

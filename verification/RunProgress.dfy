/**
 Which runs were interrupted, as the relay derives it from the events its projector shows it. The
 projector replays events after a crash, so the same event may be observed any number of times.
 */
module RunProgress {
  import opened Identities
  import opened AgentEvents

  datatype Progress = Progress(pending: bool, actions: seq<EventId>, issue: Option<string>)

  const NO_PROGRESS := Progress(false, [], None)

  predicate AsksForRun(e: Event) {
    e.MessageEvent? && e.role == UserRole
  }

  /** A successful finish, an assistant message that drives no tool, or a pause. */
  predicate EndsRun(e: Event) {
    || e.PauseEvent?
    || (e.ObservationEvent? && e.tool == Finish && !e.isError)
    || (e.MessageEvent? && e.role == AssistantRole && !e.toolCalls)
  }

  function Without(actions: seq<EventId>, id: EventId): seq<EventId> {
    if actions == [] then []
    else
      var last := actions[|actions| - 1];
      Without(actions[..|actions| - 1], id) + (if last != id then [last] else [])
  }

  function Observed(v: Progress, e: Event): Progress {
    var asked := if AsksForRun(e) then v.(pending := true, issue := None) else v;
    var withAction := if e.ActionEvent? && e.id !in v.actions then asked.(actions := v.actions + [e.id]) else asked;
    var closed := if e.ObservationEvent? then withAction.(actions := Without(withAction.actions, e.action))
      else withAction;
    if EndsRun(e) then closed.(pending := false) else closed
  }

  /** The user asks: a message in the user's role. */
  predicate UserAsks(e: Event) {
    e.MessageEvent? && e.role == UserRole
  }

  /** The turn ends: a pause, a finish that succeeded, or an assistant's message without tool calls. */
  predicate TurnEnds(e: Event) {
    match e
    case PauseEvent(_) => true
    case ObservationEvent(_, tool, _, _, isError) => tool == Finish && !isError
    case MessageEvent(_, _, role, toolCalls, _) => role == AssistantRole && !toolCalls
    case _ => false
  }

  /** What one event does to a record: the pending flag, the open actions, the issue it is parked with. */
  lemma ObservedMeans(v: Progress, e: Event)
    ensures var after := Observed(v, e);
      && after.pending == (if TurnEnds(e) then false else if UserAsks(e) then true else v.pending)
      && after.issue == (if UserAsks(e) then None else v.issue)
      && (forall id :: id in after.actions <==>
            (id in v.actions || (e.ActionEvent? && id == e.id)) && !(e.ObservationEvent? && id == e.action))
      && (AsksForRun(e) <==> UserAsks(e)) && (EndsRun(e) <==> TurnEnds(e))
  {
    forall id
      ensures e.ObservationEvent? ==> (id in Without(v.actions, e.action) <==> id in v.actions && id != e.action)
    {
      if e.ObservationEvent? {
        WithoutRemoves(v.actions, e.action, id);
      }
    }
    hide Without;
  }

  /** Observing the first n events of a log once each. */
  function OnePass(log: seq<Event>, n: nat): Progress
    requires n <= |log|
  {
    if n == 0 then NO_PROGRESS else Observed(OnePass(log, n - 1), log[n - 1])
  }

  // ---- Every event writes a few flags ---------------------------------------------------------------

  /** The pending flag, and for each action whether it is open. */
  datatype Flag = Turn | Act(id: EventId)

  predicate Holds(v: Progress, f: Flag) {
    match f
    case Turn => v.pending
    case Act(id) => id in v.actions
  }

  function Writes(e: Event, f: Flag): Option<bool> {
    match f
    case Turn => if EndsRun(e) then Some(false) else if AsksForRun(e) then Some(true) else None
    case Act(id) =>
      if e.ActionEvent? && e.id == id then Some(true)
      else if e.ObservationEvent? && e.action == id then Some(false)
      else None
  }

  lemma {:induction false} WithoutRemoves(actions: seq<EventId>, id: EventId, other: EventId)
    ensures other in Without(actions, id) <==> other in actions && other != id
  {
    if actions != [] {
      WithoutRemoves(actions[..|actions| - 1], id, other);
      assert actions == actions[..|actions| - 1] + [actions[|actions| - 1]];
    }
  }

  lemma ObservedWrites(v: Progress, e: Event, f: Flag)
    ensures Holds(Observed(v, e), f) == (if Writes(e, f).Some? then Writes(e, f).value else Holds(v, f))
  {
    if f.Act? && e.ObservationEvent? {
      WithoutRemoves(v.actions, e.action, f.id);
    }
  }

  /** What the last of the first n events that writes a flag left it at. */
  function LastWrite(log: seq<Event>, n: nat, f: Flag): bool
    requires n <= |log|
  {
    if n == 0 then false
    else if Writes(log[n - 1], f).Some? then Writes(log[n - 1], f).value
    else LastWrite(log, n - 1, f)
  }

  lemma {:induction false} OnePassIsLastWrite(log: seq<Event>, n: nat, f: Flag)
    requires n <= |log|
    ensures Holds(OnePass(log, n), f) == LastWrite(log, n, f)
  {
    if n > 0 {
      OnePassIsLastWrite(log, n - 1, f);
      ObservedWrites(OnePass(log, n - 1), log[n - 1], f);
    }
  }

  /** The run is pending exactly when the last event that starts or ends a turn is a user message. */
  lemma {:induction false} PendingMeansUnanswered(log: seq<Event>, n: nat)
    requires n <= |log|
    ensures OnePass(log, n).pending <==>
      exists i :: 0 <= i < n && UserAsks(log[i]) && forall j :: i <= j < n ==> !TurnEnds(log[j])
  {
    forall i | 0 <= i < n
      ensures (AsksForRun(log[i]) <==> UserAsks(log[i])) && (EndsRun(log[i]) <==> TurnEnds(log[i]))
    {
      ObservedMeans(NO_PROGRESS, log[i]);
    }
    hide AsksForRun, EndsRun, OnePass, Observed, Without, UserAsks, TurnEnds;
    if n > 0 {
      PendingMeansUnanswered(log, n - 1);
      OnePassIsLastWrite(log, n, Turn);
      OnePassIsLastWrite(log, n - 1, Turn);
      AskIsNoEnd(log[n - 1]);
      if OnePass(log, n).pending && !AsksForRun(log[n - 1]) {
        var i :| 0 <= i < n - 1 && UserAsks(log[i]) && forall j :: i <= j < n - 1 ==> !TurnEnds(log[j]);
        assert forall j :: i <= j < n ==> !TurnEnds(log[j]);
      }
    } else {
      assert !OnePass(log, 0).pending by { OnePassIsLastWrite(log, 0, Turn); }
    }
  }

  lemma AskIsNoEnd(e: Event)
    ensures AsksForRun(e) ==> !EndsRun(e)
  {
  }

  /** An action is open exactly when no observation of it follows it. */
  lemma {:induction false} OpenMeansUnobserved(log: seq<Event>, n: nat, id: EventId)
    requires n <= |log|
    ensures id in OnePass(log, n).actions <==>
      exists i :: 0 <= i < n && log[i].ActionEvent? && log[i].id == id &&
        forall j :: i <= j < n ==> !(log[j].ObservationEvent? && log[j].action == id)
  {
    hide OnePass, Observed, Without;
    OnePassIsLastWrite(log, n, Act(id));
    if n > 0 {
      OpenMeansUnobserved(log, n - 1, id);
      OnePassIsLastWrite(log, n - 1, Act(id));
      if LastWrite(log, n, Act(id)) && !(log[n - 1].ActionEvent? && log[n - 1].id == id) {
        var i :| 0 <= i < n - 1 && log[i].ActionEvent? && log[i].id == id &&
          forall j :: i <= j < n - 1 ==> !(log[j].ObservationEvent? && log[j].action == id);
        assert forall j :: i <= j < n ==> !(log[j].ObservationEvent? && log[j].action == id);
      }
    }
  }

  // ---- Replay -----------------------------------------------------------------------------------------

  /** Observing log[from..to] on top of v. */
  function Replay(v: Progress, log: seq<Event>, from: nat, end: nat): Progress
    requires from <= end <= |log|
    decreases end
  {
    if from == end then v else Observed(Replay(v, log, from, end - 1), log[end - 1])
  }

  predicate SameFlags(a: Progress, b: Progress) {
    && a.pending == b.pending
    && (forall id :: id in a.actions ==> id in b.actions)
    && (forall id :: id in b.actions ==> id in a.actions)
  }

  lemma {:induction false} ReplayWrites(v: Progress, log: seq<Event>, from: nat, end: nat, f: Flag)
    requires from <= end <= |log|
    requires Holds(v, f) == LastWrite(log, end, f)
    ensures Holds(Replay(v, log, from, end), f) == LastWrite(log, end, f)
  {
    if from < end {
      ReplayOrKeep(v, log, from, end, f);
    }
  }

  /** Either the window writes the flag, last as the whole prefix does, or it leaves it alone. */
  lemma {:induction false} ReplayOrKeep(v: Progress, log: seq<Event>, from: nat, end: nat, f: Flag)
    requires from <= end <= |log|
    ensures Holds(Replay(v, log, from, end), f) == LastWrite(log, end, f) ||
      Holds(Replay(v, log, from, end), f) == Holds(v, f)
    decreases end
  {
    if from < end {
      ReplayOrKeep(v, log, from, end - 1, f);
      ObservedWrites(Replay(v, log, from, end - 1), log[end - 1], f);
    }
  }

  /**
   Observing a prefix and then any suffix of that prefix again gives the pending flag and the open
   actions of one pass. It holds for every log, whatever the order of actions and observations.
   */
  lemma SuffixReplayIsOnePass(log: seq<Event>, from: nat, end: nat)
    requires from <= end <= |log|
    ensures SameFlags(Replay(OnePass(log, end), log, from, end), OnePass(log, end))
  {
    var v := OnePass(log, end);
    var again := Replay(v, log, from, end);
    hide OnePass, Replay, LastWrite;
    OnePassIsLastWrite(log, end, Turn);
    ReplayWrites(v, log, from, end, Turn);
    forall id | id in v.actions || id in again.actions ensures id in again.actions <==> id in v.actions {
      OnePassIsLastWrite(log, end, Act(id));
      ReplayWrites(v, log, from, end, Act(id));
    }
  }
}

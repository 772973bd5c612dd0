/**
 Which events of a conversation reach its chat, said of the events themselves: explicit sends, conversation
 errors, and the final replies of a turn that do not repeat a send of that turn.
 */
module DeliveredEvents {
  import opened Identities
  import opened WorkTable
  import opened WorkInvariants
  import opened CoordinatorInvariants
  import opened AgentEvents
  import opened Relay
  import opened RelayInvariants
  import opened RelayIntake
  import opened ProjectionFold
  import opened RelayProjection

  // ---- Texts ------------------------------------------------------------------------------------

  predicate Nonblank(s: string) {
    exists i :: 0 <= i < |s| && !IsSpace(s[i])
  }

  /** t is s without the white space around it. */
  predicate Stripped(s: string, t: string) {
    exists i, j :: 0 <= i <= j <= |s| && IsCore(s, t, i, j)
  }

  predicate IsCore(s: string, t: string, i: nat, j: nat)
    requires i <= j <= |s|
  {
    && t == s[i..j]
    && (forall k :: 0 <= k < i ==> IsSpace(s[k])) && (forall k :: j <= k < |s| ==> IsSpace(s[k]))
    && (t != "" ==> !IsSpace(t[0]) && !IsSpace(t[|t| - 1]))
  }

  lemma {:induction false} LeftCore(s: string) returns (i: nat)
    ensures i <= |s| && TrimLeft(s) == s[i..] && (forall k :: 0 <= k < i ==> IsSpace(s[k]))
    ensures i < |s| ==> !IsSpace(s[i])
  {
    hide IsSpace;
    if s != [] && IsSpace(s[0]) {
      var rest := LeftCore(s[1..]);
      i := rest + 1;
      assert forall k :: 1 <= k < i ==> s[k] == s[1..][k - 1];
    } else {
      i := 0;
    }
  }

  lemma {:induction false} RightCore(s: string) returns (j: nat)
    ensures j <= |s| && TrimRight(s) == s[..j] && (forall k :: j <= k < |s| ==> IsSpace(s[k]))
    ensures j > 0 ==> !IsSpace(s[j - 1])
  {
    hide IsSpace;
    if s != [] && IsSpace(s[|s| - 1]) {
      j := RightCore(s[..|s| - 1]);
    } else {
      j := |s|;
    }
  }

  /** Trimming takes off exactly the white space around a text, and leaves nothing exactly of a blank one. */
  lemma TrimMeans(s: string)
    ensures Stripped(s, Trim(s))
    ensures Trim(s) != "" <==> Nonblank(s)
  {
    hide IsSpace, TrimLeft, TrimRight;
    var i := LeftCore(s);
    var left := TrimLeft(s);
    var j := RightCore(left);
    assert forall k :: 0 <= k < |left| ==> left[k] == s[i + k];
    assert Trim(s) == s[i..i + j];
    forall k | i + j <= k < |s| ensures IsSpace(s[k]) {
      assert left[k - i] == s[k];
    }
    assert IsCore(s, Trim(s), i, i + j);
    if Trim(s) != "" {
      assert !IsSpace(s[i]);
    }
  }

  // ---- Events -----------------------------------------------------------------------------------

  /** The agent sends a message by an explicit tool call. */
  predicate ExplicitSend(e: Event, text: string) {
    e.ActionEvent? && (e.tool == SendMessage || e.tool == CurrentThreadMessage) && e.words == Some(text)
  }

  /** The agent finishes its turn with a text, by the finish tool or by simply answering. */
  predicate FinalReply(e: Event, text: string) {
    || (e.ObservationEvent? && e.tool == Finish && e.words == Some(text) && Nonblank(text))
    || (e.MessageEvent? && e.role == AssistantRole && !e.toolCalls && Nonblank(e.text) && text == Trim(e.text))
  }

  predicate ErrorNotice(e: Event, text: string) {
    e.ConversationErrorEvent? && text == e.notice
  }

  /** What bounds a turn: a user's message, a nonblank finish, or an assistant's answer that drives no tool. */
  predicate BoundsTurn(e: Event) {
    || (e.MessageEvent? && e.source == FromUser)
    || (e.ObservationEvent? && e.tool == Finish && e.words.Some? && Nonblank(e.words.value))
    || (e.MessageEvent? && e.role == AssistantRole && !e.toolCalls && Nonblank(e.text))
  }

  /** An explicit send of the same turn said this already. */
  predicate RepeatsSend(log: seq<Event>, t: nat, text: string)
    requires t <= |log|
  {
    exists s :: 0 <= s < t && SendsSame(log[s], text) && forall m :: s < m < t ==> !BoundsTurn(log[m])
  }

  predicate SendsSame(e: Event, text: string) {
    && e.ActionEvent? && (e.tool == SendMessage || e.tool == CurrentThreadMessage)
    && e.words.Some? && Trim(e.words.value) == Trim(text)
  }

  /** Event t says this to the chat. */
  predicate Reaches(log: seq<Event>, t: nat, text: string)
    requires t < |log|
  {
    ExplicitSend(log[t], text) || ErrorNotice(log[t], text) || (FinalReply(log[t], text) && !RepeatsSend(log, t, text))
  }

  lemma EventMeans(e: Event, text: string)
    ensures TurnBoundary(e) <==> BoundsTurn(e)
    ensures TerminalText(e) == Some(text) <==> FinalReply(e, text)
    ensures SendText(e).Some? && Trim(SendText(e).value) == Trim(text) <==> SendsSame(e, text)
    ensures Deliverable(e) == Some(text) <==> ExplicitSend(e, text) || FinalReply(e, text) || ErrorNotice(e, text)
  {
    hide Trim, Nonblank;
    if e.MessageEvent? {
      TrimMeans(e.text);
    } else if e.ObservationEvent? && e.words.Some? {
      TrimMeans(e.words.value);
    }
  }

  lemma RepeatsMeans(log: seq<Event>, t: nat, text: string)
    requires t <= |log|
    ensures SaidEarlier(log, t, Trim(text)) <==> RepeatsSend(log, t, text)
  {
    hide Trim, TurnBoundary, BoundsTurn, SendText, SendsSame;
    forall m | 0 <= m < t
      ensures TurnBoundary(log[m]) <==> BoundsTurn(log[m])
      ensures SendText(log[m]).Some? && Trim(SendText(log[m]).value) == Trim(text) <==> SendsSame(log[m], text)
    {
      EventMeans(log[m], text);
    }
  }

  lemma DeliversMeans(log: seq<Event>, t: nat, text: string)
    requires t < |log|
    ensures Delivers(log, t) && Deliverable(log[t]) == Some(text) <==> Reaches(log, t, text)
  {
    EventMeans(log[t], text);
    RepeatsMeans(log, t, text);
    KindsApart(log[t], text);
    hide Trim, SaidEarlier, RepeatsSend, TurnBoundary, BoundsTurn, ExplicitSend, FinalReply, ErrorNotice, SendsSame;
  }

  lemma KindsApart(e: Event, text: string)
    ensures TerminalText(e).Some? && Deliverable(e) == Some(text) ==>
      FinalReply(e, text) && !ExplicitSend(e, text) && !ErrorNotice(e, text)
    ensures TerminalText(e).None? ==> !FinalReply(e, text)
  {
    EventMeans(e, text);
    hide Trim, Nonblank;
  }

  // ---- The projector's decision -----------------------------------------------------------------

  /** The outbox holds a delivery of this event that says the same and has not been skipped. */
  predicate SaysSame(work: seq<Row>, lane: LaneKey, event: EventId, text: string) {
    exists i :: 0 <= i < |work| && IsSameSend(work[i], lane, event, text)
  }

  predicate IsSameSend(r: Row, lane: LaneKey, event: EventId, text: string) {
    && r.kind == Delivery && r.source == EventKey(event, lane) && r.state != WorkState.Skipped
    && r.payload.ThreadMessage? && Trim(r.payload.text) == Trim(text)
  }

  /** An explicit send of the same turn is queued, unskipped, and says the same. */
  predicate RepeatsQueued(work: seq<Row>, lane: LaneKey, log: seq<Event>, t: nat, text: string)
    requires t <= |log|
  {
    exists s :: 0 <= s < t && RepeatsQueuedAt(work, lane, log, s, text) && forall m :: s < m < t ==> !BoundsTurn(log[m])
  }

  predicate RepeatsQueuedAt(work: seq<Row>, lane: LaneKey, log: seq<Event>, s: nat, text: string)
    requires s < |log|
  {
    && log[s].ActionEvent? && (log[s].tool == SendMessage || log[s].tool == CurrentThreadMessage)
    && log[s].words.Some? && SaysSame(work, lane, log[s].id, text)
  }

  lemma SourceMeans(work: seq<Row>, lane: LaneKey, log: seq<Event>, s: nat, text: string)
    requires UniqueSources(work) && s < |log|
    ensures EchoSource(work, log, lane, s, Trim(text)) <==> RepeatsQueuedAt(work, lane, log, s, text)
  {
    var source := EventKey(log[s].id, lane);
    var found := FindSource(work, Delivery, source);
    if i :| 0 <= i < |work| && IsSameSend(work[i], lane, log[s].id, text) {
      FindSourceComplete(work, Delivery, source, i);
      assert found.value == i;
    }
    if found.Some? && IsSameSend(work[found.value], lane, log[s].id, text) {
      assert SaysSame(work, lane, log[s].id, text);
    }
    hide FindSource, Trim;
  }

  /**
   Whatever was skipped, processing an event queues its text exactly if it is an explicit send, an error, or
   a final reply that repeats no queued, unskipped send of its turn.
   */
  lemma ProjectsMeans(work: seq<Row>, lane: LaneKey, log: seq<Event>, t: nat, text: string)
    requires UniqueSources(work) && t < |log|
    ensures Projects(work, log, lane, t) && Deliverable(log[t]) == Some(text) <==>
      || ExplicitSend(log[t], text) || ErrorNotice(log[t], text)
      || (FinalReply(log[t], text) && !RepeatsQueued(work, lane, log, t, text))
  {
    forall m | 0 <= m < t
      ensures TurnBoundary(log[m]) <==> BoundsTurn(log[m])
      ensures EchoSource(work, log, lane, m, Trim(text)) <==> RepeatsQueuedAt(work, lane, log, m, text)
    {
      EventMeans(log[m], text);
      SourceMeans(work, lane, log, m, text);
    }
    EventMeans(log[t], text);
    KindsApart(log[t], text);
    hide Trim, TurnBoundary, BoundsTurn, EchoSource, RepeatsQueuedAt, ExplicitSend, FinalReply, ErrorNotice, SendsSame,
      UniqueSources;
    assert IsEcho(work, log, lane, t, Trim(text)) <==> RepeatsQueued(work, lane, log, t, text);
  }

  // ---- The outbox -------------------------------------------------------------------------------

  /** Row i carries this text of this event to the lane's chat. */
  predicate Carries(work: seq<Row>, i: nat, lane: LaneKey, event: EventId, text: string) {
    i < |work| && work[i].source == EventKey(event, lane) && work[i].payload == ThreadMessage(text)
  }

  /** The outbox of a lane says what the first n events say, each with its own text, and nothing else. */
  ghost predicate SaysExactly(work: seq<Row>, lane: LaneKey, log: seq<Event>, n: nat)
    requires n <= |log|
  {
    && (forall t, text :: 0 <= t < n ==>
          (Reaches(log, t, text) <==> exists i :: Carries(work, i, lane, log[t].id, text)))
    && (forall i :: 0 <= i < |work| && IsProjection(work[i], lane) ==> SaysOne(work[i], log, n))
  }

  predicate SaysOne(r: Row, log: seq<Event>, n: nat)
    requires n <= |log|
  {
    r.source.EventKey? && r.payload.ThreadMessage? &&
    exists t :: 0 <= t < n && log[t].id == r.source.event && Reaches(log, t, r.payload.text)
  }

  lemma RowSays(db: Db, lane: LaneKey, log: seq<Event>, n: nat, i: nat)
    requires Outbox(db, lane, log, n) && i < |db.work| && IsProjection(db.work[i], lane)
    ensures SaysOne(db.work[i], log, n)
  {
    hide UniqueSources, GoodRows, NoneSkipped, Delivers, Deliverable, Reaches;
    ProjectedHas(db.work, lane, i);
    var t := FoldFrom(log, n, Item(db.work[i].source.event, db.work[i].payload));
    assert Deliverable(log[t]).Some? by { DeliversSomething(log, t); }
    DeliversMeans(log, t, Deliverable(log[t]).value);
  }

  lemma DeliversSomething(log: seq<Event>, t: nat)
    requires t < |log| && Delivers(log, t)
    ensures Deliverable(log[t]).Some?
  {
  }

  lemma EventSaid(db: Db, lane: LaneKey, log: seq<Event>, n: nat, t: nat, text: string)
    requires Outbox(db, lane, log, n) && t < n
    ensures Reaches(log, t, text) <==> exists i :: Carries(db.work, i, lane, log[t].id, text)
  {
    hide UniqueSources, GoodRows, NoneSkipped, Delivers, Deliverable, Reaches;
    DeliversMeans(log, t, text);
    if Reaches(log, t, text) {
      FoldHas(log, n, t);
      var i := ProjectedFrom(db.work, lane, ItemAt(log, t));
      assert Carries(db.work, i, lane, log[t].id, text);
    }
    if i :| Carries(db.work, i, lane, log[t].id, text) {
      RowSays(db, lane, log, n, i);
      var u :| 0 <= u < n && log[u].id == log[t].id && Reaches(log, u, text);
      assert u == t;
    }
  }

  /** An outbox that is the fold of n events says exactly what those events say. */
  lemma OutboxMeans(db: Db, lane: LaneKey, log: seq<Event>, n: nat)
    requires Outbox(db, lane, log, n)
    ensures n <= |log| && SaysExactly(db.work, lane, log, n)
  {
    assert n <= |log|;
    hide Outbox, Reaches, SaysOne;
    forall t, text | 0 <= t < n
      ensures Reaches(log, t, text) <==> exists i :: Carries(db.work, i, lane, log[t].id, text)
    {
      EventSaid(db, lane, log, n, t, text);
    }
    forall i | 0 <= i < |db.work| && IsProjection(db.work[i], lane) ensures SaysOne(db.work[i], log, n) {
      RowSays(db, lane, log, n, i);
    }
  }

  /**
   In every reached world, as long as none of a lane's projected deliveries was skipped, its outbox says
   exactly what the processed events say: the whole log, once the projector has caught up.
   */
  lemma ReachedSaysExactly(policy: Policy, w: World, lane: LaneKey)
    requires Reachable(policy, w) && NoneSkipped(w.db.work, lane)
    ensures FrontierOf(w, lane) <= |LogOf(w, lane)|
    ensures SaysExactly(w.db.work, lane, LogOf(w, lane), FrontierOf(w, lane))
    ensures CursorOf(w.db, lane) == |LogOf(w, lane)| ==> FrontierOf(w, lane) == |LogOf(w, lane)|
  {
    hide Run, SaysExactly, ProjectionInv, Fold, Projected, NoneSkipped;
    ProjectionRefinesFold(policy, w, lane);
    var dispatchers, intakeWorkers, steps :| w == Run(policy, Initial(dispatchers, intakeWorkers), steps);
    RunProjectionInv(policy, dispatchers, intakeWorkers, steps);
    ReachedOutbox(w, lane);
    OutboxMeans(w.db, lane, LogOf(w, lane), FrontierOf(w, lane));
  }

  lemma ReachedOutbox(w: World, lane: LaneKey)
    requires ProjectionInv(w) && NoneSkipped(w.db.work, lane) && FrontierOf(w, lane) <= |LogOf(w, lane)|
    requires Projected(w.db.work, lane) == Fold(LogOf(w, lane), FrontierOf(w, lane))
    ensures Outbox(w.db, lane, LogOf(w, lane), FrontierOf(w, lane))
  {
    assert LaneInv(w.db, lane, LogOf(w, lane));
    WorldFacts(w);
    hide WorldInv, FeedInv, RefineInv, UniqueSources, GoodRows, UniqueIds, NoneSkipped, Projected, Fold, LogOf;
  }
}

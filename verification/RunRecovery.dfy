/** Run recovery as the program writes it: one progress record per conversation, rewritten per event. */
module RunRecoveries {
  import opened Identities
  import opened AgentEvents
  import opened RunProgress

  class RunRecovery {
    var runs: map<ConversationId, Progress>

    function ProgressOf(conversation: ConversationId): Progress
      reads this
    {
      if conversation in runs then runs[conversation] else NO_PROGRESS
    }

    constructor ()
      ensures runs == map[]
    {
      runs := map[];
    }

    /** Loads the record, applies the event's effects one after the other, and stores it back. */
    method Observe(conversation: ConversationId, e: Event)
      modifies this
      ensures runs == old(runs)[conversation := Observed(old(ProgressOf(conversation)), e)]
    {
      var value := if conversation in runs then runs[conversation] else NO_PROGRESS;
      if e.MessageEvent? && e.role == UserRole {
        value := value.(pending := true, issue := None);
      }
      if e.PauseEvent? {
        value := value.(pending := false);
      }
      if e.ActionEvent? && e.id !in value.actions {
        value := value.(actions := value.actions + [e.id]);
      }
      if e.ObservationEvent? {
        var kept := Filter(value.actions, e.action);
        value := value.(actions := kept);
      }
      if (e.ObservationEvent? && e.tool == Finish && !e.isError) ||
         (e.MessageEvent? && e.role == AssistantRole && !e.toolCalls)
      {
        value := value.(pending := false);
      }
      runs := runs[conversation := value];
    }

    method Filter(actions: seq<EventId>, id: EventId) returns (kept: seq<EventId>)
      ensures kept == Without(actions, id)
    {
      kept := [];
      for i := 0 to |actions|
        invariant kept == Without(actions[..i], id)
      {
        assert actions[..i + 1][..i] == actions[..i];
        if actions[i] != id {
          kept := kept + [actions[i]];
        }
      }
      assert actions[..|actions|] == actions;
    }

    /** The conversations whose run is pending and not parked, with their open actions. */
    method Pending() returns (found: map<ConversationId, seq<EventId>>)
      ensures forall c :: c in found <==> c in runs && runs[c].pending && runs[c].issue.None?
      ensures forall c :: c in found ==> found[c] == runs[c].actions
    {
      found := map[];
      var left := runs.Keys;
      while left != {}
        invariant left <= runs.Keys
        invariant forall c :: c in found <==> c in runs && c !in left && runs[c].pending && runs[c].issue.None?
        invariant forall c :: c in found ==> found[c] == runs[c].actions
        decreases |left|
      {
        var c :| c in left;
        if runs[c].pending && runs[c].issue.None? {
          found := found[c := runs[c].actions];
        }
        left := left - {c};
      }
    }

    /** Parks a run that has a record; an unknown conversation stays unknown. */
    method Park(conversation: ConversationId, issue: string)
      modifies this
      ensures runs == if conversation in old(runs)
                      then old(runs)[conversation := old(runs)[conversation].(issue := Some(issue))] else old(runs)
    {
      if conversation in runs {
        runs := runs[conversation := runs[conversation].(issue := Some(issue))];
      }
    }
  }
}

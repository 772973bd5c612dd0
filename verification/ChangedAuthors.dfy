/**
 Messages that change their author. Whether the assistant wrote a message is read off its text, and a
 message may be stored again with another text. This module says exactly when the seen marks of the poll
 loop pass over somebody's message.
 */
module ChangedAuthors {
  import opened Identities
  import opened LedgerTables
  import opened PollChat

  // ---- What a transcript left out ---------------------------------------------------------------------

  function OwnOf(p: Poller): set<Key> {
    match p
    case Read(_, _, _, own) => own
    case Prompted(_, _, own) => own
    case _ => {}
  }

  /** The unseen messages of a chat up to a number. */
  function UnseenUpTo(l: Ledger, chat: nat, number: nat): set<Key> {
    set i | 0 <= i < |l.messages| && l.messages[i].chat == chat && l.messages[i].number <= number
            && !IsMarked(l, KeyOf(l.messages[i]), Seen) :: KeyOf(l.messages[i])
  }

  /** What a transcript left out as the assistant's own is unseen until the mark after it. */
  predicate LeftOut(w: World) {
    (w.poller.Read? || w.poller.Prompted?) && w.poller.todo != [] ==>
      w.poller.own <= UnseenUpTo(w.ledger, w.poller.chat, Last(w.poller.todo[0]))
  }

  lemma StoreKeepsUnseen(l: Ledger, input: Message, chat: nat, number: nat)
    requires LedgerInv(l)
    ensures UnseenUpTo(l, chat, number) <= UnseenUpTo(Store(l, input), chat, number)
  {
    StoreShape(l, input);
    var after := Store(l, input);
    hide LedgerInv, Store, MaxSeq;
    forall key | key in UnseenUpTo(l, chat, number) ensures key in UnseenUpTo(after, chat, number) {
      var i :| 0 <= i < |l.messages| && KeyOf(l.messages[i]) == key && l.messages[i].chat == chat
        && l.messages[i].number <= number && !IsMarked(l, key, Seen);
      assert KeyOf(after.messages[i]) == key;
    }
  }

  lemma LeftOutStep(policy: ChatPolicy, w: World, step: Step)
    requires LedgerInv(w.ledger) && LeftOut(w)
    ensures LeftOut(Next(policy, w, step))
  {
    hide LedgerInv, IsMarked, Query, Transcript, Split, Addressed, Store, MarkAll, UpTo, Last, UnseenUpTo, OwnUnseen,
      OwnUndispatched, SetDispatchSeq;
    if step.Arrive? && (w.poller.Read? || w.poller.Prompted?) && w.poller.todo != [] {
      StoreKeepsUnseen(w.ledger, step.input, w.poller.chat, Last(w.poller.todo[0]));
    } else if step.ReadTranscript? && Enabled(policy, w, step) {
      OwnIsUnseen(policy, w.ledger, w.poller.chat, Last(w.poller.todo[0]));
    }
  }

  lemma OwnIsUnseen(policy: ChatPolicy, l: Ledger, chat: nat, number: nat)
    ensures OwnUnseen(policy, l, chat, number) <= UnseenUpTo(l, chat, number)
  {
    hide IsMarked;
  }

  lemma {:induction false} RunLeavesOut(policy: ChatPolicy, start: Ledger, steps: seq<Step>)
    requires LedgerInv(start)
    ensures LeftOut(Run(policy, start, steps)) && PollInv(Run(policy, start, steps), start)
  {
    RunKeeps(policy, start, steps);
    if steps != [] {
      hide LedgerInv, LeftOut, Next, PollInv;
      RunLeavesOut(policy, start, steps[..|steps| - 1]);
      PollInvLedger(Run(policy, start, steps[..|steps| - 1]), start);
      LeftOutStep(policy, Run(policy, start, steps[..|steps| - 1]), steps[|steps| - 1]);
    } else {
      hide LedgerInv, PollInv;
    }
  }

  // ---- Exactly when a mark is right -------------------------------------------------------------------

  predicate NewlySeen(before: Ledger, after: Ledger, key: Key) {
    !IsMarked(before, key, Seen) && IsMarked(after, key, Seen)
  }

  predicate Accepted(w: World, key: Key) {
    key in w.prompted || key in w.commanded
  }

  /** Whatever of others this step marks seen was in an accepted prompt or was an accepted command. */
  predicate MarksRightly(policy: ChatPolicy, w: World, step: Step) {
    var after := Next(policy, w, step).ledger;
    forall key :: key in after.marks && NewlySeen(w.ledger, after, key) && !IsOwn(policy, w.ledger, key) ==>
      Accepted(w, key)
  }

  /** The step is about to mark seen a message that was the assistant's in the transcript and no longer is. */
  predicate Overlooks(policy: ChatPolicy, w: World, step: Step, key: Key) {
    && step.MarkSeen? && w.poller.Prompted? && key in w.poller.own
    && !IsOwn(policy, w.ledger, key) && !Accepted(w, key)
  }

  lemma MarkSeenMarks(policy: ChatPolicy, w: World, key: Key)
    requires Enabled(policy, w, MarkSeen)
    ensures IsMarked(Taken(policy, w, MarkSeen).ledger, key, Seen) <==>
      IsMarked(w.ledger, key, Seen) || key in UpTo(w.ledger.messages, w.poller.chat, Last(w.poller.todo[0]))
  {
    MarkAllMarks(w.ledger, UpTo(w.ledger.messages, w.poller.chat, Last(w.poller.todo[0])), Seen, key, Seen);
    hide MarkAll, UpTo, IsMarked, Last;
  }

  lemma UnseenIsUpTo(l: Ledger, chat: nat, number: nat, key: Key)
    requires key in UnseenUpTo(l, chat, number)
    ensures key in UpTo(l.messages, chat, number) && !IsMarked(l, key, Seen)
  {
    hide IsMarked;
  }

  lemma UpToIsAccounted(l: Ledger, chat: nat, number: nat, keys: set<Key>, own: set<Key>, key: Key)
    requires Accounted(l, chat, number, keys, own) && key in UpTo(l.messages, chat, number)
    ensures IsMarked(l, key, Seen) || key in keys || key in own
  {
    hide IsMarked;
  }

  /** A prompt's mark newly marks, beside what was accepted, exactly what the transcript left out. */
  lemma MarkedIsPromptedOrOwn(policy: ChatPolicy, w: World, start: Ledger, key: Key)
    requires PollInv(w, start) && LeftOut(w) && Enabled(policy, w, MarkSeen)
    ensures NewlySeen(w.ledger, Taken(policy, w, MarkSeen).ledger, key) ==> key in w.prompted || key in w.poller.own
    ensures key in w.poller.own ==> NewlySeen(w.ledger, Taken(policy, w, MarkSeen).ledger, key)
  {
    var chat, number := w.poller.chat, Last(w.poller.todo[0]);
    assert Accounted(w.ledger, chat, number, w.prompted, w.poller.own);
    hide LedgerInv, IsMarked, Last, UpTo, UnseenUpTo, Accounted, SetLastAgentSeq, SeenExplained, Ingested;
    MarkSeenMarks(policy, w, key);
    if key in UpTo(w.ledger.messages, chat, number) {
      UpToIsAccounted(w.ledger, chat, number, w.prompted, w.poller.own, key);
    }
    if key in w.poller.own {
      UnseenIsUpTo(w.ledger, chat, number, key);
    }
  }

  /** Only the two marks after an acceptance mark anything seen; a command's marks the command. */
  lemma OtherMarks(policy: ChatPolicy, w: World, start: Ledger, step: Step, key: Key)
    requires PollInv(w, start) && (step.MarkSeen? ==> !Enabled(policy, w, step))
    requires NewlySeen(w.ledger, Next(policy, w, step).ledger, key)
    ensures Accepted(w, key)
  {
    var l := w.ledger;
    hide LedgerInv, IsMarked, MarkAll, UpTo, Last, MaxSeq, SeenExplained, Query, Split, Transcript, OwnUnseen,
      OwnUndispatched, Addressed;
    if step.Arrive? {
      assert Store(l, step.input).marks == l.marks;
      SameSeen(l, Store(l, step.input), key);
    } else if Enabled(policy, w, step) {
      match step
      case PassBy =>
        SeenByMarks(l, SetDispatchSeq(l, w.poller.chat, Last(w.poller.todo[0])),
                    UpTo(l.messages, w.poller.chat, Last(w.poller.todo[0])), key);
      case Advance =>
        SeenByMarks(l, SetDispatchSeq(l, w.poller.chat, Last(w.poller.todo[0])),
                    UpTo(l.messages, w.poller.chat, Last(w.poller.todo[0])), key);
      case MarkCommand => MarkAllMarks(l, {KeyOf(w.poller.todo[0].message)}, Seen, key, Seen);
      case _ =>
    }
  }

  lemma SameSeen(a: Ledger, b: Ledger, key: Key)
    requires a.marks == b.marks
    ensures IsMarked(a, key, Seen) == IsMarked(b, key, Seen)
  {
  }

  lemma SeenByMarks(l: Ledger, after: Ledger, keys: set<Key>, key: Key)
    requires after.marks == MarkAll(l.marks, keys, Dispatched)
    ensures IsMarked(after, key, Seen) == IsMarked(l, key, Seen)
  {
  }

  /** A step marks rightly if and only if it overlooks nothing, which can be checked before the step. */
  lemma MarksRightlyIff(policy: ChatPolicy, w: World, start: Ledger, step: Step)
    requires PollInv(w, start) && LeftOut(w)
    ensures MarksRightly(policy, w, step) <==> forall key :: !Overlooks(policy, w, step, key)
  {
    hide PollInv, LeftOut, IsMarked, IsOwn, Accepted, Next, NewlySeen, OwnOf;
    var after := Next(policy, w, step).ledger;
    forall key | NewlySeen(w.ledger, after, key) && !IsOwn(policy, w.ledger, key) && !Accepted(w, key)
      ensures Overlooks(policy, w, step, key)
    {
      if step.MarkSeen? && Enabled(policy, w, step) {
        MarkedIsPromptedOrOwn(policy, w, start, key);
        PromptedIsAccepted(w, key);
        TakenIsNext(policy, w, step);
      } else {
        OtherMarks(policy, w, start, step, key);
      }
    }
    forall key | Overlooks(policy, w, step, key)
      ensures NewlySeen(w.ledger, after, key) && key in after.marks && !IsOwn(policy, w.ledger, key) &&
        !Accepted(w, key)
    {
      PromptedHasSegment(w, start);
      MarkedIsPromptedOrOwn(policy, w, start, key);
      TakenIsNext(policy, w, step);
      SeenHasMark(w.ledger, after, key);
    }
  }

  lemma TakenIsNext(policy: ChatPolicy, w: World, step: Step)
    requires Enabled(policy, w, step)
    ensures Next(policy, w, step) == Taken(policy, w, step)
  {
    hide Enabled, Taken;
  }

  lemma PromptedIsAccepted(w: World, key: Key)
    ensures key in w.prompted ==> Accepted(w, key)
  {
  }

  lemma PromptedHasSegment(w: World, start: Ledger)
    requires PollInv(w, start)
    ensures w.poller.Prompted? ==> w.poller.todo != []
  {
    hide LedgerInv, SeenExplained, Accounted;
  }

  lemma SeenHasMark(before: Ledger, after: Ledger, key: Key)
    ensures NewlySeen(before, after, key) ==> key in after.marks
  {
  }

  predicate AllMarksRight(policy: ChatPolicy, start: Ledger, steps: seq<Step>) {
    forall n :: 0 <= n < |steps| ==> MarksRightly(policy, Run(policy, start, steps[..n]), steps[n])
  }

  ghost predicate NothingOverlooked(policy: ChatPolicy, start: Ledger, steps: seq<Step>) {
    forall n, key :: 0 <= n < |steps| ==> !Overlooks(policy, Run(policy, start, steps[..n]), steps[n], key)
  }

  /**
   In every run, each message that a step marks seen while others are its author was in an accepted
   prompt or was an accepted command, if and only if no mark of the run overlooks a message.
   */
  lemma SeenRightlyIff(policy: ChatPolicy, start: Ledger, steps: seq<Step>)
    requires LedgerInv(start)
    ensures AllMarksRight(policy, start, steps) <==> NothingOverlooked(policy, start, steps)
  {
    hide LedgerInv, Run, MarksRightly, Overlooks, PollInv, LeftOut;
    forall n | 0 <= n < |steps|
      ensures MarksRightly(policy, Run(policy, start, steps[..n]), steps[n]) <==>
        forall key :: !Overlooks(policy, Run(policy, start, steps[..n]), steps[n], key)
    {
      RunLeavesOut(policy, start, steps[..n]);
      MarksRightlyIff(policy, Run(policy, start, steps[..n]), start, steps[n]);
    }
  }

  // ---- Runs that keep authors -------------------------------------------------------------------------

  /** Storing a message again does not change whether the assistant wrote it. */
  predicate KeepsAuthor(policy: ChatPolicy, w: World, step: Step) {
    step.Arrive? ==>
      var found := Find(w.ledger.messages, KeyOf(step.input));
      found.Some? ==> policy.bot(step.input.content) == policy.bot(w.ledger.messages[found.value].content)
  }

  predicate AuthorsKept(policy: ChatPolicy, start: Ledger, steps: seq<Step>) {
    forall n :: 0 <= n < |steps| ==> KeepsAuthor(policy, Run(policy, start, steps[..n]), steps[n])
  }

  /** What polls left out as the assistant's own is the assistant's still. */
  predicate OwnStays(policy: ChatPolicy, w: World) {
    forall key :: key in w.passed + w.omitted + OwnOf(w.poller) ==> IsOwn(policy, w.ledger, key)
  }

  lemma StoreKeepsOwn(policy: ChatPolicy, w: World, input: Message, key: Key)
    requires LedgerInv(w.ledger) && KeepsAuthor(policy, w, Arrive(input)) && IsOwn(policy, w.ledger, key)
    ensures IsOwn(policy, Store(w.ledger, input), key)
  {
    var i :| 0 <= i < |w.ledger.messages| && WroteAt(policy, w.ledger, i, key);
    hide LedgerInv, MaxSeq;
    assert WroteAt(policy, Store(w.ledger, input), i, key);
  }

  lemma OwnUndispatchedIsOwn(policy: ChatPolicy, l: Ledger, chat: nat, key: Key)
    requires key in OwnUndispatched(policy, l, chat)
    ensures IsOwn(policy, l, key)
  {
    var i :| 0 <= i < |l.messages| && policy.bot(l.messages[i].content) && KeyOf(l.messages[i]) == key;
    assert WroteAt(policy, l, i, key);
  }

  /** In a step that keeps authors the assistant's messages stay its own. */
  lemma StepKeepsOwn(policy: ChatPolicy, w: World, step: Step, key: Key)
    requires LedgerInv(w.ledger) && KeepsAuthor(policy, w, step) && IsOwn(policy, w.ledger, key)
    ensures IsOwn(policy, Next(policy, w, step).ledger, key)
  {
    hide LedgerInv, IsOwn, KeepsAuthor, Query, Transcript, Split, Addressed, Store, OwnUnseen, OwnUndispatched, MarkAll,
      UpTo, Last;
    if step.Arrive? {
      StoreKeepsOwn(policy, w, step.input, key);
    } else {
      SameMessagesOwn(policy, w.ledger, Next(policy, w, step).ledger, key);
    }
  }

  lemma OwnStep(policy: ChatPolicy, w: World, step: Step)
    requires LedgerInv(w.ledger) && OwnStays(policy, w) && KeepsAuthor(policy, w, step)
    ensures OwnStays(policy, Next(policy, w, step))
  {
    var after := Next(policy, w, step);
    forall key | key in after.passed + after.omitted + OwnOf(after.poller) ensures IsOwn(policy, after.ledger, key) {
      hide LedgerInv, IsOwn, KeepsAuthor, Query, Transcript, Split, Addressed, Store, OwnUnseen, OwnUndispatched,
        MarkAll, UpTo, Last, SetDispatchSeq, SetLastAgentSeq, MarkCommandSeen;
      if key in w.passed + w.omitted + OwnOf(w.poller) {
        StepKeepsOwn(policy, w, step, key);
      } else if step.StartPoll? {
        OwnUndispatchedIsOwn(policy, w.ledger, step.chat, key);
      } else {
        OwnUnseenIsOwn(policy, w.ledger, w.poller.chat, Last(w.poller.todo[0]), key);
      }
    }
    hide Next, LedgerInv, IsOwn, KeepsAuthor;
  }

  lemma AuthorsPrefix(policy: ChatPolicy, start: Ledger, steps: seq<Step>)
    requires steps != [] && AuthorsKept(policy, start, steps)
    ensures AuthorsKept(policy, start, steps[..|steps| - 1])
    ensures KeepsAuthor(policy, Run(policy, start, steps[..|steps| - 1]), steps[|steps| - 1])
  {
    var prefix := steps[..|steps| - 1];
    hide Run, KeepsAuthor;
    forall n | 0 <= n < |prefix| ensures KeepsAuthor(policy, Run(policy, start, prefix[..n]), prefix[n]) {
      assert prefix[..n] == steps[..n];
    }
  }

  lemma {:induction false} OwnRun(policy: ChatPolicy, start: Ledger, steps: seq<Step>)
    requires LedgerInv(start) && AuthorsKept(policy, start, steps)
    ensures OwnStays(policy, Run(policy, start, steps))
  {
    if steps != [] {
      AuthorsPrefix(policy, start, steps);
      hide LedgerInv, OwnStays, Next, KeepsAuthor, PollInv, AuthorsKept;
      OwnRun(policy, start, steps[..|steps| - 1]);
      RunKeeps(policy, start, steps[..|steps| - 1]);
      PollInvLedger(Run(policy, start, steps[..|steps| - 1]), start);
      OwnStep(policy, Run(policy, start, steps[..|steps| - 1]), steps[|steps| - 1]);
    } else {
      hide LedgerInv, AuthorsKept;
    }
  }

  lemma NothingTurned(policy: ChatPolicy, w: World, step: Step, key: Key)
    requires OwnStays(policy, w)
    ensures !Overlooks(policy, w, step, key)
  {
    hide IsOwn;
  }

  /** Where authors are kept no mark overlooks anything. */
  lemma KeptIsNotOverlooked(policy: ChatPolicy, start: Ledger, steps: seq<Step>)
    requires LedgerInv(start) && AuthorsKept(policy, start, steps)
    ensures NothingOverlooked(policy, start, steps)
  {
    hide LedgerInv, Run, OwnStays, Overlooks, KeepsAuthor;
    forall n, key | 0 <= n < |steps| ensures !Overlooks(policy, Run(policy, start, steps[..n]), steps[n], key) {
      forall m | 0 <= m < n ensures KeepsAuthor(policy, Run(policy, start, steps[..n][..m]), steps[..n][m]) {
        assert steps[..n][..m] == steps[..m];
      }
      OwnRun(policy, start, steps[..n]);
      NothingTurned(policy, Run(policy, start, steps[..n]), steps[n], key);
    }
  }

  // ---- The whole run ----------------------------------------------------------------------------------

  /** Step n of the run marked this message seen. */
  predicate SeenAt(policy: ChatPolicy, start: Ledger, steps: seq<Step>, n: nat, key: Key) {
    n < |steps| && NewlySeen(Run(policy, start, steps[..n]).ledger, Run(policy, start, steps[..n + 1]).ledger, key)
  }

  lemma {:induction false} SeenSomewhere(policy: ChatPolicy, start: Ledger, steps: seq<Step>, key: Key) returns (n: nat)
    requires NewlySeen(start, Run(policy, start, steps).ledger, key)
    ensures SeenAt(policy, start, steps, n, key)
  {
    var last := |steps| - 1;
    hide Next, IsMarked;
    if steps == [] {
      assert false;
    } else if NewlySeen(start, Run(policy, start, steps[..last]).ledger, key) {
      n := SeenSomewhere(policy, start, steps[..last], key);
      assert steps[..last][..n] == steps[..n] && steps[..last][..n + 1] == steps[..n + 1];
    } else {
      n := last;
      assert steps[..n + 1] == steps;
    }
  }

  lemma AcceptedStays(policy: ChatPolicy, w: World, step: Step, key: Key)
    ensures Accepted(w, key) ==> Accepted(Next(policy, w, step), key)
  {
    hide Query, Transcript, Split, Addressed, Store, OwnUnseen, OwnUndispatched, SetDispatchSeq, SetLastAgentSeq,
      MarkCommandSeen, Last, Keys;
  }

  lemma {:induction false} AcceptedForGood(policy: ChatPolicy, start: Ledger, steps: seq<Step>, n: nat, key: Key)
    requires n <= |steps| && Accepted(Run(policy, start, steps[..n]), key)
    ensures Accepted(Run(policy, start, steps), key)
  {
    hide Accepted, Next;
    if n == |steps| {
      assert steps[..n] == steps;
    } else {
      var last := |steps| - 1;
      assert steps[..last][..n] == steps[..n];
      AcceptedForGood(policy, start, steps[..last], n, key);
      AcceptedStays(policy, Run(policy, start, steps[..last]), steps[last], key);
    }
  }

  /**
   In a run whose marks overlook nothing, every message polling marked seen was in an accepted prompt, was
   an accepted command, or was the assistant's own at its mark, whoever its author was before and after.
   */
  lemma SeenWasAcceptedOrOwn(policy: ChatPolicy, start: Ledger, steps: seq<Step>, key: Key) returns (n: nat)
    requires LedgerInv(start) && NothingOverlooked(policy, start, steps)
    requires NewlySeen(start, Run(policy, start, steps).ledger, key)
    ensures SeenAt(policy, start, steps, n, key)
    ensures Accepted(Run(policy, start, steps), key) || IsOwn(policy, Run(policy, start, steps[..n]).ledger, key)
  {
    hide LedgerInv, IsOwn, NothingOverlooked, Accepted, Next;
    SeenRightlyIff(policy, start, steps);
    n := SeenSomewhere(policy, start, steps, key);
    var w := Run(policy, start, steps[..n]);
    assert steps[..n + 1][..n] == steps[..n];
    assert Run(policy, start, steps[..n + 1]) == Next(policy, w, steps[n]);
    SeenHasMark(w.ledger, Next(policy, w, steps[n]).ledger, key);
    assert MarksRightly(policy, w, steps[n]);
    if !IsOwn(policy, w.ledger, key) {
      AcceptedForGood(policy, start, steps, n, key);
    }
  }

  lemma {:induction false} OwnForGood(policy: ChatPolicy, start: Ledger, steps: seq<Step>, n: nat, key: Key)
    requires LedgerInv(start) && AuthorsKept(policy, start, steps)
    requires n <= |steps| && IsOwn(policy, Run(policy, start, steps[..n]).ledger, key)
    ensures IsOwn(policy, Run(policy, start, steps).ledger, key)
  {
    hide IsOwn, Next, KeepsAuthor, LedgerInv, PollInv;
    if n == |steps| {
      assert steps[..n] == steps;
    } else {
      var last := |steps| - 1;
      AuthorsPrefix(policy, start, steps);
      assert steps[..last][..n] == steps[..n];
      hide AuthorsKept;
      OwnForGood(policy, start, steps[..last], n, key);
      RunKeeps(policy, start, steps[..last]);
      PollInvLedger(Run(policy, start, steps[..last]), start);
      StepKeepsOwn(policy, Run(policy, start, steps[..last]), steps[last], key);
    }
  }

  /**
   If stored messages keep their author, every message polling marked seen that the assistant did not
   write was in an accepted prompt or was an accepted command.
   */
  lemma OthersSeenWereAccepted(policy: ChatPolicy, start: Ledger, steps: seq<Step>, key: Key)
    requires LedgerInv(start) && AuthorsKept(policy, start, steps)
    requires var l := Run(policy, start, steps).ledger; NewlySeen(start, l, key) && !IsOwn(policy, l, key)
    ensures Accepted(Run(policy, start, steps), key)
  {
    hide LedgerInv, Run, AuthorsKept, IsMarked, IsOwn, NothingOverlooked, Accepted, NewlySeen;
    KeptIsNotOverlooked(policy, start, steps);
    var n := SeenWasAcceptedOrOwn(policy, start, steps, key);
    if IsOwn(policy, Run(policy, start, steps[..n]).ledger, key) {
      OwnForGood(policy, start, steps, n, key);
    }
  }

  // ---- A message that is overlooked -------------------------------------------------------------------

  const OWN := "paws: hi"
  const OTHER := "hello"

  function Heard(id: nat, content: string): Message {
    Message(id, 0, id, content, 0, false, None)
  }

  const OVERLOOKED := [StartPoll(0), ReadTranscript, AcceptPrompt, Arrive(Heard(1, OTHER)), MarkSeen]

  /** Two messages nobody polled yet; the first one's author is about to change. */
  function Pair(first: string): Ledger {
    Ledger([Heard(1, first), Heard(2, OTHER)], map[], map[], map[])
  }

  const TODO := [Messages([Heard(2, OTHER)])]

  predicate Typical(policy: ChatPolicy) {
    policy.bot(OWN) && !policy.bot(OTHER)
  }

  /** A world of this story after its poll has started. */
  function During(first: string, poller: Poller, prompted: set<Key>): World {
    World(Pair(first), poller, prompted, {}, {}, {Key(1, 0)})
  }

  lemma OneWaiting(policy: ChatPolicy, kind: Kind)
    requires Typical(policy)
    ensures Query(Pair(OWN), 0, kind, policy.bot) == [Heard(2, OTHER)]
  {
    var l := Pair(OWN);
    assert Select(l, 1, 0, 0, kind, policy.bot) == [];
    assert Select(l, 2, 0, 0, kind, policy.bot) == [Heard(2, OTHER)];
  }

  lemma PollStarts(policy: ChatPolicy)
    requires Typical(policy)
    ensures Next(policy, World(Pair(OWN), Idle, {}, {}, {}, {}), StartPoll(0)) == During(OWN, Walking(0, TODO), {})
  {
    OneWaiting(policy, Dispatched);
    assert OwnUndispatched(policy, Pair(OWN), 0) == {Key(1, 0)} by {
      assert KeyOf(Pair(OWN).messages[0]) == Key(1, 0);
    }
    assert [Heard(2, OTHER)][..0] == [];
    assert Split(policy, [Heard(2, OTHER)]) == TODO;
    hide Query, OwnUndispatched;
  }

  lemma TranscriptRead(policy: ChatPolicy)
    requires Typical(policy) && policy.responds(OTHER)
    ensures Next(policy, During(OWN, Walking(0, TODO), {}), ReadTranscript) ==
      During(OWN, Read(0, TODO, [Heard(2, OTHER)], {Key(1, 0)}), {})
  {
    OneWaiting(policy, Seen);
    assert [Heard(2, OTHER)][..0] == [];
    assert NotAfter([Heard(2, OTHER)], 2) == [Heard(2, OTHER)];
    assert Transcript(policy, Pair(OWN), 0, TODO[0]) == [Heard(2, OTHER)];
    assert policy.responds(TODO[0].batch[0].content);
    assert OwnUnseen(policy, Pair(OWN), 0, 2) == {Key(1, 0)} by {
      assert KeyOf(Pair(OWN).messages[0]) == Key(1, 0);
    }
    hide Query, NotAfter, OwnUnseen, Transcript;
  }

  lemma PromptAccepted(policy: ChatPolicy)
    ensures Next(policy, During(OWN, Read(0, TODO, [Heard(2, OTHER)], {Key(1, 0)}), {}), AcceptPrompt) ==
      During(OWN, Prompted(0, TODO, {Key(1, 0)}), {Key(2, 0)})
  {
    assert KeyOf([Heard(2, OTHER)][0]) == Key(2, 0);
    assert Keys([Heard(2, OTHER)]) == {Key(2, 0)};
  }

  lemma AuthorChanges(policy: ChatPolicy, poller: Poller, prompted: set<Key>)
    ensures Next(policy, During(OWN, poller, prompted), Arrive(Heard(1, OTHER))) == During(OTHER, poller, prompted)
  {
    assert KeyOf(Pair(OWN).messages[0]) == KeyOf(Heard(1, OTHER)) &&
      KeyOf(Pair(OWN).messages[1]) != KeyOf(Heard(1, OTHER));
    assert Find(Pair(OWN).messages, KeyOf(Heard(1, OTHER))) == Some(0);
    assert Store(Pair(OWN), Heard(1, OTHER)).messages == Pair(OTHER).messages;
    hide Find;
  }

  lemma BothMarked(policy: ChatPolicy)
    ensures var w := Next(policy, During(OTHER, Prompted(0, TODO, {Key(1, 0)}), {Key(2, 0)}), MarkSeen);
      && IsMarked(w.ledger, Key(1, 0), Seen) && w.ledger.messages == Pair(OTHER).messages
      && w.prompted == {Key(2, 0)} && w.commanded == {}
  {
    assert KeyOf(Pair(OTHER).messages[0]) == Key(1, 0);
    assert Key(1, 0) in UpTo(Pair(OTHER).messages, 0, 2);
    MarkAllMarks(Pair(OTHER), UpTo(Pair(OTHER).messages, 0, 2), Seen, Key(1, 0), Seen);
    hide MarkAll, UpTo, IsMarked;
  }

  lemma RunStep(policy: ChatPolicy, start: Ledger, steps: seq<Step>, n: nat)
    requires n < |steps|
    ensures Run(policy, start, steps[..n + 1]) == Next(policy, Run(policy, start, steps[..n]), steps[n])
  {
    assert steps[..n + 1][..n] == steps[..n];
    hide Next;
  }

  /**
   A mark can overlook a message: one of the assistant's that is stored again as someone else's between
   the transcript and the mark is marked seen although no prompt ever contained it.
   */
  lemma ChangedAuthorIsOverlooked(policy: ChatPolicy)
    requires Typical(policy) && policy.responds(OTHER)
    ensures var w := Run(policy, Pair(OWN), OVERLOOKED);
      && LedgerInv(Pair(OWN)) && !IsOwn(policy, w.ledger, Key(1, 0))
      && IsMarked(w.ledger, Key(1, 0), Seen) && !IsMarked(Pair(OWN), Key(1, 0), Seen)
      && Key(1, 0) !in w.prompted && Key(1, 0) !in w.commanded
  {
    hide Run, Next, IsMarked, IsOwn, LedgerInv, Pair;
    OverlookedRun(policy);
    BothMarked(policy);
    PairFacts(policy, Run(policy, Pair(OWN), OVERLOOKED).ledger);
  }

  lemma OverlookedRun(policy: ChatPolicy)
    requires Typical(policy) && policy.responds(OTHER)
    ensures Run(policy, Pair(OWN), OVERLOOKED) ==
      Next(policy, During(OTHER, Prompted(0, TODO, {Key(1, 0)}), {Key(2, 0)}), MarkSeen)
  {
    hide Run, Next, Pair;
    var start := Pair(OWN);
    RunStart(policy, start, OVERLOOKED);
    assert OVERLOOKED[..5] == OVERLOOKED;
    RunStep(policy, start, OVERLOOKED, 0);
    RunStep(policy, start, OVERLOOKED, 1);
    RunStep(policy, start, OVERLOOKED, 2);
    RunStep(policy, start, OVERLOOKED, 3);
    RunStep(policy, start, OVERLOOKED, 4);
    PollStarts(policy);
    TranscriptRead(policy);
    PromptAccepted(policy);
    AuthorChanges(policy, Prompted(0, TODO, {Key(1, 0)}), {Key(2, 0)});
  }

  lemma RunStart(policy: ChatPolicy, start: Ledger, steps: seq<Step>)
    ensures Run(policy, start, steps[..0]) == World(start, Idle, {}, {}, {}, {})
  {
    assert steps[..0] == [];
  }

  lemma PairFacts(policy: ChatPolicy, l: Ledger)
    requires Typical(policy) && l.messages == Pair(OTHER).messages
    ensures LedgerInv(Pair(OWN)) && !IsMarked(Pair(OWN), Key(1, 0), Seen) && !IsOwn(policy, l, Key(1, 0))
  {
    hide MaxSeq;
  }
}

/**
 When no message is lost between the dispatch cursor and the relay: what a poll moves the dispatch mark
 past was in a segment it passed by as unaddressed, or was accepted before, unless it was left out as the
 assistant's own and has become somebody's since.
 */
module PollDispatch {
  import opened Identities
  import opened LedgerTables
  import opened PollChat
  import opened ChangedAuthors
  import opened WhatsAppPolls

  /** The number of the last message still to be walked. */
  function End(todo: seq<Segment>): nat {
    var all := Flatten(todo);
    if all == [] then 0 else all[|all| - 1].number
  }

  /** The ledger's message with this key still has this number. */
  predicate Recorded(l: Ledger, chat: nat, m: Message) {
    exists i :: 0 <= i < |l.messages| && SameMessage(l.messages[i], m) && m.chat == chat
  }

  predicate SameMessage(a: Message, b: Message) {
    KeyOf(a) == KeyOf(b) && a.number == b.number
  }

  /** An undispatched message of others, as the ledger has it now. */
  predicate Owed(policy: ChatPolicy, l: Ledger, chat: nat, i: nat) {
    i < |l.messages| && Wanted(l, l.messages[i], chat, Dispatched, policy.bot)
  }

  /** An undispatched message, whoever wrote it. */
  predicate Waiting(l: Ledger, chat: nat, i: nat) {
    i < |l.messages| && l.messages[i].chat == chat && !IsMarked(l, KeyOf(l.messages[i]), Dispatched)
  }

  /** Up to its end, the walk covers exactly what waits, save what the query left out. */
  predicate Covers(policy: ChatPolicy, l: Ledger, chat: nat, todo: seq<Segment>, omitted: set<Key>) {
    && Proper(policy, todo)
    && Increasing(Flatten(todo))
    && End(todo) <= MaxSeq(l.messages)
    && (forall k :: 0 <= k < |Flatten(todo)| ==> Recorded(l, chat, Flatten(todo)[k]))
    && (forall i :: 0 <= i < |l.messages| && Waiting(l, chat, i) && l.messages[i].number <= End(todo) ==>
          KeyOf(l.messages[i]) in Keys(Flatten(todo)) || KeyOf(l.messages[i]) in omitted)
    && (forall m :: m in Flatten(todo) ==> KeyOf(m) !in omitted)
  }

  /** Every message of the chat up to this number is marked seen. */
  predicate AllSeen(l: Ledger, chat: nat, number: nat) {
    forall i :: 0 <= i < |l.messages| && l.messages[i].chat == chat && l.messages[i].number <= number ==>
      IsMarked(l, KeyOf(l.messages[i]), Seen)
  }

  /** After a prompt's mark everything up to the segment's end is seen; after a command's, the command is commanded. */
  predicate Marked(w: World) {
    match w.poller
    case SeenMarked(chat, todo) =>
      todo != [] ==> AllSeen(w.ledger, chat, Last(todo[0]))
    case CommandMarked(_, todo) => todo != [] && todo[0].CommandOf? ==> KeyOf(todo[0].message) in w.commanded
    case Commanded(_, todo) => todo != [] && todo[0].CommandOf? ==> KeyOf(todo[0].message) in w.commanded
    case _ => true
  }

  predicate WalkInv(policy: ChatPolicy, w: World) {
    && (!w.poller.Idle? ==> Covers(policy, w.ledger, w.poller.chat, w.poller.todo, w.omitted))
    && Marked(w)
    && (w.poller.Commanded? || w.poller.CommandMarked? ==> w.poller.todo != [] && w.poller.todo[0].CommandOf?)
    && (w.poller.Read? || w.poller.Prompted? || w.poller.SeenMarked? ==>
          w.poller.todo != [] && w.poller.todo[0].Messages?)
  }

  // ---- Starting ---------------------------------------------------------------------------------------

  lemma EndIsIngested(l: Ledger, chat: nat, bot: FromAssistant, todo: seq<Segment>)
    requires Flatten(todo) == Unmarked(l, |l.messages|, chat, Dispatched, bot)
    ensures End(todo) <= MaxSeq(l.messages)
  {
    var all := Flatten(todo);
    if all != [] {
      UnmarkedMembers(l, |l.messages|, chat, Dispatched, bot, all[|all| - 1]);
      IngestedBound(l, all[|all| - 1]);
    }
    hide Unmarked, MaxSeq;
  }

  lemma StartCovers(policy: ChatPolicy, l: Ledger, chat: nat)
    requires LedgerInv(l)
    ensures Covers(policy, l, chat, Split(policy, Query(l, chat, Dispatched, policy.bot)),
      OwnUndispatched(policy, l, chat))
  {
    hide Query, Split, Proper, Increasing, MaxSeq, Unmarked, OwnUndispatched, LedgerInv, Recorded, Waiting, Keys;
    var waiting := Query(l, chat, Dispatched, policy.bot);
    var todo := Split(policy, waiting);
    QueryIsUnmarked(l, chat, Dispatched, policy.bot);
    SplitIsPartition(policy, waiting);
    hide Flatten;
    GoodTableOf(l);
    UnmarkedIncreases(l, |l.messages|, chat, Dispatched, policy.bot);
    EndIsIngested(l, chat, policy.bot, todo);
    forall k | 0 <= k < |Flatten(todo)| ensures Recorded(l, chat, Flatten(todo)[k]) {
      WaitingIsRecorded(policy, l, chat, waiting, k);
    }
    forall i | 0 <= i < |l.messages| && Waiting(l, chat, i)
      ensures KeyOf(l.messages[i]) in Keys(waiting) || KeyOf(l.messages[i]) in OwnUndispatched(policy, l, chat)
    {
      WaitingIsFetched(policy, l, chat, i);
    }
    forall m | m in waiting ensures KeyOf(m) !in OwnUndispatched(policy, l, chat) {
      FetchedIsNotOwn(policy, l, chat, m);
    }
  }

  /** The query leaves out the assistant's own messages and no other that waits. */
  lemma WaitingIsFetched(policy: ChatPolicy, l: Ledger, chat: nat, i: nat)
    requires Waiting(l, chat, i)
    ensures KeyOf(l.messages[i]) in Keys(Unmarked(l, |l.messages|, chat, Dispatched, policy.bot))
      || KeyOf(l.messages[i]) in OwnUndispatched(policy, l, chat)
  {
    if !policy.bot(l.messages[i].content) {
      UnmarkedMembers(l, |l.messages|, chat, Dispatched, policy.bot, l.messages[i]);
      assert l.messages[i] in l.messages[..|l.messages|];
      HasKey(Unmarked(l, |l.messages|, chat, Dispatched, policy.bot), l.messages[i]);
    }
    hide Unmarked, IsMarked, Keys;
  }

  lemma FetchedIsNotOwn(policy: ChatPolicy, l: Ledger, chat: nat, m: Message)
    requires GoodTable(l.messages) && m in Unmarked(l, |l.messages|, chat, Dispatched, policy.bot)
    ensures KeyOf(m) !in OwnUndispatched(policy, l, chat)
  {
    UnmarkedMembers(l, |l.messages|, chat, Dispatched, policy.bot, m);
    var i :| 0 <= i < |l.messages| && l.messages[i] == m;
    hide Unmarked, IsMarked;
  }

  lemma WaitingIsRecorded(policy: ChatPolicy, l: Ledger, chat: nat, waiting: seq<Message>, k: nat)
    requires waiting == Unmarked(l, |l.messages|, chat, Dispatched, policy.bot) && k < |waiting|
    ensures Recorded(l, chat, waiting[k])
  {
    UnmarkedMembers(l, |l.messages|, chat, Dispatched, policy.bot, waiting[k]);
    var i :| 0 <= i < |l.messages| && l.messages[i] == waiting[k];
    assert SameMessage(l.messages[i], waiting[k]);
    hide Unmarked, IsMarked;
  }

  // ---- Arrivals ---------------------------------------------------------------------------------------

  lemma ArriveCovers(policy: ChatPolicy, l: Ledger, input: Message, chat: nat, todo: seq<Segment>, omitted: set<Key>)
    requires LedgerInv(l) && Covers(policy, l, chat, todo, omitted)
    ensures Covers(policy, Store(l, input), chat, todo, omitted)
  {
    var after := Store(l, input);
    StoreShape(l, input);
    hide LedgerInv, Store, MaxSeq, Proper, Increasing, Flatten, Keys, End;
    forall k | 0 <= k < |Flatten(todo)| ensures Recorded(after, chat, Flatten(todo)[k]) {
      assert Recorded(l, chat, Flatten(todo)[k]);
      var i :| 0 <= i < |l.messages| && SameMessage(l.messages[i], Flatten(todo)[k]);
      assert SameMessage(after.messages[i], Flatten(todo)[k]);
    }
    forall i | 0 <= i < |after.messages| && Waiting(after, chat, i) && after.messages[i].number <= End(todo)
      ensures KeyOf(after.messages[i]) in Keys(Flatten(todo)) || KeyOf(after.messages[i]) in omitted
    {
      assert i < |l.messages|;
      assert KeyOf(after.messages[i]) == KeyOf(l.messages[i]);
      assert Waiting(l, chat, i);
    }
  }

  // ---- Moving the dispatch mark ---------------------------------------------------------------------------

  /** Seen marks leave what waits for dispatch. */
  lemma SeenAside(policy: ChatPolicy, l: Ledger, keys: set<Key>, agentSeq: map<nat, nat>, chat: nat, todo: seq<Segment>,
                  omitted: set<Key>)
    requires Covers(policy, l, chat, todo, omitted)
    ensures Covers(policy, Ledger(l.messages, MarkAll(l.marks, keys, Seen), l.dispatchSeq, agentSeq), chat, todo,
      omitted)
  {
    var after := Ledger(l.messages, MarkAll(l.marks, keys, Seen), l.dispatchSeq, agentSeq);
    hide MaxSeq, Proper, Increasing, Flatten, Keys, End;
    forall k | 0 <= k < |Flatten(todo)| ensures Recorded(after, chat, Flatten(todo)[k]) {
      assert Recorded(l, chat, Flatten(todo)[k]);
    }
    forall i | 0 <= i < |l.messages| && Waiting(after, chat, i) ensures Waiting(l, chat, i) {
      MarkAllMarks(l, keys, Seen, KeyOf(l.messages[i]), Dispatched);
      hide MarkAll;
    }
    hide Waiting, MarkAll;
  }

  lemma WaitingAfter(l: Ledger, chat: nat, number: nat, i: nat)
    requires GoodTable(l.messages) && i < |l.messages|
    ensures Waiting(SetDispatchSeq(l, chat, number), chat, i) <==> Waiting(l, chat, i) && l.messages[i].number > number
  {
    MarkAllMarks(l, UpTo(l.messages, chat, number), Dispatched, KeyOf(l.messages[i]), Dispatched);
    UpToByNumber(l, i, number);
    hide GoodTable, MarkAll, UpTo;
  }

  /** What a chat is owed is what waits and the assistant did not write. */
  lemma OwedWaits(policy: ChatPolicy, l: Ledger, chat: nat, i: nat)
    ensures Owed(policy, l, chat, i) <==> Waiting(l, chat, i) && !policy.bot(l.messages[i].content)
  {
    hide IsMarked;
  }

  lemma OwedAfter(policy: ChatPolicy, l: Ledger, chat: nat, number: nat, i: nat)
    requires GoodTable(l.messages) && i < |l.messages|
    ensures Owed(policy, SetDispatchSeq(l, chat, number), chat, i) <==>
      Owed(policy, l, chat, i) && l.messages[i].number > number
  {
    WantedAfter(l, i, chat, number, policy.bot);
    hide SetDispatchSeq, Wanted, GoodTable;
  }

  lemma FirstAndLater(first: seq<Message>, later: seq<Message>, m: Message)
    requires first != [] && Increasing(first + later) && m in first + later
    ensures m.number <= first[|first| - 1].number ==> m in first
    ensures m.number > first[|first| - 1].number ==> m in later
  {
    var all, n := first + later, |first|;
    var k :| 0 <= k < |all| && all[k] == m;
    if k < n {
      assert m == first[k] && first[n - 1] == all[n - 1];
    } else {
      assert m == later[k - n] && first[n - 1] == all[n - 1];
    }
  }

  lemma LaterIncreases(first: seq<Message>, later: seq<Message>)
    requires Increasing(first + later)
    ensures Increasing(later)
  {
    var all, n := first + later, |first|;
    forall i, j | 0 <= i < j < |later| ensures later[i].number < later[j].number {
      assert later[i] == all[n + i] && later[j] == all[n + j];
    }
  }

  lemma EndOfParts(first: seq<Message>, later: seq<Message>, todo: seq<Segment>, rest: seq<Segment>)
    requires first != [] && Increasing(first + later) && Flatten(todo) == first + later && Flatten(rest) == later
    ensures End(rest) <= End(todo) && first[|first| - 1].number <= End(todo)
  {
    var all, n := first + later, |first|;
    assert first[n - 1] == all[n - 1];
    if later != [] {
      assert all[|all| - 1] == later[|later| - 1];
    }
    hide Flatten;
  }

  /** The later segments hold exactly the walk's messages beyond the first segment. */
  lemma RestOfWalk(policy: ChatPolicy, todo: seq<Segment>)
    requires todo != [] && Proper(policy, todo) && Increasing(Flatten(todo))
    ensures Proper(policy, todo[1..]) && Increasing(Flatten(todo[1..])) && End(todo[1..]) <= End(todo)
    ensures Last(todo[0]) <= End(todo)
    ensures forall m :: m in Flatten(todo) && m.number <= Last(todo[0]) ==> m in Contents(todo[0])
    ensures forall m :: m in Flatten(todo) && m.number > Last(todo[0]) ==> m in Flatten(todo[1..])
    ensures forall m :: m in Flatten(todo[1..]) ==> m in Flatten(todo)
  {
    hide Flatten, Proper, Last, Contents, End, Increasing;
    FlattenFront(todo);
    FirstSegment(policy, todo);
    ProperTail(policy, todo);
    var first, later := Contents(todo[0]), Flatten(todo[1..]);
    LaterIncreases(first, later);
    EndOfParts(first, later, todo, todo[1..]);
    forall m | m in Flatten(todo)
      ensures (m.number <= Last(todo[0]) ==> m in first) && (m.number > Last(todo[0]) ==> m in later)
    {
      FirstAndLater(first, later, m);
    }
  }

  lemma ProperTail(policy: ChatPolicy, todo: seq<Segment>)
    requires todo != [] && Proper(policy, todo)
    ensures Proper(policy, todo[1..])
  {
    hide ProperSegment;
  }

  lemma KeyIn(messages: seq<Message>, key: Key) returns (m: Message)
    requires key in Keys(messages)
    ensures m in messages && KeyOf(m) == key
  {
    var i :| 0 <= i < |messages| && KeyOf(messages[i]) == key;
    m := messages[i];
  }

  /** A key of the walk carries the ledger's own number. */
  lemma WalkNumber(policy: ChatPolicy, l: Ledger, chat: nat, todo: seq<Segment>, omitted: set<Key>, i: nat)
      returns (m: Message)
    requires GoodTable(l.messages) && Covers(policy, l, chat, todo, omitted) && i < |l.messages|
    requires KeyOf(l.messages[i]) in Keys(Flatten(todo))
    ensures m in Flatten(todo) && KeyOf(m) == KeyOf(l.messages[i]) && m.number == l.messages[i].number
  {
    m := KeyIn(Flatten(todo), KeyOf(l.messages[i]));
    var k :| 0 <= k < |Flatten(todo)| && Flatten(todo)[k] == m;
    assert Recorded(l, chat, Flatten(todo)[k]);
    var j :| 0 <= j < |l.messages| && SameMessage(l.messages[j], m);
    assert i == j;
    hide Flatten, Keys, Proper, Increasing, MaxSeq, Waiting;
  }

  /** What waits up to the end of the first segment is in it or was left out. */
  lemma FirstIsCovered(policy: ChatPolicy, l: Ledger, chat: nat, todo: seq<Segment>, omitted: set<Key>, i: nat)
    requires GoodTable(l.messages) && todo != [] && Covers(policy, l, chat, todo, omitted)
    requires Waiting(l, chat, i) && l.messages[i].number <= Last(todo[0])
    ensures KeyOf(l.messages[i]) in Keys(Contents(todo[0])) || KeyOf(l.messages[i]) in omitted
    ensures KeyOf(l.messages[i]) in Keys(Contents(todo[0])) ==> KeyOf(l.messages[i]) !in omitted
  {
    assert i < |l.messages|;
    hide GoodTable, Flatten, Keys, Last, Contents, Proper, Increasing, MaxSeq, End, Recorded, Waiting;
    RestOfWalk(policy, todo);
    var key := KeyOf(l.messages[i]);
    if key in Keys(Flatten(todo)) {
      var m := WalkNumber(policy, l, chat, todo, omitted, i);
      HasKey(Contents(todo[0]), m);
    }
    if key in Keys(Contents(todo[0])) {
      var m := KeyIn(Contents(todo[0]), key);
      FlattenHas(todo, 0, m);
    }
  }

  lemma AdvanceCovers(policy: ChatPolicy, l: Ledger, chat: nat, todo: seq<Segment>, omitted: set<Key>)
    requires GoodTable(l.messages) && todo != [] && Covers(policy, l, chat, todo, omitted)
    ensures Covers(policy, SetDispatchSeq(l, chat, Last(todo[0])), chat, todo[1..], omitted)
  {
    hide SetDispatchSeq, GoodTable, Flatten, Keys, Last, Contents, Proper, Increasing, MaxSeq, End, Recorded, Waiting;
    var after := SetDispatchSeq(l, chat, Last(todo[0]));
    SameLedgerMessages(l, chat, Last(todo[0]));
    RestOfWalk(policy, todo);
    forall k | 0 <= k < |Flatten(todo[1..])| ensures Recorded(after, chat, Flatten(todo[1..])[k]) {
      StillRecorded(l, after, chat, todo, Flatten(todo[1..])[k]);
    }
    forall i | 0 <= i < |after.messages| && Waiting(after, chat, i) && after.messages[i].number <= End(todo[1..])
      ensures KeyOf(after.messages[i]) in Keys(Flatten(todo[1..])) || KeyOf(after.messages[i]) in omitted
    {
      WaitingAfter(l, chat, Last(todo[0]), i);
      if KeyOf(l.messages[i]) !in omitted {
        var m := WalkNumber(policy, l, chat, todo, omitted, i);
        HasKey(Flatten(todo[1..]), m);
      }
    }
  }

  lemma SameLedgerMessages(l: Ledger, chat: nat, number: nat)
    ensures SetDispatchSeq(l, chat, number).messages == l.messages
  {
  }

  lemma StillRecorded(l: Ledger, after: Ledger, chat: nat, todo: seq<Segment>, m: Message)
    requires after.messages == l.messages && m in Flatten(todo)
    requires forall k :: 0 <= k < |Flatten(todo)| ==> Recorded(l, chat, Flatten(todo)[k])
    ensures Recorded(after, chat, m)
  {
    hide Flatten;
    var j :| 0 <= j < |Flatten(todo)| && Flatten(todo)[j] == m;
    assert Recorded(l, chat, Flatten(todo)[j]);
  }

  // ---- Every run --------------------------------------------------------------------------------------------

  lemma SeenStaysMarked(l: Ledger, input: Message, chat: nat, number: nat)
    requires LedgerInv(l) && number <= MaxSeq(l.messages)
    requires AllSeen(l, chat, number)
    ensures AllSeen(Store(l, input), chat, number)
  {
    StoreShape(l, input);
    var after := Store(l, input);
    hide LedgerInv, Store, MaxSeq;
    forall i | 0 <= i < |after.messages| && after.messages[i].chat == chat && after.messages[i].number <= number
      ensures IsMarked(after, KeyOf(after.messages[i]), Seen)
    {
      assert KeyOf(after.messages[i]) == KeyOf(l.messages[i]);
    }
  }

  lemma UpToIsSeen(l: Ledger, chat: nat, number: nat)
    ensures AllSeen(SetLastAgentSeq(l, chat, number), chat, number)
  {
    forall i | 0 <= i < |l.messages| && l.messages[i].chat == chat && l.messages[i].number <= number
      ensures IsMarked(SetLastAgentSeq(l, chat, number), KeyOf(l.messages[i]), Seen)
    {
      MarkAllMarks(l, UpTo(l.messages, chat, number), Seen, KeyOf(l.messages[i]), Seen);
    }
  }

  lemma ArriveWalks(policy: ChatPolicy, w: World, start: Ledger, input: Message)
    requires PollInv(w, start) && WalkInv(policy, w)
    ensures WalkInv(policy, w.(ledger := Store(w.ledger, input)))
  {
    hide LedgerInv, Covers, Store, Last, SeenExplained, IsMarked, MaxSeq;
    if !w.poller.Idle? {
      ArriveCovers(policy, w.ledger, input, w.poller.chat, w.poller.todo, w.omitted);
    }
    if w.poller.SeenMarked? {
      SeenStaysMarked(w.ledger, input, w.poller.chat, Last(w.poller.todo[0]));
    }
  }

  lemma GoodTableOf(l: Ledger)
    requires LedgerInv(l)
    ensures GoodTable(l.messages)
  {
  }

  lemma MarkSeenWalks(policy: ChatPolicy, l: Ledger, chat: nat, todo: seq<Segment>, omitted: set<Key>)
    requires todo != [] && Covers(policy, l, chat, todo, omitted)
    ensures var after := SetLastAgentSeq(l, chat, Last(todo[0]));
      AllSeen(after, chat, Last(todo[0])) && Covers(policy, after, chat, todo, omitted)
  {
    hide Covers, AllSeen, Last, MarkAll, UpTo;
    UpToIsSeen(l, chat, Last(todo[0]));
    SeenAside(policy, l, UpTo(l.messages, chat, Last(todo[0])), l.agentSeq[chat := Last(todo[0])], chat, todo,
              omitted);
  }

  lemma MarkCommandWalks(policy: ChatPolicy, l: Ledger, key: Key, chat: nat, todo: seq<Segment>, omitted: set<Key>)
    requires Covers(policy, l, chat, todo, omitted)
    ensures Covers(policy, MarkCommandSeen(l, key), chat, todo, omitted)
  {
    hide Covers, MarkAll;
    SeenAside(policy, l, {key}, l.agentSeq, chat, todo, omitted);
  }

  lemma StartWalks(policy: ChatPolicy, w: World, chat: nat)
    requires LedgerInv(w.ledger) && Enabled(policy, w, StartPoll(chat))
    ensures WalkInv(policy, Taken(policy, w, StartPoll(chat)))
  {
    hide LedgerInv, Covers, Query, Split, OwnUndispatched;
    StartCovers(policy, w.ledger, chat);
  }

  /** Passing a segment by, or finishing it, leaves a walk over the later ones. */
  lemma MoveWalks(policy: ChatPolicy, w: World, step: Step)
    requires GoodTable(w.ledger.messages) && WalkInv(policy, w) && Enabled(policy, w, step) &&
      (step.PassBy? || step.Advance?)
    ensures WalkInv(policy, Taken(policy, w, step))
  {
    hide GoodTable, Covers, SetDispatchSeq, Last, Addressed, AllSeen;
    AdvanceCovers(policy, w.ledger, w.poller.chat, w.poller.todo, w.omitted);
  }

  lemma MarkWalks(policy: ChatPolicy, w: World, step: Step)
    requires WalkInv(policy, w) && Enabled(policy, w, step) && (step.MarkSeen? || step.MarkCommand?)
    ensures WalkInv(policy, Taken(policy, w, step))
  {
    hide Covers, SetLastAgentSeq, MarkCommandSeen, Last, AllSeen;
    if step.MarkSeen? {
      MarkSeenWalks(policy, w.ledger, w.poller.chat, w.poller.todo, w.omitted);
    } else {
      MarkCommandWalks(policy, w.ledger, KeyOf(w.poller.todo[0].message), w.poller.chat, w.poller.todo,
                       w.omitted);
    }
  }

  /** The steps that write nothing to the ledger. */
  lemma TalkWalks(policy: ChatPolicy, w: World, step: Step)
    requires WalkInv(policy, w) && Enabled(policy, w, step)
    requires step.ReadTranscript? || step.AcceptPrompt? || step.AcceptCommand? || step.Crash?
    ensures WalkInv(policy, Taken(policy, w, step))
  {
    hide Covers, Last, AllSeen, Transcript, OwnUnseen, Addressed, Keys;
  }

  lemma StepWalks(policy: ChatPolicy, w: World, start: Ledger, step: Step)
    requires PollInv(w, start) && WalkInv(policy, w)
    ensures WalkInv(policy, Next(policy, w, step))
  {
    PollInvLedger(w, start);
    GoodTableOf(w.ledger);
    hide PollInv, LedgerInv, GoodTable, WalkInv, Enabled;
    if Enabled(policy, w, step) {
      if step.Arrive? {
        ArriveWalks(policy, w, start, step.input);
      } else {
        hide Taken;
        match step
        case Arrive(_) =>
        case StartPoll(chat) => StartWalks(policy, w, chat);
        case PassBy => MoveWalks(policy, w, step);
        case Advance => MoveWalks(policy, w, step);
        case MarkSeen => MarkWalks(policy, w, step);
        case MarkCommand => MarkWalks(policy, w, step);
        case ReadTranscript => TalkWalks(policy, w, step);
        case AcceptPrompt => TalkWalks(policy, w, step);
        case AcceptCommand => TalkWalks(policy, w, step);
        case Crash => TalkWalks(policy, w, step);
      }
    }
  }

  lemma {:induction false} RunWalks(policy: ChatPolicy, start: Ledger, steps: seq<Step>)
    requires LedgerInv(start)
    ensures WalkInv(policy, Run(policy, start, steps))
  {
    if steps != [] {
      hide LedgerInv, WalkInv, PollInv, Next;
      RunWalks(policy, start, steps[..|steps| - 1]);
      RunKeeps(policy, start, steps[..|steps| - 1]);
      StepWalks(policy, Run(policy, start, steps[..|steps| - 1]), start, steps[|steps| - 1]);
    } else {
      hide LedgerInv;
    }
  }

  // ---- Exactly when nothing is lost -------------------------------------------------------------------

  /** The step takes this message off what the chat is owed. */
  predicate PaidOff(policy: ChatPolicy, w: World, step: Step, i: nat)
    requires !w.poller.Idle?
  {
    Owed(policy, w.ledger, w.poller.chat, i) && !Owed(policy, Next(policy, w, step).ledger, w.poller.chat, i)
  }

  /** It was in an accepted prompt, was an accepted command, or was imported as seen. */
  predicate TakenIn(w: World, start: Ledger, key: Key) {
    Accepted(w, key) || IsMarked(start, key, Seen)
  }

  /** Passed by with its segment, none of which addresses the assistant, or taken in before. */
  predicate Handled(policy: ChatPolicy, w: World, start: Ledger, step: Step, i: nat)
    requires !w.poller.Idle? && w.poller.todo != [] && i < |w.ledger.messages|
  {
    var key, segment := KeyOf(w.ledger.messages[i]), w.poller.todo[0];
    if step.PassBy? then key in Keys(Contents(segment)) && !Addressed(policy, Contents(segment))
    else TakenIn(w, start, key)
  }

  /**
   A message up to the segment's end that is owed although the poll left it out as the assistant's own:
   out of the prompt, where the segment was prompted, or else out of the poll's query.
   */
  predicate Turned(policy: ChatPolicy, w: World, i: nat)
    requires !w.poller.Idle? && w.poller.todo != []
  {
    && Owed(policy, w.ledger, w.poller.chat, i)
    && w.ledger.messages[i].number <= Last(w.poller.todo[0])
    && KeyOf(w.ledger.messages[i]) in if w.poller.SeenMarked? then w.passed else w.omitted
  }

  predicate Moves(policy: ChatPolicy, w: World, step: Step) {
    (step.PassBy? || step.Advance?) && Enabled(policy, w, step)
  }

  /**
   At every point of every run, moving the dispatch mark loses no message if and only if no message up to
   the segment's end has turned from the assistant's own to owed, save ones taken in before. It can be
   checked before the move.
   */
  lemma NothingIsLostIff(policy: ChatPolicy, start: Ledger, steps: seq<Step>, step: Step)
    requires LedgerInv(start) && Moves(policy, Run(policy, start, steps), step)
    ensures var w := Run(policy, start, steps);
      (forall i :: 0 <= i < |w.ledger.messages| && PaidOff(policy, w, step, i) ==>
        Handled(policy, w, start, step, i)) <==>
      (forall i :: 0 <= i < |w.ledger.messages| && Turned(policy, w, i) ==>
         step.Advance? && TakenIn(w, start, KeyOf(w.ledger.messages[i])))
  {
    var w := Run(policy, start, steps);
    RunWalks(policy, start, steps);
    RunKeeps(policy, start, steps);
    hide Run, LedgerInv, PollInv, WalkInv, PaidOff, Turned, Handled, TakenIn;
    forall i | 0 <= i < |w.ledger.messages|
      ensures Turned(policy, w, i) ==> PaidOff(policy, w, step, i)
      ensures PaidOff(policy, w, step, i) && !Turned(policy, w, i) ==> Handled(policy, w, start, step, i)
      ensures Turned(policy, w, i) ==>
        (Handled(policy, w, start, step, i) <==> step.Advance? && TakenIn(w, start, KeyOf(w.ledger.messages[i])))
    {
      TurnedIsPaidOff(policy, start, w, step, i);
      PaidIsHandled(policy, start, w, step, i);
      TurnedIsHandled(policy, start, w, step, i);
    }
    hide Moves;
  }

  lemma PaidBy(policy: ChatPolicy, start: Ledger, w: World, step: Step, i: nat)
    requires PollInv(w, start) && Moves(policy, w, step) && i < |w.ledger.messages|
    ensures !w.poller.Idle? && w.poller.todo != []
    ensures PaidOff(policy, w, step, i) <==>
      Owed(policy, w.ledger, w.poller.chat, i) && w.ledger.messages[i].number <= Last(w.poller.todo[0])
  {
    PollInvLedger(w, start);
    GoodTableOf(w.ledger);
    hide LedgerInv, GoodTable, SetDispatchSeq, Owed, Last, Addressed, PollInv;
    OwedAfter(policy, w.ledger, w.poller.chat, Last(w.poller.todo[0]), i);
  }

  lemma TurnedIsPaidOff(policy: ChatPolicy, start: Ledger, w: World, step: Step, i: nat)
    requires PollInv(w, start) && Moves(policy, w, step) && i < |w.ledger.messages|
    ensures !w.poller.Idle? && w.poller.todo != []
    ensures Turned(policy, w, i) ==> PaidOff(policy, w, step, i)
  {
    PaidBy(policy, start, w, step, i);
    hide Owed, PaidOff, PollInv, Moves, Last;
  }

  /** A turned message is in no segment. */
  lemma TurnedIsHandled(policy: ChatPolicy, start: Ledger, w: World, step: Step, i: nat)
    requires PollInv(w, start) && WalkInv(policy, w) && Moves(policy, w, step) && i < |w.ledger.messages|
    requires !w.poller.Idle? && w.poller.todo != []
    ensures Turned(policy, w, i) ==>
      (Handled(policy, w, start, step, i) <==> step.Advance? && TakenIn(w, start, KeyOf(w.ledger.messages[i])))
  {
    PollInvLedger(w, start);
    GoodTableOf(w.ledger);
    hide LedgerInv, GoodTable, Covers, Owed, Last, Addressed, PollInv, Keys, AllSeen, TakenIn, Waiting;
    if step.PassBy? && Turned(policy, w, i) {
      OwedWaits(policy, w.ledger, w.poller.chat, i);
      FirstIsCovered(policy, w.ledger, w.poller.chat, w.poller.todo, w.omitted, i);
    }
  }

  lemma PaidIsHandled(policy: ChatPolicy, start: Ledger, w: World, step: Step, i: nat)
    requires PollInv(w, start) && WalkInv(policy, w) && Moves(policy, w, step) && i < |w.ledger.messages|
    requires !w.poller.Idle? && w.poller.todo != []
    ensures PaidOff(policy, w, step, i) && !Turned(policy, w, i) ==> Handled(policy, w, start, step, i)
  {
    PollInvLedger(w, start);
    GoodTableOf(w.ledger);
    PaidBy(policy, start, w, step, i);
    hide LedgerInv, GoodTable, Covers, Owed, Last, GoodPoller, PollInv, Keys, AllSeen, PaidOff, Waiting, Addressed;
    if PaidOff(policy, w, step, i) && !Turned(policy, w, i) {
      OwedWaits(policy, w.ledger, w.poller.chat, i);
      if w.poller.SeenMarked? {
        SeenIsExplained(w, start, w.poller.chat, Last(w.poller.todo[0]), i);
      } else {
        FirstIsCovered(policy, w.ledger, w.poller.chat, w.poller.todo, w.omitted, i);
        if w.poller.CommandMarked? {
          OneCommand(w.poller.todo[0], KeyOf(w.ledger.messages[i]));
        }
      }
    }
  }

  lemma OwedIsNotOwn(policy: ChatPolicy, l: Ledger, chat: nat, i: nat)
    requires GoodTable(l.messages) && Owed(policy, l, chat, i)
    ensures !IsOwn(policy, l, KeyOf(l.messages[i]))
  {
  }

  lemma KeptIsNotTurned(policy: ChatPolicy, w: World, i: nat)
    requires GoodTable(w.ledger.messages) && OwnStays(policy, w) && !w.poller.Idle? && w.poller.todo != []
    ensures !Turned(policy, w, i)
  {
    hide GoodTable, IsOwn, Owed, Last;
    if Turned(policy, w, i) {
      OwedIsThere(policy, w.ledger, w.poller.chat, i);
      OwedIsNotOwn(policy, w.ledger, w.poller.chat, i);
    }
  }

  /**
   In every interleaving in which stored messages keep their author: when a poll marks a message of
   others dispatched, it is in the unaddressed segment being passed by, or it was in an accepted prompt,
   was an accepted command, or had been imported as seen.
   */
  lemma NothingIsLost(policy: ChatPolicy, start: Ledger, steps: seq<Step>, step: Step, i: nat)
    requires LedgerInv(start) && AuthorsKept(policy, start, steps) && Moves(policy, Run(policy, start, steps), step)
    requires i < |Run(policy, start, steps).ledger.messages| && PaidOff(policy, Run(policy, start, steps), step, i)
    ensures var w := Run(policy, start, steps);
      var key := KeyOf(w.ledger.messages[i]);
      if step.PassBy? then key in Keys(Contents(w.poller.todo[0])) && !Addressed(policy, Contents(w.poller.todo[0]))
      else key in w.prompted || key in w.commanded || IsMarked(start, key, Seen)
  {
    var w := Run(policy, start, steps);
    hide Run, AuthorsKept, LedgerInv, GoodTable, PollInv, OwnStays, PaidOff, Turned, Keys, Addressed, IsMarked,
      Contents;
    NothingIsLostIff(policy, start, steps, step);
    RunKeeps(policy, start, steps);
    PollInvLedger(w, start);
    GoodTableOf(w.ledger);
    OwnRun(policy, start, steps);
    forall k | 0 <= k < |w.ledger.messages| ensures !Turned(policy, w, k) {
      KeptIsNotTurned(policy, w, k);
    }
    assert Handled(policy, w, start, step, i);
  }

  lemma OneCommand(s: Segment, key: Key)
    requires s.CommandOf? && key in Keys(Contents(s))
    ensures key == KeyOf(s.message)
  {
  }

  lemma SeenIsExplained(w: World, start: Ledger, chat: nat, number: nat, i: nat)
    requires PollInv(w, start) && AllSeen(w.ledger, chat, number)
    requires i < |w.ledger.messages| && w.ledger.messages[i].chat == chat && w.ledger.messages[i].number <= number
    ensures var key := KeyOf(w.ledger.messages[i]);
      key in w.prompted || key in w.commanded || key in w.passed || IsMarked(start, key, Seen)
  {
    hide LedgerInv, GoodPoller;
  }

  lemma OwedIsThere(policy: ChatPolicy, l: Ledger, chat: nat, i: nat)
    requires Owed(policy, l, chat, i)
    ensures i < |l.messages| && l.messages[i].chat == chat
  {
  }

  // ---- A message that is lost -------------------------------------------------------------------------

  /** What a mark in the other column and an undispatched message of others make owed. */
  lemma OwedWhenSeen(policy: ChatPolicy, l: Ledger, keys: set<Key>, chat: nat, i: nat)
    requires Owed(policy, l, chat, i)
    ensures Owed(policy, l.(marks := MarkAll(l.marks, keys, Seen)), chat, i)
  {
    MarkAllMarks(l, keys, Seen, KeyOf(l.messages[i]), Dispatched);
    hide MarkAll;
  }

  /**
   The overlooked message is lost for good: the move of the dispatch mark after the seen mark takes it off
   what the chat is owed, although it was in no prompt and no command.
   */
  lemma ChangedAuthorIsLost(policy: ChatPolicy)
    requires Typical(policy) && policy.responds(OTHER)
    ensures var w := Run(policy, Pair(OWN), OVERLOOKED);
      && LedgerInv(Pair(OWN)) && Moves(policy, w, Advance)
      && |w.ledger.messages| == 2
      && PaidOff(policy, w, Advance, 0) && !Handled(policy, w, Pair(OWN), Advance, 0)
  {
    var before := Pair(OTHER);
    var w := Run(policy, Pair(OWN), OVERLOOKED);
    OverlookedRun(policy);
    LostFacts(policy);
    hide Run, Next, LedgerInv, SetLastAgentSeq, Pair, Owed, GoodTable;
    MarkedWorld(policy);
    OwedOnMessages(policy, before.(marks := w.ledger.marks), w.ledger, 0, 0);
    OwedAfter(policy, w.ledger, 0, 2, 0);
    hide SetDispatchSeq;
  }

  lemma LostFacts(policy: ChatPolicy)
    requires Typical(policy)
    ensures var before := Pair(OTHER);
      && LedgerInv(Pair(OWN)) && !IsMarked(Pair(OWN), Key(1, 0), Seen)
      && |before.messages| == 2 && GoodTable(before.messages)
      && KeyOf(before.messages[0]) == Key(1, 0) && before.messages[0].number == 1
      && Owed(policy, before.(marks := SetLastAgentSeq(before, 0, 2).marks), 0, 0)
  {
    var before := Pair(OTHER);
    PairFacts(policy, before);
    assert Owed(policy, before, 0, 0);
    assert GoodTable(before.messages) && KeyOf(before.messages[0]) == Key(1, 0);
    hide MarkAll, UpTo, LedgerInv;
    OwedWhenSeen(policy, before, UpTo(before.messages, 0, 2), 0, 0);
  }

  lemma MarkedWorld(policy: ChatPolicy)
    ensures var w := Next(policy, During(OTHER, Prompted(0, TODO, {Key(1, 0)}), {Key(2, 0)}), MarkSeen);
      && w.ledger == SetLastAgentSeq(Pair(OTHER), 0, 2) && w.ledger.messages == Pair(OTHER).messages
      && w.poller == SeenMarked(0, TODO) && w.prompted == {Key(2, 0)} && w.commanded == {}
  {
    hide Pair, MarkAll, UpTo;
  }

  lemma OwedOnMessages(policy: ChatPolicy, a: Ledger, b: Ledger, chat: nat, i: nat)
    requires a.messages == b.messages && a.marks == b.marks
    ensures Owed(policy, a, chat, i) <==> Owed(policy, b, chat, i)
  {
  }

  const CONDENSE := "/condense"

  const UNNOTICED := [StartPoll(0), AcceptCommand, Arrive(Heard(2, OTHER)), MarkCommand, Advance]

  /** A command, then the message whose author is about to change, then one that addresses nobody. */
  function Trio(second: string): Ledger {
    Ledger([Heard(1, CONDENSE).(eligible := true), Heard(2, second), Heard(3, OTHER)], map[], map[], map[])
  }

  function Waits(): seq<Segment> {
    [CommandOf(Heard(1, CONDENSE).(eligible := true)), Messages([Heard(3, OTHER)])]
  }

  predicate Commands(policy: ChatPolicy) {
    !policy.bot(CONDENSE) && policy.responds(CONDENSE) && policy.parses(CONDENSE)
  }

  /** A world of this story after its poll has started. */
  function Condensing(ledger: Ledger, poller: Poller, commanded: set<Key>): World {
    World(ledger, poller, {}, commanded, {}, {Key(2, 0)})
  }

  lemma TwoWaiting(policy: ChatPolicy)
    requires Typical(policy) && Commands(policy)
    ensures Query(Trio(OWN), 0, Dispatched, policy.bot) == [Heard(1, CONDENSE).(eligible := true), Heard(3, OTHER)]
  {
    var l := Trio(OWN);
    assert Select(l, 1, 0, 0, Dispatched, policy.bot) == [Heard(1, CONDENSE).(eligible := true)];
    assert Select(l, 2, 0, 0, Dispatched, policy.bot) == [Heard(1, CONDENSE).(eligible := true)];
  }

  lemma CommandSplits(policy: ChatPolicy)
    requires Commands(policy)
    ensures Split(policy, [Heard(1, CONDENSE).(eligible := true), Heard(3, OTHER)]) == Waits()
  {
    var both := [Heard(1, CONDENSE).(eligible := true), Heard(3, OTHER)];
    assert both[..1][..0] == [];
    assert Split(policy, both[..1]) == Waits()[..1];
  }

  lemma CommandPollStarts(policy: ChatPolicy)
    requires Typical(policy) && Commands(policy)
    ensures Next(policy, World(Trio(OWN), Idle, {}, {}, {}, {}), StartPoll(0)) ==
      Condensing(Trio(OWN), Walking(0, Waits()), {})
  {
    TwoWaiting(policy);
    CommandSplits(policy);
    assert OwnUndispatched(policy, Trio(OWN), 0) == {Key(2, 0)} by {
      assert KeyOf(Trio(OWN).messages[1]) == Key(2, 0);
    }
    hide Query, Split, OwnUndispatched;
  }

  lemma SecondAuthorChanges(policy: ChatPolicy, poller: Poller, commanded: set<Key>)
    ensures Next(policy, Condensing(Trio(OWN), poller, commanded), Arrive(Heard(2, OTHER))) ==
      Condensing(Trio(OTHER), poller, commanded)
  {
    var l, key := Trio(OWN), KeyOf(Heard(2, OTHER));
    assert KeyOf(l.messages[0]) != key && KeyOf(l.messages[1]) == key && KeyOf(l.messages[2]) != key;
    assert Find(l.messages, key) == Some(1);
    assert Store(l, Heard(2, OTHER)).messages == Trio(OTHER).messages;
    hide Find;
  }

  /** The ledger after the command's two marks. */
  function Condensed(): Ledger {
    SetDispatchSeq(MarkCommandSeen(Trio(OTHER), Key(1, 0)), 0, 1)
  }

  lemma CommandDone(policy: ChatPolicy)
    ensures
      var walking, accepted := Condensing(Trio(OWN), Walking(0, Waits()), {}), {Key(1, 0)};
      var marked := MarkCommandSeen(Trio(OTHER), Key(1, 0));
      && Next(policy, walking, AcceptCommand) == Condensing(Trio(OWN), Commanded(0, Waits()), accepted)
      && Next(policy, Condensing(Trio(OTHER), Commanded(0, Waits()), accepted), MarkCommand) ==
           Condensing(marked, CommandMarked(0, Waits()), accepted)
      && Next(policy, Condensing(marked, CommandMarked(0, Waits()), accepted), Advance) ==
           Condensing(Condensed(), Walking(0, [Messages([Heard(3, OTHER)])]), accepted)
  {
    hide MarkCommandSeen, SetDispatchSeq, Trio;
  }

  lemma UnnoticedRun(policy: ChatPolicy)
    requires Typical(policy) && Commands(policy)
    ensures Run(policy, Trio(OWN), UNNOTICED) ==
      Condensing(Condensed(), Walking(0, [Messages([Heard(3, OTHER)])]), {Key(1, 0)})
  {
    hide Run, Next, Trio, Condensed, Waits;
    var start := Trio(OWN);
    RunStart(policy, start, UNNOTICED);
    assert UNNOTICED[..5] == UNNOTICED;
    RunStep(policy, start, UNNOTICED, 0);
    RunStep(policy, start, UNNOTICED, 1);
    RunStep(policy, start, UNNOTICED, 2);
    RunStep(policy, start, UNNOTICED, 3);
    RunStep(policy, start, UNNOTICED, 4);
    CommandPollStarts(policy);
    SecondAuthorChanges(policy, Commanded(0, Waits()), {Key(1, 0)});
    CommandDone(policy);
  }

  lemma TrioFacts(policy: ChatPolicy)
    requires Typical(policy)
    ensures LedgerInv(Trio(OWN)) && GoodTable(Trio(OTHER).messages) && Owed(policy, Trio(OTHER), 0, 1)
    ensures !IsMarked(Trio(OWN), Key(2, 0), Seen)
  {
    hide MaxSeq;
  }

  /**
   A message of the assistant's that is stored again as someone else's while a command ahead of it is
   being accepted is marked dispatched with the segment passed by next, in which it is not.
   */
  lemma ChangedAuthorIsPassedBy(policy: ChatPolicy)
    requires Typical(policy) && Commands(policy) && !policy.responds(OTHER)
    ensures var w := Run(policy, Trio(OWN), UNNOTICED);
      && LedgerInv(Trio(OWN)) && Moves(policy, w, PassBy)
      && |w.ledger.messages| == 3
      && PaidOff(policy, w, PassBy, 1) && !Handled(policy, w, Trio(OWN), PassBy, 1)
      && !TakenIn(w, Trio(OWN), KeyOf(w.ledger.messages[1]))
  {
    var w := Run(policy, Trio(OWN), UNNOTICED);
    UnnoticedRun(policy);
    TrioFacts(policy);
    var l, marked := Trio(OTHER), MarkCommandSeen(Trio(OTHER), Key(1, 0));
    assert KeyOf(l.messages[1]) == Key(2, 0) && l.messages[1].number == 2;
    assert Keys([Heard(3, OTHER)]) == {Key(3, 0)} by { assert KeyOf([Heard(3, OTHER)][0]) == Key(3, 0); }
    hide Run, LedgerInv, MarkAll, UpTo, GoodTable, Keys, Owed;
    OwedWhenSeen(policy, l, {Key(1, 0)}, 0, 1);
    OwedAfter(policy, marked, 0, 1, 1);
    OwedAfter(policy, w.ledger, 0, 3, 1);
    hide SetDispatchSeq;
  }
}

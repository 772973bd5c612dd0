/**
 The WhatsApp poll loop as a step system: messages arrive and are stored again at any point, and a poll
 that walks a chat's segments may fail or crash between any two of its ledger writes.
 */
module PollChat {
  import opened Identities
  import opened LedgerTables

  /** What the group's settings and the trigger pattern decide about a text. */
  datatype ChatPolicy = ChatPolicy(bot: FromAssistant, responds: string -> bool, parses: string -> bool)

  datatype Segment = Messages(batch: seq<Message>) | CommandOf(message: Message)

  predicate IsCommand(policy: ChatPolicy, m: Message) {
    m.eligible && m.media.None? && policy.responds(m.content) && policy.parses(m.content)
  }

  // ---- Splitting a batch at its commands --------------------------------------------------------------

  /** What one more message does to the segments so far. */
  function Extend(policy: ChatPolicy, before: seq<Segment>, m: Message): seq<Segment> {
    if IsCommand(policy, m) then before + [CommandOf(m)]
    else if before != [] && before[|before| - 1].Messages? then
      before[..|before| - 1] + [Messages(before[|before| - 1].batch + [m])]
    else before + [Messages([m])]
  }

  /** splitCommandBatches. */
  function Split(policy: ChatPolicy, messages: seq<Message>): seq<Segment> {
    if messages == [] then []
    else Extend(policy, Split(policy, messages[..|messages| - 1]), messages[|messages| - 1])
  }

  function Contents(s: Segment): seq<Message> {
    match s
    case Messages(batch) => batch
    case CommandOf(m) => [m]
  }

  function Flatten(segments: seq<Segment>): seq<Message> {
    if segments == [] then []
    else Flatten(segments[..|segments| - 1]) + Contents(segments[|segments| - 1])
  }

  predicate NoCommandIn(policy: ChatPolicy, batch: seq<Message>) {
    forall k :: 0 <= k < |batch| ==> !IsCommand(policy, batch[k])
  }

  predicate ProperSegment(policy: ChatPolicy, s: Segment) {
    match s
    case CommandOf(m) => IsCommand(policy, m)
    case Messages(batch) => batch != [] && NoCommandIn(policy, batch)
  }

  /** Commands stand alone, everything between two commands is one nonempty batch. */
  predicate Proper(policy: ChatPolicy, segments: seq<Segment>) {
    && (forall i :: 0 <= i < |segments| ==> ProperSegment(policy, segments[i]))
    && (forall i :: 0 < i < |segments| ==> segments[i - 1].CommandOf? || segments[i].CommandOf?)
  }

  lemma FlattenAppend(segments: seq<Segment>, s: Segment)
    ensures Flatten(segments + [s]) == Flatten(segments) + Contents(s)
  {
    assert (segments + [s])[..|segments|] == segments;
  }

  lemma ExtendFlattens(policy: ChatPolicy, before: seq<Segment>, m: Message)
    ensures Flatten(Extend(policy, before, m)) == Flatten(before) + [m]
  {
    hide IsCommand, Flatten;
    FlattenAppend(before, CommandOf(m));
    FlattenAppend(before, Messages([m]));
    if before != [] && before[|before| - 1].Messages? {
      var init, last := before[..|before| - 1], before[|before| - 1];
      assert before == init + [last];
      FlattenAppend(init, last);
      FlattenAppend(init, Messages(last.batch + [m]));
    }
  }

  lemma ExtendIsProper(policy: ChatPolicy, before: seq<Segment>, m: Message)
    requires Proper(policy, before)
    ensures Proper(policy, Extend(policy, before, m))
  {
    if before != [] && before[|before| - 1].Messages? {
      assert ProperSegment(policy, before[|before| - 1]);
    }
    hide IsCommand;
  }

  /** The segments are the messages in order, none lost, doubled or moved. */
  lemma {:induction false} SplitIsPartition(policy: ChatPolicy, messages: seq<Message>)
    ensures Flatten(Split(policy, messages)) == messages
    ensures Proper(policy, Split(policy, messages))
  {
    SplitStep(policy, messages);
    hide Split, Extend, Proper, Flatten;
    if messages != [] {
      var init, m := messages[..|messages| - 1], messages[|messages| - 1];
      SplitIsPartition(policy, init);
      ExtendFlattens(policy, Split(policy, init), m);
      ExtendIsProper(policy, Split(policy, init), m);
    }
  }

  lemma SplitStep(policy: ChatPolicy, messages: seq<Message>)
    ensures messages == [] ==> Flatten(Split(policy, messages)) == [] && Proper(policy, Split(policy, messages))
    ensures messages != [] ==>
      var init, m := messages[..|messages| - 1], messages[|messages| - 1];
      messages == init + [m] && Split(policy, messages) == Extend(policy, Split(policy, init), m)
  {
    hide Extend;
  }

  /** Taking the last message off proper segments leaves proper segments, and Extend puts it back. */
  lemma Unextend(policy: ChatPolicy, segments: seq<Segment>) returns (before: seq<Segment>, m: Message)
    requires Proper(policy, segments) && segments != []
    ensures Proper(policy, before) && Extend(policy, before, m) == segments
  {
    var init, last := segments[..|segments| - 1], segments[|segments| - 1];
    assert segments == init + [last] && ProperSegment(policy, last);
    if last.CommandOf? {
      before, m := init, last.message;
    } else {
      var n := |last.batch| - 1;
      m := last.batch[n];
      assert last.batch == last.batch[..n] + [m];
      if n == 0 {
        before := init;
      } else {
        before := init + [Messages(last.batch[..n])];
        assert before[..|before| - 1] == init;
      }
    }
    hide IsCommand;
  }

  /** No other proper partition of the messages exists. */
  lemma {:induction false} SplitIsUnique(policy: ChatPolicy, segments: seq<Segment>)
    requires Proper(policy, segments)
    ensures Split(policy, Flatten(segments)) == segments
    decreases |Flatten(segments)|
  {
    if segments != [] {
      var before, m := Unextend(policy, segments);
      ExtendFlattens(policy, before, m);
      hide Extend, Proper, Flatten;
      assert Flatten(segments)[..|Flatten(segments)| - 1] == Flatten(before);
      SplitIsUnique(policy, before);
    }
  }

  /** The message is a command: an eligible text without media that the trigger accepts and that parses as one. */
  predicate ReadsAsCommand(policy: ChatPolicy, m: Message) {
    m.media.None? && m.eligible && policy.parses(m.content) && policy.responds(m.content)
  }

  /** Exactly the commands stand alone; everything between two of them is one batch. */
  lemma SplitMeans(policy: ChatPolicy, messages: seq<Message>)
    ensures Flatten(Split(policy, messages)) == messages
    ensures forall i :: 0 <= i < |Split(policy, messages)| ==>
      match Split(policy, messages)[i]
      case CommandOf(m) => ReadsAsCommand(policy, m)
      case Messages(batch) => batch != [] && forall k :: 0 <= k < |batch| ==> !ReadsAsCommand(policy, batch[k])
  {
    SplitIsPartition(policy, messages);
    hide Split, Flatten;
    forall i | 0 <= i < |Split(policy, messages)| ensures ProperSegment(policy, Split(policy, messages)[i]) {
    }
  }

  predicate Addressed(policy: ChatPolicy, batch: seq<Message>) {
    exists k :: 0 <= k < |batch| && policy.responds(batch[k].content)
  }

  // ---- The step system ----------------------------------------------------------------------------------

  /**
   Where pollChat stands with the first segment of `todo`. `own` is history: the unseen messages that
   were the assistant's own when the transcript was read.
   */
  datatype Poller =
    | Idle
    | Walking(chat: nat, todo: seq<Segment>)
    | Read(chat: nat, todo: seq<Segment>, batch: seq<Message>, own: set<Key>)
    | Prompted(chat: nat, todo: seq<Segment>, own: set<Key>)
    | SeenMarked(chat: nat, todo: seq<Segment>)
    | Commanded(chat: nat, todo: seq<Segment>)
    | CommandMarked(chat: nat, todo: seq<Segment>)

  /**
   All but the ledger and the poller is history, read by no step: what was prompted and commanded, the
   assistant's messages a poll marked seen, and those the last poll's query left out.
   */
  datatype World = World(ledger: Ledger, poller: Poller, prompted: set<Key>, commanded: set<Key>, passed: set<Key>,
                         omitted: set<Key>)

  datatype Step =
    | Arrive(input: Message)
    | StartPoll(chat: nat)
    | PassBy
    | ReadTranscript
    | AcceptPrompt
    | MarkSeen
    | AcceptCommand
    | MarkCommand
    | Advance
    | Crash

  function Keys(messages: seq<Message>): set<Key> {
    set i | 0 <= i < |messages| :: KeyOf(messages[i])
  }

  /** The last message of a segment; a segment of a proper partition has one. */
  function Last(s: Segment): nat {
    match s
    case CommandOf(m) => m.number
    case Messages(batch) => if batch == [] then 0 else batch[|batch| - 1].number
  }

  function NotAfter(messages: seq<Message>, number: nat): seq<Message> {
    if messages == [] then []
    else
      var m := messages[|messages| - 1];
      NotAfter(messages[..|messages| - 1], number) + (if m.number <= number then [m] else [])
  }

  /** The transcript of everything unseen up to the segment's end, or else the segment itself. */
  function Transcript(policy: ChatPolicy, l: Ledger, chat: nat, s: Segment): seq<Message> {
    var unseen := NotAfter(Query(l, chat, Seen, policy.bot), Last(s));
    if unseen != [] then unseen else Contents(s)
  }

  /** Unseen messages up to this number that the assistant wrote. */
  function OwnUnseen(policy: ChatPolicy, l: Ledger, chat: nat, number: nat): set<Key> {
    set i | 0 <= i < |l.messages| && l.messages[i].chat == chat && l.messages[i].number <= number
            && policy.bot(l.messages[i].content) && !IsMarked(l, KeyOf(l.messages[i]), Seen) :: KeyOf(l.messages[i])
  }

  /** Undispatched messages that the assistant wrote. */
  function OwnUndispatched(policy: ChatPolicy, l: Ledger, chat: nat): set<Key> {
    set i | 0 <= i < |l.messages| && l.messages[i].chat == chat && policy.bot(l.messages[i].content)
            && !IsMarked(l, KeyOf(l.messages[i]), Dispatched) :: KeyOf(l.messages[i])
  }

  predicate Enabled(policy: ChatPolicy, w: World, step: Step) {
    match step
    case Arrive(_) => true
    case StartPoll(chat) => w.poller.Idle?
    case PassBy =>
      && w.poller.Walking? && w.poller.todo != [] && w.poller.todo[0].Messages?
      && !Addressed(policy, w.poller.todo[0].batch)
    case ReadTranscript =>
      && w.poller.Walking? && w.poller.todo != [] && w.poller.todo[0].Messages?
      && Addressed(policy, w.poller.todo[0].batch)
    case AcceptPrompt => w.poller.Read?
    case MarkSeen => w.poller.Prompted? && w.poller.todo != []
    case AcceptCommand => w.poller.Walking? && w.poller.todo != [] && w.poller.todo[0].CommandOf?
    case MarkCommand => w.poller.Commanded? && w.poller.todo != [] && w.poller.todo[0].CommandOf?
    case Advance => (w.poller.SeenMarked? || w.poller.CommandMarked?) && w.poller.todo != []
    case Crash => true
  }

  function Taken(policy: ChatPolicy, w: World, step: Step): World
    requires Enabled(policy, w, step)
  {
    var l, p := w.ledger, w.poller;
    match step
    case Arrive(input) => w.(ledger := Store(l, input))
    case StartPoll(chat) =>
      w.(poller := Walking(chat, Split(policy, Query(l, chat, Dispatched, policy.bot))),
         omitted := OwnUndispatched(policy, l, chat))
    case PassBy => w.(ledger := SetDispatchSeq(l, p.chat, Last(p.todo[0])), poller := Walking(p.chat, p.todo[1..]))
    case ReadTranscript =>
      w.(poller := Read(p.chat, p.todo, Transcript(policy, l, p.chat, p.todo[0]),
                        OwnUnseen(policy, l, p.chat, Last(p.todo[0]))))
    case AcceptPrompt => w.(poller := Prompted(p.chat, p.todo, p.own), prompted := w.prompted + Keys(p.batch))
    case MarkSeen =>
      w.(ledger := SetLastAgentSeq(l, p.chat, Last(p.todo[0])), poller := SeenMarked(p.chat, p.todo),
         passed := w.passed + p.own)
    case AcceptCommand =>
      w.(poller := Commanded(p.chat, p.todo), commanded := w.commanded + {KeyOf(p.todo[0].message)})
    case MarkCommand =>
      w.(ledger := MarkCommandSeen(l, KeyOf(p.todo[0].message)), poller := CommandMarked(p.chat, p.todo))
    case Advance => w.(ledger := SetDispatchSeq(l, p.chat, Last(p.todo[0])), poller := Walking(p.chat, p.todo[1..]))
    case Crash => w.(poller := Idle)
  }

  /** A step that is not enabled does not happen. */
  function Next(policy: ChatPolicy, w: World, step: Step): World {
    if Enabled(policy, w, step) then Taken(policy, w, step) else w
  }

  function Run(policy: ChatPolicy, start: Ledger, steps: seq<Step>): World {
    if steps == [] then World(start, Idle, {}, {}, {}, {})
    else Next(policy, Run(policy, start, steps[..|steps| - 1]), steps[|steps| - 1])
  }

  // ---- The invariant --------------------------------------------------------------------------------------

  /** Every segment's messages were ingested. */
  predicate Ingested(l: Ledger, todo: seq<Segment>) {
    forall i :: 0 <= i < |todo| ==> Last(todo[i]) <= MaxSeq(l.messages)
  }

  /** Each message up to the segment's end is seen, in the given set, or was the assistant's own. */
  predicate Accounted(l: Ledger, chat: nat, number: nat, keys: set<Key>, own: set<Key>) {
    forall i :: 0 <= i < |l.messages| && l.messages[i].chat == chat && l.messages[i].number <= number ==>
      var key := KeyOf(l.messages[i]);
      IsMarked(l, key, Seen) || key in keys || key in own
  }

  predicate GoodPoller(w: World) {
    var l, p := w.ledger, w.poller;
    match p
    case Idle => true
    case Read(chat, todo, batch, own) =>
      Ingested(l, todo) && todo != [] && Accounted(l, chat, Last(todo[0]), Keys(batch), own)
    case Prompted(chat, todo, own) =>
      Ingested(l, todo) && todo != [] && Accounted(l, chat, Last(todo[0]), w.prompted, own)
    case Commanded(_, todo) =>
      Ingested(l, todo) && (todo != [] && todo[0].CommandOf? ==> KeyOf(todo[0].message) in w.commanded)
    case Walking(_, todo) => Ingested(l, todo)
    case SeenMarked(_, todo) => Ingested(l, todo)
    case CommandMarked(_, todo) => Ingested(l, todo)
  }

  /** Every message polling has marked seen was prompted, was a command, or was the assistant's own. */
  predicate SeenExplained(w: World, imported: Ledger) {
    forall key :: key in w.ledger.marks && IsMarked(w.ledger, key, Seen) ==>
      key in w.prompted || key in w.commanded || key in w.passed || IsMarked(imported, key, Seen)
  }

  predicate PollInv(w: World, imported: Ledger) {
    LedgerInv(w.ledger) && GoodPoller(w) && SeenExplained(w, imported)
  }

  // ---- Its preservation -----------------------------------------------------------------------------------

  /** An arrival numbers nothing below what was there and moves no mark. */
  lemma StoreShape(l: Ledger, input: Message)
    requires LedgerInv(l)
    ensures var after := Store(l, input);
      && after.marks == l.marks && MaxSeq(l.messages) <= MaxSeq(after.messages)
      && |l.messages| <= |after.messages|
      && (forall i :: 0 <= i < |l.messages| ==>
            KeyOf(after.messages[i]) == KeyOf(l.messages[i]) && after.messages[i].number == l.messages[i].number)
      && (forall i :: |l.messages| <= i < |after.messages| ==> after.messages[i].number > MaxSeq(l.messages))
  {
    var after := Store(l, input);
    var found := Find(l.messages, KeyOf(input));
    hide Find;
    if found.Some? {
      MaxSeqSame(l.messages, after.messages);
    } else {
      assert after.messages[..|l.messages|] == l.messages;
    }
  }

  lemma AccountedStays(a: Ledger, b: Ledger, chat: nat, number: nat, keys: set<Key>, own: set<Key>)
    requires Accounted(a, chat, number, keys, own) && number <= MaxSeq(a.messages)
    requires a.marks == b.marks && |a.messages| <= |b.messages|
    requires forall i :: 0 <= i < |a.messages| ==>
      KeyOf(b.messages[i]) == KeyOf(a.messages[i]) && b.messages[i].number == a.messages[i].number
    requires forall i :: |a.messages| <= i < |b.messages| ==> b.messages[i].number > MaxSeq(a.messages)
    ensures Accounted(b, chat, number, keys, own)
  {
    forall i | 0 <= i < |b.messages| && b.messages[i].chat == chat && b.messages[i].number <= number
      ensures var key := KeyOf(b.messages[i]); IsMarked(b, key, Seen) || key in keys || key in own
    {
      assert KeyOf(a.messages[i]) == KeyOf(b.messages[i]);
    }
  }

  lemma ArriveKeeps(w: World, imported: Ledger, input: Message)
    requires PollInv(w, imported)
    ensures PollInv(w.(ledger := Store(w.ledger, input)), imported)
  {
    StoreKeeps(w.ledger, input);
    StoreShape(w.ledger, input);
    var l, after := w.ledger, Store(w.ledger, input);
    hide LedgerInv, Store, Keys, Last, Accounted, IsMarked, MaxSeq;
    if w.poller.Read? {
      AccountedStays(l, after, w.poller.chat, Last(w.poller.todo[0]), Keys(w.poller.batch), w.poller.own);
    } else if w.poller.Prompted? {
      AccountedStays(l, after, w.poller.chat, Last(w.poller.todo[0]), w.prompted, w.poller.own);
    }
    assert SeenExplained(w.(ledger := after), imported) by { SameMarks(w, after, imported); }
  }

  lemma SameMarks(w: World, after: Ledger, imported: Ledger)
    requires SeenExplained(w, imported) && after.marks == w.ledger.marks
    ensures SeenExplained(w.(ledger := after), imported)
  {
  }

  lemma {:induction false} QueryIngested(l: Ledger, n: nat, chat: nat, after: nat, kind: Kind, bot: FromAssistant)
    requires n <= |l.messages|
    ensures forall m :: m in Select(l, n, chat, after, kind, bot) ==> m.number <= MaxSeq(l.messages)
  {
    if n > 0 {
      QueryIngested(l, n - 1, chat, after, kind, bot);
      MaxSeqBounds(l.messages, n - 1);
    }
    hide MaxSeq, Wanted;
  }

  lemma {:induction false} FlattenHas(segments: seq<Segment>, i: nat, m: Message)
    requires i < |segments| && m in Contents(segments[i])
    ensures m in Flatten(segments)
  {
    if i < |segments| - 1 {
      FlattenHas(segments[..|segments| - 1], i, m);
    }
  }

  lemma StartExplained(policy: ChatPolicy, w: World, imported: Ledger, chat: nat)
    requires SeenExplained(w, imported) && Enabled(policy, w, StartPoll(chat))
    ensures SeenExplained(Taken(policy, w, StartPoll(chat)), imported)
  {
    hide Query, IsMarked, Split, OwnUndispatched;
  }

  lemma SegmentBound(todo: seq<Segment>, i: nat, max: nat)
    requires i < |todo| && forall m :: m in Flatten(todo) ==> m.number <= max
    ensures Last(todo[i]) <= max
  {
    hide Flatten;
    if Contents(todo[i]) != [] {
      FlattenHas(todo, i, Contents(todo[i])[|Contents(todo[i])| - 1]);
    }
  }

  lemma StartIngested(policy: ChatPolicy, l: Ledger, chat: nat)
    ensures Ingested(l, Split(policy, Query(l, chat, Dispatched, policy.bot)))
  {
    var waiting := Query(l, chat, Dispatched, policy.bot);
    QueryIngested(l, |l.messages|, chat, CursorOf(l, chat, Dispatched), Dispatched, policy.bot);
    hide Query, Select, MaxSeq, Split, Flatten, Proper, Last;
    SplitIsPartition(policy, waiting);
    var todo := Split(policy, waiting);
    forall i | 0 <= i < |todo| ensures Last(todo[i]) <= MaxSeq(l.messages) {
      SegmentBound(todo, i, MaxSeq(l.messages));
    }
  }

  lemma StartKeeps(policy: ChatPolicy, w: World, imported: Ledger, chat: nat)
    requires PollInv(w, imported) && Enabled(policy, w, StartPoll(chat))
    ensures PollInv(Taken(policy, w, StartPoll(chat)), imported)
  {
    hide LedgerInv, Query, Split, OwnUndispatched, Ingested, SeenExplained;
    StartExplained(policy, w, imported, chat);
    StartIngested(policy, w.ledger, chat);
  }

  /** Dispatch marks and cursors touch no seen mark and no message. */
  lemma DispatchKeeps(w: World, imported: Ledger, chat: nat, number: nat, poller: Poller)
    requires PollInv(w, imported) && number <= MaxSeq(w.ledger.messages)
    requires poller.Walking? && Ingested(w.ledger, poller.todo)
    ensures PollInv(w.(ledger := SetDispatchSeq(w.ledger, chat, number), poller := poller), imported)
  {
    SetDispatchKeeps(w.ledger, chat, number);
    var after := w.(ledger := SetDispatchSeq(w.ledger, chat, number), poller := poller);
    forall key | key in after.ledger.marks && IsMarked(after.ledger, key, Seen) ensures IsMarked(w.ledger, key, Seen) {
      MarkAllMarks(w.ledger, UpTo(w.ledger.messages, chat, number), Dispatched, key, Seen);
    }
    assert SeenExplained(w, imported);
    hide LedgerInv, MarkAll, UpTo, MaxSeq, Last;
  }

  lemma {:induction false} NotAfterMembers(messages: seq<Message>, number: nat, m: Message)
    ensures m in NotAfter(messages, number) <==> m in messages && m.number <= number
  {
    if messages != [] {
      NotAfterMembers(messages[..|messages| - 1], number, m);
      assert messages == messages[..|messages| - 1] + [messages[|messages| - 1]];
    }
  }

  lemma HasKey(messages: seq<Message>, m: Message)
    requires m in messages
    ensures KeyOf(m) in Keys(messages)
  {
  }

  /** A message of others, not yet seen, up to this number. */
  predicate UnseenOfOthers(policy: ChatPolicy, l: Ledger, chat: nat, number: nat, m: Message) {
    m in l.messages && m.chat == chat && !policy.bot(m.content) && !HasBit(l, KeyOf(m), Seen) && m.number <= number
  }

  /** A transcript holds exactly what others said unseen up to the segment's end, or else the segment. */
  lemma TranscriptMeans(policy: ChatPolicy, l: Ledger, chat: nat, s: Segment)
    requires LedgerInv(l)
    ensures var batch := Transcript(policy, l, chat, s);
      if exists m :: UnseenOfOthers(policy, l, chat, Last(s), m) then
        forall m :: m in batch <==> UnseenOfOthers(policy, l, chat, Last(s), m)
      else batch == Contents(s)
  {
    var all := Query(l, chat, Seen, policy.bot);
    var unseen := NotAfter(all, Last(s));
    forall m ensures m in unseen <==> UnseenOfOthers(policy, l, chat, Last(s), m) {
      QueryMeans(l, chat, Seen, policy.bot, m);
      NotAfterMembers(all, Last(s), m);
      hide LedgerInv, Query, NotAfter, Last, HasBit;
    }
    hide LedgerInv, Query, NotAfter, Last, UnseenOfOthers;
    if unseen != [] {
      assert UnseenOfOthers(policy, l, chat, Last(s), unseen[0]);
    }
  }

  /** What the transcript leaves out is seen already or the assistant's own. */
  lemma TranscriptAccounts(policy: ChatPolicy, l: Ledger, chat: nat, s: Segment)
    requires LedgerInv(l)
    ensures Accounted(l, chat, Last(s), Keys(Transcript(policy, l, chat, s)), OwnUnseen(policy, l, chat, Last(s)))
  {
    QueryIsUnmarked(l, chat, Seen, policy.bot);
    var all := Query(l, chat, Seen, policy.bot);
    forall i | 0 <= i < |l.messages| && l.messages[i].chat == chat && l.messages[i].number <= Last(s)
      ensures var key := KeyOf(l.messages[i]);
        IsMarked(l, key, Seen) || key in Keys(Transcript(policy, l, chat, s)) ||
          key in OwnUnseen(policy, l, chat, Last(s))
    {
      var m := l.messages[i];
      UnmarkedMembers(l, |l.messages|, chat, Seen, policy.bot, m);
      assert m in l.messages[..|l.messages|];
      NotAfterMembers(all, Last(s), m);
      if m in NotAfter(all, Last(s)) {
        HasKey(NotAfter(all, Last(s)), m);
      }
      hide LedgerInv, Query, Unmarked, NotAfter, Last, Keys;
    }
  }

  lemma ReadKeeps(policy: ChatPolicy, w: World, imported: Ledger)
    requires PollInv(w, imported) && Enabled(policy, w, ReadTranscript)
    ensures PollInv(Taken(policy, w, ReadTranscript), imported)
  {
    hide LedgerInv, Transcript, OwnUnseen, Keys, IsMarked, Last, Addressed, Accounted;
    TranscriptAccounts(policy, w.ledger, w.poller.chat, w.poller.todo[0]);
  }

  lemma AcceptKeeps(policy: ChatPolicy, w: World, imported: Ledger)
    requires PollInv(w, imported) && Enabled(policy, w, AcceptPrompt)
    ensures PollInv(Taken(policy, w, AcceptPrompt), imported)
  {
    hide LedgerInv, Keys, IsMarked, Last, MaxSeq;
  }

  lemma MarkSeenKeeps(policy: ChatPolicy, w: World, imported: Ledger)
    requires PollInv(w, imported) && Enabled(policy, w, MarkSeen)
    ensures PollInv(Taken(policy, w, MarkSeen), imported)
  {
    var p := w.poller;
    var number := Last(p.todo[0]);
    var after := Taken(policy, w, MarkSeen);
    SetAgentKeeps(w.ledger, p.chat, number);
    forall key | key in after.ledger.marks && IsMarked(after.ledger, key, Seen)
      ensures key in after.prompted || key in after.commanded || key in after.passed || IsMarked(imported, key, Seen)
    {
      MarkAllMarks(w.ledger, UpTo(w.ledger.messages, p.chat, number), Seen, key, Seen);
      assert Accounted(w.ledger, p.chat, number, w.prompted, p.own);
      hide LedgerInv, MarkAll, MaxSeq, Last;
    }
    hide LedgerInv, MarkAll, UpTo, MaxSeq, IsMarked, Last;
  }

  lemma MarkCommandStepKeeps(policy: ChatPolicy, w: World, imported: Ledger)
    requires PollInv(w, imported) && Enabled(policy, w, MarkCommand)
    ensures PollInv(Taken(policy, w, MarkCommand), imported)
  {
    var key := KeyOf(w.poller.todo[0].message);
    MarkCommandKeeps(w.ledger, key);
    var after := Taken(policy, w, MarkCommand);
    forall k | k in after.ledger.marks && IsMarked(after.ledger, k, Seen)
      ensures k in after.prompted || k in after.commanded || k in after.passed || IsMarked(imported, k, Seen)
    {
      MarkAllMarks(w.ledger, {key}, Seen, k, Seen);
      hide LedgerInv, MarkAll, MaxSeq, Last;
    }
    hide LedgerInv, MarkAll, MaxSeq, IsMarked, Last;
  }

  lemma NextKeeps(policy: ChatPolicy, w: World, imported: Ledger, step: Step)
    requires PollInv(w, imported)
    ensures PollInv(Next(policy, w, step), imported)
  {
    if Enabled(policy, w, step) {
      hide LedgerInv, IsMarked, Last, MaxSeq, Addressed, Query, Split, Keys, Transcript, OwnUnseen, OwnUndispatched,
        Accounted, Store, SetDispatchSeq, SetLastAgentSeq, MarkCommandSeen;
      match step
      case Arrive(input) => ArriveKeeps(w, imported, input);
      case StartPoll(chat) => StartKeeps(policy, w, imported, chat);
      case PassBy => DispatchKeeps(w, imported, w.poller.chat, Last(w.poller.todo[0]),
        Walking(w.poller.chat, w.poller.todo[1..]));
      case ReadTranscript => ReadKeeps(policy, w, imported);
      case AcceptPrompt => AcceptKeeps(policy, w, imported);
      case MarkSeen => MarkSeenKeeps(policy, w, imported);
      case AcceptCommand =>
      case MarkCommand => MarkCommandStepKeeps(policy, w, imported);
      case Advance => DispatchKeeps(w, imported, w.poller.chat, Last(w.poller.todo[0]),
        Walking(w.poller.chat, w.poller.todo[1..]));
      case Crash =>
    }
  }

  lemma {:induction false} RunKeeps(policy: ChatPolicy, start: Ledger, steps: seq<Step>)
    requires LedgerInv(start)
    ensures PollInv(Run(policy, start, steps), start)
  {
    if steps != [] {
      hide PollInv, Next, LedgerInv;
      RunKeeps(policy, start, steps[..|steps| - 1]);
      NextKeeps(policy, Run(policy, start, steps[..|steps| - 1]), start, steps[|steps| - 1]);
    }
  }

  // ---- The theorems -----------------------------------------------------------------------------------------

  /** At every point of every run a cursor-filtered query returns exactly the unmarked non-assistant messages. */
  lemma QueriesAreExact(policy: ChatPolicy, start: Ledger, steps: seq<Step>, chat: nat, kind: Kind)
    requires LedgerInv(start)
    ensures var l := Run(policy, start, steps).ledger;
      Query(l, chat, kind, policy.bot) == Unmarked(l, |l.messages|, chat, kind, policy.bot)
  {
    RunKeeps(policy, start, steps);
    hide Run, LedgerInv;
    QueryIsUnmarked(Run(policy, start, steps).ledger, chat, kind, policy.bot);
  }

  /** What polling marks seen was in an accepted prompt, was an accepted command, or was read as the assistant's own. */
  lemma SeenWasAccepted(policy: ChatPolicy, start: Ledger, steps: seq<Step>, key: Key)
    requires LedgerInv(start)
    requires var l := Run(policy, start, steps).ledger; IsMarked(l, key, Seen) && !IsMarked(start, key, Seen)
    ensures var w := Run(policy, start, steps); key in w.prompted || key in w.commanded || key in w.passed
  {
    RunKeeps(policy, start, steps);
    hide Run, LedgerInv;
  }

  // ---- The assistant's own messages ---------------------------------------------------------------------------

  predicate WroteAt(policy: ChatPolicy, l: Ledger, i: nat, key: Key) {
    i < |l.messages| && KeyOf(l.messages[i]) == key && policy.bot(l.messages[i].content)
  }

  /** The message is the assistant's own as the ledger has it now. */
  predicate IsOwn(policy: ChatPolicy, l: Ledger, key: Key) {
    exists i :: 0 <= i < |l.messages| && WroteAt(policy, l, i, key)
  }

  lemma SameMessagesOwn(policy: ChatPolicy, a: Ledger, b: Ledger, key: Key)
    requires a.messages == b.messages && IsOwn(policy, a, key)
    ensures IsOwn(policy, b, key)
  {
    var i :| 0 <= i < |a.messages| && WroteAt(policy, a, i, key);
    assert WroteAt(policy, b, i, key);
  }

  lemma OwnUnseenIsOwn(policy: ChatPolicy, l: Ledger, chat: nat, number: nat, key: Key)
    requires key in OwnUnseen(policy, l, chat, number)
    ensures IsOwn(policy, l, key)
  {
    var i :| 0 <= i < |l.messages| && policy.bot(l.messages[i].content) && KeyOf(l.messages[i]) == key;
    assert WroteAt(policy, l, i, key);
  }

  lemma PollInvLedger(w: World, imported: Ledger)
    requires PollInv(w, imported)
    ensures LedgerInv(w.ledger)
  {
  }
}

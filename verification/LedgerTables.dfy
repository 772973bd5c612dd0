/**
 The WhatsApp ledger as a value: messages in ingestion order, per-message progress marks, and the
 per-chat sequence cursors that only speed the queries up.
 */
module LedgerTables {
  import opened Identities

  datatype Key = Key(id: nat, chat: nat)

  /** `number` is the ingestion sequence; `eligible` is positive evidence of an original direct text. */
  datatype Message = Message(id: nat, chat: nat, number: nat, content: string, timestamp: Time, eligible: bool,
                             media: Option<nat>)

  datatype Kind = Dispatched | Seen

  datatype Mark = Mark(dispatched: bool, seen: bool)

  datatype Ledger = Ledger(messages: seq<Message>, marks: map<Key, Mark>, dispatchSeq: map<nat, nat>,
                           agentSeq: map<nat, nat>)

  /** content LIKE '<assistant>:%', the prefix of the assistant's own messages. */
  type FromAssistant = string -> bool

  function KeyOf(m: Message): Key {
    Key(m.id, m.chat)
  }

  predicate Has(mark: Mark, kind: Kind) {
    if kind == Dispatched then mark.dispatched else mark.seen
  }

  predicate IsMarked(l: Ledger, key: Key, kind: Kind) {
    key in l.marks && Has(l.marks[key], kind)
  }

  /** A chat without a stored cursor starts at zero. */
  function CursorOf(l: Ledger, chat: nat, kind: Kind): nat {
    var cursors := if kind == Dispatched then l.dispatchSeq else l.agentSeq;
    if chat in cursors then cursors[chat] else 0
  }

  function MaxSeq(messages: seq<Message>): nat {
    if messages == [] then 0
    else
      var rest, last := MaxSeq(messages[..|messages| - 1]), messages[|messages| - 1].number;
      if rest < last then last else rest
  }

  function Find(messages: seq<Message>, key: Key): (r: Option<nat>)
    ensures r.Some? ==> r.value < |messages| && KeyOf(messages[r.value]) == key
    ensures r.None? ==> forall i :: 0 <= i < |messages| ==> KeyOf(messages[i]) != key
  {
    if messages == [] then None
    else if KeyOf(messages[|messages| - 1]) == key then Some(|messages| - 1)
    else Find(messages[..|messages| - 1], key)
  }

  // ---- Writes -----------------------------------------------------------------------------------------

  /** A replayed id updates its row and keeps its sequence; media is only ever filled in. */
  function Store(l: Ledger, input: Message): Ledger {
    var found := Find(l.messages, KeyOf(input));
    if found.Some? then
      var stored := l.messages[found.value];
      var media := if input.media.Some? then input.media else stored.media;
      l.(messages := l.messages[found.value := input.(number := stored.number, media := media)])
    else l.(messages := l.messages + [input.(number := MaxSeq(l.messages) + 1)])
  }

  function Marked(mark: Mark, kind: Kind): Mark {
    if kind == Dispatched then mark.(dispatched := true) else mark.(seen := true)
  }

  function MarkAll(marks: map<Key, Mark>, keys: set<Key>, kind: Kind): map<Key, Mark> {
    map key | key in marks.Keys + keys ::
      var mark := if key in marks then marks[key] else Mark(false, false);
      if key in keys then Marked(mark, kind) else mark
  }

  /** The messages of a chat up to a sequence number. */
  function UpTo(messages: seq<Message>, chat: nat, upto: nat): set<Key> {
    set i | 0 <= i < |messages| && messages[i].chat == chat && messages[i].number <= upto :: KeyOf(messages[i])
  }

  /** Marks first; the cursor only moves forward. */
  function SetDispatchSeq(l: Ledger, chat: nat, upto: nat): Ledger {
    var marks := MarkAll(l.marks, UpTo(l.messages, chat, upto), Dispatched);
    if upto >= CursorOf(l, chat, Dispatched) then l.(marks := marks, dispatchSeq := l.dispatchSeq[chat := upto])
    else l.(marks := marks)
  }

  function SetLastAgentSeq(l: Ledger, chat: nat, upto: nat): Ledger {
    l.(marks := MarkAll(l.marks, UpTo(l.messages, chat, upto), Seen), agentSeq := l.agentSeq[chat := upto])
  }

  function MarkCommandSeen(l: Ledger, key: Key): Ledger {
    l.(marks := MarkAll(l.marks, {key}, Seen))
  }

  // ---- Queries ----------------------------------------------------------------------------------------

  predicate Wanted(l: Ledger, m: Message, chat: nat, kind: Kind, bot: FromAssistant) {
    m.chat == chat && !bot(m.content) && !IsMarked(l, KeyOf(m), kind)
  }

  /** The first n messages that pass the cursor and the marks, as the queries filter them. */
  function Select(l: Ledger, n: nat, chat: nat, after: nat, kind: Kind, bot: FromAssistant): seq<Message>
    requires n <= |l.messages|
  {
    if n == 0 then []
    else
      var m := l.messages[n - 1];
      Select(l, n - 1, chat, after, kind, bot) +
      (if m.number > after && Wanted(l, m, chat, kind, bot) then [m] else [])
  }

  /** The unmarked messages of a chat that the assistant did not write, in ingestion order. */
  function Unmarked(l: Ledger, n: nat, chat: nat, kind: Kind, bot: FromAssistant): seq<Message>
    requires n <= |l.messages|
  {
    if n == 0 then []
    else
      var m := l.messages[n - 1];
      Unmarked(l, n - 1, chat, kind, bot) + (if Wanted(l, m, chat, kind, bot) then [m] else [])
  }

  function Query(l: Ledger, chat: nat, kind: Kind, bot: FromAssistant): seq<Message> {
    Select(l, |l.messages|, chat, CursorOf(l, chat, kind), kind, bot)
  }

  // ---- The invariant ------------------------------------------------------------------------------------

  predicate GoodTable(messages: seq<Message>) {
    && (forall i, j :: 0 <= i < j < |messages| ==> KeyOf(messages[i]) != KeyOf(messages[j]))
    && (forall i, j :: 0 <= i < j < |messages| ==> messages[i].number < messages[j].number)
    && (forall i :: 0 <= i < |messages| ==> messages[i].number > 0)
  }

  /** Nothing at or before a cursor is unmarked, so the cursor hides nothing. */
  predicate Covered(l: Ledger, kind: Kind) {
    forall i :: 0 <= i < |l.messages| && l.messages[i].number <= CursorOf(l, l.messages[i].chat, kind) ==>
      IsMarked(l, KeyOf(l.messages[i]), kind)
  }

  /** No cursor runs ahead of what was ingested. */
  predicate Behind(l: Ledger) {
    && (forall chat :: chat in l.dispatchSeq ==> l.dispatchSeq[chat] <= MaxSeq(l.messages))
    && (forall chat :: chat in l.agentSeq ==> l.agentSeq[chat] <= MaxSeq(l.messages))
  }

  predicate LedgerInv(l: Ledger) {
    GoodTable(l.messages) && Covered(l, Dispatched) && Covered(l, Seen) && Behind(l)
  }

  lemma {:induction false} MaxSeqBounds(messages: seq<Message>, i: nat)
    requires i < |messages|
    ensures messages[i].number <= MaxSeq(messages)
  {
    if i < |messages| - 1 {
      MaxSeqBounds(messages[..|messages| - 1], i);
    }
  }

  lemma {:induction false} MaxSeqSame(a: seq<Message>, b: seq<Message>)
    requires |a| == |b| && forall i :: 0 <= i < |a| ==> a[i].number == b[i].number
    ensures MaxSeq(a) == MaxSeq(b)
  {
    if a != [] {
      MaxSeqSame(a[..|a| - 1], b[..|b| - 1]);
    }
  }

  lemma AppendKeeps(l: Ledger, m: Message)
    requires LedgerInv(l) && Find(l.messages, KeyOf(m)).None? && m.number == MaxSeq(l.messages) + 1
    ensures LedgerInv(l.(messages := l.messages + [m]))
  {
    hide Find;
    var after := l.messages + [m];
    assert after[..|after| - 1] == l.messages;
    assert MaxSeq(after) == m.number;
    hide MaxSeq, IsMarked;
    forall i | 0 <= i < |l.messages| ensures l.messages[i].number < m.number {
      MaxSeqBounds(l.messages, i);
    }
    AppendCovers(l, m, Dispatched);
    AppendCovers(l, m, Seen);
    hide Covered;
  }

  lemma AppendCovers(l: Ledger, m: Message, kind: Kind)
    requires Covered(l, kind) && Behind(l) && m.number > MaxSeq(l.messages)
    ensures Covered(l.(messages := l.messages + [m]), kind)
  {
    hide MaxSeq;
  }

  lemma UpdateKeeps(l: Ledger, i: nat, m: Message)
    requires LedgerInv(l) && i < |l.messages| && KeyOf(m) == KeyOf(l.messages[i]) && m.number == l.messages[i].number
    ensures LedgerInv(l.(messages := l.messages[i := m]))
  {
    hide MaxSeq, IsMarked;
    MaxSeqSame(l.messages, l.messages[i := m]);
    UpdateCovers(l, i, m, Dispatched);
    UpdateCovers(l, i, m, Seen);
    hide Covered;
  }

  lemma UpdateCovers(l: Ledger, i: nat, m: Message, kind: Kind)
    requires Covered(l, kind) && i < |l.messages| && KeyOf(m) == KeyOf(l.messages[i]) &&
      m.number == l.messages[i].number
    ensures Covered(l.(messages := l.messages[i := m]), kind)
  {
  }

  lemma StoreKeeps(l: Ledger, input: Message)
    requires LedgerInv(l)
    ensures LedgerInv(Store(l, input))
  {
    hide LedgerInv, MaxSeq;
    var found := Find(l.messages, KeyOf(input));
    if found.Some? {
      UpdateKeeps(l, found.value, Store(l, input).messages[found.value]);
    } else {
      AppendKeeps(l, input.(number := MaxSeq(l.messages) + 1));
    }
  }

  lemma MarkAllMarks(l: Ledger, keys: set<Key>, kind: Kind, key: Key, k: Kind)
    ensures var after := l.(marks := MarkAll(l.marks, keys, kind));
      IsMarked(after, key, k) <==> IsMarked(l, key, k) || (k == kind && key in keys)
  {
  }

  lemma MarkNone(marks: map<Key, Mark>, kind: Kind)
    ensures MarkAll(marks, {}, kind) == marks
  {
  }

  lemma MarkOneMore(marks: map<Key, Mark>, keys: set<Key>, key: Key, kind: Kind)
    requires key !in keys
    ensures var before := MarkAll(marks, keys, kind);
      MarkAll(marks, keys + {key}, kind) ==
        before[key := Marked(if key in before then before[key] else Mark(false, false), kind)]
  {
  }

  lemma SetDispatchKeeps(l: Ledger, chat: nat, upto: nat)
    requires LedgerInv(l) && upto <= MaxSeq(l.messages)
    ensures LedgerInv(SetDispatchSeq(l, chat, upto))
  {
    var keys := UpTo(l.messages, chat, upto);
    var marks := MarkAll(l.marks, keys, Dispatched);
    var after := SetDispatchSeq(l, chat, upto);
    forall i, kind | 0 <= i < |l.messages| && l.messages[i].number <= CursorOf(after, l.messages[i].chat, kind)
      ensures IsMarked(after, KeyOf(l.messages[i]), kind)
    {
      MarkAllMarks(l, keys, Dispatched, KeyOf(l.messages[i]), kind);
      hide MarkAll, MaxSeq;
    }
    hide MarkAll, IsMarked, MaxSeq, GoodTable;
  }

  lemma SetAgentKeeps(l: Ledger, chat: nat, upto: nat)
    requires LedgerInv(l) && upto <= MaxSeq(l.messages)
    ensures LedgerInv(SetLastAgentSeq(l, chat, upto))
  {
    var keys := UpTo(l.messages, chat, upto);
    var after := SetLastAgentSeq(l, chat, upto);
    forall i, kind | 0 <= i < |l.messages| && l.messages[i].number <= CursorOf(after, l.messages[i].chat, kind)
      ensures IsMarked(after, KeyOf(l.messages[i]), kind)
    {
      MarkAllMarks(l, keys, Seen, KeyOf(l.messages[i]), kind);
      hide MarkAll, MaxSeq;
    }
    hide MarkAll, IsMarked, MaxSeq, GoodTable;
  }

  /** A cursor set beyond what was ingested would hide messages still to come. */
  lemma CursorAhead(l: Ledger, chat: nat, upto: nat)
    requires LedgerInv(l) && upto > MaxSeq(l.messages)
    ensures !LedgerInv(SetDispatchSeq(l, chat, upto)) && !LedgerInv(SetLastAgentSeq(l, chat, upto))
  {
    hide GoodTable, Covered, MaxSeq, MarkAll, UpTo;
    assert SetDispatchSeq(l, chat, upto).dispatchSeq[chat] == upto;
    assert SetLastAgentSeq(l, chat, upto).agentSeq[chat] == upto;
  }

  lemma MarkCommandKeeps(l: Ledger, key: Key)
    requires LedgerInv(l)
    ensures LedgerInv(MarkCommandSeen(l, key))
  {
    var after := MarkCommandSeen(l, key);
    forall i, kind | 0 <= i < |l.messages| && l.messages[i].number <= CursorOf(after, l.messages[i].chat, kind)
      ensures IsMarked(after, KeyOf(l.messages[i]), kind)
    {
      MarkAllMarks(l, {key}, Seen, KeyOf(l.messages[i]), kind);
      hide MarkAll, MaxSeq;
    }
    hide MarkAll, IsMarked, MaxSeq, GoodTable;
  }

  lemma {:induction false} SelectIsUnmarked(l: Ledger, n: nat, chat: nat, kind: Kind, bot: FromAssistant)
    requires Covered(l, kind) && n <= |l.messages|
    ensures Select(l, n, chat, CursorOf(l, chat, kind), kind, bot) == Unmarked(l, n, chat, kind, bot)
  {
    if n > 0 {
      SelectIsUnmarked(l, n - 1, chat, kind, bot);
    }
  }

  /** The cursor-filtered query returns exactly the unmarked messages the assistant did not write. */
  lemma QueryIsUnmarked(l: Ledger, chat: nat, kind: Kind, bot: FromAssistant)
    requires LedgerInv(l)
    ensures Query(l, chat, kind, bot) == Unmarked(l, |l.messages|, chat, kind, bot)
  {
    SelectIsUnmarked(l, |l.messages|, chat, kind, bot);
  }

  lemma {:induction false} UnmarkedMembers(l: Ledger, n: nat, chat: nat, kind: Kind, bot: FromAssistant, m: Message)
    requires n <= |l.messages|
    ensures m in Unmarked(l, n, chat, kind, bot) <==> m in l.messages[..n] && Wanted(l, m, chat, kind, bot)
  {
    if n > 0 {
      UnmarkedMembers(l, n - 1, chat, kind, bot, m);
      assert l.messages[..n] == l.messages[..n - 1] + [l.messages[n - 1]];
    }
  }

  lemma {:induction false} SameUnmarked(a: Ledger, b: Ledger, n: nat, chat: nat, kind: Kind, bot: FromAssistant)
    requires a.messages == b.messages && a.marks == b.marks && n <= |a.messages|
    ensures Unmarked(a, n, chat, kind, bot) == Unmarked(b, n, chat, kind, bot)
  {
    if n > 0 {
      SameUnmarked(a, b, n - 1, chat, kind, bot);
    }
  }

  // ---- What each write and query means ------------------------------------------------------------------

  predicate HasBit(l: Ledger, key: Key, kind: Kind) {
    key in l.marks && (if kind == Dispatched then l.marks[key].dispatched else l.marks[key].seen)
  }

  /** The message of this key is of the chat and was ingested up to that number. */
  predicate IngestedUpTo(l: Ledger, key: Key, chat: nat, upto: nat) {
    exists i :: 0 <= i < |l.messages| && KeyOf(l.messages[i]) == key && l.messages[i].chat == chat &&
                l.messages[i].number <= upto
  }

  /** A known message keeps its number and any media it had; a new one gets a number beyond all others. */
  lemma StoreMeans(l: Ledger, input: Message)
    requires GoodTable(l.messages)
    ensures var after := Store(l, input);
      && after == l.(messages := after.messages)
      && (forall i :: 0 <= i < |l.messages| && KeyOf(l.messages[i]) == KeyOf(input) ==>
            after.messages == l.messages[i := input.(number := l.messages[i].number,
              media := if input.media.Some? then input.media else l.messages[i].media)])
      && ((forall i :: 0 <= i < |l.messages| ==> KeyOf(l.messages[i]) != KeyOf(input)) ==>
            && |after.messages| == |l.messages| + 1 && after.messages[..|l.messages|] == l.messages
            && var m := after.messages[|l.messages|];
               && m == input.(number := m.number)
               && (forall i :: 0 <= i < |l.messages| ==> l.messages[i].number < m.number))
  {
    forall i | 0 <= i < |l.messages| ensures l.messages[i].number <= MaxSeq(l.messages) {
      MaxSeqBounds(l.messages, i);
    }
    hide MaxSeq;
  }

  /** Moving the dispatch cursor marks exactly the chat's messages up to it, and the cursor only moves forward. */
  lemma DispatchMeans(l: Ledger, chat: nat, upto: nat, key: Key, kind: Kind, other: nat)
    ensures var after := SetDispatchSeq(l, chat, upto);
      && after.messages == l.messages && after.agentSeq == l.agentSeq
      && (HasBit(after, key, kind) <==>
            HasBit(l, key, kind) || (kind == Dispatched && IngestedUpTo(l, key, chat, upto)))
      && CursorOf(after, chat, Dispatched) ==
           (if upto >= CursorOf(l, chat, Dispatched) then upto else CursorOf(l, chat, Dispatched))
      && (other != chat ==> CursorOf(after, other, Dispatched) == CursorOf(l, other, Dispatched))
  {
  }

  /** Setting the agent's cursor marks exactly the chat's messages up to it as seen. */
  lemma AgentMeans(l: Ledger, chat: nat, upto: nat, key: Key, kind: Kind)
    ensures var after := SetLastAgentSeq(l, chat, upto);
      && after.messages == l.messages && after.dispatchSeq == l.dispatchSeq
      && (HasBit(after, key, kind) <==>
            HasBit(l, key, kind) || (kind == Seen && IngestedUpTo(l, key, chat, upto)))
      && after.agentSeq == l.agentSeq[chat := upto]
  {
  }

  /** A command's mark sets one bit of one message. */
  lemma CommandMarkMeans(l: Ledger, command: Key, key: Key, kind: Kind)
    ensures var after := MarkCommandSeen(l, command);
      && after.messages == l.messages && after.dispatchSeq == l.dispatchSeq && after.agentSeq == l.agentSeq
      && (HasBit(after, key, kind) <==> HasBit(l, key, kind) || (kind == Seen && key == command))
  {
  }

  /** A query finds exactly the chat's messages of others that do not bear the mark. */
  lemma QueryMeans(l: Ledger, chat: nat, kind: Kind, bot: FromAssistant, m: Message)
    requires LedgerInv(l)
    ensures m in Query(l, chat, kind, bot) <==>
      m in l.messages && m.chat == chat && !bot(m.content) && !HasBit(l, KeyOf(m), kind)
  {
    QueryIsUnmarked(l, chat, kind, bot);
    UnmarkedMembers(l, |l.messages|, chat, kind, bot, m);
    assert l.messages[..|l.messages|] == l.messages;
    hide Query, Unmarked, LedgerInv;
  }

  // ---- Importing the cursors of an earlier version --------------------------------------------------------

  /** Per-chat sequence cursors win over timestamps; the router's state file comes last. */
  datatype Legacy = Legacy(
    dispatchSeq: map<nat, nat>,
    agentSeq: map<nat, nat>,
    dispatchTime: map<nat, Time>,
    allDispatchTime: Option<Time>,
    agentTime: map<nat, Time>,
    fileTime: Option<Time>,
    fileAgentTime: map<nat, Time>,
    stateFile: bool)

  predicate HasCursor(legacy: Legacy) {
    legacy.dispatchSeq != map[] || legacy.agentSeq != map[] || legacy.dispatchTime != map[]
    || legacy.allDispatchTime.Some? || legacy.agentTime != map[]
  }

  predicate AtOrBefore(m: Message, t: Option<Time>) {
    t.Some? && m.timestamp <= t.value
  }

  function Lookup(times: map<nat, Time>, chat: nat): Option<Time> {
    if chat in times then Some(times[chat]) else None
  }

  function OrElse(a: Option<Time>, b: Option<Time>): Option<Time> {
    if a.Some? then a else b
  }

  /** What the old cursors said about one message. */
  predicate WasDispatched(legacy: Legacy, m: Message) {
    if m.chat in legacy.dispatchSeq then m.number <= legacy.dispatchSeq[m.chat]
    else AtOrBefore(m, OrElse(OrElse(Lookup(legacy.dispatchTime, m.chat), legacy.allDispatchTime), legacy.fileTime))
  }

  predicate WasSeen(legacy: Legacy, m: Message) {
    if m.chat in legacy.agentSeq then m.number <= legacy.agentSeq[m.chat]
    else AtOrBefore(m, OrElse(Lookup(legacy.agentTime, m.chat), Lookup(legacy.fileAgentTime, m.chat)))
  }

  predicate Beyond(m: Message, t: Option<Time>) {
    t.None? || m.timestamp > t.value
  }

  /** Beyond the chat's sequence cursor or, without one, its timestamp, the overall one, or the file's. */
  predicate AfterDispatch(legacy: Legacy, m: Message) {
    if m.chat in legacy.dispatchSeq then m.number > legacy.dispatchSeq[m.chat]
    else if m.chat in legacy.dispatchTime then Beyond(m, Some(legacy.dispatchTime[m.chat]))
    else if legacy.allDispatchTime.Some? then Beyond(m, legacy.allDispatchTime)
    else Beyond(m, legacy.fileTime)
  }

  predicate AfterAgent(legacy: Legacy, m: Message) {
    if m.chat in legacy.agentSeq then m.number > legacy.agentSeq[m.chat]
    else if m.chat in legacy.agentTime then Beyond(m, Some(legacy.agentTime[m.chat]))
    else if m.chat in legacy.fileAgentTime then Beyond(m, Some(legacy.fileAgentTime[m.chat]))
    else true
  }

  lemma AfterMeans(legacy: Legacy, m: Message)
    ensures AfterDispatch(legacy, m) <==> !WasDispatched(legacy, m)
    ensures AfterAgent(legacy, m) <==> !WasSeen(legacy, m)
  {
  }

  /** Existing history without any cursor is refused: starting at zero would dispatch it all again. */
  predicate Importable(messages: seq<Message>, legacy: Legacy) {
    messages == [] || legacy.stateFile || HasCursor(legacy)
  }

  /** INSERT OR IGNORE of one mark row. */
  function ImportOne(marks: map<Key, Mark>, legacy: Legacy, m: Message): map<Key, Mark> {
    if KeyOf(m) in marks then marks else marks[KeyOf(m) := Mark(WasDispatched(legacy, m), WasSeen(legacy, m))]
  }

  function ImportMarks(marks: map<Key, Mark>, messages: seq<Message>, legacy: Legacy): map<Key, Mark> {
    if messages == [] then marks
    else ImportOne(ImportMarks(marks, messages[..|messages| - 1], legacy), legacy, messages[|messages| - 1])
  }

  /** One mark row per message, and no cursors left. */
  function Import(messages: seq<Message>, marks: map<Key, Mark>, legacy: Legacy): Ledger {
    Ledger(messages, ImportMarks(marks, messages, legacy), map[], map[])
  }

  lemma {:induction false} ImportedMark(marks: map<Key, Mark>, messages: seq<Message>, legacy: Legacy, i: nat)
    requires GoodTable(messages) && i < |messages|
    ensures var after := ImportMarks(marks, messages, legacy);
      && KeyOf(messages[i]) in after
      && after[KeyOf(messages[i])] ==
           if KeyOf(messages[i]) in marks then marks[KeyOf(messages[i])]
           else Mark(WasDispatched(legacy, messages[i]), WasSeen(legacy, messages[i]))
  {
    var init := messages[..|messages| - 1];
    ImportAddsOnly(marks, init, legacy, KeyOf(messages[|messages| - 1]));
    if i < |messages| - 1 {
      ImportedMark(marks, init, legacy, i);
    }
    hide WasDispatched, WasSeen;
  }

  lemma {:induction false} ImportAddsOnly(marks: map<Key, Mark>, messages: seq<Message>, legacy: Legacy, key: Key)
    requires forall i :: 0 <= i < |messages| ==> KeyOf(messages[i]) != key
    ensures key in ImportMarks(marks, messages, legacy) <==> key in marks
    ensures key in marks ==> ImportMarks(marks, messages, legacy)[key] == marks[key]
  {
    if messages != [] {
      ImportAddsOnly(marks, messages[..|messages| - 1], legacy, key);
    }
    hide WasDispatched, WasSeen;
  }

  /**
   Right after the import of cursors that had no marks beside them, the queries return exactly what
   lies after the old cursors, message by message: no message is lost in a hole and none comes back.
   */
  lemma ImportKeepsPending(messages: seq<Message>, legacy: Legacy, chat: nat, bot: FromAssistant, m: Message)
    requires GoodTable(messages) && m in messages
    ensures LedgerInv(Import(messages, map[], legacy))
    ensures var l := Import(messages, map[], legacy);
      && (m in Query(l, chat, Dispatched, bot) <==> m.chat == chat && !bot(m.content) && AfterDispatch(legacy, m))
      && (m in Query(l, chat, Seen, bot) <==> m.chat == chat && !bot(m.content) && AfterAgent(legacy, m))
  {
    ImportIsGood(messages, map[], legacy);
    var l := Import(messages, map[], legacy);
    QueryIsUnmarked(l, chat, Dispatched, bot);
    QueryIsUnmarked(l, chat, Seen, bot);
    UnmarkedMembers(l, |messages|, chat, Dispatched, bot, m);
    UnmarkedMembers(l, |messages|, chat, Seen, bot, m);
    var i :| 0 <= i < |messages| && messages[i] == m;
    ImportedMark(map[], messages, legacy, i);
    assert l.messages[..|messages|] == messages;
    AfterMeans(legacy, m);
    hide ImportMarks, Query, Unmarked, WasDispatched, WasSeen, GoodTable, LedgerInv, AfterDispatch,
      AfterAgent;
  }

  lemma ImportIsGood(messages: seq<Message>, marks: map<Key, Mark>, legacy: Legacy)
    requires GoodTable(messages)
    ensures LedgerInv(Import(messages, marks, legacy))
  {
    hide ImportMarks, MaxSeq;
  }
}

/** The ledger as the program writes it: an object whose tables its methods update in place. */
module WhatsAppLedgers {
  import opened Identities
  import opened LedgerTables

  class WhatsAppLedger {
    const bot: FromAssistant
    var messages: seq<Message>
    var marks: map<Key, Mark>
    var dispatchSeq: map<nat, nat>
    var agentSeq: map<nat, nat>
    var initialized: bool

    function State(): Ledger
      reads this
    {
      Ledger(messages, marks, dispatchSeq, agentSeq)
    }

    predicate Valid()
      reads this
    {
      initialized && LedgerInv(State())
    }

    /** Opens the tables an earlier version may have left. */
    constructor (bot: FromAssistant, messages: seq<Message>, dispatchSeq: map<nat, nat>, agentSeq: map<nat, nat>)
      ensures this.bot == bot && State() == Ledger(messages, map[], dispatchSeq, agentSeq) && !initialized
    {
      this.bot, this.messages, this.dispatchSeq, this.agentSeq := bot, messages, dispatchSeq, agentSeq;
      marks, initialized := map[], false;
    }

    /** Imports the cursors once, message by message; false is the refusal to start at sequence zero. */
    method InitializeProgress(legacy: Legacy) returns (ok: bool)
      requires initialized ==> Valid()
      requires GoodTable(messages) && legacy.dispatchSeq == dispatchSeq && legacy.agentSeq == agentSeq
      modifies this`marks, this`dispatchSeq, this`agentSeq, this`initialized
      ensures old(initialized) ==> ok && State() == old(State())
      ensures !old(initialized) ==> ok == Importable(messages, legacy)
      ensures !ok <==>
        && !old(initialized) && messages != [] && !legacy.stateFile && legacy.allDispatchTime.None?
        && legacy.dispatchSeq == map[] && legacy.agentSeq == map[] && legacy.dispatchTime == map[]
        && legacy.agentTime == map[]
      ensures !old(initialized) && ok ==> State() == Import(messages, old(marks), legacy)
      ensures !ok ==> State() == old(State())
      ensures ok ==> Valid()
    {
      hide GoodTable, WasDispatched, WasSeen, MaxSeq;
      if initialized {
        return true;
      }
      if !Importable(messages, legacy) {
        return false;
      }
      ImportIsGood(messages, marks, legacy);
      ghost var was := marks;
      for i := 0 to |messages|
        invariant messages == old(messages) && dispatchSeq == old(dispatchSeq) && agentSeq == old(agentSeq)
        invariant marks == ImportMarks(was, messages[..i], legacy)
      {
        assert messages[..i + 1][..i] == messages[..i];
        var m := messages[i];
        if KeyOf(m) !in marks {
          marks := marks[KeyOf(m) := Mark(WasDispatched(legacy, m), WasSeen(legacy, m))];
        }
      }
      assert messages[..|messages|] == messages;
      dispatchSeq, agentSeq, initialized := map[], map[], true;
      return true;
    }

    method Highest() returns (max: nat)
      ensures max == MaxSeq(messages)
    {
      max := 0;
      for i := 0 to |messages|
        invariant max == MaxSeq(messages[..i])
      {
        assert messages[..i + 1][..i] == messages[..i];
        if max < messages[i].number {
          max := messages[i].number;
        }
      }
      assert messages[..|messages|] == messages;
    }

    /** A replayed id keeps its place and its sequence; a new message gets the next one. */
    method StoreMessage(input: Message)
      requires Valid()
      modifies this`messages
      ensures Valid() && State() == Store(old(State()), input)
    {
      hide LedgerInv, MaxSeq;
      StoreKeeps(State(), input);
      var found := Find(messages, KeyOf(input));
      if found.Some? {
        var stored := messages[found.value];
        var media := if input.media.Some? then input.media else stored.media;
        messages := messages[found.value := input.(number := stored.number, media := media)];
      } else {
        var max := Highest();
        messages := messages + [input.(number := max + 1)];
      }
    }

    /** The pending messages of one chat after a cursor, in ingestion order. */
    method QueryChat(chat: nat, after: nat, kind: Kind) returns (found: seq<Message>)
      ensures found == Select(State(), |messages|, chat, after, kind, bot)
    {
      found := [];
      for i := 0 to |messages|
        invariant found == Select(State(), i, chat, after, kind, bot)
      {
        var m := messages[i];
        if m.number > after && m.chat == chat && !bot(m.content) &&
           !(KeyOf(m) in marks && Has(marks[KeyOf(m)], kind))
        {
          found := found + [m];
        }
      }
    }

    method MarkMessages(keys: set<Key>, kind: Kind)
      modifies this`marks
      ensures marks == MarkAll(old(marks), keys, kind)
    {
      hide MarkAll, Marked;
      var left := keys;
      ghost var was, done := marks, {};
      MarkNone(was, kind);
      while left != {}
        invariant left !! done && left + done == keys && marks == MarkAll(was, done, kind)
        decreases |left|
      {
        var key :| key in left;
        MarkOneMore(was, done, key, kind);
        marks := marks[key := Marked(if key in marks then marks[key] else Mark(false, false), kind)];
        left, done := left - {key}, done + {key};
      }
      assert done == keys;
    }

    method GetDispatchSeq(chat: nat) returns (number: nat)
      requires Valid()
      modifies this`marks, this`dispatchSeq
      ensures Valid() && number == CursorOf(old(State()), chat, Dispatched) == CursorOf(State(), chat, Dispatched)
      ensures marks == old(marks)
      ensures forall c :: CursorOf(State(), c, Dispatched) == CursorOf(old(State()), c, Dispatched)
    {
      hide LedgerInv, MaxSeq;
      if chat in dispatchSeq {
        return dispatchSeq[chat];
      }
      NothingUpToZero(State(), chat);
      SetDispatchSeq(chat, 0);
      return 0;
    }

    lemma NothingUpToZero(l: Ledger, chat: nat)
      requires LedgerInv(l)
      ensures MarkAll(l.marks, UpTo(l.messages, chat, 0), Dispatched) == l.marks
    {
      assert UpTo(l.messages, chat, 0) == {};
    }

    /** A number beyond the last ingested one would hide messages still to come; no caller passes one. */
    method SetDispatchSeq(chat: nat, number: nat)
      requires Valid()
      modifies this`marks, this`dispatchSeq
      ensures State() == LedgerTables.SetDispatchSeq(old(State()), chat, number)
      ensures Valid() <==> number <= MaxSeq(messages)
    {
      hide LedgerInv, MaxSeq, MarkAll;
      if number <= MaxSeq(messages) {
        SetDispatchKeeps(State(), chat, number);
      } else {
        CursorAhead(State(), chat, number);
      }
      MarkMessages(UpTo(messages, chat, number), Dispatched);
      var current := if chat in dispatchSeq then dispatchSeq[chat] else 0;
      if number >= current {
        dispatchSeq := dispatchSeq[chat := number];
      }
    }

    method GetLastAgentSeq(chat: nat) returns (number: nat)
      requires Valid()
      modifies this`agentSeq
      ensures Valid() && number == CursorOf(old(State()), chat, Seen) == CursorOf(State(), chat, Seen)
      ensures forall c :: CursorOf(State(), c, Seen) == CursorOf(old(State()), c, Seen)
    {
      hide GoodTable, MaxSeq;
      if chat in agentSeq {
        return agentSeq[chat];
      }
      agentSeq := agentSeq[chat := 0];
      return 0;
    }

    /** As with the dispatch cursor, a number beyond the last ingested one would hide messages still to come. */
    method SetLastAgentSeq(chat: nat, number: nat)
      requires Valid()
      modifies this`marks, this`agentSeq
      ensures State() == LedgerTables.SetLastAgentSeq(old(State()), chat, number)
      ensures Valid() <==> number <= MaxSeq(messages)
    {
      hide LedgerInv, MaxSeq, MarkAll;
      if number <= MaxSeq(messages) {
        SetAgentKeeps(State(), chat, number);
      } else {
        CursorAhead(State(), chat, number);
      }
      MarkMessages(UpTo(messages, chat, number), Seen);
      agentSeq := agentSeq[chat := number];
    }

    method MarkCommandSeen(key: Key)
      requires Valid()
      modifies this`marks
      ensures Valid() && State() == LedgerTables.MarkCommandSeen(old(State()), key)
    {
      hide LedgerInv, MarkAll;
      MarkCommandKeeps(State(), key);
      MarkMessages({key}, Seen);
    }

    /** getNewMessages with the chat's own cursor: exactly the undispatched messages of others. */
    method GetNewMessages(chat: nat) returns (found: seq<Message>)
      requires Valid()
      modifies this`marks, this`dispatchSeq
      ensures Valid() && marks == old(marks) && found == Unmarked(old(State()), |messages|, chat, Dispatched, bot)
    {
      hide LedgerInv;
      var cursor := GetDispatchSeq(chat);
      found := QueryChat(chat, cursor, Dispatched);
      QueryIsUnmarked(State(), chat, Dispatched, bot);
      SameUnmarked(State(), old(State()), |messages|, chat, Dispatched, bot);
    }

    /** getMessagesSince with the agent's cursor: exactly the unseen messages of others. */
    method GetMessagesSince(chat: nat) returns (found: seq<Message>)
      requires Valid()
      modifies this`agentSeq
      ensures Valid() && found == Unmarked(old(State()), |messages|, chat, Seen, bot)
    {
      hide LedgerInv;
      var cursor := GetLastAgentSeq(chat);
      found := QueryChat(chat, cursor, Seen);
      QueryIsUnmarked(State(), chat, Seen, bot);
      SameUnmarked(State(), old(State()), |messages|, chat, Seen, bot);
    }
  }
}

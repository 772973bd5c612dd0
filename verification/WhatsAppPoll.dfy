/**
 pollChat as the program writes it: a loop over the segments of what is waiting, which accepts each one
 before it moves the ledger's marks past it. Between arrivals, whatever fails, exactly the segments not
 yet dealt with are still waiting afterwards.
 */
module WhatsAppPolls {
  import opened Identities
  import opened LedgerTables
  import opened PollChat
  import opened WhatsAppLedgers

  /** What the relay durably accepted, in order. */
  datatype Acceptance = Prompt(batch: seq<Message>) | Command(message: Message)

  function AcceptedKeys(accepted: seq<Acceptance>): set<Key> {
    if accepted == [] then {}
    else
      var last := accepted[|accepted| - 1];
      AcceptedKeys(accepted[..|accepted| - 1]) + (if last.Prompt? then Keys(last.batch) else {KeyOf(last.message)})
  }

  lemma AcceptedAppend(accepted: seq<Acceptance>, a: Acceptance)
    ensures AcceptedKeys(accepted + [a]) ==
      AcceptedKeys(accepted) + (if a.Prompt? then Keys(a.batch) else {KeyOf(a.message)})
  {
    assert (accepted + [a])[..|accepted|] == accepted;
  }

  // ---- What moving the dispatch cursor removes ----------------------------------------------------------

  function After(messages: seq<Message>, number: nat): seq<Message> {
    if messages == [] then []
    else
      var m := messages[|messages| - 1];
      After(messages[..|messages| - 1], number) + (if m.number > number then [m] else [])
  }

  predicate Increasing(messages: seq<Message>) {
    forall i, j :: 0 <= i < j < |messages| ==> messages[i].number < messages[j].number
  }

  lemma {:induction false} UnmarkedIncreases(l: Ledger, n: nat, chat: nat, kind: Kind, bot: FromAssistant)
    requires GoodTable(l.messages) && n <= |l.messages|
    ensures Increasing(Unmarked(l, n, chat, kind, bot))
  {
    if n > 0 {
      UnmarkedIncreases(l, n - 1, chat, kind, bot);
      forall m | m in Unmarked(l, n - 1, chat, kind, bot) ensures m.number < l.messages[n - 1].number {
        UnmarkedMembers(l, n - 1, chat, kind, bot, m);
      }
      hide Wanted, GoodTable;
    }
  }

  /** By its number, since numbers and keys identify the same message. */
  lemma UpToByNumber(l: Ledger, i: nat, number: nat)
    requires GoodTable(l.messages) && i < |l.messages|
    ensures KeyOf(l.messages[i]) in UpTo(l.messages, l.messages[i].chat, number) <==> l.messages[i].number <= number
  {
  }

  lemma AfterAppend(messages: seq<Message>, m: Message, number: nat)
    ensures After(messages + [m], number) == After(messages, number) + (if m.number > number then [m] else [])
  {
    assert (messages + [m])[..|messages|] == messages;
  }

  lemma {:induction false} DispatchDrops(l: Ledger, n: nat, chat: nat, number: nat, bot: FromAssistant)
    requires GoodTable(l.messages) && n <= |l.messages|
    ensures Unmarked(SetDispatchSeq(l, chat, number), n, chat, Dispatched, bot) ==
      After(Unmarked(l, n, chat, Dispatched, bot), number)
  {
    hide GoodTable, SetDispatchSeq, Wanted, After;
    if n == 0 {
      AfterNone([], number);
    } else {
      DispatchDrops(l, n - 1, chat, number, bot);
      WantedAfter(l, n - 1, chat, number, bot);
      var m, before := l.messages[n - 1], Unmarked(l, n - 1, chat, Dispatched, bot);
      if Wanted(l, m, chat, Dispatched, bot) {
        AfterAppend(before, m, number);
      } else {
        assert Unmarked(l, n, chat, Dispatched, bot) == before;
      }
    }
  }

  lemma WantedAfter(l: Ledger, i: nat, chat: nat, number: nat, bot: FromAssistant)
    requires GoodTable(l.messages) && i < |l.messages|
    ensures SetDispatchSeq(l, chat, number).messages == l.messages
    ensures Wanted(SetDispatchSeq(l, chat, number), l.messages[i], chat, Dispatched, bot) <==>
      Wanted(l, l.messages[i], chat, Dispatched, bot) && l.messages[i].number > number
  {
    UpToByNumber(l, i, number);
    MarkAllMarks(l, UpTo(l.messages, chat, number), Dispatched, KeyOf(l.messages[i]), Dispatched);
    hide GoodTable, MarkAll, UpTo;
  }

  lemma {:induction false} AfterNone(messages: seq<Message>, number: nat)
    requires forall i :: 0 <= i < |messages| ==> messages[i].number <= number
    ensures After(messages, number) == []
  {
    if messages != [] {
      AfterNone(messages[..|messages| - 1], number);
    }
  }

  lemma {:induction false} AfterPrefix(a: seq<Message>, b: seq<Message>, number: nat)
    requires forall i :: 0 <= i < |a| ==> a[i].number <= number
    requires forall i :: 0 <= i < |b| ==> b[i].number > number
    ensures After(a + b, number) == b
  {
    if b == [] {
      assert a + b == a;
      AfterNone(a, number);
    } else {
      assert (a + b)[..|a + b| - 1] == a + b[..|b| - 1];
      AfterPrefix(a, b[..|b| - 1], number);
    }
  }

  lemma {:induction false} FlattenFront(segments: seq<Segment>)
    requires segments != []
    ensures Flatten(segments) == Contents(segments[0]) + Flatten(segments[1..])
  {
    if |segments| > 1 {
      FlattenFront(segments[..|segments| - 1]);
      assert segments[..|segments| - 1][1..] == segments[1..][..|segments| - 2];
    }
  }

  /** Of increasing messages, those up to the end of the first part are the first part. */
  lemma FirstPart(first: seq<Message>, later: seq<Message>)
    requires first != [] && Increasing(first + later)
    ensures After(first + later, first[|first| - 1].number) == later
  {
    var all, n := first + later, |first| - 1;
    forall i | 0 <= i < |later| ensures later[i].number > first[n].number {
      assert later[i] == all[n + 1 + i] && first[n] == all[n];
    }
    forall i | 0 <= i < |first| ensures first[i].number <= first[n].number {
      assert first[i] == all[i] && first[n] == all[n];
    }
    AfterPrefix(first, later, first[n].number);
  }

  lemma FirstSegment(policy: ChatPolicy, todo: seq<Segment>)
    requires todo != [] && Proper(policy, todo)
    ensures var first := Contents(todo[0]); first != [] && Last(todo[0]) == first[|first| - 1].number
  {
    assert ProperSegment(policy, todo[0]);
  }

  /** Moving the cursor past the first segment leaves exactly the later segments waiting. */
  lemma SegmentDone(policy: ChatPolicy, l: Ledger, chat: nat, todo: seq<Segment>)
    requires LedgerInv(l) && todo != [] && Proper(policy, todo)
    requires Unmarked(l, |l.messages|, chat, Dispatched, policy.bot) == Flatten(todo)
    ensures Last(todo[0]) <= MaxSeq(l.messages)
    ensures var after := SetDispatchSeq(l, chat, Last(todo[0]));
      Unmarked(after, |l.messages|, chat, Dispatched, policy.bot) == Flatten(todo[1..])
  {
    hide Unmarked, Flatten, After, MaxSeq, Proper, SetDispatchSeq, Increasing, GoodTable, Covered, Behind, Last;
    var first, later := Contents(todo[0]), Flatten(todo[1..]);
    FlattenFront(todo);
    FirstSegment(policy, todo);
    UnmarkedIncreases(l, |l.messages|, chat, Dispatched, policy.bot);
    DispatchDrops(l, |l.messages|, chat, Last(todo[0]), policy.bot);
    FirstPart(first, later);
    var m := first[|first| - 1];
    assert m in first + later;
    UnmarkedMembers(l, |l.messages|, chat, Dispatched, policy.bot, m);
    IngestedBound(l, m);
  }

  lemma IngestedBound(l: Ledger, m: Message)
    requires m in l.messages[..|l.messages|]
    ensures m.number <= MaxSeq(l.messages)
  {
    var i :| 0 <= i < |l.messages| && l.messages[i] == m;
    MaxSeqBounds(l.messages, i);
  }

  lemma {:induction false} SeenMarksAside(l: Ledger, keys: set<Key>, agentSeq: map<nat, nat>, n: nat, chat: nat,
                                          bot: FromAssistant)
    requires n <= |l.messages|
    ensures var marked := Ledger(l.messages, MarkAll(l.marks, keys, Seen), l.dispatchSeq, agentSeq);
      Unmarked(marked, n, chat, Dispatched, bot) == Unmarked(l, n, chat, Dispatched, bot)
  {
    if n > 0 {
      SeenMarksAside(l, keys, agentSeq, n - 1, chat, bot);
      MarkAllMarks(l, keys, Seen, KeyOf(l.messages[n - 1]), Dispatched);
      hide MarkAll;
    }
  }

  /** A seen message was seen before, is accepted, or is the assistant's own. */
  predicate SeenAccounted(policy: ChatPolicy, was: Ledger, l: Ledger, accepted: set<Key>) {
    forall key :: key in l.marks && IsMarked(l, key, Seen) ==>
      IsMarked(was, key, Seen) || key in accepted || IsOwn(policy, was, key)
  }

  lemma TranscriptSeen(policy: ChatPolicy, was: Ledger, l: Ledger, chat: nat, s: Segment, accepted: set<Key>)
    requires LedgerInv(l) && SeenAccounted(policy, was, l, accepted) && was.messages == l.messages
    ensures
      SeenAccounted(policy, was, SetLastAgentSeq(l, chat, Last(s)), accepted + Keys(Transcript(policy, l, chat, s)))
  {
    var number, batch := Last(s), Transcript(policy, l, chat, s);
    var after := SetLastAgentSeq(l, chat, number);
    TranscriptAccounts(policy, l, chat, s);
    forall key | key in after.marks && IsMarked(after, key, Seen)
      ensures IsMarked(was, key, Seen) || key in accepted + Keys(batch) || IsOwn(policy, was, key)
    {
      MarkAllMarks(l, UpTo(l.messages, chat, number), Seen, key, Seen);
      if !IsMarked(l, key, Seen) {
        assert Accounted(l, chat, number, Keys(batch), OwnUnseen(policy, l, chat, number));
        if key in OwnUnseen(policy, l, chat, number) {
          OwnUnseenIsOwn(policy, l, chat, number, key);
          SameMessagesOwn(policy, l, was, key);
        }
      }
      hide LedgerInv, MarkAll, Keys, OwnUnseen, Transcript, Last, IsOwn;
    }
    hide LedgerInv, MarkAll, UpTo, Keys, OwnUnseen, Transcript, Last, IsOwn, IsMarked;
  }

  lemma CommandSeen(policy: ChatPolicy, was: Ledger, l: Ledger, key: Key, accepted: set<Key>)
    requires SeenAccounted(policy, was, l, accepted)
    ensures SeenAccounted(policy, was, MarkCommandSeen(l, key), accepted + {key})
  {
    forall k | k in MarkCommandSeen(l, key).marks && IsMarked(MarkCommandSeen(l, key), k, Seen)
      ensures IsMarked(was, k, Seen) || k in accepted + {key} || IsOwn(policy, was, k)
    {
      MarkAllMarks(l, {key}, Seen, k, Seen);
    }
    hide MarkAll, IsOwn, IsMarked;
  }

  lemma DispatchSeen(policy: ChatPolicy, was: Ledger, l: Ledger, chat: nat, number: nat, accepted: set<Key>)
    requires SeenAccounted(policy, was, l, accepted)
    ensures SeenAccounted(policy, was, SetDispatchSeq(l, chat, number), accepted)
  {
    var after := SetDispatchSeq(l, chat, number);
    forall k | k in after.marks && IsMarked(after, k, Seen)
      ensures IsMarked(was, k, Seen) || k in accepted || IsOwn(policy, was, k)
    {
      MarkAllMarks(l, UpTo(l.messages, chat, number), Dispatched, k, Seen);
    }
    hide MarkAll, IsOwn, IsMarked, UpTo;
  }

  // ---- The loop -------------------------------------------------------------------------------------------

  class WhatsAppBridge {
    const ledger: WhatsAppLedger
    const policy: ChatPolicy
    /** Whether the relay's n-th accept succeeds. */
    const network: nat -> bool
    var calls: nat
    var accepted: seq<Acceptance>

    constructor (ledger: WhatsAppLedger, policy: ChatPolicy, network: nat -> bool)
      ensures this.ledger == ledger && this.policy == policy && this.network == network && accepted == []
    {
      this.ledger, this.policy, this.network := ledger, policy, network;
      calls, accepted := 0, [];
    }

    method SplitCommandBatches(messages: seq<Message>) returns (segments: seq<Segment>)
      ensures segments == Split(policy, messages)
    {
      segments := [];
      for i := 0 to |messages|
        invariant segments == Split(policy, messages[..i])
      {
        assert messages[..i + 1][..i] == messages[..i];
        var m := messages[i];
        if m.eligible && m.media.None? && policy.responds(m.content) && policy.parses(m.content) {
          segments := segments + [CommandOf(m)];
        } else if segments != [] && segments[|segments| - 1].Messages? {
          var last := |segments| - 1;
          segments := segments[..last] + [Messages(segments[last].batch + [m])];
        } else {
          segments := segments + [Messages([m])];
        }
      }
      assert messages[..|messages|] == messages;
    }

    /** No accept fails. */
    ghost predicate AllAccepted() {
      forall n: nat :: network(n)
    }

    method Accept(what: Acceptance) returns (ok: bool)
      modifies this`calls, this`accepted
      ensures accepted == if ok then old(accepted) + [what] else old(accepted)
      ensures AllAccepted() ==> ok
    {
      ok := network(calls);
      calls := calls + 1;
      if ok {
        accepted := accepted + [what];
      }
    }

    method IsAddressed(batch: seq<Message>) returns (addressed: bool)
      ensures addressed == Addressed(policy, batch)
    {
      for i := 0 to |batch|
        invariant forall k :: 0 <= k < i ==> !policy.responds(batch[k].content)
      {
        if policy.responds(batch[i].content) {
          return true;
        }
      }
      return false;
    }

    /** Everything unseen up to the segment's end, or else the segment itself. */
    method ReadBatch(chat: nat, s: Segment) returns (batch: seq<Message>)
      requires ledger.Valid() && ledger.bot == policy.bot
      modifies ledger`agentSeq
      ensures ledger.Valid() && batch == Transcript(policy, old(ledger.State()), chat, s)
    {
      hide LedgerInv, Query, Unmarked;
      QueryIsUnmarked(ledger.State(), chat, Seen, policy.bot);
      var unseen := ledger.GetMessagesSince(chat);
      batch := [];
      for i := 0 to |unseen|
        invariant ledger.Valid() && batch == NotAfter(unseen[..i], Last(s))
      {
        assert unseen[..i + 1][..i] == unseen[..i];
        if unseen[i].number <= Last(s) {
          batch := batch + [unseen[i]];
        }
      }
      assert unseen[..|unseen|] == unseen;
      if batch == [] {
        batch := Contents(s);
      }
    }

    /** One segment: accepted first, then marked. On failure nothing moved past it. */
    method PollSegment(chat: nat, ghost todo: seq<Segment>, s: Segment, ghost was: Ledger, ghost start: nat)
      returns (ok: bool)
      requires ledger.Valid() && ledger.bot == policy.bot && start <= |accepted|
      requires todo != [] && todo[0] == s && Proper(policy, todo)
      requires Unmarked(ledger.State(), |ledger.messages|, chat, Dispatched, policy.bot) == Flatten(todo)
      requires was.messages == ledger.messages
      requires SeenAccounted(policy, was, ledger.State(), AcceptedKeys(accepted[start..]))
      modifies this`calls, this`accepted, ledger`marks, ledger`dispatchSeq, ledger`agentSeq
      ensures ledger.Valid() && old(accepted) <= accepted
      ensures Unmarked(ledger.State(), |ledger.messages|, chat, Dispatched, policy.bot) ==
        Flatten(if ok then todo[1..] else todo)
      ensures SeenAccounted(policy, was, ledger.State(), AcceptedKeys(accepted[start..]))
      ensures ok && s.CommandOf? ==> accepted == old(accepted) + [Command(s.message)]
      ensures ok && s.Messages? && Addressed(policy, s.batch) ==>
        accepted == old(accepted) + [Prompt(Transcript(policy, old(ledger.State()), chat, s))]
      ensures !ok || (s.Messages? && !Addressed(policy, s.batch)) ==> accepted == old(accepted)
      ensures AllAccepted() ==> ok
      ensures s.Messages? ==> (Addressed(policy, s.batch) <==>
        exists k :: 0 <= k < |s.batch| && policy.responds(s.batch[k].content))
    {
      hide LedgerInv, Flatten, Proper, Transcript, Last, MarkAll, UpTo, AcceptedKeys, SeenAccounted, Addressed,
        Unmarked, MaxSeq, Keys;
      ghost var l := ledger.State();
      AddressedMeans(s);
      if s.CommandOf? {
        ok := Accept(Command(s.message));
        if !ok { return; }
        assert accepted[start..] == old(accepted)[start..] + [Command(s.message)];
        AcceptedAppend(old(accepted)[start..], Command(s.message));
        CommandSeen(policy, was, l, KeyOf(s.message), AcceptedKeys(old(accepted)[start..]));
        SeenMarksAside(l, {KeyOf(s.message)}, l.agentSeq, |l.messages|, chat, policy.bot);
        ledger.MarkCommandSeen(KeyOf(s.message));
      } else {
        var addressed := IsAddressed(s.batch);
        if addressed {
          var batch := ReadBatch(chat, s);
          ok := Accept(Prompt(batch));
          ghost var read := ledger.State();
          SameTables(policy, was, l, read, AcceptedKeys(old(accepted)[start..]), chat);
          if !ok { return; }
          SameTranscript(policy, l, read, chat, s);
          assert accepted[start..] == old(accepted)[start..] + [Prompt(batch)];
          AcceptedAppend(old(accepted)[start..], Prompt(batch));
          SegmentDone(policy, l, chat, todo);
          TranscriptSeen(policy, was, read, chat, s, AcceptedKeys(old(accepted)[start..]));
          SeenMarksAside(read, UpTo(read.messages, chat, Last(s)), read.agentSeq[chat := Last(s)], |l.messages|, chat,
            policy.bot);
          ledger.SetLastAgentSeq(chat, Last(s));
        }
      }
      ok := true;
      ghost var marked := ledger.State();
      SegmentDone(policy, marked, chat, todo);
      DispatchSeen(policy, was, marked, chat, Last(s), AcceptedKeys(accepted[start..]));
      ledger.SetDispatchSeq(chat, Last(s));
    }

    lemma AddressedMeans(s: Segment)
      ensures s.Messages? ==> (Addressed(policy, s.batch) <==>
        exists k :: 0 <= k < |s.batch| && policy.responds(s.batch[k].content))
    {
    }

    /** Initialising the agent cursor changes no mark and no message. */
    lemma SameTables(policy: ChatPolicy, was: Ledger, a: Ledger, b: Ledger, accepted: set<Key>, chat: nat)
      requires a.messages == b.messages && a.marks == b.marks && SeenAccounted(policy, was, a, accepted)
      ensures SeenAccounted(policy, was, b, accepted)
      ensures Unmarked(b, |b.messages|, chat, Dispatched, policy.bot) ==
        Unmarked(a, |a.messages|, chat, Dispatched, policy.bot)
    {
      SameUnmarked(a, b, |a.messages|, chat, Dispatched, policy.bot);
      hide Unmarked;
    }

    lemma SameTranscript(policy: ChatPolicy, a: Ledger, b: Ledger, chat: nat, s: Segment)
      requires LedgerInv(a) && LedgerInv(b) && a.messages == b.messages && a.marks == b.marks
      ensures Transcript(policy, b, chat, s) == Transcript(policy, a, chat, s)
    {
      QueryIsUnmarked(a, chat, Seen, policy.bot);
      QueryIsUnmarked(b, chat, Seen, policy.bot);
      SameUnmarked(a, b, |a.messages|, chat, Seen, policy.bot);
      hide LedgerInv, Query, Unmarked;
    }

    /**
     One poll of a chat. Whether it completes or an accept fails on the way, the messages still waiting
     are exactly those of the segments not dealt with, and every message newly marked seen is in an
     accepted prompt, is an accepted command, or is the assistant's own.
     */
    method PollChat(chat: nat) returns (complete: bool, ghost segments: seq<Segment>, ghost done: nat)
      requires ledger.Valid() && ledger.bot == policy.bot
      modifies this`calls, this`accepted, ledger`marks, ledger`dispatchSeq, ledger`agentSeq
      ensures ledger.Valid() && old(accepted) <= accepted
      ensures segments == Split(policy, Unmarked(old(ledger.State()), |ledger.messages|, chat, Dispatched, policy.bot))
      ensures done <= |segments| && (complete <==> done == |segments|)
      ensures AllAccepted() ==> complete
      ensures Unmarked(ledger.State(), |ledger.messages|, chat, Dispatched, policy.bot) == Flatten(segments[done..])
      ensures SeenAccounted(policy, old(ledger.State()), ledger.State(), AcceptedKeys(accepted[|old(accepted)|..]))
    {
      hide LedgerInv, Flatten, Proper, Unmarked, MarkAll, UpTo, AcceptedKeys, SeenAccounted, Split;
      ghost var was, start := ledger.State(), |accepted|;
      var waiting := ledger.GetNewMessages(chat);
      SplitIsPartition(policy, waiting);
      var todo := SplitCommandBatches(waiting);
      segments := todo;
      assert todo[0..] == todo;
      NothingSeen(policy, was, ledger.State(), AcceptedKeys(accepted[start..]), chat);
      for i := 0 to |todo|
        invariant ledger.Valid() && start <= |accepted| && old(accepted) <= accepted && ledger.messages == was.messages
        invariant Unmarked(ledger.State(), |ledger.messages|, chat, Dispatched, policy.bot) == Flatten(todo[i..])
        invariant SeenAccounted(policy, was, ledger.State(), AcceptedKeys(accepted[start..]))
      {
        ProperSuffix(policy, todo, i);
        assert todo[i..][0] == todo[i] && todo[i..][1..] == todo[i + 1..];
        var ok := PollSegment(chat, todo[i..], todo[i], was, start);
        if !ok {
          return false, segments, i;
        }
      }
      return true, segments, |todo|;
    }

    lemma NothingSeen(policy: ChatPolicy, was: Ledger, l: Ledger, accepted: set<Key>, chat: nat)
      requires was.messages == l.messages && was.marks == l.marks
      ensures SeenAccounted(policy, was, l, accepted)
      ensures Unmarked(l, |l.messages|, chat, Dispatched, policy.bot) ==
        Unmarked(was, |l.messages|, chat, Dispatched, policy.bot)
    {
      SameUnmarked(l, was, |l.messages|, chat, Dispatched, policy.bot);
      hide Unmarked;
    }

    lemma ProperSuffix(policy: ChatPolicy, segments: seq<Segment>, i: nat)
      requires Proper(policy, segments) && i <= |segments|
      ensures Proper(policy, segments[i..])
    {
      hide ProperSegment;
    }
  }
}

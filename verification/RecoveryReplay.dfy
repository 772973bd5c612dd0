/**
 Run recovery beside the projector that feeds it: events arrive, passes start at the durable cursor,
 crash anywhere and start again, the cursor advances page by page and is parked while the server does
 not know the conversation, and a run found interrupted is parked. One conversation; conversations do
 not share progress.
 */
module RecoveryReplay {
  import opened Identities
  import opened AgentEvents
  import opened RunProgress

  /**
   `at` is where a pass stands; `seen` is how far any pass ever got; `absent` is the parked flag of the
   cursor. `parkedAt` is history, read by no step: where the cursor stood when the run was last parked.
   */
  datatype World = World(log: seq<Event>, cursor: nat, absent: bool, at: Option<nat>, seen: nat, progress: Progress,
                         parkedAt: Option<nat>)

  const START := World([], 0, false, None, 0, NO_PROGRESS, None)

  datatype Step =
    | Emit(event: Event)
    | StartPass
    | ObserveNext
    | Commit
    | EndPass
    | Crash
    | ParkCursor
    | UnparkCursor
    | Park(issue: string)

  /**
   A run is parked only in a tick whose sync did not fail: a pass that finished, with nothing seen beyond
   the cursor, or the sync of a parked cursor, which does nothing.
   */
  predicate Enabled(w: World, step: Step) {
    match step
    case Emit(_) => true
    case StartPass => w.at.None? && !w.absent
    case ObserveNext => w.at.Some? && w.at.value < |w.log|
    case Commit => w.at.Some?
    case EndPass => w.at.Some? && w.at.value == w.cursor
    case Crash => w.at.Some?
    case ParkCursor => w.at.Some? && w.at.value == w.cursor
    case UnparkCursor => true
    case Park(_) => w.at.None? && (w.cursor == w.seen || w.absent) && w.progress.pending && w.progress.issue.None?
  }

  function Max(a: nat, b: nat): nat {
    if a < b then b else a
  }

  function Next(w: World, step: Step): World {
    if !Enabled(w, step) then w
    else
      match step
      case Emit(e) => w.(log := w.log + [e])
      case StartPass => w.(at := Some(w.cursor))
      case ObserveNext =>
        var n := w.at.value;
        w.(progress := Observed(w.progress, w.log[n]), at := Some(n + 1), seen := Max(w.seen, n + 1))
      case Commit => w.(cursor := w.at.value)
      case EndPass => w.(at := None)
      case Crash => w.(at := None)
      case ParkCursor => w.(at := None, absent := true)
      case UnparkCursor => w.(absent := false)
      case Park(issue) => w.(progress := w.progress.(issue := Some(issue)), parkedAt := Some(w.cursor))
  }

  function Run(steps: seq<Step>): World {
    if steps == [] then START else Next(Run(steps[..|steps| - 1]), steps[|steps| - 1])
  }

  // ---- The invariant ----------------------------------------------------------------------------------

  function Position(w: World): nat {
    if w.at.Some? then w.at.value else w.cursor
  }

  predicate Bounded(w: World) {
    w.cursor <= Position(w) <= w.seen <= |w.log|
  }

  /** No seen event at or after n writes the flag. */
  predicate Settled(log: seq<Event>, n: nat, seen: nat, f: Flag)
    requires seen <= |log|
  {
    forall i :: n <= i < seen ==> Writes(log[i], f).None?
  }

  /** A flag whose last write lies before the current position has the value of one pass. */
  ghost predicate FlagsRight(w: World)
    requires w.seen <= |w.log|
  {
    forall f :: Settled(w.log, Position(w), w.seen, f) ==> Holds(w.progress, f) == LastWrite(w.log, w.seen, f)
  }

  /** A parked run stays parked until a user message at or beyond where the cursor stood when it was parked. */
  predicate ParkHolds(w: World)
    requires w.seen <= |w.log|
  {
    w.parkedAt.Some? ==>
      && w.parkedAt.value <= w.cursor
      && (w.progress.issue.Some? || exists i :: w.parkedAt.value <= i < w.seen && AsksForRun(w.log[i]))
  }

  ghost predicate RecoveryInv(w: World) {
    Bounded(w) && FlagsRight(w) && ParkHolds(w)
  }

  lemma {:induction false} LastWriteAppend(log: seq<Event>, e: Event, n: nat, f: Flag)
    requires n <= |log|
    ensures LastWrite(log + [e], n, f) == LastWrite(log, n, f)
  {
    if n > 0 {
      LastWriteAppend(log, e, n - 1, f);
      assert (log + [e])[n - 1] == log[n - 1];
    }
  }

  lemma {:induction false} SettledLastWrite(log: seq<Event>, n: nat, seen: nat, f: Flag)
    requires n <= seen <= |log| && Settled(log, n, seen, f)
    ensures LastWrite(log, seen, f) == LastWrite(log, n, f)
  {
    if n < seen {
      SettledLastWrite(log, n, seen - 1, f);
    }
  }

  lemma ObserveKeepsFlag(w: World, f: Flag)
    requires Bounded(w) && FlagsRight(w) && Enabled(w, ObserveNext)
    requires var after := Next(w, ObserveNext); Settled(after.log, Position(after), after.seen, f)
    ensures var after := Next(w, ObserveNext); Holds(after.progress, f) == LastWrite(after.log, after.seen, f)
  {
    var n := w.at.value;
    var after := Next(w, ObserveNext);
    ObservedWrites(w.progress, w.log[n], f);
    hide Holds, Writes, Observed;
    SettledLastWrite(w.log, n + 1, after.seen, f);
    if Writes(w.log[n], f).None? {
      assert Settled(w.log, n, w.seen, f);
      SettledLastWrite(w.log, n, w.seen, f);
    }
  }

  lemma EmitKeeps(w: World, e: Event)
    requires RecoveryInv(w)
    ensures RecoveryInv(Next(w, Emit(e)))
  {
    var after := Next(w, Emit(e));
    forall f | Settled(after.log, Position(after), after.seen, f)
      ensures Holds(after.progress, f) == LastWrite(after.log, after.seen, f)
    {
      assert forall i :: 0 <= i < w.seen ==> after.log[i] == w.log[i];
      assert Settled(w.log, Position(w), w.seen, f);
      LastWriteAppend(w.log, e, w.seen, f);
    }
    hide Holds, Writes, AsksForRun, LastWrite;
    if w.parkedAt.Some? && w.progress.issue.None? {
      var i :| w.parkedAt.value <= i < w.seen && AsksForRun(w.log[i]);
      assert after.log[i] == w.log[i];
    }
  }

  lemma ObserveKeeps(w: World)
    requires RecoveryInv(w) && Enabled(w, ObserveNext)
    ensures RecoveryInv(Next(w, ObserveNext))
  {
    var n := w.at.value;
    var after := Next(w, ObserveNext);
    forall f | Settled(after.log, Position(after), after.seen, f)
      ensures Holds(after.progress, f) == LastWrite(after.log, after.seen, f)
    {
      ObserveKeepsFlag(w, f);
    }
    assert after.progress.issue == if AsksForRun(w.log[n]) then None else w.progress.issue;
    hide Holds, Writes, AsksForRun, LastWrite, Observed, FlagsRight;
    if w.parkedAt.Some? && after.progress.issue.None? {
      if AsksForRun(w.log[n]) {
        assert w.parkedAt.value <= n < after.seen;
      } else {
        var i :| w.parkedAt.value <= i < w.seen && AsksForRun(w.log[i]);
        assert i < after.seen;
      }
    }
  }

  lemma FewerAreSettled(log: seq<Event>, n: nat, m: nat, seen: nat, f: Flag)
    requires n <= m && seen <= |log| && Settled(log, n, seen, f)
    ensures Settled(log, m, seen, f)
  {
  }

  lemma NextKeeps(w: World, step: Step)
    requires RecoveryInv(w)
    ensures RecoveryInv(Next(w, step))
  {
    if Enabled(w, step) {
      match step
      case Emit(e) => EmitKeeps(w, e);
      case ObserveNext => ObserveKeeps(w);
      case StartPass =>
      case Commit =>
      case EndPass =>
      case ParkCursor =>
      case UnparkCursor =>
      case Crash =>
        forall f | Settled(w.log, w.cursor, w.seen, f) ensures Holds(w.progress, f) == LastWrite(w.log, w.seen, f) {
          FewerAreSettled(w.log, w.cursor, Position(w), w.seen, f);
        }
      case Park(issue) =>
        var after := Next(w, step);
        forall f | Settled(w.log, w.cursor, w.seen, f) ensures Holds(after.progress, f) == LastWrite(w.log, w.seen, f) {
          assert Holds(after.progress, f) == Holds(w.progress, f);
        }
    }
  }

  lemma {:induction false} RunKeeps(steps: seq<Step>)
    ensures RecoveryInv(Run(steps))
  {
    if steps != [] {
      hide RecoveryInv, Next;
      RunKeeps(steps[..|steps| - 1]);
      NextKeeps(Run(steps[..|steps| - 1]), steps[|steps| - 1]);
    }
  }

  /**
   Whenever a pass has reached everything ever seen, the progress is that of observing the log once,
   however often passes crashed and replayed on the way.
   */
  lemma CaughtUpIsOnePass(steps: seq<Step>)
    ensures var w := Run(steps);
      && w.seen <= |w.log|
      && (Position(w) == w.seen ==> SameFlags(w.progress, OnePass(w.log, w.seen)))
  {
    RunKeeps(steps);
    var w := Run(steps);
    hide Run;
    if Position(w) == w.seen {
      var v := OnePass(w.log, w.seen);
      forall f ensures Holds(w.progress, f) == Holds(v, f) {
        assert Settled(w.log, Position(w), w.seen, f);
        OnePassIsLastWrite(w.log, w.seen, f);
      }
      hide OnePass, LastWrite, RecoveryInv, FlagsRight;
      assert Holds(w.progress, Turn) == Holds(v, Turn);
      forall id | id in w.progress.actions || id in v.actions ensures id in w.progress.actions && id in v.actions {
        assert Holds(w.progress, Act(id)) == Holds(v, Act(id));
      }
    }
  }

  // ---- Parked runs --------------------------------------------------------------------------------------

  /** A run is un-parked only by a user message that lay at or beyond the cursor when it was parked. */
  lemma ParkedUntilAsked(steps: seq<Step>)
    ensures var w := Run(steps);
      && w.seen <= |w.log|
      && (w.parkedAt.Some? && w.progress.issue.None? ==>
            exists i :: w.parkedAt.value <= i < w.seen && AsksForRun(w.log[i]))
  {
    RunKeeps(steps);
    hide Run, FlagsRight;
  }

  /** What more steps make of a world. */
  function Later(w: World, more: seq<Step>): World {
    if more == [] then w else Next(Later(w, more[..|more| - 1]), more[|more| - 1])
  }

  predicate AskedBetween(log: seq<Event>, from: nat, end: nat) {
    exists i :: from <= i < end && i < |log| && AsksForRun(log[i])
  }

  /** A parked run from whose replay no user message comes. */
  predicate StillParked(w: World, cursor: nat, seen: nat) {
    && Bounded(w) && cursor <= w.cursor && seen <= w.seen
    && !AskedBetween(w.log, cursor, seen)
    && (w.seen == seen ==> w.progress.issue.Some?)
  }

  lemma StillParkedNext(w: World, step: Step, cursor: nat, seen: nat)
    requires StillParked(w, cursor, seen) && seen <= |w.log| && cursor <= seen
    ensures StillParked(Next(w, step), cursor, seen)
  {
    var after := Next(w, step);
    hide AsksForRun, EndsRun, Without;
    assert forall i :: 0 <= i < |w.log| ==> i < |after.log| && after.log[i] == w.log[i];
  }

  lemma {:induction false} StillParkedLater(w: World, more: seq<Step>)
    requires StillParked(w, w.cursor, w.seen)
    ensures StillParked(Later(w, more), w.cursor, w.seen) && w.seen <= |Later(w, more).log|
  {
    if more != [] {
      StillParkedLater(w, more[..|more| - 1]);
      hide StillParked, Next, Later;
      assert Later(w, more) == Next(Later(w, more[..|more| - 1]), more[|more| - 1]) by { LaterStep(w, more); }
      StillParkedNext(Later(w, more[..|more| - 1]), more[|more| - 1], w.cursor, w.seen);
      StillParkedBounds(Later(w, more), w.cursor, w.seen);
    }
  }

  lemma LaterStep(w: World, more: seq<Step>)
    requires more != []
    ensures Later(w, more) == Next(Later(w, more[..|more| - 1]), more[|more| - 1])
  {
    hide Next;
  }

  lemma StillParkedBounds(w: World, cursor: nat, seen: nat)
    requires StillParked(w, cursor, seen)
    ensures seen <= |w.log|
  {
  }

  lemma LaterMore(w: World, more: seq<Step>, step: Step)
    ensures Later(w, more + [step]) == Next(Later(w, more), step)
  {
    assert (more + [step])[..|more|] == more;
    hide Next;
  }

  /** Takes the cursor's flag off and observes n events from the cursor on. */
  function ReplayOf(n: nat): seq<Step> {
    if n == 0 then [UnparkCursor, StartPass] else ReplayOf(n - 1) + [ObserveNext]
  }

  lemma {:induction false} ReplayReaches(w: World, n: nat)
    requires w.at.None? && Bounded(w) && w.cursor + n <= w.seen
    ensures var v := Later(w, ReplayOf(n));
      && v.log == w.log && v.seen == w.seen && v.at == Some(w.cursor + n)
      && (AskedBetween(w.log, w.cursor, w.cursor + n) ==> v.progress.issue.None?)
  {
    hide Later, Next, ReplayOf, Observed;
    if n == 0 {
      ReplayStarts(w);
    } else {
      hide AskedBetween;
      ReplayReaches(w, n - 1);
      assert ReplayOf(n) == ReplayOf(n - 1) + [ObserveNext] by { ReplayMore(n); }
      LaterMore(w, ReplayOf(n - 1), ObserveNext);
      ReplayOne(Later(w, ReplayOf(n - 1)), w.cursor, w.cursor + n - 1);
    }
  }

  lemma ReplayStarts(w: World)
    requires w.at.None?
    ensures Later(w, ReplayOf(0)) == w.(absent := false, at := Some(w.cursor))
  {
    hide Later, Observed;
    assert ReplayOf(0) == [UnparkCursor] + [StartPass] && [UnparkCursor] == [] + [UnparkCursor];
    assert Later(w, []) == w by { LaterNone(w); }
    LaterMore(w, [], UnparkCursor);
    LaterMore(w, [UnparkCursor], StartPass);
  }

  lemma LaterNone(w: World)
    ensures Later(w, []) == w
  {
  }

  lemma ReplayMore(n: nat)
    requires n > 0
    ensures ReplayOf(n) == ReplayOf(n - 1) + [ObserveNext]
  {
  }

  lemma ReplayOne(w: World, from: nat, n: nat)
    requires w.at == Some(n) && from <= n < w.seen <= |w.log|
    requires AskedBetween(w.log, from, n) ==> w.progress.issue.None?
    ensures var v := Next(w, ObserveNext);
      && v.log == w.log && v.seen == w.seen && v.at == Some(n + 1)
      && (AskedBetween(w.log, from, n + 1) ==> v.progress.issue.None?)
  {
    hide AsksForRun, EndsRun, Without;
  }

  /**
   Replaying events seen before can un-park a run if and only if the durable cursor stands at or before
   one of their user messages. It can be checked before the run is parked, and is never so after a pass
   that finished; after the sync of a cursor parked partway it may be.
   */
  lemma ReplayUnparksIff(steps: seq<Step>, issue: string)
    requires Enabled(Run(steps), Park(issue))
    ensures var w := Run(steps);
      var parked := Next(w, Park(issue));
      (exists more :: Later(parked, more).seen == w.seen && Later(parked, more).progress.issue.None?) <==>
      AskedBetween(w.log, w.cursor, w.seen)
  {
    RunKeeps(steps);
    var w := Run(steps);
    var parked := Next(w, Park(issue));
    hide Run, FlagsRight, ParkHolds;
    assert Bounded(w);
    if AskedBetween(w.log, w.cursor, w.seen) {
      ReplayReaches(parked, w.seen - w.cursor);
      hide Later, Next, AskedBetween;
      assert Later(parked, ReplayOf(w.seen - w.cursor)).seen == w.seen;
    } else {
      forall more ensures Later(parked, more).seen == w.seen ==> Later(parked, more).progress.issue.Some? {
        StillParkedLater(parked, more);
      }
    }
  }

  /** A user message, seen by a pass that crashed before its commit, and a server that then forgets the conversation. */
  const FORGOTTEN := [
    Emit(MessageEvent(Agent(0), FromUser, UserRole, false, "")), StartPass, ObserveNext, Crash, StartPass, ParkCursor]

  /** A run can be parked with a user message still to be replayed, which then un-parks it. */
  lemma ParkedPartway()
    ensures var w := Run(FORGOTTEN);
      && Enabled(w, Park("")) && w.cursor == 0 && w.seen == 1 && AskedBetween(w.log, w.cursor, w.seen)
  {
    var e := FORGOTTEN[0].event;
    AskObserved(e);
    ForgottenRun();
    hide Run, Observed;
    assert AsksForRun(Run(FORGOTTEN).log[0]);
  }

  lemma ForgottenRun()
    ensures var e := FORGOTTEN[0].event;
      Run(FORGOTTEN) == World([e], 0, true, None, 1, Observed(NO_PROGRESS, e), None)
  {
    var f := FORGOTTEN;
    assert f[..0] == [] && f[..6] == f;
    hide Run, Observed, Next;
    RunStart();
    FirstPass(f[0].event);
    SecondPass([f[0].event], Observed(NO_PROGRESS, f[0].event));
    RunStep(f, 0);
    RunStep(f, 1);
    RunStep(f, 2);
    RunStep(f, 3);
    RunStep(f, 4);
    RunStep(f, 5);
  }

  lemma FirstPass(e: Event)
    ensures var log := [e];
      && Next(START, Emit(e)) == World(log, 0, false, None, 0, NO_PROGRESS, None)
      && Next(World(log, 0, false, None, 0, NO_PROGRESS, None), StartPass) ==
        World(log, 0, false, Some(0), 0, NO_PROGRESS, None)
      && Next(World(log, 0, false, Some(0), 0, NO_PROGRESS, None), ObserveNext) ==
           World(log, 0, false, Some(1), 1, Observed(NO_PROGRESS, e), None)
  {
    hide Observed;
  }

  lemma SecondPass(log: seq<Event>, v: Progress)
    ensures Next(World(log, 0, false, Some(1), 1, v, None), Crash) == World(log, 0, false, None, 1, v, None)
    ensures Next(World(log, 0, false, None, 1, v, None), StartPass) == World(log, 0, false, Some(0), 1, v, None)
    ensures Next(World(log, 0, false, Some(0), 1, v, None), ParkCursor) == World(log, 0, true, None, 1, v, None)
  {
    hide Observed;
  }

  lemma RunStart()
    ensures Run([]) == START
  {
  }

  lemma RunStep(steps: seq<Step>, n: nat)
    requires n < |steps|
    ensures Run(steps[..n + 1]) == Next(Run(steps[..n]), steps[n])
  {
    assert steps[..n + 1][..n] == steps[..n];
    hide Next;
  }

  lemma AskObserved(e: Event)
    requires e.MessageEvent? && e.role == UserRole
    ensures AsksForRun(e) && Observed(NO_PROGRESS, e).pending && Observed(NO_PROGRESS, e).issue.None?
  {
  }
}

/**
 Ownership of a conversation directory: a lease file that owners claim, renew, check before a write and
 release, each under the directory's lock, so each is one step. Any number of owners interleave.
 */
module LeaseProtocol {
  import opened Identities

  /** A server instance and the process it runs in. */
  datatype Owner = Owner(id: nat, host: nat, pid: nat)

  datatype LeaseFile =
    | Missing
    | Unreadable
    | Payload(owner: nat, generation: nat, expiresAt: Time, host: Option<nat>, pid: Option<nat>)

  datatype Failure = HeldBy(owner: nat, until: Time) | OwnershipLost | InvalidLease

  datatype Outcome = Granted(generation: nat, takeover: bool) | Allowed | Denied(why: Failure)

  datatype Dir = Dir(file: LeaseFile, document: seq<nat>)

  function Held(holder: Owner, generation: nat, expiresAt: Time): LeaseFile {
    Payload(holder.id, generation, expiresAt, Some(holder.host), Some(holder.pid))
  }

  /** `gone` is the operating system's answer about the recorded process. */
  predicate OwnerIsDead(file: LeaseFile, me: Owner, gone: bool)
    requires file.Payload?
  {
    file.host == Some(me.host) && file.pid.Some? && file.pid.value != me.pid && gone
  }

  function Claim(file: LeaseFile, me: Owner, ttl: nat, now: Time, gone: bool): (Outcome, LeaseFile) {
    match file
    case Unreadable => (Denied(InvalidLease), file)
    case Missing => (Granted(1, false), Held(me, 1, now + ttl))
    case Payload(owner, generation, expiresAt, _, _) =>
      if owner != me.id && expiresAt > now && !OwnerIsDead(file, me, gone) then (Denied(HeldBy(owner, expiresAt)), file)
      else
        var next := if owner == me.id then generation else generation + 1;
        (Granted(next, owner != me.id), Held(me, next, now + ttl))
  }

  /** assertOwnerLocked. */
  function Check(file: LeaseFile, me: Owner, generation: nat): Outcome {
    match file
    case Unreadable => Denied(InvalidLease)
    case Missing => Denied(OwnershipLost)
    case Payload(owner, current, _, _, _) =>
      if owner == me.id && current == generation then Allowed else Denied(OwnershipLost)
  }

  function Renew(file: LeaseFile, me: Owner, generation: nat, ttl: nat, now: Time): (Outcome, LeaseFile) {
    var checked := Check(file, me, generation);
    (checked, if checked.Allowed? then Held(me, generation, now + ttl) else file)
  }

  /** Someone else's lease is left alone; that is no error. */
  function Release(file: LeaseFile, me: Owner, generation: nat): (Outcome, LeaseFile) {
    if file.Unreadable? then (Denied(InvalidLease), file)
    else (Allowed, if Check(file, me, generation).Allowed? then Missing else file)
  }

  // ---- What each operation grants -----------------------------------------------------------------------

  /** The lease names this owner at this generation. */
  predicate Owns(file: LeaseFile, me: Owner, generation: nat) {
    file.Payload? && file.owner == me.id && file.generation == generation
  }

  /** Someone else holds it, it has not run out, and its process is not known to be gone from this host. */
  predicate HeldByAnother(file: LeaseFile, me: Owner, now: Time, gone: bool) {
    && file.Payload? && file.owner != me.id && file.expiresAt > now
    && !(gone && file.host == Some(me.host) && file.pid.Some? && file.pid.value != me.pid)
  }

  /**
   A claim succeeds on a missing, own, expired or dead owner's lease, and on no other; it keeps the owner's
   generation, or raises another's by one, and runs for the whole time to live.
   */
  lemma ClaimMeans(file: LeaseFile, me: Owner, ttl: nat, now: Time, gone: bool)
    ensures var (outcome, after) := Claim(file, me, ttl, now, gone);
      && (outcome.Granted? <==> !file.Unreadable? && !HeldByAnother(file, me, now, gone))
      && (outcome.Granted? ==>
            && after == Payload(me.id, outcome.generation, now + ttl, Some(me.host), Some(me.pid))
            && (outcome.takeover <==> file.Payload? && file.owner != me.id)
            && outcome.generation ==
                 (if file.Missing? then 1 else if file.owner == me.id then file.generation else file.generation + 1))
      && (!outcome.Granted? ==> after == file)
      && (file.Unreadable? ==> outcome == Denied(InvalidLease))
      && (HeldByAnother(file, me, now, gone) ==> outcome == Denied(HeldBy(file.owner, file.expiresAt)))
  {
  }

  /** Renewing, writing and releasing take effect exactly for the owner at its generation. */
  lemma OwnerActsMean(file: LeaseFile, me: Owner, generation: nat, ttl: nat, now: Time)
    ensures Check(file, me, generation) ==
      if Owns(file, me, generation) then Allowed
      else if file.Unreadable? then Denied(InvalidLease) else Denied(OwnershipLost)
    ensures var (outcome, after) := Renew(file, me, generation, ttl, now);
      && (outcome.Allowed? <==> Owns(file, me, generation))
      && after == (if Owns(file, me, generation)
                   then Payload(me.id, generation, now + ttl, Some(me.host), Some(me.pid)) else file)
    ensures var (outcome, after) := Release(file, me, generation);
      && (outcome.Allowed? <==> !file.Unreadable?)
      && after == (if Owns(file, me, generation) then Missing else file)
  {
  }

  // ---- Any interleaving -------------------------------------------------------------------------------

  datatype Step =
    | DoClaim(me: Owner, now: Time, gone: bool)
    | DoRenew(me: Owner, generation: nat, now: Time)
    | DoWrite(me: Owner, generation: nat, value: nat)
    | DoRelease(me: Owner, generation: nat)
    | Corrupt

  function Result(ttl: nat, dir: Dir, step: Step): Outcome {
    match step
    case DoClaim(me, now, gone) => Claim(dir.file, me, ttl, now, gone).0
    case DoRenew(me, generation, now) => Renew(dir.file, me, generation, ttl, now).0
    case DoWrite(me, generation, _) => Check(dir.file, me, generation)
    case DoRelease(me, generation) => Release(dir.file, me, generation).0
    case Corrupt => Allowed
  }

  function Next(ttl: nat, dir: Dir, step: Step): Dir {
    match step
    case DoClaim(me, now, gone) => dir.(file := Claim(dir.file, me, ttl, now, gone).1)
    case DoRenew(me, generation, now) => dir.(file := Renew(dir.file, me, generation, ttl, now).1)
    case DoWrite(me, generation, value) =>
      if Check(dir.file, me, generation).Allowed? then dir.(document := dir.document + [value]) else dir
    case DoRelease(me, generation) => dir.(file := Release(dir.file, me, generation).1)
    case Corrupt => dir.(file := Unreadable)
  }

  function Run(ttl: nat, steps: seq<Step>): Dir {
    if steps == [] then Dir(Missing, []) else Next(ttl, Run(ttl, steps[..|steps| - 1]), steps[|steps| - 1])
  }

  /** Step i of a run is a successful claim by this owner. */
  predicate ClaimedAt(ttl: nat, steps: seq<Step>, i: nat, owner: nat)
    requires i < |steps|
  {
    && steps[i].DoClaim? && steps[i].me.id == owner
    && Result(ttl, Run(ttl, steps[..i]), steps[i]).Granted?
  }

  /** Step i is a renewal or guarded write, or a release, by this owner that took effect. */
  predicate ActsAt(ttl: nat, steps: seq<Step>, i: nat, owner: nat)
    requires i < |steps|
  {
    var step, before := steps[i], Run(ttl, steps[..i]);
    match step
    case DoRenew(me, _, _) => me.id == owner && Result(ttl, before, step).Allowed?
    case DoWrite(me, _, _) => me.id == owner && Result(ttl, before, step).Allowed?
    case DoRelease(me, _) => me.id == owner && Next(ttl, before, step) != before
    case _ => false
  }

  predicate ReleasedAt(ttl: nat, steps: seq<Step>, i: nat)
    requires i < |steps|
  {
    steps[i].DoRelease? && Next(ttl, Run(ttl, steps[..i]), steps[i]) != Run(ttl, steps[..i])
  }

  lemma RunStep(ttl: nat, steps: seq<Step>, i: nat)
    requires i < |steps|
    ensures Run(ttl, steps[..i + 1]) == Next(ttl, Run(ttl, steps[..i]), steps[i])
  {
    assert steps[..i + 1][..i] == steps[..i];
    hide Next;
  }

  // ---- Fencing ----------------------------------------------------------------------------------------

  /** Since another owner's claim, the lease names this owner only if it has claimed again. */
  lemma {:induction false} NotTheOwner(ttl: nat, steps: seq<Step>, j: nat, k: nat, owner: nat, other: nat)
    requires j < k <= |steps| && owner != other && ClaimedAt(ttl, steps, j, other)
    requires forall m :: j < m < k ==> !ClaimedAt(ttl, steps, m, owner)
    ensures var file := Run(ttl, steps[..k]).file; !(file.Payload? && file.owner == owner)
  {
    RunStep(ttl, steps, k - 1);
    if k > j + 1 {
      NotTheOwner(ttl, steps, j, k - 1, owner, other);
      assert !ClaimedAt(ttl, steps, k - 1, owner);
    }
    hide Run, OwnerIsDead;
  }

  /**
   After another owner's successful claim, nothing done under the earlier ownership takes effect, with
   any generation, until that owner claims again.
   */
  lemma FencedAfterTakeover(ttl: nat, steps: seq<Step>, j: nat, k: nat, owner: nat, other: nat)
    requires j < k < |steps| && owner != other && ClaimedAt(ttl, steps, j, other)
    requires forall m :: j < m < k ==> !ClaimedAt(ttl, steps, m, owner)
    ensures !ActsAt(ttl, steps, k, owner)
  {
    NotTheOwner(ttl, steps, j, k, owner, other);
    hide Run;
  }

  // ---- Generations --------------------------------------------------------------------------------------

  /** While nobody releases, the generation never falls, and it has risen if the owner changed. */
  predicate Later(file: LeaseFile, owner: nat, generation: nat) {
    file.Unreadable? ||
    (file.Payload? && file.generation >= generation && (file.owner != owner ==> file.generation > generation))
  }

  lemma {:induction false} GenerationsRise(ttl: nat, steps: seq<Step>, i: nat, k: nat, owner: nat)
    requires i < k <= |steps| && ClaimedAt(ttl, steps, i, owner)
    requires forall m :: i < m < k ==> !ReleasedAt(ttl, steps, m)
    ensures Later(Run(ttl, steps[..k]).file, owner, Result(ttl, Run(ttl, steps[..i]), steps[i]).generation)
  {
    hide Run, Later, Next, Result;
    RunStep(ttl, steps, k - 1);
    var before := Run(ttl, steps[..k - 1]);
    if k > i + 1 {
      GenerationsRise(ttl, steps, i, k - 1, owner);
      assert !ReleasedAt(ttl, steps, k - 1);
      LaterStays(ttl, before, steps[k - 1], owner, Result(ttl, Run(ttl, steps[..i]), steps[i]).generation);
    } else {
      ClaimIsLater(ttl, before, steps[i]);
    }
  }

  lemma ClaimIsLater(ttl: nat, dir: Dir, step: Step)
    requires step.DoClaim? && Result(ttl, dir, step).Granted?
    ensures Later(Next(ttl, dir, step).file, step.me.id, Result(ttl, dir, step).generation)
  {
    hide OwnerIsDead;
  }

  lemma LaterStays(ttl: nat, dir: Dir, step: Step, owner: nat, generation: nat)
    requires Later(dir.file, owner, generation) && !(step.DoRelease? && Next(ttl, dir, step) != dir)
    ensures Later(Next(ttl, dir, step).file, owner, generation)
  {
    hide OwnerIsDead;
  }

  /** Two owners' claims with no release between them have strictly rising generations. */
  lemma TakeoverRaisesGeneration(ttl: nat, steps: seq<Step>, i: nat, j: nat, owner: nat, other: nat)
    requires i < j < |steps| && owner != other
    requires ClaimedAt(ttl, steps, i, owner) && ClaimedAt(ttl, steps, j, other)
    requires forall m :: i < m < j ==> !ReleasedAt(ttl, steps, m)
    ensures Result(ttl, Run(ttl, steps[..i]), steps[i]).generation <
      Result(ttl, Run(ttl, steps[..j]), steps[j]).generation
  {
    GenerationsRise(ttl, steps, i, j, owner);
    hide Run, OwnerIsDead;
  }

  // ---- Live leases ----------------------------------------------------------------------------------------

  /** Step i wrote the lease for this owner: a successful claim or renewal. */
  predicate ExtendedAt(ttl: nat, steps: seq<Step>, i: nat, owner: nat)
    requires i < |steps|
  {
    ClaimedAt(ttl, steps, i, owner) || (steps[i].DoRenew? && ActsAt(ttl, steps, i, owner))
  }

  function TimeOf(step: Step): Option<Time> {
    match step
    case DoClaim(_, now, _) => Some(now)
    case DoRenew(_, _, now) => Some(now)
    case _ => None
  }

  predicate Clocked(steps: seq<Step>) {
    forall i, j :: 0 <= i < j < |steps| && TimeOf(steps[i]).Some? && TimeOf(steps[j]).Some? ==>
      TimeOf(steps[i]).value <= TimeOf(steps[j]).value
  }

  /** Until someone else claims or the lease is released, it runs at least as long as it was granted for. */
  lemma {:induction false} LeaseRuns(ttl: nat, steps: seq<Step>, i: nat, k: nat, owner: nat)
    requires i < k <= |steps| && Clocked(steps) && ExtendedAt(ttl, steps, i, owner)
    requires forall m, other :: i < m < k && other != owner ==> !ClaimedAt(ttl, steps, m, other)
    requires forall m :: i < m < k ==> !ReleasedAt(ttl, steps, m)
    ensures RunsUntil(Run(ttl, steps[..k]).file, owner, TimeOf(steps[i]).value + ttl)
  {
    hide Run, RunsUntil, Next, Result;
    RunStep(ttl, steps, k - 1);
    var before := Run(ttl, steps[..k - 1]);
    var until := TimeOf(steps[i]).value + ttl;
    if k > i + 1 {
      LeaseRuns(ttl, steps, i, k - 1, owner);
      assert !ReleasedAt(ttl, steps, k - 1);
      if steps[k - 1].DoClaim? && steps[k - 1].me.id != owner {
        assert !ClaimedAt(ttl, steps, k - 1, steps[k - 1].me.id);
      }
      assert TimeOf(steps[k - 1]).Some? ==> TimeOf(steps[i]).value <= TimeOf(steps[k - 1]).value;
      RunsUntilStays(ttl, before, steps[k - 1], owner, until);
    } else {
      ExtensionRuns(ttl, before, steps[i], owner);
    }
  }

  predicate RunsUntil(file: LeaseFile, owner: nat, until: Time) {
    file.Unreadable? || (file.Payload? && file.owner == owner && file.expiresAt >= until)
  }

  lemma ExtensionRuns(ttl: nat, dir: Dir, step: Step, owner: nat)
    requires (step.DoClaim? && Result(ttl, dir, step).Granted?) || (step.DoRenew? && Result(ttl, dir, step).Allowed?)
    requires step.me.id == owner
    ensures RunsUntil(Next(ttl, dir, step).file, owner, TimeOf(step).value + ttl)
  {
    hide OwnerIsDead;
  }

  lemma RunsUntilStays(ttl: nat, dir: Dir, step: Step, owner: nat, until: Time)
    requires RunsUntil(dir.file, owner, until)
    requires !(step.DoRelease? && Next(ttl, dir, step) != dir)
    requires step.DoClaim? && step.me.id != owner ==> !Result(ttl, dir, step).Granted?
    requires TimeOf(step).Some? ==> until <= TimeOf(step).value + ttl
    ensures RunsUntil(Next(ttl, dir, step).file, owner, until)
  {
    hide OwnerIsDead;
  }

  /** An unexpired lease is taken over only when its recorded process, on the same host, is gone. */
  lemma LiveLeaseIsKept(ttl: nat, steps: seq<Step>, i: nat, j: nat, owner: nat, other: nat)
    requires i < j < |steps| && owner != other && Clocked(steps)
    requires ExtendedAt(ttl, steps, i, owner) && ClaimedAt(ttl, steps, j, other)
    requires forall m, o :: i < m < j && o != owner ==> !ClaimedAt(ttl, steps, m, o)
    requires forall m :: i < m < j ==> !ReleasedAt(ttl, steps, m)
    ensures var file := Run(ttl, steps[..j]).file;
      TimeOf(steps[i]).value + ttl <= steps[j].now || (file.Payload? && OwnerIsDead(file, steps[j].me, steps[j].gone))
  {
    LeaseRuns(ttl, steps, i, j, owner);
    hide Run;
  }
}

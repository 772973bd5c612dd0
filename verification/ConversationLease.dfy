/** The lease as the program writes it: several owners' objects that share one directory. */
module ConversationLeases {
  import opened Identities
  import LeaseProtocol

  type Outcome = LeaseProtocol.Outcome
  type LeaseFile = LeaseProtocol.LeaseFile
  type Owner = LeaseProtocol.Owner

  /** The conversation directory: its lease file and the data the lease guards. */
  class Directory {
    var file: LeaseFile
    var document: seq<nat>

    function State(): LeaseProtocol.Dir
      reads this
    {
      LeaseProtocol.Dir(file, document)
    }

    constructor ()
      ensures State() == LeaseProtocol.Dir(LeaseProtocol.Missing, [])
    {
      file, document := LeaseProtocol.Missing, [];
    }
  }

  class ConversationLease {
    const dir: Directory
    const me: Owner
    const ttl: nat

    constructor (dir: Directory, me: Owner, ttl: nat)
      ensures this.dir == dir && this.me == me && this.ttl == ttl
    {
      this.dir, this.me, this.ttl := dir, me, ttl;
    }

    method WritePayload(generation: nat, expiresAt: Time)
      modifies dir`file
      ensures dir.file == LeaseProtocol.Held(me, generation, expiresAt)
    {
      dir.file := LeaseProtocol.Payload(me.id, generation, expiresAt, Some(me.host), Some(me.pid));
    }

    method Claim(now: Time, gone: bool) returns (outcome: Outcome)
      modifies dir`file
      ensures dir.State() == LeaseProtocol.Next(ttl, old(dir.State()), LeaseProtocol.DoClaim(me, now, gone))
      ensures outcome == LeaseProtocol.Result(ttl, old(dir.State()), LeaseProtocol.DoClaim(me, now, gone))
      ensures outcome.Granted? <==>
        !old(dir.file).Unreadable? && !LeaseProtocol.HeldByAnother(old(dir.file), me, now, gone)
      ensures outcome.Granted? ==>
        dir.file == LeaseProtocol.Payload(me.id, outcome.generation, now + ttl, Some(me.host), Some(me.pid))
      ensures !outcome.Granted? ==> dir.file == old(dir.file)
    {
      LeaseProtocol.ClaimMeans(dir.file, me, ttl, now, gone);
      var payload := dir.file;
      if payload.Unreadable? {
        return LeaseProtocol.Denied(LeaseProtocol.InvalidLease);
      }
      if payload.Missing? {
        WritePayload(1, now + ttl);
        return LeaseProtocol.Granted(1, false);
      }
      var sameOwner := payload.owner == me.id;
      if !sameOwner && payload.expiresAt > now && !LeaseProtocol.OwnerIsDead(payload, me, gone) {
        return LeaseProtocol.Denied(LeaseProtocol.HeldBy(payload.owner, payload.expiresAt));
      }
      var generation := if sameOwner then payload.generation else payload.generation + 1;
      WritePayload(generation, now + ttl);
      return LeaseProtocol.Granted(generation, !sameOwner);
    }

    method AssertOwner(generation: nat) returns (outcome: Outcome)
      ensures outcome == LeaseProtocol.Check(dir.file, me, generation)
    {
      var payload := dir.file;
      if payload.Unreadable? {
        return LeaseProtocol.Denied(LeaseProtocol.InvalidLease);
      }
      if payload.Missing? || payload.owner != me.id || payload.generation != generation {
        return LeaseProtocol.Denied(LeaseProtocol.OwnershipLost);
      }
      return LeaseProtocol.Allowed;
    }

    method Renew(generation: nat, now: Time) returns (outcome: Outcome)
      modifies dir`file
      ensures dir.State() == LeaseProtocol.Next(ttl, old(dir.State()), LeaseProtocol.DoRenew(me, generation, now))
      ensures outcome == LeaseProtocol.Result(ttl, old(dir.State()), LeaseProtocol.DoRenew(me, generation, now))
      ensures outcome.Allowed? <==> LeaseProtocol.Owns(old(dir.file), me, generation)
      ensures dir.file == if outcome.Allowed?
                          then LeaseProtocol.Payload(me.id, generation, now + ttl, Some(me.host), Some(me.pid))
                          else old(dir.file)
    {
      outcome := AssertOwner(generation);
      if outcome.Allowed? {
        WritePayload(generation, now + ttl);
      }
    }

    method GuardedWrite(generation: nat, value: nat) returns (outcome: Outcome)
      modifies dir`document
      ensures dir.State() == LeaseProtocol.Next(ttl, old(dir.State()), LeaseProtocol.DoWrite(me, generation, value))
      ensures outcome == LeaseProtocol.Result(ttl, old(dir.State()), LeaseProtocol.DoWrite(me, generation, value))
      ensures outcome.Allowed? <==> LeaseProtocol.Owns(dir.file, me, generation)
      ensures dir.document == old(dir.document) + (if outcome.Allowed? then [value] else [])
    {
      outcome := AssertOwner(generation);
      if outcome.Allowed? {
        dir.document := dir.document + [value];
      }
    }

    method Release(generation: nat) returns (outcome: Outcome)
      modifies dir`file
      ensures dir.State() == LeaseProtocol.Next(ttl, old(dir.State()), LeaseProtocol.DoRelease(me, generation))
      ensures outcome == LeaseProtocol.Result(ttl, old(dir.State()), LeaseProtocol.DoRelease(me, generation))
      ensures outcome.Allowed? <==> !old(dir.file).Unreadable?
      ensures dir.file == if LeaseProtocol.Owns(old(dir.file), me, generation) then LeaseProtocol.Missing
                          else old(dir.file)
    {
      var payload := dir.file;
      if payload.Unreadable? {
        return LeaseProtocol.Denied(LeaseProtocol.InvalidLease);
      }
      if payload.Missing? {
        return LeaseProtocol.Allowed;
      }
      if payload.owner != me.id || payload.generation != generation {
        return LeaseProtocol.Allowed;
      }
      dir.file := LeaseProtocol.Missing;
      return LeaseProtocol.Allowed;
    }
  }
}

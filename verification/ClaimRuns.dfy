/** What follows for whole runs of claim transactions. */
module ClaimRuns {
  import opened Common
  import opened Device
  import opened Claims
  import opened ClaimProofs

  lemma EmptyIsGood()
    ensures Inv(EMPTY)
  {
  }

  lemma ReachableIsGood(t: Tables)
    requires Reachable(t)
    ensures Inv(t)
  {
    var ops :| t == Run(EMPTY, ops);
    EmptyIsGood();
    RunKeepsInv(EMPTY, ops);
  }

  predicate LiveDevice(t: Tables, s: string) {
    Thing(s) in t.devices && t.devices[Thing(s)].lifecycle != Lifecycle.Revoked
  }

  /** Registry, Claim, lock and Device of serial `s` name one claim, one thing and one certificate. */
  predicate NameOneBinding(t: Tables, s: string)
    requires s in t.registry
  {
    var g := t.registry[s];
    && g.claimId.Some? && g.certificate.Some? && g.claimId.value in t.claims && s in t.locks && Thing(s) in t.devices
    && var c, k, d := t.claims[g.claimId.value], t.locks[s], t.devices[Thing(s)];
    && c.serial == s && d.serial == s
    && k.claimId == d.claimId == g.claimId.value
    && g.thing == c.thing == k.thing == Some(Thing(s))
    && g.latest == g.certificate == k.certificate == Some(d.certificate)
    && g.scope == Some(c.scope) && d.scope == c.scope
  }

  /** The coupling of the four rows, by the stage of the registry row. */
  predicate CoupledAt(t: Tables, s: string)
    requires s in t.registry
  {
    match t.registry[s].status
    case Bootstrapped =>
      && NameOneBinding(t, s) && t.devices[Thing(s)].lifecycle == Lifecycle.Bootstrapped
      && var c := t.claims[t.registry[s].claimId.value];
      c.status == Status.Bootstrapped || (c.status == Provisioning && c.resume == Some(Status.Bootstrapped))
    case RuntimeAuthorized =>
      && NameOneBinding(t, s)
      && var c, d := t.claims[t.registry[s].claimId.value], t.devices[Thing(s)];
      (d.lifecycle == Lifecycle.RuntimeAuthorized && c.status == Status.RuntimeAuthorized) || (d.lifecycle == Lifecycle.Active && c.status == Online)
    case _ => !LiveDevice(t, s)
  }

  lemma GoodIsCoupled(t: Tables, s: string)
    requires Inv(t) && s in t.registry
    ensures CoupledAt(t, s)
    ensures LiveDevice(t, s) <==> t.registry[s].status in {Stage.Bootstrapped, Stage.RuntimeAuthorized}
  {
    var id := if t.registry[s].claimId.Some? then t.registry[s].claimId.value else "";
    assert RowsOk(RowsAt(t, s, id), s, id);
  }

  /** Over every interleaving, with arbitrary clocks and TTL deletions: the four rows are coupled, and a device is live
      exactly while its registry row is BOOTSTRAPPED or RUNTIME_AUTHORIZED. */
  lemma RowsAreCoupled(t: Tables, s: string)
    requires Reachable(t)
    ensures s in t.registry ==> CoupledAt(t, s)
    ensures LiveDevice(t, s) <==> s in t.registry && t.registry[s].status in {Stage.Bootstrapped, Stage.RuntimeAuthorized}
  {
    ReachableIsGood(t);
    hide Inv, Run;
    if s in t.registry { GoodIsCoupled(t, s); } else { NoRegistryNoDevice(t, s); }
  }

  lemma NoRegistryNoDevice(t: Tables, s: string)
    requires Inv(t) && s !in t.registry
    ensures !LiveDevice(t, s)
  {
    assert RowsOk(RowsAt(t, s, ""), s, "");
  }

  /** While a device is live, TTL takes neither its claim nor its lock. */
  lemma TtlSparesTheBound(t: Tables, s: string)
    requires Reachable(t) && LiveDevice(t, s)
    ensures s in t.registry && t.registry[s].claimId.Some?
    ensures Apply(t, DropLock(s)) == t && Apply(t, DropClaim(t.registry[s].claimId.value)) == t
  {
    ReachableIsGood(t);
    BoundRowsStay(t, s);
  }

  lemma BoundRowsStay(t: Tables, s: string)
    requires Inv(t) && LiveDevice(t, s)
    ensures s in t.registry && t.registry[s].claimId.Some?
    ensures Apply(t, DropLock(s)) == t && Apply(t, DropClaim(t.registry[s].claimId.value)) == t
  {
    assert RowsOk(RowsAt(t, s, ""), s, "");
    GoodIsCoupled(t, s);
    var id := t.registry[s].claimId.value;
    assert RowsOk(RowsAt(t, s, id), s, id);
    hide Inv, RowsOk, Write, PutRows;
  }

  /** No two claims hold one serial past the reservation. */
  lemma OneLateClaim(t: Tables, i: string, j: string)
    requires Reachable(t) && i in t.claims && j in t.claims && Late(t.claims[i]) && Late(t.claims[j])
    requires t.claims[i].serial == t.claims[j].serial
    ensures i == j
  {
    ReachableIsGood(t);
    var s := t.claims[i].serial;
    hide Run;
    assert RowsOk(RowsAt(t, s, i), s, i);
    assert RowsOk(RowsAt(t, s, j), s, j);
  }

  /** The order in which the durable phase may move. */
  predicate Leads(a: Status, b: Status) {
    || a == b
    || (a == Pending && b in {Status.Bootstrapped, Status.RuntimeAuthorized, Online, Expired, Status.Revoked})
    || (a == Status.Bootstrapped && b in {Status.RuntimeAuthorized, Online, Status.Revoked})
    || (a == Status.RuntimeAuthorized && b in {Online, Status.Revoked})
    || (a == Online && b == Status.Revoked)
  }

  /** The single moves: no other one is ever made, and `REVOKED` is left from nowhere but the last two. */
  predicate MovesTo(a: Status, b: Status) {
    || a == b
    || (a == Pending && b in {Status.Bootstrapped, Expired})
    || (a == Status.Bootstrapped && b == Status.RuntimeAuthorized)
    || (a == Status.RuntimeAuthorized && b in {Online, Status.Revoked})
    || (a == Online && b == Status.Revoked)
  }

  predicate IsLeaseOp(op: Op) { op.StartLease? || op.TakeLease? || op.ReleaseLease? || op.ReturnBootstrapped? }

  /** One write, seen by the claim it is about. */
  lemma WriteMovesPhase(r: Rows, s: string, op: Op)
    requires Allows(r, op) && RowsOk(r, s, IdOf(op)) && r.claim.Some?
    ensures var w := Write(r, op);
            && (w.claim.None? ==> Early(r.claim.value))
            && (w.claim.Some? ==>
                  && MovesTo(Phase(r.claim.value), Phase(w.claim.value))
                  && SamePerson(r.claim.value, w.claim.value)
                  && (IsLeaseOp(op) ==> Phase(r.claim.value) == Phase(w.claim.value)))
            && (IsLeaseOp(op) ==> w == r.(claim := w.claim) && w.claim.Some?)
  {
  }

  /** One operation, seen by any claim. */
  lemma ApplyMovesPhase(t: Tables, op: Op, id: string)
    requires Inv(t) && id in t.claims
    ensures var u := Apply(t, op);
            && (id !in u.claims ==> Early(t.claims[id]))
            && (id in u.claims ==> MovesTo(Phase(t.claims[id]), Phase(u.claims[id])) && SamePerson(t.claims[id], u.claims[id]))
            && (IsLeaseOp(op) ==> id in u.claims && Phase(t.claims[id]) == Phase(u.claims[id]))
  {
    if Enabled(t, op) {
      var s := t.claims[id].serial;
      AppliedRows(t, op, s, id);
      assert RowsOk(RowsAt(t, s, id), s, id);
      if id in Apply(t, op).claims { ClaimOrigin(t, op, id); }
      hide Inv, RowsOk, Allows, Write, Phase, MovesTo;
      if id == IdOf(op) && s == SerialOf(t, op) {
        WriteMovesPhase(RowsAt(t, s, id), s, op);
      } else {
        assert OwnClaim(Apply(t, op), s, id) == OwnClaim(t, s, id);
        assert MovesTo(Phase(t.claims[id]), Phase(t.claims[id])) by { Stays(Phase(t.claims[id])); }
      }
    }
  }

  lemma Stays(a: Status)
    ensures MovesTo(a, a)
  {
  }

  lemma LeadsByMoves(a: Status, b: Status, c: Status)
    requires Leads(a, b) && MovesTo(b, c)
    ensures Leads(a, c)
  {
  }

  /** An id that was used and whose claim is gone is never used again. */
  lemma GoneStaysGone(t: Tables, op: Op, id: string)
    requires Inv(t) && id in t.usedClaims && id !in t.claims
    ensures id !in Apply(t, op).claims && id in Apply(t, op).usedClaims
  {
    if Enabled(t, op) && id in Apply(t, op).claims {
      ClaimOrigin(t, op, id);
    }
  }

  /** Whatever happens, the durable phase only moves forward, the claim stays the same person's for the same serial,
      and only a claim that never bound a device disappears. */
  lemma {:induction false} PhaseMovesForward(t: Tables, ops: seq<Op>, id: string)
    requires Inv(t) && id in t.claims
    ensures var u := Run(t, ops);
            && (id !in u.claims ==> Early(t.claims[id]))
            && (id in u.claims ==> Leads(Phase(t.claims[id]), Phase(u.claims[id])) && SamePerson(t.claims[id], u.claims[id]))
            && id in u.usedClaims
  {
    if ops != [] {
      var prefix, op := ops[..|ops| - 1], ops[|ops| - 1];
      PhaseMovesForward(t, prefix, id);
      RunKeepsInv(t, prefix);
      var u := Run(t, prefix);
      ApplyRemembers(u, op);
      hide Inv, Apply;
      if id in u.claims {
        ApplyMovesPhase(u, op, id);
        if id in Apply(u, op).claims {
          LeadsByMoves(Phase(t.claims[id]), Phase(u.claims[id]), Phase(Apply(u, op).claims[id]));
        }
      } else {
        GoneStaysGone(u, op, id);
      }
    }
  }

  /** The lease was taken over, given back or overtaken by expiry: it is not the claim's any more. */
  predicate Lost(t: Tables, id: string, lease: string) {
    lease in t.usedLeases && (id in t.claims ==> t.claims[id].leaseId != Some(lease))
  }

  lemma ApplyKeepsLost(t: Tables, op: Op, id: string, lease: string)
    requires Inv(t) && Lost(t, id, lease) && (id in t.claims || id in t.usedClaims)
    ensures Lost(Apply(t, op), id, lease) && id in Apply(t, op).usedClaims
  {
    ApplyRemembers(t, op);
    if id !in t.claims {
      GoneStaysGone(t, op, id);
    } else if Enabled(t, op) && id in Apply(t, op).claims {
      var s := t.claims[id].serial;
      if id in Apply(t, op).claims { ClaimOrigin(t, op, id); }
      AppliedRows(t, op, s, id);
      WriteUsesKnown(RowsAt(t, SerialOf(t, op), IdOf(op)), op);
      assert OwnClaim(Apply(t, op), s, id) == Some(Apply(t, op).claims[id]);
      hide RowsOk, Allows, Write, PutRows;
    }
  }

  /** A holder whose lease was taken over can neither bootstrap, nor return the claim, nor release it: for ever after,
      its requests change nothing. */
  lemma {:induction false} LostLeaseIsInert(t: Tables, ops: seq<Op>, id: string, lease: string, certificate: string, now: int)
    requires Inv(t) && id in t.claims && Lost(t, id, lease)
    ensures var u := Run(t, ops);
            && Lost(u, id, lease) && id in u.usedClaims
            && Apply(u, Bootstrap(id, lease, certificate, now)) == u
            && Apply(u, ReturnBootstrapped(id, lease, certificate)) == u
            && Apply(u, ReleaseLease(id, lease)) == u
  {
    if ops != [] {
      var prefix := ops[..|ops| - 1];
      LostLeaseIsInert(t, prefix, id, lease, certificate, now);
      RunKeepsInv(t, prefix);
      ApplyKeepsLost(Run(t, prefix), ops[|ops| - 1], id, lease);
    }
    LostAllowsNothing(Run(t, ops), id, lease, certificate, now);
  }

  lemma LostAllowsNothing(u: Tables, id: string, lease: string, certificate: string, now: int)
    requires Lost(u, id, lease)
    ensures Apply(u, Bootstrap(id, lease, certificate, now)) == u
    ensures Apply(u, ReturnBootstrapped(id, lease, certificate)) == u
    ensures Apply(u, ReleaseLease(id, lease)) == u
  {
  }

  /** A takeover is such a loss. */
  lemma TakeoverLosesLease(t: Tables, id: string, lease: string, other: string, now: int, until: int)
    requires Inv(t) && id in t.claims && t.claims[id].leaseId == Some(lease) && Enabled(t, TakeLease(id, other, now, until))
    ensures Lost(Apply(t, TakeLease(id, other, now, until)), id, lease)
    ensures id in Apply(t, TakeLease(id, other, now, until)).claims && Inv(Apply(t, TakeLease(id, other, now, until)))
  {
    ApplyKeepsInv(t, TakeLease(id, other, now, until));
  }

  /** The device of claim `id` on serial `s` has this certificate. */
  predicate Holds(t: Tables, s: string, id: string, certificate: string) {
    && s in t.registry && t.registry[s].claimId == Some(id) && t.registry[s].certificate == Some(certificate)
    && LiveDevice(t, s) && t.devices[Thing(s)].claimId == id && t.devices[Thing(s)].certificate == certificate
    && id in t.claims && t.claims[id].serial == s && Late(t.claims[id])
  }

  lemma WriteKeepsBinding(r: Rows, s: string, op: Op, id: string)
    requires Allows(r, op) && RowsOk(r, s, IdOf(op)) && IsBound(r) && r.registry.value.claimId == Some(id)
    ensures var w := Write(r, op);
            op.Release? || (w.registry.Some? && w.registry.value.claimId == Some(id) && w.registry.value.certificate == r.registry.value.certificate)
  {
  }

  lemma LateHolds(t: Tables, s: string, id: string)
    requires Inv(t) && id in t.claims && t.claims[id].serial == s && Late(t.claims[id])
    ensures s in t.registry && t.registry[s].certificate.Some? && Holds(t, s, id, t.registry[s].certificate.value)
    ensures IsBound(RowsAt(t, s, id)) && RowsOk(RowsAt(t, s, id), s, id)
  {
    assert RowsOk(RowsAt(t, s, id), s, id);
  }

  lemma ApplyKeepsHolding(t: Tables, op: Op, s: string, id: string, certificate: string)
    requires Inv(t) && Holds(t, s, id, certificate)
    ensures var u := Apply(t, op);
            id in u.claims && (Phase(u.claims[id]) != Status.Revoked ==> Holds(u, s, id, certificate))
  {
    ApplyMovesPhase(t, op, id);
    ApplyKeepsInv(t, op);
    var u := Apply(t, op);
    if Enabled(t, op) && Phase(u.claims[id]) != Status.Revoked {
      LateHolds(t, s, id);
      LateHolds(u, s, id);
      SameCertificate(t, op, s, id);
      hide Inv, RowsOk, Apply, Enabled;
    }
  }

  lemma SameCertificate(t: Tables, op: Op, s: string, id: string)
    requires Inv(t) && Enabled(t, op) && IsBound(RowsAt(t, s, id)) && s in t.registry && t.registry[s].claimId == Some(id)
    requires s in Apply(t, op).registry && Apply(t, op).registry[s].claimId == Some(id)
    ensures Apply(t, op).registry[s].certificate == t.registry[s].certificate
  {
    AppliedRows(t, op, s, id);
    assert RowsAt(Apply(t, op), s, id).registry == Some(Apply(t, op).registry[s]);
    var r := RowsAt(t, SerialOf(t, op), IdOf(op));
    hide Inv, Apply, PutRows;
    if s == SerialOf(t, op) {
      WriteKeepsBinding(r, s, op, id);
    }
  }

  /** A bound device keeps its claim and its certificate until that claim is revoked. */
  lemma {:induction false} BindingStays(t: Tables, ops: seq<Op>, s: string, id: string, certificate: string)
    requires Inv(t) && Holds(t, s, id, certificate)
    ensures var u := Run(t, ops);
            id in u.claims && (Phase(u.claims[id]) != Status.Revoked ==> Holds(u, s, id, certificate))
  {
    if ops != [] {
      var prefix, op := ops[..|ops| - 1], ops[|ops| - 1];
      BindingStays(t, prefix, s, id, certificate);
      RunKeepsInv(t, prefix);
      var u := Run(t, prefix);
      hide Inv, Apply;
      ApplyMovesPhase(u, op, id);
      if Phase(u.claims[id]) != Status.Revoked {
        ApplyKeepsHolding(u, op, s, id, certificate);
      }
    }
  }

  /** A lease keeps every other worker out until it ends by that worker's own clock, and its holder can bind the device only
      before it ends by the holder's. */
  lemma LeaseRunsUntil(t: Tables, op: Op, other: string, certificate: string, later: int, next: int)
    requires (op.StartLease? || op.TakeLease?) && Enabled(t, op)
    ensures var u := Apply(t, op);
            && !Enabled(u, StartLease(op.id, other, later, next))
            && (Enabled(u, TakeLease(op.id, other, later, next)) ==> op.until <= later && other != op.lease)
            && (Enabled(u, Bootstrap(op.id, op.lease, certificate, later)) ==> later < op.until)
  {
  }
}

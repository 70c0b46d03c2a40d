/** What every sequence of claim transactions keeps. */
module ClaimProofs {
  import opened Common
  import opened Device
  import opened Claims

  lemma RowsAfterPut(t: Tables, s0: string, id0: string, w: Rows, s: string, id: string)
    requires w.claim.Some? ==> w.claim.value.serial == s0
    requires id0 in t.claims && t.claims[id0].serial != s0 ==> w.claim.None?
    ensures RowsAt(PutRows(t, s0, id0, w), s, id) ==
            if s != s0 then RowsAt(t, s, id)
            else if id == id0 then w else w.(claim := OwnClaim(t, s, id))
  {
    assert Thing(s) == Thing(s0) <==> s == s0;
  }

  /** The operation is about serial `s`. */
  predicate Fits(r: Rows, s: string, op: Op) {
    match op
    case Issue(x, _) => x == s
    case Register(_, x, _, _, _, _) => x == s
    case MarkReissue(x, _, _, _) => x == s
    case Pin(x, _, _, _, _) => x == s
    case Release(d, _) => d.serial == s
    case DropLock(x) => x == s
    case _ => r.claim.Some? && r.claim.value.serial == s
  }

  /** The operations that bind a device, advance it, or free it. */
  predicate Moves(op: Op) {
    op.Bootstrap? || op.ReturnBootstrapped? || op.Authorize? || op.GoOnline? || op.Release?
  }

  /** Each transaction keeps the rows it writes good. */
  lemma MoveKeepsGood(r: Rows, s: string, op: Op)
    requires Allows(r, op) && RowsOk(r, s, IdOf(op)) && Fits(r, s, op) && Moves(op)
    ensures RowsOk(Write(r, op), s, IdOf(op))
  {
    match op
    case Bootstrap(_, _, _, _) =>
    case ReturnBootstrapped(_, _, _) =>
    case Authorize(_, _) =>
    case GoOnline(_) =>
    case Release(_, _) =>
  }

  predicate OnRegistryOrLock(op: Op) { op.Issue? || op.Register? || op.MarkReissue? || op.Pin? || op.DropLock? }

  lemma RegistryKeepsGood(r: Rows, s: string, op: Op)
    requires Allows(r, op) && RowsOk(r, s, IdOf(op)) && Fits(r, s, op) && OnRegistryOrLock(op)
    ensures RowsOk(Write(r, op), s, IdOf(op))
  {
  }

  lemma LeaseKeepsGood(r: Rows, s: string, op: Op)
    requires Allows(r, op) && RowsOk(r, s, IdOf(op)) && Fits(r, s, op) && !Moves(op) && !OnRegistryOrLock(op)
    ensures RowsOk(Write(r, op), s, IdOf(op))
  {
  }

  lemma LeaseOrTtlKeepsGood(r: Rows, s: string, op: Op)
    requires Allows(r, op) && RowsOk(r, s, IdOf(op)) && Fits(r, s, op) && !Moves(op)
    ensures RowsOk(Write(r, op), s, IdOf(op))
  {
    hide *;
    if OnRegistryOrLock(op) { RegistryKeepsGood(r, s, op); } else { LeaseKeepsGood(r, s, op); }
  }

  /** And every other claim of that serial: none of them holds a device. */
  lemma MoveKeepsOthers(r: Rows, s: string, op: Op, id: string, c: Option<Claim>)
    requires Allows(r, op) && RowsOk(r, s, IdOf(op)) && Fits(r, s, op) && Moves(op)
    requires id != IdOf(op) && RowsOk(r.(claim := c), s, id)
    ensures RowsOk(Write(r, op).(claim := c), s, id)
  {
    match op
    case Bootstrap(_, _, _, _) =>
    case ReturnBootstrapped(_, _, _) =>
    case Authorize(_, _) =>
    case GoOnline(_) =>
    case Release(_, _) =>
  }

  lemma RegistryKeepsOthers(r: Rows, s: string, op: Op, id: string, c: Option<Claim>)
    requires Allows(r, op) && RowsOk(r, s, IdOf(op)) && Fits(r, s, op) && OnRegistryOrLock(op)
    requires id != IdOf(op) && RowsOk(r.(claim := c), s, id)
    ensures RowsOk(Write(r, op).(claim := c), s, id)
  {
  }

  lemma LeaseKeepsOthers(r: Rows, s: string, op: Op, id: string, c: Option<Claim>)
    requires Allows(r, op) && RowsOk(r, s, IdOf(op)) && Fits(r, s, op) && !Moves(op) && !OnRegistryOrLock(op)
    requires id != IdOf(op) && RowsOk(r.(claim := c), s, id)
    ensures RowsOk(Write(r, op).(claim := c), s, id)
  {
  }

  lemma LeaseOrTtlKeepsOthers(r: Rows, s: string, op: Op, id: string, c: Option<Claim>)
    requires Allows(r, op) && RowsOk(r, s, IdOf(op)) && Fits(r, s, op) && !Moves(op)
    requires id != IdOf(op) && RowsOk(r.(claim := c), s, id)
    ensures RowsOk(Write(r, op).(claim := c), s, id)
  {
    hide *;
    if OnRegistryOrLock(op) { RegistryKeepsOthers(r, s, op, id, c); } else { LeaseKeepsOthers(r, s, op, id, c); }
  }

  lemma OpFitsRows(t: Tables, op: Op)
    requires Enabled(t, op)
    ensures Fits(RowsAt(t, SerialOf(t, op), IdOf(op)), SerialOf(t, op), op)
  {
  }

  /** One transaction seen from any serial and claim. */
  lemma AppliedRows(t: Tables, op: Op, s: string, id: string)
    requires Inv(t) && Enabled(t, op)
    ensures var s0, id0 := SerialOf(t, op), IdOf(op);
            var r := RowsAt(t, s0, id0);
            && Allows(r, op) && RowsOk(r, s0, id0) && Fits(r, s0, op)
            && RowsAt(Apply(t, op), s, id) ==
               if s != s0 then RowsAt(t, s, id)
               else if id == id0 then Write(r, op) else Write(r, op).(claim := OwnClaim(t, s, id))
  {
    var s0, id0 := SerialOf(t, op), IdOf(op);
    var r := RowsAt(t, s0, id0);
    assert RowsOk(r, s0, id0);
    OpFitsRows(t, op);
    ClaimStaysInSerial(r, s0, op);
    assert id0 in t.claims && t.claims[id0].serial != s0 ==> r.claim.None? && !op.Register?;
    hide Inv, RowsOk, Allows, Write, PutRows;
    RowsAfterPut(t, s0, id0, Write(r, op), s, id);
  }

  lemma EveryRowsGood(t: Tables, op: Op, s: string, id: string)
    requires Inv(t) && Enabled(t, op)
    ensures RowsOk(RowsAt(Apply(t, op), s, id), s, id)
  {
    AppliedRows(t, op, s, id);
    var r := RowsAt(t, SerialOf(t, op), IdOf(op));
    assert RowsOk(RowsAt(t, s, id), s, id);
    hide Inv, RowsOk, Allows, Write, Apply, Enabled;
    if s == SerialOf(t, op) {
      if id == IdOf(op) {
        if Moves(op) { MoveKeepsGood(r, s, op); } else { LeaseOrTtlKeepsGood(r, s, op); }
      } else {
        assert r.(claim := OwnClaim(t, s, id)) == RowsAt(t, s, id);
        if Moves(op) { MoveKeepsOthers(r, s, op, id, OwnClaim(t, s, id)); } else { LeaseOrTtlKeepsOthers(r, s, op, id, OwnClaim(t, s, id)); }
      }
    }
  }

  lemma ClaimStaysInSerial(r: Rows, s: string, op: Op)
    requires Allows(r, op) && RowsOk(r, s, IdOf(op)) && Fits(r, s, op)
    ensures Write(r, op).claim.Some? ==> Write(r, op).claim.value.serial == s
    ensures r.claim.None? && !op.Register? ==> Write(r, op).claim.None?
  {
  }

  lemma ClaimWasCovered(t: Tables, id: string)
    requires Inv(t) && id in t.claims
    ensures id in t.usedClaims && (t.claims[id].leaseId.Some? ==> t.claims[id].leaseId.value in t.usedLeases)
  {
  }

  lemma ClaimCovered(t: Tables, op: Op, id: string)
    requires Inv(t) && Enabled(t, op) && id in Apply(t, op).claims
    ensures var u := Apply(t, op);
            id in u.usedClaims && (u.claims[id].leaseId.Some? ==> u.claims[id].leaseId.value in u.usedLeases)
  {
    hide Inv, RowsOk, Allows, Write, Apply, Enabled, Fits;
    var s := Apply(t, op).claims[id].serial;
    AppliedRows(t, op, s, id);
    WriteUsesKnown(RowsAt(t, SerialOf(t, op), IdOf(op)), op);
    ApplyRemembers(t, op);
    if id in t.claims { ClaimWasCovered(t, id); }
    assert OwnClaim(Apply(t, op), s, id) == Some(Apply(t, op).claims[id]);
  }

  /** History only grows, and takes in the ids that the operation drew. */
  lemma ApplyRemembers(t: Tables, op: Op)
    ensures var u := Apply(t, op);
            && t.usedClaims <= u.usedClaims && t.usedLeases <= u.usedLeases && t.usedCodes <= u.usedCodes
            && (Enabled(t, op) && op.Register? ==> op.id in u.usedClaims)
            && (Enabled(t, op) && (op.StartLease? || op.TakeLease?) ==> op.lease in u.usedLeases)
  {
  }

  lemma RegistryCovered(t: Tables, op: Op, s: string)
    requires Inv(t) && Enabled(t, op) && s in Apply(t, op).registry && Apply(t, op).registry[s].claimId.Some?
    ensures Known(Apply(t, op), s, Apply(t, op).registry[s].claimId.value)
  {
    var u := Apply(t, op);
    var id := u.registry[s].claimId.value;
    AppliedRows(t, op, s, IdOf(op));
    WriteUsesKnown(RowsAt(t, SerialOf(t, op), IdOf(op)), op);
    assert RowsAt(u, s, IdOf(op)).registry == Some(u.registry[s]);
    if id in u.claims {
      ClaimOrigin(t, op, id);
    }
    hide RowsOk, Allows, Write, Inv;
  }

  /** A claim was there before in the same serial, or it is the new one. */
  lemma ClaimOrigin(t: Tables, op: Op, id: string)
    requires Inv(t) && Enabled(t, op) && id in Apply(t, op).claims
    ensures var c := Apply(t, op).claims[id];
            (id in t.claims && t.claims[id].serial == c.serial) || (op.Register? && op.id == id && op.serial == c.serial && id !in t.usedClaims)
  {
    var s := Apply(t, op).claims[id].serial;
    AppliedRows(t, op, s, id);
    WriteUsesKnown(RowsAt(t, SerialOf(t, op), IdOf(op)), op);
    assert OwnClaim(Apply(t, op), s, id) == Some(Apply(t, op).claims[id]);
    hide RowsOk, Allows, Write, Inv, PutRows;
  }

  lemma WriteUsesKnown(r: Rows, op: Op)
    requires Allows(r, op)
    ensures var w := Write(r, op);
            && (w.claim.Some? ==> r.claim.Some? || op.Register?)
            && (w.claim.Some? && w.claim.value.leaseId.Some? ==>
                  (r.claim.Some? && w.claim.value.leaseId == r.claim.value.leaseId)
                  || ((op.StartLease? || op.TakeLease?) && w.claim.value.leaseId == Some(op.lease)))
            && (w.registry.Some? && w.registry.value.claimId.Some? ==>
                  (r.registry.Some? && w.registry.value.claimId == r.registry.value.claimId)
                  || (op.Register? && w.registry.value.claimId == Some(op.id)))
  {
  }

  lemma ApplyKeepsInv(t: Tables, op: Op)
    requires Inv(t)
    ensures Inv(Apply(t, op))
  {
    if Enabled(t, op) {
      forall id | id in Apply(t, op).claims
        ensures id in Apply(t, op).usedClaims
        ensures Apply(t, op).claims[id].leaseId.Some? ==> Apply(t, op).claims[id].leaseId.value in Apply(t, op).usedLeases
      {
        ClaimCovered(t, op, id);
      }
      forall s | s in Apply(t, op).registry && Apply(t, op).registry[s].claimId.Some?
        ensures Known(Apply(t, op), s, Apply(t, op).registry[s].claimId.value)
      {
        RegistryCovered(t, op, s);
      }
      forall s, id ensures RowsOk(RowsAt(Apply(t, op), s, id), s, id) {
        EveryRowsGood(t, op, s, id);
      }
    }
  }

  lemma {:induction false} RunKeepsInv(t: Tables, ops: seq<Op>)
    requires Inv(t)
    ensures Inv(Run(t, ops))
  {
    if ops != [] {
      RunKeepsInv(t, ops[..|ops| - 1]);
      ApplyKeepsInv(Run(t, ops[..|ops| - 1]), ops[|ops| - 1]);
    }
  }
}

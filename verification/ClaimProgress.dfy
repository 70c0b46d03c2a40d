/** What can always be done next with a serial, over every reachable state of the tables, with the rows it leaves written out. */
module ClaimProgress {
  import opened Common
  import opened Device
  import opened Claims
  import opened ClaimProofs
  import opened ClaimRuns
  import opened Convergence

  predicate Authorized(t: Tables, x: string) {
    Thing(x) in t.devices && t.devices[Thing(x)].lifecycle in {Lifecycle.RuntimeAuthorized, Lifecycle.Active}
  }

  const EMPTY_ROW := Registry(ReissueRequired, None, None, None, None, None, None, None, None, None)

  /** The rows of a live, authorized device, as the coupling has them. */
  lemma AuthorizedRows(t: Tables, x: string)
    requires Inv(t) && Authorized(t, x)
    ensures var id := t.devices[Thing(x)].claimId;
            && id in t.claims && t.claims[id].serial == x && x in t.registry && x in t.locks && t.registry[x].claimId == Some(id)
            && RowsAt(t, x, id) == Rows(Some(t.claims[id]), Some(t.locks[x]), Some(t.devices[Thing(x)]), Some(t.registry[x]))
            && Bind(RowsAt(t, x, id), id) && t.registry[x].status == Stage.RuntimeAuthorized
            && (t.devices[Thing(x)].lifecycle == Lifecycle.RuntimeAuthorized ==> t.claims[id].status == Status.RuntimeAuthorized)
            && (t.devices[Thing(x)].lifecycle == Lifecycle.Active ==> t.claims[id].status == Status.Online)
            && t.devices[Thing(x)].serial == x
  {
    assert RowsOk(RowsAt(t, x, ""), x, "");
    var id := t.registry[x].claimId.value;
    assert RowsOk(RowsAt(t, x, id), x, id);
    hide Inv;
  }

  /** The first state of an authorized device can always bring it and its claim online. */
  lemma GoesOnline(t: Tables, x: string)
    requires Reachable(t) && Authorized(t, x) && t.devices[Thing(x)].lifecycle == Lifecycle.RuntimeAuthorized
    ensures var id := t.devices[Thing(x)].claimId;
            var u := Apply(t, GoOnline(id));
            && id in t.claims && Get(u.claims, id) == Some(t.claims[id].(status := Status.Online))
            && Get(u.devices, Thing(x)) == Some(t.devices[Thing(x)].(lifecycle := Lifecycle.Active))
            && Get(u.locks, x) == Get(t.locks, x) && Get(u.registry, x) == Get(t.registry, x)
  {
    ReachableIsGood(t);
    hide Reachable;
    AuthorizedRows(t, x);
    var id := t.devices[Thing(x)].claimId;
    var u := Apply(t, GoOnline(id));
    OwnRows(t, GoOnline(id));
    hide Inv, Apply, Enabled, Allows, Bind;
    assert RowsAt(u, x, id).device == Get(u.devices, Thing(x)) && RowsAt(u, x, id).lock == Get(u.locks, x) && RowsAt(u, x, id).registry == Get(u.registry, x);
  }

  /** A live, authorized device can always be released by its owner: its claim is revoked, its lock is gone, the device row stays as
      a revoked one, and the manufacturing row asks for a reissue and forgets everything else. */
  lemma CanBeReleased(t: Tables, x: string)
    requires Reachable(t) && Authorized(t, x)
    ensures var d := t.devices[Thing(x)];
            var u := Apply(t, Release(d, d.claimId));
            && d.claimId in t.claims && Get(u.claims, d.claimId) == Some(t.claims[d.claimId].(status := Status.Revoked))
            && x !in u.locks && Get(u.devices, Thing(x)) == Some(d.(lifecycle := Lifecycle.Revoked)) && Get(u.registry, x) == Some(EMPTY_ROW)
  {
    ReachableIsGood(t);
    hide Reachable;
    GoodCanBeReleased(t, x);
  }

  lemma GoodCanBeReleased(t: Tables, x: string)
    requires Inv(t) && Authorized(t, x)
    ensures var d := t.devices[Thing(x)];
            var u := Apply(t, Release(d, d.claimId));
            && d.claimId in t.claims && Get(u.claims, d.claimId) == Some(t.claims[d.claimId].(status := Status.Revoked))
            && x !in u.locks && Get(u.devices, Thing(x)) == Some(d.(lifecycle := Lifecycle.Revoked)) && Get(u.registry, x) == Some(EMPTY_ROW)
  {
    AuthorizedRows(t, x);
    var d := t.devices[Thing(x)];
    var u := Apply(t, Release(d, d.claimId));
    OwnRows(t, Release(d, d.claimId));
    hide Inv, Apply, Enabled, Allows, Bind;
    assert RowsAt(u, x, d.claimId).device == Get(u.devices, Thing(x)) && RowsAt(u, x, d.claimId).lock == Get(u.locks, x)
           && RowsAt(u, x, d.claimId).registry == Get(u.registry, x);
  }

  /** A serial that has no manufacturing row, or whose row asks for a reissue, takes any new code. */
  lemma CanBeIssued(t: Tables, x: string, code: string)
    requires Inv(t) && CodeHash(x, code) !in t.usedCodes && (x in t.registry ==> t.registry[x].status == ReissueRequired)
    ensures var u := Apply(t, Issue(x, code));
            && Get(u.registry, x) == Some(NewRegistry(x, code)) && Get(u.locks, x) == Get(t.locks, x) && Get(u.devices, Thing(x)) == Get(t.devices, Thing(x))
  {
    var u := Apply(t, Issue(x, code));
    assert Enabled(t, Issue(x, code));
    AppliedRows(t, Issue(x, code), x, "");
    hide Inv, Apply, Enabled;
    assert RowsAt(u, x, "").registry == Get(u.registry, x) && RowsAt(u, x, "").lock == Get(u.locks, x) && RowsAt(u, x, "").device == Get(u.devices, Thing(x));
    assert RowsAt(t, x, "").lock == Get(t.locks, x) && RowsAt(t, x, "").device == Get(t.devices, Thing(x));
  }

  /** The code of the serial is there, and no other user's reservation or device holds the serial. */
  predicate Claimable(t: Tables, x: string, code: string, now: int) {
    && x in t.registry && t.registry[x].status == Available && t.registry[x].code == Some(CodeHash(x, code)) && t.registry[x].claimId.None?
    && (x in t.locks ==> t.locks[x].expiresAt.Some? && t.locks[x].expiresAt.value <= now && t.locks[x].thing.None?)
  }

  /** Then, and only then, the code can be consumed: a pending claim, its lock and its reservation come into being together. */
  lemma CanBeClaimed(t: Tables, id: string, x: string, scope: Scope, code: string, until: int, now: int)
    requires Inv(t) && id !in t.usedClaims
    ensures var u := Apply(t, Register(id, x, scope, code, until, now));
            if !Claimable(t, x, code, now) then u == t else
            && Get(u.claims, id) == Some(Claim(x, scope, Nonce(scope, x, code), Pending, None, None, None, Some(until), None, None))
            && Get(u.locks, x) == Some(Lock(id, Some(until), None, None))
            && Get(u.registry, x) == Some(t.registry[x].(status := Reserved, code := None, claimId := Some(id), scope := Some(scope),
                                                        nonce := Some(Nonce(scope, x, code)), proof := Some(Proof(scope, x, code)),
                                                        reservationExpiresAt := Some(until)))
  {
    var op := Register(id, x, scope, code, until, now);
    var u := Apply(t, op);
    assert Enabled(t, op) <==> Claimable(t, x, code, now);
    if Enabled(t, op) { AppliedRows(t, op, x, id); }
    assert RowsAt(t, x, id).registry == Get(t.registry, x);
    hide Inv, Enabled, Allows;
    assert RowsAt(u, x, id).registry == Get(u.registry, x) && RowsAt(u, x, id).lock == Get(u.locks, x);
  }

  /** The conditions of the other transactions, as they come out where the tables are consistent: the hook pins the first certificate
      while the reservation lasts, and may say it again. */
  lemma PinsExactly(t: Tables, x: string, id: string, nonce: Nonce, c: string, now: int)
    requires Inv(t)
    ensures Enabled(t, Pin(x, id, nonce, c, now)) <==>
              && x in t.registry && t.registry[x].status == Reserved && t.registry[x].claimId == Some(id) && t.registry[x].nonce == Some(nonce)
              && t.registry[x].reservationExpiresAt.Some? && now < t.registry[x].reservationExpiresAt.value
              && (t.registry[x].latest.None? || t.registry[x].latest == Some(c))
  {
  }

  /** A bound claim is resumed by its lease, and authorized, with the certificate of its device and with no other. */
  lemma AuthorizesExactly(t: Tables, id: string, lease: string, c: string)
    requires Inv(t) && id in t.claims && Phase(t.claims[id]) == Status.Bootstrapped
    ensures var x := t.claims[id].serial;
            && Thing(x) in t.devices
            && (Enabled(t, Authorize(id, c)) <==> t.claims[id].status == Status.Bootstrapped && c == t.devices[Thing(x)].certificate)
            && (Enabled(t, ReturnBootstrapped(id, lease, c)) <==> t.claims[id].leaseId == Some(lease) && c == t.devices[Thing(x)].certificate)
  {
    var x := t.claims[id].serial;
    assert RowsOk(RowsAt(t, x, id), x, id);
    hide Inv;
  }

  /** A claim goes online exactly from RUNTIME_AUTHORIZED. */
  lemma OnlineExactly(t: Tables, id: string)
    requires Inv(t)
    ensures Enabled(t, GoOnline(id)) <==> id in t.claims && t.claims[id].status == Status.RuntimeAuthorized
  {
    if id in t.claims {
      assert RowsOk(RowsAt(t, t.claims[id].serial, id), t.claims[id].serial, id);
    }
    hide Inv;
  }

  /** A release takes effect exactly on a live, authorized device with this binding and this claim. */
  lemma ReleasesExactly(t: Tables, d: Bound, id: string)
    requires Inv(t)
    ensures Enabled(t, Release(d, id)) <==>
              && Authorized(t, d.serial) && t.devices[Thing(d.serial)].scope == d.scope && t.devices[Thing(d.serial)].certificate == d.certificate
              && t.devices[Thing(d.serial)].claimId == id
  {
    if Authorized(t, d.serial) { AuthorizedRows(t, d.serial); }
    var r := RowsAt(t, d.serial, id);
    assert RowsOk(r, d.serial, id);
    assert r.device == Get(t.devices, Thing(d.serial));
    hide Inv;
  }

  /** A reservation that its own proof names and that has ended can be given up, so that the serial waits for a new code; and no other
      can. */
  lemma EndedReservationReopens(t: Tables, x: string, proof: Proof, until: int, now: int)
    requires Inv(t) && x in t.registry
    ensures var g := t.registry[x];
            Get(Apply(t, MarkReissue(x, proof, until, now)).registry, x) ==
              Some(if g.status == Reserved && g.proof == Some(proof) && g.reservationExpiresAt == Some(until) && until <= now
                   then g.(status := ReissueRequired, claimId := None, scope := None, nonce := None, proof := None, reservationExpiresAt := None)
                   else g)
  {
    var op := MarkReissue(x, proof, until, now);
    assert RowsOk(RowsAt(t, x, ""), x, "");
    if Enabled(t, op) { AppliedRows(t, op, x, ""); }
    hide Inv;
    assert RowsAt(Apply(t, op), x, "").registry == Get(Apply(t, op).registry, x) && RowsAt(t, x, "").registry == Get(t.registry, x);
    hide Apply;
  }

  /** So a released serial comes round: after its release and a reissue, anyone with the new code can claim it. */
  lemma ComesRound(t: Tables, x: string, id: string, scope: Scope, code: string, until: int, now: int)
    requires Reachable(t) && Authorized(t, x) && CodeHash(x, code) !in t.usedCodes && id !in t.usedClaims
    ensures var d := t.devices[Thing(x)];
            var v := Apply(Apply(t, Release(d, d.claimId)), Issue(x, code));
            var u := Apply(v, Register(id, x, scope, code, until, now));
            && Get(u.claims, id) == Some(Claim(x, scope, Nonce(scope, x, code), Pending, None, None, None, Some(until), None, None))
            && Get(u.locks, x) == Some(Lock(id, Some(until), None, None))
            && x in u.registry && u.registry[x].status == Reserved && u.registry[x].claimId == Some(id) && u.registry[x].scope == Some(scope)
  {
    ReachableIsGood(t);
    var d := t.devices[Thing(x)];
    var released := Apply(t, Release(d, d.claimId));
    var issued := Apply(released, Issue(x, code));
    hide *;
    CanBeReleased(t, x);
    ApplyKeepsInv(t, Release(d, d.claimId));
    OnlyRows(t, Release(d, d.claimId));
    RowIsEmpty(released, x);
    CanBeIssued(released, x, code);
    ApplyKeepsInv(released, Issue(x, code));
    OnlyRows(released, Issue(x, code));
    IssuedIsClaimable(issued, x, code, now);
    CanBeClaimed(issued, id, x, scope, code, until, now);
    ReservedRow(Apply(issued, Register(id, x, scope, code, until, now)), x, id, scope);
  }

  lemma OnlyRows(t: Tables, op: Op)
    ensures op.Release? ==> Apply(t, op).usedCodes == t.usedCodes && Apply(t, op).usedClaims == t.usedClaims
    ensures op.Issue? ==> Apply(t, op).usedClaims == t.usedClaims
  {
  }

  lemma RowIsEmpty(t: Tables, x: string)
    requires Get(t.registry, x) == Some(EMPTY_ROW)
    ensures x in t.registry ==> t.registry[x].status == ReissueRequired
  {
  }

  lemma IssuedIsClaimable(t: Tables, x: string, code: string, now: int)
    requires Get(t.registry, x) == Some(NewRegistry(x, code)) && Get(t.locks, x) == None
    ensures Claimable(t, x, code, now)
  {
  }

  lemma ReservedRow(t: Tables, x: string, id: string, scope: Scope)
    requires exists g: Registry :: Get(t.registry, x) == Some(g.(status := Reserved, claimId := Some(id), scope := Some(scope)))
    ensures x in t.registry && t.registry[x].status == Reserved && t.registry[x].claimId == Some(id) && t.registry[x].scope == Some(scope)
  {
  }
}

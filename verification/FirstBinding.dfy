/** The ordinary case of the finalize machine: a pending claim whose device was enrolled, and one worker that nobody disturbs. */
module FirstBinding {
  import opened Common
  import opened Claims
  import opened ClaimProofs
  import ClaimProgress
  import opened Device
  import opened Finalize
  import opened FinalizeProofs
  import opened Convergence
  import opened ClaimBackend

  /** Enrolment makes it so: while the reservation lasts and pins no other certificate, RegisterThing with the claim's nonce and a
      certificate that was registered for no other claim, for a Thing with no other principal left, pins that certificate, and everything
      then verifies; and the same request may be made again. */
  lemma EnrolmentVerifies(s: State, id: string, c: string, now: int)
    requires Finalize.Reachable(s) && id in s.t.claims
    requires var x := s.t.claims[id].serial;
             && x in s.t.registry && s.t.registry[x].status == Reserved && s.t.registry[x].claimId == Some(id)
             && s.t.registry[x].reservationExpiresAt.Some? && now < s.t.registry[x].reservationExpiresAt.value
             && (s.t.registry[x].latest.None? || s.t.registry[x].latest == Some(c))
             && (c in s.iot.owners ==> s.iot.owners[c] == id) && (c in s.iot.policies ==> s.iot.policies[c] <= {Boot})
             && (x in s.iot.things ==> s.iot.things[x].principals <= {c})
    ensures var x := s.t.claims[id].serial;
            var u := EnrolStep(s, x, id, s.t.claims[id].nonce, c, now);
            && Get(u.t.claims, id) == Some(s.t.claims[id]) && Get(u.t.locks, x) == Get(s.t.locks, x)
            && Get(u.t.devices, Thing(x)) == Get(s.t.devices, Thing(x)) && Get(u.t.registry, x) == Some(s.t.registry[x].(latest := Some(c)))
            && Verifies(u.t, u.iot, id, s.t.claims[id], c)
  {
    FinalizeProofs.ReachableIsGood(s);
    var x, claim := s.t.claims[id].serial, s.t.claims[id];
    assert RowsOk(RowsAt(s.t, x, id), x, id);
    assert Inv(s.t);
    hide Finalize.Reachable, Good;
    PinWrites(s.t, id, c, now);
    hide Inv, Apply, Enabled;
  }

  /** And when the reservation has ended, or is another claim's, or pins another certificate, the request changes nothing. */
  lemma EnrolmentRefused(s: State, x: string, id: string, nonce: Nonce, c: string, now: int)
    requires !(&& x in s.t.registry && s.t.registry[x].status == Reserved && s.t.registry[x].claimId == Some(id) && s.t.registry[x].nonce == Some(nonce)
               && s.t.registry[x].reservationExpiresAt.Some? && now < s.t.registry[x].reservationExpiresAt.value
               && (s.t.registry[x].latest.None? || s.t.registry[x].latest == Some(c)))
    ensures EnrolStep(s, x, id, nonce, c, now) == s
  {
  }

  lemma PinWrites(t: Tables, id: string, c: string, now: int)
    requires Inv(t) && id in t.claims
    requires var x := t.claims[id].serial;
             && x in t.registry && t.registry[x].status == Reserved && t.registry[x].claimId == Some(id)
             && t.registry[x].reservationExpiresAt.Some? && now < t.registry[x].reservationExpiresAt.value
             && (t.registry[x].latest.None? || t.registry[x].latest == Some(c))
    ensures var x := t.claims[id].serial;
            var op := Pin(x, id, t.claims[id].nonce, c, now);
            var u := Apply(t, op);
            && Enabled(t, op) && t.registry[x].scope == Some(t.claims[id].scope) && t.registry[x].nonce == Some(t.claims[id].nonce)
            && Get(u.claims, id) == Some(t.claims[id]) && Get(u.locks, x) == Get(t.locks, x) && Get(u.devices, Thing(x)) == Get(t.devices, Thing(x))
            && Get(u.registry, x) == Some(t.registry[x].(latest := Some(c)))
  {
    var x := t.claims[id].serial;
    var op := Pin(x, id, t.claims[id].nonce, c, now);
    var u := Apply(t, op);
    assert RowsOk(RowsAt(t, x, id), x, id);
    assert Enabled(t, op);
    OwnRows(t, op);
    hide Inv, Apply, Enabled;
    assert RowsAt(u, x, id).registry == Get(u.registry, x) && RowsAt(u, x, id).lock == Get(u.locks, x) && RowsAt(u, x, id).device == Get(u.devices, Thing(x));
    assert RowsAt(t, x, id).registry == Get(t.registry, x) && RowsAt(t, x, id).lock == Get(t.locks, x) && RowsAt(t, x, id).device == Get(t.devices, Thing(x));
  }

  /** The five checks of a worker, with nobody in between, end with a verified certificate exactly when everything fits it. */
  lemma VerifiedExactly(s: State, k: nat, now: int, c: string)
    requires k in s.workers && s.workers[k].pc == Leased
    ensures var u := Drive(s, k, now, 5);
            k in u.workers && (u.workers[k].pc == Verified(c) <==> Verifies(s.t, s.iot, s.workers[k].id, s.workers[k].claim, c))
  {
    var s0 := Drive(s, k, now, 0);
    assert s0 == s;
    var s1 := Drive(s, k, now, 1);
    CheckMoves(s0, k, now);
    CheckMoves(s1, k, now);
    var s2 := Drive(s, k, now, 2);
    CheckMoves(s2, k, now);
    var s3 := Drive(s, k, now, 3);
    CheckMoves(s3, k, now);
    var s4 := Drive(s, k, now, 4);
    CheckMoves(s4, k, now);
    hide WorkStep;
  }

  /** A check only moves its worker; and one that fails does not verify any more. */
  lemma CheckMoves(s: State, k: nat, now: int)
    requires k in s.workers
    ensures var w, u := s.workers[k], WorkStep(s, k, now, Answered);
            && k in u.workers
            && (w.pc.Leased? || w.pc.CheckThing? || w.pc.CheckPrincipals? || w.pc.CheckCertificate? || w.pc.CheckPolicies? ==> u == At(s, k, Checked(s, w)))
            && (w.pc == Failing || w.pc == Failed ==> u.workers[k].pc == Failed)
  {
    hide Checked, Enabled, Apply;
  }

  /** The transition is confirmed exactly when the certificate has the runtime policy and no other. */
  lemma ConfirmsExactly(s: State, k: nat, now: int, reply: Reply)
    requires k in s.workers && s.workers[k].pc.Confirming?
    ensures var c := s.workers[k].pc.certificate;
            var u := WorkStep(s, k, now, reply);
            k in u.workers && u.t == s.t && u.iot == s.iot
            && u.workers[k].pc == if reply == Answered && c in s.iot.policies && s.iot.policies[c] == {Runtime} then Confirmed(c) else Failed
  {
  }

  /** A live, authorized device can always be taken into a release, and finishing that releases it. */
  lemma ReleaseRuns(s: State, k: nat, x: string)
    requires Finalize.Reachable(s) && ClaimProgress.Authorized(s.t, x) && k !in s.releases
    ensures var d := s.t.devices[Thing(x)];
            var u := Next(Next(s, StartRelease(k, x)), FinishRelease(k, d.claimId));
            && x !in u.t.locks && Get(u.t.devices, Thing(x)) == Some(d.(lifecycle := Lifecycle.Revoked)) && Get(u.t.registry, x) == Some(ClaimProgress.EMPTY_ROW)
  {
    FinalizeProofs.ReachableIsGood(s);
    assert Inv(s.t);
    hide *;
    ClaimProgress.GoodCanBeReleased(s.t, x);
    ReleaseSteps(s, k, x);
  }

  lemma ReleaseSteps(s: State, k: nat, x: string)
    requires ClaimProgress.Authorized(s.t, x) && k !in s.releases
    ensures var d := s.t.devices[Thing(x)];
            Thing(x) in s.t.devices && Next(Next(s, StartRelease(k, x)), FinishRelease(k, d.claimId)).t == Apply(s.t, Release(d, d.claimId))
  {
    hide Apply;
  }

  /** A worker that fails before the binding gives its claim back, as it was before the lease. */
  lemma FailureReleases(s: State, k: nat, now: int)
    requires Inv(s.t) && k in s.workers && s.workers[k].pc == Failing && s.workers[k].id in s.t.claims
    requires s.t.claims[s.workers[k].id].status == Provisioning && s.t.claims[s.workers[k].id].leaseId == Some(s.workers[k].lease)
    ensures var id := s.workers[k].id;
            var u := WorkStep(s, k, now, Answered);
            && k in u.workers && u.workers[k].pc == Failed && s.t.claims[id].resume.Some?
            && Get(u.t.claims, id) == Some(s.t.claims[id].(status := s.t.claims[id].resume.value, resume := None, leaseId := None, leaseExpiresAt := None))
            && u.iot == s.iot
  {
    var id := s.workers[k].id;
    var op := ReleaseLease(id, s.workers[k].lease);
    assert RowsOk(RowsAt(s.t, s.t.claims[id].serial, id), s.t.claims[id].serial, id);
    assert Enabled(s.t, op);
    OwnRows(s.t, op);
    hide Inv, Apply, Enabled;
  }

  /** The five checks pass, with the pinned certificate. */
  lemma ChecksPassFirst(s: State, k: nat, now: int, id: string, lease: string, c: string)
    requires Mine(s, k, id, lease) && FirstLeased(s.t, s.iot, id, now) && c == PinnedCertificate(s.t, id) && s.workers[k].pc == Leased
    ensures Drive(s, k, now, 5) == At(s, k, Verified(c))
  {
    var s1 := WorkStep(s, k, now, Answered);
    assert s1 == At(s, k, CheckThing(c, true));
    var s2 := WorkStep(s1, k, now, Answered);
    assert s2 == At(s, k, CheckPrincipals(c, true));
    var s3 := WorkStep(s2, k, now, Answered);
    assert s3 == At(s, k, CheckCertificate(c, true));
    var s4 := WorkStep(s3, k, now, Answered);
    assert s4 == At(s, k, CheckPolicies(c, true));
    hide FirstLeased;
    assert Drive(s, k, now, 1) == s1;
    assert Drive(s, k, now, 2) == s2;
    assert Drive(s, k, now, 3) == s3;
    assert Drive(s, k, now, 4) == s4;
  }

  lemma StageBinds(s: State, k: nat, now: int, id: string, lease: string, c: string)
    requires Inv(s.t) && Mine(s, k, id, lease) && FirstLeased(s.t, s.iot, id, now) && c == PinnedCertificate(s.t, id)
    requires s.t.claims[id].leaseId == Some(lease) && s.workers[k].pc == Verified(c)
    ensures var u := WorkStep(s, k, now, Answered);
            && Mine(u, k, id, lease) && u.workers[k].pc == Staged(c) && u.iot == s.iot
            && Inv(u.t) && Ready(u.t, u.iot, id, c) && StagedFirst(s.t, u.t, id, c)
  {
    BindIsGranted(s.t, s.iot, id, lease, c, now);
    ApplyKeepsInv(s.t, Bootstrap(id, lease, c, now));
    hide Inv, Apply, Enabled, Ready, FirstLeased;
  }

  lemma FirstRunSucceeds(s: State, k: nat, now: int, id: string, lease: string, c: string)
    requires Inv(s.t) && Mine(s, k, id, lease) && FirstLeased(s.t, s.iot, id, now) && c == PinnedCertificate(s.t, id)
    requires s.t.claims[id].leaseId == Some(lease) && s.workers[k].pc == Leased
    ensures var u := Drive(s, k, now, 11);
            && k in u.workers && u.workers[k].pc == Finished && u.iot == SetPolicies(s.iot, c, {Runtime})
            && exists mid :: StagedFirst(s.t, mid, id, c) && Completes(mid, u.t, s.t.claims[id].serial, id)
  {
    ChecksPassFirst(s, k, now, id, lease, c);
    var s1 := At(s, k, Verified(c));
    StageBinds(s1, k, now, id, lease, c);
    var s2 := WorkStep(s1, k, now, Answered);
    ReadyCouples(s2.t, s2.iot, id, c);
    TransitionSucceeds(s2, k, now, id, lease, c);
    var s3 := At(s2.(iot := SetPolicies(s2.iot, c, {Runtime})), k, Confirmed(c));
    AuthorizeSucceeds(s3, k, now, id, lease, c);
    hide Inv, Drive, WorkStep, Ready, Coupling, SetPolicies, FirstLeased, Completes;
    DriveFrom(s, k, now, 5, 1);
    DriveOne(s1, k, now);
    DriveFrom(s, k, now, 6, 4);
    DriveFrom(s, k, now, 10, 1);
    DriveOne(s3, k, now);
    assert StagedFirst(s.t, s2.t, id, c) && Completes(s2.t, Drive(s, k, now, 11).t, s.t.claims[id].serial, id);
  }

  lemma StagedThenCompleted(t: Tables, mid: Tables, u: Tables, id: string, c: string)
    requires StagedFirst(t, mid, id, c) && Completes(mid, u, t.claims[id].serial, id)
    ensures EndsAuthorized(t, u, id, c)
  {
  }

  lemma EndsFromSame(t: Tables, leased: Tables, u: Tables, id: string, c: string)
    requires id in t.claims && SameRows(t, leased, t.claims[id].serial, id) && EndsAuthorized(leased, u, id, c)
    ensures EndsAuthorized(t, u, id, c)
  {
    var x := t.claims[id].serial;
    assert RowsAt(leased, x, id).registry == RowsAt(t, x, id).registry;
  }

  lemma AcquiresFirst(s: State, k: nat, id: string, lease: string, now: int, until: int)
    requires Inv(s.t) && FirstFits(s.t, s.iot, id, until, now) && Leasable(s.t, id, now) && lease !in s.t.usedLeases && k !in s.workers
    ensures var u := AcquireStep(s, k, id, lease, now, until, true);
            && k in u.workers && Mine(u, k, id, lease) && u.workers[k].pc == Leased && u.iot == s.iot && Inv(u.t)
            && FirstLeased(u.t, u.iot, id, now) && PinnedCertificate(u.t, id) == PinnedCertificate(s.t, id)
            && u.t.claims[id].leaseId == Some(lease) && SameRows(s.t, u.t, s.t.claims[id].serial, id)
  {
    var op := LeaseOp(s.t, id, lease, now, until);
    LeaseFitsFirst(s.t, s.iot, id, lease, now, until, now);
    LeasableIsEnabled(s.t, id, lease, now, until);
    ApplyKeepsInv(s.t, op);
    hide Inv, Apply, Enabled, LeaseOp, FirstLeased, FirstFits, Leasable;
  }

  /** From every reachable state in which a claim waits for its first binding, its device is enrolled and everything fits: one worker
      that is not disturbed binds the device with the pinned certificate and authorizes claim, device and registry row; and that
      certificate then has exactly the runtime policy. */
  lemma FirstRunCompletes(s: State, k: nat, id: string, lease: string, now: int, until: int)
    requires Finalize.Reachable(s) && FirstFits(s.t, s.iot, id, until, now) && Leasable(s.t, id, now)
    requires lease !in s.t.usedLeases && k !in s.workers
    ensures var begun := AcquireStep(s, k, id, lease, now, until, true);
            && k in begun.workers
            && var u := Undisturbed(begun, k, now);
            && u.workers[k].pc == Finished && EndsAuthorized(s.t, u.t, id, PinnedCertificate(s.t, id))
            && u.iot == SetPolicies(s.iot, PinnedCertificate(s.t, id), {Runtime})
  {
    FinalizeProofs.ReachableIsGood(s);
    assert Inv(s.t);
    var c := PinnedCertificate(s.t, id);
    hide *;
    AcquiresFirst(s, k, id, lease, now, until);
    var begun := AcquireStep(s, k, id, lease, now, until, true);
    FirstRunSucceeds(begun, k, now, id, lease, c);
    UndisturbedIsDrive(begun, k, now);
    var mid :| StagedFirst(begun.t, mid, id, c) && Completes(mid, Undisturbed(begun, k, now).t, begun.t.claims[id].serial, id);
    StagedThenCompleted(begun.t, mid, Undisturbed(begun, k, now).t, id, c);
    EndsFromSame(s.t, begun.t, Undisturbed(begun, k, now).t, id, c);
  }

  lemma UndisturbedIsDrive(s: State, k: nat, now: int)
    requires k in s.workers
    ensures Undisturbed(s, k, now) == Drive(s, k, now, 11)
  {
  }
}

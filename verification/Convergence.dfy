/** Crash convergence: wherever earlier workers stopped, one undisturbed finalize run completes a claim that durably
    bound its device. */
module Convergence {
  import opened Common
  import opened Device
  import opened Claims
  import opened ClaimProofs
  import opened ClaimRuns
  import opened Finalize
  import opened FinalizeProofs

  /** The rows of a bootstrapped claim, and AWS IoT as they need it. */
  predicate Ready(t: Tables, iot: Iot, id: string, c: string) {
    && id in t.claims && Phase(t.claims[id]) == Status.Bootstrapped
    && var s := t.claims[id].serial;
    && Coupling(RowsAt(t, s, id), id, c)
    && ThingMatches(iot, t.claims[id]) && iot.things[s].principals == {c} && c in iot.active && InTransition(Attached(iot, c))
  }

  predicate Coupling(r: Rows, id: string, c: string) {
    && Bind(r, id) && r.registry.value.status == Stage.Bootstrapped && r.registry.value.certificate == Some(c)
    && r.device.value.lifecycle == Lifecycle.Bootstrapped && Shape(r.claim.value)
  }

  /** Every reachable state with a durably bootstrapped claim is ready, with the certificate of its device. */
  lemma ReachableIsReady(s: State, id: string)
    requires Good(s) && id in s.t.claims && Phase(s.t.claims[id]) == Status.Bootstrapped
    ensures var x := s.t.claims[id].serial;
            Thing(x) in s.t.devices && Ready(s.t, s.iot, id, s.t.devices[Thing(x)].certificate)
  {
    var x := s.t.claims[id].serial;
    assert RowsOk(RowsAt(s.t, x, id), x, id);
    assert RegisteredOk(s.iot, x, s.t.registry[x]);
    assert CertificateOk(s.t, s.iot, s.t.devices[Thing(x)].certificate);
    hide Inv, WorkerOk, ReleaseOk;
  }

  /** The claim is between leases, or its lease has expired at the caller's clock. */
  predicate LeaseIsFree(c: Claim, now: int) { c.status == Provisioning ==> Passed(c.leaseExpiresAt, now) }

  /** The claim row of `id` seen after one operation on it. */
  lemma OwnRows(t: Tables, op: Op)
    requires Inv(t) && Enabled(t, op) && IdOf(op) in t.claims && SerialOf(t, op) == t.claims[IdOf(op)].serial && !op.DropClaim?
    ensures var s, id := SerialOf(t, op), IdOf(op);
            var u := Apply(t, op);
            && RowsAt(u, s, id) == Write(RowsAt(t, s, id), op)
            && (u.claims.Keys == t.claims.Keys && id in u.claims && Some(u.claims[id]) == RowsAt(u, s, id).claim)
  {
    AppliedRows(t, op, SerialOf(t, op), IdOf(op));
    hide Inv, RowsOk;
  }

  /** Either the lease can be started or an expired one can be taken. */
  lemma LeaseIsGranted(t: Tables, iot: Iot, id: string, lease: string, now: int, until: int, c: string)
    requires Inv(t) && Ready(t, iot, id, c) && LeaseIsFree(t.claims[id], now) && lease !in t.usedLeases
    ensures var op := LeaseOp(t, id, lease, now, until);
            && Enabled(t, op)
            && Resumed(Apply(t, op), iot, id, lease, c) && SameRows(t, Apply(t, op), t.claims[id].serial, id)
  {
    var op := LeaseOp(t, id, lease, now, until);
    assert Enabled(t, op);
    OwnRows(t, op);
    hide Inv, Apply, Enabled;
  }

  lemma AcquireSucceeds(s: State, k: nat, id: string, lease: string, now: int, until: int, c: string)
    requires Inv(s.t) && Ready(s.t, s.iot, id, c) && LeaseIsFree(s.t.claims[id], now) && lease !in s.t.usedLeases && k !in s.workers
    ensures var u := AcquireStep(s, k, id, lease, now, until, true);
            && k in u.workers && u.workers[k].id == id && u.workers[k].lease == lease && u.workers[k].pc == Leased
            && u.iot == s.iot && Inv(u.t) && Resumed(u.t, u.iot, id, lease, c)
            && SamePerson(u.workers[k].claim, u.t.claims[id])
            && SameRows(s.t, u.t, s.t.claims[id].serial, id)
  {
    var op := LeaseOp(s.t, id, lease, now, until);
    LeaseIsGranted(s.t, s.iot, id, lease, now, until, c);
    ApplyKeepsInv(s.t, op);
    hide Inv, Apply, Enabled, LeaseOp, LeaseIsFree, Coupling;
  }

  /** The claim is being resumed under this lease. */
  predicate Resumed(t: Tables, iot: Iot, id: string, lease: string, c: string) {
    Ready(t, iot, id, c) && t.claims[id].status == Provisioning && t.claims[id].leaseId == Some(lease)
  }

  /** Lock, device and registry rows are untouched, and the claim is the same person's. */
  predicate SameRows(t: Tables, u: Tables, x: string, id: string) {
    && id in t.claims && id in u.claims && SamePerson(t.claims[id], u.claims[id])
    && RowsAt(u, x, id) == RowsAt(t, x, id).(claim := RowsAt(u, x, id).claim)
  }

  /** `n` answered steps of one worker with nobody in between. */
  function Drive(s: State, k: nat, now: int, n: nat): State
    requires k in s.workers
    ensures k in Drive(s, k, now, n).workers
  {
    if n == 0 then s else WorkStep(Drive(s, k, now, n - 1), k, now, Answered)
  }

  predicate Mine(s: State, k: nat, id: string, lease: string) {
    k in s.workers && s.workers[k].id == id && s.workers[k].lease == lease && id in s.t.claims && SamePerson(s.workers[k].claim, s.t.claims[id])
  }

  lemma ChecksPass(s: State, k: nat, now: int, id: string, lease: string, c: string)
    requires Mine(s, k, id, lease) && Resumed(s.t, s.iot, id, lease, c) && s.workers[k].pc == Leased
    ensures var u := Drive(s, k, now, 5);
            u == At(s, k, Verified(c))
  {
    var s1 := WorkStep(s, k, now, Answered);
    assert s1 == At(s, k, CheckThing(c, false));
    var s2 := WorkStep(s1, k, now, Answered);
    assert s2 == At(s, k, CheckPrincipals(c, false));
    var s3 := WorkStep(s2, k, now, Answered);
    assert s3 == At(s, k, CheckCertificate(c, false));
    var s4 := WorkStep(s3, k, now, Answered);
    assert s4 == At(s, k, CheckPolicies(c, false));
    hide Ready;
    assert Drive(s, k, now, 1) == s1;
    assert Drive(s, k, now, 2) == s2;
    assert Drive(s, k, now, 3) == s3;
    assert Drive(s, k, now, 4) == s4;
  }

  lemma StageIsGranted(t: Tables, iot: Iot, id: string, lease: string, c: string)
    requires Inv(t) && Resumed(t, iot, id, lease, c)
    ensures var op := ReturnBootstrapped(id, lease, c);
            && Enabled(t, op) && t.claims[id].resume == Some(Status.Bootstrapped)
            && Ready(Apply(t, op), iot, id, c) && Apply(t, op).claims[id].status == Status.Bootstrapped
            && SameRows(t, Apply(t, op), t.claims[id].serial, id)
  {
    var op := ReturnBootstrapped(id, lease, c);
    assert Enabled(t, op);
    OwnRows(t, op);
    hide Inv, Apply, Enabled;
  }

  lemma StageSucceeds(s: State, k: nat, now: int, id: string, lease: string, c: string)
    requires Inv(s.t) && Mine(s, k, id, lease) && Resumed(s.t, s.iot, id, lease, c) && s.workers[k].pc == Verified(c)
    ensures var u := WorkStep(s, k, now, Answered);
            && Mine(u, k, id, lease) && u.workers[k].pc == Staged(c) && u.iot == s.iot
            && Inv(u.t) && Ready(u.t, u.iot, id, c) && u.t.claims[id].status == Status.Bootstrapped
            && SameRows(s.t, u.t, s.t.claims[id].serial, id)
  {
    StageIsGranted(s.t, s.iot, id, lease, c);
    ApplyKeepsInv(s.t, ReturnBootstrapped(id, lease, c));
    hide Inv, Apply, Enabled, Ready;
  }

  /** Attach what is missing, detach what is left, confirm. */
  lemma TransitionSucceeds(s: State, k: nat, now: int, id: string, lease: string, c: string)
    requires Mine(s, k, id, lease) && InTransition(Attached(s.iot, c)) && s.workers[k].pc == Staged(c)
    ensures Drive(s, k, now, 4) == At(s.(iot := SetPolicies(s.iot, c, {Runtime})), k, Confirmed(c))
  {
    var p := Attached(s.iot, c);
    var s1 := WorkStep(s, k, now, Answered);
    assert s1 == At(s, k, Attaching(c, p));
    var s2 := WorkStep(s1, k, now, Answered);
    assert s2 == At(s.(iot := SetPolicies(s.iot, c, p + {Runtime})), k, Detaching(c, p)) by { SameWhenThere(s.iot, c, p); }
    var s3 := WorkStep(s2, k, now, Answered);
    assert s3 == At(s.(iot := SetPolicies(s.iot, c, {Runtime})), k, Confirming(c)) by { SettlesOnRuntime(s.iot, c, p); }
    hide SetPolicies, InTransition;
    assert Attached(s3.iot, c) == {Runtime} by { SetIsRead(s.iot, c, {Runtime}); }
    assert Drive(s, k, now, 1) == s1;
    assert Drive(s, k, now, 2) == s2;
    assert Drive(s, k, now, 3) == s3;
  }

  lemma SameWhenThere(iot: Iot, c: string, p: set<Policy>)
    requires p == Attached(iot, c) && p != {}
    ensures Runtime in p ==> SetPolicies(iot, c, p + {Runtime}) == iot
  {
    if Runtime in p { assert p + {Runtime} == p; assert iot.policies[c := p] == iot.policies; }
  }

  lemma SettlesOnRuntime(iot: Iot, c: string, p: set<Policy>)
    requires InTransition(p)
    ensures Attached(SetPolicies(iot, c, p + {Runtime}), c) == p + {Runtime}
    ensures (p + {Runtime}) - {Boot} == {Runtime}
    ensures Boot !in p ==> p + {Runtime} == {Runtime}
    ensures SetPolicies(SetPolicies(iot, c, p + {Runtime}), c, {Runtime}) == SetPolicies(iot, c, {Runtime})
  {
    assert iot.policies[c := p + {Runtime}][c := {Runtime}] == iot.policies[c := {Runtime}];
  }

  lemma SetIsRead(iot: Iot, c: string, p: set<Policy>)
    ensures Attached(SetPolicies(iot, c, p), c) == p
  {
  }

  /** The claim, its device and its registry row end authorized, and nothing else about them changes. */
  predicate Completes(t: Tables, u: Tables, x: string, id: string) {
    && id in t.claims && id in u.claims && SamePerson(t.claims[id], u.claims[id]) && u.claims[id].status == Status.RuntimeAuthorized
    && Thing(x) in t.devices && Thing(x) in u.devices && x in t.registry && x in u.registry
    && u.devices[Thing(x)] == t.devices[Thing(x)].(lifecycle := Lifecycle.RuntimeAuthorized)
    && u.registry[x] == t.registry[x].(status := Stage.RuntimeAuthorized)
    && Get(u.locks, x) == Get(t.locks, x)
  }

  lemma AuthorizeIsGranted(t: Tables, id: string, c: string)
    requires Inv(t) && id in t.claims && t.claims[id].status == Status.Bootstrapped && Coupling(RowsAt(t, t.claims[id].serial, id), id, c)
    ensures Enabled(t, Authorize(id, c)) && Completes(t, Apply(t, Authorize(id, c)), t.claims[id].serial, id)
  {
    var op := Authorize(id, c);
    assert Enabled(t, op);
    OwnRows(t, op);
    var x := t.claims[id].serial;
    assert RowsAt(Apply(t, op), x, id) == Write(RowsAt(t, x, id), op);
    hide Inv, Apply, Enabled;
  }

  lemma AuthorizeSucceeds(s: State, k: nat, now: int, id: string, lease: string, c: string)
    requires Inv(s.t) && Mine(s, k, id, lease) && s.workers[k].pc == Confirmed(c)
    requires id in s.t.claims && s.t.claims[id].status == Status.Bootstrapped && Coupling(RowsAt(s.t, s.t.claims[id].serial, id), id, c)
    ensures var u := WorkStep(s, k, now, Answered);
            k in u.workers && u.workers[k].pc == Finished && u.iot == s.iot && Completes(s.t, u.t, s.t.claims[id].serial, id)
  {
    AuthorizeIsGranted(s.t, id, c);
    hide Inv, Apply, Enabled, Completes;
  }

  lemma {:induction false} DriveFrom(s: State, k: nat, now: int, m: nat, n: nat)
    requires k in s.workers
    ensures Drive(s, k, now, m + n) == Drive(Drive(s, k, now, m), k, now, n)
  {
    hide WorkStep;
    if n > 0 { DriveFrom(s, k, now, m, n - 1); }
  }

  lemma RunSucceeds(s: State, k: nat, now: int, id: string, lease: string, c: string)
    requires Inv(s.t) && Mine(s, k, id, lease) && Resumed(s.t, s.iot, id, lease, c) && s.workers[k].pc == Leased
    ensures var u := Drive(s, k, now, 11);
            && u.workers[k].pc == Finished && Attached(u.iot, c) == {Runtime} && u.iot == SetPolicies(s.iot, c, {Runtime})
            && Completes(s.t, u.t, s.t.claims[id].serial, id)
  {
    ChecksPass(s, k, now, id, lease, c);
    var s1 := At(s, k, Verified(c));
    StageSucceeds(s1, k, now, id, lease, c);
    var s2 := WorkStep(s1, k, now, Answered);
    ReadyCouples(s2.t, s2.iot, id, c);
    TransitionSucceeds(s2, k, now, id, lease, c);
    var s3 := At(s2.(iot := SetPolicies(s2.iot, c, {Runtime})), k, Confirmed(c));
    AuthorizeSucceeds(s3, k, now, id, lease, c);
    SetIsRead(s.iot, c, {Runtime});
    hide Inv, Drive, WorkStep, Ready, Coupling, SetPolicies;
    DriveFrom(s, k, now, 5, 1);
    DriveOne(s1, k, now);
    DriveFrom(s, k, now, 6, 4);
    DriveFrom(s, k, now, 10, 1);
    DriveOne(s3, k, now);
    CompletesFromSame(s.t, s2.t, Drive(s, k, now, 11).t, s.t.claims[id].serial, id);
  }

  lemma DriveOne(s: State, k: nat, now: int)
    requires k in s.workers
    ensures Drive(s, k, now, 1) == WorkStep(s, k, now, Answered)
  {
    assert Drive(s, k, now, 0) == s;
  }

  lemma ReadyCouples(t: Tables, iot: Iot, id: string, c: string)
    requires Ready(t, iot, id, c)
    ensures Coupling(RowsAt(t, t.claims[id].serial, id), id, c) && InTransition(Attached(iot, c))
  {
  }

  lemma CompletesFromSame(t: Tables, u: Tables, v: Tables, x: string, id: string)
    requires SameRows(t, u, x, id) && Completes(u, v, x, id)
    ensures Completes(t, v, x, id)
  {
    assert RowsAt(u, x, id).device == RowsAt(t, x, id).device && RowsAt(u, x, id).registry == RowsAt(t, x, id).registry;
    assert RowsAt(u, x, id).lock == RowsAt(t, x, id).lock;
  }

  /** A worker with nobody in between: five checks, the binding, four policy steps, the authorization. */
  function Undisturbed(s: State, k: nat, now: int): State
    requires k in s.workers
    ensures k in Undisturbed(s, k, now).workers
  {
    Drive(s, k, now, 11)
  }

  /** From every reachable state whose claim is durably bootstrapped, wherever other workers stopped: a new worker that
      finds the lease free and is not disturbed finishes. The claim, its device and its registry row are then authorized
      with the same certificate, and that certificate has exactly the runtime policy. */
  lemma CrashConverges(s: State, k: nat, id: string, lease: string, now: int, until: int)
    requires Finalize.Reachable(s) && id in s.t.claims && Phase(s.t.claims[id]) == Status.Bootstrapped
    requires LeaseIsFree(s.t.claims[id], now) && lease !in s.t.usedLeases && k !in s.workers
    ensures var x := s.t.claims[id].serial;
            var begun := AcquireStep(s, k, id, lease, now, until, true);
            && k in begun.workers
            && var u := Undisturbed(begun, k, now);
            && u.workers[k].pc == Finished && Completes(s.t, u.t, x, id)
            && Attached(u.iot, u.t.devices[Thing(x)].certificate) == {Runtime}
  {
    FinalizeProofs.ReachableIsGood(s);
    ReachableIsReady(s, id);
    var x := s.t.claims[id].serial;
    var c := s.t.devices[Thing(x)].certificate;
    assert Inv(s.t);
    hide Inv, Good, Ready, Drive, AcquireStep, Completes, LeaseIsFree, Finalize.Run;
    AcquireSucceeds(s, k, id, lease, now, until, c);
    var begun := AcquireStep(s, k, id, lease, now, until, true);
    RunSucceeds(begun, k, now, id, lease, c);
    CompletesFromSame(s.t, begun.t, Drive(begun, k, now, 11).t, x, id);
    CompletesKeepsCertificate(s.t, Drive(begun, k, now, 11).t, x, id);
  }

  lemma CompletesKeepsCertificate(t: Tables, u: Tables, x: string, id: string)
    requires Completes(t, u, x, id)
    ensures Thing(x) in t.devices && Thing(x) in u.devices && u.devices[Thing(x)].certificate == t.devices[Thing(x)].certificate
  {
  }
}

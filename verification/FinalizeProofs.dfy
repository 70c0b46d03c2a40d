/** What every interleaving of finalize workers, registrations and releases keeps. */
module FinalizeProofs {
  import opened Common
  import opened Device
  import opened Claims
  import opened ClaimProofs
  import opened ClaimRuns
  import opened Finalize

  /** How a registry row follows from the one before. */
  predicate Follows(before: Option<Registry>, g: Registry, op: Op) {
    || before == Some(g)
    || (op.Issue? && g.status == Available && g.latest.None? && g.claimId.None?)
    || (op.Register? && before.Some? && before.value.status == Available && g.status == Reserved
        && g.claimId == Some(op.id) && g.latest == before.value.latest)
    || ((op.MarkReissue? || op.Release?) && g.status == ReissueRequired && g.claimId.None?)
    || (op.Pin? && before.Some? && before.value.status == Reserved && before.value.claimId == Some(op.id)
        && (before.value.latest.None? || before.value.latest == Some(op.certificate))
        && g == before.value.(latest := Some(op.certificate)))
    || (op.Bootstrap? && before.Some? && before.value.status == Reserved && g.status == Stage.Bootstrapped
        && before.value.claimId == Some(op.id) == g.claimId && before.value.latest == Some(op.certificate) == g.latest
        && g.scope == before.value.scope)
    || (op.Authorize? && before.Some? && before.value.status == Stage.Bootstrapped && g.status == Stage.RuntimeAuthorized
        && g.claimId == before.value.claimId && g.latest == before.value.latest && g.scope == before.value.scope)
  }

  lemma WriteFollows(r: Rows, op: Op)
    requires Allows(r, op)
    ensures Write(r, op).registry.Some? ==> Follows(r.registry, Write(r, op).registry.value, op)
  {
  }

  lemma RegistryFollows(t: Tables, op: Op, x: string)
    requires Inv(t) && x in Apply(t, op).registry
    ensures Follows(Get(t.registry, x), Apply(t, op).registry[x], op)
    ensures Get(t.registry, x) != Some(Apply(t, op).registry[x]) ==> x == SerialOf(t, op) && Enabled(t, op)
  {
    if Enabled(t, op) {
      AppliedRows(t, op, x, IdOf(op));
      WriteFollows(RowsAt(t, SerialOf(t, op), IdOf(op)), op);
      assert RowsAt(Apply(t, op), x, IdOf(op)).registry == Some(Apply(t, op).registry[x]);
      hide Inv, Allows, Write, Apply, RowsOk, Follows;
      assert Follows(Get(t.registry, x), Apply(t, op).registry[x], op) by {
        if x != SerialOf(t, op) { Unchanged(Get(t.registry, x), Apply(t, op).registry[x], op); }
      }
    } else {
      Unchanged(Get(t.registry, x), Apply(t, op).registry[x], op);
    }
  }

  lemma Unchanged(before: Option<Registry>, g: Registry, op: Op)
    requires before == Some(g)
    ensures Follows(before, g, op)
  {
  }

  /** Table writes: what claims have reached stays reached. */
  lemma ReachedStays(t: Tables, op: Op, id: string)
    requires Inv(t)
    ensures Past(t, id) ==> Past(Apply(t, op), id)
    ensures Over(t, id) ==> Over(Apply(t, op), id)
  {
    hide Inv, Apply;
    if id in t.claims { ApplyMovesPhase(t, op, id); }
  }

  lemma TablesKeepCertificate(t: Tables, op: Op, iot: Iot, c: string)
    requires Inv(t) && CertificateOk(t, iot, c)
    ensures CertificateOk(Apply(t, op), iot, c)
  {
    if c in iot.owners { ReachedStays(t, op, iot.owners[c]); }
    hide Inv, Apply, Past, Over;
  }

  lemma TablesKeepRegistered(t: Tables, op: Op, iot: Iot, x: string)
    requires Inv(t) && !op.Pin? && !op.Bootstrap? && x in Apply(t, op).registry
    requires x in t.registry ==> RegisteredOk(iot, x, t.registry[x])
    ensures RegisteredOk(iot, x, Apply(t, op).registry[x])
  {
    RegistryFollows(t, op, x);
    hide Inv, Apply;
  }

  lemma ClaimsStayKnown(t: Tables, op: Op, id: string, c: Claim)
    requires Inv(t) && id in t.usedClaims && (id in t.claims ==> SamePerson(t.claims[id], c))
    ensures var u := Apply(t, op);
            id in u.usedClaims && (id in u.claims ==> SamePerson(u.claims[id], c))
  {
    ApplyRemembers(t, op);
    if id in t.claims { ApplyMovesPhase(t, op, id); } else { GoneStaysGone(t, op, id); }
    hide Inv, Apply;
  }

  lemma TablesKeepPin(t: Tables, op: Op, iot: Iot, w: Worker, c: string)
    requires Inv(t) && w.id in t.usedClaims
    ensures StillPinned(t, w, c) ==> StillPinned(Apply(t, op), w, c)
    ensures OnlyPrincipal(t, iot, w, c) ==> OnlyPrincipal(Apply(t, op), iot, w, c)
  {
    var x := w.claim.serial;
    assert op.Register? && Enabled(t, op) ==> op.id != w.id;
    hide Inv, Apply, Enabled;
    if x in Apply(t, op).registry {
      RegistryFollows(t, op, x);
    }
  }

  lemma TablesKeepWorker(t: Tables, op: Op, iot: Iot, w: Worker)
    requires Inv(t) && WorkerOk(t, iot, w)
    ensures WorkerOk(Apply(t, op), iot, w)
  {
    ClaimsStayKnown(t, op, w.id, w.claim);
    ReachedStays(t, op, w.id);
    var c := CertificateOf(w.pc);
    TablesKeepPin(t, op, iot, w, c);
    hide Inv, Apply, Past, Over, OnlyPrincipal, StillPinned;
  }

  /** All but the rows of the registry survive any table write. */
  lemma TablesKeepRest(s: State, op: Op)
    requires Good(s)
    ensures var u := Apply(s.t, op);
            && Inv(u)
            && (forall c :: CertificateOk(u, s.iot, c))
            && (forall k :: k in s.workers ==> WorkerOk(u, s.iot, s.workers[k]))
            && (forall k :: k in s.releases ==> ReleaseOk(u, s.iot, s.releases[k]))
  {
    var u := Apply(s.t, op);
    ApplyKeepsInv(s.t, op);
    forall c ensures CertificateOk(u, s.iot, c) { TablesKeepCertificate(s.t, op, s.iot, c); }
    forall k | k in s.workers ensures WorkerOk(u, s.iot, s.workers[k]) { TablesKeepWorker(s.t, op, s.iot, s.workers[k]); }
    forall k | k in s.releases ensures ReleaseOk(u, s.iot, s.releases[k]) { ReachedStays(s.t, op, s.releases[k].claimId); }
  }

  lemma TablesKeepGood(s: State, op: Op)
    requires Good(s) && !op.Pin? && !op.Bootstrap?
    ensures Good(s.(t := Apply(s.t, op)))
  {
    TablesKeepRest(s, op);
    var u := Apply(s.t, op);
    forall x | x in u.registry ensures RegisteredOk(s.iot, x, u.registry[x]) { TablesKeepRegistered(s.t, op, s.iot, x); }
    hide Inv, Apply, CertificateOk, WorkerOk, ReleaseOk, RegisteredOk;
  }

  /** The binding transaction finds AWS IoT as the worker verified it. */
  lemma BootstrapKeepsRegistered(s: State, w: Worker, c: string, now: int, x: string)
    requires Inv(s.t) && WorkerOk(s.t, s.iot, w) && w.pc == Verified(c)
    requires x in s.t.registry ==> RegisteredOk(s.iot, x, s.t.registry[x])
    requires x in Apply(s.t, Bootstrap(w.id, w.lease, c, now)).registry
    ensures RegisteredOk(s.iot, x, Apply(s.t, Bootstrap(w.id, w.lease, c, now)).registry[x])
  {
    var op := Bootstrap(w.id, w.lease, c, now);
    RegistryFollows(s.t, op, x);
    if Enabled(s.t, op) { BootstrapSerial(s.t, op); }
    hide Inv, Apply, Enabled;
  }

  lemma BootstrapKeepsGood(s: State, k: nat, c: string, now: int)
    requires Good(s) && k in s.workers && s.workers[k].pc == Verified(c)
    ensures Good(s.(t := Apply(s.t, Bootstrap(s.workers[k].id, s.workers[k].lease, c, now))))
  {
    var w := s.workers[k];
    var op := Bootstrap(w.id, w.lease, c, now);
    var u := Apply(s.t, op);
    TablesKeepRest(s, op);
    assert WorkerOk(s.t, s.iot, w);
    hide Inv, Apply, CertificateOk, WorkerOk, ReleaseOk, RegisteredOk;
    forall x | x in u.registry ensures RegisteredOk(s.iot, x, u.registry[x]) {
      BootstrapKeepsRegistered(s, w, c, now, x);
    }
  }

  lemma BootstrapSerial(t: Tables, op: Op)
    requires op.Bootstrap? && Enabled(t, op)
    ensures op.id in t.claims && SerialOf(t, op) == t.claims[op.id].serial
  {
  }

  /** A worker moves on and writes nothing. */
  lemma AtKeepsGood(s: State, k: nat, pc: Pc)
    requires Good(s) && k in s.workers && WorkerOk(s.t, s.iot, s.workers[k].(pc := pc))
    ensures Good(At(s, k, pc))
  {
    hide Inv, CertificateOk, WorkerOk, ReleaseOk, RegisteredOk;
  }

  /** The policies of one registered certificate change, and a runtime policy that a worker counts on stays. */
  lemma PoliciesKeepGood(s: State, c: string, p: set<Policy>)
    requires Good(s) && c in s.iot.owners && p <= {Boot, Runtime}
    requires c !in s.iot.retired ==> p != {} && (Runtime in Attached(s.iot, c) ==> Runtime in p)
    requires Runtime in p ==> Past(s.t, s.iot.owners[c])
    ensures Good(s.(iot := SetPolicies(s.iot, c, p)))
  {
    var iot := SetPolicies(s.iot, c, p);
    hide Inv;
    forall x ensures CertificateOk(s.t, iot, x) { assert CertificateOk(s.t, s.iot, x); hide Past, Over; }
    forall x | x in s.t.registry ensures RegisteredOk(iot, x, s.t.registry[x]) { assert RegisteredOk(s.iot, x, s.t.registry[x]); }
    forall k | k in s.workers ensures WorkerOk(s.t, iot, s.workers[k]) { PoliciesKeepWorker(s, c, p, s.workers[k]); }
    forall k | k in s.releases ensures ReleaseOk(s.t, iot, s.releases[k]) { assert ReleaseOk(s.t, s.iot, s.releases[k]); }
    hide CertificateOk, WorkerOk, ReleaseOk, RegisteredOk;
  }

  lemma PoliciesKeepWorker(s: State, c: string, p: set<Policy>, w: Worker)
    requires WorkerOk(s.t, s.iot, w)
    requires c !in s.iot.retired ==> (Runtime in Attached(s.iot, c) ==> Runtime in p)
    ensures WorkerOk(s.t, SetPolicies(s.iot, c, p), w)
  {
    hide Past, SamePerson;
  }

  lemma TemplateKeepsCertificate(s: State, x: string, serial: string, scope: Scope, id: string, c: string)
    requires CertificateOk(s.t, s.iot, x) && CertificateOk(s.t, s.iot, c) && (c in s.iot.owners ==> s.iot.owners[c] == id)
    ensures CertificateOk(s.t, RunTemplate(s.iot, serial, scope, id, c), x)
  {
    hide Past, Over;
  }

  /** A registration changes nothing that a worker relies on: it pins what was pinned and attaches what was attached. */
  lemma TemplateKeepsWorker(s: State, w: Worker, serial: string, scope: Scope, id: string, c: string)
    requires WorkerOk(s.t, s.iot, w) && (c in s.iot.owners ==> s.iot.owners[c] == id)
    requires serial in s.t.registry && s.t.registry[serial].claimId == Some(id) && s.t.registry[serial].latest == Some(c)
    ensures WorkerOk(s.t, RunTemplate(s.iot, serial, scope, id, c), w)
  {
    hide Past, SamePerson;
  }

  lemma PinShows(t: Tables, op: Op)
    requires Inv(t) && op.Pin? && Enabled(t, op)
    ensures var u := Apply(t, op);
            && op.serial in t.registry && op.serial in u.registry
            && u.registry[op.serial] == t.registry[op.serial].(latest := Some(op.certificate))
            && t.registry[op.serial].status == Reserved && t.registry[op.serial].claimId == Some(op.id)
            && (forall x :: x in u.registry && x != op.serial ==> x in t.registry && u.registry[x] == t.registry[x])
  {
    AppliedRows(t, op, op.serial, op.id);
    assert RowsAt(Apply(t, op), op.serial, op.id).registry == Get(Apply(t, op).registry, op.serial);
  }

  lemma TemplateKeepsRegistered(t: Tables, u: Tables, iot: Iot, x: string, op: Op)
    requires op.Pin? && op.serial in t.registry && x in u.registry && x in t.registry
    requires u.registry[x] == if x == op.serial then t.registry[x].(latest := Some(op.certificate)) else t.registry[x]
    requires RegisteredOk(iot, x, t.registry[x]) && (op.certificate in iot.owners ==> iot.owners[op.certificate] == op.id)
    requires t.registry[op.serial].status == Reserved && t.registry[op.serial].claimId == Some(op.id) && t.registry[op.serial].scope.Some?
    ensures RegisteredOk(RunTemplate(iot, op.serial, t.registry[op.serial].scope.value, op.id, op.certificate), x, u.registry[x])
  {
  }

  lemma EnrolKeepsGood(s: State, serial: string, id: string, nonce: Nonce, c: string, now: int)
    requires Good(s)
    ensures Good(EnrolStep(s, serial, id, nonce, c, now))
  {
    if CanEnrol(s, serial, id, nonce, c, now) {
      var op := Pin(serial, id, nonce, c, now);
      TablesKeepRest(s, op);
      PinShows(s.t, op);
      var mid := s.(t := Apply(s.t, op));
      var scope := s.t.registry[serial].scope.value;
      var iot := RunTemplate(s.iot, serial, scope, id, c);
      hide Inv, Apply, Enabled, CertificateOk, WorkerOk, RegisteredOk, RunTemplate;
      forall x ensures CertificateOk(mid.t, iot, x) {
        TemplateKeepsCertificate(mid, x, serial, scope, id, c);
      }
      forall x | x in mid.t.registry ensures RegisteredOk(iot, x, mid.t.registry[x]) {
        TemplateKeepsRegistered(s.t, mid.t, s.iot, x, op);
      }
      forall k | k in s.workers ensures WorkerOk(mid.t, iot, s.workers[k]) { TemplateKeepsWorker(mid, s.workers[k], serial, scope, id, c); }
      forall k | k in s.releases ensures ReleaseOk(mid.t, iot, s.releases[k]) { TemplateKeepsRelease(mid, s.releases[k], serial, scope, id, c); }
      hide ReleaseOk;
    }
  }

  lemma TemplateKeepsRelease(s: State, d: Bound, serial: string, scope: Scope, id: string, c: string)
    requires ReleaseOk(s.t, s.iot, d) && (c in s.iot.owners ==> s.iot.owners[c] == id)
    ensures ReleaseOk(s.t, RunTemplate(s.iot, serial, scope, id, c), d)
  {
    hide Over;
  }

  /** What is being decommissioned is no longer what a reservation has pinned, nor what a bootstrapped row holds. */
  lemma StrippedIsNotPinned(s: State, d: Bound, x: string)
    requires Good(s) && ReleaseOk(s.t, s.iot, d) && x in s.t.registry
    requires s.t.registry[x].status in {Reserved, Stage.Bootstrapped} && s.t.registry[x].latest.Some?
    ensures s.t.registry[x].latest != Some(d.certificate)
    ensures s.t.registry[x].claimId != Some(d.claimId)
  {
    assert RegisteredOk(s.iot, x, s.t.registry[x]);
    NotOver(s.t, x);
    hide Inv;
  }

  lemma NotOver(t: Tables, x: string)
    requires Inv(t) && x in t.registry && t.registry[x].status in {Reserved, Stage.Bootstrapped} && t.registry[x].claimId.Some?
    ensures !Over(t, t.registry[x].claimId.value)
  {
    var id := t.registry[x].claimId.value;
    assert Known(t, x, id);
    assert RowsOk(RowsAt(t, x, id), x, id);
  }

  lemma StripKeepsCertificate(s: State, d: Bound, p: set<Policy>, disable: bool, detach: bool, delete: bool, c: string)
    requires CertificateOk(s.t, s.iot, c) && ReleaseOk(s.t, s.iot, d)
    ensures CertificateOk(s.t, Stripped(s.iot, d, p, disable, detach, delete), c)
  {
    hide Past, Over;
  }

  lemma StripKeepsRegistered(s: State, d: Bound, p: set<Policy>, disable: bool, detach: bool, delete: bool, x: string)
    requires Good(s) && ReleaseOk(s.t, s.iot, d) && x in s.t.registry
    ensures RegisteredOk(Stripped(s.iot, d, p, disable, detach, delete), x, s.t.registry[x])
  {
    assert RegisteredOk(s.iot, x, s.t.registry[x]);
    if s.t.registry[x].status in {Reserved, Stage.Bootstrapped} && s.t.registry[x].latest.Some? {
      StrippedIsNotPinned(s, d, x);
    }
    hide Good, ReleaseOk;
  }

  lemma StripKeepsWorker(s: State, d: Bound, p: set<Policy>, disable: bool, detach: bool, delete: bool, w: Worker)
    requires Good(s) && ReleaseOk(s.t, s.iot, d) && WorkerOk(s.t, s.iot, w)
    ensures WorkerOk(s.t, Stripped(s.iot, d, p, disable, detach, delete), w)
  {
    var x := w.claim.serial;
    if x in s.t.registry && s.t.registry[x].status == Reserved && s.t.registry[x].latest.Some? {
      StrippedIsNotPinned(s, d, x);
    }
    var c := CertificateOf(w.pc);
    assert c != d.certificate ==> {c} - {d.certificate} == {c} && {c} - {} == {c};
    hide Good, ReleaseOk, Past, SamePerson;
  }

  lemma StripKeepsGood(s: State, d: Bound, p: set<Policy>, disable: bool, detach: bool, delete: bool)
    requires Good(s) && ReleaseOk(s.t, s.iot, d)
    ensures Good(s.(iot := Stripped(s.iot, d, p, disable, detach, delete)))
  {
    var iot := Stripped(s.iot, d, p, disable, detach, delete);
    forall c ensures CertificateOk(s.t, iot, c) { StripKeepsCertificate(s, d, p, disable, detach, delete, c); }
    forall x | x in s.t.registry ensures RegisteredOk(iot, x, s.t.registry[x]) { StripKeepsRegistered(s, d, p, disable, detach, delete, x); }
    forall k | k in s.workers ensures WorkerOk(s.t, iot, s.workers[k]) { StripKeepsWorker(s, d, p, disable, detach, delete, s.workers[k]); }
    assert iot.owners == s.iot.owners;
    forall k | k in s.releases ensures ReleaseOk(s.t, iot, s.releases[k]) { assert ReleaseOk(s.t, s.iot, s.releases[k]); hide Over; }
    hide Inv, CertificateOk, WorkerOk, ReleaseOk, RegisteredOk, Stripped;
  }

  /** A table write of a worker, answered or not. */
  lemma PerformKeepsGood(s: State, k: nat, op: Op, reply: Reply, good: Pc, bad: Pc)
    requires Good(s) && k in s.workers && Good(s.(t := Apply(s.t, op)))
    requires WorkerOk(s.t, s.iot, s.workers[k].(pc := bad))
    requires WorkerOk(Apply(s.t, op), s.iot, s.workers[k].(pc := bad))
    requires Enabled(s.t, op) ==> WorkerOk(Apply(s.t, op), s.iot, s.workers[k].(pc := good))
    ensures Good(Perform(s, k, op, reply, good, bad))
  {
    hide Good, WorkerOk, Apply, Enabled;
    if reply == LostBefore || !Enabled(s.t, op) {
      AtKeepsGood(s, k, bad);
    } else {
      AtKeepsGood(s.(t := Apply(s.t, op)), k, if reply == Answered then good else bad);
    }
  }

  /** The binding transaction, or the resumed one, leaves a claim that durably bound this certificate. */
  lemma StageBears(s: State, k: nat, c: string, now: int)
    requires Good(s) && k in s.workers && s.workers[k].pc == Verified(c)
    requires Enabled(s.t, StageOp(s.t, s.workers[k], c, now))
    ensures Bears(Apply(s.t, StageOp(s.t, s.workers[k], c, now)), s.iot, s.workers[k], c)
  {
    var w := s.workers[k];
    var op := StageOp(s.t, w, c, now);
    assert RegisteredOk(s.iot, w.claim.serial, s.t.registry[w.claim.serial]) by { StageGuards(s.t, s.iot, w, c, now); }
    StageGuards(s.t, s.iot, w, c, now);
    StagedIsPast(s.t, op);
    hide Inv, Apply, Enabled, CertificateOk, WorkerOk, ReleaseOk;
  }

  /** Both transactions check that the registry row names this claim and this certificate. */
  lemma StageGuards(t: Tables, iot: Iot, w: Worker, c: string, now: int)
    requires Inv(t) && WorkerOk(t, iot, w) && Enabled(t, StageOp(t, w, c, now))
    ensures var x := w.claim.serial;
            x in t.registry && t.registry[x].claimId == Some(w.id) && t.registry[x].latest == Some(c)
            && t.registry[x].status in {Reserved, Stage.Bootstrapped}
    ensures w.id in t.claims
  {
    assert w.id in t.claims;
    assert RowsOk(RowsAt(t, w.claim.serial, w.id), w.claim.serial, w.id);
  }

  lemma StagedIsPast(t: Tables, op: Op)
    requires Inv(t) && (op.Bootstrap? || op.ReturnBootstrapped?) && Enabled(t, op)
    ensures Past(Apply(t, op), op.id)
  {
    var x := SerialOf(t, op);
    AppliedRows(t, op, x, op.id);
    var r := RowsAt(t, x, op.id);
    assert Phase(Write(r, op).claim.value) == Status.Bootstrapped;
    assert OwnClaim(Apply(t, op), x, op.id) == Write(r, op).claim;
    hide Inv, Apply, Allows;
  }

  lemma StageKeepsWorker(s: State, k: nat, c: string, now: int)
    requires Good(s) && k in s.workers && s.workers[k].pc == Verified(c)
    ensures var w, op := s.workers[k], StageOp(s.t, s.workers[k], c, now);
            && WorkerOk(s.t, s.iot, w.(pc := Failing)) && WorkerOk(Apply(s.t, op), s.iot, w.(pc := Failing))
            && (Enabled(s.t, op) ==> WorkerOk(Apply(s.t, op), s.iot, w.(pc := Staged(c))))
  {
    var w := s.workers[k];
    var op := StageOp(s.t, w, c, now);
    assert WorkerOk(s.t, s.iot, w);
    TablesKeepWorker(s.t, op, s.iot, w);
    if Enabled(s.t, op) { StageBears(s, k, c, now); }
    hide Good, Apply, Enabled, Bears, OnlyPrincipal, SamePerson, StageOp;
  }

  lemma StageKeepsGood(s: State, k: nat, c: string, now: int, reply: Reply)
    requires Good(s) && k in s.workers && s.workers[k].pc == Verified(c)
    ensures Good(Perform(s, k, StageOp(s.t, s.workers[k], c, now), reply, Staged(c), Failing))
  {
    var op := StageOp(s.t, s.workers[k], c, now);
    StageKeepsWorker(s, k, c, now);
    hide Good, Apply, Enabled, WorkerOk, Perform;
    if op.Bootstrap? { BootstrapKeepsGood(s, k, c, now); } else { TablesKeepGood(s, op); }
    PerformKeepsGood(s, k, op, reply, Staged(c), Failing);
  }

  lemma EndsAreOk(s: State, k: nat, op: Op)
    requires Good(s) && k in s.workers
    ensures WorkerOk(s.t, s.iot, s.workers[k].(pc := Failed))
    ensures WorkerOk(Apply(s.t, op), s.iot, s.workers[k].(pc := Failed)) && WorkerOk(Apply(s.t, op), s.iot, s.workers[k].(pc := Finished))
  {
    assert WorkerOk(s.t, s.iot, s.workers[k]);
    TablesKeepWorker(s.t, op, s.iot, s.workers[k]);
    hide Good, Apply, Enabled, Bears, OnlyPrincipal, SamePerson, StillPinned;
  }

  lemma OtherWriteKeepsGood(s: State, k: nat, op: Op, reply: Reply, good: Pc)
    requires Good(s) && k in s.workers && (op.Authorize? || op.ReleaseLease?) && (good == Finished || good == Failed)
    ensures Good(Perform(s, k, op, reply, good, Failed))
  {
    EndsAreOk(s, k, op);
    TablesKeepGood(s, op);
    hide Good, Apply, Enabled, WorkerOk, Perform;
    PerformKeepsGood(s, k, op, reply, good, Failed);
  }

  /** The checks leave the worker with what it has seen. */
  lemma CheckedIsTrue(s: State, w: Worker)
    requires Good(s) && WorkerOk(s.t, s.iot, w)
    requires w.pc.Leased? || w.pc.CheckThing? || w.pc.CheckPrincipals? || w.pc.CheckCertificate? || w.pc.CheckPolicies?
    ensures WorkerOk(s.t, s.iot, w.(pc := Checked(s, w)))
  {
    hide Inv, Past, SamePerson, Good;
  }

  /** The runtime policy goes on before the bootstrap policy comes off. */
  lemma AttachKeepsGood(s: State, k: nat, c: string, pc: Pc)
    requires Good(s) && k in s.workers && s.workers[k].pc.Attaching? && s.workers[k].pc.certificate == c
    requires pc == Failed || pc == Detaching(c, s.workers[k].pc.seen)
    ensures Good(At(s.(iot := SetPolicies(s.iot, c, Attached(s.iot, c) + {Runtime})), k, pc))
  {
    var w := s.workers[k];
    var p := Attached(s.iot, c) + {Runtime};
    assert WorkerOk(s.t, s.iot, w) && CertificateOk(s.t, s.iot, c);
    PoliciesKeepGood(s, c, p);
    hide Good, Past, SamePerson;
    AtKeepsGood(s.(iot := SetPolicies(s.iot, c, p)), k, pc);
  }

  lemma DetachKeepsGood(s: State, k: nat, c: string, pc: Pc)
    requires Good(s) && k in s.workers && s.workers[k].pc.Detaching? && s.workers[k].pc.certificate == c
    requires pc == Failed || pc == Confirming(c)
    ensures Good(At(s.(iot := SetPolicies(s.iot, c, Attached(s.iot, c) - {Boot})), k, pc))
  {
    var w := s.workers[k];
    var p := Attached(s.iot, c) - {Boot};
    assert WorkerOk(s.t, s.iot, w) && CertificateOk(s.t, s.iot, c);
    assert c !in s.iot.retired ==> Runtime in p;
    PoliciesKeepGood(s, c, p);
    hide Good, Past, SamePerson;
    AtKeepsGood(s.(iot := SetPolicies(s.iot, c, p)), k, pc);
  }

  lemma AttachingKeepsGood(s: State, k: nat, now: int, reply: Reply)
    requires Good(s) && k in s.workers && s.workers[k].pc.Attaching?
    ensures Good(WorkStep(s, k, now, reply))
  {
    var w := s.workers[k];
    assert WorkerOk(s.t, s.iot, w);
    hide Good, Past, SamePerson, SetPolicies;
    if Runtime in w.pc.seen {
      AtKeepsGood(s, k, Detaching(w.pc.certificate, w.pc.seen));
    } else if reply == LostBefore {
      AtKeepsGood(s, k, Failed);
    } else {
      AttachKeepsGood(s, k, w.pc.certificate, if reply == Answered then Detaching(w.pc.certificate, w.pc.seen) else Failed);
    }
  }

  lemma DetachingKeepsGood(s: State, k: nat, now: int, reply: Reply)
    requires Good(s) && k in s.workers && s.workers[k].pc.Detaching?
    ensures Good(WorkStep(s, k, now, reply))
  {
    var w := s.workers[k];
    assert WorkerOk(s.t, s.iot, w);
    hide Good, Past, SamePerson, SetPolicies;
    if Boot !in w.pc.seen {
      AtKeepsGood(s, k, Confirming(w.pc.certificate));
    } else if reply == LostBefore {
      AtKeepsGood(s, k, Failed);
    } else {
      DetachKeepsGood(s, k, w.pc.certificate, if reply == Answered then Confirming(w.pc.certificate) else Failed);
    }
  }

  predicate IsChecking(pc: Pc) {
    pc.Leased? || pc.CheckThing? || pc.CheckPrincipals? || pc.CheckCertificate? || pc.CheckPolicies?
  }

  /** The steps that only read. */
  lemma ReadKeepsGood(s: State, k: nat, now: int, reply: Reply)
    requires Good(s) && k in s.workers && (s.workers[k].pc.Staged? || s.workers[k].pc.Confirming? || IsChecking(s.workers[k].pc))
    ensures Good(WorkStep(s, k, now, reply))
  {
    var w := s.workers[k];
    assert WorkerOk(s.t, s.iot, w);
    if IsChecking(w.pc) { CheckedIsTrue(s, w); }
    hide Good, Past, SamePerson, OnlyPrincipal, StillPinned, Checked;
    AtKeepsGood(s, k, WorkStep(s, k, now, reply).workers[k].pc);
  }

  lemma WorkKeepsGood(s: State, k: nat, now: int, reply: Reply)
    requires Good(s) && k in s.workers
    ensures Good(WorkStep(s, k, now, reply))
  {
    var w := s.workers[k];
    assert WorkerOk(s.t, s.iot, w);
    hide Good, Past, SamePerson, Perform, SetPolicies, Checked, StageOp, OnlyPrincipal, StillPinned;
    if w.pc.Attaching? {
      AttachingKeepsGood(s, k, now, reply);
    } else if w.pc.Detaching? {
      DetachingKeepsGood(s, k, now, reply);
    } else if w.pc.Staged? || w.pc.Confirming? || IsChecking(w.pc) {
      ReadKeepsGood(s, k, now, reply);
    } else if w.pc.Verified? {
      StageKeepsGood(s, k, w.pc.certificate, now, reply);
    } else if w.pc.Confirmed? {
      if Completed(s.t, w.id) { AtKeepsGood(s, k, if reply == Answered then Finished else Failed); }
      else { OtherWriteKeepsGood(s, k, Authorize(w.id, w.pc.certificate), reply, Finished); }
    } else if w.pc.Failing? {
      OtherWriteKeepsGood(s, k, ReleaseLease(w.id, w.lease), reply, Failed);
    }
  }

  lemma NewWorkerIsOk(s: State, k: nat, w: Worker)
    requires Good(s) && k !in s.workers && w.id in s.t.claims && w.claim == s.t.claims[w.id] && w.pc == Leased
    ensures Good(s.(workers := s.workers[k := w]))
  {
    assert WorkerOk(s.t, s.iot, w);
    hide CertificateOk, ReleaseOk, RegisteredOk, WorkerOk;
  }

  lemma IsLeasing(t: Tables, id: string, lease: string, now: int, until: int)
    ensures var op := LeaseOp(t, id, lease, now, until); op.StartLease? || op.TakeLease?
  {
  }

  lemma AcquireKeepsGood(s: State, k: nat, id: string, lease: string, now: int, until: int, answered: bool)
    requires Good(s)
    ensures Good(AcquireStep(s, k, id, lease, now, until, answered))
  {
    var op := LeaseOp(s.t, id, lease, now, until);
    hide Good, Apply, Enabled, LeaseOp;
    assert !op.Pin? && !op.Bootstrap? by { IsLeasing(s.t, id, lease, now, until); }
    TablesKeepGood(s, op);
    var u := Apply(s.t, op);
    if id in u.claims && k !in s.workers {
      NewWorkerIsOk(s.(t := u), k, Worker(id, lease, u.claims[id], Leased));
    }
  }

  /** A device that may be released was authorized for the claim that registered its certificate. */
  lemma ReleasableIsOver(s: State, serial: string)
    requires Good(s) && Releasable(s.t, serial)
    ensures ReleaseOk(s.t, s.iot, s.t.devices[Thing(serial)])
  {
    assert RowsOk(RowsAt(s.t, serial, ""), serial, "");
    GoodIsCoupled(s.t, serial);
    assert RegisteredOk(s.iot, serial, s.t.registry[serial]);
    hide Inv, RowsOk, CertificateOk, WorkerOk;
  }

  lemma NextKeepsGood(s: State, e: Event)
    requires Good(s)
    ensures Good(Finalize.Next(s, e))
  {
    hide Inv, Apply, CertificateOk, WorkerOk, RegisteredOk, WorkStep, Stripped, EnrolStep, AcquireStep, ReleaseOk, Releasable;
    match e
    case Ambient(op) => if IsAmbient(op) { TablesKeepGood(s, op); }
    case Enrol(serial, id, nonce, c, now) => EnrolKeepsGood(s, serial, id, nonce, c, now);
    case Acquire(k, id, lease, now, until, answered) => AcquireKeepsGood(s, k, id, lease, now, until, answered);
    case Work(k, now, reply) => if k in s.workers { WorkKeepsGood(s, k, now, reply); }
    case StartRelease(k, serial) => if k !in s.releases && Releasable(s.t, serial) { ReleasableIsOver(s, serial); }
    case Strip(k, p, disable, detach, delete) => if k in s.releases { StripKeepsGood(s, s.releases[k], p, disable, detach, delete); }
    case FinishRelease(k, id) => if k in s.releases { TablesKeepGood(s, Release(s.releases[k], id)); }
  }

  lemma {:induction false} RunKeepsGood(events: seq<Event>)
    ensures Good(Finalize.Run(Finalize.START, events))
  {
    if events == [] {
      EmptyIsGood();
    } else {
      RunKeepsGood(events[..|events| - 1]);
      NextKeepsGood(Finalize.Run(Finalize.START, events[..|events| - 1]), events[|events| - 1]);
    }
  }

  lemma ReachableIsGood(s: State)
    requires Finalize.Reachable(s)
    ensures Good(s)
  {
    var events :| s == Finalize.Run(Finalize.START, events);
    RunKeepsGood(events);
  }

  /** Under any interleaving a registered certificate is never without the bootstrap and the runtime policy, until a
      decommissioning begins; and it has nothing else. */
  lemma NeverWithoutPolicy(s: State, c: string)
    requires Finalize.Reachable(s) && c in s.iot.owners
    ensures Attached(s.iot, c) <= {Boot, Runtime}
    ensures c !in s.iot.retired ==> Boot in Attached(s.iot, c) || Runtime in Attached(s.iot, c)
  {
    ReachableIsGood(s);
    assert CertificateOk(s.t, s.iot, c);
  }

  /** A certificate with the runtime policy was registered for a claim whose durable phase reached BOOTSTRAPPED; and
      only an authorized claim's certificate is ever decommissioned. */
  lemma RuntimeOnlyAfterBootstrap(s: State, c: string)
    requires Finalize.Reachable(s)
    ensures Runtime in Attached(s.iot, c) ==>
              && c in s.iot.owners && s.iot.owners[c] in s.t.claims
              && Phase(s.t.claims[s.iot.owners[c]]) in {Status.Bootstrapped, Status.RuntimeAuthorized, Online, Status.Revoked}
    ensures c in s.iot.retired ==>
              && c in s.iot.owners && s.iot.owners[c] in s.t.claims
              && Phase(s.t.claims[s.iot.owners[c]]) in {Status.RuntimeAuthorized, Online, Status.Revoked}
  {
    ReachableIsGood(s);
    assert CertificateOk(s.t, s.iot, c);
    if c in s.iot.owners && s.iot.owners[c] in s.t.claims {
      var id := s.iot.owners[c];
      assert RowsOk(RowsAt(s.t, s.t.claims[id].serial, id), s.t.claims[id].serial, id);
    }
  }

  /** The tables of every run are coupled. */
  lemma MachineIsCoupled(s: State, x: string)
    requires Finalize.Reachable(s) && x in s.t.registry
    ensures CoupledAt(s.t, x)
  {
    ReachableIsGood(s);
    GoodIsCoupled(s.t, x);
  }

  /** A live device's certificate was registered for exactly that device's claim, and that claim is not revoked; so the
      certificate of a released device never comes back to life. */
  lemma LiveCertificateIsItsClaims(s: State, x: string)
    requires Finalize.Reachable(s) && LiveDevice(s.t, x)
    ensures var d := s.t.devices[Thing(x)];
            && d.certificate in s.iot.owners && s.iot.owners[d.certificate] == d.claimId
            && d.claimId in s.t.claims && Late(s.t.claims[d.claimId])
  {
    ReachableIsGood(s);
    LiveIsLate(s, x);
  }

  lemma LiveIsLate(s: State, x: string)
    requires Good(s) && LiveDevice(s.t, x)
    ensures var d := s.t.devices[Thing(x)];
            && d.certificate in s.iot.owners && s.iot.owners[d.certificate] == d.claimId
            && d.claimId in s.t.claims && Late(s.t.claims[d.claimId])
  {
    assert RowsOk(RowsAt(s.t, x, ""), x, "");
    GoodIsCoupled(s.t, x);
    assert RegisteredOk(s.iot, x, s.t.registry[x]);
    hide Inv, RowsOk, CertificateOk, WorkerOk;
  }

  /** The certificate that the hook pinned first stays the pinned one for as long as the row is about that claim. */
  lemma {:induction false} FirstCertificateStays(t: Tables, ops: seq<Op>, x: string, id: string, c: string)
    requires Inv(t) && x in t.registry && t.registry[x].claimId == Some(id) && t.registry[x].latest == Some(c)
    ensures var u := Claims.Run(t, ops);
            id in u.usedClaims && (x in u.registry && u.registry[x].claimId == Some(id) ==> u.registry[x].latest == Some(c))
  {
    if ops == [] {
      assert Known(t, x, id);
    } else {
      var prefix, op := ops[..|ops| - 1], ops[|ops| - 1];
      FirstCertificateStays(t, prefix, x, id, c);
      RunKeepsInv(t, prefix);
      var u := Claims.Run(t, prefix);
      PinStaysOnce(u, op, x, id, c);
      hide Inv, Apply;
    }
  }

  lemma PinStaysOnce(t: Tables, op: Op, x: string, id: string, c: string)
    requires Inv(t) && id in t.usedClaims && (x in t.registry && t.registry[x].claimId == Some(id) ==> t.registry[x].latest == Some(c))
    ensures var u := Apply(t, op);
            id in u.usedClaims && (x in u.registry && u.registry[x].claimId == Some(id) ==> u.registry[x].latest == Some(c))
  {
    ApplyRemembers(t, op);
    assert op.Register? && Enabled(t, op) ==> op.id != id;
    hide Inv, Apply, Enabled;
    if x in Apply(t, op).registry { RegistryFollows(t, op, x); }
  }
}

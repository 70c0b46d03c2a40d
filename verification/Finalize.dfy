/** Finalize workers, fleet registrations and releases against the claim tables and AWS IoT. Workers race, crash, lose
    answers, take over leases and resume. */
module Finalize {
  import opened Common
  import opened Device
  import opened Claims

  /** The policies that matter here; `Foreign` stands for any other. */
  datatype Policy = Boot | Runtime | Foreign

  /** A Thing of the managed type. The template sets its attributes on every registration. */
  datatype ThingInfo = ThingInfo(tenant: string, pool: string, principals: set<string>)

  /** `owners` and `retired` are history: the claim a certificate was registered for, and the certificates that a
      decommissioning has begun to strip. */
  datatype Iot = Iot(things: map<string, ThingInfo>, policies: map<string, set<Policy>>, active: set<string>,
                     owners: map<string, string>, retired: set<string>)

  /** Where a finalize worker is. The four checks are the reads of `verifyBootstrap` after its registry read; `seen` are
      the policies that `authorizeRuntime` listed. */
  datatype Pc =
    | Leased
    | CheckThing(certificate: string, reserved: bool)
    | CheckPrincipals(certificate: string, reserved: bool)
    | CheckCertificate(certificate: string, reserved: bool)
    | CheckPolicies(certificate: string, reserved: bool)
    | Verified(certificate: string)
    | Staged(certificate: string)
    | Attaching(certificate: string, seen: set<Policy>)
    | Detaching(certificate: string, seen: set<Policy>)
    | Confirming(certificate: string)
    | Confirmed(certificate: string)
    | Finished
    | Failing
    | Failed

  function CertificateOf(pc: Pc): string {
    if pc.Leased? || pc.Finished? || pc.Failing? || pc.Failed? then "" else pc.certificate
  }

  datatype Worker = Worker(id: string, lease: string, claim: Claim, pc: Pc)

  datatype State = State(t: Tables, iot: Iot, workers: map<nat, Worker>, releases: map<nat, Bound>)

  /** How a remote write ends for the worker: answered, or an error before or after it took effect. */
  datatype Reply = Answered | LostBefore | LostAfter

  datatype Event =
    | Ambient(op: Op)
    | Enrol(serial: string, id: string, nonce: Nonce, certificate: string, now: int)
    | Acquire(worker: nat, id: string, lease: string, now: int, until: int, answered: bool)
    | Work(worker: nat, now: int, reply: Reply)
    | StartRelease(release: nat, serial: string)
    | Strip(release: nat, policies: set<Policy>, disable: bool, detach: bool, delete: bool)
    | FinishRelease(release: nat, id: string)

  /** What neither a worker, nor a registration, nor a release does. */
  predicate IsAmbient(op: Op) {
    op.Issue? || op.Register? || op.MarkReissue? || op.Expire? || op.GoOnline? || op.DropClaim? || op.DropLock?
  }

  function Attached(iot: Iot, c: string): set<Policy> { if c in iot.policies then iot.policies[c] else {} }

  function SetPolicies(iot: Iot, c: string, p: set<Policy>): Iot { iot.(policies := iot.policies[c := p]) }

  /** The hook pins the certificate, and the template then runs: one RegisterThing request. A certificate is only ever
      registered for one claim. */
  predicate CanEnrol(s: State, serial: string, id: string, nonce: Nonce, certificate: string, now: int) {
    && Enabled(s.t, Pin(serial, id, nonce, certificate, now))
    && serial in s.t.registry && s.t.registry[serial].scope.Some?
    && (certificate in s.iot.owners ==> s.iot.owners[certificate] == id)
  }

  function RunTemplate(iot: Iot, serial: string, scope: Scope, id: string, certificate: string): Iot {
    var held := if serial in iot.things then iot.things[serial].principals else {};
    iot.(things := iot.things[serial := ThingInfo(scope.tenant, scope.pool, held + {certificate})],
         policies := iot.policies[certificate := Attached(iot, certificate) + {Boot}],
         active := iot.active + {certificate}, owners := iot.owners[certificate := id])
  }

  function EnrolStep(s: State, serial: string, id: string, nonce: Nonce, certificate: string, now: int): State {
    if !CanEnrol(s, serial, id, nonce, certificate, now) then s
    else s.(t := Apply(s.t, Pin(serial, id, nonce, certificate, now)),
            iot := RunTemplate(s.iot, serial, s.t.registry[serial].scope.value, id, certificate))
  }

  /** First the start of a lease, then the takeover of an expired one. */
  function LeaseOp(t: Tables, id: string, lease: string, now: int, until: int): Op {
    if Enabled(t, StartLease(id, lease, now, until)) then StartLease(id, lease, now, until) else TakeLease(id, lease, now, until)
  }

  function AcquireStep(s: State, k: nat, id: string, lease: string, now: int, until: int, answered: bool): State {
    var op := LeaseOp(s.t, id, lease, now, until);
    if k in s.workers || !Enabled(s.t, op) || id !in s.t.claims then s
    else
      var t := Apply(s.t, op);
      if answered && id in t.claims then s.(t := t, workers := s.workers[k := Worker(id, lease, t.claims[id], Leased)]) else s.(t := t)
  }

  function At(s: State, k: nat, pc: Pc): State
    requires k in s.workers
  {
    s.(workers := s.workers[k := s.workers[k].(pc := pc)])
  }

  /** The registry check of `verifyBootstrap`. */
  predicate RegistryMatches(t: Tables, w: Worker) {
    && w.claim.serial in t.registry
    && var g := t.registry[w.claim.serial];
    && (g.status == Reserved || g.status == Stage.Bootstrapped)
    && g.claimId == Some(w.id) && g.scope == Some(w.claim.scope) && g.nonce == Some(w.claim.nonce)
  }

  predicate ThingMatches(iot: Iot, c: Claim) {
    c.serial in iot.things && iot.things[c.serial].tenant == c.scope.tenant && iot.things[c.serial].pool == c.scope.pool
  }

  /** `assertTransitionPolicies`: nothing but the two policies, and at least one of them. */
  predicate InTransition(p: set<Policy>) { p <= {Boot, Runtime} && p != {} }

  function Checked(s: State, w: Worker): Pc
    requires w.pc.Leased? || w.pc.CheckThing? || w.pc.CheckPrincipals? || w.pc.CheckCertificate? || w.pc.CheckPolicies?
  {
    match w.pc
    case Leased =>
      if RegistryMatches(s.t, w) && s.t.registry[w.claim.serial].latest.Some?
      then CheckThing(s.t.registry[w.claim.serial].latest.value, s.t.registry[w.claim.serial].status == Reserved) else Failing
    case CheckThing(c, reserved) => if ThingMatches(s.iot, w.claim) then CheckPrincipals(c, reserved) else Failing
    case CheckPrincipals(c, reserved) =>
      if w.claim.serial in s.iot.things && s.iot.things[w.claim.serial].principals == {c} then CheckCertificate(c, reserved) else Failing
    case CheckCertificate(c, reserved) => if c in s.iot.active then CheckPolicies(c, reserved) else Failing
    case CheckPolicies(c, reserved) =>
      if InTransition(Attached(s.iot, c)) && (reserved ==> Attached(s.iot, c) == {Boot}) then Verified(c) else Failing
  }

  /** `bootstrapClaim`: the binding transaction, or the resumed one. */
  function StageOp(t: Tables, w: Worker, certificate: string, now: int): Op {
    if w.id in t.claims && t.claims[w.id].resume == Some(Status.Bootstrapped) then ReturnBootstrapped(w.id, w.lease, certificate)
    else Bootstrap(w.id, w.lease, certificate, now)
  }

  function Perform(s: State, k: nat, op: Op, reply: Reply, good: Pc, bad: Pc): State
    requires k in s.workers
  {
    if reply == LostBefore || !Enabled(s.t, op) then At(s, k, bad)
    else At(s.(t := Apply(s.t, op)), k, if reply == Answered then good else bad)
  }

  /** Another worker may have authorized the claim already. */
  predicate Completed(t: Tables, id: string) {
    id in t.claims && t.claims[id].status in {Status.RuntimeAuthorized, Online}
  }

  function WorkStep(s: State, k: nat, now: int, reply: Reply): State
    requires k in s.workers
  {
    var w := s.workers[k];
    match w.pc
    case Verified(c) => Perform(s, k, StageOp(s.t, w, c, now), reply, Staged(c), Failing)
    case Staged(c) => At(s, k, if reply == Answered && InTransition(Attached(s.iot, c)) then Attaching(c, Attached(s.iot, c)) else Failed)
    case Attaching(c, seen) =>
      if Runtime in seen then At(s, k, Detaching(c, seen))
      else if reply == LostBefore then At(s, k, Failed)
      else At(s.(iot := SetPolicies(s.iot, c, Attached(s.iot, c) + {Runtime})), k, if reply == Answered then Detaching(c, seen) else Failed)
    case Detaching(c, seen) =>
      if Boot !in seen then At(s, k, Confirming(c))
      else if reply == LostBefore then At(s, k, Failed)
      else At(s.(iot := SetPolicies(s.iot, c, Attached(s.iot, c) - {Boot})), k, if reply == Answered then Confirming(c) else Failed)
    case Confirming(c) => At(s, k, if reply == Answered && Attached(s.iot, c) == {Runtime} then Confirmed(c) else Failed)
    case Confirmed(c) =>
      if Completed(s.t, w.id) then At(s, k, if reply == Answered then Finished else Failed)
      else Perform(s, k, Authorize(w.id, c), reply, Finished, Failed)
    case Failing => Perform(s, k, ReleaseLease(w.id, w.lease), reply, Failed, Failed)
    case Finished => s
    case Failed => s
    case _ => At(s, k, if reply == Answered then Checked(s, w) else Failing)
  }

  predicate Releasable(t: Tables, serial: string) {
    Thing(serial) in t.devices && t.devices[Thing(serial)].lifecycle in {Lifecycle.RuntimeAuthorized, Lifecycle.Active}
  }

  /** Part of `decommission`, in any portion and any order. A Thing is deleted only when no principal is left. */
  function Stripped(iot: Iot, d: Bound, policies: set<Policy>, disable: bool, detach: bool, delete: bool): Iot {
    var c := d.certificate;
    var s := d.serial;
    var less := iot.(policies := iot.policies[c := Attached(iot, c) - policies],
                     active := if disable then iot.active - {c} else iot.active, retired := iot.retired + {c});
    if s !in iot.things then less
    else
      var left := iot.things[s].principals - (if detach then {c} else {});
      less.(things := if delete && left == {} then iot.things - {s} else iot.things[s := iot.things[s].(principals := left)])
  }

  function Next(s: State, e: Event): State {
    match e
    case Ambient(op) => if IsAmbient(op) then s.(t := Apply(s.t, op)) else s
    case Enrol(serial, id, nonce, certificate, now) => EnrolStep(s, serial, id, nonce, certificate, now)
    case Acquire(k, id, lease, now, until, answered) => AcquireStep(s, k, id, lease, now, until, answered)
    case Work(k, now, reply) => if k in s.workers then WorkStep(s, k, now, reply) else s
    case StartRelease(k, serial) =>
      if k in s.releases || !Releasable(s.t, serial) then s else s.(releases := s.releases[k := s.t.devices[Thing(serial)]])
    case Strip(k, policies, disable, detach, delete) =>
      if k in s.releases then s.(iot := Stripped(s.iot, s.releases[k], policies, disable, detach, delete)) else s
    case FinishRelease(k, id) => if k in s.releases then s.(t := Apply(s.t, Release(s.releases[k], id))) else s
  }

  function Run(s: State, events: seq<Event>): State {
    if events == [] then s else Next(Run(s, events[..|events| - 1]), events[|events| - 1])
  }

  const START := State(EMPTY, Iot(map[], map[], {}, map[], {}), map[], map[])

  ghost predicate Reachable(s: State) { exists events :: s == Run(START, events) }

  /** The claim durably bound a device. */
  predicate Past(t: Tables, id: string) { id in t.claims && !Early(t.claims[id]) }

  /** The claim was runtime-authorized. */
  predicate Over(t: Tables, id: string) {
    id in t.claims && Phase(t.claims[id]) in {Status.RuntimeAuthorized, Online, Status.Revoked}
  }

  /** A registered certificate has only the two policies; it has one of them unless a decommissioning began; the runtime
      policy came after the durable bootstrap, and a decommissioning after the authorization. */
  predicate CertificateOk(t: Tables, iot: Iot, c: string) {
    && (c in iot.owners <==> c in iot.policies)
    && Attached(iot, c) <= {Boot, Runtime}
    && (c in iot.owners && c !in iot.retired ==> Attached(iot, c) != {})
    && (Runtime in Attached(iot, c) ==> c in iot.owners && Past(t, iot.owners[c]))
    && (c in iot.retired ==> c in iot.owners && Over(t, iot.owners[c]))
  }

  /** While a serial is reserved with a pinned certificate, or bootstrapped, AWS IoT matches its registry row. */
  predicate RegisteredOk(iot: Iot, s: string, g: Registry) {
    && (g.status == Available ==> g.latest.None?)
    && (g.latest.Some? && g.status != Available && g.status != ReissueRequired ==>
          g.claimId.Some? && g.latest.value in iot.owners && iot.owners[g.latest.value] == g.claimId.value)
    && (g.latest.Some? && g.status in {Reserved, Stage.Bootstrapped} ==> ThingFits(iot, s, g))
    && (g.status == Stage.Bootstrapped ==> g.latest.Some? && s in iot.things && iot.things[s].principals == {g.latest.value})
  }

  predicate ThingFits(iot: Iot, s: string, g: Registry) {
    && g.latest.Some? && g.scope.Some? && s in iot.things
    && iot.things[s].tenant == g.scope.value.tenant && iot.things[s].pool == g.scope.value.pool
    && g.latest.value in iot.things[s].principals && g.latest.value in iot.active
  }

  /** As long as the registry row is still about the worker's claim, its pinned certificate is the one the worker read. */
  predicate StillPinned(t: Tables, w: Worker, c: string) {
    var s := w.claim.serial;
    s in t.registry && t.registry[s].claimId == Some(w.id) ==> t.registry[s].latest == Some(c)
  }

  /** And while it is only reserved, that certificate is the only principal. */
  predicate OnlyPrincipal(t: Tables, iot: Iot, w: Worker, c: string) {
    var s := w.claim.serial;
    && StillPinned(t, w, c)
    && (s in t.registry && t.registry[s].claimId == Some(w.id) && t.registry[s].status == Reserved ==>
          s in iot.things && iot.things[s].principals == {c})
  }

  predicate Bears(t: Tables, iot: Iot, w: Worker, c: string) {
    c in iot.owners && iot.owners[c] == w.id && Past(t, w.id)
  }

  predicate WorkerOk(t: Tables, iot: Iot, w: Worker) {
    && w.id in t.usedClaims
    && (w.id in t.claims ==> SamePerson(t.claims[w.id], w.claim))
    && (match w.pc
        case CheckThing(c, _) => StillPinned(t, w, c)
        case CheckPrincipals(c, _) => StillPinned(t, w, c)
        case CheckCertificate(c, _) => OnlyPrincipal(t, iot, w, c)
        case CheckPolicies(c, _) => OnlyPrincipal(t, iot, w, c)
        case Verified(c) => OnlyPrincipal(t, iot, w, c)
        case Staged(c) => Bears(t, iot, w, c)
        case Attaching(c, _) => Bears(t, iot, w, c) && (Runtime in w.pc.seen && c !in iot.retired ==> Runtime in Attached(iot, c))
        case Detaching(c, _) => Bears(t, iot, w, c) && (c !in iot.retired ==> Runtime in Attached(iot, c))
        case Confirming(c) => Bears(t, iot, w, c)
        case Confirmed(c) => Bears(t, iot, w, c)
        case _ => true)
  }

  predicate ReleaseOk(t: Tables, iot: Iot, d: Bound) {
    d.certificate in iot.owners && iot.owners[d.certificate] == d.claimId && Over(t, d.claimId)
  }

  ghost predicate Good(s: State) {
    && Inv(s.t)
    && (forall c :: CertificateOk(s.t, s.iot, c))
    && (forall x :: x in s.t.registry ==> RegisteredOk(s.iot, x, s.t.registry[x]))
    && (forall k :: k in s.workers ==> WorkerOk(s.t, s.iot, s.workers[k]))
    && (forall k :: k in s.releases ==> ReleaseOk(s.t, s.iot, s.releases[k]))
  }
}

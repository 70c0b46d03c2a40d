/** The four rows of a serial: Claim, serial lock, Device and manufacturing Registry. Every write to them is one
    conditional transaction; its conditions are the guards here. Each takes its clock value and its ids from the
    caller, so any interleaving of any workers is a sequence of these operations. */
module Claims {
  import opened Common
  import opened Device

  datatype Scope = Scope(owner: string, tenant: string, pool: string)

  /** The name of an IoT Thing is a fixed prefix and the serial. */
  datatype Thing = Thing(serial: string)

  /** Three domain-separated digests, taken to be injective. */
  datatype CodeHash = CodeHash(serial: string, code: string)
  datatype Nonce = Nonce(scope: Scope, serial: string, code: string)
  datatype Proof = Proof(scope: Scope, serial: string, code: string)

  datatype Status = Pending | Provisioning | Bootstrapped | RuntimeAuthorized | Online | Expired | Revoked

  /** `expiresAt` is what TTL deletes by; binding a device moves it to `claimExpiresAt`. */
  datatype Claim = Claim(serial: string, scope: Scope, nonce: Nonce, status: Status, resume: Option<Status>,
                         leaseId: Option<string>, leaseExpiresAt: Option<int>,
                         expiresAt: Option<int>, claimExpiresAt: Option<int>, thing: Option<Thing>)

  datatype Lock = Lock(claimId: string, expiresAt: Option<int>, thing: Option<Thing>, certificate: Option<string>)

  /** The binding part of a Device row; its key is the Thing name. */
  datatype Bound = Bound(claimId: string, scope: Scope, serial: string, certificate: string, lifecycle: Lifecycle)

  datatype Stage = Available | Reserved | Bootstrapped | RuntimeAuthorized | ReissueRequired

  datatype Registry = Registry(status: Stage, code: Option<CodeHash>, claimId: Option<string>, scope: Option<Scope>,
                               nonce: Option<Nonce>, proof: Option<Proof>, reservationExpiresAt: Option<int>,
                               latest: Option<string>, thing: Option<Thing>, certificate: Option<string>)

  /** `usedClaims`, `usedLeases` and `usedCodes` are history: ids are drawn fresh. */
  datatype Tables = Tables(claims: map<string, Claim>, locks: map<string, Lock>, devices: map<Thing, Bound>,
                           registry: map<string, Registry>,
                           usedClaims: set<string>, usedLeases: set<string>, usedCodes: set<CodeHash>)

  const EMPTY := Tables(map[], map[], map[], map[], {}, {}, {})

  /** The rows that one operation reads and writes. */
  datatype Rows = Rows(claim: Option<Claim>, lock: Option<Lock>, device: Option<Bound>, registry: Option<Registry>)

  datatype Op =
    | Issue(serial: string, code: string)
    | Register(id: string, serial: string, scope: Scope, code: string, until: int, now: int)
    | MarkReissue(serial: string, proof: Proof, until: int, now: int)
    | Pin(serial: string, id: string, nonce: Nonce, certificate: string, now: int)
    | Expire(id: string, now: int)
    | StartLease(id: string, lease: string, now: int, until: int)
    | TakeLease(id: string, lease: string, now: int, until: int)
    | ReleaseLease(id: string, lease: string)
    | Bootstrap(id: string, lease: string, certificate: string, now: int)
    | ReturnBootstrapped(id: string, lease: string, certificate: string)
    | Authorize(id: string, certificate: string)
    | GoOnline(id: string)
    | Release(device: Bound, id: string)
    | DropClaim(id: string)
    | DropLock(serial: string)

  function Get<K, V>(m: map<K, V>, k: K): Option<V> { if k in m then Some(m[k]) else None }

  function Put<K, V>(m: map<K, V>, k: K, v: Option<V>): map<K, V> { if v.Some? then m[k := v.value] else m - {k} }

  function OwnClaim(t: Tables, s: string, id: string): Option<Claim> {
    if id in t.claims && t.claims[id].serial == s then Some(t.claims[id]) else None
  }

  function RowsAt(t: Tables, s: string, id: string): Rows {
    Rows(OwnClaim(t, s, id), Get(t.locks, s), Get(t.devices, Thing(s)), Get(t.registry, s))
  }

  function SerialOf(t: Tables, op: Op): string {
    match op
    case Issue(s, _) => s
    case Register(_, s, _, _, _, _) => s
    case MarkReissue(s, _, _, _) => s
    case Pin(s, _, _, _, _) => s
    case Release(d, _) => d.serial
    case DropLock(s) => s
    case _ => if op.id in t.claims then t.claims[op.id].serial else ""
  }

  function IdOf(op: Op): string {
    match op
    case Issue(_, _) => ""
    case MarkReissue(_, _, _, _) => ""
    case DropLock(_) => ""
    case _ => op.id
  }

  /** The durable phase: what a lease would return the claim to. */
  function Phase(c: Claim): Status {
    if c.status == Provisioning && c.resume.Some? then c.resume.value else c.status
  }

  predicate After(deadline: Option<int>, now: int) { deadline.Some? && deadline.value > now }

  predicate Passed(deadline: Option<int>, now: int) { deadline.Some? && deadline.value <= now }

  function NewRegistry(serial: string, code: string): Registry {
    Registry(Available, Some(CodeHash(serial, code)), None, None, None, None, None, None, None, None)
  }

  function NewClaim(op: Op): Claim
    requires op.Register?
  {
    Claim(op.serial, op.scope, Nonce(op.scope, op.serial, op.code), Pending, None, None, None, Some(op.until), None, None)
  }

  /** The conditions of each transaction over the rows it names. A new manufacturing row, the administrator's reissue
      included, comes with a code never used before. */
  predicate Allows(r: Rows, op: Op) {
    match op
    case Issue(_, _) => r.registry.None? || r.registry.value.status == ReissueRequired
    case Register(_, s, _, code, _, now) =>
      && r.registry.Some? && r.registry.value.status == Available
      && r.registry.value.code == Some(CodeHash(s, code)) && r.registry.value.claimId.None?
      && r.claim.None?
      && (r.lock.None? || (Passed(r.lock.value.expiresAt, now) && r.lock.value.thing.None?))
    case MarkReissue(_, proof, until, now) =>
      && r.registry.Some? && r.registry.value.status == Reserved
      && r.registry.value.proof == Some(proof) && r.registry.value.code.None?
      && r.registry.value.reservationExpiresAt == Some(until) && until <= now
    case Pin(_, id, nonce, certificate, now) =>
      && r.registry.Some? && r.registry.value.status == Reserved
      && r.registry.value.claimId == Some(id) && r.registry.value.nonce == Some(nonce)
      && After(r.registry.value.reservationExpiresAt, now)
      && (r.registry.value.latest.None? || r.registry.value.latest == Some(certificate))
    case Expire(_, now) =>
      && r.claim.Some? && Passed(r.claim.value.expiresAt, now)
      && (r.claim.value.status == Pending || (r.claim.value.status == Provisioning && r.claim.value.resume == Some(Pending)))
    case StartLease(_, _, now, _) =>
      && r.claim.Some?
      && ((r.claim.value.status == Pending && After(r.claim.value.expiresAt, now))
          || (r.claim.value.status == Status.Bootstrapped && r.claim.value.claimExpiresAt.Some?))
    case TakeLease(_, _, now, _) =>
      && r.claim.Some? && r.claim.value.status == Provisioning && Passed(r.claim.value.leaseExpiresAt, now)
      && ((r.claim.value.resume == Some(Pending) && After(r.claim.value.expiresAt, now))
          || (r.claim.value.resume == Some(Status.Bootstrapped) && r.claim.value.claimExpiresAt.Some?))
    case ReleaseLease(_, lease) =>
      && r.claim.Some? && r.claim.value.status == Provisioning
      && r.claim.value.leaseId == Some(lease) && r.claim.value.resume.Some?
    case Bootstrap(id, lease, certificate, now) =>
      && r.claim.Some? && r.lock.Some? && r.registry.Some?
      && r.claim.value.status == Provisioning && r.claim.value.resume == Some(Pending)
      && r.claim.value.leaseId == Some(lease) && After(r.claim.value.leaseExpiresAt, now)
      && After(r.claim.value.expiresAt, now)
      && r.lock.value.claimId == id && r.lock.value.expiresAt == r.claim.value.expiresAt && r.lock.value.thing.None?
      && (r.device.None? || (r.device.value.lifecycle == Lifecycle.Revoked && r.device.value.serial == r.claim.value.serial
                             && r.device.value.certificate != certificate))
      && r.registry.value.status == Reserved && r.registry.value.claimId == Some(id)
      && r.registry.value.scope == Some(r.claim.value.scope) && r.registry.value.nonce == Some(r.claim.value.nonce)
      && r.registry.value.latest == Some(certificate) && r.registry.value.reservationExpiresAt == r.claim.value.expiresAt
    case ReturnBootstrapped(id, lease, certificate) =>
      && r.claim.Some? && r.claim.value.status == Provisioning && r.claim.value.resume == Some(Status.Bootstrapped)
      && r.claim.value.leaseId == Some(lease) && r.claim.value.thing == Some(Thing(r.claim.value.serial))
      && DeviceIs(r, id, certificate, Lifecycle.Bootstrapped) && LockBinds(r, id) && RegistryIs(r, id, certificate, Stage.Bootstrapped)
    case Authorize(id, certificate) =>
      && r.claim.Some? && r.claim.value.status == Status.Bootstrapped
      && r.claim.value.thing == Some(Thing(r.claim.value.serial))
      && DeviceIs(r, id, certificate, Lifecycle.Bootstrapped) && RegistryIs(r, id, certificate, Stage.Bootstrapped)
    case GoOnline(_) =>
      && r.claim.Some? && r.claim.value.status == Status.RuntimeAuthorized
      && r.claim.value.thing == Some(Thing(r.claim.value.serial))
      && r.device.Some? && r.device.value.lifecycle == Lifecycle.RuntimeAuthorized
    case Release(d, id) =>
      && r.device.Some? && r.claim.Some? && r.lock.Some?
      && r.device.value.scope.owner == d.scope.owner && r.device.value.scope.tenant == d.scope.tenant
      && r.device.value.serial == d.serial && r.device.value.certificate == d.certificate
      && r.device.value.lifecycle in {Lifecycle.RuntimeAuthorized, Lifecycle.Active}
      && r.claim.value.status in {Status.RuntimeAuthorized, Status.Online}
      && r.claim.value.scope.owner == d.scope.owner && r.claim.value.thing == Some(Thing(d.serial))
      && r.lock.value.claimId == id && r.lock.value.thing == Some(Thing(d.serial))
      && RegistryIs(r, id, d.certificate, Stage.RuntimeAuthorized)
      && r.registry.value.scope == Some(d.scope) && r.registry.value.latest == Some(d.certificate)
    case DropClaim(_) => r.claim.Some? && r.claim.value.expiresAt.Some?
    case DropLock(_) => r.lock.Some? && r.lock.value.expiresAt.Some?
  }

  predicate DeviceIs(r: Rows, id: string, certificate: string, lifecycle: Lifecycle) {
    && r.claim.Some? && r.device.Some? && r.device.value.lifecycle == lifecycle && r.device.value.claimId == id
    && r.device.value.scope == r.claim.value.scope && r.device.value.serial == r.claim.value.serial
    && r.device.value.certificate == certificate
  }

  predicate LockBinds(r: Rows, id: string) {
    r.claim.Some? && r.lock.Some? && r.lock.value.claimId == id && r.lock.value.thing == Some(Thing(r.claim.value.serial)) && r.lock.value.expiresAt.None?
  }

  predicate RegistryIs(r: Rows, id: string, certificate: string, status: Stage) {
    && r.claim.Some? && r.registry.Some? && r.registry.value.status == status && r.registry.value.claimId == Some(id)
    && r.registry.value.thing == Some(Thing(r.claim.value.serial)) && r.registry.value.certificate == Some(certificate)
  }

  /** The updates of each transaction. */
  function Write(r: Rows, op: Op): Rows
    requires Allows(r, op)
  {
    match op
    case Issue(s, code) => r.(registry := Some(NewRegistry(s, code)))
    case Register(id, s, scope, code, until, _) =>
      r.(registry := Some(r.registry.value.(status := Reserved, code := None, claimId := Some(id), scope := Some(scope),
                                           nonce := Some(Nonce(scope, s, code)), proof := Some(Proof(scope, s, code)),
                                           reservationExpiresAt := Some(until))),
         claim := Some(NewClaim(op)), lock := Some(Lock(id, Some(until), None, None)))
    case MarkReissue(_, _, _, _) =>
      r.(registry := Some(r.registry.value.(status := ReissueRequired, claimId := None, scope := None, nonce := None,
                                           proof := None, reservationExpiresAt := None)))
    case Pin(_, _, _, certificate, _) => r.(registry := Some(r.registry.value.(latest := Some(certificate))))
    case Expire(_, _) => r.(claim := Some(Unleased(r.claim.value, Expired)))
    case StartLease(_, lease, _, until) =>
      r.(claim := Some(r.claim.value.(resume := Some(r.claim.value.status), status := Provisioning,
                                     leaseId := Some(lease), leaseExpiresAt := Some(until))))
    case TakeLease(_, lease, _, until) =>
      r.(claim := Some(r.claim.value.(leaseId := Some(lease), leaseExpiresAt := Some(until))))
    case ReleaseLease(_, _) => r.(claim := Some(Unleased(r.claim.value, r.claim.value.resume.value)))
    case Bootstrap(id, _, certificate, _) =>
      var c := r.claim.value;
      Rows(Some(Unleased(c, Status.Bootstrapped).(thing := Some(Thing(c.serial)), claimExpiresAt := c.expiresAt, expiresAt := None)),
           Some(r.lock.value.(thing := Some(Thing(c.serial)), certificate := Some(certificate), expiresAt := None)),
           Some(Bound(id, c.scope, c.serial, certificate, Lifecycle.Bootstrapped)),
           Some(r.registry.value.(status := Stage.Bootstrapped, thing := Some(Thing(c.serial)), certificate := Some(certificate),
                                  reservationExpiresAt := None)))
    case ReturnBootstrapped(_, _, _) => r.(claim := Some(Unleased(r.claim.value, Status.Bootstrapped)))
    case Authorize(_, _) =>
      r.(claim := Some(r.claim.value.(status := Status.RuntimeAuthorized)),
         device := Some(r.device.value.(lifecycle := Lifecycle.RuntimeAuthorized)),
         registry := Some(r.registry.value.(status := Stage.RuntimeAuthorized)))
    case GoOnline(_) =>
      r.(claim := Some(r.claim.value.(status := Status.Online)), device := Some(r.device.value.(lifecycle := Lifecycle.Active)))
    case Release(_, _) =>
      Rows(Some(r.claim.value.(status := Status.Revoked)), None, Some(r.device.value.(lifecycle := Lifecycle.Revoked)),
           Some(Registry(ReissueRequired, None, None, None, None, None, None, None, None, None)))
    case DropClaim(_) => r.(claim := None)
    case DropLock(_) => r.(lock := None)
  }

  function Unleased(c: Claim, status: Status): Claim {
    c.(status := status, resume := None, leaseId := None, leaseExpiresAt := None)
  }

  /** Ids that the callers draw are fresh. */
  predicate FreshIds(t: Tables, op: Op) {
    match op
    case Issue(s, code) => CodeHash(s, code) !in t.usedCodes
    case Register(id, _, _, _, _, _) => id !in t.usedClaims
    case StartLease(_, lease, _, _) => lease !in t.usedLeases
    case TakeLease(_, lease, _, _) => lease !in t.usedLeases
    case _ => true
  }

  predicate Enabled(t: Tables, op: Op) {
    Allows(RowsAt(t, SerialOf(t, op), IdOf(op)), op) && FreshIds(t, op)
  }

  function PutRows(t: Tables, s: string, id: string, r: Rows): Tables {
    t.(claims := if r.claim == OwnClaim(t, s, id) then t.claims else Put(t.claims, id, r.claim),
       locks := Put(t.locks, s, r.lock), devices := Put(t.devices, Thing(s), r.device), registry := Put(t.registry, s, r.registry))
  }

  function Remember(t: Tables, op: Op): Tables {
    match op
    case Issue(s, code) => t.(usedCodes := t.usedCodes + {CodeHash(s, code)})
    case Register(id, _, _, _, _, _) => t.(usedClaims := t.usedClaims + {id})
    case StartLease(_, lease, _, _) => t.(usedLeases := t.usedLeases + {lease})
    case TakeLease(_, lease, _, _) => t.(usedLeases := t.usedLeases + {lease})
    case _ => t
  }

  /** One conditional transaction: all its updates, or nothing. */
  function Apply(t: Tables, op: Op): Tables {
    if Enabled(t, op) then
      var s, id := SerialOf(t, op), IdOf(op);
      Remember(PutRows(t, s, id, Write(RowsAt(t, s, id), op)), op)
    else t
  }

  function Run(t: Tables, ops: seq<Op>): Tables {
    if ops == [] then t else Apply(Run(t, ops[..|ops| - 1]), ops[|ops| - 1])
  }

  /** The tables after any interleaving of any operations, from empty ones. */
  ghost predicate Reachable(t: Tables) { exists ops :: t == Run(EMPTY, ops) }

  /** What no write to a claim changes. */
  predicate SamePerson(a: Claim, b: Claim) { a.serial == b.serial && a.scope == b.scope && a.nonce == b.nonce }

  predicate Early(c: Claim) { Phase(c) == Pending || Phase(c) == Expired }

  predicate Late(c: Claim) { Phase(c) in {Status.Bootstrapped, Status.RuntimeAuthorized, Online} }

  predicate Unbound(r: Rows) { r.device.None? || r.device.value.lifecycle == Lifecycle.Revoked }

  /** A claim by itself: a lease exactly while provisioning, TTL exactly while no device is bound. */
  predicate Shape(c: Claim) {
    && (c.status == Provisioning <==> c.resume.Some?)
    && (c.resume.Some? <==> c.leaseId.Some?) && (c.resume.Some? <==> c.leaseExpiresAt.Some?)
    && (c.resume.Some? ==> c.resume.value == Pending || c.resume.value == Status.Bootstrapped)
    && (Early(c) <==> c.expiresAt.Some?)
    && (Early(c) ==> c.thing.None?)
    && (!Early(c) ==> c.claimExpiresAt.Some? && c.thing == Some(Thing(c.serial)))
    && c.nonce.scope == c.scope && c.nonce.serial == c.serial
  }

  /** A reservation and its claim, while the claim exists. */
  predicate ReservedBy(r: Rows) {
    r.claim.Some? && r.registry.Some? ==>
      && Early(r.claim.value) && r.registry.value.scope == Some(r.claim.value.scope)
      && r.registry.value.nonce == Some(r.claim.value.nonce) && r.registry.value.reservationExpiresAt == r.claim.value.expiresAt
  }

  /** All four rows name the same claim, thing and certificate; the lock and the claim have no `expiresAt`. */
  predicate Bind(r: Rows, id: string) {
    && r.claim.Some? && r.lock.Some? && r.device.Some? && r.registry.Some?
    && LockBinds(r, id) && r.lock.value.certificate == r.registry.value.certificate
    && r.registry.value.certificate.Some? && r.registry.value.latest == r.registry.value.certificate
    && DeviceIs(r, id, r.registry.value.certificate.value, r.device.value.lifecycle)
    && RegistryIs(r, id, r.registry.value.certificate.value, r.registry.value.status)
    && r.registry.value.scope == Some(r.claim.value.scope) && r.registry.value.nonce == Some(r.claim.value.nonce)
    && r.claim.value.expiresAt.None?
  }

  /** The coupling invariant, seen from a serial and the claim its registry row names. */
  predicate Coupled(r: Rows, id: string)
    requires r.registry.Some?
  {
    match r.registry.value.status
    case Reserved => Unbound(r) && ReservedBy(r)
    case Bootstrapped => Bind(r, id) && r.device.value.lifecycle == Lifecycle.Bootstrapped && Phase(r.claim.value) == Status.Bootstrapped
    case RuntimeAuthorized =>
      Bind(r, id) && (|| (r.device.value.lifecycle == Lifecycle.RuntimeAuthorized && Phase(r.claim.value) == Status.RuntimeAuthorized)
                      || (r.device.value.lifecycle == Lifecycle.Active && Phase(r.claim.value) == Online))
    case _ => false
  }

  predicate RegistryShape(g: Registry, s: string) {
    match g.status
    case Available => g.claimId.None? && g.code.Some? && g.code.value.serial == s
    case ReissueRequired => g.claimId.None? && g.code.None?
    case _ => g.claimId.Some? && g.code.None? && g.nonce.Some? && g.scope.Some? && g.nonce.value.scope == g.scope.value
              && g.nonce.value.serial == s && g.proof == Some(Proof(g.scope.value, s, g.nonce.value.code))
  }

  /** What holds of the rows of serial `s` together with any one claim `id`. */
  predicate RowsOk(r: Rows, s: string, id: string) {
    && (r.claim.Some? ==> r.claim.value.serial == s && Shape(r.claim.value))
    && (r.claim.Some? && Late(r.claim.value) ==> r.registry.Some? && r.registry.value.claimId == Some(id))
    && (r.registry.Some? ==> RegistryShape(r.registry.value, s))
    && (r.registry.Some? && r.registry.value.claimId == Some(id) ==> Coupled(r, id))
    && (r.lock.Some? ==> (r.lock.value.thing.Some? <==> r.lock.value.expiresAt.None?))
    && (r.lock.Some? && r.lock.value.thing.Some? ==> IsBound(r))
    && (r.device.Some? ==> r.device.value.serial == s)
    && (r.device.Some? && r.device.value.lifecycle != Lifecycle.Revoked ==> IsBound(r))
  }

  predicate IsBound(r: Rows) {
    r.registry.Some? && r.registry.value.status in {Stage.Bootstrapped, Stage.RuntimeAuthorized}
  }

  /** A registry row names a claim of its own serial, if that still exists. */
  predicate Known(t: Tables, s: string, id: string) { id in t.usedClaims && (id in t.claims ==> t.claims[id].serial == s) }

  ghost predicate Inv(t: Tables) {
    && (forall s, id :: RowsOk(RowsAt(t, s, id), s, id))
    && (forall id :: id in t.claims ==> id in t.usedClaims)
    && (forall s :: s in t.registry && t.registry[s].claimId.Some? ==> Known(t, s, t.registry[s].claimId.value))
    && (forall id :: id in t.claims && t.claims[id].leaseId.Some? ==> t.claims[id].leaseId.value in t.usedLeases)
  }
}

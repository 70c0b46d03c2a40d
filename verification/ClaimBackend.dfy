/** The finalize path as the service, the repository and the provisioning adapter run it, on one object that holds the
    tables and AWS IoT. Each remote write is one guarded update of a field. */
module ClaimBackend {
  import opened Common
  import opened Device
  import opened Claims
  import opened ClaimProofs
  import opened ClaimRuns
  import opened Finalize
  import opened Convergence

  datatype Error = NotFound | Expired | Inconsistent | InvalidState | InProgress | Conflict | NotVerified | PolicyTransition

  datatype Leasing = Acquired(claim: Claim) | AlreadyDone(claim: Claim) | Refused(error: Error)

  datatype Outcome = Finalized(claim: Claim, device: Bound) | Repeated(claim: Claim, device: Bound) | Threw(error: Error)

  /** What all the reads of `verifyBootstrap` together accept: the certificate of the binding. */
  predicate Verifies(t: Tables, iot: Iot, id: string, claim: Claim, c: string) {
    && claim.serial in t.registry && claim.serial in iot.things && c in iot.active && c in iot.policies
    && var g, thing, policies := t.registry[claim.serial], iot.things[claim.serial], iot.policies[c];
    && (g.status == Reserved || g.status == Stage.Bootstrapped) && g.claimId == Some(id) && g.latest == Some(c)
    && g.scope == Some(claim.scope) && g.nonce == Some(claim.nonce)
    && thing.tenant == claim.scope.tenant && thing.pool == claim.scope.pool && thing.principals == {c}
    && policies <= {Boot, Runtime} && policies != {} && (g.status == Reserved ==> policies == {Boot})
  }

  /** The check that makes a finished claim answer again with its device. */
  predicate HasDevice(t: Tables, claim: Claim) {
    && claim.thing.Some? && claim.thing.value in t.devices
    && var d := t.devices[claim.thing.value];
    d.scope.owner == claim.scope.owner && d.scope.tenant == claim.scope.tenant && d.serial == claim.serial
  }

  /** What a finalize call does for a claim that is ready: it ends authorized, with the same device and certificate and exactly
      the runtime policy; or, when a policy call failed, as ready as before and between leases. */
  predicate Resolves(t: Tables, iot: Iot, u: Tables, after: Iot, r: Outcome, id: string, answered: bool) {
    && id in t.claims
    && var c := BoundCertificate(t, id);
       if r.Finalized? then Completes(t, u, t.claims[id].serial, id) && after == SetPolicies(iot, c, {Runtime})
       else Ready(u, after, id, c) && u.claims[id].status == Status.Bootstrapped && !answered
  }

  /** A lease can be had: the claim is pending and has not ended, or bound, and nobody holds it any more. */
  predicate Leasable(t: Tables, id: string, now: int) {
    && id in t.claims
    && var x := t.claims[id];
    || (x.status == Pending && x.expiresAt.Some? && now < x.expiresAt.value)
    || (x.status == Status.Bootstrapped && x.claimExpiresAt.Some?)
    || (x.status == Provisioning && x.leaseExpiresAt.Some? && x.leaseExpiresAt.value <= now
        && ((x.resume == Some(Pending) && x.expiresAt.Some? && now < x.expiresAt.value)
            || (x.resume == Some(Status.Bootstrapped) && x.claimExpiresAt.Some?)))
  }

  /** The claim ended before it was bound. */
  predicate Ended(t: Tables, id: string, now: int) {
    && id in t.claims
    && var x := t.claims[id];
    && (x.status == Pending || (x.status == Provisioning && x.resume == Some(Pending)))
    && x.expiresAt.Some? && x.expiresAt.value <= now
  }

  /** The certificate that the registration hook pinned for the claim's serial. */
  function PinnedCertificate(t: Tables, id: string): string {
    if id in t.claims && t.claims[id].serial in t.registry && t.registry[t.claims[id].serial].latest.Some?
    then t.registry[t.claims[id].serial].latest.value else ""
  }

  /** The rows of a claim that was never bound are as its binding needs them: its own lock, no live device, and a reservation of
      its own that pins the certificate. */
  predicate Bindable(t: Tables, id: string, c: string) {
    && id in t.claims
    && var x := t.claims[id];
    && x.serial in t.locks && t.locks[x.serial].claimId == id && t.locks[x.serial].expiresAt == x.expiresAt && t.locks[x.serial].thing.None?
    && (Thing(x.serial) in t.devices ==>
          && t.devices[Thing(x.serial)].lifecycle == Lifecycle.Revoked && t.devices[Thing(x.serial)].serial == x.serial
          && t.devices[Thing(x.serial)].certificate != c)
    && x.serial in t.registry
    && var g := t.registry[x.serial];
    && g.status == Reserved && g.claimId == Some(id) && g.scope == Some(x.scope) && g.nonce == Some(x.nonce)
    && g.latest == Some(c) && g.reservationExpiresAt == x.expiresAt
  }

  /** Everything for a first binding fits, and the clock of the binding is still within reservation and lease. */
  predicate FirstFits(t: Tables, iot: Iot, id: string, until: int, later: int) {
    && id in t.claims && t.claims[id].expiresAt.Some? && later < t.claims[id].expiresAt.value && later < until
    && (t.claims[id].status == Pending || t.claims[id].resume == Some(Pending))
    && Bindable(t, id, PinnedCertificate(t, id)) && Verifies(t, iot, id, t.claims[id], PinnedCertificate(t, id))
  }

  /** The device of the claim is bound with this certificate and authorized, and claim, lock and registry row with it. */
  predicate EndsAuthorized(t: Tables, u: Tables, id: string, c: string) {
    && id in t.claims && id in u.claims
    && var x := t.claims[id];
    && SamePerson(x, u.claims[id]) && u.claims[id].status == Status.RuntimeAuthorized
    && Get(u.locks, x.serial) == Some(Lock(id, None, Some(Thing(x.serial)), Some(c)))
    && Get(u.devices, Thing(x.serial)) == Some(Bound(id, x.scope, x.serial, c, Lifecycle.RuntimeAuthorized))
    && x.serial in t.registry
    && Get(u.registry, x.serial) ==
         Some(t.registry[x.serial].(status := Stage.RuntimeAuthorized, thing := Some(Thing(x.serial)), certificate := Some(c), reservationExpiresAt := None))
  }

  /** The rest of the claim row: no lease, and no end by TTL any more. */
  predicate BoundAndAuthorized(t: Tables, u: Tables, id: string, c: string) {
    && EndsAuthorized(t, u, id, c)
    && var x, y := t.claims[id], u.claims[id];
    y.leaseId.None? && y.thing == Some(Thing(x.serial)) && y.claimExpiresAt == x.expiresAt && y.expiresAt.None?
  }

  /** What a first finalize call does: the device is bound with the pinned certificate, which ends with exactly the runtime policy;
      or, when a policy call failed, the claim is bootstrapped and ready for the next call. */
  predicate ResolvesFirst(t: Tables, iot: Iot, u: Tables, after: Iot, r: Outcome, id: string, answered: bool) {
    var c := PinnedCertificate(t, id);
    if r.Finalized? then BoundAndAuthorized(t, u, id, c) && after == SetPolicies(iot, c, {Runtime})
    else Ready(u, after, id, c) && u.claims[id].status == Status.Bootstrapped && !answered
  }

  /** The same under a lease that was just taken. */
  predicate FirstLeased(t: Tables, iot: Iot, id: string, later: int) {
    && id in t.claims && t.claims[id].status == Provisioning && t.claims[id].resume == Some(Pending)
    && t.claims[id].expiresAt.Some? && later < t.claims[id].expiresAt.value
    && t.claims[id].leaseExpiresAt.Some? && later < t.claims[id].leaseExpiresAt.value
    && Bindable(t, id, PinnedCertificate(t, id)) && Verifies(t, iot, id, t.claims[id], PinnedCertificate(t, id))
  }

  /** The four rows between the binding and the authorization. */
  predicate StagedFirst(t: Tables, u: Tables, id: string, c: string) {
    && id in t.claims && id in u.claims
    && var x, y := t.claims[id], u.claims[id];
    && SamePerson(x, y) && y.status == Status.Bootstrapped
    && y.thing == Some(Thing(x.serial)) && y.claimExpiresAt == x.expiresAt && y.expiresAt.None?
    && Get(u.locks, x.serial) == Some(Lock(id, None, Some(Thing(x.serial)), Some(c)))
    && Get(u.devices, Thing(x.serial)) == Some(Bound(id, x.scope, x.serial, c, Lifecycle.Bootstrapped))
    && x.serial in t.registry
    && Get(u.registry, x.serial) ==
         Some(t.registry[x.serial].(status := Stage.Bootstrapped, thing := Some(Thing(x.serial)), certificate := Some(c), reservationExpiresAt := None))
  }

  class Backend {
    var t: Tables
    var iot: Iot

    constructor ()
      ensures t == EMPTY && iot == Finalize.START.iot
    {
      t, iot := EMPTY, Finalize.START.iot;
    }

    /** The listing comes in pages of any size, and any number of them may be empty. */
    method PolicyNames(c: string) returns (names: set<Policy>)
      ensures names == Attached(iot, c)
    {
      var left := Attached(iot, c);
      var blanks: nat := *;
      var marker := true;
      names := {};
      while marker
        invariant names + left == Attached(iot, c)
        invariant !marker ==> left == {}
        decreases left, blanks, marker
      {
        assert left <= left;
        var page: set<Policy> :| page <= left && (page == {} ==> left == {} || blanks > 0);
        names := names + page;
        left := left - page;
        if page == {} && blanks > 0 {
          blanks := blanks - 1;
        }
        marker := left != {} || blanks > 0;
      }
    }

    /** At most `size` of what is left to list, in any order. */
    method NextPage(left: set<string>, size: nat) returns (page: seq<string>, rest: set<string>)
      ensures multiset(page) + multiset(rest) == multiset(left) && rest <= left
      ensures |page| <= size && (page == [] <==> rest == left) && (left != {} && size > 0 ==> rest != left)
    {
      page, rest := [], left;
      while rest != {} && |page| < size
        invariant multiset(page) + multiset(rest) == multiset(left) && rest <= left
        invariant |page| <= size && (page == [] ==> rest == left) && (page != [] ==> rest != left)
        decreases rest
      {
        var x :| x in rest;
        page, rest := page + [x], rest - {x};
      }
    }

    /** The same for the principals, kept as the list that the pages make up. */
    method ThingPrincipals(serial: string) returns (principals: seq<string>)
      requires serial in iot.things
      ensures multiset(principals) == multiset(iot.things[serial].principals)
    {
      var left := iot.things[serial].principals;
      var blanks: nat := *;
      var token := true;
      principals := [];
      while token
        invariant multiset(principals) + multiset(left) == multiset(iot.things[serial].principals)
        invariant !token ==> left == {}
        decreases left, blanks, token
      {
        var size: nat := *;
        if blanks == 0 && size == 0 {
          size := 1;
        }
        var page, rest := NextPage(left, size);
        if page == [] && blanks > 0 {
          blanks := blanks - 1;
        }
        principals, left := principals + page, rest;
        token := left != {} || blanks > 0;
      }
    }

    /** Succeeds exactly when registry, Thing, principal, certificate and policies all fit, with the pinned certificate. */
    method VerifyBootstrap(id: string, claim: Claim) returns (binding: Option<string>)
      ensures binding.Some? ==> Verifies(t, iot, id, claim, binding.value)
      ensures binding.None? ==> forall c :: !Verifies(t, iot, id, claim, c)
    {
      if !RegistryMatches(t, Worker(id, "", claim, Leased)) || t.registry[claim.serial].latest.None? {
        return None;
      }
      var c := t.registry[claim.serial].latest.value;
      if !ThingMatches(iot, claim) {
        return None;
      }
      var principals := ThingPrincipals(claim.serial);
      OnePrincipal(principals, iot.things[claim.serial].principals, c);
      if |principals| != 1 || principals[0] != c || c !in iot.active {
        return None;
      }
      var policies := PolicyNames(c);
      if !InTransition(policies) || (t.registry[claim.serial].status == Reserved && policies != {Boot}) {
        return None;
      }
      return Some(c);
    }

    /** Whatever happens to the two calls, a certificate in transition stays in transition, so it always has a policy, and
        no other certificate is touched. It ends with exactly the runtime policy when the calls that were needed succeed;
        a certificate that is not in transition is left as it is. */
    method AuthorizeRuntime(c: string, attach: Reply, detach: Reply) returns (ok: bool)
      modifies this`iot
      ensures !InTransition(old(Attached(iot, c))) ==> !ok && iot == old(iot)
      ensures InTransition(old(Attached(iot, c))) ==>
                && InTransition(Attached(iot, c)) && iot == SetPolicies(old(iot), c, Attached(iot, c))
                && (ok <==> (Runtime in old(Attached(iot, c)) || attach == Answered) && (Boot in old(Attached(iot, c)) ==> detach == Answered))
                && (ok ==> Attached(iot, c) == {Runtime})
                && (Runtime in Attached(iot, c) <==> Runtime in old(Attached(iot, c)) || attach != LostBefore)
                && (Boot in Attached(iot, c) <==>
                      Boot in old(Attached(iot, c)) && ((Runtime !in old(Attached(iot, c)) && attach != Answered) || detach == LostBefore))
    {
      var policies := PolicyNames(c);
      if !InTransition(policies) {
        return false;
      }
      assert c in iot.policies && iot.policies[c] == policies;
      SettlesOnRuntime(iot, c, policies);
      SameWhenThere(iot, c, policies);
      SamePolicies(iot, c);
      if Runtime !in policies {
        if attach != LostBefore {
          iot := SetPolicies(iot, c, Attached(iot, c) + {Runtime});
        }
        if attach != Answered {
          return false;
        }
      }
      if Boot in policies {
        if detach != LostBefore {
          iot := SetPolicies(iot, c, Attached(iot, c) - {Boot});
        }
        if detach != Answered {
          return false;
        }
      }
      var final := PolicyNames(c);
      ok := final == {Runtime};
    }

    /** A normal return is of the completed claim with its own device. */
    predicate AnswersWith(id: string, r: Outcome)
      requires !r.Threw?
      reads this
    {
      && id in t.claims && t.claims[id] == r.claim && Completed(t, id)
      && HasDevice(t, r.claim) && r.device == t.devices[r.claim.thing.value]
    }

    /** Start, else take over, else say why not. */
    method AcquireFinalizeLease(id: string, lease: string, now: int, until: int) returns (r: Leasing)
      requires lease !in t.usedLeases
      modifies this`t
      ensures var op := LeaseOp(old(t), id, lease, now, until);
              t == Apply(old(t), op) && (r.Acquired? <==> Enabled(old(t), op))
      ensures r.Acquired? ==> id in t.claims && t.claims[id] == r.claim && r.claim.status == Provisioning && r.claim.leaseId == Some(lease)
      ensures !r.Acquired? ==> t == old(t)
      ensures r.AlreadyDone? <==> Completed(old(t), id)
      ensures r.AlreadyDone? ==> r.claim == t.claims[id]
      ensures r.Acquired? <==> Leasable(old(t), id, now)
      ensures r == Refused(NotFound) <==> id !in old(t).claims
      ensures Ended(old(t), id, now) ==> r == Refused(Error.Expired)
      ensures r == Refused(Error.Expired) ==>
                id in old(t).claims && old(t).claims[id].expiresAt.Some? && old(t).claims[id].expiresAt.value <= now
                && (old(t).claims[id].status == Pending || old(t).claims[id].resume == Some(Pending))
      ensures r == Refused(InProgress) ==> id in old(t).claims && old(t).claims[id].status == Provisioning
      ensures r.Refused? ==> r.error in {NotFound, Error.Expired, InProgress, Conflict}
      ensures r == Refused(Conflict) ==> id in old(t).claims && old(t).claims[id].status != Provisioning
    {
      var start := StartLease(id, lease, now, until);
      if Enabled(t, start) {
        StartedLease(t, id, lease, now, until);
        t := Apply(t, start);
        return Acquired(t.claims[id]);
      }
      var take := TakeLease(id, lease, now, until);
      if Enabled(t, take) {
        StartedLease(t, id, lease, now, until);
        t := Apply(t, take);
        return Acquired(t.claims[id]);
      }
      if id !in t.claims {
        return Refused(NotFound);
      }
      var claim := t.claims[id];
      if claim.status == Status.RuntimeAuthorized || claim.status == Online {
        return AlreadyDone(claim);
      }
      if (claim.status == Pending || claim.resume == Some(Pending)) && Passed(claim.expiresAt, now) {
        return Refused(Error.Expired);
      }
      return Refused(if claim.status == Provisioning then InProgress else Conflict);
    }

    /** Gives the claim back exactly when it is still held by this lease. */
    method ReleaseFinalizeLease(id: string, lease: string)
      modifies this`t
      ensures t == Apply(old(t), ReleaseLease(id, lease))
    {
      if Enabled(t, ReleaseLease(id, lease)) {
        t := Apply(t, ReleaseLease(id, lease));
      }
    }

    /** The binding transaction, or, for a claim that was already bound, the resumed one. */
    method BootstrapClaim(id: string, lease: string, c: string, now: int) returns (r: Option<Claim>)
      modifies this`t
      ensures var op := StageOp(old(t), Worker(id, lease, NO_CLAIM, Leased), c, now);
              t == Apply(old(t), op) && (r.Some? <==> Enabled(old(t), op))
      ensures r.Some? ==> id in t.claims && t.claims[id] == r.value && r.value.status == Status.Bootstrapped
    {
      if id !in t.claims || t.claims[id].status != Provisioning {
        return None;
      }
      if t.claims[id].resume == Some(Status.Bootstrapped) {
        var again := ReturnBootstrapped(id, lease, c);
        if !Enabled(t, again) {
          return None;
        }
        StagedClaim(t, again);
        t := Apply(t, again);
        return Some(t.claims[id]);
      }
      if t.claims[id].resume != Some(Pending) || !After(t.claims[id].expiresAt, now) {
        return None;
      }
      var bind := Bootstrap(id, lease, c, now);
      if !Enabled(t, bind) {
        return None;
      }
      StagedClaim(t, bind);
      t := Apply(t, bind);
      return Some(t.claims[id]);
    }

    /** Authorizes claim, device and registry row together; a claim that another worker completed is answered as it is. */
    method AuthorizeRuntimeClaim(id: string, c: string) returns (ok: bool)
      modifies this`t
      ensures t == if Completed(old(t), id) then old(t) else Apply(old(t), Authorize(id, c))
      ensures ok <==> if Completed(old(t), id) then HasDevice(old(t), old(t).claims[id]) else Enabled(old(t), Authorize(id, c))
    {
      if id !in t.claims {
        return false;
      }
      if t.claims[id].status == Status.RuntimeAuthorized || t.claims[id].status == Online {
        return HasDevice(t, t.claims[id]);
      }
      ok := Enabled(t, Authorize(id, c));
      if ok {
        t := Apply(t, Authorize(id, c));
      }
    }

    /** Moves the policies of a claim that was bound, or resumed, and authorizes it. */
    method AuthorizeStaged(id: string, c: string, attach: Reply, detach: Reply) returns (r: Outcome)
      requires Inv(t) && id in t.claims && t.claims[id].status == Status.Bootstrapped
      modifies this
      ensures Inv(t) && !r.Repeated?
      ensures id in t.claims && t.claims[id].leaseId.None?
      ensures r.Finalized? ==> AnswersWith(id, r)
      ensures r.Finalized? ==> SettledClaim(old(t), t, id)
      ensures r.Threw? ==> r.error in {PolicyTransition, Conflict}
      ensures Ready(old(t), old(iot), id, c) ==>
                if r.Finalized? then Completes(old(t), t, old(t).claims[id].serial, id) && iot == SetPolicies(old(iot), c, {Runtime})
                else Ready(t, iot, id, c) && t.claims[id].status == Status.Bootstrapped && !(attach == detach == Answered)
    {
      ghost var before, iotBefore := t, iot;
      hide Inv, Apply, Enabled, Ready, Coupling, SetPolicies, Completes;
      LeaseGone(t, id);
      if Ready(t, iot, id, c) { ReadyCouples(t, iot, id, c); }
      var moved := AuthorizeRuntime(c, attach, detach);
      if !moved {
        if Ready(before, iotBefore, id, c) { ReadyStays(before, iotBefore, id, c, Attached(iot, c)); }
        return Threw(PolicyTransition);
      }
      AuthorizeKeeps(t, id, c);
      if Ready(before, iotBefore, id, c) { AuthorizeIsGranted(t, id, c); }
      var ok := AuthorizeRuntimeClaim(id, c);
      if !ok {
        return Threw(Conflict);
      }
      return Finalized(t.claims[id], t.devices[t.claims[id].thing.value]);
    }

    /** What the finalize call does under its lease: verify, bind, move the policies, authorize; and give the lease back
        if the claim was not bound. */
    method FinishUnderLease(id: string, lease: string, claim: Claim, later: int, attach: Reply, detach: Reply) returns (r: Outcome)
      requires Inv(t) && id in t.claims && t.claims[id] == claim && claim.status == Provisioning && claim.leaseId == Some(lease)
      modifies this
      ensures Inv(t) && !r.Repeated?
      ensures id in t.claims ==> t.claims[id].leaseId != Some(lease)
      ensures r.Finalized? ==> AnswersWith(id, r)
      ensures r.Threw? ==> r.error in {NotVerified, PolicyTransition, Conflict}
      ensures r == Threw(NotVerified) ==> forall c :: !Verifies(old(t), old(iot), id, claim, c)
      ensures Resumed(old(t), old(iot), id, lease, BoundCertificate(old(t), id)) ==>
                Resolves(old(t), old(iot), t, iot, r, id, attach == detach == Answered)
      ensures FirstLeased(old(t), old(iot), id, later) ==> ResolvesFirst(old(t), old(iot), t, iot, r, id, attach == detach == Answered)
    {
      ghost var before := t;
      hide Inv, Apply, Enabled, Ready, Coupling, SetPolicies, Completes, Verifies, FirstLeased, Resumed, HasDevice, SameRows, StagedFirst,
        BoundAndAuthorized, SettledClaim;
      LeaseVerifies(t, iot, id, lease, later);
      var binding := VerifyBootstrap(id, claim);
      if binding.None? {
        ReleasedLease(t, id, lease);
        ReleaseFinalizeLease(id, lease);
        return Threw(NotVerified);
      }
      var c := binding.value;
      StageKeeps(t, id, lease, c, later);
      StageSettles(t, iot, id, lease, c, later);
      var staged := BootstrapClaim(id, lease, c, later);
      if staged.None? {
        ReleasedLease(t, id, lease);
        ReleaseFinalizeLease(id, lease);
        return Threw(Conflict);
      }
      ghost var mid, iotMid := t, iot;
      r := AuthorizeStaged(id, c, attach, detach);
      StagedEnds(before, mid, t, iotMid, iot, r, id, lease, c, later, attach == detach == Answered);
    }

    /** The rest of it, once the claim is one that can be finalized. */
    method FinishUnderNewLease(id: string, lease: string, now: int, until: int, later: int, attach: Reply, detach: Reply) returns (r: Outcome)
      requires Inv(t) && lease !in t.usedLeases && id in t.claims && !Completed(t, id)
      modifies this
      ensures Inv(t) && !r.Repeated?
      ensures id in t.claims ==> t.claims[id].leaseId != Some(lease)
      ensures !r.Threw? ==> AnswersWith(id, r)
      ensures r.Threw? ==> r.error in {NotVerified, PolicyTransition, Conflict, Error.Expired, InProgress}
      ensures r == Threw(Error.Expired) ==> Ended(old(t), id, now)
      ensures r == Threw(InProgress) ==> old(t).claims[id].status == Provisioning && !Leasable(old(t), id, now) && t == old(t) && iot == old(iot)
      ensures r == Threw(Error.Expired) ==> old(t).claims[id].resume == Some(Pending) || old(t).claims[id].status == Pending
      ensures Ended(old(t), id, now) ==> r == Threw(Error.Expired)
      ensures Ready(old(t), old(iot), id, BoundCertificate(old(t), id)) && LeaseIsFree(old(t).claims[id], now) ==>
                Resolves(old(t), old(iot), t, iot, r, id, attach == detach == Answered)
      ensures FirstFits(old(t), old(iot), id, until, later) && Leasable(old(t), id, now) ==>
                ResolvesFirst(old(t), old(iot), t, iot, r, id, attach == detach == Answered)
    {
      hide *;
      ghost var before, iotBefore := t, iot;
      NotReadyYet(t, iot, id);
      EndedIsPending(t, id, now);
      LeaseResumes(t, iot, id, lease, now, until);
      LeaseFitsFirst(t, iot, id, lease, now, until, later);
      ghost var resumable := Ready(t, iot, id, BoundCertificate(t, id)) && LeaseIsFree(t.claims[id], now);
      ghost var first := FirstFits(t, iot, id, until, later) && Leasable(t, id, now);
      var leasing := AcquireFinalizeLease(id, lease, now, until);
      if leasing.Refused? {
        return Threw(leasing.error);
      }
      ghost var leased := t;
      r := FinishUnderLease(id, lease, leasing.claim, later, attach, detach);
      if resumable { ResolvesFromSame(before, iotBefore, leased, t, iot, r, id, attach == detach == Answered); }
      if first { ResolvesFirstFromSame(before, iotBefore, leased, t, iot, r, id, attach == detach == Answered); }
    }

    /** The finalize call. It never leaves its own lease behind. A claim that was never bound, with its reservation and clocks in
        order and everything verified, comes out bound and authorized with the pinned certificate and exactly the runtime policy; a
        claim that is durably bootstrapped, with its lease free, comes out authorized with the same device and certificate, wherever
        earlier calls stopped. When attaching or detaching a policy failed, either is as ready for the next call. It says that the
        claim expired exactly when that ended before it was bound. */
    method FinalizeClaim(id: string, lease: string, now: int, until: int, later: int, attach: Reply, detach: Reply) returns (r: Outcome)
      requires Inv(t) && lease !in t.usedLeases
      modifies this
      ensures Inv(t)
      ensures id in t.claims ==> t.claims[id].leaseId != Some(lease)
      ensures !r.Threw? ==> AnswersWith(id, r)
      ensures r.Repeated? <==> Completed(old(t), id) && HasDevice(old(t), old(t).claims[id])
      ensures r.Repeated? ==> t == old(t) && iot == old(iot)
      ensures r == Threw(NotFound) <==> id !in old(t).claims
      ensures r == Threw(Inconsistent) <==> Completed(old(t), id) && !HasDevice(old(t), old(t).claims[id])
      ensures r == Threw(InvalidState) <==> id in old(t).claims && old(t).claims[id].status in {Status.Expired, Status.Revoked}
      ensures r == Threw(Error.Expired) <==> Ended(old(t), id, now)
      ensures r == Threw(Error.Expired) && old(t).claims[id].status == Pending ==> id in t.claims && t.claims[id].status == Status.Expired
      ensures r.Threw? && r.error in {NotFound, Inconsistent, InvalidState, InProgress} ==> t == old(t) && iot == old(iot)
      ensures r == Threw(InProgress) ==> id in old(t).claims && old(t).claims[id].status == Provisioning && !Leasable(old(t), id, now)
      ensures Ready(old(t), old(iot), id, BoundCertificate(old(t), id)) && LeaseIsFree(old(t).claims[id], now) ==>
                Resolves(old(t), old(iot), t, iot, r, id, attach == detach == Answered)
      ensures FirstFits(old(t), old(iot), id, until, later) && Leasable(old(t), id, now) ==>
                ResolvesFirst(old(t), old(iot), t, iot, r, id, attach == detach == Answered)
    {
      if id !in t.claims {
        return Threw(NotFound);
      }
      var claim := t.claims[id];
      NotReadyYet(t, iot, id);
      EndedIsPending(t, id, now);
      if Completed(t, id) {
        return if HasDevice(t, claim) then Repeated(claim, t.devices[claim.thing.value]) else Threw(Inconsistent);
      }
      hide Inv, Apply, Enabled, Ready, SetPolicies, Completes, Resolves, ResolvesFirst, HasDevice, BoundCertificate;
      if claim.status == Pending && Passed(claim.expiresAt, now) {
        ExpireClaim(id, now);
        return Threw(Error.Expired);
      }
      if claim.status !in {Pending, Status.Bootstrapped, Provisioning} {
        return Threw(InvalidState);
      }
      r := FinishUnderNewLease(id, lease, now, until, later, attach, detach);
    }

    method ExpireClaim(id: string, now: int)
      requires Inv(t)
      modifies this`t
      ensures t == Apply(old(t), Expire(id, now)) && Inv(t)
      ensures id in t.claims ==> id in old(t).claims && (t.claims[id].leaseId == old(t).claims[id].leaseId || t.claims[id].leaseId.None?)
      ensures Ended(old(t), id, now) ==> id in t.claims && t.claims[id].status == Status.Expired
    {
      ApplyKeepsInv(t, Expire(id, now));
      if Ended(t, id, now) { EndedExpires(t, id, now); }
      if Enabled(t, Expire(id, now)) {
        t := Apply(t, Expire(id, now));
      }
    }
  }

  /** One listed principal, and that one, is the set of exactly it. */
  lemma OnePrincipal(listed: seq<string>, principals: set<string>, c: string)
    requires multiset(listed) == multiset(principals)
    ensures principals == {c} <==> |listed| == 1 && listed[0] == c
  {
    assert |multiset(listed)| == |listed| && |multiset(principals)| == |principals|;
    if |listed| == 1 && listed[0] == c {
      assert listed == [c] && multiset(listed) == multiset{c};
      forall x
        ensures x in principals <==> x == c
      {
        assert x in principals <==> x in multiset(principals);
      }
    }
    if principals == {c} {
      assert listed[0] in multiset(listed) && listed[0] in principals;
    }
  }

  /** The certificate that the registry row of the claim's serial is bound to. */
  function BoundCertificate(t: Tables, id: string): string {
    if id in t.claims && t.claims[id].serial in t.registry && t.registry[t.claims[id].serial].certificate.Some?
    then t.registry[t.claims[id].serial].certificate.value else ""
  }

  lemma ResumedKeepsCertificate(t: Tables, u: Tables, iot: Iot, id: string, lease: string, c: string)
    requires Ready(t, iot, id, c) && Resumed(u, iot, id, lease, c)
    ensures BoundCertificate(t, id) == c == BoundCertificate(u, id)
  {
  }

  /** A resumed claim passes every check, with its own certificate. */
  lemma ResumedVerifies(t: Tables, iot: Iot, id: string, lease: string, c: string)
    requires Inv(t) && Resumed(t, iot, id, lease, c)
    ensures Verifies(t, iot, id, t.claims[id], c)
    ensures forall d :: Verifies(t, iot, id, t.claims[id], d) ==> d == c
  {
  }

  /** A free lease is granted, and the claim can then be resumed under it. */
  lemma LeaseResumes(t: Tables, iot: Iot, id: string, lease: string, now: int, until: int)
    requires Inv(t) && id in t.claims && lease !in t.usedLeases
    ensures var u := Apply(t, LeaseOp(t, id, lease, now, until));
            var c := BoundCertificate(t, id);
            && Inv(u)
            && (Ready(t, iot, id, c) && LeaseIsFree(t.claims[id], now) ==>
                  && Enabled(t, LeaseOp(t, id, lease, now, until))
                  && Resumed(u, iot, id, lease, c) && BoundCertificate(u, id) == c && SameRows(t, u, t.claims[id].serial, id))
  {
    var op, c := LeaseOp(t, id, lease, now, until), BoundCertificate(t, id);
    ApplyKeepsInv(t, op);
    hide Inv, Apply, Enabled, Ready, LeaseOp, LeaseIsFree, SameRows, BoundCertificate;
    if Ready(t, iot, id, c) && LeaseIsFree(t.claims[id], now) {
      LeaseIsGranted(t, iot, id, lease, now, until, c);
      ResumedKeepsCertificate(t, Apply(t, op), iot, id, lease, c);
    }
  }

  lemma ResolvesFromSame(t: Tables, iot: Iot, u: Tables, v: Tables, after: Iot, r: Outcome, id: string, answered: bool)
    requires id in t.claims && SameRows(t, u, t.claims[id].serial, id) && BoundCertificate(u, id) == BoundCertificate(t, id)
    requires Resolves(u, iot, v, after, r, id, answered)
    ensures Resolves(t, iot, v, after, r, id, answered)
  {
    if r.Finalized? { CompletesFromSame(t, u, v, t.claims[id].serial, id); }
    hide Completes, Ready, BoundCertificate;
  }

  /** Under either kind of lease, what verifies is the certificate of the claim. */
  lemma LeaseVerifies(t: Tables, iot: Iot, id: string, lease: string, later: int)
    requires Inv(t) && id in t.claims
    ensures Resumed(t, iot, id, lease, BoundCertificate(t, id)) ==> Verifies(t, iot, id, t.claims[id], BoundCertificate(t, id))
    ensures Resumed(t, iot, id, lease, BoundCertificate(t, id)) ==> forall d :: Verifies(t, iot, id, t.claims[id], d) ==> d == BoundCertificate(t, id)
    ensures FirstLeased(t, iot, id, later) ==> Verifies(t, iot, id, t.claims[id], PinnedCertificate(t, id))
    ensures FirstLeased(t, iot, id, later) ==> forall d :: Verifies(t, iot, id, t.claims[id], d) ==> d == PinnedCertificate(t, id)
  {
    if Resumed(t, iot, id, lease, BoundCertificate(t, id)) { ResumedVerifies(t, iot, id, lease, BoundCertificate(t, id)); }
    hide Inv, Resumed, BoundCertificate;
  }

  /** The binding, or the resumed one, is granted. */
  lemma StageSettles(t: Tables, iot: Iot, id: string, lease: string, c: string, later: int)
    requires Inv(t) && id in t.claims && t.claims[id].leaseId == Some(lease)
    ensures var op := StageOp(t, Worker(id, lease, NO_CLAIM, Leased), c, later);
            && (Resumed(t, iot, id, lease, c) ==>
                  Enabled(t, op) && Ready(Apply(t, op), iot, id, c) && SameRows(t, Apply(t, op), t.claims[id].serial, id))
            && (FirstLeased(t, iot, id, later) && c == PinnedCertificate(t, id) ==>
                  Enabled(t, op) && Ready(Apply(t, op), iot, id, c) && StagedFirst(t, Apply(t, op), id, c))
  {
    if Resumed(t, iot, id, lease, c) { StageIsGranted(t, iot, id, lease, c); }
    if FirstLeased(t, iot, id, later) && c == PinnedCertificate(t, id) { BindIsGranted(t, iot, id, lease, c, later); }
    hide Inv, Apply, Enabled, Ready, Resumed, StagedFirst, SameRows;
  }

  lemma BindIsGranted(t: Tables, iot: Iot, id: string, lease: string, c: string, later: int)
    requires Inv(t) && FirstLeased(t, iot, id, later) && c == PinnedCertificate(t, id) && t.claims[id].leaseId == Some(lease)
    ensures var op := Bootstrap(id, lease, c, later);
            && Enabled(t, op) && StageOp(t, Worker(id, lease, NO_CLAIM, Leased), c, later) == op
            && Ready(Apply(t, op), iot, id, c) && StagedFirst(t, Apply(t, op), id, c)
  {
    var op := Bootstrap(id, lease, c, later);
    var x := t.claims[id].serial;
    assert RowsOk(RowsAt(t, x, id), x, id);
    assert Enabled(t, op);
    OwnRows(t, op);
    hide Inv, Enabled, Apply;
    BoundIsReady(t, Apply(t, op), iot, id, lease, c, later);
  }

  /** The binding takes place exactly under the claim's own lease, within lease and reservation, on bindable rows. */
  lemma BindsExactly(t: Tables, id: string, lease: string, c: string, later: int)
    requires Inv(t) && id in t.claims
    ensures Enabled(t, Bootstrap(id, lease, c, later)) <==>
              && t.claims[id].resume == Some(Pending) && t.claims[id].leaseId == Some(lease) && Bindable(t, id, c)
              && t.claims[id].leaseExpiresAt.Some? && later < t.claims[id].leaseExpiresAt.value
              && t.claims[id].expiresAt.Some? && later < t.claims[id].expiresAt.value
  {
    var x := t.claims[id].serial;
    assert RowsOk(RowsAt(t, x, id), x, id);
    hide Inv;
  }

  lemma BoundIsReady(t: Tables, u: Tables, iot: Iot, id: string, lease: string, c: string, later: int)
    requires FirstLeased(t, iot, id, later) && c == PinnedCertificate(t, id) && Shape(t.claims[id])
    requires var op := Bootstrap(id, lease, c, later);
             var x := t.claims[id].serial;
             Allows(RowsAt(t, x, id), op) && id in u.claims && Some(u.claims[id]) == RowsAt(u, x, id).claim && RowsAt(u, x, id) == Write(RowsAt(t, x, id), op)
    ensures Ready(u, iot, id, c) && StagedFirst(t, u, id, c)
  {
    var x := t.claims[id].serial;
    assert RowsAt(u, x, id).lock == Get(u.locks, x) && RowsAt(u, x, id).device == Get(u.devices, Thing(x)) && RowsAt(u, x, id).registry == Get(u.registry, x);
    assert RowsAt(t, x, id).lock == Get(t.locks, x) && RowsAt(t, x, id).registry == Get(t.registry, x) && RowsAt(t, x, id).claim == Some(t.claims[id]);
    hide Allows;
  }

  /** How a staged claim ends, put together. */
  lemma StagedEnds(t: Tables, mid: Tables, u: Tables, iot: Iot, after: Iot, r: Outcome, id: string, lease: string, c: string, later: int, answered: bool)
    requires id in t.claims && id in mid.claims && id in u.claims && u.claims[id].leaseId.None?
    requires r.Finalized? ==> SettledClaim(mid, u, id)
    requires Ready(mid, iot, id, c) ==>
               if r.Finalized? then Completes(mid, u, mid.claims[id].serial, id) && after == SetPolicies(iot, c, {Runtime})
               else Ready(u, after, id, c) && u.claims[id].status == Status.Bootstrapped && !answered
    ensures Resumed(t, iot, id, lease, c) && c == BoundCertificate(t, id) && Ready(mid, iot, id, c) && SameRows(t, mid, t.claims[id].serial, id) ==>
              Resolves(t, iot, u, after, r, id, answered)
    ensures FirstLeased(t, iot, id, later) && c == PinnedCertificate(t, id) && Ready(mid, iot, id, c) && StagedFirst(t, mid, id, c) ==>
              ResolvesFirst(t, iot, u, after, r, id, answered)
  {
    if Ready(mid, iot, id, c) && SameRows(t, mid, t.claims[id].serial, id) && r.Finalized? {
      CompletesFromSame(t, mid, u, t.claims[id].serial, id);
    }
    hide Ready, Resumed, FirstLeased, BoundCertificate, PinnedCertificate, SetPolicies;
  }

  /** The authorization changes nothing but the status of the claim row. */
  predicate SettledClaim(t: Tables, u: Tables, id: string) {
    && id in t.claims && id in u.claims
    && u.claims[id].thing == t.claims[id].thing && u.claims[id].expiresAt == t.claims[id].expiresAt && u.claims[id].claimExpiresAt == t.claims[id].claimExpiresAt
  }

  lemma LeasableIsEnabled(t: Tables, id: string, lease: string, now: int, until: int)
    requires Inv(t) && Leasable(t, id, now) && lease !in t.usedLeases
    ensures var op := LeaseOp(t, id, lease, now, until);
            Enabled(t, op) && id in Apply(t, op).claims && Apply(t, op).claims[id].leaseId == Some(lease)
  {
    var op := LeaseOp(t, id, lease, now, until);
    assert Enabled(t, op);
    OwnRows(t, op);
    hide Inv, Apply, Enabled;
  }

  lemma LeaseFitsFirst(t: Tables, iot: Iot, id: string, lease: string, now: int, until: int, later: int)
    requires Inv(t) && id in t.claims && lease !in t.usedLeases
    ensures FirstFits(t, iot, id, until, later) && Leasable(t, id, now) ==>
              var u := Apply(t, LeaseOp(t, id, lease, now, until));
              && FirstLeased(u, iot, id, later) && PinnedCertificate(u, id) == PinnedCertificate(t, id)
              && SameRows(t, u, t.claims[id].serial, id) && u.claims[id].expiresAt == t.claims[id].expiresAt
  {
    if FirstFits(t, iot, id, until, later) && Leasable(t, id, now) {
      var op := LeaseOp(t, id, lease, now, until);
      LeasableIsEnabled(t, id, lease, now, until);
      assert op.StartLease? <==> t.claims[id].status == Pending by { assert RowsOk(RowsAt(t, t.claims[id].serial, id), t.claims[id].serial, id); }
      hide Inv, Enabled, Apply, Allows, LeaseOp, Leasable;
      OwnRows(t, op);
      var x := t.claims[id].serial;
      assert RowsAt(Apply(t, op), x, id).lock == Get(t.locks, x) && RowsAt(Apply(t, op), x, id).registry == Get(t.registry, x)
             && RowsAt(Apply(t, op), x, id).device == Get(t.devices, Thing(x));
    }
  }

  lemma ResolvesFirstFromSame(t: Tables, iot: Iot, u: Tables, v: Tables, after: Iot, r: Outcome, id: string, answered: bool)
    requires id in t.claims && SameRows(t, u, t.claims[id].serial, id) && PinnedCertificate(u, id) == PinnedCertificate(t, id)
    requires id in u.claims && u.claims[id].expiresAt == t.claims[id].expiresAt && ResolvesFirst(u, iot, v, after, r, id, answered)
    ensures ResolvesFirst(t, iot, v, after, r, id, answered)
  {
    var x := t.claims[id].serial;
    assert RowsAt(u, x, id).registry == RowsAt(t, x, id).registry;
    hide Ready, PinnedCertificate;
  }

  lemma EndedExpires(t: Tables, id: string, now: int)
    requires Inv(t) && Ended(t, id, now)
    ensures var u := Apply(t, Expire(id, now)); id in u.claims && u.claims[id].status == Status.Expired
  {
    assert Enabled(t, Expire(id, now));
    OwnRows(t, Expire(id, now));
    hide Inv, Apply, Enabled;
  }

  lemma EndedIsPending(t: Tables, id: string, now: int)
    requires Inv(t) && id in t.claims
    ensures t.claims[id].resume == Some(Pending) ==> t.claims[id].status == Provisioning
    ensures Ended(t, id, now) ==> !Leasable(t, id, now)
    ensures Ended(t, id, now) <==> (t.claims[id].status == Pending || t.claims[id].resume == Some(Pending))
                                   && t.claims[id].expiresAt.Some? && t.claims[id].expiresAt.value <= now
  {
    assert RowsOk(RowsAt(t, t.claims[id].serial, id), t.claims[id].serial, id);
  }

  lemma ReadyStays(t: Tables, iot: Iot, id: string, c: string, p: set<Policy>)
    requires Ready(t, iot, id, c) && InTransition(p)
    ensures Ready(t, SetPolicies(iot, c, p), id, c)
  {
  }

  lemma SamePolicies(iot: Iot, c: string)
    requires c in iot.policies
    ensures SetPolicies(iot, c, Attached(iot, c)) == iot
  {
    assert iot.policies[c := iot.policies[c]] == iot.policies;
  }

  lemma LeaseGone(t: Tables, id: string)
    requires Inv(t) && id in t.claims && t.claims[id].status != Provisioning
    ensures t.claims[id].leaseId.None?
  {
    assert RowsOk(RowsAt(t, t.claims[id].serial, id), t.claims[id].serial, id);
  }

  /** The holder can always give the claim back. */
  lemma ReleasedLease(t: Tables, id: string, lease: string)
    requires Inv(t) && id in t.claims
    ensures var u := Apply(t, ReleaseLease(id, lease));
            Inv(u) && id in u.claims && u.claims[id].leaseId != Some(lease)
  {
    ApplyKeepsInv(t, ReleaseLease(id, lease));
    var s := t.claims[id].serial;
    assert RowsOk(RowsAt(t, s, id), s, id);
    if Enabled(t, ReleaseLease(id, lease)) { OwnRows(t, ReleaseLease(id, lease)); }
    hide Inv;
  }

  lemma StageKeeps(t: Tables, id: string, lease: string, c: string, now: int)
    requires Inv(t) && id in t.claims
    ensures var u := Apply(t, StageOp(t, Worker(id, lease, NO_CLAIM, Leased), c, now));
            Inv(u) && id in u.claims
  {
    var op := StageOp(t, Worker(id, lease, NO_CLAIM, Leased), c, now);
    ApplyKeepsInv(t, op);
    if Enabled(t, op) { StagedClaim(t, op); }
  }

  lemma AuthorizeKeeps(t: Tables, id: string, c: string)
    requires Inv(t) && id in t.claims && t.claims[id].status == Status.Bootstrapped
    ensures var u := Apply(t, Authorize(id, c));
            && Inv(u) && id in u.claims && u.claims[id].leaseId.None?
            && (Enabled(t, Authorize(id, c)) ==> Completed(u, id) && HasDevice(u, u.claims[id]) && SettledClaim(t, u, id))
  {
    var op := Authorize(id, c);
    ApplyKeepsInv(t, op);
    LeaseGone(t, id);
    if Enabled(t, op) {
      OwnRows(t, op);
      var x := t.claims[id].serial;
      assert RowsAt(Apply(t, op), x, id).device == Get(Apply(t, op).devices, Thing(x));
    }
    hide Inv, Apply;
  }

  lemma NotReadyYet(t: Tables, iot: Iot, id: string)
    requires Inv(t) && id in t.claims
    ensures (exists c :: Ready(t, iot, id, c)) ==> t.claims[id].status in {Status.Bootstrapped, Provisioning}
    ensures t.claims[id].leaseId.Some? ==> t.claims[id].leaseId.value in t.usedLeases
  {
  }

  const NO_CLAIM := Claim("", Scope("", "", ""), Nonce(Scope("", "", ""), "", ""), Pending, None, None, None, None, None, None)

  lemma StagedClaim(t: Tables, op: Op)
    requires (op.Bootstrap? || op.ReturnBootstrapped?) && Enabled(t, op)
    ensures op.id in t.claims && op.id in Apply(t, op).claims && Apply(t, op).claims[op.id].status == Status.Bootstrapped
    ensures t.claims[op.id].status == Provisioning
    ensures op.Bootstrap? ==> t.claims[op.id].resume == Some(Pending) && After(t.claims[op.id].expiresAt, op.now)
    ensures op.ReturnBootstrapped? ==> t.claims[op.id].resume == Some(Status.Bootstrapped)
  {
  }

  lemma StartedLease(t: Tables, id: string, lease: string, now: int, until: int)
    requires Enabled(t, LeaseOp(t, id, lease, now, until))
    ensures var op := LeaseOp(t, id, lease, now, until);
            var u := Apply(t, op);
            id in t.claims && id in u.claims && u.claims[id].status == Provisioning && u.claims[id].leaseId == Some(lease)
            && t.claims[id].status !in {Status.RuntimeAuthorized, Online} && SamePerson(t.claims[id], u.claims[id])
  {
  }
}

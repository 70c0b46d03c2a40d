/** `DynamoClaimRegistrar`: one transaction that consumes the registration code, and recovery by proof when its
    answer was lost. Any number of calls by any users, against every other claim transaction. */
module Registration {
  import opened Common
  import opened Device
  import opened Claims
  import opened ClaimProofs
  import opened ClaimProgress

  datatype Request = Request(id: string, serial: string, scope: Scope, code: string, until: int, now: int)

  datatype Pc = Transacting | ReadingRegistry | ReadingClaim(row: Registry) | Marking(until: int)
              | Returned(id: string, claim: Claim) | Refused

  datatype Caller = Caller(request: Request, pc: Pc)

  /** What a code was spent on, for good. */
  datatype Grant = Grant(id: string, scope: Scope, nonce: Nonce, until: int)

  /** `spent` is history. */
  datatype State = State(t: Tables, callers: map<nat, Caller>, spent: map<CodeHash, Grant>)

  /** How the transaction ends for its caller: answered, cancelled for a reason that is no condition, retried by the
      client after its answer was lost, or an unrelated error before or after it took effect. */
  datatype Reply = Answered | Contended | RetriedAfterLoss | LostBefore | LostAfter

  datatype Event =
    | Call(caller: nat, request: Request)
    | Step(caller: nat, reply: Reply)
    | Backend(op: Op)

  function OpOf(q: Request): Op { Register(q.id, q.serial, q.scope, q.code, q.until, q.now) }

  function NonceOf(q: Request): Nonce { Nonce(q.scope, q.serial, q.code) }

  function ProofOf(q: Request): Proof { Proof(q.scope, q.serial, q.code) }

  function HashOf(q: Request): CodeHash { CodeHash(q.serial, q.code) }

  function At(s: State, k: nat, pc: Pc): State
    requires k in s.callers
  {
    s.(callers := s.callers[k := s.callers[k].(pc := pc)])
  }

  function Consume(s: State, q: Request): State {
    if Enabled(s.t, OpOf(q)) then s.(t := Apply(s.t, OpOf(q)), spent := s.spent[HashOf(q) := Grant(q.id, q.scope, NonceOf(q), q.until)]) else s
  }

  function Transact(s: State, k: nat, reply: Reply): State
    requires k in s.callers
  {
    var q := s.callers[k].request;
    match reply
    case Answered => if Enabled(s.t, OpOf(q)) then At(Consume(s, q), k, Returned(q.id, NewClaim(OpOf(q)))) else At(s, k, ReadingRegistry)
    case Contended => At(s, k, ReadingRegistry)
    case RetriedAfterLoss => At(Consume(s, q), k, ReadingRegistry)
    case LostBefore => At(s, k, Refused)
    case LostAfter => At(Consume(s, q), k, Refused)
  }

  /** The reservation is this caller's, by the same code. */
  predicate Recoverable(g: Registry, q: Request) {
    && g.status == Reserved && g.scope == Some(q.scope) && g.proof == Some(ProofOf(q)) && g.nonce == Some(NonceOf(q))
    && g.claimId.Some? && g.reservationExpiresAt.Some?
  }

  function AfterRegistry(t: Tables, q: Request): Pc {
    if q.serial !in t.registry || !Recoverable(t.registry[q.serial], q) then Refused
    else if t.registry[q.serial].reservationExpiresAt.value <= q.now then Marking(t.registry[q.serial].reservationExpiresAt.value)
    else ReadingClaim(t.registry[q.serial])
  }

  predicate StillPending(t: Tables, row: Registry, q: Request) {
    && row.claimId.Some? && row.claimId.value in t.claims
    && var c := t.claims[row.claimId.value];
    && c.scope == q.scope && c.serial == q.serial && c.nonce == NonceOf(q)
    && c.status == Pending && c.expiresAt == row.reservationExpiresAt
  }

  function AfterClaim(t: Tables, row: Registry, q: Request): Pc {
    if StillPending(t, row, q) then Returned(row.claimId.value, t.claims[row.claimId.value]) else Refused
  }

  function Next(s: State, e: Event): State {
    match e
    case Call(k, q) => if k in s.callers then s else s.(callers := s.callers[k := Caller(q, Transacting)])
    case Step(k, reply) =>
      if k !in s.callers then s
      else
        var q := s.callers[k].request;
        (match s.callers[k].pc
         case Transacting => Transact(s, k, reply)
         case ReadingRegistry => At(s, k, if reply == Answered then AfterRegistry(s.t, q) else Refused)
         case ReadingClaim(row) => At(s, k, if reply == Answered then AfterClaim(s.t, row, q) else Refused)
         case Marking(until) =>
           var marked := if reply == LostBefore then s.t else Apply(s.t, MarkReissue(q.serial, ProofOf(q), until, q.now));
           At(s.(t := marked), k, Refused)
         case _ => s)
    case Backend(op) => if op.Register? then s else s.(t := Apply(s.t, op))
  }

  function Run(s: State, events: seq<Event>): State {
    if events == [] then s else Next(Run(s, events[..|events| - 1]), events[|events| - 1])
  }

  const START := State(EMPTY, map[], map[])

  /** A registry row that can still be claimed has an unspent code; one that was claimed has spent its code on that claim. */
  predicate RowSpends(spent: map<CodeHash, Grant>, used: set<CodeHash>, s: string, g: Registry) {
    && (g.code.Some? ==> g.code.value in used && g.code.value !in spent)
    && (g.status == Reserved && g.nonce.Some? && g.claimId.Some? && g.scope.Some? ==>
          && CodeHash(s, g.nonce.value.code) in spent && g.reservationExpiresAt.Some?
          && spent[CodeHash(s, g.nonce.value.code)] == Grant(g.claimId.value, g.scope.value, g.nonce.value, g.reservationExpiresAt.value))
  }

  predicate GrantOk(spent: map<CodeHash, Grant>, t: Tables, h: CodeHash)
    requires h in spent
  {
    h in t.usedCodes && spent[h].id in t.usedClaims && spent[h].nonce == Nonce(spent[h].scope, h.serial, h.code)
  }

  ghost predicate CodesOk(s: State) {
    && GrantsOk(s.spent, s.t)
    && (forall x :: x in s.t.registry ==> RowSpends(s.spent, s.t.usedCodes, x, s.t.registry[x]))
  }

  predicate Granted(spent: map<CodeHash, Grant>, q: Request, id: string) {
    HashOf(q) in spent && spent[HashOf(q)].id == id && spent[HashOf(q)].scope == q.scope && spent[HashOf(q)].nonce == NonceOf(q)
  }

  predicate CallerOk(spent: map<CodeHash, Grant>, c: Caller) {
    match c.pc
    case ReadingClaim(row) => row.claimId.Some? && Granted(spent, c.request, row.claimId.value)
    case Returned(id, claim) => Granted(spent, c.request, id) && claim.scope == c.request.scope && claim.nonce == NonceOf(c.request)
                                && claim.serial == c.request.serial
    case _ => true
  }

  ghost predicate Good(s: State) {
    Inv(s.t) && CodesOk(s) && forall k :: k in s.callers ==> CallerOk(s.spent, s.callers[k])
  }

  /** What one write does to the code and the reservation of a row. */
  lemma WriteSpends(r: Rows, s: string, op: Op)
    requires Allows(r, op) && RowsOk(r, s, IdOf(op)) && Fits(r, s, op)
    ensures var w := Write(r, op);
            w.registry.Some? ==>
              && (w.registry.value.code.Some? ==> (r.registry.Some? && w.registry.value.code == r.registry.value.code) || (op.Issue? && w.registry.value.code == Some(CodeHash(s, op.code))))
              && (w.registry.value.status == Reserved && !op.Register? ==>
                    r.registry.Some? && r.registry.value.status == Reserved && w.registry.value.nonce == r.registry.value.nonce
                    && w.registry.value.claimId == r.registry.value.claimId && w.registry.value.scope == r.registry.value.scope
                    && w.registry.value.reservationExpiresAt == r.registry.value.reservationExpiresAt)
              && (op.Register? ==> w.registry.value.code.None? && w.registry.value.nonce == Some(Nonce(op.scope, s, op.code))
                                   && w.registry.value.claimId == Some(op.id) && w.registry.value.scope == Some(op.scope)
                                   && w.registry.value.reservationExpiresAt == Some(op.until)
                                   && r.registry.Some? && r.registry.value.code == Some(CodeHash(s, op.code)))
  {
  }

  /** One operation, seen by one registry row. */
  lemma ApplyKeepsRow(s: State, op: Op, x: string)
    requires Inv(s.t) && CodesOk(s) && Enabled(s.t, op) && x in Apply(s.t, op).registry
    ensures var spent := if op.Register? then s.spent[CodeHash(op.serial, op.code) := Grant(op.id, op.scope, Nonce(op.scope, op.serial, op.code), op.until)] else s.spent;
            RowSpends(spent, Apply(s.t, op).usedCodes, x, Apply(s.t, op).registry[x])
  {
    var r := RowsAt(s.t, SerialOf(s.t, op), IdOf(op));
    AppliedRows(s.t, op, x, IdOf(op));
    assert RowsAt(Apply(s.t, op), x, IdOf(op)).registry == Some(Apply(s.t, op).registry[x]);
    WriteSpends(r, SerialOf(s.t, op), op);
    CodesAreFresh(s.t, op);
    RegisterRow(s.t, op);
    hide Inv, RowsOk, Allows, Write, Apply, Enabled;
    if x != SerialOf(s.t, op) {
      assert RowsAt(s.t, x, IdOf(op)).registry == Some(s.t.registry[x]);
      OtherCode(s, op, x);
    }
  }

  lemma RegisterRow(t: Tables, op: Op)
    requires Enabled(t, op)
    ensures op.Register? ==> op.serial in t.registry && t.registry[op.serial].code == Some(CodeHash(op.serial, op.code))
  {
  }

  lemma CodesAreFresh(t: Tables, op: Op)
    requires Enabled(t, op)
    ensures t.usedCodes <= Apply(t, op).usedCodes && t.usedClaims <= Apply(t, op).usedClaims
    ensures op.Register? ==> op.id !in t.usedClaims && op.id in Apply(t, op).usedClaims
    ensures op.Issue? ==> CodeHash(op.serial, op.code) in Apply(t, op).usedCodes && CodeHash(op.serial, op.code) !in t.usedCodes
  {
  }

  /** A code names its serial, so spending it concerns no other row. */
  lemma OtherCode(s: State, op: Op, x: string)
    requires Inv(s.t) && x in s.t.registry && x != SerialOf(s.t, op)
    ensures s.t.registry[x].code.Some? ==> s.t.registry[x].code.value.serial == x
  {
    assert RowsOk(RowsAt(s.t, x, ""), x, "");
  }

  lemma ApplyKeepsCodes(s: State, op: Op)
    requires Inv(s.t) && CodesOk(s) && !op.Register?
    ensures Inv(Apply(s.t, op)) && CodesOk(s.(t := Apply(s.t, op)))
  {
    ApplyKeepsInv(s.t, op);
    if Enabled(s.t, op) {
      CodesAreFresh(s.t, op);
      forall x | x in Apply(s.t, op).registry ensures RowSpends(s.spent, Apply(s.t, op).usedCodes, x, Apply(s.t, op).registry[x]) {
        ApplyKeepsRow(s, op, x);
      }
    }
  }

  ghost predicate GrantsOk(spent: map<CodeHash, Grant>, t: Tables) {
    && (forall h :: h in spent ==> GrantOk(spent, t, h))
    && (forall h, k :: h in spent && k in spent && spent[h].id == spent[k].id ==> h == k)
  }

  /** A new grant names a claim id that no other grant names. */
  lemma SpendKeepsGrants(s: State, q: Request)
    requires GrantsOk(s.spent, s.t) && Enabled(s.t, OpOf(q)) && HashOf(q) in s.t.usedCodes
    ensures GrantsOk(s.spent[HashOf(q) := Grant(q.id, q.scope, NonceOf(q), q.until)], Apply(s.t, OpOf(q)))
  {
    CodesAreFresh(s.t, OpOf(q));
    var spent := s.spent[HashOf(q) := Grant(q.id, q.scope, NonceOf(q), q.until)];
    hide Apply, Enabled;
    forall h | h in spent ensures GrantOk(spent, Apply(s.t, OpOf(q)), h) {
      if h != HashOf(q) { assert GrantOk(s.spent, s.t, h); }
    }
    forall h, k | h in spent && k in spent && spent[h].id == spent[k].id ensures h == k {
      if h in s.spent { assert GrantOk(s.spent, s.t, h); }
      if k in s.spent { assert GrantOk(s.spent, s.t, k); }
    }
  }

  lemma ConsumeKeepsCodes(s: State, q: Request)
    requires Inv(s.t) && CodesOk(s)
    ensures var u := Consume(s, q);
            && Inv(u.t) && CodesOk(u) && u.callers == s.callers
            && (Enabled(s.t, OpOf(q)) ==> Granted(u.spent, q, q.id))
            && Keeps(s.spent, u.spent)
  {
    var op := OpOf(q);
    ApplyKeepsInv(s.t, op);
    if Enabled(s.t, op) {
      RegisterRow(s.t, op);
      assert RowSpends(s.spent, s.t.usedCodes, q.serial, s.t.registry[q.serial]);
      SpendKeepsGrants(s, q);
      forall x | x in Apply(s.t, op).registry ensures RowSpends(Consume(s, q).spent, Apply(s.t, op).usedCodes, x, Apply(s.t, op).registry[x]) {
        ApplyKeepsRow(s, op, x);
      }
      hide Inv, Apply, Enabled, RowSpends, GrantOk, GrantsOk;
    }
  }

  /** What a caller reads of a reservation is what its code was spent on. */
  lemma ReadsTheGrant(s: State, q: Request)
    requires Good(s)
    ensures var pc := AfterRegistry(s.t, q); pc.ReadingClaim? ==> pc.row.claimId.Some? && Granted(s.spent, q, pc.row.claimId.value)
  {
    if q.serial in s.t.registry {
      assert RowSpends(s.spent, s.t.usedCodes, q.serial, s.t.registry[q.serial]);
    }
  }

  lemma AtKeepsGood(s: State, k: nat, pc: Pc)
    requires Good(s) && k in s.callers && CallerOk(s.spent, s.callers[k].(pc := pc))
    ensures Good(At(s, k, pc))
  {
    hide Inv, RowSpends;
  }

  /** More grants hurt no caller. */
  lemma ConsumeKeepsGood(s: State, q: Request)
    requires Good(s)
    ensures Good(Consume(s, q)) && Consume(s, q).callers == s.callers
    ensures Enabled(s.t, OpOf(q)) ==> Granted(Consume(s, q).spent, q, q.id)
  {
    ConsumeKeepsCodes(s, q);
    hide Inv, Consume, CodesOk, Enabled;
    forall k | k in s.callers ensures CallerOk(Consume(s, q).spent, s.callers[k]) {
      assert CallerOk(s.spent, s.callers[k]);
    }
  }

  lemma TransactKeepsGood(s: State, k: nat, reply: Reply)
    requires Good(s) && k in s.callers
    ensures Good(Transact(s, k, reply))
  {
    var q := s.callers[k].request;
    ConsumeKeepsGood(s, q);
    hide Good, Consume, Enabled, Granted;
    match reply
    case Answered =>
      if Enabled(s.t, OpOf(q)) { AtKeepsGood(Consume(s, q), k, Returned(q.id, NewClaim(OpOf(q)))); } else { AtKeepsGood(s, k, ReadingRegistry); }
    case Contended => AtKeepsGood(s, k, ReadingRegistry);
    case RetriedAfterLoss => AtKeepsGood(Consume(s, q), k, ReadingRegistry);
    case LostBefore => AtKeepsGood(s, k, Refused);
    case LostAfter => AtKeepsGood(Consume(s, q), k, Refused);
  }

  lemma ReadsKeepGood(s: State, k: nat, reply: Reply)
    requires Good(s) && k in s.callers && (s.callers[k].pc.ReadingRegistry? || s.callers[k].pc.ReadingClaim?)
    ensures Good(Next(s, Step(k, reply)))
  {
    var q := s.callers[k].request;
    ReadsTheGrant(s, q);
    assert CallerOk(s.spent, s.callers[k]);
    hide Good, AfterRegistry, Granted;
    AtKeepsGood(s, k, Next(s, Step(k, reply)).callers[k].pc);
  }

  lemma StepKeepsGood(s: State, k: nat, reply: Reply)
    requires Good(s) && k in s.callers
    ensures Good(Next(s, Step(k, reply)))
  {
    var q := s.callers[k].request;
    match s.callers[k].pc
    case Transacting => TransactKeepsGood(s, k, reply);
    case ReadingRegistry => ReadsKeepGood(s, k, reply);
    case ReadingClaim(_) => ReadsKeepGood(s, k, reply);
    case Marking(until) =>
      ApplyKeepsCodes(s, MarkReissue(q.serial, ProofOf(q), until, q.now));
      hide CodesOk, Apply, Inv;
      AtKeepsGood(s.(t := if reply == LostBefore then s.t else Apply(s.t, MarkReissue(q.serial, ProofOf(q), until, q.now))), k, Refused);
    case Returned(_, _) =>
    case Refused =>
  }

  lemma NextKeepsGood(s: State, e: Event)
    requires Good(s)
    ensures Good(Next(s, e))
  {
    match e
    case Call(_, _) =>
    case Step(k, reply) => if k in s.callers { StepKeepsGood(s, k, reply); }
    case Backend(op) => if !op.Register? { ApplyKeepsCodes(s, op); }
  }

  predicate Keeps(spent: map<CodeHash, Grant>, later: map<CodeHash, Grant>) {
    forall h :: h in spent ==> h in later && later[h] == spent[h]
  }

  lemma ConsumeKeepsGrants(s: State, q: Request)
    requires Good(s)
    ensures Keeps(s.spent, Consume(s, q).spent)
  {
    ConsumeKeepsCodes(s, q);
  }

  lemma NextKeepsGrants(s: State, e: Event)
    requires Good(s)
    ensures Keeps(s.spent, Next(s, e).spent)
  {
    assert Keeps(s.spent, s.spent);
    hide Good, Keeps;
    if e.Step? && e.caller in s.callers {
      ConsumeKeepsGrants(s, s.callers[e.caller].request);
    }
    hide Consume, AfterRegistry, AfterClaim, Apply, Enabled;
  }

  lemma {:induction false} RunKeepsGood(s: State, events: seq<Event>)
    requires Good(s)
    ensures Good(Run(s, events))
    ensures Keeps(s.spent, Run(s, events).spent)
  {
    if events != [] {
      RunKeepsGood(s, events[..|events| - 1]);
      NextKeepsGood(Run(s, events[..|events| - 1]), events[|events| - 1]);
      NextKeepsGrants(Run(s, events[..|events| - 1]), events[|events| - 1]);
      hide Good, Next;
    }
  }

  ghost predicate Reachable(s: State) { exists events :: s == Run(START, events) }

  lemma ReachableIsGood(s: State)
    requires Reachable(s)
    ensures Good(s)
  {
    var events :| s == Run(START, events);
    RunKeepsGood(START, events);
  }

  /** Single use, and safe to retry: all calls that succeed for one serial and code were made for one owner, tenant and
      pool, and get one claim id and one nonce. */
  lemma RegistrationIsSingleUse(s: State, j: nat, k: nat)
    requires Reachable(s) && j in s.callers && k in s.callers && s.callers[j].pc.Returned? && s.callers[k].pc.Returned?
    requires HashOf(s.callers[j].request) == HashOf(s.callers[k].request)
    ensures var a, b := s.callers[j], s.callers[k];
            && a.pc.id == b.pc.id && a.pc.claim.nonce == b.pc.claim.nonce == NonceOf(a.request)
            && a.pc.claim.scope == b.pc.claim.scope == a.request.scope == b.request.scope
            && a.pc.claim.serial == b.pc.claim.serial == a.request.serial
  {
    ReachableIsGood(s);
    assert CallerOk(s.spent, s.callers[j]) && CallerOk(s.spent, s.callers[k]);
  }

  /** Only one code was ever issued for the serial. */
  ghost predicate OneCode(t: Tables, serial: string) {
    forall h, g :: h in t.usedCodes && g in t.usedCodes && h.serial == g.serial == serial ==> h == g
  }

  /** Per serial, whatever codes the callers try: while only one code was ever issued for it, all calls that succeed were made
      with that one code, for one owner, tenant and pool, and get one claim id and one nonce. */
  lemma SerialIsClaimedOnce(s: State, j: nat, k: nat)
    requires Reachable(s) && j in s.callers && k in s.callers && s.callers[j].pc.Returned? && s.callers[k].pc.Returned?
    requires s.callers[j].request.serial == s.callers[k].request.serial && OneCode(s.t, s.callers[j].request.serial)
    ensures var a, b := s.callers[j], s.callers[k];
            && a.request.code == b.request.code && a.request.scope == b.request.scope
            && a.pc.id == b.pc.id && a.pc.claim.nonce == b.pc.claim.nonce && a.pc.claim.scope == b.pc.claim.scope == a.request.scope
  {
    ReachableIsGood(s);
    hide Run;
    assert CallerOk(s.spent, s.callers[j]) && CallerOk(s.spent, s.callers[k]);
    assert GrantOk(s.spent, s.t, HashOf(s.callers[j].request)) && GrantOk(s.spent, s.t, HashOf(s.callers[k].request));
    hide Inv;
    RegistrationIsSingleUse(s, j, k);
  }

  /** The repository's own behaviour: a manufacturing row is only ever put where there is none. */
  ghost predicate WithoutReissue(events: seq<Event>) {
    forall i :: 0 <= i < |events| && events[i].Backend? && events[i].op.Issue? ==>
      events[i].op.serial !in Run(START, events[..i]).t.registry
  }

  /** Then a serial has one code, and a row once it has a code. */
  ghost predicate Unissued(t: Tables) {
    (forall x :: OneCode(t, x)) && (forall h :: h in t.usedCodes ==> h.serial in t.registry)
  }

  lemma ApplyKeepsUnissued(t: Tables, op: Op)
    requires Unissued(t) && (op.Issue? ==> op.serial !in t.registry)
    ensures Unissued(Apply(t, op))
  {
    RegistryStays(t, op);
    CodesGrow(t, op);
    hide Apply, Enabled;
    forall x
      ensures OneCode(Apply(t, op), x)
    {
      assert OneCode(t, x);
    }
  }

  lemma RegistryStays(t: Tables, op: Op)
    ensures forall x :: x in t.registry ==> x in Apply(t, op).registry
    ensures op.Issue? && Enabled(t, op) ==> op.serial in Apply(t, op).registry
  {
    if Enabled(t, op) {
      var r := RowsAt(t, SerialOf(t, op), IdOf(op));
      RowStays(r, op);
      hide Allows, Write;
    }
  }

  lemma RowStays(r: Rows, op: Op)
    requires Allows(r, op)
    ensures (r.registry.Some? || op.Issue?) ==> Write(r, op).registry.Some?
  {
  }

  lemma CodesGrow(t: Tables, op: Op)
    ensures Apply(t, op).usedCodes == if op.Issue? && Enabled(t, op) then t.usedCodes + {CodeHash(op.serial, op.code)} else t.usedCodes
  {
  }

  lemma NextKeepsUnissued(s: State, e: Event)
    requires Unissued(s.t) && (e.Backend? && e.op.Issue? ==> e.op.serial !in s.t.registry)
    ensures Unissued(Next(s, e).t)
  {
    if e.Backend? {
      ApplyKeepsUnissued(s.t, e.op);
    } else if e.Step? && e.caller in s.callers {
      var q := s.callers[e.caller].request;
      ApplyKeepsUnissued(s.t, OpOf(q));
      match s.callers[e.caller].pc
      case Marking(until) => ApplyKeepsUnissued(s.t, MarkReissue(q.serial, ProofOf(q), until, q.now));
      case Transacting =>
      case ReadingRegistry =>
      case ReadingClaim(_) =>
      case Returned(_, _) =>
      case Refused =>
    }
    hide Unissued, Apply, Enabled;
  }

  lemma {:induction false} WithoutReissueOneCode(events: seq<Event>)
    requires WithoutReissue(events)
    ensures Unissued(Run(START, events).t)
  {
    if events != [] {
      var prefix := events[..|events| - 1];
      forall i | 0 <= i < |prefix| && prefix[i].Backend? && prefix[i].op.Issue?
        ensures prefix[i].op.serial !in Run(START, prefix[..i]).t.registry
      {
        assert events[i] == prefix[i] && events[..i] == prefix[..i];
      }
      WithoutReissueOneCode(prefix);
      assert events[|prefix|] == events[|events| - 1] && events[..|prefix|] == prefix;
      hide Unissued, Next, START;
      NextKeepsUnissued(Run(START, prefix), events[|events| - 1]);
    }
  }

  /** So with no reissue in the run, at most one registration of a serial ever succeeds, whoever calls with whatever code: all
      successful returns for the serial are for one user's tenant and pool, with one claim id and one nonce. */
  lemma SerialIsRegisteredOnce(events: seq<Event>, j: nat, k: nat)
    requires WithoutReissue(events)
    requires var s := Run(START, events); j in s.callers && k in s.callers && s.callers[j].pc.Returned? && s.callers[k].pc.Returned?
    requires var s := Run(START, events); s.callers[j].request.serial == s.callers[k].request.serial
    ensures var s := Run(START, events);
            var a, b := s.callers[j], s.callers[k];
            && a.request.code == b.request.code && a.request.scope == b.request.scope
            && a.pc.id == b.pc.id && a.pc.claim.nonce == b.pc.claim.nonce && a.pc.claim.scope == b.pc.claim.scope == a.request.scope
  {
    WithoutReissueOneCode(events);
    var s := Run(START, events);
    assert Reachable(s);
    hide Run, Reachable, START;
    SerialIsClaimedOnce(s, j, k);
  }

  /** A code that was consumed is never again the code of a manufacturing row. */
  lemma ConsumedCodeStaysConsumed(s: State, more: seq<Event>, h: CodeHash, x: string)
    requires Reachable(s) && h in s.spent
    ensures var t := Run(s, more); x in t.t.registry ==> t.t.registry[x].code != Some(h)
  {
    ReachableIsGood(s);
    RunKeepsGood(s, more);
    var t := Run(s, more);
    hide Run;
    if x in t.t.registry { assert RowSpends(t.spent, t.t.usedCodes, x, t.t.registry[x]); }
  }

  /** A call with nobody between its steps. */
  function Alone(s: State, q: Request): Pc {
    if Enabled(s.t, OpOf(q)) then Returned(q.id, NewClaim(OpOf(q)))
    else match AfterRegistry(s.t, q)
      case ReadingClaim(row) => AfterClaim(s.t, row, q)
      case _ => Refused
  }

  /** A retry after the code was consumed finds the first call's claim exactly while the reservation is its own user's,
      has not expired at the caller's clock, and the claim is still pending; otherwise it gets nothing. */
  lemma RetryFindsClaim(s: State, q: Request)
    requires Reachable(s) && HashOf(q) in s.spent
    ensures var g := s.spent[HashOf(q)];
            && (Alone(s, q).Returned? <==>
                  && g.scope == q.scope && g.id in s.t.claims && s.t.claims[g.id].status == Pending
                  && q.serial in s.t.registry && s.t.registry[q.serial].status == Reserved && s.t.registry[q.serial].claimId == Some(g.id)
                  && q.now < g.until)
            && (Alone(s, q).Returned? ==> Alone(s, q).id == g.id)
  {
    ReachableIsGood(s);
    SpentIsNotEnabled(s, q);
    var g := s.spent[HashOf(q)];
    if q.serial in s.t.registry {
      assert RowSpends(s.spent, s.t.usedCodes, q.serial, s.t.registry[q.serial]);
      ReservationAgrees(s.t, q.serial, g.id);
    }
    hide Inv, Enabled, Good, Run;
  }

  /** The same for a caller of the machine, whether its transaction was refused, cancelled by a conflict, or retried after its answer was
      lost: recovery follows, and finds the first call's claim exactly then. */
  lemma RetryRuns(s: State, k: nat, reply: Reply)
    requires Reachable(s) && k in s.callers && s.callers[k].pc == Transacting && HashOf(s.callers[k].request) in s.spent
    requires reply in {Answered, Contended, RetriedAfterLoss}
    ensures var q := s.callers[k].request;
            var g := s.spent[HashOf(q)];
            var t := Next(Next(Next(s, Step(k, reply)), Step(k, Answered)), Step(k, Answered));
            && k in t.callers
            && (t.callers[k].pc.Returned? <==>
                  && g.scope == q.scope && g.id in s.t.claims && s.t.claims[g.id].status == Pending
                  && q.serial in s.t.registry && s.t.registry[q.serial].status == Reserved && s.t.registry[q.serial].claimId == Some(g.id)
                  && q.now < g.until)
            && (t.callers[k].pc.Returned? ==> t.callers[k].pc.id == g.id)
  {
    var q := s.callers[k].request;
    ReachableIsGood(s);
    SpentIsNotEnabled(s, q);
    RetryFindsClaim(s, q);
    hide Reachable, Good, Enabled, Apply, Recoverable, StillPending;
    var t1 := Next(s, Step(k, reply));
    assert t1 == At(s, k, ReadingRegistry);
    var t2 := Next(t1, Step(k, Answered));
    assert t2 == At(s, k, AfterRegistry(s.t, q));
  }

  lemma SpentIsNotEnabled(s: State, q: Request)
    requires Good(s) && HashOf(q) in s.spent
    ensures !Enabled(s.t, OpOf(q))
  {
    if q.serial in s.t.registry {
      assert RowSpends(s.spent, s.t.usedCodes, q.serial, s.t.registry[q.serial]);
    }
  }

  lemma ReservationAgrees(t: Tables, x: string, id: string)
    requires Inv(t) && x in t.registry
    ensures RegistryShape(t.registry[x], x)
    ensures id in t.claims && t.registry[x].status == Reserved && t.registry[x].claimId == Some(id) ==>
              t.claims[id].serial == x && t.registry[x].scope == Some(t.claims[id].scope) && t.registry[x].nonce == Some(t.claims[id].nonce)
              && t.registry[x].reservationExpiresAt == t.claims[id].expiresAt
  {
    assert RowsOk(RowsAt(t, x, id), x, id);
  }

  /** What is left of a call with nobody between its steps: the code is consumed, or an expired reservation is marked. */
  function AloneTables(t: Tables, q: Request): Tables {
    if Enabled(t, OpOf(q)) then Apply(t, OpOf(q))
    else match AfterRegistry(t, q)
      case Marking(until) => Apply(t, MarkReissue(q.serial, ProofOf(q), until, q.now))
      case _ => t
  }

  /** The registrar as the adapter runs it. */
  /** An answer that was lost is found again: when the client's retry meets the caller's own claim, recovery returns that claim, while its
      reservation lasts. */
  lemma LostAnswerIsFound(s: State, k: nat)
    requires Inv(s.t) && k in s.callers && s.callers[k].pc == Transacting
    requires var q := s.callers[k].request; q.id !in s.t.usedClaims && Claimable(s.t, q.serial, q.code, q.now) && q.now < q.until
    ensures var q := s.callers[k].request;
            var t := Next(Next(Next(s, Step(k, RetriedAfterLoss)), Step(k, Answered)), Step(k, Answered));
            && k in t.callers && t.callers[k].pc.Returned? && t.callers[k].pc.id == q.id
            && Get(t.t.claims, q.id) == Some(t.callers[k].pc.claim) && t.callers[k].pc.claim.scope == q.scope && t.callers[k].pc.claim.serial == q.serial
  {
    var q := s.callers[k].request;
    CanBeClaimed(s.t, q.id, q.serial, q.scope, q.code, q.until, q.now);
    ClaimableIsEnabled(s.t, q);
    hide Inv, Apply, Enabled, Claimable;
    var t1 := Next(s, Step(k, RetriedAfterLoss));
    assert t1.callers[k].pc == ReadingRegistry;
    var t2 := Next(t1, Step(k, Answered));
    assert t2.callers[k].pc == ReadingClaim(t1.t.registry[q.serial]);
  }

  lemma ClaimableIsEnabled(t: Tables, q: Request)
    requires Inv(t) && q.id !in t.usedClaims && Claimable(t, q.serial, q.code, q.now)
    ensures Enabled(t, OpOf(q))
  {
  }

  lemma OwnProofRecovers(t: Tables, q: Request)
    requires Inv(t) && q.serial in t.registry && t.registry[q.serial].status == Reserved && t.registry[q.serial].proof == Some(ProofOf(q))
    ensures t.registry[q.serial].reservationExpiresAt.Some? ==> Recoverable(t.registry[q.serial], q)
  {
    assert RowsOk(RowsAt(t, q.serial, ""), q.serial, "");
  }

  class Registrar {
    var t: Tables

    constructor ()
      ensures t == EMPTY
    {
      t := EMPTY;
    }

    /** One transaction; after a conflict, whatever recovery finds. An undisturbed call answers as `Alone` says, a second
        one made at once with the same code included. */
    method CreateClaim(q: Request) returns (result: Option<(string, Claim)>)
      modifies this
      ensures result == (match Alone(State(old(t), map[], map[]), q) case Returned(id, claim) => Some((id, claim)) case _ => None)
      ensures t == AloneTables(old(t), q)
      ensures Inv(old(t)) && q.id !in old(t).usedClaims && Claimable(old(t), q.serial, q.code, q.now) ==>
                var claim := Claim(q.serial, q.scope, Nonce(q.scope, q.serial, q.code), Pending, None, None, None, Some(q.until), None, None);
                && result == Some((q.id, claim)) && Get(t.claims, q.id) == Some(claim) && Get(t.locks, q.serial) == Some(Lock(q.id, Some(q.until), None, None))
                && q.serial in t.registry && t.registry[q.serial].status == Reserved && t.registry[q.serial].claimId == Some(q.id)
                && t.registry[q.serial].reservationExpiresAt == Some(q.until) && t.registry[q.serial].code.None?
    {
      if Inv(t) && q.id !in t.usedClaims && Claimable(t, q.serial, q.code, q.now) {
        CanBeClaimed(t, q.id, q.serial, q.scope, q.code, q.until, q.now);
        ClaimableIsEnabled(t, q);
      }
      hide Inv, Apply, Enabled, Claimable;
      if Enabled(t, OpOf(q)) {
        t := Apply(t, OpOf(q));
        return Some((q.id, NewClaim(OpOf(q))));
      }
      result := RecoverClaim(q);
    }

    method RecoverClaim(q: Request) returns (result: Option<(string, Claim)>)
      modifies this
      ensures result == (match AfterRegistry(old(t), q)
                         case ReadingClaim(row) =>
                           if StillPending(old(t), row, q) then Some((row.claimId.value, old(t).claims[row.claimId.value])) else None
                         case _ => None)
      ensures t == (match AfterRegistry(old(t), q)
                    case Marking(until) => Apply(old(t), MarkReissue(q.serial, ProofOf(q), until, q.now))
                    case _ => old(t))
      ensures Inv(old(t)) && q.serial in old(t).registry && old(t).registry[q.serial].status == Reserved
              && old(t).registry[q.serial].proof == Some(ProofOf(q)) && old(t).registry[q.serial].reservationExpiresAt.Some?
              && old(t).registry[q.serial].reservationExpiresAt.value <= q.now ==>
                result.None? && q.serial in t.registry && t.registry[q.serial].status == ReissueRequired && t.registry[q.serial].claimId.None?
    {
      if Inv(t) && q.serial in t.registry && t.registry[q.serial].status == Reserved && t.registry[q.serial].proof == Some(ProofOf(q)) {
        OwnProofRecovers(t, q);
        if t.registry[q.serial].reservationExpiresAt.Some? {
          EndedReservationReopens(t, q.serial, ProofOf(q), t.registry[q.serial].reservationExpiresAt.value, q.now);
        }
      }
      hide Inv, Apply, Enabled;
      if q.serial !in t.registry || !Recoverable(t.registry[q.serial], q) {
        return None;
      }
      var registry := t.registry[q.serial];
      if registry.reservationExpiresAt.value <= q.now {
        MarkReissueRequired(q, registry.reservationExpiresAt.value);
        return None;
      }
      if !StillPending(t, registry, q) {
        return None;
      }
      return Some((registry.claimId.value, t.claims[registry.claimId.value]));
    }

    method MarkReissueRequired(q: Request, until: int)
      modifies this
      ensures t == Apply(old(t), MarkReissue(q.serial, ProofOf(q), until, q.now))
    {
      if Enabled(t, MarkReissue(q.serial, ProofOf(q), until, q.now)) {
        t := Apply(t, MarkReissue(q.serial, ProofOf(q), until, q.now));
      }
    }
  }
}

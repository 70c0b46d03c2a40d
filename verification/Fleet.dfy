/** Fleet enrolment on the device: an event-driven exchange with AWS IoT, with retries, reconnects and reboots, guarded
    by two flags in NVS. */
module Fleet {
  import opened Common

  /** What one create response holds. */
  datatype Identity = Identity(certificate: string, key: string, id: string, token: string)

  datatype Phase = Idle | SubscribeCreate | WaitCreate | SubscribeRegister | WaitRegister | DonePhase | FailedPhase

  datatype Nvs = Nvs(issued: bool, started: bool, certificate: Option<string>, key: Option<string>, thing: Option<string>, topic: Option<string>)

  /** The static variables. `createStarted` is `s_create_request_started`; `done` is the DONE bit of the attempt. */
  datatype Ram = Ram(attempt: nat, phase: Phase, subscriptions: nat, pending: Option<Identity>, createStarted: bool, done: bool)

  /** `creates`, `accepted` and `registered` are history: certificate requests published, the create response taken, and
      the certificate id of the last RegisterThing. */
  datatype State = State(nvs: Nvs, ram: Option<Ram>, creates: nat, accepted: Option<Identity>, registered: Option<string>)

  const RETRY_LIMIT: nat := 3

  /** How a read of a flag ends; absence is an answer. */
  datatype Read = Answers | Errors

  /** How `store_issued` ends: the first `durable` of its six key writes reached flash, and it returned `ok`. */
  datatype Store = Store(durable: nat, ok: bool, valid: bool)

  datatype Mark = Mark(read: Read, durable: bool, ok: bool)

  datatype Message =
    | CreateAccepted(identity: Option<Identity>, memory: bool, subscribed: bool)
    | CreateRejected
    | RegisterAccepted(thing: string, topic: string, wellFormed: bool, store: Store)
    | RegisterRejected
    | Unreadable

  datatype Event =
    | PowerLoss
    | StartTask(issuedRead: Read, recoveryRead: Read, ready: bool)
    | Connected(subscribed: bool)
    | Subscribed(mark: Mark, registrationSent: bool, publishOk: bool)
    | Data(message: Message)
    | Dropped
    | EndAttempt(seen: bool)

  function Fail(r: Ram): Ram { if r.phase == DonePhase || r.phase == FailedPhase then r else r.(phase := FailedPhase) }

  /** The six key writes of `store_issued`, in order, cut after the first `n`. */
  function Written(v: Nvs, x: Identity, thing: string, topic: string, n: nat): Nvs {
    var a := if n >= 1 then v.(certificate := Some(x.certificate)) else v;
    var b := if n >= 2 then a.(key := Some(x.key)) else a;
    var c := if n >= 3 then b.(thing := Some(thing)) else b;
    var d := if n >= 4 then c.(topic := Some(topic)) else c;
    var e := if n >= 5 then d.(started := false) else d;
    if n >= 6 then e.(issued := true) else e
  }

  function OnConnected(r: Ram, subscribed: bool): Ram {
    var next := r.(phase := if r.pending.Some? then SubscribeRegister else SubscribeCreate, subscriptions := 2);
    if subscribed then next else Fail(next)
  }

  /** `mark_enrollment_started` refuses when the identity is issued, or when it cannot tell. */
  predicate Marks(v: Nvs, m: Mark) { m.read == Answers && !v.issued && m.ok && m.durable }

  function AfterMark(v: Nvs, m: Mark): Nvs {
    if m.read == Answers && !v.issued && m.durable then v.(started := true) else v
  }

  function OnSubscribed(s: State, r: Ram, m: Mark, registrationSent: bool, publishOk: bool): State {
    if (r.phase != SubscribeCreate && r.phase != SubscribeRegister) || r.subscriptions == 0 then s.(ram := Some(Fail(r)))
    else
      var one := r.(subscriptions := r.subscriptions - 1);
      if one.subscriptions != 0 then s.(ram := Some(one))
      else if r.phase == SubscribeCreate then
        if r.createStarted then s.(ram := Some(Fail(one)))
        else if !Marks(s.nvs, m) then s.(nvs := AfterMark(s.nvs, m), ram := Some(Fail(one)))
        else
          var asked := one.(phase := WaitCreate, createStarted := true);
          s.(nvs := AfterMark(s.nvs, m), creates := s.creates + 1, ram := Some(if publishOk then asked else Fail(asked)))
      else
        var waiting := one.(phase := WaitRegister);
        if registrationSent && r.pending.Some? then s.(registered := Some(r.pending.value.id), ram := Some(waiting))
        else s.(ram := Some(Fail(waiting)))
  }

  function OnData(s: State, r: Ram, m: Message): State {
    match m
    case CreateAccepted(identity, memory, subscribed) =>
      if r.phase != WaitCreate || identity.None? then s.(ram := Some(Fail(r)))
      else if !memory then s.(ram := Some(Fail(r.(pending := None))))
      else
        var kept := r.(pending := identity, phase := SubscribeRegister, subscriptions := 2);
        s.(accepted := identity, ram := Some(if subscribed then kept else Fail(kept)))
    case RegisterAccepted(thing, topic, wellFormed, store) =>
      if r.phase != WaitRegister || !wellFormed || r.pending.None? || !store.valid then s.(ram := Some(Fail(r)))
      else
        var nvs := Written(s.nvs, r.pending.value, thing, topic, store.durable);
        if store.ok && store.durable >= 6 then s.(nvs := nvs, ram := Some(r.(pending := None, phase := DonePhase, done := true)))
        else s.(nvs := nvs, ram := Some(Fail(r)))
    case _ => s.(ram := Some(Fail(r)))
  }

  /** `fleet_task` up to its first attempt. */
  function OnStart(s: State, issuedRead: Read, recoveryRead: Read, ready: bool): State {
    if s.ram.Some? || (issuedRead == Answers && s.nvs.issued) || recoveryRead == Errors || s.nvs.started || !ready then s
    else s.(ram := Some(Ram(1, Idle, 0, None, false, false)))
  }

  /** The end of `run_attempt`, and what the loop does with it. A DONE bit set too late may be missed. */
  function OnEnd(s: State, r: Ram, seen: bool): State {
    if (r.done && seen) || (r.createStarted && r.pending.None?) || r.attempt >= RETRY_LIMIT then s.(ram := None)
    else s.(ram := Some(r.(attempt := r.attempt + 1, phase := Idle, done := false)))
  }

  function Next(s: State, e: Event): State {
    match e
    case PowerLoss => s.(ram := None)
    case StartTask(issuedRead, recoveryRead, ready) => OnStart(s, issuedRead, recoveryRead, ready)
    case _ =>
      if s.ram.None? then s
      else
        var r := s.ram.value;
        (match e
         case Connected(subscribed) => s.(ram := Some(OnConnected(r, subscribed)))
         case Subscribed(m, registrationSent, publishOk) => OnSubscribed(s, r, m, registrationSent, publishOk)
         case Data(m) => OnData(s, r, m)
         case EndAttempt(seen) => OnEnd(s, r, seen)
         case _ => s.(ram := Some(Fail(r))))
  }

  function Run(s: State, events: seq<Event>): State {
    if events == [] then s else Next(Run(s, events[..|events| - 1]), events[|events| - 1])
  }

  const FACTORY := State(Nvs(false, false, None, None, None, None), None, 0, None, None)

  /** The durable guard: enrolment has begun, or the identity is issued. */
  predicate Guarded(v: Nvs) { v.issued || v.started }

  /** The stored identity is the accepted one, and RegisterThing named its certificate. */
  predicate IssuedOk(s: State) {
    s.nvs.issued ==>
      && s.accepted.Some? && s.registered == Some(s.accepted.value.id)
      && s.nvs.certificate == Some(s.accepted.value.certificate) && s.nvs.key == Some(s.accepted.value.key)
      && s.nvs.thing.Some? && s.nvs.topic.Some?
  }

  predicate RamOk(s: State, r: Ram) {
    && (!r.createStarted && s.creates > 0 ==> s.nvs.issued)
    && (r.createStarted ==> s.creates == 1)
    && (r.pending.Some? ==> r.createStarted && r.pending == s.accepted)
    && (r.phase == WaitCreate ==> r.createStarted && s.accepted.None?)
    && (r.phase == SubscribeRegister ==> r.pending.Some?)
    && (r.phase == WaitRegister ==> r.pending.Some? && s.registered == Some(r.pending.value.id))
    && 1 <= r.attempt <= RETRY_LIMIT
  }

  predicate Inv(s: State) {
    && s.creates <= 1
    && (s.creates > 0 ==> Guarded(s.nvs))
    && (s.accepted.Some? ==> s.creates > 0)
    && IssuedOk(s)
    && (s.ram.Some? ==> RamOk(s, s.ram.value))
  }

  /** The six writes are not cut between the erasure of `enroll_started` and the setting of `issued`; one atomic commit
      is the special case of none or all of them. */
  predicate Whole(e: Event) { e.Data? && e.message.RegisterAccepted? ==> e.message.store.durable != 5 }

  /** The store that erases `enroll_started` and is cut before it sets `issued`. */
  predicate Loses(s: State, e: Event) {
    && s.ram.Some? && s.ram.value.phase == WaitRegister && !s.nvs.issued
    && e.Data? && e.message.RegisterAccepted? && e.message.wellFormed && e.message.store.valid && e.message.store.durable == 5
  }

  /** No other step loses the invariant, and that one always does. */
  lemma NextKeepsInv(s: State, e: Event)
    requires Inv(s)
    ensures Inv(Next(s, e)) <==> !Loses(s, e)
  {
  }

  lemma {:induction false} RunKeepsInv(events: seq<Event>)
    requires forall i :: 0 <= i < |events| ==> !Loses(Run(FACTORY, events[..i]), events[i])
    ensures Inv(Run(FACTORY, events))
  {
    if events != [] {
      var prefix := events[..|events| - 1];
      forall i | 0 <= i < |prefix|
        ensures !Loses(Run(FACTORY, prefix[..i]), prefix[i])
      {
        assert prefix[..i] == events[..i] && prefix[i] == events[i];
      }
      RunKeepsInv(prefix);
      assert events[..|prefix|] == prefix;
      NextKeepsInv(Run(FACTORY, prefix), events[|prefix|]);
    }
  }

  /** Over all attempts, reconnects and reboots with no store cut in that one place, a certificate is asked for at most
      once; and an issued identity holds certificate and key of one create response, whose id RegisterThing named. */
  lemma AtMostOneCertificate(events: seq<Event>)
    requires forall i :: 0 <= i < |events| ==> !Loses(Run(FACTORY, events[..i]), events[i])
    ensures var s := Run(FACTORY, events);
            && s.creates <= 1
            && (s.nvs.issued ==>
                  && s.creates == 1 && s.accepted.Some? && s.registered == Some(s.accepted.value.id)
                  && s.nvs.certificate == Some(s.accepted.value.certificate) && s.nvs.key == Some(s.accepted.value.key)
                  && s.nvs.thing.Some? && s.nvs.topic.Some?)
  {
    RunKeepsInv(events);
  }

  /** The guard survives a store exactly when the store is not cut in that one place, or the identity was issued before. */
  lemma GuardSurvivesStore(s: State, m: Message)
    requires Inv(s) && s.ram.Some? && s.ram.value.phase == WaitRegister
    requires m.RegisterAccepted? && m.wellFormed && m.store.valid
    ensures Guarded(OnData(s, s.ram.value, m).nvs) <==> m.store.durable != 5 || s.nvs.issued
  {
  }

  /** Enrolment starts exactly when the issue flag is not read as set, the guard could be read and is clear, and the device is ready. */
  lemma StartsExactly(s: State, issuedRead: Read, recoveryRead: Read, ready: bool)
    requires s.ram.None?
    ensures var t := Next(s, StartTask(issuedRead, recoveryRead, ready));
            && (t.ram.Some? <==> !(issuedRead == Answers && s.nvs.issued) && recoveryRead == Answers && !s.nvs.started && ready)
            && (t.ram.Some? ==> t.ram.value == Ram(1, Idle, 0, None, false, false)) && t.nvs == s.nvs && t.creates == s.creates
  {
  }

  /** A rejection, an unreadable answer or a dropped connection fails the attempt, unless it has succeeded already. */
  lemma RefusalFails(s: State, e: Event)
    requires s.ram.Some? && (e == Dropped || e == Data(CreateRejected) || e == Data(RegisterRejected) || e == Data(Unreadable))
    ensures var t := Next(s, e);
            t == s.(ram := Some(s.ram.value.(phase := if s.ram.value.phase == DonePhase then DonePhase else FailedPhase)))
  {
  }

  /** So does every call of its own that fails: a subscription, the mark in flash, a publication, the store. */
  lemma FailureFails(s: State, e: Event)
    requires Inv(s) && s.ram.Some? && s.ram.value.phase !in {DonePhase, FailedPhase}
    requires match e
             case Connected(subscribed) => !subscribed
             case Subscribed(m, registrationSent, publishOk) =>
               s.ram.value.subscriptions <= 1 && (if s.ram.value.phase == SubscribeCreate then !publishOk || !m.durable || m.read == Errors else !registrationSent)
             case Data(m) =>
               || (m.CreateAccepted? && (m.identity.None? || !m.memory || !m.subscribed))
               || (m.RegisterAccepted? && (!m.wellFormed || !m.store.valid || !m.store.ok))
             case _ => false
    ensures Next(s, e).ram.Some? && Next(s, e).ram.value.phase == FailedPhase
  {
  }

  /** A later attempt resumes with the identity that is pending, and asks for no other one: it registers and stores that. */
  lemma ResumesPending(s: State, thing: string, topic: string)
    requires Inv(s) && s.ram.Some? && s.ram.value.pending.Some? && s.ram.value.phase == Idle
    ensures var x := s.ram.value.pending.value;
            var t := Run(s, [Connected(true), ACK, ACK, Data(RegisterAccepted(thing, topic, true, Store(6, true, true)))]);
            && t.nvs == Nvs(true, false, Some(x.certificate), Some(x.key), Some(thing), Some(topic)) && t.creates == s.creates
            && t.registered == Some(x.id) && t.ram.Some? && t.ram.value.done && t.ram.value.pending.None?
  {
    var r := s.ram.value;
    RunFour(s, Connected(true), ACK, ACK, Data(RegisterAccepted(thing, topic, true, Store(6, true, true))));
    var s1 := Next(s, Connected(true));
    assert s1.ram == Some(r.(phase := SubscribeRegister, subscriptions := 2));
    var s3 := Next(Next(s1, ACK), ACK);
    assert s3 == s.(registered := Some(r.pending.value.id), ram := Some(r.(phase := WaitRegister, subscriptions := 0)));
    hide Run;
  }

  /** Another attempt follows exactly while there are attempts left, unless the device is enrolled and that was seen, or the answer to
      the one certificate request is lost; it starts afresh and keeps the pending identity. */
  lemma TriesAgainExactly(s: State, seen: bool)
    requires s.ram.Some?
    ensures var t := Next(s, EndAttempt(seen));
            var r := s.ram.value;
            && (t.ram.Some? <==> r.attempt < 3 && !(r.done && seen) && (r.createStarted ==> r.pending.Some?))
            && (t.ram.Some? ==> t.ram.value == Ram(r.attempt + 1, Idle, r.subscriptions, r.pending, r.createStarted, false))
            && t.nvs == s.nvs && t.creates == s.creates && t.accepted == s.accepted && t.registered == s.registered
  {
  }

  /** What holds wherever the stores are cut. */
  predicate Base(s: State) {
    && (s.accepted.Some? ==> s.creates > 0)
    && IssuedOk(s)
    && (s.ram.Some? ==>
          var r := s.ram.value;
          && (r.createStarted ==> s.creates > 0)
          && (r.pending.Some? ==> r.createStarted && r.pending == s.accepted)
          && (r.phase == WaitCreate ==> r.createStarted && !s.nvs.issued && (s.creates == 1 ==> s.accepted.None?))
          && (r.phase == SubscribeRegister ==> r.pending.Some?)
          && (r.phase == WaitRegister ==> r.pending.Some? && s.registered == Some(r.pending.value.id))
          && 1 <= r.attempt <= RETRY_LIMIT)
  }

  lemma NextKeepsBase(s: State, e: Event)
    requires Base(s)
    ensures Base(Next(s, e))
  {
    if e.Data? && s.ram.Some? { DataKeepsBase(s, e.message); }
    if e.Subscribed? && s.ram.Some? { SubscribedKeepsBase(s, e.mark, e.registrationSent, e.publishOk); }
    hide OnData, OnSubscribed;
  }

  lemma DataKeepsBase(s: State, m: Message)
    requires Base(s) && s.ram.Some?
    ensures Base(OnData(s, s.ram.value, m))
  {
  }

  lemma SubscribedKeepsBase(s: State, m: Mark, registrationSent: bool, publishOk: bool)
    requires Base(s) && s.ram.Some?
    ensures Base(OnSubscribed(s, s.ram.value, m, registrationSent, publishOk))
  {
  }

  lemma {:induction false} RunKeepsBase(s: State, events: seq<Event>)
    requires Base(s)
    ensures Base(Run(s, events))
  {
    if events != [] {
      RunKeepsBase(s, events[..|events| - 1]);
      NextKeepsBase(Run(s, events[..|events| - 1]), events[|events| - 1]);
    }
  }

  /** Once a certificate was asked for, flash says so, and an enrolment that is running knows it or finds the identity issued. */
  predicate AskedForGood(s: State) {
    && s.creates <= 1
    && (s.creates == 1 ==> Guarded(s.nvs))
    && (s.creates == 1 && s.ram.Some? && !s.ram.value.createStarted ==> s.nvs.issued)
  }

  /** Wherever the stores so far were cut, that is exactly when no later run of whole stores asks for a second one. */
  lemma AskedOnceExactly(events: seq<Event>)
    ensures var s := Run(FACTORY, events);
            AskedForGood(s) <==> forall more :: AllWhole(more) ==> Run(s, more).creates <= 1
  {
    var s := Run(FACTORY, events);
    RunKeepsBase(FACTORY, events);
    if AskedForGood(s) {
      assert Inv(s);
      forall more | AllWhole(more)
        ensures Run(s, more).creates <= 1
      {
        WholeKeepsInv(s, more);
      }
    } else {
      var more := SecondRequest(s);
      assert AllWhole(more);
    }
  }

  predicate AllWhole(events: seq<Event>) { forall i :: 0 <= i < |events| ==> Whole(events[i]) }

  lemma {:induction false} WholeKeepsInv(s: State, events: seq<Event>)
    requires Inv(s) && AllWhole(events)
    ensures Inv(Run(s, events))
  {
    if events != [] {
      WholeKeepsInv(s, events[..|events| - 1]);
      NextKeepsInv(Run(s, events[..|events| - 1]), events[|events| - 1]);
    }
  }

  /** How the second request comes about: in the running enrolment, or after a reboot. */
  lemma SecondRequest(s: State) returns (more: seq<Event>)
    requires Base(s) && !AskedForGood(s)
    ensures AllWhole(more) && Run(s, more).creates > 1
  {
    if s.creates > 1 {
      more := [];
    } else if !Guarded(s.nvs) {
      more := [PowerLoss] + FIRST;
      RunAppend(s, [PowerLoss], FIRST);
      var off := s.(ram := None);
      assert [PowerLoss][..0] == [] && Run(s, [PowerLoss]) == off;
      RunFour(off, FIRST[0], FIRST[1], FIRST[2], FIRST[3]);
    } else {
      more := [Connected(true), ACK, ACK];
      RunThree(s, more[0], more[1], more[2]);
    }
  }

  lemma RunThree(s: State, a: Event, b: Event, c: Event)
    ensures Run(s, [a, b, c]) == Next(Next(Next(s, a), b), c)
  {
    assert [a, b, c][..2] == [a, b] && [a, b][..1] == [a] && [a][..0] == [];
    assert Run(s, [a]) == Next(s, a);
    assert Run(s, [a, b]) == Next(Next(s, a), b);
  }

  lemma {:induction false} RunAppend(s: State, a: seq<Event>, b: seq<Event>)
    ensures Run(s, a + b) == Run(Run(s, a), b)
  {
    if b == [] {
      assert a + b == a;
    } else {
      RunAppend(s, a, b[..|b| - 1]);
      assert (a + b)[..|a + b| - 1] == a + b[..|b| - 1];
    }
  }

  lemma RunFour(s: State, a: Event, b: Event, c: Event, d: Event)
    ensures Run(s, [a, b, c, d]) == Next(Next(Next(Next(s, a), b), c), d)
  {
    assert [a, b, c, d][..3] == [a, b, c] && [a, b, c][..2] == [a, b] && [a, b][..1] == [a] && [a][..0] == [];
    assert Run(s, [a]) == Next(s, a);
    assert Run(s, [a, b]) == Next(Next(s, a), b);
    assert Run(s, [a, b, c]) == Next(Next(Next(s, a), b), c);
  }

  const MARKED := Mark(Answers, true, true)
  const ACK := Subscribed(MARKED, true, true)
  const FIRST := [StartTask(Answers, Answers, true), Connected(true), ACK, ACK]

  function Second(x: Identity, thing: string, topic: string): seq<Event> {
    [Data(CreateAccepted(Some(x), true, true)), ACK, ACK, Data(RegisterAccepted(thing, topic, true, Store(5, false, true)))]
  }

  /** And when nothing fails, one attempt enrols the device: the identity of the create response, the thing and the topic are stored, the
      guard is erased, and enrolment ends. */
  lemma SmoothEnrolment(x: Identity, thing: string, topic: string)
    ensures var stored := [Data(CreateAccepted(Some(x), true, true)), ACK, ACK, Data(RegisterAccepted(thing, topic, true, Store(6, true, true)))];
            Run(FACTORY, FIRST + stored + [EndAttempt(true)]) ==
              State(Nvs(true, false, Some(x.certificate), Some(x.key), Some(thing), Some(topic)), None, 1, Some(x), Some(x.id))
  {
    var stored := [Data(CreateAccepted(Some(x), true, true)), ACK, ACK, Data(RegisterAccepted(thing, topic, true, Store(6, true, true)))];
    var first := State(Nvs(false, true, None, None, None, None), Some(Ram(1, WaitCreate, 0, None, true, false)), 1, None, None);
    RunFour(FACTORY, FIRST[0], FIRST[1], FIRST[2], FIRST[3]);
    assert Run(FACTORY, FIRST) == first;
    RunAppend(FACTORY, FIRST, stored);
    RunFour(first, stored[0], stored[1], stored[2], stored[3]);
    RunAppend(FACTORY, FIRST + stored, [EndAttempt(true)]);
    SmoothEnds(first, x, thing, topic);
    var last := Run(FACTORY, FIRST + stored);
    assert Run(last, [EndAttempt(true)]) == Next(last, EndAttempt(true)) by { assert [EndAttempt(true)][..0] == []; assert Run(last, []) == last; }
    hide Run;
  }

  lemma SmoothEnds(s: State, x: Identity, thing: string, topic: string)
    requires s == State(Nvs(false, true, None, None, None, None), Some(Ram(1, WaitCreate, 0, None, true, false)), 1, None, None)
    ensures var t := Next(Next(Next(Next(s, Data(CreateAccepted(Some(x), true, true))), ACK), ACK), Data(RegisterAccepted(thing, topic, true, Store(6, true, true))));
            Next(t, EndAttempt(true)) == State(Nvs(true, false, Some(x.certificate), Some(x.key), Some(thing), Some(topic)), None, 1, Some(x), Some(x.id))
  {
    var s1 := Next(s, Data(CreateAccepted(Some(x), true, true)));
    assert s1.ram == Some(Ram(1, SubscribeRegister, 2, Some(x), true, false));
    var s3 := Next(Next(s1, ACK), ACK);
    assert s3.ram == Some(Ram(1, WaitRegister, 0, Some(x), true, false)) && s3.registered == Some(x.id);
  }

  /** Without that atomicity the guarantee is lost: cut in that one place, then a reboot, and a second certificate is
      asked for. */
  lemma CutStoreAsksAgain(x: Identity, thing: string, topic: string)
    ensures Run(FACTORY, FIRST + Second(x, thing, topic) + ([PowerLoss] + FIRST)).creates == 2
  {
    var cut := Run(FACTORY, FIRST + Second(x, thing, topic));
    RunFour(FACTORY, FIRST[0], FIRST[1], FIRST[2], FIRST[3]);
    var first := State(Nvs(false, true, None, None, None, None), Some(Ram(1, WaitCreate, 0, None, true, false)), 1, None, None);
    assert Run(FACTORY, FIRST) == first;
    var second := Second(x, thing, topic);
    RunAppend(FACTORY, FIRST, second);
    RunFour(first, second[0], second[1], second[2], second[3]);
    assert second == [second[0], second[1], second[2], second[3]];
    assert cut.nvs == Nvs(false, false, Some(x.certificate), Some(x.key), Some(thing), Some(topic)) && cut.creates == 1 by {
      SecondCuts(first, x, thing, topic);
    }
    RunAppend(FACTORY, FIRST + second, [PowerLoss] + FIRST);
    RunAppend(cut, [PowerLoss], FIRST);
    assert [PowerLoss][..0] == [];
    var off := Run(cut, [PowerLoss]);
    assert Run(cut, []) == cut;
    assert off == cut.(ram := None);
    RunFour(off, FIRST[0], FIRST[1], FIRST[2], FIRST[3]);
    hide Run;
  }

  lemma SecondCuts(s: State, x: Identity, thing: string, topic: string)
    requires s == State(Nvs(false, true, None, None, None, None), Some(Ram(1, WaitCreate, 0, None, true, false)), 1, None, None)
    ensures var e := Second(x, thing, topic);
            var t := Next(Next(Next(Next(s, e[0]), e[1]), e[2]), e[3]);
            t.nvs == Nvs(false, false, Some(x.certificate), Some(x.key), Some(thing), Some(topic)) && t.creates == 1
  {
    var e := Second(x, thing, topic);
    var s1 := Next(s, e[0]);
    assert s1.ram == Some(Ram(1, SubscribeRegister, 2, Some(x), true, false));
    var s2 := Next(s1, e[1]);
    var s3 := Next(s2, e[2]);
    assert s3.ram == Some(Ram(1, WaitRegister, 0, Some(x), true, false));
  }
}

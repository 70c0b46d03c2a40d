/** The enrolment task's static variables as an object: each handler updates them in place and does what the transition
    function of module Fleet says; and the bounded retry loop is a run of that machine. */
module FleetTask {
  import opened Common
  import opened Fleet

  /** `receive_response`: a response arrives in fragments and is put together in one buffer. */
  class ResponseBuffer {
    var bytes: array?<char>
    var topic: string

    constructor ()
      ensures bytes == null
    {
      bytes, topic := null, "";
    }

    /** The response so far. */
    ghost function Content(): seq<char>
      reads this, bytes
    {
      if bytes == null then [] else bytes[..]
    }

    /** A first fragment starts a new buffer; every fragment lands at its own offset and nowhere else; the one that
        reaches the end completes the response. */
    method Receive(total: nat, offset: nat, data: seq<char>, eventTopic: string) returns (ok: bool, complete: bool)
      requires 0 < total && offset + |data| <= total
      modifies this, bytes
      ensures ok <==> offset == 0 || (old(bytes) != null && |old(Content())| == total)
      ensures complete <==> ok && offset + |data| == total
      ensures ok ==> bytes != null && |Content()| == total && Content()[offset..offset + |data|] == data
      ensures ok && offset > 0 ==> bytes == old(bytes) && Content()[..offset] == old(Content())[..offset]
      ensures ok && offset > 0 ==> Content()[offset + |data|..] == old(Content())[offset + |data|..] && topic == old(topic)
      ensures ok && offset == 0 ==> fresh(bytes) && topic == eventTopic
      ensures !ok ==> bytes == old(bytes) && Content() == old(Content())
    {
      ok, complete := false, false;
      if offset == 0 {
        bytes := new char[total](_ => '\0');
        topic := eventTopic;
      }
      if bytes == null || bytes.Length != total {
        return;
      }
      var i := 0;
      while i < |data|
        invariant 0 <= i <= |data| && bytes != null && bytes.Length == total
        invariant if offset == 0 then fresh(bytes) else bytes == old(bytes)
        invariant forall j :: 0 <= j < i ==> bytes[offset + j] == data[j]
        invariant offset > 0 ==> forall j :: 0 <= j < total && !(offset <= j < offset + i) ==> bytes[j] == old(Content())[j]
        modifies bytes
      {
        bytes[offset + i] := data[i];
        i := i + 1;
      }
      ok := true;
      complete := offset + |data| == total;
      assert bytes[offset..offset + |data|] == data;
      assert offset > 0 ==> bytes[..offset] == old(Content())[..offset];
      assert offset > 0 ==> bytes[offset + |data|..] == old(Content())[offset + |data|..];
    }
  }

  predicate IsClientEvent(e: Event) { e.Connected? || e.Subscribed? || e.Data? || e.Dropped? }

  predicate FromClient(events: seq<Event>) { forall i :: 0 <= i < |events| ==> IsClientEvent(events[i]) }

  /** How many attempts end in these events. */
  function Attempts(events: seq<Event>): nat {
    if events == [] then 0 else Attempts(events[..|events| - 1]) + if events[|events| - 1].EndAttempt? then 1 else 0
  }

  lemma {:induction false} ClientEndsNoAttempt(events: seq<Event>, batch: seq<Event>)
    requires FromClient(batch)
    ensures Attempts(events + batch) == Attempts(events)
  {
    if batch == [] {
      assert events + batch == events;
    } else {
      ClientEndsNoAttempt(events, batch[..|batch| - 1]);
      assert (events + batch)[..|events + batch| - 1] == events + batch[..|batch| - 1];
      assert IsClientEvent(batch[|batch| - 1]);
    }
  }

  lemma OneMore(events: seq<Event>, e: Event)
    ensures Attempts(events + [e]) == Attempts(events) + if e.EndAttempt? then 1 else 0
  {
    assert (events + [e])[..|events + [e]| - 1] == events;
  }

  class Enroller {
    var nvs: Nvs
    var running: bool
    var attempt: nat
    var phase: Phase
    var pendingSubscriptions: nat
    var pending: Option<Identity>
    var createRequestStarted: bool
    var done: bool
    ghost var creates: nat
    ghost var accepted: Option<Identity>
    ghost var registered: Option<string>

    ghost function View(): State
      reads this
    {
      State(nvs, if running then Some(Ram(attempt, phase, pendingSubscriptions, pending, createRequestStarted, done)) else None,
            creates, accepted, registered)
    }

    constructor ()
      ensures View() == FACTORY
    {
      nvs, running, attempt, phase, pendingSubscriptions := Nvs(false, false, None, None, None, None), false, 0, Idle, 0;
      pending, createRequestStarted, done, creates, accepted, registered := None, false, false, 0, None, None;
    }

    method FailAttempt()
      requires running
      modifies this`phase
      ensures View() == old(View()).(ram := Some(Fail(old(View()).ram.value)))
    {
      if phase == DonePhase || phase == FailedPhase {
        return;
      }
      phase := FailedPhase;
    }

    method HandleConnected(subscribed: bool)
      requires running
      modifies this
      ensures View() == Next(old(View()), Connected(subscribed))
      ensures running && attempt == old(attempt)
    {
      phase := if pending.Some? then SubscribeRegister else SubscribeCreate;
      pendingSubscriptions := 2;
      if !subscribed {
        FailAttempt();
      }
    }

    method MarkEnrollmentStarted(m: Mark) returns (ok: bool)
      modifies this`nvs
      ensures ok == Marks(old(nvs), m) && nvs == AfterMark(old(nvs), m)
    {
      if m.read == Errors || nvs.issued {
        return false;
      }
      if m.durable {
        nvs := nvs.(started := true);
      }
      ok := m.ok && m.durable;
    }

    method HandleSubscribed(m: Mark, registrationSent: bool, publishOk: bool)
      requires running
      modifies this
      ensures View() == Next(old(View()), Subscribed(m, registrationSent, publishOk))
      ensures running && attempt == old(attempt)
    {
      if (phase != SubscribeCreate && phase != SubscribeRegister) || pendingSubscriptions == 0 {
        FailAttempt();
        return;
      }
      pendingSubscriptions := pendingSubscriptions - 1;
      if pendingSubscriptions != 0 {
        return;
      }
      if phase == SubscribeCreate {
        if createRequestStarted {
          FailAttempt();
          return;
        }
        var marked := MarkEnrollmentStarted(m);
        if !marked {
          FailAttempt();
          return;
        }
        phase, createRequestStarted := WaitCreate, true;
        creates := creates + 1;
        if !publishOk {
          FailAttempt();
        }
      } else {
        phase := WaitRegister;
        if registrationSent && pending.Some? {
          registered := Some(pending.value.id);
        } else {
          FailAttempt();
        }
      }
    }

    method HandleCreateAccepted(identity: Option<Identity>, memory: bool, subscribed: bool)
      requires running
      modifies this
      ensures View() == Next(old(View()), Data(CreateAccepted(identity, memory, subscribed)))
      ensures running && attempt == old(attempt)
    {
      if phase != WaitCreate || identity.None? {
        FailAttempt();
        return;
      }
      pending := None;
      if !memory {
        FailAttempt();
        return;
      }
      pending, accepted := identity, identity;
      phase, pendingSubscriptions := SubscribeRegister, 2;
      if !subscribed {
        FailAttempt();
      }
    }

    /** The key writes in their order, as far as they reach flash. */
    method StoreIssued(x: Identity, thing: string, topic: string, store: Store) returns (ok: bool)
      modifies this`nvs
      ensures nvs == if store.valid then Written(old(nvs), x, thing, topic, store.durable) else old(nvs)
      ensures ok == (store.valid && store.ok && store.durable >= 6)
    {
      if !store.valid {
        return false;
      }
      if store.durable >= 1 { nvs := nvs.(certificate := Some(x.certificate)); }
      if store.durable >= 2 { nvs := nvs.(key := Some(x.key)); }
      if store.durable >= 3 { nvs := nvs.(thing := Some(thing)); }
      if store.durable >= 4 { nvs := nvs.(topic := Some(topic)); }
      if store.durable >= 5 { nvs := nvs.(started := false); }
      if store.durable >= 6 { nvs := nvs.(issued := true); }
      ok := store.ok && store.durable >= 6;
    }

    method HandleRegisterAccepted(thing: string, topic: string, wellFormed: bool, store: Store)
      requires running
      modifies this
      ensures View() == Next(old(View()), Data(RegisterAccepted(thing, topic, wellFormed, store)))
      ensures running && attempt == old(attempt)
    {
      if phase != WaitRegister || !wellFormed || pending.None? {
        FailAttempt();
        return;
      }
      var stored := StoreIssued(pending.value, thing, topic, store);
      if !stored {
        FailAttempt();
        return;
      }
      pending, phase, done := None, DonePhase, true;
    }

    /** One event of the MQTT client. */
    method Handle(e: Event)
      requires running && IsClientEvent(e)
      modifies this
      ensures View() == Next(old(View()), e) && running && attempt == old(attempt)
    {
      match e
      case Connected(subscribed) => HandleConnected(subscribed);
      case Subscribed(m, registrationSent, publishOk) => HandleSubscribed(m, registrationSent, publishOk);
      case Data(message) =>
        match message {
          case CreateAccepted(identity, memory, subscribed) => HandleCreateAccepted(identity, memory, subscribed);
          case RegisterAccepted(thing, topic, wellFormed, store) => HandleRegisterAccepted(thing, topic, wellFormed, store);
          case _ => FailAttempt();
        }
      case Dropped => FailAttempt();
    }

    /** One attempt: whatever the client reports until the wait ends. */
    method RunAttempt(events: seq<Event>, seen: bool) returns (ok: bool)
      requires running && FromClient(events)
      modifies this
      ensures running && View() == Run(old(View()), events) && ok == (done && seen) && attempt == old(attempt)
    {
      var i := 0;
      while i < |events|
        invariant 0 <= i <= |events| && running && View() == Run(old(View()), events[..i]) && attempt == old(attempt)
      {
        assert events[..i + 1][..i] == events[..i];
        Handle(events[i]);
        i := i + 1;
      }
      assert events[..i] == events;
      ok := done && seen;
    }

    /** The checks before the first attempt. */
    method Begin(issuedRead: Read, recoveryRead: Read, ready: bool)
      requires !running
      modifies this
      ensures View() == Next(old(View()), StartTask(issuedRead, recoveryRead, ready))
      ensures running ==> attempt == 1
    {
      if (issuedRead == Answers && nvs.issued) || recoveryRead == Errors || nvs.started || !ready {
        return;
      }
      pending, createRequestStarted, running := None, false, true;
      attempt, phase, pendingSubscriptions, done := 1, Idle, 0, false;
    }

    /** What the loop does after an attempt. */
    method AfterAttempt(ok: bool, seen: bool)
      requires running && ok == (done && seen)
      modifies this
      ensures View() == Next(old(View()), EndAttempt(seen))
      ensures running ==> attempt == old(attempt) + 1 <= RETRY_LIMIT
      ensures !running ==> attempt == old(attempt) && (done || (createRequestStarted && pending.None?) || attempt >= RETRY_LIMIT)
    {
      if ok || (createRequestStarted && pending.None?) || attempt >= RETRY_LIMIT {
        running := false;
        return;
      }
      attempt, phase, done := attempt + 1, Idle, false;
    }

    /** One turn of the loop. */
    method Turn(batch: seq<Event>, seen: bool)
      requires running && Inv(View()) && FromClient(batch) && AllWhole(batch)
      modifies this
      ensures View() == Run(old(View()), batch + [EndAttempt(seen)]) && Inv(View())
      ensures running ==> attempt == old(attempt) + 1 <= RETRY_LIMIT
      ensures !running ==> attempt == old(attempt) && (done || (createRequestStarted && pending.None?) || attempt >= RETRY_LIMIT)
    {
      ghost var before := View();
      WholeKeepsInv(before, batch);
      RunOne(before, batch, EndAttempt(seen));
      NextKeepsInv(Run(before, batch), EndAttempt(seen));
      hide Run, Next, FromClient, AllWhole, Inv;
      var ok := RunAttempt(batch, seen);
      AfterAttempt(ok, seen);
    }

    /** The whole enrolment, however its attempts go: a run of the machine, of at most three attempts, that publishes at most
        one certificate request in the device's life; and of fewer only when the device is enrolled or the answer to that
        request is lost. */
    method Task(issuedRead: Read, recoveryRead: Read, ready: bool, attempts: seq<seq<Event>>, seen: seq<bool>)
      returns (ghost events: seq<Event>)
      requires !running && Inv(View()) && |attempts| == |seen| == RETRY_LIMIT
      requires forall i :: 0 <= i < |attempts| ==> FromClient(attempts[i]) && AllWhole(attempts[i])
      modifies this
      ensures View() == Run(old(View()), events) && !running
      ensures Inv(View()) && creates <= 1
      ensures Attempts(events) <= RETRY_LIMIT
      ensures 0 < Attempts(events) < RETRY_LIMIT ==> done || (createRequestStarted && pending.None?)
    {
      events := [StartTask(issuedRead, recoveryRead, ready)];
      hide Run, Next, FromClient, AllWhole, Attempts, Inv;
      FirstEvent(View(), events[0]);
      Begin(issuedRead, recoveryRead, ready);
      while running
        invariant running ==> 1 <= attempt <= RETRY_LIMIT
        invariant Inv(View()) && View() == Run(old(View()), events)
        invariant if running then Attempts(events) + 1 == attempt else Attempts(events) <= RETRY_LIMIT
        invariant !running && 0 < Attempts(events) < RETRY_LIMIT ==> done || (createRequestStarted && pending.None?)
        decreases running, RETRY_LIMIT - attempt
      {
        var batch, end := attempts[attempt - 1], EndAttempt(seen[attempt - 1]);
        RunAppend(old(View()), events, batch + [end]);
        ClientEndsNoAttempt(events, batch);
        OneMore(events + batch, end);
        assert events + batch + [end] == events + (batch + [end]);
        Turn(batch, seen[attempt - 1]);
        events := events + (batch + [end]);
      }
      OneCreate(View());
    }
  }

  lemma FirstEvent(s: State, e: Event)
    requires Inv(s) && e.StartTask?
    ensures Run(s, [e]) == Next(s, e) && Inv(Next(s, e)) && Attempts([e]) == 0
  {
    NextKeepsInv(s, e);
    assert [] + [e] == [e];
    RunOne(s, [], e);
    OneMore([], e);
  }

  lemma OneCreate(s: State)
    requires Inv(s)
    ensures s.creates <= 1
  {
  }

  lemma RunOne(s: State, events: seq<Event>, e: Event)
    ensures Run(s, events + [e]) == Next(Run(s, events), e)
  {
    assert (events + [e])[..|events + [e]| - 1] == events;
  }
}

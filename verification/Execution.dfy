/** `executeSchedule`: at-least-once deliveries of schedule firings become command reservations, beside every other
    caller and every change of the schedule. */
module Execution {
  import opened Common
  import opened Led
  import Device
  import Lamp
  import S = Schedules
  import R = Reservation
  import P = ReservationProofs

  /** What the request id is made of. */
  datatype Firing = Firing(revision: nat, time: string)

  /** What the scheduler hands over, with the command id drawn for it. */
  datatype Delivery = Delivery(revision: nat, time: Option<string>, commandId: string)

  /** `fired` is history: which delivery a reservation call was made for. */
  datatype State = State(schedule: S.State, r: R.State, fired: map<nat, Delivery>)

  datatype Event =
    | Change(change: S.Event)
    | Backend(event: R.Event)
    | Deliver(caller: nat, revision: nat, time: Option<string>, commandId: string, member: bool, late: bool)

  /** The request id is a digest of schedule, revision and time, taken to be injective; and no other caller uses one. */
  ghost predicate Injective(name: Firing -> string) {
    forall a, b :: name(a) == name(b) ==> a == b
  }

  ghost predicate Foreign(name: Firing -> string, requestId: string) {
    forall f :: name(f) != requestId
  }

  /** One firing of the remote schedule. A delivery without a time counts as a firing of its own. */
  function FiringOf(d: Delivery): Firing {
    Firing(d.revision, if d.time.Some? then d.time.value else d.commandId)
  }

  /** All the guards: anything else is skipped. */
  predicate Executes(s: State, revision: nat, time: Option<string>, member: bool, late: bool) {
    && s.schedule.row.Some?
    && var x := s.schedule.row.value;
    && x.revision == revision && x.status == S.Active && x.operation == S.Upsert && x.content.enabled && member
    && s.r.row.Some? && s.r.row.value.lifecycle == Device.Active && s.r.row.value.certificate == x.content.certificate
    && !(time.Some? && late)
  }

  ghost function Next(name: Firing -> string, s: State, e: Event): State {
    match e
    case Change(event) => s.(schedule := S.Next(s.schedule, event))
    case Backend(event) =>
      if event.Call? && !Foreign(name, event.requestId) then s else s.(r := R.Next(s.r, event))
    case Deliver(k, revision, time, commandId, member, late) =>
      if !Executes(s, revision, time, member, late) then s
      else
        var d := Delivery(revision, time, commandId);
        var r := R.Next(s.r, R.Call(k, name(FiringOf(d)), commandId, s.schedule.row.value.content.patch));
        s.(r := r, fired := if k !in s.r.callers && k in r.callers then s.fired[k := d] else s.fired)
  }

  ghost function Run(name: Firing -> string, s: State, events: seq<Event>): State {
    if events == [] then s else Next(name, Run(name, s, events[..|events| - 1]), events[|events| - 1])
  }

  function Start(certificate: string): State { State(S.New(true), R.Start(certificate), map[]) }

  /** A firing asks for what was saved at its revision. */
  predicate Asks(saved: seq<S.Saved>, revision: nat, patch: Patch) {
    1 <= revision <= |saved| && saved[revision - 1].content.patch == patch
  }

  /** What was saved was to be executed, on this generation of the device. */
  predicate Due(saved: seq<S.Saved>, revision: nat, certificate: string) {
    1 <= revision <= |saved| && saved[revision - 1].operation == S.Upsert
    && saved[revision - 1].content.enabled && saved[revision - 1].content.certificate == certificate
  }

  ghost predicate CallOk(name: Firing -> string, s: State, k: nat)
    requires k in s.r.callers
  {
    if k in s.fired then
      && s.r.callers[k].requestId == name(FiringOf(s.fired[k])) && s.r.callers[k].commandId == s.fired[k].commandId
      && Asks(s.schedule.saved, s.fired[k].revision, s.r.callers[k].patch)
    else Foreign(name, s.r.callers[k].requestId)
  }

  ghost predicate Inv(name: Firing -> string, s: State) {
    && S.Inv(s.schedule) && R.Inv(s.r)
    && (forall k :: k in s.fired ==> k in s.r.callers && Due(s.schedule.saved, s.fired[k].revision, s.r.certificate))
    && (forall k :: k in s.r.callers ==> CallOk(name, s, k))
  }

  /** Callers keep their request and their patch; only a call adds one. */
  lemma CallersStay(r: R.State, e: R.Event)
    ensures forall k :: k in r.callers ==> k in R.Next(r, e).callers && P.SameRequest(r.callers[k], R.Next(r, e).callers[k])
    ensures forall k :: k in R.Next(r, e).callers && k !in r.callers ==>
              e.Call? && k == e.caller && R.Next(r, e).callers[k].requestId == e.requestId && R.Next(r, e).callers[k].patch == e.patch
              && R.Next(r, e).callers[k].commandId == e.commandId
  {
    hide R.Commits, R.Usable, R.NewEntry, Merge;
  }

  lemma ChangeKeepsInv(name: Firing -> string, s: State, e: S.Event)
    requires Inv(name, s)
    ensures Inv(name, s.(schedule := S.Next(s.schedule, e)))
  {
    S.NextKeepsInv(s.schedule, e);
    S.NextFollows(s.schedule, e);
    assert s.schedule.saved <= S.Next(s.schedule, e).saved;
    hide S.Inv, R.Inv, S.Next, S.Follows;
    var t := s.(schedule := S.Next(s.schedule, e));
    forall k | k in t.r.callers ensures CallOk(name, t, k) { assert CallOk(name, s, k); }
  }

  /** The new caller, if there is one, is a firing's that `fired` records, or a foreign one. */
  ghost predicate Records(name: Firing -> string, s: State, e: R.Event, fired: map<nat, Delivery>) {
    if e.Call? && e.caller !in s.r.callers && e.caller in R.Next(s.r, e).callers
    then (fired == s.fired && Foreign(name, e.requestId))
         || (exists d :: fired == s.fired[e.caller := d] && e.requestId == name(FiringOf(d)) && e.commandId == d.commandId
                         && Asks(s.schedule.saved, d.revision, e.patch) && Due(s.schedule.saved, d.revision, s.r.certificate))
    else fired == s.fired
  }

  lemma CallStaysOk(name: Firing -> string, s: State, e: R.Event, fired: map<nat, Delivery>, k: nat)
    requires k in R.Next(s.r, e).callers && Records(name, s, e, fired) && (k in s.fired ==> k in s.r.callers)
    requires k in s.r.callers ==> CallOk(name, s, k)
    ensures CallOk(name, s.(r := R.Next(s.r, e), fired := fired), k)
  {
    CallersStay(s.r, e);
    hide R.Next, Asks, Foreign;
  }

  /** A step of the reservation machine; `fired` records the call if it is a firing's. */
  lemma BackendKeepsInv(name: Firing -> string, s: State, e: R.Event, fired: map<nat, Delivery>)
    requires Inv(name, s) && Records(name, s, e, fired)
    ensures Inv(name, s.(r := R.Next(s.r, e), fired := fired))
  {
    P.NextKeepsInv(s.r, e);
    P.NextOnlyAppends(s.r, e);
    CallersStay(s.r, e);
    var t := s.(r := R.Next(s.r, e), fired := fired);
    hide S.Inv, R.Inv, R.Next, Asks, CallOk, Due;
    forall k | k in t.r.callers ensures CallOk(name, t, k) { CallStaysOk(name, s, e, fired, k); }
  }

  lemma NextKeepsInv(name: Firing -> string, s: State, e: Event)
    requires Inv(name, s)
    ensures Inv(name, Next(name, s, e))
  {
    match e
    case Change(change) => ChangeKeepsInv(name, s, change);
    case Backend(event) =>
      if !(event.Call? && !Foreign(name, event.requestId)) {
        hide Inv, R.Next, Foreign;
        BackendKeepsInv(name, s, event, s.fired);
      }
    case Deliver(k, revision, time, commandId, member, late) =>
      if Executes(s, revision, time, member, late) {
        var d := Delivery(revision, time, commandId);
        FiringAsks(name, s, revision, time, member, late);
        hide Inv, R.Next, Foreign, Executes, Asks;
        BackendKeepsInv(name, s, R.Call(k, name(FiringOf(d)), commandId, s.schedule.row.value.content.patch), Next(name, s, e).fired);
      }
  }

  lemma FiringAsks(name: Firing -> string, s: State, revision: nat, time: Option<string>, member: bool, late: bool)
    requires Inv(name, s) && Executes(s, revision, time, member, late)
    ensures Asks(s.schedule.saved, revision, s.schedule.row.value.content.patch)
    ensures Due(s.schedule.saved, revision, s.r.certificate)
  {
    assert S.RowOk(s.schedule, s.schedule.row.value);
    hide R.Inv;
  }

  lemma {:induction false} RunKeepsInv(name: Firing -> string, certificate: string, events: seq<Event>)
    ensures Inv(name, Run(name, Start(certificate), events))
  {
    if events == [] {
      P.StartIsGood(certificate);
    } else {
      RunKeepsInv(name, certificate, events[..|events| - 1]);
      NextKeepsInv(name, Run(name, Start(certificate), events[..|events| - 1]), events[|events| - 1]);
    }
  }

  /** The ledger's entry for a firing was asked for by that firing. */
  lemma LedgerAsks(name: Firing -> string, s: State, f: Firing)
    requires Injective(name) && Inv(name, s) && name(f) in s.r.ledger
    ensures Asks(s.schedule.saved, f.revision, s.r.ledger[name(f)].patch)
  {
    var e := s.r.ledger[name(f)];
    LedgerOwner(s.r, name(f));
    hide S.Inv, R.Inv, Asks;
    var k :| k in s.r.callers && s.r.callers[k].commandId == e.commandId && s.r.callers[k].requestId == e.requestId && s.r.callers[k].patch == e.patch;
    assert CallOk(name, s, k);
  }

  lemma LedgerOwner(r: R.State, requestId: string)
    requires R.Inv(r) && requestId in r.ledger
    ensures R.Owned(r, r.ledger[requestId]) && r.ledger[requestId].requestId == requestId
  {
    assert R.LedgerOk(r.ledger, r.log) && R.IdsOk(r);
    var e := r.ledger[requestId];
    assert R.Owned(r, r.log[e.sequence - 1]);
  }

  /** No delivery of a firing is refused as a reuse of its request id. */
  lemma NeverReused(name: Firing -> string, s: State, k: nat)
    requires Injective(name) && Inv(name, s) && k in s.fired
    ensures k in s.r.callers && s.r.callers[k].requestId == name(FiringOf(s.fired[k])) && s.r.callers[k].pc != R.Failed(R.RequestIdReused)
    ensures s.r.callers[k].pc.Returned? ==>
              && name(FiringOf(s.fired[k])) in s.r.ledger && s.r.ledger[name(FiringOf(s.fired[k]))] == s.r.callers[k].pc.entry
              && s.r.callers[k].pc.entry.requestId == name(FiringOf(s.fired[k]))
  {
    assert CallOk(name, s, k);
    assert R.CallerOk(s.r, s.r.callers[k]);
    var f := FiringOf(s.fired[k]);
    if name(f) in s.r.ledger {
      LedgerAsks(name, s, f);
      LedgerOwner(s.r, name(f));
    }
    hide S.Inv, R.Inv;
  }

  /** The same firing: one revision, and one time; without a time, one command id. The last case, a time that reads like a
      command id, is only there because the digest does not tell them apart. */
  predicate SameFiring(a: Delivery, b: Delivery) {
    && a.revision == b.revision
    && (if a.time.Some? && b.time.Some? then a.time == b.time
        else if a.time.None? && b.time.None? then a.commandId == b.commandId
        else if a.time.Some? then a.time.value == b.commandId
        else a.commandId == b.time.value)
  }

  /** Over every run: deliveries of one firing, and of no two, have one request id. They get one answer and one log entry,
      whatever changes between them, and none is told that its request id was reused; and the answers of two firings are two
      entries. */
  lemma DeliveriesAgree(name: Firing -> string, certificate: string, events: seq<Event>, j: nat, k: nat)
    requires Injective(name)
    requires var s := Run(name, Start(certificate), events); j in s.fired && k in s.fired
    ensures var s := Run(name, Start(certificate), events);
            && j in s.r.callers && k in s.r.callers
            && s.r.callers[j].pc != R.Failed(R.RequestIdReused)
            && (s.r.callers[j].requestId == s.r.callers[k].requestId <==> SameFiring(s.fired[j], s.fired[k]))
            && (s.r.callers[j].pc.Returned? && s.r.callers[k].pc.Returned? ==>
                  (s.r.callers[j].pc == s.r.callers[k].pc <==> SameFiring(s.fired[j], s.fired[k])))
            && (forall a, b :: 0 <= a < b < |s.r.log| ==> !(s.r.log[a].requestId == s.r.log[b].requestId == s.r.callers[j].requestId))
  {
    RunKeepsInv(name, certificate, events);
    var s := Run(name, Start(certificate), events);
    assert R.Inv(s.r);
    SameFiringSameName(name, s.fired[j], s.fired[k]);
    hide Run, Inv, R.Inv, Injective, SameFiring, FiringOf;
    NeverReused(name, s, j);
    NeverReused(name, s, k);
    forall a, b | 0 <= a < b < |s.r.log| ensures !(s.r.log[a].requestId == s.r.log[b].requestId == s.r.callers[j].requestId) {
      P.LogIdsDiffer(s.r, a, b);
    }
  }

  lemma SameFiringSameName(name: Firing -> string, a: Delivery, b: Delivery)
    requires Injective(name)
    ensures SameFiring(a, b) <==> name(FiringOf(a)) == name(FiringOf(b))
  {
  }

  /** Two calls are of one firing only if they carry one revision and one time, when no time reads like a command id; and a
      delivery without a time is a firing of its own. */
  lemma FiringsAreTold(name: Firing -> string, certificate: string, events: seq<Event>, j: nat, k: nat)
    requires Injective(name)
    requires var s := Run(name, Start(certificate), events); j in s.fired && k in s.fired
    requires var s := Run(name, Start(certificate), events);
             forall d, e :: d in s.fired.Values && e in s.fired.Values && d.time.Some? ==> d.time.value != e.commandId
    ensures var s := Run(name, Start(certificate), events);
            var a, b := s.fired[j], s.fired[k];
            && j in s.r.callers && k in s.r.callers
            && (s.r.callers[j].requestId == s.r.callers[k].requestId <==>
                  a.revision == b.revision && a.time == b.time && (a.time.None? ==> j == k))
  {
    DeliveriesAgree(name, certificate, events, j, k);
    RunKeepsInv(name, certificate, events);
    var s := Run(name, Start(certificate), events);
    assert R.IdsOk(s.r) && CallOk(name, s, j) && CallOk(name, s, k);
    hide Run, Inv, R.Inv;
    assert s.fired[j] in s.fired.Values && s.fired[k] in s.fired.Values;
  }

  /** Every call that is recorded was made for a delivery of the run with this revision, time and command id. */
  lemma {:induction false} FiredIsDelivered(name: Firing -> string, certificate: string, events: seq<Event>, k: nat)
    requires k in Run(name, Start(certificate), events).fired
    ensures var d := Run(name, Start(certificate), events).fired[k];
            exists member, late :: Deliver(k, d.revision, d.time, d.commandId, member, late) in events
  {
    var prefix, e := events[..|events| - 1], events[|events| - 1];
    var s := Run(name, Start(certificate), prefix);
    if k in s.fired && Next(name, s, e).fired[k] == s.fired[k] {
      FiredIsDelivered(name, certificate, prefix, k);
      var d := s.fired[k];
      var member, late :| Deliver(k, d.revision, d.time, d.commandId, member, late) in prefix;
      assert Deliver(k, d.revision, d.time, d.commandId, member, late) in events;
    } else {
      assert e in events;
    }
    hide R.Next, S.Next, Executes;
  }

  /** A delivery to a new caller with a new command id becomes a reservation call exactly when the row is ACTIVE at its revision
      with an enabled upsert, the owner is still a member, the device is ACTIVE under the certificate the schedule was saved for,
      and a delivery with a time is not too late; and the call asks for what the schedule says. */
  lemma ExecutesExactly(name: Firing -> string, s: State, k: nat, revision: nat, time: Option<string>, commandId: string, member: bool, late: bool)
    requires k !in s.r.callers && forall j :: j in s.r.callers ==> s.r.callers[j].commandId != commandId
    requires s.schedule.row.Some? ==> ValidPatch(s.schedule.row.value.content.patch)
    ensures var t := Next(name, s, Deliver(k, revision, time, commandId, member, late));
            && (k in t.r.callers <==>
                  && s.schedule.row.Some? && s.schedule.row.value.revision == revision && s.schedule.row.value.status == S.Active
                  && s.schedule.row.value.operation == S.Upsert && s.schedule.row.value.content.enabled && member
                  && s.r.row.Some? && s.r.row.value.lifecycle == Device.Active
                  && s.r.row.value.certificate == s.schedule.row.value.content.certificate && (time.Some? ==> !late))
            && (k in t.r.callers ==> t.r.callers[k].patch == s.schedule.row.value.content.patch && t.r.callers[k].commandId == commandId
                                     && t.r.callers[k].pc == R.Reading && k in t.fired)
            && t.schedule == s.schedule && t.r == s.r.(callers := t.r.callers)
  {
  }

  /** A call is only ever made for a saved, enabled upsert that targets this certificate generation of the device. */
  lemma OnlyDueFirings(name: Firing -> string, certificate: string, events: seq<Event>, k: nat)
    requires k in Run(name, Start(certificate), events).fired
    ensures var s := Run(name, Start(certificate), events);
            Due(s.schedule.saved, s.fired[k].revision, s.r.certificate)
  {
    RunKeepsInv(name, certificate, events);
  }

  /** Once the lamp has committed a command of this sequence or a later one, a redelivery changes neither its record
      nor its LED, whatever happened in between. */
  lemma RedeliveryOverridesNothing(u: Lamp.Unit, events: seq<Lamp.Event>, c: Lamp.Command, f: Lamp.Faults)
    requires Lamp.Ok(u) && u.nvs.record.Some? && c.sequence <= u.nvs.record.value.sequence
    ensures var v := Lamp.Run(u, events);
            v.ram.Some? ==>
              var after := Lamp.Handle(v, c, f).unit;
              after.nvs == v.nvs && (after.ram.Some? ==> after.ram.value.led == v.ram.value.led)
  {
    Lamp.CommittedSequenceGrows(u, events);
    if Lamp.Run(u, events).ram.Some? { Lamp.OldCommandIsInert(Lamp.Run(u, events), c, f); }
  }
}

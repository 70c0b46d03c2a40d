/** Backend, network and lamp together, within one certificate generation: reservation callers, a command
    channel and an uplink channel that lose, repeat and reorder, a lamp that may lose power anywhere, and ingest. */
module EndToEnd {
  import opened Common
  import opened Led
  import opened Lamp
  import opened Device
  import opened Ingest
  import R = Reservation
  import P = ReservationProofs

  /** `published` holds every state message that ever left the lamp. `oldId` is the id in the lamp's record
      when the generation began, if there was one. */
  datatype World = World(r: R.State, lamp: Unit, published: set<StateMessage>, lastBootAt: int, boots: set<string>, oldId: Option<string>)

  datatype Event =
    | Backend(event: R.Event)
    | DeliverCommand(index: nat, faults: Faults)
    | Connect(publish: Publishing)
    | LosePower
    | Boot(bootId: string, bootAt: int, counterStored: bool, ok: bool)
    | Ingest(message: StateMessage, lifecycle: Lifecycle)

  /** What `publish` sends for a reservation: the id, the sequence, and the complete desired state. */
  function CommandOf(e: R.Entry): Lamp.Command { Lamp.Command(e.commandId, e.sequence, Full(e.desired)) }

  function Absorb(s: World, e: Effect): World {
    s.(lamp := e.unit, published := s.published + (if e.message.Some? then {e.message.value} else {}))
  }

  /** What is assumed of the surroundings: ids are fresh, boot times increase, boot ids are fresh,
      and a rollback of the LED succeeds. */
  predicate Allowed(s: World, e: Event) {
    match e
    case Backend(event) => !event.Uplink? && (event.Call? ==> Some(event.commandId) != s.oldId)
    case DeliverCommand(i, faults) => i < |s.r.log| && faults.rollback != Failed
    case Boot(bootId, bootAt, _, _) => s.lamp.ram.None? && s.lastBootAt < bootAt && bootId !in s.boots
    case Ingest(m, lifecycle) => m in s.published && (lifecycle == RuntimeAuthorized || lifecycle == Active)
    case _ => true
  }

  function IngestWrite(s: World, m: StateMessage, lifecycle: Lifecycle): World {
    if s.r.row.Some? && s.r.row.value.lifecycle == lifecycle && Newer(m, s.r.row.value)
    then s.(r := s.r.(row := Some(Observe(s.r.row.value, m)))) else s
  }

  function Next(s: World, e: Event): World {
    if !Allowed(s, e) then s
    else match e
      case Backend(event) => s.(r := R.Next(s.r, event))
      case DeliverCommand(i, faults) => Absorb(s, Handle(s.lamp, CommandOf(s.r.log[i]), faults))
      case Connect(outcome) => Absorb(s, Lamp.Next(s.lamp, Connected(outcome)))
      case LosePower => Absorb(s, Lamp.Next(s.lamp, PowerLoss))
      case Boot(bootId, bootAt, stored, ok) =>
        Absorb(s, Lamp.Next(s.lamp, PowerOn(bootId, bootAt, stored, ok))).(lastBootAt := bootAt, boots := s.boots + {bootId})
      case Ingest(m, lifecycle) => IngestWrite(s, m, lifecycle)
  }

  function Run(s: World, events: seq<Event>): World {
    if events == [] then s else Next(Run(s, events[..|events| - 1]), events[|events| - 1])
  }

  /** A new generation starts with an empty row; the lamp may still hold the record of an earlier one. */
  function Start(certificate: string, nvs: Nvs): World {
    World.World(R.Start(certificate), Unit(nvs, None), {}, 0, {}, if nvs.record.Some? then Some(nvs.record.value.id) else None)
  }

  /** `pendingDesired` of the device response: shown while the last command is not the applied one. */
  function PendingDesired(row: Row): Option<LedState> {
    if row.desired.Some? && row.lastCommandId != row.applied then row.desired else None
  }

  /** The id belongs to a reservation that asked for this state. */
  predicate Asked(log: seq<R.Entry>, id: string, led: LedState) {
    exists i :: 0 <= i < |log| && log[i].commandId == id && log[i].desired == led
  }

  /** A report with a command id shows what that command asked for, unless the id is the old one. */
  predicate Truthful(s: World, applied: Option<string>, led: LedState) {
    applied.Some? ==> applied == s.oldId || Asked(s.r.log, applied.value, led)
  }

  /** A record of this generation is the record of the reservation with its sequence. */
  predicate RecordFrom(s: World, r: Record) {
    || Some(r.id) == s.oldId
    || (1 <= r.sequence <= |s.r.log| && s.r.log[r.sequence - 1].commandId == r.id && s.r.log[r.sequence - 1].desired == RecordLed(r))
  }

  predicate LampOk(s: World) {
    && Ok(s.lamp) && ShowsRecord(s.lamp)
    && (s.lamp.nvs.record.Some? ==> RecordFrom(s, s.lamp.nvs.record.value))
    && (s.lamp.ram.Some? ==> s.lamp.ram.value.bootAt == s.lastBootAt && s.lamp.ram.value.bootId in s.boots)
  }

  /** Every published message is truthful, from a known boot, and not beyond the lamp's own counter; and once
      an id has been reported the lamp has a record. */
  predicate MessageOk(s: World, m: StateMessage) {
    && Truthful(s, m.applied, m.led) && ValidState(m.led)
    && m.bootId in s.boots && m.bootAt <= s.lastBootAt && m.messageId == MessageId(m.bootId, m.sequence)
    && (s.lamp.ram.Some? && m.bootId == s.lamp.ram.value.bootId ==> m.bootAt == s.lastBootAt)
    && (s.lamp.ram.Some? && m.bootAt == s.lastBootAt ==> m.bootId == s.lamp.ram.value.bootId && m.sequence <= s.lamp.ram.value.stateSequence)
    && (m.applied.Some? ==> s.lamp.nvs.record.Some?)
  }

  /** Two published messages are consistent, and ids once reported stay reported. */
  predicate PairOk(a: StateMessage, b: StateMessage) {
    && Consistent(a, b)
    && (a.bootId == b.bootId ==> a.bootAt == b.bootAt)
    && (Before(a, b) && a.applied.Some? ==> b.applied.Some?)
  }

  predicate PublishedOk(s: World) {
    && (forall m :: m in s.published ==> MessageOk(s, m))
    && (forall a, b :: a in s.published && b in s.published ==> PairOk(a, b))
  }

  /** The row stands at a published message and has that message's id, or nothing has been ingested. */
  predicate RowOk(s: World) {
    s.r.row.Some? ==>
      || Untouched(s.r.row.value)
      || exists m :: m in s.published && StandsAt(s.r.row.value, m) && s.r.row.value.applied == m.applied
  }

  predicate IdsOk(s: World) {
    forall k :: k in s.r.callers ==> Some(s.r.callers[k].commandId) != s.oldId
  }

  predicate Inv(s: World) {
    R.Inv(s.r) && LampOk(s) && PublishedOk(s) && RowOk(s) && IdsOk(s)
  }

  lemma AskedSurvives(log: seq<R.Entry>, longer: seq<R.Entry>, id: string, led: LedState)
    requires Asked(log, id, led) && log <= longer
    ensures Asked(longer, id, led)
  {
    var i :| 0 <= i < |log| && log[i].commandId == id && log[i].desired == led;
    assert longer[i] == log[i];
  }

  lemma TruthSurvives(s: World, t: World, applied: Option<string>, led: LedState)
    requires Truthful(s, applied, led) && s.r.log <= t.r.log && s.oldId == t.oldId
    ensures Truthful(t, applied, led)
  {
    if applied.Some? && applied != s.oldId { AskedSurvives(s.r.log, t.r.log, applied.value, led); }
  }

  /** A backend step that only appends to the log leaves all that the lamp did standing. */
  lemma BackendKeepsLampSide(s: World, r: R.State)
    requires LampOk(s) && PublishedOk(s) && s.r.log <= r.log
    ensures LampOk(s.(r := r)) && PublishedOk(s.(r := r))
  {
    var t := s.(r := r);
    hide Ok, ShowsRecord, Asked, PairOk;
    forall m | m in t.published ensures MessageOk(t, m) {
      TruthSurvives(s, t, m.applied, m.led);
    }
  }

  /** What reservation steps leave of the row for the reader of state. */
  lemma BackendKeepsView(r: R.State, e: R.Event)
    requires !e.Uplink?
    ensures R.Next(r, e).row.Some? ==> r.row.Some?
    ensures R.Next(r, e).row.Some? ==>
              var before := r.row.value;
              var after := R.Next(r, e).row.value;
              after.stream == before.stream && after.observed == before.observed
              && after.lastMessage == before.lastMessage && after.applied == before.applied
  {
  }

  lemma RowViewSurvives(s: World, t: World)
    requires RowOk(s) && s.published <= t.published && (t.r.row.Some? ==> s.r.row.Some?)
    requires t.r.row.Some? ==>
               var before := s.r.row.value;
               var after := t.r.row.value;
               after.stream == before.stream && after.observed == before.observed
               && after.lastMessage == before.lastMessage && after.applied == before.applied
    ensures RowOk(t)
  {
    if t.r.row.Some? && !Untouched(t.r.row.value) {
      var m :| m in s.published && StandsAt(s.r.row.value, m) && s.r.row.value.applied == m.applied;
      assert m in t.published && StandsAt(t.r.row.value, m);
    }
  }

  lemma CallersKeepIds(r: R.State, e: R.Event)
    ensures forall k :: k in R.Next(r, e).callers ==>
              (k in r.callers && R.Next(r, e).callers[k].commandId == r.callers[k].commandId)
              || (e.Call? && R.Next(r, e).callers[k].commandId == e.commandId)
  {
  }

  lemma BackendKeepsInv(s: World, e: R.Event)
    requires Inv(s) && Allowed(s, Backend(e))
    ensures Inv(s.(r := R.Next(s.r, e)))
  {
    hide R.Inv, LampOk, PublishedOk, RowOk, R.Next;
    P.NextKeepsInv(s.r, e);
    P.NextOnlyAppends(s.r, e);
    BackendKeepsView(s.r, e);
    CallersKeepIds(s.r, e);
    BackendKeepsLampSide(s, R.Next(s.r, e));
    RowViewSurvives(s, s.(r := R.Next(s.r, e)));
  }

  lemma LampStepIsTruthful(s: World, c: Lamp.Command, f: Faults, i: nat)
    requires LampOk(s) && i < |s.r.log| && c == CommandOf(s.r.log[i]) && c.sequence == i + 1
    requires var n := Handle(s.lamp, c, f).unit.nvs;
             n == s.lamp.nvs || (s.lamp.ram.Some? && n == CommitRecord(s.lamp.nvs, MakeRecord(c, Merge(s.lamp.ram.value.led, c.update))))
    ensures var n := Handle(s.lamp, c, f).unit.nvs;
            n.record.Some? ==> RecordFrom(s, n.record.value)
  {
    hide Handle;
    var n := Handle(s.lamp, c, f).unit.nvs;
    if n != s.lamp.nvs {
      assert RecordLed(n.record.value) == s.r.log[i].desired;
    }
  }

  /** The lamp-side event that a world event stands for. */
  function LampEvent(s: World, e: Event): Lamp.Event
    requires !e.Backend? && !e.Ingest? && Allowed(s, e)
  {
    match e
    case DeliverCommand(i, faults) => Deliver(CommandOf(s.r.log[i]), faults)
    case Connect(outcome) => Connected(outcome)
    case LosePower => PowerLoss
    case Boot(bootId, bootAt, stored, ok) => PowerOn(bootId, bootAt, stored, ok)
  }

  lemma RecordStaysFrom(s: World, e: Event)
    requires R.LogOk(s.r.log, s.r.base) && LampOk(s) && !e.Backend? && !e.Ingest? && Allowed(s, e)
    ensures var n := Lamp.Next(s.lamp, LampEvent(s, e)).unit.nvs;
            n.record.Some? ==> RecordFrom(s, n.record.value)
  {
    if e.DeliverCommand? {
      assert R.EntryOk(s.r.log, s.r.base, e.index);
      RecordSource(s.lamp, CommandOf(s.r.log[e.index]), e.faults);
      LampStepIsTruthful(s, CommandOf(s.r.log[e.index]), e.faults, e.index);
    }
  }

  lemma LampEventKeepsLamp(s: World, e: Event)
    requires R.LogOk(s.r.log, s.r.base) && LampOk(s) && !e.Backend? && !e.Ingest? && Allowed(s, e)
    ensures LampOk(Next(s, e))
  {
    NextKeeps(s.lamp, LampEvent(s, e));
    MessageReports(s.lamp, LampEvent(s, e));
    RecordStaysFrom(s, e);
    hide Ok, ShowsRecord, Handle, R.LogOk;
  }

  lemma OldMessageSurvives(s: World, e: Event, m: StateMessage)
    requires LampOk(s) && MessageOk(s, m) && !e.Backend? && !e.Ingest? && Allowed(s, e)
    ensures MessageOk(Next(s, e), m)
  {
    MessageReports(s.lamp, LampEvent(s, e));
    hide Ok, ShowsRecord, Handle, Truthful;
    assert Next(s, e).r == s.r;
    TruthSurvives(s, Next(s, e), m.applied, m.led);
  }

  /** What the lamp sends next is truthful and comes after everything it sent before. */
  lemma NewMessageIsOk(s: World, e: Event, m: StateMessage)
    requires LampOk(s) && LampOk(Next(s, e)) && !e.Backend? && !e.Ingest? && Allowed(s, e)
    requires Lamp.Next(s.lamp, LampEvent(s, e)).message == Some(m)
    ensures MessageOk(Next(s, e), m)
    ensures forall n :: MessageOk(s, n) ==> PairOk(n, m) && PairOk(m, n)
    ensures PairOk(m, m)
  {
    MessageReports(s.lamp, LampEvent(s, e));
    hide Handle;
    assert Next(s, e).lamp.ram.value.led == m.led;
  }

  lemma LampEventKeepsPublished(s: World, e: Event)
    requires LampOk(s) && LampOk(Next(s, e)) && PublishedOk(s) && !e.Backend? && !e.Ingest? && Allowed(s, e)
    ensures PublishedOk(Next(s, e))
  {
    var sent := Lamp.Next(s.lamp, LampEvent(s, e)).message;
    if sent.Some? {
      NewMessageIsOk(s, e, sent.value);
    }
    assert Next(s, e).published == s.published + (if sent.Some? then {sent.value} else {});
    hide LampOk, Lamp.Next, Handle, Truthful;
    forall m | m in Next(s, e).published ensures MessageOk(Next(s, e), m) {
      if m in s.published { OldMessageSurvives(s, e, m); }
    }
    hide MessageOk, PairOk;
  }

  /** A conditional write moves the row from one published message to a later one. */
  lemma IngestKeepsInv(s: World, m: StateMessage, lifecycle: Lifecycle)
    requires Inv(s) && m in s.published
    ensures Inv(IngestWrite(s, m, lifecycle))
  {
    var t := IngestWrite(s, m, lifecycle);
    if t != s {
      P.RowChangeKeepsInv(s.r, t.r.row);
      BackendKeepsLampSide(s, t.r);
      if !Untouched(s.r.row.value) {
        var top :| top in s.published && StandsAt(s.r.row.value, top) && s.r.row.value.applied == top.applied;
        assert PairOk(top, m) && PairOk(m, top);
      }
      hide R.Inv, LampOk, PublishedOk;
      assert StandsAt(t.r.row.value, m) && t.r.row.value.applied == m.applied;
    }
  }

  lemma NextKeepsInv(s: World, e: Event)
    requires Inv(s)
    ensures Inv(Next(s, e))
  {
    if Allowed(s, e) {
      if e.Backend? {
        BackendKeepsInv(s, e.event);
      } else if e.Ingest? {
        IngestKeepsInv(s, e.message, e.lifecycle);
      } else {
        LampEventKeepsLamp(s, e);
        LampEventKeepsPublished(s, e);
        hide LampOk, PublishedOk, R.Inv, Handle;
        RowViewSurvives(s, Next(s, e));
      }
    }
  }

  lemma {:induction false} RunKeepsInv(certificate: string, nvs: Nvs, events: seq<Event>)
    requires NvsOk(nvs)
    ensures Inv(Run(Start(certificate, nvs), events))
  {
    if events == [] {
      P.StartIsGood(certificate);
    } else {
      RunKeepsInv(certificate, nvs, events[..|events| - 1]);
      NextKeepsInv(Run(Start(certificate, nvs), events[..|events| - 1]), events[|events| - 1]);
    }
  }

  ghost predicate Reachable(s: World) {
    exists certificate, nvs, events :: NvsOk(nvs) && s == Run(Start(certificate, nvs), events)
  }

  lemma ReachableIsGood(s: World)
    requires Reachable(s)
    ensures Inv(s)
  {
    var certificate, nvs, events :| NvsOk(nvs) && s == Run(Start(certificate, nvs), events);
    RunKeepsInv(certificate, nvs, events);
  }

  /** The end-to-end theorem. Over every run, while a live row says that the last command is the applied one, the five
      fields it shows are those that were reserved, and the lamp did report that command with those fields. So the
      pending state is hidden only for a state that was really reached. */
  lemma HiddenOnlyWhenReported(s: World)
    requires Reachable(s) && s.r.row.Some? && s.r.row.value.desired.Some? && PendingDesired(s.r.row.value) == None
    ensures var row := s.r.row.value;
            && row.observed == row.desired.value
            && exists m :: m in s.published && StandsAt(row, m) && m.applied == row.lastCommandId && m.led == row.desired.value
  {
    ReachableIsGood(s);
    ReportedIsDesired(s);
  }

  lemma ReportedIsDesired(s: World)
    requires Inv(s) && s.r.row.Some? && s.r.row.value.desired.Some? && PendingDesired(s.r.row.value) == None
    ensures s.r.row.value.observed == s.r.row.value.desired.value
    ensures exists m :: m in s.published && StandsAt(s.r.row.value, m) && m.applied == s.r.row.value.lastCommandId && m.led == s.r.row.value.desired.value
  {
    var row := s.r.row.value;
    var n := |s.r.log|;
    assert row.lastCommandId == Some(s.r.log[n - 1].commandId) && row.desired == Some(s.r.log[n - 1].desired);
    var m :| m in s.published && StandsAt(row, m) && row.applied == m.applied;
    LastIdIsNew(s, n - 1);
    assert MessageOk(s, m);
    var i :| 0 <= i < n && s.r.log[i].commandId == m.applied.value && s.r.log[i].desired == m.led;
    if i < n - 1 { P.LogIdsDiffer(s.r, i, n - 1); }
  }

  lemma LastIdIsNew(s: World, i: nat)
    requires R.Inv(s.r) && IdsOk(s) && i < |s.r.log|
    ensures Some(s.r.log[i].commandId) != s.oldId
  {
    assert R.Owned(s.r, s.r.log[i]);
  }

  /** The lamp still holds a record of an earlier generation that is not older than the last command. */
  predicate Blocked(s: World) {
    s.lamp.nvs.record.Some? && Some(s.lamp.nvs.record.value.id) == s.oldId && s.lamp.nvs.record.value.sequence >= |s.r.log|
  }

  lemma LastCommandIsAnswered(s: World)
    requires R.LogOk(s.r.log, s.r.base) && LampOk(s) && s.r.log != []
    requires s.lamp.ram.Some? && s.lamp.ram.value.stateSequence < MAX_SEQUENCE
    requires IsIdentifier(s.r.log[|s.r.log| - 1].commandId) && Some(s.r.log[|s.r.log| - 1].commandId) != s.oldId
    ensures var last := s.r.log[|s.r.log| - 1];
            var answer := Handle(s.lamp, CommandOf(last), SMOOTH).message;
            && (answer.Some? <==> !Blocked(s))
            && (answer.Some? ==> answer.value.applied == Some(last.commandId) && answer.value.led == last.desired)
  {
    var n := |s.r.log|;
    var last := s.r.log[n - 1];
    assert R.EntryOk(s.r.log, s.r.base, n - 1);
    assert Merge(s.lamp.ram.value.led, Full(last.desired)) == last.desired;
    hide R.LogOk, NvsOk, ValidState;
  }

  lemma AnswerIsIngested(s: World, last: R.Entry, m: StateMessage)
    requires Inv(s) && s.r.row.Some? && Live(s.r.row.value) && s.r.log != [] && last == s.r.log[|s.r.log| - 1]
    requires Handle(s.lamp, CommandOf(last), SMOOTH).message == Some(m) && m.applied == Some(last.commandId) && m.led == last.desired
    ensures var t := Next(Next(s, DeliverCommand(|s.r.log| - 1, SMOOTH)), Ingest(m, s.r.row.value.lifecycle));
            t.r.row.Some? && PendingDesired(t.r.row.value) == None && Some(t.r.row.value.observed) == s.r.row.value.desired
  {
    hide *;
    var e := DeliverCommand(|s.r.log| - 1, SMOOTH);
    RowHasLast(s);
    LastDelivery(s, last);
    AnswerIsNewer(s, e, m);
    WriteShows(Next(s, e), m, s.r.row.value.lifecycle);
    AnswerHides(s.r.row.value, m);
  }

  lemma LastDelivery(s: World, last: R.Entry)
    requires s.r.log != [] && last == s.r.log[|s.r.log| - 1]
    ensures var e := DeliverCommand(|s.r.log| - 1, SMOOTH);
            Allowed(s, e) && Lamp.Next(s.lamp, LampEvent(s, e)) == Handle(s.lamp, CommandOf(last), SMOOTH) && Next(s, e).r == s.r
  {
    hide Handle;
  }

  /** The row at a message that reports the last command with its state has nothing pending. */
  lemma AnswerHides(row: Row, m: StateMessage)
    requires row.desired == Some(m.led) && row.lastCommandId == m.applied && m.applied.Some?
    ensures PendingDesired(Observe(row, m)) == None && Observe(row, m).observed == m.led
  {
  }

  lemma RowHasLast(s: World)
    requires Inv(s) && s.r.row.Some? && s.r.log != []
    ensures s.r.row.value.lastCommandId == Some(s.r.log[|s.r.log| - 1].commandId)
    ensures s.r.row.value.desired == Some(s.r.log[|s.r.log| - 1].desired)
  {
  }

  lemma WriteShows(t: World, m: StateMessage, lifecycle: Lifecycle)
    requires t.r.row.Some? && t.r.row.value.lifecycle == lifecycle && Live(t.r.row.value)
    requires m in t.published && Newer(m, t.r.row.value)
    ensures Next(t, Ingest(m, lifecycle)).r.row == Some(Observe(t.r.row.value, m))
  {
  }

  /** The converse of the safety theorem: from any reachable world, one undisturbed delivery of the last command
      and one ingest of its answer hide the pending state, unless the lamp holds a record of an earlier
      generation that is not older; and then it gives no answer at all. */
  lemma LastCommandConverges(s: World)
    requires Reachable(s) && s.r.row.Some? && Live(s.r.row.value) && s.r.log != []
    requires s.lamp.ram.Some? && s.lamp.ram.value.stateSequence < MAX_SEQUENCE && IsIdentifier(s.r.log[|s.r.log| - 1].commandId)
    ensures var e := DeliverCommand(|s.r.log| - 1, SMOOTH);
            var answer := Handle(s.lamp, CommandOf(s.r.log[|s.r.log| - 1]), SMOOTH).message;
            && (answer.Some? <==> !Blocked(s))
            && (answer.Some? ==>
                  var t := Next(Next(s, e), Ingest(answer.value, s.r.row.value.lifecycle));
                  t.r.row.Some? && PendingDesired(t.r.row.value) == None && Some(t.r.row.value.observed) == s.r.row.value.desired)
  {
    ReachableIsGood(s);
    LastIdIsNew(s, |s.r.log| - 1);
    assert R.LogOk(s.r.log, s.r.base) && LampOk(s);
    hide R.Inv, LampOk, PublishedOk, RowOk, IdsOk, Handle, Run, Next, R.LogOk, Blocked;
    LastCommandIsAnswered(s);
    if !Blocked(s) {
      AnswerIsIngested(s, s.r.log[|s.r.log| - 1], Handle(s.lamp, CommandOf(s.r.log[|s.r.log| - 1]), SMOOTH).message.value);
    }
  }

  lemma AnswerIsNewer(s: World, e: Event, m: StateMessage)
    requires Inv(s) && s.r.row.Some? && e.DeliverCommand? && Allowed(s, e)
    requires Lamp.Next(s.lamp, LampEvent(s, e)).message == Some(m)
    ensures Newer(m, s.r.row.value) && m in Next(s, e).published
  {
    LampEventKeepsLamp(s, e);
    NewMessageIsOk(s, e, m);
    var row := s.r.row.value;
    if !Untouched(row) {
      var top :| top in s.published && StandsAt(row, top) && row.applied == top.applied;
      MessageReports(s.lamp, LampEvent(s, e));
      assert MessageOk(s, top);
    }
  }
}

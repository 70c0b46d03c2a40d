/** The MQTT runtime of the lamp: command handling with rollback, one NVS record per applied
    command, restore at boot, and the state messages it publishes. */
module Lamp {
  import opened Common
  import opened Led

  const RECORD_VERSION: nat := 1
  const RECORD_SIZE: nat := 152
  const IDENTIFIER_MAX: nat := 128

  predicate IdentifierChar(c: char) {
    'a' <= c <= 'z' || 'A' <= c <= 'Z' || '0' <= c <= '9' || c in "_.:-"
  }

  predicate IsIdentifier(s: string) {
    1 <= |s| <= IDENTIFIER_MAX && forall i :: 0 <= i < |s| ==> IdentifierChar(s[i])
  }

  datatype Command = Command(id: string, sequence: int, update: Patch)

  /** What `parse_command` lets through. */
  predicate Parses(c: Command) {
    IsIdentifier(c.id) && 1 <= c.sequence <= MAX_SEQUENCE && ValidPatch(c.update)
  }

  /** `mqtt_applied_command_record_t`. */
  datatype Record = Record(version: nat, size: nat, sequence: int, id: string,
                           power: int, red: int, green: int, blue: int, brightness: int)

  function MakeRecord(c: Command, s: LedState): Record {
    Record(RECORD_VERSION, RECORD_SIZE, c.sequence, c.id,
           if s.power then 1 else 0, s.red, s.green, s.blue, s.brightness)
  }

  /** The check that `restore_applied_command` makes before it uses a stored record. */
  predicate Restorable(r: Record) {
    && r.version == RECORD_VERSION
    && r.size == RECORD_SIZE
    && r.sequence <= MAX_SEQUENCE
    && r.power <= 1
    && r.brightness <= 100
    && IsIdentifier(r.id)
  }

  function RecordLed(r: Record): LedState {
    LedState(r.power != 0, r.red, r.green, r.blue, r.brightness)
  }

  datatype MessageId = MessageId(bootId: string, number: nat)

  datatype StateMessage = StateMessage(messageId: MessageId, bootId: string, bootAt: int, bootSequence: nat,
                                       sequence: nat, led: LedState, applied: Option<string>)

  /** NVS contents. `commits` is history: every record ever committed, oldest first. */
  datatype Nvs = Nvs(bootSequence: nat, record: Option<Record>, commits: seq<Record>)

  /** The static variables, alive between a boot and the next power loss. `lastId` is "" until a command applied. */
  datatype Ram = Ram(hasLast: bool, lastSequence: int, lastId: string, led: LedState,
                     bootId: string, bootAt: int, bootSequence: nat, stateSequence: nat)

  datatype Unit = Unit(nvs: Nvs, ram: Option<Ram>)

  /** How one primitive ends. `Cut` is a power loss while it runs; the process never sees a result. */
  datatype Io = Done | Failed | Cut

  /** How `nvs_commit` ends: power may be lost before or after the new record became durable. */
  datatype Commit = Committed | NotCommitted | CutBefore | CutAfter

  /** How a publication ends. The LED is read first, and without that no number is taken. */
  datatype Publishing = Sent | NotSent | Unread | PowerCut

  datatype Faults = Faults(read: Io, apply: Io, store: Io, commit: Commit, rollback: Io, publish: Publishing)

  datatype Effect = Effect(unit: Unit, message: Option<StateMessage>)

  function LostPower(u: Unit): Unit { u.(ram := None) }

  function LastApplied(r: Ram): Option<string> { if r.hasLast then Some(r.lastId) else None }

  function StateReport(r: Ram, number: nat, applied: Option<string>): StateMessage {
    StateMessage(MessageId(r.bootId, number), r.bootId, r.bootAt, r.bootSequence, number, r.led, applied)
  }

  /** `publish_state`: once the LED is read, the sequence number is consumed even when the message does not leave. */
  function Publish(u: Unit, applied: Option<string>, outcome: Publishing): Effect
    requires u.ram.Some?
  {
    var r := u.ram.value;
    if outcome == Unread || r.stateSequence >= MAX_SEQUENCE then Effect(u, None)
    else
      var next := r.(stateSequence := r.stateSequence + 1);
      var message := StateReport(next, next.stateSequence, applied);
      if outcome == Sent then Effect(u.(ram := Some(next)), Some(message))
      else if outcome == NotSent then Effect(u.(ram := Some(next)), None)
      else Effect(LostPower(u), None)
  }

  function CommitRecord(n: Nvs, r: Record): Nvs { n.(record := Some(r), commits := n.commits + [r]) }

  /** `persist_applied_command` after a successful LED write, then the RAM update and the answer. */
  function Persist(before: Unit, applied: Unit, c: Command, f: Faults): Effect
    requires before.ram.Some? && applied.ram.Some?
  {
    var record := MakeRecord(c, applied.ram.value.led);
    if f.store == Cut || (f.store == Done && f.commit == CutBefore) then Effect(LostPower(applied), None)
    else if f.store == Done && f.commit == CutAfter then
      Effect(LostPower(applied.(nvs := CommitRecord(applied.nvs, record))), None)
    else if f.store == Done && f.commit == Committed then
      var r := applied.ram.value.(hasLast := true, lastSequence := c.sequence, lastId := c.id);
      Publish(Unit(CommitRecord(applied.nvs, record), Some(r)), Some(c.id), f.publish)
    else match f.rollback
      case Done => Publish(before, LastApplied(before.ram.value), f.publish)
      case Failed => Effect(applied, None)
      case Cut => Effect(LostPower(applied), None)
  }

  /** `handle_command`, for every way its primitives can end. */
  function Handle(u: Unit, c: Command, f: Faults): Effect {
    if u.ram.None? || !Parses(c) then Effect(u, None)
    else
      var r := u.ram.value;
      if r.hasLast && c.sequence == r.lastSequence then
        if c.id == r.lastId then Publish(u, Some(c.id), f.publish) else Effect(u, None)
      else if r.hasLast && c.sequence < r.lastSequence then Effect(u, None)
      else if f.read == Cut || (f.read == Done && f.apply == Cut) then Effect(LostPower(u), None)
      else if f.read == Failed || f.apply == Failed then Effect(u, None)
      else
        var applied := u.(ram := Some(r.(led := Merge(r.led, c.update))));
        Persist(u, applied, c, f)
  }

  /** `mqtt_runtime_start` after a power cycle: LED off, the boot counter committed, the record restored.
      `ok` is false when any step before the runtime starts fails; then MQTT stays stopped. */
  function Boot(n: Nvs, bootId: string, bootAt: int, counterStored: bool, ok: bool): Unit {
    if n.bootSequence >= MAX_SEQUENCE || !counterStored then Unit(n, None)
    else
      var counted := n.(bootSequence := n.bootSequence + 1);
      if !ok || (n.record.Some? && !Restorable(n.record.value)) then Unit(counted, None)
      else if n.record.None? then
        Unit(counted, Some(Ram(false, 0, "", OFF, bootId, bootAt, counted.bootSequence, 0)))
      else
        var r := n.record.value;
        Unit(counted, Some(Ram(true, r.sequence, r.id, RecordLed(r), bootId, bootAt, counted.bootSequence, 0)))
  }

  datatype Event =
    | Deliver(command: Command, faults: Faults)
    | Connected(publish: Publishing)
    | PowerLoss
    | PowerOn(bootId: string, bootAt: int, counterStored: bool, ok: bool)

  function Next(u: Unit, e: Event): Effect {
    match e
    case Deliver(c, f) => Handle(u, c, f)
    case Connected(outcome) => if u.ram.None? then Effect(u, None) else Publish(u, LastApplied(u.ram.value), outcome)
    case PowerLoss => Effect(LostPower(u), None)
    case PowerOn(id, at, stored, ok) => if u.ram.Some? then Effect(u, None) else Effect(Boot(u.nvs, id, at, stored, ok), None)
  }

  /** Only a rollback that fails may leave the LED apart from the record. */
  predicate RollsBack(e: Event) { e.Deliver? ==> e.faults.rollback != Failed }

  function Run(u: Unit, events: seq<Event>): Unit {
    if events == [] then u else Next(Run(u, events[..|events| - 1]), events[|events| - 1]).unit
  }

  const FACTORY := Unit(Nvs(0, None, []), None)

  predicate Increasing(commits: seq<Record>) {
    forall i, j :: 0 <= i < j < |commits| ==> commits[i].sequence < commits[j].sequence
  }

  /** Durable part: the record is the last commit, commits strictly increase, restore accepts each of them. */
  predicate NvsOk(n: Nvs) {
    && n.record == (if n.commits == [] then None else Some(n.commits[|n.commits| - 1]))
    && Increasing(n.commits)
    && forall i :: 0 <= i < |n.commits| ==> Restorable(n.commits[i]) && ValidState(RecordLed(n.commits[i]))
  }

  /** The RAM sequence and id are those of the record. */
  predicate RamOk(n: Nvs, r: Ram) {
    && ValidState(r.led)
    && r.hasLast == n.record.Some?
    && (r.hasLast ==> r.lastSequence == n.record.value.sequence && r.lastId == n.record.value.id)
  }

  predicate Ok(u: Unit) { NvsOk(u.nvs) && (u.ram.Some? ==> RamOk(u.nvs, u.ram.value)) }

  /** The lamp shows what the record says; with no record yet, it shows the boot state. */
  predicate ShowsRecord(u: Unit) {
    u.ram.Some? ==> u.ram.value.led == if u.nvs.record.Some? then RecordLed(u.nvs.record.value) else OFF
  }

  lemma CommitKeepsNvs(n: Nvs, c: Command, s: LedState)
    requires NvsOk(n) && Parses(c) && ValidState(s)
    requires n.record.Some? ==> n.record.value.sequence < c.sequence
    ensures NvsOk(CommitRecord(n, MakeRecord(c, s)))
    ensures RecordLed(MakeRecord(c, s)) == s && Restorable(MakeRecord(c, s))
  {
    var r := MakeRecord(c, s);
    var all := n.commits + [r];
    assert RecordLed(r) == s && Restorable(r);
    forall i, j | 0 <= i < j < |all| ensures all[i].sequence < all[j].sequence {
      if j == |n.commits| && i < |n.commits| - 1 {
        assert n.commits[i].sequence < n.commits[|n.commits| - 1].sequence;
      }
    }
  }

  lemma MergeValid(s: LedState, p: Patch)
    requires ValidState(s) && ValidPatch(p)
    ensures ValidState(Merge(s, p)) && Accepts(p) && Merge(s, Full(Merge(s, p))) == Merge(s, p)
  {
  }

  lemma PublishKeeps(u: Unit, applied: Option<string>, outcome: Publishing)
    requires u.ram.Some? && Ok(u)
    ensures Ok(Publish(u, applied, outcome).unit)
    ensures ShowsRecord(u) ==> ShowsRecord(Publish(u, applied, outcome).unit)
  {
  }

  lemma PersistKeeps(u: Unit, c: Command, f: Faults)
    requires u.ram.Some? && Ok(u) && Parses(c)
    requires u.ram.value.hasLast ==> u.ram.value.lastSequence < c.sequence
    ensures var applied := u.(ram := Some(u.ram.value.(led := Merge(u.ram.value.led, c.update))));
            Ok(Persist(u, applied, c, f).unit) && (ShowsRecord(u) && f.rollback != Failed ==> ShowsRecord(Persist(u, applied, c, f).unit))
  {
    var led := Merge(u.ram.value.led, c.update);
    var applied := u.(ram := Some(u.ram.value.(led := led)));
    MergeValid(u.ram.value.led, c.update);
    CommitKeepsNvs(u.nvs, c, led);
    hide Publish, Restorable, Increasing;
    if f.store == Done && f.commit == Committed {
      var r := applied.ram.value.(hasLast := true, lastSequence := c.sequence, lastId := c.id);
      PublishKeeps(Unit(CommitRecord(applied.nvs, MakeRecord(c, led)), Some(r)), Some(c.id), f.publish);
    } else if f.rollback == Done {
      PublishKeeps(u, LastApplied(u.ram.value), f.publish);
    }
  }

  lemma HandleKeeps(u: Unit, c: Command, f: Faults)
    requires Ok(u)
    ensures Ok(Handle(u, c, f).unit)
    ensures ShowsRecord(u) && f.rollback != Failed ==> ShowsRecord(Handle(u, c, f).unit)
  {
    if u.ram.Some? && Parses(c) {
      if u.ram.value.hasLast && c.sequence <= u.ram.value.lastSequence {
        PublishKeeps(u, Some(c.id), f.publish);
      } else {
        PersistKeeps(u, c, f);
      }
    }
  }

  lemma NextKeeps(u: Unit, e: Event)
    requires Ok(u)
    ensures Ok(Next(u, e).unit)
    ensures ShowsRecord(u) && RollsBack(e) ==> ShowsRecord(Next(u, e).unit)
  {
    match e
    case Deliver(c, f) => HandleKeeps(u, c, f);
    case Connected(_) =>
    case PowerLoss =>
    case PowerOn(_, _, _, _) =>
      if u.nvs.record.Some? {
        assert u.nvs.record.value == u.nvs.commits[|u.nvs.commits| - 1];
      }
  }

  /** Power-loss safety: whatever commands arrive, whichever primitives fail, and wherever power is lost, the RAM
      sequence and id are those of the one committed record; and the LED equals it when no rollback has failed. */
  lemma {:induction false} PowerLossSafety(events: seq<Event>)
    ensures Ok(Run(FACTORY, events))
    ensures (forall i :: 0 <= i < |events| ==> RollsBack(events[i])) ==> ShowsRecord(Run(FACTORY, events))
  {
    if events != [] {
      var prefix := events[..|events| - 1];
      PowerLossSafety(prefix);
      NextKeeps(Run(FACTORY, prefix), events[|events| - 1]);
    }
  }

  /** Any message that leaves reports the state the lamp is left in, under the next number of this boot;
      numbers never go back within a boot and a record once committed never disappears. */
  lemma MessageReports(u: Unit, e: Event)
    requires Ok(u)
    ensures var after := Next(u, e);
            && (u.ram.Some? && after.unit.ram.Some? ==>
                  && after.unit.ram.value.bootId == u.ram.value.bootId && after.unit.ram.value.bootAt == u.ram.value.bootAt
                  && after.unit.ram.value.stateSequence >= u.ram.value.stateSequence)
            && (after.message.Some? ==>
                  && u.ram.Some? && after.unit.ram.Some?
                  && after.unit.ram.value.stateSequence == u.ram.value.stateSequence + 1
                  && after.message.value == StateReport(after.unit.ram.value, after.unit.ram.value.stateSequence, LastApplied(after.unit.ram.value)))
            && (u.nvs.record.Some? ==> after.unit.nvs.record.Some?)
  {
    match e
    case Deliver(c, f) =>
    case _ =>
  }

  /** A command leaves the record alone, or replaces it by its own. */
  lemma RecordSource(u: Unit, c: Command, f: Faults)
    ensures var after := Handle(u, c, f).unit.nvs;
            || after == u.nvs
            || (u.ram.Some? && Parses(c) && (u.ram.value.hasLast ==> u.ram.value.lastSequence < c.sequence)
                && after == CommitRecord(u.nvs, MakeRecord(c, Merge(u.ram.value.led, c.update))))
  {
  }

  /** A command that is not newer than the record changes neither the record nor the LED; it is answered
      only if it is the recorded command itself. */
  lemma OldCommandIsInert(u: Unit, c: Command, f: Faults)
    requires Ok(u) && u.ram.Some? && u.nvs.record.Some? && c.sequence <= u.nvs.record.value.sequence
    ensures var after := Handle(u, c, f);
            && after.unit.nvs == u.nvs
            && (after.unit.ram.Some? ==> after.unit.ram.value.led == u.ram.value.led)
            && (after.message.Some? ==> c.id == u.nvs.record.value.id && c.sequence == u.nvs.record.value.sequence)
  {
  }

  /** The handler was about to undo a change and could not. */
  predicate LeftAhead(u: Unit, c: Command, f: Faults) {
    && u.ram.Some? && Parses(c)
    && !(u.ram.value.hasLast && c.sequence <= u.ram.value.lastSequence)
    && f.read == Done && f.apply == Done
    && (f.store == Failed || (f.store == Done && f.commit == NotCommitted))
    && f.rollback == Failed
    && Merge(u.ram.value.led, c.update) != u.ram.value.led
  }

  /** Exactly then the LED and the record part. */
  lemma PartsExactlyOnFailedRollback(u: Unit, c: Command, f: Faults)
    requires Ok(u) && ShowsRecord(u)
    ensures ShowsRecord(Handle(u, c, f).unit) <==> !LeftAhead(u, c, f)
  {
    if u.ram.Some? && Parses(c) && !(u.ram.value.hasLast && c.sequence <= u.ram.value.lastSequence) {
      if f.rollback != Failed {
        PersistKeeps(u, c, f);
      } else if LeftAhead(u, c, f) {
      } else {
        PersistKeeps(u, c, f.(rollback := Done));
      }
    }
  }

  /** Whatever happens afterwards, the committed sequence never goes back. */
  lemma {:induction false} CommittedSequenceGrows(u: Unit, events: seq<Event>)
    requires Ok(u)
    ensures Ok(Run(u, events)) && u.nvs.commits <= Run(u, events).nvs.commits
    ensures u.nvs.record.Some? ==> Run(u, events).nvs.record.Some? && u.nvs.record.value.sequence <= Run(u, events).nvs.record.value.sequence
  {
    if events != [] {
      var prefix, e := events[..|events| - 1], events[|events| - 1];
      CommittedSequenceGrows(u, prefix);
      NextKeeps(Run(u, prefix), e);
      if e.Deliver? {
        RecordSource(Run(u, prefix), e.command, e.faults);
      }
    }
  }

  /** The boot counter never goes back, and every start of the runtime gets a number of its own, one above the last. */
  lemma {:induction false} BootsAreCounted(u: Unit, events: seq<Event>, e: Event)
    ensures u.nvs.bootSequence <= Run(u, events).nvs.bootSequence
    ensures var v := Run(u, events);
            var w := Next(v, e).unit;
            v.ram.None? && w.ram.Some? ==>
              w.ram.value.bootSequence == w.nvs.bootSequence == v.nvs.bootSequence + 1 <= MAX_SEQUENCE && w.ram.value.stateSequence == 0
  {
    if events != [] {
      BootsAreCounted(u, events[..|events| - 1], e);
      CounterGrows(Run(u, events[..|events| - 1]), events[|events| - 1]);
    }
    FirstRam(Run(u, events), e);
  }

  const SMOOTH := Faults(Done, Done, Done, Committed, Done, Sent)

  /** A lamp that is off starts again exactly when the counter has not run out, it could be stored, and no later step fails, whatever
      its record says; and then RAM and LED are those of the record, or those of a new lamp when there is none. */
  lemma StartsExactly(u: Unit, bootId: string, bootAt: int, counterStored: bool, ok: bool)
    requires Ok(u) && u.ram.None?
    ensures var v := Next(u, PowerOn(bootId, bootAt, counterStored, ok)).unit;
            && v.nvs.record == u.nvs.record && v.nvs.commits == u.nvs.commits
            && (v.ram.Some? <==> u.nvs.bootSequence < MAX_SEQUENCE && counterStored && ok)
            && (v.ram.Some? ==>
                  var r := v.ram.value;
                  && r.bootId == bootId && r.bootAt == bootAt && r.bootSequence == v.nvs.bootSequence == u.nvs.bootSequence + 1 && r.stateSequence == 0
                  && (u.nvs.record.None? ==> !r.hasLast && r.led == LedState(false, 0, 0, 0, 0))
                  && (u.nvs.record.Some? ==>
                        var x := u.nvs.record.value;
                        r.hasLast && r.lastSequence == x.sequence && r.lastId == x.id
                        && r.led == LedState(x.power != 0, x.red, x.green, x.blue, x.brightness)))
  {
    if u.nvs.record.Some? {
      assert u.nvs.record.value == u.nvs.commits[|u.nvs.commits| - 1];
    }
  }

  /** The record changes exactly when a well-formed command that is newer than the last one was applied and stored; and it is then this
      command's, with the LED fields it asks for and the old ones where it asks for none. */
  lemma AppliesExactly(u: Unit, c: Command, f: Faults)
    requires Ok(u)
    ensures var v := Handle(u, c, f).unit;
            && (v.nvs.commits != u.nvs.commits <==>
                  && u.ram.Some? && Parses(c) && (u.ram.value.hasLast ==> u.ram.value.lastSequence < c.sequence)
                  && f.read == Done && f.apply == Done && f.store == Done && f.commit in {Committed, CutAfter})
            && (v.nvs.commits != u.nvs.commits ==>
                  && v.nvs.record.Some?
                  && var x, led := v.nvs.record.value, u.ram.value.led;
                  && x.sequence == c.sequence && x.id == c.id
                  && (x.power != 0) == (if c.update.power.Some? then c.update.power.value else led.power)
                  && x.red == (if c.update.red.Some? then c.update.red.value else led.red)
                  && x.green == (if c.update.green.Some? then c.update.green.value else led.green)
                  && x.blue == (if c.update.blue.Some? then c.update.blue.value else led.blue)
                  && x.brightness == (if c.update.brightness.Some? then c.update.brightness.value else led.brightness))
  {
    RecordSource(u, c, f);
    if u.ram.Some? && Parses(c) && (u.ram.value.hasLast ==> u.ram.value.lastSequence < c.sequence) {
      assert u.nvs.commits + [MakeRecord(c, Merge(u.ram.value.led, c.update))] != u.nvs.commits;
    }
  }

  /** A reconnection reports the state with the id of the recorded command, as long as the numbers last. */
  lemma ReconnectionReports(u: Unit)
    requires Ok(u) && u.ram.Some? && u.ram.value.stateSequence < MAX_SEQUENCE
    ensures var e := Next(u, Connected(Sent));
            && e.message.Some? && e.message.value.led == u.ram.value.led
            && e.message.value.applied == (if u.nvs.record.Some? then Some(u.nvs.record.value.id) else None)
            && e.message.value.sequence == u.ram.value.stateSequence + 1
  {
  }

  /** With no fault a command that is not older is answered exactly when it is new or the recorded one, as long as the numbers last. */
  lemma AnswersExactly(u: Unit, c: Command)
    requires Ok(u) && u.ram.Some? && Parses(c) && u.ram.value.stateSequence < MAX_SEQUENCE
    ensures var e := Handle(u, c, SMOOTH);
            var last := u.nvs.record;
            && (e.message.Some? <==> last.None? || last.value.sequence < c.sequence || (last.value.sequence == c.sequence && last.value.id == c.id))
            && (e.message.Some? ==> e.message.value.applied == Some(c.id))
  {
  }

  lemma CounterGrows(u: Unit, e: Event)
    ensures u.nvs.bootSequence <= Next(u, e).unit.nvs.bootSequence
  {
    if e.Deliver? { RecordSource(u, e.command, e.faults); }
  }

  lemma FirstRam(v: Unit, e: Event)
    ensures v.ram.None? && Next(v, e).unit.ram.Some? ==>
              var w := Next(v, e).unit;
              w.ram.value.bootSequence == w.nvs.bootSequence == v.nvs.bootSequence + 1 <= MAX_SEQUENCE && w.ram.value.stateSequence == 0
  {
  }
}

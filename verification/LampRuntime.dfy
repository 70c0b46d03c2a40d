/** The runtime's static variables as an object: each entry point updates them in place and is proved to do
    what the transition function of module Lamp says. */
module LampRuntime {
  import opened Common
  import opened Led
  import opened Lamp

  class Runtime {
    const led: Controller
    var nvs: Nvs
    var powered: bool
    var hasLast: bool
    var lastSequence: int
    var lastId: string
    var bootId: string
    var bootAt: int
    var bootSequence: nat
    var stateSequence: nat
    var sent: seq<StateMessage>

    ghost function View(): Unit
      reads this, led
    {
      Unit(nvs, if powered then Some(Ram(hasLast, lastSequence, lastId, led.state, bootId, bootAt, bootSequence, stateSequence))
                else None)
    }

    ghost predicate Valid()
      reads this, led
    {
      Ok(View())
    }

    constructor ()
      ensures View() == FACTORY && Valid() && sent == [] && fresh(led)
    {
      led := new Controller();
      nvs := Nvs(0, None, []);
      powered, hasLast, lastSequence, lastId := false, false, 0, "";
      bootId, bootAt, bootSequence, stateSequence, sent := "", 0, 0, 0, [];
    }

    /** The message takes the next number of this boot, and only a failure to read the LED takes none. */
    method PublishState(applied: Option<string>, outcome: Publishing)
      requires powered
      modifies this
      ensures View() == Publish(old(View()), applied, outcome).unit
      ensures sent == old(sent) + Messages(Publish(old(View()), applied, outcome))
      ensures powered && stateSequence == old(stateSequence) <==> outcome == Unread || old(stateSequence) >= MAX_SEQUENCE
    {
      if outcome == Unread || stateSequence >= MAX_SEQUENCE {
        return;
      }
      if outcome == PowerCut {
        powered := false;
        return;
      }
      stateSequence := stateSequence + 1;
      if outcome == Sent {
        sent := sent + [StateMessage(MessageId(bootId, stateSequence), bootId, bootAt, bootSequence, stateSequence, led.state, applied)];
      }
    }

    /** One blob write and one commit. The record on flash is the old one or the new one, never a mixture. */
    method PersistAppliedCommand(c: Command, state: LedState, store: Io, commit: Commit) returns (io: Io)
      modifies this`nvs, this`powered
      ensures nvs == if store == Done && commit in {Committed, CutAfter} then CommitRecord(old(nvs), MakeRecord(c, state)) else old(nvs)
      ensures io == if store != Done then store else if commit == Committed then Done else if commit == NotCommitted then Failed else Cut
      ensures powered == (old(powered) && io != Cut)
    {
      var record := Record(RECORD_VERSION, RECORD_SIZE, c.sequence, c.id, if state.power then 1 else 0,
                           state.red, state.green, state.blue, state.brightness);
      io := store;
      if io == Done {
        if commit == Committed || commit == CutAfter {
          nvs := nvs.(record := Some(record), commits := nvs.commits + [record]);
        }
        io := if commit == Committed then Done else if commit == NotCommitted then Failed else Cut;
      }
      if io == Cut {
        powered := false;
      }
    }

    /** Undo the LED change with a full update from the state read before it. */
    method RollBack(previous: LedState, had: bool, previousId: string, f: Faults)
      requires powered && ValidState(previous)
      requires hasLast == had && (had ==> previousId == lastId)
      modifies this, led
      ensures var before := old(View()).(ram := Some(old(View()).ram.value.(led := previous)));
              var e := if f.rollback == Done then Publish(before, LastApplied(before.ram.value), f.publish)
                       else Effect(if f.rollback == Failed then old(View()) else LostPower(before), None);
              View() == e.unit && sent == old(sent) + Messages(e)
    {
      if f.rollback == Cut {
        powered := false;
        return;
      }
      var ok := led.Apply(Full(previous), f.rollback == Done);
      if ok && led.state == previous {
        PublishState(if had then Some(previousId) else None, f.publish);
      }
    }

    /** The LED has changed: record the command and answer, or undo the change. */
    method KeepOrUndo(c: Command, previous: LedState, had: bool, previousId: string, f: Faults)
      requires powered && ValidState(previous)
      requires hasLast == had && (had ==> previousId == lastId)
      modifies this, led
      ensures var before := old(View()).(ram := Some(old(View()).ram.value.(led := previous)));
              && View() == Persist(before, old(View()), c, f).unit
              && sent == old(sent) + Messages(Persist(before, old(View()), c, f))
    {
      hide Publish, CommitRecord, MakeRecord, ValidState;
      var persisted := PersistAppliedCommand(c, led.state, f.store, f.commit);
      if persisted == Done {
        lastSequence, lastId, hasLast := c.sequence, c.id, true;
        PublishState(Some(c.id), f.publish);
      } else if persisted == Failed {
        RollBack(previous, had, previousId, f);
      }
    }

    method HandleCommand(c: Command, f: Faults)
      requires powered && Valid()
      modifies this, led
      ensures View() == Handle(old(View()), c, f).unit && Valid()
      ensures sent == old(sent) + Messages(Handle(old(View()), c, f))
    {
      HandleKeeps(View(), c, f);
      assert ValidState(led.state);
      hide Publish, Persist, Ok, IsIdentifier;
      if !Parses(c) {
        return;
      }
      if hasLast && c.sequence == lastSequence {
        if c.id == lastId {
          PublishState(Some(c.id), f.publish);
        }
        return;
      }
      if hasLast && c.sequence < lastSequence {
        return;
      }
      if f.read == Cut || (f.read == Done && f.apply == Cut) {
        powered := false;
        return;
      }
      if f.read == Failed {
        return;
      }
      var previous, had, previousId := led.state, hasLast, if hasLast then lastId else "";
      MergeValid(previous, c.update);
      var applied := led.Apply(c.update, f.apply == Done);
      if !applied {
        return;
      }
      KeepOrUndo(c, previous, had, previousId, f);
    }

    /** Boot: the LED starts off, the boot counter is committed, then the record is restored. */
    method PowerOn(newBootId: string, now: int, counterStored: bool, ok: bool)
      requires !powered && Valid()
      modifies this, led
      ensures View() == Boot(old(nvs), newBootId, now, counterStored, ok) && Valid()
      ensures sent == old(sent)
    {
      NextKeeps(View(), Event.PowerOn(newBootId, now, counterStored, ok));
      led.state := OFF;
      if nvs.bootSequence >= MAX_SEQUENCE || !counterStored {
        return;
      }
      bootSequence := nvs.bootSequence + 1;
      nvs := nvs.(bootSequence := bootSequence);
      if !ok {
        return;
      }
      if nvs.record.None? {
        hasLast, lastSequence, lastId := false, 0, "";
      } else {
        var record := nvs.record.value;
        if !Restorable(record) {
          return;
        }
        assert record == nvs.commits[|nvs.commits| - 1];
        var saved := RecordLed(record);
        var restored := led.Apply(Full(saved), true);
        if !restored || led.state != saved {
          return;
        }
        hasLast, lastSequence, lastId := true, record.sequence, record.id;
      }
      bootId, bootAt, stateSequence, powered := newBootId, now, 0, true;
    }
  }

  function Messages(e: Effect): seq<StateMessage> {
    if e.message.Some? then [e.message.value] else []
  }
}

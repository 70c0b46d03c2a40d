/** The lamp's five LED fields, the field-mask update, and the controller that owns them. */
module Led {
  import opened Common

  datatype LedState = LedState(power: bool, red: int, green: int, blue: int, brightness: int)

  /** `led_update_t` of the firmware and the partial `DesiredState` of the backend:
      an absent field is a clear mask bit, or an undefined property. */
  datatype Patch = Patch(power: Option<bool>, red: Option<int>, green: Option<int>, blue: Option<int>, brightness: Option<int>)

  const OFF := LedState(false, 0, 0, 0, 0)

  predicate Byte(n: int) { 0 <= n <= 255 }

  predicate ValidState(s: LedState) {
    Byte(s.red) && Byte(s.green) && Byte(s.blue) && 0 <= s.brightness <= 100
  }

  function Pick<T>(field: Option<T>, base: T): T {
    if field.Some? then field.value else base
  }

  /** `mergeDesiredState` of the backend; the field-by-field assignment of `led_controller_apply`. */
  function Merge(base: LedState, patch: Patch): LedState {
    LedState(Pick(patch.power, base.power), Pick(patch.red, base.red), Pick(patch.green, base.green),
             Pick(patch.blue, base.blue), Pick(patch.brightness, base.brightness))
  }

  function Full(s: LedState): Patch {
    Patch(Some(s.power), Some(s.red), Some(s.green), Some(s.blue), Some(s.brightness))
  }

  predicate EmptyPatch(p: Patch) {
    p.power.None? && p.red.None? && p.green.None? && p.blue.None? && p.brightness.None?
  }

  /** The ranges that `parse_command` and `validateDesiredState` enforce on the fields that are present. */
  predicate ValidPatch(p: Patch) {
    && !EmptyPatch(p)
    && (p.red.Some? ==> Byte(p.red.value))
    && (p.green.Some? ==> Byte(p.green.value))
    && (p.blue.Some? ==> Byte(p.blue.value))
    && (p.brightness.Some? ==> 0 <= p.brightness.value <= 100)
  }

  /** The argument check of `led_controller_apply`. */
  predicate Accepts(p: Patch) {
    !EmptyPatch(p) && (p.brightness.Some? ==> p.brightness.value <= 100)
  }

  /** Fold of the merges of `patches`, in order, from `base`. */
  function MergeAll(base: LedState, patches: seq<Patch>): LedState {
    if patches == [] then base else Merge(MergeAll(base, patches[..|patches| - 1]), patches[|patches| - 1])
  }

  /** The value is that of the last field that is present, or `base` when none is. */
  ghost predicate LastSays<T(!new)>(fields: seq<Option<T>>, base: T, value: T) {
    && (forall i :: 0 <= i < |fields| && fields[i].Some? && (forall j :: i < j < |fields| ==> fields[j].None?) ==> value == fields[i].value)
    && ((forall i :: 0 <= i < |fields| ==> fields[i].None?) ==> value == base)
  }

  /** One more field, last. */
  lemma LastSaysMore<T(!new)>(fields: seq<Option<T>>, base: T, value: T, field: Option<T>)
    requires LastSays(fields, base, value)
    ensures LastSays(fields + [field], base, if field.Some? then field.value else value)
  {
    var all := fields + [field];
    if field.None? {
      forall i | 0 <= i < |all| && all[i].Some? && (forall j :: i < j < |all| ==> all[j].None?) ensures value == all[i].value {
        assert fields[i].Some?;
        forall j | i < j < |fields| ensures fields[j].None? { assert all[j].None?; }
      }
      if forall i :: 0 <= i < |all| ==> all[i].None? {
        forall i | 0 <= i < |fields| ensures fields[i].None? { assert all[i].None?; }
      }
    } else {
      assert all[|fields|].Some?;
    }
  }

  class Controller {
    var state: LedState

    constructor ()
      ensures state == OFF
    {
      state := OFF;
    }

    /** Every field of the mask takes its new value, every other field keeps its own old one, and a rejected
        argument or a failed hardware write leaves the state alone. `hardware` is the result of the write. */
    method Apply(update: Patch, hardware: bool) returns (ok: bool)
      modifies this
      ensures ok == (Accepts(update) && hardware)
      ensures !ok ==> state == old(state)
      ensures ok ==>
                && state.power == (if update.power.Some? then update.power.value else old(state.power))
                && state.red == (if update.red.Some? then update.red.value else old(state.red))
                && state.green == (if update.green.Some? then update.green.value else old(state.green))
                && state.blue == (if update.blue.Some? then update.blue.value else old(state.blue))
                && state.brightness == (if update.brightness.Some? then update.brightness.value else old(state.brightness))
      ensures ok ==> state == Merge(old(state), update)
    {
      if EmptyPatch(update) {
        return false;
      }
      if update.brightness.Some? && update.brightness.value > 100 {
        return false;
      }
      var next := state;
      if update.power.Some? { next := next.(power := update.power.value); }
      if update.red.Some? { next := next.(red := update.red.value); }
      if update.green.Some? { next := next.(green := update.green.value); }
      if update.blue.Some? { next := next.(blue := update.blue.value); }
      if update.brightness.Some? { next := next.(brightness := update.brightness.value); }
      ok := hardware;
      if ok {
        state := next;
      }
    }
  }
}

/** `reserveCommand`: an optimistic read-then-transact loop over the Device row and the command ledger,
    with any number of concurrent callers. One certificate generation of one device. */
module Reservation {
  import opened Common
  import opened Led
  import opened Device

  datatype Entry = Entry(requestId: string, commandId: string, sequence: nat, patch: Patch, desired: LedState)

  datatype Error = DeviceConflict | SequenceExhausted | RequestIdReused | ReservationBusy | Transport

  /** Where a caller is: about to read the row, about to transact with the row it read, or about to read
      the ledger after a failed transaction. */
  datatype Pc = Reading | Writing(snapshot: Row) | Checking | Returned(entry: Entry) | Failed(error: Error)

  datatype Caller = Caller(requestId: string, commandId: string, patch: Patch, attempt: nat, pc: Pc)

  const ATTEMPTS: nat := 16

  /** `log` is history: the entries in the order their transactions committed. `base` is history too: the
      observed state that the first committed reservation had read. */
  datatype State = State(certificate: string, row: Option<Row>, ledger: map<string, Entry>,
                         log: seq<Entry>, base: LedState, callers: map<nat, Caller>)

  /** How a remote call ends for the caller: with its answer, with an unrelated error before or after it took
      effect, or retried by the client after its answer was lost. */
  datatype Reply = Answered | LostBefore | LostAfter | RetriedAfterLoss

  datatype Event =
    | Call(caller: nat, requestId: string, commandId: string, patch: Patch)
    | Step(caller: nat, reply: Reply)
    | Uplink(row: Row)
    | Retire(gone: bool)

  predicate Usable(row: Option<Row>, certificate: string) {
    row.Some? && row.value.certificate == certificate && Live(row.value)
  }

  function Current(row: Row): nat { if row.commandSequence.Some? then row.commandSequence.value else 0 }

  function Base(row: Row): LedState { if row.desired.Some? then row.desired.value else row.observed }

  function NewEntry(row: Row, requestId: string, commandId: string, patch: Patch): Entry {
    Entry(requestId, commandId, Current(row) + 1, patch, Merge(Base(row), patch))
  }

  /** Both conditions of the transaction: no ledger item, and a live row whose sequence is the one read. */
  predicate Commits(row: Option<Row>, ledger: map<string, Entry>, certificate: string, requestId: string, current: nat) {
    && requestId !in ledger
    && Usable(row, certificate)
    && (row.value.commandSequence.None? || row.value.commandSequence.value == current)
  }

  function Written(row: Row, e: Entry): Row {
    row.(commandSequence := Some(e.sequence), lastCommandId := Some(e.commandId), desired := Some(e.desired))
  }

  function Commit(s: State, e: Entry, base: LedState): State
    requires s.row.Some?
  {
    s.(row := Some(Written(s.row.value, e)), ledger := s.ledger[e.requestId := e], log := s.log + [e],
       base := if s.log == [] then base else s.base)
  }

  function At(s: State, k: nat, pc: Pc): State
    requires k in s.callers
  {
    s.(callers := s.callers[k := s.callers[k].(pc := pc)])
  }

  function Read(s: State, c: Caller): Pc {
    if !Usable(s.row, s.certificate) then Failed(DeviceConflict)
    else if Current(s.row.value) + 1 > MAX_SEQUENCE then Failed(SequenceExhausted)
    else Writing(s.row.value)
  }

  function Write(s: State, k: nat, reply: Reply): State
    requires k in s.callers && s.callers[k].pc.Writing?
  {
    var c := s.callers[k];
    var snapshot := c.pc.snapshot;
    var e := NewEntry(snapshot, c.requestId, c.commandId, c.patch);
    if reply == LostBefore then At(s, k, Failed(Transport))
    else if !Commits(s.row, s.ledger, s.certificate, c.requestId, Current(snapshot)) then At(s, k, Checking)
    else
      var pc := match reply case LostAfter => Failed(Transport) case RetriedAfterLoss => Checking case _ => Returned(e);
      At(Commit(s, e, snapshot.observed), k, pc)
  }

  function Check(s: State, k: nat): State
    requires k in s.callers
  {
    var c := s.callers[k];
    if c.requestId in s.ledger then
      At(s, k, if s.ledger[c.requestId].patch == c.patch then Returned(s.ledger[c.requestId]) else Failed(RequestIdReused))
    else if c.attempt + 1 < ATTEMPTS then
      s.(callers := s.callers[k := c.(attempt := c.attempt + 1, pc := Reading)])
    else At(s, k, Failed(ReservationBusy))
  }

  /** Ingest may change what a row observes, within the ranges that uplink parsing enforces, but never what
      commands wrote or the certificate. */
  predicate OnlyObserves(before: Row, after: Row) {
    && ValidState(after.observed)
    && after.certificate == before.certificate
    && after.commandSequence == before.commandSequence
    && after.lastCommandId == before.lastCommandId
    && after.desired == before.desired
  }

  function Next(s: State, e: Event): State {
    match e
    case Call(k, requestId, commandId, patch) =>
      if k in s.callers || !ValidPatch(patch) || (exists j :: j in s.callers && s.callers[j].commandId == commandId) then s
      else s.(callers := s.callers[k := Caller(requestId, commandId, patch, 0, Reading)])
    case Step(k, reply) =>
      if k !in s.callers then s
      else (match s.callers[k].pc
            case Reading => At(s, k, if reply == Answered then Read(s, s.callers[k]) else Failed(Transport))
            case Writing(_) => Write(s, k, reply)
            case Checking => if reply == Answered then Check(s, k) else At(s, k, Failed(Transport))
            case _ => s)
    case Uplink(row) => if s.row.Some? && OnlyObserves(s.row.value, row) then s.(row := Some(row)) else s
    case Retire(gone) =>
      if s.row.None? then s else if gone then s.(row := None) else s.(row := Some(s.row.value.(lifecycle := Revoked)))
  }

  function Run(s: State, events: seq<Event>): State {
    if events == [] then s else Next(Run(s, events[..|events| - 1]), events[|events| - 1])
  }

  function Start(certificate: string): State { State(certificate, Some(NewRow(certificate)), map[], [], OFF, map[]) }

  function Patches(log: seq<Entry>): seq<Patch> { seq(|log|, i requires 0 <= i < |log| => log[i].patch) }

  predicate EntryOk(log: seq<Entry>, base: LedState, i: nat)
    requires i < |log|
  {
    && log[i].sequence == i + 1 <= MAX_SEQUENCE
    && ValidState(log[i].desired)
    && log[i].desired == Merge(if i == 0 then base else log[i - 1].desired, log[i].patch)
  }

  /** Sequences are 1..n in commit order and each desired state merges the patch into the one before. */
  predicate LogOk(log: seq<Entry>, base: LedState) {
    forall i: nat :: i < |log| ==> EntryOk(log, base, i)
  }

  /** The ledger and the log hold the same entries. */
  predicate LedgerOk(ledger: map<string, Entry>, log: seq<Entry>) {
    && (forall r :: r in ledger ==> ledger[r].requestId == r && 1 <= ledger[r].sequence <= |log| && log[ledger[r].sequence - 1] == ledger[r])
    && (forall i :: 0 <= i < |log| ==> log[i].requestId in ledger && ledger[log[i].requestId] == log[i])
  }

  /** A row agrees with the first `Current(row)` log entries. */
  predicate RowAgrees(row: Row, log: seq<Entry>) {
    && ValidState(row.observed)
    && Current(row) <= |log|
    && (row.commandSequence.Some? ==> row.commandSequence.value > 0)
    && (Current(row) == 0 ==> row.desired == None && row.lastCommandId == None)
    && (Current(row) > 0 ==> row.desired == Some(log[Current(row) - 1].desired)
                             && row.lastCommandId == Some(log[Current(row) - 1].commandId))
  }

  predicate RowOk(s: State) {
    s.row.Some? ==> s.row.value.certificate == s.certificate && RowAgrees(s.row.value, s.log) && Current(s.row.value) == |s.log|
  }

  predicate CallerOk(s: State, c: Caller) {
    ValidPatch(c.patch) && c.attempt < ATTEMPTS && (c.pc == Failed(ReservationBusy) ==> c.attempt == ATTEMPTS - 1) &&
    match c.pc
    case Writing(snapshot) => RowAgrees(snapshot, s.log) && Current(snapshot) + 1 <= MAX_SEQUENCE
    case Returned(e) => c.requestId in s.ledger && s.ledger[c.requestId] == e && e.patch == c.patch
    case Failed(error) => error == RequestIdReused ==> c.requestId in s.ledger && s.ledger[c.requestId].patch != c.patch
    case _ => true
  }

  /** Command ids are fresh per call, and every logged entry belongs to a call with its ids and its patch. */
  predicate IdsOk(s: State) {
    && (forall j, k :: j in s.callers && k in s.callers && j != k ==> s.callers[j].commandId != s.callers[k].commandId)
    && (forall i :: 0 <= i < |s.log| ==> Owned(s, s.log[i]))
  }

  predicate Owned(s: State, e: Entry) {
    exists k :: k in s.callers && s.callers[k].commandId == e.commandId && s.callers[k].requestId == e.requestId && s.callers[k].patch == e.patch
  }

  predicate CoreOk(s: State) { LogOk(s.log, s.base) && LedgerOk(s.ledger, s.log) && RowOk(s) }

  ghost predicate Reachable(s: State) {
    exists certificate, events :: s == Run(Start(certificate), events)
  }

  predicate Inv(s: State) {
    CoreOk(s) && IdsOk(s) && forall k :: k in s.callers ==> CallerOk(s, s.callers[k])
  }
}

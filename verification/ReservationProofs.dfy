/** What every interleaving of reservation callers keeps, and what follows for whole runs. */
module ReservationProofs {
  import opened Common
  import opened Led
  import opened Device
  import opened Reservation

  lemma SnapshotSurvives(row: Row, log: seq<Entry>, e: Entry)
    requires RowAgrees(row, log)
    ensures RowAgrees(row, log + [e])
  {
  }

  lemma LogExtends(log: seq<Entry>, base: LedState, e: Entry, newBase: LedState)
    requires LogOk(log, base) && e.sequence == |log| + 1 <= MAX_SEQUENCE
    requires log != [] ==> newBase == base
    requires ValidState(e.desired)
    requires e.desired == Merge(if log == [] then newBase else log[|log| - 1].desired, e.patch)
    ensures LogOk(log + [e], newBase)
  {
    forall i: nat | i < |log + [e]| ensures EntryOk(log + [e], newBase, i) {
      if i < |log| { assert EntryOk(log, base, i); }
    }
  }

  lemma LedgerExtends(ledger: map<string, Entry>, log: seq<Entry>, e: Entry)
    requires LedgerOk(ledger, log) && e.requestId !in ledger && e.sequence == |log| + 1
    ensures LedgerOk(ledger[e.requestId := e], log + [e])
  {
    forall i | 0 <= i < |log + [e]|
      ensures (log + [e])[i].requestId in ledger[e.requestId := e] && ledger[e.requestId := e][(log + [e])[i].requestId] == (log + [e])[i]
    {
      if i < |log| { assert log[i].requestId in ledger; }
    }
  }

  /** The heart of the optimistic loop: if the row still carries the sequence that was read, then it also still
      carries the desired state that was read, so the new entry extends the fold. */
  lemma CommitKeepsCore(s: State, snapshot: Row, requestId: string, commandId: string, patch: Patch)
    requires CoreOk(s) && RowAgrees(snapshot, s.log) && Current(snapshot) + 1 <= MAX_SEQUENCE && ValidPatch(patch)
    requires Commits(s.row, s.ledger, s.certificate, requestId, Current(snapshot))
    ensures CoreOk(Commit(s, NewEntry(snapshot, requestId, commandId, patch), snapshot.observed))
    ensures Current(snapshot) == |s.log|
  {
    var e := NewEntry(snapshot, requestId, commandId, patch);
    assert Current(snapshot) == |s.log|;
    assert ValidState(Base(snapshot)) by {
      if s.log != [] { assert EntryOk(s.log, s.base, |s.log| - 1); }
    }
    LogExtends(s.log, s.base, e, if s.log == [] then snapshot.observed else s.base);
    LedgerExtends(s.ledger, s.log, e);
  }

  lemma CallerSurvives(s: State, c: Caller, e: Entry, base: LedState)
    requires CallerOk(s, c) && s.row.Some? && e.requestId !in s.ledger
    ensures CallerOk(Commit(s, e, base), c)
  {
    if c.pc.Writing? {
      SnapshotSurvives(c.pc.snapshot, s.log, e);
    }
  }

  predicate SameRequest(a: Caller, b: Caller) { a.commandId == b.commandId && a.requestId == b.requestId && a.patch == b.patch }

  lemma OwnersSurvive(s: State, t: State)
    requires IdsOk(s) && t.log == s.log
    requires forall k :: k in s.callers ==> k in t.callers && SameRequest(s.callers[k], t.callers[k])
    requires forall j, k :: j in t.callers && k in t.callers && j != k ==> t.callers[j].commandId != t.callers[k].commandId
    ensures IdsOk(t)
  {
    forall i | 0 <= i < |t.log| ensures Owned(t, t.log[i]) {
      assert Owned(s, s.log[i]);
    }
  }

  /** A step of one caller that writes nothing, and leaves that caller in a good place. */
  lemma MoveKeepsInv(s: State, k: nat, c: Caller)
    requires Inv(s) && k in s.callers
    requires SameRequest(s.callers[k], c) && CallerOk(s, c)
    ensures Inv(s.(callers := s.callers[k := c]))
  {
    var t := s.(callers := s.callers[k := c]);
    OwnersSurvive(s, t);
    forall j | j in t.callers ensures CallerOk(t, t.callers[j]) {
      assert CallerOk(s, t.callers[j]);
    }
  }

  lemma CallersSurvive(s: State, e: Entry, base: LedState)
    requires Inv(s) && s.row.Some? && e.requestId !in s.ledger
    ensures forall j :: j in s.callers ==> CallerOk(Commit(s, e, base), s.callers[j])
  {
    forall j | j in s.callers ensures CallerOk(Commit(s, e, base), s.callers[j]) {
      CallerSurvives(s, s.callers[j], e, base);
    }
  }

  lemma OwnersExtend(s: State, k: nat, e: Entry, base: LedState)
    requires IdsOk(s) && k in s.callers && s.row.Some?
    requires s.callers[k].commandId == e.commandId && s.callers[k].requestId == e.requestId && s.callers[k].patch == e.patch
    ensures IdsOk(Commit(s, e, base))
  {
    var t := Commit(s, e, base);
    forall i | 0 <= i < |t.log| ensures Owned(t, t.log[i]) {
      if i < |s.log| {
        assert Owned(s, s.log[i]);
      } else {
        assert t.callers[k].commandId == e.commandId;
      }
    }
  }

  lemma CommitKeepsRest(s: State, k: nat, snapshot: Row)
    requires Inv(s) && k in s.callers && RowAgrees(snapshot, s.log) && Current(snapshot) + 1 <= MAX_SEQUENCE
    requires Commits(s.row, s.ledger, s.certificate, s.callers[k].requestId, Current(snapshot))
    ensures var c := s.callers[k];
            Inv(Commit(s, NewEntry(snapshot, c.requestId, c.commandId, c.patch), snapshot.observed))
  {
    var c := s.callers[k];
    var e := NewEntry(snapshot, c.requestId, c.commandId, c.patch);
    CommitKeepsCore(s, snapshot, c.requestId, c.commandId, c.patch);
    CallersSurvive(s, e, snapshot.observed);
    OwnersExtend(s, k, e, snapshot.observed);
    hide CoreOk, CallerOk, IdsOk, RowAgrees, Merge;
  }

  /** Caller `k` commits what it computed from `snapshot`, and goes on at `pc`. */
  lemma CommitKeepsInv(s: State, k: nat, snapshot: Row, pc: Pc)
    requires Inv(s) && k in s.callers && RowAgrees(snapshot, s.log) && Current(snapshot) + 1 <= MAX_SEQUENCE
    requires Commits(s.row, s.ledger, s.certificate, s.callers[k].requestId, Current(snapshot))
    requires var c := s.callers[k];
             pc in {Reading, Checking, Failed(Transport), Returned(NewEntry(snapshot, c.requestId, c.commandId, c.patch))}
    ensures var c := s.callers[k];
            Inv(At(Commit(s, NewEntry(snapshot, c.requestId, c.commandId, c.patch), snapshot.observed), k, pc))
  {
    var c := s.callers[k];
    assert CallerOk(s, c);
    hide Inv;
    CommitKeepsRest(s, k, snapshot);
    MoveKeepsInv(Commit(s, NewEntry(snapshot, c.requestId, c.commandId, c.patch), snapshot.observed), k, c.(pc := pc));
  }

  lemma WriteKeepsInv(s: State, k: nat, reply: Reply)
    requires Inv(s) && k in s.callers && s.callers[k].pc.Writing?
    ensures Inv(Write(s, k, reply))
  {
    var c := s.callers[k];
    assert CallerOk(s, c);
    hide Inv;
    if reply == LostBefore {
      MoveKeepsInv(s, k, c.(pc := Failed(Transport)));
    } else if Commits(s.row, s.ledger, s.certificate, c.requestId, Current(c.pc.snapshot)) {
      CommitKeepsInv(s, k, c.pc.snapshot, Write(s, k, reply).callers[k].pc);
    } else {
      MoveKeepsInv(s, k, c.(pc := Checking));
    }
  }

  /** The steps that only read leave the caller with something true. */
  lemma ReadsAreTrue(s: State, k: nat, reply: Reply)
    requires CoreOk(s) && k in s.callers && CallerOk(s, s.callers[k]) && !s.callers[k].pc.Writing?
    ensures k in Next(s, Step(k, reply)).callers
    ensures var c := Next(s, Step(k, reply)).callers[k];
            && CallerOk(s, c) && SameRequest(s.callers[k], c)
            && Next(s, Step(k, reply)) == s.(callers := s.callers[k := c])
  {
    match s.callers[k].pc
    case Reading =>
    case Checking =>
    case Returned(_) => assert s.callers[k := s.callers[k]] == s.callers;
    case Failed(_) => assert s.callers[k := s.callers[k]] == s.callers;
  }

  lemma StepKeepsInv(s: State, k: nat, reply: Reply)
    requires Inv(s) && k in s.callers
    ensures Inv(Next(s, Step(k, reply)))
  {
    assert CoreOk(s) && CallerOk(s, s.callers[k]);
    hide CoreOk, CallerOk, IdsOk, Next;
    if s.callers[k].pc.Writing? {
      WriteKeepsInv(s, k, reply);
      WriteStep(s, k, reply);
    } else {
      ReadsAreTrue(s, k, reply);
      MoveKeepsInv(s, k, Next(s, Step(k, reply)).callers[k]);
    }
  }

  lemma WriteStep(s: State, k: nat, reply: Reply)
    requires k in s.callers && s.callers[k].pc.Writing?
    ensures Next(s, Step(k, reply)) == Write(s, k, reply)
  {
  }

  lemma CallKeepsInv(s: State, e: Event)
    requires Inv(s) && e.Call?
    ensures Inv(Next(s, e))
  {
    var t := Next(s, e);
    if t != s {
      OwnersSurvive(s, t);
      forall j | j in t.callers ensures CallerOk(t, t.callers[j]) {
        if j != e.caller { assert CallerOk(s, s.callers[j]); }
      }
    }
  }

  lemma RowChangeKeepsInv(s: State, row: Option<Row>)
    requires Inv(s)
    requires row.Some? ==> s.row.Some? && OnlyObserves(s.row.value, row.value)
    ensures Inv(s.(row := row))
  {
    var t := s.(row := row);
    OwnersSurvive(s, t);
    forall j | j in t.callers ensures CallerOk(t, t.callers[j]) {
      assert CallerOk(s, s.callers[j]);
    }
  }

  lemma NextKeepsInv(s: State, e: Event)
    requires Inv(s)
    ensures Inv(Next(s, e))
  {
    match e
    case Call(_, _, _, _) => CallKeepsInv(s, e);
    case Step(k, reply) => if k in s.callers { StepKeepsInv(s, k, reply); }
    case Uplink(_) => RowChangeKeepsInv(s, Next(s, e).row);
    case Retire(_) => RowChangeKeepsInv(s, Next(s, e).row);
  }

  lemma {:induction false} RunKeepsInv(s: State, events: seq<Event>)
    requires Inv(s)
    ensures Inv(Run(s, events))
  {
    if events != [] {
      RunKeepsInv(s, events[..|events| - 1]);
      NextKeepsInv(Run(s, events[..|events| - 1]), events[|events| - 1]);
    }
  }

  lemma StartIsGood(certificate: string)
    ensures Inv(Start(certificate))
  {
  }

  lemma ReachableIsGood(s: State)
    requires Reachable(s)
    ensures Inv(s)
  {
    var certificate, events :| s == Run(Start(certificate), events);
    StartIsGood(certificate);
    RunKeepsInv(Start(certificate), events);
  }

  lemma LogIdsDiffer(s: State, i: nat, j: nat)
    requires Inv(s) && i < j < |s.log|
    ensures s.log[i].requestId != s.log[j].requestId && s.log[i].commandId != s.log[j].commandId
  {
    assert EntryOk(s.log, s.base, i) && EntryOk(s.log, s.base, j);
    assert Owned(s, s.log[i]) && Owned(s, s.log[j]);
    assert s.ledger[s.log[i].requestId] == s.log[i];
    assert s.ledger[s.log[j].requestId] == s.log[j];
  }

  /** Sequences have no gaps, and no request id and no command id is ever used by two of them. */
  lemma SequencesAreUnique(s: State, i: nat, j: nat)
    requires Reachable(s) && i < j < |s.log|
    ensures s.log[i].sequence == i + 1 && s.log[j].sequence == j + 1
    ensures s.log[i].requestId != s.log[j].requestId && s.log[i].commandId != s.log[j].commandId
  {
    ReachableIsGood(s);
    assert EntryOk(s.log, s.base, i) && EntryOk(s.log, s.base, j);
    LogIdsDiffer(s, i, j);
  }

  lemma {:induction false} LogFolds(log: seq<Entry>, base: LedState)
    requires LogOk(log, base) && log != []
    ensures log[|log| - 1].desired == MergeAll(base, Patches(log))
  {
    var n := |log| - 1;
    var before := log[..n];
    assert EntryOk(log, base, n);
    assert Patches(log)[..n] == Patches(before);
    if n > 0 {
      forall i: nat | i < n ensures EntryOk(before, base, i) {
        assert EntryOk(log, base, i);
      }
      LogFolds(before, base);
    }
  }

  /** What the logged patches say about one field, in sequence order. */
  function Powers(log: seq<Entry>): seq<Option<bool>> { seq(|log|, i requires 0 <= i < |log| => log[i].patch.power) }

  function Reds(log: seq<Entry>): seq<Option<int>> { seq(|log|, i requires 0 <= i < |log| => log[i].patch.red) }

  function Greens(log: seq<Entry>): seq<Option<int>> { seq(|log|, i requires 0 <= i < |log| => log[i].patch.green) }

  function Blues(log: seq<Entry>): seq<Option<int>> { seq(|log|, i requires 0 <= i < |log| => log[i].patch.blue) }

  function Brightnesses(log: seq<Entry>): seq<Option<int>> { seq(|log|, i requires 0 <= i < |log| => log[i].patch.brightness) }

  /** Each field is what the last patch that carries it says, and otherwise what was read first. */
  ghost predicate FieldByField(log: seq<Entry>, base: LedState, desired: LedState) {
    && LastSays(Powers(log), base.power, desired.power) && LastSays(Reds(log), base.red, desired.red)
    && LastSays(Greens(log), base.green, desired.green) && LastSays(Blues(log), base.blue, desired.blue)
    && LastSays(Brightnesses(log), base.brightness, desired.brightness)
  }

  lemma MergeSaysMore(log: seq<Entry>, base: LedState, before: LedState, e: Entry)
    requires FieldByField(log, base, before)
    ensures FieldByField(log + [e], base, Merge(before, e.patch))
  {
    hide LastSays;
    LastSaysMore(Powers(log), base.power, before.power, e.patch.power);
    LastSaysMore(Reds(log), base.red, before.red, e.patch.red);
    LastSaysMore(Greens(log), base.green, before.green, e.patch.green);
    LastSaysMore(Blues(log), base.blue, before.blue, e.patch.blue);
    LastSaysMore(Brightnesses(log), base.brightness, before.brightness, e.patch.brightness);
    assert Powers(log + [e]) == Powers(log) + [e.patch.power];
    assert Reds(log + [e]) == Reds(log) + [e.patch.red];
    assert Greens(log + [e]) == Greens(log) + [e.patch.green];
    assert Blues(log + [e]) == Blues(log) + [e.patch.blue];
    assert Brightnesses(log + [e]) == Brightnesses(log) + [e.patch.brightness];
  }

  lemma {:induction false} LogFieldByField(log: seq<Entry>, base: LedState)
    requires LogOk(log, base) && log != []
    ensures FieldByField(log, base, log[|log| - 1].desired)
  {
    hide FieldByField, ValidState, Merge;
    var n := |log| - 1;
    var prefix := log[..n];
    assert log == prefix + [log[n]] && EntryOk(log, base, n);
    if prefix != [] {
      forall i: nat | i < |prefix| ensures EntryOk(prefix, base, i) { assert EntryOk(log, base, i); }
      LogFieldByField(prefix, base);
      MergeSaysMore(prefix, base, prefix[n - 1].desired, log[n]);
    } else {
      NothingSaysBase(base);
      MergeSaysMore(prefix, base, base, log[n]);
    }
  }

  lemma NothingSaysBase(base: LedState)
    ensures FieldByField([], base, base)
  {
  }

  /** The desired state is the fold of all reserved patches, in sequence order, from the state first read: each of its fields is
      that of the last reservation whose patch carries the field, or the one first read when none does. */
  lemma DesiredIsFold(s: State)
    requires Reachable(s) && s.row.Some? && s.log != []
    ensures s.row.value.commandSequence == Some(|s.log|)
    ensures s.row.value.desired == Some(MergeAll(s.base, Patches(s.log)))
    ensures s.row.value.desired.Some? && FieldByField(s.log, s.base, s.row.value.desired.value)
  {
    ReachableIsGood(s);
    LogFolds(s.log, s.base);
    LogFieldByField(s.log, s.base);
    hide FieldByField, MergeAll, Patches, LogOk;
  }

  /** An answer that was lost is found again: when the client's retry meets the caller's own entry, the ledger gives that entry. */
  lemma LostAnswerIsFound(s: State, k: nat)
    requires Reachable(s) && k in s.callers && s.callers[k].pc.Writing?
    requires Commits(s.row, s.ledger, s.certificate, s.callers[k].requestId, Current(s.callers[k].pc.snapshot))
    ensures var c := s.callers[k];
            var t := Next(s, Step(k, RetriedAfterLoss));
            && k in t.callers && t.callers[k].pc == Checking
            && var u := Next(t, Step(k, Answered));
            && k in u.callers && u.callers[k].pc.Returned? && u.callers[k].pc.entry.commandId == c.commandId && u.callers[k].pc.entry.patch == c.patch
            && u.callers[k].pc.entry.sequence == |s.log| + 1 && u.log == s.log + [u.callers[k].pc.entry]
  {
    ReachableIsGood(s);
    assert CallerOk(s, s.callers[k]);
    hide Reachable, Merge, LogOk, LedgerOk, IdsOk;
  }

  /** One step only appends, so what a request id maps to never changes. */
  lemma NextOnlyAppends(s: State, e: Event)
    ensures s.log <= Next(s, e).log
    ensures forall r :: r in s.ledger ==> r in Next(s, e).ledger && Next(s, e).ledger[r] == s.ledger[r]
    ensures s.log != [] ==> Next(s, e).base == s.base
    ensures Next(s, e).certificate == s.certificate
  {
  }

  lemma {:induction false} RequestIdIsForever(s: State, events: seq<Event>, r: string)
    requires r in s.ledger
    ensures r in Run(s, events).ledger && Run(s, events).ledger[r] == s.ledger[r]
  {
    if events != [] {
      RequestIdIsForever(s, events[..|events| - 1], r);
      NextOnlyAppends(Run(s, events[..|events| - 1]), events[|events| - 1]);
    }
  }

  /** Everyone who is answered for one request id gets one answer, which is the ledger's; and a caller is told
      that its id was reused only if a different patch holds that id. */
  lemma AnswersAgree(s: State, j: nat, k: nat)
    requires Reachable(s) && j in s.callers && k in s.callers && s.callers[j].requestId == s.callers[k].requestId
    ensures s.callers[j].pc.Returned? && s.callers[k].pc.Returned? ==> s.callers[j].pc == s.callers[k].pc
    ensures s.callers[j].pc.Returned? ==>
              var e := s.callers[j].pc.entry;
              1 <= e.sequence <= |s.log| && s.log[e.sequence - 1] == e && e.requestId == s.callers[j].requestId
    ensures s.callers[j].pc == Failed(RequestIdReused) ==>
              s.callers[j].requestId in s.ledger && s.ledger[s.callers[j].requestId].patch != s.callers[j].patch
    ensures s.callers[j].pc == Failed(ReservationBusy) ==> s.callers[j].attempt == ATTEMPTS - 1
  {
    ReachableIsGood(s);
    assert CallerOk(s, s.callers[j]) && CallerOk(s, s.callers[k]);
  }

  datatype Reserved = Reserved(row: Option<Row>, ledger: map<string, Entry>, pc: Pc)

  /** The atomic form, as the in-memory repository has it: one critical section, ledger first. */
  function Atomic(row: Option<Row>, ledger: map<string, Entry>, certificate: string, c: Caller): Reserved {
    if c.requestId in ledger then
      Reserved(row, ledger, if ledger[c.requestId].patch == c.patch then Returned(ledger[c.requestId]) else Failed(RequestIdReused))
    else if !Usable(row, certificate) then Reserved(row, ledger, Failed(DeviceConflict))
    else if Current(row.value) + 1 > MAX_SEQUENCE then Reserved(row, ledger, Failed(SequenceExhausted))
    else
      var e := NewEntry(row.value, c.requestId, c.commandId, c.patch);
      Reserved(Some(Written(row.value, e)), ledger[c.requestId := e], Returned(e))
  }

  /** A write step, seen by the atomic form: the first reservation ever merges into the observed state it had
      read, every later one into exactly what the row holds now. */
  function AsRead(s: State, snapshot: Row): Option<Row> {
    if s.row.Some? && s.row.value.desired.None? then Some(s.row.value.(observed := snapshot.observed)) else s.row
  }

  /** When a transaction commits, both tables end as the atomic form would leave them at that instant,
      and the answer is the atomic form's. */
  lemma WriteRefinesAtomic(s: State, k: nat)
    requires Reachable(s) && k in s.callers && s.callers[k].pc.Writing?
    requires Commits(s.row, s.ledger, s.certificate, s.callers[k].requestId, Current(s.callers[k].pc.snapshot))
    ensures var t := Next(s, Step(k, Answered));
            var a := Atomic(AsRead(s, s.callers[k].pc.snapshot), s.ledger, s.certificate, s.callers[k]);
            && t.ledger == a.ledger && t.callers[k].pc == a.pc && a.row.Some?
            && t.row == Some(a.row.value.(observed := s.row.value.observed))
  {
    ReachableIsGood(s);
    hide Run;
    var c := s.callers[k];
    assert CallerOk(s, c);
    assert Current(s.row.value) == |s.log| == Current(c.pc.snapshot);
  }

  /** Every other step leaves both tables alone. */
  lemma OtherStepsKeepTables(s: State, k: nat, reply: Reply)
    requires k in s.callers
    requires s.callers[k].pc.Writing? && reply != LostBefore ==>
               !Commits(s.row, s.ledger, s.certificate, s.callers[k].requestId, Current(s.callers[k].pc.snapshot))
    ensures var t := Next(s, Step(k, reply)); t.row == s.row && t.ledger == s.ledger && t.log == s.log
  {
    match s.callers[k].pc
    case Reading =>
    case Writing(_) =>
    case Checking =>
    case _ =>
  }

  /** What the ledger answers to a repeated request is what the atomic form answers. */
  lemma ReplayRefinesAtomic(s: State, k: nat)
    requires k in s.callers && s.callers[k].requestId in s.ledger
    ensures Check(s, k).callers[k].pc == Atomic(s.row, s.ledger, s.certificate, s.callers[k]).pc
  {
  }
}

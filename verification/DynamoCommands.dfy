/** The reservation loop as the repository runs it, against other callers that act between any two of its
    remote calls. `script` is what they do, batch by batch; it is arbitrary. */
module DynamoCommands {
  import opened Common
  import opened Led
  import opened Device
  import opened Reservation
  import opened ReservationProofs

  predicate LeavesAlone(events: seq<Event>, k: nat) {
    forall i :: 0 <= i < |events| ==> events[i].Step? ==> events[i].caller != k
  }

  /** The caller's own registration while its method runs; it takes no machine step. */
  predicate Registered(s: State, k: nat, requestId: string, commandId: string, patch: Patch) {
    k in s.callers && s.callers[k] == Caller(requestId, commandId, patch, 0, Reading)
  }

  predicate Extends(before: State, after: State) {
    && before.log <= after.log
    && after.certificate == before.certificate
    && forall r :: r in before.ledger ==> r in after.ledger && after.ledger[r] == before.ledger[r]
  }

  lemma {:induction false} OthersKeep(s: State, events: seq<Event>, k: nat, requestId: string, commandId: string, patch: Patch)
    requires Inv(s) && LeavesAlone(events, k) && Registered(s, k, requestId, commandId, patch)
    ensures Inv(Run(s, events)) && Extends(s, Run(s, events)) && Registered(Run(s, events), k, requestId, commandId, patch)
  {
    hide Inv;
    if events != [] {
      var prefix := events[..|events| - 1];
      OthersKeep(s, prefix, k, requestId, commandId, patch);
      NextKeepsInv(Run(s, prefix), events[|events| - 1]);
      OneKeeps(Run(s, prefix), events[|events| - 1], k, requestId, commandId, patch);
      ExtendsAgain(s, Run(s, prefix), Run(s, events));
      hide Next, Extends, Registered;
    }
  }

  lemma OneKeeps(s: State, e: Event, k: nat, requestId: string, commandId: string, patch: Patch)
    requires (e.Step? ==> e.caller != k) && Registered(s, k, requestId, commandId, patch)
    ensures Extends(s, Next(s, e)) && Registered(Next(s, e), k, requestId, commandId, patch)
  {
    NextOnlyAppends(s, e);
    hide NewEntry, Commits, Usable;
  }

  lemma RegisteringKeepsInv(s: State, k: nat, requestId: string, commandId: string, patch: Patch)
    requires Inv(s) && k !in s.callers && ValidPatch(patch)
    requires forall j :: j in s.callers ==> s.callers[j].commandId != commandId
    ensures Inv(s.(callers := s.callers[k := Caller(requestId, commandId, patch, 0, Reading)]))
  {
    var t := s.(callers := s.callers[k := Caller(requestId, commandId, patch, 0, Reading)]);
    OwnersSurvive(s, t);
    forall j | j in t.callers ensures CallerOk(t, t.callers[j]) {
      if j != k { assert CallerOk(s, s.callers[j]); }
    }
  }

  /** Registering a caller is no change to the tables, and what the atomic form does there is known. */
  lemma Registers(s: State, k: nat, requestId: string, commandId: string, patch: Patch)
    requires Inv(s) && k !in s.callers && ValidPatch(patch)
    requires forall j :: j in s.callers ==> s.callers[j].commandId != commandId
    ensures var c := Caller(requestId, commandId, patch, 0, Reading);
            var t := s.(callers := s.callers[k := c]);
            var a := Atomic(s.row, s.ledger, s.certificate, c);
            && Inv(t) && Extends(s, t) && Registered(t, k, requestId, commandId, patch)
            && Open(t) == Open(s) && Refusal(t) == Refusal(s)
            && (!Open(s) ==> a.row == s.row && a.ledger == s.ledger && (a.pc == Refusal(s) <==> requestId !in s.ledger))
            && (Open(s) ==>
                  var e := NewEntry(s.row.value, requestId, commandId, patch);
                  if Commits(s.row, s.ledger, s.certificate, requestId, Current(s.row.value))
                  then a == Reserved(Commit(t, e, s.row.value.observed).row, Commit(t, e, s.row.value.observed).ledger, Returned(e))
                  else requestId in s.ledger && a.row == s.row && a.ledger == s.ledger
                       && a.pc == if s.ledger[requestId].patch == patch then Returned(s.ledger[requestId]) else Failed(RequestIdReused))
  {
    var c := Caller(requestId, commandId, patch, 0, Reading);
    var t := s.(callers := s.callers[k := c]);
    RegisteringKeepsInv(s, k, requestId, commandId, patch);
    if Open(t) { AtomicByCommit(t, c); } else { AtomicWhenShut(t, c); }
    hide Inv, Merge, Atomic, NewEntry;
  }

  lemma ExtendsAgain(s: State, t: State, u: State)
    requires Extends(s, t) && Extends(t, u)
    ensures Extends(s, u)
  {
  }

  lemma CommitExtends(s: State, e: Entry, base: LedState)
    requires s.row.Some? && e.requestId !in s.ledger
    ensures Extends(s, Commit(s, e, base)) && Commit(s, e, base).callers == s.callers
    ensures e.requestId in Commit(s, e, base).ledger && Commit(s, e, base).ledger[e.requestId] == e
  {
  }

  /** Our own commit, between two awaits. */
  lemma OwnCommit(s: State, k: nat, current: Row, requestId: string, commandId: string, patch: Patch)
    requires Inv(s) && Registered(s, k, requestId, commandId, patch) && RowAgrees(current, s.log) && Current(current) + 1 <= MAX_SEQUENCE
    requires Commits(s.row, s.ledger, s.certificate, requestId, Current(current))
    ensures var e := NewEntry(current, requestId, commandId, patch);
            var t := Commit(s, e, current.observed);
            Inv(t) && Registered(t, k, requestId, commandId, patch) && Extends(s, t) && requestId in t.ledger && t.ledger[requestId] == e
  {
    hide Inv, RowAgrees, Extends, LeavesAlone, Merge;
    var e := NewEntry(current, requestId, commandId, patch);
    CommitKeepsInv(s, k, current, Reading);
    CommitExtends(s, e, current.observed);
    assert At(Commit(s, e, current.observed), k, Reading) == Commit(s, e, current.observed);
  }

  /** The checks the loop makes on the row before it looks at anything else. */
  predicate Open(s: State) { Usable(s.row, s.certificate) && Current(s.row.value) < MAX_SEQUENCE }

  /** How the loop refuses a row that fails them. */
  function Refusal(s: State): Pc
  {
    Failed(if !Usable(s.row, s.certificate) then DeviceConflict else SequenceExhausted)
  }

  /** On such a row the atomic form refuses alike, unless the request is in the ledger: it answers from the ledger first. */
  lemma AtomicWhenShut(s: State, c: Caller)
    requires !Open(s)
    ensures var a := Atomic(s.row, s.ledger, s.certificate, c);
            a.row == s.row && a.ledger == s.ledger && (a.pc == Refusal(s) <==> c.requestId !in s.ledger)
  {
  }

  /** What the atomic form does, told by whether the loop's transaction would commit at once. */
  lemma AtomicByCommit(s: State, c: Caller)
    requires Open(s)
    ensures var a := Atomic(s.row, s.ledger, s.certificate, c);
            var e := NewEntry(s.row.value, c.requestId, c.commandId, c.patch);
            if Commits(s.row, s.ledger, s.certificate, c.requestId, Current(s.row.value))
            then a == Reserved(Commit(s, e, s.row.value.observed).row, Commit(s, e, s.row.value.observed).ledger, Returned(e))
            else c.requestId in s.ledger && a.row == s.row && a.ledger == s.ledger
                 && a.pc == if s.ledger[c.requestId].patch == c.patch then Returned(s.ledger[c.requestId]) else Failed(RequestIdReused)
  {
  }

  lemma RowReads(s: State)
    requires Inv(s)
    ensures s.row.Some? ==> RowAgrees(s.row.value, s.log)
  {
  }

  lemma SnapshotOutlives(row: Row, s: State, t: State)
    requires RowAgrees(row, s.log) && Extends(s, t)
    ensures RowAgrees(row, t.log) && t.certificate == s.certificate
  {
  }

  class CommandTable {
    var s: State
    var script: seq<seq<Event>>

    constructor (certificate: string, script: seq<seq<Event>>)
      ensures s == Start(certificate) && Inv(s) && this.script == script
    {
      StartIsGood(certificate);
      s, this.script := Start(certificate), script;
    }

    /** Other callers act while a remote call is under way. */
    method Await()
      modifies this
      ensures s == Run(old(s), if old(script) == [] then [] else old(script)[0])
      ensures script == if old(script) == [] then [] else old(script)[1..]
    {
      if script == [] {
        return;
      }
      var batch := script[0];
      script := script[1..];
      var i := 0;
      while i < |batch|
        invariant 0 <= i <= |batch| && s == Run(old(s), batch[..i])
        invariant script == old(script)[1..]
      {
        assert batch[..i + 1][..i] == batch[..i];
        s := Next(s, batch[i]);
        i := i + 1;
      }
      assert batch[..i] == batch;
    }

    ghost predicate Mine(k: nat, requestId: string, commandId: string, patch: Patch)
      reads this
    {
      Inv(s) && Registered(s, k, requestId, commandId, patch) && forall b :: b in script ==> LeavesAlone(b, k)
    }

    lemma AwaitKeeps(k: nat, requestId: string, commandId: string, patch: Patch)
      requires Mine(k, requestId, commandId, patch)
      ensures var t := Run(s, if script == [] then [] else script[0]);
              Inv(t) && Extends(s, t) && Registered(t, k, requestId, commandId, patch)
    {
      OthersKeep(s, if script == [] then [] else script[0], k, requestId, commandId, patch);
    }

    /** Others may act, and what was ours stays ours. */
    method AwaitMine(k: nat, requestId: string, commandId: string, patch: Patch)
      requires Mine(k, requestId, commandId, patch)
      modifies this
      ensures Mine(k, requestId, commandId, patch) && Extends(old(s), s)
      ensures old(script) == [] ==> script == [] && s == old(s)
    {
      AwaitKeeps(k, requestId, commandId, patch);
      Await();
    }

    /** What an answer to the caller means for the ledger. */
    predicate Honest(result: Pc, requestId: string, patch: Patch)
      reads this
    {
      && (result.Returned? || (result.Failed? && result.error != Transport))
      && (result.Returned? ==> requestId in s.ledger && s.ledger[requestId] == result.entry && result.entry.patch == patch)
      && (result == Failed(RequestIdReused) ==> requestId in s.ledger && s.ledger[requestId].patch != patch)
    }

    /** The consistent read of the row, and the checks on what was read. */
    method ReadRow(k: nat, requestId: string, commandId: string, patch: Patch) returns (pc: Pc)
      requires Mine(k, requestId, commandId, patch)
      modifies this
      ensures Mine(k, requestId, commandId, patch) && Extends(old(s), s)
      ensures old(script) == [] ==> script == [] && s == old(s)
      ensures pc == Read(s, s.callers[k]) && (pc.Writing? ==> RowAgrees(pc.snapshot, s.log))
    {
      AwaitMine(k, requestId, commandId, patch);
      RowReads(s);
      if !Usable(s.row, s.certificate) {
        return Failed(DeviceConflict);
      }
      var commandSequence := Current(s.row.value) + 1;
      if commandSequence > MAX_SEQUENCE {
        return Failed(SequenceExhausted);
      }
      return Writing(s.row.value);
    }

    /** The conditional transaction, against the snapshot. */
    method Transact(k: nat, requestId: string, commandId: string, patch: Patch, current: Row) returns (written: Option<Entry>)
      requires Mine(k, requestId, commandId, patch) && RowAgrees(current, s.log) && Current(current) + 1 <= MAX_SEQUENCE
      modifies this
      ensures Mine(k, requestId, commandId, patch) && Extends(old(s), s)
      ensures written.Some? ==> Honest(Returned(written.value), requestId, patch)
      ensures old(script) == [] ==> script == []
      ensures old(script) == [] && written.None? ==> s == old(s) && !Commits(s.row, s.ledger, s.certificate, requestId, Current(current))
      ensures old(script) == [] && written.Some? ==>
                Commits(old(s.row), old(s.ledger), old(s.certificate), requestId, Current(current)) &&
                written.value == NewEntry(current, requestId, commandId, patch) && old(s.row).Some? && s == Commit(old(s), written.value, current.observed)
    {
      hide Inv, LeavesAlone, RowAgrees, Merge, Extends, Commit;
      ghost var before := s;
      AwaitMine(k, requestId, commandId, patch);
      SnapshotOutlives(current, before, s);
      if !Commits(s.row, s.ledger, s.certificate, requestId, Current(current)) {
        return None;
      }
      OwnCommit(s, k, current, requestId, commandId, patch);
      var entry := Entry(requestId, commandId, Current(current) + 1, patch, Merge(Base(current), patch));
      ghost var mid := s;
      s := Commit(s, entry, current.observed);
      ExtendsAgain(before, mid, s);
      return Some(entry);
    }

    /** After a conflict, the ledger decides. */
    method LookUp(k: nat, requestId: string, commandId: string, patch: Patch) returns (result: Option<Pc>)
      requires Mine(k, requestId, commandId, patch)
      modifies this
      ensures Mine(k, requestId, commandId, patch) && Extends(old(s), s)
      ensures result.Some? ==> Honest(result.value, requestId, patch)
      ensures old(script) == [] ==> script == [] && s == old(s)
      ensures result == if requestId !in s.ledger then None
                        else Some(if s.ledger[requestId].patch == patch then Returned(s.ledger[requestId]) else Failed(RequestIdReused))
    {
      AwaitMine(k, requestId, commandId, patch);
      if requestId in s.ledger {
        return Some(if s.ledger[requestId].patch == patch then Returned(s.ledger[requestId]) else Failed(RequestIdReused));
      }
      return None;
    }

    /** One round: read, transact, and after a conflict look the ledger up. With nobody interfering it decides. */
    method Attempt(k: nat, requestId: string, commandId: string, patch: Patch) returns (result: Option<Pc>)
      requires Mine(k, requestId, commandId, patch)
      modifies this
      ensures Mine(k, requestId, commandId, patch) && Extends(old(s), s)
      ensures result.Some? ==> Honest(result.value, requestId, patch)
      ensures old(script) == [] ==> script == []
      ensures old(script) == [] && !Open(old(s)) ==> s == old(s) && result == Some(Refusal(s))
      ensures old(script) == [] && Open(old(s)) ==>
                var e := NewEntry(old(s.row.value), requestId, commandId, patch);
                if Commits(old(s.row), old(s.ledger), old(s.certificate), requestId, Current(old(s.row.value)))
                then result == Some(Returned(e)) && s == Commit(old(s), e, old(s.row.value.observed))
                else s == old(s) && (requestId in s.ledger ==>
                       result == Some(if s.ledger[requestId].patch == patch then Returned(s.ledger[requestId]) else Failed(RequestIdReused)))
    {
      hide Inv, LeavesAlone, RowAgrees, Merge, Extends, Commits, NewEntry, Commit;
      ghost var s0 := s;
      var read := ReadRow(k, requestId, commandId, patch);
      if read.Failed? {
        return Some(read);
      }
      ghost var s1 := s;
      var written := Transact(k, requestId, commandId, patch, read.snapshot);
      ExtendsAgain(s0, s1, s);
      if written.Some? {
        return Some(Returned(written.value));
      }
      ghost var s2 := s;
      result := LookUp(k, requestId, commandId, patch);
      ExtendsAgain(s0, s2, s);
    }

    /** Whatever the others do, an answer is the ledger's entry for this request with this patch, the tables stay
        consistent, and nobody's entry is lost. With nobody interfering the call is the atomic form, except exactly on a
        repeated request while the row is shut: the loop reads the row first and refuses what the ledger would answer. */
    method ReserveCommand(k: nat, requestId: string, commandId: string, patch: Patch) returns (result: Pc)
      requires Inv(s) && k !in s.callers && ValidPatch(patch)
      requires forall j :: j in s.callers ==> s.callers[j].commandId != commandId
      requires forall b :: b in script ==> LeavesAlone(b, k)
      modifies this
      ensures Inv(s) && Extends(old(s), s) && Honest(result, requestId, patch)
      ensures old(script) == [] ==>
                var a := Atomic(old(s.row), old(s.ledger), old(s.certificate), Caller(requestId, commandId, patch, 0, Reading));
                && s.row == a.row && s.ledger == a.ledger
                && (result == a.pc <==> (requestId in old(s.ledger) ==> Open(old(s))))
      ensures old(script) == [] && !Open(old(s)) ==> result == Refusal(old(s))
    {
      hide Inv, LeavesAlone, RowAgrees, Merge, Extends, Registered, Atomic, Commits, NewEntry, Commit, Open, Refusal, Usable, Current;
      ghost var before := s;
      Registers(s, k, requestId, commandId, patch);
      s := s.(callers := s.callers[k := Caller(requestId, commandId, patch, 0, Reading)]);
      ghost var registered := s;
      var attempt := 0;
      while attempt < ATTEMPTS
        invariant 0 <= attempt <= ATTEMPTS
        invariant Mine(k, requestId, commandId, patch) && Extends(before, s)
        invariant old(script) == [] ==> script == []
        invariant attempt == 0 ==> s == registered && script == old(script)
        invariant attempt > 0 ==> old(script) != []
      {
        ghost var s0 := s;
        var answer := Attempt(k, requestId, commandId, patch);
        ExtendsAgain(before, s0, s);
        if answer.Some? {
          return answer.value;
        }
        attempt := attempt + 1;
      }
      return Failed(ReservationBusy);
    }
  }
}

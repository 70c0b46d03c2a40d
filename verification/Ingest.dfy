/** `applyState`: read the row, classify the message, write conditionally, and classify again after a conflict;
    with any number of concurrent workers. The simple form is one atomic step per message. */
module Ingest {
  import opened Common
  import opened Led
  import opened Lamp
  import opened Device

  datatype Disposition = Applied | Duplicate | Stale

  function PositionOf(m: StateMessage): Position { Position(m.bootAt, m.bootId, m.sequence) }

  /** `streamDisposition`. */
  function Classify(m: StateMessage, row: Row): Disposition {
    if Some(m.messageId) == row.lastMessage then Duplicate
    else if row.stream.None? || m.bootAt > row.stream.value.bootAt then Applied
    else if m.bootAt < row.stream.value.bootAt || m.bootId != row.stream.value.bootId then Stale
    else if m.sequence > row.stream.value.sequence then Applied
    else Stale
  }

  /** The condition of the write, checked against the row at the instant of the write. */
  predicate Newer(m: StateMessage, row: Row) {
    || row.stream.None?
    || row.stream.value.bootAt < m.bootAt
    || (row.stream.value.bootAt == m.bootAt && row.stream.value.bootId == m.bootId && row.stream.value.sequence < m.sequence)
  }

  /** On every row, well-formed or not, the classification of the read and the condition of the write agree: they part only on the
      stored message itself, which is a duplicate. */
  lemma ReadAgreesWithWrite(m: StateMessage, row: Row)
    ensures Classify(m, row) == Duplicate <==> row.lastMessage == Some(m.messageId)
    ensures Classify(m, row) == Applied <==> Newer(m, row) && row.lastMessage != Some(m.messageId)
  {
  }

  /** The update of the write. A message without a command id keeps the id that is stored. */
  function Observe(row: Row, m: StateMessage): Row {
    row.(observed := m.led, applied := if m.applied.Some? then m.applied else row.applied,
         stream := Some(PositionOf(m)), lastMessage := Some(m.messageId), lifecycle := Active)
  }

  /** The in-memory repository: classify and write in one critical section. */
  function ApplyAtomic(row: Row, m: StateMessage): Row {
    if Live(row) && Classify(m, row) == Applied then Observe(row, m) else row
  }

  function ApplyAll(row: Row, messages: seq<StateMessage>): Row {
    if messages == [] then row else ApplyAtomic(ApplyAll(row, messages[..|messages| - 1]), messages[|messages| - 1])
  }

  datatype Pc = Reading | Writing(lifecycle: Lifecycle) | Reclassifying | Answered(disposition: Disposition) | Threw

  datatype Worker = Worker(message: StateMessage, pc: Pc)

  /** `taken` is history: the messages that were written or answered. */
  datatype State = State(row: Row, workers: map<nat, Worker>, taken: set<StateMessage>)

  datatype Event =
    | Arrive(worker: nat, message: StateMessage)
    | Step(worker: nat, fails: bool, claimReady: bool, answerLost: bool)
    | Reserve(row: Row)
    | Retire

  function At(s: State, k: nat, pc: Pc): State
    requires k in s.workers
  {
    s.(workers := s.workers[k := s.workers[k].(pc := pc)])
  }

  function Answer(s: State, k: nat, d: Disposition): State
    requires k in s.workers
  {
    At(s.(taken := s.taken + {s.workers[k].message}), k, Answered(d))
  }

  /** The first state of a runtime-authorized device moves its Claim to ONLINE in the same transaction,
      which fails as a whole when the Claim is not ready. */
  predicate Writes(s: State, m: StateMessage, lifecycle: Lifecycle, claimReady: bool) {
    s.row.lifecycle == lifecycle && Newer(m, s.row) && (lifecycle == RuntimeAuthorized ==> claimReady)
  }

  function WorkerStep(s: State, k: nat, fails: bool, claimReady: bool, answerLost: bool): State
    requires k in s.workers
  {
    var m := s.workers[k].message;
    if s.workers[k].pc.Answered? || s.workers[k].pc.Threw? then s
    else if fails then At(s, k, Threw)
    else match s.workers[k].pc
      case Writing(lifecycle) =>
        if Writes(s, m, lifecycle, claimReady) then
          var written := s.(row := Observe(s.row, m), taken := s.taken + {m});
          At(written, k, if answerLost then Threw else Answered(Applied))
        else At(s, k, Reclassifying)
      case _ =>
        if !Live(s.row) then At(s, k, Threw)
        else if Classify(m, s.row) != Applied then Answer(s, k, Classify(m, s.row))
        else At(s, k, if s.workers[k].pc == Reading then Writing(s.row.lifecycle) else Threw)
  }

  /** A command reservation changes nothing that ingest reads or writes. */
  predicate OnlyReserves(before: Row, after: Row) {
    && after.observed == before.observed && after.applied == before.applied
    && after.stream == before.stream && after.lastMessage == before.lastMessage
    && after.lifecycle == before.lifecycle && after.certificate == before.certificate
  }

  function Next(s: State, e: Event): State {
    match e
    case Arrive(k, m) => if k in s.workers then s else s.(workers := s.workers[k := Worker(m, Reading)])
    case Step(k, fails, claimReady, answerLost) =>
      if k in s.workers then WorkerStep(s, k, fails, claimReady, answerLost) else s
    case Reserve(row) => if OnlyReserves(s.row, row) then s.(row := row) else s
    case Retire => s.(row := s.row.(lifecycle := Revoked))
  }

  function Run(s: State, events: seq<Event>): State {
    if events == [] then s else Next(Run(s, events[..|events| - 1]), events[|events| - 1])
  }

  function Start(certificate: string): State { State(NewRow(certificate), map[], {}) }

  ghost predicate AllFrom(stream: iset<StateMessage>, events: seq<Event>) {
    forall i :: 0 <= i < |events| ==> events[i].Arrive? ==> events[i].message in stream
  }

  /** A boot time stands for one boot, a place in a boot for one message, and so does a message id. */
  ghost predicate WellFormed(stream: iset<StateMessage>) {
    forall a, b :: a in stream && b in stream ==> Consistent(a, b)
  }

  predicate Consistent(a: StateMessage, b: StateMessage) {
    && (a.bootAt == b.bootAt ==> a.bootId == b.bootId)
    && (a.bootAt == b.bootAt && a.sequence == b.sequence ==> a == b)
    && (a.messageId == b.messageId ==> a == b)
  }

  predicate Before(a: StateMessage, b: StateMessage) {
    a.bootAt < b.bootAt || (a.bootAt == b.bootAt && a.sequence < b.sequence)
  }

  /** The row stands at message `m`. */
  predicate StandsAt(row: Row, m: StateMessage) {
    row.stream == Some(PositionOf(m)) && row.lastMessage == Some(m.messageId) && row.observed == m.led
  }

  predicate IsLatest(m: StateMessage, taken: set<StateMessage>) {
    m in taken && forall n :: n in taken ==> n == m || Before(n, m)
  }

  predicate Untouched(row: Row) {
    row.stream == None && row.lastMessage == None && row.observed == OFF && row.applied == None
  }

  /** The row shows exactly the latest of the taken messages. */
  ghost predicate Shows(row: Row, taken: set<StateMessage>) {
    if taken == {} then Untouched(row) else exists m :: IsLatest(m, taken) && StandsAt(row, m)
  }

  /** A message from the stream that is not newer than the row is not later than the message it stands at. */
  lemma NotNewerIsNotLater(stream: iset<StateMessage>, row: Row, m: StateMessage, top: StateMessage)
    requires WellFormed(stream) && m in stream && top in stream && StandsAt(row, top)
    ensures Newer(m, row) <==> Before(top, m)
    ensures Classify(m, row) == Applied <==> Newer(m, row)
    ensures !Newer(m, row) ==> m == top || Before(m, top)
  {
    assert Consistent(m, top);
  }

  lemma TakeStale(stream: iset<StateMessage>, row: Row, m: StateMessage, taken: set<StateMessage>)
    requires WellFormed(stream) && m in stream && (forall n :: n in taken ==> n in stream)
    requires Shows(row, taken) && Classify(m, row) != Applied
    ensures Shows(row, taken + {m})
  {
    var top :| IsLatest(top, taken) && StandsAt(row, top);
    NotNewerIsNotLater(stream, row, m, top);
    assert IsLatest(top, taken + {m});
  }

  lemma TakeNewer(stream: iset<StateMessage>, row: Row, m: StateMessage, taken: set<StateMessage>)
    requires WellFormed(stream) && m in stream && (forall n :: n in taken ==> n in stream)
    requires Shows(row, taken) && Newer(m, row)
    ensures Shows(Observe(row, m), taken + {m}) && Classify(m, row) == Applied
  {
    if taken != {} {
      var top :| IsLatest(top, taken) && StandsAt(row, top);
      NotNewerIsNotLater(stream, row, m, top);
    }
    assert IsLatest(m, taken + {m});
  }

  ghost predicate Inv(s: State, stream: iset<StateMessage>) {
    && Shows(s.row, s.taken)
    && (forall n :: n in s.taken ==> n in stream)
    && (forall k :: k in s.workers ==> s.workers[k].message in stream)
    && (forall k :: k in s.workers && s.workers[k].pc.Answered? ==> s.workers[k].message in s.taken)
  }

  lemma WorkerKeepsInv(s: State, k: nat, fails: bool, claimReady: bool, answerLost: bool, stream: iset<StateMessage>)
    requires WellFormed(stream) && Inv(s, stream) && k in s.workers
    ensures Inv(WorkerStep(s, k, fails, claimReady, answerLost), stream)
  {
    var m := s.workers[k].message;
    hide Shows, WellFormed, Observe;
    match s.workers[k].pc
    case Writing(lifecycle) => if Writes(s, m, lifecycle, claimReady) { TakeNewer(stream, s.row, m, s.taken); }
    case _ => if Classify(m, s.row) != Applied { TakeStale(stream, s.row, m, s.taken); }
  }

  lemma {:induction false} RunKeepsInv(certificate: string, events: seq<Event>, stream: iset<StateMessage>)
    requires WellFormed(stream) && AllFrom(stream, events)
    ensures Inv(Run(Start(certificate), events), stream)
  {
    if events != [] {
      var prefix, e := events[..|events| - 1], events[|events| - 1];
      RunKeepsInv(certificate, prefix, stream);
      var s := Run(Start(certificate), prefix);
      match e
      case Step(k, fails, claimReady, answerLost) =>
        if k in s.workers { WorkerKeepsInv(s, k, fails, claimReady, answerLost, stream); }
      case _ =>
        assert Shows(Next(s, e).row, s.taken) by {
          if s.taken != {} {
            var top :| IsLatest(top, s.taken) && StandsAt(s.row, top);
            assert StandsAt(Next(s, e).row, top);
          }
        }
    }
  }

  /** Two rows that each show the latest of one set of messages agree. */
  lemma LatestIsUnique(a: Row, b: Row, taken: set<StateMessage>)
    requires Shows(a, taken) && Shows(b, taken)
    ensures a.stream == b.stream && a.observed == b.observed && a.lastMessage == b.lastMessage
  {
    if taken != {} {
      var m :| IsLatest(m, taken) && StandsAt(a, m);
      var n :| IsLatest(n, taken) && StandsAt(b, n);
      assert m == n;
    }
  }

  /** Order independence: whatever the interleaving of the workers, with whatever duplicates, conflicts and
      reservations between, two runs that took the same messages leave the same position and LED fields,
      and these are those of the latest message. */
  lemma OrderIndependent(certificate: string, left: seq<Event>, right: seq<Event>, stream: iset<StateMessage>)
    requires WellFormed(stream) && AllFrom(stream, left) && AllFrom(stream, right)
    requires Run(Start(certificate), left).taken == Run(Start(certificate), right).taken
    ensures var s := Run(Start(certificate), left);
            var t := Run(Start(certificate), right);
            && s.row.stream == t.row.stream && s.row.observed == t.row.observed && s.row.lastMessage == t.row.lastMessage
            && Shows(s.row, s.taken)
  {
    RunKeepsInv(certificate, left, stream);
    RunKeepsInv(certificate, right, stream);
    LatestIsUnique(Run(Start(certificate), left).row, Run(Start(certificate), right).row, Run(Start(certificate), left).taken);
  }

  /** An answer of DUPLICATE or STALE, or any answer, means that the row is at or past the message for good. */
  lemma AnswerMeansNotNewer(certificate: string, events: seq<Event>, stream: iset<StateMessage>, k: nat)
    requires WellFormed(stream) && AllFrom(stream, events)
    requires var s := Run(Start(certificate), events); k in s.workers && s.workers[k].pc.Answered?
    ensures var s := Run(Start(certificate), events); !Newer(s.workers[k].message, s.row)
  {
    RunKeepsInv(certificate, events, stream);
    var s := Run(Start(certificate), events);
    var m := s.workers[k].message;
    var top :| IsLatest(top, s.taken) && StandsAt(s.row, top);
    NotNewerIsNotLater(stream, s.row, m, top);
  }

  /** Over every run: a worker that reads a live row, at first or after a conflict, says DUPLICATE exactly of the latest message taken so
      far and STALE exactly of a message before some message taken; a message after all of them it goes on to write, or, after a
      conflict, leaves to the next delivery. */
  lemma AnswersExactly(certificate: string, events: seq<Event>, stream: iset<StateMessage>, k: nat)
    requires WellFormed(stream) && AllFrom(stream, events)
    requires var s := Run(Start(certificate), events); k in s.workers && s.workers[k].pc in {Reading, Reclassifying} && s.row.lifecycle in {RuntimeAuthorized, Active}
    ensures var s := Run(Start(certificate), events);
            var m := s.workers[k].message;
            var t := Next(s, Step(k, false, true, false));
            && t.row == s.row && k in t.workers
            && (t.workers[k].pc == Answered(Duplicate) <==> IsLatest(m, s.taken))
            && (t.workers[k].pc == Answered(Stale) <==> exists n :: n in s.taken && Before(m, n))
            && ((forall n :: n in s.taken ==> Before(n, m)) <==>
                  t.workers[k].pc == if s.workers[k].pc == Reading then Writing(s.row.lifecycle) else Threw)
  {
    var s := Run(Start(certificate), events);
    RunKeepsInv(certificate, events, stream);
    hide Run;
    var m := s.workers[k].message;
    if s.taken != {} {
      var top :| IsLatest(top, s.taken) && StandsAt(s.row, top);
      NotNewerIsNotLater(stream, s.row, m, top);
      assert Consistent(m, top);
      if m == top { assert IsLatest(m, s.taken); } else { assert !IsLatest(m, s.taken); }
    }
  }

  /** And it writes exactly when the row still has the lifecycle it read, nothing taken is as late as its message, and, for the first
      state of a device, the claim is ready; the row is then ACTIVE at this message. */
  lemma WritesExactly(certificate: string, events: seq<Event>, stream: iset<StateMessage>, k: nat, claimReady: bool)
    requires WellFormed(stream) && AllFrom(stream, events)
    requires var s := Run(Start(certificate), events); k in s.workers && s.workers[k].pc.Writing?
    ensures var s := Run(Start(certificate), events);
            var m, before := s.workers[k].message, s.workers[k].pc.lifecycle;
            var t := Next(s, Step(k, false, claimReady, false));
            && k in t.workers
            && (t.workers[k].pc == Answered(Applied) <==>
                  s.row.lifecycle == before && (forall n :: n in s.taken ==> Before(n, m)) && (before == RuntimeAuthorized ==> claimReady))
            && (t.workers[k].pc != Answered(Applied) ==> t.row == s.row && t.taken == s.taken)
            && (t.workers[k].pc == Answered(Applied) ==>
                  && t.taken == s.taken + {m}
                  && t.row == Row(s.row.certificate, Active, m.led, if m.applied.Some? then m.applied else s.row.applied,
                                  Some(Position(m.bootAt, m.bootId, m.sequence)), Some(m.messageId),
                                  s.row.commandSequence, s.row.lastCommandId, s.row.desired))
  {
    var s := Run(Start(certificate), events);
    RunKeepsInv(certificate, events, stream);
    hide Run;
    var m := s.workers[k].message;
    if s.taken != {} {
      var top :| IsLatest(top, s.taken) && StandsAt(s.row, top);
      NotNewerIsNotLater(stream, s.row, m, top);
      assert Consistent(m, top);
    }
  }

  /** A device is RUNTIME_AUTHORIZED only before its first state, and ACTIVE only after it. */
  lemma {:induction false} FirstStateActivates(certificate: string, events: seq<Event>, stream: iset<StateMessage>)
    requires WellFormed(stream) && AllFrom(stream, events)
    ensures var s := Run(Start(certificate), events);
            (s.row.lifecycle == RuntimeAuthorized ==> s.taken == {}) && (s.row.lifecycle == Active ==> s.taken != {}) && s.row.lifecycle != Lifecycle.Bootstrapped
  {
    if events != [] {
      var prefix, e := events[..|events| - 1], events[|events| - 1];
      FirstStateActivates(certificate, prefix, stream);
      RunKeepsInv(certificate, prefix, stream);
      var s := Run(Start(certificate), prefix);
      if e.Step? && e.worker in s.workers {
        ActivatesStep(s, e.worker, e.fails, e.claimReady, e.answerLost);
      }
      hide WorkerStep, Inv;
    }
  }

  lemma ActivatesStep(s: State, k: nat, fails: bool, claimReady: bool, answerLost: bool)
    requires k in s.workers && (s.taken == {} ==> Untouched(s.row))
    ensures var t := WorkerStep(s, k, fails, claimReady, answerLost);
            || (t.row == s.row && (t.taken == s.taken || (s.taken != {} && t.taken != {})))
            || (t.row.lifecycle == Active && t.taken != {})
  {
    assert s.workers[k].message in s.taken + {s.workers[k].message};
  }

  /** A conditional write does to the row what the atomic form does at that instant; no other step of a worker
      changes the row. */
  lemma WorkersRefineAtomic(s: State, stream: iset<StateMessage>, k: nat, fails: bool, claimReady: bool, answerLost: bool)
    requires WellFormed(stream) && Inv(s, stream) && k in s.workers
    requires s.workers[k].pc.Writing? ==> s.workers[k].pc.lifecycle in {RuntimeAuthorized, Active}
    ensures var t := WorkerStep(s, k, fails, claimReady, answerLost);
            t.row == s.row || t.row == ApplyAtomic(s.row, s.workers[k].message)
  {
    var m := s.workers[k].message;
    if s.workers[k].pc.Writing? && Writes(s, m, s.workers[k].pc.lifecycle, claimReady) {
      TakeNewer(stream, s.row, m, s.taken);
    }
  }

  function Elements(messages: seq<StateMessage>): set<StateMessage> { set m | m in messages }

  lemma {:induction false} ApplyAllShows(certificate: string, messages: seq<StateMessage>, stream: iset<StateMessage>)
    requires WellFormed(stream) && forall i :: 0 <= i < |messages| ==> messages[i] in stream
    ensures var row := ApplyAll(NewRow(certificate), messages);
            Shows(row, Elements(messages)) && Live(row)
  {
    if messages != [] {
      var prefix, m := messages[..|messages| - 1], messages[|messages| - 1];
      ApplyAllShows(certificate, prefix, stream);
      var row, taken := ApplyAll(NewRow(certificate), prefix), Elements(prefix);
      assert Elements(messages) == taken + {m};
      if Classify(m, row) == Applied {
        if taken != {} {
          var top :| IsLatest(top, taken) && StandsAt(row, top);
          NotNewerIsNotLater(stream, row, m, top);
        }
        TakeNewer(stream, row, m, taken);
      } else {
        TakeStale(stream, row, m, taken);
      }
    }
  }

  /** The atomic form: any permutation, with any duplicates, of the same messages. */
  lemma PermutationIndependent(certificate: string, left: seq<StateMessage>, right: seq<StateMessage>, stream: iset<StateMessage>)
    requires WellFormed(stream) && forall i :: 0 <= i < |left| ==> left[i] in stream
    requires Elements(left) == Elements(right)
    ensures var a := ApplyAll(NewRow(certificate), left);
            var b := ApplyAll(NewRow(certificate), right);
            a.stream == b.stream && a.observed == b.observed && a.lastMessage == b.lastMessage
  {
    forall i | 0 <= i < |right| ensures right[i] in stream {
      assert right[i] in Elements(right);
    }
    ApplyAllShows(certificate, left, stream);
    ApplyAllShows(certificate, right, stream);
    LatestIsUnique(ApplyAll(NewRow(certificate), left), ApplyAll(NewRow(certificate), right), Elements(left));
  }

  /** The latest of the messages carries a command id. */
  predicate LatestCarriesId(taken: set<StateMessage>) { exists m :: m in taken && IsLatest(m, taken) && m.applied.Some? }

  predicate NoneCarriesId(taken: set<StateMessage>) { forall m :: m in taken ==> m.applied.None? }

  /** The applied id that does not depend on the order: that of the latest message, or none at all. */
  predicate AppliedSettled(row: Row, taken: set<StateMessage>) {
    && (forall m :: m in taken && IsLatest(m, taken) && m.applied.Some? ==> row.applied == m.applied)
    && (NoneCarriesId(taken) ==> row.applied == None)
  }

  lemma TakeStaleSettles(stream: iset<StateMessage>, row: Row, m: StateMessage, taken: set<StateMessage>)
    requires WellFormed(stream) && m in stream && (forall n :: n in taken ==> n in stream)
    requires Shows(row, taken) && AppliedSettled(row, taken) && Classify(m, row) != Applied
    ensures AppliedSettled(row, taken + {m})
  {
    var top :| IsLatest(top, taken) && StandsAt(row, top);
    NotNewerIsNotLater(stream, row, m, top);
    forall n | n in taken + {m} && IsLatest(n, taken + {m}) && n.applied.Some? ensures row.applied == n.applied {
      assert n == top;
    }
  }

  lemma TakeNewerSettles(stream: iset<StateMessage>, row: Row, m: StateMessage, taken: set<StateMessage>)
    requires WellFormed(stream) && m in stream && (forall n :: n in taken ==> n in stream)
    requires Shows(row, taken) && AppliedSettled(row, taken) && Newer(m, row)
    ensures AppliedSettled(Observe(row, m), taken + {m})
  {
    if taken != {} {
      var top :| IsLatest(top, taken) && StandsAt(row, top);
      NotNewerIsNotLater(stream, row, m, top);
    }
    assert IsLatest(m, taken + {m});
    forall n | n in taken + {m} && IsLatest(n, taken + {m}) ensures n == m {
      assert n == m || Before(n, m);
      assert n == m || Before(m, n);
    }
    if NoneCarriesId(taken + {m}) {
      assert m in taken + {m};
      forall n | n in taken ensures n.applied.None? { assert n in taken + {m}; }
    }
  }

  /** Every run of the workers leaves the settled id, where there is one. */
  lemma {:induction false} RunSettles(certificate: string, events: seq<Event>, stream: iset<StateMessage>)
    requires WellFormed(stream) && AllFrom(stream, events)
    ensures AppliedSettled(Run(Start(certificate), events).row, Run(Start(certificate), events).taken)
  {
    if events != [] {
      var prefix, e := events[..|events| - 1], events[|events| - 1];
      RunSettles(certificate, prefix, stream);
      RunKeepsInv(certificate, prefix, stream);
      var s := Run(Start(certificate), prefix);
      if e.Step? && e.worker in s.workers {
        WorkerSettles(s, e.worker, e.fails, e.claimReady, e.answerLost, stream);
      }
      hide Shows, AppliedSettled, WellFormed, WorkerStep, Observe;
      if !e.Step? { RowKeepsApplied(s, e); }
    }
  }

  lemma RowKeepsApplied(s: State, e: Event)
    requires !e.Step? && AppliedSettled(s.row, s.taken)
    ensures AppliedSettled(Next(s, e).row, Next(s, e).taken)
  {
  }

  lemma WorkerSettles(s: State, k: nat, fails: bool, claimReady: bool, answerLost: bool, stream: iset<StateMessage>)
    requires WellFormed(stream) && Inv(s, stream) && k in s.workers && AppliedSettled(s.row, s.taken)
    ensures var t := WorkerStep(s, k, fails, claimReady, answerLost); AppliedSettled(t.row, t.taken)
  {
    var m := s.workers[k].message;
    hide Shows, WellFormed, Observe, AppliedSettled;
    match s.workers[k].pc
    case Writing(lifecycle) => if Writes(s, m, lifecycle, claimReady) { TakeNewerSettles(stream, s.row, m, s.taken); }
    case _ => if Classify(m, s.row) != Applied { TakeStaleSettles(stream, s.row, m, s.taken); }
  }

  /** One message after the other, each by a worker of its own with nobody in between. */
  function Sequential(messages: seq<StateMessage>): seq<Event> {
    if messages == [] then []
    else
      var k := |messages| - 1;
      Sequential(messages[..k]) + [Arrive(k, messages[k]), Step(k, false, true, false), Step(k, false, true, false)]
  }

  lemma RunThree(s: State, events: seq<Event>, a: Event, b: Event, c: Event)
    ensures Run(s, events + [a, b, c]) == Next(Next(Next(Run(s, events), a), b), c)
  {
    var all := events + [a, b, c];
    assert all[..|all| - 1] == events + [a, b] && (events + [a, b])[..|events| + 1] == events + [a] && (events + [a])[..|events|] == events;
    assert Run(s, events + [a]) == Next(Run(s, events), a);
    assert Run(s, events + [a, b]) == Next(Next(Run(s, events), a), b);
  }

  lemma LastElement(messages: seq<StateMessage>)
    requires messages != []
    ensures Elements(messages) == Elements(messages[..|messages| - 1]) + {messages[|messages| - 1]}
  {
    assert messages == messages[..|messages| - 1] + [messages[|messages| - 1]];
  }

  lemma {:induction false} SequentialFrom(messages: seq<StateMessage>, stream: iset<StateMessage>)
    requires forall i :: 0 <= i < |messages| ==> messages[i] in stream
    ensures AllFrom(stream, Sequential(messages))
  {
    if messages != [] { SequentialFrom(messages[..|messages| - 1], stream); }
  }

  /** The workers can do exactly what the atomic form does. */
  lemma {:induction false} SequentialIsAtomic(certificate: string, messages: seq<StateMessage>, stream: iset<StateMessage>)
    requires WellFormed(stream) && forall i :: 0 <= i < |messages| ==> messages[i] in stream
    ensures var s := Run(Start(certificate), Sequential(messages));
            && s.row == ApplyAll(NewRow(certificate), messages) && s.taken == Elements(messages)
            && forall k :: k in s.workers ==> k < |messages|
  {
    if messages != [] {
      var n := |messages| - 1;
      var prefix, m := messages[..n], messages[n];
      SequentialIsAtomic(certificate, prefix, stream);
      ApplyAllShows(certificate, prefix, stream);
      var s := Run(Start(certificate), Sequential(prefix));
      var step := Step(n, false, true, false);
      RunThree(Start(certificate), Sequential(prefix), Arrive(n, m), step, step);
      LastElement(messages);
      hide Elements, Run, Next, Shows, WellFormed, ApplyAtomic, Observe, Classify;
      OneMessage(s, n, m, stream);
    }
  }

  lemma OneMessage(s: State, k: nat, m: StateMessage, stream: iset<StateMessage>)
    requires WellFormed(stream) && m in stream && (forall n :: n in s.taken ==> n in stream)
    requires Shows(s.row, s.taken) && Live(s.row) && k !in s.workers
    ensures var step := Step(k, false, true, false);
            var t := Next(Next(Next(s, Arrive(k, m)), step), step);
            && t.row == ApplyAtomic(s.row, m) && t.taken == s.taken + {m} && t.workers.Keys == s.workers.Keys + {k}
  {
    if Classify(m, s.row) == Applied {
      if s.taken != {} {
        var top :| IsLatest(top, s.taken) && StandsAt(s.row, top);
        NotNewerIsNotLater(stream, s.row, m, top);
      }
      assert Newer(m, s.row);
    }
    hide Shows, WellFormed, Observe;
  }

  lemma Listing(taken: set<StateMessage>) returns (l: seq<StateMessage>)
    ensures Elements(l) == taken
    decreases taken
  {
    if taken == {} {
      l := [];
    } else {
      var m :| m in taken;
      var rest := Listing(taken - {m});
      l := rest + [m];
      assert Elements(l) == Elements(rest) + {m};
    }
  }

  /** After its latest message nothing else of a set is taken over. */
  lemma {:induction false} LatestStays(row: Row, top: StateMessage, rest: seq<StateMessage>, stream: iset<StateMessage>)
    requires WellFormed(stream) && top in stream && StandsAt(row, top) && Live(row)
    requires forall i :: 0 <= i < |rest| ==> rest[i] in stream && (rest[i] == top || Before(rest[i], top))
    ensures ApplyAll(row, rest) == row
  {
    if rest != [] {
      var m := rest[|rest| - 1];
      LatestStays(row, top, rest[..|rest| - 1], stream);
      NotNewerIsNotLater(stream, row, m, top);
      assert Consistent(m, top);
    }
  }

  lemma {:induction false} ApplyAppends(row: Row, a: seq<StateMessage>, b: seq<StateMessage>)
    ensures ApplyAll(row, a + b) == ApplyAll(ApplyAll(row, a), b)
  {
    if b == [] {
      assert a + b == a;
    } else {
      ApplyAppends(row, a, b[..|b| - 1]);
      assert (a + b)[..|a + b| - 1] == a + b[..|b| - 1];
    }
  }

  /** If the latest carries no id and another message does, the latest alone and that message before it part. */
  lemma TwoOrdersPart(certificate: string, all: seq<StateMessage>, top: StateMessage, n: StateMessage, stream: iset<StateMessage>)
    requires WellFormed(stream) && (forall i :: 0 <= i < |all| ==> all[i] in stream)
    requires IsLatest(top, Elements(all)) && top.applied.None? && n in Elements(all) && n.applied.Some?
    ensures ApplyAll(NewRow(certificate), [top] + all).applied == None
    ensures ApplyAll(NewRow(certificate), [n, top] + all).applied == n.applied
    ensures Elements([top] + all) == Elements(all) == Elements([n, top] + all)
  {
    var row := NewRow(certificate);
    assert top in stream && n in stream;
    assert forall i :: 0 <= i < |all| ==> all[i] in Elements(all);
    var first, second := Observe(row, top), Observe(Observe(row, n), top);
    assert Before(n, top) && Consistent(n, top);
    OneOrTwo(row, top, n);
    hide ApplyAll, Classify, WellFormed;
    LatestStays(first, top, all, stream);
    LatestStays(second, top, all, stream);
    ApplyAppends(row, [top], all);
    ApplyAppends(row, [n, top], all);
  }

  lemma OneOrTwo(row: Row, top: StateMessage, n: StateMessage)
    requires Untouched(row) && row.lifecycle == RuntimeAuthorized
    ensures ApplyAll(row, [top]) == Observe(row, top)
    ensures Before(n, top) && Consistent(n, top) ==> ApplyAll(row, [n, top]) == Observe(Observe(row, n), top)
  {
    assert [top][..0] == [] && [n, top][..1] == [n] && [n][..0] == [];
    assert ApplyAll(row, [n]) == Observe(row, n);
  }

  /** The applied id of a row does not depend on how its messages were interleaved. */
  ghost predicate AppliedIndependent(certificate: string, events: seq<Event>, stream: iset<StateMessage>) {
    forall other :: AllFrom(stream, other) && Run(Start(certificate), other).taken == Run(Start(certificate), events).taken ==>
      Run(Start(certificate), other).row.applied == Run(Start(certificate), events).row.applied
  }

  lemma SettledAgrees(a: Row, b: Row, taken: set<StateMessage>)
    requires AppliedSettled(a, taken) && AppliedSettled(b, taken) && (LatestCarriesId(taken) || NoneCarriesId(taken))
    ensures a.applied == b.applied
  {
  }

  /** Over runs with any workers, duplicates, conflicts and reservations: the applied command id is the same in all runs that
      took the same messages if and only if the latest of them carries an id or none of them does. */
  lemma AppliedIdOrder(certificate: string, events: seq<Event>, stream: iset<StateMessage>)
    requires WellFormed(stream) && AllFrom(stream, events)
    ensures var taken := Run(Start(certificate), events).taken;
            AppliedIndependent(certificate, events, stream) <==> LatestCarriesId(taken) || NoneCarriesId(taken)
  {
    var s := Run(Start(certificate), events);
    RunKeepsInv(certificate, events, stream);
    RunSettles(certificate, events, stream);
    if LatestCarriesId(s.taken) || NoneCarriesId(s.taken) {
      forall other | AllFrom(stream, other) && Run(Start(certificate), other).taken == s.taken
        ensures Run(Start(certificate), other).row.applied == s.row.applied
      {
        RunSettles(certificate, other, stream);
        SettledAgrees(Run(Start(certificate), other).row, s.row, s.taken);
      }
    } else {
      PartingRuns(certificate, events, stream);
    }
  }

  lemma PartingRuns(certificate: string, events: seq<Event>, stream: iset<StateMessage>)
    requires WellFormed(stream) && AllFrom(stream, events)
    requires Inv(Run(Start(certificate), events), stream)
    requires var taken := Run(Start(certificate), events).taken; !LatestCarriesId(taken) && !NoneCarriesId(taken)
    ensures !AppliedIndependent(certificate, events, stream)
  {
    var s := Run(Start(certificate), events);
    var n :| n in s.taken && n.applied.Some?;
    var top :| IsLatest(top, s.taken) && StandsAt(s.row, top);
    assert top.applied.None?;
    var all := Listing(s.taken);
    forall i | 0 <= i < |all| ensures all[i] in stream { assert all[i] in Elements(all); }
    TwoOrdersPart(certificate, all, top, n, stream);
    var one, two := [top] + all, [n, top] + all;
    hide Run, WellFormed, Shows;
    SequentialIsAtomic(certificate, one, stream);
    SequentialIsAtomic(certificate, two, stream);
    SequentialFrom(one, stream);
    SequentialFrom(two, stream);
    assert Run(Start(certificate), Sequential(one)).row.applied == None;
    assert Run(Start(certificate), Sequential(two)).row.applied == n.applied;
  }
}

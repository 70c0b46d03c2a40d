/** The scheduler adapter as it is: it reads the remote revision and then writes, in two steps. What still holds, and exactly
    which step parts an ACTIVE row from the remote schedule. */
module ScheduleRaces {
  import opened Common
  import opened Schedules

  /** A row that is what was saved last. */
  predicate LatestRow(s: State, x: Row) {
    && Known(s, x) && x.revision == |s.saved|
    && (x.status == PendingSync || x.status == Active ==> x.operation == Upsert)
    && (x.status == DeletePending ==> x.operation == Delete)
  }

  predicate Saw(s: State, seen: Option<nat>) { seen.Some? ==> 1 <= seen.value <= |s.saved| }

  /** What a worker knows of its own schedule, whatever happens to the remote one. */
  predicate Knows(s: State, w: Worker) {
    match w.pc
    case Writing(x, seen) => Known(s, x) && w.asked <= x.revision && x.operation == Upsert && Saw(s, seen)
    case Erasing(x, seen) => Known(s, x) && w.asked <= x.revision && x.operation == Delete && Saw(s, seen)
    case Rewriting(x, seen) => Known(s, x) && w.asked <= x.revision && x.operation == Upsert && x.status == Active && Saw(s, seen)
    case MarkingActive(x) => Known(s, x) && w.asked <= x.revision && x.operation == Upsert
    case Deleting(x) => Known(s, x) && w.asked <= x.revision && x.operation == Delete
    case Refreshing(x) => Known(s, x) && w.asked <= x.revision && x.operation == Upsert && x.status == Active
    case Returned(None) => s.gone.Some? && w.asked <= s.gone.value
    case Returned(Some(x)) => Known(s, x) && w.asked <= x.revision && x.status == Active
    case Threw => true
    case _ => Known(s, w.pc.schedule) && w.asked <= w.pc.schedule.revision
  }

  predicate RowsKnown(s: State) {
    && (s.row.Some? ==> LatestRow(s, s.row.value))
    && (s.remote.Some? ==> RemoteOk(s, s.remote.value))
    && (s.gone.Some? ==> s.row.None? && 1 <= s.gone.value <= |s.saved|)
  }

  /** The part of the invariant that does not need the port's atomicity. */
  ghost predicate Base(s: State) {
    !s.atomic && RowsKnown(s) && forall k :: k in s.workers ==> Knows(s, s.workers[k])
  }

  lemma KnowsStays(s: State, t: State, w: Worker)
    requires s.saved <= t.saved && (s.gone.Some? ==> t.gone == s.gone) && Knows(s, w)
    ensures Knows(t, w)
  {
  }

  /** A step of worker `k` that leaves it, and everything else, in good order. */
  predicate Fine(s: State, t: State, k: nat) {
    && t.saved == s.saved && !t.atomic && (s.gone.Some? ==> t.gone == s.gone)
    && RowsKnown(t) && k in s.workers && k in t.workers && Knows(t, t.workers[k])
    && t.workers == s.workers[k := t.workers[k]]
  }

  /** The worker writes only what `u` shows, and goes on at `pc`. */
  lemma MoveIsFine(s: State, u: State, k: nat, pc: Pc)
    requires !s.atomic && k in s.workers && u == s.(row := u.row, remote := u.remote, gone := u.gone)
    requires RowsKnown(u) && Knows(u, s.workers[k].(pc := pc)) && (s.gone.Some? ==> u.gone == s.gone)
    ensures Fine(s, At(u, k, pc), k)
  {
  }

  /** A scheduler step changes nothing but the remote schedule. */
  lemma RemoteMoveIsFine(s: State, k: nat, remote: Option<Remote>, pc: Pc)
    requires Base(s) && k in s.workers && Knows(s, s.workers[k].(pc := pc))
    requires remote.Some? ==> RemoteOk(s, remote.value)
    ensures Fine(s, At(s.(remote := remote), k, pc), k)
  {
    KnowsStays(s, s.(remote := remote), s.workers[k].(pc := pc));
    hide Knows;
  }

  lemma SyncIsFine(s: State, k: nat, reply: Reply)
    requires Base(s) && k in s.workers && s.workers[k].pc.Syncing?
    ensures Fine(s, WorkStep(s, k, reply), k)
  {
    assert !s.atomic && Knows(s, s.workers[k]) && RowsKnown(s);
    hide Base, Fine;
    var t := WorkStep(s, k, reply);
    RemoteMoveIsFine(s, k, t.remote, t.workers[k].pc);
  }

  lemma WritingIsFine(s: State, k: nat, reply: Reply)
    requires Base(s) && k in s.workers && s.workers[k].pc.Writing?
    ensures Fine(s, WorkStep(s, k, reply), k)
  {
    assert !s.atomic && Knows(s, s.workers[k]) && RowsKnown(s);
    hide Base, Fine;
    var t := WorkStep(s, k, reply);
    RemoteMoveIsFine(s, k, t.remote, t.workers[k].pc);
  }

  lemma ErasingIsFine(s: State, k: nat, reply: Reply)
    requires Base(s) && k in s.workers && s.workers[k].pc.Erasing?
    ensures Fine(s, WorkStep(s, k, reply), k)
  {
    assert !s.atomic && Knows(s, s.workers[k]) && RowsKnown(s);
    hide Base, Fine;
    var t := WorkStep(s, k, reply);
    RemoteMoveIsFine(s, k, t.remote, t.workers[k].pc);
  }

  lemma RefreshIsFine(s: State, k: nat, reply: Reply)
    requires Base(s) && k in s.workers && s.workers[k].pc.Refreshing?
    ensures Fine(s, WorkStep(s, k, reply), k)
  {
    assert !s.atomic && Knows(s, s.workers[k]) && RowsKnown(s);
    hide Base, Fine;
    var t := WorkStep(s, k, reply);
    RemoteMoveIsFine(s, k, t.remote, t.workers[k].pc);
  }

  lemma RewritingIsFine(s: State, k: nat, reply: Reply)
    requires Base(s) && k in s.workers && s.workers[k].pc.Rewriting?
    ensures Fine(s, WorkStep(s, k, reply), k)
  {
    var x, seen := s.workers[k].pc.schedule, s.workers[k].pc.seen;
    assert Knows(s, s.workers[k]) && (s.remote.Some? ==> RemoteOk(s, s.remote.value));
    hide Base, Fine, RowsKnown;
    assert s.(remote := s.remote) == s;
    var done := if reply == Answered then Returned(Some(x)) else Threw;
    if seen.Some? && seen.value > x.revision {
      RemoteMoveIsFine(s, k, s.remote, Returned(Some(x)));
    } else if WriteLands(s, x, seen, reply) {
      RemoteMoveIsFine(s, k, Some(Remote(x.revision, x.content)), done);
    } else {
      RemoteMoveIsFine(s, k, s.remote, Threw);
    }
  }

  lemma MarkIsFine(s: State, k: nat, reply: Reply)
    requires Base(s) && k in s.workers && s.workers[k].pc.MarkingActive?
    ensures Fine(s, WorkStep(s, k, reply), k)
  {
    assert !s.atomic && Knows(s, s.workers[k]) && RowsKnown(s);
    hide Base, Fine;
    var t := WorkStep(s, k, reply);
    MoveIsFine(s, s.(row := t.row, remote := t.remote, gone := t.gone), k, t.workers[k].pc);
  }

  lemma DeleteIsFine(s: State, k: nat, reply: Reply)
    requires Base(s) && k in s.workers && s.workers[k].pc.Deleting?
    ensures Fine(s, WorkStep(s, k, reply), k)
  {
    assert !s.atomic && Knows(s, s.workers[k]) && RowsKnown(s);
    hide Base, Fine;
    var t := WorkStep(s, k, reply);
    MoveIsFine(s, s.(row := t.row, remote := t.remote, gone := t.gone), k, t.workers[k].pc);
  }

  lemma FailIsFine(s: State, k: nat, reply: Reply)
    requires Base(s) && k in s.workers && s.workers[k].pc.MarkingError?
    ensures Fine(s, WorkStep(s, k, reply), k)
  {
    assert !s.atomic && Knows(s, s.workers[k]) && RowsKnown(s);
    hide Base, Fine;
    var t := WorkStep(s, k, reply);
    MoveIsFine(s, s.(row := t.row, remote := t.remote, gone := t.gone), k, t.workers[k].pc);
  }

  lemma ConvergeIsFine(s: State, k: nat, reply: Reply)
    requires Base(s) && k in s.workers && s.workers[k].pc.Converging?
    ensures Fine(s, WorkStep(s, k, reply), k)
  {
    assert !s.atomic && Knows(s, s.workers[k]) && RowsKnown(s);
    hide Base, Fine;
    var t := WorkStep(s, k, reply);
    MoveIsFine(s, s.(row := t.row, remote := t.remote, gone := t.gone), k, t.workers[k].pc);
  }

  lemma RedriveIsFine(s: State, k: nat, reply: Reply)
    requires Base(s) && k in s.workers && s.workers[k].pc.Redriving?
    ensures Fine(s, WorkStep(s, k, reply), k)
  {
    assert !s.atomic && Knows(s, s.workers[k]) && RowsKnown(s);
    hide Base, Fine;
    var t := WorkStep(s, k, reply);
    MoveIsFine(s, s.(row := t.row, remote := t.remote, gone := t.gone), k, t.workers[k].pc);
  }

  lemma StepIsFine(s: State, k: nat, reply: Reply)
    requires Base(s) && k in s.workers
    ensures Fine(s, WorkStep(s, k, reply), k)
  {
    var pc := s.workers[k].pc;
    if pc.Returned? || pc.Threw? {
      assert Knows(s, s.workers[k]);
    } else {
      hide Fine, WorkStep, Base;
      if pc.Syncing? { SyncIsFine(s, k, reply); }
      else if pc.Writing? { WritingIsFine(s, k, reply); }
      else if pc.Erasing? { ErasingIsFine(s, k, reply); }
      else if pc.Refreshing? { RefreshIsFine(s, k, reply); }
      else if pc.Rewriting? { RewritingIsFine(s, k, reply); }
      else if pc.MarkingActive? { MarkIsFine(s, k, reply); }
      else if pc.Deleting? { DeleteIsFine(s, k, reply); }
      else if pc.MarkingError? { FailIsFine(s, k, reply); }
      else if pc.Converging? { ConvergeIsFine(s, k, reply); }
      else { RedriveIsFine(s, k, reply); }
    }
  }

  lemma NextKeepsBase(s: State, e: Event)
    requires Base(s)
    ensures Base(Next(s, e))
  {
    var t := Next(s, e);
    if e.Step? && e.worker in s.workers { StepIsFine(s, e.worker, e.reply); }
    forall k | k in t.workers ensures Knows(t, t.workers[k]) {
      if k in s.workers && !(e.Step? && e.worker == k) { KnowsStays(s, t, s.workers[k]); }
      hide WorkStep;
    }
    hide WorkStep, Knows;
  }

  lemma {:induction false} RunKeepsBase(events: seq<Event>)
    ensures Base(Run(New(false), events))
  {
    if events != [] {
      RunKeepsBase(events[..|events| - 1]);
      NextKeepsBase(Run(New(false), events[..|events| - 1]), events[|events| - 1]);
    }
  }

  /** Even then a normal return is an ACTIVE snapshot of the requested revision or later, or a row of such a revision is gone. */
  lemma ReturnsAreStillCurrent(events: seq<Event>, k: nat)
    requires var s := Run(New(false), events); k in s.workers && s.workers[k].pc.Returned?
    ensures var s := Run(New(false), events);
            var w := s.workers[k];
            match w.pc.result
            case Some(x) => x.status == Active && w.asked <= x.revision && Known(s, x)
            case None => s.row.None? && s.gone.Some? && w.asked <= s.gone.value
  {
    RunKeepsBase(events);
    var s := Run(New(false), events);
    assert Knows(s, s.workers[k]);
  }

  /** The row is ACTIVE and the remote schedule is exactly it. */
  predicate Coupled(s: State) {
    s.row.Some? && s.row.value.status == Active ==> s.remote == Some(Remote(s.row.value.revision, s.row.value.content))
  }

  /** The step makes the second half of a scheduler call take effect, and that is a removal, or a write of an older revision
      than the newest one. */
  predicate LateStep(s: State, e: Event) {
    && e.Step? && e.worker in s.workers
    && var pc := s.workers[e.worker].pc;
    match pc
    case Writing(x, seen) => WriteLands(s, x, seen, e.reply) && x.revision < |s.saved|
    case Rewriting(x, seen) => WriteLands(s, x, seen, e.reply) && x.revision < |s.saved|
    case Erasing(x, seen) => EraseLands(x, seen, e.reply)
    case _ => false
  }

  /** Every worker's step, every save and every reply: what parts an ACTIVE row from its remote schedule is a late step, and
      nothing else. */
  lemma LateStepsPart(s: State, e: Event)
    requires Base(s) && s.row.Some? && s.row.value.status == Active && Coupled(s)
    ensures Coupled(Next(s, e)) <==> !LateStep(s, e)
  {
  }

  /** A worker has written this newest revision and is about to mark it. */
  predicate AboutToMark(s: State, k: nat) {
    k in s.workers && s.workers[k].pc.MarkingActive? && s.workers[k].pc.schedule.revision == |s.saved|
  }

  /** The newest revision is ACTIVE, or a worker is about to mark it so. */
  predicate Confirmed(s: State) {
    (s.row.Some? && s.row.value.status == Active) || exists k :: k in s.workers && AboutToMark(s, k)
  }

  /** An ACTIVE row is coupled, and so is every row that a worker is about to mark. */
  predicate Kept(s: State) {
    Coupled(s) && forall k :: k in s.workers && AboutToMark(s, k) ==> Settled(s, s.workers[k].pc.schedule)
  }

  /** A late step lands on a revision that is ACTIVE or about to be. */
  predicate Lands(s: State, e: Event) { LateStep(s, e) && Confirmed(s) }

  lemma LandingParts(s: State, e: Event)
    requires Base(s) && Kept(s) && Lands(s, e)
    ensures !Kept(Next(s, e))
  {
    var k := e.worker;
    assert Knows(s, s.workers[k]);
    if s.row.Some? && s.row.value.status == Active {
      LateStepsPart(s, e);
    } else {
      var j :| j in s.workers && AboutToMark(s, j);
      assert Knows(s, s.workers[j]);
      OthersRemain(s, k, e.reply, j);
      LateRemote(s, e);
      hide WorkStep;
      assert AboutToMark(Next(s, e), j) && !Settled(Next(s, e), s.workers[j].pc.schedule);
    }
  }

  lemma OthersRemain(s: State, k: nat, reply: Reply, j: nat)
    requires Base(s) && k in s.workers && j in s.workers && j != k
    ensures var t := WorkStep(s, k, reply); j in t.workers && t.workers[j] == s.workers[j] && t.saved == s.saved
  {
    StepIsFine(s, k, reply);
  }

  /** After a late step the remote schedule is gone or of an older revision. */
  lemma LateRemote(s: State, e: Event)
    requires LateStep(s, e)
    ensures var t := Next(s, e); t.saved == s.saved && (t.remote.None? || t.remote.value.revision < |s.saved| || s.workers[e.worker].pc.Erasing?)
    ensures s.workers[e.worker].pc.Erasing? ==> Next(s, e).remote.None?
  {
  }

  /** The remote schedule that the newest revision asks for. */
  function Newest(s: State): Option<Remote> {
    if s.saved == [] then None else Some(Remote(|s.saved|, s.saved[|s.saved| - 1].content))
  }

  lemma SettledIsNewest(s: State, x: Row)
    requires Known(s, x) && x.revision == |s.saved|
    ensures Settled(s, x) <==> s.remote == Newest(s)
  {
  }

  predicate IsActive(s: State) { s.row.Some? && s.row.value.status == Active }

  /** The remote schedule is left alone or brought to the newest revision, and whoever is now about to mark has brought it there. */
  predicate Settles(s: State, t: State, k: nat) {
    && (t.remote == s.remote || t.remote == Newest(s)) && t.saved == s.saved
    && (AboutToMark(t, k) ==> t.remote == Newest(s))
  }

  lemma WritingSettles(s: State, k: nat, reply: Reply)
    requires Base(s) && k in s.workers && s.workers[k].pc.Writing? && !LateStep(s, Step(k, reply))
    ensures Settles(s, WorkStep(s, k, reply), k)
  {
    assert Knows(s, s.workers[k]);
    hide Base;
  }

  lemma ErasingSettles(s: State, k: nat, reply: Reply)
    requires Base(s) && k in s.workers && s.workers[k].pc.Erasing? && !LateStep(s, Step(k, reply))
    ensures Settles(s, WorkStep(s, k, reply), k)
  {
    assert Knows(s, s.workers[k]);
    hide Base;
  }

  lemma RewritingSettles(s: State, k: nat, reply: Reply)
    requires Base(s) && k in s.workers && s.workers[k].pc.Rewriting? && !LateStep(s, Step(k, reply))
    ensures Settles(s, WorkStep(s, k, reply), k)
  {
    assert Knows(s, s.workers[k]);
    hide Base;
  }

  /** No other step touches the scheduler or gets ready to mark. */
  lemma RestSettles(s: State, k: nat, reply: Reply)
    requires !s.atomic && k in s.workers
    requires !s.workers[k].pc.Writing? && !s.workers[k].pc.Erasing? && !s.workers[k].pc.Rewriting?
    requires !s.workers[k].pc.Returned? && !s.workers[k].pc.Threw?
    ensures var t := WorkStep(s, k, reply);
            t.remote == s.remote && t.saved == s.saved && k in t.workers && !t.workers[k].pc.MarkingActive?
  {
    hide CanActivate, CanPend, CanFail, CanDelete;
  }

  lemma OtherStepsSettle(s: State, k: nat, reply: Reply)
    requires Base(s) && k in s.workers && !LateStep(s, Step(k, reply))
    ensures Settles(s, WorkStep(s, k, reply), k)
  {
    var pc := s.workers[k].pc;
    if pc.Writing? { WritingSettles(s, k, reply); }
    else if pc.Erasing? { ErasingSettles(s, k, reply); }
    else if pc.Rewriting? { RewritingSettles(s, k, reply); }
    else if pc.Returned? || pc.Threw? { assert WorkStep(s, k, reply) == s; }
    else { RestSettles(s, k, reply); }
    hide WorkStep, Base, Newest, LateStep;
  }

  /** A row becomes ACTIVE only by a worker that was about to mark it. */
  lemma ActiveByMark(s: State, k: nat, reply: Reply)
    requires Base(s) && k in s.workers && IsActive(WorkStep(s, k, reply))
    ensures var t := WorkStep(s, k, reply);
            (IsActive(s) && t.row == s.row) || (AboutToMark(s, k) && t.remote == s.remote)
  {
    if s.workers[k].pc.MarkingActive? { MarkActivates(s, k, reply); } else { RestActivatesNothing(s, k, reply); }
    hide WorkStep, Base;
  }

  lemma MarkActivates(s: State, k: nat, reply: Reply)
    requires Base(s) && k in s.workers && s.workers[k].pc.MarkingActive?
    ensures var t := WorkStep(s, k, reply);
            t.remote == s.remote && (t.row == s.row || AboutToMark(s, k))
  {
    assert s.row.Some? ==> LatestRow(s, s.row.value);
    hide Base;
  }

  lemma RestActivatesNothing(s: State, k: nat, reply: Reply)
    requires k in s.workers && !s.workers[k].pc.MarkingActive?
    ensures IsActive(WorkStep(s, k, reply)) ==> WorkStep(s, k, reply).row == s.row
  {
    hide Upserted, Removed, WriteLands, EraseLands, Latest;
  }

  lemma CoupledIsNewest(s: State)
    requires Base(s)
    ensures Coupled(s) <==> (IsActive(s) ==> s.remote == Newest(s))
  {
    assert s.row.Some? ==> LatestRow(s, s.row.value);
  }

  lemma MarkIsKnown(s: State, k: nat)
    requires Base(s) && k in s.workers && AboutToMark(s, k)
    ensures Known(s, s.workers[k].pc.schedule)
    ensures Settled(s, s.workers[k].pc.schedule) <==> s.remote == Newest(s)
  {
    assert Knows(s, s.workers[k]);
    SettledIsNewest(s, s.workers[k].pc.schedule);
  }

  lemma KeptIsNewest(s: State)
    requires Base(s)
    ensures Kept(s) <==> (Confirmed(s) ==> s.remote == Newest(s))
  {
    CoupledIsNewest(s);
    forall k | k in s.workers && AboutToMark(s, k)
      ensures Settled(s, s.workers[k].pc.schedule) <==> s.remote == Newest(s)
    {
      MarkIsKnown(s, k);
    }
    hide Base, Settled, Coupled, Newest;
  }

  lemma StepKeeps(s: State, k: nat, reply: Reply)
    requires Base(s) && Kept(s) && k in s.workers && !Lands(s, Step(k, reply))
    ensures Kept(WorkStep(s, k, reply))
  {
    var t := WorkStep(s, k, reply);
    NextKeepsBase(s, Step(k, reply));
    StepIsFine(s, k, reply);
    KeptIsNewest(s);
    KeptIsNewest(t);
    if Confirmed(t) {
      StepConfirms(s, k, reply);
      if !LateStep(s, Step(k, reply)) {
        OtherStepsSettle(s, k, reply);
      } else {
        LateStaysUnconfirmed(s, k, reply);
      }
    }
    hide Base, Kept, WorkStep, Fine, LateStep;
  }

  /** What is confirmed after a step was confirmed before it, or by it. */
  lemma StepConfirms(s: State, k: nat, reply: Reply)
    requires Base(s) && k in s.workers && Confirmed(WorkStep(s, k, reply))
    ensures Confirmed(s) || AboutToMark(WorkStep(s, k, reply), k)
  {
    var t := WorkStep(s, k, reply);
    StepIsFine(s, k, reply);
    if IsActive(t) {
      ActiveByMark(s, k, reply);
    } else {
      var j :| j in t.workers && AboutToMark(t, j);
      hide Base, WorkStep, RowsKnown, Knows;
      if j != k { assert AboutToMark(s, j); }
    }
  }

  /** A late step confirms nothing. */
  lemma LateStaysUnconfirmed(s: State, k: nat, reply: Reply)
    requires Base(s) && k in s.workers && LateStep(s, Step(k, reply)) && !Confirmed(s)
    ensures !Confirmed(WorkStep(s, k, reply))
  {
    if Confirmed(WorkStep(s, k, reply)) { StepConfirms(s, k, reply); }
  }

  /** A save makes a revision that is pending and that no worker has written. */
  lemma SaveKeeps(s: State, e: Event)
    requires Base(s) && Kept(s) && !e.Step?
    ensures Kept(Next(s, e))
  {
    var t := Next(s, e);
    forall k | k in t.workers && AboutToMark(t, k) ensures Settled(t, t.workers[k].pc.schedule) {
      if k in s.workers { assert Knows(s, s.workers[k]); }
    }
  }

  /** Any step of any worker with any reply, and any save: what is kept stays kept if and only if no late step lands. */
  lemma KeptExactly(s: State, e: Event)
    requires Base(s) && Kept(s)
    ensures Kept(Next(s, e)) <==> !Lands(s, e)
  {
    if Lands(s, e) {
      LandingParts(s, e);
    } else if e.Step? {
      if e.worker in s.workers { StepKeeps(s, e.worker, e.reply); }
    } else {
      SaveKeeps(s, e);
    }
    hide Base, Kept, WorkStep, LateStep;
  }

  function Prefix(events: seq<Event>, i: nat): State
    requires i <= |events|
  {
    Run(New(false), events[..i])
  }

  predicate LandsAt(events: seq<Event>, i: nat) { i < |events| && Lands(Prefix(events, i), events[i]) }

  predicate KeptAt(events: seq<Event>, i: nat) { i <= |events| && Kept(Prefix(events, i)) }

  lemma PrefixStep(events: seq<Event>, i: nat)
    requires i < |events|
    ensures Prefix(events, i + 1) == Next(Prefix(events, i), events[i]) && Base(Prefix(events, i))
  {
    assert events[..i + 1][..i] == events[..i];
    RunKeepsBase(events[..i]);
  }

  lemma {:induction false} KeptUntil(events: seq<Event>, n: nat)
    requires n <= |events| && forall i: nat :: i < n ==> !LandsAt(events, i)
    ensures KeptAt(events, n)
  {
    if n == 0 {
      assert events[..0] == [];
    } else {
      KeptUntil(events, n - 1);
      PrefixStep(events, n - 1);
      assert !LandsAt(events, n - 1);
      KeptExactly(Prefix(events, n - 1), events[n - 1]);
      hide Kept, Lands, Base, Next, Run;
    }
  }

  /** Over every run of the adapter as it is: the remote schedule is the newest revision whenever that is ACTIVE or about to be
      marked, throughout the run, if and only if no late step lands on such a revision. */
  lemma KeptThroughout(events: seq<Event>)
    ensures (forall i: nat :: i <= |events| ==> KeptAt(events, i)) <==> (forall i: nat :: i < |events| ==> !LandsAt(events, i))
  {
    if forall i: nat :: i < |events| ==> !LandsAt(events, i) {
      forall i: nat | i <= |events| ensures KeptAt(events, i) { KeptUntil(events, i); }
    }
    if i: nat :| i < |events| && LandsAt(events, i) {
      if KeptAt(events, i) {
        PrefixStep(events, i);
        KeptExactly(Prefix(events, i), events[i]);
        assert !KeptAt(events, i + 1);
      }
    }
  }

  /** A worker marks its row ACTIVE although the remote schedule is no longer the one it wrote. */
  predicate LateMark(s: State, e: Event) {
    && e.Step? && e.worker in s.workers && s.workers[e.worker].pc.MarkingActive? && e.reply != LostBefore
    && CanActivate(s.row, s.workers[e.worker].pc.schedule.revision) && !Settled(s, s.workers[e.worker].pc.schedule)
  }

  predicate Parts(s: State, e: Event) { (IsActive(s) && LateStep(s, e)) || LateMark(s, e) }

  /** One step: an ACTIVE row and the remote schedule part when a late step hits them, or when a row is marked that a late step
      has hit before. */
  lemma PartsExactly(s: State, e: Event)
    requires Base(s) && Coupled(s)
    ensures Coupled(Next(s, e)) <==> !Parts(s, e)
  {
    if IsActive(s) {
      LateStepsPart(s, e);
      assert !LateMark(s, e);
    } else if e.Step? && e.worker in s.workers {
      ActivationParts(s, e.worker, e.reply);
    }
    hide WorkStep, LateStep;
  }

  lemma ActivationParts(s: State, k: nat, reply: Reply)
    requires Base(s) && k in s.workers && !IsActive(s)
    ensures Coupled(WorkStep(s, k, reply)) <==> !LateMark(s, Step(k, reply))
  {
    var t := WorkStep(s, k, reply);
    assert Knows(s, s.workers[k]) && (s.row.Some? ==> LatestRow(s, s.row.value));
    if IsActive(t) { ActiveByMark(s, k, reply); }
    if LateMark(s, Step(k, reply)) { assert IsActive(t) && t.remote == s.remote; }
    hide Base, Knows;
  }

  /** Such a mark needs a landing before it. */
  lemma LateMarkNeedsLanding(s: State, e: Event)
    requires Base(s) && Kept(s)
    ensures !LateMark(s, e)
  {
    if e.Step? && e.worker in s.workers && s.workers[e.worker].pc.MarkingActive? {
      assert Knows(s, s.workers[e.worker]);
    }
  }

  lemma LateMarkIsPreceded(events: seq<Event>, i: nat)
    requires i < |events| && LateMark(Prefix(events, i), events[i])
    ensures exists j: nat :: j < i && LandsAt(events, j)
  {
    if forall j: nat :: j < i ==> !LandsAt(events, j) {
      KeptUntil(events, i);
      RunKeepsBase(events[..i]);
      LateMarkNeedsLanding(Prefix(events, i), events[i]);
    }
  }

  predicate CoupledAt(events: seq<Event>, i: nat) { i <= |events| && Coupled(Prefix(events, i)) }

  predicate PartsAt(events: seq<Event>, i: nat) { i < |events| && Parts(Prefix(events, i), events[i]) }

  lemma {:induction false} CoupledUntil(events: seq<Event>, n: nat)
    requires n <= |events| && forall i: nat :: i < n ==> !PartsAt(events, i)
    ensures CoupledAt(events, n)
  {
    if n == 0 {
      assert events[..0] == [];
    } else {
      CoupledUntil(events, n - 1);
      PrefixStep(events, n - 1);
      assert !PartsAt(events, n - 1);
      PartsExactly(Prefix(events, n - 1), events[n - 1]);
      hide Coupled, Parts, Base, Next, Run;
    }
  }

  /** Over every run of the adapter as it is: an ACTIVE row always has the remote schedule at its revision and content, throughout
      the run, if and only if no late step hits an ACTIVE row and no row is marked ACTIVE after a late step has hit it. */
  lemma CoupledThroughout(events: seq<Event>)
    ensures (forall i: nat :: i <= |events| ==> CoupledAt(events, i)) <==> (forall i: nat :: i < |events| ==> !PartsAt(events, i))
  {
    if forall i: nat :: i < |events| ==> !PartsAt(events, i) {
      forall i: nat | i <= |events| ensures CoupledAt(events, i) { CoupledUntil(events, i); }
    }
    if i: nat :| i < |events| && PartsAt(events, i) {
      if CoupledAt(events, i) {
        PrefixStep(events, i);
        PartsExactly(Prefix(events, i), events[i]);
        assert !CoupledAt(events, i + 1);
      }
    }
  }

  lemma {:induction false} RunAppend(s: State, a: seq<Event>, b: seq<Event>)
    ensures Run(s, a + b) == Run(Run(s, a), b)
  {
    if b == [] {
      assert a + b == a;
    } else {
      var n := |b| - 1;
      RunAppend(s, a, b[..n]);
      assert (a + b)[..|a + b| - 1] == a + b[..n];
    }
  }

  lemma RunThree(s: State, a: Event, b: Event, c: Event)
    ensures Run(s, [a, b, c]) == Next(Next(Next(s, a), b), c)
  {
    assert [a, b, c][..2] == [a, b] && [a, b][..1] == [a] && [a][..0] == [];
    assert Run(s, [a]) == Next(s, a);
    assert Run(s, [a, b]) == Next(Next(s, a), b);
  }

  /** Revision 1 was written; a worker of revision 2, an upsert or a deletion, has read the scheduler and not yet acted. */
  function Waiting(a: Content, b: Content, op: Operation): State {
    var second := NewRow(b, op, 2);
    State(false, Some(second), Some(Remote(1, a)), [Saved(a, Upsert), Saved(b, op)], None,
          map[0 := Worker(1, MarkingActive(NewRow(a, Upsert, 1))),
              1 := Worker(2, if op == Delete then Erasing(second, Some(1)) else Writing(second, Some(1)))])
  }

  const FIRST: seq<Event> := [Begin(0), Step(0, Answered), Step(0, Answered)]

  function Opening(a: Content, b: Content, op: Operation): seq<Event> {
    [Create(a)] + FIRST + [Save(b, op, 1), Begin(1), Step(1, Answered)]
  }

  lemma RunOne(s: State, e: Event)
    ensures Run(s, [e]) == Next(s, e)
  {
    assert [e][..0] == [];
    assert Run(s, []) == s;
  }

  lemma ReachesFirst(a: Content)
    ensures Run(New(false), [Create(a)] + FIRST) ==
            State(false, Some(NewRow(a, Upsert, 1)), Some(Remote(1, a)), [Saved(a, Upsert)], None,
                  map[0 := Worker(1, MarkingActive(NewRow(a, Upsert, 1)))])
  {
    RunOne(New(false), Create(a));
    RunAppend(New(false), [Create(a)], FIRST);
    RunThree(Run(New(false), [Create(a)]), FIRST[0], FIRST[1], FIRST[2]);
    assert FIRST == [FIRST[0], FIRST[1], FIRST[2]];
    FirstWritten(a);
    hide Run, Next;
  }

  lemma ReachesWaiting(a: Content, b: Content, op: Operation)
    ensures Run(New(false), Opening(a, b, op)) == Waiting(a, b, op)
  {
    ReachesFirst(a);
    var s := Run(New(false), [Create(a)] + FIRST);
    RunAppend(New(false), [Create(a)] + FIRST, [Save(b, op, 1), Begin(1), Step(1, Answered)]);
    RunThree(s, Save(b, op, 1), Begin(1), Step(1, Answered));
    hide Run;
  }

  lemma FirstWritten(a: Content)
    ensures Next(Next(Next(Next(New(false), Create(a)), FIRST[0]), FIRST[1]), FIRST[2]) ==
            State(false, Some(NewRow(a, Upsert, 1)), Some(Remote(1, a)), [Saved(a, Upsert)], None,
                  map[0 := Worker(1, MarkingActive(NewRow(a, Upsert, 1)))])
  {
  }

  /** Revision 3 is saved and written by a worker of its own, which is about to mark it. */
  function Overtaking(c: Content): seq<Event> { [Save(c, Upsert, 2), Begin(2), Step(2, Answered)] }

  function Written(a: Content, b: Content, op: Operation, c: Content): State {
    var s := Waiting(a, b, op);
    s.(row := Some(NewRow(c, Upsert, 3)), remote := Some(Remote(3, c)), saved := s.saved + [Saved(c, Upsert)],
       workers := s.workers[2 := Worker(3, MarkingActive(NewRow(c, Upsert, 3)))])
  }

  lemma ReachesWritten(a: Content, b: Content, op: Operation, c: Content)
    ensures Run(New(false), Opening(a, b, op) + Overtaking(c) + [Step(2, Answered)]) == Written(a, b, op, c)
  {
    ReachesWaiting(a, b, op);
    var s := Waiting(a, b, op);
    RunAppend(New(false), Opening(a, b, op), Overtaking(c));
    RunThree(s, Save(c, Upsert, 2), Begin(2), Step(2, Answered));
    RunAppend(New(false), Opening(a, b, op) + Overtaking(c), [Step(2, Answered)]);
    RunOne(Run(s, Overtaking(c)), Step(2, Answered));
    OvertakingWrites(a, b, op, c);
    hide Run;
  }

  lemma OvertakingWrites(a: Content, b: Content, op: Operation, c: Content)
    ensures var s := Waiting(a, b, op);
            Next(Next(Next(Next(s, Save(c, Upsert, 2)), Begin(2)), Step(2, Answered)), Step(2, Answered)) == Written(a, b, op, c)
  {
  }

  lemma TwoMore(a: Content, b: Content, op: Operation, c: Content, first: Event, second: Event)
    ensures Run(New(false), Opening(a, b, op) + Overtaking(c) + [Step(2, Answered)] + [first] + [second]) == Next(Next(Written(a, b, op, c), first), second)
  {
    ReachesWritten(a, b, op, c);
    var events := Opening(a, b, op) + Overtaking(c) + [Step(2, Answered)];
    RunAppend(New(false), events, [first]);
    RunOne(Written(a, b, op, c), first);
    RunAppend(New(false), events + [first], [second]);
    RunOne(Next(Written(a, b, op, c), first), second);
    hide Run;
  }

  /** A run in which the write of revision 2 lands after revision 3 became ACTIVE. */
  lemma AdapterCanFallBehind(a: Content, b: Content, c: Content)
    ensures exists events :: var s := Run(New(false), events);
              s.row == Some(Row(c, Active, Upsert, 3)) && s.remote == Some(Remote(2, b))
  {
    TwoMore(a, b, Upsert, c, Step(2, Answered), Step(1, Answered));
    hide Run;
  }

  /** A run in which the removal for a deletion at revision 2, saved over by revision 3, lands after that became ACTIVE. */
  lemma AdapterCanErase(a: Content, b: Content, c: Content)
    ensures exists events :: var s := Run(New(false), events);
              s.row == Some(Row(c, Active, Upsert, 3)) && s.remote == None
  {
    TwoMore(a, b, Delete, c, Step(2, Answered), Step(1, Answered));
    hide Run;
  }

  /** A run in which the late step lands just before the mark: no ACTIVE row is hit, and the mark itself parts row and scheduler. */
  lemma LandingBeforeTheMark(a: Content, b: Content, c: Content)
    ensures exists events, last :: var s := Run(New(false), events);
              && !IsActive(s) && !LateStep(s, last) && LateMark(s, last)
              && Next(s, last).row == Some(Row(c, Active, Upsert, 3)) && Next(s, last).remote == Some(Remote(2, b))
  {
    ReachesWritten(a, b, Upsert, c);
    var events := Opening(a, b, Upsert) + Overtaking(c) + [Step(2, Answered)];
    RunAppend(New(false), events, [Step(1, Answered)]);
    RunOne(Written(a, b, Upsert, c), Step(1, Answered));
    var s := Run(New(false), events + [Step(1, Answered)]);
    assert s == Next(Written(a, b, Upsert, c), Step(1, Answered));
    hide Run;
    assert s.row == Some(NewRow(c, Upsert, 3)) && s.remote == Some(Remote(2, b)) && s.workers[2].pc == MarkingActive(NewRow(c, Upsert, 3));
    assert LateMark(s, Step(2, Answered));
  }
}

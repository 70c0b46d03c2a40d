/** One schedule: its row with a revision compare-and-set, the remote scheduler, and any number of workers in
    `syncSchedule`, `convergeLatestSchedule` and `redriveSchedule`. */
module Schedules {
  import opened Common
  import opened Led

  /** What a save may set, apart from status and revision. */
  datatype Content = Content(target: string, certificate: string, enabled: bool, plan: string, patch: Patch)

  datatype Sync = PendingSync | Active | DeletePending | Error

  datatype Operation = Upsert | Delete

  datatype Row = Row(content: Content, status: Sync, operation: Operation, revision: nat)

  datatype Remote = Remote(revision: nat, content: Content)

  datatype Saved = Saved(content: Content, operation: Operation)

  /** Where a worker is. `Writing`, `Erasing` and `Rewriting` only occur when the scheduler's read and write are two steps; then
      creating a schedule that exists, or updating one that does not, fails. */
  datatype Pc =
    | Syncing(schedule: Row)
    | Writing(schedule: Row, seen: Option<nat>)
    | Erasing(schedule: Row, seen: Option<nat>)
    | MarkingActive(schedule: Row)
    | Deleting(schedule: Row)
    | MarkingError(schedule: Row)
    | Converging(schedule: Row)
    | Redriving(schedule: Row)
    | Refreshing(schedule: Row)
    | Rewriting(schedule: Row, seen: Option<nat>)
    | Returned(result: Option<Row>)
    | Threw

  /** `asked` is the revision that the outermost call was made with. */
  datatype Worker = Worker(asked: nat, pc: Pc)

  /** `saved` is history: what was saved at revision 1, 2, and so on. `gone` is history: the revision that was deleted.
      `atomic` says whether the scheduler compares and writes in one step, as its port promises. */
  datatype State = State(atomic: bool, row: Option<Row>, remote: Option<Remote>, saved: seq<Saved>, gone: Option<nat>, workers: map<nat, Worker>)

  datatype Reply = Answered | LostBefore | LostAfter

  datatype Event =
    | Create(content: Content)
    | Save(content: Content, operation: Operation, expected: nat)
    | Begin(worker: nat)
    | Step(worker: nat, reply: Reply)

  function PendingStatus(op: Operation): Sync { if op == Delete then DeletePending else PendingSync }

  function NewRow(content: Content, op: Operation, revision: nat): Row { Row(content, PendingStatus(op), op, revision) }

  /** The conditions of the five repository writes. */
  predicate CanSave(row: Option<Row>, expected: nat) { row.Some? && row.value.revision == expected }

  predicate CanActivate(row: Option<Row>, revision: nat) {
    row.Some? && row.value.revision == revision && row.value.status == PendingSync && row.value.operation == Upsert
  }

  predicate CanPend(row: Option<Row>, revision: nat, op: Operation) {
    row.Some? && row.value.revision == revision && row.value.status == Error && row.value.operation == op
  }

  predicate CanFail(row: Option<Row>, revision: nat) {
    row.Some? && row.value.revision == revision && (row.value.status == PendingSync || row.value.status == DeletePending)
  }

  predicate CanDelete(row: Option<Row>, revision: nat) {
    row.Some? && row.value.revision == revision && row.value.status == DeletePending && row.value.operation == Delete
  }

  function SetStatus(row: Option<Row>, status: Sync): Option<Row>
    requires row.Some?
  {
    Some(row.value.(status := status))
  }

  /** `upsert` and `remove`: a newer remote schedule is left alone. */
  function Upserted(remote: Option<Remote>, x: Row): Option<Remote> {
    if remote.Some? && remote.value.revision > x.revision then remote else Some(Remote(x.revision, x.content))
  }

  function Removed(remote: Option<Remote>, x: Row): Option<Remote> {
    if remote.None? || remote.value.revision > x.revision then remote else None
  }

  function Seen(remote: Option<Remote>): Option<nat> { if remote.Some? then Some(remote.value.revision) else None }

  function At(s: State, k: nat, pc: Pc): State
    requires k in s.workers
  {
    s.(workers := s.workers[k := s.workers[k].(pc := pc)])
  }

  /** A remote scheduler call in one step. */
  function SchedulerStep(s: State, k: nat, x: Row, reply: Reply): State
    requires k in s.workers
  {
    if reply == LostBefore then At(s, k, MarkingError(x))
    else
      var done := if x.operation == Delete then Deleting(x) else MarkingActive(x);
      var remote := if x.operation == Delete then Removed(s.remote, x) else Upserted(s.remote, x);
      At(s.(remote := remote), k, if reply == Answered then done else MarkingError(x))
  }

  /** The second of two steps writes unless a newer schedule was seen; and it takes effect unless the call fails before, or the
      scheduler refuses to create what exists or to update what does not. */
  predicate WriteLands(s: State, x: Row, seen: Option<nat>, reply: Reply) {
    (seen.Some? ==> seen.value <= x.revision) && reply != LostBefore && seen.Some? == s.remote.Some?
  }

  predicate EraseLands(x: Row, seen: Option<nat>, reply: Reply) {
    seen.Some? && seen.value <= x.revision && reply != LostBefore
  }

  /** What `convergeLatestSchedule` does with the row it reads. */
  function Latest(row: Option<Row>, stale: Row): Pc {
    if row.None? || row.value.revision <= stale.revision then Threw
    else if row.value.status == PendingSync || row.value.status == DeletePending then Syncing(row.value)
    else if row.value.status == Error then Redriving(row.value)
    else Refreshing(row.value)
  }

  function WorkStep(s: State, k: nat, reply: Reply): State
    requires k in s.workers
  {
    match s.workers[k].pc
    case Syncing(x) =>
      if s.atomic then SchedulerStep(s, k, x, reply)
      else if reply != Answered then At(s, k, MarkingError(x))
      else At(s, k, if x.operation == Delete then Erasing(x, Seen(s.remote)) else Writing(x, Seen(s.remote)))
    case Writing(x, seen) =>
      if seen.Some? && seen.value > x.revision then At(s, k, MarkingActive(x))
      else if !WriteLands(s, x, seen, reply) then At(s, k, MarkingError(x))
      else At(s.(remote := Some(Remote(x.revision, x.content))), k, if reply == Answered then MarkingActive(x) else MarkingError(x))
    case Erasing(x, seen) =>
      if seen.None? || seen.value > x.revision then At(s, k, Deleting(x))
      else if !EraseLands(x, seen, reply) then At(s, k, MarkingError(x))
      else At(s.(remote := None), k, if reply == Answered then Deleting(x) else MarkingError(x))
    case MarkingActive(x) =>
      if reply == LostBefore then At(s, k, MarkingError(x))
      else if !CanActivate(s.row, x.revision) then At(s, k, if reply == Answered then Converging(x) else MarkingError(x))
      else
        var t := s.(row := SetStatus(s.row, Active));
        At(t, k, if reply == Answered then Returned(t.row) else MarkingError(x))
    case Deleting(x) =>
      if reply == LostBefore then At(s, k, Threw)
      else if !CanDelete(s.row, x.revision) then At(s, k, if reply == Answered then Converging(x) else Threw)
      else At(s.(row := None, gone := Some(x.revision)), k, if reply == Answered then Returned(None) else Threw)
    case MarkingError(x) =>
      if reply == LostBefore || !CanFail(s.row, x.revision) then At(s, k, Threw)
      else At(s.(row := SetStatus(s.row, Error)), k, Threw)
    case Converging(x) => At(s, k, if reply == Answered then Latest(s.row, x) else Threw)
    case Redriving(x) =>
      if reply == LostBefore || !CanPend(s.row, x.revision, x.operation) then At(s, k, Threw)
      else
        var t := s.(row := SetStatus(s.row, PendingStatus(x.operation)));
        At(t, k, if reply == Answered then Syncing(t.row.value) else Threw)
    case Refreshing(x) =>
      if !s.atomic then At(s, k, if reply == Answered then Rewriting(x, Seen(s.remote)) else Threw)
      else if reply == LostBefore then At(s, k, Threw)
      else At(s.(remote := Upserted(s.remote, x)), k, if reply == Answered then Returned(Some(x)) else Threw)
    case Rewriting(x, seen) =>
      if seen.Some? && seen.value > x.revision then At(s, k, Returned(Some(x)))
      else if !WriteLands(s, x, seen, reply) then At(s, k, Threw)
      else At(s.(remote := Some(Remote(x.revision, x.content))), k, if reply == Answered then Returned(Some(x)) else Threw)
    case Returned(_) => s
    case Threw => s
  }

  /** A call starts with the row it has just saved, or just read. */
  function Start(row: Row): Pc {
    if row.status == Error then Redriving(row) else Syncing(row)
  }

  function Next(s: State, e: Event): State {
    match e
    case Create(content) =>
      if s.saved != [] then s else s.(row := Some(NewRow(content, Upsert, 1)), saved := [Saved(content, Upsert)])
    case Save(content, op, expected) =>
      if !CanSave(s.row, expected) then s
      else s.(row := Some(NewRow(content, op, expected + 1)), saved := s.saved + [Saved(content, op)])
    case Begin(k) =>
      if k in s.workers || s.row.None? || s.row.value.status == Active then s
      else s.(workers := s.workers[k := Worker(s.row.value.revision, Start(s.row.value))])
    case Step(k, reply) => if k in s.workers then WorkStep(s, k, reply) else s
  }

  function Run(s: State, events: seq<Event>): State {
    if events == [] then s else Next(Run(s, events[..|events| - 1]), events[|events| - 1])
  }

  function New(atomic: bool): State { State(atomic, None, None, [], None, map[]) }

  /** A snapshot is what was saved at its revision. */
  predicate Known(s: State, x: Row) {
    1 <= x.revision <= |s.saved| && s.saved[x.revision - 1] == Saved(x.content, x.operation)
  }

  /** As long as no newer revision exists, the remote schedule is exactly this one. */
  predicate Settled(s: State, x: Row) {
    x.revision == |s.saved| ==> s.remote == Some(Remote(x.revision, x.content))
  }

  predicate RowOk(s: State, x: Row) {
    && Known(s, x) && x.revision == |s.saved|
    && (x.status == PendingSync || x.status == Active ==> x.operation == Upsert)
    && (x.status == DeletePending ==> x.operation == Delete)
    && (x.status == Active ==> Settled(s, x))
  }

  predicate RemoteOk(s: State, r: Remote) {
    1 <= r.revision <= |s.saved| && s.saved[r.revision - 1] == Saved(r.content, Upsert)
  }

  /** What a worker relies on and, in the end, returns. */
  predicate WorkerOk(s: State, w: Worker) {
    match w.pc
    case MarkingActive(x) => Known(s, x) && w.asked <= x.revision && x.operation == Upsert && Settled(s, x)
    case Deleting(x) => Known(s, x) && w.asked <= x.revision && x.operation == Delete
    case Refreshing(x) => Known(s, x) && w.asked <= x.revision && x.operation == Upsert && x.status == Active
    case Writing(_, _) => false
    case Erasing(_, _) => false
    case Rewriting(_, _) => false
    case Returned(None) => s.gone.Some? && w.asked <= s.gone.value
    case Returned(Some(x)) => Known(s, x) && w.asked <= x.revision && x.status == Active
    case Threw => true
    case _ => Known(s, w.pc.schedule) && w.asked <= w.pc.schedule.revision
  }

  predicate RowsOk(s: State) {
    && s.atomic
    && (s.row.Some? ==> RowOk(s, s.row.value))
    && (s.remote.Some? ==> RemoteOk(s, s.remote.value))
    && (s.gone.Some? ==> s.row.None? && 1 <= s.gone.value <= |s.saved|)
  }

  ghost predicate Inv(s: State) {
    RowsOk(s) && forall k :: k in s.workers ==> WorkerOk(s, s.workers[k])
  }

  /** What one step leaves of the history and of what is settled. */
  ghost predicate Follows(s: State, t: State) {
    && s.saved <= t.saved && t.atomic == s.atomic
    && (s.gone.Some? ==> t.gone == s.gone)
    && forall x: Row :: Known(s, x) && x.operation == Upsert && Settled(s, x) ==> Settled(t, x)
  }

  lemma FollowsKeepsWorker(s: State, t: State, w: Worker)
    requires Follows(s, t) && WorkerOk(s, w)
    ensures WorkerOk(t, w)
  {
    assert forall x: Row :: Known(s, x) ==> Known(t, x);
  }

  lemma SameRemoteFollows(s: State, t: State)
    requires t.saved == s.saved && t.remote == s.remote && t.atomic == s.atomic && (s.gone.Some? ==> t.gone == s.gone)
    ensures Follows(s, t)
  {
  }

  lemma FollowsAt(s: State, t: State, k: nat, pc: Pc)
    requires Follows(s, t) && k in t.workers
    ensures Follows(s, At(t, k, pc))
  {
    assert forall x: Row :: Settled(t, x) ==> Settled(At(t, k, pc), x);
  }

  /** A remote write of a known schedule spoils nothing that is settled. */
  lemma RemoteWriteFollows(s: State, x: Row)
    requires Inv(s) && Known(s, x)
    ensures x.operation == Upsert ==> Follows(s, s.(remote := Upserted(s.remote, x)))
    ensures x.operation == Upsert ==> Upserted(s.remote, x).Some? && RemoteOk(s, Upserted(s.remote, x).value)
    ensures x.operation == Upsert ==> Settled(s.(remote := Upserted(s.remote, x)), x)
    ensures x.operation == Delete ==> Follows(s, s.(remote := Removed(s.remote, x)))
  {
  }

  /** A step of worker `k` that keeps everything that others rely on, and leaves `k` in a good place. */
  ghost predicate GoodStep(s: State, t: State, k: nat) {
    && Follows(s, t) && RowsOk(t) && k in s.workers && k in t.workers
    && WorkerOk(t, t.workers[k]) && t.workers[k].asked == s.workers[k].asked
    && t.workers == s.workers[k := t.workers[k]]
  }

  /** The worker writes nothing, or only what `u` shows. */
  lemma MoveIsGood(s: State, u: State, k: nat, pc: Pc)
    requires k in s.workers && u.workers == s.workers && Follows(s, u) && RowsOk(u) && WorkerOk(u, s.workers[k].(pc := pc))
    ensures GoodStep(s, At(u, k, pc), k)
  {
    FollowsAt(s, u, k, pc);
    var t := At(u, k, pc);
    assert forall x: Row :: (Known(u, x) <==> Known(t, x)) && (Settled(u, x) <==> Settled(t, x));
  }

  /** The scheduler call of `syncSchedule`. */
  lemma SyncIsGood(s: State, k: nat, reply: Reply)
    requires Inv(s) && k in s.workers && s.workers[k].pc.Syncing?
    ensures GoodStep(s, WorkStep(s, k, reply), k)
  {
    var w, x := s.workers[k], s.workers[k].pc.schedule;
    assert WorkerOk(s, w) && RowsOk(s);
    RemoteWriteFollows(s, x);
    SameRemoteFollows(s, s);
    var remote := if x.operation == Delete then Removed(s.remote, x) else Upserted(s.remote, x);
    var u := if reply == LostBefore then s else s.(remote := remote);
    WriteKeepsRows(s, remote, x);
    hide Inv, Follows, RowsOk;
    MoveIsGood(s, u, k, WorkStep(s, k, reply).workers[k].pc);
  }

  lemma ActivateIsGood(s: State, k: nat, reply: Reply)
    requires Inv(s) && k in s.workers && s.workers[k].pc.MarkingActive?
    ensures GoodStep(s, WorkStep(s, k, reply), k)
  {
    var w, x := s.workers[k], s.workers[k].pc.schedule;
    assert WorkerOk(s, w) && RowsOk(s);
    var u := s.(row := WorkStep(s, k, reply).row);
    SameRemoteFollows(s, s);
    SameRemoteFollows(s, u);
    hide Inv, Follows, GoodStep;
    MoveIsGood(s, u, k, WorkStep(s, k, reply).workers[k].pc);
  }

  lemma DeleteIsGood(s: State, k: nat, reply: Reply)
    requires Inv(s) && k in s.workers && s.workers[k].pc.Deleting?
    ensures GoodStep(s, WorkStep(s, k, reply), k)
  {
    var w, x := s.workers[k], s.workers[k].pc.schedule;
    assert WorkerOk(s, w) && RowsOk(s);
    var t := WorkStep(s, k, reply);
    var u := s.(row := t.row, gone := t.gone);
    SameRemoteFollows(s, u);
    hide Inv, Follows, GoodStep;
    MoveIsGood(s, u, k, t.workers[k].pc);
  }

  lemma FailIsGood(s: State, k: nat, reply: Reply)
    requires Inv(s) && k in s.workers && s.workers[k].pc.MarkingError?
    ensures GoodStep(s, WorkStep(s, k, reply), k)
  {
    var w, x := s.workers[k], s.workers[k].pc.schedule;
    assert WorkerOk(s, w) && RowsOk(s);
    var u := s.(row := WorkStep(s, k, reply).row);
    SameRemoteFollows(s, u);
    hide Inv, Follows, GoodStep;
    MoveIsGood(s, u, k, Threw);
  }

  lemma ConvergeIsGood(s: State, k: nat, reply: Reply)
    requires Inv(s) && k in s.workers && s.workers[k].pc.Converging?
    ensures GoodStep(s, WorkStep(s, k, reply), k)
  {
    var w, x := s.workers[k], s.workers[k].pc.schedule;
    assert WorkerOk(s, w) && RowsOk(s);
    SameRemoteFollows(s, s);
    hide Inv, Follows, GoodStep;
    MoveIsGood(s, s, k, WorkStep(s, k, reply).workers[k].pc);
  }

  lemma RedriveIsGood(s: State, k: nat, reply: Reply)
    requires Inv(s) && k in s.workers && s.workers[k].pc.Redriving?
    ensures GoodStep(s, WorkStep(s, k, reply), k)
  {
    var w, x := s.workers[k], s.workers[k].pc.schedule;
    assert WorkerOk(s, w) && RowsOk(s);
    var u := s.(row := WorkStep(s, k, reply).row);
    SameRemoteFollows(s, u);
    hide Inv, Follows, GoodStep;
    MoveIsGood(s, u, k, WorkStep(s, k, reply).workers[k].pc);
  }

  lemma RefreshIsGood(s: State, k: nat, reply: Reply)
    requires Inv(s) && k in s.workers && s.workers[k].pc.Refreshing?
    ensures GoodStep(s, WorkStep(s, k, reply), k)
  {
    var w, x := s.workers[k], s.workers[k].pc.schedule;
    assert WorkerOk(s, w) && RowsOk(s);
    RemoteWriteFollows(s, x);
    SameRemoteFollows(s, s);
    WriteKeepsRows(s, Upserted(s.remote, x), x);
    var u := if reply == LostBefore then s else s.(remote := Upserted(s.remote, x));
    hide Inv, Follows, RowsOk;
    MoveIsGood(s, u, k, WorkStep(s, k, reply).workers[k].pc);
  }

  /** A remote write of a known schedule keeps row and remote in order. */
  lemma WriteKeepsRows(s: State, remote: Option<Remote>, x: Row)
    requires Inv(s) && Known(s, x)
    requires remote == if x.operation == Delete then Removed(s.remote, x) else Upserted(s.remote, x)
    ensures RowsOk(s) && RowsOk(s.(remote := remote))
  {
    RemoteWriteFollows(s, x);
    assert forall y: Row :: Known(s, y) ==> Known(s.(remote := remote), y);
  }

  lemma WorkIsGood(s: State, k: nat, reply: Reply)
    requires Inv(s) && k in s.workers && !s.workers[k].pc.Returned? && !s.workers[k].pc.Threw?
    ensures GoodStep(s, WorkStep(s, k, reply), k)
  {
    var pc := s.workers[k].pc;
    assert WorkerOk(s, s.workers[k]);
    hide GoodStep, WorkStep, Inv;
    if pc.Syncing? { SyncIsGood(s, k, reply); }
    else if pc.MarkingActive? { ActivateIsGood(s, k, reply); }
    else if pc.Deleting? { DeleteIsGood(s, k, reply); }
    else if pc.MarkingError? { FailIsGood(s, k, reply); }
    else if pc.Converging? { ConvergeIsGood(s, k, reply); }
    else if pc.Redriving? { RedriveIsGood(s, k, reply); }
    else { RefreshIsGood(s, k, reply); }
  }

  lemma WorkKeepsInv(s: State, k: nat, reply: Reply)
    requires Inv(s) && k in s.workers
    ensures Inv(WorkStep(s, k, reply)) && Follows(s, WorkStep(s, k, reply))
  {
    var t := WorkStep(s, k, reply);
    if s.workers[k].pc.Returned? || s.workers[k].pc.Threw? {
      SameRemoteFollows(s, s);
    } else {
      WorkIsGood(s, k, reply);
      hide WorkStep;
      forall j | j in t.workers ensures WorkerOk(t, t.workers[j]) {
        if j != k { FollowsKeepsWorker(s, t, s.workers[j]); }
      }
    }
  }

  lemma NextFollows(s: State, e: Event)
    requires Inv(s)
    ensures Follows(s, Next(s, e))
  {
    match e
    case Step(k, reply) =>
      if k in s.workers { WorkKeepsInv(s, k, reply); } else { SameRemoteFollows(s, s); }
      hide Follows, Inv, WorkStep;
    case Begin(_) => SameRemoteFollows(s, Next(s, e));
    case Create(_) =>
    case Save(_, _, _) =>
  }

  lemma NextKeepsInv(s: State, e: Event)
    requires Inv(s)
    ensures Inv(Next(s, e))
  {
    match e
    case Step(k, reply) => if k in s.workers { WorkKeepsInv(s, k, reply); }
    case _ =>
      NextFollows(s, e);
      forall j | j in s.workers ensures WorkerOk(Next(s, e), s.workers[j]) {
        FollowsKeepsWorker(s, Next(s, e), s.workers[j]);
      }
  }

  lemma {:induction false} RunKeepsInv(events: seq<Event>)
    ensures Inv(Run(New(true), events))
  {
    if events != [] {
      RunKeepsInv(events[..|events| - 1]);
      NextKeepsInv(Run(New(true), events[..|events| - 1]), events[|events| - 1]);
    }
  }

  /** With any number of workers, stale or not, and lost answers anywhere: a row that is ACTIVE at revision r has a remote
      schedule at exactly revision r, with the content that was saved at r. */
  lemma ActiveIsRemote(events: seq<Event>)
    requires var s := Run(New(true), events); s.row.Some? && s.row.value.status == Active
    ensures var s := Run(New(true), events);
            var r := s.row.value.revision;
            && s.remote == Some(Remote(r, s.row.value.content)) && r == |s.saved| && 1 <= r
            && s.saved[r - 1] == Saved(s.row.value.content, Upsert)
  {
    RunKeepsInv(events);
  }

  /** A call that returns normally has an ACTIVE snapshot of a revision not below the one it was asked for, or a row of
      such a revision was deleted. */
  lemma ReturnsAreCurrent(events: seq<Event>, k: nat)
    requires var s := Run(New(true), events); k in s.workers && s.workers[k].pc.Returned?
    ensures var s := Run(New(true), events);
            var w := s.workers[k];
            match w.pc.result
            case Some(x) => x.status == Active && w.asked <= x.revision && Known(s, x)
            case None => s.row.None? && s.gone.Some? && w.asked <= s.gone.value
  {
    RunKeepsInv(events);
    var s := Run(New(true), events);
    assert WorkerOk(s, s.workers[k]);
  }

  /** A worker is about to bring the current row to the scheduler; or it has just found that its own revision is not the newest. */
  predicate Serves(s: State, k: nat) {
    && k in s.workers && s.row.Some?
    && var x, pc := s.row.value, s.workers[k].pc;
    || (pc == Syncing(x) && x.status == PendingStatus(x.operation))
    || (pc == Redriving(x) && x.status == Error)
    || (pc == Refreshing(x) && x.status == Active)
    || (pc.Converging? && pc.schedule.revision < x.revision)
  }

  /** `n` answered steps of one worker with nobody in between. */
  function Drive(s: State, k: nat, n: nat): State
    requires k in s.workers
    ensures k in Drive(s, k, n).workers
  {
    if n == 0 then s else WorkStep(Drive(s, k, n - 1), k, Answered)
  }

  /** The worker has returned: an upsert is ACTIVE with the remote schedule at its revision and content, a deletion has removed row
      and remote schedule. */
  predicate Served(s: State, k: nat, x: Row) {
    && k in s.workers
    && if x.operation == Upsert
       then s.workers[k].pc == Returned(Some(x.(status := Active))) && s.row == Some(x.(status := Active)) && s.remote == Some(Remote(x.revision, x.content))
       else s.workers[k].pc == Returned(None) && s.row.None? && s.remote.None?
  }

  lemma SyncServes(s: State, k: nat)
    requires Inv(s) && k in s.workers && s.row.Some? && s.workers[k].pc == Syncing(s.row.value) && s.row.value.status == PendingStatus(s.row.value.operation)
    ensures Served(Drive(s, k, 2), k, s.row.value)
  {
    var t := WorkStep(s, k, Answered);
    assert Drive(s, k, 0) == s;
    assert Drive(s, k, 1) == t;
  }

  lemma RedriveServes(s: State, k: nat)
    requires Inv(s) && k in s.workers && s.row.Some? && s.workers[k].pc == Redriving(s.row.value) && s.row.value.status == Error
    ensures Served(Drive(s, k, 3), k, s.row.value)
  {
    var t := WorkStep(s, k, Answered);
    assert Drive(s, k, 1) == t by { assert Drive(s, k, 0) == s; }
    RedriveMarks(s, k);
    NextKeepsInv(s, Step(k, Answered));
    hide Inv, Served, WorkStep, Drive;
    SyncServes(t, k);
    DriveFrom(s, k, 1, 2);
    SameServed(Drive(s, k, 3), k, s.row.value, t.row.value);
  }

  lemma RedriveMarks(s: State, k: nat)
    requires k in s.workers && s.row.Some? && s.workers[k].pc == Redriving(s.row.value) && s.row.value.status == Error
    ensures var t := WorkStep(s, k, Answered);
            && k in t.workers && t.row == Some(s.row.value.(status := PendingStatus(s.row.value.operation)))
            && t.workers[k].pc == Syncing(t.row.value) && t == Next(s, Step(k, Answered))
  {
  }

  lemma SameServed(s: State, k: nat, x: Row, y: Row)
    requires Served(s, k, y) && x.(status := Active) == y.(status := Active)
    ensures Served(s, k, x)
  {
    assert x.operation == x.(status := Active).operation;
  }

  lemma RefreshServes(s: State, k: nat)
    requires Inv(s) && k in s.workers && s.row.Some? && s.workers[k].pc == Refreshing(s.row.value) && s.row.value.status == Active
    ensures Served(Drive(s, k, 1), k, s.row.value)
  {
    assert Drive(s, k, 0) == s;
  }

  lemma {:induction false} DriveFrom(s: State, k: nat, m: nat, n: nat)
    requires k in s.workers
    ensures Drive(s, k, m + n) == Drive(Drive(s, k, m), k, n)
  {
    hide WorkStep;
    if n > 0 { DriveFrom(s, k, m, n - 1); }
  }

  /** Wherever others stopped: a worker that serves the current row and is not disturbed brings it to the scheduler, in at most four
      steps. */
  lemma UndisturbedServes(events: seq<Event>, k: nat)
    requires Serves(Run(New(true), events), k)
    ensures var s := Run(New(true), events);
            exists n: nat :: n <= 4 && Served(Drive(s, k, n), k, s.row.value)
  {
    var s := Run(New(true), events);
    RunKeepsInv(events);
    hide Run, Served;
    var x := s.row.value;
    if s.workers[k].pc.Converging? {
      var t := WorkStep(s, k, Answered);
      assert RowOk(s, x);
      NextKeepsInv(s, Step(k, Answered));
      DriveFrom(s, k, 1, 1);
      DriveFrom(s, k, 1, 2);
      DriveFrom(s, k, 1, 3);
      assert Drive(s, k, 1) == t by { assert Drive(s, k, 0) == s; }
      assert t.row == s.row;
      if x.status == Error { RedriveServes(t, k); } else if x.status == Active { RefreshServes(t, k); } else { SyncServes(t, k); }
      hide Drive, Inv;
    } else {
      hide Drive;
      if x.status == Error { RedriveServes(s, k); } else if x.status == Active { RefreshServes(s, k); } else { SyncServes(s, k); }
    }
  }

  /** A call for a row that is not ACTIVE starts such a worker. */
  lemma BeginServes(events: seq<Event>, k: nat)
    requires var s := Run(New(true), events); s.row.Some? && s.row.value.status != Active && k !in s.workers
    ensures var s := Run(New(true), events); Serves(Next(s, Begin(k)), k) && Next(s, Begin(k)).row == s.row
  {
    RunKeepsInv(events);
    assert RowOk(Run(New(true), events), Run(New(true), events).row.value);
    hide Run;
  }

  /** A scheduler call that fails, before or after it took effect, leaves the current pending row marked for a retry. */
  lemma FailureMarks(s: State, k: nat, reply: Reply)
    requires s.atomic && k in s.workers && s.row.Some? && s.workers[k].pc == Syncing(s.row.value) && s.row.value.status in {PendingSync, DeletePending}
    requires reply != Answered
    ensures var t := WorkStep(s, k, reply);
            && k in t.workers
            && var u := WorkStep(t, k, Answered);
            && k in u.workers && u.workers[k].pc == Threw && u.row == Some(s.row.value.(status := Error)) && u.remote == t.remote
  {
    hide Upserted, Removed;
  }

  /** A refresh writes the ACTIVE row to the scheduler again, whatever that had before, unless it holds a newer schedule. */
  lemma RefreshRestores(s: State, k: nat)
    requires s.atomic && k in s.workers && s.workers[k].pc.Refreshing?
    ensures var x := s.workers[k].pc.schedule;
            var t := WorkStep(s, k, Answered);
            && k in t.workers && t.workers[k].pc == Returned(Some(x)) && t.row == s.row
            && t.remote == if s.remote.Some? && s.remote.value.revision > x.revision then s.remote else Some(Remote(x.revision, x.content))
  {
  }
}

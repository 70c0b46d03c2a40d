/** `syncSchedule`, `convergeLatestSchedule` and `redriveSchedule` as they call each other, against other workers and
    saves that act between any two remote calls, and against failures of any call. */
module ScheduleService {
  import opened Common
  import opened Schedules

  datatype Outcome = Returns(result: Option<Row>) | Throws

  function Saves(events: seq<Event>): nat {
    if events == [] then 0
    else Saves(events[..|events| - 1]) + if events[|events| - 1].Save? || events[|events| - 1].Create? then 1 else 0
  }

  function AllSaves(script: seq<seq<Event>>): nat {
    if script == [] then 0 else Saves(script[0]) + AllSaves(script[1..])
  }

  lemma FollowsAgain(s: State, t: State, u: State)
    requires Follows(s, t) && Follows(t, u)
    ensures Follows(s, u)
  {
    assert forall x: Row :: Known(s, x) ==> Known(t, x);
  }

  lemma {:induction false} OthersFollow(s: State, events: seq<Event>)
    requires Inv(s)
    ensures Inv(Run(s, events)) && Follows(s, Run(s, events)) && |Run(s, events).saved| <= |s.saved| + Saves(events)
  {
    if events == [] {
      SameRemoteFollows(s, s);
    } else {
      var prefix, e := events[..|events| - 1], events[|events| - 1];
      OthersFollow(s, prefix);
      NextKeepsInv(Run(s, prefix), e);
      NextFollows(Run(s, prefix), e);
      FollowsAgain(s, Run(s, prefix), Run(s, events));
      SavesGrowByOne(Run(s, prefix), e);
      hide Inv, Follows, Next;
    }
  }

  lemma SavesGrowByOne(s: State, e: Event)
    ensures |Next(s, e).saved| <= |s.saved| + if e.Save? || e.Create? then 1 else 0
  {
    if e.Step? && e.worker in s.workers { hide Upserted, Removed, CanActivate, CanPend, CanFail, CanDelete; }
  }

  /** A write of ours that others may rely on. */
  lemma WriteKeepsInv(s: State, t: State)
    requires Inv(s) && Follows(s, t) && RowsOk(t) && t.workers == s.workers
    ensures Inv(t)
  {
    forall k | k in t.workers ensures WorkerOk(t, t.workers[k]) { FollowsKeepsWorker(s, t, s.workers[k]); }
  }

  lemma RowWriteKeepsInv(s: State, row: Option<Row>)
    requires Inv(s) && s.row.Some? && row.Some? && RowOk(s, row.value)
    ensures Inv(s.(row := row)) && Follows(s, s.(row := row))
  {
    var t := s.(row := row);
    SameRemoteFollows(s, t);
    assert RowsOk(t) by { assert RowOk(t, row.value); assert s.remote.Some? ==> RemoteOk(t, s.remote.value); }
    WriteKeepsInv(s, t);
  }

  lemma RemoteWriteKeepsInv(s: State, remote: Option<Remote>, x: Row)
    requires Inv(s) && Known(s, x)
    requires remote == if x.operation == Delete then Removed(s.remote, x) else Upserted(s.remote, x)
    ensures Inv(s.(remote := remote)) && Follows(s, s.(remote := remote))
    ensures x.operation == Upsert ==> Settled(s.(remote := remote), x)
  {
    RemoteWriteFollows(s, x);
    WriteKeepsRows(s, remote, x);
    WriteKeepsInv(s, s.(remote := remote));
  }

  lemma KnownFollows(s: State, t: State, x: Row)
    requires Follows(s, t) && Known(s, x)
    ensures Known(t, x) && (x.operation == Upsert && Settled(s, x) ==> Settled(t, x))
  {
  }

  lemma RowIsOk(s: State)
    requires Inv(s) && s.row.Some?
    ensures RowOk(s, s.row.value) && Known(s, s.row.value)
  {
  }

  class Service {
    var s: State
    var script: seq<seq<Event>>
    var replies: seq<Reply>

    constructor (script: seq<seq<Event>>, replies: seq<Reply>)
      ensures s == New(true) && Inv(s) && this.script == script && this.replies == replies
    {
      s, this.script, this.replies := New(true), script, replies;
    }

    /** The highest revision that can still come into being. */
    ghost function Budget(): nat
      reads this
    {
      |s.saved| + AllSaves(script)
    }

    ghost predicate Quiet()
      reads this
    {
      script == [] && replies == []
    }

    function FirstReply(): Reply
      reads this
    {
      if replies == [] then Answered else replies[0]
    }

    function LaterReplies(): seq<Reply>
      reads this
    {
      if replies == [] then [] else replies[1..]
    }

    /** Others act, and then the call ends in some way. */
    method Await() returns (reply: Reply)
      requires Inv(s)
      modifies this
      ensures Inv(s) && Follows(old(s), s) && Budget() <= old(Budget())
      ensures old(script) == [] ==> script == [] && s == old(s) && reply == old(FirstReply()) && replies == old(LaterReplies())
    {
      SameRemoteFollows(s, s);
      reply := Answered;
      if replies != [] {
        reply, replies := replies[0], replies[1..];
      }
      if script == [] {
        return;
      }
      var batch := script[0];
      OthersFollow(s, batch);
      hide Inv, Follows, Next;
      script := script[1..];
      var i := 0;
      while i < |batch|
        invariant 0 <= i <= |batch| && s == Run(old(s), batch[..i])
        invariant script == old(script)[1..]
      {
        assert batch[..i + 1][..i] == batch[..i];
        s := Next(s, batch[i]);
        i := i + 1;
      }
      assert batch[..i] == batch;
    }

    /** The scheduler's compare-and-write, once. */
    method CallScheduler(x: Row) returns (ok: bool)
      requires Inv(s) && Known(s, x)
      modifies this
      ensures Inv(s) && Follows(old(s), s) && Budget() <= old(Budget()) && Known(s, x)
      ensures ok && x.operation == Upsert ==> Settled(s, x)
      ensures old(script) == [] ==>
                && script == [] && replies == old(LaterReplies()) && ok == (old(FirstReply()) == Answered)
                && s == if old(FirstReply()) == LostBefore then old(s)
                        else old(s).(remote := if x.operation == Delete then Removed(old(s).remote, x) else Upserted(old(s).remote, x))
    {
      ghost var before := s;
      var reply := Await();
      KnownFollows(before, s, x);
      if reply == LostBefore {
        return false;
      }
      ghost var mid := s;
      var remote := if x.operation == Delete then Removed(s.remote, x) else Upserted(s.remote, x);
      RemoteWriteKeepsInv(s, remote, x);
      hide Inv, Follows, RowsOk;
      s := s.(remote := remote);
      FollowsAgain(before, mid, s);
      KnownFollows(before, s, x);
      return reply == Answered;
    }

    /** `markScheduleActive`. */
    method MarkActive(x: Row) returns (ok: bool, active: Option<Row>)
      requires Inv(s) && Known(s, x) && x.operation == Upsert && Settled(s, x)
      modifies this
      ensures Inv(s) && Follows(old(s), s) && Budget() <= old(Budget()) && Known(s, x)
      ensures ok && active.Some? ==> active.value.status == Active && active.value.revision == x.revision && Known(s, active.value)
      ensures old(Quiet()) ==> Quiet() && ok
      ensures old(Quiet()) ==> s == if CanActivate(old(s).row, x.revision) then old(s).(row := SetStatus(old(s).row, Active)) else old(s)
      ensures old(Quiet()) ==> active == if CanActivate(old(s).row, x.revision) then s.row else None
    {
      ghost var before := s;
      var reply := Await();
      KnownFollows(before, s, x);
      if reply == LostBefore {
        return false, None;
      }
      if !CanActivate(s.row, x.revision) {
        return reply == Answered, None;
      }
      ghost var mid := s;
      RowIsOk(s);
      SettledAgain(s, x, s.row.value);
      RowWriteKeepsInv(s, SetStatus(s.row, Active));
      hide Inv, Follows;
      s := s.(row := SetStatus(s.row, Active));
      FollowsAgain(before, mid, s);
      KnownFollows(before, s, x);
      return reply == Answered, s.row;
    }

    /** `failScheduleSync`: what it finds or misses changes nothing for the caller, who throws anyway. */
    method MarkError(x: Row)
      requires Inv(s)
      modifies this
      ensures Inv(s) && Follows(old(s), s) && Budget() <= old(Budget())
      ensures old(Quiet()) ==> s == if CanFail(old(s).row, x.revision) then old(s).(row := SetStatus(old(s).row, Error)) else old(s)
    {
      ghost var before := s;
      var reply := Await();
      if reply != LostBefore && CanFail(s.row, x.revision) {
        ghost var mid := s;
        RowIsOk(s);
        RowWriteKeepsInv(s, SetStatus(s.row, Error));
        hide Inv, Follows;
        s := s.(row := SetStatus(s.row, Error));
        FollowsAgain(before, mid, s);
      }
    }

    /** `deleteSchedule` of the repository. */
    method DeleteRow(x: Row) returns (ok: bool, deleted: bool)
      requires Inv(s) && Known(s, x)
      modifies this
      ensures Inv(s) && Follows(old(s), s) && Budget() <= old(Budget()) && Known(s, x)
      ensures ok && deleted ==> s.row.None? && s.gone == Some(x.revision)
      ensures old(Quiet()) ==> Quiet() && ok && deleted == CanDelete(old(s).row, x.revision)
      ensures old(Quiet()) ==> s == if deleted then old(s).(row := None, gone := Some(x.revision)) else old(s)
    {
      ghost var before := s;
      var reply := Await();
      KnownFollows(before, s, x);
      if reply == LostBefore {
        return false, false;
      }
      if !CanDelete(s.row, x.revision) {
        return reply == Answered, false;
      }
      ghost var mid := s;
      DeletionKeepsInv(s, x);
      hide Inv, Follows;
      s := s.(row := None, gone := Some(x.revision));
      FollowsAgain(before, mid, s);
      KnownFollows(before, s, x);
      return reply == Answered, true;
    }

    /** What a normal return of a call for revision `asked` means. */
    ghost predicate Current(r: Outcome, asked: nat)
      reads this
    {
      r.Returns? ==>
        match r.result
        case Some(y) => y.status == Active && asked <= y.revision && Known(s, y)
        case None => s.row.None? && s.gone.Some? && asked <= s.gone.value
    }

    /** The newest row is brought to the scheduler: an upsert ends ACTIVE with the remote schedule at its revision and content, a
        deletion with row and remote schedule gone. */
    ghost predicate Converged(r: Outcome, y: Row)
      reads this
    {
      if y.operation == Upsert
      then r == Returns(Some(y.(status := Active))) && s.row == r.result && s.remote == Some(Remote(y.revision, y.content))
      else r == Returns(None) && s.row.None? && s.remote.None?
    }

    /** Termination: every round works on a strictly higher revision, and only finitely many are still to come. A normal
        return is an ACTIVE snapshot of the requested revision or a later one, or nothing once a row of such a revision
        was deleted. Undisturbed, the current pending row converges, a stale one leads to the newest row, which then
        converges; and when the scheduler call fails the row is marked for a retry. */
    method SyncSchedule(x: Row) returns (r: Outcome)
      requires Inv(s) && Known(s, x)
      modifies this
      ensures Inv(s) && Follows(old(s), s) && Budget() <= old(Budget())
      ensures Current(r, x.revision)
      ensures old(Quiet()) && old(s).row == Some(x) && x.status == PendingStatus(x.operation) ==> Converged(r, x)
      ensures old(Quiet()) && old(s).row.Some? && old(s).row.value.revision > x.revision ==> Converged(r, old(s).row.value)
      ensures old(script) == [] && |old(replies)| == 1 && old(FirstReply()) != Answered && old(s).row == Some(x) && x.status == PendingStatus(x.operation) ==>
                r == Throws && s.row == Some(x.(status := Error))
      decreases Budget() - x.revision, 1
    {
      hide Inv, Follows, RowsOk;
      ghost var before := s;
      QuietRemote(s, x);
      var ok := CallScheduler(x);
      if !ok {
        ghost var s1 := s;
        MarkError(x);
        FollowsAgain(before, s1, s);
        return Throws;
      }
      ghost var called := s;
      if x.operation == Upsert {
        var marked, active := MarkActive(x);
        FollowsAgain(before, called, s);
        ghost var s2 := s;
        if !marked {
          MarkError(x);
          FollowsAgain(before, s2, s);
          return Throws;
        }
        if active.Some? {
          return Returns(active);
        }
        r := ConvergeLatestSchedule(x);
        FollowsAgain(before, s2, s);
        return;
      }
      var sent, deleted := DeleteRow(x);
      FollowsAgain(before, called, s);
      if !sent {
        return Throws;
      }
      if deleted {
        return Returns(None);
      }
      ghost var s3 := s;
      r := ConvergeLatestSchedule(x);
      FollowsAgain(before, s3, s);
    }

    /** Undisturbed, a newer row converges whatever its status, and without one the call throws and changes nothing. A newer row that
        is ACTIVE is written to the scheduler again, and the call throws when that fails. */
    method ConvergeLatestSchedule(stale: Row) returns (r: Outcome)
      requires Inv(s) && Known(s, stale)
      modifies this
      ensures Inv(s) && Follows(old(s), s) && Budget() <= old(Budget())
      ensures Current(r, stale.revision)
      ensures old(Quiet()) && old(s).row.Some? && old(s).row.value.revision > stale.revision ==> Converged(r, old(s).row.value)
      ensures old(Quiet()) && !(old(s).row.Some? && old(s).row.value.revision > stale.revision) ==> r == Throws && s == old(s)
      ensures (&& old(script) == [] && |old(replies)| == 2 && old(replies)[0] == Answered && old(replies)[1] != Answered
               && old(s).row.Some? && old(s).row.value.revision > stale.revision && old(s).row.value.status == Active) ==> r == Throws
      decreases Budget() - stale.revision, 0
    {
      ghost var before := s;
      var reply := Await();
      if reply != Answered || s.row.None? || s.row.value.revision <= stale.revision {
        return Throws;
      }
      var latest := s.row.value;
      RowIsOk(s);
      assert latest.revision <= |s.saved| <= Budget();
      ghost var mid := s;
      hide Inv, Follows;
      if latest.status == PendingSync || latest.status == DeletePending {
        r := SyncSchedule(latest);
        FollowsAgain(before, mid, s);
      } else if latest.status == Error {
        r := RedriveSchedule(latest);
        FollowsAgain(before, mid, s);
      } else {
        var ok := CallScheduler(latest);
        FollowsAgain(before, mid, s);
        r := if ok then Returns(Some(latest)) else Throws;
      }
    }

    /** Undisturbed, a failed row is brought to the scheduler, and anything else is a conflict that changes nothing. */
    method RedriveSchedule(current: Row) returns (r: Outcome)
      requires Inv(s) && Known(s, current)
      modifies this
      ensures Inv(s) && Follows(old(s), s) && Budget() <= old(Budget())
      ensures Current(r, current.revision)
      ensures old(Quiet()) && old(s).row == Some(current) && current.status == Error ==> Converged(r, current)
      ensures old(Quiet()) && (old(s).row.None? || old(s).row.value.revision != current.revision || old(s).row.value.status != Error) ==>
                r == Throws && s == old(s)
      decreases Budget() - current.revision, 2
    {
      ghost var before := s;
      var reply := Await();
      KnownFollows(before, s, current);
      assert current.revision <= |s.saved| <= Budget();
      if reply == LostBefore || !CanPend(s.row, current.revision, current.operation) {
        return Throws;
      }
      ghost var mid := s;
      RowIsOk(s);
      RowWriteKeepsInv(s, SetStatus(s.row, PendingStatus(current.operation)));
      hide Inv, Follows;
      s := s.(row := SetStatus(s.row, PendingStatus(current.operation)));
      FollowsAgain(before, mid, s);
      if reply != Answered {
        return Throws;
      }
      ghost var pended := s;
      var pending := s.row.value;
      r := SyncSchedule(pending);
      FollowsAgain(before, pended, s);
    }

    /** The save that starts an update, a deletion or a resync: the next revision, if the expected one is still current. */
    method SaveNext(content: Content, op: Operation, expected: nat) returns (ok: bool, saved: Row)
      requires Inv(s)
      modifies this
      ensures Inv(s) && Follows(old(s), s) && Budget() <= old(Budget()) + 1
      ensures ok ==> Known(s, saved) && saved == NewRow(content, op, expected + 1)
      ensures old(Quiet()) ==> Quiet() && ok == CanSave(old(s).row, expected) && s == Next(old(s), Save(content, op, expected))
    {
      ghost var before := s;
      var reply := Await();
      saved := NewRow(content, op, expected + 1);
      if reply == LostBefore || !CanSave(s.row, expected) {
        return false, saved;
      }
      ghost var mid := s;
      RowIsOk(s);
      NextKeepsInv(s, Save(content, op, expected));
      NextFollows(s, Save(content, op, expected));
      hide Inv, Follows;
      s := s.(row := Some(saved), saved := s.saved + [Saved(content, op)]);
      FollowsAgain(before, mid, s);
      ok := reply == Answered;
    }

    /** `resyncSchedule`, and the tails of `updateSchedule` and `deleteSchedule`: save the next revision, then sync it. */
    method SaveAndSync(content: Content, op: Operation, expected: nat) returns (r: Outcome)
      requires Inv(s)
      modifies this
      ensures Inv(s) && Follows(old(s), s)
      ensures Current(r, expected + 1)
      ensures old(Quiet()) && CanSave(old(s).row, expected) && op == Upsert ==>
                r == Returns(s.row) && s.row == Some(Row(content, Active, Upsert, expected + 1)) && s.remote == Some(Remote(expected + 1, content))
      ensures old(Quiet()) && CanSave(old(s).row, expected) && op == Delete ==> r == Returns(None) && s.row.None? && s.remote.None?
    {
      ghost var before := s;
      var ok, saved := SaveNext(content, op, expected);
      if !ok {
        return Throws;
      }
      ghost var mid := s;
      hide Inv, Follows;
      r := SyncSchedule(saved);
      FollowsAgain(before, mid, s);
    }
  }

  lemma SettledAgain(s: State, x: Row, y: Row)
    requires Known(s, x) && Known(s, y) && x.revision == y.revision && Settled(s, x)
    ensures Settled(s, y)
  {
  }

  lemma DeletionKeepsInv(s: State, x: Row)
    requires Inv(s) && Known(s, x) && CanDelete(s.row, x.revision)
    ensures var t := s.(row := None, gone := Some(x.revision)); Inv(t) && Follows(s, t)
  {
    var t := s.(row := None, gone := Some(x.revision));
    SameRemoteFollows(s, t);
    assert RowsOk(t) by { assert s.remote.Some? ==> RemoteOk(t, s.remote.value); }
    WriteKeepsInv(s, t);
  }

  /** The remote schedule is never ahead of the current row. */
  lemma QuietRemote(s: State, x: Row)
    requires Inv(s)
    ensures s.row == Some(x) ==> Upserted(s.remote, x) == Some(Remote(x.revision, x.content)) && Removed(s.remote, x) == None
  {
  }
}

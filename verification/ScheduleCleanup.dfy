/** The schedule repository as an object, and the cleanup of a released device's schedules over it, with a scheduler
    whose calls may fail. */
module ScheduleCleanup {
  import opened Common
  import opened Schedules

  datatype Key = Key(tenant: string, id: string)

  /** Status and operation fit, as every save and every mark leaves them. */
  predicate Fits(x: Row) {
    && (x.status == PendingSync || x.status == Active ==> x.operation == Upsert)
    && (x.status == DeletePending ==> x.operation == Delete)
  }

  class Repository {
    var rows: map<Key, Row>

    constructor ()
      ensures rows == map[]
    {
      rows := map[];
    }

    method ListSchedules(tenant: string) returns (keys: set<Key>)
      ensures keys == set k | k in rows && k.tenant == tenant
    {
      keys := set k | k in rows && k.tenant == tenant;
    }

    /** Creates only what is absent; replaces only the expected revision. */
    method SaveSchedule(k: Key, x: Row, expected: Option<nat>) returns (ok: bool)
      modifies this
      ensures ok <==> if expected.Some? then k in old(rows) && old(rows)[k].revision == expected.value else k !in old(rows)
      ensures rows == if ok then old(rows)[k := x] else old(rows)
    {
      ok := if expected.Some? then k in rows && rows[k].revision == expected.value else k !in rows;
      if ok {
        rows := rows[k := x];
      }
    }

    method MarkScheduleActive(k: Key, revision: nat) returns (active: Option<Row>)
      modifies this
      ensures active.Some? <==> CanActivate(Found(old(rows), k), revision)
      ensures rows == if active.Some? then old(rows)[k := old(rows)[k].(status := Active)] else old(rows)
      ensures active.Some? ==> active.value == rows[k]
    {
      if k !in rows || rows[k].revision != revision || rows[k].status != PendingSync || rows[k].operation != Upsert {
        return None;
      }
      rows := rows[k := rows[k].(status := Active)];
      return Some(rows[k]);
    }

    method MarkSchedulePending(k: Key, revision: nat, op: Operation) returns (pending: Option<Row>)
      modifies this
      ensures pending.Some? <==> CanPend(Found(old(rows), k), revision, op)
      ensures rows == if pending.Some? then old(rows)[k := old(rows)[k].(status := PendingStatus(op))] else old(rows)
      ensures pending.Some? ==> pending.value == rows[k]
    {
      if k !in rows || rows[k].revision != revision || rows[k].status != Error || rows[k].operation != op {
        return None;
      }
      rows := rows[k := rows[k].(status := if rows[k].operation == Delete then DeletePending else PendingSync)];
      return Some(rows[k]);
    }

    method MarkScheduleError(k: Key, revision: nat) returns (failed: Option<Row>)
      modifies this
      ensures failed.Some? <==> CanFail(Found(old(rows), k), revision)
      ensures rows == if failed.Some? then old(rows)[k := old(rows)[k].(status := Error)] else old(rows)
      ensures failed.Some? ==> failed.value == rows[k]
    {
      if k !in rows || rows[k].revision != revision || (rows[k].status != PendingSync && rows[k].status != DeletePending) {
        return None;
      }
      rows := rows[k := rows[k].(status := Error)];
      return Some(rows[k]);
    }

    method DeleteSchedule(k: Key, revision: nat) returns (deleted: bool)
      modifies this
      ensures deleted <==> CanDelete(Found(old(rows), k), revision)
      ensures rows == if deleted then old(rows) - {k} else old(rows)
    {
      if k !in rows || rows[k].revision != revision || rows[k].status != DeletePending || rows[k].operation != Delete {
        return false;
      }
      rows := rows - {k};
      return true;
    }
  }

  function Found(rows: map<Key, Row>, k: Key): Option<Row> { if k in rows then Some(rows[k]) else None }

  predicate SameElsewhere(before: map<Key, Row>, after: map<Key, Row>, touched: set<Key>) {
    (forall k :: k in before && k !in touched ==> k in after && after[k] == before[k]) && after.Keys <= before.Keys
  }

  predicate OnItsWay(x: Row) { x.status == DeletePending && x.operation == Delete }

  /** A deletion that was begun before keeps its revision; any other is a new one. */
  function DeletionRevision(x: Row): nat { if x.operation == Delete then x.revision else x.revision + 1 }

  predicate FailedDelete(x: Row) { x.status == Error && x.operation == Delete }

  class Cleanup {
    const repository: Repository
    var remote: map<Key, Remote>

    constructor (repository: Repository)
      ensures this.repository == repository && remote == map[]
    {
      this.repository, remote := repository, map[];
    }

    ghost predicate Valid()
      reads this, repository
    {
      && (forall k :: k in repository.rows ==> Fits(repository.rows[k]))
      && (forall k :: k in remote && k in repository.rows ==> remote[k].revision <= repository.rows[k].revision)
    }

    /** Puts one matching row on its way to deletion, whatever its status was. */
    method StartDeletion(k: Key) returns (pending: Row)
      requires Valid() && k in repository.rows
      modifies repository
      ensures Valid() && repository.rows == old(repository.rows)[k := pending]
      ensures OnItsWay(pending) && pending.content == old(repository.rows)[k].content && pending.revision == DeletionRevision(old(repository.rows)[k])
    {
      var schedule := repository.rows[k];
      if schedule.status == DeletePending {
        assert repository.rows == repository.rows[k := schedule];
        return schedule;
      }
      if schedule.status == Error && schedule.operation == Delete {
        var redrive := repository.MarkSchedulePending(k, schedule.revision, Delete);
        return redrive.value;
      }
      var deletion := schedule.(status := DeletePending, operation := Delete, revision := schedule.revision + 1);
      var saved := repository.SaveSchedule(k, deletion, Some(schedule.revision));
      return deletion;
    }

    /** `syncSchedule` of a deletion with nobody else about: the row and the remote schedule go, or the row is marked. A call
        that fails may have taken effect all the same, with only its answer lost. */
    method SyncDeletion(k: Key, schedule: Row, fails: bool, lands: bool)
      requires Valid() && k in repository.rows && repository.rows[k] == schedule && OnItsWay(schedule)
      modifies this, repository
      ensures Valid()
      ensures repository.rows == if fails then old(repository.rows)[k := schedule.(status := Error)] else old(repository.rows) - {k}
      ensures remote == if fails && !lands then old(remote) else old(remote) - {k}
    {
      if (!fails || lands) && k in remote && remote[k].revision <= schedule.revision {
        remote := remote - {k};
      }
      if fails {
        var marked := repository.MarkScheduleError(k, schedule.revision);
        return;
      }
      var deleted := repository.DeleteSchedule(k, schedule.revision);
    }

    /** The first loop: every match is on its way to deletion. */
    method StartDeletions(all: set<Key>) returns (pending: map<Key, Row>)
      requires Valid() && all <= repository.rows.Keys
      modifies repository
      ensures Valid() && pending.Keys == all && repository.rows.Keys == old(repository.rows).Keys
      ensures forall k :: k in repository.rows && k !in all ==> repository.rows[k] == old(repository.rows)[k]
      ensures forall k :: k in all ==> repository.rows[k] == pending[k] && OnItsWay(pending[k]) && pending[k].content == old(repository.rows)[k].content
      ensures forall k :: k in all ==> pending[k].revision == DeletionRevision(old(repository.rows)[k])
    {
      var matches := all;
      pending := map[];
      while matches != {}
        invariant Valid() && matches <= all && pending.Keys == all - matches
        invariant repository.rows.Keys == old(repository.rows).Keys
        invariant forall k :: k in repository.rows && k !in pending ==> repository.rows[k] == old(repository.rows)[k]
        invariant forall k :: k in pending ==> repository.rows[k] == pending[k] && OnItsWay(pending[k]) && pending[k].content == old(repository.rows)[k].content
        invariant forall k :: k in pending ==> pending[k].revision == DeletionRevision(old(repository.rows)[k])
        decreases matches
      {
        var k :| k in matches;
        var row := StartDeletion(k);
        pending := pending[k := row];
        matches := matches - {k};
      }
    }

    /** The second loop: every deletion is tried, and one failure stops none of the others. */
    method FinishDeletions(pending: map<Key, Row>, failing: set<Key>, landing: set<Key>) returns (failed: bool)
      requires Valid() && forall k :: k in pending ==> k in repository.rows && repository.rows[k] == pending[k] && OnItsWay(pending[k])
      modifies this, repository
      ensures Valid() && SameElsewhere(old(repository.rows), repository.rows, pending.Keys)
      ensures failed <==> pending.Keys * failing != {}
      ensures forall k :: k in pending ==> (k in repository.rows <==> k in failing)
      ensures forall k :: k in pending && k in failing ==> repository.rows[k] == pending[k].(status := Error)
      ensures remote == old(remote) - (pending.Keys - (failing - landing))
    {
      hide Valid, Fits;
      failed := false;
      var left := pending.Keys;
      while left != {}
        invariant Valid() && left <= pending.Keys
        invariant SameElsewhere(old(repository.rows), repository.rows, pending.Keys)
        invariant forall k :: k in left ==> k in repository.rows && repository.rows[k] == pending[k]
        invariant forall k :: k in pending.Keys - left ==> (k in repository.rows <==> k in failing)
        invariant forall k :: k in pending.Keys - left && k in failing ==> repository.rows[k] == pending[k].(status := Error)
        invariant failed <==> (pending.Keys - left) * failing != {}
        invariant remote == old(remote) - ((pending.Keys - left) - (failing - landing))
        decreases left
      {
        var k :| k in left;
        SyncDeletion(k, pending[k], k in failing, k in landing);
        failed := failed || k in failing;
        left := left - {k};
      }
      assert pending.Keys - left == pending.Keys;
    }

    /** A normal return leaves no row and no remote schedule of the released device and certificate, and nothing else is
        touched. Otherwise exactly the rows whose removal failed are left, each marked as a failed deletion, and the remote
        schedules left are exactly those whose removal failed without taking effect. */
    method CleanupReleasedDeviceSchedules(tenant: string, target: string, certificate: string, failing: set<Key>, landing: set<Key>)
      returns (failed: bool)
      requires Valid()
      modifies this, repository
      ensures Valid()
      ensures var matches := (set k | k in old(repository.rows) && k.tenant == tenant && old(repository.rows)[k].content.target == target
                                   && old(repository.rows)[k].content.certificate == certificate);
              && SameElsewhere(old(repository.rows), repository.rows, matches)
              && (failed <==> matches * failing != {})
              && (forall k :: k in matches ==> (k in repository.rows <==> k in failing))
              && (forall k :: k in matches && k in failing ==>
                    && FailedDelete(repository.rows[k]) && repository.rows[k].content == old(repository.rows)[k].content
                    && repository.rows[k].revision == DeletionRevision(old(repository.rows)[k]))
              && remote == old(remote) - (matches - (failing - landing))
    {
      hide Valid, Fits, DeletionRevision;
      var keys := repository.ListSchedules(tenant);
      var matches := set k | k in keys && repository.rows[k].content.target == target && repository.rows[k].content.certificate == certificate;
      var pending := StartDeletions(matches);
      failed := FinishDeletions(pending, failing, landing);
    }

    /** A second call with a working scheduler removes what the first one left. */
    method CleanupTwice(tenant: string, target: string, certificate: string, failing: set<Key>, landing: set<Key>)
      requires Valid()
      modifies this, repository
      ensures var matches := (set k | k in old(repository.rows) && k.tenant == tenant && old(repository.rows)[k].content.target == target
                                   && old(repository.rows)[k].content.certificate == certificate);
              && SameElsewhere(old(repository.rows), repository.rows, matches)
              && (forall k :: k in matches ==> k !in repository.rows)
              && remote == old(remote) - matches
    {
      ghost var before := repository.rows;
      ghost var matches := set k | k in before && k.tenant == tenant && before[k].content.target == target && before[k].content.certificate == certificate;
      var failed := CleanupReleasedDeviceSchedules(tenant, target, certificate, failing, landing);
      assert (set k | k in repository.rows && k.tenant == tenant && repository.rows[k].content.target == target
                      && repository.rows[k].content.certificate == certificate) == matches * failing;
      failed := CleanupReleasedDeviceSchedules(tenant, target, certificate, {}, {});
    }
  }
}

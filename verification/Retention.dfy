/** The retention sweep's two stages, and what batching and cancellation cannot change. */
module Retention {
  import opened Collections
  import opened Incidents
  import opened Tables
  import opened StoreSteps
  import opened StoreSoundness
  import opened StoreTallies
  import opened StoreExamples

  const RETENTION_BATCH: nat := 5000

  /** LIMIT without an order: any `limit` of the candidates, or all of them. */
  method PickBatch(candidates: set<Uuid>, limit: nat) returns (batch: set<Uuid>)
    ensures batch <= candidates
    ensures |batch| == if |candidates| < limit then |candidates| else limit
  {
    batch := {};
    var rest := candidates;
    while rest != {} && |batch| < limit
      invariant rest + batch == candidates && rest !! batch && |batch| <= limit
      decreases |rest|
    {
      var row :| row in rest;
      rest := rest - {row};
      batch := batch + {row};
    }
    if rest == {} {
      assert batch == candidates;
    } else {
      SubsetSize(batch, candidates);
    }
  }

  /** Deleting some candidates leaves exactly the others as candidates. */
  lemma CandidatesLeft(db: Db, stage: Stage, cutoff: Time, gone: set<Uuid>)
    ensures Candidates(Removed(db, stage, gone), stage, cutoff) == Candidates(db, stage, cutoff) - gone
  {
  }

  lemma RemovedNothing(db: Db, stage: Stage)
    ensures Removed(db, stage, {}) == db
  {
  }

  lemma RemovedTwice(db: Db, stage: Stage, gone: set<Uuid>, batch: set<Uuid>)
    ensures Removed(Removed(db, stage, gone), stage, batch) == Removed(db, stage, gone + batch)
  {
    match stage {
      case AlertRows => assert db.alerts - gone - batch == db.alerts - (gone + batch);
      case RoomRows => assert db.rooms - gone - batch == db.rooms - (gone + batch);
    }
  }

  /** A batch moves the sweep on by exactly its rows, and a batch of everything left finishes it. */
  lemma BatchAdvances(db: Db, stage: Stage, cutoff: Time, gone: set<Uuid>, batch: set<Uuid>)
    requires gone <= Candidates(db, stage, cutoff)
    requires batch <= Candidates(Removed(db, stage, gone), stage, cutoff)
    ensures gone + batch <= Candidates(db, stage, cutoff) && |gone + batch| == |gone| + |batch|
    ensures Removed(Removed(db, stage, gone), stage, batch) == Removed(db, stage, gone + batch)
    ensures batch == Candidates(Removed(db, stage, gone), stage, cutoff) ==> gone + batch == Candidates(db, stage, cutoff)
    ensures |Candidates(db, stage, cutoff) - (gone + batch)| == |Candidates(db, stage, cutoff) - gone| - |batch|
  {
    var all := Candidates(db, stage, cutoff);
    CandidatesLeft(db, stage, cutoff, gone);
    RemovedTwice(db, stage, gone, batch);
    BatchSizes(all, gone, batch);
  }

  lemma BatchSizes<T>(all: set<T>, gone: set<T>, batch: set<T>)
    requires gone <= all && batch <= all - gone
    ensures |gone + batch| == |gone| + |batch|
    ensures |all - (gone + batch)| == |all - gone| - |batch|
    ensures batch == all - gone ==> gone + batch == all
  {
    assert gone !! batch;
    assert all - gone == (all - (gone + batch)) + batch;
  }

  /** How many rows `after` lacks. */
  function RowsGone(db: Db, after: Db): nat
  {
    |db.alerts.Keys - after.alerts.Keys| + |db.rooms.Keys - after.rooms.Keys|
  }

  lemma KeysGone<K, V>(m: map<K, V>, gone: set<K>)
    requires gone <= m.Keys
    ensures m.Keys - (m - gone).Keys == gone && m.Keys - m.Keys == {}
  {
  }

  lemma NothingGone(db: Db)
    ensures RowsGone(db, db) == 0 && OnlyFewer(db, db)
  {
    KeysGone(db.alerts, {});
    KeysGone(db.rooms, {});
  }

  lemma AlertStageRows(db: Db, cutoff: Time, gone: set<Uuid>)
    requires gone <= Candidates(db, AlertRows, cutoff)
    ensures RowsGone(db, Removed(db, AlertRows, gone)) == |gone| && OnlyFewer(db, Removed(db, AlertRows, gone))
  {
    KeysGone(db.alerts, gone);
    KeysGone(db.rooms, {});
  }

  lemma RoomStageRows(db: Db, cutoff: Time, expired: set<Uuid>, gone: set<Uuid>)
    requires expired <= Candidates(db, AlertRows, cutoff)
    requires gone <= Candidates(Removed(db, AlertRows, expired), RoomRows, cutoff)
    ensures RowsGone(db, Removed(Removed(db, AlertRows, expired), RoomRows, gone)) == |expired| + |gone|
    ensures OnlyFewer(db, Removed(Removed(db, AlertRows, expired), RoomRows, gone))
  {
    KeysGone(db.alerts, expired);
    KeysGone(db.rooms, gone);
  }

  lemma BothStages(db: Db, cutoff: Time)
    ensures var kept := Removed(db, AlertRows, Candidates(db, AlertRows, cutoff));
            Removed(kept, RoomRows, Candidates(kept, RoomRows, cutoff)) == SweepExpired(db, cutoff)
  {
  }

  /** The pass takes the room along with its alerts: it ended before the cutoff and all it holds was received before. */
  predicate GoesWhole(db: Db, r: Uuid, cutoff: Time)
    requires r in db.rooms
  {
    && db.rooms[r].status == Resolved
    && db.rooms[r].resolvedAt.Some? && db.rooms[r].resolvedAt.value < cutoff
    && forall id :: id in Held(db.alerts, r) ==> db.alerts[id].receivedAt < cutoff
  }

  lemma GoesExactlyWhole(db: Db, r: Uuid, cutoff: Time)
    requires r in db.rooms
    ensures r !in SweepExpired(db, cutoff).rooms <==> GoesWhole(db, r, cutoff)
  {
    var kept := db.(alerts := db.alerts - ExpiredAlerts(db.alerts, cutoff));
    assert Held(kept.alerts, r) == Held(db.alerts, r) - ExpiredAlerts(db.alerts, cutoff);
    if GoesWhole(db, r, cutoff) {
      assert Held(kept.alerts, r) == {};
    } else if db.rooms[r].status == Resolved && db.rooms[r].resolvedAt.Some? && db.rooms[r].resolvedAt.value < cutoff {
      var id :| id in Held(db.alerts, r) && db.alerts[id].receivedAt >= cutoff;
      assert id in Held(kept.alerts, r);
    }
  }

  /** Rows may be gone; those left are as they were. */
  ghost predicate OnlyFewer(db: Db, after: Db)
  {
    && after.alerts.Keys <= db.alerts.Keys && after.rooms.Keys <= db.rooms.Keys
    && (forall id :: id in after.alerts ==> after.alerts[id] == db.alerts[id])
    && (forall r :: r in after.rooms ==> after.rooms[r] == db.rooms[r])
  }

  /** Resolved longer ago than the horizon. */
  predicate EndedBefore(room: Room, now: Time, horizon: Time)
  {
    room.status == Resolved && room.resolvedAt.Some? && now - room.resolvedAt.value > horizon
  }

  /** By age: an alert stays exactly while received within the horizon, filed or not, and a room goes exactly when it
      ended before the horizon and so was received everything it holds. */
  lemma PassByAge(db: Db, now: Time, horizon: Time)
    ensures var after := SweepExpired(db, Cutoff(now, horizon));
            && (forall id :: id in db.alerts ==> (id in after.alerts <==> now - db.alerts[id].receivedAt <= horizon))
            && (forall r :: r in db.rooms ==>
                  (r !in after.rooms <==> EndedBefore(db.rooms[r], now, horizon)
                                          && forall id :: id in db.alerts && db.alerts[id].room == Some(r) ==>
                                                            now - db.alerts[id].receivedAt > horizon))
  {
    forall r | r in db.rooms
      ensures r !in SweepExpired(db, Cutoff(now, horizon)).rooms <==>
              EndedBefore(db.rooms[r], now, horizon)
              && forall id :: id in db.alerts && db.alerts[id].room == Some(r) ==> now - db.alerts[id].receivedAt > horizon
    {
      GoesExactlyWhole(db, r, Cutoff(now, horizon));
      assert forall id :: id in Held(db.alerts, r) <==> id in db.alerts && db.alerts[id].room == Some(r);
    }
  }

  /** The pass restates nothing, so exact counts stay exact just when every expired filed alert's room goes whole. */
  lemma SweepKeepsCountsExactly(db: Db, cutoff: Time)
    requires Sound(db) && Counted(db)
    ensures Counted(SweepExpired(db, cutoff)) <==>
            forall id :: id in db.alerts && db.alerts[id].receivedAt < cutoff && db.alerts[id].room.Some? ==>
                           GoesWhole(db, db.alerts[id].room.value, cutoff)
  {
    var after := SweepExpired(db, cutoff);
    var expired := ExpiredAlerts(db.alerts, cutoff);
    forall r | r in db.rooms
      ensures r !in after.rooms <==> GoesWhole(db, r, cutoff)
      ensures r in after.rooms ==> (Counts(after.rooms[r], ViewOf(after.alerts, r)) <==> Held(db.alerts, r) !! expired)
    {
      GoesExactlyWhole(db, r, cutoff);
      if r in after.rooms {
        LosingRooms(db, cutoff, r);
      }
    }
    if Counted(after) {
      forall id | id in expired && db.alerts[id].room.Some?
        ensures GoesWhole(db, db.alerts[id].room.value, cutoff)
      {
        assert id in Held(db.alerts, db.alerts[id].room.value);
      }
    }
  }

  /** A pass over one open room's only alert: the room survives, counting an alert that is gone. */
  lemma ASweepCanLeaveACountBehind(at: Time, received: Time, window: Time, cutoff: Time, now: Time)
    requires window > 0 && received < cutoff
    ensures var end := Db(map[], OneWarning(at, received).rooms);
            && Runs(EMPTY, [] + [DoRecord(Offered(1, at, received, window))] + [DoDeleteBatch(AlertRows, cutoff, {1}, now)], end)
            && end == SweepExpired(OneWarning(at, received), cutoff)
            && Held(end.alerts, 1) == {} && end.rooms[1].occurrences == 1 && !Counted(end)
  {
    var db, end := OneWarning(at, received), Db(map[], OneWarning(at, received).rooms);
    var batch := DoDeleteBatch(AlertRows, cutoff, {1}, now);
    FirstOpens(at, received, window);
    assert Runs(EMPTY, [], EMPTY);
    OneMoreStep(EMPTY, [], EMPTY, DoRecord(Offered(1, at, received, window)));
    assert ExpiredAlerts(db.alerts, cutoff) == {1};
    OneMoreStep(EMPTY, [] + [DoRecord(Offered(1, at, received, window))], db, batch);
    assert db.alerts - {1} == map[];
    assert ExpiredRooms(end, cutoff) == {};
    assert !Counts(end.rooms[1], ViewOf(end.alerts, 1));
  }

  lemma LosingRooms(db: Db, cutoff: Time, r: Uuid)
    requires Sound(db) && Counted(db) && r in SweepExpired(db, cutoff).rooms
    ensures var after := SweepExpired(db, cutoff);
            Counts(after.rooms[r], ViewOf(after.alerts, r)) <==> Held(db.alerts, r) !! ExpiredAlerts(db.alerts, cutoff)
  {
    var after := SweepExpired(db, cutoff);
    var expired := ExpiredAlerts(db.alerts, cutoff);
    var kept := Held(db.alerts, r) - expired;
    assert Held(after.alerts, r) == kept;
    if Held(db.alerts, r) !! expired {
      assert kept == Held(db.alerts, r);
      SameRowsSameView(db.alerts, after.alerts, kept);
    } else {
      assert db.rooms[r].key.rule != STORM_RULE_ID;
      SubsetSizeStrict(kept, Held(db.alerts, r));
    }
  }
}

/** The hourly ceiling, and where every offered alert ends up. */
module StoreBudget {
  import opened Collections
  import opened Incidents
  import opened Tables
  import opened StoreSteps
  import opened StoreSoundness
  import opened StoreTallies
  import opened StoreRuns

  // ----- which alert rows a step leaves -----

  /** The same rows but for the rooms they are filed into. */
  predicate SameRows(a: map<Uuid, AlertRow>, b: map<Uuid, AlertRow>)
  {
    a.Keys == b.Keys && forall id :: id in a ==> a[id].alert == b[id].alert && a[id].receivedAt == b[id].receivedAt
  }

  predicate FewerRows(a: map<Uuid, AlertRow>, b: map<Uuid, AlertRow>)
  {
    a.Keys <= b.Keys && forall id :: id in a ==> a[id] == b[id]
  }

  lemma FoldKeepsRows(db: Db, f: Folding)
    ensures SameRows(Fold(db, f).alerts, db.alerts)
  {
  }

  lemma RecordRows(db: Db, o: Offer)
    ensures SameRows(Record(db, o).alerts,
                     if RecordAnswer(db, o) == Filed(Stored) then Inserted(db.alerts, o) else db.alerts)
  {
    if RecordAnswer(db, o) == Filed(Stored) {
      FoldKeepsRows(Db(Inserted(db.alerts, o), db.rooms), FoldingOf(o));
    }
  }

  lemma OtherStepsAddNoRows(db: Db, op: Op)
    requires !op.DoRecord?
    ensures FewerRows(Apply(db, op).alerts, db.alerts)
    ensures !op.DoEraseDevice? && !op.DoDeleteBatch? ==> Apply(db, op).alerts == db.alerts
  {
    if !op.DoEraseDevice? && !op.DoDeleteBatch? {
      OtherStepsOnlyMoveStandings(db, op);
    }
  }

  // ----- the rolling hour -----

  function InHour(alerts: map<Uuid, AlertRow>, organization: Uuid, t: Time): set<Uuid>
  {
    set id | id in alerts && alerts[id].alert.organization == organization && t - HOUR < alerts[id].receivedAt <= t
  }

  ghost predicate WithinCeiling(alerts: map<Uuid, AlertRow>, organization: Uuid, limit: nat, clock: Time)
  {
    && (forall id :: id in alerts ==> alerts[id].receivedAt <= clock)
    && (forall t :: |InHour(alerts, organization, t)| <= limit)
  }

  lemma CeilingForFewer(a: map<Uuid, AlertRow>, b: map<Uuid, AlertRow>, organization: Uuid, limit: nat, clock: Time, later: Time)
    requires WithinCeiling(b, organization, limit, clock) && clock <= later
    requires FewerRows(a, b) || SameRows(a, b)
    ensures WithinCeiling(a, organization, limit, later)
  {
    forall t
      ensures |InHour(a, organization, t)| <= limit
    {
      SubsetSize(InHour(a, organization, t), InHour(b, organization, t));
    }
  }

  lemma CeilingForInserted(alerts: map<Uuid, AlertRow>, o: Offer, organization: Uuid, limit: nat, clock: Time)
    requires WithinCeiling(alerts, organization, limit, clock) && clock <= o.now
    requires o.id !in alerts
    requires o.alert.organization == organization ==> WithinBudget(alerts, o) && o.limit <= limit
    ensures WithinCeiling(Inserted(alerts, o), organization, limit, o.now)
  {
    var after := Inserted(alerts, o);
    forall t
      ensures |InHour(after, organization, t)| <= limit
    {
      if o.alert.organization == organization && t - HOUR < o.now <= t {
        var recent := Recent(alerts, organization, o.now - HOUR);
        assert InHour(after, organization, t) <= recent + {o.id};
        SubsetSize(InHour(after, organization, t), recent + {o.id});
      } else {
        assert InHour(after, organization, t) == InHour(alerts, organization, t);
      }
    }
  }

  /** The store's clock never goes back. */
  const AT: Op -> Time := (op: Op) => op.At()

  predicate BudgetAtMost(ops: seq<Op>, organization: Uuid, limit: nat)
  {
    forall i :: 0 <= i < |ops| && ops[i].DoRecord? && ops[i].offer.alert.organization == organization ==>
      ops[i].offer.limit <= limit
  }

  lemma StepWithinCeiling(db: Db, op: Op, organization: Uuid, limit: nat, clock: Time)
    requires WithinCeiling(db.alerts, organization, limit, clock) && clock <= op.At()
    requires op.DoRecord? && op.offer.alert.organization == organization ==> op.offer.limit <= limit
    ensures WithinCeiling(Apply(db, op).alerts, organization, limit, op.At())
  {
    if op.DoRecord? {
      var o := op.offer;
      RecordRows(db, o);
      if RecordAnswer(db, o) == Filed(Stored) {
        CeilingForInserted(db.alerts, o, organization, limit, clock);
        CeilingForFewer(Record(db, o).alerts, Inserted(db.alerts, o), organization, limit, o.now, o.now);
      } else {
        CeilingForFewer(Record(db, o).alerts, db.alerts, organization, limit, clock, o.now);
      }
    } else {
      OtherStepsAddNoRows(db, op);
      CeilingForFewer(Apply(db, op).alerts, db.alerts, organization, limit, clock, op.At());
    }
  }

  lemma {:induction false} CeilingHolds(db: Db, ops: seq<Op>, end: Db, organization: Uuid, limit: nat, clock: Time, t: Time)
    requires WithinCeiling(db.alerts, organization, limit, clock)
    requires Runs(db, ops, end) && ClockRuns(clock, ops, AT) && BudgetAtMost(ops, organization, limit)
    ensures |InHour(end.alerts, organization, t)| <= limit
    decreases |ops|
  {
    if ops != [] {
      StepWithinCeiling(db, ops[0], organization, limit, clock);
      CeilingHolds(Apply(db, ops[0]), ops[1..], end, organization, limit, ops[0].At(), t);
    }
  }

  /** No rolling hour ever holds more of one customer's rows than its budget. */
  lemma NoHourExceedsTheBudget(ops: seq<Op>, end: Db, organization: Uuid, limit: nat, t: Time)
    requires Runs(EMPTY, ops, end) && BudgetAtMost(ops, organization, limit)
    requires Forward(ops, AT)
    ensures |InHour(end.alerts, organization, t)| <= limit
  {
    if ops != [] {
      assert forall u :: InHour(EMPTY.alerts, organization, u) == {};
      CeilingHolds(EMPTY, ops, end, organization, limit, ops[0].At(), t);
    }
  }

  /** While the clock has not gone back, a new identity is suppressed exactly when the hour ending now is full. */
  lemma SuppressedExactlyWhenTheHourIsFull(db: Db, o: Offer)
    requires forall id :: id in db.alerts ==> db.alerts[id].receivedAt <= o.now
    requires o.grouping.Usable() && !StoredIdentity(db.alerts, o.alert)
    ensures RecordAnswer(db, o) == Filed(CeilingSuppressed)
            <==> |InHour(db.alerts, o.alert.organization, o.now)| >= o.limit
  {
    assert InHour(db.alerts, o.alert.organization, o.now) == Recent(db.alerts, o.alert.organization, o.now - HOUR);
  }

  // ----- stored, duplicate or suppressed -----

  function StormTally(rooms: map<Uuid, Room>, organization: Uuid): map<Uuid, nat>
  {
    map r | r in rooms && rooms[r].key.rule == STORM_RULE_ID && rooms[r].key.organization == organization
      :: rooms[r].occurrences
  }

  function RowsOf(alerts: map<Uuid, AlertRow>, organization: Uuid): set<Uuid>
  {
    set id | id in alerts && alerts[id].alert.organization == organization
  }

  /** How many of a run's offers from one customer came back with `outcome`. */
  ghost function Answered(db: Db, ops: seq<Op>, organization: Uuid, outcome: Outcome): nat
    decreases |ops|
  {
    if ops == [] then 0
    else Answered(Apply(db, ops[0]), ops[1..], organization, outcome) + Answers(db, ops[0], organization, outcome)
  }

  ghost function Answers(db: Db, op: Op, organization: Uuid, outcome: Outcome): nat
  {
    if op.DoRecord? && op.offer.alert.organization == organization && RecordAnswer(db, op.offer) == Filed(outcome)
    then 1 else 0
  }

  predicate SameStorms(a: map<Uuid, Room>, b: map<Uuid, Room>)
  {
    && (forall r :: r in a && a[r].key.rule == STORM_RULE_ID ==> r in b && b[r].key == a[r].key && b[r].occurrences == a[r].occurrences)
    && (forall r :: r in b && b[r].key.rule == STORM_RULE_ID ==> r in a && b[r].key == a[r].key)
  }

  lemma SameStormsSameTally(a: map<Uuid, Room>, b: map<Uuid, Room>, organization: Uuid)
    requires SameStorms(a, b)
    ensures StormTally(a, organization) == StormTally(b, organization)
  {
  }

  lemma FileIntoKeepsStorms(db: Db, ids: set<Uuid>, r: Uuid)
    requires r in db.rooms && db.rooms[r].key.rule != STORM_RULE_ID
    ensures SameStorms(db.rooms, FileInto(db, ids, r).rooms)
  {
  }

  lemma OpenKeepsStorms(db: Db, f: Folding)
    requires OpenRoom(db.rooms, f.key).None? && f.roomId !in db.rooms && f.key.rule != STORM_RULE_ID
    ensures SameStorms(db.rooms, OpenIfDue(db, f).rooms)
  {
    if f.OpensARoom(db.alerts) {
      var begun := db.(rooms := db.rooms[f.roomId := NewRoom(f.key, f.alert.severity, f.now, f.alert.observedAt, 0)]);
      FileIntoKeepsStorms(begun, f.Gathered(db.alerts) + {f.id}, f.roomId);
    }
  }

  lemma FoldKeepsStorms(db: Db, f: Folding)
    requires FoldReady(db, f) && f.alert.rule != STORM_RULE_ID
    ensures SameStorms(db.rooms, Fold(db, f).rooms)
  {
    match OpenRoom(db.rooms, f.key) {
      case None => OpenKeepsStorms(db, f);
      case Some(r) =>
        if Grouping(None, f.window).Spans(db.rooms[r].firstSeen, db.rooms[r].lastSeen, f.alert.observedAt) {
          FileIntoKeepsStorms(db, {f.id}, r);
        } else {
          LapseKeepsStorms(db, f, r);
        }
    }
  }

  lemma LapseKeepsStorms(db: Db, f: Folding, r: Uuid)
    requires FoldReady(db, f) && f.alert.rule != STORM_RULE_ID && OpenFor(db.rooms, f.key, r)
    ensures SameStorms(db.rooms, OpenIfDue(CloseLapsed(db, r, f.window), f).rooms)
  {
    var closed := CloseLapsed(db, r, f.window);
    CloseLapsedIsSound(db, r, f.window);
    CloseKeepsStorms(db, r, f.window);
    OpenKeepsStorms(closed, f);
    SameStormsTwice(db.rooms, closed.rooms, OpenIfDue(closed, f).rooms);
  }

  lemma CloseKeepsStorms(db: Db, r: Uuid, window: Time)
    requires r in db.rooms && db.rooms[r].key.rule != STORM_RULE_ID
    ensures SameStorms(db.rooms, CloseLapsed(db, r, window).rooms)
  {
  }

  lemma SameStormsTwice(a: map<Uuid, Room>, b: map<Uuid, Room>, c: map<Uuid, Room>)
    requires SameStorms(a, b) && SameStorms(b, c)
    ensures SameStorms(a, c)
  {
  }

  lemma EraseKeepsStorms(db: Db, device: Uuid, at: Time)
    requires Sound(db)
    ensures SameStorms(db.rooms, EraseDevice(db, device, at).rooms)
  {
    forall r | r in db.rooms && db.rooms[r].key.rule == STORM_RULE_ID
      ensures !Feeds(db.alerts, r, device)
    {
    }
  }

  lemma StormTallyPut(rooms: map<Uuid, Room>, r: Uuid, room: Room, organization: Uuid)
    requires room.key == StormKey(organization)
    requires r in rooms ==> rooms[r].key == room.key
    ensures StormTally(rooms[r := room], organization) == StormTally(rooms, organization)[r := room.occurrences]
    ensures forall other :: other != organization ==> StormTally(rooms[r := room], other) == StormTally(rooms, other)
  {
  }

  lemma StormCountsOne(db: Db, organization: Uuid, now: Time, roomId: Uuid, other: Uuid)
    requires roomId !in db.rooms
    ensures Total(StormTally(FoldIntoStorm(db, organization, now, roomId).rooms, other))
            == Total(StormTally(db.rooms, other)) + (if other == organization then 1 else 0)
  {
    var before := StormTally(db.rooms, organization);
    match OpenRoom(db.rooms, StormKey(organization)) {
      case None =>
        StormTallyPut(db.rooms, roomId, NewRoom(StormKey(organization), STORM_SEVERITY, now, now, 1), organization);
        TotalPut(before, roomId, 1);
      case Some(r) =>
        var room := db.rooms[r];
        StormTallyPut(db.rooms, r, room.(occurrences := room.occurrences + 1, lastSeen := now), organization);
        TotalPut(before, r, room.occurrences + 1);
    }
  }

  lemma StepKeepsStorms(db: Db, op: Op)
    requires Sound(db) && Legal(db, op) && !op.DoDeleteBatch?
    requires op.DoRecord? ==> RecordAnswer(db, op.offer) != Filed(CeilingSuppressed)
    ensures SameStorms(db.rooms, Apply(db, op).rooms)
  {
    if op.DoRecord? {
      if RecordAnswer(db, op.offer) == Filed(Stored) {
        StoredIsFoldReady(db, op.offer);
        FoldKeepsStorms(Db(Inserted(db.alerts, op.offer), db.rooms), FoldingOf(op.offer));
      }
    } else if op.DoEraseDevice? {
      EraseKeepsStorms(db, op.device, op.at);
    } else {
      OtherStepsOnlyMoveStandings(db, op);
      SameTalliesSameStorms(db, Apply(db, op));
    }
  }

  lemma SameTalliesSameStorms(db: Db, after: Db)
    requires OnlyStandings(db, after)
    ensures SameStorms(db.rooms, after.rooms)
  {
    forall r | r in db.rooms
      ensures SameTallies(db.rooms[r], after.rooms[r])
    {
    }
  }

  lemma StepCountsStorms(db: Db, op: Op, organization: Uuid)
    requires Sound(db) && Legal(db, op) && !op.DoDeleteBatch?
    ensures Total(StormTally(Apply(db, op).rooms, organization))
            == Total(StormTally(db.rooms, organization)) + Answers(db, op, organization, CeilingSuppressed)
  {
    if op.DoRecord? && RecordAnswer(db, op.offer) == Filed(CeilingSuppressed) {
      StormCountsOne(db, op.offer.alert.organization, op.offer.now, op.offer.roomId, organization);
    } else {
      StepKeepsStorms(db, op);
      SameStormsSameTally(db.rooms, Apply(db, op).rooms, organization);
    }
  }

  lemma {:induction false} StormsCount(db: Db, ops: seq<Op>, end: Db, organization: Uuid)
    requires Sound(db) && Runs(db, ops, end) && NoRetention(ops)
    ensures Total(StormTally(end.rooms, organization))
            == Total(StormTally(db.rooms, organization)) + Answered(db, ops, organization, CeilingSuppressed)
    decreases |ops|
  {
    if ops != [] {
      StepIsSound(db, ops[0]);
      StepCountsStorms(db, ops[0], organization);
      StormsCount(Apply(db, ops[0]), ops[1..], end, organization);
    }
  }

  lemma SameRowsOf(a: map<Uuid, AlertRow>, b: map<Uuid, AlertRow>, organization: Uuid)
    requires SameRows(a, b)
    ensures RowsOf(a, organization) == RowsOf(b, organization)
  {
  }

  lemma InsertedRowsOf(alerts: map<Uuid, AlertRow>, o: Offer, organization: Uuid)
    requires o.id !in alerts
    ensures |RowsOf(Inserted(alerts, o), organization)|
            == |RowsOf(alerts, organization)| + (if o.alert.organization == organization then 1 else 0)
  {
    assert RowsOf(Inserted(alerts, o), organization)
           == RowsOf(alerts, organization) + (if o.alert.organization == organization then {o.id} else {});
  }

  lemma StepCountsRows(db: Db, op: Op, organization: Uuid)
    requires !op.DoDeleteBatch? && !op.DoEraseDevice?
    ensures |RowsOf(Apply(db, op).alerts, organization)|
            == |RowsOf(db.alerts, organization)| + Answers(db, op, organization, Stored)
  {
    if op.DoRecord? {
      RecordRows(db, op.offer);
      if RecordAnswer(db, op.offer) == Filed(Stored) {
        SameRowsOf(Record(db, op.offer).alerts, Inserted(db.alerts, op.offer), organization);
        InsertedRowsOf(db.alerts, op.offer, organization);
      } else {
        SameRowsOf(Record(db, op.offer).alerts, db.alerts, organization);
      }
    } else {
      OtherStepsAddNoRows(db, op);
    }
  }

  lemma {:induction false} RowsCount(db: Db, ops: seq<Op>, end: Db, organization: Uuid)
    requires Runs(db, ops, end) && NoDeletion(ops)
    ensures |RowsOf(end.alerts, organization)| == |RowsOf(db.alerts, organization)| + Answered(db, ops, organization, Stored)
    decreases |ops|
  {
    if ops != [] {
      StepCountsRows(db, ops[0], organization);
      RowsCount(Apply(db, ops[0]), ops[1..], end, organization);
    }
  }

  /** A customer's storm rooms count exactly its suppressed offers, and its rows exactly the stored ones. */
  lemma NothingIsLostUncounted(ops: seq<Op>, end: Db, organization: Uuid)
    requires Runs(EMPTY, ops, end) && NoRetention(ops)
    ensures Total(StormTally(end.rooms, organization)) == Answered(EMPTY, ops, organization, CeilingSuppressed)
    ensures NoDeletion(ops) ==> |RowsOf(end.alerts, organization)| == Answered(EMPTY, ops, organization, Stored)
  {
    EmptyIsSound();
    StormsCount(EMPTY, ops, end, organization);
    assert StormTally(EMPTY.rooms, organization) == map[];
    if NoDeletion(ops) {
      RowsCount(EMPTY, ops, end, organization);
      assert RowsOf(EMPTY.alerts, organization) == {};
    }
  }

  lemma {:induction false} IdentityPersists(db: Db, ops: seq<Op>, end: Db, alert: Alert)
    requires StoredIdentity(db.alerts, alert) && Runs(db, ops, end) && NoDeletion(ops)
    ensures StoredIdentity(end.alerts, alert)
    decreases |ops|
  {
    if ops != [] {
      var id :| id in db.alerts && SameIdentity(db.alerts[id].alert, alert);
      var next := Apply(db, ops[0]);
      if ops[0].DoRecord? {
        RecordRows(db, ops[0].offer);
      } else {
        OtherStepsAddNoRows(db, ops[0]);
      }
      assert id in next.alerts && next.alerts[id].alert == db.alerts[id].alert;
      IdentityPersists(next, ops[1..], end, alert);
    }
  }

  /** However long after, and with the budget spent or not, a replay of a stored identity is a duplicate and writes nothing. */
  lemma ReplayChangesNothing(db: Db, o: Offer, ops: seq<Op>, end: Db, again: Offer)
    requires RecordAnswer(db, o) == Filed(Stored)
    requires Runs(Record(db, o), ops, end) && NoDeletion(ops)
    requires SameIdentity(o.alert, again.alert) && again.grouping.Usable()
    ensures RecordAnswer(end, again) == Filed(Duplicate) && Record(end, again) == end
  {
    RecordRows(db, o);
    assert o.id in Record(db, o).alerts && SameIdentity(Record(db, o).alerts[o.id].alert, again.alert);
    IdentityPersists(Record(db, o), ops, end, again.alert);
  }
}

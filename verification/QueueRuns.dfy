/** The queue over runs of the store: complete while stamps precede the sentinel, and not beyond it. */
module QueueRuns {
  import opened Collections
  import opened Incidents
  import opened Tables
  import opened StoreSteps
  import opened StoreSoundness
  import opened StoreRuns
  import opened StoreExamples
  import opened Queue

  /** Everything observed and every room's last activity precedes an instant. */
  ghost predicate AllBefore(db: Db, bound: Time)
  {
    && (forall id :: id in db.alerts ==> db.alerts[id].alert.observedAt < bound)
    && (forall r :: r in db.rooms ==> db.rooms[r].lastSeen < bound)
  }

  /** Every alert offered was observed, and received, before an instant. */
  predicate StampsBefore(ops: seq<Op>, bound: Time)
  {
    forall i :: 0 <= i < |ops| && ops[i].DoRecord? ==>
      ops[i].offer.alert.observedAt < bound && ops[i].offer.now < bound
  }

  lemma FileIntoBefore(db: Db, ids: set<Uuid>, r: Uuid, bound: Time)
    requires AllBefore(db, bound) && r in db.rooms
    ensures AllBefore(FileInto(db, ids, r), bound)
  {
    var alerts := Attached(db.alerts, ids, r);
    var held := Held(alerts, r);
    if held != {} {
      var id := Pick(held);
      assert alerts[id].alert.observedAt in Times(alerts, held);
      assert MaxOf(Times(alerts, held)) in Times(alerts, held);
    }
  }

  lemma OpenIfDueBefore(db: Db, f: Folding, bound: Time)
    requires AllBefore(db, bound) && f.alert.observedAt < bound
    ensures AllBefore(OpenIfDue(db, f), bound)
  {
    if f.OpensARoom(db.alerts) {
      var (rooms, r) := OpenOrJoin(db.rooms, f);
      FileIntoBefore(Db(db.alerts, rooms), f.Gathered(db.alerts) + {f.id}, r, bound);
    }
  }

  lemma FoldBefore(db: Db, f: Folding, bound: Time)
    requires AllBefore(db, bound) && f.alert.observedAt < bound
    ensures AllBefore(Fold(db, f), bound)
  {
    match OpenRoom(db.rooms, f.key) {
      case None => OpenIfDueBefore(db, f, bound);
      case Some(r) =>
        FileIntoBefore(db, {f.id}, r, bound);
        OpenIfDueBefore(CloseLapsed(db, r, f.window), f, bound);
    }
  }

  lemma StepBefore(db: Db, op: Op, bound: Time)
    requires AllBefore(db, bound) && Legal(db, op)
    requires op.DoRecord? ==> op.offer.alert.observedAt < bound && op.offer.now < bound
    ensures AllBefore(Apply(db, op), bound)
  {
    if op.DoRecord? {
      var o := op.offer;
      if RecordAnswer(db, o) == Filed(Stored) {
        FoldBefore(Db(Inserted(db.alerts, o), db.rooms), FoldingOf(o), bound);
      }
    } else if !op.DoEraseDevice? && !op.DoDeleteBatch? {
      OtherStepsOnlyMoveStandings(db, op);
    }
  }

  lemma {:induction false} RunBefore(db: Db, ops: seq<Op>, end: Db, bound: Time)
    requires AllBefore(db, bound) && Runs(db, ops, end) && StampsBefore(ops, bound)
    ensures AllBefore(end, bound)
    decreases |ops|
  {
    if ops != [] {
      StepBefore(db, ops[0], bound);
      RunBefore(Apply(db, ops[0]), ops[1..], end, bound);
    }
  }

  /** After any run whose stamps precede the sentinel, the pages read from the zero cursor list every matching room once. */
  lemma TheQueueIsComplete(ops: seq<Op>, end: Db, f: Filter, rows: seq<Uuid>)
    requires Runs(EMPTY, ops, end) && StampsBefore(ops, BEYOND_THE_QUEUE.lastSeen) && f.after.IsZero()
    requires Lists(end, rows, Remaining(end, f, f.Normalized().after))
    ensures NIL !in end.rooms && Lists(end, rows, Matching(end, f))
  {
    EmptyIsSound();
    EveryRunIsSound(EMPTY, ops, end);
    RunBefore(EMPTY, ops, end, BEYOND_THE_QUEUE.lastSeen);
    ReachesAllExactly(end, f, rows);
  }

  /** One warning recorded with a stamp past the sentinel: its room matches the open filter and is on no page. */
  lemma TheSentinelHidesARoom(at: Time, now: Time, window: Time)
    requires window > 0 && at > BEYOND_THE_QUEUE.lastSeen
    ensures var end := OneWarning(at, now);
            var f := Filter(NIL, [], [], "", NIL, NIL, NOWHERE, 0);
            && Runs(EMPTY, [DoRecord(Offered(1, at, now, window))], end)
            && Matching(end, f) == {1} && Remaining(end, f, f.Normalized().after) == {}
  {
    var end := OneWarning(at, now);
    var f := Filter(NIL, [], [], "", NIL, NIL, NOWHERE, 0);
    FirstOpens(at, now, window);
    OneStep(EMPTY, DoRecord(Offered(1, at, now, window)));
    assert f.Selects(end, 1);
  }
}

/** The stale sweep and the fold close a lapsed room the same way. */
module StoreTransparency {
  import opened Collections
  import opened Incidents
  import opened Tables
  import opened StoreSteps
  import opened StoreSoundness
  import opened StoreExamples

  /** A stored offer that arrives after everything its key's open room could still gather. */
  ghost predicate Lapses(db: Db, o: Offer, r: Uuid)
  {
    && Sound(db) && Legal(db, DoRecord(o)) && RecordAnswer(db, o) == Filed(Stored)
    && OpenFor(db.rooms, FoldingOf(o).key, r)
    && o.grouping.Lapsed(db.rooms[r].lastSeen, o.alert.observedAt)
  }

  /** The sweep leaves the room alone, or closes it after the same hold the fold uses. */
  predicate Agrees(sweep: Sweep, room: Room, window: Time)
  {
    sweep.Due(room) ==> Holds(sweep.windows)[room.key.rule] == window
  }

  /** Opening a room reads no other room and writes none. */
  lemma OpeningIsLocal(alerts: map<Uuid, AlertRow>, rooms: map<Uuid, Room>, others: map<Uuid, Room>, f: Folding)
    requires OpenRoom(rooms, f.key).None? && OpenRoom(others, f.key).None?
    ensures var one, two := OpenIfDue(Db(alerts, rooms), f), OpenIfDue(Db(alerts, others), f);
            && one.alerts == two.alerts
            && if f.OpensARoom(alerts)
               then f.roomId in one.rooms
                    && one.rooms == rooms[f.roomId := one.rooms[f.roomId]]
                    && two.rooms == others[f.roomId := one.rooms[f.roomId]]
               else one.rooms == rooms && two.rooms == others
  {
  }

  lemma SweepLeavesOrCloses(db: Db, o: Offer, r: Uuid, sweep: Sweep, over: set<Uuid>)
    requires Lapses(db, o, r)
    ensures OpenRoom(SweepRooms(db.rooms, sweep, over), FoldingOf(o).key)
            == if r in over && sweep.Due(db.rooms[r]) then None else Some(r)
  {
    var key, swept := FoldingOf(o).key, SweepRooms(db.rooms, sweep, over);
    assert forall s :: OpenFor(swept, key, s) ==> OpenFor(db.rooms, key, s);
    assert forall s :: OpenFor(db.rooms, key, s) ==> s == r;
    if !(r in over && sweep.Due(db.rooms[r])) {
      assert OpenFor(swept, key, r);
    }
  }

  lemma FoldOfLapsed(db: Db, o: Offer, r: Uuid)
    requires Lapses(db, o, r)
    ensures var begun := CloseLapsed(Db(Inserted(db.alerts, o), db.rooms), r, o.grouping.window);
            && Record(db, o) == OpenIfDue(begun, FoldingOf(o))
            && OpenRoom(begun.rooms, FoldingOf(o).key).None?
  {
    TheOpenRoom(db.rooms, FoldingOf(o).key, r);
    StoredIsFoldReady(db, o);
    CloseLapsedIsSound(Db(Inserted(db.alerts, o), db.rooms), r, o.grouping.window);
  }

  lemma SweptEqualsClosed(rooms: map<Uuid, Room>, r: Uuid, sweep: Sweep, over: set<Uuid>, window: Time)
    requires r in rooms && r in over && sweep.Due(rooms[r]) && Agrees(sweep, rooms[r], window)
    ensures SweepRooms(rooms, sweep, over) == SweepRooms(rooms[r := LapsedRoom(rooms[r], window)], sweep, over - {r})
  {
  }

  lemma SparedThenClosed(rooms: map<Uuid, Room>, r: Uuid, sweep: Sweep, over: set<Uuid>, window: Time)
    requires r in rooms && !(r in over && sweep.Due(rooms[r]))
    ensures r in SweepRooms(rooms, sweep, over) && SweepRooms(rooms, sweep, over)[r] == rooms[r]
    ensures SweepRooms(rooms, sweep, over)[r := LapsedRoom(rooms[r], window)]
            == SweepRooms(rooms[r := LapsedRoom(rooms[r], window)], sweep, over - {r})
  {
  }

  /** The rooms behind the insert once the lapsed room is closed and the others swept. */
  ghost function Behind(db: Db, r: Uuid, window: Time, sweep: Sweep, over: set<Uuid>): map<Uuid, Room>
    requires r in db.rooms
  {
    SweepRooms(db.rooms[r := LapsedRoom(db.rooms[r], window)], sweep, over - {r})
  }

  /** Whether the sweep or the fold closes the room, the insert finds the same rooms behind it. */
  lemma SweptThenFolded(db: Db, o: Offer, r: Uuid, sweep: Sweep, over: set<Uuid>)
    requires Lapses(db, o, r)
    requires r in over ==> Agrees(sweep, db.rooms[r], o.grouping.window)
    ensures var closed := Behind(db, r, o.grouping.window, sweep, over);
            && Record(db.(rooms := SweepRooms(db.rooms, sweep, over)), o)
               == OpenIfDue(Db(Inserted(db.alerts, o), closed), FoldingOf(o))
            && OpenRoom(closed, FoldingOf(o).key).None?
  {
    if r in over && sweep.Due(db.rooms[r]) {
      SweptClosesFirst(db, o, r, sweep, over);
    } else {
      StillLapses(db, o, r, sweep, over);
      SparedThenClosed(db.rooms, r, sweep, over, o.grouping.window);
      FoldOfLapsed(db.(rooms := SweepRooms(db.rooms, sweep, over)), o, r);
    }
  }

  lemma SweptClosesFirst(db: Db, o: Offer, r: Uuid, sweep: Sweep, over: set<Uuid>)
    requires Lapses(db, o, r) && r in over && sweep.Due(db.rooms[r])
    requires Agrees(sweep, db.rooms[r], o.grouping.window)
    ensures var closed := Behind(db, r, o.grouping.window, sweep, over);
            && Record(db.(rooms := SweepRooms(db.rooms, sweep, over)), o)
               == OpenIfDue(Db(Inserted(db.alerts, o), closed), FoldingOf(o))
            && OpenRoom(closed, FoldingOf(o).key).None?
  {
    SweepLeavesOrCloses(db, o, r, sweep, over);
    SweptEqualsClosed(db.rooms, r, sweep, over, o.grouping.window);
  }

  lemma StillLapses(db: Db, o: Offer, r: Uuid, sweep: Sweep, over: set<Uuid>)
    requires Lapses(db, o, r) && !(r in over && sweep.Due(db.rooms[r]))
    ensures Lapses(db.(rooms := SweepRooms(db.rooms, sweep, over)), o, r)
  {
    SparedThenClosed(db.rooms, r, sweep, over, o.grouping.window);
    SweepRoomsIsSound(db, sweep, over);
  }

  /** A room the sweep does not visit can be put in before or after it. */
  lemma SweepAround(rooms: map<Uuid, Room>, sweep: Sweep, over: set<Uuid>, r: Uuid, room: Room)
    requires r !in over
    ensures SweepRooms(rooms[r := room], sweep, over) == SweepRooms(rooms, sweep, over)[r := room]
  {
  }

  /** Sweeping any rooms before a lapsing alert, or all but its own room after it, leaves the same tables:
      rooms, attachments, resolution instants and histories. */
  lemma SweepCommutes(db: Db, o: Offer, r: Uuid, sweep: Sweep, over: set<Uuid>)
    requires Lapses(db, o, r) && over <= db.rooms.Keys
    requires r in over ==> Agrees(sweep, db.rooms[r], o.grouping.window)
    ensures var after := Record(db, o);
            Record(db.(rooms := SweepRooms(db.rooms, sweep, over)), o)
            == after.(rooms := SweepRooms(after.rooms, sweep, over - {r}))
  {
    var f, alerts := FoldingOf(o), Inserted(db.alerts, o);
    var begun := CloseLapsed(Db(alerts, db.rooms), r, o.grouping.window).rooms;
    var after := Record(db, o);
    FoldOfLapsed(db, o, r);
    SweptThenFolded(db, o, r, sweep, over);
    OpeningIsLocal(alerts, begun, SweepRooms(begun, sweep, over - {r}), f);
    if f.OpensARoom(alerts) {
      SweepAround(begun, sweep, over - {r}, f.roomId, after.rooms[f.roomId]);
    }
  }

  lemma SweepOfNone(rooms: map<Uuid, Room>, sweep: Sweep)
    ensures SweepRooms(rooms, sweep, {}) == rooms
  {
  }

  lemma AgreementHides(db: Db, o: Offer, r: Uuid, sweep: Sweep)
    requires Lapses(db, o, r) && Agrees(sweep, db.rooms[r], o.grouping.window)
    ensures Record(db.(rooms := SweepRooms(db.rooms, sweep, {r})), o) == Record(db, o)
  {
    SweepCommutes(db, o, r, sweep, {r});
    assert {r} - {r} == {};
    SweepOfNone(Record(db, o).rooms, sweep);
  }

  /** Sweeping the lapsed room first is invisible exactly when the sweep spares it or its hold is the grouping window. */
  lemma SweepIsTransparentExactly(db: Db, o: Offer, r: Uuid, sweep: Sweep)
    requires Lapses(db, o, r)
    ensures Record(db.(rooms := SweepRooms(db.rooms, sweep, {r})), o) == Record(db, o)
            <==> Agrees(sweep, db.rooms[r], o.grouping.window)
  {
    if Agrees(sweep, db.rooms[r], o.grouping.window) {
      AgreementHides(db, o, r, sweep);
    } else {
      DisagreementShows(db, o, r, sweep);
    }
  }

  /** A swept room keeps the instant the sweep stamped; a folded one gets the window's. */
  lemma DisagreementShows(db: Db, o: Offer, r: Uuid, sweep: Sweep)
    requires Lapses(db, o, r) && !Agrees(sweep, db.rooms[r], o.grouping.window)
    ensures Record(db.(rooms := SweepRooms(db.rooms, sweep, {r})), o) != Record(db, o)
  {
    FoldedInstant(db, o, r);
    SweptInstant(db, o, r, sweep);
  }

  lemma FoldedInstant(db: Db, o: Offer, r: Uuid)
    requires Lapses(db, o, r)
    ensures r in Record(db, o).rooms && Record(db, o).rooms[r] == LapsedRoom(db.rooms[r], o.grouping.window)
  {
    FoldOfLapsed(db, o, r);
    var begun := CloseLapsed(Db(Inserted(db.alerts, o), db.rooms), r, o.grouping.window).rooms;
    OpeningIsLocal(Inserted(db.alerts, o), begun, begun, FoldingOf(o));
  }

  lemma SweptInstant(db: Db, o: Offer, r: Uuid, sweep: Sweep)
    requires Lapses(db, o, r) && sweep.Due(db.rooms[r])
    ensures var end := Record(db.(rooms := SweepRooms(db.rooms, sweep, {r})), o);
            r in end.rooms && end.rooms[r] == LapsedRoom(db.rooms[r], Holds(sweep.windows)[db.rooms[r].key.rule])
  {
    var swept := SweepRooms(db.rooms, sweep, {r});
    SweepLeavesOrCloses(db, o, r, sweep, {r});
    OpeningIsLocal(Inserted(db.alerts, o), swept, swept, FoldingOf(o));
  }

  // ----- a sweep with another hold -----

  const WINDOW: Time := 10 * SECOND
  const LONGER: Time := 20 * SECOND
  const SWEEP: Sweep := Sweep(map[RULE := LONGER], 30 * SECOND, map[1 := Machine(None, false)])
  const FIRST: Op := DoRecord(Offered(1, 0, 0, WINDOW))
  const NEXT_WARNING: Offer := Offered(2, 40 * SECOND, 40 * SECOND, WINDOW)

  lemma SecondLapsesTheFirst()
    ensures Lapses(OneWarning(0, 0), NEXT_WARNING, 1)
  {
    var db := OneWarning(0, 0);
    FirstOpens(0, 0, WINDOW);
    assert Sound(EMPTY);
    RecordIsSound(EMPTY, FIRST.offer);
    assert Recent(db.alerts, 1, NEXT_WARNING.now - HOUR) <= {1};
    SubsetSize(Recent(db.alerts, 1, NEXT_WARNING.now - HOUR), {1});
    assert OpenFor(db.rooms, KEY, 1);
  }

  lemma SweepIsDue()
    ensures SWEEP.Due(OneWarning(0, 0).rooms[1]) && Holds(SWEEP.windows)[RULE] == LONGER
    ensures ResolveStale(OneWarning(0, 0), SWEEP) == OneWarning(0, 0).(rooms := SweepRooms(OneWarning(0, 0).rooms, SWEEP, {1}))
  {
    assert OneWarning(0, 0).rooms.Keys == {1};
  }

  lemma TwoWarnings() returns (folded: Db)
    ensures Runs(EMPTY, [] + [FIRST] + [DoRecord(NEXT_WARNING)], folded)
    ensures 1 in folded.rooms && folded.rooms[1].resolvedAt == Some(10 * SECOND)
  {
    FirstOpens(0, 0, WINDOW);
    SecondLapsesTheFirst();
    OneMoreStep(EMPTY, [], EMPTY, FIRST);
    OneMoreStep(EMPTY, [] + [FIRST], OneWarning(0, 0), DoRecord(NEXT_WARNING));
    folded := Record(OneWarning(0, 0), NEXT_WARNING);
    FoldedInstant(OneWarning(0, 0), NEXT_WARNING, 1);
  }

  lemma SweptBetween() returns (between: Db)
    ensures Runs(EMPTY, [] + [FIRST] + [DoResolveStale(SWEEP)], between)
    ensures between == OneWarning(0, 0).(rooms := SweepRooms(OneWarning(0, 0).rooms, SWEEP, {1}))
    ensures Legal(between, DoRecord(NEXT_WARNING))
  {
    FirstOpens(0, 0, WINDOW);
    SweepIsDue();
    OneMoreStep(EMPTY, [], EMPTY, FIRST);
    OneMoreStep(EMPTY, [] + [FIRST], OneWarning(0, 0), DoResolveStale(SWEEP));
    between := ResolveStale(OneWarning(0, 0), SWEEP);
  }

  /** A rule swept with twenty seconds but grouped with ten: the same two warnings close the room at another instant
      when the sweep comes between them. */
  lemma AnotherHoldShows() returns (folded: Db, swept: Db)
    ensures Runs(EMPTY, [] + [FIRST] + [DoRecord(NEXT_WARNING)], folded)
    ensures Runs(EMPTY, [] + [FIRST] + [DoResolveStale(SWEEP)] + [DoRecord(NEXT_WARNING)], swept)
    ensures 1 in folded.rooms && folded.rooms[1].resolvedAt == Some(10 * SECOND)
    ensures 1 in swept.rooms && swept.rooms[1].resolvedAt == Some(20 * SECOND)
  {
    folded := TwoWarnings();
    var between := SweptBetween();
    OneMoreStep(EMPTY, [] + [FIRST] + [DoResolveStale(SWEEP)], between, DoRecord(NEXT_WARNING));
    swept := Record(between, NEXT_WARNING);
    SecondLapsesTheFirst();
    SweepIsDue();
    SweptInstant(OneWarning(0, 0), NEXT_WARNING, 1, SWEEP);
  }
}

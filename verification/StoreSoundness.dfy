/** What every step of the store keeps, whatever the order of the steps: one open room per key,
    references that resolve, and a history that replays to the room's own standing. */
module StoreSoundness {
  import opened Collections
  import opened Incidents
  import opened Tables
  import opened Notes
  import opened StoreSteps

  predicate BelongsIn(alert: Alert, room: Room)
  {
    && room.key.organization == alert.organization
    && room.key.rule == alert.rule
    && (room.key.scope == Device ==> room.key.scopeKey == alert.device)
  }

  /** No alert points at a missing room, at another customer's or rule's room, or at another machine's device room. */
  ghost predicate Referential(db: Db)
  {
    forall id :: id in db.alerts ==>
      && db.alerts[id].alert.rule != STORM_RULE_ID
      && (db.alerts[id].room.Some? ==>
            db.alerts[id].room.value in db.rooms && BelongsIn(db.alerts[id].alert, db.rooms[db.alerts[id].room.value]))
  }

  ghost predicate OneRowPerIdentity(alerts: map<Uuid, AlertRow>)
  {
    forall i, j :: i in alerts && j in alerts && SameIdentity(alerts[i].alert, alerts[j].alert) ==> i == j
  }

  ghost predicate OneOpenRoomPerKey(rooms: map<Uuid, Room>)
  {
    forall r, s :: r in rooms && s in rooms && OpenFor(rooms, rooms[r].key, s) && OpenFor(rooms, rooms[r].key, r) ==> r == s
  }

  /** The history is a legal path and replays to exactly the columns the room carries. */
  predicate RoomSound(room: Room)
  {
    LegalHistory(room.history) && Replay(room.history) == Standing(room.status, room.resolvedAt, room.cause, room.assignee)
  }

  ghost predicate Sound(db: Db)
  {
    && Referential(db)
    && OneRowPerIdentity(db.alerts)
    && OneOpenRoomPerKey(db.rooms)
    && (forall r :: r in db.rooms ==> RoomSound(db.rooms[r]) && r != NIL)
  }

  // ----- rooms -----

  lemma TheOpenRoom(rooms: map<Uuid, Room>, key: GroupingKey, r: Uuid)
    requires OneOpenRoomPerKey(rooms) && OpenFor(rooms, key, r)
    ensures OpenRoom(rooms, key) == Some(r)
  {
  }

  lemma ClosedIsSound(room: Room, at: Time, reason: CloseReason)
    requires RoomSound(room) && room.status != Resolved
    ensures RoomSound(Closed(room, at, reason))
  {
    AppendLine(room.history, Resolution(at, NIL, BySystem(reason)));
    LegalHistoryBalances(room.history);
  }

  lemma MovedIsSound(room: Room, at: Time, change: Change)
    requires RoomSound(room) && Check(change, room.status).None?
    ensures RoomSound(Moved(room, at, change.to.value, change.cause, change.actor, false))
  {
    CheckAccepts(change, room.status);
    var moved := Moved(room, at, change.to.value, change.cause, change.actor, false);
    AppendLine(room.history, moved.history[|room.history|]);
  }

  lemma ReopenedIsSound(room: Room, at: Time, actor: Uuid)
    requires RoomSound(room) && room.status == Resolved
    ensures RoomSound(Moved(room, at, Investigating, NoCause, actor, true))
  {
    AppendLine(room.history, StatusChange(at, actor, Resolved, Investigating, true));
  }

  /** Room changes that keep every key and open no room keep soundness. */
  lemma RoomsChangeInPlace(db: Db, rooms: map<Uuid, Room>)
    requires Sound(db)
    requires rooms.Keys == db.rooms.Keys
    requires forall r :: r in rooms ==> rooms[r].key == db.rooms[r].key && RoomSound(rooms[r])
    requires forall r :: r in rooms && rooms[r].status != Resolved ==> db.rooms[r].status != Resolved
    ensures Sound(Db(db.alerts, rooms))
  {
    forall r, s | r in rooms && s in rooms && OpenFor(rooms, rooms[r].key, s) && OpenFor(rooms, rooms[r].key, r)
      ensures r == s
    {
      assert OpenFor(db.rooms, db.rooms[r].key, s) && OpenFor(db.rooms, db.rooms[r].key, r);
    }
  }

  lemma OneRoomInPlace(db: Db, r: Uuid, room: Room)
    requires Sound(db) && r in db.rooms && RoomSound(room)
    requires room.key == db.rooms[r].key && room.status == db.rooms[r].status
    ensures Sound(db.(rooms := db.rooms[r := room]))
  {
    RoomsChangeInPlace(db, db.rooms[r := room]);
  }

  lemma RoomOpens(db: Db, r: Uuid, room: Room)
    requires Sound(db) && RoomSound(room) && r != NIL
    requires r in db.rooms ==> room.key == db.rooms[r].key
    requires OpenRoom(db.rooms, room.key).None?
    ensures Sound(db.(rooms := db.rooms[r := room]))
  {
    var rooms := db.rooms[r := room];
    forall x, y | x in rooms && y in rooms && OpenFor(rooms, rooms[x].key, y) && OpenFor(rooms, rooms[x].key, x)
      ensures x == y
    {
      assert !OpenFor(db.rooms, room.key, x) && !OpenFor(db.rooms, room.key, y);
      if x != r && y != r {
        assert OpenFor(db.rooms, db.rooms[x].key, y) && OpenFor(db.rooms, db.rooms[x].key, x);
      }
    }
  }

  lemma CloseLapsedIsSound(db: Db, r: Uuid, window: Time)
    requires Sound(db) && r in db.rooms && db.rooms[r].status != Resolved
    ensures Sound(CloseLapsed(db, r, window))
    ensures OpenRoom(CloseLapsed(db, r, window).rooms, db.rooms[r].key).None?
  {
    var after := CloseLapsed(db, r, window);
    ClosedIsSound(db.rooms[r], db.rooms[r].lastSeen + window, NoAlertWithinWindow);
    RoomsChangeInPlace(db, after.rooms);
    var key := db.rooms[r].key;
    assert OpenFor(db.rooms, key, r);
    forall s
      ensures !OpenFor(after.rooms, key, s)
    {
      assert OpenFor(db.rooms, key, s) ==> s == r;
    }
  }

  // ----- alerts -----

  lemma InsertIsSound(db: Db, o: Offer)
    requires Sound(db) && o.id !in db.alerts && !StoredIdentity(db.alerts, o.alert)
    requires o.alert.rule != STORM_RULE_ID
    ensures Sound(Db(Inserted(db.alerts, o), db.rooms))
  {
  }

  lemma FileIntoIsSound(db: Db, ids: set<Uuid>, r: Uuid)
    requires Sound(db) && r in db.rooms
    requires forall id :: id in ids && id in db.alerts ==> BelongsIn(db.alerts[id].alert, db.rooms[r])
    ensures Sound(FileInto(db, ids, r))
  {
    var after := FileInto(db, ids, r);
    RoomsChangeInPlace(db, after.rooms);
    assert forall id :: id in after.alerts ==> after.alerts[id].alert == db.alerts[id].alert;
  }

  lemma GatheredBelong(db: Db, f: Folding, room: Room)
    requires room.key == f.key && BelongsIn(f.alert, room)
    requires f.id in db.alerts && db.alerts[f.id].alert == f.alert
    ensures forall id :: id in f.Gathered(db.alerts) + {f.id} ==> BelongsIn(db.alerts[id].alert, room)
  {
  }

  ghost predicate FoldReady(db: Db, f: Folding)
  {
    && Sound(db)
    && f.id in db.alerts && db.alerts[f.id].alert == f.alert && db.alerts[f.id].room == None
    && f.roomId !in db.rooms && f.roomId != NIL
    && f.key.organization == f.alert.organization && f.key.rule == f.alert.rule
    && InScope(f.devices, f.key, f.alert.device)
  }

  lemma OpenIfDueIsSound(db: Db, f: Folding)
    requires FoldReady(db, f) && OpenRoom(db.rooms, f.key).None?
    ensures Sound(OpenIfDue(db, f))
  {
    if f.OpensARoom(db.alerts) {
      var room := NewRoom(f.key, f.alert.severity, f.now, f.alert.observedAt, 0);
      var begun := db.(rooms := db.rooms[f.roomId := room]);
      RoomOpens(db, f.roomId, room);
      GatheredBelong(begun, f, room);
      FileIntoIsSound(begun, f.Gathered(db.alerts) + {f.id}, f.roomId);
    }
  }

  lemma FoldIsSound(db: Db, f: Folding)
    requires FoldReady(db, f)
    ensures Sound(Fold(db, f))
  {
    match OpenRoom(db.rooms, f.key) {
      case None => OpenIfDueIsSound(db, f);
      case Some(r) =>
        FileIntoIsSound(db, {f.id}, r);
        CloseLapsedIsSound(db, r, f.window);
        OpenIfDueIsSound(CloseLapsed(db, r, f.window), f);
    }
  }

  /** Filing an offer meets everything the fold relies on. */
  lemma StoredIsFoldReady(db: Db, o: Offer)
    requires Sound(db) && Legal(db, DoRecord(o)) && RecordAnswer(db, o) == Filed(Stored)
    ensures FoldReady(Db(Inserted(db.alerts, o), db.rooms), FoldingOf(o))
  {
    InsertIsSound(db, o);
  }

  lemma FoldIntoStormIsSound(db: Db, organization: Uuid, now: Time, roomId: Uuid)
    requires Sound(db) && roomId !in db.rooms && roomId != NIL
    ensures Sound(FoldIntoStorm(db, organization, now, roomId))
  {
    var after := FoldIntoStorm(db, organization, now, roomId);
    match OpenRoom(db.rooms, StormKey(organization)) {
      case None => RoomOpens(db, roomId, NewRoom(StormKey(organization), STORM_SEVERITY, now, now, 1));
      case Some(r) => RoomsChangeInPlace(db, after.rooms);
    }
  }

  lemma RecordIsSound(db: Db, o: Offer)
    requires Sound(db) && Legal(db, DoRecord(o))
    ensures Sound(Record(db, o))
  {
    match RecordAnswer(db, o) {
      case Failed(_) =>
      case Filed(Duplicate) =>
      case Filed(CeilingSuppressed) => FoldIntoStormIsSound(db, o.alert.organization, o.now, o.roomId);
      case Filed(Stored) =>
        StoredIsFoldReady(db, o);
        FoldIsSound(Db(Inserted(db.alerts, o), db.rooms), FoldingOf(o));
    }
  }

  // ----- the other steps -----

  lemma TransitionIsSound(db: Db, r: Uuid, change: Change, at: Time)
    requires Sound(db)
    ensures Sound(Transition(db, r, change, at))
  {
    if TransitionError(db, r, change).None? {
      MovedIsSound(db.rooms[r], at, change);
      CheckAccepts(change, db.rooms[r].status);
      RoomsChangeInPlace(db, Transition(db, r, change, at).rooms);
    }
  }

  lemma ReopenIsSound(db: Db, r: Uuid, actor: Uuid, at: Time)
    requires Sound(db)
    ensures Sound(Reopen(db, r, actor, at))
  {
    if ReopenError(db, r).None? {
      ReopenedIsSound(db.rooms[r], at, actor);
      RoomOpens(db, r, Moved(db.rooms[r], at, Investigating, NoCause, actor, true));
    }
  }

  lemma AssignIsSound(db: Db, r: Uuid, assignee: Uuid, actor: Uuid, at: Time)
    requires Sound(db)
    ensures Sound(Assign(db, r, assignee, actor, at))
  {
    if r in db.rooms {
      var line := Assignment(at, actor, assignee);
      var room := db.rooms[r].(assignee := assignee, history := db.rooms[r].history + [line]);
      AppendLine(db.rooms[r].history, line);
      OneRoomInPlace(db, r, room);
    }
  }

  lemma RemarkIsSound(db: Db, r: Uuid, actor: Uuid, note: string, at: Time)
    requires Sound(db)
    ensures Sound(Remark(db, r, actor, note, at))
  {
    if RemarkError(db, r, note).None? {
      var line := Comment(at, actor, Trimmed(note));
      var room := db.rooms[r].(history := db.rooms[r].history + [line]);
      AppendLine(db.rooms[r].history, line);
      OneRoomInPlace(db, r, room);
    }
  }

  lemma SweptIsSound(sweep: Sweep, room: Room)
    requires RoomSound(room)
    ensures RoomSound(sweep.Swept(room)) && sweep.Swept(room).key == room.key
    ensures sweep.Swept(room).status != Resolved ==> room.status != Resolved
  {
    if sweep.Due(room) {
      ClosedIsSound(room, room.lastSeen + Holds(sweep.windows)[room.key.rule], NoAlertWithinWindow);
    }
  }

  lemma SweepRoomsIsSound(db: Db, sweep: Sweep, over: set<Uuid>)
    requires Sound(db)
    ensures Sound(db.(rooms := SweepRooms(db.rooms, sweep, over)))
  {
    var rooms := SweepRooms(db.rooms, sweep, over);
    forall r | r in rooms
      ensures RoomSound(rooms[r]) && rooms[r].key == db.rooms[r].key
      ensures rooms[r].status != Resolved ==> db.rooms[r].status != Resolved
    {
      SweptIsSound(sweep, db.rooms[r]);
    }
    RoomsChangeInPlace(db, rooms);
  }

  lemma ErasedIsSound(room: Room, alerts: map<Uuid, AlertRow>, r: Uuid, device: Uuid, at: Time)
    requires RoomSound(room)
    ensures var erased := Emptied(Recounted(room, alerts, r, device), alerts, r, device, at);
            && RoomSound(erased) && erased.key == room.key
            && (erased.status != Resolved ==> room.status != Resolved)
  {
    var recounted := Recounted(room, alerts, r, device);
    if recounted.status != Resolved {
      ClosedIsSound(recounted, at, LastDeviceErased);
    }
  }

  lemma EraseDeviceIsSound(db: Db, device: Uuid, at: Time)
    requires Sound(db)
    ensures Sound(EraseDevice(db, device, at))
  {
    var rooms := EraseDevice(db, device, at).rooms;
    forall r | r in rooms
      ensures RoomSound(rooms[r]) && rooms[r].key == db.rooms[r].key
      ensures rooms[r].status != Resolved ==> db.rooms[r].status != Resolved
    {
      ErasedIsSound(db.rooms[r], db.alerts, r, device, at);
    }
    RoomsChangeInPlace(db, rooms);
    FewerAlertsIsSound(Db(db.alerts, rooms), WithoutDevice(db.alerts, device));
  }

  lemma FewerAlertsIsSound(db: Db, kept: map<Uuid, AlertRow>)
    requires Sound(db) && kept.Keys <= db.alerts.Keys && forall id :: id in kept ==> kept[id] == db.alerts[id]
    ensures Sound(db.(alerts := kept))
  {
  }

  /** Any part of a stage, in any order, leaves sound tables: no alert ever points at a missing room. */
  lemma RemovedIsSound(db: Db, stage: Stage, cutoff: Time, gone: set<Uuid>)
    requires Sound(db) && gone <= Candidates(db, stage, cutoff)
    ensures Sound(Removed(db, stage, gone))
  {
    var after := Removed(db, stage, gone);
    forall id | id in after.alerts && after.alerts[id].room.Some?
      ensures after.alerts[id].room.value in after.rooms
    {
      assert id in Held(db.alerts, after.alerts[id].room.value);
    }
    forall r, s | r in after.rooms && s in after.rooms
                  && OpenFor(after.rooms, after.rooms[r].key, s) && OpenFor(after.rooms, after.rooms[r].key, r)
      ensures r == s
    {
      assert OpenFor(db.rooms, db.rooms[r].key, s) && OpenFor(db.rooms, db.rooms[r].key, r);
    }
  }

  lemma StepIsSound(db: Db, op: Op)
    requires Sound(db) && Legal(db, op)
    ensures Sound(Apply(db, op))
  {
    match op {
      case DoRecord(offer) => RecordIsSound(db, offer);
      case DoTransition(r, change, at) => TransitionIsSound(db, r, change, at);
      case DoReopen(r, actor, at) => ReopenIsSound(db, r, actor, at);
      case DoAssign(r, assignee, actor, at) => AssignIsSound(db, r, assignee, actor, at);
      case DoComment(r, actor, note, at) => RemarkIsSound(db, r, actor, note, at);
      case DoResolveStale(sweep) => SweepRoomsIsSound(db, sweep, db.rooms.Keys);
      case DoEraseDevice(device, at) => EraseDeviceIsSound(db, device, at);
      case DoDeleteBatch(stage, cutoff, gone, _) => RemovedIsSound(db, stage, cutoff, gone);
    }
  }

  lemma {:induction false} EveryRunIsSound(db: Db, ops: seq<Op>, end: Db)
    requires Sound(db) && Runs(db, ops, end)
    ensures Sound(end)
    decreases |ops|
  {
    if ops != [] {
      StepIsSound(db, ops[0]);
      EveryRunIsSound(Apply(db, ops[0]), ops[1..], end);
    }
  }
}

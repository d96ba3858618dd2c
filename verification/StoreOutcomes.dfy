/** Where a stored alert goes, and what the other steps do and undo. */
module StoreOutcomes {
  import opened Collections
  import opened Incidents
  import opened Tables
  import opened StoreSteps
  import opened StoreSoundness
  import opened StoreTallies
  import opened StoreRuns

  ghost predicate StoredOffer(db: Db, o: Offer)
  {
    Sound(db) && Legal(db, DoRecord(o)) && RecordAnswer(db, o) == Filed(Stored)
  }

  /** Every row but the given ones is as it was. */
  predicate OthersKept(before: map<Uuid, AlertRow>, after: map<Uuid, AlertRow>, but: set<Uuid>)
  {
    forall id :: id in before && id !in but ==> id in after && after[id] == before[id]
  }

  predicate InReach(db: Db, o: Offer, r: Uuid)
    requires r in db.rooms
  {
    db.rooms[r].firstSeen - o.grouping.window <= o.alert.observedAt <= db.rooms[r].lastSeen + o.grouping.window
  }

  lemma JoinIsFiling(db: Db, o: Offer, r: Uuid)
    requires StoredOffer(db, o) && OpenFor(db.rooms, FoldingOf(o).key, r) && InReach(db, o, r)
    ensures Record(db, o) == FileInto(Db(Inserted(db.alerts, o), db.rooms), {o.id}, r)
    ensures Unfiled(Inserted(db.alerts, o), {o.id}) && db.rooms[r].key.rule != STORM_RULE_ID
  {
    TheOpenRoom(db.rooms, FoldingOf(o).key, r);
  }

  /** Only what a restatement computes from alerts may differ. */
  predicate SameButTallies(before: Room, after: Room)
  {
    after == before.(occurrences := after.occurrences, deviceCount := after.deviceCount,
                     firstSeen := after.firstSeen, lastSeen := after.lastSeen, severity := after.severity)
  }

  /** Filing one row: it alone moves, and its room is restated from what it then holds. */
  lemma FilesOneRow(db: Db, id: Uuid, r: Uuid)
    requires Unfiled(db.alerts, {id}) && r in db.rooms && db.rooms[r].key.rule != STORM_RULE_ID
    ensures var end := FileInto(db, {id}, r);
            && end.alerts == db.alerts[id := db.alerts[id].(room := Some(r))]
            && Held(end.alerts, r) == Held(db.alerts, r) + {id}
            && end.rooms.Keys == db.rooms.Keys
            && (forall s :: s in db.rooms && s != r ==> end.rooms[s] == db.rooms[s])
            && SameButTallies(db.rooms[r], end.rooms[r])
            && Exact(end.rooms[r], ViewOf(end.alerts, r)) && Counts(end.rooms[r], ViewOf(end.alerts, r))
            && end.rooms[r].firstSeen <= db.alerts[id].alert.observedAt <= end.rooms[r].lastSeen
  {
    var end := FileInto(db, {id}, r);
    FileIntoTallies(db, {id}, r, r);
    assert id in Held(end.alerts, r);
    assert db.alerts[id].alert.observedAt in ViewOf(end.alerts, r).times;
  }

  /** An alert from before a live room's reach is kept unfiled and leaves every room alone. */
  lemma StaysOutOfALaterRoom(db: Db, o: Offer, r: Uuid)
    requires StoredOffer(db, o) && OpenFor(db.rooms, FoldingOf(o).key, r)
    requires o.alert.observedAt < db.rooms[r].firstSeen - o.grouping.window
    requires db.rooms[r].firstSeen <= db.rooms[r].lastSeen
    ensures Record(db, o) == Db(Inserted(db.alerts, o), db.rooms)
  {
    TheOpenRoom(db.rooms, FoldingOf(o).key, r);
  }

  // ----- which machines share a room -----

  /** Machines a rule of this scope groups together: a machine without a site stands alone. */
  predicate Neighbours(scope: Scope, devices: map<Uuid, Machine>, a: Uuid, b: Uuid)
  {
    match scope
    case Organization => true
    case Device => a == b
    case Site =>
      a == b || (a in devices && b in devices && devices[a].site.Some? && devices[a].site == devices[b].site)
  }

  /** Two alerts group together exactly when customer and rule agree and their machines are neighbours. */
  lemma SameKeyExactly(a: Alert, b: Alert, scope: Scope, devices: map<Uuid, Machine>)
    requires a.device in devices && b.device in devices
    ensures ScopeKeyFor(a, scope, devices).Some?
    ensures ScopeKeyFor(a, scope, devices) == ScopeKeyFor(b, scope, devices) <==>
            a.organization == b.organization && a.rule == b.rule && Neighbours(scope, devices, a.device, b.device)
  {
  }

  /** A room names the customer, the site or the machine it is about. */
  lemma KeyNamesItsSubject(a: Alert, scope: Scope, devices: map<Uuid, Machine>)
    requires a.device in devices
    ensures var key, site := ScopeKeyFor(a, scope, devices).value, devices[a.device].site;
            && key.organization == a.organization && key.rule == a.rule
            && (key.scope == Organization <==> scope == Organization)
            && (key.scope == Site <==> scope == Site && site.Some?)
            && key.scopeKey == if scope == Organization then a.organization
                               else if scope == Site && site.Some? then site.value else a.device
  {
  }

  /** Another unfiled info observation of a neighbour inside the window. */
  predicate Witness(db: Db, o: Offer, id: Uuid)
  {
    && o.grouping.scope.Some?
    && id in db.alerts
    && db.alerts[id].room == None
    && db.alerts[id].alert.severity == Info
    && db.alerts[id].alert.organization == o.alert.organization
    && db.alerts[id].alert.rule == o.alert.rule
    && o.alert.observedAt - o.grouping.window <= db.alerts[id].alert.observedAt <= o.alert.observedAt + o.grouping.window
    && Neighbours(o.grouping.scope.value, o.devices, o.alert.device, db.alerts[id].alert.device)
  }

  /** A key with no open room, or one this alert has outlived. */
  ghost predicate Unclaimed(db: Db, o: Offer)
    requires o.grouping.Usable() && o.alert.device in o.devices
  {
    forall r :: OpenFor(db.rooms, FoldingOf(o).key, r) ==> o.alert.observedAt > db.rooms[r].lastSeen + o.grouping.window
  }

  /** Another machine's observation waits inside the window. */
  ghost predicate SecondMachineAgrees(db: Db, o: Offer)
  {
    exists id :: Witness(db, o, id) && db.alerts[id].alert.device != o.alert.device
  }

  /** The rows in scope of an offer's key are those of its neighbours. */
  lemma InScopeOfNeighbours(o: Offer, device: Uuid)
    requires o.grouping.Usable() && o.alert.device in o.devices
    ensures InScope(o.devices, FoldingOf(o).key, device) <==>
            Neighbours(o.grouping.scope.value, o.devices, o.alert.device, device)
  {
  }

  /** The rows an opened room holds. */
  lemma GatheredAreWitnesses(db: Db, o: Offer, id: Uuid)
    requires StoredOffer(db, o)
    ensures var f := FoldingOf(o);
            id in f.Gathered(Inserted(db.alerts, o)) + {o.id} <==> id == o.id || (id != o.id && Witness(db, o, id))
  {
    if id in db.alerts {
      InScopeOfNeighbours(o, db.alerts[id].alert.device);
    }
  }

  lemma TwoMachinesCorroborate(db: Db, o: Offer)
    requires StoredOffer(db, o) && FoldingOf(o).key.scope != Device
    requires |Machines(Inserted(db.alerts, o), FoldingOf(o).Gathered(Inserted(db.alerts, o)))| > 1
    ensures SecondMachineAgrees(db, o)
  {
    var alerts, gathered := Inserted(db.alerts, o), FoldingOf(o).Gathered(Inserted(db.alerts, o));
    var machines := Machines(alerts, gathered);
    assert machines - {o.alert.device} != {} by {
      if machines <= {o.alert.device} {
        SubsetSize(machines, {o.alert.device});
      }
    }
    var d := Pick(machines - {o.alert.device});
    var id :| id in gathered && alerts[id].alert.device == d;
    GatheredAreWitnesses(db, o, id);
  }

  lemma CorroborationIsTwoMachines(db: Db, o: Offer, id: Uuid)
    requires StoredOffer(db, o) && o.alert.severity == Info
    requires Witness(db, o, id) && db.alerts[id].alert.device != o.alert.device
    ensures |Machines(Inserted(db.alerts, o), FoldingOf(o).Gathered(Inserted(db.alerts, o)))| > 1
  {
    var alerts, gathered := Inserted(db.alerts, o), FoldingOf(o).Gathered(Inserted(db.alerts, o));
    GatheredAreWitnesses(db, o, id);
    assert o.id in gathered && id in gathered;
    SubsetSize({o.alert.device, db.alerts[id].alert.device}, Machines(alerts, gathered));
  }

  lemma CountsAsCorroborated(db: Db, o: Offer)
    requires StoredOffer(db, o) && o.alert.severity == Info
    ensures FoldingOf(o).OpensARoom(Inserted(db.alerts, o)) <==> SecondMachineAgrees(db, o)
  {
    if FoldingOf(o).OpensARoom(Inserted(db.alerts, o)) {
      TwoMachinesCorroborate(db, o);
    }
    if SecondMachineAgrees(db, o) {
      var id :| Witness(db, o, id) && db.alerts[id].alert.device != o.alert.device;
      CorroborationIsTwoMachines(db, o, id);
    }
  }

  /** What opening leaves, given no open room in the way. */
  ghost predicate Opened(before: Db, f: Folding, end: Db)
  {
    && end.alerts == Attached(before.alerts, f.Gathered(before.alerts) + {f.id}, f.roomId)
    && end.rooms.Keys == before.rooms.Keys + {f.roomId}
    && (forall r :: r in before.rooms && r != f.roomId ==> end.rooms[r] == before.rooms[r])
    && var room := end.rooms[f.roomId];
       room.key == f.key && room.status == New && room.history == [] && room.openedAt == f.now
  }

  lemma OpenedRoom(db: Db, f: Folding)
    requires OpenRoom(db.rooms, f.key).None? && f.OpensARoom(db.alerts)
    ensures Opened(db, f, OpenIfDue(db, f))
  {
  }

  lemma FoldOpens(db: Db, o: Offer)
    requires StoredOffer(db, o) && Unclaimed(db, o) && FoldingOf(o).OpensARoom(Inserted(db.alerts, o))
    ensures var alerts, f := Inserted(db.alerts, o), FoldingOf(o);
            match OpenRoom(db.rooms, f.key)
            case None => Opened(Db(alerts, db.rooms), f, Record(db, o))
            case Some(r) => Opened(CloseLapsed(Db(alerts, db.rooms), r, f.window), f, Record(db, o))
  {
    var f, ready := FoldingOf(o), Db(Inserted(db.alerts, o), db.rooms);
    StoredIsFoldReady(db, o);
    match OpenRoom(db.rooms, f.key) {
      case None => OpenedRoom(ready, f);
      case Some(r) =>
        CloseLapsedIsSound(ready, r, f.window);
        OpenedRoom(CloseLapsed(ready, r, f.window), f);
    }
  }

  /** On an unclaimed key a room opens just when the alert is more than info or a second machine agrees. */
  lemma OpensExactlyWhen(db: Db, o: Offer)
    requires StoredOffer(db, o) && Unclaimed(db, o)
    ensures o.roomId in Record(db, o).rooms <==> o.alert.severity != Info || SecondMachineAgrees(db, o)
  {
    if o.alert.severity == Info {
      CountsAsCorroborated(db, o);
    }
    if FoldingOf(o).OpensARoom(Inserted(db.alerts, o)) {
      FoldOpens(db, o);
    } else {
      StoredIsFoldReady(db, o);
    }
  }

  /** The room it opens is new and holds the alert and exactly the witnesses; no other row moves. */
  lemma OpensARoomOfWitnesses(db: Db, o: Offer)
    requires StoredOffer(db, o) && Unclaimed(db, o) && FoldingOf(o).OpensARoom(Inserted(db.alerts, o))
    ensures var end, key := Record(db, o), FoldingOf(o).key;
            && end.rooms.Keys == db.rooms.Keys + {o.roomId}
            && OpenFor(end.rooms, key, o.roomId) && end.rooms[o.roomId].status == New && end.rooms[o.roomId].history == []
            && end.rooms[o.roomId].openedAt == o.now
            && (forall id :: id in Held(end.alerts, o.roomId) <==> id == o.id || (id != o.id && Witness(db, o, id)))
            && OthersKept(db.alerts, end.alerts, Held(end.alerts, o.roomId))
  {
    var f, alerts, end := FoldingOf(o), Inserted(db.alerts, o), Record(db, o);
    FoldOpens(db, o);
    assert end.alerts == Attached(alerts, f.Gathered(alerts) + {f.id}, f.roomId);
    forall id
      ensures id in Held(end.alerts, o.roomId) <==> id == o.id || (id != o.id && Witness(db, o, id))
    {
      GatheredAreWitnesses(db, o, id);
    }
  }

  /** The room this alert outlived ends when its window ran out; every other room is as it was. */
  lemma ClosesTheLapsedRoom(db: Db, o: Offer, r: Uuid)
    requires StoredOffer(db, o) && Unclaimed(db, o) && r in db.rooms
    ensures var end := Record(db, o);
            r in end.rooms && end.rooms[r] ==
            if OpenFor(db.rooms, FoldingOf(o).key, r) then LapsedRoom(db.rooms[r], o.grouping.window) else db.rooms[r]
  {
    var f, ready := FoldingOf(o), Db(Inserted(db.alerts, o), db.rooms);
    if OpenFor(db.rooms, f.key, r) {
      TheOpenRoom(db.rooms, f.key, r);
    }
    if f.OpensARoom(ready.alerts) {
      FoldOpens(db, o);
    }
  }

  // ----- the four places -----

  datatype Place = Joins(room: Uuid) | ComesTooEarly | Opens | Waits

  /** Where the tables before it put an offer. */
  ghost predicate Belongs(db: Db, o: Offer, place: Place)
    requires o.grouping.Usable() && o.alert.device in o.devices
  {
    var key, t, window := FoldingOf(o).key, o.alert.observedAt, o.grouping.window;
    match place
    case Joins(r) => OpenFor(db.rooms, key, r) && InReach(db, o, r)
    case ComesTooEarly => exists r :: OpenFor(db.rooms, key, r) && t < db.rooms[r].firstSeen - window
    case Opens => Unclaimed(db, o) && (o.alert.severity != Info || SecondMachineAgrees(db, o))
    case Waits => Unclaimed(db, o) && o.alert.severity == Info && !SecondMachineAgrees(db, o)
  }

  /** The key's outlived room, if any, is closed where its window ran out; no other room of before moves. */
  ghost predicate OnlyLapses(db: Db, o: Offer, end: Db)
    requires o.grouping.Usable() && o.alert.device in o.devices
  {
    forall r :: r in db.rooms ==>
      r in end.rooms && end.rooms[r] ==
      if OpenFor(db.rooms, FoldingOf(o).key, r) then LapsedRoom(db.rooms[r], o.grouping.window) else db.rooms[r]
  }

  /** What each place makes of the tables. */
  ghost predicate Lands(db: Db, o: Offer, place: Place, end: Db)
    requires o.grouping.Usable() && o.alert.device in o.devices
  {
    match place
    case Joins(r) =>
      && end.alerts == Inserted(db.alerts, o)[o.id := AlertRow(o.alert, o.now, Some(r))]
      && r in db.rooms && end.rooms.Keys == db.rooms.Keys
      && (forall s :: s in db.rooms && s != r ==> end.rooms[s] == db.rooms[s])
      && SameButTallies(db.rooms[r], end.rooms[r])
      && Exact(end.rooms[r], ViewOf(end.alerts, r)) && Counts(end.rooms[r], ViewOf(end.alerts, r))
    case ComesTooEarly => end == Db(Inserted(db.alerts, o), db.rooms)
    case Opens =>
      && end.rooms.Keys == db.rooms.Keys + {o.roomId} && OpenFor(end.rooms, FoldingOf(o).key, o.roomId)
      && end.rooms[o.roomId].status == New && end.rooms[o.roomId].history == [] && end.rooms[o.roomId].openedAt == o.now
      && (forall id :: id in Held(end.alerts, o.roomId) <==> id == o.id || (id != o.id && Witness(db, o, id)))
      && OthersKept(db.alerts, end.alerts, Held(end.alerts, o.roomId))
      && OnlyLapses(db, o, end)
    case Waits => end.alerts == Inserted(db.alerts, o) && end.rooms.Keys == db.rooms.Keys && OnlyLapses(db, o, end)
  }

  lemma JoiningLands(db: Db, o: Offer, r: Uuid)
    requires StoredOffer(db, o) && Belongs(db, o, Joins(r))
    ensures Lands(db, o, Joins(r), Record(db, o))
  {
    JoinIsFiling(db, o, r);
    FilesOneRow(Db(Inserted(db.alerts, o), db.rooms), o.id, r);
  }

  lemma OpeningLands(db: Db, o: Offer)
    requires StoredOffer(db, o) && Belongs(db, o, Opens)
    ensures Lands(db, o, Opens, Record(db, o))
  {
    if o.alert.severity == Info {
      CountsAsCorroborated(db, o);
    }
    OpensARoomOfWitnesses(db, o);
    forall r | r in db.rooms
      ensures r in Record(db, o).rooms && Record(db, o).rooms[r] ==
              if OpenFor(db.rooms, FoldingOf(o).key, r) then LapsedRoom(db.rooms[r], o.grouping.window) else db.rooms[r]
    {
      ClosesTheLapsedRoom(db, o, r);
    }
  }

  lemma WaitingLands(db: Db, o: Offer)
    requires StoredOffer(db, o) && Belongs(db, o, Waits)
    ensures Lands(db, o, Waits, Record(db, o))
  {
    CountsAsCorroborated(db, o);
    var end := Record(db, o);
    match OpenRoom(db.rooms, FoldingOf(o).key) {
      case None =>
      case Some(r) => TheOpenRoom(db.rooms, FoldingOf(o).key, r);
    }
    forall r | r in db.rooms
      ensures r in end.rooms && end.rooms[r] ==
              if OpenFor(db.rooms, FoldingOf(o).key, r) then LapsedRoom(db.rooms[r], o.grouping.window) else db.rooms[r]
    {
      ClosesTheLapsedRoom(db, o, r);
    }
  }

  /** The key's room, open and in order, decides between joining, coming too early and having outlived it. */
  lemma PlacesExclude(db: Db, o: Offer, a: Place, b: Place)
    requires StoredOffer(db, o) && Spanned(db) && Belongs(db, o, a) && Belongs(db, o, b)
    ensures a == b
  {
    var key := FoldingOf(o).key;
    forall r | OpenFor(db.rooms, key, r)
      ensures OpenRoom(db.rooms, key) == Some(r) && db.rooms[r].firstSeen <= db.rooms[r].lastSeen
    {
      TheOpenRoom(db.rooms, key, r);
      assert Contains(db.rooms[r], ViewOf(db.alerts, r));
    }
  }

  /** After any run, every stored alert belongs in exactly one of four places, decided by the tables before it,
      and lands there. */
  lemma EveryAlertHasOnePlace(ops: seq<Op>, db: Db, o: Offer) returns (place: Place)
    requires Runs(EMPTY, ops, db) && Legal(db, DoRecord(o)) && RecordAnswer(db, o) == Filed(Stored)
    ensures Belongs(db, o, place) && Lands(db, o, place, Record(db, o))
    ensures forall other :: Belongs(db, o, other) ==> other == place
  {
    EmptyIsSound();
    EveryRunIsSound(EMPTY, ops, db);
    SpansHold(EMPTY, ops, db);
    place := PlaceOf(db, o);
    forall other | Belongs(db, o, other)
      ensures other == place
    {
      PlacesExclude(db, o, other, place);
    }
    match place {
      case Joins(r) => JoiningLands(db, o, r);
      case ComesTooEarly =>
        var r :| OpenFor(db.rooms, FoldingOf(o).key, r) && o.alert.observedAt < db.rooms[r].firstSeen - o.grouping.window;
        assert Contains(db.rooms[r], ViewOf(db.alerts, r));
        StaysOutOfALaterRoom(db, o, r);
      case Opens => OpeningLands(db, o);
      case Waits => WaitingLands(db, o);
    }
  }

  /** Filed into a room, an alert leaves that room open for its key. */
  lemma FiledMeansOpen(ops: seq<Op>, db: Db, o: Offer, r: Uuid)
    requires Runs(EMPTY, ops, db) && Legal(db, DoRecord(o)) && RecordAnswer(db, o) == Filed(Stored)
    requires o.id in Record(db, o).alerts && Record(db, o).alerts[o.id].room == Some(r)
    ensures OpenFor(Record(db, o).rooms, FoldingOf(o).key, r) && Sound(Record(db, o))
  {
    EmptyIsSound();
    EveryRunIsSound(EMPTY, ops, db);
    RecordIsSound(db, o);
    var place := EveryAlertHasOnePlace(ops, db, o);
    if place.Opens? {
      assert o.id in Held(Record(db, o).alerts, o.roomId);
    }
  }

  /** Under one rule and one devices table, the next alert of a neighbour within the window of the room the first was
      filed into is filed there too. */
  lemma NeighboursShareARoom(ops: seq<Op>, db: Db, first: Offer, second: Offer, r: Uuid)
    requires Runs(EMPTY, ops, db) && Legal(db, DoRecord(first)) && RecordAnswer(db, first) == Filed(Stored)
    requires first.id in Record(db, first).alerts && Record(db, first).alerts[first.id].room == Some(r)
    requires Legal(Record(db, first), DoRecord(second)) && RecordAnswer(Record(db, first), second) == Filed(Stored)
    requires first.grouping == second.grouping && first.devices == second.devices
    requires first.alert.organization == second.alert.organization && first.alert.rule == second.alert.rule
    requires Neighbours(first.grouping.scope.value, first.devices, first.alert.device, second.alert.device)
    requires r in Record(db, first).rooms && InReach(Record(db, first), second, r)
    ensures var end := Record(Record(db, first), second);
            second.id in end.alerts && end.alerts[second.id].room == Some(r)
  {
    FiledMeansOpen(ops, db, first, r);
    SameKeyExactly(first.alert, second.alert, first.grouping.scope.value, first.devices);
    JoiningLands(Record(db, first), second, r);
  }

  lemma PlaceOf(db: Db, o: Offer) returns (place: Place)
    requires StoredOffer(db, o)
    ensures Belongs(db, o, place)
  {
    var key, t := FoldingOf(o).key, o.alert.observedAt;
    match OpenRoom(db.rooms, key) {
      case None =>
      case Some(r) =>
        TheOpenRoom(db.rooms, key, r);
        var room := db.rooms[r];
        if t < room.firstSeen - o.grouping.window { return ComesTooEarly; }
        if t <= room.lastSeen + o.grouping.window { return Joins(r); }
        forall s | OpenFor(db.rooms, key, s) ensures s == r { TheOpenRoom(db.rooms, key, s); }
    }
    place := if o.alert.severity != Info || SecondMachineAgrees(db, o) then Opens else Waits;
  }

  // ----- a retroactive scan -----

  ghost function RecordAll(db: Db, offers: seq<Offer>): Db
    decreases |offers|
  {
    if offers == [] then db else RecordAll(Record(db, offers[0]), offers[1..])
  }

  /** Stored offers on one key, newest first, each within the window of the one before. */
  ghost predicate NewestFirst(db: Db, offers: seq<Offer>, key: GroupingKey, window: Time, latest: Time)
    decreases |offers|
  {
    offers == [] ||
    (&& StoredOffer(db, offers[0])
     && FoldingOf(offers[0]).key == key && offers[0].grouping.window == window
     && latest - window <= offers[0].alert.observedAt <= latest
     && NewestFirst(Record(db, offers[0]), offers[1..], key, window, offers[0].alert.observedAt))
  }

  /** An open room of the key covers the instant a scan has come back to. */
  ghost predicate Reaches(db: Db, key: GroupingKey, latest: Time, r: Uuid)
  {
    && Sound(db)
    && OpenFor(db.rooms, key, r) && db.rooms[r].firstSeen <= latest <= db.rooms[r].lastSeen
  }

  lemma JoinReaches(db: Db, o: Offer, r: Uuid)
    requires StoredOffer(db, o) && OpenFor(db.rooms, FoldingOf(o).key, r) && InReach(db, o, r)
    ensures var end := Record(db, o);
            && OpenFor(end.rooms, FoldingOf(o).key, r)
            && end.rooms[r].firstSeen <= o.alert.observedAt <= end.rooms[r].lastSeen
            && Held(end.alerts, r) == Held(db.alerts, r) + {o.id}
  {
    JoinIsFiling(db, o, r);
    FilesOneRow(Db(Inserted(db.alerts, o), db.rooms), o.id, r);
    assert Held(Inserted(db.alerts, o), r) == Held(db.alerts, r);
  }

  lemma ReachesFurther(db: Db, o: Offer, key: GroupingKey, latest: Time, r: Uuid)
    requires Reaches(db, key, latest, r) && StoredOffer(db, o) && FoldingOf(o).key == key
    requires latest - o.grouping.window <= o.alert.observedAt <= latest
    ensures Reaches(Record(db, o), key, o.alert.observedAt, r)
    ensures Held(Record(db, o).alerts, r) == Held(db.alerts, r) + {o.id}
  {
    JoinReaches(db, o, r);
    RecordIsSound(db, o);
  }

  function Ids(offers: seq<Offer>): set<Uuid>
  {
    if offers == [] then {} else {offers[0].id} + Ids(offers[1..])
  }

  lemma FirstOfScan(db: Db, offers: seq<Offer>, key: GroupingKey, window: Time, latest: Time, r: Uuid)
    returns (next: Db, rest: seq<Offer>)
    requires Reaches(db, key, latest, r) && NewestFirst(db, offers, key, window, latest) && offers != []
    ensures Reaches(next, key, offers[0].alert.observedAt, r)
    ensures NewestFirst(next, rest, key, window, offers[0].alert.observedAt)
    ensures |rest| < |offers| && RecordAll(db, offers) == RecordAll(next, rest)
    ensures Held(next.alerts, r) + Ids(rest) == Held(db.alerts, r) + Ids(offers)
  {
    next, rest := Record(db, offers[0]), offers[1..];
    ReachesFurther(db, offers[0], key, latest, r);
  }

  /** However far back it reaches, a scan replayed newest-first is one room holding all of it. */
  lemma {:induction false} ABackfillIsOneRoom(db: Db, offers: seq<Offer>, key: GroupingKey, window: Time, latest: Time, r: Uuid)
    requires Reaches(db, key, latest, r) && NewestFirst(db, offers, key, window, latest)
    ensures var end := RecordAll(db, offers);
            OpenFor(end.rooms, key, r) && Held(end.alerts, r) == Held(db.alerts, r) + Ids(offers)
    decreases |offers|
  {
    if offers != [] {
      var next, rest := FirstOfScan(db, offers, key, window, latest, r);
      ABackfillIsOneRoom(next, rest, key, window, offers[0].alert.observedAt, r);
    }
  }

  // ----- undoing and repeating -----

  /** A resolution can always be withdrawn straight away, and withdrawing it restores everything but the history. */
  lemma AResolutionCanBeWithdrawn(db: Db, r: Uuid, change: Change, at: Time, actor: Uuid, later: Time)
    requires Sound(db) && TransitionError(db, r, change).None? && change.to == Some(Resolved)
    ensures var resolved := Transition(db, r, change, at);
            var back := Reopen(resolved, r, actor, later);
            && resolved.rooms[r].cause == Some(change.cause.code) && resolved.rooms[r].resolvedAt == Some(at)
            && ReopenError(resolved, r).None?
            && back.rooms.Keys == db.rooms.Keys && back.alerts == db.alerts
            && (forall s :: s in db.rooms && s != r ==> back.rooms[s] == db.rooms[s])
            && back.rooms[r] == db.rooms[r].(status := Investigating, history := back.rooms[r].history)
  {
    CheckAccepts(change, db.rooms[r].status);
    var resolved := Transition(db, r, change, at);
    var key := db.rooms[r].key;
    assert OpenFor(db.rooms, key, r);
    forall s
      ensures !OpenFor(resolved.rooms, key, s)
    {
      assert OpenFor(db.rooms, key, s) ==> s == r;
    }
    LegalHistoryBalances(db.rooms[r].history);
  }

  /** The sweep closes exactly the open rooms whose rule has a hold that has run out, the storm's being an hour, unless
      the room is about one machine and that machine is in maintenance; each closes when its hold ran out, not later. */
  lemma SweepClosesExactly(db: Db, sweep: Sweep, r: Uuid)
    requires r in db.rooms
    ensures var room, windows := db.rooms[r], sweep.windows;
            var storm := room.key.rule == "alert-storm";
            var after := ResolveStale(db, sweep).rooms;
            && r in after
            && (after[r] != room <==>
                && room.status != Resolved
                && (storm || (room.key.rule in windows && windows[room.key.rule] > 0))
                && room.lastSeen + (if storm then 3600 * SECOND else windows[room.key.rule]) <= sweep.at
                && !(room.key.scope == Device
                     && room.key.scopeKey in sweep.devices && sweep.devices[room.key.scopeKey].maintenance))
            && (after[r] != room ==>
                var at := room.lastSeen + if storm then 3600 * SECOND else windows[room.key.rule];
                && at <= sweep.at
                && after[r] == room.(status := Resolved, resolvedAt := Some(at),
                                     history := room.history + [Resolution(at, NIL, BySystem(NoAlertWithinWindow))]))
  {
    var room := db.rooms[r];
    assert sweep.Due(room) ==> sweep.Swept(room).status != room.status;
  }

  /** A second sweep at the same instant finds nothing left to close. */
  lemma SweepingTwiceIsSweepingOnce(db: Db, sweep: Sweep)
    ensures ResolveStale(ResolveStale(db, sweep), sweep) == ResolveStale(db, sweep)
    ensures DueRooms(ResolveStale(db, sweep).rooms, sweep) == {}
  {
    var once := ResolveStale(db, sweep);
    forall r | r in db.rooms
      ensures !sweep.Due(once.rooms[r])
    {
    }
    assert ResolveStale(once, sweep).rooms == once.rooms;
  }

  // ----- what else a record answers -----

  /** A replay is a stored row of the same machine, rule, version and window start; nothing else is. */
  lemma DuplicateExactly(db: Db, o: Offer)
    ensures RecordAnswer(db, o) == Filed(Duplicate) <==>
            && o.grouping.scope.Some? && o.grouping.window > 0
            && exists id :: id in db.alerts && var row := db.alerts[id].alert;
                            && row.device == o.alert.device && row.rule == o.alert.rule
                            && row.version == o.alert.version && row.windowStart == o.alert.windowStart
  {
    if id :| id in db.alerts && SameIdentity(db.alerts[id].alert, o.alert) {
      assert db.alerts[id].alert.device == o.alert.device;
    }
    if id :| id in db.alerts && db.alerts[id].alert.device == o.alert.device && db.alerts[id].alert.rule == o.alert.rule
             && db.alerts[id].alert.version == o.alert.version && db.alerts[id].alert.windowStart == o.alert.windowStart {
      assert SameIdentity(db.alerts[id].alert, o.alert);
    }
  }

  /** The errors of a record, each writing nothing: an unusable grouping first of all, then, for a new identity
      within the budget, a row id in use and a machine that is not there. */
  lemma RecordFailsExactly(db: Db, o: Offer)
    ensures var answer := RecordAnswer(db, o);
            var usable := o.grouping.scope.Some? && o.grouping.window > 0;
            var admitted := usable && WithinBudget(db.alerts, o) && !StoredIdentity(db.alerts, o.alert);
            && (answer == Failed(GroupingUnusable) <==> !usable)
            && (answer == Failed(AlertIdTaken) <==> admitted && o.id in db.alerts)
            && (answer == Failed(NoMachine) <==> admitted && o.id !in db.alerts && o.alert.device !in o.devices)
            && (answer.Failed? ==> Record(db, o) == db)
  {
  }

  /** A suppressed alert is one more in its customer's open storm room, seen now, and changes nothing else. */
  lemma SuppressedIsCounted(db: Db, o: Offer) returns (r: Uuid)
    requires Sound(db) && Legal(db, DoRecord(o)) && RecordAnswer(db, o) == Filed(CeilingSuppressed)
    ensures var end, customer := Record(db, o), o.alert.organization;
            && r in end.rooms && end.rooms[r].status != Resolved
            && end.rooms[r].key == GroupingKey(customer, "alert-storm", Organization, customer)
            && end.alerts == db.alerts && end.rooms.Keys == db.rooms.Keys + {r}
            && (forall s :: s in db.rooms && s != r ==> end.rooms[s] == db.rooms[s])
            && (if r in db.rooms
                then end.rooms[r] == db.rooms[r].(lastSeen := o.now, occurrences := db.rooms[r].occurrences + 1)
                else r == o.roomId && end.rooms[r] ==
                     Room(end.rooms[r].key, Warning, New, NIL, o.now, o.now, o.now, None, None, 1, 0, []))
  {
    match OpenRoom(db.rooms, StormKey(o.alert.organization)) {
      case Some(storm) => r := storm;
      case None => r := o.roomId;
    }
  }

  /** Erasure removes exactly the machine's alerts, and resolves exactly the open rooms that held nothing else. */
  lemma EraseExactly(db: Db, device: Uuid, at: Time, r: Uuid)
    requires r in db.rooms
    ensures var end := EraseDevice(db, device, at);
            && (forall id :: id in end.alerts <==> id in db.alerts && db.alerts[id].alert.device != device)
            && (forall id :: id in end.alerts ==> end.alerts[id] == db.alerts[id])
            && r in end.rooms
            && (end.rooms[r].status != db.rooms[r].status <==>
                db.rooms[r].status != Resolved && Held(db.alerts, r) != {}
                && forall id :: id in Held(db.alerts, r) ==> db.alerts[id].alert.device == device)
            && (end.rooms[r].status != db.rooms[r].status ==>
                && end.rooms[r].status == Resolved && end.rooms[r].resolvedAt == Some(at) && end.rooms[r].cause == db.rooms[r].cause
                && end.rooms[r].history == db.rooms[r].history + [Resolution(at, NIL, BySystem(LastDeviceErased))])
  {
    OnlyThatMachine(db.alerts, r, device);
  }

  lemma OnlyThatMachine(alerts: map<Uuid, AlertRow>, r: Uuid, device: Uuid)
    ensures Feeds(alerts, r, device) && |Others(alerts, r, device)| == 0 <==>
            Held(alerts, r) != {} && forall id :: id in Held(alerts, r) ==> alerts[id].alert.device == device
  {
    var others := Others(alerts, r, device);
    assert forall id :: id in others <==> id in Held(alerts, r) && alerts[id].alert.device != device;
    if |others| == 0 {
      assert forall id :: id !in others;
    } else {
      var id :| id in others;
    }
    if Held(alerts, r) != {} {
      var id :| id in Held(alerts, r);
    }
  }

  /** A resumed purge changes nothing the first pass did not. */
  lemma ErasingTwiceIsErasingOnce(db: Db, device: Uuid, at: Time, later: Time)
    ensures EraseDevice(EraseDevice(db, device, at), device, later) == EraseDevice(db, device, at)
  {
    var once := EraseDevice(db, device, at);
    assert WithoutDevice(once.alerts, device) == once.alerts;
    forall r
      ensures !Feeds(once.alerts, r, device)
    {
    }
    assert RecountedRooms(once.rooms, once.alerts, device) == once.rooms;
    assert EmptiedRooms(once.rooms, once.alerts, device, later) == once.rooms;
  }
}

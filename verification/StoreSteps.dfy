/** Each store operation as a function of the tables; one database transaction is one step. */
module StoreSteps {
  import opened Collections
  import opened Incidents
  import opened Tables
  import opened Notes

  // ----- Record -----

  datatype RecordError = GroupingUnusable | NoMachine | AlertIdTaken

  /** An error writes nothing. */
  datatype Answer = Filed(outcome: Outcome) | Failed(error: RecordError)

  /** The key an alert groups under; without a site, site scope falls back to the device. */
  function ScopeKeyFor(alert: Alert, scope: Scope, devices: map<Uuid, Machine>): Option<GroupingKey>
  {
    match scope
    case Organization => Some(GroupingKey(alert.organization, alert.rule, Organization, alert.organization))
    case Device => Some(GroupingKey(alert.organization, alert.rule, Device, alert.device))
    case Site =>
      if alert.device !in devices then None
      else match devices[alert.device].site
           case None => Some(GroupingKey(alert.organization, alert.rule, Device, alert.device))
           case Some(site) => Some(GroupingKey(alert.organization, alert.rule, Site, site))
  }

  /** Everything one fold works from. */
  datatype Folding = Folding(
    id: Uuid, alert: Alert, window: Time, key: GroupingKey,
    devices: map<Uuid, Machine>, now: Time, roomId: Uuid)
  {
    function Gathered(alerts: map<Uuid, AlertRow>): set<Uuid>
    {
      Pending(alerts, devices, key, alert.observedAt, window)
    }

    /** Anything above info opens at once; info needs observations from two machines. */
    predicate OpensARoom(alerts: map<Uuid, AlertRow>)
    {
      alert.severity != Info || (key.scope != Device && |Machines(alerts, Gathered(alerts))| > 1)
    }
  }

  ghost function CloseLapsed(db: Db, r: Uuid, window: Time): Db
    requires r in db.rooms
  {
    db.(rooms := db.rooms[r := LapsedRoom(db.rooms[r], window)])
  }

  /** The insert and its conflict clause: a room already open for the key absorbs the insert. */
  ghost function OpenOrJoin(rooms: map<Uuid, Room>, f: Folding): (result: (map<Uuid, Room>, Uuid))
    ensures result.1 in result.0
  {
    match OpenRoom(rooms, f.key)
    case Some(r) =>
      var last := if rooms[r].lastSeen < f.alert.observedAt then f.alert.observedAt else rooms[r].lastSeen;
      (rooms[r := rooms[r].(lastSeen := last)], r)
    case None =>
      (rooms[f.roomId := NewRoom(f.key, f.alert.severity, f.now, f.alert.observedAt, 0)], f.roomId)
  }

  ghost function OpenIfDue(db: Db, f: Folding): Db
  {
    if !f.OpensARoom(db.alerts) then db else
      var (rooms, r) := OpenOrJoin(db.rooms, f);
      FileInto(Db(db.alerts, rooms), f.Gathered(db.alerts) + {f.id}, r)
  }

  ghost function Fold(db: Db, f: Folding): Db
  {
    match OpenRoom(db.rooms, f.key)
    case None => OpenIfDue(db, f)
    case Some(r) =>
      var room := db.rooms[r];
      var g := Grouping(Some(f.key.scope), f.window);
      if g.Spans(room.firstSeen, room.lastSeen, f.alert.observedAt) then FileInto(db, {f.id}, r)
      else if g.Lapsed(room.lastSeen, f.alert.observedAt) then OpenIfDue(CloseLapsed(db, r, f.window), f)
      else db
  }

  function StormKey(organization: Uuid): GroupingKey
  {
    GroupingKey(organization, STORM_RULE_ID, Organization, organization)
  }

  ghost function FoldIntoStorm(db: Db, organization: Uuid, now: Time, roomId: Uuid): Db
  {
    match OpenRoom(db.rooms, StormKey(organization))
    case Some(r) =>
      db.(rooms := db.rooms[r := db.rooms[r].(occurrences := db.rooms[r].occurrences + 1, lastSeen := now)])
    case None =>
      db.(rooms := db.rooms[roomId := NewRoom(StormKey(organization), STORM_SEVERITY, now, now, 1)])
  }

  /** One offered alert: the row id the device chose, its rule's grouping, the budget in force,
      the machines as they stand, the receipt instant and the id a room would take. */
  datatype Offer = Offer(
    id: Uuid, alert: Alert, grouping: Grouping, limit: nat,
    devices: map<Uuid, Machine>, now: Time, roomId: Uuid)

  function Inserted(alerts: map<Uuid, AlertRow>, o: Offer): map<Uuid, AlertRow>
  {
    alerts[o.id := AlertRow(o.alert, o.now, None)]
  }

  predicate WithinBudget(alerts: map<Uuid, AlertRow>, o: Offer)
  {
    |Recent(alerts, o.alert.organization, o.now - HOUR)| < o.limit
  }

  ghost function RecordAnswer(db: Db, o: Offer): Answer
  {
    if !o.grouping.Usable() then Failed(GroupingUnusable)
    else if WithinBudget(db.alerts, o) && !StoredIdentity(db.alerts, o.alert) then
      if o.id in db.alerts then Failed(AlertIdTaken)
      else if o.alert.device !in o.devices then Failed(NoMachine)
      else Filed(Stored)
    else if StoredIdentity(db.alerts, o.alert) then Filed(Duplicate)
    else Filed(CeilingSuppressed)
  }

  ghost function FoldingOf(o: Offer): Folding
    requires o.grouping.Usable() && o.alert.device in o.devices
  {
    Folding(o.id, o.alert, o.grouping.window, ScopeKeyFor(o.alert, o.grouping.scope.value, o.devices).value,
            o.devices, o.now, o.roomId)
  }

  ghost function Record(db: Db, o: Offer): Db
  {
    match RecordAnswer(db, o)
    case Failed(_) => db
    case Filed(Duplicate) => db
    case Filed(CeilingSuppressed) => FoldIntoStorm(db, o.alert.organization, o.now, o.roomId)
    case Filed(Stored) => Fold(Db(Inserted(db.alerts, o), db.rooms), FoldingOf(o))
  }

  // ----- lifecycle -----

  function Moved(room: Room, at: Time, to: Status, cause: GivenCause, actor: Uuid, reopened: bool): Room
  {
    room.(status := to,
          resolvedAt := if to == Resolved then Some(at) else None,
          cause := if cause.Known? then Some(cause.code) else None,
          history := room.history + [
            if to == Resolved && cause.Known? then Resolution(at, actor, ByPerson(room.status, cause.code))
            else StatusChange(at, actor, room.status, to, reopened)])
  }

  function TransitionError(db: Db, r: Uuid, change: Change): Option<ChangeError>
  {
    if r !in db.rooms then Some(IncidentNotFound) else Check(change, db.rooms[r].status)
  }

  ghost function Transition(db: Db, r: Uuid, change: Change, at: Time): Db
  {
    if TransitionError(db, r, change).Some? then db
    else db.(rooms := db.rooms[r := Moved(db.rooms[r], at, change.to.value, change.cause, change.actor, false)])
  }

  ghost function ReopenError(db: Db, r: Uuid): Option<ChangeError>
  {
    if r !in db.rooms then Some(IncidentNotFound)
    else if db.rooms[r].status != Resolved then Some(IllegalTransition)
    else if OpenRoom(db.rooms, db.rooms[r].key).Some? then Some(KeyAlreadyOpen)
    else None
  }

  ghost function Reopen(db: Db, r: Uuid, actor: Uuid, at: Time): Db
  {
    if ReopenError(db, r).Some? then db
    else db.(rooms := db.rooms[r := Moved(db.rooms[r], at, Investigating, NoCause, actor, true)])
  }

  ghost function Assign(db: Db, r: Uuid, assignee: Uuid, actor: Uuid, at: Time): Db
  {
    if r !in db.rooms then db
    else
      var room := db.rooms[r];
      db.(rooms := db.rooms[r := room.(assignee := assignee, history := room.history + [Assignment(at, actor, assignee)])])
  }

  const MAX_COMMENT_BYTES := 4096

  function RemarkError(db: Db, r: Uuid, note: string): Option<ChangeError>
  {
    var trimmed := Trimmed(note);
    if trimmed == "" || Utf8Size(trimmed) > MAX_COMMENT_BYTES then Some(CommentUnusable)
    else if r !in db.rooms then Some(IncidentNotFound)
    else None
  }

  ghost function Remark(db: Db, r: Uuid, actor: Uuid, note: string, at: Time): Db
  {
    if RemarkError(db, r, note).Some? then db
    else
      var room := db.rooms[r];
      db.(rooms := db.rooms[r := room.(history := room.history + [Comment(at, actor, Trimmed(note))])])
  }

  // ----- the stale sweep -----

  /** The holds the sweep joins on: the caller's positive windows, and the storm's own hour. */
  function Holds(windows: map<RuleId, Time>): map<RuleId, Time>
  {
    (map rule | rule in windows && rule != STORM_RULE_ID && windows[rule] > 0 :: windows[rule])[STORM_RULE_ID := STORM_HOLD]
  }

  /** An open room whose hold has run out, unless its one machine is in maintenance. */
  predicate DueUnder(holds: map<RuleId, Time>, at: Time, devices: map<Uuid, Machine>, room: Room)
  {
    && room.key.rule in holds
    && room.status != Resolved
    && room.lastSeen + holds[room.key.rule] <= at
    && !(room.key.scope == Device
         && room.key.scopeKey in devices && devices[room.key.scopeKey].maintenance)
  }

  datatype Sweep = Sweep(windows: map<RuleId, Time>, at: Time, devices: map<Uuid, Machine>) {
    predicate Due(room: Room) { DueUnder(Holds(windows), at, devices, room) }

    function Swept(room: Room): Room
    {
      if Due(room) then LapsedRoom(room, Holds(windows)[room.key.rule]) else room
    }
  }

  /** The sweep confined to some rooms; the janitor runs it over all of them. */
  function SweepRooms(rooms: map<Uuid, Room>, sweep: Sweep, over: set<Uuid>): map<Uuid, Room>
  {
    map r | r in rooms :: if r in over then sweep.Swept(rooms[r]) else rooms[r]
  }

  function DueRooms(rooms: map<Uuid, Room>, sweep: Sweep): set<Uuid>
  {
    set r | r in rooms && sweep.Due(rooms[r])
  }

  ghost function ResolveStale(db: Db, sweep: Sweep): Db
  {
    db.(rooms := SweepRooms(db.rooms, sweep, db.rooms.Keys))
  }

  // ----- erasure and retention -----

  function Others(alerts: map<Uuid, AlertRow>, r: Uuid, device: Uuid): set<Uuid>
  {
    set id | id in Held(alerts, r) && alerts[id].alert.device != device
  }

  predicate Feeds(alerts: map<Uuid, AlertRow>, r: Uuid, device: Uuid)
  {
    exists id :: id in Held(alerts, r) && alerts[id].alert.device == device
  }

  function Recounted(room: Room, alerts: map<Uuid, AlertRow>, r: Uuid, device: Uuid): Room
  {
    if Feeds(alerts, r, device) then
      room.(occurrences := |Others(alerts, r, device)|, deviceCount := |Machines(alerts, Others(alerts, r, device))|)
    else room
  }

  function Emptied(room: Room, alerts: map<Uuid, AlertRow>, r: Uuid, device: Uuid, at: Time): Room
  {
    if room.status != Resolved && room.occurrences == 0 && Feeds(alerts, r, device)
    then Closed(room, at, LastDeviceErased) else room
  }

  function WithoutDevice(alerts: map<Uuid, AlertRow>, device: Uuid): map<Uuid, AlertRow>
  {
    map id | id in alerts && alerts[id].alert.device != device :: alerts[id]
  }

  function RecountedRooms(rooms: map<Uuid, Room>, alerts: map<Uuid, AlertRow>, device: Uuid): map<Uuid, Room>
  {
    map r | r in rooms :: Recounted(rooms[r], alerts, r, device)
  }

  function EmptiedRooms(rooms: map<Uuid, Room>, alerts: map<Uuid, AlertRow>, device: Uuid, at: Time): map<Uuid, Room>
  {
    map r | r in rooms :: Emptied(rooms[r], alerts, r, device, at)
  }

  ghost function EraseDevice(db: Db, device: Uuid, at: Time): Db
  {
    Db(WithoutDevice(db.alerts, device),
       EmptiedRooms(RecountedRooms(db.rooms, db.alerts, device), db.alerts, device, at))
  }

  function ExpiredAlerts(alerts: map<Uuid, AlertRow>, cutoff: Time): set<Uuid>
  {
    set id | id in alerts && alerts[id].receivedAt < cutoff
  }

  function ExpiredRooms(db: Db, cutoff: Time): set<Uuid>
  {
    set r | r in db.rooms
            && db.rooms[r].status == Resolved
            && db.rooms[r].resolvedAt.Some? && db.rooms[r].resolvedAt.value < cutoff
            && Held(db.alerts, r) == {}
  }

  datatype Stage = AlertRows | RoomRows

  /** The rows a stage's statement may delete. */
  function Candidates(db: Db, stage: Stage, cutoff: Time): set<Uuid>
  {
    match stage
    case AlertRows => ExpiredAlerts(db.alerts, cutoff)
    case RoomRows => ExpiredRooms(db, cutoff)
  }

  function Removed(db: Db, stage: Stage, gone: set<Uuid>): Db
  {
    match stage
    case AlertRows => db.(alerts := db.alerts - gone)
    case RoomRows => db.(rooms := db.rooms - gone)
  }

  function Cutoff(now: Time, horizon: Time): Time
  {
    now - horizon
  }

  /** A retention pass with nothing between its batches. */
  ghost function SweepExpired(db: Db, cutoff: Time): Db
  {
    var kept := db.(alerts := db.alerts - ExpiredAlerts(db.alerts, cutoff));
    kept.(rooms := kept.rooms - ExpiredRooms(kept, cutoff))
  }

  // ----- runs -----

  datatype Op =
    | DoRecord(offer: Offer)
    | DoTransition(room: Uuid, change: Change, at: Time)
    | DoReopen(room: Uuid, actor: Uuid, at: Time)
    | DoAssign(room: Uuid, assignee: Uuid, actor: Uuid, at: Time)
    | DoComment(room: Uuid, actor: Uuid, note: string, at: Time)
    | DoResolveStale(sweep: Sweep)
    | DoEraseDevice(device: Uuid, at: Time)
    | DoDeleteBatch(stage: Stage, cutoff: Time, gone: set<Uuid>, at: Time)
  {
    /** The store's clock reading for the step. */
    function At(): Time
    {
      match this
      case DoRecord(offer) => offer.now
      case DoResolveStale(sweep) => sweep.at
      case DoTransition(_, _, at) => at
      case DoReopen(_, _, at) => at
      case DoAssign(_, _, _, at) => at
      case DoComment(_, _, _, at) => at
      case DoEraseDevice(_, at) => at
      case DoDeleteBatch(_, _, _, at) => at
    }
  }

  /** Room ids come from a fresh uuid, no machine reports under the storm's rule id,
      and a batch takes only rows its statement may delete. */
  predicate Legal(db: Db, op: Op)
  {
    && (op.DoRecord? ==>
          op.offer.roomId !in db.rooms && op.offer.roomId != NIL && op.offer.alert.rule != STORM_RULE_ID)
    && (op.DoDeleteBatch? ==> op.gone <= Candidates(db, op.stage, op.cutoff))
  }

  ghost function Apply(db: Db, op: Op): Db
  {
    match op
    case DoRecord(offer) => Record(db, offer)
    case DoTransition(r, change, at) => Transition(db, r, change, at)
    case DoReopen(r, actor, at) => Reopen(db, r, actor, at)
    case DoAssign(r, assignee, actor, at) => Assign(db, r, assignee, actor, at)
    case DoComment(r, actor, note, at) => Remark(db, r, actor, note, at)
    case DoResolveStale(sweep) => ResolveStale(db, sweep)
    case DoEraseDevice(device, at) => EraseDevice(db, device, at)
    case DoDeleteBatch(stage, _, gone, _) => Removed(db, stage, gone)
  }

  const EMPTY: Db := Db(map[], map[])

  /** `ops` leads from `db` to `end` by legal steps. */
  ghost predicate Runs(db: Db, ops: seq<Op>, end: Db)
    decreases |ops|
  {
    if ops == [] then end == db
    else Legal(db, ops[0]) && Runs(Apply(db, ops[0]), ops[1..], end)
  }
}

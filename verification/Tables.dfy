/** The alerts and incidents tables of one tenant, and the statements the store runs over them. */
module Tables {
  import opened Collections
  import opened Incidents

  /** What a machine offers. The identity of a replay is (device, rule, version, windowStart). */
  datatype Alert = Alert(
    organization: Uuid, device: Uuid, rule: RuleId, version: nat,
    severity: Severity, windowStart: Time, observedAt: Time)

  datatype AlertRow = AlertRow(alert: Alert, receivedAt: Time, room: Option<Uuid>)

  /** An incident row together with its own lines of incident_events, which live and die with it. */
  datatype Room = Room(
    key: GroupingKey, severity: Severity, status: Status, assignee: Uuid,
    openedAt: Time, firstSeen: Time, lastSeen: Time,
    resolvedAt: Option<Time>, cause: Option<CauseCode>,
    occurrences: nat, deviceCount: nat, history: seq<Event>)

  datatype Db = Db(alerts: map<Uuid, AlertRow>, rooms: map<Uuid, Room>)

  /** The columns of a devices row the store reads; sites and maintenance flags change freely. */
  datatype Machine = Machine(site: Option<Uuid>, maintenance: bool)

  // ----- reads -----

  predicate SameIdentity(a: Alert, b: Alert)
  {
    a.device == b.device && a.rule == b.rule && a.version == b.version && a.windowStart == b.windowStart
  }

  predicate StoredIdentity(alerts: map<Uuid, AlertRow>, alert: Alert)
  {
    exists id :: id in alerts && SameIdentity(alerts[id].alert, alert)
  }

  /** The rows the hourly budget counts. */
  function Recent(alerts: map<Uuid, AlertRow>, organization: Uuid, since: Time): set<Uuid>
  {
    set id | id in alerts && alerts[id].alert.organization == organization && alerts[id].receivedAt > since
  }

  predicate OpenFor(rooms: map<Uuid, Room>, key: GroupingKey, r: Uuid)
  {
    r in rooms && rooms[r].key == key && rooms[r].status != Resolved
  }

  ghost function OpenRoom(rooms: map<Uuid, Room>, key: GroupingKey): (found: Option<Uuid>)
    ensures found.Some? ==> OpenFor(rooms, key, found.value)
    ensures found.None? ==> forall r :: !OpenFor(rooms, key, r)
  {
    if exists r :: OpenFor(rooms, key, r) then
      var r :| OpenFor(rooms, key, r);
      Some(r)
    else None
  }

  /** The alerts filed into a room. */
  function Held(alerts: map<Uuid, AlertRow>, r: Uuid): set<Uuid>
  {
    set id | id in alerts && alerts[id].room == Some(r)
  }

  function Machines(alerts: map<Uuid, AlertRow>, ids: set<Uuid>): set<Uuid>
  {
    set id | id in ids && id in alerts :: alerts[id].alert.device
  }

  function Times(alerts: map<Uuid, AlertRow>, ids: set<Uuid>): set<Time>
  {
    set id | id in ids && id in alerts :: alerts[id].alert.observedAt
  }

  function Severities(alerts: map<Uuid, AlertRow>, ids: set<Uuid>): set<Severity>
  {
    set id | id in ids && id in alerts :: alerts[id].alert.severity
  }

  function Worst(severities: set<Severity>): Severity
  {
    if Critical in severities then Critical else if Warning in severities then Warning else Info
  }

  predicate InScope(devices: map<Uuid, Machine>, key: GroupingKey, device: Uuid)
  {
    match key.scope
    case Organization => true
    case Device => device == key.scopeKey
    case Site => device in devices && devices[device].site == Some(key.scopeKey)
  }

  /** Unfiled info observations of a key within `window` of an instant, on either side. */
  function Pending(alerts: map<Uuid, AlertRow>, devices: map<Uuid, Machine>, key: GroupingKey,
                   at: Time, window: Time): set<Uuid>
  {
    set id | id in alerts
             && alerts[id].room == None
             && alerts[id].alert.organization == key.organization
             && alerts[id].alert.rule == key.rule
             && alerts[id].alert.severity == Info
             && at - window <= alerts[id].alert.observedAt <= at + window
             && InScope(devices, key, alerts[id].alert.device)
  }

  // ----- writes -----

  function Attached(alerts: map<Uuid, AlertRow>, ids: set<Uuid>, r: Uuid): map<Uuid, AlertRow>
  {
    map id | id in alerts :: if id in ids then alerts[id].(room := Some(r)) else alerts[id]
  }

  ghost function Restated(room: Room, alerts: map<Uuid, AlertRow>, held: set<Uuid>): Room
    requires held != {} && held <= alerts.Keys
  {
    var id := Pick(held);
    assert alerts[id].alert.observedAt in Times(alerts, held);
    room.(occurrences := |held|,
          deviceCount := |Machines(alerts, held)|,
          firstSeen := MinOf(Times(alerts, held)),
          lastSeen := MaxOf(Times(alerts, held)),
          severity := Worst(Severities(alerts, held)))
  }

  /** Files alerts into a room and restates it from everything it then holds. */
  ghost function FileInto(db: Db, ids: set<Uuid>, r: Uuid): Db
    requires r in db.rooms
  {
    var alerts := Attached(db.alerts, ids, r);
    var held := Held(alerts, r);
    Db(alerts, if held == {} then db.rooms else db.rooms[r := Restated(db.rooms[r], alerts, held)])
  }

  /** An automatic close: no cause code, and a resolution line stamped with the same instant. */
  function Closed(room: Room, at: Time, reason: CloseReason): Room
  {
    room.(status := Resolved, resolvedAt := Some(at),
          history := room.history + [Resolution(at, NIL, BySystem(reason))])
  }

  /** Closing for idleness, stamped `window` after the last alert. */
  function LapsedRoom(room: Room, window: Time): Room
  {
    Closed(room, room.lastSeen + window, NoAlertWithinWindow)
  }

  function NewRoom(key: GroupingKey, severity: Severity, openedAt: Time, seenAt: Time, occurrences: nat): Room
  {
    Room(key, severity, New, NIL, openedAt, seenAt, seenAt, None, None, occurrences, 0, [])
  }
}

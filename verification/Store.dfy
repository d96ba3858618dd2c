/** The alert store as it runs: each method issues its statements one after another inside one transaction. */
module AlertStore {
  import opened Collections
  import opened Incidents
  import opened Tables
  import opened Notes
  import opened StoreSteps
  import Rows = Tables
  import Spec = StoreSteps
  import opened StoreSoundness
  import opened Retention

  function Worse(a: Severity, b: Severity): Severity
  {
    if a == Critical || b == Critical then Critical else if a == Warning || b == Warning then Warning else Info
  }

  lemma OneMoreRow(alerts: map<Uuid, AlertRow>, seen: set<Uuid>, id: Uuid)
    requires seen <= alerts.Keys && id in alerts
    ensures Times(alerts, seen + {id}) == Times(alerts, seen) + {alerts[id].alert.observedAt}
    ensures Worst(Severities(alerts, seen + {id})) == Worse(Worst(Severities(alerts, seen)), alerts[id].alert.severity)
  {
    assert Severities(alerts, seen + {id}) == Severities(alerts, seen) + {alerts[id].alert.severity};
  }

  ghost predicate Bounds(times: set<Time>, first: Time, last: Time)
  {
    first in times && last in times && forall t :: t in times ==> first <= t <= last
  }

  /** The aggregate a restatement reads: earliest, latest and worst of the filed alerts. */
  method Aggregate(alerts: map<Uuid, AlertRow>, held: set<Uuid>)
    returns (firstSeen: Time, lastSeen: Time, severity: Severity)
    requires held != {} && held <= alerts.Keys
    ensures Times(alerts, held) != {}
    ensures firstSeen == MinOf(Times(alerts, held)) && lastSeen == MaxOf(Times(alerts, held))
    ensures severity == Worst(Severities(alerts, held))
  {
    var id :| id in held;
    var row := alerts[id].alert;
    firstSeen, lastSeen, severity := row.observedAt, row.observedAt, row.severity;
    ghost var seen := {id};
    OneMoreRow(alerts, {}, id);
    assert {} + {id} == {id};
    var rest := held - {id};
    while rest != {}
      invariant rest <= held && seen == held - rest
      invariant Bounds(Times(alerts, seen), firstSeen, lastSeen)
      invariant severity == Worst(Severities(alerts, seen))
      decreases |rest|
    {
      id :| id in rest;
      OneMoreRow(alerts, seen, id);
      seen := seen + {id};
      rest := rest - {id};
      row := alerts[id].alert;
      if row.observedAt < firstSeen { firstSeen := row.observedAt; }
      if row.observedAt > lastSeen { lastSeen := row.observedAt; }
      severity := Worse(severity, row.severity);
    }
    assert seen == held;
  }

  /** Parallel arrays: every rule with a positive window once, and the storm last. */
  method HoldArrays(windows: map<RuleId, Time>) returns (rules: seq<RuleId>, holds: seq<Time>)
    ensures |rules| == |holds|
    ensures forall i, j :: 0 <= i < j < |rules| ==> rules[i] != rules[j]
    ensures forall i :: 0 <= i < |rules| ==> rules[i] in Holds(windows) && Holds(windows)[rules[i]] == holds[i]
    ensures forall rule :: rule in Holds(windows) ==> rule in rules
  {
    rules, holds := [], [];
    var rest := windows.Keys;
    while rest != {}
      invariant rest <= windows.Keys && |rules| == |holds|
      invariant forall i, j :: 0 <= i < j < |rules| ==> rules[i] != rules[j]
      invariant forall i :: 0 <= i < |rules| ==>
                  && rules[i] in windows && rules[i] !in rest && rules[i] != STORM_RULE_ID
                  && holds[i] == windows[rules[i]] > 0
      invariant forall rule :: rule in windows && rule !in rest && rule != STORM_RULE_ID && windows[rule] > 0 ==> rule in rules
      decreases |rest|
    {
      var rule :| rule in rest;
      rest := rest - {rule};
      if rule != STORM_RULE_ID && windows[rule] > 0 {
        rules, holds := rules + [rule], holds + [windows[rule]];
      }
    }
    rules, holds := rules + [STORM_RULE_ID], holds + [STORM_HOLD];
  }

  /** The arrays unnested side by side. */
  method JoinedHolds(windows: map<RuleId, Time>) returns (joined: map<RuleId, Time>)
    ensures joined == Holds(windows)
  {
    var rules, holds := HoldArrays(windows);
    joined := map i | 0 <= i < |rules| :: rules[i] := holds[i];
    assert joined.Keys == Holds(windows).Keys;
  }

  /** The update over the joined arrays. */
  function ClosedUnder(rooms: map<Uuid, Room>, holds: map<RuleId, Time>, at: Time, devices: map<Uuid, Machine>): map<Uuid, Room>
  {
    map r | r in rooms ::
      if DueUnder(holds, at, devices, rooms[r]) then LapsedRoom(rooms[r], holds[rooms[r].key.rule]) else rooms[r]
  }

  lemma JoinIsTheSweep(rooms: map<Uuid, Room>, sweep: Sweep)
    ensures ClosedUnder(rooms, Holds(sweep.windows), sweep.at, sweep.devices) == SweepRooms(rooms, sweep, rooms.Keys)
    ensures (set r | r in rooms && DueUnder(Holds(sweep.windows), sweep.at, sweep.devices, rooms[r])) == DueRooms(rooms, sweep)
  {
  }

  /** The rooms a sweep reports are exactly the ones it changes, each from open to resolved. */
  lemma SweepReportsWhatItCloses(rooms: map<Uuid, Room>, sweep: Sweep)
    ensures var swept := SweepRooms(rooms, sweep, rooms.Keys);
            DueRooms(rooms, sweep) == set r | r in rooms && rooms[r].status != Resolved && swept[r].status == Resolved
    ensures var swept := SweepRooms(rooms, sweep, rooms.Keys);
            forall r :: r in rooms && r !in DueRooms(rooms, sweep) ==> swept[r] == rooms[r]
  {
  }

  /** Putting in the one open room of a key leaves one open room per key. */
  lemma InsertKeepsOneOpenRoom(before: map<Uuid, Room>, after: map<Uuid, Room>, key: GroupingKey, r: Uuid)
    requires OneOpenRoomPerKey(before) && r in after && after == before[r := after[r]] && after[r].key == key
    requires forall s :: OpenFor(before, key, s) ==> s == r
    ensures OneOpenRoomPerKey(after)
  {
    forall x, y | x in after && y in after && OpenFor(after, after[x].key, y) && OpenFor(after, after[x].key, x)
      ensures x == y
    {
      if after[x].key == key {
        assert x != r ==> OpenFor(before, key, x);
        assert y != r ==> OpenFor(before, key, y);
      } else {
        assert OpenFor(before, before[x].key, y) && OpenFor(before, before[x].key, x);
      }
    }
  }

  datatype SweepError = HorizonNotPositive | Cancelled

  lemma WholeSet<T>(part: set<T>, whole: set<T>)
    requires part <= whole && |part| == |whole|
    ensures part == whole
  {
    if part != whole {
      SubsetSizeStrict(part, whole);
    }
  }

  class Store {
    var alerts: map<Uuid, AlertRow>
    var rooms: map<Uuid, Room>

    ghost function Tables(): Db
      reads this
    {
      Db(alerts, rooms)
    }

    ghost predicate Valid()
      reads this
    {
      Sound(Tables())
    }

    constructor ()
      ensures Valid() && Tables() == EMPTY
    {
      alerts, rooms := map[], map[];
    }

    method LockOpenRoom(key: GroupingKey) returns (found: Option<Uuid>)
      requires OneOpenRoomPerKey(rooms)
      ensures found == OpenRoom(rooms, key)
    {
      if r :| r in rooms && OpenFor(rooms, key, r) {
        TheOpenRoom(rooms, key, r);
        return Some(r);
      }
      return None;
    }

    method CloseLapsed(r: Uuid, window: Time)
      requires r in rooms
      modifies this
      ensures Tables() == Spec.CloseLapsed(old(Tables()), r, window)
    {
      rooms := rooms[r := LapsedRoom(rooms[r], window)];
    }

    method OpenOrJoin(f: Folding) returns (r: Uuid)
      requires OneOpenRoomPerKey(rooms)
      modifies this`rooms
      ensures (rooms, r) == Spec.OpenOrJoin(old(rooms), f)
      ensures OneOpenRoomPerKey(rooms) && OpenFor(rooms, f.key, r)
      ensures (forall s :: !OpenFor(old(rooms), f.key, s)) ==> r == f.roomId
      ensures forall s :: s in old(rooms) && s != r ==> s in rooms && rooms[s] == old(rooms)[s]
    {
      ghost var before := rooms;
      var found := LockOpenRoom(f.key);
      match found {
        case Some(open) =>
          r := open;
          if rooms[r].lastSeen < f.alert.observedAt {
            rooms := rooms[r := rooms[r].(lastSeen := f.alert.observedAt)];
          } else {
            rooms := rooms[r := rooms[r]];
          }
        case None =>
          r := f.roomId;
          rooms := rooms[r := NewRoom(f.key, f.alert.severity, f.now, f.alert.observedAt, 0)];
      }
      InsertKeepsOneOpenRoom(before, rooms, f.key, r);
    }

    method Restate(r: Uuid)
      requires r in rooms
      modifies this`rooms
      ensures rooms == if Held(alerts, r) == {} then old(rooms)
                       else old(rooms)[r := Restated(old(rooms)[r], alerts, Held(alerts, r))]
    {
      var held := Held(alerts, r);
      if held != {} {
        var firstSeen, lastSeen, severity := Aggregate(alerts, held);
        rooms := rooms[r := rooms[r].(
          occurrences := |held|, deviceCount := |Machines(alerts, held)|,
          firstSeen := firstSeen, lastSeen := lastSeen, severity := severity)];
      }
    }

    /** Attaches one alert and restates the room; `gathered` are the alerts just attached before it. */
    method FileInto(id: Uuid, r: Uuid, ghost before: map<Uuid, AlertRow>, ghost gathered: set<Uuid>)
      requires r in rooms && alerts == Attached(before, gathered, r)
      modifies this
      ensures Tables() == Rows.FileInto(Db(before, old(rooms)), gathered + {id}, r)
    {
      alerts := Attached(alerts, {id}, r);
      assert alerts == Attached(before, gathered + {id}, r);
      Restate(r);
    }

    method OpenRoomFor(f: Folding)
      requires OneOpenRoomPerKey(rooms) && f.OpensARoom(alerts)
      modifies this
      ensures Tables() == OpenIfDue(old(Tables()), f)
    {
      ghost var before := alerts;
      var r := OpenOrJoin(f);
      var gathered := f.Gathered(alerts);
      alerts := Attached(alerts, gathered, r);
      FileInto(f.id, r, before, gathered);
    }

    method Fold(f: Folding)
      requires FoldReady(Tables(), f)
      modifies this
      ensures Tables() == Spec.Fold(old(Tables()), f)
      ensures Valid()
    {
      FoldIsSound(Tables(), f);
      var found := LockOpenRoom(f.key);
      if found.Some? {
        var room := rooms[found.value];
        var grouping := Grouping(Some(f.key.scope), f.window);
        if grouping.Spans(room.firstSeen, room.lastSeen, f.alert.observedAt) {
          assert alerts == Attached(alerts, {}, found.value) && {} + {f.id} == {f.id};
          FileInto(f.id, found.value, alerts, {});
          return;
        } else if grouping.Lapsed(room.lastSeen, f.alert.observedAt) {
          CloseLapsedIsSound(Tables(), found.value, f.window);
          CloseLapsed(found.value, f.window);
        } else {
          return;
        }
      }
      var opens := f.OpensARoom(alerts);
      if opens {
        OpenRoomFor(f);
      }
    }

    method FoldIntoStorm(organization: Uuid, now: Time, roomId: Uuid)
      requires Valid() && roomId !in rooms && roomId != NIL
      modifies this
      ensures Tables() == Spec.FoldIntoStorm(old(Tables()), organization, now, roomId)
      ensures Valid()
    {
      FoldIntoStormIsSound(Tables(), organization, now, roomId);
      var found := LockOpenRoom(StormKey(organization));
      match found {
        case Some(r) =>
          rooms := rooms[r := rooms[r].(occurrences := rooms[r].occurrences + 1, lastSeen := now)];
        case None =>
          rooms := rooms[roomId := NewRoom(StormKey(organization), STORM_SEVERITY, now, now, 1)];
      }
    }

    method Record(o: Offer) returns (answer: Answer)
      requires Valid() && Legal(Tables(), DoRecord(o))
      modifies this
      ensures Valid()
      ensures answer == RecordAnswer(old(Tables()), o)
      ensures Tables() == Spec.Record(old(Tables()), o)
    {
      if !o.grouping.Usable() {
        return Failed(GroupingUnusable);
      }
      var known := exists id | id in alerts :: SameIdentity(alerts[id].alert, o.alert);
      if WithinBudget(alerts, o) && !known {
        if o.id in alerts {
          return Failed(AlertIdTaken);
        }
        if o.alert.device !in o.devices {
          return Failed(NoMachine);
        }
        StoredIsFoldReady(Tables(), o);
        alerts := Inserted(alerts, o);
        var key := ScopeKeyFor(o.alert, o.grouping.scope.value, o.devices);
        Fold(Folding(o.id, o.alert, o.grouping.window, key.value, o.devices, o.now, o.roomId));
        return Filed(Stored);
      }
      if known {
        return Filed(Duplicate);
      }
      FoldIntoStorm(o.alert.organization, o.now, o.roomId);
      return Filed(CeilingSuppressed);
    }

    method Transition(r: Uuid, change: Change, at: Time) returns (error: Option<ChangeError>)
      requires Valid()
      modifies this
      ensures Valid()
      ensures error == TransitionError(old(Tables()), r, change)
      ensures Tables() == Spec.Transition(old(Tables()), r, change, at)
    {
      TransitionIsSound(Tables(), r, change, at);
      if r !in rooms {
        return Some(IncidentNotFound);
      }
      error := Check(change, rooms[r].status);
      if error.None? {
        rooms := rooms[r := Moved(rooms[r], at, change.to.value, change.cause, change.actor, false)];
      }
    }

    method Reopen(r: Uuid, actor: Uuid, at: Time) returns (error: Option<ChangeError>)
      requires Valid()
      modifies this
      ensures Valid()
      ensures error == ReopenError(old(Tables()), r)
      ensures Tables() == Spec.Reopen(old(Tables()), r, actor, at)
    {
      ReopenIsSound(Tables(), r, actor, at);
      if r !in rooms {
        return Some(IncidentNotFound);
      }
      if rooms[r].status != Resolved {
        return Some(IllegalTransition);
      }
      var successor := LockOpenRoom(rooms[r].key);
      if successor.Some? {
        return Some(KeyAlreadyOpen);
      }
      rooms := rooms[r := Moved(rooms[r], at, Investigating, NoCause, actor, true)];
      return None;
    }

    method Assign(r: Uuid, assignee: Uuid, actor: Uuid, at: Time) returns (error: Option<ChangeError>)
      requires Valid()
      modifies this
      ensures Valid()
      ensures error == if r in old(rooms) then None else Some(IncidentNotFound)
      ensures Tables() == Spec.Assign(old(Tables()), r, assignee, actor, at)
      ensures r in old(rooms) ==>
                && rooms[r].assignee == assignee
                && |rooms[r].history| == |old(rooms)[r].history| + 1
                && var line := rooms[r].history[|old(rooms)[r].history|];
                   line.Assignment? && line.actor == actor && line.assignee == assignee && line.at == at
    {
      AssignIsSound(Tables(), r, assignee, actor, at);
      if r !in rooms {
        return Some(IncidentNotFound);
      }
      var room := rooms[r].(assignee := assignee);
      room := room.(history := room.history + [Event.Assignment(at, actor, assignee)]);
      rooms := rooms[r := room];
      return None;
    }

    method Comment(r: Uuid, actor: Uuid, note: string, at: Time) returns (error: Option<ChangeError>)
      requires Valid()
      modifies this
      ensures Valid()
      ensures error == Some(CommentUnusable) <==> Blank(note) || Utf8Size(Trimmed(note)) > 4096
      ensures error == RemarkError(old(Tables()), r, note)
      ensures Tables() == Remark(old(Tables()), r, actor, note, at)
      ensures error.None? ==>
                rooms == old(rooms)[r := old(rooms)[r].(history := old(rooms)[r].history + [Event.Comment(at, actor, Trimmed(note))])]
    {
      RemarkIsSound(Tables(), r, actor, note, at);
      TrimmedAway(note);
      var trimmed := Trimmed(note);
      if trimmed == "" || Utf8Size(trimmed) > MAX_COMMENT_BYTES {
        return Some(CommentUnusable);
      }
      if r !in rooms {
        return Some(IncidentNotFound);
      }
      rooms := rooms[r := rooms[r].(history := rooms[r].history + [Event.Comment(at, actor, trimmed)])];
      return None;
    }

    /** Returns how many rooms it closed. */
    method ResolveStale(sweep: Sweep) returns (closed: nat)
      requires Valid()
      modifies this
      ensures Valid()
      ensures Tables() == Spec.ResolveStale(old(Tables()), sweep)
      ensures closed == |DueRooms(old(rooms), sweep)|
    {
      SweepRoomsIsSound(Tables(), sweep, rooms.Keys);
      var joined := JoinedHolds(sweep.windows);
      JoinIsTheSweep(rooms, sweep);
      closed := |set r | r in rooms && DueUnder(joined, sweep.at, sweep.devices, rooms[r])|;
      rooms := ClosedUnder(rooms, joined, sweep.at, sweep.devices);
    }

    method EraseDeviceAlerts(device: Uuid, at: Time)
      requires Valid()
      modifies this
      ensures Valid()
      ensures Tables() == EraseDevice(old(Tables()), device, at)
    {
      EraseDeviceIsSound(Tables(), device, at);
      rooms := RecountedRooms(rooms, alerts, device);
      rooms := EmptiedRooms(rooms, alerts, device, at);
      alerts := WithoutDevice(alerts, device);
    }

    /** One bounded delete, in its own transaction. */
    method DeleteBatch(stage: Stage, cutoff: Time) returns (removed: nat, ghost batch: set<Uuid>)
      modifies this
      ensures batch <= Candidates(old(Tables()), stage, cutoff)
      ensures Tables() == Removed(old(Tables()), stage, batch)
      ensures removed == |batch| <= RETENTION_BATCH && removed <= 5000
      ensures removed < RETENTION_BATCH ==> batch == Candidates(old(Tables()), stage, cutoff)
    {
      var candidates := Candidates(Db(alerts, rooms), stage, cutoff);
      var picked := PickBatch(candidates, RETENTION_BATCH);
      match stage {
        case AlertRows => alerts := alerts - picked;
        case RoomRows => rooms := rooms - picked;
      }
      batch, removed := picked, |picked|;
      if removed < RETENTION_BATCH {
        WholeSet(picked, candidates);
      }
    }

    /** Deletes a stage's rows batch by batch until a short batch, or until the context is cancelled;
        `polls` is how many more times the context answers that it is live, None for always. */
    method Drain(stage: Stage, cutoff: Time, polls: Option<nat>)
      returns (total: nat, left: Option<nat>, done: bool, ghost gone: set<Uuid>)
      requires Valid()
      modifies this
      ensures Valid()
      ensures gone <= Candidates(old(Tables()), stage, cutoff)
      ensures Tables() == Removed(old(Tables()), stage, gone)
      ensures total == |gone| && (left.None? <==> polls.None?)
      ensures if done then gone == Candidates(old(Tables()), stage, cutoff) else left == Some(0)
    {
      ghost var before := Tables();
      ghost var all := Candidates(before, stage, cutoff);
      total, left, done, gone := 0, polls, false, {};
      RemovedNothing(before, stage);
      while !done && left != Some(0)
        invariant gone <= all && total == |gone| && (left.None? <==> polls.None?)
        invariant Tables() == Removed(before, stage, gone)
        invariant done ==> gone == all
        decreases |all - gone|, !done
      {
        left := if left.Some? then Some(left.value - 1) else None;
        var removed;
        ghost var batch;
        removed, batch := DeleteBatch(stage, cutoff);
        BatchAdvances(before, stage, cutoff, gone, batch);
        gone := gone + batch;
        total := total + removed;
        done := removed < RETENTION_BATCH;
      }
      RemovedIsSound(before, stage, cutoff, gone);
    }

    /** Alerts first, then the resolved rooms nothing points at any more. */
    method SweepStages(cutoff: Time, polls: Option<nat>) returns (total: nat, done: bool)
      requires Valid()
      modifies this
      ensures Valid()
      ensures done ==> Tables() == Spec.SweepExpired(old(Tables()), cutoff)
      ensures polls.None? ==> done
      ensures total == RowsGone(old(Tables()), Tables())
      ensures OnlyFewer(old(Tables()), Tables())
    {
      ghost var before := Tables();
      var left;
      ghost var expired, gone;
      total, left, done, expired := Drain(AlertRows, cutoff, polls);
      AlertStageRows(before, cutoff, expired);
      if done {
        BothStages(before, cutoff);
        var more;
        more, left, done, gone := Drain(RoomRows, cutoff, left);
        RoomStageRows(before, cutoff, expired, gone);
        total := total + more;
      }
    }

    /** None is a completed sweep; a cancelled one has still removed exactly what it reports. */
    method SweepExpired(horizon: Time, now: Time, polls: Option<nat>) returns (total: nat, error: Option<SweepError>)
      requires Valid()
      modifies this
      ensures Valid()
      ensures error == Some(HorizonNotPositive) <==> horizon <= 0
      ensures horizon <= 0 ==> Tables() == old(Tables())
      ensures horizon > 0 && polls.None? ==> error.None?
      ensures error.None? ==> Tables() == Spec.SweepExpired(old(Tables()), Cutoff(now, horizon))
      ensures error.None? ==> forall id :: id in old(alerts) ==>
                (id in alerts <==> now - old(alerts)[id].receivedAt <= horizon)
      ensures error.None? ==> forall r :: r in old(rooms) ==>
                (r !in rooms <==> EndedBefore(old(rooms)[r], now, horizon)
                                  && forall id :: id in old(alerts) && old(alerts)[id].room == Some(r) ==>
                                                    now - old(alerts)[id].receivedAt > horizon)
      ensures OnlyFewer(old(Tables()), Tables())
      ensures total == RowsGone(old(Tables()), Tables())
    {
      PassByAge(Tables(), now, horizon);
      if horizon <= 0 {
        NothingGone(Tables());
        return 0, Some(HorizonNotPositive);
      }
      var done;
      total, done := SweepStages(Cutoff(now, horizon), polls);
      error := if done then None else Some(Cancelled);
    }
  }
}

/** What holds of the store after any run from empty tables. */
module StoreRuns {
  import opened Collections
  import opened Incidents
  import opened Tables
  import opened StoreSteps
  import opened StoreSoundness
  import opened StoreTallies

  predicate NoRetention(ops: seq<Op>)
  {
    forall i :: 0 <= i < |ops| ==> !ops[i].DoDeleteBatch?
  }

  /** No step deletes an alert. */
  predicate NoDeletion(ops: seq<Op>)
  {
    forall i :: 0 <= i < |ops| ==> !ops[i].DoDeleteBatch? && !ops[i].DoEraseDevice?
  }

  /** Each recorded alert's grouping window is at most its rule's bound. */
  predicate WindowsWithin(ops: seq<Op>, windows: map<RuleId, Time>)
  {
    forall i :: 0 <= i < |ops| && ops[i].DoRecord? ==>
      ops[i].offer.alert.rule in windows && ops[i].offer.grouping.window <= windows[ops[i].offer.alert.rule]
  }

  /** The widest window each rule had in a run. */
  function Widest(ops: seq<Op>): map<RuleId, Time>
    decreases |ops|
  {
    if ops == [] then map[] else
      var rest := Widest(ops[1..]);
      if !ops[0].DoRecord? then rest else
        var rule, window := ops[0].offer.alert.rule, ops[0].offer.grouping.window;
        if rule in rest && rest[rule] > window then rest else rest[rule := window]
  }

  lemma {:induction false} WidestBounds(ops: seq<Op>)
    ensures WindowsWithin(ops, Widest(ops))
    decreases |ops|
  {
    if ops != [] {
      WidestBounds(ops[1..]);
      forall i | 0 <= i < |ops| && ops[i].DoRecord?
        ensures ops[i].offer.alert.rule in Widest(ops)
                && ops[i].offer.grouping.window <= Widest(ops)[ops[i].offer.alert.rule]
      {
        if i > 0 {
          assert ops[i] == ops[1..][i - 1];
        }
      }
    }
  }

  lemma EmptyIsSound()
    ensures Sound(EMPTY) && Counted(EMPTY) && Spanned(EMPTY) && forall windows :: Described(EMPTY, windows)
  {
  }

  // ----- lifecycle -----

  /** Reading a room's history in append order gives its status, resolution time, cause and assignee; resolutions
      exceed reopenings by one exactly while it is resolved; and no other open room shares its key. */
  lemma RoomsTellTheirOwnStory(ops: seq<Op>, end: Db, r: Uuid)
    requires Runs(EMPTY, ops, end) && r in end.rooms
    ensures var room := end.rooms[r];
            && Replay(room.history) == Standing(room.status, room.resolvedAt, room.cause, room.assignee)
            && Resolutions(room.history) - Reopenings(room.history) == (if room.status == Resolved then 1 else 0)
            && (room.resolvedAt.Some? <==> room.status == Resolved)
            && (room.cause.Some? ==> room.status == Resolved)
            && (room.status != Resolved ==>
                  forall s :: s in end.rooms && s != r && end.rooms[s].key == room.key ==> end.rooms[s].status == Resolved)
  {
    EmptyIsSound();
    EveryRunIsSound(EMPTY, ops, end);
    var room := end.rooms[r];
    assert RoomSound(room);
    LegalHistoryBalances(room.history);
    assert forall s :: OpenFor(end.rooms, room.key, s) && OpenFor(end.rooms, room.key, r) ==> r == s;
    assert forall s :: s in end.rooms && end.rooms[s].key == room.key ==>
      (OpenFor(end.rooms, room.key, s) <==> end.rooms[s].status != Resolved);
  }

  /** Wherever a fold reaches the insert, no open room holds the key, so its conflict clause never runs. */
  lemma InsertNeverConflicts(db: Db, f: Folding)
    requires FoldReady(db, f)
    ensures match OpenRoom(db.rooms, f.key)
            case None => OpenOrJoin(db.rooms, f).1 == f.roomId
            case Some(r) => OpenOrJoin(CloseLapsed(db, r, f.window).rooms, f).1 == f.roomId
  {
    match OpenRoom(db.rooms, f.key) {
      case None =>
      case Some(r) => CloseLapsedIsSound(db, r, f.window);
    }
  }

  /** An accepted move changes one room: its status, the instant and answer of a resolution or neither, and one line
      saying who moved it, when, and from what. */
  lemma TransitionExactly(db: Db, r: Uuid, change: Change, at: Time)
    ensures TransitionError(db, r, change) == Some(IncidentNotFound) <==> r !in db.rooms
    ensures TransitionError(db, r, change).Some? ==> Transition(db, r, change, at) == db
    ensures TransitionError(db, r, change).None? ==>
            var was, to := db.rooms[r], change.to.value;
            Transition(db, r, change, at) == db.(rooms := db.rooms[r :=
              if to == Resolved
              then was.(status := Resolved, resolvedAt := Some(at), cause := Some(change.cause.code),
                        history := was.history + [Resolution(at, change.actor, ByPerson(was.status, change.cause.code))])
              else was.(status := to, resolvedAt := None, cause := None,
                        history := was.history + [StatusChange(at, change.actor, was.status, to, false)])])
  {
    if r in db.rooms {
      CheckAccepts(change, db.rooms[r].status);
      CheckAnswers(change, db.rooms[r].status);
    }
  }

  /** Which refusal a reopening gets, and when it gets none. */
  lemma ReopenAnswers(db: Db, r: Uuid)
    ensures ReopenError(db, r) == Some(IncidentNotFound) <==> r !in db.rooms
    ensures ReopenError(db, r) == Some(IllegalTransition) <==> r in db.rooms && db.rooms[r].status != Resolved
    ensures ReopenError(db, r) == Some(KeyAlreadyOpen) <==>
            r in db.rooms && db.rooms[r].status == Resolved
            && exists s :: s in db.rooms && db.rooms[s].key == db.rooms[r].key && db.rooms[s].status != Resolved
    ensures ReopenError(db, r).Some? ==> ReopenError(db, r).value in {IncidentNotFound, IllegalTransition, KeyAlreadyOpen}
  {
    if r in db.rooms {
      var key := db.rooms[r].key;
      assert forall s :: OpenFor(db.rooms, key, s) <==>
                         s in db.rooms && db.rooms[s].key == key && db.rooms[s].status != Resolved;
    }
  }

  /** A resolved room reopens exactly when no other open room holds its key. */
  lemma ReopenExactly(db: Db, r: Uuid, actor: Uuid, at: Time)
    requires Sound(db) && r in db.rooms
    ensures Reopen(db, r, actor, at) != db <==>
            db.rooms[r].status == Resolved
            && forall s :: s in db.rooms && db.rooms[s].key == db.rooms[r].key ==> db.rooms[s].status == Resolved
    ensures Reopen(db, r, actor, at) != db ==>
            var was := db.rooms[r];
            Reopen(db, r, actor, at) == db.(rooms := db.rooms[r := was.(
              status := Investigating, resolvedAt := None, cause := None,
              history := was.history + [StatusChange(at, actor, Resolved, Investigating, true)])])
  {
    assert forall s :: OpenFor(db.rooms, db.rooms[r].key, s) <==>
                       s in db.rooms && db.rooms[s].key == db.rooms[r].key && db.rooms[s].status != Resolved;
    if ReopenError(db, r).None? {
      assert Reopen(db, r, actor, at).rooms[r].status == Investigating;
    }
  }

  /** The step reopens the room, or is the batch that deletes it. */
  predicate Undoes(op: Op, r: Uuid)
  {
    (op.DoReopen? && op.room == r) || (op.DoDeleteBatch? && op.stage.RoomRows? && r in op.gone)
  }

  /** Resolved in `after` as it was in `before`, with the same instant and cause. */
  predicate StillResolved(before: map<Uuid, Room>, after: map<Uuid, Room>, r: Uuid)
    requires r in before
  {
    r in after && after[r].status == Resolved && after[r].key == before[r].key
    && after[r].resolvedAt == before[r].resolvedAt && after[r].cause == before[r].cause
  }

  lemma OpeningLeavesResolved(db: Db, f: Folding, r: Uuid)
    requires r in db.rooms && db.rooms[r].status == Resolved && f.roomId !in db.rooms
    ensures StillResolved(db.rooms, OpenIfDue(db, f).rooms, r)
  {
  }

  lemma FoldLeavesResolved(db: Db, f: Folding, r: Uuid)
    requires r in db.rooms && db.rooms[r].status == Resolved && f.roomId !in db.rooms
    ensures StillResolved(db.rooms, Fold(db, f).rooms, r)
  {
    match OpenRoom(db.rooms, f.key) {
      case None => OpeningLeavesResolved(db, f, r);
      case Some(s) => OpeningLeavesResolved(CloseLapsed(db, s, f.window), f, r);
    }
  }

  lemma StepLeavesResolved(db: Db, op: Op, r: Uuid)
    requires Legal(db, op) && r in db.rooms && db.rooms[r].status == Resolved && !Undoes(op, r)
    ensures StillResolved(db.rooms, Apply(db, op).rooms, r)
  {
    match op {
      case DoRecord(o) =>
        if RecordAnswer(db, o) == Filed(Stored) {
          FoldLeavesResolved(Db(Inserted(db.alerts, o), db.rooms), FoldingOf(o), r);
        }
      case DoTransition(_, change, _) => CheckAccepts(change, Resolved);
      case DoReopen(_, _, _) =>
      case DoAssign(_, _, _, _) =>
      case DoComment(_, _, _, _) =>
      case DoResolveStale(_) =>
      case DoEraseDevice(_, _) =>
      case DoDeleteBatch(_, _, _, _) =>
    }
  }

  lemma {:induction false} ResolvedStays(db: Db, ops: seq<Op>, end: Db, r: Uuid)
    requires Runs(db, ops, end) && r in db.rooms && db.rooms[r].status == Resolved
    requires forall i :: 0 <= i < |ops| ==> !Undoes(ops[i], r)
    ensures StillResolved(db.rooms, end.rooms, r)
    decreases |ops|
  {
    if ops != [] {
      StepLeavesResolved(db, ops[0], r);
      ResolvedStays(Apply(db, ops[0]), ops[1..], end, r);
    }
  }

  /** A resolution stands through any run that neither reopens the room nor retires it, and at its end the room
      can be reopened exactly when every room of its key is resolved. */
  lemma AResolutionStands(db: Db, ops: seq<Op>, end: Db, r: Uuid, actor: Uuid, at: Time)
    requires Sound(db) && Runs(db, ops, end) && r in db.rooms && db.rooms[r].status == Resolved
    requires forall i :: 0 <= i < |ops| ==> !Undoes(ops[i], r)
    ensures StillResolved(db.rooms, end.rooms, r)
    ensures Reopen(end, r, actor, at) != end <==>
            forall s :: s in end.rooms && end.rooms[s].key == db.rooms[r].key ==> end.rooms[s].status == Resolved
  {
    EveryRunIsSound(db, ops, end);
    ResolvedStays(db, ops, end, r);
    ReopenExactly(end, r, actor, at);
  }

  // ----- counts, spans, gaps -----

  lemma StoredTallies(db: Db, o: Offer, windows: map<RuleId, Time>)
    requires o.id !in db.alerts
    ensures var filed := Db(Inserted(db.alerts, o), db.rooms);
            && (Counted(db) ==> Counted(filed))
            && (Spanned(db) ==> Spanned(filed))
            && (Described(db, windows) ==> Described(filed, windows))
  {
    forall r
      ensures ViewOf(Inserted(db.alerts, o), r) == ViewOf(db.alerts, r)
    {
      InsertedViews(db.alerts, o, r);
    }
  }

  /** A storm room touches no other, and holds no alert. */
  lemma StormRoomsAlone(db: Db, organization: Uuid, now: Time, roomId: Uuid, r: Uuid)
    requires Sound(db) && roomId !in db.rooms
    ensures var after := FoldIntoStorm(db, organization, now, roomId);
            r in after.rooms ==>
              if after.rooms[r].key.rule == STORM_RULE_ID
              then Held(db.alerts, r) == {} && after.rooms[r].deviceCount == (if r in db.rooms then db.rooms[r].deviceCount else 0)
              else r in db.rooms && after.rooms[r] == db.rooms[r]
  {
  }

  lemma StormTallies(db: Db, organization: Uuid, now: Time, roomId: Uuid, windows: map<RuleId, Time>)
    requires Sound(db) && roomId !in db.rooms
    ensures Counted(db) ==> Counted(FoldIntoStorm(db, organization, now, roomId))
    ensures Spanned(db) ==> Spanned(FoldIntoStorm(db, organization, now, roomId))
    ensures Described(db, windows) ==> Described(FoldIntoStorm(db, organization, now, roomId), windows)
  {
    var after := FoldIntoStorm(db, organization, now, roomId);
    assert forall r :: r in db.rooms ==> r in after.rooms && after.rooms[r].key == db.rooms[r].key;
    forall r | r in after.rooms
      ensures Counted(db) ==> Counts(after.rooms[r], ViewOf(after.alerts, r))
      ensures Spanned(db) ==> Contains(after.rooms[r], ViewOf(after.alerts, r))
      ensures Described(db, windows) ==> Detailed(after.rooms[r], ViewOf(after.alerts, r), windows)
    {
      StormRoomsAlone(db, organization, now, roomId, r);
    }
  }

  lemma RecordCounted(db: Db, o: Offer)
    requires Sound(db) && Counted(db) && Legal(db, DoRecord(o))
    ensures Counted(Record(db, o))
  {
    match RecordAnswer(db, o) {
      case Failed(_) =>
      case Filed(Duplicate) =>
      case Filed(CeilingSuppressed) => StormTallies(db, o.alert.organization, o.now, o.roomId, map[]);
      case Filed(Stored) =>
        StoredIsFoldReady(db, o);
        StoredTallies(db, o, map[]);
        FoldCounted(Db(Inserted(db.alerts, o), db.rooms), FoldingOf(o));
    }
  }

  lemma RecordSpanned(db: Db, o: Offer)
    requires Sound(db) && Spanned(db) && Legal(db, DoRecord(o))
    ensures Spanned(Record(db, o))
  {
    match RecordAnswer(db, o) {
      case Failed(_) =>
      case Filed(Duplicate) =>
      case Filed(CeilingSuppressed) => StormTallies(db, o.alert.organization, o.now, o.roomId, map[]);
      case Filed(Stored) =>
        StoredIsFoldReady(db, o);
        StoredTallies(db, o, map[]);
        FoldSpanned(Db(Inserted(db.alerts, o), db.rooms), FoldingOf(o));
    }
  }

  lemma RecordDescribed(db: Db, o: Offer, windows: map<RuleId, Time>)
    requires Sound(db) && Described(db, windows) && Legal(db, DoRecord(o))
    requires o.alert.rule in windows && o.grouping.window <= windows[o.alert.rule]
    ensures Described(Record(db, o), windows)
  {
    match RecordAnswer(db, o) {
      case Failed(_) =>
      case Filed(Duplicate) =>
      case Filed(CeilingSuppressed) => StormTallies(db, o.alert.organization, o.now, o.roomId, windows);
      case Filed(Stored) =>
        StoredIsFoldReady(db, o);
        StoredTallies(db, o, windows);
        FoldDescribed(Db(Inserted(db.alerts, o), db.rooms), FoldingOf(o), windows);
    }
  }

  lemma EraseCounted(db: Db, device: Uuid, at: Time)
    requires Sound(db) && Counted(db)
    ensures Counted(EraseDevice(db, device, at))
  {
    var after := EraseDevice(db, device, at);
    forall r | r in db.rooms
      ensures Counts(after.rooms[r], ViewOf(after.alerts, r))
    {
      var others := Others(db.alerts, r, device);
      assert Held(after.alerts, r) == others;
      SameRowsSameView(db.alerts, after.alerts, others);
      if !Feeds(db.alerts, r, device) {
        assert others == Held(db.alerts, r);
      }
    }
  }

  /** Steps that change neither the alerts nor the columns computed from them. */
  lemma OtherStepsOnlyMoveStandings(db: Db, op: Op)
    requires !op.DoRecord? && !op.DoEraseDevice? && !op.DoDeleteBatch?
    ensures OnlyStandings(db, Apply(db, op))
  {
    match op {
      case DoTransition(_, _, _) =>
      case DoReopen(_, _, _) =>
      case DoAssign(_, _, _, _) =>
      case DoComment(_, _, _, _) =>
      case DoResolveStale(_) =>
    }
  }

  lemma {:induction false} CountsHold(db: Db, ops: seq<Op>, end: Db)
    requires Sound(db) && Counted(db) && Runs(db, ops, end) && NoRetention(ops)
    ensures Counted(end)
    decreases |ops|
  {
    if ops != [] {
      var next := Apply(db, ops[0]);
      StepIsSound(db, ops[0]);
      if ops[0].DoRecord? {
        RecordCounted(db, ops[0].offer);
      } else if ops[0].DoEraseDevice? {
        EraseCounted(db, ops[0].device, ops[0].at);
      } else {
        OtherStepsOnlyMoveStandings(db, ops[0]);
        StandingsKeepTallies(db, next, map[]);
      }
      CountsHold(next, ops[1..], end);
    }
  }

  lemma StepSpanned(db: Db, op: Op)
    requires Sound(db) && Spanned(db) && Legal(db, op)
    ensures Spanned(Apply(db, op))
  {
    if op.DoRecord? {
      RecordSpanned(db, op.offer);
    } else if op.DoEraseDevice? || op.DoDeleteBatch? {
      FewerRowsSpanned(db, Apply(db, op));
    } else {
      OtherStepsOnlyMoveStandings(db, op);
      StandingsKeepTallies(db, Apply(db, op), map[]);
    }
  }

  lemma {:induction false} SpansHold(db: Db, ops: seq<Op>, end: Db)
    requires Sound(db) && Spanned(db) && Runs(db, ops, end)
    ensures Spanned(end)
    decreases |ops|
  {
    if ops != [] {
      StepIsSound(db, ops[0]);
      StepSpanned(db, ops[0]);
      SpansHold(Apply(db, ops[0]), ops[1..], end);
    }
  }

  /** After any run, erasures and retention batches included, a filed alert lies inside its room's span. */
  lemma FiledAlertsLieInTheSpan(ops: seq<Op>, end: Db, id: Uuid)
    requires Runs(EMPTY, ops, end) && id in end.alerts && end.alerts[id].room.Some?
    ensures end.alerts[id].room.value in end.rooms
    ensures var room := end.rooms[end.alerts[id].room.value];
            room.firstSeen <= end.alerts[id].alert.observedAt <= room.lastSeen
  {
    EmptyIsSound();
    EveryRunIsSound(EMPTY, ops, end);
    SpansHold(EMPTY, ops, end);
    var r := end.alerts[id].room.value;
    assert id in Held(end.alerts, r) && end.alerts[id].alert.observedAt in ViewOf(end.alerts, r).times;
    assert Contains(end.rooms[r], ViewOf(end.alerts, r));
  }

  lemma {:induction false} DescriptionsHold(db: Db, ops: seq<Op>, end: Db, windows: map<RuleId, Time>)
    requires Sound(db) && Described(db, windows) && Runs(db, ops, end)
    requires NoDeletion(ops) && WindowsWithin(ops, windows)
    ensures Described(end, windows)
    decreases |ops|
  {
    if ops != [] {
      var next := Apply(db, ops[0]);
      StepIsSound(db, ops[0]);
      if ops[0].DoRecord? {
        RecordDescribed(db, ops[0].offer, windows);
      } else {
        OtherStepsOnlyMoveStandings(db, ops[0]);
        StandingsKeepTallies(db, next, windows);
      }
      DescriptionsHold(next, ops[1..], end, windows);
    }
  }

  /** With erasures but no retention batch the counts are those of the filed alerts. */
  lemma RoomsCountTheirAlerts(ops: seq<Op>, end: Db, r: Uuid)
    requires Runs(EMPTY, ops, end) && NoRetention(ops) && r in end.rooms
    requires end.rooms[r].key.rule != STORM_RULE_ID
    ensures var room := end.rooms[r];
            && room.occurrences == |Held(end.alerts, r)|
            && room.deviceCount == |Machines(end.alerts, Held(end.alerts, r))|
  {
    EmptyIsSound();
    CountsHold(EMPTY, ops, end);
    assert Counts(end.rooms[r], ViewOf(end.alerts, r));
  }

  /** Without deletions the span ends and the severity are those of filed alerts, and none is worse or outside. */
  lemma RoomsSpanTheirAlerts(ops: seq<Op>, end: Db, r: Uuid)
    requires Runs(EMPTY, ops, end) && NoDeletion(ops) && r in end.rooms
    requires end.rooms[r].key.rule != STORM_RULE_ID
    ensures var room, held := end.rooms[r], Held(end.alerts, r);
            && (exists id :: id in held && end.alerts[id].alert.observedAt == room.firstSeen)
            && (exists id :: id in held && end.alerts[id].alert.observedAt == room.lastSeen)
            && (exists id :: id in held && end.alerts[id].alert.severity == room.severity)
            && (forall id :: id in held ==>
                  && room.firstSeen <= end.alerts[id].alert.observedAt <= room.lastSeen
                  && (end.alerts[id].alert.severity == Critical ==> room.severity == Critical)
                  && (end.alerts[id].alert.severity == Warning ==> room.severity != Info))
  {
    EmptyIsSound();
    WidestBounds(ops);
    DescriptionsHold(EMPTY, ops, end, Widest(ops));
    assert Detailed(end.rooms[r], ViewOf(end.alerts, r), Widest(ops));
    ExactMeans(end.alerts, Held(end.alerts, r), end.rooms[r]);
  }

  /** Whatever order alerts arrived in, a room's alerts sorted by observation have no gap wider than any
      bound on its rule's windows; a rule whose window never changes has that window as the bound. */
  lemma GapsAreBounded(ops: seq<Op>, end: Db, windows: map<RuleId, Time>, r: Uuid, listing: seq<Uuid>, i: nat)
    requires Runs(EMPTY, ops, end) && NoDeletion(ops) && WindowsWithin(ops, windows) && r in end.rooms
    requires ListsByObservation(end.alerts, Held(end.alerts, r), listing) && i + 1 < |listing|
    ensures end.rooms[r].key.rule in windows
    ensures end.alerts[listing[i + 1]].alert.observedAt - end.alerts[listing[i]].alert.observedAt
            <= windows[end.rooms[r].key.rule]
  {
    EmptyIsSound();
    EveryRunIsSound(EMPTY, ops, end);
    DescriptionsHold(EMPTY, ops, end, windows);
    assert listing[i] in Held(end.alerts, r);
    assert Detailed(end.rooms[r], ViewOf(end.alerts, r), windows);
    ChainBoundsGaps(end.alerts, Held(end.alerts, r), listing, windows[end.rooms[r].key.rule], i);
  }

  /** An info room holds two machines' observations, and a device room is never info. */
  lemma InfoRoomsAreCorroborated(ops: seq<Op>, end: Db, r: Uuid)
    requires Runs(EMPTY, ops, end) && NoDeletion(ops) && r in end.rooms
    requires end.rooms[r].key.rule != STORM_RULE_ID && end.rooms[r].severity == Info
    ensures end.rooms[r].key.scope != Device
    ensures exists i, j :: i in Held(end.alerts, r) && j in Held(end.alerts, r)
                           && end.alerts[i].alert.device != end.alerts[j].alert.device
  {
    EmptyIsSound();
    WidestBounds(ops);
    DescriptionsHold(EMPTY, ops, end, Widest(ops));
    var machines := Machines(end.alerts, Held(end.alerts, r));
    assert Corroborated(end.rooms[r], ViewOf(end.alerts, r));
    var d :| d in machines;
    assert machines != {d};
    var e :| e in machines && e != d;
  }
}

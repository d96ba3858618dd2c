/** A room's columns against the alerts filed into it. Every run keeps filed alerts inside the span and erasure keeps
    the counts; that the span and severity are attained, the gap bound and corroboration need a run without deletions. */
module StoreTallies {
  import opened Collections
  import opened Incidents
  import opened Tables
  import opened StoreSteps
  import opened StoreSoundness

  /** What a room's alerts amount to. */
  datatype View = View(held: set<Uuid>, machines: set<Uuid>, times: set<Time>, severities: set<Severity>)

  function ViewOver(alerts: map<Uuid, AlertRow>, ids: set<Uuid>): View
  {
    View(ids, Machines(alerts, ids), Times(alerts, ids), Severities(alerts, ids))
  }

  function ViewOf(alerts: map<Uuid, AlertRow>, r: Uuid): View
  {
    ViewOver(alerts, Held(alerts, r))
  }

  ghost predicate Counts(room: Room, view: View)
  {
    if room.key.rule == STORM_RULE_ID then view.held == {} && room.deviceCount == 0
    else room.occurrences == |view.held| && room.deviceCount == |view.machines|
  }

  ghost predicate Contains(room: Room, view: View)
  {
    if room.key.rule == STORM_RULE_ID then view.held == {}
    else room.firstSeen <= room.lastSeen && forall t :: t in view.times ==> room.firstSeen <= t <= room.lastSeen
  }

  ghost predicate Exact(room: Room, view: View)
  {
    && view.times != {}
    && room.firstSeen == MinOf(view.times)
    && room.lastSeen == MaxOf(view.times)
    && room.severity == Worst(view.severities)
  }

  /** What an exact span and severity mean, alert by alert. */
  lemma ExactMeans(alerts: map<Uuid, AlertRow>, held: set<Uuid>, room: Room)
    requires held <= alerts.Keys && Exact(room, ViewOver(alerts, held))
    ensures exists id :: id in held && alerts[id].alert.observedAt == room.firstSeen
    ensures exists id :: id in held && alerts[id].alert.observedAt == room.lastSeen
    ensures exists id :: id in held && alerts[id].alert.severity == room.severity
    ensures forall id :: id in held ==>
              && room.firstSeen <= alerts[id].alert.observedAt <= room.lastSeen
              && (alerts[id].alert.severity == Critical ==> room.severity == Critical)
              && (alerts[id].alert.severity == Warning ==> room.severity != Info)
  {
    var times, severities := Times(alerts, held), Severities(alerts, held);
    assert room.firstSeen in times && room.lastSeen in times;
    var first :| first in held && alerts[first].alert.observedAt == room.firstSeen;
    var severity := alerts[first].alert.severity;
    assert severity in severities && (severity == Info || severity == Warning || severity == Critical);
    assert room.severity in severities;
    forall id | id in held
      ensures alerts[id].alert.observedAt in times && alerts[id].alert.severity in severities
    {
    }
  }

  ghost predicate Followed(times: set<Time>, x: Time, window: Time)
  {
    exists y :: y in times && x < y <= x + window
  }

  /** Every instant but the last has another within `window` after it. */
  ghost predicate Chain(times: set<Time>, window: Time)
  {
    forall x, z {:trigger Followed(times, x, window), z in times} ::
      x in times && z in times && x < z ==> Followed(times, x, window)
  }

  ghost predicate Corroborated(room: Room, view: View)
  {
    room.severity == Info ==> |view.machines| >= 2 && room.key.scope != Device
  }

  ghost predicate Detailed(room: Room, view: View, windows: map<RuleId, Time>)
  {
    room.key.rule != STORM_RULE_ID ==>
      && room.key.rule in windows && windows[room.key.rule] > 0
      && Exact(room, view)
      && Chain(view.times, windows[room.key.rule])
      && Corroborated(room, view)
  }

  ghost predicate Counted(db: Db)
  {
    forall r :: r in db.rooms ==> Counts(db.rooms[r], ViewOf(db.alerts, r))
  }

  ghost predicate Spanned(db: Db)
  {
    forall r :: r in db.rooms ==> Contains(db.rooms[r], ViewOf(db.alerts, r))
  }

  ghost predicate Described(db: Db, windows: map<RuleId, Time>)
  {
    forall r :: r in db.rooms ==> Detailed(db.rooms[r], ViewOf(db.alerts, r), windows)
  }

  /** Moves that leave the columns computed from alerts alone. */
  predicate SameTallies(a: Room, b: Room)
  {
    && a.key == b.key && a.severity == b.severity
    && a.firstSeen == b.firstSeen && a.lastSeen == b.lastSeen
    && a.occurrences == b.occurrences && a.deviceCount == b.deviceCount
  }

  ghost predicate OnlyStandings(db: Db, after: Db)
  {
    && after.alerts == db.alerts
    && after.rooms.Keys == db.rooms.Keys
    && forall r :: r in db.rooms ==> SameTallies(db.rooms[r], after.rooms[r])
  }

  lemma StandingsKeepTallies(db: Db, after: Db, windows: map<RuleId, Time>)
    requires OnlyStandings(db, after)
    ensures Counted(db) ==> Counted(after)
    ensures Spanned(db) ==> Spanned(after)
    ensures Described(db, windows) ==> Described(after, windows)
  {
    forall r | r in db.rooms
      ensures Counts(db.rooms[r], ViewOf(db.alerts, r)) ==> Counts(after.rooms[r], ViewOf(after.alerts, r))
      ensures Contains(db.rooms[r], ViewOf(db.alerts, r)) ==> Contains(after.rooms[r], ViewOf(after.alerts, r))
      ensures Detailed(db.rooms[r], ViewOf(db.alerts, r), windows) ==> Detailed(after.rooms[r], ViewOf(after.alerts, r), windows)
    {
      assert SameTallies(db.rooms[r], after.rooms[r]);
    }
  }

  // ----- chains of instants -----

  /** One more instant inside the two-sided window extends a chain, wherever it falls. */
  lemma ChainJoin(times: set<Time>, t: Time, window: Time)
    requires times != {} && Chain(times, window) && window > 0
    requires MinOf(times) - window <= t <= MaxOf(times) + window
    ensures Chain(times + {t}, window)
  {
    var joined := times + {t};
    forall x, z | x in joined && z in joined && x < z
      ensures Followed(joined, x, window)
    {
      if MinOf(times) <= x < MaxOf(times) {
        ChainBridges(times, x, window);
        var y :| y in times && x < y <= x + window;
        assert y in joined;
      } else if x < MinOf(times) {
        assert MinOf(times) in joined;
      } else {
        assert z == t;
      }
    }
  }

  /** Any instant from the first up to, but not, the last has a chain member within `window` after it. */
  lemma ChainBridges(times: set<Time>, t: Time, window: Time)
    requires times != {} && Chain(times, window)
    requires MinOf(times) <= t < MaxOf(times)
    ensures Followed(times, t, window)
  {
    var before := set x | x in times && x <= t;
    assert MinOf(times) in before;
    var x := MaxOf(before);
    assert MaxOf(times) in times && Followed(times, x, window);
    var y :| y in times && x < y <= x + window;
    assert y !in before;
  }

  /** Instants all within `window` of one of their number form a chain. */
  lemma ChainBurst(times: set<Time>, t: Time, window: Time)
    requires t in times
    requires forall x :: x in times ==> t - window <= x <= t + window
    ensures Chain(times, window)
  {
    forall x, z | x in times && z in times && x < z
      ensures Followed(times, x, window)
    {
      assert if x < t then t in times && x < t <= x + window else z in times && x < z <= x + window;
    }
  }

  /** A sequence listing each filed alert once, in order of observation. */
  ghost predicate ListsByObservation(alerts: map<Uuid, AlertRow>, held: set<Uuid>, listing: seq<Uuid>)
  {
    && held <= alerts.Keys
    && (forall i :: 0 <= i < |listing| ==> listing[i] in held)
    && (forall id :: id in held ==> id in listing)
    && (forall i, j :: 0 <= i < j < |listing| ==> listing[i] != listing[j])
    && (forall i, j :: 0 <= i < j < |listing| ==>
          alerts[listing[i]].alert.observedAt <= alerts[listing[j]].alert.observedAt)
  }

  lemma SortedChainGap(sorted: seq<Time>, times: set<Time>, window: Time, i: nat)
    requires Chain(times, window) && window >= 0 && i + 1 < |sorted|
    requires forall j, k :: 0 <= j < k < |sorted| ==> sorted[j] <= sorted[k]
    requires forall t :: t in sorted <==> t in times
    ensures sorted[i + 1] - sorted[i] <= window
  {
    var x, z := sorted[i], sorted[i + 1];
    assert x in times && z in times;
    if x < z {
      assert Followed(times, x, window);
      var y :| y in times && x < y <= x + window;
      var j :| 0 <= j < |sorted| && sorted[j] == y;
      assert j > i;
    }
  }

  lemma ChainBoundsGaps(alerts: map<Uuid, AlertRow>, held: set<Uuid>, listing: seq<Uuid>, window: Time, i: nat)
    requires Chain(Times(alerts, held), window) && window >= 0
    requires ListsByObservation(alerts, held, listing)
    requires i + 1 < |listing|
    ensures alerts[listing[i + 1]].alert.observedAt - alerts[listing[i]].alert.observedAt <= window
  {
    var sorted := seq(|listing|, j requires 0 <= j < |listing| => alerts[listing[j]].alert.observedAt);
    forall t
      ensures t in sorted <==> t in Times(alerts, held)
    {
      if t in Times(alerts, held) {
        var id :| id in held && alerts[id].alert.observedAt == t;
        var j :| 0 <= j < |listing| && listing[j] == id;
        assert sorted[j] == t;
      }
    }
    SortedChainGap(sorted, Times(alerts, held), window, i);
  }

  // ----- how each statement changes the views -----

  lemma InsertedViews(alerts: map<Uuid, AlertRow>, o: Offer, r: Uuid)
    requires o.id !in alerts
    ensures ViewOf(Inserted(alerts, o), r) == ViewOf(alerts, r)
  {
    assert Held(Inserted(alerts, o), r) == Held(alerts, r);
    SameRowsSameView(alerts, Inserted(alerts, o), Held(alerts, r));
  }

  lemma SameRowsSameView(before: map<Uuid, AlertRow>, after: map<Uuid, AlertRow>, ids: set<Uuid>)
    requires forall id :: id in ids ==> id in before && id in after && before[id].alert == after[id].alert
    ensures ViewOver(before, ids) == ViewOver(after, ids)
  {
    assert Machines(before, ids) == Machines(after, ids);
    assert Times(before, ids) == Times(after, ids);
    assert Severities(before, ids) == Severities(after, ids);
  }

  predicate Unfiled(alerts: map<Uuid, AlertRow>, ids: set<Uuid>)
  {
    forall id :: id in ids ==> id in alerts && alerts[id].room == None
  }

  lemma AttachedViews(alerts: map<Uuid, AlertRow>, ids: set<Uuid>, s: Uuid, r: Uuid)
    requires Unfiled(alerts, ids)
    ensures ViewOf(Attached(alerts, ids, s), r)
            == if r == s then ViewOver(alerts, Held(alerts, s) + ids) else ViewOf(alerts, r)
  {
    var after := Attached(alerts, ids, s);
    if r == s {
      assert Held(after, r) == Held(alerts, s) + ids;
    } else {
      assert Held(after, r) == Held(alerts, r);
    }
    SameRowsSameView(alerts, after, Held(after, r));
  }

  lemma ViewUnion(alerts: map<Uuid, AlertRow>, a: set<Uuid>, b: set<Uuid>)
    ensures ViewOver(alerts, a + b) ==
            View(a + b, ViewOver(alerts, a).machines + ViewOver(alerts, b).machines,
                 ViewOver(alerts, a).times + ViewOver(alerts, b).times,
                 ViewOver(alerts, a).severities + ViewOver(alerts, b).severities)
  {
    assert Machines(alerts, a + b) == Machines(alerts, a) + Machines(alerts, b);
    assert Times(alerts, a + b) == Times(alerts, a) + Times(alerts, b);
    assert Severities(alerts, a + b) == Severities(alerts, a) + Severities(alerts, b);
  }

  /** Filing touches one room and leaves it counted and spanned exactly. */
  lemma FileIntoTallies(db: Db, ids: set<Uuid>, r: Uuid, s: Uuid)
    requires Unfiled(db.alerts, ids) && ids != {} && r in db.rooms && s in db.rooms
    requires db.rooms[r].key.rule != STORM_RULE_ID
    ensures var after := FileInto(db, ids, r);
            && after.rooms.Keys == db.rooms.Keys
            && (s != r ==> after.rooms[s] == db.rooms[s] && ViewOf(after.alerts, s) == ViewOf(db.alerts, s))
            && after.rooms[r].key == db.rooms[r].key
            && ViewOf(after.alerts, r) == ViewOver(db.alerts, Held(db.alerts, r) + ids)
            && Exact(after.rooms[r], ViewOf(after.alerts, r))
            && Counts(after.rooms[r], ViewOf(after.alerts, r))
            && Contains(after.rooms[r], ViewOf(after.alerts, r))
  {
    AttachedViews(db.alerts, ids, r, r);
    AttachedViews(db.alerts, ids, r, s);
    var after := FileInto(db, ids, r);
    var held := Held(after.alerts, r);
    var id := Pick(ids);
    assert id in held && after.alerts[id].alert.observedAt in Times(after.alerts, held);
  }

  lemma FileIntoCounted(db: Db, ids: set<Uuid>, r: Uuid)
    requires Unfiled(db.alerts, ids) && ids != {} && r in db.rooms && db.rooms[r].key.rule != STORM_RULE_ID
    requires forall s :: s in db.rooms && s != r ==> Counts(db.rooms[s], ViewOf(db.alerts, s))
    ensures Counted(FileInto(db, ids, r))
  {
    var after := FileInto(db, ids, r);
    forall s | s in after.rooms
      ensures Counts(after.rooms[s], ViewOf(after.alerts, s))
    {
      FileIntoTallies(db, ids, r, s);
    }
  }

  lemma FileIntoSpanned(db: Db, ids: set<Uuid>, r: Uuid)
    requires Unfiled(db.alerts, ids) && ids != {} && r in db.rooms && db.rooms[r].key.rule != STORM_RULE_ID
    requires forall s :: s in db.rooms && s != r ==> Contains(db.rooms[s], ViewOf(db.alerts, s))
    ensures Spanned(FileInto(db, ids, r))
  {
    var after := FileInto(db, ids, r);
    forall s | s in after.rooms
      ensures Contains(after.rooms[s], ViewOf(after.alerts, s))
    {
      FileIntoTallies(db, ids, r, s);
    }
  }

  lemma FileIntoDescribed(db: Db, ids: set<Uuid>, r: Uuid, windows: map<RuleId, Time>)
    requires Unfiled(db.alerts, ids) && ids != {} && r in db.rooms && db.rooms[r].key.rule != STORM_RULE_ID
    requires db.rooms[r].key.rule in windows && windows[db.rooms[r].key.rule] > 0
    requires forall s :: s in db.rooms && s != r ==> Detailed(db.rooms[s], ViewOf(db.alerts, s), windows)
    requires var view := ViewOver(db.alerts, Held(db.alerts, r) + ids);
             && Chain(view.times, windows[db.rooms[r].key.rule])
             && (Worst(view.severities) == Info ==> |view.machines| >= 2 && db.rooms[r].key.scope != Device)
    ensures Described(FileInto(db, ids, r), windows)
  {
    var after := FileInto(db, ids, r);
    forall s | s in after.rooms
      ensures Detailed(after.rooms[s], ViewOf(after.alerts, s), windows)
    {
      FileIntoTallies(db, ids, r, s);
    }
  }

  // ----- the fold -----

  /** The fold's window is no wider than its rule's widest. */
  predicate HoldsWindow(f: Folding, windows: map<RuleId, Time>)
  {
    f.alert.rule != STORM_RULE_ID && f.alert.rule in windows && 0 < f.window <= windows[f.alert.rule]
  }

  /** Only a non-info alert, or two machines' info, raises a severity or opens a room. */
  lemma JoinDescribed(db: Db, f: Folding, r: Uuid, windows: map<RuleId, Time>)
    requires FoldReady(db, f) && Described(db, windows) && HoldsWindow(f, windows)
    requires OpenFor(db.rooms, f.key, r)
    requires Grouping(None, f.window).Spans(db.rooms[r].firstSeen, db.rooms[r].lastSeen, f.alert.observedAt)
    ensures Described(FileInto(db, {f.id}, r), windows)
  {
    assert Detailed(db.rooms[r], ViewOf(db.alerts, r), windows);
    JoinedView(db, f, r, windows[f.alert.rule]);
    FileIntoDescribed(db, {f.id}, r, windows);
  }

  lemma JoinedView(db: Db, f: Folding, r: Uuid, widest: Time)
    requires FoldReady(db, f) && r in db.rooms && 0 < f.window <= widest
    requires var view := ViewOf(db.alerts, r);
             Exact(db.rooms[r], view) && Chain(view.times, widest) && Corroborated(db.rooms[r], view)
    requires Grouping(None, f.window).Spans(db.rooms[r].firstSeen, db.rooms[r].lastSeen, f.alert.observedAt)
    ensures var view := ViewOver(db.alerts, Held(db.alerts, r) + {f.id});
            && Chain(view.times, widest)
            && (Worst(view.severities) == Info ==> |view.machines| >= 2 && db.rooms[r].key.scope != Device)
  {
    var view := ViewOf(db.alerts, r);
    var one := ViewOver(db.alerts, {f.id});
    assert one.times == {f.alert.observedAt} && one.severities == {f.alert.severity};
    ViewUnion(db.alerts, Held(db.alerts, r), {f.id});
    ChainJoin(view.times, f.alert.observedAt, widest);
    SubsetSize(view.machines, view.machines + one.machines);
  }

  lemma OpenCounted(db: Db, f: Folding)
    requires FoldReady(db, f) && OpenRoom(db.rooms, f.key).None? && f.alert.rule != STORM_RULE_ID
    requires Counted(db)
    ensures Counted(OpenIfDue(db, f))
  {
    if f.OpensARoom(db.alerts) {
      var begun := db.(rooms := db.rooms[f.roomId := NewRoom(f.key, f.alert.severity, f.now, f.alert.observedAt, 0)]);
      FileIntoCounted(begun, f.Gathered(db.alerts) + {f.id}, f.roomId);
    }
  }

  lemma OpenSpanned(db: Db, f: Folding)
    requires FoldReady(db, f) && OpenRoom(db.rooms, f.key).None? && f.alert.rule != STORM_RULE_ID
    requires Spanned(db)
    ensures Spanned(OpenIfDue(db, f))
  {
    if f.OpensARoom(db.alerts) {
      var begun := db.(rooms := db.rooms[f.roomId := NewRoom(f.key, f.alert.severity, f.now, f.alert.observedAt, 0)]);
      FileIntoSpanned(begun, f.Gathered(db.alerts) + {f.id}, f.roomId);
    }
  }

  lemma OpenDescribed(db: Db, f: Folding, windows: map<RuleId, Time>)
    requires FoldReady(db, f) && OpenRoom(db.rooms, f.key).None? && HoldsWindow(f, windows)
    requires Described(db, windows)
    ensures Described(OpenIfDue(db, f), windows)
  {
    if f.OpensARoom(db.alerts) {
      var begun := db.(rooms := db.rooms[f.roomId := NewRoom(f.key, f.alert.severity, f.now, f.alert.observedAt, 0)]);
      var ids := f.Gathered(db.alerts) + {f.id};
      assert Held(db.alerts, f.roomId) == {};
      assert Held(db.alerts, f.roomId) + ids == ids;
      GatheredView(db, f, windows[f.alert.rule]);
      FileIntoDescribed(begun, ids, f.roomId, windows);
    }
  }

  lemma GatheredView(db: Db, f: Folding, widest: Time)
    requires FoldReady(db, f) && f.OpensARoom(db.alerts) && 0 < f.window <= widest
    ensures var view := ViewOver(db.alerts, f.Gathered(db.alerts) + {f.id});
            && Chain(view.times, widest)
            && (Worst(view.severities) == Info ==> |view.machines| >= 2 && f.key.scope != Device)
  {
    var ids := f.Gathered(db.alerts) + {f.id};
    var view := ViewOver(db.alerts, ids);
    assert f.id in ids;
    assert f.alert.observedAt in view.times && f.alert.severity in view.severities;
    ChainBurst(view.times, f.alert.observedAt, widest);
    if f.alert.severity == Info {
      assert f.id in f.Gathered(db.alerts);
      assert ids == f.Gathered(db.alerts);
    }
  }

  lemma FoldCounted(db: Db, f: Folding)
    requires FoldReady(db, f) && f.alert.rule != STORM_RULE_ID
    requires Counted(db)
    ensures Counted(Fold(db, f))
  {
    match OpenRoom(db.rooms, f.key) {
      case None => OpenCounted(db, f);
      case Some(r) =>
        if Grouping(None, f.window).Spans(db.rooms[r].firstSeen, db.rooms[r].lastSeen, f.alert.observedAt) {
          FileIntoCounted(db, {f.id}, r);
        } else {
          CloseLapsedIsSound(db, r, f.window);
          StandingsKeepTallies(db, CloseLapsed(db, r, f.window), map[]);
          OpenCounted(CloseLapsed(db, r, f.window), f);
        }
    }
  }

  lemma FoldSpanned(db: Db, f: Folding)
    requires FoldReady(db, f) && f.alert.rule != STORM_RULE_ID
    requires Spanned(db)
    ensures Spanned(Fold(db, f))
  {
    match OpenRoom(db.rooms, f.key) {
      case None => OpenSpanned(db, f);
      case Some(r) =>
        if Grouping(None, f.window).Spans(db.rooms[r].firstSeen, db.rooms[r].lastSeen, f.alert.observedAt) {
          FileIntoSpanned(db, {f.id}, r);
        } else {
          CloseLapsedIsSound(db, r, f.window);
          StandingsKeepTallies(db, CloseLapsed(db, r, f.window), map[]);
          OpenSpanned(CloseLapsed(db, r, f.window), f);
        }
    }
  }

  /** Rows and rooms may go, but spans stay. */
  lemma FewerRowsSpanned(db: Db, after: Db)
    requires Spanned(db) && after.rooms.Keys <= db.rooms.Keys && after.alerts.Keys <= db.alerts.Keys
    requires forall id :: id in after.alerts ==> after.alerts[id] == db.alerts[id]
    requires forall r :: r in after.rooms ==>
               && after.rooms[r].key == db.rooms[r].key
               && after.rooms[r].firstSeen == db.rooms[r].firstSeen && after.rooms[r].lastSeen == db.rooms[r].lastSeen
    ensures Spanned(after)
  {
    forall r | r in after.rooms
      ensures Contains(after.rooms[r], ViewOf(after.alerts, r))
    {
      assert Contains(db.rooms[r], ViewOf(db.alerts, r));
      assert Held(after.alerts, r) <= Held(db.alerts, r);
      assert Times(after.alerts, Held(after.alerts, r)) <= Times(db.alerts, Held(db.alerts, r));
    }
  }

  lemma FoldDescribed(db: Db, f: Folding, windows: map<RuleId, Time>)
    requires FoldReady(db, f) && HoldsWindow(f, windows)
    requires Described(db, windows)
    ensures Described(Fold(db, f), windows)
  {
    match OpenRoom(db.rooms, f.key) {
      case None => OpenDescribed(db, f, windows);
      case Some(r) =>
        if Grouping(None, f.window).Spans(db.rooms[r].firstSeen, db.rooms[r].lastSeen, f.alert.observedAt) {
          JoinDescribed(db, f, r, windows);
        } else {
          CloseLapsedIsSound(db, r, f.window);
          StandingsKeepTallies(db, CloseLapsed(db, r, f.window), windows);
          OpenDescribed(CloseLapsed(db, r, f.window), f, windows);
        }
    }
  }
}

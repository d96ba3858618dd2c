/** The triage queue: keyset pages over the rooms, newest activity first. */
module Queue {
  import opened Collections
  import opened Incidents
  import opened Tables

  const DEFAULT_QUEUE_PAGE: nat := 50
  const MAX_QUEUE_PAGE: nat := 200

  /** A position in the order; the zero id is no position. */
  datatype Cursor = Cursor(lastSeen: Time, id: Uuid) {
    predicate IsZero() { id == NIL }
  }

  const NOWHERE: Cursor := Cursor(0, NIL)

  /** 9999-12-31 23:59:59 UTC and the all-ones uuid. */
  const BEYOND_THE_QUEUE: Cursor :=
    Cursor(253_402_300_799_000_000, 0xffff_ffff_ffff_ffff_ffff_ffff_ffff_ffff)

  /** The row comparison (last_seen, id) < (last_seen, id). */
  predicate Before(a: Cursor, b: Cursor)
  {
    a.lastSeen < b.lastSeen || (a.lastSeen == b.lastSeen && a.id < b.id)
  }

  /** Zero, empty and NIL fields select everything. */
  datatype Filter = Filter(
    organization: Uuid, statuses: seq<Status>, severities: seq<Severity>, rule: RuleId,
    device: Uuid, assignee: Uuid, after: Cursor, limit: int)
  {
    /** A page holds one to two hundred rows, the size asked for when that is in range, and starts somewhere. */
    function Normalized(): (f: Filter)
      ensures 1 <= f.limit <= MAX_QUEUE_PAGE && (1 <= limit <= MAX_QUEUE_PAGE ==> f.limit == limit)
      ensures (limit <= 0 ==> f.limit == 50) && (limit > 200 ==> f.limit == 200)
      ensures !f.after.IsZero() && f.after == if after.IsZero() then BEYOND_THE_QUEUE else after
      ensures f == this.(after := f.after, limit := f.limit)
    {
      this.(after := if after.IsZero() then BEYOND_THE_QUEUE else after,
            limit := if limit <= 0 then DEFAULT_QUEUE_PAGE else if limit > MAX_QUEUE_PAGE then MAX_QUEUE_PAGE else limit)
    }

    /** The predicates both statements share. */
    predicate Selects(db: Db, r: Uuid)
      requires r in db.rooms
    {
      var room := db.rooms[r];
      && (statuses == [] || room.status in statuses)
      && (severities == [] || room.severity in severities)
      && (rule == "" || room.key.rule == rule)
      && (assignee == NIL || room.assignee == assignee)
      && (device == NIL || exists id :: id in Held(db.alerts, r) && db.alerts[id].alert.device == device)
    }
  }

  function At(db: Db, r: Uuid): Cursor
    requires r in db.rooms
  {
    Cursor(db.rooms[r].lastSeen, r)
  }

  /** The tenant statement's rows, or the customer statement's when a customer is named. */
  function Matching(db: Db, f: Filter): set<Uuid>
  {
    set r | r in db.rooms && f.Selects(db, r) && (f.organization == NIL || db.rooms[r].key.organization == f.organization)
  }

  function Remaining(db: Db, f: Filter, after: Cursor): set<Uuid>
  {
    set r | r in Matching(db, f) && Before(At(db, r), after)
  }

  // ----- the order -----

  predicate Descending(db: Db, rows: seq<Uuid>)
  {
    && (forall i :: 0 <= i < |rows| ==> rows[i] in db.rooms)
    && (forall i, j :: 0 <= i < j < |rows| ==> Before(At(db, rows[j]), At(db, rows[i])))
  }

  /** The strictly descending arrangement of some rooms. */
  ghost predicate Lists(db: Db, rows: seq<Uuid>, of: set<Uuid>)
  {
    Descending(db, rows) && forall r :: r in of <==> r in rows
  }

  lemma NoRepeats(db: Db, rows: seq<Uuid>, i: nat, j: nat)
    requires Descending(db, rows) && i < |rows| && j < |rows| && rows[i] == rows[j]
    ensures i == j
  {
  }

  lemma {:induction false} OneArrangement(db: Db, a: seq<Uuid>, b: seq<Uuid>)
    requires Descending(db, a) && Descending(db, b)
    requires forall r :: r in a <==> r in b
    ensures a == b
  {
    assert b != [] ==> b[0] in a;
    if a != [] {
      assert a[0] in b && b != [] && b[0] in a;
      var i :| 0 <= i < |b| && b[i] == a[0];
      var j :| 0 <= j < |a| && a[j] == b[0];
      assert a[0] == b[0];
      forall r
        ensures r in a[1..] <==> r in b[1..]
      {
        TailMembers(db, a, r);
        TailMembers(db, b, r);
      }
      OneArrangement(db, a[1..], b[1..]);
      assert a == [a[0]] + a[1..] && b == [b[0]] + b[1..];
    }
  }

  lemma TailMembers(db: Db, rows: seq<Uuid>, r: Uuid)
    requires Descending(db, rows) && rows != []
    ensures r in rows[1..] <==> r in rows && r != rows[0]
  {
    if r in rows[1..] {
      var i :| 0 <= i < |rows[1..]| && rows[1..][i] == r;
      if r == rows[0] {
        NoRepeats(db, rows, 0, i + 1);
      }
    }
    if r in rows && r != rows[0] {
      var i :| 0 <= i < |rows| && rows[i] == r;
      assert rows[1..][i - 1] == r;
    }
  }

  // ----- one page -----

  datatype Page = Page(rows: seq<Uuid>, next: Cursor)

  /** The newest `limit` of the remaining rows, and a cursor exactly when the page is full. */
  ghost predicate IsPage(db: Db, f: Filter, page: Page)
  {
    var g := f.Normalized();
    var left := Remaining(db, f, g.after);
    && Descending(db, page.rows) && |page.rows| <= g.limit
    && (forall r :: r in page.rows ==> r in left)
    && (forall r, s :: r in page.rows && s in left && s !in page.rows ==> Before(At(db, s), At(db, r)))
    && (|page.rows| < g.limit ==> forall s :: s in left ==> s in page.rows)
    && page.next == if |page.rows| == g.limit then At(db, page.rows[|page.rows| - 1]) else NOWHERE
  }

  method PickNewest(db: Db, of: set<Uuid>) returns (r: Uuid)
    requires of <= db.rooms.Keys && of != {}
    ensures r in of && forall s :: s in of && s != r ==> Before(At(db, s), At(db, r))
  {
    r :| r in of;
    var rest := of - {r};
    while rest != {}
      invariant rest <= of && r in of - rest
      invariant forall s :: s in of - rest && s != r ==> Before(At(db, s), At(db, r))
      decreases |rest|
    {
      var s :| s in rest;
      rest := rest - {s};
      if Before(At(db, r), At(db, s)) { r := s; }
    }
  }

  method ReadPage(db: Db, f: Filter) returns (page: Page)
    ensures IsPage(db, f, page)
  {
    var g := f.Normalized();
    var rows: seq<Uuid> := [];
    var left := Remaining(db, f, g.after);
    ghost var all := left;
    while left != {} && |rows| < g.limit
      invariant |rows| <= g.limit && left <= all <= db.rooms.Keys
      invariant Descending(db, rows)
      invariant forall r :: r in all <==> r in left || r in rows
      invariant forall r, s :: r in rows && s in left ==> Before(At(db, s), At(db, r))
      decreases |left|
    {
      var r := PickNewest(db, left);
      left := left - {r};
      rows := rows + [r];
    }
    page := Page(rows, if |rows| == g.limit then At(db, rows[|rows| - 1]) else NOWHERE);
  }

  // ----- following the cursors -----

  /** What a full page leaves for the next one: everything not on it. */
  lemma NextPageLeaves(db: Db, f: Filter, page: Page)
    requires IsPage(db, f, page) && !page.next.IsZero()
    ensures var left := Remaining(db, f, f.Normalized().after);
            var next := Remaining(db, f, page.next);
            && (forall r :: r in next <==> r in left && r !in page.rows)
            && |next| < |left|
  {
    var left, next := Remaining(db, f, f.Normalized().after), Remaining(db, f, page.next);
    var last := page.rows[|page.rows| - 1];
    assert last in page.rows && page.next == At(db, last);
    forall r
      ensures r in next <==> r in left && r !in page.rows
    {
      if r in page.rows {
        var i :| 0 <= i < |page.rows| && page.rows[i] == r;
        assert !Before(At(db, r), At(db, last));
      }
      assert last in left && Before(At(db, last), f.Normalized().after);
    }
    assert next <= left - {last};
    SubsetSize(next, left - {last});
  }

  lemma AppendPage(db: Db, rows: seq<Uuid>, more: seq<Uuid>)
    requires Descending(db, rows) && Descending(db, more)
    requires forall r, s :: r in rows && s in more ==> Before(At(db, s), At(db, r))
    ensures Descending(db, rows + more)
  {
  }

  /** The cursor takes no part in what a filter selects. */
  lemma SameRemaining(db: Db, f: Filter, g: Filter, after: Cursor)
    requires g == f.(after := g.after, limit := g.limit)
    ensures Remaining(db, g, after) == Remaining(db, f, after)
  {
    assert forall r :: r in db.rooms ==> (f.Selects(db, r) <==> g.Selects(db, r));
  }

  ghost predicate ReadSoFar(db: Db, all: set<Uuid>, rows: seq<Uuid>, left: set<Uuid>)
  {
    && left <= all <= db.rooms.Keys
    && Descending(db, rows)
    && (forall r :: r in all <==> r in rows || r in left)
    && (forall r, s :: r in rows && s in left ==> Before(At(db, s), At(db, r)))
  }

  lemma ReadOneMore(db: Db, all: set<Uuid>, rows: seq<Uuid>, f: Filter, page: Page)
    requires ReadSoFar(db, all, rows, Remaining(db, f, f.Normalized().after)) && IsPage(db, f, page)
    ensures page.next.IsZero() && NIL !in db.rooms ==> Lists(db, rows + page.rows, all)
    ensures !page.next.IsZero() ==> ReadSoFar(db, all, rows + page.rows, Remaining(db, f, page.next))
  {
    AppendPage(db, rows, page.rows);
    if !page.next.IsZero() {
      NextPageLeaves(db, f, page);
    }
  }

  /** Reads pages until the cursor comes back zero. Room ids are never the zero uuid. */
  method FollowCursors(db: Db, f: Filter) returns (rows: seq<Uuid>)
    requires NIL !in db.rooms
    ensures Lists(db, rows, Remaining(db, f, f.Normalized().after))
    ensures forall i, j :: 0 <= i < j < |rows| ==>
              var a, b := db.rooms[rows[i]].lastSeen, db.rooms[rows[j]].lastSeen; a > b || (a == b && rows[i] > rows[j])
  {
    rows := [];
    var g := f;
    ghost var all := Remaining(db, f, f.Normalized().after);
    ghost var left := all;
    while true
      invariant left == Remaining(db, g, g.Normalized().after)
      invariant ReadSoFar(db, all, rows, left)
      decreases |left|
    {
      var page := ReadPage(db, g);
      ReadOneMore(db, all, rows, g, page);
      rows := rows + page.rows;
      if page.next.IsZero() {
        return;
      }
      NextPageLeaves(db, g, page);
      left := Remaining(db, g, page.next);
      SameRemaining(db, g, g.(after := page.next), page.next);
      g := g.(after := page.next);
    }
  }

  /** From the zero cursor every matching room is reached exactly when none is past the sentinel. */
  lemma ReachesAllExactly(db: Db, f: Filter, rows: seq<Uuid>)
    requires f.after.IsZero() && Lists(db, rows, Remaining(db, f, f.Normalized().after))
    ensures Lists(db, rows, Matching(db, f)) <==>
            forall r :: r in Matching(db, f) ==> Before(At(db, r), BEYOND_THE_QUEUE)
  {
    if Lists(db, rows, Matching(db, f)) {
      forall r | r in Matching(db, f)
        ensures Before(At(db, r), BEYOND_THE_QUEUE)
      {
        assert r in Remaining(db, f, f.Normalized().after);
      }
    }
  }

  // ----- what each filter leaves -----

  /** The rows that are kept, in their order. */
  function Restricted(rows: seq<Uuid>, keep: set<Uuid>): (kept: seq<Uuid>)
    ensures forall r :: r in kept <==> r in rows && r in keep
  {
    if rows == [] then []
    else if rows[0] in keep then [rows[0]] + Restricted(rows[1..], keep) else Restricted(rows[1..], keep)
  }

  lemma {:induction false} RestrictedDescends(db: Db, rows: seq<Uuid>, keep: set<Uuid>)
    requires Descending(db, rows)
    ensures Descending(db, Restricted(rows, keep))
  {
    if rows != [] {
      RestrictedDescends(db, rows[1..], keep);
      var rest := Restricted(rows[1..], keep);
      forall i | 0 <= i < |rest|
        ensures Before(At(db, rest[i]), At(db, rows[0]))
      {
        assert rest[i] in rows[1..];
        var j :| 0 <= j < |rows[1..]| && rows[1..][j] == rest[i];
        assert rows[j + 1] == rest[i];
      }
    }
  }

  /** What one filter selects out of another's rows, its listing keeps out of the other's. */
  lemma NarrowingRestricts(db: Db, wide: Filter, narrow: Filter, keep: set<Uuid>, all: seq<Uuid>, rows: seq<Uuid>)
    requires narrow.after == wide.after
    requires forall r :: r in Matching(db, narrow) <==> r in Matching(db, wide) && r in keep
    requires Lists(db, all, Remaining(db, wide, wide.Normalized().after))
    requires Lists(db, rows, Remaining(db, narrow, narrow.Normalized().after))
    ensures rows == Restricted(all, keep)
  {
    RestrictedDescends(db, all, keep);
    forall r
      ensures r in rows <==> r in Restricted(all, keep)
    {
      assert r in rows <==> r in Remaining(db, narrow, narrow.Normalized().after);
      assert r in all <==> r in Remaining(db, wide, wide.Normalized().after);
    }
    OneArrangement(db, rows, Restricted(all, keep));
  }

  /** With nothing named every room matches. */
  lemma NothingNamedSelectsAll(db: Db, after: Cursor, limit: int)
    ensures Matching(db, Filter(NIL, [], [], "", NIL, NIL, after, limit)) == db.rooms.Keys
  {
    var f := Filter(NIL, [], [], "", NIL, NIL, after, limit);
    assert forall r :: r in db.rooms ==> f.Selects(db, r);
  }

  /** Naming a customer gives the tenant-wide sequence with every other customer's rooms left out. */
  lemma CustomerSequenceIsTenantSequenceRestricted(db: Db, f: Filter, organization: Uuid, tenant: seq<Uuid>, customer: seq<Uuid>)
    requires f.organization == NIL && organization != NIL
    requires Lists(db, tenant, Remaining(db, f, f.Normalized().after))
    requires Lists(db, customer, Remaining(db, f.(organization := organization), f.Normalized().after))
    ensures customer == Restricted(tenant, set r | r in db.rooms && db.rooms[r].key.organization == organization)
  {
    var g := f.(organization := organization);
    assert forall r :: r in db.rooms ==> (f.Selects(db, r) <==> g.Selects(db, r));
    NarrowingRestricts(db, f, g, (set r | r in db.rooms && db.rooms[r].key.organization == organization), tenant, customer);
  }

  /** Naming statuses keeps the rooms standing in one of them. */
  lemma StatusesRestrict(db: Db, f: Filter, statuses: seq<Status>, all: seq<Uuid>, rows: seq<Uuid>)
    requires f.statuses == [] && statuses != []
    requires Lists(db, all, Remaining(db, f, f.Normalized().after))
    requires Lists(db, rows, Remaining(db, f.(statuses := statuses), f.Normalized().after))
    ensures rows == Restricted(all, set r | r in db.rooms && db.rooms[r].status in statuses)
  {
    var g := f.(statuses := statuses);
    assert forall r :: r in db.rooms ==> (g.Selects(db, r) <==> f.Selects(db, r) && db.rooms[r].status in statuses);
    NarrowingRestricts(db, f, g, (set r | r in db.rooms && db.rooms[r].status in statuses), all, rows);
  }

  /** The open rooms and the resolved ones are listed apart, and together are the whole listing. */
  lemma OpenAndResolvedPartition(db: Db, f: Filter, all: seq<Uuid>, live: seq<Uuid>, over: seq<Uuid>)
    requires f.statuses == []
    requires Lists(db, all, Remaining(db, f, f.Normalized().after))
    requires Lists(db, live, Remaining(db, f.(statuses := [New, Acknowledged, Investigating]), f.Normalized().after))
    requires Lists(db, over, Remaining(db, f.(statuses := [Resolved]), f.Normalized().after))
    ensures forall r :: r in live <==> r in all && r in db.rooms && db.rooms[r].status != Resolved
    ensures forall r :: r in over <==> r in all && r in db.rooms && db.rooms[r].status == Resolved
    ensures forall r :: r in all <==> r in live || r in over
  {
    StatusesRestrict(db, f, [New, Acknowledged, Investigating], all, live);
    StatusesRestrict(db, f, [Resolved], all, over);
    forall s: Status
      ensures s in [New, Acknowledged, Investigating] <==> s != Resolved
    {
      assert [New, Acknowledged, Investigating][0] == New && [New, Acknowledged, Investigating][1] == Acknowledged
             && [New, Acknowledged, Investigating][2] == Investigating;
    }
    assert forall r :: r in all ==> r in db.rooms;
  }

  lemma SeveritiesRestrict(db: Db, f: Filter, severities: seq<Severity>, all: seq<Uuid>, rows: seq<Uuid>)
    requires f.severities == [] && severities != []
    requires Lists(db, all, Remaining(db, f, f.Normalized().after))
    requires Lists(db, rows, Remaining(db, f.(severities := severities), f.Normalized().after))
    ensures rows == Restricted(all, set r | r in db.rooms && db.rooms[r].severity in severities)
  {
    var g := f.(severities := severities);
    assert forall r :: r in db.rooms ==> (g.Selects(db, r) <==> f.Selects(db, r) && db.rooms[r].severity in severities);
    NarrowingRestricts(db, f, g, (set r | r in db.rooms && db.rooms[r].severity in severities), all, rows);
  }

  lemma RuleRestricts(db: Db, f: Filter, rule: RuleId, all: seq<Uuid>, rows: seq<Uuid>)
    requires f.rule == "" && rule != ""
    requires Lists(db, all, Remaining(db, f, f.Normalized().after))
    requires Lists(db, rows, Remaining(db, f.(rule := rule), f.Normalized().after))
    ensures rows == Restricted(all, set r | r in db.rooms && db.rooms[r].key.rule == rule)
  {
    var g := f.(rule := rule);
    assert forall r :: r in db.rooms ==> (g.Selects(db, r) <==> f.Selects(db, r) && db.rooms[r].key.rule == rule);
    NarrowingRestricts(db, f, g, (set r | r in db.rooms && db.rooms[r].key.rule == rule), all, rows);
  }

  lemma AssigneeRestricts(db: Db, f: Filter, assignee: Uuid, all: seq<Uuid>, rows: seq<Uuid>)
    requires f.assignee == NIL && assignee != NIL
    requires Lists(db, all, Remaining(db, f, f.Normalized().after))
    requires Lists(db, rows, Remaining(db, f.(assignee := assignee), f.Normalized().after))
    ensures rows == Restricted(all, set r | r in db.rooms && db.rooms[r].assignee == assignee)
  {
    var g := f.(assignee := assignee);
    assert forall r :: r in db.rooms ==> (g.Selects(db, r) <==> f.Selects(db, r) && db.rooms[r].assignee == assignee);
    NarrowingRestricts(db, f, g, (set r | r in db.rooms && db.rooms[r].assignee == assignee), all, rows);
  }

  /** Naming a machine keeps exactly the rooms some alert of that machine is filed into. */
  lemma DeviceRestricts(db: Db, f: Filter, device: Uuid, all: seq<Uuid>, rows: seq<Uuid>)
    requires f.device == NIL && device != NIL
    requires Lists(db, all, Remaining(db, f, f.Normalized().after))
    requires Lists(db, rows, Remaining(db, f.(device := device), f.Normalized().after))
    ensures rows == Restricted(all, set id | id in db.alerts && db.alerts[id].alert.device == device
                                             && db.alerts[id].room.Some? :: db.alerts[id].room.value)
  {
    var g := f.(device := device);
    var keep := set id | id in db.alerts && db.alerts[id].alert.device == device && db.alerts[id].room.Some? :: db.alerts[id].room.value;
    forall r | r in db.rooms
      ensures g.Selects(db, r) <==> f.Selects(db, r) && r in keep
    {
      if r in keep {
        var id :| id in db.alerts && db.alerts[id].alert.device == device && db.alerts[id].room == Some(r);
        assert id in Held(db.alerts, r);
      }
    }
    NarrowingRestricts(db, f, g, keep, all, rows);
  }
}

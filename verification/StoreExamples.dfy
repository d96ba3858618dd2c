/** The smallest runs: one machine's warning opens a room, and a later one finds that room lapsed. */
module StoreExamples {
  import opened Collections
  import opened Incidents
  import opened Tables
  import opened StoreSteps
  import opened StoreSoundness

  const RULE: RuleId := "disk-full"
  const KEY: GroupingKey := GroupingKey(1, RULE, Device, 1)

  function Warned(at: Time): Alert { Alert(1, 1, RULE, 1, Warning, at, at) }

  /** The n-th offer of machine 1: row n, observed at `at`, received at `now`, and opening room n if it opens one. */
  function Offered(n: Uuid, at: Time, now: Time, window: Time): Offer
  {
    Offer(n, Warned(at), Grouping(Some(Device), window), n, map[1 := Machine(None, false)], now, n)
  }

  /** The tables after one warning: its row, and a room holding it. */
  function OneWarning(at: Time, now: Time): Db
  {
    Db(map[1 := AlertRow(Warned(at), now, Some(1))],
       map[1 := Room(KEY, Warning, New, NIL, now, at, at, None, None, 1, 1, [])])
  }

  lemma FirstIsStored(at: Time, now: Time, window: Time)
    requires window > 0
    ensures var o := Offered(1, at, now, window);
            && Legal(EMPTY, DoRecord(o)) && RecordAnswer(EMPTY, o) == Filed(Stored)
            && FoldingOf(o) == Folding(1, Warned(at), window, KEY, o.devices, now, 1)
  {
    var o := Offered(1, at, now, window);
    assert Recent(EMPTY.alerts, 1, now - HOUR) == {};
  }

  lemma FirstOpens(at: Time, now: Time, window: Time)
    requires window > 0
    ensures Legal(EMPTY, DoRecord(Offered(1, at, now, window)))
    ensures Record(EMPTY, Offered(1, at, now, window)) == OneWarning(at, now)
  {
    var o := Offered(1, at, now, window);
    FirstIsStored(at, now, window);
    var f, alerts := FoldingOf(o), Inserted(EMPTY.alerts, o);
    assert OpenRoom(EMPTY.rooms, KEY).None?;
    assert f.Gathered(alerts) == {};
    var room := NewRoom(KEY, Warning, now, at, 0);
    FilesItself(at, now, room);
    assert Record(EMPTY, o) == FileInto(Db(alerts, map[1 := room]), {} + {1}, 1);
    assert {} + {1} == {1};
  }

  lemma FilesItself(at: Time, now: Time, room: Room)
    requires room == NewRoom(KEY, Warning, now, at, 0)
    ensures FileInto(Db(map[1 := AlertRow(Warned(at), now, None)], map[1 := room]), {1}, 1) == OneWarning(at, now)
  {
    var alerts := Attached(map[1 := AlertRow(Warned(at), now, None)], {1}, 1);
    assert alerts == OneWarning(at, now).alerts;
    assert Held(alerts, 1) == {1};
    assert Times(alerts, {1}) == {at} && Machines(alerts, {1}) == {1} && Severities(alerts, {1}) == {Warning};
  }

  lemma OneStep(db: Db, op: Op)
    requires Legal(db, op)
    ensures Runs(db, [op], Apply(db, op))
  {
    assert [op][1..] == [];
  }

  lemma {:induction false} OneMoreStep(db: Db, ops: seq<Op>, mid: Db, op: Op)
    requires Runs(db, ops, mid) && Legal(mid, op)
    ensures Runs(db, ops + [op], Apply(mid, op))
    decreases |ops|
  {
    if ops == [] {
      assert ops + [op] == [op];
      OneStep(db, op);
    } else {
      OneMoreStep(Apply(db, ops[0]), ops[1..], mid, op);
      assert (ops + [op])[1..] == ops[1..] + [op];
    }
  }
}

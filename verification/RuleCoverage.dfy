/** What connected machines report about the rules they evaluate, and the durable rows kept from the changes. */
module RuleCoverage {
  import opened Collections
  import opened Incidents

  const MAX_ENTRIES: nat := 64

  datatype CoverageState = Active | Unsupported | Throttled

  /** One reported entry; an unrecognised state is None, and `rule` is already sanitized. */
  datatype Entry = Entry(rule: RuleId, state: Option<CoverageState>)

  type States = map<RuleId, CoverageState>

  function Blind(states: States): set<RuleId>
  {
    set rule | rule in states && states[rule] == Unsupported
  }

  // ----- one report -----

  /** Entries in order, later ones winning, until the cap is reached. */
  function Taken(entries: seq<Entry>): States
  {
    if entries == [] then map[]
    else
      var before, last := Taken(entries[..|entries| - 1]), entries[|entries| - 1];
      if |before| >= MAX_ENTRIES || last.rule == "" || last.state.None? then before
      else before[last.rule := last.state.value]
  }

  method TakeEntries(entries: seq<Entry>) returns (states: States)
    ensures states == Taken(entries) && |states| <= MAX_ENTRIES
  {
    states := map[];
    var i := 0;
    while i < |entries|
      invariant 0 <= i <= |entries| && states == Taken(entries[..i]) && |states| <= MAX_ENTRIES
    {
      assert entries[..i + 1][..i] == entries[..i];
      if |states| >= MAX_ENTRIES {
        CapIsFinal(entries, i);
        return;
      }
      var entry := entries[i];
      if entry.rule != "" && entry.state.Some? {
        PutSize(states, entry.rule, entry.state.value);
        states := states[entry.rule := entry.state.value];
      }
      i := i + 1;
    }
    assert entries[..i] == entries;
  }

  lemma {:induction false} CapIsFinal(entries: seq<Entry>, i: nat)
    requires i <= |entries| && |Taken(entries[..i])| >= MAX_ENTRIES
    ensures Taken(entries) == Taken(entries[..i])
    decreases |entries|
  {
    if i == |entries| {
      assert entries[..i] == entries;
    } else {
      var init := entries[..|entries| - 1];
      assert init[..i] == entries[..i];
      CapIsFinal(init, i);
    }
  }

  predicate Usable(entry: Entry) { entry.rule != "" && entry.state.Some? }

  /** What the last usable entry for a rule says. */
  function LastWord(entries: seq<Entry>, rule: RuleId): Option<CoverageState>
  {
    if entries == [] then None
    else
      var last := entries[|entries| - 1];
      if Usable(last) && last.rule == rule then last.state else LastWord(entries[..|entries| - 1], rule)
  }

  /** How many entries are read before the sixty-fourth rule is in. */
  function ReadLength(entries: seq<Entry>): (k: nat)
    ensures k <= |entries|
  {
    if entries == [] then 0
    else if |Taken(entries[..|entries| - 1])| >= 64 then ReadLength(entries[..|entries| - 1])
    else |entries|
  }

  /** A report is read up to its end or its sixty-fourth rule, and within what is read the last word on a rule stands. */
  lemma {:induction false} TakenExactly(entries: seq<Entry>, rule: RuleId)
    ensures var k := ReadLength(entries);
            && (if rule in Taken(entries) then LastWord(entries[..k], rule) == Some(Taken(entries)[rule])
                else LastWord(entries[..k], rule) == None)
            && |Taken(entries)| <= 64 && (k < |entries| ==> |Taken(entries)| == 64)
            && (k > 0 ==> |Taken(entries[..k - 1])| < 64)
    decreases |entries|
  {
    var k := ReadLength(entries);
    if entries != [] {
      var n, init := |entries| - 1, entries[..|entries| - 1];
      TakenExactly(init, rule);
      if |Taken(init)| >= 64 {
        assert init[..k] == entries[..k];
        assert k > 0 ==> init[..k - 1] == entries[..k - 1];
      } else {
        assert ReadLength(init) == n;
        assert init[..n] == init && entries[..n + 1] == entries;
        if Usable(entries[n]) {
          PutSize(Taken(init), entries[n].rule, entries[n].state.value);
        }
      }
    }
  }

  /** The rules newly beyond a machine, and those it can evaluate again. */
  datatype Delta = Delta(recorded: nat, nowUnsupported: set<RuleId>, nowActive: set<RuleId>)

  /** Rules that left the unsupported set, whether named or not, are active again. */
  function Diff(before: States, now: States): Delta
  {
    Delta(|now|, Blind(now) - Blind(before), Blind(before) - Blind(now))
  }

  method DiffCoverage(before: States, now: States) returns (delta: Delta)
    ensures delta == Diff(before, now)
  {
    var nowUnsupported, nowActive := CompareReported(before, now);
    var dropped := FindDropped(before, now);
    nowActive := nowActive + dropped;
    assert nowUnsupported == Blind(now) - Blind(before);
    assert nowActive == Blind(before) - Blind(now);
    delta := Delta(|now|, nowUnsupported, nowActive);
  }

  /** The first loop: the rules the new report names. */
  method CompareReported(before: States, now: States) returns (nowUnsupported: set<RuleId>, nowActive: set<RuleId>)
    ensures forall r :: r in nowUnsupported <==> r in Blind(now) && r !in Blind(before)
    ensures forall r :: r in nowActive <==> r in now && r !in Blind(now) && r in Blind(before)
  {
    nowUnsupported, nowActive := {}, {};
    var rest := now.Keys;
    while rest != {}
      invariant rest <= now.Keys
      invariant forall r :: r in nowUnsupported <==> r in now && r !in rest && r in Blind(now) && r !in Blind(before)
      invariant forall r :: r in nowActive <==> r in now && r !in rest && r !in Blind(now) && r in Blind(before)
      decreases |rest|
    {
      var rule :| rule in rest;
      rest := rest - {rule};
      var wasBlind := rule in before && before[rule] == Unsupported;
      if now[rule] == Unsupported && !wasBlind { nowUnsupported := nowUnsupported + {rule}; }
      if now[rule] != Unsupported && wasBlind { nowActive := nowActive + {rule}; }
    }
  }

  /** The second loop: unsupported rules the new report no longer names. */
  method FindDropped(before: States, now: States) returns (dropped: set<RuleId>)
    ensures forall r :: r in dropped <==> r in Blind(before) && r !in now
  {
    dropped := {};
    var rest := before.Keys;
    while rest != {}
      invariant rest <= before.Keys
      invariant forall r :: r in dropped <==> r in before && r !in rest && r in Blind(before) && r !in now
      decreases |rest|
    {
      var rule :| rule in rest;
      rest := rest - {rule};
      if before[rule] == Unsupported && rule !in now { dropped := dropped + {rule}; }
    }
  }

  const NO_CHANGE: Delta := Delta(0, {}, {})

  // ----- the store -----

  class CoverageStore {
    var byDevice: map<Uuid, States>

    constructor ()
      ensures byDevice == map[]
    {
      byDevice := map[];
    }

    method Report(device: Uuid, entries: seq<Entry>) returns (delta: Delta)
      modifies this
      ensures byDevice == Reported(old(byDevice), device, Taken(entries))
      ensures delta == DeltaOf(old(byDevice), device, Taken(entries))
      ensures delta.recorded == |Taken(entries)|
      ensures forall rows :: Lives(Machine(Memory(old(byDevice), device), rows), Heard(Taken(entries)))
                             == Machine(Memory(byDevice, device), Persisted(rows, delta))
    {
      ghost var before := byDevice;
      var states := TakeEntries(entries);
      if |states| == 0 {
        delta := NO_CHANGE;
      } else {
        delta := DiffCoverage(Memory(byDevice, device), states);
        byDevice := byDevice[device := states];
      }
      forall rows
        ensures Lives(Machine(Memory(before, device), rows), Heard(states))
                == Machine(Memory(byDevice, device), Persisted(rows, delta))
      {
        LivesInTheStore(before, device, rows, states);
      }
    }

    method Forget(device: Uuid)
      modifies this
      ensures byDevice == old(byDevice) - {device}
      ensures forall rows :: Lives(Machine(Memory(old(byDevice), device), rows), Disconnected)
                             == Machine(Memory(byDevice, device), rows)
    {
      byDevice := byDevice - {device};
    }
  }

  function Memory(byDevice: map<Uuid, States>, device: Uuid): States
  {
    if device in byDevice then byDevice[device] else map[]
  }

  function Reported(byDevice: map<Uuid, States>, device: Uuid, states: States): map<Uuid, States>
  {
    if states == map[] then byDevice else byDevice[device := states]
  }

  function DeltaOf(byDevice: map<Uuid, States>, device: Uuid, states: States): Delta
  {
    if states == map[] then NO_CHANGE else Diff(Memory(byDevice, device), states)
  }

  // ----- the durable rows -----

  /** Marks, then clears; every write succeeds. */
  function Persisted(rows: set<RuleId>, delta: Delta): set<RuleId>
  {
    rows + delta.nowUnsupported - delta.nowActive
  }

  /** One machine's life: reports, and disconnects that forget what it said but leave its rows. */
  datatype Happening = Heard(states: States) | Disconnected

  /** What memory holds of a machine, empty when it holds nothing, and its rows on disk. */
  datatype Machine = Machine(known: States, rows: set<RuleId>)

  function Lives(m: Machine, h: Happening): Machine
  {
    match h
    case Disconnected => m.(known := map[])
    case Heard(states) =>
      if states == map[] then m else Machine(states, Persisted(m.rows, Diff(m.known, states)))
  }

  /** A machine's life read off the store: Report and Forget change it just as its memory and rows. */
  lemma LivesInTheStore(byDevice: map<Uuid, States>, device: Uuid, rows: set<RuleId>, states: States)
    ensures Lives(Machine(Memory(byDevice, device), rows), Heard(states))
            == Machine(Memory(Reported(byDevice, device, states), device), Persisted(rows, DeltaOf(byDevice, device, states)))
    ensures Lives(Machine(Memory(byDevice, device), rows), Disconnected) == Machine(Memory(byDevice - {device}, device), rows)
  {
    assert rows + {} - {} == rows;
  }

  function Lived(m: Machine, life: seq<Happening>): Machine
  {
    if life == [] then m else Lives(Lived(m, life[..|life| - 1]), life[|life| - 1])
  }

  /** The last report that said anything, or what was known before. */
  function LastSaid(m: Machine, life: seq<Happening>): States
  {
    if life == [] then m.known
    else
      var last := life[|life| - 1];
      if last.Heard? && last.states != map[] then last.states else LastSaid(m, life[..|life| - 1])
  }

  /** Every rule named unsupported at some point. */
  function EverBlind(m: Machine, life: seq<Happening>): set<RuleId>
  {
    if life == [] then Blind(m.known)
    else
      var last := life[|life| - 1];
      EverBlind(m, life[..|life| - 1]) + if last.Heard? then Blind(last.states) else {}
  }

  predicate OneConnection(life: seq<Happening>)
  {
    forall i :: 0 <= i < |life| ==> life[i].Heard?
  }

  /** Over one connection the rows are what the last report names, plus leftovers no report of the connection ever named. */
  lemma {:induction false} RowsOverAConnection(m: Machine, life: seq<Happening>)
    requires OneConnection(life) && Blind(m.known) <= m.rows
    ensures Lived(m, life).known == LastSaid(m, life)
    ensures Blind(LastSaid(m, life)) <= EverBlind(m, life)
    ensures Lived(m, life).rows == Blind(LastSaid(m, life)) + (m.rows - EverBlind(m, life))
  {
    if life != [] {
      RowsOverAConnection(m, life[..|life| - 1]);
      assert Blind(map[]) == {};
    }
  }

  /** In particular a connection that starts with rows matching what is known keeps them matching. */
  lemma {:induction false} MatchingRowsStayMatching(m: Machine, life: seq<Happening>)
    requires OneConnection(life) && m.rows == Blind(m.known)
    ensures Lived(m, life).rows == Blind(LastSaid(m, life))
  {
    StartIsNamed(m, life);
    RowsOverAConnection(m, life);
  }

  lemma {:induction false} StartIsNamed(m: Machine, life: seq<Happening>)
    ensures Blind(m.known) <= EverBlind(m, life)
  {
    if life != [] {
      StartIsNamed(m, life[..|life| - 1]);
    }
  }

  /** Across any number of disconnects the rows still include everything the last report could not evaluate. */
  lemma {:induction false} RowsAlwaysCover(m: Machine, life: seq<Happening>)
    requires Blind(m.known) <= m.rows
    ensures Blind(LastSaid(m, life)) <= Lived(m, life).rows
    ensures Lived(m, life).known == map[] || Lived(m, life).known == LastSaid(m, life)
  {
    if life != [] {
      RowsAlwaysCover(m, life[..|life| - 1]);
      assert Blind(map[]) == {};
    }
  }

  // ----- over any life -----

  /** The report in force on the connection as it stands; a disconnect leaves none. */
  function InForce(m: Machine, life: seq<Happening>): States
  {
    if life == [] then m.known
    else
      match life[|life| - 1]
      case Disconnected => map[]
      case Heard(states) => if states == map[] then InForce(m, life[..|life| - 1]) else states
  }

  /** Rules no report in force answers for: rows found at the start, or left by a disconnect, and not named since. */
  function Leftover(m: Machine, life: seq<Happening>): set<RuleId>
  {
    if life == [] then m.rows - Blind(m.known)
    else
      var init := life[..|life| - 1];
      match life[|life| - 1]
      case Disconnected => Leftover(m, init) + Blind(InForce(m, init))
      case Heard(states) => Leftover(m, init) - Blind(states)
  }

  /** Whatever the reports and disconnects, the rows are what the report in force names, and the leftovers. */
  lemma {:induction false} RowsOverALife(m: Machine, life: seq<Happening>)
    requires Blind(m.known) <= m.rows
    ensures Lived(m, life).known == InForce(m, life)
    ensures Lived(m, life).rows == Blind(InForce(m, life)) + Leftover(m, life)
    ensures Blind(InForce(m, life)) !! Leftover(m, life)
  {
    assert Blind(map[]) == {};
    if life != [] {
      RowsOverALife(m, life[..|life| - 1]);
    }
  }

  predicate NotNamedFrom(life: seq<Happening>, i: nat, rule: RuleId)
  {
    forall j :: i <= j < |life| && life[j].Heard? ==> rule !in Blind(life[j].states)
  }

  /** A rule left without a report in force at point `i`: before the first happening, or by the disconnect just before. */
  predicate LeftAt(m: Machine, life: seq<Happening>, i: nat, rule: RuleId)
    requires i <= |life|
  {
    if i == 0 then rule in m.rows && rule !in Blind(m.known)
    else life[i - 1].Disconnected? && rule in Blind(InForce(m, life[..i - 1]))
  }

  lemma LeftEarlier(m: Machine, life: seq<Happening>, i: nat, rule: RuleId)
    requires i < |life|
    ensures LeftAt(m, life[..|life| - 1], i, rule) == LeftAt(m, life, i, rule)
  {
    if i > 0 {
      assert life[..|life| - 1][..i - 1] == life[..i - 1];
    }
  }

  /** The leftovers are exactly the rules left at some point and named unsupported by no report since. */
  lemma {:induction false} LeftoverExactly(m: Machine, life: seq<Happening>, rule: RuleId)
    ensures rule in Leftover(m, life) <==> exists i: nat :: i <= |life| && LeftAt(m, life, i, rule) && NotNamedFrom(life, i, rule)
  {
    if life == [] {
      assert LeftAt(m, life, 0, rule) <==> rule in Leftover(m, life);
    } else {
      var n, init := |life|, life[..|life| - 1];
      LeftoverExactly(m, init, rule);
      if i: nat :| i <= |init| && LeftAt(m, init, i, rule) && NotNamedFrom(init, i, rule) {
        LeftEarlier(m, life, i, rule);
        assert rule in Leftover(m, life) ==> NotNamedFrom(life, i, rule);
      }
      if i: nat :| i <= n && LeftAt(m, life, i, rule) && NotNamedFrom(life, i, rule) {
        if i < n {
          LeftEarlier(m, life, i, rule);
          assert NotNamedFrom(init, i, rule);
        }
      }
      if rule in Leftover(m, life) && rule !in Leftover(m, init) {
        assert LeftAt(m, life, n, rule) && NotNamedFrom(life, n, rule);
      }
    }
  }

  /** Over any life the rows equal the last report's unsupported rules exactly when that report names every leftover. */
  lemma RowsAreExactIff(m: Machine, life: seq<Happening>)
    requires Blind(m.known) <= m.rows
    ensures Lived(m, life).rows == Blind(LastSaid(m, life)) <==> Leftover(m, life) <= Blind(LastSaid(m, life))
  {
    RowsOverALife(m, life);
    RowsAlwaysCover(m, life);
    assert Blind(map[]) == {};
  }

  lemma LivesOn(m: Machine, life: seq<Happening>, h: Happening)
    ensures Lived(m, life + [h]) == Lives(Lived(m, life), h)
    ensures LastSaid(m, life + [h]) == if h.Heard? && h.states != map[] then h.states else LastSaid(m, life)
  {
    assert (life + [h])[..|life|] == life;
  }

  /** But not more: a rule that became evaluable while the machine was away keeps its row. */
  lemma ADisconnectCanStrandARow(rule: RuleId)
    ensures var start := Machine(map[], {});
            var life := [] + [Heard(map[rule := Unsupported])] + [Disconnected] + [Heard(map[rule := Active])];
            Lived(start, life).rows == {rule} && Blind(LastSaid(start, life)) == {}
  {
    var start := Machine(map[], {});
    var first := [] + [Heard(map[rule := Unsupported])];
    LivesOn(start, [], Heard(map[rule := Unsupported]));
    LivesOn(start, first, Disconnected);
    LivesOn(start, first + [Disconnected], Heard(map[rule := Active]));
    assert Blind(map[]) == {} && Blind(map[rule := Unsupported]) == {rule} && Blind(map[rule := Active]) == {};
  }
}

/** The per-device status gate: a table of ref-counted locks made and dropped on the fly.
    Entering and leaving are two atomic parts each, interleaved freely between goroutines. */
module StatusGate {
  import opened Collections

  type Goroutine = nat
  type DeviceId = nat
  type Address = nat

  /** A lock object: the goroutine holding its mutex, and how many hold a reference to it. */
  datatype Lock = Lock(holder: Option<Goroutine>, waiting: int)

  /** Where a goroutine stands between its first table update and its last; outside is absent. */
  datatype Phase =
    | Waiting(device: DeviceId, lock: Address)
    | Inside(device: DeviceId, lock: Address)
    | Leaving(device: DeviceId, lock: Address)

  datatype Gate = Gate(table: map<DeviceId, Address>, heap: map<Address, Lock>, phases: map<Goroutine, Phase>)

  const IDLE: Gate := Gate(map[], map[], map[])

  /** `spare` is where the lock would be allocated if the device has none. */
  datatype Step =
    | Enter(p: Goroutine, device: DeviceId, spare: Address)
    | Acquire(p: Goroutine)
    | Unlock(p: Goroutine)
    | Leave(p: Goroutine)

  predicate Enabled(g: Gate, step: Step)
  {
    match step
    case Enter(p, _, spare) => p !in g.phases && spare !in g.heap
    case Acquire(p) =>
      p in g.phases && g.phases[p].Waiting? && g.phases[p].lock in g.heap && g.heap[g.phases[p].lock].holder.None?
    case Unlock(p) => p in g.phases && g.phases[p].Inside? && g.phases[p].lock in g.heap
    case Leave(p) => p in g.phases && g.phases[p].Leaving? && g.phases[p].lock in g.heap
  }

  function Next(g: Gate, step: Step): Gate
    requires Enabled(g, step)
  {
    match step
    case Enter(p, device, spare) =>
      var lock := if device in g.table then g.table[device] else spare;
      var was := if lock in g.heap then g.heap[lock] else Lock(None, 0);
      Gate(g.table[device := lock], g.heap[lock := was.(waiting := was.waiting + 1)],
           g.phases[p := Waiting(device, lock)])
    case Acquire(p) =>
      var at := g.phases[p];
      g.(heap := g.heap[at.lock := g.heap[at.lock].(holder := Some(p))],
         phases := g.phases[p := Inside(at.device, at.lock)])
    case Unlock(p) =>
      var at := g.phases[p];
      g.(heap := g.heap[at.lock := g.heap[at.lock].(holder := None)],
         phases := g.phases[p := Leaving(at.device, at.lock)])
    case Leave(p) =>
      var at := g.phases[p];
      var waiting := g.heap[at.lock].waiting - 1;
      Gate(if waiting == 0 then g.table - {at.device} else g.table,
           g.heap[at.lock := g.heap[at.lock].(waiting := waiting)],
           g.phases - {p})
  }

  /** The goroutines between entering and leaving a device's gate. */
  function Engaged(g: Gate, device: DeviceId): set<Goroutine>
  {
    set p | p in g.phases && g.phases[p].device == device
  }

  /** Every engaged goroutine refers to the lock the table names. */
  ghost predicate Shared(g: Gate)
  {
    forall p :: p in g.phases ==> g.phases[p].device in g.table && g.table[g.phases[p].device] == g.phases[p].lock
  }

  ghost predicate Separate(g: Gate)
  {
    && (forall d :: d in g.table ==> g.table[d] in g.heap)
    && (forall d, e :: d in g.table && e in g.table && g.table[d] == g.table[e] ==> d == e)
  }

  ghost predicate RefCounted(g: Gate)
    requires Separate(g)
  {
    forall d :: d in g.table ==> Engaged(g, d) != {} && g.heap[g.table[d]].waiting == |Engaged(g, d)|
  }

  /** A lock's holder is exactly the goroutine inside. */
  ghost predicate HeldByInsider(g: Gate)
    requires Separate(g)
  {
    && (forall p :: p in g.phases && g.phases[p].Inside? ==>
          g.phases[p].lock in g.heap && g.heap[g.phases[p].lock].holder == Some(p))
    && (forall d :: d in g.table && g.heap[g.table[d]].holder.Some? ==> InsideGate(g, d, g.heap[g.table[d]].holder.value))
  }

  predicate InsideGate(g: Gate, device: DeviceId, p: Goroutine)
  {
    p in g.phases && g.phases[p].Inside? && g.phases[p].device == device
  }

  ghost predicate Sound(g: Gate)
  {
    Shared(g) && Separate(g) && RefCounted(g) && HeldByInsider(g)
  }

  lemma EnterKeeps(g: Gate, p: Goroutine, device: DeviceId, spare: Address)
    requires Sound(g) && Enabled(g, Enter(p, device, spare))
    ensures Sound(Next(g, Enter(p, device, spare)))
  {
    EnterShares(g, p, device, spare);
    EnterCounts(g, p, device, spare);
    EnterHolds(g, p, device, spare);
  }

  lemma EnterShares(g: Gate, p: Goroutine, device: DeviceId, spare: Address)
    requires Sound(g) && Enabled(g, Enter(p, device, spare))
    ensures var after := Next(g, Enter(p, device, spare)); Shared(after) && Separate(after)
  {
  }

  lemma EnterHolds(g: Gate, p: Goroutine, device: DeviceId, spare: Address)
    requires Sound(g) && Enabled(g, Enter(p, device, spare))
    ensures var after := Next(g, Enter(p, device, spare)); Separate(after) && HeldByInsider(after)
  {
    EnterShares(g, p, device, spare);
  }

  lemma EnterCounts(g: Gate, p: Goroutine, device: DeviceId, spare: Address)
    requires Sound(g) && Enabled(g, Enter(p, device, spare))
    ensures var after := Next(g, Enter(p, device, spare)); Separate(after) && RefCounted(after)
  {
    EnterShares(g, p, device, spare);
    var after := Next(g, Enter(p, device, spare));
    forall d | d in after.table
      ensures Engaged(after, d) != {} && after.heap[after.table[d]].waiting == |Engaged(after, d)|
    {
      EnterEngages(g, p, device, spare, d);
      assert d !in g.table ==> Engaged(g, d) == {};
    }
  }

  lemma EnterEngages(g: Gate, p: Goroutine, device: DeviceId, spare: Address, d: DeviceId)
    requires Enabled(g, Enter(p, device, spare))
    ensures Engaged(Next(g, Enter(p, device, spare)), d) == if d == device then Engaged(g, d) + {p} else Engaged(g, d)
  {
  }

  /** Acquiring and unlocking move no reference. */
  lemma PhaseChangeKeepsCounts(g: Gate, after: Gate, p: Goroutine)
    requires Sound(g) && p in g.phases && Separate(after) && after.table == g.table
    requires after.phases.Keys == g.phases.Keys
    requires forall q :: q in g.phases ==> after.phases[q].device == g.phases[q].device
    requires forall d :: d in g.table ==> after.heap[g.table[d]].waiting == g.heap[g.table[d]].waiting
    ensures RefCounted(after)
  {
    forall d | d in g.table
      ensures Engaged(after, d) == Engaged(g, d)
    {
    }
  }

  lemma AcquireHolds(g: Gate, p: Goroutine)
    requires Sound(g) && Enabled(g, Acquire(p))
    ensures var after := Next(g, Acquire(p)); Shared(after) && Separate(after) && HeldByInsider(after)
  {
  }

  lemma AcquireKeeps(g: Gate, p: Goroutine)
    requires Sound(g) && Enabled(g, Acquire(p))
    ensures Sound(Next(g, Acquire(p)))
  {
    AcquireHolds(g, p);
    PhaseChangeKeepsCounts(g, Next(g, Acquire(p)), p);
  }

  lemma UnlockHolds(g: Gate, p: Goroutine)
    requires Sound(g) && Enabled(g, Unlock(p))
    ensures var after := Next(g, Unlock(p)); Shared(after) && Separate(after) && HeldByInsider(after)
  {
  }

  /** The mutex a goroutine unlocks is one it holds. */
  lemma UnlockKeeps(g: Gate, p: Goroutine)
    requires Sound(g) && Enabled(g, Unlock(p))
    ensures Sound(Next(g, Unlock(p)))
    ensures g.heap[g.phases[p].lock].holder == Some(p)
  {
    UnlockHolds(g, p);
    PhaseChangeKeepsCounts(g, Next(g, Unlock(p)), p);
  }

  lemma LeaveCounts(g: Gate, p: Goroutine)
    requires Sound(g) && Enabled(g, Leave(p))
    ensures var after := Next(g, Leave(p)); Separate(after) && RefCounted(after)
    ensures var after := Next(g, Leave(p)); g.phases[p].device in after.table <==> Engaged(after, g.phases[p].device) != {}
  {
    var after := Next(g, Leave(p));
    var device := g.phases[p].device;
    LeaveDisengages(g, p, device);
    assert p in Engaged(g, device);
    assert |Engaged(after, device)| == |Engaged(g, device)| - 1;
    forall d | d in after.table
      ensures Engaged(after, d) != {} && after.heap[after.table[d]].waiting == |Engaged(after, d)|
    {
      LeaveDisengages(g, p, d);
    }
  }

  lemma LeaveDisengages(g: Gate, p: Goroutine, d: DeviceId)
    requires Enabled(g, Leave(p))
    ensures Engaged(Next(g, Leave(p)), d) == if d == g.phases[p].device then Engaged(g, d) - {p} else Engaged(g, d)
  {
  }

  lemma LeaveHolds(g: Gate, p: Goroutine)
    requires Sound(g) && Enabled(g, Leave(p))
    ensures var after := Next(g, Leave(p)); Separate(after) && HeldByInsider(after)
  {
  }

  lemma LeaveShares(g: Gate, p: Goroutine)
    requires Sound(g) && Enabled(g, Leave(p))
    ensures Shared(Next(g, Leave(p)))
  {
    var after := Next(g, Leave(p));
    LeaveCounts(g, p);
    forall q | q in after.phases
      ensures after.phases[q].device in after.table
    {
      assert q in Engaged(after, after.phases[q].device);
    }
  }

  lemma LeaveKeeps(g: Gate, p: Goroutine)
    requires Sound(g) && Enabled(g, Leave(p))
    ensures Sound(Next(g, Leave(p)))
  {
    LeaveCounts(g, p);
    LeaveHolds(g, p);
    LeaveShares(g, p);
  }

  lemma StepKeeps(g: Gate, step: Step)
    requires Sound(g) && Enabled(g, step)
    ensures Sound(Next(g, step))
  {
    match step {
      case Enter(p, device, spare) => EnterKeeps(g, p, device, spare);
      case Acquire(p) => AcquireKeeps(g, p);
      case Unlock(p) => UnlockKeeps(g, p);
      case Leave(p) => LeaveKeeps(g, p);
    }
  }

  ghost predicate Runs(g: Gate, steps: seq<Step>, end: Gate)
    decreases |steps|
  {
    if steps == [] then end == g
    else Enabled(g, steps[0]) && Runs(Next(g, steps[0]), steps[1..], end)
  }

  lemma {:induction false} EveryInterleavingIsSound(g: Gate, steps: seq<Step>, end: Gate)
    requires Sound(g) && Runs(g, steps, end)
    ensures Sound(end)
    decreases |steps|
  {
    if steps != [] {
      StepKeeps(g, steps[0]);
      EveryInterleavingIsSound(Next(g, steps[0]), steps[1..], end);
    }
  }

  /** At most one goroutine is inside a device's gate. */
  lemma OneInside(g: Gate, p: Goroutine, q: Goroutine)
    requires Sound(g) && p in g.phases && q in g.phases
    requires g.phases[p].Inside? && g.phases[q].Inside? && g.phases[p].device == g.phases[q].device
    ensures p == q
  {
    var lock := g.table[g.phases[p].device];
    assert g.heap[lock].holder == Some(p) && g.heap[lock].holder == Some(q);
  }

  /** After any interleaving from an idle gate: mutual exclusion, one lock per device shared by everyone
      engaged with it, `waiting` their number, and a table entry exactly while there is someone. */
  lemma GateHolds(steps: seq<Step>, end: Gate)
    requires Runs(IDLE, steps, end)
    ensures forall p, q :: p in end.phases && q in end.phases && end.phases[p].device == end.phases[q].device ==>
              end.phases[p].lock == end.phases[q].lock && (end.phases[p].Inside? && end.phases[q].Inside? ==> p == q)
    ensures forall d :: d in end.table <==> Engaged(end, d) != {}
    ensures forall d :: d in end.table ==>
              end.table[d] in end.heap && end.heap[end.table[d]].waiting == |Engaged(end, d)|
  {
    EveryInterleavingIsSound(IDLE, steps, end);
    forall p, q | p in end.phases && q in end.phases && end.phases[p].device == end.phases[q].device
                  && end.phases[p].Inside? && end.phases[q].Inside?
      ensures p == q
    {
      OneInside(end, p, q);
    }
    forall d
      ensures d in end.table <==> Engaged(end, d) != {}
    {
      if Engaged(end, d) != {} {
        var p :| p in Engaged(end, d);
      }
    }
  }

  /** No wakeup is lost: while a device has an entry, one of its goroutines can move. */
  lemma SomeoneCanMove(g: Gate, device: DeviceId) returns (step: Step)
    requires Sound(g) && device in g.table
    ensures Enabled(g, step) && step.p in Engaged(g, device) && !step.Enter?
  {
    var lock := g.table[device];
    match g.heap[lock].holder {
      case Some(p) => step := Unlock(p);
      case None =>
        var q :| q in Engaged(g, device);
        assert g.phases[q].lock == lock;
        step := if g.phases[q].Waiting? then Acquire(q) else Leave(q);
    }
  }
}

/** Connection registration and release over the status gate, step by step and interleaved freely.
    One goroutine serves one connection: it registers it, and after the control loop releases it. */
module ConnRegistry {
  import opened Collections
  import Gate = StatusGate

  type Conn = Gate.Goroutine
  type DeviceId = Gate.DeviceId

  /** How far a connection's goroutine has come through registerConn and releaseDeviceStatus. */
  datatype Stage =
    | Registering
    | Swapped(replaced: bool)
    | Counted
    | Live
    | Releasing
    | Deleted
    | Uncounted
    | Finished
    | Gone

  datatype Registry = Registry(
    gate: Gate.Gate, device: map<Conn, DeviceId>, stage: map<Conn, Stage>,
    conns: map<DeviceId, Conn>, count: int)

  const STARTED: Registry := Registry(Gate.IDLE, map[], map[], map[], 0)

  datatype Step =
    | Connect(c: Conn, device: DeviceId)
    | EnterGate(c: Conn, spare: Gate.Address)
    | AcquireGate(c: Conn)
    | Swap(c: Conn, device: DeviceId)
    | CountUp(c: Conn)
    | CompareAndDelete(c: Conn, device: DeviceId)
    | CountDown(c: Conn)
    | WriteOffline(c: Conn)
    | UnlockGate(c: Conn)
    | LeaveGate(c: Conn)

  predicate InsideAs(s: Registry, c: Conn, stage: Stage)
  {
    c in s.stage && s.stage[c] == stage && c in s.device && c in s.gate.phases && s.gate.phases[c].Inside?
  }

  predicate Enabled(s: Registry, step: Step)
  {
    match step
    case Connect(c, _) => c !in s.stage
    case EnterGate(c, spare) =>
      && c in s.stage && c in s.device && (s.stage[c] == Registering || s.stage[c] == Live)
      && Gate.Enabled(s.gate, Gate.Enter(c, s.device[c], spare))
    case AcquireGate(c) => c in s.stage && Gate.Enabled(s.gate, Gate.Acquire(c))
    case Swap(c, d) => InsideAs(s, c, Registering) && s.device[c] == d
    case CountUp(c) => c in s.stage && s.stage[c].Swapped? && InsideAs(s, c, s.stage[c])
    case CompareAndDelete(c, d) => InsideAs(s, c, Releasing) && s.device[c] == d
    case CountDown(c) => InsideAs(s, c, Deleted)
    case WriteOffline(c) => InsideAs(s, c, Uncounted)
    case UnlockGate(c) => (InsideAs(s, c, Counted) || InsideAs(s, c, Finished)) && Gate.Enabled(s.gate, Gate.Unlock(c))
    case LeaveGate(c) =>
      c in s.stage && (s.stage[c] == Counted || s.stage[c] == Finished) && Gate.Enabled(s.gate, Gate.Leave(c))
  }

  function Next(s: Registry, step: Step): Registry
    requires Enabled(s, step)
  {
    match step
    case Connect(c, d) => s.(stage := s.stage[c := Registering], device := s.device[c := d])
    case EnterGate(c, spare) =>
      s.(gate := Gate.Next(s.gate, Gate.Enter(c, s.device[c], spare)),
         stage := s.stage[c := if s.stage[c] == Live then Releasing else Registering])
    case AcquireGate(c) => s.(gate := Gate.Next(s.gate, Gate.Acquire(c)))
    case Swap(c, d) => s.(conns := s.conns[d := c], stage := s.stage[c := Swapped(d in s.conns)])
    case CountUp(c) =>
      s.(count := if s.stage[c].replaced then s.count else s.count + 1, stage := s.stage[c := Counted])
    case CompareAndDelete(c, d) =>
      if d in s.conns && s.conns[d] == c
      then s.(conns := s.conns - {d}, stage := s.stage[c := Deleted])
      else s.(stage := s.stage[c := Finished])
    case CountDown(c) => s.(count := s.count - 1, stage := s.stage[c := Uncounted])
    case WriteOffline(c) => s.(stage := s.stage[c := Finished])
    case UnlockGate(c) => s.(gate := Gate.Next(s.gate, Gate.Unlock(c)))
    case LeaveGate(c) =>
      s.(gate := Gate.Next(s.gate, Gate.Leave(c)),
         stage := s.stage[c := if s.stage[c] == Counted then Live else Gone])
  }

  // ----- what a trace says happened -----

  /** The connection most recently registered for a device. */
  function Newest(trace: seq<Step>, d: DeviceId): Option<Conn>
  {
    if trace == [] then None
    else
      var last := trace[|trace| - 1];
      if last.Swap? && last.device == d then Some(last.c) else Newest(trace[..|trace| - 1], d)
  }

  /** The connections whose release has looked at the map. */
  function Released(trace: seq<Step>): set<Conn>
  {
    if trace == [] then {}
    else
      var last := trace[|trace| - 1];
      Released(trace[..|trace| - 1]) + if last.CompareAndDelete? then {last.c} else {}
  }

  lemma Appended(trace: seq<Step>, step: Step, d: DeviceId)
    ensures Newest(trace + [step], d) == if step.Swap? && step.device == d then Some(step.c) else Newest(trace, d)
    ensures Released(trace + [step]) == Released(trace) + if step.CompareAndDelete? then {step.c} else {}
  {
    assert (trace + [step])[..|trace|] == trace;
  }

  // ----- the invariant -----

  predicate StageFits(stage: Stage, phases: map<Conn, Gate.Phase>, c: Conn)
  {
    match stage
    case Registering => c in phases ==> !phases[c].Leaving?
    case Releasing => c in phases && !phases[c].Leaving?
    case Swapped(_) => c in phases && phases[c].Inside?
    case Deleted => c in phases && phases[c].Inside?
    case Uncounted => c in phases && phases[c].Inside?
    case Counted => c in phases && !phases[c].Waiting?
    case Finished => c in phases && !phases[c].Waiting?
    case Live => c !in phases
    case Gone => c !in phases
  }

  ghost predicate Staged(s: Registry)
  {
    && s.device.Keys == s.stage.Keys
    && s.gate.phases.Keys <= s.stage.Keys
    && (forall c :: c in s.gate.phases ==> s.gate.phases[c].device == s.device[c])
    && (forall c :: c in s.stage ==> StageFits(s.stage[c], s.gate.phases, c))
  }

  predicate PastRelease(stage: Stage)
  {
    stage == Deleted || stage == Uncounted || stage == Finished || stage == Gone
  }

  /** The map holds exactly the newest registered connection of each device, while that one is not released. */
  ghost predicate NewestWins(s: Registry, trace: seq<Step>)
  {
    && (forall c :: c in Released(trace) <==> c in s.stage && PastRelease(s.stage[c]))
    && (forall d :: Newest(trace, d).Some? ==>
          var c := Newest(trace, d).value;
          c in s.stage && c in s.device && s.device[c] == d && s.stage[c] != Registering)
    && (forall d :: d in s.conns <==> Newest(trace, d).Some? && Newest(trace, d).value !in Released(trace))
    && (forall d :: d in s.conns ==> Newest(trace, d) == Some(s.conns[d]))
  }

  /** Between deleting its entry and the offline write, a release's device stays unregistered. */
  ghost predicate OfflineSafe(s: Registry, trace: seq<Step>)
  {
    forall c :: Closing(s, c) ==> s.device[c] !in s.conns && Newest(trace, s.device[c]) == Some(c)
  }

  function AtStage(s: Registry, stage: Stage): set<Conn>
  {
    Having(s.stage, stage)
  }

  /** The counter trails the map by the steps still to come. */
  ghost predicate CountTrails(s: Registry)
  {
    s.count == |s.conns| - |AtStage(s, Swapped(false))| + |AtStage(s, Deleted)|
  }

  ghost predicate Sound(s: Registry, trace: seq<Step>)
  {
    Gate.Sound(s.gate) && Staged(s) && NewestWins(s, trace) && OfflineSafe(s, trace) && CountTrails(s)
  }

  /** A step moves one goroutine's stage and phase and nobody else's. */
  ghost predicate OnlyMoves(s: Registry, after: Registry, c: Conn)
  {
    && c in after.stage && c in after.device
    && (forall q :: q != c ==> (q in after.stage <==> q in s.stage) && (q in after.device <==> q in s.device))
    && (forall q :: q != c && q in s.stage && q in after.stage ==> after.stage[q] == s.stage[q])
    && (forall q :: q in s.device && q in after.device ==> after.device[q] == s.device[q])
    && (forall q :: q != c ==> (q in after.gate.phases <==> q in s.gate.phases))
    && (forall q :: q != c && q in s.gate.phases && q in after.gate.phases ==> after.gate.phases[q] == s.gate.phases[q])
  }

  lemma MoveKeepsStaged(s: Registry, after: Registry, c: Conn)
    requires Staged(s) && OnlyMoves(s, after, c)
    requires StageFits(after.stage[c], after.gate.phases, c)
    requires c in after.gate.phases ==> after.gate.phases[c].device == after.device[c]
    ensures Staged(after)
  {
    forall q | q in after.stage
      ensures StageFits(after.stage[q], after.gate.phases, q)
    {
      assert q != c ==> StageFits(s.stage[q], s.gate.phases, q);
    }
  }

  lemma GateStepMoves(g: Gate.Gate, step: Gate.Step)
    requires Gate.Enabled(g, step)
    ensures var after := Gate.Next(g, step);
            && (forall q :: q != step.p ==> (q in after.phases <==> q in g.phases))
            && (forall q :: q != step.p && q in g.phases ==> after.phases[q] == g.phases[q])
            && (step.Leave? <==> step.p !in after.phases)
            && (step.Enter? ==> after.phases[step.p].Waiting? && after.phases[step.p].device == step.device)
            && (step.Acquire? ==> after.phases[step.p].Inside? && after.phases[step.p].device == g.phases[step.p].device)
            && (step.Unlock? ==> after.phases[step.p].Leaving? && after.phases[step.p].device == g.phases[step.p].device)
  {
  }

  lemma GateMoves(s: Registry, step: Step, move: Gate.Step)
    requires Staged(s) && Enabled(s, step) && move.p == step.c
    requires match step
             case EnterGate(c, spare) => move == Gate.Enter(c, s.device[c], spare)
             case AcquireGate(c) => move == Gate.Acquire(c)
             case UnlockGate(c) => move == Gate.Unlock(c)
             case LeaveGate(c) => move == Gate.Leave(c)
             case _ => false
    ensures OnlyMoves(s, Next(s, step), step.c) && Staged(Next(s, step))
  {
    var after := Next(s, step);
    GateStepMoves(s.gate, move);
    assert StageFits(s.stage[step.c], s.gate.phases, step.c);
    MoveKeepsStaged(s, after, step.c);
  }

  lemma StepStaged(s: Registry, step: Step)
    requires Staged(s) && Enabled(s, step)
    ensures OnlyMoves(s, Next(s, step), step.c) && Staged(Next(s, step))
  {
    match step {
      case EnterGate(c, spare) => GateMoves(s, step, Gate.Enter(c, s.device[c], spare));
      case AcquireGate(c) => GateMoves(s, step, Gate.Acquire(c));
      case UnlockGate(c) => GateMoves(s, step, Gate.Unlock(c));
      case LeaveGate(c) => GateMoves(s, step, Gate.Leave(c));
      case _ => MoveKeepsStaged(s, Next(s, step), step.c);
    }
  }

  lemma StepGate(s: Registry, step: Step)
    requires Gate.Sound(s.gate) && Enabled(s, step)
    ensures Gate.Sound(Next(s, step).gate)
  {
    match step {
      case EnterGate(c, spare) => Gate.StepKeeps(s.gate, Gate.Enter(c, s.device[c], spare));
      case AcquireGate(c) => Gate.StepKeeps(s.gate, Gate.Acquire(c));
      case UnlockGate(c) => Gate.StepKeeps(s.gate, Gate.Unlock(c));
      case LeaveGate(c) => Gate.StepKeeps(s.gate, Gate.Leave(c));
      case _ =>
    }
  }

  lemma TraceGrows(trace: seq<Step>, step: Step)
    ensures Released(trace + [step]) == Released(trace) + if step.CompareAndDelete? then {step.c} else {}
    ensures forall d :: Newest(trace + [step], d) == if step.Swap? && step.device == d then Some(step.c) else Newest(trace, d)
  {
    forall d
      ensures Newest(trace + [step], d) == if step.Swap? && step.device == d then Some(step.c) else Newest(trace, d)
    {
      Appended(trace, step, d);
    }
    Appended(trace, step, 0);
  }

  lemma SwapNewest(s: Registry, trace: seq<Step>, c: Conn, d: DeviceId)
    requires Staged(s) && NewestWins(s, trace) && Enabled(s, Swap(c, d))
    ensures NewestWins(Next(s, Swap(c, d)), trace + [Swap(c, d)])
  {
    TraceGrows(trace, Swap(c, d));
  }

  lemma DeleteNewest(s: Registry, trace: seq<Step>, c: Conn, d: DeviceId)
    requires Staged(s) && NewestWins(s, trace) && Enabled(s, CompareAndDelete(c, d))
    ensures NewestWins(Next(s, CompareAndDelete(c, d)), trace + [CompareAndDelete(c, d)])
  {
    TraceGrows(trace, CompareAndDelete(c, d));
  }

  /** Steps that neither register nor look the map up change nothing the map depends on. */
  ghost predicate SameRegistrations(s: Registry, after: Registry)
  {
    && after.conns == s.conns
    && (forall c :: c in s.stage ==>
          c in after.stage && (PastRelease(s.stage[c]) <==> PastRelease(after.stage[c]))
          && (s.stage[c] != Registering ==> after.stage[c] != Registering))
    && (forall c :: c in after.stage && c !in s.stage ==> !PastRelease(after.stage[c]))
    && (forall c :: c in s.device ==> c in after.device && after.device[c] == s.device[c])
  }

  lemma StageMoveRegistersNothing(s: Registry, after: Registry, c: Conn)
    requires after.conns == s.conns && c in after.stage && after.stage == s.stage[c := after.stage[c]]
    requires c in s.stage ==> (PastRelease(s.stage[c]) <==> PastRelease(after.stage[c]))
                              && (s.stage[c] != Registering ==> after.stage[c] != Registering)
    requires c !in s.stage ==> !PastRelease(after.stage[c])
    requires after.device == s.device || (c !in s.device && c in after.device && after.device == s.device[c := after.device[c]])
    ensures SameRegistrations(s, after)
  {
  }

  lemma OtherStepsRegisterNothing(s: Registry, step: Step)
    requires Staged(s) && Enabled(s, step) && !step.Swap? && !step.CompareAndDelete?
    ensures SameRegistrations(s, Next(s, step))
  {
    var after := Next(s, step);
    if step.AcquireGate? || step.UnlockGate? {
      assert after.stage == s.stage && after.device == s.device;
    } else {
      StageMoveRegistersNothing(s, after, step.c);
    }
  }

  lemma OtherNewest(s: Registry, after: Registry, trace: seq<Step>, step: Step)
    requires NewestWins(s, trace) && SameRegistrations(s, after) && !step.Swap? && !step.CompareAndDelete?
    ensures NewestWins(after, trace + [step])
  {
    TraceGrows(trace, step);
    assert Released(trace + [step]) == Released(trace);
    forall c
      ensures c in Released(trace) <==> c in after.stage && PastRelease(after.stage[c])
    {
      assert c in Released(trace) <==> c in s.stage && PastRelease(s.stage[c]);
    }
  }

  lemma StepNewest(s: Registry, trace: seq<Step>, step: Step)
    requires Staged(s) && NewestWins(s, trace) && Enabled(s, step)
    ensures NewestWins(Next(s, step), trace + [step])
  {
    match step {
      case Swap(c, d) => SwapNewest(s, trace, c, d);
      case CompareAndDelete(c, d) => DeleteNewest(s, trace, c, d);
      case _ =>
        OtherStepsRegisterNothing(s, step);
        OtherNewest(s, Next(s, step), trace, step);
    }
  }

  predicate Closing(s: Registry, c: Conn)
  {
    c in s.stage && c in s.device && (s.stage[c] == Deleted || s.stage[c] == Uncounted)
  }

  /** The gate keeps any registration out while a release is between its delete and its write. */
  lemma NoSwapWhileClosing(s: Registry, c: Conn, other: Conn, d: DeviceId)
    requires Gate.Sound(s.gate) && Staged(s) && Closing(s, c) && s.device[c] == d
    ensures !Enabled(s, Swap(other, d))
  {
    assert StageFits(s.stage[c], s.gate.phases, c);
    if Enabled(s, Swap(other, d)) {
      Gate.OneInside(s.gate, c, other);
      assert false;
    }
  }

  lemma ClosingWas(s: Registry, step: Step, c: Conn)
    requires Enabled(s, step) && Closing(Next(s, step), c)
    ensures Closing(s, c) || (step.CompareAndDelete? && step.c == c && c in s.device && s.device[c] == step.device
                              && step.device in s.conns && s.conns[step.device] == c)
    ensures c in s.device && Next(s, step).device[c] == s.device[c]
  {
    match step {
      case Connect(_, _) =>
      case EnterGate(_, _) =>
      case AcquireGate(_) =>
      case Swap(_, _) =>
      case CountUp(_) =>
      case CompareAndDelete(_, _) =>
      case CountDown(_) =>
      case WriteOffline(_) =>
      case UnlockGate(_) =>
      case LeaveGate(_) =>
    }
  }

  lemma StepOfflineSafe(s: Registry, trace: seq<Step>, step: Step)
    requires Sound(s, trace) && Enabled(s, step)
    ensures OfflineSafe(Next(s, step), trace + [step])
  {
    var after := Next(s, step);
    forall c | Closing(after, c)
      ensures after.device[c] !in after.conns && Newest(trace + [step], after.device[c]) == Some(c)
    {
      ClosingWas(s, step, c);
      Appended(trace, step, s.device[c]);
      if Closing(s, c) && step.Swap? && step.device == s.device[c] {
        NoSwapWhileClosing(s, c, step.c, step.device);
      }
    }
  }

  lemma CountAfter(s: Registry, after: Registry, c: Conn)
    requires CountTrails(s) && c in after.stage && after.stage == s.stage[c := after.stage[c]]
    requires var was := if c in s.stage then s.stage[c] else Gone;
             after.count - s.count == |after.conns| - |s.conns|
               + (if was == Swapped(false) then 1 else 0) - (if after.stage[c] == Swapped(false) then 1 else 0)
               - (if was == Deleted then 1 else 0) + (if after.stage[c] == Deleted then 1 else 0)
    ensures CountTrails(after)
  {
    HavingPut(s.stage, c, after.stage[c], Swapped(false));
    HavingPut(s.stage, c, after.stage[c], Deleted);
  }

  lemma StepCount(s: Registry, step: Step)
    requires CountTrails(s) && Enabled(s, step)
    ensures CountTrails(Next(s, step))
  {
    var after := Next(s, step);
    match step {
      case AcquireGate(_) =>
      case UnlockGate(_) =>
      case Swap(c, d) =>
        PutSize(s.conns, d, c);
        CountAfter(s, after, c);
      case CompareAndDelete(c, d) =>
        DropSize(s.conns, d);
        CountAfter(s, after, c);
      case _ => CountAfter(s, after, step.c);
    }
  }

  ghost predicate Runs(trace: seq<Step>, end: Registry)
  {
    if trace == [] then end == STARTED
    else
      var last := trace[|trace| - 1];
      exists s :: Runs(trace[..|trace| - 1], s) && Enabled(s, last) && end == Next(s, last)
  }

  lemma {:induction false} EveryInterleavingIsSound(trace: seq<Step>, end: Registry)
    requires Runs(trace, end)
    ensures Sound(end, trace)
  {
    if trace != [] {
      var init, last := trace[..|trace| - 1], trace[|trace| - 1];
      assert init + [last] == trace;
      var s :| Runs(init, s) && Enabled(s, last) && end == Next(s, last);
      EveryInterleavingIsSound(init, s);
      StepGate(s, last);
      StepStaged(s, last);
      StepNewest(s, init, last);
      StepOfflineSafe(s, init, last);
      StepCount(s, last);
    }
  }

  /** In every interleaving the map holds the newest registered connection of a device unless that one was released. */
  lemma NewestConnectionWins(trace: seq<Step>, end: Registry, d: DeviceId)
    requires Runs(trace, end)
    ensures match Newest(trace, d)
            case None => d !in end.conns
            case Some(c) => if c in Released(trace) then d !in end.conns else d in end.conns && end.conns[d] == c
  {
    EveryInterleavingIsSound(trace, end);
  }

  /** An offline write happens only for the newest registered connection, with its device absent from the map. */
  lemma OfflineWritesNeverOverwriteAReconnect(trace: seq<Step>, end: Registry, c: Conn)
    requires Runs(trace, end) && Enabled(end, WriteOffline(c))
    ensures end.device[c] !in end.conns
    ensures Newest(trace, end.device[c]) == Some(c) && c in Released(trace)
  {
    EveryInterleavingIsSound(trace, end);
  }

  /** Whenever no gate is held the counter equals the number of registered devices. */
  lemma CountIsExactWhenNoGateIsHeld(trace: seq<Step>, end: Registry)
    requires Runs(trace, end)
    requires forall c :: c in end.gate.phases ==> !end.gate.phases[c].Inside?
    ensures end.count == |end.conns|
  {
    EveryInterleavingIsSound(trace, end);
    assert AtStage(end, Swapped(false)) == {};
    assert AtStage(end, Deleted) == {};
  }
}

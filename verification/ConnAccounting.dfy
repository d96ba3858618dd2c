/** What becomes of every telemetry message and every alert one agent connection takes in:
    a coalescing buffer, four write slots, and a typed drop for anything lost. */
module ConnAccounting {
  import opened Collections
  import opened Incidents

  const FLUSH_MAX_SAMPLES: nat := 512
  const CONCURRENT_WRITES: nat := 4
  const MAX_ALERT_PAYLOAD: nat := 64 * 1024 + 8 * 1024
  const MAX_BACKLOG: Time := 7 * 24 * HOUR
  const MAX_BACKFILLED_BACKLOG: Time := 365 * 24 * HOUR
  const MAX_SKEW: Time := 5 * 60 * SECOND

  type Sample = int

  // ----- admitting an alert -----

  datatype Evidence = NoEvidence | Blob(codecKnown: bool, readable: bool)

  /** The fields admission looks at; an unrecognised severity is None. Stamps are Unix seconds. */
  datatype AlertMsg = AlertMsg(
    severity: Option<Severity>, rule: RuleId, version: nat,
    windowStart: int, windowEnd: int, observed: int, backfilled: bool, evidence: Evidence)

  /** The rules this build ships, None admitting every rule, and the event rules the customer has stopped. */
  datatype Catalogue = Catalogue(ships: Option<set<RuleId>>, stopped: set<RuleId>)

  datatype Reason =
    | SeverityUnknown | IdentityIncomplete | RuleUnknown | RuleStopped | TimestampOutOfRange
    | EvidenceCodecUnknown | EvidenceUndecodable
    | TenantMissing | SlotsFull | PersistFailed
    | OrganizationUnknown | OrganizationCeiling | AlreadyStored

  predicate HasIdentity(msg: AlertMsg)
  {
    msg.rule != "" && msg.version != 0 && msg.windowStart > 0 && msg.windowEnd >= msg.windowStart
  }

  predicate StampInRange(msg: AlertMsg, stamp: int, now: Time)
  {
    var backlog := if msg.backfilled then MAX_BACKFILLED_BACKLOG else MAX_BACKLOG;
    stamp > 0 && now - backlog <= stamp * SECOND <= now + MAX_SKEW
  }

  /** The first reason to refuse an alert, if any. */
  function Refusal(msg: AlertMsg, catalogue: Catalogue, now: Time): Option<Reason>
  {
    if msg.severity.None? then Some(SeverityUnknown)
    else if !HasIdentity(msg) then Some(IdentityIncomplete)
    else if catalogue.ships.Some? && msg.rule !in catalogue.ships.value then Some(RuleUnknown)
    else if msg.rule in catalogue.stopped then Some(RuleStopped)
    else if !(StampInRange(msg, msg.windowStart, now) && StampInRange(msg, msg.windowEnd, now)
              && StampInRange(msg, msg.observed, now)) then Some(TimestampOutOfRange)
    else if msg.evidence.Blob? && !msg.evidence.codecKnown then Some(EvidenceCodecUnknown)
    else if msg.evidence.Blob? && !msg.evidence.readable then Some(EvidenceUndecodable)
    else None
  }

  /** Each refusal means its own condition failed and every earlier one held; none means all held. Stamps may lie seven
      days back, a year if backfilled, and five minutes ahead. */
  lemma RefusedExactly(msg: AlertMsg, catalogue: Catalogue, now: Time)
    ensures var refusal := Refusal(msg, catalogue, now);
            var graded := msg.severity.Some?;
            var identified := msg.rule != "" && msg.version != 0 && 0 < msg.windowStart <= msg.windowEnd;
            var shipped := catalogue.ships.Some? ==> msg.rule in catalogue.ships.value;
            var wanted := msg.rule !in catalogue.stopped;
            var oldest := now - (if msg.backfilled then 365 else 7) * 86_400 * SECOND;
            var timely := forall stamp :: stamp in {msg.windowStart, msg.windowEnd, msg.observed} ==>
                            stamp > 0 && oldest <= stamp * SECOND <= now + 300 * SECOND;
            var coded := msg.evidence.Blob? ==> msg.evidence.codecKnown;
            var readable := msg.evidence.Blob? ==> msg.evidence.readable;
            && (refusal == Some(SeverityUnknown) <==> !graded)
            && (refusal == Some(IdentityIncomplete) <==> graded && !identified)
            && (refusal == Some(RuleUnknown) <==> graded && identified && !shipped)
            && (refusal == Some(RuleStopped) <==> graded && identified && shipped && !wanted)
            && (refusal == Some(TimestampOutOfRange) <==> graded && identified && shipped && wanted && !timely)
            && (refusal == Some(EvidenceCodecUnknown) <==> graded && identified && shipped && wanted && timely && !coded)
            && (refusal == Some(EvidenceUndecodable) <==>
                graded && identified && shipped && wanted && timely && coded && !readable)
            && (refusal == None <==> graded && identified && shipped && wanted && timely && coded && readable)
  {
    assert StampInRange(msg, msg.windowStart, now) && StampInRange(msg, msg.windowEnd, now) && StampInRange(msg, msg.observed, now)
      <==> forall stamp :: stamp in {msg.windowStart, msg.windowEnd, msg.observed} ==> StampInRange(msg, stamp, now);
  }

  // ----- the ledger -----

  /** A write holding a slot: buffered samples with the messages they came from, or the n-th admitted alert. */
  datatype Job = Samples(batch: seq<Sample>, msgs: nat) | AlertWrite(alert: nat) | Inventory

  datatype Fate = StoredRow | Dropped(reason: Reason)

  /** The books of one connection: `booked`, `written` and `lost` count buffered messages, `fates` files what became of
      each admitted alert, and `taken` and `issued` are every sample buffered and every sample handed to a write. */
  datatype Ledger = Ledger(
    buf: seq<Sample>, bufMsgs: nat, inFlight: seq<Job>,
    booked: nat, written: nat, lost: nat,
    admitted: nat, fates: seq<(nat, Fate)>,
    taken: seq<Sample>, issued: seq<Sample>)

  const FRESH: Ledger := Ledger([], 0, [], 0, 0, 0, 0, [], [], [])

  /** A dropped write counts each message it carried under its reason. */
  function Lose(l: Ledger, job: Job, reason: Reason): Ledger
  {
    match job
    case Samples(_, msgs) => l.(lost := l.lost + msgs)
    case AlertWrite(alert) => l.(fates := l.fates + [(alert, Dropped(reason))])
    case Inventory => l
  }

  function Persist(l: Ledger, job: Job, tenant: bool): Ledger
  {
    if !tenant then Lose(l, job, TenantMissing)
    else if |l.inFlight| < CONCURRENT_WRITES then l.(inFlight := l.inFlight + [job])
    else Lose(l, job, SlotsFull)
  }

  /** The buffer taken off the books, on its way to one write. */
  function Emptied(l: Ledger): Ledger
  {
    l.(buf := [], bufMsgs := 0, issued := l.issued + l.buf)
  }

  function Flush(l: Ledger, tenant: bool): Ledger
  {
    if l.buf == [] then l
    else Persist(Emptied(l), Samples(l.buf, l.bufMsgs), tenant)
  }

  function Booked(l: Ledger, samples: seq<Sample>): Ledger
  {
    l.(buf := l.buf + samples, bufMsgs := l.bufMsgs + 1, booked := l.booked + 1, taken := l.taken + samples)
  }

  function Buffer(l: Ledger, samples: seq<Sample>, tenant: bool): Ledger
  {
    if samples == [] then l else
      var filled := Booked(l, samples);
      if |filled.buf| >= FLUSH_MAX_SAMPLES then Flush(filled, tenant) else filled
  }

  /** An oversized alert is dropped before it is admitted. */
  function TakeAlert(l: Ledger, msg: AlertMsg, size: nat, catalogue: Catalogue, now: Time, tenant: bool): Ledger
  {
    if size > MAX_ALERT_PAYLOAD then l else
      var taken := l.(admitted := l.admitted + 1);
      match Refusal(msg, catalogue, now)
      case Some(reason) => Lose(taken, AlertWrite(l.admitted), reason)
      case None => Persist(taken, AlertWrite(l.admitted), tenant)
  }

  /** How a write came back. */
  datatype Result = Wrote | Failed | NoCustomer | Recorded(outcome: Outcome)

  predicate Fits(job: Job, result: Result)
  {
    result.Failed? || (if job.AlertWrite? then !result.Wrote? else result.Wrote?)
  }

  function FateOf(result: Result): Fate
  {
    match result
    case Wrote => StoredRow
    case Failed => Dropped(PersistFailed)
    case NoCustomer => Dropped(OrganizationUnknown)
    case Recorded(Stored) => StoredRow
    case Recorded(Duplicate) => Dropped(AlreadyStored)
    case Recorded(CeilingSuppressed) => Dropped(OrganizationCeiling)
  }

  /** Some write in flight finishes and gives back its slot; writes finish in any order. */
  function Complete(l: Ledger, i: nat, result: Result): Ledger
    requires i < |l.inFlight|
  {
    var freed := l.(inFlight := l.inFlight[..i] + l.inFlight[i + 1..]);
    match l.inFlight[i]
    case Samples(_, msgs) => if result.Failed? then freed.(lost := l.lost + msgs) else freed.(written := l.written + msgs)
    case AlertWrite(alert) => freed.(fates := l.fates + [(alert, FateOf(result))])
    case Inventory => freed
  }

  // ----- conservation -----

  datatype Weight = Messages | Alert(alert: nat)

  function Weigh(w: Weight, job: Job): nat
  {
    match w
    case Messages => if job.Samples? then job.msgs else 0
    case Alert(alert) => if job == AlertWrite(alert) then 1 else 0
  }

  function Sum(w: Weight, jobs: seq<Job>): nat
  {
    if jobs == [] then 0 else Weigh(w, jobs[0]) + Sum(w, jobs[1..])
  }

  lemma {:induction false} SumConcat(w: Weight, a: seq<Job>, b: seq<Job>)
    ensures Sum(w, a + b) == Sum(w, a) + Sum(w, b)
  {
    if a == [] {
      assert a + b == b;
    } else {
      assert (a + b)[1..] == a[1..] + b;
      SumConcat(w, a[1..], b);
    }
  }

  lemma SumAppend(w: Weight, jobs: seq<Job>, job: Job)
    ensures Sum(w, jobs + [job]) == Sum(w, jobs) + Weigh(w, job)
  {
    SumConcat(w, jobs, [job]);
    assert Sum(w, [job]) == Weigh(w, job) + Sum(w, [job][1..]);
  }

  lemma SumRemove(w: Weight, jobs: seq<Job>, i: nat)
    requires i < |jobs|
    ensures Sum(w, jobs[..i] + jobs[i + 1..]) == Sum(w, jobs) - Weigh(w, jobs[i])
  {
    assert jobs == jobs[..i] + [jobs[i]] + jobs[i + 1..];
    SumConcat(w, jobs[..i] + [jobs[i]], jobs[i + 1..]);
    SumAppend(w, jobs[..i], jobs[i]);
    SumConcat(w, jobs[..i], jobs[i + 1..]);
  }

  /** How often an alert's fate has been filed. */
  function Filed(fates: seq<(nat, Fate)>, alert: nat): nat
  {
    if fates == [] then 0 else Filed(fates[..|fates| - 1], alert) + if fates[|fates| - 1].0 == alert then 1 else 0
  }

  lemma FiledAppend(fates: seq<(nat, Fate)>, line: (nat, Fate), alert: nat)
    ensures Filed(fates + [line], alert) == Filed(fates, alert) + if line.0 == alert then 1 else 0
  {
    assert (fates + [line])[..|fates|] == fates;
  }

  /** An admitted alert is in flight or has one fate filed, never both; one not admitted yet is neither. */
  predicate Fated(l: Ledger, alert: nat)
  {
    Filed(l.fates, alert) + Sum(Alert(alert), l.inFlight) == if alert < l.admitted then 1 else 0
  }

  /** As Fated, with `job` taken from the books and not yet handed on. */
  predicate FatedBut(l: Ledger, job: Job, alert: nat)
  {
    Filed(l.fates, alert) + Sum(Alert(alert), l.inFlight) + Weigh(Alert(alert), job) == if alert < l.admitted then 1 else 0
  }

  /** Nothing is lost uncounted and nothing is counted twice. */
  ghost predicate Balanced(l: Ledger)
  {
    && l.booked == l.bufMsgs + Sum(Messages, l.inFlight) + l.written + l.lost
    && |l.inFlight| <= CONCURRENT_WRITES
    && (l.buf == [] <==> l.bufMsgs == 0)
    && l.taken == l.issued + l.buf
    && (forall a: nat :: Fated(l, a))
  }

  /** As Balanced, with one job taken from the books and not yet handed on. */
  ghost predicate BalancedBut(l: Ledger, job: Job)
  {
    && l.booked == l.bufMsgs + Sum(Messages, l.inFlight) + l.written + l.lost + Weigh(Messages, job)
    && |l.inFlight| <= CONCURRENT_WRITES
    && (l.buf == [] <==> l.bufMsgs == 0)
    && l.taken == l.issued + l.buf
    && (forall a: nat :: FatedBut(l, job, a))
  }

  lemma LoseBalances(l: Ledger, job: Job, reason: Reason)
    requires BalancedBut(l, job)
    ensures Balanced(Lose(l, job, reason))
  {
    var after := Lose(l, job, reason);
    forall a: nat
      ensures Fated(after, a)
    {
      if job.AlertWrite? {
        FiledAppend(l.fates, (job.alert, Dropped(reason)), a);
      }
      assert FatedBut(l, job, a);
    }
  }

  lemma PersistBalances(l: Ledger, job: Job, tenant: bool)
    requires BalancedBut(l, job)
    ensures Balanced(Persist(l, job, tenant))
  {
    var after := Persist(l, job, tenant);
    if tenant && |l.inFlight| < CONCURRENT_WRITES {
      SumAppend(Messages, l.inFlight, job);
      forall a: nat
        ensures Fated(after, a)
      {
        SumAppend(Alert(a), l.inFlight, job);
        assert FatedBut(l, job, a);
      }
    } else {
      LoseBalances(l, job, if tenant then SlotsFull else TenantMissing);
    }
  }

  lemma EmptiedBalances(l: Ledger)
    requires Balanced(l)
    ensures BalancedBut(Emptied(l), Samples(l.buf, l.bufMsgs))
  {
    forall a: nat
      ensures FatedBut(Emptied(l), Samples(l.buf, l.bufMsgs), a)
    {
      assert Fated(l, a);
    }
  }

  lemma AdmittedBalances(l: Ledger)
    requires Balanced(l)
    ensures BalancedBut(l.(admitted := l.admitted + 1), AlertWrite(l.admitted))
  {
    var taken, job := l.(admitted := l.admitted + 1), AlertWrite(l.admitted);
    forall a: nat
      ensures FatedBut(taken, job, a)
    {
      assert Fated(l, a);
    }
  }

  lemma FlushBalances(l: Ledger, tenant: bool)
    requires Balanced(l)
    ensures Balanced(Flush(l, tenant))
    ensures Flush(l, tenant).buf == []
  {
    if l.buf != [] {
      EmptiedBalances(l);
      PersistBalances(Emptied(l), Samples(l.buf, l.bufMsgs), tenant);
    }
  }

  lemma TakeAlertBalances(l: Ledger, msg: AlertMsg, size: nat, catalogue: Catalogue, now: Time, tenant: bool)
    requires Balanced(l)
    ensures Balanced(TakeAlert(l, msg, size, catalogue, now, tenant))
  {
    if size <= MAX_ALERT_PAYLOAD {
      var taken := l.(admitted := l.admitted + 1);
      var job := AlertWrite(l.admitted);
      AdmittedBalances(l);
      match Refusal(msg, catalogue, now) {
        case Some(reason) => LoseBalances(taken, job, reason);
        case None => PersistBalances(taken, job, tenant);
      }
    }
  }

  lemma CompleteFates(l: Ledger, i: nat, result: Result, a: nat)
    requires i < |l.inFlight| && Fated(l, a)
    ensures Fated(Complete(l, i, result), a)
  {
    var job := l.inFlight[i];
    SumRemove(Alert(a), l.inFlight, i);
    if job.AlertWrite? {
      FiledAppend(l.fates, (job.alert, FateOf(result)), a);
    }
  }

  lemma CompleteBalances(l: Ledger, i: nat, result: Result)
    requires Balanced(l) && i < |l.inFlight|
    ensures Balanced(Complete(l, i, result))
  {
    var after := Complete(l, i, result);
    SumRemove(Messages, l.inFlight, i);
    forall a: nat
      ensures Fated(after, a)
    {
      CompleteFates(l, i, result, a);
    }
  }

  // ----- runs -----

  /** The read loop's events, interleaved with completions of its writes in any order. */
  datatype Event =
    | Telemetry(samples: seq<Sample>, tenant: bool)
    | Heartbeat(tenant: bool)
    | AgentAlert(msg: AlertMsg, size: nat, catalogue: Catalogue, now: Time, tenant: bool)
    | Discovery(tenant: bool)
    | Completion(i: nat, result: Result)

  predicate Possible(l: Ledger, e: Event)
  {
    e.Completion? ==> e.i < |l.inFlight| && Fits(l.inFlight[e.i], e.result)
  }

  function Next(l: Ledger, e: Event): Ledger
    requires Possible(l, e)
  {
    match e
    case Telemetry(samples, tenant) => Buffer(l, samples, tenant)
    case Heartbeat(tenant) => Flush(l, tenant)
    case AgentAlert(msg, size, catalogue, now, tenant) => TakeAlert(l, msg, size, catalogue, now, tenant)
    case Discovery(tenant) => Persist(l, Inventory, tenant)
    case Completion(i, result) => Complete(l, i, result)
  }

  ghost predicate Runs(l: Ledger, events: seq<Event>, end: Ledger)
    decreases |events|
  {
    if events == [] then end == l
    else Possible(l, events[0]) && Runs(Next(l, events[0]), events[1..], end)
  }

  lemma StepBalances(l: Ledger, e: Event)
    requires Balanced(l) && Possible(l, e)
    ensures Balanced(Next(l, e))
  {
    match e {
      case Telemetry(samples, tenant) =>
        if samples != [] {
          BookedBalances(l, samples);
          FlushBalances(Booked(l, samples), tenant);
        }
      case Heartbeat(tenant) => FlushBalances(l, tenant);
      case AgentAlert(msg, size, catalogue, now, tenant) => TakeAlertBalances(l, msg, size, catalogue, now, tenant);
      case Discovery(tenant) =>
        forall a: nat
          ensures FatedBut(l, Inventory, a)
        {
          assert Fated(l, a);
        }
        PersistBalances(l, Inventory, tenant);
      case Completion(i, result) => CompleteBalances(l, i, result);
    }
  }

  lemma {:induction false} RunBalances(l: Ledger, events: seq<Event>, end: Ledger)
    requires Balanced(l) && Runs(l, events, end)
    ensures Balanced(end)
    decreases |events|
  {
    if events != [] {
      StepBalances(l, events[0]);
      RunBalances(Next(l, events[0]), events[1..], end);
    }
  }

  /** At every moment: messages booked are buffered, in flight, written or dropped; at most four writes are
      in flight; samples go to writes in the order they came; and each admitted alert is in flight or has exactly one fate filed. */
  lemma EverythingIsAccountedFor(events: seq<Event>, end: Ledger)
    requires Runs(FRESH, events, end)
    ensures end.booked == end.bufMsgs + Sum(Messages, end.inFlight) + end.written + end.lost
    ensures |end.inFlight| <= 4
    ensures end.taken == end.issued + end.buf
    ensures forall a: nat :: Fated(end, a)
  {
    assert Balanced(end) by {
      FreshBalances();
      RunBalances(FRESH, events, end);
    }
  }

  lemma FreshBalances()
    ensures Balanced(FRESH)
  {
    forall a: nat
      ensures Fated(FRESH, a)
    {
      assert Sum(Alert(a), []) == 0 && Filed([], a) == 0;
    }
  }

  /** Once nothing is in flight every admitted alert has become one stored row or one typed drop. */
  lemma EveryAlertMeetsOneFate(events: seq<Event>, end: Ledger, alert: nat)
    requires Runs(FRESH, events, end) && end.inFlight == [] && alert < end.admitted
    ensures exists i :: 0 <= i < |end.fates| && end.fates[i].0 == alert
    ensures forall i, j :: 0 <= i < j < |end.fates| && end.fates[i].0 == alert ==> end.fates[j].0 != alert
  {
    EverythingIsAccountedFor(events, end);
    assert Fated(end, alert);
    FiledOnce(end.fates, alert);
  }

  lemma {:induction false} FiledOnce(fates: seq<(nat, Fate)>, alert: nat)
    ensures Filed(fates, alert) == 0 ==> forall i :: 0 <= i < |fates| ==> fates[i].0 != alert
    ensures Filed(fates, alert) == 1 ==>
              && (exists i :: 0 <= i < |fates| && fates[i].0 == alert)
              && (forall i, j :: 0 <= i < j < |fates| && fates[i].0 == alert ==> fates[j].0 != alert)
  {
    if fates != [] {
      var init, last := fates[..|fates| - 1], fates[|fates| - 1];
      FiledOnce(init, alert);
      assert forall i :: 0 <= i < |init| ==> init[i] == fates[i];
      if last.0 == alert {
        assert fates[|fates| - 1].0 == alert;
      } else if Filed(fates, alert) == 1 {
        var i :| 0 <= i < |init| && init[i].0 == alert;
        assert fates[i].0 == alert;
      }
    }
  }

  // ----- what the store answered -----

  function FiledAs(fates: seq<(nat, Fate)>, fate: Fate): nat
  {
    if fates == [] then 0 else FiledAs(fates[..|fates| - 1], fate) + if fates[|fates| - 1].1 == fate then 1 else 0
  }

  lemma FiledAsAppend(fates: seq<(nat, Fate)>, line: (nat, Fate), fate: Fate)
    ensures FiledAs(fates + [line], fate) == FiledAs(fates, fate) + if line.1 == fate then 1 else 0
  {
    assert (fates + [line])[..|fates|] == fates;
  }

  /** How often a write came back with an answer. */
  function Answers(events: seq<Event>, result: Result): nat
  {
    if events == [] then 0
    else (if events[0].Completion? && events[0].result == result then 1 else 0) + Answers(events[1..], result)
  }

  /** The fate each answer of the alert store stands for. */
  predicate StandsFor(fate: Fate, result: Result)
  {
    || (fate == StoredRow && result == Recorded(Stored))
    || (fate == Dropped(AlreadyStored) && result == Recorded(Duplicate))
    || (fate == Dropped(OrganizationCeiling) && result == Recorded(CeilingSuppressed))
    || (fate == Dropped(OrganizationUnknown) && result == NoCustomer)
  }

  /** Nothing filed before a write is out is an answer of the store. */
  lemma AdmissionFilesNoAnswer(l: Ledger, msg: AlertMsg, size: nat, catalogue: Catalogue, now: Time, tenant: bool, fate: Fate)
    requires fate in {StoredRow, Dropped(AlreadyStored), Dropped(OrganizationCeiling), Dropped(OrganizationUnknown)}
    ensures FiledAs(TakeAlert(l, msg, size, catalogue, now, tenant).fates, fate) == FiledAs(l.fates, fate)
  {
    var refusal := Refusal(msg, catalogue, now);
    FiledAsAppend(l.fates, (l.admitted, Dropped(if refusal.Some? then refusal.value else if tenant then SlotsFull else TenantMissing)), fate);
  }

  lemma CompletionFilesItsAnswer(l: Ledger, i: nat, answer: Result, fate: Fate, result: Result)
    requires i < |l.inFlight| && Fits(l.inFlight[i], answer) && StandsFor(fate, result)
    ensures FiledAs(Complete(l, i, answer).fates, fate) == FiledAs(l.fates, fate) + if answer == result then 1 else 0
  {
    if l.inFlight[i].AlertWrite? {
      FiledAsAppend(l.fates, (l.inFlight[i].alert, FateOf(answer)), fate);
    }
  }

  lemma StepFilesAnswers(l: Ledger, e: Event, fate: Fate, result: Result)
    requires Possible(l, e) && StandsFor(fate, result)
    ensures FiledAs(Next(l, e).fates, fate) == FiledAs(l.fates, fate) + if e.Completion? && e.result == result then 1 else 0
  {
    match e {
      case Telemetry(samples, tenant) => assert Buffer(l, samples, tenant).fates == l.fates;
      case Heartbeat(tenant) => assert Flush(l, tenant).fates == l.fates;
      case Discovery(tenant) => assert Persist(l, Inventory, tenant).fates == l.fates;
      case AgentAlert(msg, size, catalogue, now, tenant) =>
        AdmissionFilesNoAnswer(l, msg, size, catalogue, now, tenant, fate);
      case Completion(i, answer) => CompletionFilesItsAnswer(l, i, answer, fate, result);
    }
  }

  /** Stored rows and the three typed drops the store decides are exactly its answers, one for one. */
  lemma {:induction false} FatesAreTheAnswers(l: Ledger, events: seq<Event>, end: Ledger, fate: Fate, result: Result)
    requires Runs(l, events, end) && StandsFor(fate, result)
    ensures FiledAs(end.fates, fate) == FiledAs(l.fates, fate) + Answers(events, result)
    decreases |events|
  {
    if events != [] {
      StepFilesAnswers(l, events[0], fate, result);
      FatesAreTheAnswers(Next(l, events[0]), events[1..], end, fate, result);
    }
  }

  /** Messages whose write came back written. */
  function Delivered(l: Ledger, events: seq<Event>): nat
    decreases |events|
  {
    if events == [] || !Possible(l, events[0]) then 0
    else (if events[0].Completion? && events[0].result.Wrote? then Weigh(Messages, l.inFlight[events[0].i]) else 0)
         + Delivered(Next(l, events[0]), events[1..])
  }

  /** The written count is exactly the messages of writes that came back written; with the books balanced, the rest
      are buffered, in flight or lost. */
  lemma {:induction false} WrittenIsDelivered(l: Ledger, events: seq<Event>, end: Ledger)
    requires Runs(l, events, end)
    ensures end.written == l.written + Delivered(l, events)
    decreases |events|
  {
    if events != [] {
      WrittenIsDelivered(Next(l, events[0]), events[1..], end);
    }
  }

  // ----- the connection as it runs -----

  class AgentConn {
    var telemetryBuf: seq<Sample>
    var telemetryBufMsgs: nat
    var slots: seq<Job>
    var ingested: nat
    var written: nat
    var lost: nat
    var admitted: nat
    var fates: seq<(nat, Fate)>
    ghost var taken: seq<Sample>
    ghost var issued: seq<Sample>

    ghost function Now(): Ledger
      reads this
    {
      Ledger(telemetryBuf, telemetryBufMsgs, slots, ingested, written, lost, admitted, fates, taken, issued)
    }

    ghost predicate Valid()
      reads this
    {
      Balanced(Now())
    }

    constructor ()
      ensures Valid() && Now() == FRESH
    {
      telemetryBuf, telemetryBufMsgs, slots := [], 0, [];
      ingested, written, lost, admitted, fates := 0, 0, 0, 0, [];
      taken, issued := [], [];
      new;
      assert Now() == FRESH;
      FreshBalances();
    }

    method Drop(job: Job, reason: Reason)
      modifies this
      ensures Now() == Lose(old(Now()), job, reason)
    {
      match job {
        case Samples(_, msgs) => lost := lost + msgs;
        case AlertWrite(alert) => fates := fates + [(alert, Dropped(reason))];
        case Inventory =>
      }
    }

    /** The job has left the books; handing it to a slot or dropping it balances them again. */
    method PersistTelemetry(job: Job, tenant: bool)
      requires BalancedBut(Now(), job)
      modifies this
      ensures tenant && |old(slots)| < 4 <==> slots == old(slots) + [job]
      ensures Valid() && Now() == Persist(old(Now()), job, tenant)
      ensures job.Samples? ==> Sum(Messages, slots) + lost == old(Sum(Messages, slots)) + old(lost) + job.msgs
    {
      PersistBalances(Now(), job, tenant);
      SumAppend(Messages, slots, job);
      if !tenant {
        Drop(job, TenantMissing);
      } else if |slots| < CONCURRENT_WRITES {
        slots := slots + [job];
      } else {
        Drop(job, SlotsFull);
      }
    }

    method FlushTelemetry(tenant: bool)
      requires Valid()
      modifies this
      ensures Valid() && Now() == Flush(old(Now()), tenant)
      ensures telemetryBuf == []
    {
      FlushBalances(Now(), tenant);
      EmptiedBalances(Now());
      if telemetryBuf == [] {
        return;
      }
      var batch, msgs := telemetryBuf, telemetryBufMsgs;
      telemetryBuf, telemetryBufMsgs := [], 0;
      issued := issued + batch;
      PersistTelemetry(Samples(batch, msgs), tenant);
    }

    method BufferTelemetry(samples: seq<Sample>, tenant: bool)
      requires Valid() && |telemetryBuf| < FLUSH_MAX_SAMPLES
      modifies this
      ensures Valid() && Now() == Buffer(old(Now()), samples, tenant)
      ensures |telemetryBuf| < 512
      ensures samples != [] && |old(telemetryBuf)| + |samples| < 512 ==> telemetryBuf == old(telemetryBuf) + samples
      ensures |old(telemetryBuf)| + |samples| >= 512 ==> telemetryBuf == []
    {
      StepBalances(Now(), Telemetry(samples, tenant));
      if samples == [] {
        return;
      }
      ghost var before := Now();
      telemetryBuf := telemetryBuf + samples;
      telemetryBufMsgs, ingested := telemetryBufMsgs + 1, ingested + 1;
      taken := taken + samples;
      BookedBalances(before, samples);
      if |telemetryBuf| >= FLUSH_MAX_SAMPLES {
        FlushTelemetry(tenant);
      }
    }

    method HandleAgentAlert(msg: AlertMsg, size: nat, catalogue: Catalogue, now: Time, tenant: bool)
      requires Valid()
      modifies this
      ensures Valid() && Now() == TakeAlert(old(Now()), msg, size, catalogue, now, tenant)
      ensures admitted == old(admitted) + if size <= 73_728 then 1 else 0
    {
      TakeAlertBalances(Now(), msg, size, catalogue, now, tenant);
      AdmittedBalances(Now());
      if size > MAX_ALERT_PAYLOAD {
        return;
      }
      var alert := admitted;
      admitted := admitted + 1;
      var refusal := Refusal(msg, catalogue, now);
      if refusal.Some? {
        Drop(AlertWrite(alert), refusal.value);
      } else {
        PersistTelemetry(AlertWrite(alert), tenant);
      }
    }

    /** A slot's goroutine returns: its result is counted and the slot given back. */
    method FinishWrite(i: nat, result: Result)
      requires Valid() && i < |slots| && Fits(slots[i], result)
      modifies this
      ensures Valid() && Now() == Complete(old(Now()), i, result)
      ensures written + lost == old(written) + old(lost) + Weigh(Messages, old(slots)[i])
      ensures result.Failed? ==> written == old(written)
      ensures !result.Failed? ==> lost == old(lost)
      ensures |slots| == |old(slots)| - 1
      ensures old(slots)[i].AlertWrite? ==>
                && |fates| == |old(fates)| + 1 && fates[|old(fates)|].0 == old(slots)[i].alert
                && var fate := fates[|old(fates)|].1;
                   && (fate == StoredRow <==> result == Recorded(Stored))
                   && (fate == Dropped(AlreadyStored) <==> result == Recorded(Duplicate))
                   && (fate == Dropped(OrganizationCeiling) <==> result == Recorded(CeilingSuppressed))
                   && (fate == Dropped(OrganizationUnknown) <==> result == NoCustomer)
                   && (fate == Dropped(PersistFailed) <==> result == Failed)
    {
      CompleteBalances(Now(), i, result);
      var job := slots[i];
      slots := slots[..i] + slots[i + 1..];
      match job {
        case Samples(_, msgs) => if result.Failed? { lost := lost + msgs; } else { written := written + msgs; }
        case AlertWrite(alert) => fates := fates + [(alert, FateOf(result))];
        case Inventory =>
      }
    }
  }

  lemma BookedBalances(l: Ledger, samples: seq<Sample>)
    requires Balanced(l) && samples != []
    ensures Balanced(Booked(l, samples))
  {
    var filled := Booked(l, samples);
    forall a: nat
      ensures Fated(filled, a)
    {
      assert Fated(l, a);
    }
  }
}

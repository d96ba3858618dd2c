/** Vocabulary of alerts and incident rooms: grouping windows, the status lifecycle and room history. */
module Incidents {
  import opened Collections

  type Uuid = nat
  const NIL: Uuid := 0

  /** Microseconds, the precision every stored instant is truncated to. */
  type Time = int
  const SECOND: Time := 1_000_000
  const HOUR: Time := 3600 * SECOND

  /** Successive readings of a clock never go back, from `clock` on. */
  predicate ClockRuns<T>(clock: Time, ops: seq<T>, at: T -> Time)
  {
    (|ops| > 0 ==> clock <= at(ops[0])) && forall i :: 0 <= i < |ops| - 1 ==> at(ops[i]) <= at(ops[i + 1])
  }

  predicate Forward<T>(ops: seq<T>, at: T -> Time)
  {
    |ops| > 0 ==> ClockRuns(at(ops[0]), ops, at)
  }

  type RuleId = string
  /** The rule id of storm rooms, under which alerts past the budget are counted. */
  const STORM_RULE_ID: RuleId := "alert-storm"
  const STORM_HOLD: Time := HOUR

  datatype Severity = Info | Warning | Critical
  const STORM_SEVERITY: Severity := Warning

  datatype Scope = Device | Site | Organization

  datatype Status = New | Acknowledged | Investigating | Resolved

  datatype CauseCode =
    | ResolvedSelf | FixedByTech | HardwareFault | ExpectedLoad
    | FalsePositive | SameAsAnother | WontFix

  datatype Outcome = Stored | Duplicate | CeilingSuppressed

  datatype GroupingKey = GroupingKey(organization: Uuid, rule: RuleId, scope: Scope, scopeKey: Uuid)

  /** A rule's grouping; an unrecognised scope is None. */
  datatype Grouping = Grouping(scope: Option<Scope>, window: Time) {
    predicate Usable() { scope.Some? && window > 0 }

    predicate Spans(firstSeen: Time, lastSeen: Time, at: Time) {
      at <= lastSeen + window && at >= firstSeen - window
    }

    predicate Lapsed(lastSeen: Time, at: Time) { at > lastSeen + window }
  }

  // ----- moves a person makes -----

  datatype GivenCause = NoCause | Known(code: CauseCode) | Unknown

  /** A requested move; an unrecognised status is None. */
  datatype Change = Change(to: Option<Status>, cause: GivenCause, actor: Uuid)

  datatype ChangeError =
    | UnknownStatus | UnknownCause | IllegalTransition | CauseRequired | CauseNotAllowed
    | IncidentNotFound | KeyAlreadyOpen | CommentUnusable

  function NextStatuses(from: Status): seq<Status>
  {
    match from
    case New => [Acknowledged, Investigating, Resolved]
    case Acknowledged => [New, Investigating, Resolved]
    case Investigating => [New, Acknowledged, Resolved]
    case Resolved => []
  }

  function Check(change: Change, from: Status): Option<ChangeError>
  {
    if change.to.None? then Some(UnknownStatus)
    else if change.cause.Unknown? then Some(UnknownCause)
    else if change.to.value !in NextStatuses(from) then Some(IllegalTransition)
    else if change.to.value == Resolved && change.cause.NoCause? then Some(CauseRequired)
    else if change.to.value != Resolved && !change.cause.NoCause? then Some(CauseNotAllowed)
    else None
  }

  lemma NextStatusesAreTheOthers(from: Status, to: Status)
    ensures to in NextStatuses(from) <==> from != Resolved && to != from
  {
    match from
    case New => assert NextStatuses(from)[0] == Acknowledged && NextStatuses(from)[1] == Investigating && NextStatuses(from)[2] == Resolved;
    case Acknowledged => assert NextStatuses(from)[0] == New && NextStatuses(from)[1] == Investigating && NextStatuses(from)[2] == Resolved;
    case Investigating => assert NextStatuses(from)[0] == New && NextStatuses(from)[1] == Acknowledged && NextStatuses(from)[2] == Resolved;
    case Resolved =>
  }

  /** A move is accepted exactly when it leaves an open room for another status and answers why iff it ends it. */
  lemma CheckAccepts(change: Change, from: Status)
    ensures Check(change, from).None? <==>
            && from != Resolved
            && change.to.Some? && change.to.value != from
            && (change.to.value == Resolved ==> change.cause.Known?)
            && (change.to.value != Resolved ==> change.cause.NoCause?)
  {
    if change.to.Some? {
      NextStatusesAreTheOthers(from, change.to.value);
    }
  }

  /** Which refusal a move gets: an unrecognised word first, then the move itself, then its cause. */
  lemma CheckAnswers(change: Change, from: Status)
    ensures Check(change, from) == Some(UnknownStatus) <==> change.to.None?
    ensures Check(change, from) == Some(UnknownCause) <==> change.to.Some? && change.cause.Unknown?
    ensures Check(change, from) == Some(IllegalTransition) <==>
            change.to.Some? && !change.cause.Unknown? && (from == Resolved || change.to.value == from)
    ensures Check(change, from) == Some(CauseRequired) <==>
            change.to == Some(Resolved) && from != Resolved && change.cause.NoCause?
    ensures Check(change, from) == Some(CauseNotAllowed) <==>
            change.to.Some? && change.to.value != Resolved && from != Resolved && change.to.value != from && change.cause.Known?
  {
    if change.to.Some? {
      NextStatusesAreTheOthers(from, change.to.value);
    }
  }

  // ----- a room's history -----

  datatype CloseReason = NoAlertWithinWindow | LastDeviceErased

  /** Who ended a room: a person with a cause code, or the system with a reason and no cause. */
  datatype Closing = ByPerson(from: Status, code: CauseCode) | BySystem(reason: CloseReason)

  datatype Event =
    | StatusChange(at: Time, actor: Uuid, from: Status, to: Status, reopened: bool)
    | Resolution(at: Time, actor: Uuid, closing: Closing)
    | Assignment(at: Time, actor: Uuid, assignee: Uuid)
    | Comment(at: Time, actor: Uuid, body: string)

  /** The columns a room's history accounts for. */
  datatype Standing = Standing(status: Status, resolvedAt: Option<Time>, cause: Option<CauseCode>, assignee: Uuid)

  const OPENED: Standing := Standing(New, None, None, NIL)

  function After(standing: Standing, line: Event): Standing
  {
    match line
    case StatusChange(_, _, _, to, _) => Standing(to, None, None, standing.assignee)
    case Resolution(at, _, closing) =>
      Standing(Resolved, Some(at), if closing.ByPerson? then Some(closing.code) else None, standing.assignee)
    case Assignment(_, _, assignee) => standing.(assignee := assignee)
    case Comment(_, _, _) => standing
  }

  /** Reads a history in append order, from a freshly opened room. */
  function Replay(history: seq<Event>): Standing
  {
    if history == [] then OPENED
    else After(Replay(history[..|history| - 1]), history[|history| - 1])
  }

  /** The lines each standing admits: only an open room resolves, only a resolved one reopens. */
  predicate LegalLine(standing: Standing, line: Event)
  {
    match line
    case StatusChange(_, _, from, to, reopened) =>
      && from == standing.status && to != Resolved
      && (if reopened then from == Resolved && to == Investigating else from != Resolved && to != from)
    case Resolution(_, _, closing) =>
      standing.status != Resolved && (closing.ByPerson? ==> closing.from == standing.status)
    case Assignment(_, _, _) => true
    case Comment(_, _, _) => true
  }

  predicate LegalHistory(history: seq<Event>)
  {
    history == [] ||
    (LegalHistory(history[..|history| - 1])
     && LegalLine(Replay(history[..|history| - 1]), history[|history| - 1]))
  }

  function Resolutions(history: seq<Event>): nat
  {
    if history == [] then 0
    else Resolutions(history[..|history| - 1]) + if history[|history| - 1].Resolution? then 1 else 0
  }

  function Reopenings(history: seq<Event>): nat
  {
    if history == [] then 0
    else Reopenings(history[..|history| - 1])
         + if history[|history| - 1].StatusChange? && history[|history| - 1].reopened then 1 else 0
  }

  lemma AppendLine(history: seq<Event>, line: Event)
    ensures Replay(history + [line]) == After(Replay(history), line)
    ensures LegalHistory(history + [line]) <==> LegalHistory(history) && LegalLine(Replay(history), line)
  {
    assert (history + [line])[..|history|] == history;
  }

  /** What a legal history says about the room it belongs to. */
  lemma {:induction false} LegalHistoryBalances(history: seq<Event>)
    requires LegalHistory(history)
    ensures Resolutions(history) - Reopenings(history) == if Replay(history).status == Resolved then 1 else 0
    ensures Replay(history).resolvedAt.Some? <==> Replay(history).status == Resolved
    ensures Replay(history).cause.Some? ==> Replay(history).status == Resolved
  {
    if history != [] {
      LegalHistoryBalances(history[..|history| - 1]);
    }
  }
}

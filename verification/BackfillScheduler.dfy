/** Admission of reconnect backfills: capped, rate-budgeted grants that are reaped lazily and counted per tenant. */
module BackfillScheduler {
  import opened Collections
  import opened Incidents

  const MIN_RETRY_AFTER: Time := SECOND

  datatype Config = Config(
    maxConcurrent: int, perTenantMax: int, baseBudget: int,
    minGrantRate: nat, maxGrantRate: nat, grantTtl: Time, deferBackoff: Time)
  {
    function Slots(): int { if maxConcurrent > 1 then maxConcurrent else 1 }

    /** The per-slot share fits the 32-bit rate it is converted to. */
    predicate Usable() { 0 <= baseBudget < 0x1_0000_0000 * Slots() }
  }

  datatype Grant = Grant(tenant: Uuid, deadline: Time)

  datatype Decision = Granted(rate: nat, deadline: Time) | Deferred(retryAfter: int)

  /** What admission depends on. The running scheduler also caches a count per tenant. */
  datatype Book = Book(grants: map<Uuid, Grant>, firstReq: map<Uuid, Time>)

  const EMPTY: Book := Book(map[], map[])

  // ----- the simple scheduler: scan everything, every time -----

  function Unexpired(grants: map<Uuid, Grant>, now: Time): map<Uuid, Grant>
  {
    map a | a in grants && grants[a].deadline > now :: grants[a]
  }

  function HeldBy(grants: map<Uuid, Grant>, tenant: Uuid): set<Uuid>
  {
    set a | a in grants && grants[a].tenant == tenant
  }

  /** One slot's share of the budget at headroom `h`, rounded down. */
  function PerSlot(base: int, h: real, slots: int): int
    requires slots > 0
  {
    (Times(h, base as real) / slots as real).Floor
  }

  function Rate(cfg: Config, headroom: real): nat
    requires cfg.Usable()
  {
    var per := PerSlot(cfg.baseBudget, Clamped(headroom), cfg.Slots());
    var floored := if per > cfg.minGrantRate then per else cfg.minGrantRate;
    if floored < cfg.maxGrantRate then floored else cfg.maxGrantRate
  }

  function Clamped(headroom: real): real
  {
    if headroom < 0.0 then 0.0 else if headroom > 1.0 then 1.0 else headroom
  }

  /** A grant's rate: the whole samples of a slot's share of what the headroom leaves, between the configured bounds. */
  predicate RateFits(cfg: Config, headroom: real, r: int)
  {
    var budget := Times(Clamped(headroom), cfg.baseBudget as real);
    var slots := (if cfg.maxConcurrent > 1 then cfg.maxConcurrent else 1) as real;
    && r <= cfg.maxGrantRate && (r >= cfg.minGrantRate || r == cfg.maxGrantRate)
    && (cfg.minGrantRate < r < cfg.maxGrantRate ==> Times(r as real, slots) <= budget < Times((r + 1) as real, slots))
    && (r == cfg.minGrantRate < cfg.maxGrantRate ==> budget < Times((r + 1) as real, slots))
    && (r == cfg.maxGrantRate > cfg.minGrantRate ==> Times(r as real, slots) <= budget)
  }

  function UnixSeconds(t: Time): Time { t / SECOND }

  function RetryAfter(cfg: Config, waited: Time): int
  {
    var left := cfg.deferBackoff - waited;
    var retry := if left > MIN_RETRY_AFTER then left else MIN_RETRY_AFTER;
    (retry + SECOND - 1) / SECOND
  }

  datatype Request = Request(agent: Uuid, tenant: Uuid, now: Time, headroom: real)

  function Admits(cfg: Config, live: map<Uuid, Grant>, q: Request): bool
  {
    q.agent in live || (|live| < cfg.maxConcurrent && |HeldBy(live, q.tenant)| < cfg.perTenantMax)
  }

  function Deadline(cfg: Config, now: Time): Time { now + cfg.grantTtl }

  /** Renewing keeps the tenant a grant was admitted under. */
  function BookAfterAsk(cfg: Config, book: Book, q: Request): Book
  {
    var live := Unexpired(book.grants, q.now);
    if Admits(cfg, live, q) then
      var tenant := if q.agent in live then live[q.agent].tenant else q.tenant;
      Book(live[q.agent := Grant(tenant, Deadline(cfg, q.now))], book.firstReq - {q.agent})
    else Book(live, book.firstReq[q.agent := FirstAsk(book, q)])
  }

  function FirstAsk(book: Book, q: Request): Time
  {
    if q.agent in book.firstReq then book.firstReq[q.agent] else q.now
  }

  function Decide(cfg: Config, book: Book, q: Request): (Book, Decision)
    requires cfg.Usable()
  {
    (BookAfterAsk(cfg, book, q),
     if Admits(cfg, Unexpired(book.grants, q.now), q)
     then Granted(Rate(cfg, q.headroom), UnixSeconds(Deadline(cfg, q.now)))
     else Deferred(RetryAfter(cfg, q.now - FirstAsk(book, q))))
  }

  // ----- what a decision carries -----

  function Times(x: real, k: real): real { x * k }

  lemma TimesInOrder(x: real, y: real, k: real)
    requires x <= y && k >= 0.0
    ensures Times(x, k) <= Times(y, k)
  {
  }

  lemma TimesBelow(x: real, y: real, k: real)
    requires x < y && k > 0.0
    ensures Times(x, k) < Times(y, k)
  {
  }

  lemma TimesQuotient(x: real, d: real)
    requires d > 0.0
    ensures Times(x / d, d) == x
  {
  }

  lemma PerSlotBounds(base: int, h: real, slots: int)
    requires slots > 0
    ensures var budget, per := Times(h, base as real), PerSlot(base, h, slots);
            Times(per as real, slots as real) <= budget < Times((per + 1) as real, slots as real)
  {
    var budget, per := Times(h, base as real), PerSlot(base, h, slots);
    var q := budget / slots as real;
    TimesQuotient(budget, slots as real);
    TimesInOrder(per as real, q, slots as real);
    TimesBelow(q, (per + 1) as real, slots as real);
  }

  lemma ClampedRateFits(cfg: Config, headroom: real, per: int, r: int)
    requires var budget, slots := Times(Clamped(headroom), cfg.baseBudget as real), cfg.Slots() as real;
             Times(per as real, slots) <= budget < Times((per + 1) as real, slots)
    requires var floored := if per > cfg.minGrantRate then per else cfg.minGrantRate;
             r == if floored < cfg.maxGrantRate then floored else cfg.maxGrantRate
    ensures RateFits(cfg, headroom, r)
  {
    var slots := cfg.Slots() as real;
    if r == cfg.minGrantRate < cfg.maxGrantRate {
      TimesInOrder((per + 1) as real, (r + 1) as real, slots);
    }
    if r == cfg.maxGrantRate > cfg.minGrantRate {
      TimesInOrder(r as real, per as real, slots);
    }
  }

  lemma RateExactly(cfg: Config, headroom: real)
    requires cfg.Usable()
    ensures RateFits(cfg, headroom, Rate(cfg, headroom))
  {
    PerSlotBounds(cfg.baseBudget, Clamped(headroom), cfg.Slots());
    ClampedRateFits(cfg, headroom, PerSlot(cfg.baseBudget, Clamped(headroom), cfg.Slots()), Rate(cfg, headroom));
  }

  lemma RateFitsInOrder(cfg: Config, headroom: real, r: int, more: real, s: int)
    requires Clamped(headroom) <= Clamped(more) && cfg.baseBudget >= 0
    requires RateFits(cfg, headroom, r) && RateFits(cfg, more, s)
    ensures r <= s
  {
    TimesInOrder(Clamped(headroom), Clamped(more), cfg.baseBudget as real);
    if s < r {
      TimesInOrder((s + 1) as real, r as real, cfg.Slots() as real);
    }
  }

  /** Only one rate fits, and more headroom never gives less. */
  lemma RateFollowsHeadroom(cfg: Config, headroom: real, r: int, more: real)
    requires cfg.Usable() && headroom <= more
    ensures RateFits(cfg, headroom, r) <==> r == Rate(cfg, headroom)
    ensures Rate(cfg, headroom) <= Rate(cfg, more)
  {
    RateExactly(cfg, headroom);
    RateExactly(cfg, more);
    RateFitsInOrder(cfg, headroom, Rate(cfg, headroom), more, Rate(cfg, more));
    if RateFits(cfg, headroom, r) {
      RateFitsInOrder(cfg, headroom, r, headroom, Rate(cfg, headroom));
      RateFitsInOrder(cfg, headroom, Rate(cfg, headroom), headroom, r);
    }
  }

  /** What a decision tells the agent: a fitting rate until the second its grant ends in, or to wait out the rest of its
      backoff in whole seconds, at least one. */
  predicate AnswerFits(cfg: Config, book: Book, q: Request, decision: Decision)
  {
    match decision
    case Granted(rate, deadline) =>
      RateFits(cfg, q.headroom, rate) && deadline * SECOND <= q.now + cfg.grantTtl < (deadline + 1) * SECOND
    case Deferred(retryAfter) =>
      var waited := if q.agent in book.firstReq then q.now - book.firstReq[q.agent] else 0;
      && retryAfter * SECOND >= cfg.deferBackoff - waited && retryAfter >= 1
      && ((retryAfter - 1) * SECOND < cfg.deferBackoff - waited || retryAfter == 1)
  }

  lemma DecisionFits(cfg: Config, book: Book, q: Request)
    requires cfg.Usable()
    ensures AnswerFits(cfg, book, q, Decide(cfg, book, q).1)
  {
    RateExactly(cfg, q.headroom);
  }

  /** The shipped configuration at full headroom: an eighth of twenty thousand. */
  lemma DefaultsGrantAnEighth()
    ensures var cfg := Config(8, 4, 20_000, 500, 5_000, 60 * SECOND, 30 * SECOND);
            cfg.Usable() && Rate(cfg, 1.0) == 2_500 && Rate(cfg, 0.5) == 1_250 && Rate(cfg, 0.0) == 500
            && Rate(cfg, 2.0) == 2_500 && Rate(cfg, -1.0) == 500
  {
    assert PerSlot(20_000, 1.0, 8) == 2_500 && PerSlot(20_000, 0.5, 8) == 1_250 && PerSlot(20_000, 0.0, 8) == 0;
  }

  /** The agents whose grant has not run out. */
  function LiveAgents(grants: map<Uuid, Grant>, now: Time): set<Uuid>
  {
    set a | a in grants && grants[a].deadline > now
  }

  /** A slot is granted exactly to an agent whose grant is still live, or when both caps leave room among live grants. */
  lemma GrantedExactlyWhen(cfg: Config, book: Book, q: Request)
    requires cfg.Usable()
    ensures var live := LiveAgents(book.grants, q.now);
            Decide(cfg, book, q).1.Granted? <==>
            q.agent in live
            || (|live| < cfg.maxConcurrent && |live * HeldBy(book.grants, q.tenant)| < cfg.perTenantMax)
  {
    var live := Unexpired(book.grants, q.now);
    assert live.Keys == LiveAgents(book.grants, q.now);
    assert |live| == |live.Keys|;
    assert HeldBy(live, q.tenant) == LiveAgents(book.grants, q.now) * HeldBy(book.grants, q.tenant);
  }

  /** Only the asking agent's grant changes; granted, it runs a full term from now and stops aging. */
  lemma DecisionTouchesOnlyTheAsker(cfg: Config, book: Book, q: Request, a: Uuid)
    requires cfg.Usable()
    ensures var live := LiveAgents(book.grants, q.now);
            var (next, decision) := Decide(cfg, book, q);
            && (a != q.agent ==>
                  (a in next.grants <==> a in live) && (a in live ==> next.grants[a] == book.grants[a]))
            && (q.agent in next.grants <==> decision.Granted?)
            && (decision.Granted? ==> next.grants[q.agent].deadline == q.now + cfg.grantTtl)
            && (q.agent in next.firstReq <==> decision.Deferred?)
  {
  }

  // ----- the running scheduler -----

  lemma HeldByDrop(grants: map<Uuid, Grant>, agent: Uuid, tenant: Uuid)
    requires agent in grants
    ensures |HeldBy(grants - {agent}, tenant)| == |HeldBy(grants, tenant)| - if grants[agent].tenant == tenant then 1 else 0
  {
    assert HeldBy(grants - {agent}, tenant) == HeldBy(grants, tenant) - {agent};
    assert agent in HeldBy(grants, tenant) <==> grants[agent].tenant == tenant;
  }

  lemma HeldByPut(grants: map<Uuid, Grant>, agent: Uuid, grant: Grant, tenant: Uuid)
    requires agent in grants ==> grants[agent].tenant == grant.tenant
    ensures |HeldBy(grants[agent := grant], tenant)|
            == |HeldBy(grants, tenant)| + if grant.tenant == tenant && agent !in grants then 1 else 0
  {
    assert HeldBy(grants[agent := grant], tenant)
           == if grant.tenant == tenant then HeldBy(grants, tenant) + {agent} else HeldBy(grants, tenant);
  }

  /** The cached counter is the scan: present exactly for tenants holding grants, at their number. */
  ghost predicate Cached(grants: map<Uuid, Grant>, tenantCount: map<Uuid, int>)
  {
    forall t :: if HeldBy(grants, t) == {} then t !in tenantCount
                else t in tenantCount && tenantCount[t] == |HeldBy(grants, t)|
  }

  class Scheduler {
    const cfg: Config
    var grants: map<Uuid, Grant>
    var tenantCount: map<Uuid, int>
    var firstReq: map<Uuid, Time>

    ghost predicate Valid()
      reads this
    {
      cfg.Usable() && Cached(grants, tenantCount)
    }

    ghost function Books(): Book
      reads this
    {
      Book(grants, firstReq)
    }

    constructor (cfg: Config)
      requires cfg.Usable()
      ensures Valid() && this.cfg == cfg && Books() == Book(map[], map[])
    {
      this.cfg := cfg;
      grants, tenantCount, firstReq := map[], map[], map[];
    }

    method ReleaseGrant(agent: Uuid)
      requires Valid()
      modifies this`grants, this`tenantCount
      ensures Valid() && grants == old(grants) - {agent}
    {
      if agent !in grants {
        assert grants == grants - {agent};
        return;
      }
      var tenant := grants[agent].tenant;
      forall t
        ensures |HeldBy(grants - {agent}, t)| == |HeldBy(grants, t)| - if tenant == t then 1 else 0
      {
        HeldByDrop(grants, agent, t);
      }
      assert agent in HeldBy(grants, tenant);
      grants := grants - {agent};
      if tenantCount[tenant] <= 1 {
        tenantCount := tenantCount - {tenant};
      } else {
        tenantCount := tenantCount[tenant := tenantCount[tenant] - 1];
      }
    }

    method Reap(now: Time)
      requires Valid()
      modifies this`grants, this`tenantCount
      ensures Valid() && grants == Unexpired(old(grants), now)
    {
      ghost var before := grants;
      var rest := grants.Keys;
      while rest != {}
        invariant Valid() && rest <= grants.Keys <= before.Keys
        invariant forall a :: a in grants ==> grants[a] == before[a]
        invariant forall a :: a in before && a !in grants ==> before[a].deadline <= now
        invariant forall a :: a in grants && a !in rest ==> grants[a].deadline > now
        decreases |rest|
      {
        var a :| a in rest;
        rest := rest - {a};
        if grants[a].deadline <= now {
          ReleaseGrant(a);
        }
      }
    }

    /** Decides exactly as the scheduler that scans. */
    method RequestSlot(q: Request) returns (decision: Decision)
      requires Valid()
      modifies this`grants, this`tenantCount, this`firstReq
      ensures Valid()
      ensures (Books(), decision) == Decide(cfg, old(Books()), q)
      ensures AnswerFits(cfg, old(Books()), q, decision)
    {
      DecisionFits(cfg, Books(), q);
      Reap(q.now);
      if q.agent in grants {
        Renew(q.agent, Deadline(cfg, q.now));
        firstReq := firstReq - {q.agent};
        return Granted(Rate(cfg, q.headroom), UnixSeconds(Deadline(cfg, q.now)));
      }
      var counted := if q.tenant in tenantCount then tenantCount[q.tenant] else 0;
      assert counted == |HeldBy(grants, q.tenant)|;
      if |grants| >= cfg.maxConcurrent || counted >= cfg.perTenantMax {
        var first := q.now;
        if q.agent in firstReq {
          first := firstReq[q.agent];
        }
        firstReq := firstReq[q.agent := first];
        return Deferred(RetryAfter(cfg, q.now - first));
      }
      Admit(q.agent, Grant(q.tenant, Deadline(cfg, q.now)));
      firstReq := firstReq - {q.agent};
      return Granted(Rate(cfg, q.headroom), UnixSeconds(Deadline(cfg, q.now)));
    }

    method Renew(agent: Uuid, deadline: Time)
      requires Valid() && agent in grants
      modifies this`grants
      ensures Valid() && grants == old(grants)[agent := Grant(old(grants)[agent].tenant, deadline)]
    {
      var renewed := grants[agent].(deadline := deadline);
      forall t
        ensures HeldBy(grants[agent := renewed], t) == HeldBy(grants, t)
      {
      }
      grants := grants[agent := renewed];
    }

    method Admit(agent: Uuid, grant: Grant)
      requires Valid() && agent !in grants
      modifies this`grants, this`tenantCount
      ensures Valid() && grants == old(grants)[agent := grant]
    {
      var counted := if grant.tenant in tenantCount then tenantCount[grant.tenant] else 0;
      forall t
        ensures |HeldBy(grants[agent := grant], t)| == |HeldBy(grants, t)| + if grant.tenant == t then 1 else 0
      {
        HeldByPut(grants, agent, grant, t);
      }
      grants := grants[agent := grant];
      tenantCount := tenantCount[grant.tenant := counted + 1];
    }

    method Release(agent: Uuid)
      requires Valid()
      modifies this`grants, this`tenantCount, this`firstReq
      ensures Valid() && Books() == Book(old(grants) - {agent}, old(firstReq) - {agent})
    {
      ReleaseGrant(agent);
      firstReq := firstReq - {agent};
    }

    method ActiveCount(now: Time) returns (n: nat)
      requires Valid()
      modifies this`grants, this`tenantCount
      ensures Valid() && n == |Unexpired(old(grants), now)|
      ensures Books() == Book(Unexpired(old(grants), now), old(firstReq))
    {
      Reap(now);
      n := |grants|;
    }
  }

  // ----- runs -----

  datatype Op = Ask(q: Request) | Drop(agent: Uuid, now: Time) | Count(now: Time) {
    function At(): Time { match this case Ask(q) => q.now case Drop(_, now) => now case Count(now) => now }
  }

  datatype Reply = Decided(decision: Decision) | Done | Active(n: nat)

  /** A release does not reap. */
  function BookAfter(cfg: Config, book: Book, op: Op): Book
  {
    match op
    case Ask(q) => BookAfterAsk(cfg, book, q)
    case Drop(agent, _) => Book(book.grants - {agent}, book.firstReq - {agent})
    case Count(now) => book.(grants := Unexpired(book.grants, now))
  }

  /** The running scheduler. */
  function Lazy(cfg: Config, book: Book, op: Op): (Book, Reply)
    requires cfg.Usable()
  {
    (BookAfter(cfg, book, op),
     match op
     case Ask(q) => Decided(Decide(cfg, book, q).1)
     case Drop(_, _) => Done
     case Count(now) => Active(|Unexpired(book.grants, now)|))
  }

  /** The simple scheduler: expired grants are gone before every operation. */
  function Eager(cfg: Config, book: Book, op: Op): (Book, Reply)
    requires cfg.Usable()
  {
    Lazy(cfg, book.(grants := Unexpired(book.grants, op.At())), op)
  }

  function LazyReplies(cfg: Config, book: Book, ops: seq<Op>): seq<Reply>
    requires cfg.Usable()
    decreases |ops|
  {
    if ops == [] then []
    else var (next, reply) := Lazy(cfg, book, ops[0]); [reply] + LazyReplies(cfg, next, ops[1..])
  }

  function EagerReplies(cfg: Config, book: Book, ops: seq<Op>): seq<Reply>
    requires cfg.Usable()
    decreases |ops|
  {
    if ops == [] then []
    else var (next, reply) := Eager(cfg, book, ops[0]); [reply] + EagerReplies(cfg, next, ops[1..])
  }

  const AT: Op -> Time := (op: Op) => op.At()

  /** The two books agree on everything still live. */
  predicate Alike(a: Book, b: Book, clock: Time)
  {
    a.firstReq == b.firstReq && Unexpired(a.grants, clock) == Unexpired(b.grants, clock)
  }

  lemma UnexpiredLater(grants: map<Uuid, Grant>, clock: Time, now: Time)
    requires clock <= now
    ensures Unexpired(Unexpired(grants, clock), now) == Unexpired(grants, now)
  {
  }

  lemma DropCommutes(grants: map<Uuid, Grant>, agent: Uuid, now: Time)
    ensures Unexpired(grants - {agent}, now) == Unexpired(grants, now) - {agent}
  {
  }

  /** At any later reading the two books come to the same live grants. */
  lemma AlikeLater(a: Book, b: Book, clock: Time, now: Time)
    requires Alike(a, b, clock) && clock <= now
    ensures Unexpired(a.grants, now) == Unexpired(b.grants, now)
  {
    UnexpiredLater(a.grants, clock, now);
    UnexpiredLater(b.grants, clock, now);
  }

  lemma DropAgrees(cfg: Config, a: Book, b: Book, clock: Time, agent: Uuid, now: Time)
    requires cfg.Usable() && Alike(a, b, clock) && clock <= now
    ensures Alike(Lazy(cfg, a, Drop(agent, now)).0, Eager(cfg, b, Drop(agent, now)).0, now)
  {
    AlikeLater(a, b, clock, now);
    UnexpiredLater(b.grants, now, now);
    DropCommutes(a.grants, agent, now);
    DropCommutes(Unexpired(b.grants, now), agent, now);
  }

  lemma AskAgrees(cfg: Config, a: Book, b: Book, clock: Time, q: Request)
    requires cfg.Usable() && Alike(a, b, clock) && clock <= q.now
    ensures Lazy(cfg, a, Ask(q)) == Eager(cfg, b, Ask(q))
  {
    AlikeLater(a, b, clock, q.now);
    UnexpiredLater(b.grants, q.now, q.now);
  }

  lemma CountAgrees(cfg: Config, a: Book, b: Book, clock: Time, now: Time)
    requires cfg.Usable() && Alike(a, b, clock) && clock <= now
    ensures Lazy(cfg, a, Count(now)) == Eager(cfg, b, Count(now))
  {
    AlikeLater(a, b, clock, now);
    UnexpiredLater(b.grants, now, now);
  }

  lemma StepAgrees(cfg: Config, a: Book, b: Book, clock: Time, op: Op)
    requires cfg.Usable() && Alike(a, b, clock) && clock <= op.At()
    ensures Lazy(cfg, a, op).1 == Eager(cfg, b, op).1
    ensures Alike(Lazy(cfg, a, op).0, Eager(cfg, b, op).0, op.At())
  {
    match op {
      case Ask(q) => AskAgrees(cfg, a, b, clock, q);
      case Drop(agent, now) => DropAgrees(cfg, a, b, clock, agent, now);
      case Count(now) => CountAgrees(cfg, a, b, clock, now);
    }
  }

  /** With a clock that never goes back, lazy reaping is indistinguishable from dropping grants as they expire. */
  lemma {:induction false} LazyEqualsEager(cfg: Config, a: Book, b: Book, clock: Time, ops: seq<Op>)
    requires cfg.Usable() && Alike(a, b, clock) && ClockRuns(clock, ops, AT)
    ensures LazyReplies(cfg, a, ops) == EagerReplies(cfg, b, ops)
    decreases |ops|
  {
    if ops != [] {
      StepAgrees(cfg, a, b, clock, ops[0]);
      LazyEqualsEager(cfg, Lazy(cfg, a, ops[0]).0, Eager(cfg, b, ops[0]).0, ops[0].At(), ops[1..]);
    }
  }

  // ----- caps and the rate budget -----

  /** The scheduler's book after a run, with the rate each agent was last granted. */
  function After(cfg: Config, book: Book, rates: map<Uuid, nat>, ops: seq<Op>): (Book, map<Uuid, nat>)
    requires cfg.Usable()
    decreases |ops|
  {
    if ops == [] then (book, rates)
    else
      var (next, reply) := Lazy(cfg, book, ops[0]);
      After(cfg, next, RatesAfter(rates, ops[0], reply), ops[1..])
  }

  lemma AfterNothing(cfg: Config, book: Book, rates: map<Uuid, nat>)
    requires cfg.Usable()
    ensures After(cfg, book, rates, []) == (book, rates)
  {
  }

  function RatesAfter(rates: map<Uuid, nat>, op: Op, reply: Reply): map<Uuid, nat>
  {
    if op.Ask? && reply.Decided? && reply.decision.Granted? then rates[op.q.agent := reply.decision.rate] else rates
  }

  /** The least rate a grant can carry: the floor, unless the ceiling is lower still. */
  function FloorRate(cfg: Config): nat
  {
    if cfg.minGrantRate < cfg.maxGrantRate then cfg.minGrantRate else cfg.maxGrantRate
  }

  /** The most a grant can carry. */
  function SlotRate(cfg: Config): nat
    requires cfg.Usable()
  {
    var share := cfg.baseBudget / cfg.Slots();
    if share > FloorRate(cfg) then share else FloorRate(cfg)
  }

  ghost predicate WithinCaps(cfg: Config, grants: map<Uuid, Grant>)
  {
    && (|grants| <= cfg.maxConcurrent || grants == map[])
    && (forall t :: |HeldBy(grants, t)| <= cfg.perTenantMax || HeldBy(grants, t) == {})
  }

  ghost predicate WithinRates(cfg: Config, grants: map<Uuid, Grant>, rates: map<Uuid, nat>)
    requires cfg.Usable()
  {
    forall a :: a in grants ==> a in rates && rates[a] <= SlotRate(cfg)
  }

  lemma RateWithinShare(cfg: Config, headroom: real)
    requires cfg.Usable()
    ensures Rate(cfg, headroom) <= SlotRate(cfg)
  {
    PerSlotWithinShare(cfg.baseBudget, Clamped(headroom), cfg.Slots());
  }

  lemma PerSlotWithinShare(base: int, h: real, slots: int)
    requires base >= 0 && 0.0 <= h <= 1.0 && slots > 0
    ensures PerSlot(base, h, slots) <= base / slots
  {
    var share, per := base / slots, PerSlot(base, h, slots);
    PerSlotBounds(base, h, slots);
    TimesInOrder(h, 1.0, base as real);
    if per > share {
      TimesInOrder((share + 1) as real, per as real, slots as real);
      BelowNextMultiple(base, slots);
    }
  }

  lemma BelowNextMultiple(base: int, slots: int)
    requires base >= 0 && slots > 0
    ensures Times(1.0, base as real) < Times((base / slots + 1) as real, slots as real)
  {
    var next := base / slots + 1;
    assert base < next * slots;
    assert (next * slots) as real == next as real * slots as real;
  }

  lemma FewerWithinCaps(cfg: Config, fewer: map<Uuid, Grant>, grants: map<Uuid, Grant>)
    requires WithinCaps(cfg, grants) && fewer.Keys <= grants.Keys
    requires forall a :: a in fewer ==> fewer[a] == grants[a]
    ensures WithinCaps(cfg, fewer)
  {
    SubsetSize(fewer.Keys, grants.Keys);
    forall t
      ensures |HeldBy(fewer, t)| <= cfg.perTenantMax || HeldBy(fewer, t) == {}
    {
      SubsetSize(HeldBy(fewer, t), HeldBy(grants, t));
    }
  }

  lemma AdmittedWithinCaps(cfg: Config, live: map<Uuid, Grant>, q: Request, grant: Grant)
    requires WithinCaps(cfg, live) && Admits(cfg, live, q)
    requires grant.tenant == if q.agent in live then live[q.agent].tenant else q.tenant
    ensures WithinCaps(cfg, live[q.agent := grant])
  {
    var next := live[q.agent := grant];
    PutSize(live, q.agent, grant);
    forall t
      ensures |HeldBy(next, t)| <= cfg.perTenantMax || HeldBy(next, t) == {}
    {
      HeldByPut(live, q.agent, grant, t);
    }
  }

  lemma AskWithinBudget(cfg: Config, book: Book, rates: map<Uuid, nat>, q: Request)
    requires cfg.Usable() && WithinCaps(cfg, book.grants) && WithinRates(cfg, book.grants, rates)
    ensures var (next, reply) := Lazy(cfg, book, Ask(q));
            WithinCaps(cfg, next.grants) && WithinRates(cfg, next.grants, RatesAfter(rates, Ask(q), reply))
  {
    var live := Unexpired(book.grants, q.now);
    FewerWithinCaps(cfg, live, book.grants);
    if Admits(cfg, live, q) {
      RateWithinShare(cfg, q.headroom);
      AdmittedWithinCaps(cfg, live, q, Decide(cfg, book, q).0.grants[q.agent]);
    }
  }

  lemma StepWithinBudget(cfg: Config, book: Book, rates: map<Uuid, nat>, op: Op)
    requires cfg.Usable() && WithinCaps(cfg, book.grants) && WithinRates(cfg, book.grants, rates)
    ensures var (next, reply) := Lazy(cfg, book, op);
            WithinCaps(cfg, next.grants) && WithinRates(cfg, next.grants, RatesAfter(rates, op, reply))
  {
    match op {
      case Drop(agent, _) => FewerWithinCaps(cfg, book.grants - {agent}, book.grants);
      case Count(now) => FewerWithinCaps(cfg, Unexpired(book.grants, now), book.grants);
      case Ask(q) => AskWithinBudget(cfg, book, rates, q);
    }
  }

  lemma {:induction false} RunWithinBudget(cfg: Config, book: Book, rates: map<Uuid, nat>, ops: seq<Op>)
    requires cfg.Usable() && WithinCaps(cfg, book.grants) && WithinRates(cfg, book.grants, rates)
    ensures var (end, last) := After(cfg, book, rates, ops);
            WithinCaps(cfg, end.grants) && WithinRates(cfg, end.grants, last)
    decreases |ops|
  {
    if ops != [] {
      StepWithinBudget(cfg, book, rates, ops[0]);
      var (next, reply) := Lazy(cfg, book, ops[0]);
      RunWithinBudget(cfg, next, RatesAfter(rates, ops[0], reply), ops[1..]);
    }
  }

  /** The rates last granted to the grants a book holds. */
  function HeldRates(grants: map<Uuid, Grant>, last: map<Uuid, nat>): map<Uuid, nat>
  {
    map a | a in grants && a in last :: last[a]
  }

  /** What the grants held after a run of a new scheduler may send each second between them. */
  ghost function HeldTotal(cfg: Config, ops: seq<Op>): nat
    requires cfg.Usable()
  {
    var (end, last) := After(cfg, EMPTY, map[], ops);
    Total(HeldRates(end.grants, last))
  }

  /** How many slots a clock that never goes back can fill at once; a term that is over at once fills one. */
  function Fillable(cfg: Config): nat
  {
    if cfg.maxConcurrent <= 0 || cfg.perTenantMax <= 0 then 0 else if cfg.grantTtl <= 0 then 1 else cfg.maxConcurrent
  }

  /** Every slot that can be filled at once fits the budget at the least rate a grant can carry. */
  predicate FloorFits(cfg: Config)
  {
    Fillable(cfg) * FloorRate(cfg) <= cfg.baseBudget
  }

  /** After any run neither cap is exceeded and every grant held was given a rate. */
  lemma CapsHold(cfg: Config, ops: seq<Op>)
    requires cfg.Usable()
    ensures var (end, last) := After(cfg, EMPTY, map[], ops);
            WithinCaps(cfg, end.grants) && WithinRates(cfg, end.grants, last)
  {
    assert WithinCaps(cfg, EMPTY.grants) by {
      assert forall t :: HeldBy(EMPTY.grants, t) == {};
    }
    RunWithinBudget(cfg, EMPTY, map[], ops);
  }

  lemma NoSlotNoGrant(cfg: Config, grants: map<Uuid, Grant>)
    requires WithinCaps(cfg, grants) && (cfg.maxConcurrent <= 0 || cfg.perTenantMax <= 0)
    ensures grants == map[]
  {
    if cfg.maxConcurrent > 0 {
      assert forall a :: a in grants ==> a in HeldBy(grants, grants[a].tenant);
    }
  }

  lemma HeldBound(cfg: Config, ops: seq<Op>, n: nat)
    requires cfg.Usable() && |After(cfg, EMPTY, map[], ops).0.grants| <= n <= cfg.Slots()
    ensures HeldTotal(cfg, ops) <= cfg.baseBudget || HeldTotal(cfg, ops) <= n * FloorRate(cfg)
  {
    CapsHold(cfg, ops);
    var (end, last) := After(cfg, EMPTY, map[], ops);
    var held := HeldRates(end.grants, last);
    TotalBound(held, SlotRate(cfg));
    assert held.Keys == end.grants.Keys;
    assert |held| == |held.Keys| == |end.grants.Keys| == |end.grants|;
    ShareTimesSlots(cfg, |held|, n);
  }

  /** Whatever the configuration, the headroom and the clock: the rates held sum to no more than the base budget,
      or than the floor rate on every slot. */
  lemma WithinBudgetOrFloor(cfg: Config, ops: seq<Op>)
    requires cfg.Usable()
    ensures HeldTotal(cfg, ops) <= cfg.baseBudget || HeldTotal(cfg, ops) <= cfg.maxConcurrent * FloorRate(cfg)
    ensures FloorRate(cfg) <= cfg.minGrantRate
  {
    CapsHold(cfg, ops);
    if cfg.maxConcurrent <= 0 {
      NoSlotNoGrant(cfg, After(cfg, EMPTY, map[], ops).0.grants);
      HeldBound(cfg, ops, 0);
    } else {
      HeldBound(cfg, ops, cfg.maxConcurrent);
    }
  }

  /** With a term that is over at once, a clock that never goes back finds every earlier grant expired. */
  lemma {:induction false} ShortTermsHoldOne(cfg: Config, book: Book, rates: map<Uuid, nat>, clock: Time, ops: seq<Op>)
    requires cfg.Usable() && cfg.grantTtl <= 0 && ClockRuns(clock, ops, AT)
    requires |book.grants| <= 1 && forall a :: a in book.grants ==> book.grants[a].deadline <= clock
    ensures |After(cfg, book, rates, ops).0.grants| <= 1
    decreases |ops|
  {
    if ops != [] {
      var op := ops[0];
      var (next, reply) := Lazy(cfg, book, op);
      assert clock <= AT(op) == op.At();
      ShortTermStep(cfg, book, clock, op);
      ShortTermsHoldOne(cfg, next, RatesAfter(rates, op, reply), op.At(), ops[1..]);
    }
  }

  lemma ShortTermStep(cfg: Config, book: Book, clock: Time, op: Op)
    requires cfg.grantTtl <= 0 && clock <= op.At()
    requires |book.grants| <= 1 && forall a :: a in book.grants ==> book.grants[a].deadline <= clock
    ensures var next := BookAfter(cfg, book, op);
            |next.grants| <= 1 && forall a :: a in next.grants ==> next.grants[a].deadline <= op.At()
  {
    match op {
      case Ask(q) => ShortTermAsk(cfg, book, clock, q);
      case Drop(agent, _) => DropSize(book.grants, agent);
      case Count(now) => assert Unexpired(book.grants, now) == map[];
    }
  }

  lemma ShortTermAsk(cfg: Config, book: Book, clock: Time, q: Request)
    requires cfg.grantTtl <= 0 && clock <= q.now
    requires forall a :: a in book.grants ==> book.grants[a].deadline <= clock
    ensures var next := BookAfterAsk(cfg, book, q);
            |next.grants| <= 1 && forall a :: a in next.grants ==> next.grants[a].deadline <= q.now
  {
    assert Unexpired(book.grants, q.now) == map[];
    PutSize(map[], q.agent, Grant(q.tenant, Deadline(cfg, q.now)));
  }

  lemma HeldWithinFillable(cfg: Config, ops: seq<Op>)
    requires cfg.Usable() && Forward(ops, AT)
    ensures |After(cfg, EMPTY, map[], ops).0.grants| <= Fillable(cfg)
  {
    CapsHold(cfg, ops);
    if cfg.maxConcurrent <= 0 || cfg.perTenantMax <= 0 {
      NoSlotNoGrant(cfg, After(cfg, EMPTY, map[], ops).0.grants);
    } else if cfg.grantTtl <= 0 {
      ShortTermsHoldOne(cfg, EMPTY, map[], if ops == [] then 0 else ops[0].At(), ops);
    }
  }

  // A run that fills every slot at one instant with no headroom, each agent for its own tenant.

  function Crowd(cfg: Config, i: nat): (ops: seq<Op>)
    ensures forall op :: op in ops ==> op.At() == 0
    decreases Fillable(cfg) - i
  {
    if i >= Fillable(cfg) then [] else [Ask(Request(i, i, 0, 0.0))] + Crowd(cfg, i + 1)
  }

  ghost predicate Seated(cfg: Config, grants: map<Uuid, Grant>, rates: map<Uuid, nat>, i: nat)
  {
    && |grants| == i
    && forall a :: a in grants ==>
         && a < i && grants[a].tenant == a && (cfg.grantTtl > 0 ==> grants[a].deadline > 0)
         && a in rates && rates[a] == FloorRate(cfg)
  }

  lemma NoHeadroomGivesTheFloor(cfg: Config)
    requires cfg.Usable()
    ensures Rate(cfg, 0.0) == FloorRate(cfg)
  {
    assert Times(0.0, cfg.baseBudget as real) / cfg.Slots() as real == 0.0;
  }

  lemma SeatIsFree(cfg: Config, grants: map<Uuid, Grant>, rates: map<Uuid, nat>, i: nat)
    requires Seated(cfg, grants, rates, i) && i < Fillable(cfg)
    ensures Unexpired(grants, 0) == grants && Admits(cfg, grants, Request(i, i, 0, 0.0)) && i !in grants
  {
    assert HeldBy(grants, i) == {};
  }

  lemma SeatOne(cfg: Config, book: Book, rates: map<Uuid, nat>, i: nat)
    requires cfg.Usable() && Seated(cfg, book.grants, rates, i) && i < Fillable(cfg)
    ensures var op := Ask(Request(i, i, 0, 0.0));
            var (next, reply) := Lazy(cfg, book, op);
            Seated(cfg, next.grants, RatesAfter(rates, op, reply), i + 1)
  {
    SeatIsFree(cfg, book.grants, rates, i);
    NoHeadroomGivesTheFloor(cfg);
    PutSize(book.grants, i, Grant(i, Deadline(cfg, 0)));
  }

  lemma {:induction false} CrowdFillsEverySlot(cfg: Config, book: Book, rates: map<Uuid, nat>, i: nat)
    requires cfg.Usable() && Seated(cfg, book.grants, rates, i) && i <= Fillable(cfg)
    ensures var after := After(cfg, book, rates, Crowd(cfg, i));
            Seated(cfg, after.0.grants, after.1, Fillable(cfg))
    decreases Fillable(cfg) - i
  {
    if i == Fillable(cfg) {
      AfterNothing(cfg, book, rates);
    } else {
      SeatOne(cfg, book, rates, i);
      var op := Ask(Request(i, i, 0, 0.0));
      var (next, reply) := Lazy(cfg, book, op);
      assert Crowd(cfg, i)[1..] == Crowd(cfg, i + 1);
      CrowdFillsEverySlot(cfg, next, RatesAfter(rates, op, reply), i + 1);
    }
  }

  lemma CrowdGoesForward(cfg: Config)
    ensures Forward(Crowd(cfg, 0), AT)
  {
    var ops := Crowd(cfg, 0);
    assert forall i :: 0 <= i < |ops| ==> ops[i] in ops && AT(ops[i]) == ops[i].At() == 0;
  }

  lemma CrowdedFloorGoesOver(cfg: Config)
    requires cfg.Usable() && !FloorFits(cfg)
    ensures HeldTotal(cfg, Crowd(cfg, 0)) > cfg.baseBudget
  {
    CrowdFillsEverySlot(cfg, EMPTY, map[], 0);
    var (end, last) := After(cfg, EMPTY, map[], Crowd(cfg, 0));
    var held := HeldRates(end.grants, last);
    assert held.Keys == end.grants.Keys;
    assert |held| == |held.Keys| == |end.grants.Keys| == Fillable(cfg);
    TotalAtLeast(held, FloorRate(cfg));
  }

  /** In every run whose clock never goes back the rates held stay within the base budget, exactly when the floor rate
      fits it on every slot such a run can fill. */
  lemma WithinBudgetExactly(cfg: Config)
    requires cfg.Usable()
    ensures (forall ops: seq<Op> :: Forward(ops, AT) ==> HeldTotal(cfg, ops) <= cfg.baseBudget) <==> FloorFits(cfg)
  {
    if FloorFits(cfg) {
      forall ops: seq<Op> | Forward(ops, AT)
        ensures HeldTotal(cfg, ops) <= cfg.baseBudget
      {
        HeldWithinFillable(cfg, ops);
        HeldBound(cfg, ops, Fillable(cfg));
      }
    } else {
      CrowdGoesForward(cfg);
      CrowdedFloorGoesOver(cfg);
    }
  }

  /** A floor above the whole budget: one grant, even at full headroom, sends five times what it allows. */
  lemma TheFloorCanExceedTheBudget(agent: Uuid, tenant: Uuid, now: Time)
    ensures var cfg := Config(1, 1, 100, 500, 5_000, 60 * SECOND, 30 * SECOND);
            cfg.Usable() && HeldTotal(cfg, [Ask(Request(agent, tenant, now, 1.0))]) == 500
  {
    var cfg := Config(1, 1, 100, 500, 5_000, 60 * SECOND, 30 * SECOND);
    var op := Ask(Request(agent, tenant, now, 1.0));
    assert PerSlot(100, 1.0, 1) == 100;
    assert HeldBy(map[], tenant) == {} && Unexpired(map[], now) == map[];
    var (next, reply) := Lazy(cfg, EMPTY, op);
    assert reply.decision.rate == 500;
    assert [op][1..] == [];
    AfterNothing(cfg, next, RatesAfter(map[], op, reply));
    var (end, last) := After(cfg, EMPTY, map[], [op]);
    assert end == next && last == RatesAfter(map[], op, reply);
    assert HeldRates(end.grants, last) == map[][agent := 500];
    TotalPut(map[], agent, 500);
  }

  lemma ShareTimesSlots(cfg: Config, k: nat, n: nat)
    requires cfg.Usable() && k <= n <= cfg.Slots()
    ensures k * SlotRate(cfg) <= cfg.baseBudget || k * SlotRate(cfg) <= n * FloorRate(cfg)
  {
    var share := cfg.baseBudget / cfg.Slots();
    assert cfg.Slots() * share <= cfg.baseBudget;
    MultiplyBoth(k, if share > FloorRate(cfg) then cfg.Slots() else n, SlotRate(cfg));
  }

  lemma MultiplyBoth(n: int, m: int, k: int)
    requires n <= m && k >= 0
    ensures n * k <= m * k
  {
  }

  // ----- one agent over a run -----

  /** No step asks for the agent's slot or releases it. */
  predicate LeavesAlone(ops: seq<Op>, agent: Uuid)
  {
    forall i :: 0 <= i < |ops| ==> (ops[i].Ask? ==> ops[i].q.agent != agent) && (ops[i].Drop? ==> ops[i].agent != agent)
  }

  /** The steps that reap: asking and counting. */
  predicate ReapsBefore(ops: seq<Op>, deadline: Time)
  {
    forall i :: 0 <= i < |ops| ==> ops[i].Drop? || ops[i].At() < deadline
  }

  lemma {:induction false} HeldUntilReaped(cfg: Config, book: Book, rates: map<Uuid, nat>, agent: Uuid, ops: seq<Op>)
    requires cfg.Usable() && LeavesAlone(ops, agent)
    ensures var end := After(cfg, book, rates, ops).0;
            && (agent in end.grants <==> agent in book.grants && ReapsBefore(ops, book.grants[agent].deadline))
            && (agent in end.grants ==> end.grants[agent] == book.grants[agent])
    decreases |ops|
  {
    if ops == [] {
      AfterNothing(cfg, book, rates);
    } else {
      var op, rest := ops[0], ops[1..];
      var (next, reply) := Lazy(cfg, book, op);
      HeldUntilReaped(cfg, next, RatesAfter(rates, op, reply), agent, rest);
      if op.Ask? {
        DecisionTouchesOnlyTheAsker(cfg, book, op.q, agent);
      }
      assert agent in next.grants <==> agent in book.grants && (op.Drop? || op.At() < book.grants[agent].deadline);
      if agent in book.grants {
        var deadline := book.grants[agent].deadline;
        assert ReapsBefore(ops, deadline) <==> (op.Drop? || op.At() < deadline) && ReapsBefore(rest, deadline) by {
          assert forall i :: 1 <= i < |ops| ==> ops[i] == rest[i - 1];
        }
      }
    }
  }

  /** A granted slot is held for a full term whatever the other agents do, and goes at the first reap past it. */
  lemma AGrantLastsItsTerm(cfg: Config, book: Book, q: Request, rates: map<Uuid, nat>, ops: seq<Op>)
    requires cfg.Usable() && Decide(cfg, book, q).1.Granted? && LeavesAlone(ops, q.agent)
    ensures var end := After(cfg, Decide(cfg, book, q).0, rates, ops).0;
            && (q.agent in end.grants <==> ReapsBefore(ops, q.now + cfg.grantTtl))
            && (q.agent in end.grants ==> end.grants[q.agent].deadline == q.now + cfg.grantTtl)
  {
    DecisionTouchesOnlyTheAsker(cfg, book, q, q.agent);
    HeldUntilReaped(cfg, Decide(cfg, book, q).0, rates, q.agent, ops);
  }

  /** The agent is neither granted nor released on the way. */
  predicate StaysWaiting(cfg: Config, book: Book, ops: seq<Op>, agent: Uuid)
    requires cfg.Usable()
    decreases |ops|
  {
    ops == [] ||
    (var (next, reply) := Lazy(cfg, book, ops[0]);
     && (ops[0].Drop? ==> ops[0].agent != agent)
     && (ops[0].Ask? && ops[0].q.agent == agent ==> reply.decision.Deferred?)
     && StaysWaiting(cfg, next, ops[1..], agent))
  }

  lemma {:induction false} FirstAskStands(cfg: Config, book: Book, rates: map<Uuid, nat>, ops: seq<Op>, agent: Uuid)
    requires cfg.Usable() && agent in book.firstReq && StaysWaiting(cfg, book, ops, agent)
    ensures var end := After(cfg, book, rates, ops).0;
            agent in end.firstReq && end.firstReq[agent] == book.firstReq[agent]
    decreases |ops|
  {
    if ops == [] {
      AfterNothing(cfg, book, rates);
    } else {
      var (next, reply) := Lazy(cfg, book, ops[0]);
      FirstAskStands(cfg, next, RatesAfter(rates, ops[0], reply), ops[1..], agent);
    }
  }

  /** Between two deferrals, whatever happens in which the agent is neither granted nor released: the later one
      never tells it to wait longer, and neither less than a second. */
  lemma WaitingShortensTheBackoff(cfg: Config, book: Book, q: Request, rates: map<Uuid, nat>, ops: seq<Op>, again: Request)
    requires cfg.Usable() && q.agent == again.agent && q.now <= again.now
    requires Decide(cfg, book, q).1.Deferred? && StaysWaiting(cfg, Decide(cfg, book, q).0, ops, q.agent)
    requires Decide(cfg, After(cfg, Decide(cfg, book, q).0, rates, ops).0, again).1.Deferred?
    ensures 1 <= Decide(cfg, After(cfg, Decide(cfg, book, q).0, rates, ops).0, again).1.retryAfter
              <= Decide(cfg, book, q).1.retryAfter
  {
    FirstAskStands(cfg, Decide(cfg, book, q).0, rates, ops, q.agent);
  }
}

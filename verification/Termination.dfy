/**
 Termination call by call. A natural number that counts the calls still to come falls with every call of every
 submission, worker and router, whatever handlers answer and however the calls interleave; only a new submission
 raises it, and by a fixed amount. So every run without crashes, failed calls and reaps comes to an end, and it can
 only end with everything read, everybody idle, and every published job decided.
 */
module Termination {
  import opened Prelude
  import opened Jobs
  import opened Store
  import opened Broker
  import opened Protocol
  import opened NoLoss
  import Frames
  import Atomic
  import Serial
  import Recovery
  import Tightness
  import Routing
  import Redelivery

  // ----- sums over the table -----

  ghost function Sum(ids: set<JobId>, f: JobId -> nat): nat {
    if ids == {} then 0 else
    var x :| x in ids;
    f(x) + Sum(ids - {x}, f)
  }

  lemma {:induction false} SumPick(ids: set<JobId>, f: JobId -> nat, x: JobId)
    requires x in ids
    ensures Sum(ids, f) == f(x) + Sum(ids - {x}, f)
  {
    var y :| y in ids && Sum(ids, f) == f(y) + Sum(ids - {y}, f);
    if y != x {
      SumPick(ids - {y}, f, x);
      assert ids - {y} - {x} == ids - {x} - {y};
      SumPick(ids - {x}, f, y);
    }
  }

  lemma {:induction false} SumMono(ids: set<JobId>, f: JobId -> nat, g: JobId -> nat)
    requires forall x :: x in ids ==> f(x) <= g(x)
    ensures Sum(ids, f) <= Sum(ids, g)
  {
    if ids != {} {
      var x :| x in ids && Sum(ids, f) == f(x) + Sum(ids - {x}, f);
      SumPick(ids, g, x);
      SumMono(ids - {x}, f, g);
    }
  }

  // ----- retries still to come -----

  /** Attempts the row allows before its budget would bury the job. */
  function Left(rows: Table, j: JobId): nat {
    if j in rows && rows[j].attempts + 1 < rows[j].maxAttempts then rows[j].maxAttempts - 1 - rows[j].attempts else 0
  }

  /**
   What one worker can add for the job. `armed` has read attempts below the budget and may still publish a retry;
   `landing` has published it and will count it; anybody else may read the row only while it has attempts left.
   */
  function Chance(open: bool, j: JobId): Option<Task> -> nat {
    (t: Option<Task>) =>
      if t.Some? && t.value.msg.id == j && t.value.phase in {RetrySent, RetryMarked} then 1
      else if t.Some? && t.value.msg.id == j && t.value.phase in {Loaded, InHandler, HandlerOk, HandlerErr} &&
              t.value.att + 1 < t.value.max then 2
      else if open then 2 else 0
  }

  function Chances(s: Sys): JobId -> nat {
    (j: JobId) => Left(s.rows, j) + Count(s.workers, Chance(Left(s.rows, j) > 0, j))
  }

  /** One if the call publishes a retry of the job. */
  function Sends(k: Task, j: JobId): nat {
    if k.msg.id == j && k.phase == HandlerErr && k.att + 1 < k.max then 1 else 0
  }

  lemma CallLeft(cfg: Config, s: Sys, tier: Tier, k: Task, c: Choice, j: JobId)
    requires WorkCallEffect(cfg, s, tier, k, c).Some? && j in s.rows && k.msg.tier == tier
    ensures var rows := WorkCallEffect(cfg, s, tier, k, c).value.rows;
            j in rows &&
            Left(rows, j) == if k.msg.id == j && k.phase == RetryMarked && Left(s.rows, j) > 0 then Left(s.rows, j) - 1
                             else Left(s.rows, j)
  {
  }

  lemma CallChance(cfg: Config, s: Sys, tier: Tier, k: Task, c: Choice, j: JobId)
    requires WorkCallEffect(cfg, s, tier, k, c).Some? && j in s.rows && k.msg.tier == tier
    ensures var f := WorkCallEffect(cfg, s, tier, k, c).value;
            var open := Left(s.rows, j) > 0;
            Chance(open, j)(f.task) + Sends(k, j) <=
            Chance(open, j)(Some(k)) + (if k.msg.id == j && k.phase == RetryMarked && open then 1 else 0)
  {
  }

  // ----- calls still to come -----

  function WorkCost(t: Option<Task>): nat {
    if t.Some? then Recovery.Rank(t.value.phase) else 0
  }

  function HaulCost(h: Option<Haul>): nat {
    if h.None? then 0 else if h.value.sent then 1 else 10
  }

  /** A new job can be retried as often as its budget says, and once or twice for each of `n` workers. */
  function JobCost(n: nat): nat {
    11 * (MAX_ATTEMPTS - 1 + 2 * n)
  }

  function SubCost(n: nat): Sub -> nat {
    (b: Sub) =>
      match b.stage
      case Claiming => JobCost(n) + 12
      case Inserting => JobCost(n) + 11
      case Losing => 2
      case Existing => 1
      case Inserted => 10
      case Published => 1
      case Closed => 0
  }

  function Gap(q: Part): nat {
    if q.pos <= |q.log| then |q.log| - q.pos else 0
  }

  function PartCost(q: Part): nat {
    match q.topic
    case Main(_) => 8 * Gap(q)
    case RetryOf(_) => 11 * Gap(q)
    case Dlq => 0
  }

  /**
   The calls still to come, at most: 8 for an unread message, its fetch and the calls of its worker; 11 for a retry,
   which is read, republished and committed before; 11 for each retry still possible.
   */
  ghost function Fuel(s: Sys): nat {
    Count(s.subs, SubCost(|s.workers|)) + Count(s.workers, WorkCost) + Count(s.routers, HaulCost) +
    Count(s.parts, PartCost) + 11 * Sum(s.rows.Keys, Chances(s))
  }

  // ----- logs -----

  lemma AppendPartCost(route: Route, parts: seq<Part>, to: Topic, m: Message)
    requires Routed(route, parts, to, m.key)
    ensures Count(Append(route, parts, to, m), PartCost) <=
            Count(parts, PartCost) + (if to.Main? then 8 else if to.RetryOf? then 11 else 0)
  {
    var i := route(to, m.key);
    CountUpdate(parts, i, parts[i].(log := parts[i].log + [m]), PartCost);
  }

  lemma SamePartCost(a: seq<Part>, b: seq<Part>)
    requires |a| == |b|
    requires forall p :: 0 <= p < |a| ==> a[p].topic == b[p].topic && a[p].log == b[p].log && a[p].pos == b[p].pos
    ensures Count(a, PartCost) == Count(b, PartCost)
  {
    CountMono(a, b, PartCost, PartCost);
    CountMono(b, a, PartCost, PartCost);
  }

  // ----- a worker's call -----

  lemma SumDrops(ids: set<JobId>, f: JobId -> nat, g: JobId -> nat, x: JobId, d: nat)
    requires x in ids && f(x) + d <= g(x) && forall y :: y in ids ==> f(y) <= g(y)
    ensures Sum(ids, f) + d <= Sum(ids, g)
  {
    SumPick(ids, f, x);
    SumPick(ids, g, x);
    SumMono(ids - {x}, f, g);
  }

  /** No call adds a chance, and a retry takes one away. */
  lemma CallChances(cfg: Config, s: Sys, w: nat, c: Choice, j: JobId)
    requires StepWorker(cfg, s, w, c).Some? && s.workers[w].value.msg.tier == cfg.workerTier[w] && j in s.rows
    ensures Chances(StepWorker(cfg, s, w, c).value)(j) + Sends(s.workers[w].value, j) <= Chances(s)(j)
  {
    var k := s.workers[w].value;
    var f := WorkCallEffect(cfg, s, cfg.workerTier[w], k, c).value;
    var t := ApplyWork(s, w, f);
    var open := Left(s.rows, j) > 0;
    CallLeft(cfg, s, cfg.workerTier[w], k, c, j);
    CallChance(cfg, s, cfg.workerTier[w], k, c, j);
    CountMono(t.workers, t.workers, Chance(Left(t.rows, j) > 0, j), Chance(open, j));
    CountUpdate(s.workers, w, f.task, Chance(open, j));
  }

  /** One for a call that puts a retry on a log. */
  lemma CallCost(cfg: Config, s: Sys, tier: Tier, k: Task, c: Choice)
    requires WorkCallEffect(cfg, s, tier, k, c).Some?
    ensures var f := WorkCallEffect(cfg, s, tier, k, c).value;
            WorkCost(f.task) < WorkCost(Some(k)) && f.rows.Keys == s.rows.Keys &&
            (match Redelivery.Target(tier, k, f) case Some(to) => !to.Main? case None => true) &&
            (Redelivery.Target(tier, k, f) == Some(RetryOf(tier)) ==> k.msg.id in s.rows && Sends(k, k.msg.id) == 1)
  {
  }

  lemma CallParts(cfg: Config, s: Sys, tier: Tier, k: Task, c: Choice)
    requires WorkCallEffect(cfg, s, tier, k, c).Some?
    ensures var f := WorkCallEffect(cfg, s, tier, k, c).value;
            Count(f.parts, PartCost) <=
            Count(s.parts, PartCost) +
            (if Redelivery.Target(tier, k, f) == Some(RetryOf(tier)) then 11 else 0)
  {
    var f := WorkCallEffect(cfg, s, tier, k, c).value;
    CallCost(cfg, s, tier, k, c);
    Redelivery.WorkSends(cfg, s, tier, k, c);
    match Redelivery.Target(tier, k, f)
    case Some(to) => AppendPartCost(cfg.route, s.parts, to, Resent(s, k, c));
    case None =>
      CallReads(cfg, s, tier, k, c);
      SamePartCost(s.parts, f.parts);
  }

  lemma CallReads(cfg: Config, s: Sys, tier: Tier, k: Task, c: Choice)
    requires WorkCallEffect(cfg, s, tier, k, c).Some?
    ensures var parts := WorkCallEffect(cfg, s, tier, k, c).value.parts;
            |parts| == |s.parts| && forall p :: 0 <= p < |parts| ==> parts[p].pos == s.parts[p].pos
  {
    Redelivery.WorkExtends(cfg, s, tier, k, c);
  }

  lemma WorkerBurns(cfg: Config, s: Sys, w: nat, c: Choice)
    requires StepWorker(cfg, s, w, c).Some? && s.workers[w].value.msg.tier == cfg.workerTier[w]
    ensures Fuel(StepWorker(cfg, s, w, c).value) < Fuel(s)
  {
    var k := s.workers[w].value;
    var tier := cfg.workerTier[w];
    var f := WorkCallEffect(cfg, s, tier, k, c).value;
    var t := ApplyWork(s, w, f);
    CallCost(cfg, s, tier, k, c);
    CallParts(cfg, s, tier, k, c);
    CountUpdate(s.workers, w, f.task, WorkCost);
    forall j | j in s.rows ensures Chances(t)(j) + Sends(k, j) <= Chances(s)(j) {
      CallChances(cfg, s, w, c, j);
    }
    if Redelivery.Target(tier, k, f) == Some(RetryOf(tier)) {
      SumDrops(s.rows.Keys, Chances(t), Chances(s), k.msg.id, 1);
    } else {
      SumMono(s.rows.Keys, Chances(t), Chances(s));
    }
  }

  // ----- the other calls -----

  /** The same chances where attempts are the same and no worker is armed or landing that was not. */
  lemma SameChances(s: Sys, t: Sys)
    requires t.rows.Keys == s.rows.Keys && |t.workers| == |s.workers|
    requires forall j :: j in s.rows ==> Left(t.rows, j) == Left(s.rows, j)
    requires forall w, open, j :: 0 <= w < |s.workers| ==>
               Chance(open, j)(t.workers[w]) == Chance(open, j)(s.workers[w])
    ensures Sum(t.rows.Keys, Chances(t)) <= Sum(s.rows.Keys, Chances(s))
  {
    forall j | j in s.rows ensures Chances(t)(j) <= Chances(s)(j) {
      CountMono(t.workers, s.workers, Chance(Left(s.rows, j) > 0, j), Chance(Left(s.rows, j) > 0, j));
    }
    SumMono(s.rows.Keys, Chances(t), Chances(s));
  }

  lemma FetchBurns(cfg: Config, s: Sys, w: nat, p: nat)
    requires StepFetch(cfg, s, w, p).Some?
    ensures Fuel(StepFetch(cfg, s, w, p).value) < Fuel(s)
  {
    var t := StepFetch(cfg, s, w, p).value;
    CountUpdate(s.parts, p, t.parts[p], PartCost);
    CountUpdate(s.workers, w, t.workers[w], WorkCost);
    SameChances(s, t);
  }

  lemma PickBurns(cfg: Config, s: Sys, r: nat, p: nat)
    requires StepPick(cfg, s, r, p).Some?
    ensures Fuel(StepPick(cfg, s, r, p).value) < Fuel(s)
  {
    var t := StepPick(cfg, s, r, p).value;
    CountUpdate(s.parts, p, t.parts[p], PartCost);
    CountUpdate(s.routers, r, t.routers[r], HaulCost);
    SameChances(s, t);
  }

  lemma RouterBurns(cfg: Config, s: Sys, r: nat, c: Choice)
    requires StepRouter(cfg, s, r, c).Some?
    ensures Fuel(StepRouter(cfg, s, r, c).value) < Fuel(s)
  {
    var t := StepRouter(cfg, s, r, c).value;
    var h := s.routers[r].value;
    if h.sent {
      SamePartCost(s.parts, t.parts);
    } else {
      AppendPartCost(cfg.route, s.parts, Main(cfg.routerTier[r]), h.msg.(headers := c.headers));
    }
    CountUpdate(s.routers, r, t.routers[r], HaulCost);
    SameChances(s, t);
  }

  lemma SubParts(cfg: Config, s: Sys, b: Sub, c: Choice)
    requires SubCallEffect(cfg, s, b, c).Some?
    ensures Count(SubCallEffect(cfg, s, b, c).value.parts, PartCost) <=
            Count(s.parts, PartCost) + (if b.stage == Inserted then 8 else 0)
  {
    if b.stage == Inserted {
      var r := s.rows[b.id];
      AppendPartCost(cfg.route, s.parts, Main(r.tier), MessageFor(b.id, r, c.headers));
    } else {
      Frames.SubPublishesNothing(cfg, s, b, c);
    }
  }

  lemma SubStage(cfg: Config, s: Sys, b: Sub, c: Choice, n: nat)
    requires SubCallEffect(cfg, s, b, c).Some?
    ensures var f := SubCallEffect(cfg, s, b, c).value;
            SubCost(n)(f.sub) + (if f.rows.Keys != s.rows.Keys then JobCost(n) else 0) +
            (if b.stage == Inserted then 8 else 0) < SubCost(n)(b)
  {
  }

  lemma SubRows(cfg: Config, s: Sys, b: Sub, c: Choice)
    requires SubCallEffect(cfg, s, b, c).Some?
    ensures var rows := SubCallEffect(cfg, s, b, c).value.rows;
            (rows.Keys == s.rows.Keys ||
             (c.id !in s.rows && rows.Keys == s.rows.Keys + {c.id} && Left(rows, c.id) <= MAX_ATTEMPTS - 1)) &&
            forall j :: j in s.rows ==> Left(rows, j) == Left(s.rows, j)
  {
  }

  lemma {:induction false} ChanceBound(ws: seq<Option<Task>>, open: bool, j: JobId)
    ensures Count(ws, Chance(open, j)) <= 2 * |ws|
  {
    if ws != [] { ChanceBound(ws[1..], open, j); }
  }

  lemma OldRowChances(s: Sys, t: Sys)
    requires t.workers == s.workers && forall j :: j in s.rows ==> j in t.rows && Left(t.rows, j) == Left(s.rows, j)
    ensures Sum(s.rows.Keys, Chances(t)) <= Sum(s.rows.Keys, Chances(s))
  {
    forall j | j in s.rows ensures Chances(t)(j) <= Chances(s)(j) {
    }
    SumMono(s.rows.Keys, Chances(t), Chances(s));
  }

  /** A new row brings its own chances, and leaves those of the others alone. */
  lemma NewRowChances(s: Sys, t: Sys, id: JobId)
    requires t.workers == s.workers && forall j :: j in s.rows ==> j in t.rows && Left(t.rows, j) == Left(s.rows, j)
    requires id !in s.rows && t.rows.Keys == s.rows.Keys + {id} && Left(t.rows, id) <= MAX_ATTEMPTS - 1
    ensures Sum(t.rows.Keys, Chances(t)) <= Sum(s.rows.Keys, Chances(s)) + MAX_ATTEMPTS - 1 + 2 * |s.workers|
  {
    OldRowChances(s, t);
    SumPick(t.rows.Keys, Chances(t), id);
    assert t.rows.Keys - {id} == s.rows.Keys;
    ChanceBound(t.workers, Left(t.rows, id) > 0, id);
  }

  /** What the effect takes off logs and submissions is more than what it adds to the chances. */
  lemma AppliedSub(s: Sys, i: nat, f: SubEffect, extra: nat)
    requires i < |s.subs|
    requires Count(f.parts, PartCost) + SubCost(|s.workers|)(f.sub) + extra <
             Count(s.parts, PartCost) + SubCost(|s.workers|)(s.subs[i])
    requires 11 * Sum(f.rows.Keys, Chances(ApplySub(s, i, f))) <= 11 * Sum(s.rows.Keys, Chances(s)) + extra
    ensures Fuel(ApplySub(s, i, f)) < Fuel(s)
  {
    CountUpdate(s.subs, i, f.sub, SubCost(|s.workers|));
  }

  lemma SubBurns(cfg: Config, s: Sys, i: nat, c: Choice)
    requires StepSub(cfg, s, i, c).Some?
    ensures Fuel(StepSub(cfg, s, i, c).value) < Fuel(s)
  {
    var f := SubCallEffect(cfg, s, s.subs[i], c).value;
    SubParts(cfg, s, s.subs[i], c);
    SubStage(cfg, s, s.subs[i], c, |s.workers|);
    SubRows(cfg, s, s.subs[i], c);
    if f.rows.Keys == s.rows.Keys { SameChances(s, ApplySub(s, i, f)); }
    else { NewRowChances(s, ApplySub(s, i, f), c.id); }
    AppliedSub(s, i, f, if f.rows.Keys != s.rows.Keys then JobCost(|s.workers|) else 0);
  }

  // ----- every event -----

  /** The calls and reads that processes make by themselves; time, heartbeats and new submissions are not counted. */
  predicate IsStep(e: Event) {
    e.SubCall? || e.Fetch? || e.WorkerCall? || e.Pick? || e.RouterCall?
  }

  /** What a new submission adds. */
  function ArrivalCost(n: nat): nat {
    JobCost(n) + 12
  }

  lemma StepBurns(cfg: Config, s: Sys, e: Event)
    requires Routing.Inv(cfg, s) && IsStep(e) && Next(cfg, s, e).Some?
    ensures Fuel(Next(cfg, s, e).value) < Fuel(s) && |Next(cfg, s, e).value.workers| == |s.workers|
  {
    match e
    case SubCall(i, c) => SubBurns(cfg, s, i, c);
    case Fetch(w, p) => FetchBurns(cfg, s, w, p);
    case WorkerCall(w, c) =>
      assert Routing.TaskOk(cfg, s.rows, w, s.workers[w]);
      WorkerBurns(cfg, s, w, c);
    case Pick(r, p) => PickBurns(cfg, s, r, p);
    case RouterCall(r, c) => RouterBurns(cfg, s, r, c);
  }

  lemma ArrivalBurns(s: Sys, b: Sub)
    requires b.stage in {Closed, Claiming, Inserting}
    ensures Fuel(s.(subs := s.subs + [b])) <= Fuel(s) + ArrivalCost(|s.workers|)
  {
    CountSnoc(s.subs, b, SubCost(|s.workers|));
    SameChances(s, s.(subs := s.subs + [b]));
  }

  lemma TickBurns(cfg: Config, s: Sys, e: Event)
    requires (e.Tick? || e.Beat?) && Next(cfg, s, e).Some?
    ensures |Next(cfg, s, e).value.workers| == |s.workers| && Fuel(Next(cfg, s, e).value) <= Fuel(s)
  {
    SameChances(s, Next(cfg, s, e).value);
  }

  lemma OtherBurns(cfg: Config, s: Sys, e: Event)
    requires (e.Tick? || e.Beat? || e.Arrive?) && Next(cfg, s, e).Some?
    ensures var t := Next(cfg, s, e).value;
            |t.workers| == |s.workers| && Fuel(t) <= Fuel(s) + (if e.Arrive? then ArrivalCost(|s.workers|) else 0)
  {
    if e.Arrive? { ArrivalBurns(s, Arrival(e.req, e.api)); } else { TickBurns(cfg, s, e); }
  }

  function Steps(es: seq<Event>): nat {
    Count(es, (e: Event) => if IsStep(e) then 1 else 0)
  }

  function Arrivals(es: seq<Event>): nat {
    Count(es, (e: Event) => if e.Arrive? then 1 else 0)
  }

  // ----- whole runs -----

  lemma PlainKinds(e: Event)
    ensures e.IsPlain() <==> IsStep(e) || e.Tick? || e.Beat? || e.Arrive?
  {
  }

  /** What the submissions of a run may cost. */
  function Allowance(n: nat): Event -> nat {
    (e: Event) => if e.Arrive? then ArrivalCost(n) else 0
  }

  lemma EventBurns(cfg: Config, s: Sys, e: Event)
    requires Routing.Inv(cfg, s) && e.IsPlain() && Next(cfg, s, e).Some?
    ensures var t := Next(cfg, s, e).value;
            |t.workers| == |s.workers| &&
            Fuel(t) + (if IsStep(e) then 1 else 0) <= Fuel(s) + Allowance(|s.workers|)(e)
  {
    PlainKinds(e);
    if IsStep(e) { StepBurns(cfg, s, e); } else { OtherBurns(cfg, s, e); }
  }

  lemma {:induction false} RunBurns(cfg: Config, s: Sys, es: seq<Event>, t: Sys)
    requires Routing.Inv(cfg, s) && Plain(es) && Run(cfg, s, es, t)
    ensures |t.workers| == |s.workers| && Routing.Inv(cfg, t)
    ensures Steps(es) + Fuel(t) <= Fuel(s) + Count(es, Allowance(|s.workers|))
    decreases |es|
  {
    if es != [] {
      var m := Next(cfg, s, es[0]).value;
      assert es[0].IsPlain();
      EventBurns(cfg, s, es[0]);
      Routing.InvNext(cfg, s, es[0]);
      RunBurns(cfg, m, es[1..], t);
    }
  }

  lemma {:induction false} AllowanceIsArrivals(es: seq<Event>, n: nat)
    ensures Count(es, Allowance(n)) == ArrivalCost(n) * Arrivals(es)
  {
    if es != [] {
      AllowanceIsArrivals(es[1..], n);
      assert ArrivalCost(n) * (1 + Arrivals(es[1..])) == ArrivalCost(n) + ArrivalCost(n) * Arrivals(es[1..]);
    }
  }

  // ----- where runs can end -----

  /** Nobody can make a step, now or at any later time. */
  ghost predicate Stuck(cfg: Config, s: Sys) {
    forall d: nat, e :: !CanStep(cfg, s, d, e)
  }

  predicate CanStep(cfg: Config, s: Sys, d: nat, e: Event) {
    IsStep(e) && Next(cfg, s.(now := s.now + d), e).Some?
  }

  /** Everything that is consumed has been read, and nobody has anything in hand. */
  predicate Quiet(s: Sys) {
    (forall i :: 0 <= i < |s.subs| ==> s.subs[i].stage == Closed) &&
    (forall w :: 0 <= w < |s.workers| ==> s.workers[w].None?) &&
    (forall r :: 0 <= r < |s.routers| ==> s.routers[r].None?) &&
    forall p :: 0 <= p < |s.parts| && !s.parts[p].topic.Dlq? ==> s.parts[p].pos >= |s.parts[p].log|
  }

  lemma QuietIsStuck(cfg: Config, s: Sys)
    requires Quiet(s)
    ensures Stuck(cfg, s)
  {
  }

  lemma SubGoesOn(cfg: Config, u: Serial.Setup, s: Sys, i: nat) returns (c: Choice)
    requires Recovery.Manned(cfg, u, s) && Routing.Inv(cfg, s) && i < |s.subs| && s.subs[i].stage != Closed
    ensures CanStep(cfg, s, 0, SubCall(i, c))
  {
    var b := s.subs[i];
    assert Routing.SubOk(s.rows, b);
    c := Atomic.PLAIN;
    if b.stage == Existing && Taken(s.rows, b.req.key, b.req.typ) {
      var id :| id in s.rows && s.rows[id].key == b.req.key && s.rows[id].typ == b.req.typ;
      c := c.(found := Some(id));
    } else if b.stage == Inserted {
      assert Routed(cfg.route, s.parts, Main(s.rows[b.id].tier), s.rows[b.id].device);
    }
    assert s.(now := s.now + 0) == s;
  }

  lemma WorkerGoesOn(cfg: Config, u: Serial.Setup, s: Sys, w: nat)
    requires Recovery.Manned(cfg, u, s) && w < |s.workers| && s.workers[w].Some?
    ensures CanStep(cfg, s, 0, WorkerCall(w, Atomic.PLAIN))
  {
    var k := s.workers[w].value;
    var tier := cfg.workerTier[w];
    assert Routed(cfg.route, s.parts, RetryOf(tier), k.msg.id) && Routed(cfg.route, s.parts, Dlq, k.msg.id);
    Recovery.CallGoesOn(cfg, s, tier, k);
    assert s.(now := s.now + 0) == s;
  }

  lemma RouterGoesOn(cfg: Config, u: Serial.Setup, s: Sys, r: nat) returns (d: nat)
    requires Recovery.Manned(cfg, u, s) && r < |s.routers| && s.routers[r].Some?
    ensures CanStep(cfg, s, d, RouterCall(r, Atomic.PLAIN))
  {
    var h := s.routers[r].value;
    d := if s.now < h.until then h.until - s.now else 0;
    assert Routed(cfg.route, s.parts, Main(cfg.routerTier[r]), h.msg.key);
  }

  lemma ReaderGoesOn(cfg: Config, u: Serial.Setup, s: Sys, p: nat) returns (e: Event)
    requires Recovery.Manned(cfg, u, s) && p < |s.parts| && !s.parts[p].topic.Dlq? && s.parts[p].pos < |s.parts[p].log|
    requires (forall w :: 0 <= w < |s.workers| ==> s.workers[w].None?)
    requires forall r :: 0 <= r < |s.routers| ==> s.routers[r].None?
    ensures CanStep(cfg, s, 0, e)
  {
    assert Atomic.Assigned(cfg, s.parts[p]);
    e := if s.parts[p].topic.Main? then Fetch(s.parts[p].owner, p) else Pick(s.parts[p].owner, p);
    assert s.(now := s.now + 0) == s;
  }

  /** Where all partitions are manned, only a quiet system is stuck. */
  lemma StuckIsQuiet(cfg: Config, u: Serial.Setup, s: Sys)
    requires Recovery.Manned(cfg, u, s) && Routing.Inv(cfg, s) && Stuck(cfg, s)
    ensures Quiet(s)
  {
    forall i | 0 <= i < |s.subs| ensures s.subs[i].stage == Closed {
      if s.subs[i].stage != Closed { var c := SubGoesOn(cfg, u, s, i); }
    }
    forall w | 0 <= w < |s.workers| ensures s.workers[w].None? {
      if s.workers[w].Some? { WorkerGoesOn(cfg, u, s, w); }
    }
    forall r | 0 <= r < |s.routers| ensures s.routers[r].None? {
      if s.routers[r].Some? { var d := RouterGoesOn(cfg, u, s, r); }
    }
    forall p | 0 <= p < |s.parts| && !s.parts[p].topic.Dlq? ensures s.parts[p].pos >= |s.parts[p].log| {
      if s.parts[p].pos < |s.parts[p].log| { var e := ReaderGoesOn(cfg, u, s, p); }
    }
  }

  // ----- the theorem -----

  lemma StaysManned(cfg: Config, u: Serial.Setup, s: Sys, es: seq<Event>, t: Sys)
    requires Recovery.Manned(cfg, u, s) && Plain(es) && Run(cfg, s, es, t)
    ensures Recovery.Manned(cfg, u, t)
  {
    Tightness.PlainRunOwners(cfg, s, es, t);
    CrewStays(cfg, s, es, t);
    Recovery.StillManned(cfg, u, s, t);
  }

  /** Processes and topics are there for good. */
  predicate SameCrew(s: Sys, t: Sys) {
    |t.workers| == |s.workers| && |t.routers| == |s.routers| &&
    forall p :: 0 <= p < |s.parts| && p < |t.parts| ==> t.parts[p].topic == s.parts[p].topic
  }

  lemma CrewStep(cfg: Config, s: Sys, e: Event)
    requires Next(cfg, s, e).Some?
    ensures SameCrew(s, Next(cfg, s, e).value) && |Next(cfg, s, e).value.parts| == |s.parts|
  {
    var t := Next(cfg, s, e).value;
    if Redelivery.IsCall(e) { Redelivery.CallExtends(cfg, s, e); }
    forall p | 0 <= p < |s.parts| && p < |t.parts| ensures t.parts[p].topic == s.parts[p].topic {
      Redelivery.PartStep(cfg, s, e, p);
    }
  }

  lemma {:induction false} CrewStays(cfg: Config, s: Sys, es: seq<Event>, t: Sys)
    requires Run(cfg, s, es, t)
    ensures SameCrew(s, t) && |t.parts| == |s.parts|
    decreases |es|
  {
    if es != [] {
      CrewStep(cfg, s, es[0]);
      CrewStays(cfg, Next(cfg, s, es[0]).value, es[1..], t);
    }
  }

  /**
   After any run without forgetting failures, once all partitions are manned: a plain continuation makes at most `Fuel`
   steps, and `ArrivalCost` more for each new submission. It can make no further step, now or later, exactly when
   everything is read and everybody idle; and then every published job is dead-lettered or recorded as a success.
   */
  lemma EveryContinuationEnds(cfg: Config, u: Serial.Setup, s: Sys, es: seq<Event>, t: Sys, fs: seq<Event>, v: Sys)
    requires Init(s) && Mindful(cfg, s, es) && Run(cfg, s, es, t) && Recovery.Manned(cfg, u, t)
    requires Plain(fs) && Run(cfg, t, fs, v)
    ensures Steps(fs) + Fuel(v) <= Fuel(t) + ArrivalCost(|t.workers|) * Arrivals(fs)
    ensures Stuck(cfg, v) <==> Quiet(v)
    ensures Quiet(v) ==>
              forall j :: IsPublished(v, j) ==> (exists p, i :: DeadFor(v, p, i, j)) || v.work.successes[j] > 0
  {
    var done := InvRun(cfg, s, {}, es, t);
    Routing.InvRun(cfg, s, es, t);
    RunBurns(cfg, t, fs, v);
    AllowanceIsArrivals(fs, |t.workers|);
    StaysManned(cfg, u, t, fs, v);
    if Stuck(cfg, v) { StuckIsQuiet(cfg, u, v); }
    if Quiet(v) {
      QuietIsStuck(cfg, v);
      Recovery.PlainIsMindful(cfg, t, fs);
      var more := InvRun(cfg, t, done, fs, v);
      forall j | IsPublished(v, j) ensures (exists p, i :: DeadFor(v, p, i, j)) || v.work.successes[j] > 0 {
        Recovery.DrainedIsDecided(v, more, j);
      }
    }
  }
}

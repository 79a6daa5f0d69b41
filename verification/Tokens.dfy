/**
 Conservation of messages in runs without crashes and failed calls: every publish of a job is, at every
 moment, in exactly one place.
 */
module Tokens {
  import opened Prelude
  import opened Jobs
  import opened Store
  import opened Broker
  import opened Protocol
  import Routing

  /** In a worker's hands and not yet disposed of. */
  function InHand(t: Option<Task>, f: Message -> nat): nat {
    if t.Some? && t.value.phase in {Fetched, Loaded, InHandler, HandlerOk, HandlerErr} then f(t.value.msg) else 0
  }

  function InWorker(f: Message -> nat): Option<Task> -> nat {
    (t: Option<Task>) => InHand(t, f)
  }

  function OnHold(h: Option<Haul>, f: Message -> nat): nat {
    if h.Some? && !h.value.sent then f(h.value.msg) else 0
  }

  function InRouter(f: Message -> nat): Option<Haul> -> nat {
    (h: Option<Haul>) => OnHold(h, f)
  }

  /** The weight of every message that is somewhere on its way. */
  function Pending(s: Sys, f: Message -> nat): nat {
    Count(s.parts, InLogs(f)) + Count(s.workers, InWorker(f)) + Count(s.routers, InRouter(f))
  }

  function Held(s: Sys, j: JobId): nat {
    Pending(s, For(j)) + s.work.successes[j]
  }

  predicate Calm(e: Event) {
    !e.IsCrash() && !e.IsError()
  }

  predicate AllCalm(es: seq<Event>) {
    forall i :: 0 <= i < |es| ==> Calm(es[i])
  }

  ghost predicate Conserved(s: Sys, j: JobId) {
    Held(s, j) == s.subm.subPubs[j] + s.reap.reaperPubs[j]
  }

  ghost predicate Inv(s: Sys) {
    Positioned(s.parts) && forall j :: Conserved(s, j)
  }

  lemma CommitCounts(parts: seq<Part>, p: nat, off: nat, f: Message -> nat)
    requires Positioned(parts)
    ensures Positioned(Commit(parts, p, off))
    ensures Count(Commit(parts, p, off), InLogs(f)) == Count(parts, InLogs(f))
  {
    if p < |parts| {
      CountUpdate(parts, p, parts[p].(committed := off + 1), InLogs(f));
    }
  }

  // ----- calls -----

  lemma ResendMoves(cfg: Config, s: Sys, tier: Tier, k: Task, c: Choice, g: Message -> nat)
    requires Positioned(s.parts)
    ensures DeadLetterEffect(cfg, s, k, c).Some? ==>
            var f := DeadLetterEffect(cfg, s, k, c).value;
            Positioned(f.parts) && Count(f.parts, InLogs(g)) == Count(s.parts, InLogs(g)) + g(Resent(s, k, c))
    ensures RetryEffect(cfg, s, tier, k, c).Some? ==>
            var f := RetryEffect(cfg, s, tier, k, c).value;
            Positioned(f.parts) && Count(f.parts, InLogs(g)) == Count(s.parts, InLogs(g)) + g(Resent(s, k, c))
  {
    var m := Resent(s, k, c);
    if Routed(cfg.route, s.parts, Dlq, m.key) { AppendCounts(cfg.route, s.parts, Dlq, m, g); }
    if Routed(cfg.route, s.parts, RetryOf(tier), m.key) { AppendCounts(cfg.route, s.parts, RetryOf(tier), m, g); }
  }

  /** One if this call of the worker puts a copy of its message on a log. */
  function Sent(cfg: Config, s: Sys, tier: Tier, k: Task, c: Choice, g: Message -> nat): nat
    requires WorkCallEffect(cfg, s, tier, k, c).Some?
  {
    var f := WorkCallEffect(cfg, s, tier, k, c).value;
    if k.phase in {Loaded, HandlerErr} && f.task.Some? &&
    f.task.value.phase in {RetrySent, DlqSent} then g(Resent(s, k, c)) else 0
  }

  lemma WorkCallLogs(cfg: Config, s: Sys, tier: Tier, k: Task, c: Choice, g: Message -> nat)
    requires Positioned(s.parts) && WorkCallEffect(cfg, s, tier, k, c).Some?
    ensures var f := WorkCallEffect(cfg, s, tier, k, c).value;
            Positioned(f.parts) && Count(f.parts, InLogs(g)) == Count(s.parts, InLogs(g)) + Sent(cfg, s, tier, k, c, g)
  {
    match k.phase
    case Done => CommitCounts(s.parts, k.part, k.off, g);
    case HandlerErr => SendingLogs(cfg, s, tier, k, c, g);
    case Loaded => SendingLogs(cfg, s, tier, k, c, g);
    case _ => assert WorkCallEffect(cfg, s, tier, k, c).value.parts == s.parts;
  }

  lemma SendingLogs(cfg: Config, s: Sys, tier: Tier, k: Task, c: Choice, g: Message -> nat)
    requires Positioned(s.parts) && WorkCallEffect(cfg, s, tier, k, c).Some? && k.phase in {Loaded, HandlerErr}
    ensures var f := WorkCallEffect(cfg, s, tier, k, c).value;
            Positioned(f.parts) && Count(f.parts, InLogs(g)) == Count(s.parts, InLogs(g)) + Sent(cfg, s, tier, k, c, g)
  {
    var loaded := k.(err := "no handler");
    assert k.phase == Loaded ==> Resent(s, loaded, c) == Resent(s, k, c);
    ResendMoves(cfg, s, tier, if k.phase == Loaded then loaded else k, c, g);
  }

  lemma WorkCallHands(cfg: Config, s: Sys, tier: Tier, k: Task, c: Choice, j: JobId)
    requires WorkCallEffect(cfg, s, tier, k, c).Some? && k.msg.tier == tier && k.msg.id in s.rows
    ensures var f := WorkCallEffect(cfg, s, tier, k, c).value;
            Sent(cfg, s, tier, k, c, For(j)) + InWorker(For(j))(f.task) + f.log.successes[j] ==
            InWorker(For(j))(Some(k)) + s.work.successes[j]
  {
  }

  /** A worker's call moves the message it holds, and no other. */
  lemma WorkCallMoves(cfg: Config, s: Sys, tier: Tier, k: Task, c: Choice, j: JobId)
    requires Positioned(s.parts) && WorkCallEffect(cfg, s, tier, k, c).Some?
    requires k.msg.tier == tier && k.msg.id in s.rows
    ensures var f := WorkCallEffect(cfg, s, tier, k, c).value;
            Positioned(f.parts) &&
            Count(f.parts, InLogs(For(j))) + InWorker(For(j))(f.task) + f.log.successes[j] ==
            Count(s.parts, InLogs(For(j))) + InWorker(For(j))(Some(k)) + s.work.successes[j]
  {
    WorkCallLogs(cfg, s, tier, k, c, For(j));
    WorkCallHands(cfg, s, tier, k, c, j);
  }

  lemma SubCallMoves(cfg: Config, s: Sys, b: Sub, c: Choice, j: JobId)
    requires Positioned(s.parts) && SubCallEffect(cfg, s, b, c).Some?
    ensures var f := SubCallEffect(cfg, s, b, c).value;
            Positioned(f.parts) &&
            Count(f.parts, InLogs(For(j))) - f.log.subPubs[j] == Count(s.parts, InLogs(For(j))) - s.subm.subPubs[j]
  {
    if b.stage == Inserted {
      var r := s.rows[b.id];
      AppendCounts(cfg.route, s.parts, Main(r.tier), MessageFor(b.id, r, c.headers), For(j));
    }
  }

  lemma ReapCallMoves(cfg: Config, s: Sys, a: Reaper, c: Choice, j: JobId)
    requires Positioned(s.parts) && ReapCallEffect(cfg, s, a, c).Some?
    ensures var f := ReapCallEffect(cfg, s, a, c).value;
            Positioned(f.parts) &&
            Count(f.parts, InLogs(For(j))) - f.log.reaperPubs[j] ==
            Count(s.parts, InLogs(For(j))) - s.reap.reaperPubs[j]
  {
    if a.pending.Some? {
      var (id, r) := a.pending.value;
      AppendCounts(cfg.route, s.parts, Main(r.tier), MessageFor(id, r, c.headers), For(j));
    }
  }

  lemma RouteCallMoves(cfg: Config, s: Sys, tier: Tier, h: Haul, c: Choice, j: JobId)
    requires Positioned(s.parts) && RouteCallEffect(cfg, s, tier, h, c).Some?
    ensures var f := RouteCallEffect(cfg, s, tier, h, c).value;
            Positioned(f.parts) &&
            Count(f.parts, InLogs(For(j))) + InRouter(For(j))(f.haul) ==
            Count(s.parts, InLogs(For(j))) + InRouter(For(j))(Some(h))
  {
    if h.sent {
      CommitCounts(s.parts, h.part, h.off, For(j));
    } else {
      AppendCounts(cfg.route, s.parts, Main(tier), h.msg.(headers := c.headers), For(j));
    }
  }

  // ----- events -----

  lemma FetchEvent(cfg: Config, s: Sys, w: nat, p: nat, f: Message -> nat)
    requires Positioned(s.parts) && StepFetch(cfg, s, w, p).Some?
    ensures var t := StepFetch(cfg, s, w, p).value; Positioned(t.parts) && Pending(t, f) == Pending(s, f)
  {
    FetchCounts(s.parts, p, f);
    CountUpdate(s.workers, w, StepFetch(cfg, s, w, p).value.workers[w], InWorker(f));
  }

  lemma PickEvent(cfg: Config, s: Sys, r: nat, p: nat, f: Message -> nat)
    requires Positioned(s.parts) && StepPick(cfg, s, r, p).Some?
    ensures var t := StepPick(cfg, s, r, p).value; Positioned(t.parts) && Pending(t, f) == Pending(s, f)
  {
    FetchCounts(s.parts, p, f);
    CountUpdate(s.routers, r, StepPick(cfg, s, r, p).value.routers[r], InRouter(f));
  }

  lemma CallEvent(cfg: Config, s: Sys, e: Event, j: JobId)
    requires Routing.Inv(cfg, s) && Positioned(s.parts) && Conserved(s, j) && Next(cfg, s, e).Some?
    requires e.WorkerCall? || e.SubCall? || e.ReaperCall? || e.RouterCall?
    ensures Positioned(Next(cfg, s, e).value.parts) && Conserved(Next(cfg, s, e).value, j)
  {
    var t := Next(cfg, s, e).value;
    match e
    case WorkerCall(w, c) =>
      assert Routing.TaskOk(cfg, s.rows, w, s.workers[w]);
      WorkCallMoves(cfg, s, cfg.workerTier[w], s.workers[w].value, c, j);
      CountUpdate(s.workers, w, t.workers[w], InWorker(For(j)));
    case RouterCall(r, c) =>
      RouteCallMoves(cfg, s, cfg.routerTier[r], s.routers[r].value, c, j);
      CountUpdate(s.routers, r, t.routers[r], InRouter(For(j)));
    case SubCall(i, c) => SubCallMoves(cfg, s, s.subs[i], c, j);
    case ReaperCall(i, c) => ReapCallMoves(cfg, s, s.reapers[i], c, j);
  }

  lemma Step(cfg: Config, s: Sys, e: Event, j: JobId)
    requires Routing.Inv(cfg, s) && Positioned(s.parts) && Conserved(s, j) && Calm(e) && Next(cfg, s, e).Some?
    ensures Positioned(Next(cfg, s, e).value.parts) && Conserved(Next(cfg, s, e).value, j)
  {
    if e.Fetch? { FetchEvent(cfg, s, e.i, e.p, For(j)); }
    else if e.Pick? { PickEvent(cfg, s, e.i, e.p, For(j)); }
    else if e.WorkerCall? || e.SubCall? || e.ReaperCall? || e.RouterCall? { CallEvent(cfg, s, e, j); }
  }

  lemma InvNext(cfg: Config, s: Sys, e: Event)
    requires Routing.Inv(cfg, s) && Inv(s) && Calm(e) && Next(cfg, s, e).Some?
    ensures Inv(Next(cfg, s, e).value)
  {
    var t := Next(cfg, s, e).value;
    assert Conserved(s, "");
    Step(cfg, s, e, "");
    forall j ensures Conserved(t, j) {
      assert Conserved(s, j);
      Step(cfg, s, e, j);
    }
  }

  lemma {:induction false} InvRun(cfg: Config, s: Sys, es: seq<Event>, t: Sys)
    requires Routing.Inv(cfg, s) && Inv(s) && AllCalm(es) && Run(cfg, s, es, t)
    ensures Inv(t)
    decreases |es|
  {
    if es != [] {
      assert Calm(es[0]);
      InvNext(cfg, s, es[0]);
      Routing.InvNext(cfg, s, es[0]);
      InvRun(cfg, Next(cfg, s, es[0]).value, es[1..], t);
    }
  }

  lemma InitInv(s: Sys)
    requires Init(s)
    ensures Inv(s)
  {
    forall j ensures Conserved(s, j) {
      CountZero(s.parts, InLogs(For(j)));
      CountZero(s.workers, InWorker(For(j)));
      CountZero(s.routers, InRouter(For(j)));
    }
  }

  // ----- the theorem -----

  /** The six places of a published message always sum to the number of publishes. */
  lemma EveryPublishIsInOnePlace(cfg: Config, s: Sys, es: seq<Event>, t: Sys, j: JobId)
    requires Init(s) && AllCalm(es) && Run(cfg, s, es, t)
    ensures Count(t.parts, OnMain(For(j))) + Count(t.workers, InWorker(For(j))) + Count(t.parts, OnRetry(For(j))) +
            Count(t.routers, InRouter(For(j))) + Count(t.parts, OnDlq(For(j))) + t.work.successes[j] ==
            t.subm.subPubs[j] + t.reap.reaperPubs[j]
  {
    InitInv(s);
    InvRun(cfg, s, es, t);
    assert Conserved(t, j);
    SplitLogs(t.parts, For(j));
  }
}

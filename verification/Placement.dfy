/**
 Which partition a message lies on, and under which key: the device for a submission or a reap, the job id
 for a retry. Holds on every run.
 */
module Placement {
  import opened Prelude
  import opened Jobs
  import opened Broker
  import opened Protocol

  predicate Keyed(m: Message) {
    m.key == m.device || m.key == m.id
  }

  ghost predicate PartPlaced(route: Route, p: nat, q: Part) {
    forall i :: 0 <= i < |q.log| ==>
      Keyed(q.log[i]) && route(q.topic, q.log[i].key) == p && (q.topic.Main? || q.log[i].key == q.log[i].id)
  }

  ghost predicate LogsPlaced(route: Route, parts: seq<Part>) {
    forall p :: 0 <= p < |parts| ==> PartPlaced(route, p, parts[p])
  }

  predicate TaskPlaced(cfg: Config, w: nat, t: Option<Task>) {
    t.Some? ==>
      w < |cfg.workerTier| && Keyed(t.value.msg) &&
      t.value.part == cfg.route(Main(cfg.workerTier[w]), t.value.msg.key)
  }

  predicate HaulPlaced(h: Option<Haul>) {
    h.Some? ==> Keyed(h.value.msg)
  }

  ghost predicate Inv(cfg: Config, s: Sys) {
    LogsPlaced(cfg.route, s.parts) &&
    (forall w :: 0 <= w < |s.workers| ==> TaskPlaced(cfg, w, s.workers[w])) &&
    (forall r :: 0 <= r < |s.routers| ==> HaulPlaced(s.routers[r]))
  }

  lemma AppendPlaced(route: Route, parts: seq<Part>, t: Topic, m: Message)
    requires LogsPlaced(route, parts) && Routed(route, parts, t, m.key) && Keyed(m) && (t.Main? || m.key == m.id)
    ensures LogsPlaced(route, Append(route, parts, t, m))
  {
    var after := Append(route, parts, t, m);
    forall p | 0 <= p < |after| ensures PartPlaced(route, p, after[p]) {
      assert PartPlaced(route, p, parts[p]);
    }
  }

  /** Logs with the same topics and contents are placed alike, whatever happened to the readers. */
  lemma SameLogsPlaced(route: Route, a: seq<Part>, b: seq<Part>)
    requires LogsPlaced(route, a) && |a| == |b|
    requires forall p :: 0 <= p < |a| ==> a[p].log == b[p].log && a[p].topic == b[p].topic
    ensures LogsPlaced(route, b)
  {
    forall p | 0 <= p < |b| ensures PartPlaced(route, p, b[p]) {
      assert PartPlaced(route, p, a[p]);
    }
  }

  lemma WorkCallPlaced(cfg: Config, s: Sys, w: nat, k: Task, c: Choice)
    requires LogsPlaced(cfg.route, s.parts) && TaskPlaced(cfg, w, Some(k))
    requires WorkCallEffect(cfg, s, cfg.workerTier[w], k, c).Some?
    ensures var f := WorkCallEffect(cfg, s, cfg.workerTier[w], k, c).value;
            LogsPlaced(cfg.route, f.parts) && TaskPlaced(cfg, w, f.task)
  {
    var m := Resent(s, k, c);
    match k.phase
    case Done => SameLogsPlaced(cfg.route, s.parts, Commit(s.parts, k.part, k.off));
    case HandlerErr =>
      if Routed(cfg.route, s.parts, Dlq, m.key) { AppendPlaced(cfg.route, s.parts, Dlq, m); }
      if Routed(cfg.route, s.parts, RetryOf(cfg.workerTier[w]), m.key) {
        AppendPlaced(cfg.route, s.parts, RetryOf(cfg.workerTier[w]), m);
      }
    case Loaded => if Routed(cfg.route, s.parts, Dlq, m.key) { AppendPlaced(cfg.route, s.parts, Dlq, m); }
    case _ =>
  }

  lemma RouteCallPlaced(cfg: Config, s: Sys, tier: Tier, h: Haul, c: Choice)
    requires LogsPlaced(cfg.route, s.parts) && Keyed(h.msg) && RouteCallEffect(cfg, s, tier, h, c).Some?
    ensures var f := RouteCallEffect(cfg, s, tier, h, c).value; LogsPlaced(cfg.route, f.parts) && HaulPlaced(f.haul)
  {
    if h.sent {
      SameLogsPlaced(cfg.route, s.parts, Commit(s.parts, h.part, h.off));
    } else {
      AppendPlaced(cfg.route, s.parts, Main(tier), h.msg.(headers := c.headers));
    }
  }

  lemma SubCallPlaced(cfg: Config, s: Sys, b: Sub, c: Choice)
    requires LogsPlaced(cfg.route, s.parts) && SubCallEffect(cfg, s, b, c).Some?
    ensures LogsPlaced(cfg.route, SubCallEffect(cfg, s, b, c).value.parts)
  {
    if b.stage == Inserted {
      var r := s.rows[b.id];
      AppendPlaced(cfg.route, s.parts, Main(r.tier), MessageFor(b.id, r, c.headers));
    }
  }

  lemma ReapCallPlaced(cfg: Config, s: Sys, a: Reaper, c: Choice)
    requires LogsPlaced(cfg.route, s.parts) && ReapCallEffect(cfg, s, a, c).Some?
    ensures LogsPlaced(cfg.route, ReapCallEffect(cfg, s, a, c).value.parts)
  {
    if a.pending.Some? {
      var (id, r) := a.pending.value;
      AppendPlaced(cfg.route, s.parts, Main(r.tier), MessageFor(id, r, c.headers));
    }
  }

  lemma FetchPlaced(cfg: Config, s: Sys, e: Event)
    requires Inv(cfg, s) && (e.Fetch? || e.Pick?) && Next(cfg, s, e).Some?
    ensures Inv(cfg, Next(cfg, s, e).value)
  {
    assert PartPlaced(cfg.route, e.p, s.parts[e.p]);
    SameLogsPlaced(cfg.route, s.parts, Next(cfg, s, e).value.parts);
  }

  lemma CrashPlaced(cfg: Config, s: Sys, e: Event)
    requires Inv(cfg, s) && e.IsCrash() && Next(cfg, s, e).Some?
    ensures Inv(cfg, Next(cfg, s, e).value)
  {
    SameLogsPlaced(cfg.route, s.parts, Next(cfg, s, e).value.parts);
  }

  lemma WorkPlaced(cfg: Config, s: Sys, e: Event)
    requires Inv(cfg, s) && (e.WorkerCall? || e.WorkerError?) && Next(cfg, s, e).Some?
    ensures Inv(cfg, Next(cfg, s, e).value)
  {
    assert TaskPlaced(cfg, e.i, s.workers[e.i]);
    if e.WorkerCall? || e.applied {
      WorkCallPlaced(cfg, s, e.i, s.workers[e.i].value, e.c);
    }
  }

  lemma RoutePlaced(cfg: Config, s: Sys, e: Event)
    requires Inv(cfg, s) && (e.RouterCall? || e.RouterError?) && Next(cfg, s, e).Some?
    ensures Inv(cfg, Next(cfg, s, e).value)
  {
    assert HaulPlaced(s.routers[e.i]);
    if e.RouterCall? || e.applied {
      RouteCallPlaced(cfg, s, cfg.routerTier[e.i], s.routers[e.i].value, e.c);
    }
  }

  lemma InvNext(cfg: Config, s: Sys, e: Event)
    requires Inv(cfg, s) && Next(cfg, s, e).Some?
    ensures Inv(cfg, Next(cfg, s, e).value)
  {
    if e.Fetch? || e.Pick? { FetchPlaced(cfg, s, e); }
    else if e.IsCrash() { CrashPlaced(cfg, s, e); }
    else if e.WorkerCall? || e.WorkerError? { WorkPlaced(cfg, s, e); }
    else if e.RouterCall? || e.RouterError? { RoutePlaced(cfg, s, e); }
    else if e.SubCall? || (e.SubError? && e.applied) { SubCallPlaced(cfg, s, s.subs[e.i], e.c); }
    else if e.ReaperCall? || (e.ReaperError? && e.applied) { ReapCallPlaced(cfg, s, s.reapers[e.i], e.c); }
  }

  lemma {:induction false} InvRun(cfg: Config, s: Sys, es: seq<Event>, t: Sys)
    requires Inv(cfg, s) && Run(cfg, s, es, t)
    ensures Inv(cfg, t)
    decreases |es|
  {
    if es != [] {
      InvNext(cfg, s, es[0]);
      InvRun(cfg, Next(cfg, s, es[0]).value, es[1..], t);
    }
  }

  /**
   Every message lies on the partition its key chooses, the key being its device or its job id, and on the retry and
   dead-letter topics its job id; and a message in a worker's hands came from that partition.
   */
  lemma MessagesLieWhereKeyed(cfg: Config, s: Sys, es: seq<Event>, t: Sys, p: nat, i: nat)
    requires Init(s) && Run(cfg, s, es, t) && p < |t.parts| && i < |t.parts[p].log|
    ensures var m := t.parts[p].log[i];
            (m.key == m.device || m.key == m.id) && cfg.route(t.parts[p].topic, m.key) == p &&
            (!t.parts[p].topic.Main? ==> m.key == m.id)
    ensures forall w :: 0 <= w < |t.workers| ==> TaskPlaced(cfg, w, t.workers[w])
  {
    InvRun(cfg, s, es, t);
    assert PartPlaced(cfg.route, p, t.parts[p]);
  }
}

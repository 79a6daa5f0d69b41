/** What every message in the system says, on every run: crashes, failed calls, reaps and races included. */
module Routing {
  import opened Prelude
  import opened Jobs
  import opened Store
  import opened Broker
  import opened Protocol
  import opened Frames

  ghost predicate RowsTyped(rows: Table) {
    forall id :: id in rows ==> TierFor(rows[id].typ) == Some(rows[id].tier) && rows[id].maxAttempts == MAX_ATTEMPTS
  }

  ghost predicate PartOk(rows: Table, q: Part) {
    forall i :: 0 <= i < |q.log| ==> Faithful(rows, q.log[i]) && Belongs(q.topic, q.log[i])
  }

  ghost predicate LogsOk(rows: Table, parts: seq<Part>) {
    forall p :: 0 <= p < |parts| ==> PartOk(rows, parts[p])
  }

  predicate TaskOk(cfg: Config, rows: Table, w: nat, t: Option<Task>) {
    t.Some? ==> w < |cfg.workerTier| && Faithful(rows, t.value.msg) && t.value.msg.tier == cfg.workerTier[w]
  }

  predicate HaulOk(cfg: Config, rows: Table, r: nat, h: Option<Haul>) {
    h.Some? ==> r < |cfg.routerTier| && Faithful(rows, h.value.msg) && h.value.msg.tier == cfg.routerTier[r]
  }

  predicate SubOk(rows: Table, b: Sub) {
    b.stage == Inserted || b.stage == Published ==>
      b.id in rows && rows[b.id].key == b.req.key && rows[b.id].typ == b.req.typ && rows[b.id].device == b.req.device
  }

  predicate ReaperOk(rows: Table, a: Reaper) {
    a.pending.Some? ==> a.pending.value.0 in rows && SameJob(a.pending.value.1, rows[a.pending.value.0])
  }

  ghost predicate Inv(cfg: Config, s: Sys) {
    RowsTyped(s.rows) && LogsOk(s.rows, s.parts) &&
    (forall w :: 0 <= w < |s.workers| ==> TaskOk(cfg, s.rows, w, s.workers[w])) &&
    (forall r :: 0 <= r < |s.routers| ==> HaulOk(cfg, s.rows, r, s.routers[r])) &&
    (forall i :: 0 <= i < |s.subs| ==> SubOk(s.rows, s.subs[i])) &&
    (forall i :: 0 <= i < |s.reapers| ==> ReaperOk(s.rows, s.reapers[i]))
  }

  // ----- rows only grow, logs stay faithful -----

  lemma SetGrows(rows: Table, id: JobId, r: Row)
    requires id in rows ==> SameJob(rows[id], r) && rows[id].attempts <= r.attempts
    ensures Grows(rows, rows[id := r])
  {
  }

  lemma GrowsKeepsLogs(rows: Table, more: Table, parts: seq<Part>)
    requires LogsOk(rows, parts) && Grows(rows, more)
    ensures LogsOk(more, parts)
  {
    forall p | 0 <= p < |parts| ensures PartOk(more, parts[p]) {
      assert PartOk(rows, parts[p]);
    }
  }

  lemma AppendOk(rows: Table, route: Route, parts: seq<Part>, t: Topic, m: Message)
    requires LogsOk(rows, parts) && Routed(route, parts, t, m.key) && Faithful(rows, m) && Belongs(t, m)
    ensures LogsOk(rows, Append(route, parts, t, m))
  {
  }

  lemma CommitOk(rows: Table, parts: seq<Part>, p: nat, off: nat)
    requires LogsOk(rows, parts)
    ensures LogsOk(rows, Commit(parts, p, off))
  {
  }

  lemma SubGrows(cfg: Config, s: Sys, b: Sub, c: Choice)
    requires SubCallEffect(cfg, s, b, c).Some?
    ensures Grows(s.rows, SubCallEffect(cfg, s, b, c).value.rows)
  {
    if b.stage == Published {
      SetGrows(s.rows, b.id, WithState(s.rows[b.id], Queued, None, s.now));
    }
  }

  lemma WorkGrows(cfg: Config, s: Sys, tier: Tier, k: Task, c: Choice)
    requires WorkCallEffect(cfg, s, tier, k, c).Some?
    ensures Grows(s.rows, WorkCallEffect(cfg, s, tier, k, c).value.rows)
  {
    var rows := WorkCallEffect(cfg, s, tier, k, c).value.rows;
    forall id | id in s.rows ensures id in rows && SameJob(s.rows[id], rows[id]) &&
    s.rows[id].attempts <= rows[id].attempts {
      WorkGrowsAt(cfg, s, tier, k, c, id);
    }
  }

  lemma WorkGrowsAt(cfg: Config, s: Sys, tier: Tier, k: Task, c: Choice, id: JobId)
    requires WorkCallEffect(cfg, s, tier, k, c).Some? && id in s.rows
    ensures var rows := WorkCallEffect(cfg, s, tier, k, c).value.rows;
            id in rows && SameJob(s.rows[id], rows[id]) && s.rows[id].attempts <= rows[id].attempts
  {
  }

  lemma ReapGrows(cfg: Config, s: Sys, a: Reaper, c: Choice)
    requires ReapCallEffect(cfg, s, a, c).Some?
    ensures Grows(s.rows, ReapCallEffect(cfg, s, a, c).value.rows)
  {
  }

  /** No event deletes a row, edits a job's identity or lowers its attempts. */
  lemma NextGrows(cfg: Config, s: Sys, e: Event)
    requires Next(cfg, s, e).Some?
    ensures Grows(s.rows, Next(cfg, s, e).value.rows)
  {
    if e.SubCall? || (e.SubError? && e.applied) {
      SubGrows(cfg, s, s.subs[e.i], e.c);
    } else if e.WorkerCall? || (e.WorkerError? && e.applied) {
      WorkGrows(cfg, s, cfg.workerTier[e.i], s.workers[e.i].value, e.c);
    } else if e.ReaperCall? || (e.ReaperError? && e.applied) {
      ReapGrows(cfg, s, s.reapers[e.i], e.c);
    }
  }

  // ----- the invariant, call by call -----

  lemma SubEffectOk(cfg: Config, s: Sys, b: Sub, c: Choice)
    requires Inv(cfg, s) && SubOk(s.rows, b) && SubCallEffect(cfg, s, b, c).Some?
    ensures var f := SubCallEffect(cfg, s, b, c).value;
            RowsTyped(f.rows) && LogsOk(f.rows, f.parts) && SubOk(f.rows, f.sub)
  {
    var f := SubCallEffect(cfg, s, b, c).value;
    SubGrows(cfg, s, b, c);
    GrowsKeepsLogs(s.rows, f.rows, s.parts);
    if b.stage == Inserted {
      AppendOk(s.rows, cfg.route, s.parts, Main(s.rows[b.id].tier), MessageFor(b.id, s.rows[b.id], c.headers));
    }
  }

  lemma WorkEffectOk(cfg: Config, s: Sys, w: nat, k: Task, c: Choice)
    requires Inv(cfg, s) && w < |cfg.workerTier| && TaskOk(cfg, s.rows, w, Some(k))
    requires WorkCallEffect(cfg, s, cfg.workerTier[w], k, c).Some?
    ensures var f := WorkCallEffect(cfg, s, cfg.workerTier[w], k, c).value;
            RowsTyped(f.rows) && LogsOk(f.rows, f.parts) && TaskOk(cfg, f.rows, w, f.task)
  {
    var f := WorkCallEffect(cfg, s, cfg.workerTier[w], k, c).value;
    WorkGrows(cfg, s, cfg.workerTier[w], k, c);
    GrowsKeepsLogs(s.rows, f.rows, s.parts);
    CommitOk(s.rows, s.parts, k.part, k.off);
    var m := Resent(s, k, c);
    if f.parts != s.parts && k.phase != Done {
      var to := if f.task.value.phase == DlqSent then Dlq else RetryOf(cfg.workerTier[w]);
      AppendOk(s.rows, cfg.route, s.parts, to, m);
    }
  }

  lemma RouteEffectOk(cfg: Config, s: Sys, r: nat, h: Haul, c: Choice)
    requires Inv(cfg, s) && r < |cfg.routerTier| && HaulOk(cfg, s.rows, r, Some(h))
    requires RouteCallEffect(cfg, s, cfg.routerTier[r], h, c).Some?
    ensures var f := RouteCallEffect(cfg, s, cfg.routerTier[r], h, c).value;
            LogsOk(s.rows, f.parts) && HaulOk(cfg, s.rows, r, f.haul)
  {
    CommitOk(s.rows, s.parts, h.part, h.off);
    if !h.sent {
      AppendOk(s.rows, cfg.route, s.parts, Main(cfg.routerTier[r]), h.msg.(headers := c.headers));
    }
  }

  lemma ReapEffectOk(cfg: Config, s: Sys, a: Reaper, c: Choice)
    requires Inv(cfg, s) && ReaperOk(s.rows, a) && ReapCallEffect(cfg, s, a, c).Some?
    ensures var f := ReapCallEffect(cfg, s, a, c).value;
            RowsTyped(f.rows) && LogsOk(f.rows, f.parts) && ReaperOk(f.rows, f.reaper)
  {
    var f := ReapCallEffect(cfg, s, a, c).value;
    ReapGrows(cfg, s, a, c);
    GrowsKeepsLogs(s.rows, f.rows, s.parts);
    if a.pending.Some? {
      var (id, r) := a.pending.value;
      AppendOk(s.rows, cfg.route, s.parts, Main(r.tier), MessageFor(id, r, c.headers));
    }
  }

  // ----- the invariant, event by event -----

  /** Processes that did not move keep their part of the invariant when rows grow. */
  lemma Others(cfg: Config, s: Sys, rows: Table)
    requires Inv(cfg, s) && Grows(s.rows, rows)
    ensures forall w :: 0 <= w < |s.workers| ==> TaskOk(cfg, rows, w, s.workers[w])
    ensures forall r :: 0 <= r < |s.routers| ==> HaulOk(cfg, rows, r, s.routers[r])
    ensures forall i :: 0 <= i < |s.subs| ==> SubOk(rows, s.subs[i])
    ensures forall i :: 0 <= i < |s.reapers| ==> ReaperOk(rows, s.reapers[i])
  {
  }

  lemma SubEvents(cfg: Config, s: Sys, e: Event)
    requires Inv(cfg, s) && IsSub(e) && Next(cfg, s, e).Some?
    ensures Inv(cfg, Next(cfg, s, e).value)
  {
    var t := Next(cfg, s, e).value;
    NextGrows(cfg, s, e);
    Others(cfg, s, t.rows);
    if e.SubCall? || (e.SubError? && e.applied) {
      SubEffectOk(cfg, s, s.subs[e.i], e.c);
    }
  }

  /** A worker's effect on rows and logs that are in order leaves everything in order. */
  lemma AppliedOk(cfg: Config, s: Sys, w: nat, f: WorkEffect)
    requires Inv(cfg, s) && w < |s.workers| && Grows(s.rows, f.rows)
    requires RowsTyped(f.rows) && LogsOk(f.rows, f.parts) && TaskOk(cfg, f.rows, w, f.task)
    ensures Inv(cfg, ApplyWork(s, w, f))
  {
    Others(cfg, s, f.rows);
  }

  lemma WorkerCallEvent(cfg: Config, s: Sys, w: nat, c: Choice)
    requires Inv(cfg, s) && StepWorker(cfg, s, w, c).Some?
    ensures Inv(cfg, StepWorker(cfg, s, w, c).value)
  {
    var k := s.workers[w].value;
    assert TaskOk(cfg, s.rows, w, s.workers[w]);
    WorkGrows(cfg, s, cfg.workerTier[w], k, c);
    WorkEffectOk(cfg, s, w, k, c);
    AppliedOk(cfg, s, w, WorkCallEffect(cfg, s, cfg.workerTier[w], k, c).value);
  }

  lemma WorkerErrorEvent(cfg: Config, s: Sys, w: nat, c: Choice, applied: bool)
    requires Inv(cfg, s) && FailWorker(cfg, s, w, c, applied).Some?
    ensures Inv(cfg, FailWorker(cfg, s, w, c, applied).value)
  {
    var k := s.workers[w].value;
    assert TaskOk(cfg, s.rows, w, s.workers[w]);
    var f := NoWorkEffect(s, k);
    if applied {
      f := WorkCallEffect(cfg, s, cfg.workerTier[w], k, c).value;
      WorkGrows(cfg, s, cfg.workerTier[w], k, c);
      WorkEffectOk(cfg, s, w, k, c);
    }
    var task := if k.phase == Done || f.task.None? then None else Some(f.task.value.(phase := Done));
    AppliedOk(cfg, s, w, f.(task := task));
  }

  lemma BeatEvent(cfg: Config, s: Sys, e: Event)
    requires Inv(cfg, s) && e.Beat? && Next(cfg, s, e).Some?
    ensures Inv(cfg, Next(cfg, s, e).value)
  {
    NextGrows(cfg, s, e);
    Others(cfg, s, Next(cfg, s, e).value.rows);
    GrowsKeepsLogs(s.rows, Next(cfg, s, e).value.rows, s.parts);
  }

  lemma RouterEvents(cfg: Config, s: Sys, e: Event)
    requires Inv(cfg, s) && (e.RouterCall? || e.RouterError?) && Next(cfg, s, e).Some?
    ensures Inv(cfg, Next(cfg, s, e).value)
  {
    assert HaulOk(cfg, s.rows, e.i, s.routers[e.i]);
    if e.RouterCall? || e.applied {
      RouteEffectOk(cfg, s, e.i, s.routers[e.i].value, e.c);
    }
  }

  lemma ReapEvents(cfg: Config, s: Sys, e: Event)
    requires Inv(cfg, s) && e.IsReap() && Next(cfg, s, e).Some?
    ensures Inv(cfg, Next(cfg, s, e).value)
  {
    NextGrows(cfg, s, e);
    Others(cfg, s, Next(cfg, s, e).value.rows);
    if e.ReaperCall? || (e.ReaperError? && e.applied) {
      ReapEffectOk(cfg, s, s.reapers[e.i], e.c);
    }
  }

  lemma CrashEvents(cfg: Config, s: Sys, e: Event)
    requires Inv(cfg, s) && (e.WorkerCrash? || e.RouterCrash? || e.Rebalance?) && Next(cfg, s, e).Some?
    ensures Inv(cfg, Next(cfg, s, e).value)
  {
    var t := Next(cfg, s, e).value;
    forall p | 0 <= p < |t.parts| ensures PartOk(t.rows, t.parts[p]) {
      assert t.parts[p].log == s.parts[p].log && t.parts[p].topic == s.parts[p].topic;
      assert PartOk(s.rows, s.parts[p]);
    }
  }

  lemma FetchEvents(cfg: Config, s: Sys, e: Event)
    requires Inv(cfg, s) && (e.Fetch? || e.Pick?) && Next(cfg, s, e).Some?
    ensures Inv(cfg, Next(cfg, s, e).value)
  {
    var t := Next(cfg, s, e).value;
    assert PartOk(s.rows, s.parts[e.p]) && PartOk(t.rows, t.parts[e.p]);
  }

  lemma InvNext(cfg: Config, s: Sys, e: Event)
    requires Inv(cfg, s) && Next(cfg, s, e).Some?
    ensures Inv(cfg, Next(cfg, s, e).value)
  {
    if IsSub(e) { SubEvents(cfg, s, e); }
    else if e.WorkerCall? { WorkerCallEvent(cfg, s, e.i, e.c); }
    else if e.WorkerError? { WorkerErrorEvent(cfg, s, e.i, e.c, e.applied); }
    else if e.Beat? { BeatEvent(cfg, s, e); }
    else if e.Fetch? || e.Pick? { FetchEvents(cfg, s, e); }
    else if e.RouterCall? || e.RouterError? { RouterEvents(cfg, s, e); }
    else if e.IsReap() { ReapEvents(cfg, s, e); }
    else if !e.Tick? { CrashEvents(cfg, s, e); }
  }

  lemma {:induction false} InvRun(cfg: Config, s: Sys, es: seq<Event>, t: Sys)
    requires Inv(cfg, s) && Run(cfg, s, es, t)
    ensures Inv(cfg, t)
    decreases |es|
  {
    if es != [] {
      InvNext(cfg, s, es[0]);
      InvRun(cfg, Next(cfg, s, es[0]).value, es[1..], t);
    }
  }

  // ----- the theorems -----

  /** Every message on every topic repeats an existing row, and lies on a topic of that row's own tier. */
  lemma MessagesMatchRows(cfg: Config, s: Sys, es: seq<Event>, t: Sys, p: nat, i: nat)
    requires Init(s) && Run(cfg, s, es, t) && p < |t.parts| && i < |t.parts[p].log|
    ensures var m := t.parts[p].log[i];
            Faithful(t.rows, m) && Belongs(t.parts[p].topic, m) && TierFor(m.typ) == Some(m.tier)
  {
    InvRun(cfg, s, es, t);
    assert PartOk(t.rows, t.parts[p]);
  }

  /** The tiers: commands are realtime, firmware is bulk, everything else is standard. */
  predicate TierOfType(t: Type, tier: Tier) {
    (t == RemoteCommand <==> tier == Realtime) && (t == FirmwareUpdate <==> tier == Bulk) &&
    (t in {TelemetryProcessing, HealthCheck, AlertGeneration} <==> tier == Standard)
  }

  /** On every run, what lies on a tier's main and retry topics, and what its workers hold, is of that tier's types. */
  lemma TopicsHoldTheirTypes(cfg: Config, s: Sys, es: seq<Event>, t: Sys, p: nat, i: nat)
    requires Init(s) && Run(cfg, s, es, t) && p < |t.parts| && i < |t.parts[p].log|
    ensures var m := t.parts[p].log[i];
            match t.parts[p].topic
            case Main(tier) => TierOfType(m.typ, tier)
            case RetryOf(tier) => TierOfType(m.typ, tier)
            case Dlq => TierOfType(m.typ, m.tier)
    ensures forall w :: 0 <= w < |t.workers| && t.workers[w].Some? ==>
              w < |cfg.workerTier| && TierOfType(t.workers[w].value.msg.typ, cfg.workerTier[w])
  {
    MessagesMatchRows(cfg, s, es, t, p, i);
    InvRun(cfg, s, es, t);
    forall w | 0 <= w < |t.workers| && t.workers[w].Some?
      ensures w < |cfg.workerTier| && TierOfType(t.workers[w].value.msg.typ, cfg.workerTier[w])
    {
      assert TaskOk(cfg, t.rows, w, t.workers[w]);
      var id := t.workers[w].value.msg.id;
      assert TierFor(t.rows[id].typ) == Some(t.rows[id].tier);
    }
  }

  /** A worker never holds a misrouted message, one without a row, or one without a handler. */
  lemma DeadBranches(cfg: Config, s: Sys, es: seq<Event>, t: Sys, w: nat)
    requires Init(s) && Run(cfg, s, es, t) && w < |t.workers| && t.workers[w].Some?
    ensures var m := t.workers[w].value.msg;
            w < |cfg.workerTier| && m.tier == cfg.workerTier[w] && m.id in t.rows && HasHandler(m.typ)
  {
    InvRun(cfg, s, es, t);
    assert TaskOk(cfg, t.rows, w, t.workers[w]);
    RegistryIsTotalOnValid(t.workers[w].value.msg.typ);
  }
}

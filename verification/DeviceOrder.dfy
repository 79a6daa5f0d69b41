/**
 Per-device order. In every plain run, with any number of partitions and workers and with handlers failing as
 they like, the first runs of one device's jobs in one tier happen in the order in which their submissions were
 published. All their runs together do exactly as long as no job of that device and tier has been run again: a
 retry is keyed by the job's id, and nothing holds the device's later jobs back for it.
 */
module DeviceOrder {
  import opened Prelude
  import opened Jobs
  import opened Store
  import opened Broker
  import opened Protocol
  import opened Histories
  import Frames
  import Routing
  import Placement
  import Idempotency
  import Overshoot

  // ----- the partition that the device's submissions go to -----

  /** The handler runs that the messages of a log stand for. */
  function AsRuns(log: seq<Message>, p: nat): seq<HandlerRun> {
    seq(|log|, i requires 0 <= i < |log| => HandlerRun(log[i].id, p, log[i].tier, log[i].device))
  }

  lemma AsRunsSnoc(log: seq<Message>, m: Message, p: nat)
    ensures AsRuns(log + [m], p) == AsRuns(log, p) + [HandlerRun(m.id, p, m.tier, m.device)]
  {
  }

  predicate Holds(s: Sys, p: nat)
    requires p < |s.parts|
  {
    var w := s.parts[p].owner;
    w < |s.workers| && s.workers[w].Some? && s.workers[w].value.part == p &&
    s.workers[w].value.phase in {Fetched, Loaded}
  }

  /** The partition's messages that have reached their handler. */
  function Started(s: Sys, p: nat): seq<Message>
    requires p < |s.parts| && s.parts[p].pos <= |s.parts[p].log|
  {
    var n := s.parts[p].pos;
    if Holds(s, p) && n > 0 then s.parts[p].log[..n - 1] else s.parts[p].log[..n]
  }

  /** The job has been run before, or this is its submission's message. */
  predicate Known(s: Sys, m: Message) {
    InHistory(s.subm.published, m.id, m.tier, m.device) && (m.key == m.device || m.id in Ids(s.work.handled))
  }

  /** The job is in the history, with its tier and device. */
  predicate InHistory(xs: seq<HandlerRun>, j: JobId, tier: Tier, device: string) {
    exists i :: 0 <= i < |xs| && xs[i].id == j && xs[i].tier == tier && xs[i].device == device
  }

  predicate TaskInStep(s: Sys, w: nat, t: Option<Task>) {
    t.Some? ==>
      var k := t.value;
      k.part < |s.parts| && s.parts[k.part].owner == w && s.parts[k.part].topic.Main? && Known(s, k.msg) &&
      (k.phase in {Fetched, Loaded} ==>
        0 < s.parts[k.part].pos <= |s.parts[k.part].log| && s.parts[k.part].log[s.parts[k.part].pos - 1] == k.msg) &&
      (k.phase !in {Fetched, Loaded} ==> k.msg.id in Ids(s.work.handled))
  }

  ghost predicate LogKnown(s: Sys, p: nat)
    requires p < |s.parts|
  {
    s.parts[p].pos <= |s.parts[p].log| && forall i :: 0 <= i < |s.parts[p].log| ==> Known(s, s.parts[p].log[i])
  }

  ghost predicate LogsKnown(s: Sys) {
    forall p :: 0 <= p < |s.parts| ==> LogKnown(s, p)
  }

  predicate TasksInStep(s: Sys) {
    forall w :: 0 <= w < |s.workers| ==> TaskInStep(s, w, s.workers[w])
  }

  predicate HaulsKnown(s: Sys) {
    forall r :: 0 <= r < |s.routers| && s.routers[r].Some? ==> Known(s, s.routers[r].value.msg)
  }

  predicate AllSent(cfg: Config, s: Sys) {
    forall i :: 0 <= i < |s.subm.published| ==> Sent(cfg, s, s.subm.published[i])
  }

  ghost predicate RunsCounted(s: Sys) {
    (forall j :: s.work.runs[j] == Times(s.work.handled, j)) &&
    forall i :: 0 <= i < |s.work.handled| ==> RunOk(s, s.work.handled[i])
  }

  /** A run is of a job in the table that has been published. */
  predicate RunOk(s: Sys, x: HandlerRun) {
    HandlerOf(s.rows, x) && InHistory(s.subm.published, x.id, x.tier, x.device)
  }

  ghost predicate Common(cfg: Config, s: Sys) {
    LogsKnown(s) && TasksInStep(s) && HaulsKnown(s) && AllSent(cfg, s) && RunsCounted(s)
  }

  /** A publish of a job in the table, by the balancer's choice. */
  predicate Sent(cfg: Config, s: Sys, x: HandlerRun) {
    s.subm.subPubs[x.id] > 0 && HandlerOf(s.rows, x) && Routed(cfg.route, s.parts, Main(x.tier), x.device) &&
    x.part == cfg.route(Main(x.tier), x.device)
  }

  predicate HandlerOf(rows: Table, x: HandlerRun) {
    x.id in rows && rows[x.id].tier == x.tier && rows[x.id].device == x.device
  }

  /** For one device and tier: what its partition says of its submissions and of its first runs. */
  ghost predicate InOrder(cfg: Config, s: Sys, t: Tier, d: string) {
    Routed(cfg.route, s.parts, Main(t), d) ==>
      var p := cfg.route(Main(t), d);
      var f := OfDevice(t, d);
      s.parts[p].pos <= |s.parts[p].log| &&
      Once(Keep(AsRuns(s.parts[p].log, p), f)) == Keep(s.subm.published, f) &&
      Once(Keep(s.work.handled, f)) == Once(Keep(AsRuns(Started(s, p), p), f))
  }

  ghost predicate Inv(cfg: Config, s: Sys) {
    Common(cfg, s) && forall t, d :: InOrder(cfg, s, t, d)
  }

  ghost predicate Base(cfg: Config, s: Sys) {
    Routing.Inv(cfg, s) && Placement.Inv(cfg, s) && Idempotency.Inv(s)
  }

  // ----- what longer histories keep -----

  predicate HistoryGrows(s: Sys, t: Sys) {
    s.subm.published <= t.subm.published && s.work.handled <= t.work.handled
  }

  lemma KnownStays(s: Sys, t: Sys, m: Message)
    requires Known(s, m) && HistoryGrows(s, t)
    ensures Known(t, m)
  {
    HistoryStays(s.subm.published, t.subm.published, m.id, m.tier, m.device);
    IdsGrow(s.work.handled, t.work.handled);
  }

  lemma HistoryStays(xs: seq<HandlerRun>, ys: seq<HandlerRun>, j: JobId, tier: Tier, device: string)
    requires InHistory(xs, j, tier, device) && xs <= ys
    ensures InHistory(ys, j, tier, device)
  {
    var i :| 0 <= i < |xs| && xs[i].id == j && xs[i].tier == tier && xs[i].device == device;
    assert ys[i] == xs[i];
  }

  /** The same partitions with the same readers; logs may have grown. */
  predicate LogsGrow(a: seq<Part>, b: seq<Part>) {
    |a| == |b| && forall p :: 0 <= p < |a| ==>
      a[p].topic == b[p].topic && a[p].owner == b[p].owner && a[p].pos == b[p].pos && a[p].log <= b[p].log
  }

  lemma TaskStays(s: Sys, t: Sys, w: nat, k: Option<Task>)
    requires TaskInStep(s, w, k) && HistoryGrows(s, t) && LogsGrow(s.parts, t.parts)
    ensures TaskInStep(t, w, k)
  {
    if k.Some? {
      KnownStays(s, t, k.value.msg);
      IdsGrow(s.work.handled, t.work.handled);
    }
  }

  /** What `t` has on its logs beyond `s` is of known jobs. */
  ghost predicate NewOnesKnown(s: Sys, t: Sys)
    requires |t.parts| == |s.parts|
  {
    forall p, i :: 0 <= p < |t.parts| && |s.parts[p].log| <= i < |t.parts[p].log| ==> Known(t, t.parts[p].log[i])
  }

  /** Everything in hand and in the logs stays known; the new message, if there is one, must be. */
  lemma GrowsKeepsKnown(s: Sys, t: Sys)
    requires LogsKnown(s) && TasksInStep(s) && HaulsKnown(s) && HistoryGrows(s, t) && LogsGrow(s.parts, t.parts)
    requires t.workers == s.workers && t.routers == s.routers
    requires NewOnesKnown(s, t)
    ensures LogsKnown(t) && TasksInStep(t) && HaulsKnown(t)
  {
    forall p | 0 <= p < |s.parts| ensures s.parts[p].log <= t.parts[p].log && t.parts[p].pos <= |t.parts[p].log| {
      assert LogKnown(s, p);
    }
    LogsStayKnown(s, t);
    forall w | 0 <= w < |t.workers| ensures TaskInStep(t, w, t.workers[w]) {
      TaskStays(s, t, w, s.workers[w]);
    }
    forall r | 0 <= r < |t.routers| && t.routers[r].Some? ensures Known(t, t.routers[r].value.msg) {
      KnownStays(s, t, s.routers[r].value.msg);
    }
  }

  lemma LogsStayKnown(s: Sys, t: Sys)
    requires LogsKnown(s) && HistoryGrows(s, t) && |t.parts| == |s.parts|
    requires forall p :: 0 <= p < |s.parts| ==> s.parts[p].log <= t.parts[p].log && t.parts[p].pos <= |t.parts[p].log|
    requires NewOnesKnown(s, t)
    ensures LogsKnown(t)
  {
    forall p | 0 <= p < |t.parts| ensures LogKnown(t, p) {
      assert LogKnown(s, p);
      forall i | 0 <= i < |t.parts[p].log| ensures Known(t, t.parts[p].log[i]) {
        if i < |s.parts[p].log| { KnownStays(s, t, s.parts[p].log[i]); }
      }
    }
  }

  lemma SentStays(cfg: Config, s: Sys, t: Sys)
    requires AllSent(cfg, s) && t.subm.published == s.subm.published && Grows(s.rows, t.rows)
    requires forall j :: s.subm.subPubs[j] <= t.subm.subPubs[j]
    requires |t.parts| == |s.parts| && forall p :: 0 <= p < |s.parts| ==> t.parts[p].topic == s.parts[p].topic
    ensures AllSent(cfg, t)
  {
    forall i | 0 <= i < |t.subm.published| ensures Sent(cfg, t, t.subm.published[i]) {
      assert Sent(cfg, s, s.subm.published[i]);
    }
  }

  lemma RunsStay(s: Sys, t: Sys)
    requires RunsCounted(s) && t.work.runs == s.work.runs && t.work.handled == s.work.handled && Grows(s.rows, t.rows)
    requires s.subm.published <= t.subm.published
    ensures RunsCounted(t)
  {
    forall i | 0 <= i < |t.work.handled| ensures RunOk(t, t.work.handled[i]) {
      RunStays(s, t, s.work.handled[i]);
    }
  }

  lemma RunStays(s: Sys, t: Sys, x: HandlerRun)
    requires RunOk(s, x) && Grows(s.rows, t.rows) && s.subm.published <= t.subm.published
    ensures RunOk(t, x)
  {
    HistoryStays(s.subm.published, t.subm.published, x.id, x.tier, x.device);
  }

  // ----- one partition's log gets one message longer -----

  /** The message is of a job whose submission is in the device's history. */
  lemma PublishedIsThere(cfg: Config, s: Sys, t: Tier, d: string, m: Message)
    requires InHistory(s.subm.published, m.id, m.tier, m.device) && m.tier == t && m.device == d
    ensures m.id in Ids(Keep(s.subm.published, OfDevice(t, d)))
  {
    var i :| 0 <= i < |s.subm.published| && s.subm.published[i].id == m.id && s.subm.published[i].tier == m.tier &&
             s.subm.published[i].device == m.device;
    KeepIds(s.subm.published, OfDevice(t, d), i);
  }

  lemma StartedStays(s: Sys, t: Sys, p: nat)
    requires p < |s.parts| && LogsGrow(s.parts, t.parts) && t.workers == s.workers && s.parts[p].pos <= |s.parts[p].log|
    ensures t.parts[p].pos <= |t.parts[p].log| && Started(t, p) == Started(s, p)
  {
  }

  /** A retry's copy on a main topic is of a job published before, so it adds nothing. */
  lemma CopyKeepsOrder(cfg: Config, s: Sys, t: Sys, q: nat, m: Message, tier: Tier, d: string)
    requires InOrder(cfg, s, tier, d) && q < |s.parts| && InHistory(s.subm.published, m.id, m.tier, m.device)
    requires t.parts == s.parts[q := s.parts[q].(log := s.parts[q].log + [m])] && t.workers == s.workers
    requires t.work.handled == s.work.handled && t.subm.published == s.subm.published
    ensures InOrder(cfg, t, tier, d)
  {
    var p := cfg.route(Main(tier), d);
    if Routed(cfg.route, s.parts, Main(tier), d) {
      StartedStays(s, t, p);
      if p == q {
        var f := OfDevice(tier, d);
        var x := HandlerRun(m.id, p, m.tier, m.device);
        AsRunsSnoc(s.parts[p].log, m, p);
        KeepSnoc(AsRuns(s.parts[p].log, p), x, f);
        if f(x) {
          PublishedIsThere(cfg, s, tier, d, m);
          OnceSnoc(Keep(AsRuns(s.parts[p].log, p), f), x);
        }
      }
    }
  }

  /** A submission's message extends the log and the history together. */
  lemma PublishKeepsOrder(cfg: Config, s: Sys, t: Sys, q: nat, m: Message, x: HandlerRun, tier: Tier, d: string)
    requires InOrder(cfg, s, tier, d) && q < |s.parts| && x == HandlerRun(m.id, q, m.tier, m.device)
    requires t.parts == s.parts[q := s.parts[q].(log := s.parts[q].log + [m])] && t.workers == s.workers
    requires t.work.handled == s.work.handled && t.subm.published == s.subm.published + [x]
    requires x.id !in Ids(s.subm.published) && q == cfg.route(Main(x.tier), x.device)
    ensures InOrder(cfg, t, tier, d)
  {
    var p := cfg.route(Main(tier), d);
    if Routed(cfg.route, s.parts, Main(tier), d) {
      var f := OfDevice(tier, d);
      StartedStays(s, t, p);
      KeepSnoc(s.subm.published, x, f);
      if p == q {
        AsRunsSnoc(s.parts[p].log, m, p);
        KeepSnoc(AsRuns(s.parts[p].log, p), x, f);
        if f(x) {
          KeepIdsOnly(s.subm.published, f);
          OnceSnoc(Keep(AsRuns(s.parts[p].log, p), f), x);
        }
      }
    }
  }

  // ----- a run starts -----

  /** A run from the device's own partition is the next of its log. */
  lemma OwnStartKeepsOrder(cfg: Config, s: Sys, t: Sys, w: nat, k: Task, tier: Tier, d: string)
    requires InOrder(cfg, s, tier, d) && w < |s.workers| && s.workers[w] == Some(k) && k.phase == Loaded
    requires TaskInStep(s, w, s.workers[w]) && k.part == cfg.route(Main(tier), d)
    requires t.parts == s.parts && t.workers == s.workers[w := Some(k.(phase := InHandler))]
    requires t.subm.published == s.subm.published
    requires t.work.handled == s.work.handled + [HandlerRun(k.msg.id, k.part, k.msg.tier, k.msg.device)]
    ensures InOrder(cfg, t, tier, d)
  {
    var p := k.part;
    if Routed(cfg.route, s.parts, Main(tier), d) {
      var f := OfDevice(tier, d);
      var x := HandlerRun(k.msg.id, p, k.msg.tier, k.msg.device);
      assert Started(t, p) == Started(s, p) + [k.msg];
      AsRunsSnoc(Started(s, p), k.msg, p);
      KeepSnoc(AsRuns(Started(s, p), p), x, f);
      KeepSnoc(s.work.handled, x, f);
      OnceSnoc(Keep(AsRuns(Started(s, p), p), f), x);
      OnceSnoc(Keep(s.work.handled, f), x);
    }
  }

  /** A run from another partition is a rerun of one of the device's jobs, or concerns another device. */
  lemma OtherStartKeepsOrder(cfg: Config, s: Sys, t: Sys, w: nat, k: Task, tier: Tier, d: string)
    requires InOrder(cfg, s, tier, d) && w < |s.workers| && s.workers[w] == Some(k) && k.phase == Loaded
    requires k.part != cfg.route(Main(tier), d)
    requires k.msg.tier == tier && k.msg.device == d ==> k.msg.id in Ids(Keep(s.work.handled, OfDevice(tier, d)))
    requires t.parts == s.parts && t.workers == s.workers[w := Some(k.(phase := InHandler))]
    requires t.subm.published == s.subm.published
    requires t.work.handled == s.work.handled + [HandlerRun(k.msg.id, k.part, k.msg.tier, k.msg.device)]
    ensures InOrder(cfg, t, tier, d)
  {
    var p := cfg.route(Main(tier), d);
    if Routed(cfg.route, s.parts, Main(tier), d) {
      var f := OfDevice(tier, d);
      var x := HandlerRun(k.msg.id, k.part, k.msg.tier, k.msg.device);
      assert Started(t, p) == Started(s, p);
      KeepSnoc(s.work.handled, x, f);
      if f(x) {
        OnceIds(Keep(s.work.handled, f));
        OnceSnoc(Keep(s.work.handled, f), x);
      }
    }
  }

  /** A message on a partition that is not its device's is a copy, and its job has been run. */
  lemma RerunIsThere(cfg: Config, s: Sys, w: nat, k: Task)
    requires Common(cfg, s) && Base(cfg, s) && w < |s.workers| && s.workers[w] == Some(k)
    requires k.part != cfg.route(Main(k.msg.tier), k.msg.device)
    ensures k.msg.id in Ids(Keep(s.work.handled, OfDevice(k.msg.tier, k.msg.device)))
  {
    assert TaskInStep(s, w, s.workers[w]) && Routing.TaskOk(cfg, s.rows, w, s.workers[w]);
    assert Placement.TaskPlaced(cfg, w, s.workers[w]);
    var i :| 0 <= i < |s.work.handled| && s.work.handled[i].id == k.msg.id;
    assert RunOk(s, s.work.handled[i]);
    KeepIds(s.work.handled, OfDevice(k.msg.tier, k.msg.device), i);
  }

  // ----- events -----

  lemma PublishEvent(cfg: Config, s: Sys, i: nat, c: Choice)
    requires Inv(cfg, s) && Base(cfg, s) && StepSub(cfg, s, i, c).Some? && s.subs[i].stage == Inserted
    ensures Inv(cfg, StepSub(cfg, s, i, c).value)
  {
    var t := StepSub(cfg, s, i, c).value;
    var b := s.subs[i];
    var r := s.rows[b.id];
    var q := cfg.route(Main(r.tier), r.device);
    var x := HandlerRun(b.id, q, r.tier, r.device);
    PublishKeepsCommon(cfg, s, t, q, MessageFor(b.id, r, c.headers), x);
    NotYetPublished(cfg, s, i);
    forall tier, d ensures InOrder(cfg, t, tier, d) {
      assert InOrder(cfg, s, tier, d);
      PublishKeepsOrder(cfg, s, t, q, MessageFor(b.id, r, c.headers), x, tier, d);
    }
  }

  lemma NotYetPublished(cfg: Config, s: Sys, i: nat)
    requires AllSent(cfg, s) && Idempotency.Inv(s) && i < |s.subs| && s.subs[i].stage == Inserted
    ensures s.subs[i].id !in Ids(s.subm.published)
  {
    var j := s.subs[i].id;
    assert Idempotency.OnePublish(s, j);
    CountMember(s.subs, i, Idempotency.Unpublished(j));
    forall k | 0 <= k < |s.subm.published| ensures s.subm.published[k].id != j {
      assert Sent(cfg, s, s.subm.published[k]);
    }
  }

  lemma PublishKeepsCommon(cfg: Config, s: Sys, t: Sys, q: nat, m: Message, x: HandlerRun)
    requires Common(cfg, s) && Routed(cfg.route, s.parts, Main(x.tier), x.device)
    requires q == cfg.route(Main(x.tier), x.device)
    requires x == HandlerRun(m.id, q, m.tier, m.device) && m.key == m.device && HandlerOf(s.rows, x)
    requires t.parts == s.parts[q := s.parts[q].(log := s.parts[q].log + [m])]
    requires t.workers == s.workers && t.routers == s.routers && t.rows == s.rows && t.work == s.work
    requires t.subm.published == s.subm.published + [x] && t.subm.subPubs == s.subm.subPubs + multiset{m.id}
    ensures Common(cfg, t)
  {
    assert t.subm.published[|s.subm.published|] == x;
    assert Known(t, m);
    GrowsKeepsKnown(s, t);
    forall i | 0 <= i < |t.subm.published| ensures Sent(cfg, t, t.subm.published[i]) {
      if i < |s.subm.published| { assert Sent(cfg, s, s.subm.published[i]); }
    }
    RunsStay(s, t);
  }

  lemma RouterEvent(cfg: Config, s: Sys, r: nat, c: Choice)
    requires Inv(cfg, s) && StepRouter(cfg, s, r, c).Some?
    ensures Inv(cfg, StepRouter(cfg, s, r, c).value)
  {
    var t := StepRouter(cfg, s, r, c).value;
    var h := s.routers[r].value;
    assert Known(s, h.msg);
    if h.sent {
      SameReads(cfg, s, t);
    } else {
      var m := h.msg.(headers := c.headers);
      var q := cfg.route(Main(cfg.routerTier[r]), m.key);
      assert t.parts == s.parts[q := s.parts[q].(log := s.parts[q].log + [m])];
      assert Known(t, m);
      ForwardKeepsCommon(cfg, s, t, r);
      forall tier, d ensures InOrder(cfg, t, tier, d) {
        assert InOrder(cfg, s, tier, d);
        CopyKeepsOrder(cfg, s, t, q, m, tier, d);
      }
    }
  }

  lemma ForwardKeepsCommon(cfg: Config, s: Sys, t: Sys, r: nat)
    requires Common(cfg, s) && r < |s.routers| && s.routers[r].Some? && LogsGrow(s.parts, t.parts)
    requires t.workers == s.workers && t.rows == s.rows && t.work == s.work && t.subm == s.subm
    requires t.routers == s.routers[r := Some(s.routers[r].value.(sent := true))]
    requires NewOnesKnown(s, t)
    ensures Common(cfg, t)
  {
    var u := t.(routers := s.routers);
    GrowsKeepsKnown(s, u);
    forall p | 0 <= p < |t.parts| ensures LogKnown(t, p) {
      assert LogKnown(u, p);
    }
    forall w | 0 <= w < |t.workers| ensures TaskInStep(t, w, t.workers[w]) {
      assert TaskInStep(u, w, u.workers[w]);
    }
    SentStays(cfg, s, t);
  }

  /** Only committed offsets, columns, timers and submissions that publish nothing. */
  lemma SameReads(cfg: Config, s: Sys, t: Sys)
    requires Inv(cfg, s) && t.workers == s.workers && t.subm.published == s.subm.published
    requires |t.routers| == |s.routers|
    requires forall r :: 0 <= r < |s.routers| ==> t.routers[r] == s.routers[r] || t.routers[r].None?
    requires t.work == s.work && Grows(s.rows, t.rows) && forall j :: s.subm.subPubs[j] <= t.subm.subPubs[j]
    requires |t.parts| == |s.parts|
    requires forall p :: 0 <= p < |s.parts| ==> t.parts[p] == s.parts[p].(committed := t.parts[p].committed)
    ensures Inv(cfg, t)
  {
    SameCommon(cfg, s, t);
    forall tier, d ensures InOrder(cfg, t, tier, d) {
      assert InOrder(cfg, s, tier, d);
      SameOrder(cfg, s, t, tier, d);
    }
  }

  lemma SameCommon(cfg: Config, s: Sys, t: Sys)
    requires Common(cfg, s) && t.workers == s.workers && t.subm.published == s.subm.published
    requires |t.routers| == |s.routers|
    requires forall r :: 0 <= r < |s.routers| ==> t.routers[r] == s.routers[r] || t.routers[r].None?
    requires t.work == s.work && Grows(s.rows, t.rows) && forall j :: s.subm.subPubs[j] <= t.subm.subPubs[j]
    requires |t.parts| == |s.parts|
    requires forall p :: 0 <= p < |s.parts| ==> t.parts[p] == s.parts[p].(committed := t.parts[p].committed)
    ensures Common(cfg, t)
  {
    forall p | 0 <= p < |t.parts| ensures LogKnown(t, p) {
      assert LogKnown(s, p);
    }
    forall w | 0 <= w < |t.workers| ensures TaskInStep(t, w, t.workers[w]) {
      assert TaskInStep(s, w, s.workers[w]);
    }
    SentStays(cfg, s, t);
    RunsStay(s, t);
  }

  lemma SameOrder(cfg: Config, s: Sys, t: Sys, tier: Tier, d: string)
    requires InOrder(cfg, s, tier, d) && t.workers == s.workers && t.subm.published == s.subm.published
    requires t.work == s.work && |t.parts| == |s.parts|
    requires forall p :: 0 <= p < |s.parts| ==> t.parts[p] == s.parts[p].(committed := t.parts[p].committed)
    ensures InOrder(cfg, t, tier, d)
  {
    if Routed(cfg.route, s.parts, Main(tier), d) {
      var p := cfg.route(Main(tier), d);
      assert t.parts[p] == s.parts[p].(committed := t.parts[p].committed);
      assert Started(t, p) == Started(s, p);
    }
  }

  lemma FetchEvent(cfg: Config, s: Sys, w: nat, q: nat)
    requires Inv(cfg, s) && StepFetch(cfg, s, w, q).Some?
    ensures Inv(cfg, StepFetch(cfg, s, w, q).value)
  {
    var t := StepFetch(cfg, s, w, q).value;
    assert LogKnown(s, q);
    forall p | 0 <= p < |t.parts| ensures LogKnown(t, p) {
      assert LogKnown(s, p);
    }
    forall v | 0 <= v < |t.workers| ensures TaskInStep(t, v, t.workers[v]) {
      assert TaskInStep(s, v, s.workers[v]);
    }
    SentStays(cfg, s, t);
    forall tier, d ensures InOrder(cfg, t, tier, d) {
      assert InOrder(cfg, s, tier, d);
      var p := cfg.route(Main(tier), d);
      if p < |s.parts| { assert LogKnown(s, p); }
      FetchStarted(cfg, s, t, w, q, p);
    }
  }

  lemma FetchStarted(cfg: Config, s: Sys, t: Sys, w: nat, q: nat, p: nat)
    requires StepFetch(cfg, s, w, q) == Some(t) && (p < |s.parts| ==> s.parts[p].pos <= |s.parts[p].log|)
    ensures p < |s.parts| ==> t.parts[p].pos <= |t.parts[p].log| && Started(t, p) == Started(s, p)
  {
  }

  lemma PickKeepsCommon(cfg: Config, s: Sys, r: nat, q: nat)
    requires Common(cfg, s) && StepPick(cfg, s, r, q).Some?
    ensures Common(cfg, StepPick(cfg, s, r, q).value)
  {
    var t := StepPick(cfg, s, r, q).value;
    assert LogKnown(s, q);
    forall p | 0 <= p < |t.parts| ensures LogKnown(t, p) {
      assert LogKnown(s, p);
    }
    forall v | 0 <= v < |t.workers| ensures TaskInStep(t, v, t.workers[v]) {
      assert TaskInStep(s, v, s.workers[v]);
    }
    SentStays(cfg, s, t);
  }

  lemma PickEvent(cfg: Config, s: Sys, r: nat, q: nat)
    requires Inv(cfg, s) && StepPick(cfg, s, r, q).Some?
    ensures Inv(cfg, StepPick(cfg, s, r, q).value)
  {
    PickKeepsCommon(cfg, s, r, q);
    forall tier, d ensures InOrder(cfg, StepPick(cfg, s, r, q).value, tier, d) {
      PickKeepsOrder(cfg, s, r, q, tier, d);
    }
  }

  lemma PickKeepsOrder(cfg: Config, s: Sys, r: nat, q: nat, tier: Tier, d: string)
    requires InOrder(cfg, s, tier, d) && StepPick(cfg, s, r, q).Some?
    ensures InOrder(cfg, StepPick(cfg, s, r, q).value, tier, d)
  {
  }

  // ----- a worker's calls -----

  lemma StartFacts(cfg: Config, s: Sys, w: nat, c: Choice)
    requires Routing.Inv(cfg, s) && StepWorker(cfg, s, w, c).Some? && s.workers[w].value.phase == Loaded
    ensures var t := StepWorker(cfg, s, w, c).value;
            var k := s.workers[w].value;
            t.parts == s.parts && t.subm == s.subm && t.routers == s.routers &&
            t.workers == s.workers[w := Some(k.(phase := InHandler))] &&
            t.work.handled == s.work.handled + [HandlerRun(k.msg.id, k.part, k.msg.tier, k.msg.device)] &&
            t.work.runs == s.work.runs + multiset{k.msg.id} && Faithful(s.rows, k.msg)
  {
    assert Routing.TaskOk(cfg, s.rows, w, s.workers[w]);
    RegistryIsTotalOnValid(s.workers[w].value.msg.typ);
  }

  lemma StartEvent(cfg: Config, s: Sys, w: nat, c: Choice)
    requires Inv(cfg, s) && Base(cfg, s) && StepWorker(cfg, s, w, c).Some? && s.workers[w].value.phase == Loaded
    ensures Inv(cfg, StepWorker(cfg, s, w, c).value)
  {
    var t := StepWorker(cfg, s, w, c).value;
    var k := s.workers[w].value;
    StartFacts(cfg, s, w, c);
    Routing.NextGrows(cfg, s, WorkerCall(w, c));
    StartKeepsCommon(cfg, s, t, w, k);
    forall tier, d ensures InOrder(cfg, t, tier, d) {
      assert InOrder(cfg, s, tier, d) && TaskInStep(s, w, s.workers[w]);
      if k.part == cfg.route(Main(tier), d) {
        OwnStartKeepsOrder(cfg, s, t, w, k, tier, d);
      } else {
        if k.msg.tier == tier && k.msg.device == d { RerunIsThere(cfg, s, w, k); }
        OtherStartKeepsOrder(cfg, s, t, w, k, tier, d);
      }
    }
  }

  lemma StartKeepsCommon(cfg: Config, s: Sys, t: Sys, w: nat, k: Task)
    requires Common(cfg, s) && w < |s.workers| && s.workers[w] == Some(k) && k.phase == Loaded
    requires Faithful(s.rows, k.msg)
    requires t.parts == s.parts && t.subm == s.subm && t.routers == s.routers && Grows(s.rows, t.rows)
    requires t.workers == s.workers[w := Some(k.(phase := InHandler))]
    requires t.work.handled == s.work.handled + [HandlerRun(k.msg.id, k.part, k.msg.tier, k.msg.device)]
    requires t.work.runs == s.work.runs + multiset{k.msg.id}
    ensures Common(cfg, t)
  {
    var x := HandlerRun(k.msg.id, k.part, k.msg.tier, k.msg.device);
    IdsSnoc(s.work.handled, x);
    LogsStayKnown(s, t) by {
      forall p | 0 <= p < |s.parts| ensures t.parts[p].pos <= |t.parts[p].log| { assert LogKnown(s, p); }
    }
    forall v | 0 <= v < |t.workers| ensures TaskInStep(t, v, t.workers[v]) {
      TaskStays(s, t, v, s.workers[v]);
    }
    forall r | 0 <= r < |t.routers| && t.routers[r].Some? ensures Known(t, t.routers[r].value.msg) {
      KnownStays(s, t, s.routers[r].value.msg);
    }
    SentStays(cfg, s, t);
    assert TaskInStep(s, w, s.workers[w]);
    StartCounts(s, t, x);
  }

  lemma StartCounts(s: Sys, t: Sys, x: HandlerRun)
    requires RunsCounted(s) && RunOk(s, x) && Grows(s.rows, t.rows) && t.subm == s.subm
    requires t.work.handled == s.work.handled + [x] && t.work.runs == s.work.runs + multiset{x.id}
    ensures RunsCounted(t)
  {
    assert t.work.handled[..|s.work.handled|] == s.work.handled;
    forall i | 0 <= i < |t.work.handled| ensures RunOk(t, t.work.handled[i]) {
      RunStays(s, t, t.work.handled[i]);
    }
  }

  /** The other calls of a worker start nothing; they put their message on a retry or dead-letter log, if anywhere. */
  lemma OtherCall(cfg: Config, s: Sys, tier: Tier, k: Task, c: Choice)
    requires WorkCallEffect(cfg, s, tier, k, c).Some? && k.phase != Loaded && k.msg.tier == tier && k.msg.id in s.rows
    ensures var f := WorkCallEffect(cfg, s, tier, k, c).value;
            f.log.handled == s.work.handled && f.log.runs == s.work.runs &&
            (f.task.Some? ==> f.task.value.msg == k.msg && f.task.value.part == k.part) &&
            (k.phase == Fetched <==> f.task.Some? && f.task.value.phase in {Fetched, Loaded})
    ensures var f := WorkCallEffect(cfg, s, tier, k, c).value;
            if k.phase == HandlerErr then
              var to := if k.att + 1 >= k.max then Dlq else RetryOf(tier);
              Routed(cfg.route, s.parts, to, k.msg.id) &&
              f.parts == Append(cfg.route, s.parts, to, Resent(s, k, c))
            else
              |f.parts| == |s.parts| &&
              forall p :: 0 <= p < |s.parts| ==> f.parts[p] == s.parts[p].(committed := f.parts[p].committed)
  {
  }

  /** A step of worker `w` between its fetch and its start, or after it. */
  predicate SameStart(s: Sys, t: Sys, w: nat) {
    w < |s.workers| && |t.workers| == |s.workers| && s.workers[w].Some? && t.workers == s.workers[w := t.workers[w]] &&
    (s.workers[w].value.phase in {Fetched, Loaded} <==>
     t.workers[w].Some? && t.workers[w].value.phase in {Fetched, Loaded}) &&
    (t.workers[w].Some? ==>
       t.workers[w].value.part == s.workers[w].value.part && t.workers[w].value.msg == s.workers[w].value.msg)
  }

  lemma OtherWorkKeepsOrder(cfg: Config, s: Sys, t: Sys, w: nat, tier: Tier, d: string)
    requires InOrder(cfg, s, tier, d) && SameStart(s, t, w) && LogsGrow(s.parts, t.parts)
    requires t.work.handled == s.work.handled && t.subm.published == s.subm.published
    requires forall p :: 0 <= p < |s.parts| && s.parts[p].topic.Main? ==> t.parts[p].log == s.parts[p].log
    ensures InOrder(cfg, t, tier, d)
  {
    var p := cfg.route(Main(tier), d);
    if Routed(cfg.route, s.parts, Main(tier), d) { assert Holds(t, p) <==> Holds(s, p); }
  }

  lemma OtherWorkKeepsCommon(cfg: Config, s: Sys, t: Sys, w: nat)
    requires Common(cfg, s) && SameStart(s, t, w) && LogsGrow(s.parts, t.parts) && t.routers == s.routers
    requires t.subm == s.subm
    requires t.work.handled == s.work.handled && t.work.runs == s.work.runs && Grows(s.rows, t.rows)
    requires NewOnesKnown(s, t)
    ensures Common(cfg, t)
  {
    var u := t.(workers := s.workers);
    GrowsKeepsKnown(s, u);
    SameWorkersElsewhere(u, t, w);
    SentStays(cfg, s, t);
    RunsStay(s, t);
  }

  lemma SameWorkersElsewhere(u: Sys, t: Sys, w: nat)
    requires LogsKnown(u) && TasksInStep(u) && HaulsKnown(u) && SameStart(u, t, w) && u == t.(workers := u.workers)
    ensures LogsKnown(t) && TasksInStep(t) && HaulsKnown(t)
  {
    forall p | 0 <= p < |t.parts| ensures LogKnown(t, p) {
      assert LogKnown(u, p);
    }
    forall v | 0 <= v < |t.workers| ensures TaskInStep(t, v, t.workers[v]) {
      assert TaskInStep(u, v, u.workers[v]) && TaskInStep(u, w, u.workers[w]);
    }
  }

  /** What a worker's other calls do to the logs. */
  ghost predicate OnlyResends(a: seq<Part>, b: seq<Part>, m: Message) {
    LogsGrow(a, b) && (forall p :: 0 <= p < |a| && a[p].topic.Main? ==> b[p].log == a[p].log) &&
    forall p, i :: 0 <= p < |b| && |a[p].log| <= i < |b[p].log| ==> b[p].log[i] == m
  }

  lemma OtherCallLogs(cfg: Config, s: Sys, tier: Tier, k: Task, c: Choice)
    requires WorkCallEffect(cfg, s, tier, k, c).Some? && k.phase != Loaded && k.msg.tier == tier && k.msg.id in s.rows
    ensures var m := if k.phase == HandlerErr then Resent(s, k, c) else k.msg;
            OnlyResends(s.parts, WorkCallEffect(cfg, s, tier, k, c).value.parts, m)
  {
    OtherCall(cfg, s, tier, k, c);
  }

  lemma OtherWorkEvent(cfg: Config, s: Sys, w: nat, c: Choice)
    requires Inv(cfg, s) && Routing.Inv(cfg, s) && StepWorker(cfg, s, w, c).Some? && s.workers[w].value.phase != Loaded
    ensures Inv(cfg, StepWorker(cfg, s, w, c).value)
  {
    var t := StepWorker(cfg, s, w, c).value;
    var k := s.workers[w].value;
    assert TaskInStep(s, w, s.workers[w]) && Routing.TaskOk(cfg, s.rows, w, s.workers[w]);
    OtherCall(cfg, s, cfg.workerTier[w], k, c);
    OtherCallLogs(cfg, s, cfg.workerTier[w], k, c);
    Routing.WorkGrows(cfg, s, cfg.workerTier[w], k, c);
    OtherWorkKeeps(cfg, s, t, w, if k.phase == HandlerErr then Resent(s, k, c) else k.msg);
  }

  lemma OtherWorkKeeps(cfg: Config, s: Sys, t: Sys, w: nat, m: Message)
    requires Inv(cfg, s) && SameStart(s, t, w) && OnlyResends(s.parts, t.parts, m) && Known(s, m)
    requires t.routers == s.routers && t.subm == s.subm && Grows(s.rows, t.rows)
    requires t.work.handled == s.work.handled && t.work.runs == s.work.runs
    ensures Inv(cfg, t)
  {
    KnownStays(s, t, m);
    OtherWorkKeepsCommon(cfg, s, t, w);
    forall tier, d ensures InOrder(cfg, t, tier, d) {
      assert InOrder(cfg, s, tier, d);
      OtherWorkKeepsOrder(cfg, s, t, w, tier, d);
    }
  }

  // ----- every event -----

  lemma SilentSubEvent(cfg: Config, s: Sys, i: nat, c: Choice)
    requires Inv(cfg, s) && StepSub(cfg, s, i, c).Some? && s.subs[i].stage != Inserted
    ensures Inv(cfg, StepSub(cfg, s, i, c).value)
  {
    var f := SubCallEffect(cfg, s, s.subs[i], c).value;
    Frames.SubPublishesNothing(cfg, s, s.subs[i], c);
    SubHistory(cfg, s, s.subs[i], c);
    Routing.SubGrows(cfg, s, s.subs[i], c);
    SameReads(cfg, s, StepSub(cfg, s, i, c).value);
  }

  lemma SubHistory(cfg: Config, s: Sys, b: Sub, c: Choice)
    requires b.stage != Inserted && SubCallEffect(cfg, s, b, c).Some?
    ensures SubCallEffect(cfg, s, b, c).value.log.published == s.subm.published
  {
  }

  lemma InvNext(cfg: Config, s: Sys, e: Event)
    requires Inv(cfg, s) && Base(cfg, s) && e.IsPlain() && Next(cfg, s, e).Some?
    ensures Inv(cfg, Next(cfg, s, e).value)
  {
    if e.Fetch? { FetchEvent(cfg, s, e.i, e.p); }
    else if e.Pick? { PickEvent(cfg, s, e.i, e.p); }
    else if e.RouterCall? { RouterEvent(cfg, s, e.i, e.c); }
    else if e.WorkerCall? {
      if s.workers[e.i].value.phase == Loaded { StartEvent(cfg, s, e.i, e.c); }
      else { OtherWorkEvent(cfg, s, e.i, e.c); }
    } else if e.SubCall? {
      if s.subs[e.i].stage == Inserted { PublishEvent(cfg, s, e.i, e.c); }
      else { SilentSubEvent(cfg, s, e.i, e.c); }
    } else {
      Routing.NextGrows(cfg, s, e);
      SameReads(cfg, s, Next(cfg, s, e).value);
    }
  }

  lemma {:induction false} InvRun(cfg: Config, s: Sys, es: seq<Event>, t: Sys)
    requires Inv(cfg, s) && Base(cfg, s) && Plain(es) && Run(cfg, s, es, t)
    ensures Inv(cfg, t)
    decreases |es|
  {
    if es != [] {
      assert es[0].IsPlain();
      InvNext(cfg, s, es[0]);
      Routing.InvNext(cfg, s, es[0]);
      Placement.InvNext(cfg, s, es[0]);
      Idempotency.InvNext(cfg, s, es[0]);
      InvRun(cfg, Next(cfg, s, es[0]).value, es[1..], t);
    }
  }

  lemma InitInv(cfg: Config, s: Sys)
    requires Init(s)
    ensures Inv(cfg, s) && Base(cfg, s)
  {
    forall j ensures Idempotency.OnePublish(s, j) {
    }
  }

  // ----- the theorems -----

  /** Where the device's partition is missing nothing is published, and so nothing run. */
  lemma UnroutedIsEmpty(cfg: Config, s: Sys, tier: Tier, d: string)
    requires Common(cfg, s) && !Routed(cfg.route, s.parts, Main(tier), d)
    ensures Keep(s.subm.published, OfDevice(tier, d)) == [] && Keep(s.work.handled, OfDevice(tier, d)) == []
  {
    forall i | 0 <= i < |s.subm.published| ensures !OfDevice(tier, d)(s.subm.published[i]) {
      assert Sent(cfg, s, s.subm.published[i]);
    }
    KeepNone(s.subm.published, OfDevice(tier, d));
    forall i | 0 <= i < |s.work.handled| ensures !OfDevice(tier, d)(s.work.handled[i]) {
      assert RunOk(s, s.work.handled[i]);
    }
    KeepNone(s.work.handled, OfDevice(tier, d));
  }

  lemma FirstRunsFollow(cfg: Config, s: Sys, tier: Tier, d: string)
    requires Inv(cfg, s)
    ensures Once(Keep(s.work.handled, OfDevice(tier, d))) <= Keep(s.subm.published, OfDevice(tier, d))
    ensures Distinct(Keep(s.subm.published, OfDevice(tier, d)))
  {
    assert InOrder(cfg, s, tier, d);
    if Routed(cfg.route, s.parts, Main(tier), d) {
      var p := cfg.route(Main(tier), d);
      var f := OfDevice(tier, d);
      var log := AsRuns(s.parts[p].log, p);
      assert AsRuns(Started(s, p), p) <= log;
      KeepPrefix(AsRuns(Started(s, p), p), log, f);
      OncePrefix(Keep(AsRuns(Started(s, p), p), f), Keep(log, f));
      OnceDistinct(Keep(log, f));
    } else {
      UnroutedIsEmpty(cfg, s, tier, d);
    }
  }

  /**
   In every plain run, whatever handlers fail, the first runs of one device's jobs in one tier are a prefix of what was
   published for them, in order.
   */
  lemma FirstRunsInPublishOrder(cfg: Config, s: Sys, es: seq<Event>, t: Sys, tier: Tier, d: string)
    requires Init(s) && Plain(es) && Run(cfg, s, es, t)
    ensures Once(Keep(t.work.handled, OfDevice(tier, d))) <= Keep(t.subm.published, OfDevice(tier, d))
  {
    InitInv(cfg, s);
    InvRun(cfg, s, es, t);
    FirstRunsFollow(cfg, t, tier, d);
  }

  /** Every job of the device and tier has been run at most once. */
  ghost predicate NoneRerun(s: Sys, tier: Tier, d: string) {
    forall j :: j in s.rows && s.rows[j].tier == tier && s.rows[j].device == d ==> s.work.runs[j] <= 1
  }

  lemma TimesOfDevice(s: Sys, tier: Tier, d: string, j: JobId)
    requires RunsCounted(s)
    ensures Times(Keep(s.work.handled, OfDevice(tier, d)), j) ==
            if j in s.rows && s.rows[j].tier == tier && s.rows[j].device == d then s.work.runs[j] else 0
  {
    var f := OfDevice(tier, d);
    forall i | 0 <= i < |s.work.handled| && s.work.handled[i].id == j
      ensures f(s.work.handled[i]) <==> s.rows[j].tier == tier && s.rows[j].device == d
    {
      assert RunOk(s, s.work.handled[i]);
    }
    if j in s.rows && s.rows[j].tier == tier && s.rows[j].device == d {
      TimesKept(s.work.handled, f, j);
    } else {
      TimesDropped(s.work.handled, f, j) by {
        forall i | 0 <= i < |s.work.handled| && s.work.handled[i].id == j ensures !f(s.work.handled[i]) {
          assert RunOk(s, s.work.handled[i]);
        }
      }
    }
  }

  lemma DistinctIffNoneRerun(s: Sys, tier: Tier, d: string)
    requires RunsCounted(s)
    ensures Distinct(Keep(s.work.handled, OfDevice(tier, d))) <==> NoneRerun(s, tier, d)
  {
    var xs := Keep(s.work.handled, OfDevice(tier, d));
    if Distinct(xs) {
      forall j | j in s.rows && s.rows[j].tier == tier && s.rows[j].device == d ensures s.work.runs[j] <= 1 {
        DistinctTimes(xs, j);
        TimesOfDevice(s, tier, d, j);
      }
    }
    if NoneRerun(s, tier, d) {
      forall j ensures Times(xs, j) <= 1 {
        TimesOfDevice(s, tier, d, j);
      }
      TimesDistinct(xs);
    }
  }

  /**
   All runs of the device's jobs in the tier are in the order in which they were published if and only if none of these
   jobs has been run again. Other devices, and failures whose retry has not reached its handler, do not matter.
   */
  lemma HandledInPublishOrderIff(cfg: Config, s: Sys, es: seq<Event>, t: Sys, tier: Tier, d: string)
    requires Init(s) && Plain(es) && Run(cfg, s, es, t)
    ensures Keep(t.work.handled, OfDevice(tier, d)) <= Keep(t.subm.published, OfDevice(tier, d)) <==>
            NoneRerun(t, tier, d)
  {
    InitInv(cfg, s);
    InvRun(cfg, s, es, t);
    FirstRunsFollow(cfg, t, tier, d);
    DistinctIffNoneRerun(t, tier, d);
    OnceDistinct(Keep(t.work.handled, OfDevice(tier, d)));
  }

  /** A job that has not failed has not been run again; so while none of the device's has, its order is kept. */
  lemma UnfailedInPublishOrder(cfg: Config, s: Sys, es: seq<Event>, t: Sys, tier: Tier, d: string)
    requires Init(s) && Plain(es) && Run(cfg, s, es, t)
    requires forall j :: j in t.rows && t.rows[j].tier == tier && t.rows[j].device == d ==> t.work.failures[j] == 0
    ensures Keep(t.work.handled, OfDevice(tier, d)) <= Keep(t.subm.published, OfDevice(tier, d))
  {
    forall j | j in t.rows && t.rows[j].tier == tier && t.rows[j].device == d ensures t.work.runs[j] <= 1 {
      Overshoot.RunsAtMostFailures(cfg, s, es, t, j);
    }
    HandledInPublishOrderIff(cfg, s, es, t, tier, d);
  }
}

/**
 The bound of Overshoot is exact: in a deployment where the device's partition and the job id's partition
 belong to different workers there is a run, without crashes, failed calls or reaps, in which a job that keeps
 failing is run once more than its budget; where they belong to one worker there is none.
 */
module Tightness {
  import opened Prelude
  import opened Jobs
  import opened Store
  import opened Broker
  import opened Protocol
  import opened Atomic
  import Serial
  import Overshoot
  import Routing
  import Firmware
  import Backoff

  /** The job under study: its id, its request's type and device, and its tier. */
  datatype Subject = Subject(id: JobId, typ: Type, device: string, tier: Tier)

  /** A well-formed idempotency key for its request to the API. */
  const KEY: string := "first-key"

  /** The partitions its messages pass through: keyed by the device, by the id, and the retry partition. */
  function First(u: Serial.Setup, x: Subject): nat {
    u.route(Main(x.tier), x.device)
  }

  function Second(u: Serial.Setup, x: Subject): nat {
    u.route(Main(x.tier), x.id)
  }

  function Waiting(u: Serial.Setup, x: Subject): nat {
    u.route(RetryOf(x.tier), x.id)
  }

  predicate OfSubject(x: Subject, m: Message) {
    m.id == x.id && m.typ == x.typ && m.tier == x.tier
  }

  predicate RetryOfSubject(x: Subject, m: Message) {
    m.key == x.id && OfSubject(x, m)
  }

  predicate LastUnread(x: Subject, q: Part) {
    q.pos + 1 == |q.log| && RetryOfSubject(x, q.log[q.pos])
  }

  predicate ReadUp(q: Part) {
    q.pos == |q.log|
  }

  predicate RowAt(x: Subject, rows: Table, a: nat) {
    x.id in rows && rows[x.id].attempts == a && rows[x.id].maxAttempts == MAX_ATTEMPTS && rows[x.id].typ == x.typ &&
    rows[x.id].device == x.device
  }

  ghost predicate Laid(u: Serial.Setup, x: Subject, pl: Serial.Plant) {
    Wired(u.route, pl.parts) && TierFor(x.typ) == Some(x.tier) &&
    Routed(u.route, pl.parts, Main(x.tier), x.id) && Routed(u.route, pl.parts, RetryOf(x.tier), x.id) &&
    Routed(u.route, pl.parts, Dlq, x.id)
  }

  /** The job's message waits on the retry topic, with `a` attempts on the row. */
  ghost predicate ToForward(u: Serial.Setup, x: Subject, pl: Serial.Plant, a: nat) {
    Laid(u, x, pl) && RowAt(x, pl.rows, a) && LastUnread(x, pl.parts[Waiting(u, x)]) && ReadUp(pl.parts[Second(u, x)])
  }

  /** The job's message is back on the main topic. */
  ghost predicate ToWork(u: Serial.Setup, x: Subject, pl: Serial.Plant, a: nat) {
    Laid(u, x, pl) && RowAt(x, pl.rows, a) && LastUnread(x, pl.parts[Second(u, x)]) && ReadUp(pl.parts[Waiting(u, x)])
  }

  /** An environment in which every handler fails. */
  const BAD: Serial.Env := Serial.Env(Some("down"), true, "", "", 1.0, [])

  lemma BadHandler(u: Serial.Setup, pl: Serial.Plant, m: Message)
    ensures var (h, err, _) := Serial.Handle(u, pl, m, BAD); err.Some? && h.rows == pl.rows && h.parts == pl.parts
  {
  }

  lemma Rewired(u: Serial.Setup, x: Subject, a: Serial.Plant, b: Serial.Plant)
    requires Laid(u, x, a) && SameAssignments(a.parts, b.parts)
    ensures Laid(u, x, b)
  {
    StillWired(u, a.parts, b.parts);
  }

  lemma ForwardShape(u: Serial.Setup, x: Subject, pl: Serial.Plant, a: nat)
    requires ToForward(u, x, pl, a)
    ensures Serial.Readable(pl, Waiting(u, x)) && ToWork(u, x, Serial.Forward(u, pl, Waiting(u, x), []), a)
  {
    ForwardStays(u, pl, Waiting(u, x), []);
    Rewired(u, x, pl, Serial.Forward(u, pl, Waiting(u, x), []));
  }

  lemma ProcessShape(u: Serial.Setup, x: Subject, pl: Serial.Plant, a: nat, m: Message)
    requires Laid(u, x, pl) && RowAt(x, pl.rows, a) && OfSubject(x, m) && a + 1 < MAX_ATTEMPTS && HasHandler(x.typ)
    ensures var b := Serial.ProcessOne(u, pl, x.tier, m, BAD).0;
            var w := Waiting(u, x);
            RowAt(x, b.rows, a + 1) && |b.parts| == |pl.parts| &&
            (forall p :: 0 <= p < |pl.parts| && p != w ==> b.parts[p] == pl.parts[p]) &&
            b.parts[w] == pl.parts[w].(log := b.parts[w].log) && pl.parts[w].log < b.parts[w].log &&
            |b.parts[w].log| == |pl.parts[w].log| + 1 && RetryOfSubject(x, b.parts[w].log[|pl.parts[w].log|])
  {
    BadHandler(u, Serial.SetState(pl, m.id, Running, None), m);
  }

  lemma WorkShape(u: Serial.Setup, x: Subject, pl: Serial.Plant, a: nat)
    requires ToWork(u, x, pl, a) && a + 1 < MAX_ATTEMPTS
    ensures Serial.Readable(pl, Second(u, x)) && ToForward(u, x, Serial.Work(u, pl, Second(u, x), BAD), a + 1)
  {
    var p := Second(u, x);
    RegistryIsTotalOnValid(x.typ);
    WorkStays(u, pl, p, BAD);
    Rewired(u, x, pl, Serial.Work(u, pl, p, BAD));
    var f := Serial.Fetched(pl, p);
    StillWired(u, pl.parts, f.parts);
    ProcessShape(u, x, f, a, Serial.Head(pl, p));
  }

  // ----- the run -----

  /** The worker and the router that own the job's partitions are idle. */
  predicate Crew(cfg: Config, s: Sys, u: Serial.Setup, x: Subject) {
    Second(u, x) < |s.parts| && Waiting(u, x) < |s.parts| &&
    var w := s.parts[Second(u, x)].owner;
    var r := s.parts[Waiting(u, x)].owner;
    w < |s.workers| && w < |cfg.workerTier| && cfg.workerTier[w] == x.tier && s.workers[w].None? &&
    r < |s.routers| && r < |cfg.routerTier| && cfg.routerTier[r] == x.tier && s.routers[r].None?
  }

  /** Forwarded and failed once more. */
  lemma Cycle(cfg: Config, u: Serial.Setup, x: Subject, s: Sys, pl: Serial.Plant, a: nat)
    returns (t: Sys, after: Serial.Plant)
    requires ToForward(u, x, pl, a) && Shows(cfg, u, s, pl) && Crew(cfg, s, u, x)
    ensures Reaches(cfg, s, t) && Shows(cfg, u, t, after) && Crew(cfg, t, u, x)
    ensures t.work.runs == s.work.runs + multiset{x.id}
    ensures a + 1 < MAX_ATTEMPTS ==> ToForward(u, x, after, a + 1)
    ensures x.id in t.rows && t.rows[x.id].typ == x.typ && t.rows[x.id].device == x.device
  {
    ForwardShape(u, x, pl, a);
    ForwardStays(u, pl, Waiting(u, x), []);
    var m := ForwardIsCalls(cfg, u, s, pl, pl.parts[Waiting(u, x)].owner, Waiting(u, x), []);
    var mid := Serial.Forward(u, pl, Waiting(u, x), []);
    t, after := CycleWork(cfg, u, x, m, mid, a);
    Join(cfg, s, m, t);
  }

  lemma CycleWork(cfg: Config, u: Serial.Setup, x: Subject, s: Sys, pl: Serial.Plant, a: nat)
    returns (t: Sys, after: Serial.Plant)
    requires ToWork(u, x, pl, a) && Shows(cfg, u, s, pl) && Crew(cfg, s, u, x)
    ensures Reaches(cfg, s, t) && Shows(cfg, u, t, after) && Crew(cfg, t, u, x)
    ensures t.work.runs == s.work.runs + multiset{x.id}
    ensures a + 1 < MAX_ATTEMPTS ==> ToForward(u, x, after, a + 1)
    ensures x.id in t.rows && t.rows[x.id].typ == x.typ && t.rows[x.id].device == x.device
  {
    var p := Second(u, x);
    RegistryIsTotalOnValid(x.typ);
    WorkStays(u, pl, p, BAD);
    t := WorkIsCalls(cfg, u, s, pl, pl.parts[p].owner, p, BAD);
    after := Serial.Work(u, pl, p, BAD);
    if a + 1 < MAX_ATTEMPTS { WorkShape(u, x, pl, a); }
    KeepsRow(u, pl, p, x.id);
  }

  /** A failed turn changes no row's type or device. */
  lemma KeepsRow(u: Serial.Setup, pl: Serial.Plant, p: nat, id: JobId)
    requires Serial.Readable(pl, p) && pl.parts[p].topic.Main? && id in pl.rows
    ensures var rows := Serial.Work(u, pl, p, BAD).rows;
            id in rows && rows[id].typ == pl.rows[id].typ && rows[id].device == pl.rows[id].device
  {
    var m := Serial.Head(pl, p);
    var f := Serial.Fetched(pl, p);
    var running := Serial.SetState(f, m.id, Running, None);
    BadHandler(u, running, m);
    var (h, err, entry) := Serial.Handle(u, running, m, BAD);
    if m.tier == pl.parts[p].topic.tier && m.id in pl.rows && HasHandler(m.typ) {
      var ran := h.(runs := h.runs + [Serial.Ran(m.id, false, entry)]);
      Firmware.FailIsQuiet(u, ran, m.tier, m, pl.rows[m.id], BAD, err.value);
    } else {
      Firmware.BuryIsQuiet(u, f, m, BAD.trace, "no handler");
    }
  }

  /** The first message of the job, unread on its partition. */
  ghost predicate Submitted(u: Serial.Setup, x: Subject, pl: Serial.Plant) {
    Laid(u, x, pl) && RowAt(x, pl.rows, 0) && Routed(u.route, pl.parts, Main(x.tier), x.device) &&
    First(u, x) != Second(u, x) &&
    ReadUp(pl.parts[Second(u, x)]) && ReadUp(pl.parts[Waiting(u, x)]) &&
    var q := pl.parts[First(u, x)];
    q.pos < |q.log| && q.log[q.pos].id == x.id && q.log[q.pos].typ == x.typ && q.log[q.pos].tier == x.tier
  }

  /** A worker that has published the retry and written nothing yet. */
  predicate Stalled(x: Subject, k: Task) {
    k.phase == RetrySent && k.msg.id == x.id && k.msg.tier == x.tier
  }

  /** The first worker runs the job, publishes the retry, and is held up before it counts the attempt. */
  lemma Stall(cfg: Config, u: Serial.Setup, x: Subject, s: Sys, pl: Serial.Plant, w: nat)
    returns (t: Sys, after: Serial.Plant, k: Task)
    requires Submitted(u, x, pl) && Shows(cfg, u, s, pl) && Crew(cfg, s, u, x)
    requires w == pl.parts[First(u, x)].owner && w != pl.parts[Second(u, x)].owner
    requires w < |s.workers| && w < |cfg.workerTier| && cfg.workerTier[w] == x.tier && s.workers[w].None?
    ensures Reaches(cfg, s, t) && Shows(cfg, u, t, after) && Crew(cfg, t, u, x)
    ensures t.work.runs == s.work.runs + multiset{x.id}
    ensures ToForward(u, x, after, 0) && SameSubmissions(s, t) && SameAssignments(pl.parts, after.parts)
    ensures WorkerMovesOn(s, w, Some(k), t) && Stalled(x, k) && k.part == First(u, x)
  {
    RegistryIsTotalOnValid(x.typ);
    var p := First(u, x);
    var b, h := StartCalls(cfg, u, s, pl, w, p);
    var running := Serial.SetState(Serial.Fetched(pl, p), x.id, Running, None);
    StillWired(u, pl.parts, running.parts);
    t, after, k := RetryAndStop(cfg, u, x, b, running, w, h);
    Join(cfg, s, b, t);
  }

  lemma RetryAndStop(cfg: Config, u: Serial.Setup, x: Subject, s: Sys, pl: Serial.Plant, w: nat, h: Task)
    returns (t: Sys, after: Serial.Plant, k: Task)
    requires Laid(u, x, pl) && RowAt(x, pl.rows, 0) && ReadUp(pl.parts[Second(u, x)]) && ReadUp(pl.parts[Waiting(u, x)])
    requires Shows(cfg, u, s, pl) && Crew(cfg, s, u, x) && w != s.parts[Second(u, x)].owner
    requires Holds(cfg, s, w, h) && h.phase == InHandler && h.att == 0 && h.max == MAX_ATTEMPTS
    requires h.msg.id == x.id && h.msg.typ == x.typ && h.msg.tier == x.tier
    ensures Reaches(cfg, s, t) && Shows(cfg, u, t, after) && Crew(cfg, t, u, x) && t.work.runs == s.work.runs
    ensures ToForward(u, x, after, 0) && SameSubmissions(s, t) && SameAssignments(pl.parts, after.parts)
    ensures WorkerMovesOn(s, w, Some(k), t) && Stalled(x, k) && k.part == h.part
  {
    var m := ReturnCalls(cfg, u, s, pl, w, h, Some("down"));
    var r := Returned(h, Some("down"));
    t, after, k := PublishAndStop(cfg, u, x, m, pl, w, r);
    Join(cfg, s, m, t);
    StillWired(u, pl.parts, after.parts);
  }

  /** The retry publish alone. */
  lemma PublishAndStop(cfg: Config, u: Serial.Setup, x: Subject, s: Sys, pl: Serial.Plant, w: nat, h: Task)
    returns (t: Sys, after: Serial.Plant, k: Task)
    requires Routed(u.route, pl.parts, RetryOf(x.tier), x.id) && Shows(cfg, u, s, pl)
    requires Holds(cfg, s, w, h) && h.phase == HandlerErr && h.att + 1 < h.max
    requires h.msg.id == x.id && h.msg.tier == x.tier && x.id in pl.rows
    ensures Reaches(cfg, s, t) && Shows(cfg, u, t, after) && t.work.runs == s.work.runs && SameSubmissions(s, t)
    ensures WorkerMovesOn(s, w, Some(k), t) && k == h.(phase := RetrySent)
    ensures var headers := RetryHeaders([], Backoff.NextAt(pl.now, h.att + 1, 1.0));
            var c := h.msg.(key := h.msg.id, headers := headers);
            Routed(u.route, pl.parts, RetryOf(x.tier), c.key) &&
            after == pl.(parts := Append(u.route, pl.parts, RetryOf(x.tier), c))
  {
    var f := WorkCallEffect(cfg, s, x.tier, h, PLAIN).value;
    WorkCalls(cfg, s, w, h, PLAIN, f);
    t := ApplyWork(s, w, f);
    k := h.(phase := RetrySent);
    after := pl.(parts := f.parts);
  }

  lemma SubmitShape(u: Serial.Setup, x: Subject, pl: Serial.Plant, key: string)
    requires Serial.Fresh(pl) && Laid(u, x, pl) && Routed(u.route, pl.parts, Main(x.tier), x.device)
    requires First(u, x) != Second(u, x) && x.device in pl.devices
    ensures var after := Serial.Submit(u, pl, Request(x.typ, x.device, key, ""), x.id, []).0;
            Submitted(u, x, after) && SameAssignments(pl.parts, after.parts)
  {
    assert CanInsert(pl.rows, pl.devices.Keys, Request(x.typ, x.device, key, ""), x.id);
    StillWired(u, pl.parts, Serial.Submit(u, pl, Request(x.typ, x.device, key, ""), x.id, []).0.parts);
  }

  /** A plant for a fresh system. */
  function PlantOf(s: Sys): Serial.Plant {
    Serial.Plant(s.rows, map d | d in s.devices :: Serial.Device(None, None), [], s.now, s.parts, [])
  }

  /** A deployment for the subject: fresh, staffed, with every topic there and its device known. */
  ghost predicate Deployment(cfg: Config, u: Serial.Setup, x: Subject, s: Sys) {
    Init(s) && cfg.route == u.route && Staffed(cfg, s) && Wired(u.route, s.parts) &&
    TierFor(x.typ) == Some(x.tier) && x.device in s.devices
  }

  /** One worker for the job's first message and another for the later ones. */
  ghost predicate TwoOwners(cfg: Config, u: Serial.Setup, x: Subject, s: Sys) {
    Deployment(cfg, u, x, s) && First(u, x) < |s.parts| && Second(u, x) < |s.parts| &&
    s.parts[First(u, x)].owner != s.parts[Second(u, x)].owner
  }

  /** A request through the API: its message is the next one for the first worker, and the others are ready. */
  lemma SubmittedRequest(cfg: Config, u: Serial.Setup, x: Subject, s: Sys) returns (t: Sys, after: Serial.Plant)
    requires TwoOwners(cfg, u, x, s)
    ensures Reaches(cfg, s, t) && Shows(cfg, u, t, after) && Crew(cfg, t, u, x) && Submitted(u, x, after)
    ensures SameAssignments(s.parts, after.parts) && t.workers == s.workers && t.routers == s.routers
    ensures t.work == s.work
    ensures t.subs == [Sub(Request(x.typ, x.device, KEY, ""), true, Closed, x.id)]
    ensures Assigned(cfg, s.parts[First(u, x)])
  {
    var pl := PlantOf(s);
    var q := Request(x.typ, x.device, KEY, "");
    FreshShape(cfg, u, x, s);
    t := ApiSubmitIsCalls(cfg, u, s, pl, q, x.id, []);
    after := Serial.Submit(u, pl, q, x.id, []).0;
    CrewIsThere(cfg, u, x, s, t, after);
  }

  /** The request's plants, from a fresh deployment. */
  lemma FreshShape(cfg: Config, u: Serial.Setup, x: Subject, s: Sys)
    requires TwoOwners(cfg, u, x, s)
    ensures var pl := PlantOf(s);
            var q := Request(x.typ, x.device, KEY, "");
            Shows(cfg, u, s, pl) && CanInsert(pl.rows, pl.devices.Keys, q, x.id) &&
            Submitted(u, x, Serial.Submit(u, pl, q, x.id, []).0) &&
            SameAssignments(s.parts, Serial.Submit(u, pl, q, x.id, []).0.parts)
  {
    assert Routed(u.route, s.parts, Main(x.tier), x.device) && Routed(u.route, s.parts, Main(x.tier), x.id);
    assert Routed(u.route, s.parts, RetryOf(x.tier), x.id) && Routed(u.route, s.parts, Dlq, x.id);
    SubmitShape(u, x, PlantOf(s), KEY);
  }

  /** In a staffed deployment the processes of the job's partitions are idle. */
  lemma CrewIsThere(cfg: Config, u: Serial.Setup, x: Subject, s: Sys, t: Sys, pl: Serial.Plant)
    requires TwoOwners(cfg, u, x, s) && SameAssignments(s.parts, pl.parts) && t.parts == pl.parts
    requires t.workers == s.workers && t.routers == s.routers
    ensures Crew(cfg, t, u, x) && Assigned(cfg, s.parts[First(u, x)])
  {
    assert Routed(u.route, s.parts, Main(x.tier), x.device) && Routed(u.route, s.parts, Main(x.tier), x.id);
    assert Routed(u.route, s.parts, RetryOf(x.tier), x.id);
    assert Assigned(cfg, s.parts[First(u, x)]) && Assigned(cfg, s.parts[Second(u, x)]);
    assert Assigned(cfg, s.parts[Waiting(u, x)]);
  }

  /** The first worker fails the job and is held up after its retry publish. */
  lemma StalledRetry(cfg: Config, u: Serial.Setup, x: Subject, s: Sys)
    returns (t: Sys, after: Serial.Plant, w: nat, k: Task)
    requires TwoOwners(cfg, u, x, s)
    ensures Reaches(cfg, s, t) && Shows(cfg, u, t, after) && Crew(cfg, t, u, x) && ToForward(u, x, after, 0)
    ensures t.work.runs == multiset{x.id} && t.subs == [Sub(Request(x.typ, x.device, KEY, ""), true, Closed, x.id)]
    ensures w < |s.workers| && t.workers == s.workers[w := Some(k)] && t.routers == s.routers && Stalled(x, k)
    ensures k.part < |after.parts| && w < |cfg.workerTier| && cfg.workerTier[w] == x.tier
    ensures Second(u, x) < |after.parts| && after.parts[Second(u, x)].owner != w
  {
    var a, submitted := SubmittedRequest(cfg, u, x, s);
    w := s.parts[First(u, x)].owner;
    t, after, k := Stall(cfg, u, x, a, submitted, w);
    Join(cfg, s, a, t);
  }

  /** Submit, stall after the retry publish, and let the other worker fail the retries one budget long. */
  lemma OneRunTooMany(cfg: Config, u: Serial.Setup, x: Subject, s: Sys) returns (t: Sys)
    requires TwoOwners(cfg, u, x, s)
    ensures Reaches(cfg, s, t) && t.work.runs[x.id] == MAX_ATTEMPTS + 1
    ensures x.id in t.rows && t.rows[x.id].typ == x.typ && t.rows[x.id].device == x.device
  {
    var b, stalled, w, k := StalledRetry(cfg, u, x, s);
    t := ThreeCycles(cfg, u, x, b, stalled);
    Join(cfg, s, b, t);
  }

  lemma ThreeCycles(cfg: Config, u: Serial.Setup, x: Subject, s: Sys, pl: Serial.Plant) returns (t: Sys)
    requires ToForward(u, x, pl, 0) && Shows(cfg, u, s, pl) && Crew(cfg, s, u, x)
    ensures Reaches(cfg, s, t) && t.work.runs[x.id] == s.work.runs[x.id] + MAX_ATTEMPTS
    ensures x.id in t.rows && t.rows[x.id].typ == x.typ && t.rows[x.id].device == x.device
  {
    var c, pc := Cycle(cfg, u, x, s, pl, 0);
    var d, pd := Cycle(cfg, u, x, c, pc, 1);
    Join(cfg, s, c, d);
    var e, pe := Cycle(cfg, u, x, d, pd, 2);
    Join(cfg, s, d, e);
    t := e;
  }

  // ----- owners stay -----

  lemma PlainOwners(cfg: Config, s: Sys, e: Event)
    requires e.IsPlain() && Next(cfg, s, e).Some?
    ensures Overshoot.SameOwners(s.parts, Next(cfg, s, e).value.parts)
  {
    if e.WorkerCall? { Overshoot.CallOwners(cfg, s, cfg.workerTier[e.i], s.workers[e.i].value, e.c); }
    else if e.SubCall? { Overshoot.SubOwners(cfg, s, s.subs[e.i], e.c); }
    else if e.RouterCall? { Overshoot.RouteOwners(cfg, s, cfg.routerTier[e.i], s.routers[e.i].value, e.c); }
  }

  lemma {:induction false} PlainRunOwners(cfg: Config, s: Sys, es: seq<Event>, t: Sys)
    requires Plain(es) && Run(cfg, s, es, t)
    ensures Overshoot.SameOwners(s.parts, t.parts)
    decreases |es|
  {
    if es != [] {
      assert es[0].IsPlain();
      PlainOwners(cfg, s, es[0]);
      PlainRunOwners(cfg, Next(cfg, s, es[0]).value, es[1..], t);
    }
  }

  // ----- the theorem -----

  /** A plain run in which the job runs more often than its budget. */
  ghost predicate Overruns(cfg: Config, s: Sys, x: Subject, es: seq<Event>, t: Sys) {
    Plain(es) && Run(cfg, s, es, t) &&
    x.id in t.rows && t.rows[x.id].typ == x.typ && t.rows[x.id].device == x.device && t.work.runs[x.id] > MAX_ATTEMPTS
  }

  lemma OverrunNeedsTwoOwners(cfg: Config, u: Serial.Setup, x: Subject, s: Sys, es: seq<Event>, t: Sys)
    requires Init(s) && cfg.route == u.route && TierFor(x.typ) == Some(x.tier) && Overruns(cfg, s, x, es, t)
    requires First(u, x) < |s.parts| && Second(u, x) < |s.parts|
    ensures s.parts[First(u, x)].owner != s.parts[Second(u, x)].owner
  {
    Overshoot.OvershootAtMostOne(cfg, s, es, t, x.id);
    PlainRunOwners(cfg, s, es, t);
    Routing.InvRun(cfg, s, es, t);
  }

  /**
   For any deployment and any job: some run takes the job past its budget if and only if the partitions of its
   device and of its id have different owners.
   */
  lemma OvershootIffTwoOwners(cfg: Config, u: Serial.Setup, x: Subject, s: Sys)
    requires Deployment(cfg, u, x, s)
    ensures First(u, x) < |s.parts| && Second(u, x) < |s.parts|
    ensures (exists es, t :: Overruns(cfg, s, x, es, t)) <==> s.parts[First(u, x)].owner != s.parts[Second(u, x)].owner
  {
    assert Routed(u.route, s.parts, Main(x.tier), x.device) && Routed(u.route, s.parts, Main(x.tier), x.id);
    if s.parts[First(u, x)].owner != s.parts[Second(u, x)].owner {
      var t := OneRunTooMany(cfg, u, x, s);
      var es :| PlainRun(cfg, s, es, t);
      assert Overruns(cfg, s, x, es, t);
    }
    forall es, t | Overruns(cfg, s, x, es, t) ensures s.parts[First(u, x)].owner != s.parts[Second(u, x)].owner {
      OverrunNeedsTwoOwners(cfg, u, x, s, es, t);
    }
  }
}

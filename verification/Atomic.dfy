/**
 Whole operations are uninterrupted calls: every serialised run is a run of the call-level machine in which
 nothing crashes, fails or is reaped.
 */
module Atomic {
  import opened Prelude
  import opened Jobs
  import opened Store
  import opened Broker
  import opened Protocol
  import Serial
  import Pipeline

  /** The call-level system shows the plant. */
  ghost predicate Shows(cfg: Config, u: Serial.Setup, s: Sys, pl: Serial.Plant) {
    cfg.route == u.route && s.rows == pl.rows && s.parts == pl.parts && s.now == pl.now && s.devices == pl.devices.Keys
  }

  predicate PlainRun(cfg: Config, s: Sys, es: seq<Event>, t: Sys) {
    Plain(es) && Run(cfg, s, es, t)
  }

  ghost predicate Reaches(cfg: Config, s: Sys, t: Sys) {
    exists es :: PlainRun(cfg, s, es, t)
  }

  lemma Stay(cfg: Config, s: Sys)
    ensures Reaches(cfg, s, s)
  {
    assert PlainRun(cfg, s, [], s);
  }

  lemma One(cfg: Config, s: Sys, e: Event)
    requires Next(cfg, s, e).Some? && e.IsPlain()
    ensures Reaches(cfg, s, Next(cfg, s, e).value)
  {
    var t := Next(cfg, s, e).value;
    assert [e][1..] == [];
    assert Run(cfg, t, [], t);
    assert PlainRun(cfg, s, [e], t);
  }

  lemma {:induction false} RunsJoin(cfg: Config, s: Sys, es: seq<Event>, m: Sys, fs: seq<Event>, t: Sys)
    requires Run(cfg, s, es, m) && Run(cfg, m, fs, t)
    ensures Run(cfg, s, es + fs, t)
    decreases |es|
  {
    if es == [] {
      assert es + fs == fs;
    } else {
      assert (es + fs)[1..] == es[1..] + fs;
      RunsJoin(cfg, Next(cfg, s, es[0]).value, es[1..], m, fs, t);
    }
  }

  lemma Join(cfg: Config, s: Sys, m: Sys, t: Sys)
    requires Reaches(cfg, s, m) && Reaches(cfg, m, t)
    ensures Reaches(cfg, s, t)
  {
    var es :| PlainRun(cfg, s, es, m);
    var fs :| PlainRun(cfg, m, fs, t);
    RunsJoin(cfg, s, es, m, fs, t);
    assert PlainRun(cfg, s, es + fs, t);
  }

  // ----- submission -----

  const PLAIN: Choice := Choice(None, [], "", None, 1.0)

  lemma SubCalls(cfg: Config, s: Sys, i: nat, c: Choice, f: SubEffect)
    requires i < |s.subs| && SubCallEffect(cfg, s, s.subs[i], c) == Some(f)
    ensures Reaches(cfg, s, ApplySub(s, i, f))
  {
    One(cfg, s, SubCall(i, c));
  }

  /** The part of the state a submission leaves alone. */
  predicate SameProcesses(s: Sys, t: Sys) {
    t.workers == s.workers && t.routers == s.routers && t.reapers == s.reapers && t.claims == s.claims
  }

  lemma InsertCalls(cfg: Config, u: Serial.Setup, s: Sys, pl: Serial.Plant, q: Request, id: JobId) returns (t: Sys)
    requires Shows(cfg, u, s, pl) && TierFor(q.typ).Some? && CanInsert(pl.rows, pl.devices.Keys, q, id)
    ensures Reaches(cfg, s, t) && SameProcesses(s, t) && t.work == s.work && |t.subs| == |s.subs| + 1
    ensures t.subs[|s.subs|] == Sub(q, false, Inserted, id)
    ensures Shows(cfg, u, t, pl.(rows := pl.rows[id := NewRow(q, TierFor(q.typ).value)]))
  {
    RegistryIsTotalOnValid(q.typ);
    One(cfg, s, Arrive(q, false));
    var a := Next(cfg, s, Arrive(q, false)).value;
    var c := PLAIN.(id := id);
    t := ApplySub(a, |s.subs|, SubCallEffect(cfg, a, a.subs[|s.subs|], c).value);
    SubCalls(cfg, a, |s.subs|, c, SubCallEffect(cfg, a, a.subs[|s.subs|], c).value);
    Join(cfg, s, a, t);
  }

  /** The API's way in: claim a key nobody holds, then insert. */
  lemma ApiInsertCalls(cfg: Config, u: Serial.Setup, s: Sys, pl: Serial.Plant, q: Request, id: JobId) returns (t: Sys)
    requires Shows(cfg, u, s, pl) && TierFor(q.typ).Some? && CanInsert(pl.rows, pl.devices.Keys, q, id)
    requires ValidKey(q.key) && !ClaimLive(s, q.key)
    ensures Reaches(cfg, s, t) && t.workers == s.workers && t.routers == s.routers && t.reapers == s.reapers
    ensures t.work == s.work && t.subm == s.subm && t.subs == s.subs + [Sub(q, true, Inserted, id)]
    ensures t.claims == s.claims[q.key := Claim(id, s.now + CLAIM_TTL)]
    ensures Shows(cfg, u, t, pl.(rows := pl.rows[id := NewRow(q, TierFor(q.typ).value)]))
  {
    RegistryIsTotalOnValid(q.typ);
    One(cfg, s, Arrive(q, true));
    var a := Next(cfg, s, Arrive(q, true)).value;
    var i := |s.subs|;
    var c := PLAIN.(id := id);
    var b := ApplySub(a, i, SubCallEffect(cfg, a, a.subs[i], c).value);
    SubCalls(cfg, a, i, c, SubCallEffect(cfg, a, a.subs[i], c).value);
    Join(cfg, s, a, b);
    t := ApplySub(b, i, SubCallEffect(cfg, b, b.subs[i], c).value);
    SubCalls(cfg, b, i, c, SubCallEffect(cfg, b, b.subs[i], c).value);
    Join(cfg, s, b, t);
  }

  /** The reply a submission ends with once its row is there. */
  function ReplyTo(b: Sub): seq<Reply> {
    if b.api then [Reply(b.req.key, b.req.typ, b.id)] else []
  }

  /** A submission's publish as the history records it. */
  function PublishOf(u: Serial.Setup, id: JobId, r: Row): HandlerRun {
    HandlerRun(id, u.route(Main(r.tier), r.device), r.tier, r.device)
  }

  lemma AppendCall(cfg: Config, u: Serial.Setup, s: Sys, pl: Serial.Plant, i: nat, trace: seq<Header>) returns (t: Sys)
    requires Shows(cfg, u, s, pl) && i < |s.subs| && s.subs[i].stage == Inserted && s.subs[i].id in pl.rows
    requires Routed(u.route, pl.parts, Main(pl.rows[s.subs[i].id].tier), pl.rows[s.subs[i].id].device)
    ensures Reaches(cfg, s, t) && SameProcesses(s, t) && t.work == s.work
    ensures t.subs == s.subs[i := s.subs[i].(stage := Published)]
    ensures t.subm.replies == s.subm.replies
    ensures t.subm.subPubs == s.subm.subPubs + multiset{s.subs[i].id}
    ensures t.subm.published == s.subm.published + [PublishOf(u, s.subs[i].id, pl.rows[s.subs[i].id])]
    ensures var id := s.subs[i].id;
            var r := pl.rows[id];
            Shows(cfg, u, t, pl.(parts := Append(u.route, pl.parts, Main(r.tier), MessageFor(id, r, trace))))
  {
    var c := PLAIN.(headers := trace);
    t := ApplySub(s, i, SubCallEffect(cfg, s, s.subs[i], c).value);
    SubCalls(cfg, s, i, c, SubCallEffect(cfg, s, s.subs[i], c).value);
  }

  lemma QueueCall(cfg: Config, u: Serial.Setup, s: Sys, pl: Serial.Plant, i: nat) returns (t: Sys)
    requires Shows(cfg, u, s, pl) && i < |s.subs| && s.subs[i].stage == Published && s.subs[i].id in pl.rows
    ensures Reaches(cfg, s, t) && SameProcesses(s, t) && t.work == s.work && t.subm.subPubs == s.subm.subPubs
    ensures t.subm.published == s.subm.published
    ensures t.subm.replies == s.subm.replies + ReplyTo(s.subs[i])
    ensures t.subs == s.subs[i := s.subs[i].(stage := Closed)]
    ensures var id := s.subs[i].id;
            Shows(cfg, u, t, pl.(rows := pl.rows[id := WithState(pl.rows[id], Queued, None, pl.now)]))
  {
    t := ApplySub(s, i, SubCallEffect(cfg, s, s.subs[i], PLAIN).value);
    SubCalls(cfg, s, i, PLAIN, SubCallEffect(cfg, s, s.subs[i], PLAIN).value);
  }

  lemma PublishCalls(cfg: Config, u: Serial.Setup, s: Sys, pl: Serial.Plant, i: nat, trace: seq<Header>)
    returns (t: Sys)
    requires Shows(cfg, u, s, pl) && i < |s.subs| && s.subs[i].stage == Inserted && s.subs[i].id in pl.rows
    requires Routed(u.route, pl.parts, Main(pl.rows[s.subs[i].id].tier), pl.rows[s.subs[i].id].device)
    ensures Reaches(cfg, s, t) && SameProcesses(s, t) && t.work == s.work
    ensures t.subm.subPubs == s.subm.subPubs + multiset{s.subs[i].id}
    ensures t.subm.published == s.subm.published + [PublishOf(u, s.subs[i].id, pl.rows[s.subs[i].id])]
    ensures t.subm.replies == s.subm.replies + ReplyTo(s.subs[i])
    ensures t.subs == s.subs[i := s.subs[i].(stage := Closed)]
    ensures var id := s.subs[i].id;
            var r := pl.rows[id];
            Shows(cfg, u, t, pl.(rows := pl.rows[id := WithState(r, Queued, None, pl.now)],
                                 parts := Append(u.route, pl.parts, Main(r.tier), MessageFor(id, r, trace))))
  {
    var m := AppendCall(cfg, u, s, pl, i, trace);
    var id := s.subs[i].id;
    var sent := Append(u.route, pl.parts, Main(pl.rows[id].tier), MessageFor(id, pl.rows[id], trace));
    t := QueueCall(cfg, u, m, pl.(parts := sent), i);
    Join(cfg, s, m, t);
  }

  /** A refused submission is one that arrives and ends. */
  lemma RefusalCalls(cfg: Config, u: Serial.Setup, s: Sys, pl: Serial.Plant, q: Request, id: JobId) returns (t: Sys)
    requires Shows(cfg, u, s, pl) && (TierFor(q.typ).None? || !CanInsert(pl.rows, pl.devices.Keys, q, id))
    ensures Reaches(cfg, s, t) && SameProcesses(s, t) && t.work == s.work && Shows(cfg, u, t, pl)
  {
    One(cfg, s, Arrive(q, false));
    t := Next(cfg, s, Arrive(q, false)).value;
    if TierFor(q.typ).Some? {
      RegistryIsTotalOnValid(q.typ);
      var c := PLAIN.(id := id);
      var a := t;
      t := ApplySub(a, |s.subs|, SubCallEffect(cfg, a, a.subs[|s.subs|], c).value);
      SubCalls(cfg, a, |s.subs|, c, SubCallEffect(cfg, a, a.subs[|s.subs|], c).value);
      Join(cfg, s, a, t);
    }
  }

  lemma SubmitIsCalls(cfg: Config, u: Serial.Setup, s: Sys, pl: Serial.Plant, q: Request, id: JobId, trace: seq<Header>)
    returns (t: Sys)
    requires Shows(cfg, u, s, pl) && Wired(u.route, pl.parts)
    ensures Reaches(cfg, s, t) && SameProcesses(s, t) && t.work == s.work
    ensures Shows(cfg, u, t, Serial.Submit(u, pl, q, id, trace).0)
  {
    if TierFor(q.typ).Some? && CanInsert(pl.rows, pl.devices.Keys, q, id) {
      var r := NewRow(q, TierFor(q.typ).value);
      assert Routed(u.route, pl.parts, Main(r.tier), q.device);
      var m := InsertCalls(cfg, u, s, pl, q, id);
      var inserted := pl.(rows := pl.rows[id := r]);
      t := PublishCalls(cfg, u, m, inserted, |s.subs|, trace);
      Join(cfg, s, m, t);
      var st := WithState(r, Queued, None, pl.now);
      assert inserted.rows[id := st] == pl.rows[id := st];
    } else {
      t := RefusalCalls(cfg, u, s, pl, q, id);
    }
  }

  /** A request through the API that wins its claim and its insert. */
  lemma ApiSubmitIsCalls(cfg: Config, u: Serial.Setup, s: Sys, pl: Serial.Plant, q: Request, id: JobId,
    trace: seq<Header>)
    returns (t: Sys)
    requires Shows(cfg, u, s, pl) && Wired(u.route, pl.parts) && ValidKey(q.key) && !ClaimLive(s, q.key)
    requires TierFor(q.typ).Some? && CanInsert(pl.rows, pl.devices.Keys, q, id)
    ensures Reaches(cfg, s, t) && t.workers == s.workers && t.routers == s.routers && t.reapers == s.reapers
    ensures t.work == s.work && t.claims == s.claims[q.key := Claim(id, s.now + CLAIM_TTL)]
    ensures t.subm.subPubs == s.subm.subPubs + multiset{id} && t.subs == s.subs + [Sub(q, true, Closed, id)]
    ensures t.subm.published == s.subm.published + [PublishOf(u, id, NewRow(q, TierFor(q.typ).value))]
    ensures Shows(cfg, u, t, Serial.Submit(u, pl, q, id, trace).0)
  {
    var r := NewRow(q, TierFor(q.typ).value);
    assert Routed(u.route, pl.parts, Main(r.tier), q.device);
    var m := ApiInsertCalls(cfg, u, s, pl, q, id);
    var inserted := pl.(rows := pl.rows[id := r]);
    t := PublishCalls(cfg, u, m, inserted, |s.subs|, trace);
    Join(cfg, s, m, t);
    var st := WithState(r, Queued, None, pl.now);
    assert inserted.rows[id := st] == pl.rows[id := st];
  }

  // ----- one message in a worker's hands -----

  predicate Holds(cfg: Config, s: Sys, w: nat, k: Task) {
    w < |s.workers| && w < |cfg.workerTier| && cfg.workerTier[w] == k.msg.tier && s.workers[w] == Some(k)
  }

  /** The other processes, and this worker's next task. */
  predicate WorkerMovesOn(s: Sys, w: nat, task: Option<Task>, t: Sys) {
    w < |s.workers| && t.workers == s.workers[w := task] && t.routers == s.routers && t.reapers == s.reapers &&
    t.claims == s.claims
  }

  /** No submission has moved. */
  predicate SameSubmissions(s: Sys, t: Sys) {
    t.subs == s.subs && t.subm == s.subm
  }

  lemma WorkCalls(cfg: Config, s: Sys, w: nat, k: Task, c: Choice, f: WorkEffect)
    requires Holds(cfg, s, w, k) && WorkCallEffect(cfg, s, k.msg.tier, k, c) == Some(f)
    ensures Reaches(cfg, s, ApplyWork(s, w, f)) && WorkerMovesOn(s, w, f.task, ApplyWork(s, w, f))
  {
    One(cfg, s, WorkerCall(w, c));
  }

  /** The work log when the worker has entered the handler. */
  function Started(log: WorkLog, k: Task): WorkLog {
    log.(runs := log.runs + multiset{k.msg.id},
         handled := log.handled + [HandlerRun(k.msg.id, k.part, k.msg.tier, k.msg.device)])
  }

  /** The work log when the handler has returned. */
  function Ended(log: WorkLog, id: JobId, err: Option<string>): WorkLog {
    if err.None? then log else log.(failures := log.failures + multiset{id})
  }

  /** Load the row, mark it RUNNING, enter the handler. */
  lemma BeginCalls(cfg: Config, u: Serial.Setup, s: Sys, pl: Serial.Plant, w: nat, k: Task) returns (t: Sys, h: Task)
    requires Shows(cfg, u, s, pl) && Holds(cfg, s, w, k) && k.phase == Fetched && k.msg.id in pl.rows
    requires HasHandler(k.msg.typ)
    ensures Reaches(cfg, s, t) && WorkerMovesOn(s, w, Some(h), t) && Holds(cfg, t, w, h)
    ensures t.work == Started(s.work, k) && SameSubmissions(s, t)
    ensures h == k.(phase := InHandler, att := pl.rows[k.msg.id].attempts, max := pl.rows[k.msg.id].maxAttempts)
    ensures Shows(cfg, u, t, Serial.SetState(pl, k.msg.id, Running, None))
  {
    var r := pl.rows[k.msg.id];
    var l := k.(phase := Loaded, att := r.attempts, max := r.maxAttempts);
    var f := WorkCallEffect(cfg, s, k.msg.tier, k, PLAIN).value;
    WorkCalls(cfg, s, w, k, PLAIN, f);
    var m := ApplyWork(s, w, f);
    h := l.(phase := InHandler);
    f := WorkCallEffect(cfg, m, k.msg.tier, l, PLAIN).value;
    WorkCalls(cfg, m, w, l, PLAIN, f);
    t := ApplyWork(m, w, f);
    Join(cfg, s, m, t);
  }

  /** Fetch the next message and enter its handler. */
  lemma StartCalls(cfg: Config, u: Serial.Setup, s: Sys, pl: Serial.Plant, w: nat, p: nat) returns (t: Sys, h: Task)
    requires Shows(cfg, u, s, pl) && Serial.Readable(pl, p) && w < |s.workers| && w < |cfg.workerTier|
    requires s.workers[w].None?
    requires pl.parts[p].topic == Main(cfg.workerTier[w]) && pl.parts[p].owner == w
    requires var m := Serial.Head(pl, p); m.id in pl.rows && m.tier == cfg.workerTier[w] && HasHandler(m.typ)
    ensures Reaches(cfg, s, t) && WorkerMovesOn(s, w, Some(h), t) && Holds(cfg, t, w, h)
    ensures var m := Serial.Head(pl, p);
            h == Task(InHandler, p, pl.parts[p].pos, m, pl.rows[m.id].attempts, pl.rows[m.id].maxAttempts, "")
    ensures t.work == Started(s.work, h) && SameSubmissions(s, t)
    ensures Shows(cfg, u, t, Serial.SetState(Serial.Fetched(pl, p), h.msg.id, Running, None))
  {
    var q := pl.parts[p];
    One(cfg, s, Fetch(w, p));
    var a := Next(cfg, s, Fetch(w, p)).value;
    t, h := BeginCalls(cfg, u, a, Serial.Fetched(pl, p), w, Task(Fetched, p, q.pos, q.log[q.pos], 0, 0, ""));
    Join(cfg, s, a, t);
  }

  /** The outcome of the handler as the worker sees it. */
  function Returned(h: Task, err: Option<string>): Task {
    if err.None? then h.(phase := HandlerOk) else h.(phase := HandlerErr, err := err.value)
  }

  lemma ReturnCalls(cfg: Config, u: Serial.Setup, s: Sys, pl: Serial.Plant, w: nat, h: Task, err: Option<string>)
    returns (t: Sys)
    requires Shows(cfg, u, s, pl) && Holds(cfg, s, w, h) && h.phase == InHandler && h.msg.id in pl.rows
    ensures Reaches(cfg, s, t) && WorkerMovesOn(s, w, Some(Returned(h, err)), t) && Shows(cfg, u, t, pl)
    ensures t.work == Ended(s.work, h.msg.id, err) && SameSubmissions(s, t)
  {
    var c := PLAIN.(err := err);
    var f := WorkCallEffect(cfg, s, h.msg.tier, h, c).value;
    WorkCalls(cfg, s, w, h, c, f);
    t := ApplyWork(s, w, f);
  }

  /** The handler's own calls: a submission for an unhealthy device, and outcomes otherwise. */
  lemma HandlerCalls(cfg: Config, u: Serial.Setup, s: Sys, pl: Serial.Plant, w: nat, h: Task, env: Serial.Env)
    returns (t: Sys)
    requires Shows(cfg, u, s, pl) && Holds(cfg, s, w, h) && h.phase == InHandler && h.msg.id in pl.rows
    requires Wired(u.route, pl.parts)
    ensures var (after, err, _) := Serial.Handle(u, pl, h.msg, env);
            Reaches(cfg, s, t) && WorkerMovesOn(s, w, Some(Returned(h, err)), t) && Shows(cfg, u, t, after) &&
            t.work == Ended(s.work, h.msg.id, err)
    ensures env.healthy ==> SameSubmissions(s, t)
  {
    var m := h.msg;
    var (after, err, entry) := Serial.Handle(u, pl, m, env);
    if m.typ == HealthCheck && env.err.None? && !env.healthy {
      var touched := pl.(devices := Serial.Touch(pl.devices, m.device, pl.now));
      var q := Request(AlertGeneration, m.device, Serial.AlertKey(m.id), env.alertPayload);
      var x := SubmitIsCalls(cfg, u, s, touched, q, env.alertId, env.trace);
      t := ReturnCalls(cfg, u, x, after, w, h, err);
      Join(cfg, s, x, t);
    } else {
      t := ReturnCalls(cfg, u, s, pl, w, h, err);
    }
  }

  lemma SucceedCalls(cfg: Config, u: Serial.Setup, s: Sys, pl: Serial.Plant, w: nat, h: Task) returns (t: Sys)
    requires Shows(cfg, u, s, pl) && Holds(cfg, s, w, h) && h.phase == HandlerOk && h.msg.id in pl.rows
    ensures Reaches(cfg, s, t) && WorkerMovesOn(s, w, Some(h.(phase := Done)), t)
    ensures t.work == s.work.(successes := s.work.successes + multiset{h.msg.id}) && SameSubmissions(s, t)
    ensures Shows(cfg, u, t, Serial.SetState(pl, h.msg.id, Success, None))
  {
    var f := WorkCallEffect(cfg, s, h.msg.tier, h, PLAIN).value;
    WorkCalls(cfg, s, w, h, PLAIN, f);
    t := ApplyWork(s, w, f);
  }

  lemma BuryCalls(cfg: Config, u: Serial.Setup, s: Sys, pl: Serial.Plant, w: nat, h: Task, trace: seq<Header>)
    returns (t: Sys)
    requires Shows(cfg, u, s, pl) && Holds(cfg, s, w, h) && h.phase == HandlerErr && h.msg.id in pl.rows
    requires h.att + 1 >= h.max
    requires Routed(u.route, pl.parts, Dlq, h.msg.id)
    ensures Reaches(cfg, s, t) && WorkerMovesOn(s, w, Some(h.(phase := Done)), t)
    ensures t.work == s.work && SameSubmissions(s, t)
    ensures Shows(cfg, u, t, Serial.SendToDlq(u, pl, h.msg, trace, h.err))
  {
    var c := PLAIN.(headers := trace);
    var f := WorkCallEffect(cfg, s, h.msg.tier, h, c).value;
    WorkCalls(cfg, s, w, h, c, f);
    var m := ApplyWork(s, w, f);
    var sent := h.(phase := DlqSent);
    f := WorkCallEffect(cfg, m, h.msg.tier, sent, PLAIN).value;
    WorkCalls(cfg, m, w, sent, PLAIN, f);
    t := ApplyWork(m, w, f);
    Join(cfg, s, m, t);
  }

  lemma RetryCalls(cfg: Config, u: Serial.Setup, s: Sys, pl: Serial.Plant, w: nat, h: Task, env: Serial.Env)
    returns (t: Sys)
    requires Shows(cfg, u, s, pl) && Holds(cfg, s, w, h) && h.phase == HandlerErr && h.msg.id in pl.rows
    requires h.att + 1 < h.max
    requires Routed(u.route, pl.parts, RetryOf(h.msg.tier), h.msg.id)
    ensures Reaches(cfg, s, t) && WorkerMovesOn(s, w, Some(h.(phase := Done)), t)
    ensures t.work == s.work.(retryPubs := s.work.retryPubs + multiset{h.msg.id}) && SameSubmissions(s, t)
    ensures Shows(cfg, u, t, Serial.SendToRetry(u, pl, h.msg.tier, h.msg, h.att + 1, env, h.err))
  {
    var c := PLAIN.(headers := env.trace, jitter := env.jitter);
    var f := WorkCallEffect(cfg, s, h.msg.tier, h, c).value;
    WorkCalls(cfg, s, w, h, c, f);
    var m := ApplyWork(s, w, f);
    t := ChargeCalls(cfg, u, m, pl.(parts := m.parts), w, h.(phase := RetrySent));
    Join(cfg, s, m, t);
  }

  /** The two row updates after a retry publish. */
  lemma ChargeCalls(cfg: Config, u: Serial.Setup, s: Sys, pl: Serial.Plant, w: nat, h: Task) returns (t: Sys)
    requires Shows(cfg, u, s, pl) && Holds(cfg, s, w, h) && h.phase == RetrySent && h.msg.id in pl.rows
    ensures Reaches(cfg, s, t) && WorkerMovesOn(s, w, Some(h.(phase := Done)), t)
    ensures t.work == s.work && SameSubmissions(s, t)
    ensures Shows(cfg, u, t, Serial.BumpAttempts(Serial.SetState(pl, h.msg.id, Retry, Some(h.err)), h.msg.id))
  {
    var f := WorkCallEffect(cfg, s, h.msg.tier, h, PLAIN).value;
    WorkCalls(cfg, s, w, h, PLAIN, f);
    var m := ApplyWork(s, w, f);
    var marked := h.(phase := RetryMarked);
    f := WorkCallEffect(cfg, m, h.msg.tier, marked, PLAIN).value;
    WorkCalls(cfg, m, w, marked, PLAIN, f);
    t := ApplyWork(m, w, f);
    Join(cfg, s, m, t);
  }

  lemma CommitCalls(cfg: Config, u: Serial.Setup, s: Sys, pl: Serial.Plant, w: nat, h: Task) returns (t: Sys)
    requires Shows(cfg, u, s, pl) && Holds(cfg, s, w, h) && h.phase == Done && h.part < |pl.parts|
    ensures Reaches(cfg, s, t) && WorkerMovesOn(s, w, None, t) && Shows(cfg, u, t, Serial.Committed(pl, h.part, h.off))
    ensures t.work == s.work && SameSubmissions(s, t)
  {
    var f := WorkCallEffect(cfg, s, h.msg.tier, h, PLAIN).value;
    WorkCalls(cfg, s, w, h, PLAIN, f);
    t := ApplyWork(s, w, f);
  }

  // ----- partitions stay where they are -----

  predicate SameAssignments(a: seq<Part>, b: seq<Part>) {
    |a| == |b| && forall p :: 0 <= p < |a| ==> a[p].topic == b[p].topic && a[p].owner == b[p].owner
  }

  lemma StillWired(u: Serial.Setup, a: seq<Part>, b: seq<Part>)
    requires Wired(u.route, a) && SameAssignments(a, b)
    ensures Wired(u.route, b)
  {
    forall t, key ensures Routed(u.route, b, t, key) {
      assert Routed(u.route, a, t, key);
    }
  }

  lemma HandleStays(u: Serial.Setup, pl: Serial.Plant, m: Message, env: Serial.Env)
    ensures SameAssignments(pl.parts, Serial.Handle(u, pl, m, env).0.parts)
    ensures m.id in pl.rows ==> m.id in Serial.Handle(u, pl, m, env).0.rows
  {
  }

  lemma FailStays(u: Serial.Setup, pl: Serial.Plant, tier: Tier, m: Message, job: Row, env: Serial.Env, err: string)
    ensures SameAssignments(pl.parts, Serial.Fail(u, pl, tier, m, job, env, err).parts)
  {
    if job.attempts + 1 >= job.maxAttempts {
      BuryStays(u, pl, m, env.trace, err);
    } else {
      RetryStays(u, pl, tier, m, job.attempts + 1, env, err);
    }
  }

  lemma BuryStays(u: Serial.Setup, pl: Serial.Plant, m: Message, trace: seq<Header>, err: string)
    ensures SameAssignments(pl.parts, Serial.SendToDlq(u, pl, m, trace, err).parts)
  {
  }

  lemma RetryStays(u: Serial.Setup, pl: Serial.Plant, tier: Tier, m: Message, attempt: int, env: Serial.Env,
    err: string)
    ensures SameAssignments(pl.parts, Serial.SendToRetry(u, pl, tier, m, attempt, env, err).parts)
  {
  }

  lemma ProcessStays(u: Serial.Setup, pl: Serial.Plant, tier: Tier, m: Message, env: Serial.Env)
    requires m.id in pl.rows && HasHandler(m.typ)
    ensures SameAssignments(pl.parts, Serial.ProcessOne(u, pl, tier, m, env).0.parts)
  {
    var running := Serial.SetState(pl, m.id, Running, None);
    HandleStays(u, running, m, env);
    var (h, err, entry) := Serial.Handle(u, running, m, env);
    var ran := h.(runs := h.runs + [Serial.Ran(m.id, err.None?, entry)]);
    if err.Some? {
      FailStays(u, ran, tier, m, pl.rows[m.id], env, err.value);
    }
  }

  /** The plant after a turn on partition `p` whose handler succeeds and changes nothing itself. */
  function Succeeded(pl: Serial.Plant, p: nat): Serial.Plant
    requires Serial.Readable(pl, p)
  {
    var id := Serial.Head(pl, p).id;
    var running := Serial.SetState(Serial.Fetched(pl, p), id, Running, None);
    Serial.Committed(Serial.SetState(running, id, Success, None), p, pl.parts[p].pos)
  }

  /** A turn whose handler succeeds, whatever its type: at this level its outcome is the environment's. */
  lemma SucceedTurn(cfg: Config, u: Serial.Setup, s: Sys, pl: Serial.Plant, w: nat, p: nat)
    returns (t: Sys, after: Serial.Plant)
    requires Shows(cfg, u, s, pl) && Serial.Readable(pl, p) && w < |s.workers| && w < |cfg.workerTier|
    requires s.workers[w].None?
    requires pl.parts[p].topic == Main(cfg.workerTier[w]) && pl.parts[p].owner == w
    requires var m := Serial.Head(pl, p); m.id in pl.rows && m.tier == cfg.workerTier[w] && HasHandler(m.typ)
    ensures Reaches(cfg, s, t) && SameProcesses(s, t) && SameSubmissions(s, t) && Shows(cfg, u, t, after)
    ensures t.work.successes == s.work.successes + multiset{Serial.Head(pl, p).id}
    ensures t.work.runs == s.work.runs + multiset{Serial.Head(pl, p).id} && t.work.failures == s.work.failures
    ensures var id := Serial.Head(pl, p).id;
            after.rows.Keys == pl.rows.Keys && after.rows[id].state == Success && SameJob(pl.rows[id], after.rows[id])
    ensures after == Succeeded(pl, p) && SameAssignments(pl.parts, after.parts)
  {
    var a, h := StartCalls(cfg, u, s, pl, w, p);
    var running := Serial.SetState(Serial.Fetched(pl, p), h.msg.id, Running, None);
    var b := ReturnCalls(cfg, u, a, running, w, h, None);
    Join(cfg, s, a, b);
    var ok := Returned(h, None);
    var c := SucceedCalls(cfg, u, b, running, w, ok);
    Join(cfg, s, b, c);
    var done := Serial.SetState(running, h.msg.id, Success, None);
    t := CommitCalls(cfg, u, c, done, w, ok.(phase := Done));
    Join(cfg, s, c, t);
    after := Succeeded(pl, p);
  }

  // ----- whole operations -----

  lemma FailCalls(cfg: Config, u: Serial.Setup, s: Sys, pl: Serial.Plant, w: nat, h: Task, job: Row, env: Serial.Env)
    returns (t: Sys)
    requires Shows(cfg, u, s, pl) && Holds(cfg, s, w, h) && h.phase == HandlerErr && h.msg.id in pl.rows
    requires Wired(u.route, pl.parts)
    requires h.att == job.attempts && h.max == job.maxAttempts
    ensures Reaches(cfg, s, t) && WorkerMovesOn(s, w, Some(h.(phase := Done)), t)
    ensures t.work == s.work.(retryPubs := t.work.retryPubs) && SameSubmissions(s, t)
    ensures Shows(cfg, u, t, Serial.Fail(u, pl, h.msg.tier, h.msg, job, env, h.err))
  {
    assert Routed(u.route, pl.parts, Dlq, h.msg.id) && Routed(u.route, pl.parts, RetryOf(h.msg.tier), h.msg.id);
    if h.att + 1 >= h.max {
      t := BuryCalls(cfg, u, s, pl, w, h, env.trace);
    } else {
      t := RetryCalls(cfg, u, s, pl, w, h, env);
    }
  }

  /** The handler's outcome written down: SUCCESS, or the retry and dead-letter decision. */
  lemma SettleCalls(cfg: Config, u: Serial.Setup, s: Sys, pl: Serial.Plant, w: nat, h: Task, job: Row,
    env: Serial.Env, err: Option<string>)
    returns (t: Sys, d: Task)
    requires Shows(cfg, u, s, pl) && Holds(cfg, s, w, Returned(h, err)) && h.msg.id in pl.rows
    requires Wired(u.route, pl.parts)
    requires h.att == job.attempts && h.max == job.maxAttempts
    ensures Reaches(cfg, s, t) && WorkerMovesOn(s, w, Some(d), t) && d.phase == Done && d.msg == h.msg
    ensures d.part == h.part && d.off == h.off
    ensures t.work.runs == s.work.runs && t.work.failures == s.work.failures && SameSubmissions(s, t)
    ensures err.Some? ==> t.work.successes == s.work.successes
    ensures Shows(cfg, u, t, if err.None? then Serial.SetState(pl, h.msg.id, Success, None)
                             else Serial.Fail(u, pl, h.msg.tier, h.msg, job, env, err.value))
  {
    var r := Returned(h, err);
    d := r.(phase := Done);
    if err.None? {
      t := SucceedCalls(cfg, u, s, pl, w, r);
    } else {
      t := FailCalls(cfg, u, s, pl, w, r, job, env);
    }
  }

  lemma ProcessCalls(cfg: Config, u: Serial.Setup, s: Sys, pl: Serial.Plant, w: nat, k: Task, env: Serial.Env)
    returns (t: Sys, d: Task)
    requires Shows(cfg, u, s, pl) && Holds(cfg, s, w, k) && k.phase == Fetched && k.msg.id in pl.rows
    requires HasHandler(k.msg.typ)
    requires Wired(u.route, pl.parts)
    ensures Reaches(cfg, s, t) && WorkerMovesOn(s, w, Some(d), t) && d.phase == Done && d.msg == k.msg
    ensures d.part == k.part && d.off == k.off
    ensures t.work.runs == s.work.runs + multiset{k.msg.id}
    ensures env.healthy ==> SameSubmissions(s, t)
    ensures env.err.Some? ==> t.work.successes == s.work.successes
    ensures env.err.Some? ==> t.work.failures == s.work.failures + multiset{k.msg.id}
    ensures Shows(cfg, u, t, Serial.ProcessOne(u, pl, k.msg.tier, k.msg, env).0)
  {
    var x, h := BeginCalls(cfg, u, s, pl, w, k);
    var running := Serial.SetState(pl, k.msg.id, Running, None);
    var y := HandlerCalls(cfg, u, x, running, w, h, env);
    Join(cfg, s, x, y);
    var (after, err, entry) := Serial.Handle(u, running, k.msg, env);
    var ran := after.(runs := after.runs + [Serial.Ran(k.msg.id, err.None?, entry)]);
    HandleStays(u, running, k.msg, env);
    StillWired(u, pl.parts, after.parts);
    t, d := SettleCalls(cfg, u, y, ran, w, h, pl.rows[k.msg.id], env, err);
    Join(cfg, s, y, t);
  }

  /** From the fetched message to its commit. */
  lemma FinishCalls(cfg: Config, u: Serial.Setup, s: Sys, pl: Serial.Plant, w: nat, k: Task, env: Serial.Env)
    returns (t: Sys)
    requires Shows(cfg, u, s, pl) && Holds(cfg, s, w, k) && k.phase == Fetched && k.msg.id in pl.rows
    requires HasHandler(k.msg.typ)
    requires Wired(u.route, pl.parts) && k.part < |pl.parts|
    ensures Reaches(cfg, s, t) && WorkerMovesOn(s, w, None, t)
    ensures t.work.runs == s.work.runs + multiset{k.msg.id}
    ensures env.healthy ==> SameSubmissions(s, t)
    ensures env.err.Some? ==> t.work.successes == s.work.successes
    ensures env.err.Some? ==> t.work.failures == s.work.failures + multiset{k.msg.id}
    ensures Shows(cfg, u, t, Serial.Committed(Serial.ProcessOne(u, pl, k.msg.tier, k.msg, env).0, k.part, k.off))
  {
    var x, d := ProcessCalls(cfg, u, s, pl, w, k, env);
    ProcessStays(u, pl, k.msg.tier, k.msg, env);
    t := CommitCalls(cfg, u, x, Serial.ProcessOne(u, pl, k.msg.tier, k.msg, env).0, w, d);
    Join(cfg, s, x, t);
  }

  /** Fetch, process, commit: one turn of a worker. */
  lemma WorkIsCalls(cfg: Config, u: Serial.Setup, s: Sys, pl: Serial.Plant, w: nat, p: nat, env: Serial.Env)
    returns (t: Sys)
    requires Shows(cfg, u, s, pl) && Wired(u.route, pl.parts) && Serial.Readable(pl, p)
    requires w < |s.workers| && w < |cfg.workerTier| && s.workers[w].None?
    requires pl.parts[p].topic == Main(cfg.workerTier[w]) && pl.parts[p].owner == w
    requires var m := Serial.Head(pl, p); m.id in pl.rows && m.tier == cfg.workerTier[w] && HasHandler(m.typ)
    ensures Reaches(cfg, s, t) && SameProcesses(s, t) && Shows(cfg, u, t, Serial.Work(u, pl, p, env))
    ensures t.work.runs == s.work.runs + multiset{Serial.Head(pl, p).id}
    ensures env.healthy ==> SameSubmissions(s, t)
    ensures env.err.Some? ==> t.work.successes == s.work.successes
    ensures env.err.Some? ==> t.work.failures == s.work.failures + multiset{Serial.Head(pl, p).id}
  {
    var q := pl.parts[p];
    var k := Task(Fetched, p, q.pos, q.log[q.pos], 0, 0, "");
    One(cfg, s, Fetch(w, p));
    var a := Next(cfg, s, Fetch(w, p)).value;
    var f := Serial.Fetched(pl, p);
    StillWired(u, pl.parts, f.parts);
    t := FinishCalls(cfg, u, a, f, w, k, env);
    Join(cfg, s, a, t);
  }

  lemma WorkStays(u: Serial.Setup, pl: Serial.Plant, p: nat, env: Serial.Env)
    requires Serial.Readable(pl, p) && pl.parts[p].topic.Main? && Serial.Head(pl, p).id in pl.rows
    requires HasHandler(Serial.Head(pl, p).typ)
    ensures SameAssignments(pl.parts, Serial.Work(u, pl, p, env).parts)
  {
    ProcessStays(u, Serial.Fetched(pl, p), pl.parts[p].topic.tier, Serial.Head(pl, p), env);
  }

  // ----- the router -----

  lemma RouterCalls(cfg: Config, s: Sys, r: nat, h: Haul, trace: seq<Header>, f: RouteEffect)
    requires r < |s.routers| && r < |cfg.routerTier| && s.routers[r] == Some(h)
    requires RouteCallEffect(cfg, s, cfg.routerTier[r], h, PLAIN.(headers := trace)) == Some(f)
    ensures Reaches(cfg, s, ApplyRoute(s, r, f))
  {
    One(cfg, s, RouterCall(r, PLAIN.(headers := trace)));
  }

  /** Republish and commit, once the retry instant has come. */
  lemma RepublishCalls(cfg: Config, u: Serial.Setup, s: Sys, pl: Serial.Plant, r: nat, h: Haul, trace: seq<Header>)
    returns (t: Sys)
    requires Shows(cfg, u, s, pl) && r < |s.routers| && r < |cfg.routerTier| && s.routers[r] == Some(h) && !h.sent
    requires h.until <= pl.now
    requires h.part < |pl.parts| && Routed(u.route, pl.parts, Main(cfg.routerTier[r]), h.msg.key)
    ensures Reaches(cfg, s, t) && t.workers == s.workers && t.reapers == s.reapers && t.routers == s.routers[r := None]
    ensures t.work == s.work && t.claims == s.claims && SameSubmissions(s, t)
    ensures var c := h.msg.(headers := trace);
            var sent := Append(u.route, pl.parts, Main(cfg.routerTier[r]), c);
            Shows(cfg, u, t, Serial.Committed(pl.(parts := sent), h.part, h.off))
  {
    var f := RouteCallEffect(cfg, s, cfg.routerTier[r], h, PLAIN.(headers := trace)).value;
    RouterCalls(cfg, s, r, h, trace, f);
    var m := ApplyRoute(s, r, f);
    var sent := h.(sent := true);
    f := RouteCallEffect(cfg, m, cfg.routerTier[r], sent, PLAIN.(headers := trace)).value;
    RouterCalls(cfg, m, r, sent, trace, f);
    t := ApplyRoute(m, r, f);
    Join(cfg, s, m, t);
  }

  /** Fetch, wait, republish, commit: one turn of a router. */
  lemma ForwardIsCalls(cfg: Config, u: Serial.Setup, s: Sys, pl: Serial.Plant, r: nat, p: nat, trace: seq<Header>)
    returns (t: Sys)
    requires Shows(cfg, u, s, pl) && Wired(u.route, pl.parts) && Serial.Readable(pl, p)
    requires r < |s.routers| && r < |cfg.routerTier| && s.routers[r].None?
    requires pl.parts[p].topic == RetryOf(cfg.routerTier[r]) && pl.parts[p].owner == r
    ensures Reaches(cfg, s, t) && SameProcesses(s, t) && t.work == s.work && SameSubmissions(s, t)
    ensures Shows(cfg, u, t, Serial.Forward(u, pl, p, trace))
  {
    var q := pl.parts[p];
    var m := q.log[q.pos];
    var h := Haul(p, q.pos, m, RetryAt(m.headers, s.now), false);
    One(cfg, s, Pick(r, p));
    var a := Next(cfg, s, Pick(r, p)).value;
    var d: nat := if s.now < h.until then h.until - s.now else 0;
    One(cfg, a, Tick(d));
    var b := Next(cfg, a, Tick(d)).value;
    Join(cfg, s, a, b);
    var ready := Serial.Awaited(Serial.Fetched(pl, p), m);
    StillWired(u, pl.parts, ready.parts);
    assert Routed(u.route, ready.parts, Main(cfg.routerTier[r]), m.key);
    t := RepublishCalls(cfg, u, b, ready, r, h, trace);
    Join(cfg, s, b, t);
  }

  lemma ForwardStays(u: Serial.Setup, pl: Serial.Plant, p: nat, trace: seq<Header>)
    requires Serial.Readable(pl, p) && pl.parts[p].topic.RetryOf?
    ensures SameAssignments(pl.parts, Serial.Forward(u, pl, p, trace).parts)
  {
  }

  // ----- the simulation -----

  /** Every consumed partition has a worker or a router of its tier. */
  predicate Assigned(cfg: Config, q: Part) {
    match q.topic
    case Main(tier) => q.owner < |cfg.workerTier| && cfg.workerTier[q.owner] == tier
    case RetryOf(tier) => q.owner < |cfg.routerTier| && cfg.routerTier[q.owner] == tier
    case Dlq => true
  }

  /** All processes are idle and every partition is assigned. */
  predicate Staffed(cfg: Config, s: Sys) {
    |s.workers| == |cfg.workerTier| && |s.routers| == |cfg.routerTier| &&
    (forall w :: 0 <= w < |s.workers| ==> s.workers[w].None?) &&
    (forall r :: 0 <= r < |s.routers| ==> s.routers[r].None?) &&
    forall p :: 0 <= p < |s.parts| ==> Assigned(cfg, s.parts[p])
  }

  lemma StillStaffed(cfg: Config, s: Sys, t: Sys)
    requires Staffed(cfg, s) && t.workers == s.workers && t.routers == s.routers && SameAssignments(s.parts, t.parts)
    ensures Staffed(cfg, t)
  {
    forall p | 0 <= p < |t.parts| ensures Assigned(cfg, t.parts[p]) {
      assert Assigned(cfg, s.parts[p]);
    }
  }

  lemma OpIsCalls(cfg: Config, u: Serial.Setup, s: Sys, pl: Serial.Plant, op: Serial.Op) returns (t: Sys)
    requires Shows(cfg, u, s, pl) && Staffed(cfg, s) && Pipeline.Inv(u, pl) && Serial.Enabled(pl, op)
    ensures Reaches(cfg, s, t) && Shows(cfg, u, t, Serial.Apply(u, pl, op)) && Staffed(cfg, t)
    ensures t.work.runs == s.work.runs + (if op.Working? then multiset{Serial.Head(pl, op.p).id} else multiset{})
  {
    match op
    case Submitting(q, id, trace) =>
      t := SubmitIsCalls(cfg, u, s, pl, q, id, trace);
      StillStaffed(cfg, s, t);
    case Working(p, env) =>
      assert Assigned(cfg, pl.parts[p]);
      Pipeline.FetchKeeps(u, pl, p);
      RegistryIsTotalOnValid(Serial.Head(pl, p).typ);
      t := WorkIsCalls(cfg, u, s, pl, pl.parts[p].owner, p, env);
      WorkStays(u, pl, p, env);
      StillStaffed(cfg, s, t);
    case Forwarding(p, trace) =>
      assert Assigned(cfg, pl.parts[p]);
      t := ForwardIsCalls(cfg, u, s, pl, pl.parts[p].owner, p, trace);
      ForwardStays(u, pl, p, trace);
      StillStaffed(cfg, s, t);
    case Waiting(d) =>
      One(cfg, s, Tick(d));
      t := Next(cfg, s, Tick(d)).value;
  }

  /** Handler runs of the one are handler runs of the other. */
  ghost predicate SameRuns(s: Sys, pl: Serial.Plant) {
    forall j :: s.work.runs[j] == |Pipeline.Results(pl.runs, j)|
  }

  lemma FailRuns(u: Serial.Setup, pl: Serial.Plant, tier: Tier, m: Message, job: Row, env: Serial.Env, err: string)
    ensures Serial.Fail(u, pl, tier, m, job, env, err).runs == pl.runs
  {
  }

  lemma HandleRuns(u: Serial.Setup, pl: Serial.Plant, m: Message, env: Serial.Env)
    ensures Serial.Handle(u, pl, m, env).0.runs == pl.runs
  {
  }

  lemma ProcessRuns(u: Serial.Setup, pl: Serial.Plant, m: Message, env: Serial.Env)
    requires m.id in pl.rows && HasHandler(m.typ)
    ensures var runs := Serial.ProcessOne(u, pl, m.tier, m, env).0.runs;
            |runs| == |pl.runs| + 1 && runs[..|pl.runs|] == pl.runs && runs[|pl.runs|].id == m.id
  {
    var running := Serial.SetState(pl, m.id, Running, None);
    var (h, err, entry) := Serial.Handle(u, running, m, env);
    HandleRuns(u, running, m, env);
    if err.Some? {
      FailRuns(u, h.(runs := h.runs + [Serial.Ran(m.id, false, entry)]), m.tier, m, pl.rows[m.id], env, err.value);
    }
  }

  lemma WorkRuns(u: Serial.Setup, pl: Serial.Plant, p: nat, env: Serial.Env, j: JobId)
    requires Serial.Readable(pl, p) && pl.parts[p].topic == Main(Serial.Head(pl, p).tier)
    requires Serial.Head(pl, p).id in pl.rows && HasHandler(Serial.Head(pl, p).typ)
    ensures |Pipeline.Results(Serial.Work(u, pl, p, env).runs, j)| ==
            |Pipeline.Results(pl.runs, j)| + (if Serial.Head(pl, p).id == j then 1 else 0)
  {
    ProcessRuns(u, Serial.Fetched(pl, p), Serial.Head(pl, p), env);
  }

  lemma OpRuns(u: Serial.Setup, pl: Serial.Plant, op: Serial.Op, j: JobId)
    requires Pipeline.Inv(u, pl) && Serial.Enabled(pl, op)
    ensures |Pipeline.Results(Serial.Apply(u, pl, op).runs, j)| ==
            |Pipeline.Results(pl.runs, j)| + (if op.Working? && Serial.Head(pl, op.p).id == j then 1 else 0)
  {
    if op.Working? {
      Pipeline.FetchKeeps(u, pl, op.p);
      RegistryIsTotalOnValid(Serial.Head(pl, op.p).typ);
      WorkRuns(u, pl, op.p, op.env, j);
    }
  }

  lemma {:induction false} RunIsCalls(cfg: Config, u: Serial.Setup, s: Sys, pl: Serial.Plant, ops: seq<Serial.Op>,
    end: Serial.Plant)
    returns (t: Sys)
    requires Shows(cfg, u, s, pl) && Staffed(cfg, s) && Pipeline.Inv(u, pl) && SameRuns(s, pl)
    requires Serial.Runs(u, pl, ops, end)
    ensures Reaches(cfg, s, t) && Shows(cfg, u, t, end) && Staffed(cfg, t) && SameRuns(t, end)
    decreases |ops|
  {
    if ops == [] {
      Stay(cfg, s);
      t := s;
    } else {
      var m := OpIsCalls(cfg, u, s, pl, ops[0]);
      Pipeline.ApplyKeeps(u, pl, ops[0]);
      forall j ensures m.work.runs[j] == |Pipeline.Results(Serial.Apply(u, pl, ops[0]).runs, j)| {
        OpRuns(u, pl, ops[0], j);
      }
      t := RunIsCalls(cfg, u, m, Serial.Apply(u, pl, ops[0]), ops[1..], end);
      Join(cfg, s, m, t);
    }
  }

  /**
   Every serialised run from a fresh deployment is a call-level run without crashes, failed calls or reapers
   that ends in the same rows, logs and time, with the same number of handler runs for each job; so what is proved of
   all call-level runs holds of it too.
   */
  lemma SerialRunsAreCallRuns(cfg: Config, u: Serial.Setup, s: Sys, pl: Serial.Plant, ops: seq<Serial.Op>,
    end: Serial.Plant)
    returns (es: seq<Event>, t: Sys)
    requires Serial.Fresh(pl) && Wired(u.route, pl.parts) && Serial.Runs(u, pl, ops, end)
    requires Init(s) && Shows(cfg, u, s, pl) && Staffed(cfg, s)
    ensures Plain(es) && Run(cfg, s, es, t)
    ensures t.rows == end.rows && t.parts == end.parts && t.now == end.now
    ensures forall j :: t.work.runs[j] == |Pipeline.Results(end.runs, j)|
  {
    Pipeline.FreshInv(u, pl);
    t := RunIsCalls(cfg, u, s, pl, ops, end);
    es :| PlainRun(cfg, s, es, t);
  }
}

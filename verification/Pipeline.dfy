/**
 The pipeline refines a simple loop, whatever the schedule: in serialised runs where no publish fails, each
 job ends as "run the handler until it succeeds, at most maxAttempts times" would end it, however the
 operations of all jobs are interleaved.
 */
module Pipeline {
  import opened Prelude
  import opened Jobs
  import opened Store
  import opened Broker
  import opened Serial
  import opened Routing

  // ----- the simple loop -----

  datatype Verdict = Verdict(state: State, attempts: nat, runs: nat, deadLetters: nat)

  /** Run until success or until the budget is spent; `o(n)` is the outcome of run `n`. */
  function SimpleLoop(o: nat -> bool, n: nat, max: nat): Verdict
    requires n < max
    decreases max - n
  {
    if o(n) then Verdict(Success, n, n + 1, 0)
    else if n + 1 == max then Verdict(Failed, n, n + 1, 1)
    else SimpleLoop(o, n + 1, max)
  }

  // ----- what a plant says of one job -----

  /** The outcomes of the job's handler runs, in order. */
  function Results(runs: seq<Ran>, j: JobId): seq<bool> {
    if runs == [] then [] else
    var before := Results(runs[..|runs| - 1], j);
    var last := runs[|runs| - 1];
    if last.id == j then before + [last.ok] else before
  }

  predicate AllFailed(rs: seq<bool>) {
    forall i :: 0 <= i < |rs| ==> !rs[i]
  }

  function OnItsWay(parts: seq<Part>, j: JobId): nat {
    Count(parts, OnMain(For(j))) + Count(parts, OnRetry(For(j)))
  }

  function Buried(parts: seq<Part>, j: JobId): nat {
    Count(parts, OnDlq(For(j)))
  }

  predicate Travelling(r: Row, rs: seq<bool>, way: nat, dead: nat) {
    way == 1 && dead == 0 && AllFailed(rs) && r.attempts == |rs| < r.maxAttempts && r.state in {Queued, Retry}
  }

  predicate Dead(r: Row, rs: seq<bool>, way: nat, dead: nat) {
    way == 0 && dead == 1 && AllFailed(rs) && r.attempts + 1 == |rs| == r.maxAttempts && r.state == Failed
  }

  predicate Finished(r: Row, rs: seq<bool>, way: nat, dead: nat) {
    way == 0 && dead == 0 && |rs| == r.attempts + 1 <= r.maxAttempts && AllFailed(rs[..r.attempts]) && rs[r.attempts] &&
    r.state == Success
  }

  /** A job is on its way with only failures behind it, or dead with its budget spent, or done. */
  predicate JobOk(pl: Plant, j: JobId) {
    var rs := Results(pl.runs, j);
    var way := OnItsWay(pl.parts, j);
    var dead := Buried(pl.parts, j);
    if j !in pl.rows then rs == [] && way == 0 && dead == 0
    else var r := pl.rows[j]; Travelling(r, rs, way, dead) || Dead(r, rs, way, dead) || Finished(r, rs, way, dead)
  }

  ghost predicate Sound(u: Setup, pl: Plant) {
    RowsTyped(pl.rows) && LogsOk(pl.rows, pl.parts) && Positioned(pl.parts) && Wired(u.route, pl.parts)
  }

  ghost predicate Inv(u: Setup, pl: Plant) {
    Sound(u, pl) && forall j :: JobOk(pl, j)
  }

  /** As `Inv`, but for the job in hand. */
  ghost predicate InvBut(u: Setup, pl: Plant, x: JobId) {
    Sound(u, pl) && x in pl.rows && forall j :: j != x ==> JobOk(pl, j)
  }

  /** Everything a step may not change about the job in hand. */
  predicate SameFor(a: Plant, b: Plant, x: JobId) {
    x in a.rows && x in b.rows && SameJob(a.rows[x], b.rows[x]) && a.rows[x].attempts == b.rows[x].attempts &&
    OnItsWay(b.parts, x) == OnItsWay(a.parts, x) && Buried(b.parts, x) == Buried(a.parts, x) && b.runs == a.runs
  }

  // ----- appends -----

  lemma AppendStays(u: Setup, pl: Plant, t: Topic, m: Message)
    requires Sound(u, pl) && Faithful(pl.rows, m) && Belongs(t, m)
    ensures Sound(u, pl.(parts := Append(u.route, pl.parts, t, m)))
    ensures forall j :: var b := Append(u.route, pl.parts, t, m);
      OnItsWay(b, j) == OnItsWay(pl.parts, j) + (if t.Dlq? || m.id != j then 0 else 1) &&
      Buried(b, j) == Buried(pl.parts, j) + (if t.Dlq? && m.id == j then 1 else 0)
  {
    var b := Append(u.route, pl.parts, t, m);
    assert Routed(u.route, pl.parts, t, m.key);
    AppendOk(pl.rows, u.route, pl.parts, t, m);
    forall j ensures OnItsWay(b, j) == OnItsWay(pl.parts, j) + (if t.Dlq? || m.id != j then 0 else 1) &&
                     Buried(b, j) == Buried(pl.parts, j) + (if t.Dlq? && m.id == j then 1 else 0)
    {
      AppendKinds(u.route, pl.parts, t, m, For(j));
    }
    forall k, key ensures Routed(u.route, b, k, key) {
      assert Routed(u.route, pl.parts, k, key);
    }
  }

  lemma GrowStays(u: Setup, pl: Plant, rows: Table)
    requires Sound(u, pl) && Grows(pl.rows, rows) && RowsTyped(rows)
    ensures Sound(u, pl.(rows := rows))
  {
    GrowsKeepsLogs(pl.rows, rows, pl.parts);
  }

  // ----- submission -----

  lemma SubmitJobs(u: Setup, pl: Plant, q: Request, id: JobId, trace: seq<Header>, j: JobId)
    requires Sound(u, pl) && JobOk(pl, j)
    ensures JobOk(Submit(u, pl, q, id, trace).0, j)
  {
    var b := Submit(u, pl, q, id, trace).0;
    if TierFor(q.typ).Some? && CanInsert(pl.rows, pl.devices.Keys, q, id) {
      var r := NewRow(q, TierFor(q.typ).value);
      assert Routed(u.route, pl.parts, Main(r.tier), q.device);
      AppendKinds(u.route, pl.parts, Main(r.tier), MessageFor(id, r, trace), For(j));
    }
  }

  lemma SubmitSound(u: Setup, pl: Plant, q: Request, id: JobId, trace: seq<Header>)
    requires Sound(u, pl)
    ensures Sound(u, Submit(u, pl, q, id, trace).0)
  {
    if TierFor(q.typ).Some? && CanInsert(pl.rows, pl.devices.Keys, q, id) {
      var r := NewRow(q, TierFor(q.typ).value);
      var rows := pl.rows[id := WithState(r, Queued, None, pl.now)];
      assert Routed(u.route, pl.parts, Main(r.tier), q.device);
      GrowStays(u, pl, rows);
      AppendStays(u, pl.(rows := rows), Main(r.tier), MessageFor(id, r, trace));
    }
  }

  lemma SubmitSame(u: Setup, pl: Plant, q: Request, id: JobId, trace: seq<Header>, x: JobId)
    requires Sound(u, pl) && x in pl.rows
    ensures SameFor(pl, Submit(u, pl, q, id, trace).0, x)
  {
    if TierFor(q.typ).Some? && CanInsert(pl.rows, pl.devices.Keys, q, id) {
      var r := NewRow(q, TierFor(q.typ).value);
      assert Routed(u.route, pl.parts, Main(r.tier), q.device);
      AppendKinds(u.route, pl.parts, Main(r.tier), MessageFor(id, r, trace), For(x));
    }
  }

  // ----- processing -----

  lemma HandleKeeps(u: Setup, pl: Plant, m: Message, env: Env, x: JobId)
    requires InvBut(u, pl, x)
    ensures InvBut(u, Handle(u, pl, m, env).0, x) && SameFor(pl, Handle(u, pl, m, env).0, x)
  {
    if m.typ == HealthCheck && env.err.None? && !env.healthy {
      var touched := pl.(devices := Touch(pl.devices, m.device, pl.now));
      var q := Request(AlertGeneration, m.device, AlertKey(m.id), env.alertPayload);
      SubmitSound(u, touched, q, env.alertId, env.trace);
      SubmitSame(u, touched, q, env.alertId, env.trace, x);
      forall j | j != x ensures JobOk(Handle(u, pl, m, env).0, j) {
        assert JobOk(touched, j) by { assert JobOk(pl, j); }
        SubmitJobs(u, touched, q, env.alertId, env.trace, j);
      }
    } else {
      var h := Handle(u, pl, m, env).0;
      forall j | j != x ensures JobOk(h, j) {
        assert JobOk(pl, j);
      }
    }
  }

  lemma FetchSound(u: Setup, pl: Plant, p: nat)
    requires Sound(u, pl) && Readable(pl, p)
    ensures Sound(u, Fetched(pl, p)) && Faithful(pl.rows, Head(pl, p)) && Belongs(pl.parts[p].topic, Head(pl, p))
  {
    var f := Fetched(pl, p);
    assert PartOk(pl.rows, pl.parts[p]);
    forall k, key ensures Routed(u.route, f.parts, k, key) {
      assert Routed(u.route, pl.parts, k, key);
    }
    forall k | 0 <= k < |f.parts| ensures PartOk(f.rows, f.parts[k]) {
      assert PartOk(pl.rows, pl.parts[k]);
    }
  }

  /** Fetching takes the message off its way, and no other. */
  lemma FetchTakes(pl: Plant, p: nat, j: JobId)
    requires Positioned(pl.parts) && Readable(pl, p) && !pl.parts[p].topic.Dlq?
    ensures OnItsWay(Fetched(pl, p).parts, j) + (if Head(pl, p).id == j then 1 else 0) == OnItsWay(pl.parts, j)
    ensures Buried(Fetched(pl, p).parts, j) == Buried(pl.parts, j)
  {
    FetchKinds(pl.parts, p, For(j));
  }

  lemma FetchKeeps(u: Setup, pl: Plant, p: nat)
    requires Inv(u, pl) && Readable(pl, p) && !pl.parts[p].topic.Dlq?
    ensures var x := Head(pl, p).id;
            InvBut(u, Fetched(pl, p), x) && InHand(Fetched(pl, p), x) && pl.rows[x].state in {Queued, Retry} &&
            Faithful(pl.rows, Head(pl, p)) && Belongs(pl.parts[p].topic, Head(pl, p))
  {
    var f := Fetched(pl, p);
    var x := Head(pl, p).id;
    FetchSound(u, pl, p);
    FetchTakes(pl, p, x);
    assert JobOk(pl, x);
    forall j | j != x ensures JobOk(f, j) {
      assert JobOk(pl, j);
      FetchTakes(pl, p, j);
    }
  }

  /** Writing the job's own row disturbs no other job. */
  lemma OwnRow(u: Setup, pl: Plant, x: JobId, r: Row)
    requires InvBut(u, pl, x) && SameJob(pl.rows[x], r) && pl.rows[x].attempts <= r.attempts
    ensures InvBut(u, pl.(rows := pl.rows[x := r]), x)
  {
    var b := pl.(rows := pl.rows[x := r]);
    SetGrows(pl.rows, x, r);
    GrowStays(u, pl, b.rows);
    forall j | j != x ensures JobOk(b, j) {
      assert JobOk(pl, j);
    }
  }

  lemma OwnRun(u: Setup, pl: Plant, ran: Ran)
    requires InvBut(u, pl, ran.id)
    ensures InvBut(u, pl.(runs := pl.runs + [ran]), ran.id)
    ensures Results(pl.runs + [ran], ran.id) == Results(pl.runs, ran.id) + [ran.ok]
  {
    var b := pl.(runs := pl.runs + [ran]);
    assert b.runs[..|b.runs| - 1] == pl.runs;
    forall j | j != ran.id ensures JobOk(b, j) {
      assert JobOk(pl, j);
    }
  }

  lemma OwnAppend(u: Setup, pl: Plant, t: Topic, m: Message)
    requires InvBut(u, pl, m.id) && Faithful(pl.rows, m) && Belongs(t, m)
    ensures InvBut(u, pl.(parts := Append(u.route, pl.parts, t, m)), m.id)
  {
    var b := pl.(parts := Append(u.route, pl.parts, t, m));
    AppendStays(u, pl, t, m);
    forall j | j != m.id ensures JobOk(b, j) {
      assert JobOk(pl, j);
    }
  }

  /** The job in hand: nothing of it anywhere else, only failures behind it, and attempts left. */
  predicate InHand(pl: Plant, x: JobId) {
    var rs := Results(pl.runs, x);
    x in pl.rows && OnItsWay(pl.parts, x) == 0 && Buried(pl.parts, x) == 0 && AllFailed(rs) &&
    pl.rows[x].attempts == |rs| < pl.rows[x].maxAttempts
  }

  /** The job in hand after its run `ok`. */
  predicate JustRan(pl: Plant, x: JobId, ok: bool) {
    var rs := Results(pl.runs, x);
    x in pl.rows && OnItsWay(pl.parts, x) == 0 && Buried(pl.parts, x) == 0 &&
    |rs| == pl.rows[x].attempts + 1 <= pl.rows[x].maxAttempts &&
    AllFailed(rs[..pl.rows[x].attempts]) && rs[pl.rows[x].attempts] == ok
  }

  lemma SucceedKeeps(u: Setup, pl: Plant, x: JobId)
    requires InvBut(u, pl, x) && JustRan(pl, x, true)
    ensures Inv(u, SetState(pl, x, Success, None))
  {
    OwnRow(u, pl, x, WithState(pl.rows[x], Success, None, pl.now));
    var b := SetState(pl, x, Success, None);
    assert JobOk(b, x);
  }

  lemma BuryKeeps(u: Setup, pl: Plant, m: Message, trace: seq<Header>, err: string)
    requires InvBut(u, pl, m.id) && JustRan(pl, m.id, false) && Faithful(pl.rows, m)
    requires pl.rows[m.id].attempts + 1 >= pl.rows[m.id].maxAttempts
    ensures Inv(u, SendToDlq(u, pl, m, trace, err))
  {
    var x := m.id;
    var c := m.(key := x, headers := trace);
    assert Routed(u.route, pl.parts, Dlq, x);
    OwnAppend(u, pl, Dlq, c);
    AppendStays(u, pl, Dlq, c);
    var sent := pl.(parts := Append(u.route, pl.parts, Dlq, c));
    OwnRow(u, sent, x, WithState(sent.rows[x], Failed, Some(err), sent.now));
    assert JobOk(SendToDlq(u, pl, m, trace, err), x);
  }

  /** The retry published and the row written; the job's own part is left to its caller. */
  lemma RetryOwn(u: Setup, pl: Plant, tier: Tier, m: Message, attempt: int, env: Env, err: string)
    requires InvBut(u, pl, m.id) && JustRan(pl, m.id, false) && Faithful(pl.rows, m) && m.tier == tier
    ensures InvBut(u, SendToRetry(u, pl, tier, m, attempt, env, err), m.id)
  {
    var x := m.id;
    var c := m.(key := x, headers := RetryHeaders(env.trace, Backoff.NextAt(pl.now, attempt, env.jitter)));
    assert Routed(u.route, pl.parts, RetryOf(tier), x);
    OwnAppend(u, pl, RetryOf(tier), c);
    var sent := pl.(parts := Append(u.route, pl.parts, RetryOf(tier), c));
    OwnRow(u, sent, x, WithAttempt(WithState(sent.rows[x], Retry, Some(err), sent.now)));
    assert sent.rows[x := WithState(sent.rows[x], Retry, Some(err), sent.now)]
      [x := WithAttempt(WithState(sent.rows[x], Retry, Some(err), sent.now))] ==
           sent.rows[x := WithAttempt(WithState(sent.rows[x], Retry, Some(err), sent.now))];
  }

  lemma RetryKeeps(u: Setup, pl: Plant, tier: Tier, m: Message, attempt: int, env: Env, err: string)
    requires InvBut(u, pl, m.id) && JustRan(pl, m.id, false) && Faithful(pl.rows, m) && m.tier == tier
    requires pl.rows[m.id].attempts + 1 < pl.rows[m.id].maxAttempts
    ensures Inv(u, SendToRetry(u, pl, tier, m, attempt, env, err))
  {
    var c := m.(key := m.id, headers := RetryHeaders(env.trace, Backoff.NextAt(pl.now, attempt, env.jitter)));
    assert Routed(u.route, pl.parts, RetryOf(tier), m.id);
    AppendStays(u, pl, RetryOf(tier), c);
    RetryOwn(u, pl, tier, m, attempt, env, err);
    assert JobOk(SendToRetry(u, pl, tier, m, attempt, env, err), m.id);
  }

  lemma ProcessKeeps(u: Setup, pl: Plant, tier: Tier, m: Message, env: Env)
    requires InvBut(u, pl, m.id) && InHand(pl, m.id) && Faithful(pl.rows, m) && m.tier == tier
    ensures Inv(u, ProcessOne(u, pl, tier, m, env).0)
  {
    var x := m.id;
    var job := pl.rows[x];
    RegistryIsTotalOnValid(m.typ);
    var running := SetState(pl, x, Running, None);
    OwnRow(u, pl, x, running.rows[x]);
    HandleKeeps(u, running, m, env, x);
    var (handled, err, entry) := Handle(u, running, m, env);
    var ran := Ran(x, err.None?, entry);
    OwnRun(u, handled, ran);
    var after := handled.(runs := handled.runs + [ran]);
    assert JustRan(after, x, err.None?) by {
      assert Results(handled.runs, x) == Results(pl.runs, x);
      assert (Results(pl.runs, x) + [ran.ok])[..|Results(pl.runs, x)|] == Results(pl.runs, x);
    }
    if err.None? {
      SucceedKeeps(u, after, x);
    } else if job.attempts + 1 >= job.maxAttempts {
      BuryKeeps(u, after, m, env.trace, err.value);
    } else {
      RetryKeeps(u, after, tier, m, job.attempts + 1, env, err.value);
    }
  }

  /** Offsets and clocks are no part of the invariant. */
  lemma Irrelevant(u: Setup, a: Plant, b: Plant)
    requires Inv(u, a) && b.rows == a.rows && b.runs == a.runs && |b.parts| == |a.parts|
    requires forall p :: 0 <= p < |a.parts| ==>
      b.parts[p].topic == a.parts[p].topic && b.parts[p].log == a.parts[p].log && b.parts[p].pos == a.parts[p].pos
    ensures Inv(u, b)
  {
    forall j ensures JobOk(b, j) {
      assert JobOk(a, j);
      SameReads(a.parts, b.parts, For(j));
    }
    forall p | 0 <= p < |b.parts| ensures PartOk(b.rows, b.parts[p]) {
      assert PartOk(a.rows, a.parts[p]);
    }
    forall t, key ensures Routed(u.route, b.parts, t, key) {
      assert Routed(u.route, a.parts, t, key);
    }
  }

  lemma WorkKeeps(u: Setup, pl: Plant, p: nat, env: Env)
    requires Inv(u, pl) && Readable(pl, p) && pl.parts[p].topic.Main?
    ensures Inv(u, Work(u, pl, p, env))
  {
    FetchKeeps(u, pl, p);
    ProcessKeeps(u, Fetched(pl, p), pl.parts[p].topic.tier, Head(pl, p), env);
    Irrelevant(u, ProcessOne(u, Fetched(pl, p), pl.parts[p].topic.tier, Head(pl, p), env).0, Work(u, pl, p, env));
  }

  lemma ForwardKeeps(u: Setup, pl: Plant, p: nat, trace: seq<Header>)
    requires Inv(u, pl) && Readable(pl, p) && pl.parts[p].topic.RetryOf?
    ensures Inv(u, Forward(u, pl, p, trace))
  {
    FetchKeeps(u, pl, p);
    var m := Head(pl, p);
    var x := m.id;
    var t := Main(pl.parts[p].topic.tier);
    var f := Fetched(pl, p);
    var c := m.(headers := trace);
    assert JobOk(pl, x);
    assert Routed(u.route, f.parts, t, m.key);
    OwnAppend(u, f, t, c);
    AppendStays(u, f, t, c);
    var sent := f.(parts := Append(u.route, f.parts, t, c));
    assert JobOk(sent, x);
    Irrelevant(u, sent, Forward(u, pl, p, trace));
  }

  lemma ApplyKeeps(u: Setup, pl: Plant, op: Op)
    requires Inv(u, pl) && Enabled(pl, op)
    ensures Inv(u, Apply(u, pl, op))
  {
    match op
    case Submitting(q, id, trace) =>
      SubmitSound(u, pl, q, id, trace);
      forall j ensures JobOk(Submit(u, pl, q, id, trace).0, j) {
        assert JobOk(pl, j);
        SubmitJobs(u, pl, q, id, trace, j);
      }
    case Working(p, env) => WorkKeeps(u, pl, p, env);
    case Forwarding(p, trace) => ForwardKeeps(u, pl, p, trace);
    case Waiting(d) => Irrelevant(u, pl, pl.(now := pl.now + d));
  }

  lemma {:induction false} RunsKeep(u: Setup, pl: Plant, ops: seq<Op>, end: Plant)
    requires Inv(u, pl) && Runs(u, pl, ops, end)
    ensures Inv(u, end)
    decreases |ops|
  {
    if ops != [] {
      ApplyKeeps(u, pl, ops[0]);
      RunsKeep(u, Apply(u, pl, ops[0]), ops[1..], end);
    }
  }

  lemma FreshInv(u: Setup, pl: Plant)
    requires Fresh(pl) && Wired(u.route, pl.parts)
    ensures Inv(u, pl)
  {
    forall j ensures JobOk(pl, j) {
      CountZero(pl.parts, OnMain(For(j)));
      CountZero(pl.parts, OnRetry(For(j)));
      CountZero(pl.parts, OnDlq(For(j)));
    }
  }

  // ----- the theorems -----

  predicate Agrees(rs: seq<bool>, o: nat -> bool) {
    forall n :: 0 <= n < |rs| ==> rs[n] == o(n)
  }

  function VerdictOf(pl: Plant, j: JobId): Verdict
    requires j in pl.rows
  {
    Verdict(pl.rows[j].state, pl.rows[j].attempts, |Results(pl.runs, j)|, Buried(pl.parts, j))
  }

  /** Skipping over `n` failures of the loop. */
  lemma {:induction false} LoopSkips(o: nat -> bool, n: nat, k: nat, max: nat)
    requires n <= k < max && forall i :: n <= i < k ==> !o(i)
    ensures SimpleLoop(o, n, max) == SimpleLoop(o, k, max)
    decreases k - n
  {
    if n < k {
      LoopSkips(o, n + 1, k, max);
    }
  }

  lemma DrainedMeansSettled(pl: Plant, j: JobId)
    requires Drained(pl)
    ensures OnItsWay(pl.parts, j) == 0
  {
    forall p | 0 <= p < |pl.parts| ensures OnMain(For(j))(pl.parts[p]) == 0 && OnRetry(For(j))(pl.parts[p]) == 0 {
      var q := pl.parts[p];
      if !q.topic.Dlq? && q.pos <= |q.log| { assert q.log[q.pos..] == []; }
    }
    CountZero(pl.parts, OnMain(For(j)));
    CountZero(pl.parts, OnRetry(For(j)));
  }

  /**
   Once all topics are drained, every job has ended exactly as the simple loop ends on the outcomes its handler
   produced: same state, same attempts, same number of runs, same number of dead letters.
   */
  lemma PipelineIsSimpleLoop(u: Setup, pl: Plant, ops: seq<Op>, end: Plant, j: JobId, o: nat -> bool)
    requires Fresh(pl) && Wired(u.route, pl.parts) && Runs(u, pl, ops, end) && Drained(end)
    requires j in end.rows && Agrees(Results(end.runs, j), o)
    ensures VerdictOf(end, j) == SimpleLoop(o, 0, MAX_ATTEMPTS)
    ensures IsTerminal(end.rows[j].state)
  {
    FreshInv(u, pl);
    RunsKeep(u, pl, ops, end);
    DrainedMeansSettled(end, j);
    assert JobOk(end, j);
    var r := end.rows[j];
    var rs := Results(end.runs, j);
    assert forall i :: 0 <= i < r.attempts ==> rs[i] == rs[..r.attempts][i];
    LoopSkips(o, 0, r.attempts, MAX_ATTEMPTS);
  }

  /** Two schedules that give a job the same outcomes give it the same end, whatever else they do. */
  lemma ScheduleIndependent(u: Setup, a: Plant, b: Plant, opsA: seq<Op>, opsB: seq<Op>, endA: Plant, endB: Plant,
    j: JobId, o: nat -> bool)
    requires Fresh(a) && Wired(u.route, a.parts) && Runs(u, a, opsA, endA) && Drained(endA) && j in endA.rows
    requires Agrees(Results(endA.runs, j), o)
    requires Fresh(b) && Wired(u.route, b.parts) && Runs(u, b, opsB, endB) && Drained(endB) && j in endB.rows
    requires Agrees(Results(endB.runs, j), o)
    ensures VerdictOf(endA, j) == VerdictOf(endB, j)
  {
    PipelineIsSimpleLoop(u, a, opsA, endA, j, o);
    PipelineIsSimpleLoop(u, b, opsB, endB, j, o);
  }
}

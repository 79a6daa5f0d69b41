/** What the bookkeeping columns of a row say in serialised runs. */
module Columns {
  import opened Prelude
  import opened Jobs
  import opened Store
  import opened Broker
  import opened Serial
  import Pipeline
  import Drain

  /**
   A row has a finish time exactly when its state is terminal, a start time exactly when its handler has run, and an
   error message exactly when a run has failed; and the times are in order.
   */
  predicate ColumnsOk(r: Row, rs: seq<bool>, now: int) {
    (r.finishedAt.Some? <==> IsTerminal(r.state)) && (r.startedAt.Some? <==> rs != []) &&
    (r.lastError.Some? <==> false in rs) &&
    (r.startedAt.Some? ==> r.startedAt.value <= now) &&
    (r.finishedAt.Some? ==> r.startedAt.Some? && r.startedAt.value <= r.finishedAt.value <= now)
  }

  predicate RowOk(pl: Plant, j: JobId) {
    j in pl.rows ==> ColumnsOk(pl.rows[j], Pipeline.Results(pl.runs, j), pl.now)
  }

  /** Same row, same runs, no earlier. */
  lemma Untouched(a: Plant, b: Plant, j: JobId)
    requires RowOk(a, j) && (j in b.rows ==> j in a.rows && b.rows[j] == a.rows[j]) && b.now >= a.now
    requires Pipeline.Results(b.runs, j) == Pipeline.Results(a.runs, j)
    ensures RowOk(b, j)
  {
  }

  lemma SubmitKeeps(u: Setup, pl: Plant, q: Request, id: JobId, trace: seq<Header>, j: JobId)
    requires RowOk(pl, j) && Pipeline.JobOk(pl, j)
    ensures RowOk(Submit(u, pl, q, id, trace).0, j)
  {
  }

  lemma HandleKeeps(u: Setup, pl: Plant, m: Message, env: Env, j: JobId)
    requires RowOk(pl, j) && Pipeline.JobOk(pl, j)
    ensures RowOk(Handle(u, pl, m, env).0, j)
  {
    if m.typ == HealthCheck && env.err.None? && !env.healthy {
      var touched := pl.(devices := Touch(pl.devices, m.device, pl.now));
      SubmitKeeps(u, touched, Request(AlertGeneration, m.device, AlertKey(m.id), env.alertPayload), env.alertId,
        env.trace, j);
    }
  }

  lemma FailOther(u: Setup, pl: Plant, tier: Tier, m: Message, job: Row, env: Env, err: string, j: JobId)
    requires j != m.id
    ensures var b := Fail(u, pl, tier, m, job, env, err);
            b.runs == pl.runs && b.now == pl.now && (j in b.rows <==> j in pl.rows) &&
            (j in b.rows ==> b.rows[j] == pl.rows[j])
  {
    if job.attempts + 1 >= job.maxAttempts {
      BuryOther(u, pl, m, env.trace, err, j);
    } else {
      RetryOther(u, pl, tier, m, job.attempts + 1, env, err, j);
    }
  }

  lemma BuryOther(u: Setup, pl: Plant, m: Message, trace: seq<Header>, err: string, j: JobId)
    requires j != m.id
    ensures var b := SendToDlq(u, pl, m, trace, err);
            b.runs == pl.runs && b.now == pl.now && (j in b.rows <==> j in pl.rows) &&
            (j in b.rows ==> b.rows[j] == pl.rows[j])
  {
  }

  lemma RetryOther(u: Setup, pl: Plant, tier: Tier, m: Message, attempt: int, env: Env, err: string, j: JobId)
    requires j != m.id
    ensures var b := SendToRetry(u, pl, tier, m, attempt, env, err);
            b.runs == pl.runs && b.now == pl.now && (j in b.rows <==> j in pl.rows) &&
            (j in b.rows ==> b.rows[j] == pl.rows[j])
  {
  }

  lemma ProcessOther(u: Setup, pl: Plant, m: Message, env: Env, j: JobId)
    requires RowOk(pl, j) && Pipeline.JobOk(pl, j) && m.id in pl.rows && HasHandler(m.typ) && j != m.id
    ensures RowOk(ProcessOne(u, pl, m.tier, m, env).0, j)
  {
    var running := SetState(pl, m.id, State.Running, None);
    HandleKeeps(u, running, m, env, j);
    var (h, err, entry) := Handle(u, running, m, env);
    var ran := h.(runs := h.runs + [Ran(m.id, err.None?, entry)]);
    RanOther(h, Ran(m.id, err.None?, entry), j);
    if err.None? {
      Untouched(ran, SetState(ran, m.id, State.Success, None), j);
    } else {
      FailOther(u, ran, m.tier, m, pl.rows[m.id], env, err.value, j);
      Untouched(ran, Fail(u, ran, m.tier, m, pl.rows[m.id], env, err.value), j);
    }
  }

  lemma RanOther(pl: Plant, ran: Ran, j: JobId)
    requires RowOk(pl, j) && ran.id != j
    ensures RowOk(pl.(runs := pl.runs + [ran]), j)
  {
    assert (pl.runs + [ran])[..|pl.runs|] == pl.runs;
  }

  /** The row after a failed run: FAILED and finished, or RETRY and not. */
  lemma FailOwn(u: Setup, pl: Plant, m: Message, job: Row, env: Env, err: string)
    requires Wired(u.route, pl.parts) && m.id in pl.rows
    ensures var b := Fail(u, pl, m.tier, m, job, env, err);
            var st := if job.attempts + 1 >= job.maxAttempts then State.Failed else State.Retry;
            var w := WithState(pl.rows[m.id], st, Some(err), pl.now);
            b.runs == pl.runs && b.now == pl.now && m.id in b.rows &&
            b.rows[m.id] == if st == State.Failed then w else WithAttempt(w)
  {
    assert Routed(u.route, pl.parts, Dlq, m.id) && Routed(u.route, pl.parts, RetryOf(m.tier), m.id);
  }

  /** What one run does to the columns, whatever its outcome. */
  lemma RunColumns(r: Row, rs: seq<bool>, ok: bool, st: State, err: Option<string>, now: int)
    requires ColumnsOk(r, rs, now) && r.state in {State.Queued, State.Retry}
    requires ok <==> st == State.Success
    requires st in {State.Success, State.Failed, State.Retry} && (err.None? <==> ok)
    ensures ColumnsOk(WithState(WithState(r, State.Running, None, now), st, err, now), rs + [ok], now)
  {
    assert (rs + [ok])[|rs|] == ok;
    assert false in rs ==> false in rs + [ok];
  }

  lemma ProcessOwn(u: Setup, pl: Plant, m: Message, env: Env)
    requires RowOk(pl, m.id) && m.id in pl.rows && HasHandler(m.typ) && Wired(u.route, pl.parts)
    requires pl.rows[m.id].state in {State.Queued, State.Retry}
    requires Wired(u.route, Handle(u, SetState(pl, m.id, State.Running, None), m, env).0.parts)
    ensures RowOk(ProcessOne(u, pl, m.tier, m, env).0, m.id)
  {
    var running := SetState(pl, m.id, State.Running, None);
    Drain.HandleSameRow(u, running, m, env);
    var (h, err, entry) := Handle(u, running, m, env);
    var ran := h.(runs := h.runs + [Ran(m.id, err.None?, entry)]);
    assert ran.runs[..|ran.runs| - 1] == h.runs;
    assert h.runs == pl.runs && h.now == pl.now;
    var r := pl.rows[m.id];
    var rs := Pipeline.Results(pl.runs, m.id);
    assert Pipeline.Results(ran.runs, m.id) == rs + [err.None?];
    if err.None? {
      RunColumns(r, rs, true, State.Success, None, pl.now);
    } else {
      FailOwn(u, ran, m, r, env, err.value);
      RunColumns(r, rs, false, if r.attempts + 1 >= r.maxAttempts then State.Failed else State.Retry, err, pl.now);
    }
  }

  lemma WorkKeeps(u: Setup, pl: Plant, p: nat, env: Env, j: JobId)
    requires Pipeline.Inv(u, pl) && RowOk(pl, j) && Readable(pl, p) && pl.parts[p].topic.Main?
    ensures RowOk(Work(u, pl, p, env), j)
  {
    Pipeline.FetchKeeps(u, pl, p);
    var m := Head(pl, p);
    var f := Fetched(pl, p);
    RegistryIsTotalOnValid(m.typ);
    if j == m.id {
      Drain.StateCost(u, f, m.id, State.Running, None);
      Drain.HandleCost(u, SetState(f, m.id, State.Running, None), m, env);
      ProcessOwn(u, f, m, env);
    } else {
      ProcessOther(u, f, m, env, j);
    }
  }

  lemma ApplyKeeps(u: Setup, pl: Plant, op: Op, j: JobId)
    requires Pipeline.Inv(u, pl) && RowOk(pl, j) && Enabled(pl, op)
    ensures RowOk(Apply(u, pl, op), j)
  {
    match op
    case Submitting(q, id, trace) =>
      assert Pipeline.JobOk(pl, j);
      SubmitKeeps(u, pl, q, id, trace, j);
    case Working(p, env) => WorkKeeps(u, pl, p, env, j);
    case Forwarding(p, trace) => Untouched(pl, Forward(u, pl, p, trace), j);
    case Waiting(d) => Untouched(pl, pl.(now := pl.now + d), j);
  }

  lemma {:induction false} RunsKeep(u: Setup, pl: Plant, ops: seq<Op>, end: Plant, j: JobId)
    requires Pipeline.Inv(u, pl) && RowOk(pl, j) && Runs(u, pl, ops, end)
    ensures RowOk(end, j)
    decreases |ops|
  {
    if ops != [] {
      Pipeline.ApplyKeeps(u, pl, ops[0]);
      ApplyKeeps(u, pl, ops[0], j);
      RunsKeep(u, Apply(u, pl, ops[0]), ops[1..], end, j);
    }
  }

  /** In every state of every serialised run, each row's columns agree with its state and with what its handler did. */
  lemma ColumnsTellTheStory(u: Setup, start: Plant, ops: seq<Op>, end: Plant, j: JobId)
    requires Fresh(start) && Wired(u.route, start.parts) && Runs(u, start, ops, end) && j in end.rows
    ensures ColumnsOk(end.rows[j], Pipeline.Results(end.runs, j), end.now)
  {
    Pipeline.FreshInv(u, start);
    RunsKeep(u, start, ops, end, j);
  }
}

/**
 The failure reasons of firmware updates, in serialised runs: the error message on a job's row is the reason of the
 latest failed entry that the job left in the history.
 */
module Reasons {
  import opened Prelude
  import opened Jobs
  import opened Store
  import opened Broker
  import opened Serial
  import opened Firmware
  import Pipeline
  import Columns
  import Drain

  /** The reason of the latest entry that has one. */
  function LastReason(h: seq<FirmwareEntry>): Option<string> {
    if h == [] then None else
    var last := h[|h| - 1];
    if last.reason.Some? then last.reason else LastReason(h[..|h| - 1])
  }

  predicate Decodable(u: Setup, r: Row) {
    r.typ == FirmwareUpdate && u.target(r.payload).Some?
  }

  predicate ReasonOk(u: Setup, pl: Plant, j: JobId) {
    j in pl.rows && Decodable(u, pl.rows[j]) ==> pl.rows[j].lastError == LastReason(HistoryOf(pl.runs, j))
  }

  /** Nobody has run a job that is not there. */
  predicate Unrun(pl: Plant, j: JobId) {
    j !in pl.rows ==> HistoryOf(pl.runs, j) == []
  }

  lemma {:induction false} NoResultsNoHistory(runs: seq<Ran>, j: JobId)
    requires Pipeline.Results(runs, j) == []
    ensures HistoryOf(runs, j) == []
  {
    if runs != [] { NoResultsNoHistory(runs[..|runs| - 1], j); }
  }

  lemma HistorySnoc(runs: seq<Ran>, ran: Ran, j: JobId)
    ensures HistoryOf(runs + [ran], j) ==
            if ran.id == j then HistoryOf(runs, j) + EntryOf(ran) else HistoryOf(runs, j)
  {
    assert (runs + [ran])[..|runs|] == runs;
  }

  lemma SubmitReason(u: Setup, pl: Plant, q: Request, id: JobId, trace: seq<Header>, j: JobId)
    requires ReasonOk(u, pl, j) && Unrun(pl, j)
    ensures ReasonOk(u, Submit(u, pl, q, id, trace).0, j) && Unrun(Submit(u, pl, q, id, trace).0, j)
  {
  }

  lemma HandleReason(u: Setup, pl: Plant, m: Message, env: Env, j: JobId)
    requires ReasonOk(u, pl, j) && Unrun(pl, j)
    ensures ReasonOk(u, Handle(u, pl, m, env).0, j) && Unrun(Handle(u, pl, m, env).0, j)
  {
    if m.typ == HealthCheck && env.err.None? && !env.healthy {
      var touched := pl.(devices := Touch(pl.devices, m.device, pl.now));
      var q := Request(AlertGeneration, m.device, AlertKey(m.id), env.alertPayload);
      SubmitReason(u, touched, q, env.alertId, env.trace, j);
    }
  }

  lemma OtherReason(u: Setup, pl: Plant, m: Message, env: Env, j: JobId)
    requires ReasonOk(u, pl, j) && Unrun(pl, j) && m.id in pl.rows && HasHandler(m.typ) && j != m.id
    ensures ReasonOk(u, ProcessOne(u, pl, m.tier, m, env).0, j)
  {
    var running := SetState(pl, m.id, State.Running, None);
    HandleReason(u, running, m, env, j);
    var (h, err, entry) := Handle(u, running, m, env);
    var ran := h.(runs := h.runs + [Ran(m.id, err.None?, entry)]);
    HistorySnoc(h.runs, Ran(m.id, err.None?, entry), j);
    assert ReasonOk(u, ran, j);
    if err.Some? {
      Columns.FailOther(u, ran, m.tier, m, pl.rows[m.id], env, err.value, j);
      SameReason(u, ran, Fail(u, ran, m.tier, m, pl.rows[m.id], env, err.value), j);
    }
  }

  lemma SameReason(u: Setup, a: Plant, b: Plant, j: JobId)
    requires ReasonOk(u, a, j) && b.runs == a.runs && (j in b.rows ==> j in a.rows && b.rows[j] == a.rows[j])
    ensures ReasonOk(u, b, j)
  {
  }

  /** What the handler of a decodable update answers is what its entry says. */
  lemma PushAnswers(u: Setup, pl: Plant, m: Message, env: Env)
    requires m.typ == FirmwareUpdate && u.target(m.payload).Some?
    ensures var (h, err, entry) := Handle(u, pl, m, env); entry.Some? && entry.value.reason == err && err == env.err
  {
  }

  lemma OwnReason(u: Setup, pl: Plant, m: Message, env: Env)
    requires ReasonOk(u, pl, m.id) && Faithful(pl.rows, m) && HasHandler(m.typ) && Wired(u.route, pl.parts)
    ensures ReasonOk(u, ProcessOne(u, pl, m.tier, m, env).0, m.id)
  {
    if Decodable(u, pl.rows[m.id]) {
      var running := SetState(pl, m.id, State.Running, None);
      PushAnswers(u, running, m, env);
      var (h, err, entry) := Handle(u, running, m, env);
      var run := Ran(m.id, err.None?, entry);
      var ran := h.(runs := h.runs + [run]);
      HistorySnoc(h.runs, run, m.id);
      var before := HistoryOf(pl.runs, m.id);
      assert (before + [entry.value])[..|before|] == before;
      if err.Some? { Columns.FailOwn(u, ran, m, pl.rows[m.id], env, err.value); }
    } else {
      OwnTypeStays(u, pl, m, env);
    }
  }

  lemma OwnTypeStays(u: Setup, pl: Plant, m: Message, env: Env)
    requires m.id in pl.rows && HasHandler(m.typ)
    ensures var b := ProcessOne(u, pl, m.tier, m, env).0;
            m.id in b.rows && b.rows[m.id].typ == pl.rows[m.id].typ && b.rows[m.id].payload == pl.rows[m.id].payload
  {
    var running := SetState(pl, m.id, State.Running, None);
    Drain.HandleSameRow(u, running, m, env);
    var (h, err, entry) := Handle(u, running, m, env);
    var ran := h.(runs := h.runs + [Ran(m.id, err.None?, entry)]);
    if err.Some? { Firmware.FailIsQuiet(u, ran, m.tier, m, pl.rows[m.id], env, err.value); }
  }

  lemma ApplyReason(u: Setup, pl: Plant, op: Op, j: JobId)
    requires Pipeline.Inv(u, pl) && ReasonOk(u, pl, j) && Enabled(pl, op)
    ensures ReasonOk(u, Apply(u, pl, op), j)
  {
    assert Pipeline.JobOk(pl, j);
    if j !in pl.rows { NoResultsNoHistory(pl.runs, j); }
    if op.Working? {
      var m := Head(pl, op.p);
      Pipeline.FetchKeeps(u, pl, op.p);
      RegistryIsTotalOnValid(m.typ);
      if j == m.id { OwnReason(u, Fetched(pl, op.p), m, op.env); }
      else { OtherReason(u, Fetched(pl, op.p), m, op.env, j); }
    } else if op.Submitting? {
      SubmitReason(u, pl, op.q, op.id, op.trace, j);
    }
  }

  lemma {:induction false} RunsReason(u: Setup, pl: Plant, ops: seq<Op>, end: Plant, j: JobId)
    requires Pipeline.Inv(u, pl) && ReasonOk(u, pl, j) && Runs(u, pl, ops, end)
    ensures ReasonOk(u, end, j)
    decreases |ops|
  {
    if ops != [] {
      ApplyReason(u, pl, ops[0], j);
      Pipeline.ApplyKeeps(u, pl, ops[0]);
      RunsReason(u, Apply(u, pl, ops[0]), ops[1..], end, j);
    }
  }

  /**
   In every serialised run the row of a decodable firmware update has the reason of its latest failed push, or no error.
   */
  lemma ErrorIsLatestReason(u: Setup, start: Plant, ops: seq<Op>, end: Plant, j: JobId)
    requires Fresh(start) && Wired(u.route, start.parts) && Runs(u, start, ops, end)
    requires j in end.rows && end.rows[j].typ == FirmwareUpdate && u.target(end.rows[j].payload).Some?
    ensures end.rows[j].lastError == LastReason(HistoryOf(end.runs, j))
  {
    Pipeline.FreshInv(u, start);
    RunsReason(u, start, ops, end, j);
  }
}

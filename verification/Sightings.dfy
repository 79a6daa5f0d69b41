/** When a device was last seen, in serialised runs: at its latest health check that was answered, healthy or not. */
module Sightings {
  import opened Prelude
  import opened Jobs
  import opened Store
  import opened Broker
  import opened Serial
  import Pipeline

  /** The operation runs a health check of the device, and the device answers it. */
  predicate Answered(pl: Plant, op: Op, d: string) {
    op.Working? && Readable(pl, op.p) && Head(pl, op.p).typ == HealthCheck && Head(pl, op.p).device == d &&
    op.env.err.None?
  }

  /** The time of the schedule's last answered health check of the device; `before` if it has none. */
  function LastAnswered(u: Setup, pl: Plant, ops: seq<Op>, d: string, before: Option<int>): Option<int>
    decreases |ops|
  {
    if ops == [] || !Enabled(pl, ops[0]) then before else
    LastAnswered(u, Apply(u, pl, ops[0]), ops[1..], d, if Answered(pl, ops[0], d) then Some(pl.now) else before)
  }

  /** What a device was last seen at. */
  function Seen(pl: Plant, d: string): Option<int> {
    if d in pl.devices then pl.devices[d].lastSeen else None
  }

  predicate SameSightings(a: Plant, b: Plant) {
    b.devices.Keys == a.devices.Keys && forall d :: d in a.devices ==> b.devices[d].lastSeen == a.devices[d].lastSeen
  }

  lemma SubmitSees(u: Setup, pl: Plant, q: Request, id: JobId, trace: seq<Header>)
    ensures SameSightings(pl, Submit(u, pl, q, id, trace).0)
  {
  }

  lemma HandleSees(u: Setup, pl: Plant, m: Message, env: Env, d: string)
    requires d in pl.devices
    ensures var h := Handle(u, pl, m, env).0;
            h.devices.Keys == pl.devices.Keys && d in h.devices &&
            h.devices[d].lastSeen ==
            if m.typ == HealthCheck && m.device == d && env.err.None? then Some(pl.now) else pl.devices[d].lastSeen
  {
    if m.typ == HealthCheck && env.err.None? && !env.healthy {
      var touched := pl.(devices := Touch(pl.devices, m.device, pl.now));
      var q := Request(AlertGeneration, m.device, AlertKey(m.id), env.alertPayload);
      SubmitSees(u, touched, q, env.alertId, env.trace);
      assert d in touched.devices;
    }
  }

  lemma FailSees(u: Setup, pl: Plant, tier: Tier, m: Message, job: Row, env: Env, err: string)
    ensures Fail(u, pl, tier, m, job, env, err).devices == pl.devices
  {
    if job.attempts + 1 >= job.maxAttempts {
      assert SendToDlq(u, pl, m, env.trace, err).devices == pl.devices;
    } else {
      assert SendToRetry(u, pl, tier, m, job.attempts + 1, env, err).devices == pl.devices;
    }
  }

  lemma ProcessSees(u: Setup, pl: Plant, m: Message, env: Env, d: string)
    requires m.id in pl.rows && HasHandler(m.typ) && d in pl.devices
    ensures var b := ProcessOne(u, pl, m.tier, m, env).0;
            b.devices.Keys == pl.devices.Keys && d in b.devices &&
            b.devices[d].lastSeen ==
            if m.typ == HealthCheck && m.device == d && env.err.None? then Some(pl.now) else pl.devices[d].lastSeen
  {
    var running := SetState(pl, m.id, State.Running, None);
    HandleSees(u, running, m, env, d);
    var (h, err, entry) := Handle(u, running, m, env);
    var ran := h.(runs := h.runs + [Ran(m.id, err.None?, entry)]);
    if err.Some? { FailSees(u, ran, m.tier, m, pl.rows[m.id], env, err.value); }
  }

  lemma ApplySees(u: Setup, pl: Plant, op: Op, d: string)
    requires Pipeline.Inv(u, pl) && Enabled(pl, op) && d in pl.devices
    ensures d in Apply(u, pl, op).devices
    ensures Seen(Apply(u, pl, op), d) == if Answered(pl, op, d) then Some(pl.now) else Seen(pl, d)
  {
    if op.Working? {
      Pipeline.FetchKeeps(u, pl, op.p);
      RegistryIsTotalOnValid(Head(pl, op.p).typ);
      ProcessSees(u, Fetched(pl, op.p), Head(pl, op.p), op.env, d);
    } else if op.Submitting? {
      SubmitSees(u, pl, op.q, op.id, op.trace);
    }
  }

  lemma {:induction false} RunsSee(u: Setup, pl: Plant, ops: seq<Op>, end: Plant, d: string)
    requires Pipeline.Inv(u, pl) && Runs(u, pl, ops, end) && d in pl.devices
    ensures d in end.devices && Seen(end, d) == LastAnswered(u, pl, ops, d, Seen(pl, d))
    decreases |ops|
  {
    if ops != [] {
      ApplySees(u, pl, ops[0], d);
      Pipeline.ApplyKeeps(u, pl, ops[0]);
      RunsSee(u, Apply(u, pl, ops[0]), ops[1..], end, d);
    }
  }

  /**
   In every serialised run a device was last seen at its latest answered health check, or when it was before the run.
   */
  lemma SeenAtLastAnswer(u: Setup, start: Plant, ops: seq<Op>, end: Plant, d: string)
    requires Fresh(start) && Wired(u.route, start.parts) && Runs(u, start, ops, end) && d in start.devices
    ensures d in end.devices && end.devices[d].lastSeen == LastAnswered(u, start, ops, d, start.devices[d].lastSeen)
  {
    Pipeline.FreshInv(u, start);
    RunsSee(u, start, ops, end, d);
  }
}

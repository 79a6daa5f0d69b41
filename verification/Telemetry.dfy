/**
 Telemetry over runs: two readings of devices make one job exactly when they are of one device and arrive within one
 60-second bucket of the clock.
 */
module Telemetry {
  import opened Prelude
  import opened Jobs
  import opened Store
  import opened Broker
  import opened Serial
  import Keys
  import Routing

  // ----- rows grow -----

  lemma HandleGrows(u: Setup, pl: Plant, m: Message, env: Env)
    ensures Grows(pl.rows, Handle(u, pl, m, env).0.rows)
  {
    if m.typ == HealthCheck && env.err.None? && !env.healthy {
      var touched := pl.(devices := Touch(pl.devices, m.device, pl.now));
      var q := Request(AlertGeneration, m.device, AlertKey(m.id), env.alertPayload);
      SubmitGrows(u, touched, q, env.alertId, env.trace);
    }
  }

  lemma SubmitGrows(u: Setup, pl: Plant, q: Request, id: JobId, trace: seq<Header>)
    ensures Grows(pl.rows, Submit(u, pl, q, id, trace).0.rows)
  {
  }

  lemma StateGrows(pl: Plant, id: JobId, st: State, err: Option<string>)
    ensures Grows(pl.rows, SetState(pl, id, st, err).rows)
  {
    if id in pl.rows { Routing.SetGrows(pl.rows, id, WithState(pl.rows[id], st, err, pl.now)); }
  }

  lemma BuryGrows(u: Setup, pl: Plant, m: Message, trace: seq<Header>, err: string)
    ensures Grows(pl.rows, SendToDlq(u, pl, m, trace, err).rows)
  {
  }

  lemma RetryGrows(u: Setup, pl: Plant, tier: Tier, m: Message, attempt: int, env: Env, err: string)
    ensures Grows(pl.rows, SendToRetry(u, pl, tier, m, attempt, env, err).rows)
  {
  }

  lemma FailGrows(u: Setup, pl: Plant, tier: Tier, m: Message, job: Row, env: Env, err: string)
    ensures Grows(pl.rows, Fail(u, pl, tier, m, job, env, err).rows)
  {
    if job.attempts + 1 >= job.maxAttempts { BuryGrows(u, pl, m, env.trace, err); }
    else { RetryGrows(u, pl, tier, m, job.attempts + 1, env, err); }
  }

  lemma ProcessGrows(u: Setup, pl: Plant, tier: Tier, m: Message, env: Env)
    ensures Grows(pl.rows, ProcessOne(u, pl, tier, m, env).0.rows)
  {
    if m.tier == tier && m.id in pl.rows {
      if HasHandler(m.typ) {
        var running := SetState(pl, m.id, State.Running, None);
        StateGrows(pl, m.id, State.Running, None);
        HandleGrows(u, running, m, env);
        var (h, err, entry) := Handle(u, running, m, env);
        var ran := h.(runs := h.runs + [Ran(m.id, err.None?, entry)]);
        if err.None? { StateGrows(ran, m.id, State.Success, None); }
        else { FailGrows(u, ran, tier, m, pl.rows[m.id], env, err.value); }
      } else {
        BuryGrows(u, pl, m, env.trace, "no handler");
      }
    }
  }

  lemma ApplyGrows(u: Setup, pl: Plant, op: Op)
    requires Enabled(pl, op)
    ensures Grows(pl.rows, Apply(u, pl, op).rows)
  {
    if op.Submitting? { SubmitGrows(u, pl, op.q, op.id, op.trace); }
    else if op.Working? { ProcessGrows(u, Fetched(pl, op.p), pl.parts[op.p].topic.tier, Head(pl, op.p), op.env); }
  }

  lemma {:induction false} RunsGrow(u: Setup, pl: Plant, ops: seq<Op>, end: Plant)
    requires Runs(u, pl, ops, end)
    ensures Grows(pl.rows, end.rows)
    decreases |ops|
  {
    if ops != [] {
      ApplyGrows(u, pl, ops[0]);
      RunsGrow(u, Apply(u, pl, ops[0]), ops[1..], end);
    }
  }

  // ----- two readings -----

  /** The plant as it would be without the row. */
  function Without(pl: Plant, id: JobId): Plant {
    pl.(rows := pl.rows - {id})
  }

  /** A reading that is not refused makes a row of its own, of the device that its topic names. */
  lemma ReadingMakesRow(u: Setup, pl: Plant, topic: string, body: string, id: JobId, trace: seq<Header>)
    requires Keys.Ingest(u, pl, topic, body, id, trace).1.None?
    ensures Keys.TopicDevice(topic).Some? && id !in pl.rows
    ensures var after := Keys.Ingest(u, pl, topic, body, id, trace).0;
            after.rows.Keys == pl.rows.Keys + {id} &&
            after.rows[id].key == Keys.TelemetryKey(Keys.TopicDevice(topic).value, pl.now) &&
            after.rows[id].typ == TelemetryProcessing
  {
  }

  /**
   A first reading made a job; later, whatever ran in between, a second one comes that nothing but the first one's row
   could stand in the way of. It makes a job of its own if and only if it is of another device or of another minute;
   otherwise it is refused and changes nothing.
   */
  lemma TwoReadings(u: Setup, pl: Plant, topicA: string, bodyA: string, a: JobId, traceA: seq<Header>, ops: seq<Op>,
    later: Plant, topicB: string, bodyB: string, b: JobId, traceB: seq<Header>)
    requires pl.now >= 0 && later.now >= 0 && Keys.Ingest(u, pl, topicA, bodyA, a, traceA).1.None?
    requires Runs(u, Keys.Ingest(u, pl, topicA, bodyA, a, traceA).0, ops, later)
    requires b !in later.rows && Keys.Ingest(u, Without(later, a), topicB, bodyB, b, traceB).1.None?
    ensures var (after, err) := Keys.Ingest(u, later, topicB, bodyB, b, traceB);
            (err.None? <==> Keys.TopicDevice(topicA) != Keys.TopicDevice(topicB) ||
                            pl.now / 60_000_000_000 != later.now / 60_000_000_000) &&
            (err.None? ==> after.rows.Keys == later.rows.Keys + {b}) && (err.Some? ==> after == later)
  {
    ReadingMakesRow(u, pl, topicA, bodyA, a, traceA);
    RunsGrow(u, Keys.Ingest(u, pl, topicA, bodyA, a, traceA).0, ops, later);
    var d, e := Keys.TopicDevice(topicA).value, Keys.TopicDevice(topicB).value;
    Keys.SameMinuteIff(pl.now, later.now);
    Keys.BucketIs(pl.now);
    Keys.BucketIs(later.now);
    Keys.MinuteKeysCollide(d, Keys.Minute(pl.now), e, Keys.Minute(later.now));
    var key := Keys.TelemetryKey(e, later.now);
    assert !Taken(Without(later, a).rows, key, TelemetryProcessing);
    if Keys.TelemetryKey(d, pl.now) == key {
      assert Taken(later.rows, key, TelemetryProcessing);
    } else {
      assert !Taken(later.rows, key, TelemetryProcessing) by {
        forall id | id in later.rows ensures !(later.rows[id].key == key && later.rows[id].typ == TelemetryProcessing) {
          if id != a { assert id in Without(later, a).rows; }
        }
      }
    }
  }
}

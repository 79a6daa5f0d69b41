/**
 The processes themselves: submitter, handlers, worker, retry router and ingestion, each acting call by call on
 a shared database, cluster and clock. Every method is proved to do what the function of Serial says, so the
 theorems about serialised runs are about these loops.
 */
module Components {
  import opened Prelude
  import opened Jobs
  import opened Store
  import opened Broker
  import opened Serial
  import opened Postgres
  import opened Kafka
  import Backoff
  import Delays
  import Keys
  import Text

  /** What all processes share. `runs` remembers the handler runs; no process reads it. */
  class Site {
    const store: JobStore
    const kafka: Cluster
    const target: string -> Option<string>
    ghost var runs: seq<Ran>

    constructor (store: JobStore, kafka: Cluster, target: string -> Option<string>)
      ensures this.store == store && this.kafka == kafka && this.target == target && runs == []
    {
      this.store := store;
      this.kafka := kafka;
      this.target := target;
      runs := [];
    }

    function U(): Setup {
      Setup(kafka.route, target)
    }

    ghost function Now(): Plant
      reads this, store, kafka, store.clock
    {
      Plant(store.rows, store.devices, store.firmware, store.clock.now, kafka.parts, runs)
    }
  }

  /** Inserts a job, publishes it, marks it QUEUED; `id` is the primary key the database would draw. */
  method Submit(site: Site, typ: Type, device: string, key: string, payload: string, id: JobId, trace: seq<Header>)
    returns (err: Option<string>)
    modifies site.store`rows, site.kafka
    ensures (site.Now(), err) == Serial.Submit(site.U(), old(site.Now()), Request(typ, device, key, payload), id, trace)
    ensures err.None? ==>
      TierFor(typ).Some? && id in site.store.rows && site.store.rows[id].state == State.Queued &&
      Asked(Request(typ, device, key, payload), TierFor(typ).value, site.store.rows[id].(state := State.Accepted))
  {
    var tier := TierFor(typ);
    if tier.None? {
      return Some("tier");
    }
    var job := site.store.CreateJob(Request(typ, device, key, payload), tier.value, id);
    if job.None? {
      return Some("create job");
    }
    var msg := MessageFor(id, job.value, []);
    var ok := site.kafka.Publish(Main(tier.value), device, msg, trace);
    if !ok {
      return Some("publish");
    }
    ghost var before := old(site.store.rows);
    var queued := site.store.UpdateJobState(id, State.Queued, None);
    assert before[id := job.value][id := queued.value] == before[id := queued.value];
    return None;
  }

  // ----- handlers -----

  /** Pushes the firmware, records the attempt, and on success the device's new version. */
  method HandleFirmware(site: Site, m: Message, env: Env)
    returns (err: Option<string>, ghost entry: Option<FirmwareEntry>)
    requires m.typ == FirmwareUpdate
    modifies site.store`firmware, site.store`devices
    ensures (site.Now(), err, entry) == Handle(site.U(), old(site.Now()), m, env)
  {
    var target := site.target(m.payload);
    if target.None? {
      return Some("decode firmware payload"), None;
    }
    var pushErr := env.err;
    var applied := true;
    var reason: Option<string> := None;
    if pushErr.Some? {
      applied := false;
      reason := pushErr;
    }
    var row := FirmwareEntry(m.device, target.value, applied, reason);
    site.store.InsertFirmwareAttempt(row);
    if pushErr.None? {
      site.store.UpdateDeviceFirmware(m.device, target.value);
    }
    return pushErr, Some(row);
  }

  /** Polls the device; an unhealthy one raises an alert job under a key derived from this job. */
  method HandleHealthCheck(site: Site, m: Message, env: Env) returns (err: Option<string>)
    requires m.typ == HealthCheck
    modifies site.store`rows, site.store`devices, site.kafka
    ensures (site.Now(), err, None) == Handle(site.U(), old(site.Now()), m, env)
  {
    if env.err.Some? {
      return env.err;
    }
    site.store.TouchDevice(m.device);
    if env.healthy {
      return None;
    }
    err := Submit(site, AlertGeneration, m.device, AlertKey(m.id), env.alertPayload, env.alertId, env.trace);
  }

  /** The registry's handler for the message; the other three are the outcome of their external call. */
  method RunHandler(site: Site, m: Message, env: Env) returns (err: Option<string>, ghost entry: Option<FirmwareEntry>)
    modifies site.store`rows, site.store`firmware, site.store`devices, site.kafka
    ensures (site.Now(), err, entry) == Handle(site.U(), old(site.Now()), m, env)
  {
    if m.typ == FirmwareUpdate {
      err, entry := HandleFirmware(site, m, env);
    } else if m.typ == HealthCheck {
      err := HandleHealthCheck(site, m, env);
      entry := None;
    } else {
      err, entry := env.err, None;
    }
  }

  // ----- worker -----

  class Worker {
    const site: Site
    const tier: Tier

    constructor (site: Site, tier: Tier)
      ensures this.site == site && this.tier == tier
    {
      this.site := site;
      this.tier := tier;
    }

    /** The message is safe on the dead-letter topic before the row says FAILED. */
    method SendToDlq(m: Message, trace: seq<Header>, errMsg: string) returns (err: Option<string>)
      requires m.id in site.store.rows
      modifies site.store`rows, site.kafka
      ensures site.Now() == Serial.SendToDlq(site.U(), old(site.Now()), m, trace, errMsg)
      ensures err.None? <==> Routed(site.kafka.route, old(site.kafka.parts), Dlq, m.id)
      ensures err.Some? ==> err.value == "publish dlq" && site.Now() == old(site.Now())
    {
      var ok := site.kafka.Publish(Dlq, m.id, m, trace);
      if !ok {
        return Some("publish dlq");
      }
      var job := site.store.UpdateJobState(m.id, State.Failed, Some(errMsg));
      return None;
    }

    /** The retry is on its topic before the row says RETRY, and the attempt is charged last. */
    method SendToRetry(m: Message, attempt: int, env: Env, errMsg: string) returns (err: Option<string>)
      requires m.id in site.store.rows
      modifies site.store`rows, site.kafka
      ensures site.Now() == Serial.SendToRetry(site.U(), old(site.Now()), tier, m, attempt, env, errMsg)
      ensures err.None? <==> Routed(site.kafka.route, old(site.kafka.parts), RetryOf(tier), m.id)
      ensures err.Some? ==> site.Now() == old(site.Now())
      ensures err.None? && 1 <= attempt <= 15 && Backoff.Jitter(env.jitter) && Int64(old(site.Now()).now) ==>
        var q := site.kafka.route(RetryOf(tier), m.id);
        |site.kafka.parts[q].log| > 0 &&
        Delays.Window(attempt, old(site.Now()).now, site.kafka.parts[q].log[|site.kafka.parts[q].log| - 1].headers)
    {
      var retryAt := Backoff.NextAt(site.store.clock.now, attempt, env.jitter);
      var header := Header(RETRY_AT, Text.FormatInt(retryAt / SECOND));
      var ok := site.kafka.PublishWithHeader(RetryOf(tier), m.id, m, env.trace, header);
      if !ok {
        return Some("publish retry");
      }
      var job := site.store.UpdateJobState(m.id, State.Retry, Some(errMsg));
      job := site.store.IncrementJobAttempts(m.id);
      if 1 <= attempt <= 15 && Backoff.Jitter(env.jitter) && Int64(old(site.Now()).now) {
        Delays.RetryInWindow(env.trace, old(site.Now()).now, attempt, env.jitter);
      }
      return None;
    }

    /** Retry or dead-letter, decided on the attempts read before the run. */
    method Fail(job: Row, m: Message, env: Env, errMsg: string)
      requires m.id in site.store.rows
      modifies site.store`rows, site.kafka
      ensures site.Now() == Serial.Fail(site.U(), old(site.Now()), tier, m, job, env, errMsg)
    {
      var nextAttempt := job.attempts + 1;
      if nextAttempt >= job.maxAttempts {
        var dlqErr := SendToDlq(m, env.trace, errMsg);
      } else {
        var retryErr := SendToRetry(m, nextAttempt, env, errMsg);
      }
    }

    /** The handler run itself, noted in the ghost log. */
    method Execute(m: Message, env: Env) returns (err: Option<string>)
      modifies site`runs, site.store`rows, site.store`firmware, site.store`devices, site.kafka
      ensures var (h, e, entry) := Handle(site.U(), old(site.Now()), m, env);
              err == e && site.Now() == h.(runs := h.runs + [Ran(m.id, e.None?, entry)])
      ensures old(site.store.rows).Keys <= site.store.rows.Keys
    {
      ghost var entry;
      err, entry := RunHandler(site, m, env);
      site.runs := site.runs + [Ran(m.id, err.None?, entry)];
    }

    /** One message from fetch to decision. */
    method ProcessOne(m: Message, env: Env) returns (err: Option<string>)
      modifies site`runs, site.store`rows, site.store`firmware, site.store`devices, site.kafka
      ensures (site.Now(), err) == Serial.ProcessOne(site.U(), old(site.Now()), tier, m, env)
    {
      if m.tier != tier {
        return Some("misrouted");
      }
      var job := site.store.GetJob(m.id);
      if job.None? {
        return Some("get job");
      }
      if !HasHandler(m.typ) {
        err := SendToDlq(m, env.trace, "no handler");
        return;
      }
      ghost var before := site.Now();
      var running := site.store.UpdateJobState(m.id, State.Running, None);
      assert site.Now() == SetState(before, m.id, State.Running, None);
      err := Execute(m, env);
      ghost var ran := site.Now();
      if err.None? {
        var done := site.store.UpdateJobState(m.id, State.Success, None);
        assert site.Now() == SetState(ran, m.id, State.Success, None);
      } else {
        Fail(job.value, m, env, err.value);
      }
    }

    /** One turn of the consumer loop: whatever came of the message, its offset is committed. */
    method Poll(p: nat, env: Env)
      modifies site`runs, site.store`rows, site.store`firmware, site.store`devices, site.kafka
      ensures site.Now() == PollWork(site.U(), old(site.Now()), tier, Turn(p, env))
    {
      ghost var before := site.Now();
      var msg, off := site.kafka.FetchMessage(Main(tier), p);
      if msg.Some? {
        assert site.Now() == Fetched(before, p);
        var err := ProcessOne(msg.value, env);
        ghost var processed := site.Now();
        site.kafka.CommitMessage(p, off);
        assert site.Now() == Committed(processed, p, off);
      }
    }

    /** The consumer loop, one turn for each partition polled, until the context is cancelled. */
    method Run(turns: seq<Turn>)
      modifies site`runs, site.store`rows, site.store`firmware, site.store`devices, site.kafka
      ensures site.Now() == WorkAll(site.U(), old(site.Now()), tier, turns)
    {
      ghost var first := site.Now();
      var i := 0;
      while i < |turns|
        invariant 0 <= i <= |turns|
        invariant WorkAll(site.U(), first, tier, turns) == WorkAll(site.U(), site.Now(), tier, turns[i..])
      {
        ghost var before := site.Now();
        Poll(turns[i].p, turns[i].env);
        assert turns[i..][0] == turns[i] && turns[i..][1..] == turns[i + 1..];
        i := i + 1;
      }
    }
  }

  // ----- retry router -----

  /** Drains one tier's retry topic. */
  class Router {
    const site: Site
    const tier: Tier

    constructor (site: Site, tier: Tier)
      ensures this.site == site && this.tier == tier
    {
      this.site := site;
      this.tier := tier;
    }

    /** The last parseable retry-at header, or the time now. */
    method ReadRetryAt(headers: seq<Header>) returns (retryAt: int)
      ensures retryAt == RetryAt(headers, site.store.clock.now)
    {
      retryAt := site.store.clock.now;
      var i := 0;
      while i < |headers|
        invariant 0 <= i <= |headers| && retryAt == RetryAt(headers[..i], site.store.clock.now)
      {
        var h := headers[i];
        assert headers[..i + 1][..i] == headers[..i];
        i := i + 1;
        if h.key == RETRY_AT {
          var n := Text.ParseInt(h.value);
          if n.Some? {
            retryAt := n.value * SECOND;
          }
        }
      }
      assert headers[..i] == headers;
    }

    /** One turn: wait for the retry instant, republish under the same key, commit only if that worked. */
    method Poll(p: nat, trace: seq<Header>)
      modifies site.kafka, site.store.clock
      ensures site.Now() == PollForward(site.U(), old(site.Now()), tier, Hop(p, trace))
    {
      ghost var before := site.Now();
      var msg, off := site.kafka.FetchMessage(RetryOf(tier), p);
      if msg.None? {
        return;
      }
      assert site.Now() == Fetched(before, p);
      var retryAt := ReadRetryAt(msg.value.headers);
      site.store.clock.SleepUntil(retryAt);
      ghost var ready := site.Now();
      assert ready == Awaited(Fetched(before, p), msg.value);
      var ok := site.kafka.Publish(Main(tier), msg.value.key, msg.value, trace);
      if !ok {
        return;
      }
      ghost var sent := site.Now();
      site.kafka.CommitMessage(p, off);
      assert site.Now() == Committed(sent, p, off);
    }

    method Drain(hops: seq<Hop>)
      modifies site.kafka, site.store.clock
      ensures site.Now() == ForwardAll(site.U(), old(site.Now()), tier, hops)
    {
      ghost var first := site.Now();
      var i := 0;
      while i < |hops|
        invariant 0 <= i <= |hops|
        invariant ForwardAll(site.U(), first, tier, hops) == ForwardAll(site.U(), site.Now(), tier, hops[i..])
      {
        Poll(hops[i].p, hops[i].trace);
        assert hops[i..][0] == hops[i] && hops[i..][1..] == hops[i + 1..];
        i := i + 1;
      }
    }
  }

  // ----- ingestion -----

  /** One MQTT message becomes one telemetry job per device and minute. */
  method HandleMessage(site: Site, topic: string, body: string, id: JobId, trace: seq<Header>)
    returns (err: Option<string>)
    modifies site.store`rows, site.kafka
    ensures (site.Now(), err) == Keys.Ingest(site.U(), old(site.Now()), topic, body, id, trace)
    ensures err.None? ==> id in site.store.rows
    ensures err.None? ==>
      exists d, m :: topic == Keys.Slashed("devices", d, "telemetry") && Keys.InMinute(m, old(site.Now()).now) &&
        site.store.rows[id].device == d && site.store.rows[id].key == "mqtt-" + (d + "-" + Text.FormatInt(m))
  {
    var parts := Keys.Split(topic);
    if |parts| != 3 || parts[0] != "devices" || parts[2] != "telemetry" {
      return Some("unexpected topic");
    }
    var device := parts[1];
    var key := Keys.MinuteKey(device, Keys.Minute(site.store.clock.now));
    Keys.TopicNamesDevice(topic, device);
    Keys.MinuteIsInMinute(Keys.Minute(site.store.clock.now), site.store.clock.now);
    err := Submit(site, TelemetryProcessing, device, key, body, id, trace);
  }

  /** A partition polled, and what the outside world answers if it holds a message. */
  datatype Turn = Turn(p: nat, env: Env)

  predicate Polls(pl: Plant, t: Topic, p: nat) {
    Readable(pl, p) && pl.parts[p].topic == t
  }

  function PollWork(u: Setup, pl: Plant, tier: Tier, turn: Turn): Plant {
    if Polls(pl, Main(tier), turn.p) then Work(u, pl, turn.p, turn.env) else pl
  }

  function WorkAll(u: Setup, pl: Plant, tier: Tier, turns: seq<Turn>): Plant
    decreases |turns|
  {
    if turns == [] then pl else WorkAll(u, PollWork(u, pl, tier, turns[0]), tier, turns[1..])
  }

  /** A retry partition polled, and the trace context its republish carries. */
  datatype Hop = Hop(p: nat, trace: seq<Header>)

  function PollForward(u: Setup, pl: Plant, tier: Tier, hop: Hop): Plant {
    if Polls(pl, RetryOf(tier), hop.p) then Forward(u, pl, hop.p, hop.trace) else pl
  }

  function ForwardAll(u: Setup, pl: Plant, tier: Tier, hops: seq<Hop>): Plant
    decreases |hops|
  {
    if hops == [] then pl else ForwardAll(u, PollForward(u, pl, tier, hops[0]), tier, hops[1..])
  }

  // ----- the loops are schedules -----

  /** Whatever a worker's loop does is a schedule of worker turns, so it has every property of serialised runs. */
  lemma {:induction false} WorkerLoopIsSchedule(u: Setup, pl: Plant, tier: Tier, turns: seq<Turn>)
    returns (ops: seq<Op>)
    ensures Runs(u, pl, ops, WorkAll(u, pl, tier, turns)) && forall i :: 0 <= i < |ops| ==> ops[i].Working?
    decreases |turns|
  {
    if turns == [] {
      ops := [];
    } else {
      ops := WorkerLoopIsSchedule(u, PollWork(u, pl, tier, turns[0]), tier, turns[1..]);
      if Polls(pl, Main(tier), turns[0].p) {
        var op := Working(turns[0].p, turns[0].env);
        assert ([op] + ops)[1..] == ops;
        ops := [op] + ops;
      }
    }
  }

  lemma {:induction false} RouterLoopIsSchedule(u: Setup, pl: Plant, tier: Tier, hops: seq<Hop>) returns (ops: seq<Op>)
    ensures Runs(u, pl, ops, ForwardAll(u, pl, tier, hops)) && forall i :: 0 <= i < |ops| ==> ops[i].Forwarding?
    decreases |hops|
  {
    if hops == [] {
      ops := [];
    } else {
      ops := RouterLoopIsSchedule(u, PollForward(u, pl, tier, hops[0]), tier, hops[1..]);
      if Polls(pl, RetryOf(tier), hops[0].p) {
        var op := Forwarding(hops[0].p, hops[0].trace);
        assert ([op] + ops)[1..] == ops;
        ops := [op] + ops;
      }
    }
  }
}

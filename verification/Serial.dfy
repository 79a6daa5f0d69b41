/**
 The platform one whole operation at a time: a submission, the processing of one message, one router
 iteration. These functions say what the imperative components compute; the theorems about whole runs are
 in Pipeline, Drain and Firmware.
 */
module Serial {
  import opened Prelude
  import opened Jobs
  import opened Store
  import opened Broker
  import Backoff

  datatype Device = Device(version: Option<string>, lastSeen: Option<int>)

  datatype FirmwareEntry = FirmwareEntry(device: string, target: string, applied: bool, reason: Option<string>)

  /** One handler invocation: which job, whether it succeeded, and the history row it inserted, if any. */
  datatype Ran = Ran(id: JobId, ok: bool, entry: Option<FirmwareEntry>)

  /** Message placement, and the decoding of a firmware payload into its target version. */
  datatype Setup = Setup(route: Route, target: string -> Option<string>)

  datatype Plant = Plant(
    rows: Table, devices: map<string, Device>, firmware: seq<FirmwareEntry>, now: int, parts: seq<Part>, runs: seq<Ran>)

  /** What the outside world answers while one message is processed. */
  datatype Env = Env(
    err: Option<string>, healthy: bool, alertId: JobId, alertPayload: string, jitter: real, trace: seq<Header>)

  // ----- submission: insert, publish, mark QUEUED -----

  function Submit(u: Setup, pl: Plant, q: Request, id: JobId, trace: seq<Header>): (Plant, Option<string>) {
    if TierFor(q.typ).None? then (pl, Some("tier"))
    else if !CanInsert(pl.rows, pl.devices.Keys, q, id) then (pl, Some("create job"))
    else
      var r := NewRow(q, TierFor(q.typ).value);
      var inserted := pl.(rows := pl.rows[id := r]);
      if !Routed(u.route, pl.parts, Main(r.tier), q.device) then (inserted, Some("publish"))
      else (inserted.(rows := pl.rows[id := WithState(r, Queued, None, pl.now)],
                      parts := Append(u.route, pl.parts, Main(r.tier), MessageFor(id, r, trace))), None)
  }

  /**
   A submission without an error: its row carries what was asked for and reads QUEUED, and its message is the last of
   the partition that the device chooses on its tier's main topic.
   */
  lemma SubmitDelivers(u: Setup, pl: Plant, q: Request, id: JobId, trace: seq<Header>)
    requires Submit(u, pl, q, id, trace).1.None?
    ensures id !in pl.rows && TierFor(q.typ).Some?
    ensures var b := Submit(u, pl, q, id, trace).0;
            var tier := TierFor(q.typ).value;
            var p := u.route(Main(tier), q.device);
            b.rows.Keys == pl.rows.Keys + {id} && b.rows[id].state == Queued &&
            Asked(q, tier, b.rows[id].(state := Accepted)) && (forall j :: j in pl.rows ==> b.rows[j] == pl.rows[j]) &&
            p < |pl.parts| && pl.parts[p].topic == Main(tier) &&
            b.parts == pl.parts[p := pl.parts[p].(log := pl.parts[p].log +
              [Message(q.device, id, q.typ, tier, q.device, b.rows[id].payload, trace)])] &&
            b.devices == pl.devices && b.now == pl.now && b.runs == pl.runs && b.firmware == pl.firmware
  {
  }

  // ----- handlers -----

  /** Follow-up alerts carry a key derived from the health check's job id. */
  function AlertKey(id: JobId): string {
    "alert-from-" + id
  }

  function Touch(devices: map<string, Device>, d: string, now: int): map<string, Device> {
    if d in devices then devices[d := devices[d].(lastSeen := Some(now))] else devices
  }

  function SetVersion(devices: map<string, Device>, d: string, v: string): map<string, Device> {
    if d in devices then devices[d := devices[d].(version := Some(v))] else devices
  }

  /** The job's own handler; telemetry, alert and remote-command handlers are the outcome of their external call. */
  function Handle(u: Setup, pl: Plant, m: Message, env: Env): (Plant, Option<string>, Option<FirmwareEntry>) {
    match m.typ
    case FirmwareUpdate =>
      var target := u.target(m.payload);
      if target.None? then (pl, Some("decode firmware payload"), None) else
      var entry := FirmwareEntry(m.device, target.value, env.err.None?, env.err);
      var logged := pl.(firmware := pl.firmware + [entry]);
      var after :=
        if env.err.None? then logged.(devices := SetVersion(pl.devices, m.device, target.value)) else logged;
      (after, env.err, Some(entry))
    case HealthCheck =>
      if env.err.Some? then (pl, env.err, None) else
      var touched := pl.(devices := Touch(pl.devices, m.device, pl.now));
      if env.healthy then (touched, None, None) else
      var q := Request(AlertGeneration, m.device, AlertKey(m.id), env.alertPayload);
      var (after, err) := Submit(u, touched, q, env.alertId, env.trace);
      (after, err, None)
    case _ => (pl, env.err, None)
  }

  /**
   An unhealthy device raises an alert: a job of its own for this device, under a key that names this check, with the
   payload the handler made. A healthy one raises nothing.
   */
  lemma AlertIsRaised(u: Setup, pl: Plant, m: Message, env: Env)
    requires m.typ == HealthCheck && Handle(u, pl, m, env).1.None?
    ensures var h := Handle(u, pl, m, env).0;
            if env.healthy then h.rows == pl.rows && h.parts == pl.parts
            else env.alertId !in pl.rows && h.rows.Keys == pl.rows.Keys + {env.alertId} &&
                 h.rows[env.alertId].typ == AlertGeneration && h.rows[env.alertId].device == m.device &&
                 h.rows[env.alertId].key == "alert-from-" + m.id &&
                 h.rows[env.alertId].payload == (if |env.alertPayload| > 0 then env.alertPayload else "{}")
  {
    if !env.healthy {
      var touched := pl.(devices := Touch(pl.devices, m.device, pl.now));
      var q := Request(AlertGeneration, m.device, AlertKey(m.id), env.alertPayload);
      SubmitDelivers(u, touched, q, env.alertId, env.trace);
    }
  }

  // ----- processing one message -----

  function SetState(pl: Plant, id: JobId, st: State, err: Option<string>): Plant {
    if id in pl.rows then pl.(rows := pl.rows[id := WithState(pl.rows[id], st, err, pl.now)]) else pl
  }

  function BumpAttempts(pl: Plant, id: JobId): Plant {
    if id in pl.rows then pl.(rows := pl.rows[id := WithAttempt(pl.rows[id])]) else pl
  }

  /** Publish to the dead-letter topic, then mark FAILED; a failed publish leaves the row alone. */
  function SendToDlq(u: Setup, pl: Plant, m: Message, trace: seq<Header>, err: string): Plant {
    if !Routed(u.route, pl.parts, Dlq, m.id) then pl
    else
      var sent := pl.(parts := Append(u.route, pl.parts, Dlq, m.(key := m.id, headers := trace)));
      SetState(sent, m.id, Failed, Some(err))
  }

  /** Publish to the tier's retry topic with the retry instant, then mark RETRY and count the attempt. */
  function SendToRetry(u: Setup, pl: Plant, tier: Tier, m: Message, attempt: int, env: Env, err: string): Plant {
    if !Routed(u.route, pl.parts, RetryOf(tier), m.id) then pl
    else
      var headers := RetryHeaders(env.trace, Backoff.NextAt(pl.now, attempt, env.jitter));
      var sent := pl.(parts := Append(u.route, pl.parts, RetryOf(tier), m.(key := m.id, headers := headers)));
      BumpAttempts(SetState(sent, m.id, Retry, Some(err)), m.id)
  }

  /** The retry or dead-letter decision, taken on the attempts read before the run. */
  function Fail(u: Setup, pl: Plant, tier: Tier, m: Message, job: Row, env: Env, err: string): Plant {
    if job.attempts + 1 >= job.maxAttempts then SendToDlq(u, pl, m, env.trace, err)
    else SendToRetry(u, pl, tier, m, job.attempts + 1, env, err)
  }

  function ProcessOne(u: Setup, pl: Plant, tier: Tier, m: Message, env: Env): (Plant, Option<string>) {
    if m.tier != tier then (pl, Some("misrouted"))
    else if m.id !in pl.rows then (pl, Some("get job"))
    else if !HasHandler(m.typ) then
      (SendToDlq(u, pl, m, env.trace, "no handler"),
       if Routed(u.route, pl.parts, Dlq, m.id) then None else Some("publish dlq"))
    else
      var job := pl.rows[m.id];
      var (handled, err, entry) := Handle(u, SetState(pl, m.id, Running, None), m, env);
      var ran := handled.(runs := handled.runs + [Ran(m.id, err.None?, entry)]);
      if err.None? then (SetState(ran, m.id, Success, None), None)
      else (Fail(u, ran, tier, m, job, env, err.value), err)
  }

  // ----- readers -----

  predicate Readable(pl: Plant, p: nat) {
    p < |pl.parts| && pl.parts[p].pos < |pl.parts[p].log|
  }

  function Fetched(pl: Plant, p: nat): Plant
    requires Readable(pl, p)
  {
    pl.(parts := pl.parts[p := pl.parts[p].(pos := pl.parts[p].pos + 1)])
  }

  function Head(pl: Plant, p: nat): Message
    requires Readable(pl, p)
  {
    pl.parts[p].log[pl.parts[p].pos]
  }

  function Committed(pl: Plant, p: nat, off: nat): Plant {
    if p < |pl.parts| then pl.(parts := pl.parts[p := pl.parts[p].(committed := off + 1)]) else pl
  }

  /** One turn of the worker loop on partition `p`: fetch, process, commit whatever came of it. */
  function Work(u: Setup, pl: Plant, p: nat, env: Env): Plant
    requires Readable(pl, p) && pl.parts[p].topic.Main?
  {
    Committed(ProcessOne(u, Fetched(pl, p), pl.parts[p].topic.tier, Head(pl, p), env).0, p, pl.parts[p].pos)
  }

  /** Wait until the retry instant. */
  function Awaited(pl: Plant, m: Message): Plant {
    pl.(now := if pl.now < RetryAt(m.headers, pl.now) then RetryAt(m.headers, pl.now) else pl.now)
  }

  /** One turn of the router loop: fetch, wait, republish under the same key, commit; a failed republish is skipped. */
  function Forward(u: Setup, pl: Plant, p: nat, trace: seq<Header>): Plant
    requires Readable(pl, p) && pl.parts[p].topic.RetryOf?
  {
    var m := Head(pl, p);
    var t := Main(pl.parts[p].topic.tier);
    var ready := Awaited(Fetched(pl, p), m);
    if !Routed(u.route, ready.parts, t, m.key) then ready
    else Committed(ready.(parts := Append(u.route, ready.parts, t, m.(headers := trace))), p, pl.parts[p].pos)
  }

  // ----- schedules -----

  datatype Op =
    | Submitting(q: Request, id: JobId, trace: seq<Header>)
    | Working(p: nat, env: Env)
    | Forwarding(p: nat, trace: seq<Header>)
    | Waiting(d: nat)

  predicate Enabled(pl: Plant, op: Op) {
    match op
    case Submitting(_, _, _) => true
    case Working(p, _) => Readable(pl, p) && pl.parts[p].topic.Main?
    case Forwarding(p, _) => Readable(pl, p) && pl.parts[p].topic.RetryOf?
    case Waiting(_) => true
  }

  function Apply(u: Setup, pl: Plant, op: Op): Plant
    requires Enabled(pl, op)
  {
    match op
    case Submitting(q, id, trace) => Submit(u, pl, q, id, trace).0
    case Working(p, env) => Work(u, pl, p, env)
    case Forwarding(p, trace) => Forward(u, pl, p, trace)
    case Waiting(d) => pl.(now := pl.now + d)
  }

  /** `ops` is a schedule from `pl` to `end`: every operation is enabled when its turn comes. */
  predicate Runs(u: Setup, pl: Plant, ops: seq<Op>, end: Plant)
    decreases |ops|
  {
    if ops == [] then pl == end else Enabled(pl, ops[0]) && Runs(u, Apply(u, pl, ops[0]), ops[1..], end)
  }

  /** Every consumed topic has been read to its end. */
  predicate Drained(pl: Plant) {
    forall p :: 0 <= p < |pl.parts| && !pl.parts[p].topic.Dlq? ==> pl.parts[p].pos >= |pl.parts[p].log|
  }

  /** A fresh plant: no jobs, empty logs, no history. */
  predicate Fresh(pl: Plant) {
    pl.rows == map[] && pl.firmware == [] && pl.runs == [] &&
    forall p :: 0 <= p < |pl.parts| ==> pl.parts[p].log == [] && pl.parts[p].pos == 0
  }

  /**
   A retry published at `sent` is republished inside its documented window, whatever the jitter and the trace headers:
   never earlier than half the base delay less the second lost to truncation, and never held beyond one and a half
   times it.
   */
  lemma RetryWaitsItsDelay(pl: Plant, m: Message, trace: seq<Header>, sent: int, attempt: nat, jitter: real)
    requires 1 <= attempt <= 15 && Backoff.Jitter(jitter) && Int64(Backoff.NextAt(sent, attempt, jitter) / SECOND)
    requires m.headers == RetryHeaders(trace, Backoff.NextAt(sent, attempt, jitter))
    ensures var now := Awaited(pl, m).now;
            now >= pl.now && 2 * (now + SECOND) > 2 * sent + Backoff.Pow5(attempt - 1) * SECOND &&
            (now > pl.now ==> 2 * now < 2 * sent + 3 * Backoff.Pow5(attempt - 1) * SECOND)
  {
    Backoff.WindowIffNoWrap(attempt, jitter);
    RetryAtRoundTrip(trace, Backoff.NextAt(sent, attempt, jitter), pl.now);
  }
}

/**
 Termination of the whole system. A natural number built from each waiting message's remaining attempts, its
 topic, and the alert a health check may still spawn falls at every turn of every worker and router, so with
 no new submissions every schedule ends, and it can only end with all topics drained.
 */
module Drain {
  import opened Prelude
  import opened Jobs
  import opened Store
  import opened Broker
  import opened Serial
  import opened Routing
  import Pipeline
  import Backoff

  /** What an alert job costs when it enters the main topic. */
  const ALERT: nat := 2 * MAX_ATTEMPTS - 1

  /** Turns a message on the main topic can still cause: a run and a forward for each attempt but the last. */
  function OnMainCost(rows: Table, m: Message): nat {
    (if m.id in rows && rows[m.id].attempts < rows[m.id].maxAttempts
     then 2 * (rows[m.id].maxAttempts - rows[m.id].attempts) - 1 else 1) +
    (if m.typ == HealthCheck then ALERT else 0)
  }

  function OnMainOf(rows: Table): Message -> nat {
    (m: Message) => OnMainCost(rows, m)
  }

  function OnRetryOf(rows: Table): Message -> nat {
    (m: Message) => OnMainCost(rows, m) + 1
  }

  /** The cost of one partition's unread messages. */
  function PartCost(rows: Table): Part -> nat {
    (q: Part) =>
      if q.topic.Main? then Unread(q, OnMainOf(rows)) else if q.topic.RetryOf? then Unread(q, OnRetryOf(rows)) else 0
  }

  function Fuel(pl: Plant): nat {
    Count(pl.parts, PartCost(pl.rows))
  }

  ghost predicate Sound(u: Setup, pl: Plant) {
    Pipeline.Sound(u, pl)
  }

  /** More attempts used up can only lower the cost of messages whose rows exist. */
  lemma GrowthCostsNothing(rows: Table, more: Table, parts: seq<Part>)
    requires LogsOk(rows, parts) && Grows(rows, more)
    ensures Count(parts, PartCost(more)) <= Count(parts, PartCost(rows))
  {
    forall p | 0 <= p < |parts| ensures PartCost(more)(parts[p]) <= PartCost(rows)(parts[p]) {
      var q := parts[p];
      assert PartOk(rows, q);
      if q.pos <= |q.log| {
        var log := q.log[q.pos..];
        forall i | 0 <= i < |log| ensures OnMainOf(more)(log[i]) <= OnMainOf(rows)(log[i]) {
          assert log[i] == q.log[q.pos + i];
        }
        CountMono(log, log, OnMainOf(more), OnMainOf(rows));
        CountMono(log, log, OnRetryOf(more), OnRetryOf(rows));
      }
    }
    CountMono(parts, parts, PartCost(more), PartCost(rows));
  }

  lemma AppendCost(route: Route, parts: seq<Part>, t: Topic, m: Message, rows: Table)
    requires Positioned(parts) && Routed(route, parts, t, m.key)
    ensures Count(Append(route, parts, t, m), PartCost(rows)) ==
            Count(parts, PartCost(rows)) + (if t.Dlq? then 0 else OnMainCost(rows, m) + if t.RetryOf? then 1 else 0)
  {
    var i := route(t, m.key);
    CountUpdate(parts, i, parts[i].(log := parts[i].log + [m]), PartCost(rows));
    UnreadAfterAppend(parts[i], m, OnMainOf(rows));
    UnreadAfterAppend(parts[i], m, OnRetryOf(rows));
  }

  lemma FetchCost(pl: Plant, p: nat)
    requires Readable(pl, p) && !pl.parts[p].topic.Dlq?
    ensures var extra := if pl.parts[p].topic.RetryOf? then 1 else 0;
            Fuel(Fetched(pl, p)) + OnMainCost(pl.rows, Head(pl, p)) + extra == Fuel(pl)
  {
    UnreadAfterFetch(pl.parts[p], OnMainOf(pl.rows));
    UnreadAfterFetch(pl.parts[p], OnRetryOf(pl.rows));
    CountUpdate(pl.parts, p, pl.parts[p].(pos := pl.parts[p].pos + 1), PartCost(pl.rows));
  }

  lemma SameReadsCost(a: seq<Part>, b: seq<Part>, rows: Table)
    requires |a| == |b|
    requires forall p :: 0 <= p < |a| ==> a[p].topic == b[p].topic && a[p].log == b[p].log && a[p].pos == b[p].pos
    ensures Count(a, PartCost(rows)) == Count(b, PartCost(rows))
  {
    CountMono(a, b, PartCost(rows), PartCost(rows));
    CountMono(b, a, PartCost(rows), PartCost(rows));
  }

  // ----- pieces of processing -----

  lemma RowsCost(u: Setup, pl: Plant, rows: Table)
    requires Sound(u, pl) && Grows(pl.rows, rows) && RowsTyped(rows)
    ensures Sound(u, pl.(rows := rows)) && Fuel(pl.(rows := rows)) <= Fuel(pl)
  {
    Pipeline.GrowStays(u, pl, rows);
    GrowthCostsNothing(pl.rows, rows, pl.parts);
  }

  lemma StateCost(u: Setup, pl: Plant, id: JobId, st: State, err: Option<string>)
    requires Sound(u, pl)
    ensures Sound(u, SetState(pl, id, st, err)) && Fuel(SetState(pl, id, st, err)) <= Fuel(pl)
    ensures Grows(pl.rows, SetState(pl, id, st, err).rows)
  {
    if id in pl.rows {
      SetGrows(pl.rows, id, WithState(pl.rows[id], st, err, pl.now));
      RowsCost(u, pl, SetState(pl, id, st, err).rows);
    }
  }

  lemma SubmitCost(u: Setup, pl: Plant, q: Request, id: JobId, trace: seq<Header>)
    requires Sound(u, pl)
    ensures var (b, err) := Submit(u, pl, q, id, trace);
            Sound(u, b) && Grows(pl.rows, b.rows) &&
            (err.Some? ==> Fuel(b) <= Fuel(pl)) && (err.None? && q.typ != HealthCheck ==> Fuel(b) <= Fuel(pl) + ALERT)
  {
    Pipeline.SubmitSound(u, pl, q, id, trace);
    if TierFor(q.typ).Some? && CanInsert(pl.rows, pl.devices.Keys, q, id) {
      var r := NewRow(q, TierFor(q.typ).value);
      var rows := pl.rows[id := WithState(r, Queued, None, pl.now)];
      assert Routed(u.route, pl.parts, Main(r.tier), q.device);
      GrowthCostsNothing(pl.rows, rows, pl.parts);
      AppendCost(u.route, pl.parts, Main(r.tier), MessageFor(id, r, trace), rows);
    }
  }

  lemma HandleCost(u: Setup, pl: Plant, m: Message, env: Env)
    requires Sound(u, pl)
    ensures var (b, err, _) := Handle(u, pl, m, env);
            Sound(u, b) && Grows(pl.rows, b.rows) &&
            Fuel(b) <= Fuel(pl) + (if err.None? && m.typ == HealthCheck then ALERT else 0)
  {
    if m.typ == HealthCheck && env.err.None? && !env.healthy {
      var touched := pl.(devices := Touch(pl.devices, m.device, pl.now));
      SubmitCost(u, touched, Request(AlertGeneration, m.device, AlertKey(m.id), env.alertPayload), env.alertId,
        env.trace);
    }
  }

  lemma BuryCost(u: Setup, pl: Plant, m: Message, trace: seq<Header>, err: string)
    requires Sound(u, pl) && Faithful(pl.rows, m)
    ensures Sound(u, SendToDlq(u, pl, m, trace, err)) && Fuel(SendToDlq(u, pl, m, trace, err)) <= Fuel(pl)
  {
    var c := m.(key := m.id, headers := trace);
    assert Routed(u.route, pl.parts, Dlq, m.id);
    Pipeline.AppendStays(u, pl, Dlq, c);
    AppendCost(u.route, pl.parts, Dlq, c, pl.rows);
    StateCost(u, pl.(parts := Append(u.route, pl.parts, Dlq, c)), m.id, Failed, Some(err));
  }

  /** A retry costs one turn less than the run it follows. */
  lemma RetryCost(u: Setup, pl: Plant, tier: Tier, m: Message, attempt: int, env: Env, err: string)
    requires Sound(u, pl) && Faithful(pl.rows, m) && m.tier == tier
    requires pl.rows[m.id].attempts + 1 < pl.rows[m.id].maxAttempts
    ensures var b := SendToRetry(u, pl, tier, m, attempt, env, err);
            Sound(u, b) && Fuel(b) < Fuel(pl) + OnMainCost(pl.rows, m)
  {
    var c := m.(key := m.id, headers := RetryHeaders(env.trace, Backoff.NextAt(pl.now, attempt, env.jitter)));
    assert Routed(u.route, pl.parts, RetryOf(tier), m.id);
    Pipeline.AppendStays(u, pl, RetryOf(tier), c);
    var sent := pl.(parts := Append(u.route, pl.parts, RetryOf(tier), c));
    var marked := SetState(sent, m.id, Retry, Some(err));
    StateCost(u, sent, m.id, Retry, Some(err));
    var rows := BumpAttempts(marked, m.id).rows;
    Pipeline.GrowStays(u, marked, rows);
    GrowthCostsNothing(pl.rows, rows, pl.parts);
    AppendCost(u.route, pl.parts, RetryOf(tier), c, rows);
  }

  lemma ProcessCost(u: Setup, pl: Plant, tier: Tier, m: Message, env: Env)
    requires Sound(u, pl) && Faithful(pl.rows, m) && m.tier == tier
    ensures var b := ProcessOne(u, pl, tier, m, env).0; Sound(u, b) && Fuel(b) < Fuel(pl) + OnMainCost(pl.rows, m)
  {
    RegistryIsTotalOnValid(m.typ);
    var running := SetState(pl, m.id, Running, None);
    StateCost(u, pl, m.id, Running, None);
    HandleCost(u, running, m, env);
    var (handled, err, entry) := Handle(u, running, m, env);
    var ran := handled.(runs := handled.runs + [Ran(m.id, err.None?, entry)]);
    if err.None? {
      StateCost(u, ran, m.id, Success, None);
    } else if pl.rows[m.id].attempts + 1 >= pl.rows[m.id].maxAttempts {
      BuryCost(u, ran, m, env.trace, err.value);
    } else {
      HandleSameRow(u, running, m, env);
      RetryCost(u, ran, tier, m, pl.rows[m.id].attempts + 1, env, err.value);
    }
  }

  lemma HandleSameRow(u: Setup, pl: Plant, m: Message, env: Env)
    requires m.id in pl.rows
    ensures m.id in Handle(u, pl, m, env).0.rows && Handle(u, pl, m, env).0.rows[m.id] == pl.rows[m.id]
  {
  }

  // ----- turns -----

  /** A turn of a worker or a router; submissions and waiting are not turns. */
  predicate IsTurn(op: Op) {
    op.Working? || op.Forwarding?
  }

  /** Offsets and clocks cost nothing. */
  lemma SoundRereads(u: Setup, a: Plant, b: Plant)
    requires Sound(u, a) && b.rows == a.rows && |b.parts| == |a.parts|
    requires forall p :: 0 <= p < |a.parts| ==>
      b.parts[p].topic == a.parts[p].topic && b.parts[p].log == a.parts[p].log && b.parts[p].pos == a.parts[p].pos
    ensures Sound(u, b) && Fuel(b) == Fuel(a)
  {
    SameReadsCost(a.parts, b.parts, a.rows);
    forall p | 0 <= p < |b.parts| ensures PartOk(b.rows, b.parts[p]) {
      assert PartOk(a.rows, a.parts[p]);
    }
    forall t, key ensures Routed(u.route, b.parts, t, key) {
      assert Routed(u.route, a.parts, t, key);
    }
  }

  lemma WorkTurn(u: Setup, pl: Plant, p: nat, env: Env)
    requires Sound(u, pl) && Readable(pl, p) && pl.parts[p].topic.Main?
    ensures Sound(u, Work(u, pl, p, env)) && Fuel(Work(u, pl, p, env)) < Fuel(pl)
  {
    Pipeline.FetchSound(u, pl, p);
    FetchCost(pl, p);
    ProcessCost(u, Fetched(pl, p), pl.parts[p].topic.tier, Head(pl, p), env);
    SoundRereads(u, ProcessOne(u, Fetched(pl, p), pl.parts[p].topic.tier, Head(pl, p), env).0, Work(u, pl, p, env));
  }

  lemma ForwardTurn(u: Setup, pl: Plant, p: nat, trace: seq<Header>)
    requires Sound(u, pl) && Readable(pl, p) && pl.parts[p].topic.RetryOf?
    ensures Sound(u, Forward(u, pl, p, trace)) && Fuel(Forward(u, pl, p, trace)) < Fuel(pl)
  {
    Pipeline.FetchSound(u, pl, p);
    FetchCost(pl, p);
    var m := Head(pl, p);
    var t := Main(pl.parts[p].topic.tier);
    var f := Fetched(pl, p);
    var c := m.(headers := trace);
    assert Routed(u.route, f.parts, t, m.key);
    Pipeline.AppendStays(u, f, t, c);
    AppendCost(u.route, f.parts, t, c, f.rows);
    SoundRereads(u, f.(parts := Append(u.route, f.parts, t, c)), Forward(u, pl, p, trace));
  }

  /** Every turn burns fuel, in any plant whose messages have their rows, reachable or not. */
  lemma TurnBurnsFuel(u: Setup, pl: Plant, op: Op)
    requires Sound(u, pl) && IsTurn(op) && Enabled(pl, op)
    ensures Sound(u, Apply(u, pl, op)) && Fuel(Apply(u, pl, op)) < Fuel(pl)
  {
    match op
    case Working(p, env) => WorkTurn(u, pl, p, env);
    case Forwarding(p, trace) => ForwardTurn(u, pl, p, trace);
  }

  // ----- the theorems -----

  /** No schedule of turns is longer than the fuel it starts with. */
  lemma {:induction false} SchedulesAreBounded(u: Setup, pl: Plant, ops: seq<Op>, end: Plant)
    requires Sound(u, pl) && Runs(u, pl, ops, end) && forall i :: 0 <= i < |ops| ==> IsTurn(ops[i])
    ensures |ops| + Fuel(end) <= Fuel(pl) && Sound(u, end)
    decreases |ops|
  {
    if ops != [] {
      assert IsTurn(ops[0]);
      TurnBurnsFuel(u, pl, ops[0]);
      SchedulesAreBounded(u, Apply(u, pl, ops[0]), ops[1..], end);
    }
  }

  /** A plant in which no turn is possible is drained, and the other way round. */
  lemma StuckIffDrained(pl: Plant)
    ensures Drained(pl) <==> !exists op :: IsTurn(op) && Enabled(pl, op)
  {
    if !Drained(pl) {
      var p :| 0 <= p < |pl.parts| && !pl.parts[p].topic.Dlq? && pl.parts[p].pos < |pl.parts[p].log|;
      var env := Env(None, true, "", "", 1.0, []);
      assert Enabled(pl, if pl.parts[p].topic.Main? then Working(p, env) else Forwarding(p, []));
      assert IsTurn(if pl.parts[p].topic.Main? then Working(p, env) else Forwarding(p, []));
    }
  }

  /** FAILED with exactly one dead letter, or SUCCESS with none and a last run that succeeded. */
  predicate Decided(pl: Plant, j: JobId) {
    j in pl.rows &&
    var rs := Pipeline.Results(pl.runs, j);
    (pl.rows[j].state == Failed && Pipeline.Buried(pl.parts, j) == 1 && Pipeline.AllFailed(rs)) ||
    (pl.rows[j].state == Success && Pipeline.Buried(pl.parts, j) == 0 && rs != [] && rs[|rs| - 1])
  }

  /** With every topic drained, every job is terminal, with its one dead letter or its recorded success. */
  lemma DrainedIsSettled(u: Setup, pl: Plant, j: JobId)
    requires Pipeline.Inv(u, pl) && Drained(pl) && j in pl.rows
    ensures Decided(pl, j)
  {
    Pipeline.DrainedMeansSettled(pl, j);
    assert Pipeline.JobOk(pl, j);
  }

  /**
   From any plant the system can reach, turns in any order come to an end within the fuel; when none is left
   every topic is drained and every job is FAILED with its one dead letter, or SUCCESS after a run that succeeded.
   */
  lemma EveryRunEndsSettled(u: Setup, start: Plant, before: seq<Op>, pl: Plant, ops: seq<Op>, end: Plant)
    requires Fresh(start) && Wired(u.route, start.parts) && Runs(u, start, before, pl)
    requires Runs(u, pl, ops, end) && (forall i :: 0 <= i < |ops| ==> IsTurn(ops[i]))
    ensures |ops| <= Fuel(pl)
    ensures (!exists op :: IsTurn(op) && Enabled(end, op)) ==>
            Drained(end) && forall j :: j in end.rows ==> Decided(end, j)
  {
    Pipeline.FreshInv(u, start);
    Pipeline.RunsKeep(u, start, before, pl);
    SchedulesAreBounded(u, pl, ops, end);
    StuckIffDrained(end);
    if Drained(end) {
      Pipeline.RunsKeep(u, pl, ops, end);
      forall j | j in end.rows ensures Decided(end, j) {
        DrainedIsSettled(u, end, j);
      }
    }
  }
}

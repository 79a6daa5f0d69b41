/**
 Firmware accounting over whole serialised runs: the history table, the devices' recorded versions and the
 outcomes of the jobs tell the same story.
 */
module Firmware {
  import opened Prelude
  import opened Jobs
  import opened Store
  import opened Broker
  import opened Serial
  import Pipeline

  type Devices = map<string, Device>

  function EntryOf(ran: Ran): seq<FirmwareEntry> {
    if ran.entry.Some? then [ran.entry.value] else []
  }

  /** The history the handler runs leave behind. */
  function History(runs: seq<Ran>): seq<FirmwareEntry> {
    if runs == [] then [] else History(runs[..|runs| - 1]) + EntryOf(runs[|runs| - 1])
  }

  /** The part of it one job left behind. */
  function HistoryOf(runs: seq<Ran>, j: JobId): seq<FirmwareEntry> {
    if runs == [] then [] else
    HistoryOf(runs[..|runs| - 1], j) + (if runs[|runs| - 1].id == j then EntryOf(runs[|runs| - 1]) else [])
  }

  /** The target of the device's latest APPLIED entry, or what it had before. */
  function Latest(f: seq<FirmwareEntry>, d: string, before: Option<string>): Option<string> {
    if f == [] then before else
    var last := f[|f| - 1];
    if last.device == d && last.applied then Some(last.target) else Latest(f[..|f| - 1], d, before)
  }

  /** A push that was applied has no failure reason, one that failed has. */
  predicate EntryFor(e: FirmwareEntry, device: string, target: string, ok: bool) {
    e.device == device && e.target == target && e.applied == ok && (e.reason.None? <==> ok)
  }

  /** A run leaves the entry its job asks for, and no run of an undecodable firmware job succeeds. */
  predicate RunOk(u: Setup, rows: Table, ran: Ran) {
    ran.id in rows &&
    var r := rows[ran.id];
    if r.typ == FirmwareUpdate && u.target(r.payload).Some?
    then ran.entry.Some? && EntryFor(ran.entry.value, r.device, u.target(r.payload).value, ran.ok)
    else ran.entry.None? && (r.typ == FirmwareUpdate ==> !ran.ok)
  }

  predicate VersionOk(initial: Devices, pl: Plant, d: string) {
    d in initial && d in pl.devices && pl.devices[d].version == Latest(pl.firmware, d, initial[d].version)
  }

  ghost predicate Kept(u: Setup, initial: Devices, pl: Plant) {
    pl.firmware == History(pl.runs) &&
    pl.devices.Keys == initial.Keys && (forall d :: d in initial ==> VersionOk(initial, pl, d)) &&
    forall i :: 0 <= i < |pl.runs| ==> RunOk(u, pl.rows, pl.runs[i])
  }

  /** Nothing but growing rows and fresh sightings of devices. */
  ghost predicate Quiet(a: Plant, b: Plant) {
    b.firmware == a.firmware && b.runs == a.runs && Grows(a.rows, b.rows) && b.devices.Keys == a.devices.Keys &&
    forall d :: d in a.devices ==> b.devices[d].version == a.devices[d].version
  }

  lemma QuietKeeps(u: Setup, initial: Devices, a: Plant, b: Plant)
    requires Kept(u, initial, a) && Quiet(a, b)
    ensures Kept(u, initial, b)
  {
    forall d | d in initial ensures VersionOk(initial, b, d) {
      assert VersionOk(initial, a, d);
    }
    forall i | 0 <= i < |b.runs| ensures RunOk(u, b.rows, b.runs[i]) {
      assert RunOk(u, a.rows, a.runs[i]);
    }
  }

  lemma SubmitIsQuiet(u: Setup, pl: Plant, q: Request, id: JobId, trace: seq<Header>)
    ensures Quiet(pl, Submit(u, pl, q, id, trace).0)
  {
  }

  lemma SetStateIsQuiet(pl: Plant, id: JobId, st: State, err: Option<string>)
    ensures Quiet(pl, SetState(pl, id, st, err))
  {
  }

  lemma FailIsQuiet(u: Setup, pl: Plant, tier: Tier, m: Message, job: Row, env: Env, err: string)
    ensures Quiet(pl, Fail(u, pl, tier, m, job, env, err))
  {
    if job.attempts + 1 >= job.maxAttempts {
      BuryIsQuiet(u, pl, m, env.trace, err);
    } else {
      RetryIsQuiet(u, pl, tier, m, job.attempts + 1, env, err);
    }
  }

  lemma BuryIsQuiet(u: Setup, pl: Plant, m: Message, trace: seq<Header>, err: string)
    ensures Quiet(pl, SendToDlq(u, pl, m, trace, err))
  {
  }

  lemma RetryIsQuiet(u: Setup, pl: Plant, tier: Tier, m: Message, attempt: int, env: Env, err: string)
    ensures Quiet(pl, SendToRetry(u, pl, tier, m, attempt, env, err))
  {
  }

  lemma QuietTrans(a: Plant, b: Plant, c: Plant)
    requires Quiet(a, b) && Quiet(b, c)
    ensures Quiet(a, c)
  {
  }

  /** One entry more in the history and, if it was applied, the device's new version. */
  lemma EntryKeeps(initial: Devices, a: Plant, b: Plant, e: FirmwareEntry, d: string)
    requires VersionOk(initial, a, d) && b.firmware == a.firmware + [e]
    requires b.devices == if e.applied then SetVersion(a.devices, e.device, e.target) else a.devices
    ensures VersionOk(initial, b, d)
  {
    assert (a.firmware + [e])[..|a.firmware|] == a.firmware;
  }

  lemma RanKeeps(u: Setup, initial: Devices, a: Plant, b: Plant, ran: Ran)
    requires Kept(u, initial, a) && Grows(a.rows, b.rows) && RunOk(u, b.rows, ran)
    requires b.runs == a.runs + [ran] && b.firmware == a.firmware + EntryOf(ran)
    requires b.devices.Keys == initial.Keys && forall d :: d in initial ==> VersionOk(initial, b, d)
    ensures Kept(u, initial, b)
  {
    assert b.runs[..|a.runs|] == a.runs;
    forall i | 0 <= i < |b.runs| ensures RunOk(u, b.rows, b.runs[i]) {
      if i < |a.runs| { assert RunOk(u, a.rows, a.runs[i]); }
    }
  }

  /** A firmware run, with the run noted. */
  lemma FirmwareRunKeeps(u: Setup, initial: Devices, pl: Plant, m: Message, env: Env)
    requires Kept(u, initial, pl) && Faithful(pl.rows, m) && m.typ == FirmwareUpdate
    ensures var (h, err, entry) := Handle(u, pl, m, env);
            Kept(u, initial, h.(runs := h.runs + [Ran(m.id, err.None?, entry)]))
  {
    var (h, err, entry) := Handle(u, pl, m, env);
    var b := h.(runs := h.runs + [Ran(m.id, err.None?, entry)]);
    forall d | d in initial ensures VersionOk(initial, b, d) {
      assert VersionOk(initial, pl, d);
      if entry.Some? { EntryKeeps(initial, pl, b, entry.value, d); }
    }
    RanKeeps(u, initial, pl, b, Ran(m.id, err.None?, entry));
  }

  lemma OtherHandlersAreQuiet(u: Setup, pl: Plant, m: Message, env: Env)
    requires m.typ != FirmwareUpdate
    ensures Quiet(pl, Handle(u, pl, m, env).0) && Handle(u, pl, m, env).2.None?
  {
    if m.typ == HealthCheck && env.err.None? && !env.healthy {
      var touched := pl.(devices := Touch(pl.devices, m.device, pl.now));
      var q := Request(AlertGeneration, m.device, AlertKey(m.id), env.alertPayload);
      SubmitIsQuiet(u, touched, q, env.alertId, env.trace);
      QuietTrans(pl, touched, Submit(u, touched, q, env.alertId, env.trace).0);
    }
  }

  lemma HandleRunKeeps(u: Setup, initial: Devices, pl: Plant, m: Message, env: Env)
    requires Kept(u, initial, pl) && Faithful(pl.rows, m)
    ensures var (h, err, entry) := Handle(u, pl, m, env);
            Kept(u, initial, h.(runs := h.runs + [Ran(m.id, err.None?, entry)]))
  {
    if m.typ == FirmwareUpdate {
      FirmwareRunKeeps(u, initial, pl, m, env);
    } else {
      OtherHandlersAreQuiet(u, pl, m, env);
      var (h, err, entry) := Handle(u, pl, m, env);
      QuietKeeps(u, initial, pl, h);
      var b := h.(runs := h.runs + [Ran(m.id, err.None?, entry)]);
      forall d | d in initial ensures VersionOk(initial, b, d) {
        assert VersionOk(initial, h, d);
      }
      RanKeeps(u, initial, h, b, Ran(m.id, err.None?, entry));
    }
  }

  lemma ProcessKeeps(u: Setup, initial: Devices, pl: Plant, tier: Tier, m: Message, env: Env)
    requires Kept(u, initial, pl) && Faithful(pl.rows, m) && m.tier == tier && HasHandler(m.typ)
    ensures Kept(u, initial, ProcessOne(u, pl, tier, m, env).0)
  {
    var running := SetState(pl, m.id, Running, None);
    SetStateIsQuiet(pl, m.id, Running, None);
    QuietKeeps(u, initial, pl, running);
    HandleRunKeeps(u, initial, running, m, env);
    var (h, err, entry) := Handle(u, running, m, env);
    var ran := h.(runs := h.runs + [Ran(m.id, err.None?, entry)]);
    if err.None? {
      SetStateIsQuiet(ran, m.id, Success, None);
      QuietKeeps(u, initial, ran, SetState(ran, m.id, Success, None));
    } else {
      FailIsQuiet(u, ran, tier, m, pl.rows[m.id], env, err.value);
      QuietKeeps(u, initial, ran, Fail(u, ran, tier, m, pl.rows[m.id], env, err.value));
    }
  }

  lemma WorkKeeps(u: Setup, initial: Devices, pl: Plant, p: nat, env: Env)
    requires Kept(u, initial, pl) && Readable(pl, p) && pl.parts[p].topic.Main?
    requires Faithful(pl.rows, Head(pl, p)) && Belongs(pl.parts[p].topic, Head(pl, p)) && HasHandler(Head(pl, p).typ)
    ensures Kept(u, initial, Work(u, pl, p, env))
  {
    var f := Fetched(pl, p);
    var m := Head(pl, p);
    QuietKeeps(u, initial, pl, f);
    ProcessKeeps(u, initial, f, pl.parts[p].topic.tier, m, env);
    QuietKeeps(u, initial, ProcessOne(u, f, pl.parts[p].topic.tier, m, env).0, Work(u, pl, p, env));
  }

  lemma ApplyKeeps(u: Setup, initial: Devices, pl: Plant, op: Op)
    requires Pipeline.Inv(u, pl) && Kept(u, initial, pl) && Enabled(pl, op)
    ensures Kept(u, initial, Apply(u, pl, op))
  {
    if op.Working? {
      Pipeline.FetchKeeps(u, pl, op.p);
      RegistryIsTotalOnValid(Head(pl, op.p).typ);
      WorkKeeps(u, initial, pl, op.p, op.env);
    } else {
      if op.Submitting? { SubmitIsQuiet(u, pl, op.q, op.id, op.trace); }
      QuietKeeps(u, initial, pl, Apply(u, pl, op));
    }
  }

  lemma {:induction false} RunsKeep(u: Setup, initial: Devices, pl: Plant, ops: seq<Op>, end: Plant)
    requires Pipeline.Inv(u, pl) && Kept(u, initial, pl) && Runs(u, pl, ops, end)
    ensures Pipeline.Inv(u, end) && Kept(u, initial, end)
    decreases |ops|
  {
    if ops != [] {
      Pipeline.ApplyKeeps(u, pl, ops[0]);
      ApplyKeeps(u, initial, pl, ops[0]);
      RunsKeep(u, initial, Apply(u, pl, ops[0]), ops[1..], end);
    }
  }

  // ----- the theorems -----

  /** Each device's recorded version is the target of its latest APPLIED entry, or its first version if it has none. */
  lemma VersionIsLatestApplied(u: Setup, start: Plant, ops: seq<Op>, end: Plant, d: string)
    requires Fresh(start) && Wired(u.route, start.parts) && Runs(u, start, ops, end) && d in start.devices
    ensures d in end.devices && end.devices[d].version == Latest(end.firmware, d, start.devices[d].version)
  {
    Pipeline.FreshInv(u, start);
    RunsKeep(u, start.devices, start, ops, end);
    assert VersionOk(start.devices, end, d);
  }

  /** A decodable firmware job's history repeats its results, entry by entry. */
  lemma {:induction false} HistoryMatchesResults(u: Setup, rows: Table, runs: seq<Ran>, j: JobId)
    requires j in rows && rows[j].typ == FirmwareUpdate && u.target(rows[j].payload).Some?
    requires forall i :: 0 <= i < |runs| ==> RunOk(u, rows, runs[i])
    ensures var h := HistoryOf(runs, j);
            var rs := Pipeline.Results(runs, j);
            |h| == |rs| && forall i :: 0 <= i < |h| ==>
              EntryFor(h[i], rows[j].device, u.target(rows[j].payload).value, rs[i])
  {
    if runs != [] {
      var before := runs[..|runs| - 1];
      assert RunOk(u, rows, runs[|runs| - 1]);
      forall i | 0 <= i < |before| ensures RunOk(u, rows, before[i]) {
        assert before[i] == runs[i];
      }
      HistoryMatchesResults(u, rows, before, j);
    }
  }

  /**
   A firmware job with a decodable payload has left one entry per run, all for its device and target: while it is
   waiting, `attempts` FAILED ones; in SUCCESS, `attempts` FAILED ones and then one APPLIED; in FAILED, exactly as
   many FAILED ones as its budget.
   */
  lemma FirmwareAccounting(u: Setup, start: Plant, ops: seq<Op>, end: Plant, j: JobId)
    requires Fresh(start) && Wired(u.route, start.parts) && Runs(u, start, ops, end)
    requires j in end.rows && end.rows[j].typ == FirmwareUpdate && u.target(end.rows[j].payload).Some?
    ensures var r := end.rows[j];
            var h := HistoryOf(end.runs, j);
            var v := u.target(r.payload).value;
            |h| == (if IsTerminal(r.state) then r.attempts + 1 else r.attempts) &&
            (forall i :: 0 <= i < r.attempts ==> EntryFor(h[i], r.device, v, false)) &&
            (r.state == Success ==> EntryFor(h[r.attempts], r.device, v, true)) &&
            (r.state == Failed ==> |h| == MAX_ATTEMPTS && EntryFor(h[r.attempts], r.device, v, false))
    ensures end.firmware == History(end.runs)
  {
    Pipeline.FreshInv(u, start);
    RunsKeep(u, start.devices, start, ops, end);
    HistoryMatchesResults(u, end.rows, end.runs, j);
    assert Pipeline.JobOk(end, j);
    var rs := Pipeline.Results(end.runs, j);
    var r := end.rows[j];
    assert r.attempts <= |rs| ==> forall i :: 0 <= i < r.attempts ==> rs[..r.attempts][i] == rs[i];
  }

  lemma {:induction false} UndecodableNeverRunsWell(u: Setup, rows: Table, runs: seq<Ran>, j: JobId)
    requires j in rows && rows[j].typ == FirmwareUpdate && u.target(rows[j].payload).None?
    requires forall i :: 0 <= i < |runs| ==> RunOk(u, rows, runs[i])
    ensures HistoryOf(runs, j) == [] && Pipeline.AllFailed(Pipeline.Results(runs, j))
  {
    if runs != [] {
      var before := runs[..|runs| - 1];
      assert RunOk(u, rows, runs[|runs| - 1]);
      forall i | 0 <= i < |before| ensures RunOk(u, rows, before[i]) {
        assert before[i] == runs[i];
      }
      UndecodableNeverRunsWell(u, rows, before, j);
    }
  }

  /** A firmware job whose payload cannot be decoded leaves no history and can only end dead-lettered. */
  lemma UndecodableFirmwareFails(u: Setup, start: Plant, ops: seq<Op>, end: Plant, j: JobId)
    requires Fresh(start) && Wired(u.route, start.parts) && Runs(u, start, ops, end)
    requires j in end.rows && end.rows[j].typ == FirmwareUpdate && u.target(end.rows[j].payload).None?
    ensures HistoryOf(end.runs, j) == [] && end.rows[j].state != Success
    ensures Drained(end) ==> end.rows[j].state == Failed && Pipeline.Buried(end.parts, j) == 1
  {
    Pipeline.FreshInv(u, start);
    RunsKeep(u, start.devices, start, ops, end);
    UndecodableNeverRunsWell(u, end.rows, end.runs, j);
    assert Pipeline.JobOk(end, j);
    if Drained(end) { Pipeline.DrainedMeansSettled(end, j); }
  }
}

/**
 Heartbeats and scans with everything else interleaved. In any run a job whose beats come often enough is never in a
 scanned batch, whoever else writes its row. Where an earlier run has left an old heartbeat behind, the next run is
 taken for stale from its first moment; and a job that is taken for stale often enough reaches its budget.
 */
module StaleRuns {
  import opened Prelude
  import opened Jobs
  import opened Store
  import opened Broker
  import opened Protocol
  import opened Atomic
  import opened Tightness
  import opened Overtaking
  import Serial

  // ----- beats protect -----

  /** The event writes the job's heartbeat. */
  predicate BeatsFor(s: Sys, e: Event, j: JobId) {
    e.Beat? && e.i < |s.workers| && s.workers[e.i].Some? && s.workers[e.i].value.msg.id == j
  }

  /** The row's heartbeat, if it has one, is not older than `last`. */
  predicate BeatSince(s: Sys, j: JobId, last: int) {
    last <= s.now && (j in s.rows && s.rows[j].heartbeat.Some? ==> s.rows[j].heartbeat.value >= last)
  }

  /** Whenever a reaper scans, the job's last beat, or `last` before the first one, is at most 60 seconds ago. */
  predicate Tended(cfg: Config, s: Sys, es: seq<Event>, j: JobId, last: int)
    decreases |es|
  {
    es != [] && Next(cfg, s, es[0]).Some? ==>
      (es[0].Scan? ==> s.now <= last + 60_000_000_000) &&
      Tended(cfg, Next(cfg, s, es[0]).value, es[1..], j, if BeatsFor(s, es[0], j) then s.now else last)
  }

  predicate NeverScanned(es: seq<Event>, j: JobId) {
    forall i :: 0 <= i < |es| && es[i].Scan? ==> j !in es[i].ids
  }

  lemma WorkBeats(cfg: Config, s: Sys, tier: Tier, k: Task, c: Choice, j: JobId)
    requires WorkCallEffect(cfg, s, tier, k, c).Some?
    ensures var rows := WorkCallEffect(cfg, s, tier, k, c).value.rows;
            j in rows ==> j in s.rows && rows[j].heartbeat == s.rows[j].heartbeat
  {
  }

  lemma SubBeats(cfg: Config, s: Sys, b: Sub, c: Choice, j: JobId)
    requires SubCallEffect(cfg, s, b, c).Some?
    ensures var rows := SubCallEffect(cfg, s, b, c).value.rows;
            j in rows && rows[j].heartbeat.Some? ==> j in s.rows && rows[j].heartbeat == s.rows[j].heartbeat
  {
  }

  lemma ReapBeats(cfg: Config, s: Sys, a: Reaper, c: Choice, j: JobId)
    requires ReapCallEffect(cfg, s, a, c).Some?
    ensures var rows := ReapCallEffect(cfg, s, a, c).value.rows;
            j in rows && rows[j].heartbeat.Some? ==> j in s.rows && rows[j].heartbeat == s.rows[j].heartbeat
  {
  }

  /** No event but a beat sets a heartbeat, and a beat sets the present time. */
  lemma BeatStep(cfg: Config, s: Sys, e: Event, j: JobId, last: int)
    requires BeatSince(s, j, last) && Next(cfg, s, e).Some?
    ensures BeatSince(Next(cfg, s, e).value, j, if BeatsFor(s, e, j) then s.now else last)
  {
    if e.WorkerCall? || (e.WorkerError? && e.applied) {
      WorkBeats(cfg, s, cfg.workerTier[e.i], s.workers[e.i].value, e.c, j);
    } else if e.SubCall? || (e.SubError? && e.applied) {
      SubBeats(cfg, s, s.subs[e.i], e.c, j);
    } else if e.ReaperCall? || (e.ReaperError? && e.applied) {
      ReapBeats(cfg, s, s.reapers[e.i], e.c, j);
    }
  }

  /**
   In any run whatever, with other workers, submissions, reapers, crashes and failed calls writing the same row: as long
   as every scan comes at most 60 seconds after the job's last beat, no scan selects the job.
   */
  lemma {:induction false} TendedIsNeverScanned(cfg: Config, s: Sys, es: seq<Event>, t: Sys, j: JobId, last: int)
    requires BeatSince(s, j, last) && Run(cfg, s, es, t) && Tended(cfg, s, es, j, last)
    ensures NeverScanned(es, j)
    decreases |es|
  {
    if es != [] {
      BeatStep(cfg, s, es[0], j, last);
      var latest := if BeatsFor(s, es[0], j) then s.now else last;
      TendedIsNeverScanned(cfg, Next(cfg, s, es[0]).value, es[1..], t, j, latest);
      forall i | 0 <= i < |es| && es[i].Scan? ensures j !in es[i].ids {
        if i > 0 { assert es[1..][i - 1] == es[i]; }
      }
    }
  }

  /**
   A reaper with nothing in hand can pick a job exactly when it reads RUNNING and its last beat is over a minute old.
   */
  lemma ScanFindsIff(cfg: Config, s: Sys, i: nat, j: JobId)
    requires i < |s.reapers| && s.reapers[i] == Reaper([], None)
    ensures Next(cfg, s, Scan(i, [j])).Some? <==>
            j in s.rows && s.rows[j].state == State.Running && s.rows[j].heartbeat.Some? &&
            s.now - s.rows[j].heartbeat.value > 60_000_000_000
    ensures forall ids :: Next(cfg, s, Scan(i, ids)).Some? ==> |ids| <= 50
  {
    assert [j][0] == j;
  }

  /**
   A worker can beat for a message exactly when it is past the load of its row, and the beat carries the present time.
   */
  lemma BeatsIff(cfg: Config, s: Sys, w: nat)
    ensures Next(cfg, s, Beat(w)).Some? <==>
            w < |s.workers| && s.workers[w].Some? && s.workers[w].value.msg.id in s.rows &&
            s.workers[w].value.phase != Fetched && s.workers[w].value.phase != Loaded
    ensures Next(cfg, s, Beat(w)).Some? ==>
            var j := s.workers[w].value.msg.id;
            Next(cfg, s, Beat(w)).value == s.(rows := s.rows[j := s.rows[j].(heartbeat := Some(s.now))])
  {
  }

  // ----- a heartbeat left behind -----

  /** Rows like `pl`'s, but for the job's heartbeat, written now. */
  function Beaten(pl: Serial.Plant, j: JobId): Serial.Plant {
    if j in pl.rows then pl.(rows := pl.rows[j := WithHeartbeat(pl.rows[j], pl.now)]) else pl
  }

  /** The worker's ticker writes once. */
  lemma BeatCall(cfg: Config, u: Serial.Setup, s: Sys, pl: Serial.Plant, w: nat, h: Task) returns (t: Sys)
    requires Shows(cfg, u, s, pl) && Holds(cfg, s, w, h) && h.phase == InHandler && h.msg.id in pl.rows
    ensures Reaches(cfg, s, t) && Shows(cfg, u, t, Beaten(pl, h.msg.id)) && t == s.(rows := t.rows)
  {
    One(cfg, s, Beat(w));
    t := Next(cfg, s, Beat(w)).value;
  }

  /** Fetched, running, and a heartbeat written. */
  function Beating(pl: Serial.Plant, p: nat): Serial.Plant
    requires Serial.Readable(pl, p)
  {
    var id := Serial.Head(pl, p).id;
    Beaten(Serial.SetState(Serial.Fetched(pl, p), id, State.Running, None), id)
  }

  /** Fetch the job's message, enter its handler, and beat once. */
  lemma StartAndBeat(cfg: Config, u: Serial.Setup, x: Subject, s: Sys, pl: Serial.Plant, p: nat)
    returns (t: Sys, w: nat, h: Task)
    requires Shows(cfg, u, s, pl) && Staffed(cfg, s) && Serial.Readable(pl, p) && pl.parts[p].topic == Main(x.tier)
    requires OfSubject(x, Serial.Head(pl, p)) && x.id in pl.rows && TierFor(x.typ) == Some(x.tier)
    ensures Reaches(cfg, s, t) && Shows(cfg, u, t, Beating(pl, p)) && WorkerMovesOn(s, w, Some(h), t)
    ensures Holds(cfg, t, w, h) && h.phase == InHandler && OfSubject(x, h.msg) && h.msg == Serial.Head(pl, p)
    ensures h.part == p && h.off == pl.parts[p].pos && t.work.runs == s.work.runs + multiset{x.id}
    ensures h.att == pl.rows[x.id].attempts && h.max == pl.rows[x.id].maxAttempts
  {
    assert Assigned(cfg, s.parts[p]);
    RegistryIsTotalOnValid(x.typ);
    w := pl.parts[p].owner;
    var a;
    a, h := StartCalls(cfg, u, s, pl, w, p);
    t := BeatCall(cfg, u, a, Serial.SetState(Serial.Fetched(pl, p), x.id, State.Running, None), w, h);
    Join(cfg, s, a, t);
  }

  /** What the first run leaves: its retry waits, and its heartbeat is still on the row. */
  function Left(u: Serial.Setup, x: Subject, pl: Serial.Plant, p: nat): Serial.Plant
    requires Serial.Readable(pl, p)
  {
    var sent := Serial.SendToRetry(u, Beating(pl, p), x.tier, Serial.Head(pl, p), 1, BAD, "down");
    Serial.Committed(sent, p, pl.parts[p].pos)
  }

  /** The handler fails, and the worker sends the retry and commits. */
  lemma FailAfterBeat(cfg: Config, u: Serial.Setup, x: Subject, s: Sys, pl: Serial.Plant, p: nat, w: nat, h: Task)
    returns (t: Sys)
    requires Serial.Readable(pl, p) && Shows(cfg, u, s, Beating(pl, p)) && Holds(cfg, s, w, h) && x.id in pl.rows
    requires h.phase == InHandler && OfSubject(x, h.msg) && h.msg == Serial.Head(pl, p) && h.att == 0 && h.max > 1
    requires h.part == p && h.off == pl.parts[p].pos && Routed(u.route, Beating(pl, p).parts, RetryOf(x.tier), x.id)
    ensures Reaches(cfg, s, t) && WorkerMovesOn(s, w, None, t) && Shows(cfg, u, t, Left(u, x, pl, p))
    ensures t.work.runs == s.work.runs
  {
    var a := ReturnCalls(cfg, u, s, Beating(pl, p), w, h, Some("down"));
    var r := Returned(h, Some("down"));
    var b := RetryCalls(cfg, u, a, Beating(pl, p), w, r, BAD);
    Join(cfg, s, a, b);
    var sent := Serial.SendToRetry(u, Beating(pl, p), x.tier, h.msg, 1, BAD, "down");
    t := CommitCalls(cfg, u, b, sent, w, r.(phase := Done));
    Join(cfg, s, b, t);
  }

  /** The heartbeat of the earlier run, from when it was written. */
  predicate LeftOver(x: Subject, rows: Table, at: int) {
    x.id in rows && rows[x.id].heartbeat == Some(at)
  }

  lemma LeftShape(u: Serial.Setup, x: Subject, pl: Serial.Plant)
    requires Alone(u, x, pl)
    ensures var p := First(u, x);
            Serial.Readable(pl, p) && pl.parts[p].topic == Main(x.tier) && OfSubject(x, Serial.Head(pl, p)) &&
            Routed(u.route, Beating(pl, p).parts, RetryOf(x.tier), x.id) &&
            ToForward(u, x, Left(u, x, pl, p), 1) && LeftOver(x, Left(u, x, pl, p).rows, pl.now) &&
            SameAssignments(pl.parts, Left(u, x, pl, p).parts)
  {
    var p := First(u, x);
    StillWired(u, pl.parts, Left(u, x, pl, p).parts);
  }

  /** A little more than the reaper allows a run to be silent. */
  const MINUTE: nat := 61_000_000_000

  lemma Wait(cfg: Config, u: Serial.Setup, s: Sys, pl: Serial.Plant) returns (t: Sys)
    requires Shows(cfg, u, s, pl)
    ensures Reaches(cfg, s, t) && t == s.(now := s.now + MINUTE) && Shows(cfg, u, t, pl.(now := pl.now + MINUTE))
  {
    One(cfg, s, Tick(MINUTE));
    t := Next(cfg, s, Tick(MINUTE)).value;
  }

  /** The retry comes back, and the job enters its handler again. */
  lemma RunAgain(cfg: Config, u: Serial.Setup, x: Subject, s: Sys, pl: Serial.Plant, at: int) returns (t: Sys, w: nat)
    requires Shows(cfg, u, s, pl) && Staffed(cfg, s) && ToForward(u, x, pl, 1) && LeftOver(x, pl.rows, at)
    requires at < pl.now - STALENESS
    ensures Reaches(cfg, s, t) && t.reapers == s.reapers && InHand(t, w, x) && Stale(t.rows[x.id], t.now)
    ensures t.work.runs == s.work.runs + multiset{x.id}
  {
    var q := Waiting(u, x);
    ForwardShape(u, x, pl, 1);
    ForwardStays(u, pl, q, []);
    assert Assigned(cfg, s.parts[q]);
    var a := ForwardIsCalls(cfg, u, s, pl, pl.parts[q].owner, q, []);
    var back := Serial.Forward(u, pl, q, []);
    StillStaffed(cfg, s, a);
    assert Assigned(cfg, a.parts[Second(u, x)]);
    RegistryIsTotalOnValid(x.typ);
    w := back.parts[Second(u, x)].owner;
    var h;
    t, h := StartCalls(cfg, u, a, back, w, Second(u, x));
    Join(cfg, s, a, t);
  }

  /** Worker `w` is in the handler of the job, whose row is in the table. */
  predicate InHand(t: Sys, w: nat, x: Subject) {
    w < |t.workers| && t.workers[w].Some? && t.workers[w].value.phase == InHandler &&
    t.workers[w].value.msg.id == x.id && x.id in t.rows
  }

  /** More than a minute later. */
  lemma RunLater(cfg: Config, u: Serial.Setup, x: Subject, s: Sys, pl: Serial.Plant, at: int) returns (t: Sys, w: nat)
    requires Shows(cfg, u, s, pl) && Staffed(cfg, s) && ToForward(u, x, pl, 1) && LeftOver(x, pl.rows, at)
    requires at <= pl.now
    ensures Reaches(cfg, s, t) && t.reapers == s.reapers && InHand(t, w, x) && Stale(t.rows[x.id], t.now)
    ensures t.work.runs == s.work.runs + multiset{x.id}
  {
    var a := Wait(cfg, u, s, pl);
    t, w := RunAgain(cfg, u, x, a, pl.(now := pl.now + MINUTE), at);
    Join(cfg, s, a, t);
  }

  /** The first run: submitted, beaten, failed. */
  lemma FirstRun(cfg: Config, u: Serial.Setup, x: Subject, s: Sys)
    returns (t: Sys, pl: Serial.Plant, at: int)
    requires Deployment(cfg, u, x, s)
    ensures Reaches(cfg, s, t) && Shows(cfg, u, t, pl) && Staffed(cfg, t) && t.reapers == s.reapers
    ensures ToForward(u, x, pl, 1) && LeftOver(x, pl.rows, at) && at <= pl.now && t.work.runs == multiset{x.id}
  {
    var a, alone := SubmitFirst(cfg, u, x, s);
    LeftShape(u, x, alone);
    var b, w, h := StartAndBeat(cfg, u, x, a, alone, First(u, x));
    Join(cfg, s, a, b);
    t := FailAfterBeat(cfg, u, x, b, alone, First(u, x), w, h);
    Join(cfg, s, b, t);
    pl := Left(u, x, alone, First(u, x));
    StillStaffed(cfg, a, t);
    at := alone.now;
  }

  /**
   In every deployment with a reaper a plain run leads to a moment at which the job is in its handler and a scan
   selects it all the same: the second run of a job starts with the heartbeat of the first.
   */
  lemma LeftoverHeartbeatIsScanned(cfg: Config, u: Serial.Setup, x: Subject, s: Sys) returns (t: Sys, w: nat)
    requires Deployment(cfg, u, x, s) && |s.reapers| > 0
    ensures Reaches(cfg, s, t) && InHand(t, w, x) && t.work.runs == multiset{x.id, x.id}
    ensures Next(cfg, t, Scan(0, [x.id])).Some?
  {
    var a, pl, at := FirstRun(cfg, u, x, s);
    t, w := RunLater(cfg, u, x, a, pl, at);
    Join(cfg, s, a, t);
  }
}

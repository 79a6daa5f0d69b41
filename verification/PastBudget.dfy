/**
 How a row gets past its budget: in every deployment with a reaper, a job whose runs fall silent is requeued, run and
 requeued again until its attempts have reached the budget, and once more.
 */
module PastBudget {
  import opened Prelude
  import opened Jobs
  import opened Store
  import opened Broker
  import opened Protocol
  import opened Atomic
  import opened Tightness
  import opened Overtaking
  import opened StaleRuns
  import opened Reaping
  import Serial
  import Tokens
  import NoLoss
  import AtomicReaper
  import Routing

  // ----- runs without crashes and failed calls -----

  predicate CalmRun(cfg: Config, s: Sys, es: seq<Event>, t: Sys) {
    Tokens.AllCalm(es) && Run(cfg, s, es, t)
  }

  ghost predicate Leads(cfg: Config, s: Sys, t: Sys) {
    exists es :: CalmRun(cfg, s, es, t)
  }

  lemma PlainLeads(cfg: Config, s: Sys, t: Sys)
    requires Reaches(cfg, s, t)
    ensures Leads(cfg, s, t)
  {
    var es :| PlainRun(cfg, s, es, t);
    assert CalmRun(cfg, s, es, t);
  }

  lemma LeadsOn(cfg: Config, s: Sys, m: Sys, t: Sys)
    requires Leads(cfg, s, m) && Leads(cfg, m, t)
    ensures Leads(cfg, s, t)
  {
    var es :| CalmRun(cfg, s, es, m);
    var fs :| CalmRun(cfg, m, fs, t);
    RunsJoin(cfg, s, es, m, fs, t);
    assert CalmRun(cfg, s, es + fs, t);
  }

  lemma OneLeads(cfg: Config, s: Sys, e: Event)
    requires Next(cfg, s, e).Some? && Tokens.Calm(e)
    ensures Leads(cfg, s, Next(cfg, s, e).value)
  {
    var t := Next(cfg, s, e).value;
    assert [e][1..] == [] && Run(cfg, t, [], t);
    assert CalmRun(cfg, s, [e], t);
  }

  lemma {:induction false} CalmIsMindful(cfg: Config, s: Sys, es: seq<Event>)
    requires Tokens.AllCalm(es)
    ensures NoLoss.Mindful(cfg, s, es)
    decreases |es|
  {
    if es != [] && Next(cfg, s, es[0]).Some? {
      assert Tokens.Calm(es[0]);
      CalmIsMindful(cfg, Next(cfg, s, es[0]).value, es[1..]);
    }
  }

  // ----- one silent run -----

  /** The job is the only one there is, and its message the only one of its partition to be read. */
  ghost predicate Ready(u: Serial.Setup, x: Subject, pl: Serial.Plant, a: nat) {
    Wired(u.route, pl.parts) && Routed(u.route, pl.parts, Main(x.tier), x.device) && TierFor(x.typ) == Some(x.tier) &&
    RowAt(x, pl.rows, a) && pl.rows.Keys == {x.id} && pl.rows[x.id].tier == x.tier && IsNext(x, pl.parts[First(u, x)])
  }

  /** The row requeued and its message published again. */
  function Swept(u: Serial.Setup, x: Subject, pl: Serial.Plant): Serial.Plant {
    if x.id !in pl.rows then pl else
    var r := Requeued(pl.rows[x.id]);
    if !Routed(u.route, pl.parts, Main(r.tier), r.device) then pl
    else pl.(rows := pl.rows[x.id := r], parts := Append(u.route, pl.parts, Main(r.tier), MessageFor(x.id, r, [])))
  }

  /** A scan finds the row, and the reaper requeues it. */
  lemma ScanOne(cfg: Config, u: Serial.Setup, x: Subject, s: Sys, pl: Serial.Plant) returns (t: Sys)
    requires Shows(cfg, u, s, pl) && |s.reapers| > 0 && s.reapers[0] == Reaper([], None)
    requires x.id in pl.rows && Stale(pl.rows[x.id], pl.now) && pl.rows[x.id].attempts < pl.rows[x.id].maxAttempts
    ensures var r := Requeued(pl.rows[x.id]);
            Leads(cfg, s, t) && Shows(cfg, u, t, pl.(rows := pl.rows[x.id := r])) &&
            t.reapers == s.reapers[0 := Reaper([], Some((x.id, r)))]
    ensures t.workers == s.workers && t.routers == s.routers
  {
    OneLeads(cfg, s, Scan(0, [x.id]));
    var a := Next(cfg, s, Scan(0, [x.id])).value;
    OneLeads(cfg, a, ReaperCall(0, PLAIN));
    assert [x.id][1..] == [];
    t := Next(cfg, a, ReaperCall(0, PLAIN)).value;
    LeadsOn(cfg, s, a, t);
  }

  /** A scan finds the row, requeues it and publishes it. */
  lemma SweepOne(cfg: Config, u: Serial.Setup, x: Subject, s: Sys, pl: Serial.Plant) returns (t: Sys)
    requires Shows(cfg, u, s, pl) && Wired(u.route, pl.parts) && |s.reapers| > 0 && s.reapers[0] == Reaper([], None)
    requires x.id in pl.rows && Stale(pl.rows[x.id], pl.now) && pl.rows[x.id].attempts < pl.rows[x.id].maxAttempts
    ensures Leads(cfg, s, t) && Shows(cfg, u, t, Swept(u, x, pl))
    ensures t.workers == s.workers && t.routers == s.routers && t.reapers == s.reapers
  {
    var r := Requeued(pl.rows[x.id]);
    assert Routed(u.route, pl.parts, Main(r.tier), r.device);
    var a := ScanOne(cfg, u, x, s, pl);
    OneLeads(cfg, a, ReaperCall(0, PLAIN));
    t := Next(cfg, a, ReaperCall(0, PLAIN)).value;
    LeadsOn(cfg, s, a, t);
  }

  /** The silent run ends after all, with a success. */
  lemma EndRun(cfg: Config, u: Serial.Setup, x: Subject, s: Sys, pl: Serial.Plant, w: nat, h: Task) returns (t: Sys)
    requires Shows(cfg, u, s, pl) && Holds(cfg, s, w, h) && h.phase == InHandler && h.msg.id == x.id && x.id in pl.rows
    requires h.part < |pl.parts|
    ensures Reaches(cfg, s, t) && WorkerMovesOn(s, w, None, t)
    ensures Shows(cfg, u, t, Serial.Committed(Serial.SetState(pl, x.id, Success, None), h.part, h.off))
  {
    var a := ReturnCalls(cfg, u, s, pl, w, h, None);
    var ok := Returned(h, None);
    var b := SucceedCalls(cfg, u, a, pl, w, ok);
    Join(cfg, s, a, b);
    t := CommitCalls(cfg, u, b, Serial.SetState(pl, x.id, Success, None), w, ok.(phase := Done));
    Join(cfg, s, b, t);
  }

  /** The plants of one round: silent for more than a minute, requeued, ended. */
  function Silent(u: Serial.Setup, x: Subject, pl: Serial.Plant): Serial.Plant
    requires Serial.Readable(pl, First(u, x))
  {
    var r := Beating(pl, First(u, x));
    r.(now := r.now + MINUTE)
  }

  function Round(u: Serial.Setup, x: Subject, pl: Serial.Plant): Serial.Plant
    requires Serial.Readable(pl, First(u, x))
  {
    var swept := Swept(u, x, Silent(u, x, pl));
    Serial.Committed(Serial.SetState(swept, x.id, Success, None), First(u, x), pl.parts[First(u, x)].pos)
  }

  lemma SilentShape(u: Serial.Setup, x: Subject, pl: Serial.Plant, a: nat)
    requires Ready(u, x, pl, a)
    ensures Serial.Readable(pl, First(u, x)) && pl.parts[First(u, x)].topic == Main(x.tier)
    ensures OfSubject(x, Serial.Head(pl, First(u, x)))
    ensures var b := Silent(u, x, pl);
            Wired(u.route, b.parts) && RowAt(x, b.rows, a) && Stale(b.rows[x.id], b.now) && b.rows.Keys == {x.id} &&
            SameAssignments(pl.parts, b.parts)
  {
    StillWired(u, pl.parts, Silent(u, x, pl).parts);
  }

  lemma RoundShape(u: Serial.Setup, x: Subject, pl: Serial.Plant, a: nat)
    requires Ready(u, x, pl, a)
    ensures Serial.Readable(pl, First(u, x))
    ensures Ready(u, x, Round(u, x, pl), a + 1) && SameAssignments(pl.parts, Round(u, x, pl).parts)
  {
    SilentShape(u, x, pl, a);
    assert Routed(u.route, Silent(u, x, pl).parts, Main(x.tier), x.device);
    StillWired(u, pl.parts, Round(u, x, pl).parts);
  }

  /** The job runs, falls silent, is requeued, and ends. */
  lemma SilentRound(cfg: Config, u: Serial.Setup, x: Subject, s: Sys, pl: Serial.Plant, a: nat) returns (t: Sys)
    requires Shows(cfg, u, s, pl) && Staffed(cfg, s) && Ready(u, x, pl, a) && a < MAX_ATTEMPTS
    requires |s.reapers| > 0 && s.reapers[0] == Reaper([], None)
    ensures Serial.Readable(pl, First(u, x))
    ensures Leads(cfg, s, t) && Shows(cfg, u, t, Round(u, x, pl)) && Staffed(cfg, t) && t.reapers == s.reapers
  {
    SilentShape(u, x, pl, a);
    RoundShape(u, x, pl, a);
    var b, w, h := FallSilent(cfg, u, x, s, pl, a);
    var c := SweepOne(cfg, u, x, b, Silent(u, x, pl));
    LeadsOn(cfg, s, b, c);
    assert Holds(cfg, c, w, h);
    t := EndRun(cfg, u, x, c, Swept(u, x, Silent(u, x, pl)), w, h);
    PlainLeads(cfg, c, t);
    LeadsOn(cfg, s, c, t);
    StillStaffed(cfg, s, t);
  }

  lemma FallSilent(cfg: Config, u: Serial.Setup, x: Subject, s: Sys, pl: Serial.Plant, a: nat)
    returns (t: Sys, w: nat, h: Task)
    requires Shows(cfg, u, s, pl) && Staffed(cfg, s) && Ready(u, x, pl, a)
    ensures Serial.Readable(pl, First(u, x))
    ensures Leads(cfg, s, t) && Shows(cfg, u, t, Silent(u, x, pl)) && WorkerMovesOn(s, w, Some(h), t)
    ensures Holds(cfg, t, w, h) && h.phase == InHandler && h.msg.id == x.id && h.part == First(u, x)
    ensures h.off == pl.parts[First(u, x)].pos
  {
    SilentShape(u, x, pl, a);
    var b;
    b, w, h := StartAndBeat(cfg, u, x, s, pl, First(u, x));
    t := Wait(cfg, u, b, Beating(pl, First(u, x)));
    Join(cfg, s, b, t);
    PlainLeads(cfg, s, t);
  }

  // ----- the run -----

  lemma FirstReady(cfg: Config, u: Serial.Setup, x: Subject, s: Sys) returns (t: Sys, pl: Serial.Plant)
    requires Deployment(cfg, u, x, s)
    ensures Leads(cfg, s, t) && Shows(cfg, u, t, pl) && Staffed(cfg, t) && t.reapers == s.reapers
    ensures Ready(u, x, pl, 0)
  {
    t, pl := SubmitFirst(cfg, u, x, s);
    PlainLeads(cfg, s, t);
    var es :| PlainRun(cfg, s, es, t);
    Routing.InvRun(cfg, s, es, t);
  }

  /** Three rounds: every attempt is a requeue. */
  lemma ThreeRounds(cfg: Config, u: Serial.Setup, x: Subject, s: Sys) returns (t: Sys, pl: Serial.Plant)
    requires Deployment(cfg, u, x, s) && |s.reapers| > 0
    ensures Leads(cfg, s, t) && Shows(cfg, u, t, pl) && Staffed(cfg, t) && t.reapers == s.reapers
    ensures Ready(u, x, pl, MAX_ATTEMPTS)
  {
    t, pl := FirstReady(cfg, u, x, s);
    var a := 0;
    while a < MAX_ATTEMPTS
      invariant a <= MAX_ATTEMPTS && Ready(u, x, pl, a)
      invariant Leads(cfg, s, t) && Shows(cfg, u, t, pl) && Staffed(cfg, t) && t.reapers == s.reapers
    {
      var m := SilentRound(cfg, u, x, t, pl, a);
      RoundShape(u, x, pl, a);
      LeadsOn(cfg, s, t, m);
      t, pl, a := m, Round(u, x, pl), a + 1;
    }
  }

  /** In every deployment with a reaper, a run without crashes and failed calls leads to a stale row at its budget. */
  lemma BudgetIsReached(cfg: Config, u: Serial.Setup, x: Subject, s: Sys) returns (es: seq<Event>, t: Sys)
    requires Deployment(cfg, u, x, s) && |s.reapers| > 0
    ensures CalmRun(cfg, s, es, t) && |t.reapers| > 0 && t.reapers[0] == Reaper([], None) && Wired(cfg.route, t.parts)
    ensures IsBatch(t.rows, t.now, MAX_BATCH, [x.id]) && x.id in t.rows
    ensures t.rows[x.id].attempts == t.rows[x.id].maxAttempts == MAX_ATTEMPTS
  {
    var a, pl := ThreeRounds(cfg, u, x, s);
    SilentShape(u, x, pl, MAX_ATTEMPTS);
    var w, h;
    t, w, h := FallSilent(cfg, u, x, a, pl, MAX_ATTEMPTS);
    LeadsOn(cfg, s, a, t);
    es :| CalmRun(cfg, s, es, t);
    assert StaleIn(t.rows, t.now, x.id);
  }

  lemma RequeueJustOne(rows: Table, id: JobId)
    ensures RequeueAll(rows, [id]) == RequeueOne(rows, id)
  {
    assert [id][..0] == [] && RequeueAll(rows, [id][..0]) == rows;
  }

  /** And a run after which it reads QUEUED with one attempt more than that. */
  lemma RowPassesBudget(cfg: Config, u: Serial.Setup, x: Subject, s: Sys) returns (es: seq<Event>, t: Sys)
    requires Deployment(cfg, u, x, s) && |s.reapers| > 0
    ensures Run(cfg, s, es, t) && x.id in t.rows && t.rows[x.id].state == Queued
    ensures t.rows[x.id].attempts == MAX_ATTEMPTS + 1 && t.rows[x.id].maxAttempts == MAX_ATTEMPTS
  {
    var ds, m := BudgetIsReached(cfg, u, x, s);
    CalmIsMindful(cfg, s, ds);
    var fs;
    fs, t := AtomicReaper.ExhaustedRowStaysQueued(cfg, s, ds, m, 0, [x.id], [], x.id);
    RunsJoin(cfg, s, ds, m, fs, t);
    es := ds + fs;
    RequeueJustOne(m.rows, x.id);
  }
}

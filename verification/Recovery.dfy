/**
 Recovery: wherever crashes, rebalances, reapers and harmless failures have left the system, once every partition
 has a living owner again the processes can bring every published job to a dead letter or a recorded success.
 */
module Recovery {
  import opened Prelude
  import opened Jobs
  import opened Store
  import opened Broker
  import opened Protocol
  import opened Atomic
  import opened NoLoss
  import Serial
  import Tightness
  import Drain
  import Pipeline
  import Routing

  /** Every partition has an owner of its tier, and every topic is there. */
  ghost predicate Manned(cfg: Config, u: Serial.Setup, s: Sys) {
    cfg.route == u.route && Wired(u.route, s.parts) &&
    |s.workers| == |cfg.workerTier| && |s.routers| == |cfg.routerTier| &&
    forall p :: 0 <= p < |s.parts| ==> Assigned(cfg, s.parts[p])
  }

  lemma StillManned(cfg: Config, u: Serial.Setup, s: Sys, t: Sys)
    requires Manned(cfg, u, s) && SameAssignments(s.parts, t.parts)
    requires |t.workers| == |s.workers| && |t.routers| == |s.routers|
    ensures Manned(cfg, u, t)
  {
    StillWired(u, s.parts, t.parts);
    forall p | 0 <= p < |t.parts| ensures Assigned(cfg, t.parts[p]) {
      assert Assigned(cfg, s.parts[p]);
    }
  }

  // ----- letting processes finish -----

  /** Calls a worker still has to make for the message it holds, at most. */
  function Rank(ph: Phase): nat {
    match ph
    case Fetched => 7
    case Loaded => 6
    case InHandler => 5
    case HandlerErr => 4
    case RetrySent => 3
    case RetryMarked => 2
    case HandlerOk => 2
    case DlqSent => 2
    case Done => 1
  }

  lemma CallGoesOn(cfg: Config, s: Sys, tier: Tier, k: Task)
    requires Routed(cfg.route, s.parts, RetryOf(tier), k.msg.id) && Routed(cfg.route, s.parts, Dlq, k.msg.id)
    ensures WorkCallEffect(cfg, s, tier, k, PLAIN).Some?
    ensures var f := WorkCallEffect(cfg, s, tier, k, PLAIN).value;
            f.task.None? || Rank(f.task.value.phase) < Rank(k.phase)
  {
  }

  lemma CallStays(cfg: Config, s: Sys, tier: Tier, k: Task)
    requires WorkCallEffect(cfg, s, tier, k, PLAIN).Some?
    ensures SameAssignments(s.parts, WorkCallEffect(cfg, s, tier, k, PLAIN).value.parts)
  {
  }

  lemma {:induction false} FinishWorker(cfg: Config, u: Serial.Setup, s: Sys, w: nat, rank: nat) returns (t: Sys)
    requires Manned(cfg, u, s) && w < |s.workers| && (s.workers[w].Some? ==> Rank(s.workers[w].value.phase) <= rank)
    ensures Reaches(cfg, s, t) && Manned(cfg, u, t) && t.workers == s.workers[w := None] && t.routers == s.routers
    decreases rank
  {
    if s.workers[w].None? {
      Stay(cfg, s);
      t := s;
    } else {
      var k := s.workers[w].value;
      var tier := cfg.workerTier[w];
      assert Routed(u.route, s.parts, RetryOf(tier), k.msg.id) && Routed(u.route, s.parts, Dlq, k.msg.id);
      CallGoesOn(cfg, s, tier, k);
      CallStays(cfg, s, tier, k);
      One(cfg, s, WorkerCall(w, PLAIN));
      var m := ApplyWork(s, w, WorkCallEffect(cfg, s, tier, k, PLAIN).value);
      StillManned(cfg, u, s, m);
      t := FinishWorker(cfg, u, m, w, rank - 1);
      Join(cfg, s, m, t);
    }
  }

  lemma {:induction false} FinishWorkers(cfg: Config, u: Serial.Setup, s: Sys, n: nat) returns (t: Sys)
    requires Manned(cfg, u, s) && n <= |s.workers| && forall w :: n <= w < |s.workers| ==> s.workers[w].None?
    ensures Reaches(cfg, s, t) && Manned(cfg, u, t) && t.routers == s.routers
    ensures forall w :: 0 <= w < |t.workers| ==> t.workers[w].None?
    decreases n
  {
    if n == 0 {
      Stay(cfg, s);
      t := s;
    } else {
      var m := FinishWorker(cfg, u, s, n - 1, 7);
      t := FinishWorkers(cfg, u, m, n - 1);
      Join(cfg, s, m, t);
    }
  }

  /** A router waits if it must, republishes and commits. */
  lemma FinishRouter(cfg: Config, u: Serial.Setup, s: Sys, r: nat) returns (t: Sys)
    requires Manned(cfg, u, s) && r < |s.routers|
    ensures Reaches(cfg, s, t) && Manned(cfg, u, t) && t.routers == s.routers[r := None] && t.workers == s.workers
  {
    if s.routers[r].None? {
      Stay(cfg, s);
      t := s;
    } else if s.routers[r].value.sent {
      t := RouterTurn(cfg, u, s, r);
    } else {
      var h := s.routers[r].value;
      var d: nat := if s.now < h.until then h.until - s.now else 0;
      One(cfg, s, Tick(d));
      var a := Next(cfg, s, Tick(d)).value;
      StillManned(cfg, u, s, a);
      var b := RouterTurn(cfg, u, a, r);
      Join(cfg, s, a, b);
      t := RouterTurn(cfg, u, b, r);
      Join(cfg, s, b, t);
    }
  }

  lemma RouterTurn(cfg: Config, u: Serial.Setup, s: Sys, r: nat) returns (t: Sys)
    requires Manned(cfg, u, s) && r < |s.routers| && s.routers[r].Some?
    requires !s.routers[r].value.sent ==> s.routers[r].value.until <= s.now
    ensures Reaches(cfg, s, t) && Manned(cfg, u, t) && t.workers == s.workers
    ensures var h := s.routers[r].value; t.routers == s.routers[r := if h.sent then None else Some(h.(sent := true))]
  {
    var h := s.routers[r].value;
    assert Routed(u.route, s.parts, Main(cfg.routerTier[r]), h.msg.key);
    One(cfg, s, RouterCall(r, PLAIN));
    t := Next(cfg, s, RouterCall(r, PLAIN)).value;
    StillManned(cfg, u, s, t);
  }

  lemma {:induction false} FinishRouters(cfg: Config, u: Serial.Setup, s: Sys, n: nat) returns (t: Sys)
    requires Manned(cfg, u, s) && n <= |s.routers| && forall r :: n <= r < |s.routers| ==> s.routers[r].None?
    ensures Reaches(cfg, s, t) && Manned(cfg, u, t) && t.workers == s.workers
    ensures forall r :: 0 <= r < |t.routers| ==> t.routers[r].None?
    decreases n
  {
    if n == 0 {
      Stay(cfg, s);
      t := s;
    } else {
      var m := FinishRouter(cfg, u, s, n - 1);
      t := FinishRouters(cfg, u, m, n - 1);
      Join(cfg, s, m, t);
    }
  }

  // ----- draining -----

  /** One turn on a partition with something left to read. */
  lemma DrainTurn(cfg: Config, u: Serial.Setup, s: Sys, pl: Serial.Plant, p: nat) returns (t: Sys, after: Serial.Plant)
    requires Shows(cfg, u, s, pl) && Staffed(cfg, s) && Drain.Sound(u, pl) && Serial.Readable(pl, p)
    requires !pl.parts[p].topic.Dlq?
    ensures Reaches(cfg, s, t) && Shows(cfg, u, t, after) && Staffed(cfg, t) && Drain.Sound(u, after)
    ensures Drain.Fuel(after) < Drain.Fuel(pl)
  {
    assert Assigned(cfg, s.parts[p]);
    Pipeline.FetchSound(u, pl, p);
    RegistryIsTotalOnValid(Serial.Head(pl, p).typ);
    if pl.parts[p].topic.Main? {
      var op := Serial.Working(p, Tightness.BAD);
      Drain.TurnBurnsFuel(u, pl, op);
      t := WorkIsCalls(cfg, u, s, pl, pl.parts[p].owner, p, Tightness.BAD);
      WorkStays(u, pl, p, Tightness.BAD);
      after := Serial.Work(u, pl, p, Tightness.BAD);
    } else {
      var op := Serial.Forwarding(p, []);
      Drain.TurnBurnsFuel(u, pl, op);
      t := ForwardIsCalls(cfg, u, s, pl, pl.parts[p].owner, p, []);
      ForwardStays(u, pl, p, []);
      after := Serial.Forward(u, pl, p, []);
    }
    StillStaffed(cfg, s, t);
  }

  lemma {:induction false} DrainAll(cfg: Config, u: Serial.Setup, s: Sys, pl: Serial.Plant)
    returns (t: Sys, after: Serial.Plant)
    requires Shows(cfg, u, s, pl) && Staffed(cfg, s) && Drain.Sound(u, pl)
    ensures Reaches(cfg, s, t) && Shows(cfg, u, t, after) && Staffed(cfg, t) && Serial.Drained(after)
    decreases Drain.Fuel(pl)
  {
    if Serial.Drained(pl) {
      Stay(cfg, s);
      t, after := s, pl;
    } else {
      var p :| 0 <= p < |pl.parts| && !pl.parts[p].topic.Dlq? && pl.parts[p].pos < |pl.parts[p].log|;
      var m, next := DrainTurn(cfg, u, s, pl, p);
      t, after := DrainAll(cfg, u, m, next);
      Join(cfg, s, m, t);
    }
  }

  // ----- the theorem -----

  lemma {:induction false} PlainIsMindful(cfg: Config, s: Sys, es: seq<Event>)
    requires Plain(es)
    ensures Mindful(cfg, s, es)
    decreases |es|
  {
    if es != [] && Next(cfg, s, es[0]).Some? {
      assert es[0].IsPlain();
      PlainIsMindful(cfg, Next(cfg, s, es[0]).value, es[1..]);
    }
  }

  lemma ReachesKeeps(cfg: Config, s: Sys, done: Settled, t: Sys) returns (more: Settled)
    requires Inv(s, done) && Routing.Inv(cfg, s) && Reaches(cfg, s, t)
    ensures Inv(t, more) && Routing.Inv(cfg, t)
  {
    var es :| PlainRun(cfg, s, es, t);
    PlainIsMindful(cfg, s, es);
    more := InvRun(cfg, s, done, es, t);
    Routing.InvRun(cfg, s, es, t);
  }

  lemma IdleIsSound(cfg: Config, u: Serial.Setup, s: Sys, done: Settled)
    requires Held(s, done) && Routing.Inv(cfg, s) && Wired(u.route, s.parts)
    ensures Drain.Sound(u, Tightness.PlantOf(s))
  {
    forall p | 0 <= p < |s.parts| ensures s.parts[p].pos <= |s.parts[p].log| {
      assert Reading(s, done, p);
    }
  }

  /** With everything read and nothing in hand no message is open. */
  lemma DrainedIsDecided(s: Sys, done: Settled, j: JobId)
    requires Inv(s, done) && IsPublished(s, j)
    requires forall p :: 0 <= p < |s.parts| && !s.parts[p].topic.Dlq? ==> s.parts[p].pos >= |s.parts[p].log|
    requires (forall w :: 0 <= w < |s.workers| ==> s.workers[w].None?)
    requires forall r :: 0 <= r < |s.routers| ==> s.routers[r].None?
    ensures (exists p, i :: DeadFor(s, p, i, j)) || s.work.successes[j] > 0
  {
    assert Anchored(s, done, j);
    forall p: nat | p < |s.parts| && !s.parts[p].topic.Dlq? ensures UpTo(done, p, |s.parts[p].log|) {
      assert Reading(s, done, p);
    }
  }

  /**
   From every state that a run without forgetting failures can reach, with crashes and reaps anywhere, as soon as all
   partitions are manned there is a plain continuation after which every topic is drained, every worker and router
   idle, and every published job dead-lettered or recorded as a success.
   */
  lemma EveryJobCanBeDecided(cfg: Config, u: Serial.Setup, s: Sys, es: seq<Event>, t: Sys)
    returns (fs: seq<Event>, v: Sys)
    requires Init(s) && Mindful(cfg, s, es) && Run(cfg, s, es, t) && Manned(cfg, u, t)
    ensures Plain(fs) && Run(cfg, t, fs, v)
    ensures forall p :: 0 <= p < |v.parts| && !v.parts[p].topic.Dlq? ==> v.parts[p].pos >= |v.parts[p].log|
    ensures forall w :: 0 <= w < |v.workers| ==> v.workers[w].None?
    ensures forall r :: 0 <= r < |v.routers| ==> v.routers[r].None?
    ensures forall j :: IsPublished(v, j) ==> (exists p, i :: DeadFor(v, p, i, j)) || v.work.successes[j] > 0
  {
    var done := InvRun(cfg, s, {}, es, t);
    Routing.InvRun(cfg, s, es, t);
    var a := FinishWorkers(cfg, u, t, |t.workers|);
    var b := FinishRouters(cfg, u, a, |a.routers|);
    Join(cfg, t, a, b);
    var more := ReachesKeeps(cfg, t, done, b);
    IdleIsSound(cfg, u, b, more);
    var after;
    v, after := DrainAll(cfg, u, b, Tightness.PlantOf(b));
    Join(cfg, t, b, v);
    var all := ReachesKeeps(cfg, t, done, v);
    forall j | IsPublished(v, j) ensures (exists p, i :: DeadFor(v, p, i, j)) || v.work.successes[j] > 0 {
      DrainedIsDecided(v, all, j);
    }
    fs :| PlainRun(cfg, t, fs, v);
  }
}

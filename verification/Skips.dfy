/**
 What becomes of a retry whose republish failed. The router leaves it uncommitted for a restart to read again;
 the next message of the partition that is forwarded and committed takes it along.
 */
module Skips {
  import opened Prelude
  import opened Jobs
  import opened Broker
  import opened Protocol

  // ----- commits -----

  /** A router commits a message of partition `p`, whether it hears of it or not. */
  predicate CommitsAt(s: Sys, e: Event, p: nat) {
    match e
    case RouterCall(r, _) => r < |s.routers| && s.routers[r].Some? && s.routers[r].value.sent &&
    s.routers[r].value.part == p
    case RouterError(r, _, applied) =>
      applied && r < |s.routers| && s.routers[r].Some? && s.routers[r].value.sent && s.routers[r].value.part == p
    case _ => false
  }

  predicate SomeCommitAt(cfg: Config, s: Sys, es: seq<Event>, p: nat)
    decreases |es|
  {
    es != [] && Next(cfg, s, es[0]).Some? &&
    (CommitsAt(s, es[0], p) || SomeCommitAt(cfg, Next(cfg, s, es[0]).value, es[1..], p))
  }

  /** The offset of the last commit of partition `p` by a router. */
  function LastCommit(cfg: Config, s: Sys, es: seq<Event>, p: nat): Option<nat>
    decreases |es|
  {
    if es == [] || Next(cfg, s, es[0]).None? then None else
    var later := LastCommit(cfg, Next(cfg, s, es[0]).value, es[1..], p);
    if later.None? && CommitsAt(s, es[0], p) then Some(s.routers[es[0].i].value.off) else later
  }

  /** Workers hold messages of main topics only. */
  predicate OnMain(s: Sys) {
    forall w :: 0 <= w < |s.workers| && s.workers[w].Some? ==>
      s.workers[w].value.part < |s.parts| && s.parts[s.workers[w].value.part].topic.Main?
  }

  /** Logs that get longer concern no reader. */
  predicate OnlyLogs(a: seq<Part>, b: seq<Part>) {
    |a| == |b| && forall q :: 0 <= q < |a| ==> b[q] == a[q].(log := b[q].log)
  }

  lemma CallParts(cfg: Config, s: Sys, tier: Tier, k: Task, c: Choice)
    requires WorkCallEffect(cfg, s, tier, k, c).Some? && k.part < |s.parts|
    ensures var f := WorkCallEffect(cfg, s, tier, k, c).value;
            (f.task.Some? ==> f.task.value.part == k.part) && |f.parts| == |s.parts| &&
            forall p :: 0 <= p < |s.parts| && p != k.part ==> f.parts[p] == s.parts[p].(log := f.parts[p].log)
    ensures var f := WorkCallEffect(cfg, s, tier, k, c).value;
            f.parts[k.part] == s.parts[k.part].(log := f.parts[k.part].log, committed := f.parts[k.part].committed)
  {
  }

  lemma RouteParts(cfg: Config, s: Sys, tier: Tier, h: Haul, c: Choice)
    requires RouteCallEffect(cfg, s, tier, h, c).Some?
    ensures var f := RouteCallEffect(cfg, s, tier, h, c).value;
            if h.sent then f == RouteEffect(None, Commit(s.parts, h.part, h.off))
            else OnlyLogs(s.parts, f.parts) && f.haul == Some(h.(sent := true))
  {
  }

  lemma SubLogs(cfg: Config, s: Sys, b: Sub, c: Choice)
    requires SubCallEffect(cfg, s, b, c).Some?
    ensures OnlyLogs(s.parts, SubCallEffect(cfg, s, b, c).value.parts)
  {
  }

  lemma ReapLogs(cfg: Config, s: Sys, a: Reaper, c: Choice)
    requires ReapCallEffect(cfg, s, a, c).Some?
    ensures OnlyLogs(s.parts, ReapCallEffect(cfg, s, a, c).value.parts)
  {
  }

  // ----- what a restart reads again -----

  /** Retry partition `p` is where it was but for its reader's position, and workers are on main topics. */
  predicate CommittedAt(s: Sys, t: Sys, p: nat, committed: nat) {
    OnMain(t) && |t.parts| == |s.parts| && p < |t.parts| && t.parts[p].topic.RetryOf? &&
    t.parts[p].committed == committed
  }

  /** A worker's effect leaves a retry partition's commits alone. */
  lemma AppliedCommits(s: Sys, w: nat, f: WorkEffect, p: nat)
    requires OnMain(s) && p < |s.parts| && s.parts[p].topic.RetryOf? && w < |s.workers| && s.workers[w].Some?
    requires var k := s.workers[w].value;
             (f.task.Some? ==> f.task.value.part == k.part) && |f.parts| == |s.parts| && k.part < |s.parts| &&
             (forall q :: 0 <= q < |s.parts| ==> f.parts[q].topic == s.parts[q].topic) &&
             forall q :: 0 <= q < |s.parts| && q != k.part ==> f.parts[q].committed == s.parts[q].committed
    ensures CommittedAt(s, ApplyWork(s, w, f), p, s.parts[p].committed)
  {
  }

  lemma WorkerCommits(cfg: Config, s: Sys, e: Event, p: nat)
    requires OnMain(s) && p < |s.parts| && s.parts[p].topic.RetryOf? && (e.WorkerCall? || e.WorkerError?)
    requires Next(cfg, s, e).Some?
    ensures CommittedAt(s, Next(cfg, s, e).value, p, s.parts[p].committed)
  {
    var k := s.workers[e.i].value;
    var f := NoWorkEffect(s, k);
    if e.WorkerCall? || e.applied {
      CallParts(cfg, s, cfg.workerTier[e.i], k, e.c);
      f := WorkCallEffect(cfg, s, cfg.workerTier[e.i], k, e.c).value;
    }
    var t := Next(cfg, s, e).value;
    AppliedCommits(s, e.i, f.(task := t.workers[e.i]), p);
  }

  lemma RouterCommits(cfg: Config, s: Sys, e: Event, p: nat)
    requires OnMain(s) && p < |s.parts| && s.parts[p].topic.RetryOf? && (e.RouterCall? || e.RouterError?)
    requires Next(cfg, s, e).Some?
    ensures CommittedAt(s, Next(cfg, s, e).value, p,
              if CommitsAt(s, e, p) then s.routers[e.i].value.off + 1 else s.parts[p].committed)
  {
    if e.RouterCall? || e.applied {
      RouteParts(cfg, s, cfg.routerTier[e.i], s.routers[e.i].value, e.c);
    }
  }

  lemma PublishersCommit(cfg: Config, s: Sys, e: Event, p: nat)
    requires OnMain(s) && p < |s.parts| && s.parts[p].topic.RetryOf? && Next(cfg, s, e).Some?
    requires e.SubCall? || e.SubError? || e.ReaperCall? || e.ReaperError?
    ensures CommittedAt(s, Next(cfg, s, e).value, p, s.parts[p].committed)
  {
    if e.SubCall? || (e.SubError? && e.applied) { SubLogs(cfg, s, s.subs[e.i], e.c); }
    if e.ReaperCall? || (e.ReaperError? && e.applied) { ReapLogs(cfg, s, s.reapers[e.i], e.c); }
  }

  lemma OthersCommit(cfg: Config, s: Sys, e: Event, p: nat)
    requires OnMain(s) && p < |s.parts| && s.parts[p].topic.RetryOf? && Next(cfg, s, e).Some?
    requires e.IsCrash() || e.Tick? || e.Arrive? || e.Fetch? || e.Pick? || e.Beat? || e.Scan?
    ensures CommittedAt(s, Next(cfg, s, e).value, p, s.parts[p].committed)
  {
  }

  lemma {:induction false} CommittedIsLast(cfg: Config, s: Sys, es: seq<Event>, t: Sys, p: nat)
    requires OnMain(s) && p < |s.parts| && s.parts[p].topic.RetryOf? && Run(cfg, s, es, t)
    ensures var last := LastCommit(cfg, s, es, p);
            CommittedAt(s, t, p, if last.Some? then last.value + 1 else s.parts[p].committed)
    decreases |es|
  {
    if es != [] {
      if es[0].WorkerCall? || es[0].WorkerError? { WorkerCommits(cfg, s, es[0], p); }
      else if es[0].RouterCall? || es[0].RouterError? { RouterCommits(cfg, s, es[0], p); }
      else if es[0].SubCall? || es[0].SubError? || es[0].ReaperCall? || es[0].ReaperError? {
        PublishersCommit(cfg, s, es[0], p);
      } else { OthersCommit(cfg, s, es[0], p); }
      CommittedIsLast(cfg, Next(cfg, s, es[0]).value, es[1..], t, p);
    }
  }

  /**
   In any run whatever, with crashes, reassignments and failed calls: a restart would read the message at offset `o`
   of a
   retry partition again if and only if the last commit of that partition, if there was one, is of an earlier message.
   */
  lemma RestartReadsAgainIff(cfg: Config, s: Sys, es: seq<Event>, t: Sys, p: nat, o: nat, owner: nat)
    requires Init(s) && Run(cfg, s, es, t) && p < |s.parts| && s.parts[p].topic.RetryOf?
    ensures p < |t.parts|
    ensures Reassigned(t.parts[p], owner).pos <= o <==>
            LastCommit(cfg, s, es, p).None? || LastCommit(cfg, s, es, p).value < o
  {
    CommittedIsLast(cfg, s, es, t, p);
  }

  // ----- a skipped retry -----

  /** The partition keeps its owner, and its owner lives. */
  predicate Undisturbed(es: seq<Event>, p: nat, owner: nat) {
    forall i :: 0 <= i < |es| ==> es[i] != RouterCrash(owner) && !(es[i].Rebalance? && es[i].p == p)
  }

  /** The reader of retry partition `p` is past `o`, and so is whatever is in hand of it; workers have none of it. */
  predicate Beyond(s: Sys, p: nat, o: nat) {
    p < |s.parts| && s.parts[p].topic.RetryOf? && o < s.parts[p].pos &&
    (forall r :: 0 <= r < |s.routers| && s.routers[r].Some? && s.routers[r].value.part == p ==>
      o < s.routers[r].value.off) &&
    OnMain(s)
  }

  predicate Kept(s: Sys, t: Sys, p: nat, o: nat) {
    p < |s.parts| && Beyond(t, p, o) && t.parts[p].owner == s.parts[p].owner &&
    t.parts[p].committed == s.parts[p].committed
  }

  lemma WorkerEventBeyond(cfg: Config, s: Sys, e: Event, p: nat, o: nat)
    requires Beyond(s, p, o) && (e.WorkerCall? || e.WorkerError?) && Next(cfg, s, e).Some?
    ensures Kept(s, Next(cfg, s, e).value, p, o)
  {
    if e.WorkerCall? || e.applied {
      CallParts(cfg, s, cfg.workerTier[e.i], s.workers[e.i].value, e.c);
    }
  }

  lemma RouterEventBeyond(cfg: Config, s: Sys, e: Event, p: nat, o: nat)
    requires Beyond(s, p, o) && (e.RouterCall? || e.RouterError?) && Next(cfg, s, e).Some?
    ensures var t := Next(cfg, s, e).value;
            Beyond(t, p, o) && t.parts[p].owner == s.parts[p].owner &&
            if CommitsAt(s, e, p) then o < t.parts[p].committed else t.parts[p].committed == s.parts[p].committed
  {
    if e.RouterCall? || e.applied {
      RouteParts(cfg, s, cfg.routerTier[e.i], s.routers[e.i].value, e.c);
    }
  }

  lemma ReaderEventBeyond(cfg: Config, s: Sys, e: Event, p: nat, o: nat)
    requires Beyond(s, p, o) && (e.Fetch? || e.Pick?) && Next(cfg, s, e).Some?
    ensures Kept(s, Next(cfg, s, e).value, p, o)
  {
  }

  lemma CrashEventBeyond(s: Sys, e: Event, p: nat, o: nat)
    requires Beyond(s, p, o) && e.IsCrash() && StepCrash(s, e).Some?
    requires e != RouterCrash(s.parts[p].owner) && !(e.Rebalance? && e.p == p)
    ensures Kept(s, StepCrash(s, e).value, p, o)
  {
  }

  lemma QuietEventBeyond(cfg: Config, s: Sys, e: Event, p: nat, o: nat)
    requires Beyond(s, p, o) && (e.Tick? || e.Arrive? || e.Beat? || e.Scan?) && Next(cfg, s, e).Some?
    ensures Kept(s, Next(cfg, s, e).value, p, o)
  {
  }

  lemma PublisherEventBeyond(cfg: Config, s: Sys, e: Event, p: nat, o: nat)
    requires Beyond(s, p, o) && (e.SubCall? || e.SubError? || e.ReaperCall? || e.ReaperError?) && Next(cfg, s, e).Some?
    ensures Kept(s, Next(cfg, s, e).value, p, o)
  {
    if e.SubCall? || (e.SubError? && e.applied) { SubLogs(cfg, s, s.subs[e.i], e.c); }
    if e.ReaperCall? || (e.ReaperError? && e.applied) { ReapLogs(cfg, s, s.reapers[e.i], e.c); }
  }

  lemma OtherEventBeyond(cfg: Config, s: Sys, e: Event, p: nat, o: nat)
    requires Beyond(s, p, o) && e != RouterCrash(s.parts[p].owner) && !(e.Rebalance? && e.p == p)
    requires Next(cfg, s, e).Some?
    requires !e.WorkerCall? && !e.WorkerError? && !e.RouterCall? && !e.RouterError?
    ensures Kept(s, Next(cfg, s, e).value, p, o)
  {
    if e.IsCrash() { CrashEventBeyond(s, e, p, o); }
    else if e.Fetch? || e.Pick? { ReaderEventBeyond(cfg, s, e, p, o); }
    else if e.Tick? || e.Arrive? || e.Beat? || e.Scan? { QuietEventBeyond(cfg, s, e, p, o); }
    else { PublisherEventBeyond(cfg, s, e, p, o); }
  }

  lemma {:induction false} CommittedIff(cfg: Config, s: Sys, es: seq<Event>, t: Sys, p: nat, o: nat)
    requires Beyond(s, p, o) && Undisturbed(es, p, s.parts[p].owner) && Run(cfg, s, es, t)
    ensures Beyond(t, p, o) && (o < t.parts[p].committed <==> o < s.parts[p].committed || SomeCommitAt(cfg, s, es, p))
    decreases |es|
  {
    if es != [] {
      var m := Next(cfg, s, es[0]).value;
      assert es[0] != RouterCrash(s.parts[p].owner) && !(es[0].Rebalance? && es[0].p == p);
      if es[0].WorkerCall? || es[0].WorkerError? {
        WorkerEventBeyond(cfg, s, es[0], p, o);
      } else if es[0].RouterCall? || es[0].RouterError? {
        RouterEventBeyond(cfg, s, es[0], p, o);
      } else {
        OtherEventBeyond(cfg, s, es[0], p, o);
      }
      assert Undisturbed(es[1..], p, m.parts[p].owner) by {
        forall i | 0 <= i < |es[1..]|
          ensures es[1..][i] != RouterCrash(m.parts[p].owner) && !(es[1..][i].Rebalance? && es[1..][i].p == p)
        {
          assert es[1..][i] == es[i + 1];
        }
      }
      CommittedIff(cfg, m, es[1..], t, p, o);
    }
  }

  /** The router has the last message it read of partition `p` in hand, unsent, and nobody else has any of that
     partition. */
  predicate AboutToSend(s: Sys, r: nat, p: nat, o: nat) {
    r < |s.routers| && s.routers[r].Some? && !s.routers[r].value.sent && s.routers[r].value.part == p &&
    s.routers[r].value.off == o &&
    p < |s.parts| && s.parts[p].topic.RetryOf? && s.parts[p].owner == r && s.parts[p].pos == o + 1 &&
    s.parts[p].committed <= o &&
    (forall v :: 0 <= v < |s.routers| && v != r && s.routers[v].Some? ==> s.routers[v].value.part != p) &&
    OnMain(s)
  }

  /**
   After a failed republish, in any run in which the partition keeps its owner and its owner lives, with whatever else
   crashing and failing: a restart would read the message again exactly as long as no later message of the partition
   has been committed.
   */
  lemma SkippedRetryComesBackIff(cfg: Config, s: Sys, r: nat, c: Choice, p: nat, o: nat, es: seq<Event>, t: Sys,
    owner: nat)
    requires AboutToSend(s, r, p, o) && FailRouter(cfg, s, r, c, false).Some?
    requires Undisturbed(es, p, r) && Run(cfg, FailRouter(cfg, s, r, c, false).value, es, t)
    ensures p < |t.parts|
    ensures Reassigned(t.parts[p], owner).pos <= o <==> !SomeCommitAt(cfg, FailRouter(cfg, s, r, c, false).value, es, p)
  {
    CommittedIff(cfg, FailRouter(cfg, s, r, c, false).value, es, t, p, o);
  }
}

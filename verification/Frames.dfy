/** Which parts of the system each kind of process leaves alone. */
module Frames {
  import opened Jobs
  import opened Protocol

  predicate IsSub(e: Event) {
    e.Arrive? || e.SubCall? || e.SubError? || e.SubCrash?
  }

  predicate IsWork(e: Event) {
    e.Fetch? || e.WorkerCall? || e.WorkerError? || e.Beat? || e.WorkerCrash?
  }

  predicate IsRouting(e: Event) {
    e.Pick? || e.RouterCall? || e.RouterError? || e.RouterCrash?
  }

  predicate SameSubs(s: Sys, t: Sys) {
    t.subs == s.subs && t.subm == s.subm && t.claims == s.claims && t.rows.Keys == s.rows.Keys
  }

  predicate SameReaping(s: Sys, t: Sys) {
    t.reapers == s.reapers && t.reap == s.reap
  }

  predicate SameWork(s: Sys, t: Sys) {
    t.workers == s.workers && t.work == s.work
  }

  /** Apart from the clock and the logs, `t` differs from `s` at most in worker `w` and the rows' columns. */
  predicate OnlyWorker(s: Sys, t: Sys, w: nat) {
    SameSubs(s, t) && SameReaping(s, t) && t.routers == s.routers &&
    w < |s.workers| == |t.workers| && t.workers == s.workers[w := t.workers[w]]
  }

  lemma WorkKeys(cfg: Config, s: Sys, tier: Tier, k: Task, c: Choice)
    requires WorkCallEffect(cfg, s, tier, k, c).Some?
    ensures WorkCallEffect(cfg, s, tier, k, c).value.rows.Keys == s.rows.Keys
  {
  }

  /** Only the call after the INSERT publishes. */
  lemma SubPublishesNothing(cfg: Config, s: Sys, b: Sub, c: Choice)
    requires b.stage != Inserted && SubCallEffect(cfg, s, b, c).Some?
    ensures var f := SubCallEffect(cfg, s, b, c).value; f.parts == s.parts && f.log.subPubs == s.subm.subPubs
  {
  }

  lemma SubEvents(cfg: Config, s: Sys, e: Event)
    requires IsSub(e) && Next(cfg, s, e).Some?
    ensures var t := Next(cfg, s, e).value; SameReaping(s, t) && SameWork(s, t) && t.routers == s.routers
  {
  }

  lemma WorkEvents(cfg: Config, s: Sys, e: Event)
    requires IsWork(e) && Next(cfg, s, e).Some?
    ensures OnlyWorker(s, Next(cfg, s, e).value, e.i)
  {
    if e.WorkerCall? || (e.WorkerError? && e.applied) {
      WorkKeys(cfg, s, cfg.workerTier[e.i], s.workers[e.i].value, e.c);
    }
  }

  lemma RoutingEvents(cfg: Config, s: Sys, e: Event)
    requires IsRouting(e) && Next(cfg, s, e).Some?
    ensures var t := Next(cfg, s, e).value; SameSubs(s, t) && SameReaping(s, t) && SameWork(s, t) && t.rows == s.rows
  {
  }

  lemma ReapEvents(cfg: Config, s: Sys, e: Event)
    requires e.IsReap() && Next(cfg, s, e).Some?
    ensures var t := Next(cfg, s, e).value; SameSubs(s, t) && SameWork(s, t) && t.routers == s.routers
  {
  }

  lemma QuietEvents(cfg: Config, s: Sys, e: Event)
    requires (e.Tick? || e.Rebalance?) && Next(cfg, s, e).Some?
    ensures var t := Next(cfg, s, e).value;
            SameSubs(s, t) && SameReaping(s, t) && SameWork(s, t) && t.rows == s.rows && t.routers == s.routers
  {
  }

  lemma NotSub(cfg: Config, s: Sys, e: Event)
    requires !IsSub(e) && Next(cfg, s, e).Some?
    ensures SameSubs(s, Next(cfg, s, e).value)
  {
    if IsWork(e) { WorkEvents(cfg, s, e); }
    else if IsRouting(e) { RoutingEvents(cfg, s, e); }
    else if e.IsReap() { ReapEvents(cfg, s, e); }
    else { QuietEvents(cfg, s, e); }
  }

  lemma NotReap(cfg: Config, s: Sys, e: Event)
    requires !e.IsReap() && Next(cfg, s, e).Some?
    ensures SameReaping(s, Next(cfg, s, e).value)
  {
    if IsWork(e) { WorkEvents(cfg, s, e); }
    else if IsRouting(e) { RoutingEvents(cfg, s, e); }
    else if IsSub(e) { SubEvents(cfg, s, e); }
    else { QuietEvents(cfg, s, e); }
  }
}

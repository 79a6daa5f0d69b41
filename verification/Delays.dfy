/**
 How long a retry waits. On every run of the call-level machine the message on a retry topic names an instant in the
 window of its attempt after the failure, so a failed job's next run starts no earlier. In serialised runs the attempt
 is the number of runs so far: the n-th rerun waits 5^(n-1) seconds, by half at most more or less.
 */
module Delays {
  import opened Prelude
  import opened Jobs
  import opened Broker
  import opened Protocol
  import opened Text
  import opened Punctual
  import opened Backoff
  import Routing

  // ----- the window -----

  /**
   A message failed at `sent` names an instant in the window of retry number `n`: half of 5^(n-1) seconds later, less
   the second lost to truncation, and not more than one and a half times that.
   */
  ghost predicate Window(n: nat, sent: int, hs: seq<Header>)
    requires n >= 1
  {
    (forall now :: Passed(hs, now) ==> 2 * (now + 1_000_000_000) > 2 * sent + Pow5(n - 1) * 1_000_000_000) &&
    forall now :: 2 * now >= 2 * sent + 3 * Pow5(n - 1) * 1_000_000_000 ==> Passed(hs, now)
  }

  /** The header the worker appends is the one that counts, whatever the trace headers say. */
  lemma OwnHeaderCounts(trace: seq<Header>, at: int, now: int)
    requires Int64(at / SECOND)
    ensures Passed(RetryHeaders(trace, at), now) <==> at / SECOND * SECOND <= now
  {
    var hs := RetryHeaders(trace, at);
    FormatParse(at / SECOND);
    assert LastInstant(hs, |trace|) && hs[|trace|].value == FormatInt(at / SECOND);
    assert forall i :: 0 <= i < |hs| && LastInstant(hs, i) ==> i == |trace|;
  }

  lemma HeaderInWindow(trace: seq<Header>, sent: int, n: nat, jitter: real)
    requires 1 <= n <= 15 && Jitter(jitter) && Int64(NextAt(sent, n, jitter) / SECOND)
    ensures Window(n, sent, RetryHeaders(trace, NextAt(sent, n, jitter)))
  {
    WindowIffNoWrap(n, jitter);
    var at := NextAt(sent, n, jitter);
    forall now ensures Passed(RetryHeaders(trace, at), now) <==> at / SECOND * SECOND <= now {
      OwnHeaderCounts(trace, at, now);
    }
  }

  /** With a clock that fits 64 bits the instant does, for every attempt whose delay does. */
  lemma InstantFits(sent: int, n: nat, jitter: real)
    requires Int64(sent) && 1 <= n <= 15 && Jitter(jitter)
    ensures Int64(NextAt(sent, n, jitter) / SECOND)
  {
    WindowIffNoWrap(n, jitter);
  }

  // ----- on every run of the call-level machine -----

  /** A task past its load has the budget of every row. */
  predicate Budgeted(t: Option<Task>) {
    t.Some? && t.value.phase in {Loaded, InHandler, HandlerOk, HandlerErr} ==> t.value.max == MAX_ATTEMPTS
  }

  predicate AllBudgeted(s: Sys) {
    forall w :: 0 <= w < |s.workers| ==> Budgeted(s.workers[w])
  }

  lemma CallBudgeted(cfg: Config, s: Sys, tier: Tier, k: Task, c: Choice)
    requires Routing.RowsTyped(s.rows) && Budgeted(Some(k)) && WorkCallEffect(cfg, s, tier, k, c).Some?
    ensures Budgeted(WorkCallEffect(cfg, s, tier, k, c).value.task)
  {
  }

  lemma BudgetedNext(cfg: Config, s: Sys, e: Event)
    requires Routing.Inv(cfg, s) && AllBudgeted(s) && Next(cfg, s, e).Some?
    ensures AllBudgeted(Next(cfg, s, e).value)
  {
    if e.WorkerCall? || e.WorkerError? {
      assert Budgeted(s.workers[e.i]);
      if e.WorkerCall? || e.applied { CallBudgeted(cfg, s, cfg.workerTier[e.i], s.workers[e.i].value, e.c); }
    }
  }

  lemma {:induction false} BudgetedRun(cfg: Config, s: Sys, es: seq<Event>, t: Sys)
    requires Routing.Inv(cfg, s) && AllBudgeted(s) && Run(cfg, s, es, t)
    ensures AllBudgeted(t)
    decreases |es|
  {
    if es != [] {
      BudgetedNext(cfg, s, es[0]);
      Routing.InvNext(cfg, s, es[0]);
      BudgetedRun(cfg, Next(cfg, s, es[0]).value, es[1..], t);
    }
  }

  /** Every jitter the run draws is between a half and one and a half. */
  predicate Jittered(es: seq<Event>) {
    forall k :: 0 <= k < |es| && (es[k].WorkerCall? || es[k].WorkerError?) ==> Jitter(es[k].c.jitter)
  }

  /**
   The event publishes retry number `n` of the job a worker has just failed, and the message names an instant in that
   retry's window from now.
   */
  ghost predicate Retries(cfg: Config, s: Sys, e: Event, q: nat, m: Message, n: nat) {
    (e.WorkerCall? || e.WorkerError?) && Appends(cfg, s, e, q, m) && 1 <= n &&
    e.i < |s.workers| && s.workers[e.i].Some? &&
    var k := s.workers[e.i].value;
    k.phase == HandlerErr && n == k.att + 1 < k.max && m == k.msg.(key := k.msg.id, headers := m.headers) &&
    Window(n, s.now, m.headers)
  }

  /** Only a worker whose handler has failed writes to a retry topic. */
  lemma RetryWriters(cfg: Config, s: Sys, e: Event, q: nat)
    requires Next(cfg, s, e).Some? && q < |s.parts| && s.parts[q].topic.RetryOf?
    requires q < |Next(cfg, s, e).value.parts| && |s.parts[q].log| < |Next(cfg, s, e).value.parts[q].log|
    ensures e.WorkerCall? || (e.WorkerError? && e.applied)
  {
    if e.SubCall? || (e.SubError? && e.applied) { SubElsewhere(cfg, s, s.subs[e.i], e.c, q); }
    else if e.ReaperCall? || (e.ReaperError? && e.applied) { ReapElsewhere(cfg, s, s.reapers[e.i], e.c, q); }
    else if e.RouterCall? || (e.RouterError? && e.applied) {
      RouteElsewhere(cfg, s, cfg.routerTier[e.i], s.routers[e.i].value, e.c, q);
    }
  }

  predicate SameLog(a: seq<Part>, b: seq<Part>, q: nat) {
    q < |a| && q < |b| && b[q].log == a[q].log
  }

  lemma SubElsewhere(cfg: Config, s: Sys, b: Sub, c: Choice, q: nat)
    requires SubCallEffect(cfg, s, b, c).Some? && q < |s.parts| && s.parts[q].topic.RetryOf?
    ensures SameLog(s.parts, SubCallEffect(cfg, s, b, c).value.parts, q)
  {
  }

  lemma ReapElsewhere(cfg: Config, s: Sys, a: Reaper, c: Choice, q: nat)
    requires ReapCallEffect(cfg, s, a, c).Some? && q < |s.parts| && s.parts[q].topic.RetryOf?
    ensures SameLog(s.parts, ReapCallEffect(cfg, s, a, c).value.parts, q)
  {
  }

  lemma RouteElsewhere(cfg: Config, s: Sys, tier: Tier, h: Haul, c: Choice, q: nat)
    requires RouteCallEffect(cfg, s, tier, h, c).Some? && q < |s.parts| && s.parts[q].topic.RetryOf?
    ensures SameLog(s.parts, RouteCallEffect(cfg, s, tier, h, c).value.parts, q)
  {
  }

  lemma WorkerRetries(cfg: Config, s: Sys, tier: Tier, k: Task, c: Choice, q: nat)
    requires WorkCallEffect(cfg, s, tier, k, c).Some? && q < |s.parts| && s.parts[q].topic.RetryOf?
    ensures var parts := WorkCallEffect(cfg, s, tier, k, c).value.parts;
            q < |parts| &&
            (|s.parts[q].log| < |parts[q].log| ==>
              k.phase == HandlerErr && k.att + 1 < k.max &&
              parts[q].log == s.parts[q].log +
                [k.msg.(key := k.msg.id, headers := RetryHeaders(c.headers, NextAt(s.now, k.att + 1, c.jitter)))])
  {
  }

  /** The message a failing worker appends, and its headers. */
  lemma PublishHeaders(cfg: Config, s: Sys, e: Event, q: nat)
    requires Next(cfg, s, e).Some? && q < |s.parts| && s.parts[q].topic.RetryOf?
    requires q < |Next(cfg, s, e).value.parts| && |s.parts[q].log| < |Next(cfg, s, e).value.parts[q].log|
    ensures (e.WorkerCall? || e.WorkerError?) && e.i < |s.workers| && s.workers[e.i].Some?
    ensures var k := s.workers[e.i].value;
            k.phase == HandlerErr && k.att + 1 < k.max &&
            var headers := RetryHeaders(e.c.headers, NextAt(s.now, k.att + 1, e.c.jitter));
            Appends(cfg, s, e, q, k.msg.(key := k.msg.id, headers := headers))
  {
    RetryWriters(cfg, s, e, q);
    WorkerRetries(cfg, s, cfg.workerTier[e.i], s.workers[e.i].value, e.c, q);
  }

  lemma RetryInWindow(trace: seq<Header>, sent: int, n: nat, jitter: real)
    requires Int64(sent) && 1 <= n <= 15 && Jitter(jitter)
    ensures Window(n, sent, RetryHeaders(trace, NextAt(sent, n, jitter)))
  {
    InstantFits(sent, n, jitter);
    HeaderInWindow(trace, sent, n, jitter);
  }

  lemma PublishInWindow(cfg: Config, s: Sys, e: Event, q: nat) returns (n: nat, m: Message)
    requires AllBudgeted(s) && Int64(s.now) && Next(cfg, s, e).Some? && q < |s.parts| && s.parts[q].topic.RetryOf?
    requires q < |Next(cfg, s, e).value.parts| && |s.parts[q].log| < |Next(cfg, s, e).value.parts[q].log|
    requires e.WorkerCall? || e.WorkerError? ==> Jitter(e.c.jitter)
    ensures n <= 2 && Retries(cfg, s, e, q, m, n)
  {
    PublishHeaders(cfg, s, e, q);
    var k := s.workers[e.i].value;
    assert Budgeted(s.workers[e.i]);
    n := k.att + 1;
    m := k.msg.(key := k.msg.id, headers := RetryHeaders(e.c.headers, NextAt(s.now, n, e.c.jitter)));
    RetryInWindow(e.c.headers, s.now, n, e.c.jitter);
  }

  /**
   On every run: every message on a retry topic was put there by a worker whose handler had just failed, and names an
   instant in the window of its attempt from then.
   */
  lemma RetryNamesItsInstant(cfg: Config, s: Sys, es: seq<Event>, t: Sys, q: nat, i: nat)
    returns (k: nat, a: Sys, n: nat)
    requires Init(s) && Run(cfg, s, es, t) && Jittered(es) && Int64(s.now) && Int64(t.now)
    requires q < |t.parts| && t.parts[q].topic.RetryOf? && i < |t.parts[q].log|
    ensures k < |es| && Run(cfg, s, es[..k], a) && a.now <= t.now && q < |a.parts| && |a.parts[q].log| == i && n <= 2
    ensures Retries(cfg, a, es[k], q, t.parts[q].log[i], n)
  {
    RunLogs(cfg, s, es, t);
    k, a := WhoWrote(cfg, s, es, t, q, i);
    RunLogs(cfg, s, es[..k], a);
    ClockRuns(cfg, s, es[..k], a);
    Routing.InvRun(cfg, s, es[..k], a);
    BudgetedRun(cfg, s, es[..k], a);
    var m;
    n, m := PublishInWindow(cfg, a, es[k], q);
    assert Next(cfg, a, es[k]).value.parts[q].log[i] == m;
  }

  /**
   On every run, crashes and failed calls included: a worker that holds a retry's copy, in whatever phase, holds it at
   least half of 5^(n-1) seconds, less one, after the failure that retry number `n` was published for.
   */
  lemma RerunsWait(cfg: Config, s: Sys, es: seq<Event>, t: Sys, w: nat)
    returns (a: Sys, e: Event, q: nat, m: Message, n: nat)
    requires Init(s) && Run(cfg, s, es, t) && Jittered(es) && Int64(s.now) && Int64(t.now)
    requires w < |t.workers| && t.workers[w].Some? && t.workers[w].value.msg.key != t.workers[w].value.msg.device
    ensures Retries(cfg, a, e, q, m, n) && m == t.workers[w].value.msg.(headers := m.headers)
    ensures 2 * (t.now + 1_000_000_000) > 2 * a.now + Pow5(n - 1) * 1_000_000_000
  {
    var k, b, p, i := HandlerHasWaited(cfg, s, es, t, w);
    var l;
    m := b.parts[p].log[i];
    RunLogs(cfg, s, es[..k], b);
    ClockRuns(cfg, s, es[..k], b);
    l, a, n := RetryNamesItsInstant(cfg, s, es[..k], b, p, i);
    e, q := es[l], p;
  }
}

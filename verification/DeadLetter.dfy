/**
 No early dead-lettering and bounded reaping, on every run: crashes, reaps, duplicates and failed calls included.
 Both are about the attempts column: every failure or requeue raises it at most once, every reaper publish
 stands for a value of it that no other publish stands for.
 */
module DeadLetter {
  import opened Prelude
  import opened Jobs
  import opened Store
  import opened Broker
  import opened Protocol
  import opened Frames
  import Routing

  /** A failed run whose increment has not landed. */
  function Owed(j: JobId): Option<Task> -> nat {
    (t: Option<Task>) =>
      if t.Some? && t.value.msg.id == j && t.value.phase in {HandlerErr, RetrySent, RetryMarked} then 1 else 0
  }

  /** A requeued row waiting to be published. */
  function Waiting(j: JobId): Reaper -> nat {
    (a: Reaper) => if a.pending.Some? && a.pending.value.0 == j then 1 else 0
  }

  function Attempts(rows: Table, j: JobId): nat {
    if j in rows then rows[j].attempts else 0
  }

  /** The attempts column never runs ahead of the failures and requeues that explain it. */
  ghost predicate Explained(s: Sys, j: JobId) {
    Attempts(s.rows, j) + Count(s.workers, Owed(j)) <= s.work.failures[j] + s.reap.requeues[j]
  }

  /** Every reaper publish, made or waiting, has used up an attempt of the job's budget. */
  ghost predicate Budgeted(s: Sys, j: JobId) {
    var n := s.reap.reaperPubs[j] + Count(s.reapers, Waiting(j));
    n <= Attempts(s.rows, j) && n <= s.reap.requeues[j] && (j in s.rows ==> n <= s.rows[j].maxAttempts)
  }

  /** What a worker read of a row is not ahead of the row. */
  predicate Behind(rows: Table, t: Option<Task>) {
    t.Some? && t.value.phase !in {Fetched, Done} ==>
      t.value.msg.id in rows && t.value.att <= rows[t.value.msg.id].attempts &&
      t.value.max == rows[t.value.msg.id].maxAttempts
  }

  ghost predicate Exhausted(s: Sys, j: JobId) {
    j in s.rows && s.work.failures[j] + s.reap.requeues[j] >= s.rows[j].maxAttempts
  }

  ghost predicate DeadAreExhausted(s: Sys) {
    forall p, i :: 0 <= p < |s.parts| && s.parts[p].topic == Dlq && 0 <= i < |s.parts[p].log| ==>
      Exhausted(s, s.parts[p].log[i].id)
  }

  ghost predicate Inv(s: Sys) {
    (forall j :: Explained(s, j)) && (forall j :: Budgeted(s, j)) &&
    (forall w :: 0 <= w < |s.workers| ==> Behind(s.rows, s.workers[w])) && DeadAreExhausted(s)
  }

  // ----- what a call may do -----

  /** A worker's call: attempts only rise with a debt paid, debts only rise with a failure. */
  ghost predicate Lawful(s: Sys, t: Option<Task>, f: WorkEffect) {
    Grows(s.rows, f.rows) && f.rows.Keys == s.rows.Keys && Behind(f.rows, f.task) &&
    forall j :: s.work.failures[j] <= f.log.failures[j] &&
      Attempts(f.rows, j) + Owed(j)(f.task) + s.work.failures[j] <=
      Attempts(s.rows, j) + Owed(j)(t) + f.log.failures[j]
  }

  lemma CallPays(cfg: Config, s: Sys, tier: Tier, k: Task, c: Choice, j: JobId)
    requires WorkCallEffect(cfg, s, tier, k, c).Some?
    ensures var f := WorkCallEffect(cfg, s, tier, k, c).value;
            s.work.failures[j] <= f.log.failures[j] &&
            Attempts(f.rows, j) + Owed(j)(f.task) + s.work.failures[j] <=
            Attempts(s.rows, j) + Owed(j)(Some(k)) + f.log.failures[j]
  {
  }

  lemma CallIsLawful(cfg: Config, s: Sys, tier: Tier, k: Task, c: Choice)
    requires Behind(s.rows, Some(k)) && WorkCallEffect(cfg, s, tier, k, c).Some?
    ensures Lawful(s, Some(k), WorkCallEffect(cfg, s, tier, k, c).value)
  {
    var f := WorkCallEffect(cfg, s, tier, k, c).value;
    Routing.WorkGrows(cfg, s, tier, k, c);
    WorkKeys(cfg, s, tier, k, c);
    forall j ensures s.work.failures[j] <= f.log.failures[j] &&
      Attempts(f.rows, j) + Owed(j)(f.task) + s.work.failures[j] <=
      Attempts(s.rows, j) + Owed(j)(Some(k)) + f.log.failures[j]
    {
      CallPays(cfg, s, tier, k, c, j);
    }
  }

  lemma LawfulKeepsCounts(s: Sys, w: nat, f: WorkEffect)
    requires Inv(s) && w < |s.workers| && Lawful(s, s.workers[w], f)
    ensures var t := ApplyWork(s, w, f);
            (forall j :: Explained(t, j)) && (forall j :: Budgeted(t, j)) &&
            (forall v :: 0 <= v < |t.workers| ==> Behind(t.rows, t.workers[v]))
  {
    var t := ApplyWork(s, w, f);
    forall j ensures Explained(t, j) && Budgeted(t, j) {
      assert Explained(s, j) && Budgeted(s, j);
      CountUpdate(s.workers, w, f.task, Owed(j));
    }
  }

  /** Giving up on a message pays nothing and owes nothing. */
  lemma AbandonIsLawful(s: Sys, t: Option<Task>, f: WorkEffect, g: Option<Task>)
    requires Lawful(s, t, f) && (g.None? || g.value.phase == Done)
    ensures Lawful(s, t, f.(task := g))
  {
  }

  lemma WorkerCounts(cfg: Config, s: Sys, e: Event)
    requires Inv(s) && (e.WorkerCall? || e.WorkerError?) && Next(cfg, s, e).Some?
    ensures var t := Next(cfg, s, e).value;
            (forall j :: Explained(t, j)) && (forall j :: Budgeted(t, j)) &&
            (forall v :: 0 <= v < |t.workers| ==> Behind(t.rows, t.workers[v]))
    ensures forall j :: s.work.failures[j] <= Next(cfg, s, e).value.work.failures[j]
  {
    var t := Next(cfg, s, e).value;
    var k := s.workers[e.i].value;
    assert Behind(s.rows, s.workers[e.i]);
    var f := NoWorkEffect(s, k);
    if e.WorkerCall? || e.applied {
      CallIsLawful(cfg, s, cfg.workerTier[e.i], k, e.c);
      f := WorkCallEffect(cfg, s, cfg.workerTier[e.i], k, e.c).value;
    }
    var g := t.workers[e.i];
    if e.WorkerError? {
      AbandonIsLawful(s, Some(k), f, g);
    }
    LawfulKeepsCounts(s, e.i, f.(task := g));
    assert t == ApplyWork(s, e.i, f.(task := g));
  }

  // ----- the dead-letter topic -----

  /** The dead-letter logs are untouched. */
  ghost predicate SameDlq(a: seq<Part>, b: seq<Part>) {
    |a| == |b| && forall p :: 0 <= p < |a| ==> b[p].topic == a[p].topic && (a[p].topic == Dlq ==> b[p].log == a[p].log)
  }

  lemma CallDlq(cfg: Config, s: Sys, tier: Tier, k: Task, c: Choice)
    requires WorkCallEffect(cfg, s, tier, k, c).Some? && HasHandler(k.msg.typ)
    requires !(k.phase == HandlerErr && k.att + 1 >= k.max)
    ensures SameDlq(s.parts, WorkCallEffect(cfg, s, tier, k, c).value.parts)
  {
  }

  lemma SubDlq(cfg: Config, s: Sys, b: Sub, c: Choice)
    requires SubCallEffect(cfg, s, b, c).Some?
    ensures SameDlq(s.parts, SubCallEffect(cfg, s, b, c).value.parts)
  {
  }

  lemma RouteDlq(cfg: Config, s: Sys, tier: Tier, h: Haul, c: Choice)
    requires RouteCallEffect(cfg, s, tier, h, c).Some?
    ensures SameDlq(s.parts, RouteCallEffect(cfg, s, tier, h, c).value.parts)
  {
  }

  lemma ReapDlq(cfg: Config, s: Sys, a: Reaper, c: Choice)
    requires ReapCallEffect(cfg, s, a, c).Some?
    ensures SameDlq(s.parts, ReapCallEffect(cfg, s, a, c).value.parts)
  {
  }

  /** Only workers publish to the dead-letter topic. */
  lemma OtherDlq(cfg: Config, s: Sys, e: Event)
    requires !e.WorkerCall? && !e.WorkerError? && Next(cfg, s, e).Some?
    ensures SameDlq(s.parts, Next(cfg, s, e).value.parts)
  {
    if e.SubCall? || (e.SubError? && e.applied) {
      SubDlq(cfg, s, s.subs[e.i], e.c);
    } else if e.RouterCall? || (e.RouterError? && e.applied) {
      RouteDlq(cfg, s, cfg.routerTier[e.i], s.routers[e.i].value, e.c);
    } else if e.ReaperCall? || (e.ReaperError? && e.applied) {
      ReapDlq(cfg, s, s.reapers[e.i], e.c);
    }
  }

  lemma SameDlqKeepsExhausted(s: Sys, t: Sys)
    requires DeadAreExhausted(s) && SameDlq(s.parts, t.parts) && Grows(s.rows, t.rows)
    requires forall j :: s.work.failures[j] <= t.work.failures[j] && s.reap.requeues[j] <= t.reap.requeues[j]
    ensures DeadAreExhausted(t)
  {
    forall p, i | 0 <= p < |t.parts| && t.parts[p].topic == Dlq && 0 <= i < |t.parts[p].log|
      ensures Exhausted(t, t.parts[p].log[i].id)
    {
      assert Exhausted(s, s.parts[p].log[i].id);
    }
  }

  /** The dead-letter decision is taken only when the budget is spent. */
  lemma DeadLetterIsDue(cfg: Config, s: Sys, w: nat, c: Choice)
    requires Inv(s) && w < |s.workers| && s.workers[w].Some?
    requires var k := s.workers[w].value; k.phase == HandlerErr && k.att + 1 >= k.max
    ensures Exhausted(s, s.workers[w].value.msg.id)
  {
    var k := s.workers[w].value;
    var j := k.msg.id;
    assert Behind(s.rows, s.workers[w]) && Explained(s, j);
    CountMember(s.workers, w, Owed(j));
    assert Owed(j)(s.workers[w]) == 1;
  }

  lemma DeadLetterKeepsExhausted(cfg: Config, s: Sys, t: Sys, w: nat, c: Choice)
    requires Inv(s) && w < |s.workers| && s.workers[w].Some?
    requires s.workers[w].value.phase == HandlerErr && s.workers[w].value.att + 1 >= s.workers[w].value.max
    requires Routed(cfg.route, s.parts, Dlq, s.workers[w].value.msg.id)
    requires t.parts == Append(cfg.route, s.parts, Dlq, Resent(s, s.workers[w].value, c))
    requires t.rows == s.rows && t.work == s.work && t.reap == s.reap
    ensures DeadAreExhausted(t)
  {
    DeadLetterIsDue(cfg, s, w, c);
    forall p, i | 0 <= p < |t.parts| && t.parts[p].topic == Dlq && 0 <= i < |t.parts[p].log|
      ensures Exhausted(t, t.parts[p].log[i].id)
    {
      if i < |s.parts[p].log| {
        assert Exhausted(s, s.parts[p].log[i].id);
      }
    }
  }

  lemma WorkerDlq(cfg: Config, s: Sys, e: Event)
    requires Inv(s) && Routing.Inv(cfg, s) && (e.WorkerCall? || e.WorkerError?) && Next(cfg, s, e).Some?
    requires Grows(s.rows, Next(cfg, s, e).value.rows)
    requires forall j :: s.work.failures[j] <= Next(cfg, s, e).value.work.failures[j]
    ensures DeadAreExhausted(Next(cfg, s, e).value)
  {
    assert Routing.TaskOk(cfg, s.rows, e.i, s.workers[e.i]);
    RegistryIsTotalOnValid(s.workers[e.i].value.msg.typ);
    if e.WorkerCall? { CallEventDlq(cfg, s, e.i, e.c); } else { ErrorEventDlq(cfg, s, e.i, e.c, e.applied); }
  }

  lemma CallEventDlq(cfg: Config, s: Sys, w: nat, c: Choice)
    requires Inv(s) && StepWorker(cfg, s, w, c).Some? && Grows(s.rows, StepWorker(cfg, s, w, c).value.rows)
    requires var m := s.workers[w].value.msg; m.tier == cfg.workerTier[w] && m.id in s.rows && HasHandler(m.typ)
    requires forall j :: s.work.failures[j] <= StepWorker(cfg, s, w, c).value.work.failures[j]
    ensures DeadAreExhausted(StepWorker(cfg, s, w, c).value)
  {
    var f := WorkCallEffect(cfg, s, cfg.workerTier[w], s.workers[w].value, c).value;
    AppliedDlq(cfg, s, StepWorker(cfg, s, w, c).value, w, c, f);
  }

  lemma ErrorEventDlq(cfg: Config, s: Sys, w: nat, c: Choice, applied: bool)
    requires Inv(s) && FailWorker(cfg, s, w, c, applied).Some?
    requires Grows(s.rows, FailWorker(cfg, s, w, c, applied).value.rows)
    requires var m := s.workers[w].value.msg; m.tier == cfg.workerTier[w] && m.id in s.rows && HasHandler(m.typ)
    requires forall j :: s.work.failures[j] <= FailWorker(cfg, s, w, c, applied).value.work.failures[j]
    ensures DeadAreExhausted(FailWorker(cfg, s, w, c, applied).value)
  {
    var t := FailWorker(cfg, s, w, c, applied).value;
    if applied {
      AppliedDlq(cfg, s, t, w, c, WorkCallEffect(cfg, s, cfg.workerTier[w], s.workers[w].value, c).value);
    } else {
      SameDlqKeepsExhausted(s, t);
    }
  }

  lemma AppliedDlq(cfg: Config, s: Sys, t: Sys, w: nat, c: Choice, f: WorkEffect)
    requires Inv(s) && w < |s.workers| && w < |cfg.workerTier| && s.workers[w].Some?
    requires var k := s.workers[w].value;
             k.msg.tier == cfg.workerTier[w] && k.msg.id in s.rows && HasHandler(k.msg.typ) &&
             WorkCallEffect(cfg, s, cfg.workerTier[w], k, c) == Some(f)
    requires t.parts == f.parts && t.rows == f.rows && t.work == f.log && t.reap == s.reap && Grows(s.rows, t.rows)
    requires forall j :: s.work.failures[j] <= t.work.failures[j]
    ensures DeadAreExhausted(t)
  {
    var k := s.workers[w].value;
    if k.phase == HandlerErr && k.att + 1 >= k.max {
      DeadLetterKeepsExhausted(cfg, s, t, w, c);
    } else {
      CallDlq(cfg, s, cfg.workerTier[w], k, c);
      SameDlqKeepsExhausted(s, t);
    }
  }

  // ----- reaper calls and the rest -----

  lemma ReapPays(cfg: Config, s: Sys, a: Reaper, c: Choice, j: JobId)
    requires ReapCallEffect(cfg, s, a, c).Some?
    requires s.reap.reaperPubs[j] + Waiting(j)(a) <= Attempts(s.rows, j)
    ensures var f := ReapCallEffect(cfg, s, a, c).value;
            var risen := Attempts(f.rows, j) - Attempts(s.rows, j);
            0 <= risen == f.log.requeues[j] - s.reap.requeues[j] &&
            f.log.reaperPubs[j] + Waiting(j)(f.reaper) <= s.reap.reaperPubs[j] + Waiting(j)(a) + risen &&
            (j in s.rows && risen > 0 && Attempts(f.rows, j) > f.rows[j].maxAttempts ==>
             f.log.reaperPubs[j] + Waiting(j)(f.reaper) <= s.reap.reaperPubs[j] + Waiting(j)(a))
  {
  }

  lemma ReapErrorPays(cfg: Config, s: Sys, i: nat, c: Choice, applied: bool)
    requires Inv(s) && FailReaper(cfg, s, i, c, applied).Some?
    ensures var t := FailReaper(cfg, s, i, c, applied).value; forall j :: Explained(t, j) && Budgeted(t, j)
  {
    var t := FailReaper(cfg, s, i, c, applied).value;
    forall j ensures Explained(t, j) && Budgeted(t, j) {
      assert Explained(s, j) && Budgeted(s, j);
      CountUpdate(s.reapers, i, t.reapers[i], Waiting(j));
      CountMember(s.reapers, i, Waiting(j));
      if applied {
        ReapPays(cfg, s, s.reapers[i], c, j);
      }
    }
  }

  lemma ReapCallPays(cfg: Config, s: Sys, i: nat, c: Choice)
    requires Inv(s) && StepReaper(cfg, s, i, c).Some?
    ensures var t := StepReaper(cfg, s, i, c).value; forall j :: Explained(t, j) && Budgeted(t, j)
  {
    var t := StepReaper(cfg, s, i, c).value;
    forall j ensures Explained(t, j) && Budgeted(t, j) {
      assert Explained(s, j) && Budgeted(s, j);
      CountUpdate(s.reapers, i, t.reapers[i], Waiting(j));
      CountMember(s.reapers, i, Waiting(j));
      ReapPays(cfg, s, s.reapers[i], c, j);
    }
  }

  /** Replacing a reaper by one with nothing to publish. */
  lemma ReaperIdles(s: Sys, i: nat, a: Reaper)
    requires Inv(s) && i < |s.reapers| && a.pending.None?
    ensures var t := s.(reapers := s.reapers[i := a]); forall j :: Explained(t, j) && Budgeted(t, j)
  {
    var t := s.(reapers := s.reapers[i := a]);
    forall j ensures Explained(t, j) && Budgeted(t, j) {
      assert Explained(s, j) && Budgeted(s, j);
      CountUpdate(s.reapers, i, a, Waiting(j));
    }
  }

  /** Events that move neither attempts nor debts. */
  lemma CarryOver(s: Sys, t: Sys)
    requires Inv(s) && SameReaping(s, t) && t.work.failures == s.work.failures && Grows(s.rows, t.rows)
    requires forall j :: Attempts(t.rows, j) == Attempts(s.rows, j)
    requires forall j :: Count(t.workers, Owed(j)) <= Count(s.workers, Owed(j))
    ensures forall j :: Explained(t, j) && Budgeted(t, j)
  {
    forall j ensures Explained(t, j) && Budgeted(t, j) {
      assert Explained(s, j) && Budgeted(s, j);
    }
  }

  lemma SubEvent(cfg: Config, s: Sys, e: Event)
    requires Inv(s) && IsSub(e) && Next(cfg, s, e).Some?
    ensures Inv(Next(cfg, s, e).value)
  {
    var t := Next(cfg, s, e).value;
    Frames.SubEvents(cfg, s, e);
    Routing.NextGrows(cfg, s, e);
    OtherDlq(cfg, s, e);
    if e.SubCall? || (e.SubError? && e.applied) {
      SubAttempts(cfg, s, s.subs[e.i], e.c);
    }
    CarryOver(s, t);
    SameDlqKeepsExhausted(s, t);
  }

  lemma SubAttempts(cfg: Config, s: Sys, b: Sub, c: Choice)
    requires SubCallEffect(cfg, s, b, c).Some?
    ensures forall j :: Attempts(SubCallEffect(cfg, s, b, c).value.rows, j) == Attempts(s.rows, j)
  {
  }

  /** A worker that goes idle or takes a new message owes nothing for it. */
  lemma IdleWorker(s: Sys, w: nat, g: Option<Task>)
    requires w < |s.workers| && (g.None? || g.value.phase == Fetched)
    ensures forall j :: Count(s.workers[w := g], Owed(j)) <= Count(s.workers, Owed(j))
  {
    forall j ensures Count(s.workers[w := g], Owed(j)) <= Count(s.workers, Owed(j)) {
      CountUpdate(s.workers, w, g, Owed(j));
    }
  }

  lemma OtherWorkEvent(cfg: Config, s: Sys, e: Event)
    requires Inv(s) && (e.Fetch? || e.Beat? || e.WorkerCrash?) && Next(cfg, s, e).Some?
    ensures Inv(Next(cfg, s, e).value)
  {
    var t := Next(cfg, s, e).value;
    Routing.NextGrows(cfg, s, e);
    OtherDlq(cfg, s, e);
    if !e.Beat? {
      IdleWorker(s, e.i, t.workers[e.i]);
    }
    CarryOver(s, t);
    SameDlqKeepsExhausted(s, t);
  }

  lemma ReapEvent(cfg: Config, s: Sys, e: Event)
    requires Inv(s) && e.IsReap() && Next(cfg, s, e).Some?
    ensures Inv(Next(cfg, s, e).value)
  {
    var t := Next(cfg, s, e).value;
    Frames.ReapEvents(cfg, s, e);
    Routing.NextGrows(cfg, s, e);
    OtherDlq(cfg, s, e);
    ReapCounts(cfg, s, e);
    SameDlqKeepsExhausted(s, t);
  }

  lemma ReapCounts(cfg: Config, s: Sys, e: Event)
    requires Inv(s) && e.IsReap() && Next(cfg, s, e).Some?
    ensures forall j :: Explained(Next(cfg, s, e).value, j) && Budgeted(Next(cfg, s, e).value, j)
  {
    match e {
      case Scan(i, ids) => ReaperIdles(s, i, Reaper(ids, None));
      case ReaperCrash(i) => ReaperIdles(s, i, Reaper([], None));
      case ReaperCall(i, c) => ReapCallPays(cfg, s, i, c);
      case ReaperError(i, c, applied) => ReapErrorPays(cfg, s, i, c, applied);
    }
  }

  lemma InvNext(cfg: Config, s: Sys, e: Event)
    requires Inv(s) && Routing.Inv(cfg, s) && Next(cfg, s, e).Some?
    ensures Inv(Next(cfg, s, e).value)
  {
    var t := Next(cfg, s, e).value;
    if IsSub(e) { SubEvent(cfg, s, e); }
    else if e.IsReap() { ReapEvent(cfg, s, e); }
    else if e.WorkerCall? || e.WorkerError? {
      Routing.NextGrows(cfg, s, e);
      WorkerCounts(cfg, s, e);
      WorkerDlq(cfg, s, e);
    } else if IsWork(e) { OtherWorkEvent(cfg, s, e); }
    else {
      if IsRouting(e) { Frames.RoutingEvents(cfg, s, e); } else { Frames.QuietEvents(cfg, s, e); }
      OtherDlq(cfg, s, e);
      CarryOver(s, t);
      SameDlqKeepsExhausted(s, t);
    }
  }

  lemma {:induction false} InvRun(cfg: Config, s: Sys, es: seq<Event>, t: Sys)
    requires Inv(s) && Routing.Inv(cfg, s) && Run(cfg, s, es, t)
    ensures Inv(t)
    decreases |es|
  {
    if es != [] {
      InvNext(cfg, s, es[0]);
      Routing.InvNext(cfg, s, es[0]);
      InvRun(cfg, Next(cfg, s, es[0]).value, es[1..], t);
    }
  }

  lemma InitInv(s: Sys)
    requires Init(s)
    ensures Inv(s)
  {
    forall j ensures Explained(s, j) && Budgeted(s, j) {
      CountZero(s.workers, Owed(j));
      CountZero(s.reapers, Waiting(j));
    }
  }

  // ----- the theorems -----

  /** A message reaches jobs.dlq only once the job's failures and requeues fill its budget. */
  lemma NoEarlyDeadLetter(cfg: Config, s: Sys, es: seq<Event>, t: Sys, p: nat, i: nat)
    requires Init(s) && Run(cfg, s, es, t)
    requires p < |t.parts| && t.parts[p].topic == Dlq && i < |t.parts[p].log|
    ensures var j := t.parts[p].log[i].id;
            j in t.rows && t.work.failures[j] + t.reap.requeues[j] >= t.rows[j].maxAttempts == MAX_ATTEMPTS
  {
    InitInv(s);
    InvRun(cfg, s, es, t);
    Routing.InvRun(cfg, s, es, t);
    assert Exhausted(t, t.parts[p].log[i].id);
  }

  /** Reapers publish a job at most as often as its attempt budget, however many of them select it. */
  lemma ReaperPublishesBounded(cfg: Config, s: Sys, es: seq<Event>, t: Sys, j: JobId)
    requires Init(s) && Run(cfg, s, es, t)
    ensures t.reap.reaperPubs[j] <= MAX_ATTEMPTS
    ensures t.reap.reaperPubs[j] <= t.reap.requeues[j]
    ensures j in t.rows ==> t.rows[j].attempts <= t.work.failures[j] + t.reap.requeues[j]
  {
    InitInv(s);
    InvRun(cfg, s, es, t);
    Routing.InvRun(cfg, s, es, t);
    assert Budgeted(t, j) && Explained(t, j);
  }
}

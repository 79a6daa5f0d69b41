/**
 How far concurrency can push a job past its attempt budget, in runs without crashes, failed calls and reaps.
 A worker increments `attempts` only after its retry message is visible, so another worker may read a stale
 value. Retries are keyed by the job id, so all of them pass through one partition and one worker: only the
 first message, keyed by the device, can be in other hands. The overshoot is therefore at most one run, and
 none at all when the two keys lead to the same worker.
 */
module Overshoot {
  import opened Prelude
  import opened Jobs
  import opened Store
  import opened Broker
  import opened Protocol
  import opened Frames
  import Routing
  import Placement
  import Idempotency
  import DeadLetter
  import opened Tokens

  /** The message a submission published, as opposed to a retry of it. */
  function First(j: JobId): Message -> nat {
    (m: Message) => if m.id == j && m.key != j then 1 else 0
  }

  /** A retry has been published and its increment has not landed. */
  function Landing(j: JobId): Option<Task> -> nat {
    (t: Option<Task>) => if t.Some? && t.value.msg.id == j && t.value.phase in {RetrySent, RetryMarked} then 1 else 0
  }

  /** The handler has been started and the outcome is not yet recorded anywhere. */
  function Executing(j: JobId): Option<Task> -> nat {
    (t: Option<Task>) =>
      if t.Some? && t.value.msg.id == j && t.value.phase in {InHandler, HandlerOk, HandlerErr} then 1 else 0
  }

  function Carried(t: Option<Task>, f: Message -> nat): nat {
    if t.Some? then f(t.value.msg) else 0
  }

  /** In a worker's hands until the commit, disposed of or not. */
  function Carries(f: Message -> nat): Option<Task> -> nat {
    (t: Option<Task>) => Carried(t, f)
  }

  /** The worker that owns the partition for `key` of the job's tier. */
  function OwnerOf(cfg: Config, s: Sys, r: Row, key: string): nat {
    var p := cfg.route(Main(r.tier), key);
    if p < |s.parts| then s.parts[p].owner else 0
  }

  /** Zero when the device's and the job id's partitions belong to one worker. */
  function Slack(cfg: Config, s: Sys, j: JobId): nat {
    if j in s.rows && OwnerOf(cfg, s, s.rows[j], s.rows[j].device) == OwnerOf(cfg, s, s.rows[j], j) then 0 else 1
  }

  function Attempts(s: Sys, j: JobId): nat {
    DeadLetter.Attempts(s.rows, j)
  }

  ghost predicate Retries(s: Sys, j: JobId) {
    s.work.retryPubs[j] == Attempts(s, j) + Count(s.workers, Landing(j))
  }

  ghost predicate FirstOnce(s: Sys, j: JobId) {
    Count(s.parts, InLogs(First(j))) + Count(s.workers, Carries(First(j))) + Count(s.routers, InRouter(First(j))) <=
    s.subm.subPubs[j]
  }

  /** While the first message is still on its way nothing has been retried. */
  ghost predicate FirstIsFirst(s: Sys, j: JobId) {
    (Pending(s, First(j)) > 0 ==> s.work.retryPubs[j] == 0) && (s.work.retryPubs[j] > 0 ==> s.subm.subPubs[j] > 0)
  }

  ghost predicate Bounded(cfg: Config, s: Sys, j: JobId) {
    s.work.retryPubs[j] <= MAX_ATTEMPTS - 1 + Slack(cfg, s, j)
  }

  ghost predicate Runs(s: Sys, j: JobId) {
    s.work.runs[j] ==
    s.work.retryPubs[j] + Count(s.workers, Executing(j)) + Count(s.parts, OnDlq(For(j))) + s.work.successes[j]
  }

  /** A dead-lettered job has used all its retries. */
  ghost predicate Deep(s: Sys, j: JobId) {
    Count(s.parts, OnDlq(For(j))) > 0 ==> s.work.retryPubs[j] >= MAX_ATTEMPTS - 1
  }

  ghost predicate Ledger(cfg: Config, s: Sys, j: JobId) {
    Retries(s, j) && FirstOnce(s, j) && FirstIsFirst(s, j) && Bounded(cfg, s, j) && Runs(s, j) && Deep(s, j)
  }

  /** What a worker read is at most the slack behind the retries published. */
  predicate Fresh(cfg: Config, s: Sys, w: nat, t: Option<Task>) {
    t.Some? && t.value.phase in {Loaded, InHandler, HandlerOk, HandlerErr} ==>
      t.value.max == MAX_ATTEMPTS &&
      t.value.att <= s.work.retryPubs[t.value.msg.id] <= t.value.att + Slack(cfg, s, t.value.msg.id)
  }

  predicate Owned(s: Sys, w: nat, t: Option<Task>) {
    t.Some? ==> t.value.part < |s.parts| && s.parts[t.value.part].owner == w
  }

  ghost predicate Tasks(cfg: Config, s: Sys) {
    forall w :: 0 <= w < |s.workers| ==> Fresh(cfg, s, w, s.workers[w]) && Owned(s, w, s.workers[w])
  }

  ghost predicate Inv(cfg: Config, s: Sys) {
    (forall j :: Ledger(cfg, s, j)) && Tasks(cfg, s)
  }

  /** The invariants proved elsewhere that this one stands on. */
  ghost predicate Base(cfg: Config, s: Sys) {
    Routing.Inv(cfg, s) && Placement.Inv(cfg, s) && Idempotency.Inv(s) && Tokens.Inv(s) &&
    forall j :: s.reap.reaperPubs[j] == 0
  }

  // ----- the argument: who can still owe an increment when a worker reads the row -----

  /** The job's message is in exactly one place. */
  lemma HeldAtMostOne(cfg: Config, s: Sys, j: JobId)
    requires Base(cfg, s)
    ensures Held(s, j) == s.subm.subPubs[j] <= 1
  {
    assert Idempotency.OnePublish(s, j);
    assert Conserved(s, j);
  }

  /** Two workers owing an increment for one job both hold its first message; there is only one of those. */
  lemma LandingIsFirst(cfg: Config, s: Sys, w: nat, v: nat, j: JobId)
    requires Base(cfg, s) && Inv(cfg, s) && w < |s.workers| && v < |s.workers| && v != w
    requires s.workers[w].Some? && s.workers[w].value.msg.id == j && s.workers[w].value.msg.key == j
    requires s.workers[v].Some? && s.workers[v].value.msg.id == j
    ensures First(j)(s.workers[v].value.msg) == 1
  {
    assert Placement.TaskPlaced(cfg, w, s.workers[w]) && Placement.TaskPlaced(cfg, v, s.workers[v]);
    assert Routing.TaskOk(cfg, s.rows, w, s.workers[w]) && Routing.TaskOk(cfg, s.rows, v, s.workers[v]);
    assert Owned(s, w, s.workers[w]) && Owned(s, v, s.workers[v]);
  }

  /** With no slack the first message's owner is the reader itself. */
  lemma NoSlackNoOther(cfg: Config, s: Sys, w: nat, v: nat, j: JobId)
    requires Base(cfg, s) && Inv(cfg, s) && w < |s.workers| && v < |s.workers| && Slack(cfg, s, j) == 0
    requires s.workers[w].Some? && s.workers[w].value.msg.id == j
    requires s.workers[v].Some? && s.workers[v].value.msg.id == j
    ensures v == w
  {
    assert Placement.TaskPlaced(cfg, w, s.workers[w]) && Placement.TaskPlaced(cfg, v, s.workers[v]);
    assert Routing.TaskOk(cfg, s.rows, w, s.workers[w]) && Routing.TaskOk(cfg, s.rows, v, s.workers[v]);
    assert Owned(s, w, s.workers[w]) && Owned(s, v, s.workers[v]);
  }

  lemma LandingWithinSlack(cfg: Config, s: Sys, w: nat, j: JobId)
    requires Base(cfg, s) && Inv(cfg, s) && w < |s.workers|
    requires s.workers[w].Some? && s.workers[w].value.msg.id == j && s.workers[w].value.phase == Fetched
    ensures Count(s.workers, Landing(j)) <= Slack(cfg, s, j)
  {
    assert Ledger(cfg, s, j);
    HeldAtMostOne(cfg, s, j);
    if s.workers[w].value.msg.key != j {
      CountMember(s.workers, w, InWorker(First(j)));
    } else if Slack(cfg, s, j) == 0 {
      forall v | 0 <= v < |s.workers| ensures Landing(j)(s.workers[v]) == 0 {
        if Landing(j)(s.workers[v]) > 0 { NoSlackNoOther(cfg, s, w, v, j); }
      }
      CountZero(s.workers, Landing(j));
    } else {
      forall v | 0 <= v < |s.workers| ensures Landing(j)(s.workers[v]) <= Carries(First(j))(s.workers[v]) {
        if Landing(j)(s.workers[v]) > 0 { LandingIsFirst(cfg, s, w, v, j); }
      }
      CountMono(s.workers, s.workers, Landing(j), Carries(First(j)));
    }
  }

  /** A retry or its republished copy. */
  function Copy(j: JobId): Message -> nat {
    (m: Message) => if m.id == j && m.key == j then 1 else 0
  }

  lemma FirstOrCopy(s: Sys, j: JobId)
    ensures Pending(s, For(j)) == Pending(s, First(j)) + Pending(s, Copy(j))
  {
    forall i | 0 <= i < |s.parts|
      ensures InLogs(For(j))(s.parts[i]) == InLogs(First(j))(s.parts[i]) + InLogs(Copy(j))(s.parts[i]) {
      var q := s.parts[i];
      CountSplit(q.log, First(j), Copy(j), For(j));
      if q.pos <= |q.log| { CountSplit(q.log[q.pos..], First(j), Copy(j), For(j)); }
    }
    CountSplit(s.parts, InLogs(First(j)), InLogs(Copy(j)), InLogs(For(j)));
    CountSplit(s.workers, InWorker(First(j)), InWorker(Copy(j)), InWorker(For(j)));
    CountSplit(s.routers, InRouter(First(j)), InRouter(Copy(j)), InRouter(For(j)));
  }

  /** Whoever holds the job's message undisposed holds all there is of it. */
  lemma HolderHasAll(cfg: Config, s: Sys, w: nat, j: JobId)
    requires Base(cfg, s) && w < |s.workers| && InWorker(For(j))(s.workers[w]) == 1
    ensures s.subm.subPubs[j] == 1 && Pending(s, First(j)) == First(j)(s.workers[w].value.msg)
    ensures forall v :: 0 <= v < |s.workers| && v != w ==> InWorker(For(j))(s.workers[v]) == 0
  {
    HeldAtMostOne(cfg, s, j);
    FirstOrCopy(s, j);
    CountMember(s.workers, w, InWorker(For(j)));
    CountMember(s.workers, w, InWorker(First(j)));
    CountMember(s.workers, w, InWorker(Copy(j)));
    forall v | 0 <= v < |s.workers| && v != w ensures InWorker(For(j))(s.workers[v]) == 0 {
      if v < w { CountPair(s.workers, v, w, InWorker(For(j))); } else { CountPair(s.workers, w, v, InWorker(For(j))); }
    }
  }

  // ----- a worker's call, one account at a time -----

  lemma CallRetries(cfg: Config, s: Sys, w: nat, c: Choice, j: JobId)
    requires Base(cfg, s) && Ledger(cfg, s, j) && StepWorker(cfg, s, w, c).Some?
    ensures Retries(StepWorker(cfg, s, w, c).value, j)
  {
    var t := StepWorker(cfg, s, w, c).value;
    assert Routing.TaskOk(cfg, s.rows, w, s.workers[w]);
    CountUpdate(s.workers, w, t.workers[w], Landing(j));
    CallRetriesLocal(cfg, s, cfg.workerTier[w], s.workers[w].value, c, j);
  }

  lemma CallRetriesLocal(cfg: Config, s: Sys, tier: Tier, k: Task, c: Choice, j: JobId)
    requires WorkCallEffect(cfg, s, tier, k, c).Some? && k.msg.id in s.rows && k.msg.tier == tier
    ensures var f := WorkCallEffect(cfg, s, tier, k, c).value;
            f.log.retryPubs[j] - DeadLetter.Attempts(f.rows, j) - Landing(j)(f.task) ==
            s.work.retryPubs[j] - DeadLetter.Attempts(s.rows, j) - Landing(j)(Some(k))
  {
  }

  lemma CallFirstOnce(cfg: Config, s: Sys, w: nat, c: Choice, j: JobId)
    requires Base(cfg, s) && Ledger(cfg, s, j) && StepWorker(cfg, s, w, c).Some?
    ensures FirstOnce(StepWorker(cfg, s, w, c).value, j)
  {
    var t := StepWorker(cfg, s, w, c).value;
    var k := s.workers[w].value;
    WorkCallLogs(cfg, s, cfg.workerTier[w], k, c, First(j));
    CountUpdate(s.workers, w, t.workers[w], Carries(First(j)));
    CallKeepsMessage(cfg, s, cfg.workerTier[w], k, c);
  }

  lemma CallKeepsMessage(cfg: Config, s: Sys, tier: Tier, k: Task, c: Choice)
    requires WorkCallEffect(cfg, s, tier, k, c).Some?
    ensures var t := WorkCallEffect(cfg, s, tier, k, c).value.task;
            t.None? || (t.value.msg == k.msg && t.value.part == k.part &&
            (k.phase != Fetched ==> t.value.att == k.att && t.value.max == k.max))
    ensures var f := WorkCallEffect(cfg, s, tier, k, c).value;
            forall j :: s.work.retryPubs[j] <= f.log.retryPubs[j] &&
              (f.log.retryPubs[j] != s.work.retryPubs[j] ==>
                j == k.msg.id && k.phase == HandlerErr && k.att + 1 < k.max &&
                f.log.retryPubs[j] == s.work.retryPubs[j] + 1 &&
                f.task.Some? && f.task.value.phase == RetrySent)
  {
  }

  lemma CallFirstIsFirst(cfg: Config, s: Sys, w: nat, c: Choice, j: JobId)
    requires Base(cfg, s) && Ledger(cfg, s, j) && StepWorker(cfg, s, w, c).Some?
    ensures FirstIsFirst(StepWorker(cfg, s, w, c).value, j)
  {
    var t := StepWorker(cfg, s, w, c).value;
    var k := s.workers[w].value;
    WorkCallLogs(cfg, s, cfg.workerTier[w], k, c, First(j));
    CountUpdate(s.workers, w, t.workers[w], InWorker(First(j)));
    CallKeepsMessage(cfg, s, cfg.workerTier[w], k, c);
    CallPendingFalls(cfg, s, cfg.workerTier[w], k, c, j);
    if t.work.retryPubs[j] != s.work.retryPubs[j] {
      HolderHasAll(cfg, s, w, j);
    }
  }

  lemma CallPendingFalls(cfg: Config, s: Sys, tier: Tier, k: Task, c: Choice, j: JobId)
    requires WorkCallEffect(cfg, s, tier, k, c).Some?
    ensures var f := WorkCallEffect(cfg, s, tier, k, c).value;
            Sent(cfg, s, tier, k, c, First(j)) == 0 && InHand(f.task, First(j)) <= InHand(Some(k), First(j)) &&
            (k.phase == HandlerErr ==> InHand(f.task, First(j)) == 0)
  {
  }

  lemma CallRuns(cfg: Config, s: Sys, w: nat, c: Choice, j: JobId)
    requires Base(cfg, s) && Ledger(cfg, s, j) && StepWorker(cfg, s, w, c).Some?
    ensures Runs(StepWorker(cfg, s, w, c).value, j)
  {
    var t := StepWorker(cfg, s, w, c).value;
    var k := s.workers[w].value;
    assert Routing.TaskOk(cfg, s.rows, w, s.workers[w]);
    RegistryIsTotalOnValid(k.msg.typ);
    CountUpdate(s.workers, w, t.workers[w], Executing(j));
    CallDead(cfg, s, cfg.workerTier[w], k, c, j);
    CallRunsLocal(cfg, s, cfg.workerTier[w], k, c, j);
  }

  /** One if the call dead-letters the job. */
  function Buried(k: Task, j: JobId): nat {
    if k.msg.id == j && k.phase == HandlerErr && k.att + 1 >= k.max then 1 else 0
  }

  lemma CallRunsLocal(cfg: Config, s: Sys, tier: Tier, k: Task, c: Choice, j: JobId)
    requires WorkCallEffect(cfg, s, tier, k, c).Some? && k.msg.id in s.rows && k.msg.tier == tier
    requires HasHandler(k.msg.typ)
    ensures var f := WorkCallEffect(cfg, s, tier, k, c).value;
            f.log.runs[j] - f.log.retryPubs[j] - Executing(j)(f.task) - f.log.successes[j] - Buried(k, j) ==
            s.work.runs[j] - s.work.retryPubs[j] - Executing(j)(Some(k)) - s.work.successes[j]
  {
  }

  lemma SameDlqCounts(a: seq<Part>, b: seq<Part>, j: JobId)
    requires DeadLetter.SameDlq(a, b)
    ensures Count(a, OnDlq(For(j))) == Count(b, OnDlq(For(j)))
  {
    CountMono(a, b, OnDlq(For(j)), OnDlq(For(j)));
    CountMono(b, a, OnDlq(For(j)), OnDlq(For(j)));
  }

  lemma CallDead(cfg: Config, s: Sys, tier: Tier, k: Task, c: Choice, j: JobId)
    requires WorkCallEffect(cfg, s, tier, k, c).Some? && k.msg.id in s.rows && k.msg.tier == tier
    requires HasHandler(k.msg.typ)
    ensures var f := WorkCallEffect(cfg, s, tier, k, c).value;
            Count(f.parts, OnDlq(For(j))) == Count(s.parts, OnDlq(For(j))) + Buried(k, j)
  {
    var f := WorkCallEffect(cfg, s, tier, k, c).value;
    if k.phase == HandlerErr && k.att + 1 >= k.max {
      var p := cfg.route(Dlq, k.msg.id);
      var q := s.parts[p];
      CountUpdate(s.parts, p, f.parts[p], OnDlq(For(j)));
      CountSnoc(q.log, Resent(s, k, c), For(j));
    } else {
      DeadLetter.CallDlq(cfg, s, tier, k, c);
      SameDlqCounts(s.parts, f.parts, j);
    }
  }

  lemma CallDeep(cfg: Config, s: Sys, w: nat, c: Choice, j: JobId)
    requires Base(cfg, s) && Inv(cfg, s) && StepWorker(cfg, s, w, c).Some?
    ensures Deep(StepWorker(cfg, s, w, c).value, j)
  {
    var k := s.workers[w].value;
    assert Ledger(cfg, s, j) && Fresh(cfg, s, w, s.workers[w]);
    assert Routing.TaskOk(cfg, s.rows, w, s.workers[w]);
    RegistryIsTotalOnValid(k.msg.typ);
    CallDead(cfg, s, cfg.workerTier[w], k, c, j);
    CallKeepsMessage(cfg, s, cfg.workerTier[w], k, c);
  }

  /** Neither rows' identities nor partition owners move in these runs, so the slack does not either. */
  lemma SlackFixed(cfg: Config, s: Sys, t: Sys, j: JobId)
    requires SameOwners(s.parts, t.parts) && Grows(s.rows, t.rows) && (j in s.rows || j !in t.rows)
    ensures Slack(cfg, t, j) == Slack(cfg, s, j)
  {
  }

  predicate SameOwners(a: seq<Part>, b: seq<Part>) {
    |a| == |b| && forall p :: 0 <= p < |a| ==> b[p].owner == a[p].owner
  }

  lemma CallOwners(cfg: Config, s: Sys, tier: Tier, k: Task, c: Choice)
    requires WorkCallEffect(cfg, s, tier, k, c).Some?
    ensures SameOwners(s.parts, WorkCallEffect(cfg, s, tier, k, c).value.parts)
  {
  }

  lemma CallBounded(cfg: Config, s: Sys, w: nat, c: Choice, j: JobId)
    requires Base(cfg, s) && Inv(cfg, s) && StepWorker(cfg, s, w, c).Some?
    ensures Bounded(cfg, StepWorker(cfg, s, w, c).value, j)
  {
    var t := StepWorker(cfg, s, w, c).value;
    var k := s.workers[w].value;
    assert Ledger(cfg, s, j) && Fresh(cfg, s, w, s.workers[w]);
    CallKeepsMessage(cfg, s, cfg.workerTier[w], k, c);
    CallOwners(cfg, s, cfg.workerTier[w], k, c);
    Routing.WorkGrows(cfg, s, cfg.workerTier[w], k, c);
    WorkKeys(cfg, s, cfg.workerTier[w], k, c);
    SlackFixed(cfg, s, t, j);
  }

  lemma CallTasks(cfg: Config, s: Sys, w: nat, c: Choice)
    requires Base(cfg, s) && Inv(cfg, s) && StepWorker(cfg, s, w, c).Some?
    ensures Tasks(cfg, StepWorker(cfg, s, w, c).value)
  {
    var t := StepWorker(cfg, s, w, c).value;
    var k := s.workers[w].value;
    CallKeepsMessage(cfg, s, cfg.workerTier[w], k, c);
    CallOwners(cfg, s, cfg.workerTier[w], k, c);
    Routing.WorkGrows(cfg, s, cfg.workerTier[w], k, c);
    WorkKeys(cfg, s, cfg.workerTier[w], k, c);
    forall v | 0 <= v < |t.workers| ensures Fresh(cfg, t, v, t.workers[v]) && Owned(t, v, t.workers[v]) {
      assert Fresh(cfg, s, v, s.workers[v]) && Owned(s, v, s.workers[v]);
      assert Owned(s, w, s.workers[w]);
      if t.workers[v].Some? {
        SlackFixed(cfg, s, t, t.workers[v].value.msg.id);
        if v == w {
          CallFresh(cfg, s, w, c);
        } else if t.work.retryPubs[t.workers[v].value.msg.id] != s.work.retryPubs[t.workers[v].value.msg.id] {
          HolderHasAll(cfg, s, w, k.msg.id);
        }
      }
    }
  }

  lemma CallFresh(cfg: Config, s: Sys, w: nat, c: Choice)
    requires Base(cfg, s) && Inv(cfg, s) && StepWorker(cfg, s, w, c).Some?
    ensures Fresh(cfg, StepWorker(cfg, s, w, c).value, w, StepWorker(cfg, s, w, c).value.workers[w])
  {
    var t := StepWorker(cfg, s, w, c).value;
    var k := s.workers[w].value;
    var j := k.msg.id;
    assert Fresh(cfg, s, w, s.workers[w]) && Routing.TaskOk(cfg, s.rows, w, s.workers[w]);
    CallKeepsMessage(cfg, s, cfg.workerTier[w], k, c);
    CallOwners(cfg, s, cfg.workerTier[w], k, c);
    Routing.WorkGrows(cfg, s, cfg.workerTier[w], k, c);
    WorkKeys(cfg, s, cfg.workerTier[w], k, c);
    SlackFixed(cfg, s, t, j);
    if k.phase == Fetched {
      assert Ledger(cfg, s, j);
      LandingWithinSlack(cfg, s, w, j);
    }
  }

  lemma WorkerCallEvent(cfg: Config, s: Sys, w: nat, c: Choice)
    requires Base(cfg, s) && Inv(cfg, s) && StepWorker(cfg, s, w, c).Some?
    ensures Inv(cfg, StepWorker(cfg, s, w, c).value)
  {
    CallTasks(cfg, s, w, c);
    forall j ensures Ledger(cfg, StepWorker(cfg, s, w, c).value, j) {
      assert Ledger(cfg, s, j);
      CallRetries(cfg, s, w, c, j);
      CallFirstOnce(cfg, s, w, c, j);
      CallFirstIsFirst(cfg, s, w, c, j);
      CallBounded(cfg, s, w, c, j);
      CallRuns(cfg, s, w, c, j);
      CallDeep(cfg, s, w, c, j);
    }
  }

  // ----- the other events -----

  /** Events that start no run, publish no retry and move no worker. */
  lemma Sidelines(cfg: Config, s: Sys, t: Sys)
    requires Base(cfg, s) && Inv(cfg, s) && SameWork(s, t) && SameOwners(s.parts, t.parts) && Grows(s.rows, t.rows)
    ensures Tasks(cfg, t)
    ensures forall j :: Bounded(cfg, t, j)
  {
    forall v | 0 <= v < |t.workers| ensures Fresh(cfg, t, v, t.workers[v]) && Owned(t, v, t.workers[v]) {
      assert Fresh(cfg, s, v, s.workers[v]) && Owned(s, v, s.workers[v]) &&
             Routing.TaskOk(cfg, s.rows, v, s.workers[v]);
      if t.workers[v].Some? { SlackFixed(cfg, s, t, t.workers[v].value.msg.id); }
    }
    forall j ensures Bounded(cfg, t, j) {
      assert Ledger(cfg, s, j) && Idempotency.OnePublish(s, j);
      if j in s.rows || j !in t.rows { SlackFixed(cfg, s, t, j); }
    }
  }

  lemma SubCallEvent(cfg: Config, s: Sys, i: nat, c: Choice)
    requires Base(cfg, s) && Inv(cfg, s) && StepSub(cfg, s, i, c).Some?
    ensures Inv(cfg, StepSub(cfg, s, i, c).value)
  {
    var t := StepSub(cfg, s, i, c).value;
    var b := s.subs[i];
    Routing.SubGrows(cfg, s, b, c);
    SubOwners(cfg, s, b, c);
    Sidelines(cfg, s, t);
    DeadLetter.SubAttempts(cfg, s, b, c);
    DeadLetter.SubDlq(cfg, s, b, c);
    forall j ensures Ledger(cfg, t, j) {
      assert Ledger(cfg, s, j);
      SameDlqCounts(s.parts, t.parts, j);
      assert Idempotency.OnePublish(s, j);
      SubFirst(cfg, s, i, c, j);
    }
  }

  lemma SubOwners(cfg: Config, s: Sys, b: Sub, c: Choice)
    requires SubCallEffect(cfg, s, b, c).Some?
    ensures SameOwners(s.parts, SubCallEffect(cfg, s, b, c).value.parts)
  {
  }

  lemma SubFirst(cfg: Config, s: Sys, i: nat, c: Choice, j: JobId)
    requires Positioned(s.parts) && Idempotency.OnePublish(s, j) && FirstOnce(s, j) && FirstIsFirst(s, j)
    requires StepSub(cfg, s, i, c).Some?
    ensures FirstOnce(StepSub(cfg, s, i, c).value, j) && FirstIsFirst(StepSub(cfg, s, i, c).value, j)
  {
    if s.subs[i].stage == Inserted {
      SubPublishes(cfg, s, i, c, j);
    } else {
      SubPublishesNothing(cfg, s, s.subs[i], c);
    }
  }

  lemma SubPublishes(cfg: Config, s: Sys, i: nat, c: Choice, j: JobId)
    requires Positioned(s.parts) && Idempotency.OnePublish(s, j) && FirstOnce(s, j) && FirstIsFirst(s, j)
    requires StepSub(cfg, s, i, c).Some? && s.subs[i].stage == Inserted
    ensures FirstOnce(StepSub(cfg, s, i, c).value, j) && FirstIsFirst(StepSub(cfg, s, i, c).value, j)
  {
    var b := s.subs[i];
    var r := s.rows[b.id];
    var m := MessageFor(b.id, r, c.headers);
    AppendCounts(cfg.route, s.parts, Main(r.tier), m, First(j));
    CountMember(s.subs, i, Idempotency.Unpublished(j));
  }

  lemma FetchEvent(cfg: Config, s: Sys, w: nat, p: nat)
    requires Base(cfg, s) && Inv(cfg, s) && StepFetch(cfg, s, w, p).Some?
    ensures Inv(cfg, StepFetch(cfg, s, w, p).value)
  {
    var t := StepFetch(cfg, s, w, p).value;
    forall v | 0 <= v < |t.workers| ensures Fresh(cfg, t, v, t.workers[v]) && Owned(t, v, t.workers[v]) {
      assert Fresh(cfg, s, v, s.workers[v]) && Owned(s, v, s.workers[v]);
    }
    forall j ensures Ledger(cfg, t, j) {
      assert Ledger(cfg, s, j);
      FetchLedger(cfg, s, w, p, j);
    }
  }

  lemma FetchLedger(cfg: Config, s: Sys, w: nat, p: nat, j: JobId)
    requires Positioned(s.parts) && Ledger(cfg, s, j) && StepFetch(cfg, s, w, p).Some?
    ensures Ledger(cfg, StepFetch(cfg, s, w, p).value, j)
  {
    var t := StepFetch(cfg, s, w, p).value;
    Tokens.FetchEvent(cfg, s, w, p, First(j));
    FetchCounts(s.parts, p, First(j));
    CountUpdate(s.workers, w, t.workers[w], Carries(First(j)));
    CountUpdate(s.workers, w, t.workers[w], Landing(j));
    CountUpdate(s.workers, w, t.workers[w], Executing(j));
    SameDlqCounts(s.parts, t.parts, j);
    SlackFixed(cfg, s, t, j);
  }

  lemma PickEvent(cfg: Config, s: Sys, r: nat, p: nat)
    requires Base(cfg, s) && Inv(cfg, s) && StepPick(cfg, s, r, p).Some?
    ensures Inv(cfg, StepPick(cfg, s, r, p).value)
  {
    var t := StepPick(cfg, s, r, p).value;
    Sidelines(cfg, s, t);
    forall j ensures Ledger(cfg, t, j) {
      assert Ledger(cfg, s, j);
      Tokens.PickEvent(cfg, s, r, p, First(j));
      SameDlqCounts(s.parts, t.parts, j);
    }
  }

  lemma RouterCallEvent(cfg: Config, s: Sys, r: nat, c: Choice)
    requires Base(cfg, s) && Inv(cfg, s) && StepRouter(cfg, s, r, c).Some?
    ensures Inv(cfg, StepRouter(cfg, s, r, c).value)
  {
    var t := StepRouter(cfg, s, r, c).value;
    var h := s.routers[r].value;
    RouteOwners(cfg, s, cfg.routerTier[r], h, c);
    Sidelines(cfg, s, t);
    DeadLetter.RouteDlq(cfg, s, cfg.routerTier[r], h, c);
    forall j ensures Ledger(cfg, t, j) {
      assert Ledger(cfg, s, j);
      SameDlqCounts(s.parts, t.parts, j);
      CountUpdate(s.routers, r, t.routers[r], InRouter(First(j)));
      if h.sent {
        CommitCounts(s.parts, h.part, h.off, First(j));
      } else {
        AppendCounts(cfg.route, s.parts, Main(cfg.routerTier[r]), h.msg.(headers := c.headers), First(j));
      }
    }
  }

  lemma RouteOwners(cfg: Config, s: Sys, tier: Tier, h: Haul, c: Choice)
    requires RouteCallEffect(cfg, s, tier, h, c).Some?
    ensures SameOwners(s.parts, RouteCallEffect(cfg, s, tier, h, c).value.parts)
  {
  }

  lemma QuietEvent(cfg: Config, s: Sys, t: Sys)
    requires Base(cfg, s) && Inv(cfg, s) && SameWork(s, t) && t.parts == s.parts && t.routers == s.routers
    requires t.subm.subPubs == s.subm.subPubs && Grows(s.rows, t.rows)
    requires forall j :: Attempts(t, j) == Attempts(s, j)
    ensures Inv(cfg, t)
  {
    Sidelines(cfg, s, t);
    forall j ensures Ledger(cfg, t, j) {
      assert Ledger(cfg, s, j);
    }
  }

  lemma InvNext(cfg: Config, s: Sys, e: Event)
    requires Base(cfg, s) && Inv(cfg, s) && e.IsPlain() && Next(cfg, s, e).Some?
    ensures Inv(cfg, Next(cfg, s, e).value)
  {
    if e.WorkerCall? { WorkerCallEvent(cfg, s, e.i, e.c); }
    else if e.SubCall? { SubCallEvent(cfg, s, e.i, e.c); }
    else if e.Fetch? { FetchEvent(cfg, s, e.i, e.p); }
    else if e.Pick? { PickEvent(cfg, s, e.i, e.p); }
    else if e.RouterCall? { RouterCallEvent(cfg, s, e.i, e.c); }
    else {
      Routing.NextGrows(cfg, s, e);
      QuietEvent(cfg, s, Next(cfg, s, e).value);
    }
  }

  lemma BaseNext(cfg: Config, s: Sys, e: Event)
    requires Base(cfg, s) && e.IsPlain() && Next(cfg, s, e).Some?
    ensures Base(cfg, Next(cfg, s, e).value)
  {
    Routing.InvNext(cfg, s, e);
    Placement.InvNext(cfg, s, e);
    Idempotency.InvNext(cfg, s, e);
    Tokens.InvNext(cfg, s, e);
    NotReap(cfg, s, e);
  }

  lemma {:induction false} InvRun(cfg: Config, s: Sys, es: seq<Event>, t: Sys)
    requires Base(cfg, s) && Inv(cfg, s) && Plain(es) && Run(cfg, s, es, t)
    ensures Base(cfg, t) && Inv(cfg, t)
    decreases |es|
  {
    if es != [] {
      assert es[0].IsPlain();
      InvNext(cfg, s, es[0]);
      BaseNext(cfg, s, es[0]);
      InvRun(cfg, Next(cfg, s, es[0]).value, es[1..], t);
    }
  }

  lemma InitInv(cfg: Config, s: Sys)
    requires Init(s)
    ensures Base(cfg, s) && Inv(cfg, s)
  {
    Tokens.InitInv(s);
    forall j ensures Ledger(cfg, s, j) && Idempotency.OnePublish(s, j) {
      CountZero(s.workers, Landing(j));
      CountZero(s.workers, Executing(j));
      CountZero(s.workers, Carries(First(j)));
      CountZero(s.workers, InWorker(First(j)));
      CountZero(s.parts, InLogs(First(j)));
      CountZero(s.parts, OnDlq(For(j)));
      CountZero(s.routers, InRouter(First(j)));
    }
  }

  // ----- the theorems -----

  /**
   A job's handler runs at most once more than its budget, its retries are published at most MAX_ATTEMPTS times,
   and both lose that one when the device's and the job id's partitions have one owner, as with a single worker.
   */
  lemma OvershootAtMostOne(cfg: Config, s: Sys, es: seq<Event>, t: Sys, j: JobId)
    requires Init(s) && Plain(es) && Run(cfg, s, es, t)
    ensures t.work.retryPubs[j] <= MAX_ATTEMPTS - 1 + Slack(cfg, t, j)
    ensures t.work.runs[j] <= MAX_ATTEMPTS + Slack(cfg, t, j)
  {
    InitInv(cfg, s);
    InvRun(cfg, s, es, t);
    assert Ledger(cfg, t, j);
    HeldAtMostOne(cfg, t, j);
    TerminalOrExecuting(t, j);
  }

  /** A dead-lettered job has had all its runs, and at most the slack more. */
  lemma DeadJobsHadTheirRuns(cfg: Config, s: Sys, es: seq<Event>, t: Sys, j: JobId)
    requires Init(s) && Plain(es) && Run(cfg, s, es, t)
    requires Count(t.parts, OnDlq(For(j))) > 0
    ensures MAX_ATTEMPTS <= t.work.runs[j] <= MAX_ATTEMPTS + Slack(cfg, t, j)
  {
    OvershootAtMostOne(cfg, s, es, t, j);
    InitInv(cfg, s);
    InvRun(cfg, s, es, t);
    assert Ledger(cfg, t, j);
  }

  /** A published job is in exactly one of the six places: there is one token for it, and it never splits or vanishes.
     */
  lemma ExactlyOneToken(cfg: Config, s: Sys, es: seq<Event>, t: Sys, j: JobId)
    requires Init(s) && Plain(es) && Run(cfg, s, es, t) && t.subm.subPubs[j] > 0
    ensures Count(t.parts, OnMain(For(j))) + Count(t.workers, InWorker(For(j))) + Count(t.parts, OnRetry(For(j))) +
            Count(t.routers, InRouter(For(j))) + Count(t.parts, OnDlq(For(j))) + t.work.successes[j] == 1
  {
    InitInv(cfg, s);
    InvRun(cfg, s, es, t);
    HeldAtMostOne(cfg, t, j);
    SplitLogs(t.parts, For(j));
  }

  /** A job's one message cannot be both executing and buried or done. */
  lemma TerminalOrExecuting(t: Sys, j: JobId)
    ensures Count(t.workers, Executing(j)) + Count(t.parts, OnDlq(For(j))) <= Pending(t, For(j))
  {
    CountMono(t.workers, t.workers, Executing(j), InWorker(For(j)));
    CountMono(t.parts, t.parts, OnDlq(For(j)), InLogs(For(j)));
  }

  /** No job is both dead-lettered and succeeded, and none is dead-lettered twice. */
  lemma OneVerdict(cfg: Config, s: Sys, es: seq<Event>, t: Sys, j: JobId)
    requires Init(s) && Plain(es) && Run(cfg, s, es, t)
    ensures Count(t.parts, OnDlq(For(j))) + t.work.successes[j] <= 1
  {
    InitInv(cfg, s);
    InvRun(cfg, s, es, t);
    HeldAtMostOne(cfg, t, j);
    TerminalOrExecuting(t, j);
  }

  lemma {:induction false} NothingReaped(cfg: Config, s: Sys, es: seq<Event>, t: Sys)
    requires Plain(es) && Run(cfg, s, es, t)
    ensures t.reap == s.reap
    decreases |es|
  {
    if es != [] {
      assert es[0].IsPlain();
      NotReap(cfg, s, es[0]);
      NothingReaped(cfg, Next(cfg, s, es[0]).value, es[1..], t);
    }
  }

  /** Every run but the last has failed. */
  lemma RunsAtMostFailures(cfg: Config, s: Sys, es: seq<Event>, t: Sys, j: JobId)
    requires Init(s) && Plain(es) && Run(cfg, s, es, t)
    ensures t.work.runs[j] <= t.work.failures[j] + 1
  {
    InitInv(cfg, s);
    InvRun(cfg, s, es, t);
    assert Ledger(cfg, t, j);
    HeldAtMostOne(cfg, t, j);
    TerminalOrExecuting(t, j);
    RetriesAreFailures(cfg, s, es, t, j);
  }

  lemma RetriesAreFailures(cfg: Config, s: Sys, es: seq<Event>, t: Sys, j: JobId)
    requires Init(s) && Plain(es) && Run(cfg, s, es, t) && Retries(t, j)
    ensures t.work.retryPubs[j] <= t.work.failures[j]
  {
    DeadLetter.InitInv(s);
    DeadLetter.InvRun(cfg, s, es, t);
    NothingReaped(cfg, s, es, t);
    assert DeadLetter.Explained(t, j);
    CountMono(t.workers, t.workers, Landing(j), DeadLetter.Owed(j));
  }
}

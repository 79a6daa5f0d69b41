/**
 The waits of one job in serialised runs: after its n-th failed run exactly one message goes to its tier's retry topic,
 and the router puts it back on the main topic inside the window of 5^(n-1) seconds after that failure.
 */
module Waits {
  import opened Prelude
  import opened Jobs
  import opened Store
  import opened Broker
  import opened Serial
  import opened Backoff
  import opened Delays
  import Punctual
  import Pipeline
  import Drain

  // ----- what one failed run publishes -----

  predicate SameRetries(a: seq<Part>, b: seq<Part>) {
    |a| == |b| && forall p :: 0 <= p < |a| ==>
      a[p].topic == b[p].topic && (a[p].topic.RetryOf? ==> a[p].log == b[p].log && a[p].pos == b[p].pos)
  }

  /** A handler that fails has published nothing. */
  lemma FailedHandler(u: Setup, pl: Plant, m: Message, env: Env)
    requires Handle(u, pl, m, env).1.Some?
    ensures var h := Handle(u, pl, m, env).0; h.parts == pl.parts && h.now == pl.now
  {
  }

  /** What a handler publishes is no retry. */
  lemma HandlerRetriesNothing(u: Setup, pl: Plant, m: Message, env: Env)
    ensures var h := Handle(u, pl, m, env).0; SameRetries(pl.parts, h.parts) && h.now == pl.now
  {
  }

  /** The worker reads the row before it marks it RUNNING, runs the handler, and the handler's outcome is this. */
  function Outcome(u: Setup, pl: Plant, m: Message, env: Env): Option<string> {
    Handle(u, SetState(pl, m.id, State.Running, None), m, env).1
  }

  /**
   A failed run with attempts left: exactly one message is published, the job's own under its id on its tier's retry
   topic, and it names an instant in the window of the attempt it has used up. The row reads RETRY with the handler's
   error, and the attempt is counted.
   */
  lemma FailureIsRescheduled(u: Setup, pl: Plant, m: Message, env: Env) returns (c: Message)
    requires m.id in pl.rows && HasHandler(m.typ) && Outcome(u, pl, m, env).Some?
    requires pl.rows[m.id].attempts + 1 < pl.rows[m.id].maxAttempts && pl.rows[m.id].attempts + 1 <= 15
    requires Jitter(env.jitter) && Int64(pl.now) && Routed(u.route, pl.parts, RetryOf(m.tier), m.id)
    ensures var b := ProcessOne(u, pl, m.tier, m, env).0;
            c == m.(key := m.id, headers := c.headers) && b.parts == Append(u.route, pl.parts, RetryOf(m.tier), c) &&
            Window(pl.rows[m.id].attempts + 1, pl.now, c.headers) &&
            m.id in b.rows && b.rows[m.id].attempts == pl.rows[m.id].attempts + 1 &&
            b.rows[m.id].state == State.Retry && b.rows[m.id].lastError == Outcome(u, pl, m, env)
  {
    var n := pl.rows[m.id].attempts + 1;
    var headers := RetryHeaders(env.trace, NextAt(pl.now, n, env.jitter));
    c := m.(key := m.id, headers := headers);
    RetryInWindow(env.trace, pl.now, n, env.jitter);
    var running := SetState(pl, m.id, State.Running, None);
    FailedHandler(u, running, m, env);
    Drain.HandleSameRow(u, running, m, env);
  }

  /**
   A failed run that uses up the budget: exactly one message is published, the job's own under its id on the dead-letter
   topic. The row reads FAILED with the handler's error, finished now, and no attempt is counted.
   */
  lemma FailureIsBuried(u: Setup, pl: Plant, m: Message, env: Env)
    requires m.id in pl.rows && HasHandler(m.typ) && Outcome(u, pl, m, env).Some?
    requires pl.rows[m.id].attempts + 1 >= pl.rows[m.id].maxAttempts && Routed(u.route, pl.parts, Dlq, m.id)
    ensures var b := ProcessOne(u, pl, m.tier, m, env).0;
            b.parts == Append(u.route, pl.parts, Dlq, m.(key := m.id, headers := env.trace)) &&
            m.id in b.rows && b.rows[m.id].attempts == pl.rows[m.id].attempts && b.rows[m.id].state == State.Failed &&
            b.rows[m.id].lastError == Outcome(u, pl, m, env) && b.rows[m.id].finishedAt == Some(pl.now)
  {
    var running := SetState(pl, m.id, State.Running, None);
    FailedHandler(u, running, m, env);
    Drain.HandleSameRow(u, running, m, env);
  }

  /** A run that succeeds: the row reads SUCCESS, finished now, and what is published is what the handler published. */
  lemma SuccessIsRecorded(u: Setup, pl: Plant, m: Message, env: Env)
    requires m.id in pl.rows && HasHandler(m.typ) && Outcome(u, pl, m, env).None?
    ensures var b := ProcessOne(u, pl, m.tier, m, env).0;
            b.parts == Handle(u, SetState(pl, m.id, State.Running, None), m, env).0.parts && m.id in b.rows &&
            b.rows[m.id].attempts == pl.rows[m.id].attempts && b.rows[m.id].state == State.Success &&
            b.rows[m.id].lastError == pl.rows[m.id].lastError && b.rows[m.id].finishedAt == Some(pl.now)
  {
    var running := SetState(pl, m.id, State.Running, None);
    Drain.HandleSameRow(u, running, m, env);
    HandlerRetriesNothing(u, running, m, env);
  }

  /** A run that succeeds or uses up the budget publishes no retry. */
  lemma OtherwiseNoRetry(u: Setup, pl: Plant, m: Message, env: Env)
    requires m.id in pl.rows && HasHandler(m.typ)
    requires Outcome(u, pl, m, env).None? || pl.rows[m.id].attempts + 1 >= pl.rows[m.id].maxAttempts
    ensures SameRetries(pl.parts, ProcessOne(u, pl, m.tier, m, env).0.parts)
  {
    var running := SetState(pl, m.id, State.Running, None);
    HandlerRetriesNothing(u, running, m, env);
    if Outcome(u, pl, m, env).Some? {
      var (h, err, entry) := Handle(u, running, m, env);
      BuryNoRetry(u, h.(runs := h.runs + [Ran(m.id, false, entry)]), m, env.trace, err.value);
    }
  }

  lemma BuryNoRetry(u: Setup, pl: Plant, m: Message, trace: seq<Header>, err: string)
    ensures SameRetries(pl.parts, SendToDlq(u, pl, m, trace, err).parts)
  {
  }

  // ----- the last run of each job in a schedule -----

  /** When each job's handler was last started, in a schedule from `pl`; `ran` says what was before. */
  function LastRuns(u: Setup, pl: Plant, ops: seq<Op>, ran: map<JobId, int>): map<JobId, int>
    decreases |ops|
  {
    if ops == [] || !Enabled(pl, ops[0]) then ran else
    LastRuns(u, Apply(u, pl, ops[0]), ops[1..],
             if ops[0].Working? then ran[Head(pl, ops[0].p).id := pl.now] else ran)
  }

  predicate JitteredOps(ops: seq<Op>) {
    forall i :: 0 <= i < |ops| && ops[i].Working? ==> Jitter(ops[i].env.jitter)
  }

  /** The message names an instant in the window of its job's attempts after the job's last run. */
  ghost predicate Due(rows: Table, ran: map<JobId, int>, m: Message) {
    m.id in rows && m.id in ran && 1 <= rows[m.id].attempts && Window(rows[m.id].attempts, ran[m.id], m.headers)
  }

  ghost predicate DuePart(rows: Table, ran: map<JobId, int>, q: Part) {
    forall i :: q.pos <= i < |q.log| ==> Due(rows, ran, q.log[i])
  }

  ghost predicate AllDue(pl: Plant, ran: map<JobId, int>) {
    forall p :: 0 <= p < |pl.parts| && pl.parts[p].topic.RetryOf? ==> DuePart(pl.rows, ran, pl.parts[p])
  }

  /** Retries of other jobs stay due whatever becomes of this one. */
  predicate SameAttempts(a: Table, b: Table, but: set<JobId>) {
    forall id :: id in a && id !in but ==> id in b && b[id].attempts == a[id].attempts
  }

  /** Nothing of the job is unread on a retry topic. */
  predicate NotWaiting(parts: seq<Part>, j: JobId) {
    forall p, i :: 0 <= p < |parts| && parts[p].topic.RetryOf? && parts[p].pos <= i < |parts[p].log| ==>
      parts[p].log[i].id != j
  }

  lemma {:induction false} CountSees(log: seq<Message>, i: nat, j: JobId)
    requires i < |log| && log[i].id == j
    ensures Count(log, For(j)) > 0
  {
    if i > 0 { CountSees(log[1..], i - 1, j); }
  }

  lemma NothingWaits(parts: seq<Part>, j: JobId)
    requires Count(parts, OnRetry(For(j))) == 0
    ensures NotWaiting(parts, j)
  {
    forall p, i | 0 <= p < |parts| && parts[p].topic.RetryOf? && parts[p].pos <= i < |parts[p].log|
      ensures parts[p].log[i].id != j
    {
      CountMember(parts, p, OnRetry(For(j)));
      if parts[p].log[i].id == j { CountSees(parts[p].log[parts[p].pos..], i - parts[p].pos, j); }
    }
  }

  // ----- what each operation keeps -----

  lemma SameRetriesDue(a: Plant, b: Plant, ran: map<JobId, int>, j: JobId, now: int)
    requires AllDue(a, ran) && SameRetries(a.parts, b.parts) && SameAttempts(a.rows, b.rows, {j})
    requires NotWaiting(a.parts, j)
    ensures AllDue(b, ran[j := now])
  {
    forall p | 0 <= p < |b.parts| && b.parts[p].topic.RetryOf? ensures DuePart(b.rows, ran[j := now], b.parts[p]) {
      assert DuePart(a.rows, ran, a.parts[p]);
      forall i | b.parts[p].pos <= i < |b.parts[p].log| ensures Due(b.rows, ran[j := now], b.parts[p].log[i]) {
        assert Due(a.rows, ran, a.parts[p].log[i]);
      }
    }
  }

  lemma AppendedDue(a: Plant, b: Plant, ran: map<JobId, int>, m: Message, route: Route, t: Tier, now: int)
    requires AllDue(a, ran) && NotWaiting(a.parts, m.id) && SameAttempts(a.rows, b.rows, {m.id})
    requires Routed(route, a.parts, RetryOf(t), m.key) && b.parts == Append(route, a.parts, RetryOf(t), m)
    requires Due(b.rows, ran[m.id := now], m)
    ensures AllDue(b, ran[m.id := now])
  {
    var more := ran[m.id := now];
    forall p | 0 <= p < |b.parts| && b.parts[p].topic.RetryOf? ensures DuePart(b.rows, more, b.parts[p]) {
      assert DuePart(a.rows, ran, a.parts[p]);
      forall i | b.parts[p].pos <= i < |b.parts[p].log| ensures Due(b.rows, more, b.parts[p].log[i]) {
        if i < |a.parts[p].log| { assert Due(a.rows, ran, a.parts[p].log[i]); }
      }
    }
  }

  lemma HandleAttempts(u: Setup, pl: Plant, m: Message, env: Env)
    ensures SameAttempts(pl.rows, Handle(u, pl, m, env).0.rows, {})
  {
  }

  lemma FailAttempts(u: Setup, pl: Plant, tier: Tier, m: Message, job: Row, env: Env, err: string)
    ensures SameAttempts(pl.rows, Fail(u, pl, tier, m, job, env, err).rows, {m.id})
  {
    if job.attempts + 1 >= job.maxAttempts {
      assert SameAttempts(pl.rows, SendToDlq(u, pl, m, env.trace, err).rows, {m.id});
    } else {
      assert SameAttempts(pl.rows, SendToRetry(u, pl, tier, m, job.attempts + 1, env, err).rows, {m.id});
    }
  }

  lemma ProcessAttempts(u: Setup, pl: Plant, m: Message, env: Env)
    requires m.id in pl.rows && HasHandler(m.typ)
    ensures SameAttempts(pl.rows, ProcessOne(u, pl, m.tier, m, env).0.rows, {m.id})
  {
    var running := SetState(pl, m.id, State.Running, None);
    HandleAttempts(u, running, m, env);
    var (h, err, entry) := Handle(u, running, m, env);
    var ran := h.(runs := h.runs + [Ran(m.id, err.None?, entry)]);
    if err.Some? { FailAttempts(u, ran, m.tier, m, pl.rows[m.id], env, err.value); }
  }

  lemma WorkDue(u: Setup, pl: Plant, p: nat, env: Env, ran: map<JobId, int>)
    requires Pipeline.Inv(u, pl) && AllDue(pl, ran) && Readable(pl, p) && pl.parts[p].topic.Main?
    requires Jitter(env.jitter) && Int64(pl.now)
    ensures AllDue(Work(u, pl, p, env), ran[Head(pl, p).id := pl.now])
  {
    var m := Head(pl, p);
    var f := Fetched(pl, p);
    Pipeline.FetchKeeps(u, pl, p);
    RegistryIsTotalOnValid(m.typ);
    NothingWaits(f.parts, m.id);
    var b := ProcessOne(u, f, m.tier, m, env).0;
    ProcessAttempts(u, f, m, env);
    assert AllDue(f, ran) by {
      forall k | 0 <= k < |f.parts| && f.parts[k].topic.RetryOf? ensures DuePart(f.rows, ran, f.parts[k]) {
        assert DuePart(pl.rows, ran, pl.parts[k]);
      }
    }
    if Outcome(u, f, m, env).Some? && f.rows[m.id].attempts + 1 < f.rows[m.id].maxAttempts {
      assert Routed(u.route, f.parts, RetryOf(m.tier), m.id);
      var c := FailureIsRescheduled(u, f, m, env);
      AppendedDue(f, b, ran, c, u.route, m.tier, pl.now);
    } else {
      OtherwiseNoRetry(u, f, m, env);
      SameRetriesDue(f, b, ran, m.id, pl.now);
    }
    CommitDue(b, p, pl.parts[p].pos, ran[m.id := pl.now]);
  }

  lemma CommitDue(pl: Plant, p: nat, off: nat, ran: map<JobId, int>)
    requires AllDue(pl, ran)
    ensures AllDue(Committed(pl, p, off), ran)
  {
    var b := Committed(pl, p, off);
    forall k | 0 <= k < |b.parts| && b.parts[k].topic.RetryOf? ensures DuePart(b.rows, ran, b.parts[k]) {
      assert DuePart(pl.rows, ran, pl.parts[k]);
    }
  }

  /** Nothing new on retry topics, readers only moved on, no attempts changed. */
  lemma QuietDue(a: Plant, b: Plant, ran: map<JobId, int>)
    requires AllDue(a, ran) && SameAttempts(a.rows, b.rows, {}) && |b.parts| == |a.parts|
    requires forall p :: 0 <= p < |a.parts| ==>
      b.parts[p].topic == a.parts[p].topic &&
      (a.parts[p].topic.RetryOf? ==> b.parts[p].log == a.parts[p].log && b.parts[p].pos >= a.parts[p].pos)
    ensures AllDue(b, ran)
  {
    forall p | 0 <= p < |b.parts| && b.parts[p].topic.RetryOf? ensures DuePart(b.rows, ran, b.parts[p]) {
      assert DuePart(a.rows, ran, a.parts[p]);
      forall i | b.parts[p].pos <= i < |b.parts[p].log| ensures Due(b.rows, ran, b.parts[p].log[i]) {
        assert Due(a.rows, ran, a.parts[p].log[i]);
      }
    }
  }

  lemma SubmitDue(u: Setup, pl: Plant, q: Request, id: JobId, trace: seq<Header>, ran: map<JobId, int>)
    requires AllDue(pl, ran)
    ensures AllDue(Submit(u, pl, q, id, trace).0, ran)
  {
    QuietDue(pl, Submit(u, pl, q, id, trace).0, ran);
  }

  lemma ForwardDue(u: Setup, pl: Plant, p: nat, trace: seq<Header>, ran: map<JobId, int>)
    requires AllDue(pl, ran) && Readable(pl, p) && pl.parts[p].topic.RetryOf?
    ensures AllDue(Forward(u, pl, p, trace), ran)
  {
    QuietDue(pl, Forward(u, pl, p, trace), ran);
  }

  lemma ApplyDue(u: Setup, pl: Plant, op: Op, ran: map<JobId, int>)
    requires Pipeline.Inv(u, pl) && AllDue(pl, ran) && Enabled(pl, op) && Int64(pl.now)
    requires op.Working? ==> Jitter(op.env.jitter)
    ensures AllDue(Apply(u, pl, op), if op.Working? then ran[Head(pl, op.p).id := pl.now] else ran)
  {
    match op
    case Submitting(q, id, trace) => SubmitDue(u, pl, q, id, trace, ran);
    case Working(p, env) => WorkDue(u, pl, p, env, ran);
    case Forwarding(p, trace) => ForwardDue(u, pl, p, trace, ran);
    case Waiting(d) => QuietDue(pl, pl.(now := pl.now + d), ran);
  }

  lemma ApplyLater(u: Setup, pl: Plant, op: Op)
    requires Enabled(pl, op)
    ensures pl.now <= Apply(u, pl, op).now
  {
    if op.Working? { WorkNow(u, pl, op.p, op.env); }
  }

  lemma WorkNow(u: Setup, pl: Plant, p: nat, env: Env)
    requires Readable(pl, p) && pl.parts[p].topic.Main?
    ensures Work(u, pl, p, env).now == pl.now
  {
    ProcessNow(u, Fetched(pl, p), pl.parts[p].topic.tier, Head(pl, p), env);
  }

  lemma ProcessNow(u: Setup, pl: Plant, tier: Tier, m: Message, env: Env)
    ensures ProcessOne(u, pl, tier, m, env).0.now == pl.now
  {
    var running := SetState(pl, m.id, State.Running, None);
    HandlerRetriesNothing(u, running, m, env);
    var (h, err, entry) := Handle(u, running, m, env);
    if m.id in pl.rows && err.Some? {
      FailNow(u, h.(runs := h.runs + [Ran(m.id, false, entry)]), tier, m, pl.rows[m.id], env, err.value);
    }
  }

  lemma FailNow(u: Setup, pl: Plant, tier: Tier, m: Message, job: Row, env: Env, err: string)
    ensures Fail(u, pl, tier, m, job, env, err).now == pl.now
  {
  }

  lemma {:induction false} RunsLater(u: Setup, pl: Plant, ops: seq<Op>, end: Plant)
    requires Runs(u, pl, ops, end)
    ensures pl.now <= end.now
    decreases |ops|
  {
    if ops != [] {
      ApplyLater(u, pl, ops[0]);
      RunsLater(u, Apply(u, pl, ops[0]), ops[1..], end);
    }
  }

  lemma {:induction false} RunsDue(u: Setup, pl: Plant, ops: seq<Op>, end: Plant, ran: map<JobId, int>)
    requires Pipeline.Inv(u, pl) && AllDue(pl, ran) && Runs(u, pl, ops, end) && JitteredOps(ops)
    requires Int64(pl.now) && Int64(end.now)
    ensures Pipeline.Inv(u, end) && AllDue(end, LastRuns(u, pl, ops, ran))
    decreases |ops|
  {
    if ops != [] {
      ApplyDue(u, pl, ops[0], ran);
      Pipeline.ApplyKeeps(u, pl, ops[0]);
      ApplyLater(u, pl, ops[0]);
      RunsLater(u, Apply(u, pl, ops[0]), ops[1..], end);
      assert JitteredOps(ops[1..]) by {
        assert forall i :: 0 <= i < |ops[1..]| ==> ops[1..][i] == ops[i + 1];
      }
      var more := if ops[0].Working? then ran[Head(pl, ops[0].p).id := pl.now] else ran;
      RunsDue(u, Apply(u, pl, ops[0]), ops[1..], end, more);
    }
  }

  // ----- the theorems -----

  /** Where the router waits until: the first time at which the message's instant has passed, or now. */
  lemma AwaitedInstant(pl: Plant, m: Message)
    ensures var now := Awaited(pl, m).now;
            now >= pl.now && Punctual.Passed(m.headers, now) &&
            forall x :: x < now && pl.now <= x ==> !Punctual.Passed(m.headers, x)
  {
    InstantIsRead(m.headers, pl.now);
  }

  /** What the router reads is the instant named, or the present time where none is. */
  lemma {:induction false} InstantIsRead(hs: seq<Header>, now: int)
    ensures forall x :: x >= RetryAt(hs, now) ==> Punctual.Passed(hs, x)
    ensures forall x :: x < RetryAt(hs, now) ==> x < now || !Punctual.Passed(hs, x)
  {
    if i: nat :| i < |hs| && Punctual.LastInstant(hs, i) {
      Punctual.ReadInstant(hs, i, now);
      assert forall k :: 0 <= k < |hs| && Punctual.LastInstant(hs, k) ==> k == i;
    } else {
      NoInstant(hs, now);
    }
  }

  lemma {:induction false} NoInstant(hs: seq<Header>, now: int)
    requires forall i :: 0 <= i < |hs| ==> !Punctual.LastInstant(hs, i)
    ensures RetryAt(hs, now) == now
  {
    if hs != [] {
      var n := |hs| - 1;
      assert !Punctual.LastInstant(hs, n);
      forall i | 0 <= i < n ensures !Punctual.LastInstant(hs[..n], i) {
        if Punctual.LastInstant(hs[..n], i) { assert Punctual.LastInstant(hs, i); }
      }
      NoInstant(hs[..n], now);
    }
  }

  /** The window at one time. */
  lemma WindowAt(n: nat, sent: int, hs: seq<Header>, now: int)
    requires n >= 1 && Window(n, sent, hs)
    ensures Punctual.Passed(hs, now) ==> 2 * (now + 1_000_000_000) > 2 * sent + Pow5(n - 1) * 1_000_000_000
    ensures !Punctual.Passed(hs, now) ==> 2 * now < 2 * sent + 3 * Pow5(n - 1) * 1_000_000_000
  {
  }

  /** Twice a time short of an even bound. */
  lemma EvenBound(now: int, sent: int, base: nat)
    requires 2 * (now - 1) < 2 * sent + 3 * base * 1_000_000_000
    ensures 2 * now <= 2 * sent + 3 * base * 1_000_000_000
  {
    var half := 3 * base * 500_000_000;
    assert 2 * half == 3 * base * 1_000_000_000;
  }

  /** The clock after a forward, for a message that names an instant in the window. */
  lemma ForwardInWindow(u: Setup, pl: Plant, p: nat, trace: seq<Header>, n: nat, sent: int)
    requires Readable(pl, p) && pl.parts[p].topic.RetryOf? && n >= 1 && Window(n, sent, Head(pl, p).headers)
    ensures var now := Forward(u, pl, p, trace).now;
            2 * (now + 1_000_000_000) > 2 * sent + Pow5(n - 1) * 1_000_000_000 &&
            (now > pl.now ==> 2 * now <= 2 * sent + 3 * Pow5(n - 1) * 1_000_000_000)
  {
    AwaitedInstant(Fetched(pl, p), Head(pl, p));
    var now := Forward(u, pl, p, trace).now;
    assert now == Awaited(Fetched(pl, p), Head(pl, p)).now;
    WindowAt(n, sent, Head(pl, p).headers, now);
    if now > pl.now {
      assert !Punctual.Passed(Head(pl, p).headers, now - 1);
      WindowAt(n, sent, Head(pl, p).headers, now - 1);
      EvenBound(now, sent, Pow5(n - 1));
    }
  }

  /** The message goes back under its own key to the main topic of its tier. */
  lemma ForwardPublishes(u: Setup, pl: Plant, p: nat, trace: seq<Header>)
    requires Wired(u.route, pl.parts) && Readable(pl, p) && pl.parts[p].topic == RetryOf(Head(pl, p).tier)
    ensures var m := Head(pl, p);
            var after := Forward(u, pl, p, trace).parts;
            var main := u.route(Main(m.tier), m.key);
            main < |after| && main < |pl.parts| && after[main].topic == Main(m.tier) &&
            after[main].log == pl.parts[main].log + [m.(headers := trace)]
  {
    assert Routed(u.route, pl.parts, Main(Head(pl, p).tier), Head(pl, p).key);
  }

  /** The retry to be read next is due after its job's last run. */
  lemma HeadIsDue(u: Setup, start: Plant, ops: seq<Op>, pl: Plant, p: nat)
    requires Fresh(start) && Wired(u.route, start.parts) && Runs(u, start, ops, pl) && JitteredOps(ops)
    requires Int64(start.now) && Int64(pl.now) && Readable(pl, p) && pl.parts[p].topic.RetryOf?
    ensures var m := Head(pl, p);
            var n := |Pipeline.Results(pl.runs, m.id)|;
            var ran := LastRuns(u, start, ops, map[]);
            1 <= n < MAX_ATTEMPTS && m.id in ran && Window(n, ran[m.id], m.headers) &&
            Wired(u.route, pl.parts) && pl.parts[p].topic == RetryOf(m.tier)
  {
    Pipeline.FreshInv(u, start);
    RunsDue(u, start, ops, pl, map[]);
    Pipeline.FetchKeeps(u, pl, p);
    assert DuePart(pl.rows, LastRuns(u, start, ops, map[]), pl.parts[p]);
    assert Due(pl.rows, LastRuns(u, start, ops, map[]), Head(pl, p));
  }

  /**
   In every serialised run: when a router forwards a retry of a job that has been run `n` times, it puts the message
   back on the main topic no earlier than half of 5^(n-1) seconds after the job's last run, less the second lost to
   truncation, and if it waits for it, not later than one and a half times that.
   */
  lemma RerunWaits(u: Setup, start: Plant, ops: seq<Op>, pl: Plant, p: nat, trace: seq<Header>)
    requires Fresh(start) && Wired(u.route, start.parts) && Runs(u, start, ops, pl) && JitteredOps(ops)
    requires Int64(start.now) && Int64(pl.now) && Readable(pl, p) && pl.parts[p].topic.RetryOf?
    ensures var m := Head(pl, p);
            var n := |Pipeline.Results(pl.runs, m.id)|;
            var ran := LastRuns(u, start, ops, map[]);
            var after := Forward(u, pl, p, trace);
            var main := u.route(Main(m.tier), m.key);
            1 <= n < MAX_ATTEMPTS && m.id in ran &&
            2 * (after.now + 1_000_000_000) > 2 * ran[m.id] + Pow5(n - 1) * 1_000_000_000 &&
            (after.now > pl.now ==> 2 * after.now <= 2 * ran[m.id] + 3 * Pow5(n - 1) * 1_000_000_000) &&
            main < |after.parts| && main < |pl.parts| && after.parts[main].topic == Main(m.tier) &&
            after.parts[main].log == pl.parts[main].log + [m.(headers := trace)]
  {
    HeadIsDue(u, start, ops, pl, p);
    var m := Head(pl, p);
    ForwardInWindow(u, pl, p, trace, |Pipeline.Results(pl.runs, m.id)|, LastRuns(u, start, ops, map[])[m.id]);
    ForwardPublishes(u, pl, p, trace);
  }

  /** Later retries wait longer, from failure to instant, whatever the jitters and the truncation. */
  lemma LaterRetriesWaitLonger(a: nat, sentA: int, hsA: seq<Header>, b: nat, sentB: int, hsB: seq<Header>,
    atA: int, atB: int)
    requires 1 <= a < b && Window(a, sentA, hsA) && Window(b, sentB, hsB)
    requires !Punctual.Passed(hsA, atA - 1) && Punctual.Passed(hsB, atB)
    ensures atA - sentA < atB - sentB
  {
    Pow5Mono(a, b - 1);
    Pow5Mono(a - 1, a - 1);
    assert Pow5(a) == 5 * Pow5(a - 1);
  }
}

/**
 Heartbeat timing: one handler run under the worker's timing rules, and whether a scan can find its row stale.
 */
module Heartbeat {
  import opened Prelude
  import opened Jobs
  import opened Store
  import opened Reaping
  import opened Postgres

  const INTERVAL: int := 10_000_000_000
  const MARGIN: int := STALENESS - INTERVAL

  datatype Phase = Handling | Finishing | Over

  /** A run in progress: its row, the clock, and the time of the last tick of the heartbeat ticker. */
  datatype Run = Run(row: Row, now: int, tick: int, phase: Phase)

  datatype Step = Pass(d: nat) | Tick | HandlerReturns | Dispose(to: State, err: Option<string>)

  /** The row enters RUNNING with whatever heartbeat an earlier run left in it. */
  function Begin(r: Row, now: int): Run {
    Run(WithState(r, State.Running, None, now), now, now, Handling)
  }

  /**
   The timing rules: while the handler runs the ticker writes at least every 10 seconds; once it has returned, the
   final write follows within 60 seconds of the last heartbeat.
   */
  predicate InTime(r: Run, until: int) {
    match r.phase
    case Handling => until <= r.tick + INTERVAL
    case Finishing => r.row.heartbeat.Some? ==> until <= r.row.heartbeat.value + STALENESS
    case Over => true
  }

  predicate Enabled(r: Run, e: Step) {
    match e
    case Pass(d) => InTime(r, r.now + d)
    case Tick => r.phase != Over
    case HandlerReturns => r.phase == Handling
    case Dispose(to, _) => r.phase == Finishing && to in {State.Success, State.Failed, State.Retry}
  }

  function Take(r: Run, e: Step): Run
    requires Enabled(r, e)
  {
    match e
    case Pass(d) => r.(now := r.now + d)
    case Tick => r.(row := WithHeartbeat(r.row, r.now), tick := r.now)
    case HandlerReturns => r.(phase := Finishing)
    case Dispose(to, err) => r.(row := WithState(r.row, to, err, r.now), phase := Over)
  }

  /** `es` is a possible course of events from `a` to `b`. */
  predicate Course(a: Run, es: seq<Step>, b: Run)
    decreases |es|
  {
    if es == [] then a == b else Enabled(a, es[0]) && Course(Take(a, es[0]), es[1..], b)
  }

  predicate Alive(r: Run) {
    match r.phase
    case Over => r.row.state != State.Running
    case Handling =>
      r.tick <= r.now <= r.tick + INTERVAL && (r.row.heartbeat.Some? ==> r.row.heartbeat.value >= r.tick - MARGIN)
    case Finishing => r.row.heartbeat.Some? ==> r.now <= r.row.heartbeat.value + STALENESS
  }

  lemma {:induction false} CourseStaysAlive(a: Run, es: seq<Step>, b: Run)
    requires Alive(a) && Course(a, es, b)
    ensures Alive(b)
    decreases |es|
  {
    if es != [] {
      CourseStaysAlive(Take(a, es[0]), es[1..], b);
    }
  }

  /** No scan of any table holding the row, at any moment of the run, selects it. */
  lemma LiveRunIsNeverReaped(r: Row, start: int, es: seq<Step>, b: Run, rows: Table, id: JobId, limit: nat,
    batch: seq<JobId>)
    requires r.heartbeat.Some? ==> r.heartbeat.value >= start - 50_000_000_000
    requires Course(Begin(r, start), es, b)
    requires id in rows && rows[id] == b.row && IsBatch(rows, b.now, limit, batch)
    ensures id !in batch
  {
    CourseStaysAlive(Begin(r, start), es, b);
    assert !StaleIn(rows, b.now, id);
  }

  /** A course of the run that a scan at its end would find stale. */
  predicate FoundStale(r: Row, start: int, es: seq<Step>, b: Run) {
    Course(Begin(r, start), es, b) && Stale(b.row, b.now)
  }

  /** Ten seconds of waiting are enough to find an old heartbeat stale. */
  lemma OldHeartbeatIsFound(r: Row, start: int) returns (es: seq<Step>, b: Run)
    requires r.heartbeat.Some? && r.heartbeat.value < start - 50_000_000_000
    ensures FoundStale(r, start, es, b)
  {
    es := [Pass(10_000_000_000)];
    b := Take(Begin(r, start), es[0]);
    assert Course(b, es[1..], b);
  }

  /**
   The margin is exact: under the timing rules a live run can be found stale precisely when it starts with a heartbeat
   more than 50 seconds old, left over from an earlier run.
   */
  lemma ReapedAliveIffOldHeartbeat(r: Row, start: int)
    ensures (exists es, b :: FoundStale(r, start, es, b)) <==>
            r.heartbeat.Some? && r.heartbeat.value < start - 50_000_000_000
  {
    if r.heartbeat.Some? && r.heartbeat.value < start - 50_000_000_000 {
      var es, b := OldHeartbeatIsFound(r, start);
    } else {
      forall es, b ensures !FoundStale(r, start, es, b) {
        if Course(Begin(r, start), es, b) { CourseStaysAlive(Begin(r, start), es, b); }
      }
    }
  }

  // ----- the ticker -----

  lemma {:induction false} CourseJoin(a: Run, es: seq<Step>, b: Run, fs: seq<Step>, c: Run)
    requires Course(a, es, b) && Course(b, fs, c)
    ensures Course(a, es + fs, c)
    decreases |es|
  {
    if es == [] {
      assert es + fs == fs;
    } else {
      assert (es + fs)[1..] == es[1..] + fs;
      CourseJoin(Take(a, es[0]), es[1..], b, fs, c);
    }
  }

  lemma OneBeat(r: Run)
    requires r.phase == Handling && r.tick == r.now
    ensures var at := r.now + INTERVAL;
            Course(r, [Pass(10_000_000_000), Tick], Run(WithHeartbeat(r.row, at), at, at, Handling))
  {
    var es := [Pass(10_000_000_000), Tick];
    var m := Take(r, es[0]);
    var t := Take(m, es[1]);
    assert es[1..][0] == Tick && es[1..][1..] == [];
    assert Course(t, es[1..][1..], t);
    assert Course(m, es[1..], t);
  }

  /** The ticker of one run: every interval it writes the heartbeat, which is a course within the timing rules. */
  method StartHeartbeat(store: JobStore, id: JobId, ticks: nat) returns (ghost es: seq<Step>)
    requires id in store.rows
    modifies store`rows, store.clock
    ensures store.clock.now == old(store.clock.now) + ticks * 10_000_000_000
    ensures id in store.rows && store.rows == old(store.rows)[id := store.rows[id]]
    ensures Course(Run(old(store.rows)[id], old(store.clock.now), old(store.clock.now), Handling), es,
                   Run(store.rows[id], store.clock.now, store.clock.now, Handling))
  {
    ghost var first := Run(store.rows[id], store.clock.now, store.clock.now, Handling);
    es := [];
    var i := 0;
    while i < ticks
      invariant 0 <= i <= ticks && store.clock.now == first.now + i * INTERVAL
      invariant id in store.rows && store.rows == old(store.rows)[id := store.rows[id]]
      invariant Course(first, es, Run(store.rows[id], store.clock.now, store.clock.now, Handling))
    {
      ghost var before := Run(store.rows[id], store.clock.now, store.clock.now, Handling);
      OneBeat(before);
      store.clock.SleepUntil(store.clock.now + INTERVAL);
      store.WriteHeartbeat(id);
      ghost var after := Run(store.rows[id], store.clock.now, store.clock.now, Handling);
      CourseJoin(first, es, before, [Pass(10_000_000_000), Tick], after);
      es := es + [Pass(10_000_000_000), Tick];
      i := i + 1;
    }
  }
}

/**
 The reaper: what one scan selects, what a sweep of the selected rows does, and how repeated scans drain a
 backlog oldest first.
 */
module Reaping {
  import opened Prelude
  import opened Jobs
  import opened Store
  import opened Broker

  /** A row the scan can ever select: RUNNING with a heartbeat. */
  predicate Eligible(r: Row) {
    r.state == State.Running && r.heartbeat.Some?
  }

  function Beat(rows: Table, id: JobId): int {
    if id in rows && rows[id].heartbeat.Some? then rows[id].heartbeat.value else 0
  }

  predicate NoDup<T(==)>(s: seq<T>) {
    forall i, k :: 0 <= i < k < |s| ==> s[i] != s[k]
  }

  predicate OldestFirst(rows: Table, ids: seq<JobId>) {
    forall i, k :: 0 <= i < k < |ids| ==> Beat(rows, ids[i]) <= Beat(rows, ids[k])
  }

  predicate StaleIn(rows: Table, now: int, id: JobId) {
    id in rows && Stale(rows[id], now)
  }

  /** The answer of ReapStaleJobs: the oldest stale rows, oldest first, as many as the limit allows. */
  ghost predicate IsBatch(rows: Table, now: int, limit: nat, batch: seq<JobId>) {
    |batch| <= limit && NoDup(batch) && OldestFirst(rows, batch) &&
    (forall i :: 0 <= i < |batch| ==> StaleIn(rows, now, batch[i])) &&
    (forall id :: StaleIn(rows, now, id) && id !in batch ==> |batch| == limit) &&
    (forall id, i :: StaleIn(rows, now, id) && id !in batch && 0 <= i < |batch| ==>
      Beat(rows, batch[i]) <= Beat(rows, id))
  }

  // ----- one sweep -----

  function RequeueOne(rows: Table, id: JobId): Table {
    if id in rows then rows[id := Requeued(rows[id])] else rows
  }

  /** The republish after a requeue; a row past its budget is left alone. */
  function Republish(route: Route, rows: Table, parts: seq<Part>, id: JobId, trace: seq<Header>): seq<Part> {
    if id !in rows || rows[id].attempts > rows[id].maxAttempts then parts
    else if !Routed(route, parts, Main(rows[id].tier), rows[id].device) then parts
    else Append(route, parts, Main(rows[id].tier), MessageFor(id, rows[id], trace))
  }

  function RequeueAll(rows: Table, ids: seq<JobId>): Table {
    if ids == [] then rows else RequeueOne(RequeueAll(rows, ids[..|ids| - 1]), ids[|ids| - 1])
  }

  /** The logs after the whole batch, row by row. */
  function RepublishAll(route: Route, rows: Table, parts: seq<Part>, ids: seq<JobId>, trace: seq<Header>): seq<Part> {
    if ids == [] then parts else
    var last := ids[|ids| - 1];
    Republish(route, RequeueAll(rows, ids), RepublishAll(route, rows, parts, ids[..|ids| - 1], trace), last, trace)
  }

  /** A sweep touches the selected rows and no others, and each of them once. */
  lemma {:induction false} SweptRows(rows: Table, ids: seq<JobId>)
    requires NoDup(ids) && forall i :: 0 <= i < |ids| ==> ids[i] in rows
    ensures RequeueAll(rows, ids).Keys == rows.Keys
    ensures forall id :: id in rows ==> RequeueAll(rows, ids)[id] == if id in ids then Requeued(rows[id]) else rows[id]
  {
    if ids != [] {
      var init := ids[..|ids| - 1];
      SweptRows(rows, init);
      assert ids == init + [ids[|ids| - 1]];
    }
  }

  predicate HasBudget(rows: Table, id: JobId) {
    id in rows && rows[id].attempts + 1 <= rows[id].maxAttempts
  }

  /** A sweep publishes each selected row exactly once if its attempts still fit its budget, and nothing else. */
  lemma {:induction false} SweepPublishesOnce(route: Route, rows: Table, parts: seq<Part>, ids: seq<JobId>,
    trace: seq<Header>, j: JobId)
    requires NoDup(ids) && (forall i :: 0 <= i < |ids| ==> ids[i] in rows) && Positioned(parts) && Wired(route, parts)
    ensures var after := RepublishAll(route, rows, parts, ids, trace);
            Positioned(after) && Wired(route, after) &&
            Count(after, OnMain(For(j))) == Count(parts, OnMain(For(j))) + (if j in ids &&
            HasBudget(rows, j) then 1 else 0) &&
            Count(after, OnRetry(For(j))) == Count(parts, OnRetry(For(j))) &&
            Count(after, OnDlq(For(j))) == Count(parts, OnDlq(For(j)))
  {
    if ids != [] {
      var init := ids[..|ids| - 1];
      var last := ids[|ids| - 1];
      assert ids == init + [last] && last !in init;
      SweepPublishesOnce(route, rows, parts, init, trace, j);
      SweptRows(rows, ids);
      var before := RepublishAll(route, rows, parts, init, trace);
      RepublishStep(route, RequeueAll(rows, ids), before, last, trace, j);
    }
  }

  lemma RepublishStep(route: Route, rows: Table, parts: seq<Part>, id: JobId, trace: seq<Header>, j: JobId)
    requires Positioned(parts) && Wired(route, parts) && id in rows
    ensures var after := Republish(route, rows, parts, id, trace);
            Positioned(after) && Wired(route, after) &&
            Count(after, OnMain(For(j))) ==
              Count(parts, OnMain(For(j))) + (if j == id && rows[id].attempts <= rows[id].maxAttempts then 1 else 0) &&
            Count(after, OnRetry(For(j))) == Count(parts, OnRetry(For(j))) &&
            Count(after, OnDlq(For(j))) == Count(parts, OnDlq(For(j)))
  {
    var r := rows[id];
    assert Routed(route, parts, Main(r.tier), r.device);
    if r.attempts <= r.maxAttempts {
      AppendKinds(route, parts, Main(r.tier), MessageFor(id, r, trace), For(j));
      var after := Append(route, parts, Main(r.tier), MessageFor(id, r, trace));
      forall t, key ensures Routed(route, after, t, key) {
        assert Routed(route, parts, t, key);
      }
    }
  }

  // ----- draining a backlog -----

  /** One sweep: when it scanned, and what the scan answered. */
  datatype Sweep = Sweep(at: int, batch: seq<JobId>)

  /** Sweeps of one reaper while nobody else writes; time may pass between them. */
  ghost predicate Sweeps(rows: Table, since: int, sweeps: seq<Sweep>, end: Table)
    decreases |sweeps|
  {
    if sweeps == [] then end == rows
    else sweeps[0].at >= since && IsBatch(rows, sweeps[0].at, MAX_BATCH, sweeps[0].batch) &&
         Sweeps(RequeueAll(rows, sweeps[0].batch), sweeps[0].at, sweeps[1..], end)
  }

  /** All requeues of all sweeps, in order. */
  function Requeues(sweeps: seq<Sweep>): seq<JobId> {
    if sweeps == [] then [] else sweeps[0].batch + Requeues(sweeps[1..])
  }

  /** What holds after `done` has been requeued: it was the oldest part of what could be stale. */
  ghost predicate DoneOldest(first: Table, done: seq<JobId>, rows: Table) {
    NoDup(done) && OldestFirst(first, done) && rows.Keys == first.Keys &&
    (forall i :: 0 <= i < |done| ==> done[i] in first && Eligible(first[done[i]])) &&
    (forall id :: id in first ==> rows[id] == if id in done then Requeued(first[id]) else first[id]) &&
    forall id, i :: id in first && Eligible(first[id]) && id !in done && 0 <= i < |done| ==>
      Beat(first, done[i]) <= Beat(first, id)
  }

  lemma BatchIsNew(first: Table, done: seq<JobId>, rows: Table, now: int, batch: seq<JobId>)
    requires DoneOldest(first, done, rows) && IsBatch(rows, now, MAX_BATCH, batch)
    ensures forall i :: 0 <= i < |batch| ==>
      batch[i] in first && batch[i] !in done && Eligible(first[batch[i]]) &&
      Beat(first, batch[i]) == Beat(rows, batch[i])
  {
    forall i | 0 <= i < |batch|
      ensures batch[i] in first && batch[i] !in done && Eligible(first[batch[i]])
      ensures Beat(first, batch[i]) == Beat(rows, batch[i])
    {
      assert StaleIn(rows, now, batch[i]);
    }
  }

  lemma SweepOrder(first: Table, done: seq<JobId>, rows: Table, now: int, batch: seq<JobId>)
    requires DoneOldest(first, done, rows) && IsBatch(rows, now, MAX_BATCH, batch)
    ensures NoDup(done + batch) && OldestFirst(first, done + batch)
  {
    BatchIsNew(first, done, rows, now, batch);
    var all := done + batch;
    forall i, k | 0 <= i < k < |all| ensures all[i] != all[k] && Beat(first, all[i]) <= Beat(first, all[k]) {
      if k >= |done| {
        assert all[k] == batch[k - |done|];
        if i >= |done| {
          assert all[i] == batch[i - |done|];
        } else {
          assert all[i] == done[i];
        }
      }
    }
  }

  lemma SweepBound(first: Table, done: seq<JobId>, rows: Table, now: int, batch: seq<JobId>, id: JobId, i: nat)
    requires DoneOldest(first, done, rows) && IsBatch(rows, now, MAX_BATCH, batch)
    requires id in first && Eligible(first[id]) && id !in done + batch && i < |done + batch|
    ensures Beat(first, (done + batch)[i]) <= Beat(first, id)
  {
    BatchIsNew(first, done, rows, now, batch);
    assert rows[id] == first[id];
    if i >= |done| {
      var b := batch[i - |done|];
      assert StaleIn(rows, now, b);
      if StaleIn(rows, now, id) {
        assert Beat(rows, b) <= Beat(rows, id);
      }
    }
  }

  lemma SweepRows(first: Table, done: seq<JobId>, rows: Table, now: int, batch: seq<JobId>)
    requires DoneOldest(first, done, rows) && IsBatch(rows, now, MAX_BATCH, batch)
    ensures RequeueAll(rows, batch).Keys == first.Keys
    ensures forall id :: id in first ==>
              RequeueAll(rows, batch)[id] == if id in done + batch then Requeued(first[id]) else first[id]
  {
    BatchIsNew(first, done, rows, now, batch);
    assert forall i :: 0 <= i < |batch| ==> batch[i] in rows;
    SweptRows(rows, batch);
  }

  lemma SweepKeepsOrder(first: Table, done: seq<JobId>, rows: Table, now: int, batch: seq<JobId>)
    requires DoneOldest(first, done, rows) && IsBatch(rows, now, MAX_BATCH, batch)
    ensures DoneOldest(first, done + batch, RequeueAll(rows, batch))
  {
    BatchIsNew(first, done, rows, now, batch);
    SweepOrder(first, done, rows, now, batch);
    SweepRows(first, done, rows, now, batch);
    forall id, i | id in first && Eligible(first[id]) && id !in done + batch && 0 <= i < |done + batch|
      ensures Beat(first, (done + batch)[i]) <= Beat(first, id)
    {
      SweepBound(first, done, rows, now, batch, id, i);
    }
  }

  /** The rows stale at the start. */
  function Backlog(rows: Table, now: int): set<JobId> {
    set id | id in rows && Stale(rows[id], now)
  }

  ghost predicate AllDone(first: Table, t0: int, done: seq<JobId>) {
    forall id :: id in Backlog(first, t0) ==> id in done
  }

  /** A sweep is full, or it takes whatever is left of the backlog. */
  lemma SweepProgress(first: Table, t0: int, done: seq<JobId>, rows: Table, now: int, batch: seq<JobId>)
    requires DoneOldest(first, done, rows) && now >= t0 && IsBatch(rows, now, MAX_BATCH, batch)
    ensures |batch| == MAX_BATCH || AllDone(first, t0, done + batch)
  {
    if |batch| != MAX_BATCH {
      forall id | id in Backlog(first, t0) ensures id in done + batch {
        if id !in done {
          assert StaleIn(rows, now, id);
        }
      }
    }
  }

  lemma {:induction false} SweepsKeepOrder(first: Table, done: seq<JobId>, rows: Table, since: int,
    sweeps: seq<Sweep>, end: Table)
    requires DoneOldest(first, done, rows) && Sweeps(rows, since, sweeps, end)
    ensures DoneOldest(first, done + Requeues(sweeps), end)
    decreases |sweeps|
  {
    if sweeps == [] {
      assert done + Requeues(sweeps) == done;
    } else {
      var w := sweeps[0];
      SweepKeepsOrder(first, done, rows, w.at, w.batch);
      SweepsKeepOrder(first, done + w.batch, RequeueAll(rows, w.batch), w.at, sweeps[1..], end);
      Regroup(done, w.batch, Requeues(sweeps[1..]));
    }
  }

  /** Sweeps stay full until the backlog is gone. */
  lemma {:induction false} SweepsProgress(first: Table, t0: int, done: seq<JobId>, rows: Table, since: int,
    sweeps: seq<Sweep>, end: Table)
    requires DoneOldest(first, done, rows) && since >= t0 && Sweeps(rows, since, sweeps, end)
    ensures |Requeues(sweeps)| >= MAX_BATCH * |sweeps| || AllDone(first, t0, done + Requeues(sweeps))
    decreases |sweeps|
  {
    if sweeps != [] {
      var w := sweeps[0];
      var rest := Requeues(sweeps[1..]);
      SweepKeepsOrder(first, done, rows, w.at, w.batch);
      SweepProgress(first, t0, done, rows, w.at, w.batch);
      SweepsProgress(first, t0, done + w.batch, RequeueAll(rows, w.batch), w.at, sweeps[1..], end);
      Regroup(done, w.batch, rest);
    }
  }

  // ----- counting -----

  lemma {:induction false} DistinctElements<T>(s: seq<T>)
    requires NoDup(s)
    ensures |set x | x in s| == |s|
  {
    if s != [] {
      var init := s[..|s| - 1];
      DistinctElements(init);
      assert s == init + [s[|s| - 1]] && s[|s| - 1] !in init;
      assert (set x | x in s) == (set x | x in init) + {s[|s| - 1]};
    }
  }

  lemma Subset<T>(a: set<T>, b: set<T>)
    requires a <= b
    ensures |a| <= |b| && (|a| == |b| ==> a == b)
  {
    var d := b - a;
    assert b == a + d;
    if |a| == |b| {
      assert |d| == 0;
    }
  }

  /** Anything stale at the start is older than anything that was not. */
  lemma BacklogIsOldest(first: Table, t0: int, a: JobId, b: JobId)
    requires a in Backlog(first, t0) && b in first && Eligible(first[b]) && b !in Backlog(first, t0)
    ensures Beat(first, a) < Beat(first, b)
  {
  }

  lemma PrefixOf<T>(s: seq<T>, n: nat)
    requires NoDup(s) && n <= |s|
    ensures |set x | x in s[..n]| == n
  {
    DistinctElements(s[..n]);
  }

  /** A requeued row outside the backlog comes after all of it. */
  lemma PrefixInBacklog(first: Table, t0: int, done: seq<JobId>, rows: Table, i: nat)
    requires DoneOldest(first, done, rows)
    requires |done| >= |Backlog(first, t0)| || AllDone(first, t0, done)
    requires i < |done| && i < |Backlog(first, t0)|
    ensures done[i] in Backlog(first, t0)
  {
    var backlog := Backlog(first, t0);
    if done[i] !in backlog {
      forall id | id in backlog ensures id in done[..i] {
        BacklogIsOldest(first, t0, id, done[i]);
        assert id in first && Eligible(first[id]);
        if id in done {
          var k :| 0 <= k < |done| && done[k] == id;
          assert k < i;
          assert done[..i][k] == id;
        } else {
          assert false;
        }
      }
      PrefixOf(done, i);
      Subset(backlog, set x | x in done[..i]);
    }
  }

  lemma PrefixIsBacklog(first: Table, t0: int, done: seq<JobId>, rows: Table)
    requires DoneOldest(first, done, rows)
    requires |done| >= |Backlog(first, t0)| || AllDone(first, t0, done)
    ensures |done| >= |Backlog(first, t0)|
    ensures (set id | id in done[..|Backlog(first, t0)|]) == Backlog(first, t0)
  {
    var backlog := Backlog(first, t0);
    var n := |backlog|;
    if AllDone(first, t0, done) {
      DistinctElements(done);
      Subset(backlog, set id | id in done);
    }
    var front := set id | id in done[..n];
    PrefixOf(done, n);
    forall id | id in front ensures id in backlog {
      var i :| 0 <= i < n && done[..n][i] == id;
      PrefixInBacklog(first, t0, done, rows, i);
    }
    Subset(front, backlog);
  }

  /**
   With one reaper and no other writers, enough sweeps to hold the n rows stale at the start requeue exactly those rows
   first, each once, oldest heartbeat first, before any row whose heartbeat was null or fresh at the start.
   */
  lemma ReaperDrainsOldestFirst(rows: Table, t0: int, sweeps: seq<Sweep>, end: Table)
    requires Sweeps(rows, t0, sweeps, end) && 50 * |sweeps| >= |Backlog(rows, t0)|
    ensures var order := Requeues(sweeps);
            var n := |Backlog(rows, t0)|;
            n <= |order| && (set id | id in order[..n]) == Backlog(rows, t0) && NoDup(order) &&
            OldestFirst(rows, order) &&
            end.Keys == rows.Keys &&
            forall id :: id in rows ==> end[id] == if id in order then Requeued(rows[id]) else rows[id]
  {
    SweepsKeepOrder(rows, [], rows, t0, sweeps, end);
    SweepsProgress(rows, t0, [], rows, t0, sweeps, end);
    var order := Requeues(sweeps);
    assert [] + order == order;
    PrefixIsBacklog(rows, t0, order, end);
  }
}

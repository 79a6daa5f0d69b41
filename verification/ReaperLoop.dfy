/** The reaper process: each tick scans the table and sweeps the rows it found, one after the other. */
module ReaperLoop {
  import opened Store
  import opened Broker
  import opened Postgres
  import opened Kafka
  import opened Reaping

  const SCAN_INTERVAL: int := 30_000_000_000

  class Reaper {
    const store: JobStore
    const kafka: Cluster

    constructor (store: JobStore, kafka: Cluster)
      ensures this.store == store && this.kafka == kafka
    {
      this.store := store;
      this.kafka := kafka;
    }

    /** The row first, then its message; a row past its budget is left QUEUED without one. */
    method Requeue(id: JobId, trace: seq<Header>) returns (ok: bool)
      modifies store`rows, kafka
      ensures store.rows == RequeueOne(old(store.rows), id)
      ensures kafka.parts == Republish(kafka.route, store.rows, old(kafka.parts), id, trace)
    {
      var job := store.RequeueJob(id);
      if job.None? {
        return false;
      }
      var r := job.value;
      if r.attempts > r.maxAttempts {
        return true;
      }
      ok := kafka.Publish(Main(r.tier), r.device, MessageFor(id, r, []), trace);
    }

    /** One scan and its sweep; a row that cannot be requeued does not stop the others. */
    method ScanOnce(trace: seq<Header>) returns (batch: seq<JobId>)
      modifies store`rows, kafka
      ensures IsBatch(old(store.rows), store.clock.now, 50, batch)
      ensures store.rows == RequeueAll(old(store.rows), batch)
      ensures kafka.parts == RepublishAll(kafka.route, old(store.rows), old(kafka.parts), batch, trace)
    {
      batch := store.ReapStaleJobs(MAX_BATCH);
      ghost var rows := store.rows;
      ghost var parts := kafka.parts;
      var i := 0;
      while i < |batch|
        invariant 0 <= i <= |batch|
        invariant store.rows == RequeueAll(rows, batch[..i])
        invariant kafka.parts == RepublishAll(kafka.route, rows, parts, batch[..i], trace)
      {
        var ok := Requeue(batch[i], trace);
        assert batch[..i + 1][..i] == batch[..i] && batch[..i + 1][i] == batch[i];
        i := i + 1;
      }
      assert batch[..i] == batch;
    }

    /** The ticker loop while nobody else writes: after enough ticks the whole backlog is requeued, once each. */
    method Run(ticks: nat, trace: seq<Header>) returns (sweeps: seq<Sweep>)
      modifies store`rows, kafka, store.clock
      ensures |sweeps| == ticks && Sweeps(old(store.rows), old(store.clock.now), sweeps, store.rows)
      ensures store.clock.now == old(store.clock.now) + ticks * 30_000_000_000
      ensures 50 * ticks >= |Backlog(old(store.rows), old(store.clock.now))| ==>
        forall id :: id in Backlog(old(store.rows), old(store.clock.now)) ==>
          id in old(store.rows) && id in store.rows && store.rows[id] == Requeued(old(store.rows)[id])
    {
      ghost var first := store.rows;
      ghost var t0 := store.clock.now;
      sweeps := [];
      while |sweeps| < ticks
        invariant |sweeps| <= ticks && store.clock.now == t0 + |sweeps| * 30_000_000_000
        invariant LastAt(t0, sweeps) <= store.clock.now
        invariant Sweeps(first, t0, sweeps, store.rows)
      {
        store.clock.SleepUntil(store.clock.now + SCAN_INTERVAL);
        ghost var before := store.rows;
        var batch := ScanOnce(trace);
        SweepsSnoc(first, t0, sweeps, before, Sweep(store.clock.now, batch));
        sweeps := sweeps + [Sweep(store.clock.now, batch)];
      }
      if MAX_BATCH * ticks >= |Backlog(first, t0)| {
        ReaperDrainsOldestFirst(first, t0, sweeps, store.rows);
        BacklogIsRequeued(first, t0, Requeues(sweeps), store.rows);
      }
    }
  }

  ghost function LastAt(t0: int, sweeps: seq<Sweep>): int {
    if sweeps == [] then t0 else sweeps[|sweeps| - 1].at
  }

  lemma {:induction false} SweepsSnoc(rows: Table, since: int, sweeps: seq<Sweep>, mid: Table, w: Sweep)
    requires Sweeps(rows, since, sweeps, mid) && w.at >= LastAt(since, sweeps) && IsBatch(mid, w.at, MAX_BATCH, w.batch)
    ensures Sweeps(rows, since, sweeps + [w], RequeueAll(mid, w.batch))
    decreases |sweeps|
  {
    var all := sweeps + [w];
    if sweeps == [] {
      assert all[1..] == [];
    } else {
      assert all[1..] == sweeps[1..] + [w];
      SweepsSnoc(RequeueAll(rows, sweeps[0].batch), sweeps[0].at, sweeps[1..], mid, w);
    }
  }

  lemma BacklogIsRequeued(first: Table, t0: int, order: seq<JobId>, end: Table)
    requires |Backlog(first, t0)| <= |order| && (set id | id in order[..|Backlog(first, t0)|]) == Backlog(first, t0)
    requires end.Keys == first.Keys
    requires forall id :: id in first ==> end[id] == if id in order then Requeued(first[id]) else first[id]
    ensures forall id :: id in Backlog(first, t0) ==> id in first && id in end && end[id] == Requeued(first[id])
  {
    forall id | id in Backlog(first, t0) ensures id in first && id in end && end[id] == Requeued(first[id]) {
      assert id in order[..|Backlog(first, t0)|];
    }
  }
}

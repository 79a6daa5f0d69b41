/** A scan and its sweep are uninterrupted calls of one reaper in the call-level machine. */
module AtomicReaper {
  import opened Prelude
  import opened Jobs
  import opened Store
  import opened Broker
  import opened Protocol
  import opened Reaping
  import Atomic
  import NoLoss
  import Routing

  /** The calls of one reaper. */
  predicate By(es: seq<Event>, i: nat) {
    forall k :: 0 <= k < |es| ==> (es[k].Scan? && es[k].i == i) || (es[k].ReaperCall? && es[k].i == i)
  }

  /** Half way through a sweep that started with `rows` and `parts`. */
  ghost predicate Sweeping(cfg: Config, rows: Table, parts: seq<Part>, s: Sys, i: nat, batch: seq<JobId>, k: nat,
    trace: seq<Header>) {
    i < |s.reapers| && k <= |batch| && s.reapers[i] == Reaper(batch[k..], None) && Wired(cfg.route, s.parts) &&
    s.rows == RequeueAll(rows, batch[..k]) && s.parts == RepublishAll(cfg.route, rows, parts, batch[..k], trace)
  }

  lemma RequeueCall(cfg: Config, s: Sys, i: nat, batch: seq<JobId>, k: nat) returns (e: Event, t: Sys)
    requires i < |s.reapers| && k < |batch| && s.reapers[i] == Reaper(batch[k..], None) && batch[k] in s.rows
    ensures e == ReaperCall(i, Atomic.PLAIN) && Next(cfg, s, e) == Some(t)
    ensures t.rows == RequeueOne(s.rows, batch[k]) && t.parts == s.parts && i < |t.reapers|
    ensures var r := Requeued(s.rows[batch[k]]);
            t.reapers[i] == Reaper(batch[k + 1..], if r.attempts > r.maxAttempts then None else Some((batch[k], r)))
  {
    e := ReaperCall(i, Atomic.PLAIN);
    assert batch[k..][0] == batch[k] && batch[k..][1..] == batch[k + 1..];
    t := Next(cfg, s, e).value;
  }

  lemma PublishCall(cfg: Config, s: Sys, i: nat, rest: seq<JobId>, id: JobId, trace: seq<Header>)
    returns (e: Event, t: Sys)
    requires i < |s.reapers| && id in s.rows && s.reapers[i] == Reaper(rest, Some((id, s.rows[id])))
    requires Wired(cfg.route, s.parts)
    requires s.rows[id].attempts <= s.rows[id].maxAttempts
    ensures e.ReaperCall? && e.i == i && Next(cfg, s, e) == Some(t)
    ensures t.rows == s.rows && t.parts == Republish(cfg.route, s.rows, s.parts, id, trace) && i < |t.reapers|
    ensures t.reapers[i] == Reaper(rest, None)
  {
    assert Routed(cfg.route, s.parts, Main(s.rows[id].tier), s.rows[id].device);
    e := ReaperCall(i, Atomic.PLAIN.(headers := trace));
    t := Next(cfg, s, e).value;
  }

  /** Requeue one row and publish it if its budget allows. */
  lemma RowCalls(cfg: Config, rows: Table, parts: seq<Part>, s: Sys, i: nat, batch: seq<JobId>, k: nat,
    trace: seq<Header>)
    returns (es: seq<Event>, t: Sys)
    requires Sweeping(cfg, rows, parts, s, i, batch, k, trace) && k < |batch| && batch[k] in s.rows
    ensures By(es, i) && Run(cfg, s, es, t) && Sweeping(cfg, rows, parts, t, i, batch, k + 1, trace)
    ensures t.rows.Keys == s.rows.Keys
  {
    var e, m := RequeueCall(cfg, s, i, batch, k);
    var id := batch[k];
    assert batch[..k + 1][..k] == batch[..k] && batch[..k + 1][k] == id;
    assert m.rows == RequeueAll(rows, batch[..k + 1]);
    assert Run(cfg, m, [], m);
    if m.rows[id].attempts > m.rows[id].maxAttempts {
      es, t := [e], m;
    } else {
      var f, n := PublishCall(cfg, m, i, batch[k + 1..], id, trace);
      assert Run(cfg, n, [], n);
      assert [f][1..] == [] && Run(cfg, m, [f], n);
      es, t := [e, f], n;
      assert es[1..] == [f];
      StillWired(cfg.route, m.rows, m.parts, id, trace);
    }
  }

  lemma StillWired(route: Route, rows: Table, parts: seq<Part>, id: JobId, trace: seq<Header>)
    requires Wired(route, parts)
    ensures Wired(route, Republish(route, rows, parts, id, trace))
  {
    forall t, key ensures Routed(route, Republish(route, rows, parts, id, trace), t, key) {
      assert Routed(route, parts, t, key);
    }
  }

  lemma {:induction false} RestCalls(cfg: Config, rows: Table, parts: seq<Part>, s: Sys, i: nat, batch: seq<JobId>,
    k: nat, trace: seq<Header>)
    returns (es: seq<Event>, t: Sys)
    requires Sweeping(cfg, rows, parts, s, i, batch, k, trace) && forall x :: x in batch ==> x in s.rows
    ensures By(es, i) && Run(cfg, s, es, t) && Sweeping(cfg, rows, parts, t, i, batch, |batch|, trace)
    decreases |batch| - k
  {
    if k == |batch| {
      es, t := [], s;
    } else {
      var ds, m := RowCalls(cfg, rows, parts, s, i, batch, k, trace);
      var fs;
      fs, t := RestCalls(cfg, rows, parts, m, i, batch, k + 1, trace);
      Atomic.RunsJoin(cfg, s, ds, m, fs, t);
      es := ds + fs;
    }
  }

  /**
   What ScanOnce does to the table and the logs, a reaper of the call-level machine can do by its own calls alone;
   so the bounds on reaper publishes hold of the sweeps too.
   */
  lemma SweepIsCalls(cfg: Config, s: Sys, i: nat, batch: seq<JobId>, trace: seq<Header>)
    returns (es: seq<Event>, t: Sys)
    requires i < |s.reapers| && s.reapers[i] == Reaper([], None) && Wired(cfg.route, s.parts)
    requires IsBatch(s.rows, s.now, MAX_BATCH, batch)
    ensures By(es, i) && Run(cfg, s, es, t)
    ensures t.rows == RequeueAll(s.rows, batch) && t.parts == RepublishAll(cfg.route, s.rows, s.parts, batch, trace)
  {
    forall k | 0 <= k < |batch| ensures batch[k] in s.rows && Stale(s.rows[batch[k]], s.now) {
      assert StaleIn(s.rows, s.now, batch[k]);
    }
    var e := Scan(i, batch);
    var m := Next(cfg, s, e).value;
    assert batch[0..] == batch && batch[..0] == [] && batch[..|batch|] == batch;
    var fs;
    fs, t := RestCalls(cfg, s.rows, s.parts, m, i, batch, 0, trace);
    es := [e] + fs;
    assert es[1..] == fs;
  }

  // ----- failing calls -----

  /** Calls a reaper still has to make for its batch, at most. */
  function CallsLeft(a: Reaper): nat {
    2 * |a.batch| + (if a.pending.Some? then 1 else 0)
  }

  /**
   Whatever fails, a sweep goes on and ends: every call of a reaper, failed or not, leaves it fewer calls to make and
   only rows it had still to see, and a reaper whose call fails has nothing left to publish.
   */
  lemma SweepsGoOn(cfg: Config, s: Sys, e: Event)
    requires (e.ReaperCall? || e.ReaperError?) && Next(cfg, s, e).Some?
    ensures var a, b := s.reapers[e.i], Next(cfg, s, e).value.reapers[e.i];
            CallsLeft(b) < CallsLeft(a) && (b.batch == a.batch || (a.batch != [] && b.batch == a.batch[1..])) &&
            (e.ReaperError? ==> b.pending.None?)
  {
  }

  // ----- rows past their budget -----

  lemma {:induction false} ReapingIsMindful(cfg: Config, s: Sys, es: seq<Event>, i: nat)
    requires By(es, i)
    ensures NoLoss.Mindful(cfg, s, es)
    decreases |es|
  {
    if es != [] && Next(cfg, s, es[0]).Some? {
      ReapingIsMindful(cfg, Next(cfg, s, es[0]).value, es[1..], i);
    }
  }

  /**
   A stale row whose attempts have reached its budget: a sweep puts it back to QUEUED, charges it beyond the budget, and
   publishes nothing for it. What remains is what was there before: a message still to be dealt with, a dead letter
   or a recorded success.
   */
  lemma ExhaustedRowStaysQueued(cfg: Config, s: Sys, es: seq<Event>, t: Sys, i: nat, batch: seq<JobId>,
    trace: seq<Header>, j: JobId)
    returns (fs: seq<Event>, v: Sys)
    requires Init(s) && NoLoss.Mindful(cfg, s, es) && Run(cfg, s, es, t)
    requires i < |t.reapers| && t.reapers[i] == Reaper([], None) && Wired(cfg.route, t.parts)
    requires IsBatch(t.rows, t.now, MAX_BATCH, batch) && j in batch && j in t.rows
    requires t.rows[j].attempts >= t.rows[j].maxAttempts
    ensures By(fs, i) && Run(cfg, t, fs, v) && v.rows == RequeueAll(t.rows, batch)
    ensures j in v.rows && v.rows[j].state == State.Queued && v.rows[j].attempts == t.rows[j].attempts + 1
    ensures Count(v.parts, OnMain(For(j))) == Count(t.parts, OnMain(For(j)))
    ensures Count(v.parts, OnRetry(For(j))) == Count(t.parts, OnRetry(For(j)))
    ensures Count(v.parts, OnDlq(For(j))) == Count(t.parts, OnDlq(For(j)))
    ensures NoLoss.IsPublished(t, j) ==> NoLoss.Safe(v, j)
  {
    var done := NoLoss.InvRun(cfg, s, {}, es, t);
    Routing.InvRun(cfg, s, es, t);
    fs, v := SweepIsCalls(cfg, t, i, batch, trace);
    SweepOfExhausted(cfg.route, t.rows, t.parts, t.now, batch, trace, j) by {
      forall p | 0 <= p < |t.parts| ensures t.parts[p].pos <= |t.parts[p].log| {
        assert NoLoss.Reading(t, done, p);
      }
    }
    ReapingIsMindful(cfg, t, fs, i);
    var more := NoLoss.InvRun(cfg, t, done, fs, v);
    Routing.InvRun(cfg, t, fs, v);
    if NoLoss.IsPublished(t, j) {
      SubmitsKept(cfg, t, fs, v, i, j);
      NoLoss.InvIsSafe(cfg, v, more, j);
    }
  }

  lemma SweepOfExhausted(route: Route, rows: Table, parts: seq<Part>, now: int, batch: seq<JobId>, trace: seq<Header>,
    j: JobId)
    requires IsBatch(rows, now, MAX_BATCH, batch) && Positioned(parts) && Wired(route, parts)
    requires j in batch && j in rows && rows[j].attempts >= rows[j].maxAttempts
    ensures var after := RepublishAll(route, rows, parts, batch, trace);
            Count(after, OnMain(For(j))) == Count(parts, OnMain(For(j))) &&
            Count(after, OnRetry(For(j))) == Count(parts, OnRetry(For(j))) &&
            Count(after, OnDlq(For(j))) == Count(parts, OnDlq(For(j)))
    ensures j in RequeueAll(rows, batch) && RequeueAll(rows, batch)[j] == Requeued(rows[j])
  {
    forall k | 0 <= k < |batch| ensures batch[k] in rows {
      assert StaleIn(rows, now, batch[k]);
    }
    SweepPublishesOnce(route, rows, parts, batch, trace, j);
    SweptRows(rows, batch);
  }

  lemma {:induction false} SubmitsKept(cfg: Config, s: Sys, es: seq<Event>, t: Sys, i: nat, j: JobId)
    requires By(es, i) && Run(cfg, s, es, t) && NoLoss.IsPublished(s, j)
    ensures NoLoss.IsPublished(t, j)
    decreases |es|
  {
    if es != [] {
      SubmitsKept(cfg, Next(cfg, s, es[0]).value, es[1..], t, i, j);
    }
  }
}

/**
 A skipped retry that is lost, and with it the exact list of losing failures. Two jobs whose retries share a
 partition are enough, and every deployment has two.
 */
module Losses {
  import opened Prelude
  import opened Jobs
  import opened Store
  import opened Broker
  import opened Protocol
  import opened Atomic
  import opened Tightness
  import opened NoLoss
  import opened Failures
  import Serial
  import Firmware
  import Text
  import Reaping

  /** The key of a second request. */
  const OTHER: string := "other-key"

  // ----- two jobs with one retry partition -----

  lemma {:induction false} Image(f: nat -> nat, n: nat)
    requires forall a: nat, b: nat :: a < b < n ==> f(a) != f(b)
    ensures |set k | 0 <= k < n :: f(k)| == n
  {
    if n > 0 {
      Image(f, n - 1);
      assert (set k | 0 <= k < n :: f(k)) == (set k | 0 <= k < n - 1 :: f(k)) + {f(n - 1)};
    }
  }

  function Below(n: nat): (s: set<nat>)
    ensures |s| == n && forall k: nat :: k in s <==> k < n
  {
    if n == 0 then {} else Below(n - 1) + {n - 1}
  }

  lemma Pigeonhole(f: nat -> nat, n: nat) returns (a: nat, b: nat)
    requires forall k: nat :: k <= n ==> f(k) < n
    ensures a < b && f(a) == f(b)
  {
    if forall a: nat, b: nat :: a < b < n + 1 ==> f(a) != f(b) {
      Image(f, n + 1);
      Reaping.Subset(set k | 0 <= k < n + 1 :: f(k), Below(n));
    }
    a, b :| a < b < n + 1 && f(a) == f(b);
  }

  /** The partition of the retries of job number `n`. */
  function RetryPartition(u: Serial.Setup, tier: Tier): nat -> nat {
    (n: nat) => u.route(RetryOf(tier), Text.Digits(n))
  }

  lemma TwoJobsOnePartition(u: Serial.Setup, parts: seq<Part>, tier: Tier) returns (y: JobId, z: JobId)
    requires Wired(u.route, parts)
    ensures y != z && u.route(RetryOf(tier), y) == u.route(RetryOf(tier), z)
  {
    forall k: nat ensures RetryPartition(u, tier)(k) < |parts| {
      assert Routed(u.route, parts, RetryOf(tier), Text.Digits(k));
    }
    var a, b := Pigeonhole(RetryPartition(u, tier), |parts|);
    y, z := Text.Digits(a), Text.Digits(b);
    if y == z { Text.DigitsInjective(a, b); }
  }

  // ----- where the first job's messages are -----

  ghost predicate NewAreOf(a: seq<Part>, b: seq<Part>, id: JobId) {
    LogsGrow(a, b) && forall p: nat, i: nat :: InRange(b, p, i) && !InRange(a, p, i) ==> b[p].log[i].id == id
  }

  /** Every message of `y` is committed, but for the first of retry partition `q`. */
  ghost predicate AllButRetry(parts: seq<Part>, y: JobId, q: nat) {
    forall p: nat, i: nat :: InRange(parts, p, i) && parts[p].log[i].id == y ==>
      !parts[p].topic.Dlq? && (i < parts[p].committed || (p == q && i == 0))
  }

  predicate CommitsKept(a: seq<Part>, b: seq<Part>) {
    |a| == |b| && forall p :: 0 <= p < |a| ==> a[p].committed <= b[p].committed
  }

  lemma AllButRetryStays(a: seq<Part>, b: seq<Part>, y: JobId, q: nat, z: JobId)
    requires AllButRetry(a, y, q) && NewAreOf(a, b, z) && y != z && CommitsKept(a, b)
    ensures AllButRetry(b, y, q)
  {
    forall p: nat, i: nat | InRange(b, p, i) && b[p].log[i].id == y
      ensures !b[p].topic.Dlq? && (i < b[p].committed || (p == q && i == 0))
    {
      assert InRange(a, p, i) && a[p].log[i] == b[p].log[i];
    }
  }

  // ----- turns of one job -----

  /** A failing turn on partition `p`: its message read and committed, one retry more, and nothing else. */
  predicate FailedTurn(u: Serial.Setup, x: Subject, a: Serial.Plant, p: nat, b: Serial.Plant) {
    p < |a.parts| && |b.parts| == |a.parts| && Waiting(u, x) < |a.parts| && p != Waiting(u, x) &&
    var q := Waiting(u, x);
    b.parts[p] == a.parts[p].(pos := a.parts[p].pos + 1, committed := a.parts[p].pos + 1) &&
    b.parts[q] == a.parts[q].(log := b.parts[q].log) && a.parts[q].log < b.parts[q].log &&
    |b.parts[q].log| == |a.parts[q].log| + 1 && RetryOfSubject(x, b.parts[q].log[|a.parts[q].log|]) &&
    (forall r :: 0 <= r < |a.parts| && r != p && r != q ==> b.parts[r] == a.parts[r]) &&
    b.rows.Keys == a.rows.Keys && b.devices == a.devices && b.now == a.now && RowAt(x, b.rows, 1) &&
    forall id :: id in a.rows ==> SameJob(a.rows[id], b.rows[id])
  }

  lemma FailedTurnParts(u: Serial.Setup, x: Subject, pl: Serial.Plant, p: nat)
    requires Laid(u, x, pl) && RowAt(x, pl.rows, 0) && Serial.Readable(pl, p) && pl.parts[p].topic == Main(x.tier)
    requires OfSubject(x, Serial.Head(pl, p))
    ensures FailedTurn(u, x, pl, p, Serial.Work(u, pl, p, BAD))
  {
    RegistryIsTotalOnValid(x.typ);
    var f := Serial.Fetched(pl, p);
    StillWired(u, pl.parts, f.parts);
    ProcessShape(u, x, f, 0, Serial.Head(pl, p));
    BadProcess(u, f, x.tier, Serial.Head(pl, p));
  }

  /** A failed run changes no device and no clock, and of the rows only their columns. */
  lemma BadProcess(u: Serial.Setup, pl: Serial.Plant, tier: Tier, m: Message)
    requires m.id in pl.rows && HasHandler(m.typ) && m.tier == tier
    ensures var b := Serial.ProcessOne(u, pl, tier, m, BAD).0;
            b.devices == pl.devices && b.now == pl.now && b.rows.Keys == pl.rows.Keys &&
            forall id :: id in pl.rows ==> SameJob(pl.rows[id], b.rows[id])
  {
    var running := Serial.SetState(pl, m.id, Running, None);
    BadHandler(u, running, m);
    var (h, err, entry) := Serial.Handle(u, running, m, BAD);
    assert h.devices == pl.devices && h.now == pl.now;
    var ran := h.(runs := h.runs + [Serial.Ran(m.id, false, entry)]);
    Firmware.FailIsQuiet(u, ran, tier, m, pl.rows[m.id], BAD, err.value);
    BadFail(u, ran, tier, m, pl.rows[m.id], err.value);
  }

  lemma BadFail(u: Serial.Setup, pl: Serial.Plant, tier: Tier, m: Message, job: Row, err: string)
    ensures var b := Serial.Fail(u, pl, tier, m, job, BAD, err);
            b.devices == pl.devices && b.now == pl.now && b.rows.Keys == pl.rows.Keys
  {
  }

  // ----- the run -----

  /** Submitted and failed once, with one message more on each of its two partitions. */
  predicate FailedOnce(u: Serial.Setup, x: Subject, key: string, a: Serial.Plant, b: Serial.Plant) {
    var p := First(u, x);
    var q := Waiting(u, x);
    p < |a.parts| && q < |a.parts| && p != q && |b.parts| == |a.parts| && ReadUp(a.parts[p]) &&
    b.parts[p] == a.parts[p].(log := b.parts[p].log, pos := a.parts[p].pos + 1, committed := a.parts[p].pos + 1) &&
    a.parts[p].log < b.parts[p].log && |b.parts[p].log| == |a.parts[p].log| + 1 &&
    b.parts[p].log[|a.parts[p].log|].id == x.id &&
    b.parts[q] == a.parts[q].(log := b.parts[q].log) && a.parts[q].log < b.parts[q].log &&
    |b.parts[q].log| == |a.parts[q].log| + 1 && b.parts[q].log[|a.parts[q].log|].id == x.id &&
    (forall r :: 0 <= r < |a.parts| && r != p && r != q ==> b.parts[r] == a.parts[r]) &&
    b.rows.Keys == a.rows.Keys + {x.id} && b.rows[x.id].key == key && b.devices.Keys == a.devices.Keys &&
    forall id :: id in a.rows && id != x.id ==> b.rows[id].key == a.rows[id].key
  }

  lemma SubmitPart(u: Serial.Setup, x: Subject, key: string, pl: Serial.Plant)
    requires Laid(u, x, pl) && Routed(u.route, pl.parts, Main(x.tier), x.device)
    requires CanInsert(pl.rows, pl.devices.Keys, Request(x.typ, x.device, key, ""), x.id)
    ensures var b := Serial.Submit(u, pl, Request(x.typ, x.device, key, ""), x.id, []).0;
            var p := First(u, x);
            |b.parts| == |pl.parts| && b.parts == pl.parts[p := pl.parts[p].(log := b.parts[p].log)] &&
            pl.parts[p].log < b.parts[p].log && |b.parts[p].log| == |pl.parts[p].log| + 1 &&
            OfSubject(x, b.parts[p].log[|pl.parts[p].log|]) && RowAt(x, b.rows, 0) && b.rows[x.id].key == key &&
            b.rows.Keys == pl.rows.Keys + {x.id} && b.devices == pl.devices &&
            forall id :: id in pl.rows ==> b.rows[id] == pl.rows[id]
  {
  }

  /** After the submission the job's message is the next one on its partition. */
  lemma SubmitReady(u: Serial.Setup, x: Subject, key: string, pl: Serial.Plant)
    requires Wired(u.route, pl.parts) && TierFor(x.typ) == Some(x.tier)
    requires CanInsert(pl.rows, pl.devices.Keys, Request(x.typ, x.device, key, ""), x.id)
    requires First(u, x) < |pl.parts| && ReadUp(pl.parts[First(u, x)])
    ensures var p := First(u, x);
            var mid := Serial.Submit(u, pl, Request(x.typ, x.device, key, ""), x.id, []).0;
            Wired(u.route, mid.parts) && SameAssignments(pl.parts, mid.parts) && Serial.Readable(mid, p) &&
            mid.parts[p].topic == Main(x.tier) && OfSubject(x, Serial.Head(mid, p)) && x.id in mid.rows &&
            Laid(u, x, pl) && Laid(u, x, mid)
  {
    assert Routed(u.route, pl.parts, Main(x.tier), x.device) && Routed(u.route, pl.parts, Main(x.tier), x.id);
    assert Routed(u.route, pl.parts, RetryOf(x.tier), x.id) && Routed(u.route, pl.parts, Dlq, x.id);
    SubmitPart(u, x, key, pl);
    StillWired(u, pl.parts, Serial.Submit(u, pl, Request(x.typ, x.device, key, ""), x.id, []).0.parts);
  }

  /** Submit, then fail: the two steps together, as the serialised functions say. */
  lemma FailedOnceParts(u: Serial.Setup, x: Subject, key: string, pl: Serial.Plant)
    requires Wired(u.route, pl.parts) && TierFor(x.typ) == Some(x.tier)
    requires CanInsert(pl.rows, pl.devices.Keys, Request(x.typ, x.device, key, ""), x.id)
    requires First(u, x) < |pl.parts| && ReadUp(pl.parts[First(u, x)])
    ensures var mid := Serial.Submit(u, pl, Request(x.typ, x.device, key, ""), x.id, []).0;
            Serial.Readable(mid, First(u, x)) && mid.parts[First(u, x)].topic.Main? &&
            FailedOnce(u, x, key, pl, Serial.Work(u, mid, First(u, x), BAD))
  {
    SubmitReady(u, x, key, pl);
    assert Routed(u.route, pl.parts, Main(x.tier), x.device);
    SubmitPart(u, x, key, pl);
    FailedTurnParts(u, x, Serial.Submit(u, pl, Request(x.typ, x.device, key, ""), x.id, []).0, First(u, x));
  }

  lemma SubmitAndFail(cfg: Config, u: Serial.Setup, x: Subject, key: string, s: Sys, pl: Serial.Plant)
    returns (t: Sys, after: Serial.Plant)
    requires Shows(cfg, u, s, pl) && Staffed(cfg, s) && Wired(u.route, pl.parts) && TierFor(x.typ) == Some(x.tier)
    requires ValidKey(key) && !ClaimLive(s, key)
    requires CanInsert(pl.rows, pl.devices.Keys, Request(x.typ, x.device, key, ""), x.id)
    requires First(u, x) < |pl.parts| && ReadUp(pl.parts[First(u, x)])
    ensures Reaches(cfg, s, t) && Shows(cfg, u, t, after) && Staffed(cfg, t) && Wired(u.route, after.parts)
    ensures FailedOnce(u, x, key, pl, after) && t.claims.Keys == s.claims.Keys + {key}
    ensures t.subm.subPubs[x.id] > 0 && (forall j :: s.subm.subPubs[j] <= t.subm.subPubs[j])
    ensures t.work.successes == s.work.successes
  {
    SubmitReady(u, x, key, pl);
    var a, mid := SubmitIt(cfg, u, x, key, s, pl);
    t, after := FailIt(cfg, u, x, a, mid, First(u, x));
    Join(cfg, s, a, t);
    FailedOnceParts(u, x, key, pl);
  }

  lemma SubmitIt(cfg: Config, u: Serial.Setup, x: Subject, key: string, s: Sys, pl: Serial.Plant)
    returns (t: Sys, after: Serial.Plant)
    requires Shows(cfg, u, s, pl) && Staffed(cfg, s) && Wired(u.route, pl.parts) && TierFor(x.typ) == Some(x.tier)
    requires ValidKey(key) && !ClaimLive(s, key)
    requires CanInsert(pl.rows, pl.devices.Keys, Request(x.typ, x.device, key, ""), x.id)
    requires SameAssignments(pl.parts, Serial.Submit(u, pl, Request(x.typ, x.device, key, ""), x.id, []).0.parts)
    ensures Reaches(cfg, s, t) && Shows(cfg, u, t, after) && Staffed(cfg, t) && t.work == s.work
    ensures after == Serial.Submit(u, pl, Request(x.typ, x.device, key, ""), x.id, []).0
    ensures t.claims.Keys == s.claims.Keys + {key} && t.subm.subPubs == s.subm.subPubs + multiset{x.id}
    ensures t.subm.published == s.subm.published + [HandlerRun(x.id, First(u, x), x.tier, x.device)]
    ensures t.reapers == s.reapers
  {
    t := ApiSubmitIsCalls(cfg, u, s, pl, Request(x.typ, x.device, key, ""), x.id, []);
    after := Serial.Submit(u, pl, Request(x.typ, x.device, key, ""), x.id, []).0;
    StillStaffed(cfg, s, t);
  }

  lemma FailIt(cfg: Config, u: Serial.Setup, x: Subject, s: Sys, pl: Serial.Plant, p: nat)
    returns (t: Sys, after: Serial.Plant)
    requires Shows(cfg, u, s, pl) && Staffed(cfg, s) && Wired(u.route, pl.parts) && TierFor(x.typ) == Some(x.tier)
    requires Serial.Readable(pl, p) && pl.parts[p].topic == Main(x.tier) && OfSubject(x, Serial.Head(pl, p))
    requires x.id in pl.rows
    ensures Reaches(cfg, s, t) && Shows(cfg, u, t, after) && Staffed(cfg, t) && Wired(u.route, after.parts)
    ensures after == Serial.Work(u, pl, p, BAD) && t.claims == s.claims && t.subm == s.subm
    ensures t.work.successes == s.work.successes
    ensures t.work.failures == s.work.failures + multiset{x.id} && t.work.runs == s.work.runs + multiset{x.id}
  {
    assert Assigned(cfg, s.parts[p]);
    RegistryIsTotalOnValid(x.typ);
    t := WorkIsCalls(cfg, u, s, pl, pl.parts[p].owner, p, BAD);
    after := Serial.Work(u, pl, p, BAD);
    WorkStays(u, pl, p, BAD);
    StillStaffed(cfg, s, t);
    StillWired(u, pl.parts, after.parts);
  }

  const SKIP: Failure := RouterFails(false, false)

  /** A router reads the next retry and fails to republish it. */
  lemma Skip(cfg: Config, u: Serial.Setup, s: Sys, pl: Serial.Plant, q: nat) returns (t: Sys)
    requires Shows(cfg, u, s, pl) && Staffed(cfg, s) && Serial.Readable(pl, q) && pl.parts[q].topic.RetryOf?
    ensures Leads(cfg, s, t, SKIP) && Shows(cfg, u, t, Serial.Fetched(pl, q)) && Staffed(cfg, t)
    ensures t.claims == s.claims && t.subm == s.subm && t.work == s.work
  {
    assert Assigned(cfg, s.parts[q]);
    var r := s.parts[q].owner;
    One(cfg, s, Pick(r, q));
    var a := Next(cfg, s, Pick(r, q)).value;
    PlainLeads(cfg, s, a, SKIP);
    FailureLeads(cfg, a, RouterError(r, PLAIN, false), SKIP);
    t := Next(cfg, a, RouterError(r, PLAIN, false)).value;
    LeadsOn(cfg, s, a, t, SKIP);
    StillStaffed(cfg, s, t);
  }

  // ----- where the first job is left -----

  /** The one job there has been: failed once, its retry skipped. */
  ghost predicate Skipped(u: Serial.Setup, x: Subject, pl: Serial.Plant) {
    var p := First(u, x);
    var q := Waiting(u, x);
    p < |pl.parts| && q < |pl.parts| && p != q && ReadUp(pl.parts[p]) && ReadUp(pl.parts[q]) &&
    |pl.parts[q].log| == 1 &&
    pl.parts[q].topic.RetryOf? && pl.parts[p].committed <= pl.parts[p].pos &&
    pl.parts[q].committed <= pl.parts[q].pos &&
    AllButRetry(pl.parts, x.id, q) && pl.rows.Keys == {x.id} && pl.rows[x.id].key == KEY
  }

  lemma SkippedShape(u: Serial.Setup, x: Subject, a: Serial.Plant, b: Serial.Plant)
    requires Serial.Fresh(a) && FailedOnce(u, x, KEY, a, b) && Wired(u.route, a.parts)
    requires forall p :: 0 <= p < |a.parts| ==> a.parts[p].committed == 0
    ensures Serial.Readable(b, Waiting(u, x)) && b.parts[Waiting(u, x)].topic == RetryOf(x.tier)
    ensures Skipped(u, x, Serial.Fetched(b, Waiting(u, x)))
  {
    assert Routed(u.route, a.parts, Main(x.tier), x.device) && Routed(u.route, a.parts, RetryOf(x.tier), x.id);
  }

  /** Another job with the same retry partition, failed behind it and forwarded. */
  lemma OvertakenShape(u: Serial.Setup, x: Subject, z: Subject, a: Serial.Plant, b: Serial.Plant)
    requires Skipped(u, x, a) && FailedOnce(u, z, OTHER, a, b) && Wired(u.route, b.parts) && z == x.(id := z.id)
    requires z.id != x.id
    requires Waiting(u, z) == Waiting(u, x)
    ensures var q := Waiting(u, x);
            Serial.Readable(b, q) && b.parts[q].topic == RetryOf(x.tier) && AllButRetry(b.parts, x.id, q) &&
            Serial.Head(b, q).id == z.id && b.parts[q].pos == 1 && b.parts[q].committed <= 1
  {
    var q := Waiting(u, x);
    assert Routed(u.route, b.parts, RetryOf(x.tier), x.id);
    assert NewAreOf(a.parts, b.parts, z.id);
    AllButRetryStays(a.parts, b.parts, x.id, q, z.id);
  }

  lemma ForwardTakesAlong(u: Serial.Setup, x: Subject, pl: Serial.Plant, q: nat)
    requires Wired(u.route, pl.parts) && Serial.Readable(pl, q) && pl.parts[q].topic.RetryOf? && pl.parts[q].pos == 1
    requires pl.parts[q].committed <= 1
    requires AllButRetry(pl.parts, x.id, q) && Serial.Head(pl, q).id != x.id
    ensures var b := Serial.Forward(u, pl, q, []).parts;
            forall p: nat, i: nat :: InRange(b, p, i) && b[p].log[i].id == x.id ==>
              !b[p].topic.Dlq? && i < b[p].committed
  {
    var m := Serial.Head(pl, q);
    var b := Serial.Forward(u, pl, q, []).parts;
    assert Routed(u.route, Serial.Fetched(pl, q).parts, Main(pl.parts[q].topic.tier), m.key) by {
      assert Routed(u.route, pl.parts, Main(pl.parts[q].topic.tier), m.key);
    }
    forall p: nat, i: nat | InRange(b, p, i) && b[p].log[i].id == x.id ensures !b[p].topic.Dlq? && i < b[p].committed {
      assert InRange(pl.parts, p, i) && pl.parts[p].log[i] == b[p].log[i];
    }
  }

  /** In every deployment a single failed republish can lose a job. */
  lemma RouterForgets(cfg: Config, u: Serial.Setup, x0: Subject, s: Sys) returns (t: Sys, y: JobId)
    requires Deployment(cfg, u, x0, s)
    ensures Leads(cfg, s, t, SKIP) && Lost(t, y)
  {
    var z;
    y, z := TwoJobsOnePartition(u, s.parts, x0.tier);
    var x, w := x0.(id := y), x0.(id := z);
    var b, pl := SkipFirst(cfg, u, x, s);
    t := OvertakeIt(cfg, u, x, w, b, pl);
    LeadsOn(cfg, s, b, t, SKIP);
  }

  lemma SkipFirst(cfg: Config, u: Serial.Setup, x: Subject, s: Sys) returns (t: Sys, pl: Serial.Plant)
    requires Deployment(cfg, u, x, s)
    ensures Leads(cfg, s, t, SKIP) && Shows(cfg, u, t, pl) && Staffed(cfg, t) && Wired(u.route, pl.parts)
    ensures Skipped(u, x, pl)
    ensures t.claims.Keys == {KEY} && t.subm.subPubs[x.id] > 0 && t.work.successes[x.id] == 0 && x.device in pl.devices
  {
    var start := PlantOf(s);
    var q := Waiting(u, x);
    assert Routed(u.route, s.parts, Main(x.tier), x.device);
    assert CanInsert(start.rows, start.devices.Keys, Request(x.typ, x.device, KEY, ""), x.id);
    var a, failed := SubmitAndFail(cfg, u, x, KEY, s, start);
    SkippedShape(u, x, start, failed);
    t := Skip(cfg, u, a, failed, q);
    pl := Serial.Fetched(failed, q);
    PlainLeads(cfg, s, a, SKIP);
    LeadsOn(cfg, s, a, t, SKIP);
    StillWired(u, failed.parts, pl.parts);
  }

  lemma OvertakeIt(cfg: Config, u: Serial.Setup, x: Subject, z: Subject, s: Sys, pl: Serial.Plant) returns (t: Sys)
    requires Shows(cfg, u, s, pl) && Staffed(cfg, s) && Wired(u.route, pl.parts) && Skipped(u, x, pl)
    requires x.device in pl.devices
    requires z == x.(id := z.id) && z.id != x.id && Waiting(u, z) == Waiting(u, x) && TierFor(x.typ) == Some(x.tier)
    requires s.claims.Keys == {KEY} && s.subm.subPubs[x.id] > 0 && s.work.successes[x.id] == 0
    ensures Leads(cfg, s, t, SKIP) && Lost(t, x.id)
  {
    var q := Waiting(u, x);
    assert CanInsert(pl.rows, pl.devices.Keys, Request(z.typ, z.device, OTHER, ""), z.id);
    var a, failed := SubmitAndFail(cfg, u, z, OTHER, s, pl);
    OvertakenShape(u, x, z, pl, failed);
    assert Assigned(cfg, a.parts[q]);
    t := ForwardIsCalls(cfg, u, a, failed, failed.parts[q].owner, q, []);
    ForwardTakesAlong(u, x, failed, q);
    Join(cfg, s, a, t);
    PlainLeads(cfg, s, t, SKIP);
  }

  // ----- the exact list -----

  /**
   A kind of failure can lose a published job if and only if it is one that NoLoss names: in every deployment, and with
   nothing else out of the ordinary in the run.
   */
  lemma FailureLosesIff(cfg: Config, u: Serial.Setup, x: Subject, s: Sys, f: Failure)
    requires Deployment(cfg, u, x, s)
    ensures (exists es, t, j :: Path(cfg, s, es, t, f) && Lost(t, j)) <==> Loses(f)
  {
    if Loses(f) {
      var t, j;
      if f.WorkerFails? {
        t := WorkerForgets(cfg, u, x, s, f);
        j := x.id;
      } else {
        t, j := RouterForgets(cfg, u, x, s);
      }
      var es :| Path(cfg, s, es, t, f);
    } else {
      forall es, t, j | Path(cfg, s, es, t, f) ensures !Lost(t, j) {
        HarmlessLosesNothing(cfg, s, es, t, f, j);
      }
    }
  }
}

/**
 Where per-device order ends. In every deployment, two requests of one device and tier have a run, without
 crashes, failed calls or reaps and with one failed handler call, in which the first job succeeds after the
 second: its retry waits while the worker goes on to the device's next message.
 */
module Overtaking {
  import opened Prelude
  import opened Jobs
  import opened Store
  import opened Broker
  import opened Protocol
  import opened Atomic
  import opened Tightness
  import opened Losses
  import opened Histories
  import Serial
  import Routing
  import DeviceOrder

  /** A second job of the first one's device and tier. */
  predicate Follows(y: Subject, z: Subject) {
    z.id != y.id && z.device == y.device && z.tier == y.tier && TierFor(z.typ) == Some(z.tier)
  }

  // ----- the plants along the run -----

  predicate Empty(q: Part) {
    q.log == [] && q.pos == 0
  }

  /** Both messages on the device's partition, unread, and nothing anywhere else. */
  ghost predicate Both(u: Serial.Setup, y: Subject, z: Subject, pl: Serial.Plant) {
    Laid(u, y, pl) && Routed(u.route, pl.parts, Main(y.tier), y.device) &&
    RowAt(y, pl.rows, 0) && RowAt(z, pl.rows, 0) &&
    var q := pl.parts[First(u, y)];
    q.pos == 0 && |q.log| == 2 && OfSubject(y, q.log[0]) && OfSubject(z, q.log[1]) &&
    forall r :: 0 <= r < |pl.parts| && r != First(u, y) ==> Empty(pl.parts[r])
  }

  /** The first job has failed: its retry waits, and the second job's message is the next of the device's partition. */
  ghost predicate Behind(u: Serial.Setup, y: Subject, z: Subject, pl: Serial.Plant) {
    Laid(u, y, pl) && Routed(u.route, pl.parts, Main(y.tier), y.device) &&
    RowAt(y, pl.rows, 1) && RowAt(z, pl.rows, 0) && LastUnread(y, pl.parts[Waiting(u, y)]) &&
    (Second(u, y) != First(u, y) ==> ReadUp(pl.parts[Second(u, y)])) && IsNext(z, pl.parts[First(u, y)])
  }

  /** The job's message is the only one of the partition still to be read. */
  predicate IsNext(z: Subject, q: Part) {
    q.pos + 1 == |q.log| && OfSubject(z, q.log[q.pos])
  }

  /** The first message on the device's partition, and nothing anywhere else. */
  ghost predicate Alone(u: Serial.Setup, y: Subject, pl: Serial.Plant) {
    Laid(u, y, pl) && Routed(u.route, pl.parts, Main(y.tier), y.device) && y.device in pl.devices &&
    RowAt(y, pl.rows, 0) && pl.rows.Keys == {y.id} && pl.rows[y.id].key == KEY &&
    var q := pl.parts[First(u, y)];
    q.pos == 0 && |q.log| == 1 && OfSubject(y, q.log[0]) &&
    forall r :: 0 <= r < |pl.parts| && r != First(u, y) ==> Empty(pl.parts[r])
  }

  lemma AloneShape(u: Serial.Setup, y: Subject, pl: Serial.Plant)
    requires Serial.Fresh(pl) && Wired(u.route, pl.parts) && TierFor(y.typ) == Some(y.tier) && y.device in pl.devices
    ensures var a := Serial.Submit(u, pl, Request(y.typ, y.device, KEY, ""), y.id, []).0;
            CanInsert(pl.rows, pl.devices.Keys, Request(y.typ, y.device, KEY, ""), y.id) && Alone(u, y, a) &&
            SameAssignments(pl.parts, a.parts)
  {
    assert Routed(u.route, pl.parts, Main(y.tier), y.device);
    SubmitReady(u, y, KEY, pl);
    SubmitPart(u, y, KEY, pl);
  }

  lemma BothShape(u: Serial.Setup, y: Subject, z: Subject, pl: Serial.Plant)
    requires Alone(u, y, pl) && Follows(y, z)
    ensures var b := Serial.Submit(u, pl, Request(z.typ, z.device, OTHER, ""), z.id, []).0;
            CanInsert(pl.rows, pl.devices.Keys, Request(z.typ, z.device, OTHER, ""), z.id) && Both(u, y, z, b) &&
            SameAssignments(pl.parts, b.parts)
  {
    var b := Serial.Submit(u, pl, Request(z.typ, z.device, OTHER, ""), z.id, []).0;
    assert Routed(u.route, pl.parts, Main(z.tier), z.device) && Routed(u.route, pl.parts, Main(z.tier), z.id);
    assert Routed(u.route, pl.parts, RetryOf(z.tier), z.id) && Routed(u.route, pl.parts, Dlq, z.id);
    SubmitPart(u, z, OTHER, pl);
    StillWired(u, pl.parts, b.parts);
  }

  /** The other job's row stays as it was. */
  lemma FailSparesOther(u: Serial.Setup, y: Subject, z: Subject, pl: Serial.Plant, p: nat)
    requires Serial.Readable(pl, p) && pl.parts[p].topic == Main(y.tier) && Follows(y, z) && HasHandler(y.typ)
    requires OfSubject(y, Serial.Head(pl, p)) && RowAt(y, pl.rows, 0) && RowAt(z, pl.rows, 0)
    ensures RowAt(z, Serial.Work(u, pl, p, BAD).rows, 0)
  {
    var running := Serial.SetState(Serial.Fetched(pl, p), y.id, Running, None);
    BadHandler(u, running, Serial.Head(pl, p));
  }

  lemma FailShape(u: Serial.Setup, y: Subject, z: Subject, pl: Serial.Plant)
    requires Both(u, y, z, pl) && Follows(y, z)
    ensures Serial.Readable(pl, First(u, y)) && pl.parts[First(u, y)].topic == Main(y.tier)
    ensures Behind(u, y, z, Serial.Work(u, pl, First(u, y), BAD))
  {
    var p := First(u, y);
    FailedTurnParts(u, y, pl, p);
    RegistryIsTotalOnValid(y.typ);
    FailSparesOther(u, y, z, pl, p);
    WorkStays(u, pl, p, BAD);
    Rewired(u, y, pl, Serial.Work(u, pl, p, BAD));
  }

  lemma PassShape(u: Serial.Setup, y: Subject, z: Subject, pl: Serial.Plant)
    requires Behind(u, y, z, pl) && Follows(y, z)
    ensures Serial.Readable(pl, First(u, y)) && ToForward(u, y, Succeeded(pl, First(u, y)), 1)
  {
    Rewired(u, y, pl, Succeeded(pl, First(u, y)));
  }

  // ----- the run -----

  /** The first request is in. */
  lemma SubmitFirst(cfg: Config, u: Serial.Setup, y: Subject, s: Sys) returns (t: Sys, pl: Serial.Plant)
    requires Deployment(cfg, u, y, s)
    ensures Reaches(cfg, s, t) && Shows(cfg, u, t, pl) && Staffed(cfg, t) && Alone(u, y, pl) && t.work == s.work
    ensures t.subm.published == [Submission(u, y)] && t.claims.Keys == {KEY} && t.reapers == s.reapers
  {
    var start := PlantOf(s);
    AloneShape(u, y, start);
    t, pl := SubmitIt(cfg, u, y, KEY, s, start);
  }

  /** Both requests are in. */
  lemma SubmitBoth(cfg: Config, u: Serial.Setup, y: Subject, z: Subject, s: Sys) returns (t: Sys, pl: Serial.Plant)
    requires Deployment(cfg, u, y, s) && Follows(y, z)
    ensures Reaches(cfg, s, t) && Shows(cfg, u, t, pl) && Staffed(cfg, t) && Both(u, y, z, pl) && t.work == s.work
    ensures t.subm.published == [Submission(u, y), Submission(u, z)]
  {
    var a, alone := SubmitFirst(cfg, u, y, s);
    BothShape(u, y, z, alone);
    t, pl := SubmitIt(cfg, u, z, OTHER, a, alone);
    Join(cfg, s, a, t);
  }

  /** The publish of the job's submission, as the history records it. */
  function Submission(u: Serial.Setup, x: Subject): HandlerRun {
    HandlerRun(x.id, First(u, x), x.tier, x.device)
  }

  /** The first job fails, and the worker goes on to the second, which succeeds. */
  lemma FailThenPass(cfg: Config, u: Serial.Setup, y: Subject, z: Subject, s: Sys, pl: Serial.Plant)
    returns (t: Sys, after: Serial.Plant)
    requires Shows(cfg, u, s, pl) && Staffed(cfg, s) && Both(u, y, z, pl) && Follows(y, z)
    ensures Reaches(cfg, s, t) && Shows(cfg, u, t, after) && Staffed(cfg, t) && ToForward(u, y, after, 1)
    ensures t.work.successes == s.work.successes + multiset{z.id} && t.subm == s.subm
    ensures t.work.failures == s.work.failures + multiset{y.id}
    ensures t.work.runs == s.work.runs + multiset{y.id} + multiset{z.id}
  {
    var p := First(u, y);
    FailShape(u, y, z, pl);
    var a, behind := FailIt(cfg, u, y, s, pl, p);
    PassShape(u, y, z, behind);
    t, after := PassTurn(cfg, u, z, a, behind, p);
    Join(cfg, s, a, t);
  }

  lemma PassTurn(cfg: Config, u: Serial.Setup, x: Subject, s: Sys, pl: Serial.Plant, p: nat)
    returns (t: Sys, after: Serial.Plant)
    requires Shows(cfg, u, s, pl) && Staffed(cfg, s) && TierFor(x.typ) == Some(x.tier) && x.id in pl.rows
    requires Serial.Readable(pl, p) && pl.parts[p].topic == Main(x.tier) && OfSubject(x, Serial.Head(pl, p))
    ensures Reaches(cfg, s, t) && Shows(cfg, u, t, after) && Staffed(cfg, t) && after == Succeeded(pl, p)
    ensures t.work.successes == s.work.successes + multiset{x.id} && t.subm == s.subm
    ensures t.work.failures == s.work.failures && t.work.runs == s.work.runs + multiset{x.id}
  {
    assert Assigned(cfg, s.parts[p]);
    RegistryIsTotalOnValid(x.typ);
    t, after := SucceedTurn(cfg, u, s, pl, pl.parts[p].owner, p);
    StillStaffed(cfg, s, t);
  }

  /** The retry comes back, and the job succeeds. */
  lemma ForwardThenPass(cfg: Config, u: Serial.Setup, y: Subject, s: Sys, pl: Serial.Plant) returns (t: Sys)
    requires Shows(cfg, u, s, pl) && Staffed(cfg, s) && ToForward(u, y, pl, 1)
    ensures Reaches(cfg, s, t) && t.subm == s.subm && t.work.failures == s.work.failures
    ensures t.work.successes == s.work.successes + multiset{y.id} && t.work.runs == s.work.runs + multiset{y.id}
    ensures y.id in t.rows && t.rows[y.id].typ == y.typ && t.rows[y.id].device == y.device
  {
    var q := Waiting(u, y);
    ForwardShape(u, y, pl, 1);
    ForwardStays(u, pl, q, []);
    assert Assigned(cfg, s.parts[q]);
    var a := ForwardIsCalls(cfg, u, s, pl, pl.parts[q].owner, q, []);
    var back := Serial.Forward(u, pl, q, []);
    StillStaffed(cfg, s, a);
    var after;
    t, after := PassTurn(cfg, u, y, a, back, Second(u, y));
    Join(cfg, s, a, t);
  }

  // ----- the theorem -----

  /** The device's runs and publishes as the histories of `t` have them are in one order. */
  ghost predicate Ordered(t: Sys, tier: Tier, d: string) {
    Keep(t.work.handled, OfDevice(tier, d)) <= Keep(t.subm.published, OfDevice(tier, d))
  }

  /**
   For any deployment and any two jobs of one device and tier: a plain run with a single failed handler call, of the job
   published first, in which the other job has succeeded at `m` while this one succeeds only by `t`. The order of
   publishes is lost.
   */
  lemma OneFailureOvertakes(cfg: Config, u: Serial.Setup, y: Subject, z: Subject, s: Sys) returns (m: Sys, t: Sys)
    requires Deployment(cfg, u, y, s) && Follows(y, z)
    ensures Reaches(cfg, s, m) && Reaches(cfg, m, t)
    ensures t.subm.published == [Submission(u, y), Submission(u, z)] && t.work.failures == multiset{y.id}
    ensures m.work.successes == multiset{z.id} && t.work.successes == multiset{z.id, y.id}
    ensures !Ordered(t, y.tier, y.device)
  {
    var a, both := SubmitBoth(cfg, u, y, z, s);
    var waiting;
    m, waiting := FailThenPass(cfg, u, y, z, a, both);
    Join(cfg, s, a, m);
    t := ForwardThenPass(cfg, u, y, m, waiting);
    Join(cfg, s, m, t);
    var es :| PlainRun(cfg, s, es, t);
    Disordered(cfg, s, es, t, y);
  }

  /** A job that has run twice has broken its device's order. */
  lemma Disordered(cfg: Config, s: Sys, es: seq<Event>, t: Sys, y: Subject)
    requires Init(s) && PlainRun(cfg, s, es, t) && y.id in t.rows && t.rows[y.id].typ == y.typ
    requires t.rows[y.id].device == y.device && TierFor(y.typ) == Some(y.tier) && t.work.runs[y.id] > 1
    ensures !Ordered(t, y.tier, y.device)
  {
    Routing.InvRun(cfg, s, es, t);
    DeviceOrder.HandledInPublishOrderIff(cfg, s, es, t, y.tier, y.device);
  }
}

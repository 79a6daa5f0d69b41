/**
 At-least-once: no published job is ever lost, wherever processes crash, partitions change hands and stale
 readers commit, and whichever calls fail, as long as none of a few kinds fails. The module Failures shows
 that each of those kinds does lose jobs.
 */
module NoLoss {
  import opened Prelude
  import opened Jobs
  import opened Store
  import opened Broker
  import opened Protocol
  import Routing
  import Frames

  // ----- failed calls -----

  /** What failed: whose call, at which point, and whether it took effect although it failed. */
  datatype Failure =
    | SubmissionFails(stage: Stage, applied: bool)
    | WorkerFails(phase: Phase, applied: bool)
    | RouterFails(sent: bool, applied: bool)
    | ReaperFails(applied: bool)

  function FailureOf(s: Sys, e: Event): Option<Failure> {
    match e
    case SubError(i, _, applied) => if i < |s.subs| then Some(SubmissionFails(s.subs[i].stage, applied)) else None
    case WorkerError(w, _, applied) =>
      if w < |s.workers| && s.workers[w].Some? then Some(WorkerFails(s.workers[w].value.phase, applied)) else None
    case RouterError(r, _, applied) =>
      if r < |s.routers| && s.routers[r].Some? then Some(RouterFails(s.routers[r].value.sent, applied)) else None
    case ReaperError(_, _, applied) => Some(ReaperFails(applied))
    case _ => None
  }

  /**
   The failures after which the loop goes on, and in the end commits, without having put its message anywhere:
   loading the row, marking it RUNNING, recording SUCCESS, publishing the retry, the dead letter or the republished
   retry. A write or a publish that took effect although its call failed does no harm.
   */
  predicate Loses(f: Failure) {
    match f
    case WorkerFails(ph, applied) => ph in {Fetched, Loaded} || (ph in {HandlerOk, HandlerErr} && !applied)
    case RouterFails(sent, applied) => !sent && !applied
    case _ => false
  }

  predicate Forgets(s: Sys, e: Event) {
    FailureOf(s, e).Some? && Loses(FailureOf(s, e).value)
  }

  /** No call of these kinds fails in the run; all other calls may. */
  predicate Mindful(cfg: Config, s: Sys, es: seq<Event>)
    decreases |es|
  {
    es != [] ==>
      !Forgets(s, es[0]) && (Next(cfg, s, es[0]).Some? ==> Mindful(cfg, Next(cfg, s, es[0]).value, es[1..]))
  }

  // ----- messages that still count -----

  /** Partition and offset of the messages that somebody has put somewhere else, or whose success is recorded. */
  type Settled = set<(nat, nat)>

  predicate Disposed(ph: Phase) {
    ph == RetrySent || ph == RetryMarked || ph == DlqSent || ph == Done
  }

  ghost predicate UpTo(done: Settled, p: nat, n: nat) {
    forall i: nat :: i < n ==> (p, i) in done
  }

  predicate InRange(parts: seq<Part>, p: nat, i: nat) {
    p < |parts| && i < |parts[p].log|
  }

  /** What a worker holds was read from a main topic when everything before it was settled. */
  ghost predicate TaskGrip(parts: seq<Part>, done: Settled, t: Option<Task>) {
    t.Some? ==>
      var k := t.value;
      InRange(parts, k.part, k.off) && parts[k.part].topic.Main? && parts[k.part].log[k.off] == k.msg &&
      UpTo(done, k.part, k.off) && (Disposed(k.phase) ==> (k.part, k.off) in done)
  }

  ghost predicate HaulGrip(parts: seq<Part>, done: Settled, t: Option<Haul>) {
    t.Some? ==>
      var h := t.value;
      InRange(parts, h.part, h.off) && parts[h.part].topic.RetryOf? && parts[h.part].log[h.off] == h.msg &&
      UpTo(done, h.part, h.off) && (h.sent ==> (h.part, h.off) in done)
  }

  /** The partition's owner has the message in hand. */
  predicate InHands(s: Sys, p: nat, i: nat)
    requires p < |s.parts|
  {
    var o := s.parts[p].owner;
    (s.parts[p].topic.Main? && o < |s.workers| && s.workers[o].Some? &&
     s.workers[o].value.part == p && s.workers[o].value.off == i) ||
    (s.parts[p].topic.RetryOf? && o < |s.routers| && s.routers[o].Some? &&
     s.routers[o].value.part == p && s.routers[o].value.off == i)
  }

  /** Whatever has been committed is settled; whatever has been read is settled or in the owner's hands. */
  ghost predicate Reading(s: Sys, done: Settled, p: nat)
    requires p < |s.parts|
  {
    s.parts[p].committed <= |s.parts[p].log| && s.parts[p].pos <= |s.parts[p].log| &&
    UpTo(done, p, s.parts[p].committed) &&
    forall i: nat :: i < s.parts[p].pos ==> (p, i) in done || InHands(s, p, i)
  }

  ghost predicate Held(s: Sys, done: Settled) {
    (forall x :: x in done ==> InRange(s.parts, x.0, x.1)) &&
    (forall w :: 0 <= w < |s.workers| ==> TaskGrip(s.parts, done, s.workers[w])) &&
    (forall r :: 0 <= r < |s.routers| ==> HaulGrip(s.parts, done, s.routers[r])) &&
    (forall p :: 0 <= p < |s.parts| ==> Reading(s, done, p))
  }

  predicate DeadFor(s: Sys, p: nat, i: nat, j: JobId) {
    InRange(s.parts, p, i) && s.parts[p].topic.Dlq? && s.parts[p].log[i].id == j
  }

  predicate OpenFor(s: Sys, done: Settled, p: nat, i: nat, j: JobId) {
    InRange(s.parts, p, i) && !s.parts[p].topic.Dlq? && (p, i) !in done && s.parts[p].log[i].id == j
  }

  predicate IsPublished(s: Sys, j: JobId) {
    s.subm.subPubs[j] > 0 || s.reap.reaperPubs[j] > 0
  }

  ghost predicate Anchored(s: Sys, done: Settled, j: JobId) {
    s.work.successes[j] > 0 || (exists p, i :: DeadFor(s, p, i, j)) || (exists p, i :: OpenFor(s, done, p, i, j))
  }

  ghost predicate Anchors(s: Sys, done: Settled) {
    forall j :: IsPublished(s, j) ==> Anchored(s, done, j)
  }

  ghost predicate Inv(s: Sys, done: Settled) {
    Held(s, done) && Anchors(s, done)
  }

  // ----- what every step keeps -----

  /** Logs only get longer. */
  predicate LogsGrow(a: seq<Part>, b: seq<Part>) {
    |a| == |b| && forall p :: 0 <= p < |a| ==> a[p].topic == b[p].topic && a[p].log <= b[p].log
  }

  lemma TaskGripStays(a: seq<Part>, b: seq<Part>, done: Settled, more: Settled, t: Option<Task>)
    requires TaskGrip(a, done, t) && LogsGrow(a, b) && done <= more
    ensures TaskGrip(b, more, t)
  {
  }

  lemma HaulGripStays(a: seq<Part>, b: seq<Part>, done: Settled, more: Settled, t: Option<Haul>)
    requires HaulGrip(a, done, t) && LogsGrow(a, b) && done <= more
    ensures HaulGrip(b, more, t)
  {
  }

  /** Settling messages of the one job `x` leaves all other jobs anchored. */
  lemma AnchorsStay(s: Sys, done: Settled, t: Sys, more: Settled, x: JobId)
    requires Anchors(s, done) && LogsGrow(s.parts, t.parts)
    requires forall j :: s.work.successes[j] <= t.work.successes[j]
    requires forall p, i :: (p, i) in more && (p, i) !in done ==> InRange(s.parts, p, i) && s.parts[p].log[i].id == x
    requires forall j :: j != x && IsPublished(t, j) ==> IsPublished(s, j)
    requires IsPublished(t, x) ==> Anchored(t, more, x)
    ensures Anchors(t, more)
  {
    forall j | IsPublished(t, j) && j != x ensures Anchored(t, more, j) {
      assert Anchored(s, done, j);
      if p: nat, i: nat :| DeadFor(s, p, i, j) {
        assert DeadFor(t, p, i, j);
      } else if p: nat, i: nat :| OpenFor(s, done, p, i, j) {
        assert OpenFor(t, more, p, i, j);
      }
    }
  }

  /** Nothing settled: every anchor holds. */
  lemma AllAnchorsStay(s: Sys, done: Settled, t: Sys)
    requires Anchors(s, done) && LogsGrow(s.parts, t.parts)
    requires forall j :: s.work.successes[j] <= t.work.successes[j]
    requires forall j :: IsPublished(t, j) ==> IsPublished(s, j)
    ensures Anchors(t, done)
  {
    if IsPublished(t, "") {
      assert Anchored(s, done, "");
      if p: nat, i: nat :| DeadFor(s, p, i, "") {
        assert DeadFor(t, p, i, "");
      } else if p: nat, i: nat :| OpenFor(s, done, p, i, "") {
        assert OpenFor(t, done, p, i, "");
      }
    }
    AnchorsStay(s, done, t, done, "");
  }

  /** A fresh message anchors its job. */
  lemma NewMessageAnchors(s: Sys, done: Settled, t: Sys, more: Settled, route: Route, to: Topic, m: Message)
    requires Held(s, done) && Routed(route, s.parts, to, m.key) && t.parts == Append(route, s.parts, to, m)
    requires forall p, i :: (p, i) in more && (p, i) !in done ==> InRange(s.parts, p, i)
    ensures Anchored(t, more, m.id)
  {
    var p := route(to, m.key);
    var i := |s.parts[p].log|;
    if to.Dlq? {
      assert DeadFor(t, p, i, m.id);
    } else {
      assert OpenFor(t, more, p, i, m.id);
    }
  }

  // ----- calls that read nothing -----

  /** The readers stay as they are; the logs may have grown. */
  lemma SameReaders(s: Sys, done: Settled, t: Sys)
    requires Held(s, done) && LogsGrow(s.parts, t.parts) && t.workers == s.workers && t.routers == s.routers
    requires forall p :: 0 <= p < |s.parts| ==> t.parts[p] == s.parts[p].(log := t.parts[p].log)
    ensures Held(t, done)
  {
    forall p | 0 <= p < |t.parts| ensures Reading(t, done, p) {
      assert Reading(s, done, p);
    }
    forall w | 0 <= w < |t.workers| ensures TaskGrip(t.parts, done, t.workers[w]) {
      TaskGripStays(s.parts, t.parts, done, done, s.workers[w]);
    }
    forall r | 0 <= r < |t.routers| ensures HaulGrip(t.parts, done, t.routers[r]) {
      HaulGripStays(s.parts, t.parts, done, done, s.routers[r]);
    }
  }

  lemma Unrelated(s: Sys, done: Settled, t: Sys)
    requires Inv(s, done) && t.parts == s.parts && t.workers == s.workers && t.routers == s.routers
    requires t.subm.subPubs == s.subm.subPubs && t.reap.reaperPubs == s.reap.reaperPubs
    requires forall j :: s.work.successes[j] <= t.work.successes[j]
    ensures Inv(t, done)
  {
    SameReaders(s, done, t);
    AllAnchorsStay(s, done, t);
  }

  /** A publish by a submission or a reaper. */
  lemma Publishes(s: Sys, done: Settled, t: Sys, route: Route, to: Topic, m: Message)
    requires Inv(s, done) && Routed(route, s.parts, to, m.key) && t.parts == Append(route, s.parts, to, m)
    requires t.workers == s.workers && t.routers == s.routers && t.work == s.work
    requires forall j :: j != m.id && IsPublished(t, j) ==> IsPublished(s, j)
    ensures Inv(t, done)
  {
    SameReaders(s, done, t);
    NewMessageAnchors(s, done, t, done, route, to, m);
    AnchorsStay(s, done, t, done, m.id);
  }

  // ----- workers -----

  /** What a worker's call may leave behind, counting the messages settled so far. */
  function After(done: Settled, k: Task): Settled {
    if Disposed(k.phase) then done + {(k.part, k.off)} else done
  }

  /** The same message in the same worker's hands, one phase on. */
  predicate Moved(a: Task, b: Task) {
    b.part == a.part && b.off == a.off && b.msg == a.msg && (Disposed(a.phase) ==> Disposed(b.phase))
  }

  lemma WorkerMovesHeld(s: Sys, done: Settled, t: Sys, w: nat, k: Task)
    requires Held(s, done) && w < |s.workers| && s.workers[w].Some? && Moved(s.workers[w].value, k)
    requires t.workers == s.workers[w := Some(k)] && t.routers == s.routers && LogsGrow(s.parts, t.parts)
    requires forall p :: 0 <= p < |s.parts| ==> t.parts[p] == s.parts[p].(log := t.parts[p].log)
    ensures Held(t, After(done, k))
  {
    var more := After(done, k);
    assert TaskGrip(s.parts, done, s.workers[w]);
    forall p | 0 <= p < |t.parts| ensures Reading(t, more, p) {
      assert Reading(s, done, p);
    }
    forall v | 0 <= v < |t.workers| ensures TaskGrip(t.parts, more, t.workers[v]) {
      TaskGripStays(s.parts, t.parts, done, more, s.workers[v]);
    }
    forall r | 0 <= r < |t.routers| ensures HaulGrip(t.parts, more, t.routers[r]) {
      HaulGripStays(s.parts, t.parts, done, more, s.routers[r]);
    }
  }

  /** A phase change that disposes of nothing new, or of a message whose success is recorded. */
  lemma WorkerMoves(s: Sys, done: Settled, t: Sys, w: nat, k: Task)
    requires Inv(s, done) && w < |s.workers| && s.workers[w].Some? && Moved(s.workers[w].value, k)
    requires t.workers == s.workers[w := Some(k)] && t.routers == s.routers && t.parts == s.parts
    requires t.subm == s.subm && t.reap == s.reap && forall j :: s.work.successes[j] <= t.work.successes[j]
    requires Disposed(k.phase) ==> Disposed(s.workers[w].value.phase) || t.work.successes[k.msg.id] > 0
    ensures Inv(t, After(done, k))
  {
    WorkerMovesHeld(s, done, t, w, k);
    assert TaskGrip(s.parts, done, s.workers[w]);
    if Disposed(k.phase) && !Disposed(s.workers[w].value.phase) {
      AnchorsStay(s, done, t, After(done, k), k.msg.id);
    } else {
      assert After(done, k) == done;
      AllAnchorsStay(s, done, t);
    }
  }

  /** A publish to the retry or dead-letter topic settles the message in hand. */
  lemma WorkerSends(s: Sys, done: Settled, t: Sys, w: nat, k: Task, route: Route, to: Topic, m: Message)
    requires Inv(s, done) && w < |s.workers| && s.workers[w].Some? && Moved(s.workers[w].value, k) && Disposed(k.phase)
    requires t.workers == s.workers[w := Some(k)] && t.routers == s.routers
    requires Routed(route, s.parts, to, m.key) && t.parts == Append(route, s.parts, to, m) && m.id == k.msg.id
    requires t.subm == s.subm && t.reap == s.reap && t.work.successes == s.work.successes
    ensures Inv(t, After(done, k))
  {
    WorkerMovesHeld(s, done, t, w, k);
    assert TaskGrip(s.parts, done, s.workers[w]);
    NewMessageAnchors(s, done, t, After(done, k), route, to, m);
    AnchorsStay(s, done, t, After(done, k), m.id);
  }

  /** A worker lets go of a settled message, whether its commit went through or not. */
  lemma WorkerLetsGo(s: Sys, done: Settled, t: Sys, w: nat)
    requires Inv(s, done) && w < |s.workers| && s.workers[w].Some? && Disposed(s.workers[w].value.phase)
    requires t.workers == s.workers[w := None] && t.routers == s.routers && t.subm == s.subm && t.reap == s.reap
    requires t.work == s.work
    requires var k := s.workers[w].value; t.parts == s.parts || t.parts == Commit(s.parts, k.part, k.off)
    ensures Inv(t, done)
  {
    assert TaskGrip(s.parts, done, s.workers[w]);
    forall p | 0 <= p < |t.parts| ensures Reading(t, done, p) {
      assert Reading(s, done, p);
    }
    forall v | 0 <= v < |t.workers| ensures TaskGrip(t.parts, done, t.workers[v]) {
      TaskGripStays(s.parts, t.parts, done, done, s.workers[v]);
    }
    forall r | 0 <= r < |t.routers| ensures HaulGrip(t.parts, done, t.routers[r]) {
      HaulGripStays(s.parts, t.parts, done, done, s.routers[r]);
    }
    AllAnchorsStay(s, done, t);
  }

  lemma FetchStep(cfg: Config, s: Sys, done: Settled, w: nat, p: nat)
    requires Inv(s, done) && StepFetch(cfg, s, w, p).Some?
    ensures Inv(StepFetch(cfg, s, w, p).value, done)
  {
    var t := StepFetch(cfg, s, w, p).value;
    assert Reading(s, done, p);
    assert UpTo(done, p, s.parts[p].pos);
    forall q | 0 <= q < |t.parts| ensures Reading(t, done, q) {
      assert Reading(s, done, q);
    }
    forall v | 0 <= v < |t.workers| ensures TaskGrip(t.parts, done, t.workers[v]) {
      TaskGripStays(s.parts, t.parts, done, done, s.workers[v]);
    }
    forall r | 0 <= r < |t.routers| ensures HaulGrip(t.parts, done, t.routers[r]) {
      HaulGripStays(s.parts, t.parts, done, done, s.routers[r]);
    }
    AllAnchorsStay(s, done, t);
  }

  // ----- routers -----

  function AfterHaul(done: Settled, h: Haul): Settled {
    done + {(h.part, h.off)}
  }

  lemma RouterMovesHeld(s: Sys, done: Settled, t: Sys, r: nat)
    requires Held(s, done) && r < |s.routers| && s.routers[r].Some? && t.workers == s.workers
    requires |t.routers| == |s.routers| && t.routers == s.routers[r := t.routers[r]]
    requires t.routers[r].None? || t.routers[r] == Some(s.routers[r].value.(sent := true))
    requires LogsGrow(s.parts, t.parts)
    requires var h := s.routers[r].value;
             forall p :: 0 <= p < |s.parts| ==>
               t.parts[p].owner == s.parts[p].owner && t.parts[p].pos == s.parts[p].pos &&
               (t.parts[p].committed == s.parts[p].committed || (p == h.part && t.parts[p].committed == h.off + 1))
    ensures Held(t, AfterHaul(done, s.routers[r].value))
  {
    var h := s.routers[r].value;
    var more := AfterHaul(done, h);
    assert HaulGrip(s.parts, done, s.routers[r]);
    forall p | 0 <= p < |t.parts| ensures Reading(t, more, p) {
      assert Reading(s, done, p);
    }
    forall v | 0 <= v < |t.workers| ensures TaskGrip(t.parts, more, t.workers[v]) {
      TaskGripStays(s.parts, t.parts, done, more, s.workers[v]);
    }
    forall v | 0 <= v < |t.routers| ensures HaulGrip(t.parts, more, t.routers[v]) {
      HaulGripStays(s.parts, t.parts, done, more, s.routers[v]);
    }
  }

  /** The republished message anchors its job, whether the router has heard of it or not. */
  lemma RouterSends(s: Sys, done: Settled, t: Sys, r: nat, route: Route, to: Topic, m: Message)
    requires Inv(s, done) && r < |s.routers| && s.routers[r].Some? && t.workers == s.workers
    requires |t.routers| == |s.routers| && t.routers == s.routers[r := t.routers[r]]
    requires t.routers[r].None? || t.routers[r] == Some(s.routers[r].value.(sent := true))
    requires Routed(route, s.parts, to, m.key) && t.parts == Append(route, s.parts, to, m)
    requires m.id == s.routers[r].value.msg.id
    requires t.subm == s.subm && t.reap == s.reap && t.work == s.work
    ensures Inv(t, AfterHaul(done, s.routers[r].value))
  {
    var more := AfterHaul(done, s.routers[r].value);
    RouterMovesHeld(s, done, t, r);
    assert HaulGrip(s.parts, done, s.routers[r]);
    NewMessageAnchors(s, done, t, more, route, to, m);
    AnchorsStay(s, done, t, more, m.id);
  }

  lemma RouterLetsGo(s: Sys, done: Settled, t: Sys, r: nat)
    requires Inv(s, done) && r < |s.routers| && s.routers[r].Some? && s.routers[r].value.sent
    requires t.routers == s.routers[r := None] && t.workers == s.workers
    requires t.subm == s.subm && t.reap == s.reap && t.work == s.work
    requires var h := s.routers[r].value; t.parts == s.parts || t.parts == Commit(s.parts, h.part, h.off)
    ensures Inv(t, done)
  {
    assert HaulGrip(s.parts, done, s.routers[r]);
    assert AfterHaul(done, s.routers[r].value) == done;
    RouterMovesHeld(s, done, t, r);
    AllAnchorsStay(s, done, t);
  }

  lemma PickStep(cfg: Config, s: Sys, done: Settled, r: nat, p: nat)
    requires Inv(s, done) && StepPick(cfg, s, r, p).Some?
    ensures Inv(StepPick(cfg, s, r, p).value, done)
  {
    var t := StepPick(cfg, s, r, p).value;
    assert Reading(s, done, p);
    assert UpTo(done, p, s.parts[p].pos);
    forall q | 0 <= q < |t.parts| ensures Reading(t, done, q) {
      assert Reading(s, done, q);
    }
    forall w | 0 <= w < |t.workers| ensures TaskGrip(t.parts, done, t.workers[w]) {
      TaskGripStays(s.parts, t.parts, done, done, s.workers[w]);
    }
    forall v | 0 <= v < |t.routers| ensures HaulGrip(t.parts, done, t.routers[v]) {
      HaulGripStays(s.parts, t.parts, done, done, s.routers[v]);
    }
    AllAnchorsStay(s, done, t);
  }

  // ----- crashes -----

  /** A dead process lets go of everything; readers that start anew do so at the committed offset. */
  ghost predicate Restart(s: Sys, t: Sys) {
    |t.parts| == |s.parts| && |t.workers| == |s.workers| && |t.routers| == |s.routers| &&
    (forall w :: 0 <= w < |s.workers| ==> t.workers[w] == s.workers[w] || t.workers[w].None?) &&
    (forall r :: 0 <= r < |s.routers| ==> t.routers[r] == s.routers[r] || t.routers[r].None?) &&
    forall p :: 0 <= p < |s.parts| ==>
      t.parts[p] == Reassigned(s.parts[p], t.parts[p].owner) ||
      (t.parts[p] == s.parts[p] && forall i: nat :: InHands(s, p, i) ==> InHands(t, p, i))
  }

  lemma RestartHeld(s: Sys, done: Settled, t: Sys)
    requires Held(s, done) && Restart(s, t)
    ensures Held(t, done)
  {
    forall p | 0 <= p < |t.parts| ensures Reading(t, done, p) {
      assert Reading(s, done, p);
    }
    forall w | 0 <= w < |t.workers| ensures TaskGrip(t.parts, done, t.workers[w]) {
      TaskGripStays(s.parts, t.parts, done, done, s.workers[w]);
    }
    forall r | 0 <= r < |t.routers| ensures HaulGrip(t.parts, done, t.routers[r]) {
      HaulGripStays(s.parts, t.parts, done, done, s.routers[r]);
    }
  }

  lemma CrashIsRestart(s: Sys, e: Event)
    requires (e.WorkerCrash? || e.RouterCrash? || e.Rebalance?) && StepCrash(s, e).Some?
    ensures Restart(s, StepCrash(s, e).value)
  {
  }

  lemma CrashStep(s: Sys, done: Settled, e: Event)
    requires Inv(s, done) && e.IsCrash() && StepCrash(s, e).Some?
    ensures Inv(StepCrash(s, e).value, done)
  {
    var t := StepCrash(s, e).value;
    if e.SubCrash? || e.ReaperCrash? {
      Unrelated(s, done, t);
    } else {
      CrashIsRestart(s, e);
      RestartHeld(s, done, t);
      AllAnchorsStay(s, done, t);
    }
  }

  // ----- every event -----

  lemma WorkLogGrows(cfg: Config, s: Sys, tier: Tier, k: Task, c: Choice)
    requires WorkCallEffect(cfg, s, tier, k, c).Some?
    ensures forall j :: s.work.successes[j] <= WorkCallEffect(cfg, s, tier, k, c).value.log.successes[j]
  {
  }

  /** A worker's call that went through; `task` is what the worker makes of it. */
  lemma WorkStep(cfg: Config, s: Sys, done: Settled, w: nat, c: Choice, task: Option<Task>) returns (more: Settled)
    requires Inv(s, done) && Routing.Inv(cfg, s) && StepWorker(cfg, s, w, c).Some?
    requires var k := s.workers[w].value;
             var f := WorkCallEffect(cfg, s, cfg.workerTier[w], k, c).value;
             task == f.task || (task.Some? && f.task.Some? && task.value == f.task.value.(phase := Done) &&
                                k.phase in {HandlerOk, HandlerErr, RetrySent, RetryMarked, DlqSent})
    ensures var f := WorkCallEffect(cfg, s, cfg.workerTier[w], s.workers[w].value, c).value;
            Inv(ApplyWork(s, w, f.(task := task)), more)
  {
    var k := s.workers[w].value;
    var f := WorkCallEffect(cfg, s, cfg.workerTier[w], k, c).value.(task := task);
    var t := ApplyWork(s, w, f);
    assert Routing.TaskOk(cfg, s.rows, w, s.workers[w]);
    RegistryIsTotalOnValid(k.msg.typ);
    if k.phase == Done {
      WorkerLetsGo(s, done, t, w);
      more := done;
    } else {
      more := After(done, task.value);
      WorkLogGrows(cfg, s, cfg.workerTier[w], k, c);
      if k.phase == HandlerErr {
        var to := if k.att + 1 >= k.max then Dlq else RetryOf(cfg.workerTier[w]);
        WorkerSends(s, done, t, w, task.value, cfg.route, to, Resent(s, k, c));
      } else {
        WorkerMoves(s, done, t, w, task.value);
      }
    }
  }

  lemma WorkErrorStep(cfg: Config, s: Sys, done: Settled, w: nat, c: Choice, applied: bool) returns (more: Settled)
    requires Inv(s, done) && Routing.Inv(cfg, s) && FailWorker(cfg, s, w, c, applied).Some?
    requires !Forgets(s, WorkerError(w, c, applied))
    ensures Inv(FailWorker(cfg, s, w, c, applied).value, more)
  {
    var t := FailWorker(cfg, s, w, c, applied).value;
    var k := s.workers[w].value;
    if applied {
      var f := WorkCallEffect(cfg, s, cfg.workerTier[w], k, c).value;
      more := WorkStep(cfg, s, done, w, c, if f.task.None? then None else Some(f.task.value.(phase := Done)));
    } else if k.phase == Done {
      WorkerLetsGo(s, done, t, w);
      more := done;
    } else {
      WorkerMoves(s, done, t, w, k.(phase := Done));
      more := After(done, k.(phase := Done));
    }
  }

  lemma RouteStep(cfg: Config, s: Sys, done: Settled, r: nat, c: Choice, t: Sys) returns (more: Settled)
    requires Inv(s, done) && StepRouter(cfg, s, r, c).Some?
    requires t == StepRouter(cfg, s, r, c).value ||
             var f := RouteCallEffect(cfg, s, cfg.routerTier[r], s.routers[r].value, c).value;
             t == ApplyRoute(s, r, f.(haul := None))
    ensures Inv(t, more)
  {
    var h := s.routers[r].value;
    if h.sent {
      RouterLetsGo(s, done, t, r);
      more := done;
    } else {
      RouterSends(s, done, t, r, cfg.route, Main(cfg.routerTier[r]), h.msg.(headers := c.headers));
      more := AfterHaul(done, h);
    }
  }

  lemma RouteErrorStep(cfg: Config, s: Sys, done: Settled, r: nat, c: Choice, applied: bool) returns (more: Settled)
    requires Inv(s, done) && FailRouter(cfg, s, r, c, applied).Some? && !Forgets(s, RouterError(r, c, applied))
    ensures Inv(FailRouter(cfg, s, r, c, applied).value, more)
  {
    var t := FailRouter(cfg, s, r, c, applied).value;
    if applied {
      more := RouteStep(cfg, s, done, r, c, t);
    } else {
      RouterLetsGo(s, done, t, r);
      more := done;
    }
  }

  lemma SubStep(cfg: Config, s: Sys, done: Settled, e: Event)
    requires Inv(s, done) && (e.SubCall? || e.SubError?) && Next(cfg, s, e).Some?
    ensures Inv(Next(cfg, s, e).value, done)
  {
    var t := Next(cfg, s, e).value;
    var b := s.subs[e.i];
    if b.stage == Inserted && (e.SubCall? || e.applied) {
      var r := s.rows[b.id];
      Publishes(s, done, t, cfg.route, Main(r.tier), MessageFor(b.id, r, e.c.headers));
    } else {
      if b.stage != Inserted && SubCallEffect(cfg, s, b, e.c).Some? { Frames.SubPublishesNothing(cfg, s, b, e.c); }
      Frames.SubEvents(cfg, s, e);
      Unrelated(s, done, t);
    }
  }

  lemma ReapStep(cfg: Config, s: Sys, done: Settled, e: Event)
    requires Inv(s, done) && (e.ReaperCall? || e.ReaperError?) && Next(cfg, s, e).Some?
    ensures Inv(Next(cfg, s, e).value, done)
  {
    var t := Next(cfg, s, e).value;
    var a := s.reapers[e.i];
    if a.pending.Some? && (e.ReaperCall? || e.applied) {
      var (id, r) := a.pending.value;
      Publishes(s, done, t, cfg.route, Main(r.tier), MessageFor(id, r, e.c.headers));
    } else {
      Unrelated(s, done, t);
    }
  }

  lemma InvNext(cfg: Config, s: Sys, done: Settled, e: Event) returns (more: Settled)
    requires Inv(s, done) && Routing.Inv(cfg, s) && !Forgets(s, e) && Next(cfg, s, e).Some?
    ensures Inv(Next(cfg, s, e).value, more)
  {
    more := done;
    if e.IsCrash() { CrashStep(s, done, e); }
    else if e.Fetch? { FetchStep(cfg, s, done, e.i, e.p); }
    else if e.Pick? { PickStep(cfg, s, done, e.i, e.p); }
    else if e.WorkerCall? {
      var f := WorkCallEffect(cfg, s, cfg.workerTier[e.i], s.workers[e.i].value, e.c).value;
      more := WorkStep(cfg, s, done, e.i, e.c, f.task);
    } else if e.WorkerError? { more := WorkErrorStep(cfg, s, done, e.i, e.c, e.applied); }
    else if e.RouterCall? { more := RouteStep(cfg, s, done, e.i, e.c, Next(cfg, s, e).value); }
    else if e.RouterError? { more := RouteErrorStep(cfg, s, done, e.i, e.c, e.applied); }
    else if e.SubCall? || e.SubError? { SubStep(cfg, s, done, e); }
    else if e.ReaperCall? || e.ReaperError? { ReapStep(cfg, s, done, e); }
    else { Unrelated(s, done, Next(cfg, s, e).value); }
  }

  lemma {:induction false} InvRun(cfg: Config, s: Sys, done: Settled, es: seq<Event>, t: Sys) returns (more: Settled)
    requires Inv(s, done) && Routing.Inv(cfg, s) && Mindful(cfg, s, es) && Run(cfg, s, es, t)
    ensures Inv(t, more)
    decreases |es|
  {
    if es == [] {
      more := done;
    } else {
      var m := InvNext(cfg, s, done, es[0]);
      Routing.InvNext(cfg, s, es[0]);
      more := InvRun(cfg, Next(cfg, s, es[0]).value, m, es[1..], t);
    }
  }

  // ----- the theorem -----

  /** The message waits to be read, or the owner of its partition has it in hand and has not yet disposed of it. */
  predicate Awaiting(s: Sys, p: nat, i: nat)
    requires p < |s.parts|
  {
    var o := s.parts[p].owner;
    s.parts[p].pos <= i ||
    (InHands(s, p, i) &&
     if s.parts[p].topic.Main? then !Disposed(s.workers[o].value.phase) else !s.routers[o].value.sent)
  }

  /** An uncommitted message for `j` on its tier's main or retry topic that somebody will still deal with. */
  predicate Outstanding(s: Sys, p: nat, i: nat, j: JobId) {
    p < |s.parts| && j in s.rows &&
    (s.parts[p].topic == Main(s.rows[j].tier) || s.parts[p].topic == RetryOf(s.rows[j].tier)) &&
    s.parts[p].committed <= i < |s.parts[p].log| && s.parts[p].log[i].id == j && Awaiting(s, p, i)
  }

  ghost predicate Safe(s: Sys, j: JobId) {
    (exists p, i :: Outstanding(s, p, i, j)) || (exists p, i :: DeadFor(s, p, i, j)) || s.work.successes[j] > 0
  }

  lemma OpenIsOutstanding(cfg: Config, s: Sys, done: Settled, p: nat, i: nat, j: JobId)
    requires Held(s, done) && Routing.Inv(cfg, s) && OpenFor(s, done, p, i, j)
    ensures Outstanding(s, p, i, j)
  {
    assert Reading(s, done, p) && Routing.PartOk(s.rows, s.parts[p]);
    assert Faithful(s.rows, s.parts[p].log[i]) && Belongs(s.parts[p].topic, s.parts[p].log[i]);
    if i < s.parts[p].pos {
      var o := s.parts[p].owner;
      if s.parts[p].topic.Main? {
        assert TaskGrip(s.parts, done, s.workers[o]);
      } else {
        assert HaulGrip(s.parts, done, s.routers[o]);
      }
    }
  }

  lemma InvIsSafe(cfg: Config, s: Sys, done: Settled, j: JobId)
    requires Inv(s, done) && Routing.Inv(cfg, s) && IsPublished(s, j)
    ensures Safe(s, j)
  {
    if p: nat, i: nat :| OpenFor(s, done, p, i, j) {
      OpenIsOutstanding(cfg, s, done, p, i, j);
    }
  }

  /**
   Every published job has an uncommitted message on its main or retry topic that is still to be dealt with, or a
   message on jobs.dlq, or a recorded SUCCESS, whatever crashed and whatever failed, as long as nothing was forgotten.
   */
  lemma NoPublishedJobIsLost(cfg: Config, s: Sys, es: seq<Event>, t: Sys, j: JobId)
    requires Init(s) && Mindful(cfg, s, es) && Run(cfg, s, es, t) && IsPublished(t, j)
    ensures Safe(t, j)
  {
    var done := InvRun(cfg, s, {}, es, t);
    Routing.InvRun(cfg, s, es, t);
    InvIsSafe(cfg, t, done, j);
  }
}

/**
 How much a crash can repeat. A commit may rewind a partition by any distance, but its reader goes back only when
 the partition is assigned anew, so a message is read at most once more than its partition is reassigned. With that
 the handler runs of a job are bounded in every run whatever, by its publishes and by the reassignments.
 */
module Redelivery {
  import opened Prelude
  import opened Jobs
  import opened Store
  import opened Broker
  import opened Protocol
  import Frames
  import Lifecycle
  import Tokens

  // ----- reads and reassignments of one partition -----

  /** The event hands the next message of partition `p` to its reader. */
  predicate ReadsAt(e: Event, p: nat) {
    (e.Fetch? || e.Pick?) && e.p == p
  }

  /** The event assigns partition `p` anew, to another owner or to its restarted one. */
  predicate Reassigns(s: Sys, e: Event, p: nat)
    requires p < |s.parts|
  {
    match e
    case WorkerCrash(i) => s.parts[p].owner == i && s.parts[p].topic.Main?
    case RouterCrash(i) => s.parts[p].owner == i && s.parts[p].topic.RetryOf?
    case Rebalance(q, _) => q == p
    case _ => false
  }

  /** How often partition `p` is reassigned in the run. */
  function Reassignments(cfg: Config, s: Sys, es: seq<Event>, p: nat): nat
    decreases |es|
  {
    if es == [] || p >= |s.parts| || Next(cfg, s, es[0]).None? then 0
    else Reassignments(cfg, Next(cfg, s, es[0]).value, es[1..], p) + (if Reassigns(s, es[0], p) then 1 else 0)
  }

  /** How often the message at offset `o` of partition `p` is read in the run. */
  function Reads(cfg: Config, s: Sys, es: seq<Event>, p: nat, o: nat): nat
    decreases |es|
  {
    if es == [] || p >= |s.parts| || Next(cfg, s, es[0]).None? then 0
    else Reads(cfg, Next(cfg, s, es[0]).value, es[1..], p, o) +
         (if ReadsAt(es[0], p) && s.parts[p].pos == o then 1 else 0)
  }

  /** The partitions change in nothing but the ends of logs and the commits. */
  predicate Extends(a: seq<Part>, b: seq<Part>) {
    |a| == |b| && forall p :: 0 <= p < |a| ==>
      b[p] == a[p].(log := b[p].log, committed := b[p].committed) && a[p].log <= b[p].log
  }

  lemma WorkExtends(cfg: Config, s: Sys, tier: Tier, k: Task, c: Choice)
    requires WorkCallEffect(cfg, s, tier, k, c).Some?
    ensures Extends(s.parts, WorkCallEffect(cfg, s, tier, k, c).value.parts)
  {
  }

  lemma RouteExtends(cfg: Config, s: Sys, tier: Tier, h: Haul, c: Choice)
    requires RouteCallEffect(cfg, s, tier, h, c).Some?
    ensures Extends(s.parts, RouteCallEffect(cfg, s, tier, h, c).value.parts)
  {
  }

  lemma SubExtends(cfg: Config, s: Sys, b: Sub, c: Choice)
    requires SubCallEffect(cfg, s, b, c).Some?
    ensures Extends(s.parts, SubCallEffect(cfg, s, b, c).value.parts)
  {
  }

  lemma ReapExtends(cfg: Config, s: Sys, a: Reaper, c: Choice)
    requires ReapCallEffect(cfg, s, a, c).Some?
    ensures Extends(s.parts, ReapCallEffect(cfg, s, a, c).value.parts)
  {
  }

  predicate IsCall(e: Event) {
    e.SubCall? || e.WorkerCall? || e.RouterCall? || e.ReaperCall? || e.IsError()
  }

  lemma CallExtends(cfg: Config, s: Sys, e: Event)
    requires IsCall(e) && Next(cfg, s, e).Some?
    ensures Extends(s.parts, Next(cfg, s, e).value.parts)
  {
    if e.SubCall? || (e.SubError? && e.applied) {
      SubExtends(cfg, s, s.subs[e.i], e.c);
    } else if e.WorkerCall? || (e.WorkerError? && e.applied) {
      WorkExtends(cfg, s, cfg.workerTier[e.i], s.workers[e.i].value, e.c);
    } else if e.RouterCall? || (e.RouterError? && e.applied) {
      RouteExtends(cfg, s, cfg.routerTier[e.i], s.routers[e.i].value, e.c);
    } else if e.ReaperCall? || (e.ReaperError? && e.applied) {
      ReapExtends(cfg, s, s.reapers[e.i], e.c);
    }
  }

  /** Everything but this is as it was. */
  predicate SameRest(s: Sys, t: Sys) {
    t.rows == s.rows && t.claims == s.claims && t.devices == s.devices && t.now == s.now && t.subm == s.subm &&
    t.work == s.work && t.reap == s.reap
  }

  /** The readers of `owner`'s partitions of this kind start again at their commits; no other reader moves. */
  predicate ReadersRestart(a: seq<Part>, b: seq<Part>, owner: nat, retry: bool) {
    |b| == |a| && forall p :: 0 <= p < |a| ==>
      b[p] == if a[p].owner == owner && OfKind(a[p], retry) then a[p].(pos := a[p].committed) else a[p]
  }

  /**
   A crash empties the process's hands and nothing else: rows, logs and commits are as they were, a worker's or router's
   readers start again at what was last committed, and a reaper forgets its batch and its unpublished row. A partition
   that changes hands goes to its new owner at its commit, whatever the old one still holds.
   */
  lemma CrashesForget(cfg: Config, s: Sys, e: Event)
    requires e.IsCrash() && Next(cfg, s, e).Some?
    ensures var t := Next(cfg, s, e).value;
            SameRest(s, t) &&
            match e
            case SubCrash(i) =>
              i < |s.subs| && t == s.(subs := s.subs[i := s.subs[i].(stage := Closed)])
            case WorkerCrash(w) =>
              w < |s.workers| && t.workers == s.workers[w := None] && t.routers == s.routers && t.subs == s.subs &&
              t.reapers == s.reapers && ReadersRestart(s.parts, t.parts, w, false)
            case RouterCrash(r) =>
              r < |s.routers| && t.routers == s.routers[r := None] && t.workers == s.workers && t.subs == s.subs &&
              t.reapers == s.reapers && ReadersRestart(s.parts, t.parts, r, true)
            case ReaperCrash(i) =>
              i < |s.reapers| && t == s.(reapers := s.reapers[i := Reaper([], None)])
            case Rebalance(p, owner) =>
              p < |s.parts| &&
              t == s.(parts := s.parts[p := s.parts[p].(owner := owner, pos := s.parts[p].committed)])
            case _ => true
  {
  }

  /**
   A failed call ends what it was about: a submission closes, a worker goes on to its commit or past it, a router lets
   go of the message, a reaper gives up on the row. If the call was not applied, nothing else has changed but a
   submission's reply.
   */
  lemma FailedCallsMoveOn(cfg: Config, s: Sys, e: Event)
    requires e.IsError() && Next(cfg, s, e).Some?
    ensures var t := Next(cfg, s, e).value;
            (!e.applied ==> t.rows == s.rows && t.parts == s.parts && t.claims == s.claims && t.work == s.work &&
                            t.reap == s.reap && t.subm.subPubs == s.subm.subPubs) &&
            match e
            case SubError(i, _, _) => t.subs[i].stage == Closed
            case WorkerError(w, _, _) =>
              t.workers[w].None? ||
              (t.workers[w].value.phase == Done && t.workers[w].value.msg == s.workers[w].value.msg &&
               s.workers[w].value.phase != Done)
            case RouterError(r, _, _) => t.routers[r].None?
            case ReaperError(i, _, _) => t.reapers[i].pending.None?
            case _ => true
  {
    if e.WorkerError? && e.applied { CallKeepsMessage(cfg, s, cfg.workerTier[e.i], s.workers[e.i].value, e.c); }
  }

  lemma CallKeepsMessage(cfg: Config, s: Sys, tier: Tier, k: Task, c: Choice)
    requires WorkCallEffect(cfg, s, tier, k, c).Some?
    ensures var t := WorkCallEffect(cfg, s, tier, k, c).value.task; t.Some? ==> t.value.msg == k.msg
  {
  }

  /** What one event does to partition `p`: its reader moves one on, starts anew, or stays. */
  predicate PartMoves(s: Sys, e: Event, t: Sys, p: nat)
    requires p < |s.parts|
  {
    |t.parts| == |s.parts| && t.parts[p].topic == s.parts[p].topic && s.parts[p].log <= t.parts[p].log &&
    if ReadsAt(e, p) then s.parts[p].pos < |s.parts[p].log| && t.parts[p] == s.parts[p].(pos := s.parts[p].pos + 1)
    else if Reassigns(s, e, p) then t.parts[p].log == s.parts[p].log
    else t.parts[p].pos == s.parts[p].pos
  }

  lemma PartStep(cfg: Config, s: Sys, e: Event, p: nat)
    requires p < |s.parts| && Next(cfg, s, e).Some?
    ensures PartMoves(s, e, Next(cfg, s, e).value, p)
  {
    if IsCall(e) { CallExtends(cfg, s, e); }
  }

  lemma {:induction false} ReadsWithin(cfg: Config, s: Sys, es: seq<Event>, t: Sys, p: nat, o: nat)
    requires Run(cfg, s, es, t) && p < |s.parts|
    ensures Reads(cfg, s, es, p, o) <= (if s.parts[p].pos <= o then 1 else 0) + Reassignments(cfg, s, es, p)
    decreases |es|
  {
    if es != [] {
      PartStep(cfg, s, es[0], p);
      ReadsWithin(cfg, Next(cfg, s, es[0]).value, es[1..], t, p, o);
    }
  }

  /** However far commits rewind: a message is read at most once more than its partition is reassigned. */
  lemma ReadAtMostOncePerAssignment(cfg: Config, s: Sys, es: seq<Event>, t: Sys, p: nat, o: nat)
    requires Init(s) && Run(cfg, s, es, t)
    ensures Reads(cfg, s, es, p, o) <= 1 + Reassignments(cfg, s, es, p)
  {
    if p < |s.parts| { ReadsWithin(cfg, s, es, t, p, o); }
  }

  // ----- reads of one job -----

  /** The job's messages below the reader of a partition. */
  function Below(q: Part, j: JobId): nat {
    Count(q.log[..if q.pos <= |q.log| then q.pos else |q.log|], For(j))
  }

  function OfKind(q: Part, retry: bool): bool {
    if retry then q.topic.RetryOf? else q.topic.Main?
  }

  /** Everything ever written to the partition, if it is of this kind. */
  function Written(retry: bool, j: JobId): Part -> nat {
    (q: Part) => if OfKind(q, retry) then Count(q.log, For(j)) else 0
  }

  /** One if the event reads a message of the job: a worker's fetch, or a router's. */
  function ReadOf(s: Sys, e: Event, retry: bool, j: JobId): nat {
    if (if retry then e.Pick? else e.Fetch?) && e.p < |s.parts| && s.parts[e.p].pos < |s.parts[e.p].log|
    then For(j)(s.parts[e.p].log[s.parts[e.p].pos]) else 0
  }

  /** The partitions from which the job's messages are read in the run, once for every read. */
  function JobReads(cfg: Config, s: Sys, es: seq<Event>, retry: bool, j: JobId): multiset<nat>
    decreases |es|
  {
    if es == [] || Next(cfg, s, es[0]).None? then multiset{} else
    var later := JobReads(cfg, Next(cfg, s, es[0]).value, es[1..], retry, j);
    if ReadOf(s, es[0], retry, j) > 0 then later + multiset{es[0].p} else later
  }

  lemma {:induction false} CountPrefix<T>(a: seq<T>, b: seq<T>, f: T -> nat)
    requires a <= b
    ensures Count(a, f) <= Count(b, f)
  {
    if a != [] {
      assert a[1..] <= b[1..];
      CountPrefix(a[1..], b[1..], f);
    }
  }

  /** One event: what the reader passes counts, and a reassignment gives back no more than there is. */
  lemma BelowStep(cfg: Config, s: Sys, e: Event, p: nat, retry: bool, j: JobId)
    requires p < |s.parts| && Next(cfg, s, e).Some? && OfKind(s.parts[p], retry)
    ensures var q := Next(cfg, s, e).value.parts;
            |q| == |s.parts| && OfKind(q[p], retry) && s.parts[p].log <= q[p].log &&
            Below(s.parts[p], j) + (if ReadsAt(e, p) then ReadOf(s, e, retry, j) else 0) <=
            Below(q[p], j) + (if Reassigns(s, e, p) then Count(q[p].log, For(j)) else 0)
  {
    var a := s.parts[p];
    PartStep(cfg, s, e, p);
    var b := Next(cfg, s, e).value.parts[p];
    if ReadsAt(e, p) {
      assert a.log[..a.pos + 1] == a.log[..a.pos] + [a.log[a.pos]];
      CountSnoc(a.log[..a.pos], a.log[a.pos], For(j));
    } else if Reassigns(s, e, p) {
      CountPrefix(a.log[..if a.pos <= |a.log| then a.pos else |a.log|], a.log, For(j));
    } else {
      CountPrefix(a.log[..if a.pos <= |a.log| then a.pos else |a.log|],
                  b.log[..if b.pos <= |b.log| then b.pos else |b.log|], For(j));
    }
  }

  /** The first event and the rest of the run, for one partition. */
  lemma ReadsUnfold(cfg: Config, s: Sys, es: seq<Event>, p: nat, retry: bool, j: JobId)
    requires es != [] && Next(cfg, s, es[0]).Some? && p < |s.parts|
    ensures var m := Next(cfg, s, es[0]).value;
            JobReads(cfg, s, es, retry, j)[p] ==
            JobReads(cfg, m, es[1..], retry, j)[p] + (if ReadsAt(es[0], p) then ReadOf(s, es[0], retry, j) else 0)
  {
  }

  /** `n` for each of `r` reassignments. */
  function Copies(r: nat, n: nat): nat {
    if r == 0 then 0 else Copies(r - 1, n) + n
  }

  lemma {:induction false} CopiesIsProduct(r: nat, n: nat)
    ensures Copies(r, n) == r * n
  {
    if r > 0 { CopiesIsProduct(r - 1, n); }
  }

  lemma {:induction false} CopiesGrow(r: nat, c: nat, n: nat)
    requires r <= c
    ensures Copies(r, n) <= Copies(c, n)
  {
    if r < c { CopiesGrow(r, c - 1, n); }
  }

  /** `n` for each reassignment of the partition in the run. */
  function Given(cfg: Config, s: Sys, es: seq<Event>, p: nat, n: nat): nat
    decreases |es|
  {
    if es == [] || p >= |s.parts| || Next(cfg, s, es[0]).None? then 0
    else Given(cfg, Next(cfg, s, es[0]).value, es[1..], p, n) + (if Reassigns(s, es[0], p) then n else 0)
  }

  lemma {:induction false} GivenIsCopies(cfg: Config, s: Sys, es: seq<Event>, t: Sys, p: nat, n: nat)
    requires Run(cfg, s, es, t) && p < |s.parts|
    ensures Given(cfg, s, es, p, n) == Copies(Reassignments(cfg, s, es, p), n)
    decreases |es|
  {
    if es != [] {
      var m := Next(cfg, s, es[0]).value;
      PartStep(cfg, s, es[0], p);
      GivenIsCopies(cfg, m, es[1..], t, p, n);
      CopiesStep(Reassignments(cfg, m, es[1..], p), Reassigns(s, es[0], p), n);
      ReassignmentsUnfold(cfg, s, es, p, n);
    }
  }

  lemma CopiesStep(r: nat, again: bool, n: nat)
    ensures Copies(r + (if again then 1 else 0), n) == Copies(r, n) + (if again then n else 0)
  {
  }

  lemma ReassignmentsUnfold(cfg: Config, s: Sys, es: seq<Event>, p: nat, n: nat)
    requires es != [] && Next(cfg, s, es[0]).Some? && p < |s.parts|
    ensures var m := Next(cfg, s, es[0]).value;
            var again := Reassigns(s, es[0], p);
            Reassignments(cfg, s, es, p) == Reassignments(cfg, m, es[1..], p) + (if again then 1 else 0) &&
            Given(cfg, s, es, p, n) == Given(cfg, m, es[1..], p, n) + (if again then n else 0)
  {
  }

  /** The partition stays what it is, and its log only gets longer. */
  lemma {:induction false} PartStays(cfg: Config, s: Sys, es: seq<Event>, t: Sys, p: nat)
    requires Run(cfg, s, es, t) && p < |s.parts|
    ensures |t.parts| == |s.parts| && t.parts[p].topic == s.parts[p].topic && s.parts[p].log <= t.parts[p].log
    decreases |es|
  {
    if es != [] {
      PartStep(cfg, s, es[0], p);
      PartStays(cfg, Next(cfg, s, es[0]).value, es[1..], t, p);
    }
  }

  /** The job's reads from one partition, as a number. */
  function ReadsFrom(cfg: Config, s: Sys, es: seq<Event>, p: nat, retry: bool, j: JobId): nat
    decreases |es|
  {
    if es == [] || p >= |s.parts| || Next(cfg, s, es[0]).None? then 0
    else ReadsFrom(cfg, Next(cfg, s, es[0]).value, es[1..], p, retry, j) +
         (if ReadsAt(es[0], p) then ReadOf(s, es[0], retry, j) else 0)
  }

  lemma {:induction false} ReadsFromAgrees(cfg: Config, s: Sys, es: seq<Event>, t: Sys, p: nat, retry: bool, j: JobId)
    requires Run(cfg, s, es, t) && p < |s.parts|
    ensures JobReads(cfg, s, es, retry, j)[p] == ReadsFrom(cfg, s, es, p, retry, j)
    decreases |es|
  {
    if es != [] {
      PartStep(cfg, s, es[0], p);
      ReadsFromAgrees(cfg, Next(cfg, s, es[0]).value, es[1..], t, p, retry, j);
      ReadsUnfold(cfg, s, es, p, retry, j);
    }
  }

  /** The next state's part of the partition, within what there is at the end. */
  lemma RestOfLog(cfg: Config, s: Sys, es: seq<Event>, t: Sys, p: nat, retry: bool, j: JobId)
    requires es != [] && Run(cfg, s, es, t) && p < |s.parts| && OfKind(s.parts[p], retry)
    ensures var m := Next(cfg, s, es[0]).value;
            p < |m.parts| && p < |t.parts| && OfKind(m.parts[p], retry) &&
            Count(m.parts[p].log, For(j)) <= Count(t.parts[p].log, For(j))
  {
    var m := Next(cfg, s, es[0]).value;
    PartStep(cfg, s, es[0], p);
    PartStays(cfg, m, es[1..], t, p);
    CountPrefix(m.parts[p].log, t.parts[p].log, For(j));
  }

  lemma {:induction false} ReadsFromWithin(cfg: Config, s: Sys, es: seq<Event>, t: Sys, p: nat, retry: bool, j: JobId,
    end: nat, last: nat)
    requires Run(cfg, s, es, t) && p < |s.parts| && p < |t.parts| && OfKind(s.parts[p], retry)
    requires end == Below(t.parts[p], j) && last == Count(t.parts[p].log, For(j))
    ensures ReadsFrom(cfg, s, es, p, retry, j) + Below(s.parts[p], j) <= end + Given(cfg, s, es, p, last)
    decreases |es|
  {
    if es != [] {
      var m := Next(cfg, s, es[0]).value;
      RestOfLog(cfg, s, es, t, p, retry, j);
      ReadsFromWithin(cfg, m, es[1..], t, p, retry, j, end, last);
      BelowStep(cfg, s, es[0], p, retry, j);
    }
  }

  lemma ReadsFromBounded(cfg: Config, s: Sys, es: seq<Event>, t: Sys, p: nat, retry: bool, j: JobId) returns (n: nat)
    requires Run(cfg, s, es, t) && p < |s.parts| && OfKind(s.parts[p], retry)
    ensures p < |t.parts| && n == Written(retry, j)(t.parts[p])
    ensures ReadsFrom(cfg, s, es, p, retry, j) <= n + Given(cfg, s, es, p, n)
  {
    PartStays(cfg, s, es, t, p);
    var q := t.parts[p];
    n := Count(q.log, For(j));
    ReadsFromWithin(cfg, s, es, t, p, retry, j, Below(q, j), n);
    CountPrefix(q.log[..if q.pos <= |q.log| then q.pos else |q.log|], q.log, For(j));
  }

  lemma WithinCopies(got: nat, n: nat, given: nat, r: nat, a: nat)
    requires got <= n + given && given == Copies(r, n) && r < a
    ensures got <= Copies(a, n)
  {
    CopiesGrow(1 + r, a, n);
  }

  /** In any run: no more reads than messages, and as many again for every reassignment. */
  lemma JobReadsBounded(cfg: Config, s: Sys, es: seq<Event>, t: Sys, p: nat, retry: bool, j: JobId, a: nat)
    requires Run(cfg, s, es, t) && p < |s.parts| && Reassignments(cfg, s, es, p) < a
    ensures p < |t.parts| && JobReads(cfg, s, es, retry, j)[p] <= Copies(a, Written(retry, j)(t.parts[p]))
  {
    if OfKind(s.parts[p], retry) {
      ReadsFromAgrees(cfg, s, es, t, p, retry, j);
      var n := ReadsFromBounded(cfg, s, es, t, p, retry, j);
      GivenIsCopies(cfg, s, es, t, p, n);
      WithinCopies(JobReads(cfg, s, es, retry, j)[p], n, Given(cfg, s, es, p, n), Reassignments(cfg, s, es, p), a);
    } else {
      OtherKind(cfg, s, es, t, p, retry, j);
    }
  }

  /** Workers read main topics and routers retry topics. */
  lemma {:induction false} OtherKind(cfg: Config, s: Sys, es: seq<Event>, t: Sys, p: nat, retry: bool, j: JobId)
    requires Run(cfg, s, es, t) && p < |s.parts| && !OfKind(s.parts[p], retry)
    ensures p < |t.parts| && JobReads(cfg, s, es, retry, j)[p] == 0
    decreases |es|
  {
    if es != [] {
      PartStep(cfg, s, es[0], p);
      OtherKind(cfg, Next(cfg, s, es[0]).value, es[1..], t, p, retry, j);
      ReadsUnfold(cfg, s, es, p, retry, j);
    }
  }

  // ----- all partitions together -----

  lemma {:induction false} CopiesAdd(a: nat, m: nat, n: nat)
    ensures Copies(a, m + n) == Copies(a, m) + Copies(a, n)
  {
    if a > 0 { CopiesAdd(a - 1, m, n); }
  }

  /** Reads bounded partition by partition are bounded in all. */
  lemma {:induction false} ReadsInAll(got: multiset<nat>, parts: seq<Part>, f: Part -> nat, a: nat)
    requires forall p :: 0 <= p < |parts| ==> got[p] <= Copies(a, f(parts[p]))
    requires forall p :: p >= |parts| ==> got[p] == 0
    ensures |got| <= Copies(a, Count(parts, f))
    decreases |parts|
  {
    if parts == [] {
      assert forall p :: got[p] == 0;
      assert got == multiset{};
    } else {
      var n := |parts| - 1;
      var rest := parts[..n];
      assert parts == rest + [parts[n]];
      ReadsInAll(got[n := 0], rest, f, a);
      CountSnoc(rest, parts[n], f);
      CopiesAdd(a, Count(rest, f), f(parts[n]));
    }
  }

  lemma {:induction false} NoReads(cfg: Config, s: Sys, es: seq<Event>, t: Sys, p: nat, retry: bool, j: JobId)
    requires Run(cfg, s, es, t) && p >= |s.parts|
    ensures |t.parts| == |s.parts| && JobReads(cfg, s, es, retry, j)[p] == 0
    decreases |es|
  {
    if es != [] {
      var m := Next(cfg, s, es[0]).value;
      if |s.parts| > 0 { PartStep(cfg, s, es[0], 0); } else if IsCall(es[0]) { CallExtends(cfg, s, es[0]); }
      NoReads(cfg, m, es[1..], t, p, retry, j);
    }
  }

  lemma AllReadsBounded(cfg: Config, s: Sys, es: seq<Event>, t: Sys, retry: bool, j: JobId, a: nat)
    requires Init(s) && Run(cfg, s, es, t)
    requires forall p :: 0 <= p < |s.parts| ==> Reassignments(cfg, s, es, p) < a
    ensures |JobReads(cfg, s, es, retry, j)| <= Copies(a, Count(t.parts, Written(retry, j)))
  {
    var got := JobReads(cfg, s, es, retry, j);
    NoReads(cfg, s, es, t, |s.parts|, retry, j);
    forall p | 0 <= p < |t.parts| ensures got[p] <= Copies(a, Written(retry, j)(t.parts[p])) {
      JobReadsBounded(cfg, s, es, t, p, retry, j, a);
    }
    forall p | p >= |t.parts| ensures got[p] == 0 {
      NoReads(cfg, s, es, t, p, retry, j);
    }
    ReadsInAll(got, t.parts, Written(retry, j), a);
  }

  // ----- where messages and runs come from -----

  lemma AppendWritten(route: Route, parts: seq<Part>, to: Topic, m: Message, retry: bool, j: JobId)
    requires Routed(route, parts, to, m.key)
    ensures Count(Append(route, parts, to, m), Written(retry, j)) ==
            Count(parts, Written(retry, j)) + (if (if retry then to.RetryOf? else to.Main?) then For(j)(m) else 0)
  {
    var i := route(to, m.key);
    CountSnoc(parts[i].log, m, For(j));
    CountUpdate(parts, i, parts[i].(log := parts[i].log + [m]), Written(retry, j));
  }

  lemma SameWritten(a: seq<Part>, b: seq<Part>, retry: bool, j: JobId)
    requires |a| == |b| && forall p :: 0 <= p < |a| ==> a[p].topic == b[p].topic && a[p].log == b[p].log
    ensures Count(a, Written(retry, j)) == Count(b, Written(retry, j))
  {
    CountMono(a, b, Written(retry, j), Written(retry, j));
    CountMono(b, a, Written(retry, j), Written(retry, j));
  }

  /** Where this call of a worker puts a message, if it does. */
  function Target(tier: Tier, k: Task, f: WorkEffect): Option<Topic> {
    if f.task.None? then None
    else if k.phase == HandlerErr && f.task.value.phase == RetrySent then Some(RetryOf(tier))
    else if k.phase in {Loaded, HandlerErr} && f.task.value.phase == DlqSent then Some(Dlq)
    else None
  }

  lemma WorkSends(cfg: Config, s: Sys, tier: Tier, k: Task, c: Choice)
    requires WorkCallEffect(cfg, s, tier, k, c).Some?
    ensures var f := WorkCallEffect(cfg, s, tier, k, c).value;
            var m := Resent(s, k, c);
            match Target(tier, k, f)
            case Some(to) =>
              Routed(cfg.route, s.parts, to, m.key) && f.parts == Append(cfg.route, s.parts, to, m) &&
              f.log.retryPubs == s.work.retryPubs + (if to.RetryOf? then multiset{m.id} else multiset{})
            case None =>
              f.log.retryPubs == s.work.retryPubs && |f.parts| == |s.parts| &&
              forall p :: 0 <= p < |s.parts| ==>
                f.parts[p].topic == s.parts[p].topic && f.parts[p].log == s.parts[p].log
  {
  }

  lemma WorkWritten(cfg: Config, s: Sys, tier: Tier, k: Task, c: Choice, j: JobId)
    requires WorkCallEffect(cfg, s, tier, k, c).Some?
    ensures var f := WorkCallEffect(cfg, s, tier, k, c).value;
            Count(f.parts, Written(false, j)) == Count(s.parts, Written(false, j)) &&
            Count(f.parts, Written(true, j)) + s.work.retryPubs[j] ==
            Count(s.parts, Written(true, j)) + f.log.retryPubs[j]
  {
    var f := WorkCallEffect(cfg, s, tier, k, c).value;
    WorkSends(cfg, s, tier, k, c);
    match Target(tier, k, f)
    case Some(to) =>
      AppendWritten(cfg.route, s.parts, to, Resent(s, k, c), false, j);
      AppendWritten(cfg.route, s.parts, to, Resent(s, k, c), true, j);
    case None =>
      SameWritten(s.parts, f.parts, false, j);
      SameWritten(s.parts, f.parts, true, j);
  }

  lemma WorkRuns(cfg: Config, s: Sys, tier: Tier, k: Task, c: Choice, j: JobId)
    requires WorkCallEffect(cfg, s, tier, k, c).Some?
    ensures var f := WorkCallEffect(cfg, s, tier, k, c).value;
            f.log.runs[j] + Lifecycle.Front(j)(f.task) <= s.work.runs[j] + Lifecycle.Front(j)(Some(k))
  {
  }

  lemma RouteWritten(cfg: Config, s: Sys, tier: Tier, h: Haul, c: Choice, j: JobId)
    requires RouteCallEffect(cfg, s, tier, h, c).Some?
    ensures var f := RouteCallEffect(cfg, s, tier, h, c).value;
            Count(f.parts, Written(false, j)) + Tokens.InRouter(For(j))(f.haul) ==
            Count(s.parts, Written(false, j)) + Tokens.InRouter(For(j))(Some(h)) &&
            Count(f.parts, Written(true, j)) == Count(s.parts, Written(true, j))
  {
    var f := RouteCallEffect(cfg, s, tier, h, c).value;
    if h.sent {
      SameWritten(s.parts, f.parts, false, j);
      SameWritten(s.parts, f.parts, true, j);
    } else {
      AppendWritten(cfg.route, s.parts, Main(tier), h.msg.(headers := c.headers), false, j);
      AppendWritten(cfg.route, s.parts, Main(tier), h.msg.(headers := c.headers), true, j);
    }
  }

  lemma SubWritten(cfg: Config, s: Sys, b: Sub, c: Choice, j: JobId)
    requires SubCallEffect(cfg, s, b, c).Some?
    ensures var f := SubCallEffect(cfg, s, b, c).value;
            Count(f.parts, Written(false, j)) + s.subm.subPubs[j] ==
            Count(s.parts, Written(false, j)) + f.log.subPubs[j] &&
            Count(f.parts, Written(true, j)) == Count(s.parts, Written(true, j))
  {
    if b.stage == Inserted {
      var r := s.rows[b.id];
      AppendWritten(cfg.route, s.parts, Main(r.tier), MessageFor(b.id, r, c.headers), false, j);
      AppendWritten(cfg.route, s.parts, Main(r.tier), MessageFor(b.id, r, c.headers), true, j);
    } else {
      Frames.SubPublishesNothing(cfg, s, b, c);
    }
  }

  lemma ReapWritten(cfg: Config, s: Sys, a: Reaper, c: Choice, j: JobId)
    requires ReapCallEffect(cfg, s, a, c).Some?
    ensures var f := ReapCallEffect(cfg, s, a, c).value;
            Count(f.parts, Written(false, j)) + s.reap.reaperPubs[j] ==
            Count(s.parts, Written(false, j)) + f.log.reaperPubs[j] &&
            Count(f.parts, Written(true, j)) == Count(s.parts, Written(true, j))
  {
    if a.pending.Some? {
      var (id, r) := a.pending.value;
      AppendWritten(cfg.route, s.parts, Main(r.tier), MessageFor(id, r, c.headers), false, j);
      AppendWritten(cfg.route, s.parts, Main(r.tier), MessageFor(id, r, c.headers), true, j);
    }
  }

  // ----- the three accounts, event by event -----

  /** Main messages, and retries in routers' hands. */
  function Forwarded(s: Sys, j: JobId): nat {
    Count(s.parts, Written(false, j)) + Count(s.routers, Tokens.InRouter(For(j)))
  }

  /** Runs, and messages that have not reached their handler. */
  function Started(s: Sys, j: JobId): nat {
    s.work.runs[j] + Count(s.workers, Lifecycle.Front(j))
  }

  /** Main messages are published or read from retry topics, retries are published, and runs are read from main. */
  ghost predicate Accounts(s: Sys, t: Sys, j: JobId, picked: nat, fetched: nat) {
    Forwarded(t, j) + s.subm.subPubs[j] + s.reap.reaperPubs[j] <=
    Forwarded(s, j) + t.subm.subPubs[j] + t.reap.reaperPubs[j] + picked &&
    Count(t.parts, Written(true, j)) + s.work.retryPubs[j] == Count(s.parts, Written(true, j)) + t.work.retryPubs[j] &&
    Started(t, j) <= Started(s, j) + fetched
  }

  lemma FetchAccounts(cfg: Config, s: Sys, w: nat, p: nat, j: JobId)
    requires StepFetch(cfg, s, w, p).Some?
    ensures Accounts(s, StepFetch(cfg, s, w, p).value, j, 0, ReadOf(s, Fetch(w, p), false, j))
  {
    var t := StepFetch(cfg, s, w, p).value;
    SameWritten(s.parts, t.parts, false, j);
    SameWritten(s.parts, t.parts, true, j);
    CountUpdate(s.workers, w, t.workers[w], Lifecycle.Front(j));
  }

  lemma PickAccounts(cfg: Config, s: Sys, r: nat, p: nat, j: JobId)
    requires StepPick(cfg, s, r, p).Some?
    ensures Accounts(s, StepPick(cfg, s, r, p).value, j, ReadOf(s, Pick(r, p), true, j), 0)
  {
    var t := StepPick(cfg, s, r, p).value;
    SameWritten(s.parts, t.parts, false, j);
    SameWritten(s.parts, t.parts, true, j);
    CountUpdate(s.routers, r, t.routers[r], Tokens.InRouter(For(j)));
  }

  /** A worker applies a call's effect, or only lets go of its message or moves on. */
  lemma AppliedAccounts(s: Sys, w: nat, f: WorkEffect, j: JobId)
    requires w < |s.workers| && Count(f.parts, Written(false, j)) == Count(s.parts, Written(false, j))
    requires Count(f.parts, Written(true, j)) + s.work.retryPubs[j] ==
             Count(s.parts, Written(true, j)) + f.log.retryPubs[j]
    requires f.log.runs[j] + Lifecycle.Front(j)(f.task) <= s.work.runs[j] + Lifecycle.Front(j)(s.workers[w])
    ensures Accounts(s, ApplyWork(s, w, f), j, 0, 0)
  {
    CountUpdate(s.workers, w, f.task, Lifecycle.Front(j));
  }

  lemma WorkerCallAccounts(cfg: Config, s: Sys, w: nat, c: Choice, j: JobId)
    requires StepWorker(cfg, s, w, c).Some?
    ensures Accounts(s, StepWorker(cfg, s, w, c).value, j, 0, 0)
  {
    var k := s.workers[w].value;
    WorkWritten(cfg, s, cfg.workerTier[w], k, c, j);
    WorkRuns(cfg, s, cfg.workerTier[w], k, c, j);
    AppliedAccounts(s, w, WorkCallEffect(cfg, s, cfg.workerTier[w], k, c).value, j);
  }

  lemma WorkerErrorAccounts(cfg: Config, s: Sys, w: nat, c: Choice, applied: bool, j: JobId)
    requires FailWorker(cfg, s, w, c, applied).Some?
    ensures Accounts(s, FailWorker(cfg, s, w, c, applied).value, j, 0, 0)
  {
    var k := s.workers[w].value;
    var f := NoWorkEffect(s, k);
    if applied {
      f := WorkCallEffect(cfg, s, cfg.workerTier[w], k, c).value;
      WorkWritten(cfg, s, cfg.workerTier[w], k, c, j);
      WorkRuns(cfg, s, cfg.workerTier[w], k, c, j);
    }
    var task := if k.phase == Done || f.task.None? then None else Some(f.task.value.(phase := Done));
    AppliedAccounts(s, w, f.(task := task), j);
  }

  lemma RouterAccounts(cfg: Config, s: Sys, e: Event, j: JobId)
    requires (e.RouterCall? || e.RouterError?) && Next(cfg, s, e).Some?
    ensures Accounts(s, Next(cfg, s, e).value, j, 0, 0)
  {
    var t := Next(cfg, s, e).value;
    CountUpdate(s.routers, e.i, t.routers[e.i], Tokens.InRouter(For(j)));
    if e.RouterCall? || e.applied {
      RouteWritten(cfg, s, cfg.routerTier[e.i], s.routers[e.i].value, e.c, j);
    }
  }

  /** A submission or reaper moves nothing but logs and its own publishes. */
  lemma PublisherAccounts(s: Sys, t: Sys, j: JobId)
    requires t.workers == s.workers && t.routers == s.routers && t.work == s.work
    requires Count(t.parts, Written(false, j)) + s.subm.subPubs[j] + s.reap.reaperPubs[j] ==
             Count(s.parts, Written(false, j)) + t.subm.subPubs[j] + t.reap.reaperPubs[j]
    requires Count(t.parts, Written(true, j)) == Count(s.parts, Written(true, j))
    ensures Accounts(s, t, j, 0, 0)
  {
  }

  lemma SubAccounts(cfg: Config, s: Sys, e: Event, j: JobId)
    requires (e.SubCall? || e.SubError?) && Next(cfg, s, e).Some?
    ensures Accounts(s, Next(cfg, s, e).value, j, 0, 0)
  {
    if e.SubCall? || e.applied { SubWritten(cfg, s, s.subs[e.i], e.c, j); }
    Frames.SubEvents(cfg, s, e);
    PublisherAccounts(s, Next(cfg, s, e).value, j);
  }

  lemma ReapAccounts(cfg: Config, s: Sys, e: Event, j: JobId)
    requires (e.ReaperCall? || e.ReaperError?) && Next(cfg, s, e).Some?
    ensures Accounts(s, Next(cfg, s, e).value, j, 0, 0)
  {
    if e.ReaperCall? || e.applied { ReapWritten(cfg, s, s.reapers[e.i], e.c, j); }
    Frames.ReapEvents(cfg, s, e);
    PublisherAccounts(s, Next(cfg, s, e).value, j);
  }

  lemma CrashAccounts(s: Sys, e: Event, j: JobId)
    requires e.IsCrash() && StepCrash(s, e).Some?
    ensures Accounts(s, StepCrash(s, e).value, j, 0, 0)
  {
    var t := StepCrash(s, e).value;
    SameWritten(s.parts, t.parts, false, j);
    SameWritten(s.parts, t.parts, true, j);
    if e.WorkerCrash? { CountUpdate(s.workers, e.i, None, Lifecycle.Front(j)); }
    if e.RouterCrash? { CountUpdate(s.routers, e.i, None, Tokens.InRouter(For(j))); }
  }

  lemma EventAccounts(cfg: Config, s: Sys, e: Event, j: JobId)
    requires Next(cfg, s, e).Some?
    ensures Accounts(s, Next(cfg, s, e).value, j, ReadOf(s, e, true, j), ReadOf(s, e, false, j))
  {
    if e.IsCrash() { CrashAccounts(s, e, j); }
    else if e.Fetch? { FetchAccounts(cfg, s, e.i, e.p, j); }
    else if e.Pick? { PickAccounts(cfg, s, e.i, e.p, j); }
    else if e.WorkerCall? { WorkerCallAccounts(cfg, s, e.i, e.c, j); }
    else if e.WorkerError? { WorkerErrorAccounts(cfg, s, e.i, e.c, e.applied, j); }
    else if e.RouterCall? || e.RouterError? { RouterAccounts(cfg, s, e, j); }
    else if e.SubCall? || e.SubError? { SubAccounts(cfg, s, e, j); }
    else if e.ReaperCall? || e.ReaperError? { ReapAccounts(cfg, s, e, j); }
  }

  lemma {:induction false} RunAccounts(cfg: Config, s: Sys, es: seq<Event>, t: Sys, j: JobId)
    requires Run(cfg, s, es, t)
    ensures Accounts(s, t, j, |JobReads(cfg, s, es, true, j)|, |JobReads(cfg, s, es, false, j)|)
    decreases |es|
  {
    if es != [] {
      EventAccounts(cfg, s, es[0], j);
      RunAccounts(cfg, Next(cfg, s, es[0]).value, es[1..], t, j);
    }
  }

  // ----- the theorem -----

  lemma StartsEmpty(s: Sys, j: JobId)
    requires Init(s)
    ensures Forwarded(s, j) == 0 && Count(s.parts, Written(true, j)) == 0 && Started(s, j) == 0
  {
    CountZero(s.parts, Written(false, j));
    CountZero(s.parts, Written(true, j));
    CountZero(s.routers, Tokens.InRouter(For(j)));
    CountZero(s.workers, Lifecycle.Front(j));
  }

  lemma {:induction false} CopiesMono(a: nat, m: nat, n: nat)
    requires m <= n
    ensures Copies(a, m) <= Copies(a, n)
  {
    if a > 0 { CopiesMono(a - 1, m, n); }
  }

  lemma AccountsFromStart(cfg: Config, s: Sys, es: seq<Event>, t: Sys, j: JobId) returns (got: nat, picked: nat)
    requires Init(s) && Run(cfg, s, es, t)
    ensures got == |JobReads(cfg, s, es, false, j)| && picked == |JobReads(cfg, s, es, true, j)|
    ensures t.work.runs[j] <= got && Count(t.parts, Written(true, j)) == t.work.retryPubs[j]
    ensures Count(t.parts, Written(false, j)) <= t.subm.subPubs[j] + t.reap.reaperPubs[j] + picked
  {
    got, picked := |JobReads(cfg, s, es, false, j)|, |JobReads(cfg, s, es, true, j)|;
    StartsEmpty(s, j);
    RunAccounts(cfg, s, es, t, j);
  }

  /** From the start: what the reads of the job bound, and what bounds them. */
  lemma ReadsFromStart(cfg: Config, s: Sys, es: seq<Event>, t: Sys, j: JobId, a: nat)
    returns (got: nat, main: nat, picked: nat)
    requires Init(s) && Run(cfg, s, es, t)
    requires forall p :: 0 <= p < |s.parts| ==> Reassignments(cfg, s, es, p) < a
    ensures t.work.runs[j] <= got <= Copies(a, main)
    ensures main <= t.subm.subPubs[j] + t.reap.reaperPubs[j] + picked && picked <= Copies(a, t.work.retryPubs[j])
  {
    main := Count(t.parts, Written(false, j));
    got, picked := AccountsFromStart(cfg, s, es, t, j);
    AllReadsBounded(cfg, s, es, t, true, j, a);
    AllReadsBounded(cfg, s, es, t, false, j, a);
  }

  lemma Chained(a: nat, runs: nat, got: nat, main: nat, pubs: nat, picked: nat, retries: nat)
    requires runs <= got <= Copies(a, main) && main <= pubs + picked && picked <= Copies(a, retries)
    ensures runs <= Copies(a, pubs + Copies(a, retries))
  {
    CopiesMono(a, main, pubs + Copies(a, retries));
  }

  /** Runs come from main messages, and main messages from publishes and retries. */
  lemma RunsWithinCopies(cfg: Config, s: Sys, es: seq<Event>, t: Sys, j: JobId, a: nat)
    requires Init(s) && Run(cfg, s, es, t)
    requires forall p :: 0 <= p < |s.parts| ==> Reassignments(cfg, s, es, p) < a
    requires a > 0
    ensures t.work.runs[j] <=
            Copies(a, t.subm.subPubs[j] + t.reap.reaperPubs[j] + Copies(a, t.work.retryPubs[j]))
  {
    var got, main, picked := ReadsFromStart(cfg, s, es, t, j, a);
    Chained(a, t.work.runs[j], got, main, t.subm.subPubs[j] + t.reap.reaperPubs[j], picked, t.work.retryPubs[j]);
  }

  /**
   In any run, with whatever crashing and failing: if no partition is reassigned more than `c` times, a job is run at
   most `1 + c` times for every message of it on main topics, and these are its publishes and at most `1 + c` copies of
   each retry.
   */
  lemma RunsBoundedByReassignments(cfg: Config, s: Sys, es: seq<Event>, t: Sys, j: JobId, c: nat)
    requires Init(s) && Run(cfg, s, es, t)
    requires forall p :: 0 <= p < |s.parts| ==> Reassignments(cfg, s, es, p) <= c
    ensures t.work.runs[j] <=
            (1 + c) * (t.subm.subPubs[j] + t.reap.reaperPubs[j] + (1 + c) * t.work.retryPubs[j])
  {
    RunsWithinCopies(cfg, s, es, t, j, 1 + c);
    AsProducts(1 + c, t.subm.subPubs[j] + t.reap.reaperPubs[j], t.work.retryPubs[j]);
  }

  lemma AsProducts(a: nat, pubs: nat, retries: nat)
    ensures Copies(a, pubs + Copies(a, retries)) == a * (pubs + a * retries)
  {
    CopiesIsProduct(a, retries);
    CopiesIsProduct(a, pubs + Copies(a, retries));
  }
}

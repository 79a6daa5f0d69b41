/**
 Retries wait, on every run: a router puts a retry back on the main topic no earlier than the instant in the header of
 the message it read, so no copy of a retry reaches a handler before that instant. Crashes, reassignments, failed calls
 and everything else may happen in between.
 */
module Punctual {
  import opened Prelude
  import opened Jobs
  import opened Broker
  import opened Protocol
  import opened Text
  import Redelivery

  // ----- the instant a message names -----

  predicate NamesInstant(h: Header) {
    h.key == "retry-at" && ParseInt(h.value).Some?
  }

  /** The last of a message's headers that names an instant. */
  predicate LastInstant(hs: seq<Header>, i: nat) {
    i < |hs| && NamesInstant(hs[i]) && forall k :: i < k < |hs| ==> !NamesInstant(hs[k])
  }

  /** The instant a message names, in seconds, is not after `now`. */
  predicate Passed(hs: seq<Header>, now: int) {
    forall i :: 0 <= i < |hs| && LastInstant(hs, i) ==> ParseInt(hs[i].value).value * 1_000_000_000 <= now
  }

  lemma {:induction false} ReadInstant(hs: seq<Header>, i: nat, now: int)
    requires LastInstant(hs, i)
    ensures RetryAt(hs, now) == ParseInt(hs[i].value).value * 1_000_000_000
  {
    var n := |hs| - 1;
    if i < n {
      assert !NamesInstant(hs[n]);
      assert LastInstant(hs[..n], i);
      ReadInstant(hs[..n], i, now);
    }
  }

  // ----- what routers and workers hold -----

  /** The message in hand is the one that lies where it was read. */
  predicate Lies(parts: seq<Part>, p: nat, o: nat, m: Message) {
    p < |parts| && o < |parts[p].log| && parts[p].log[o] == m
  }

  predicate HaulWaits(parts: seq<Part>, h: Option<Haul>) {
    h.Some? ==>
      Lies(parts, h.value.part, h.value.off, h.value.msg) && parts[h.value.part].topic.RetryOf? &&
      Passed(h.value.msg.headers, h.value.until)
  }

  predicate TaskLies(parts: seq<Part>, t: Option<Task>) {
    t.Some? ==> Lies(parts, t.value.part, t.value.off, t.value.msg) && parts[t.value.part].topic.Main?
  }

  predicate Inv(s: Sys) {
    (forall r :: 0 <= r < |s.routers| ==> HaulWaits(s.parts, s.routers[r])) &&
    forall w :: 0 <= w < |s.workers| ==> TaskLies(s.parts, s.workers[w])
  }

  predicate LogsGrow(a: seq<Part>, b: seq<Part>) {
    |a| == |b| && forall p :: 0 <= p < |a| ==> b[p].topic == a[p].topic && a[p].log <= b[p].log
  }

  lemma NextLogs(cfg: Config, s: Sys, e: Event)
    requires Next(cfg, s, e).Some?
    ensures LogsGrow(s.parts, Next(cfg, s, e).value.parts)
  {
    if Redelivery.IsCall(e) { Redelivery.CallExtends(cfg, s, e); }
    var t := Next(cfg, s, e).value;
    forall p | 0 <= p < |s.parts|
      ensures |t.parts| == |s.parts| && t.parts[p].topic == s.parts[p].topic && s.parts[p].log <= t.parts[p].log
    {
      Redelivery.PartStep(cfg, s, e, p);
    }
  }

  lemma PickWaits(cfg: Config, s: Sys, r: nat, p: nat)
    requires Inv(s) && StepPick(cfg, s, r, p).Some?
    ensures Inv(StepPick(cfg, s, r, p).value)
  {
    var m := s.parts[p].log[s.parts[p].pos];
    forall i | 0 <= i < |m.headers| && LastInstant(m.headers, i)
      ensures ParseInt(m.headers[i].value).value * 1_000_000_000 <= RetryAt(m.headers, s.now)
    {
      ReadInstant(m.headers, i, s.now);
    }
  }

  /** Whoever lets go of a message, or moves on with the same one, keeps the invariant while logs grow. */
  predicate SameHauls(s: Sys, t: Sys) {
    |t.routers| == |s.routers| &&
    forall r :: 0 <= r < |s.routers| && t.routers[r].Some? ==>
      s.routers[r].Some? && t.routers[r].value.part == s.routers[r].value.part &&
      t.routers[r].value.off == s.routers[r].value.off && t.routers[r].value.msg == s.routers[r].value.msg &&
      t.routers[r].value.until == s.routers[r].value.until
  }

  predicate SameTasks(s: Sys, t: Sys) {
    |t.workers| == |s.workers| &&
    forall w :: 0 <= w < |s.workers| && t.workers[w].Some? ==>
      s.workers[w].Some? && t.workers[w].value.part == s.workers[w].value.part &&
      t.workers[w].value.off == s.workers[w].value.off && t.workers[w].value.msg == s.workers[w].value.msg
  }

  lemma SameHandsKeep(s: Sys, t: Sys)
    requires Inv(s) && LogsGrow(s.parts, t.parts) && SameHauls(s, t) && SameTasks(s, t)
    ensures Inv(t)
  {
    forall r | 0 <= r < |t.routers| ensures HaulWaits(t.parts, t.routers[r]) {
      assert HaulWaits(s.parts, s.routers[r]);
    }
    forall w | 0 <= w < |t.workers| ensures TaskLies(t.parts, t.workers[w]) {
      assert TaskLies(s.parts, s.workers[w]);
    }
  }

  lemma WorkSameTask(cfg: Config, s: Sys, tier: Tier, k: Task, c: Choice)
    requires WorkCallEffect(cfg, s, tier, k, c).Some?
    ensures var t := WorkCallEffect(cfg, s, tier, k, c).value.task;
            t.Some? ==> t.value.part == k.part && t.value.off == k.off && t.value.msg == k.msg
  {
  }

  lemma WorkerHands(cfg: Config, s: Sys, e: Event)
    requires (e.WorkerCall? || e.WorkerError?) && Next(cfg, s, e).Some?
    ensures SameHauls(s, Next(cfg, s, e).value) && SameTasks(s, Next(cfg, s, e).value)
  {
    if e.WorkerCall? || e.applied { WorkSameTask(cfg, s, cfg.workerTier[e.i], s.workers[e.i].value, e.c); }
  }

  lemma OtherHands(cfg: Config, s: Sys, e: Event)
    requires !e.WorkerCall? && !e.WorkerError? && !e.Fetch? && !e.Pick? && Next(cfg, s, e).Some?
    ensures SameHauls(s, Next(cfg, s, e).value) && SameTasks(s, Next(cfg, s, e).value)
  {
  }

  lemma InvNext(cfg: Config, s: Sys, e: Event)
    requires Inv(s) && Next(cfg, s, e).Some?
    ensures Inv(Next(cfg, s, e).value)
  {
    if e.Pick? { PickWaits(cfg, s, e.i, e.p); }
    else if !e.Fetch? {
      NextLogs(cfg, s, e);
      if e.WorkerCall? || e.WorkerError? { WorkerHands(cfg, s, e); } else { OtherHands(cfg, s, e); }
      SameHandsKeep(s, Next(cfg, s, e).value);
    }
  }

  lemma {:induction false} InvRun(cfg: Config, s: Sys, es: seq<Event>, t: Sys)
    requires Inv(s) && Run(cfg, s, es, t)
    ensures Inv(t)
    decreases |es|
  {
    if es != [] {
      InvNext(cfg, s, es[0]);
      InvRun(cfg, Next(cfg, s, es[0]).value, es[1..], t);
    }
  }

  // ----- the republish -----

  /** The event makes the log of partition `p` one message longer. */
  predicate Appends(cfg: Config, s: Sys, e: Event, p: nat, m: Message) {
    p < |s.parts| && Next(cfg, s, e).Some? && p < |Next(cfg, s, e).value.parts| &&
    Next(cfg, s, e).value.parts[p].log == s.parts[p].log + [m]
  }

  /**
   The event is a router's, and the message it puts on `p` is the one at (q, o) with other headers, its instant past.
   */
  predicate Forwards(cfg: Config, s: Sys, e: Event, p: nat, m: Message, q: nat, o: nat) {
    (e.RouterCall? || e.RouterError?) && Appends(cfg, s, e, p, m) &&
    q < |s.parts| && s.parts[q].topic.RetryOf? && o < |s.parts[q].log| &&
    m == s.parts[q].log[o].(headers := m.headers) && Passed(s.parts[q].log[o].headers, s.now)
  }

  lemma RouterForwards(cfg: Config, s: Sys, e: Event, p: nat, m: Message) returns (q: nat, o: nat)
    requires Inv(s) && (e.RouterCall? || e.RouterError?) && Appends(cfg, s, e, p, m)
    ensures Forwards(cfg, s, e, p, m, q, o)
  {
    var h := s.routers[e.i].value;
    assert HaulWaits(s.parts, s.routers[e.i]);
    q, o := h.part, h.off;
    AppendedByRouter(cfg, s, e, p, m);
    forall i | 0 <= i < |h.msg.headers| && LastInstant(h.msg.headers, i)
      ensures ParseInt(h.msg.headers[i].value).value * 1_000_000_000 <= s.now
    {
    }
  }

  lemma AppendedByRouter(cfg: Config, s: Sys, e: Event, p: nat, m: Message)
    requires (e.RouterCall? || e.RouterError?) && Appends(cfg, s, e, p, m)
    ensures var h := s.routers[e.i].value; !h.sent && h.until <= s.now && m == h.msg.(headers := m.headers)
  {
    var a, b := s.parts[p].log, Next(cfg, s, e).value.parts[p].log;
    assert |b| == |a| + 1 && b[|a|] == m;
  }

  /**
   On every run: whenever a router's call makes a log longer, the message it read names an instant that has passed, and
   it puts that message there, for its handler, under the same key.
   */
  lemma RepublishWaits(cfg: Config, s: Sys, es: seq<Event>, t: Sys, e: Event, p: nat, m: Message)
    returns (q: nat, o: nat)
    requires Init(s) && Run(cfg, s, es, t) && (e.RouterCall? || e.RouterError?) && Appends(cfg, t, e, p, m)
    ensures Forwards(cfg, t, e, p, m, q, o)
  {
    InvRun(cfg, s, es, t);
    q, o := RouterForwards(cfg, t, e, p, m);
  }

  // ----- where a message came from -----

  /** The event that put a message where it lies, and the state it found. */
  lemma {:induction false} WhoWrote(cfg: Config, s: Sys, es: seq<Event>, t: Sys, p: nat, o: nat)
    returns (k: nat, a: Sys)
    requires Run(cfg, s, es, t) && p < |s.parts| && p < |t.parts| && |s.parts[p].log| <= o < |t.parts[p].log|
    ensures k < |es| && Run(cfg, s, es[..k], a) && Next(cfg, a, es[k]).Some? && p < |a.parts| && a.now <= t.now
    ensures var b := Next(cfg, a, es[k]).value;
            p < |b.parts| && |a.parts[p].log| <= o < |b.parts[p].log| && b.parts[p].log[o] == t.parts[p].log[o]
    decreases |es|
  {
    var m := Next(cfg, s, es[0]).value;
    NextLogs(cfg, s, es[0]);
    RunLogs(cfg, m, es[1..], t);
    if o < |m.parts[p].log| {
      k, a := 0, s;
      assert es[..0] == [] && Run(cfg, s, es[..0], s);
      ClockRuns(cfg, s, es, t);
    } else {
      k, a := WhoWrote(cfg, m, es[1..], t, p, o);
      assert es[1..][..k] == es[..k + 1][1..];
      k := k + 1;
    }
  }

  lemma {:induction false} RunLogs(cfg: Config, s: Sys, es: seq<Event>, t: Sys)
    requires Run(cfg, s, es, t)
    ensures LogsGrow(s.parts, t.parts)
    decreases |es|
  {
    if es != [] {
      NextLogs(cfg, s, es[0]);
      RunLogs(cfg, Next(cfg, s, es[0]).value, es[1..], t);
    }
  }

  lemma {:induction false} ClockRuns(cfg: Config, s: Sys, es: seq<Event>, t: Sys)
    requires Run(cfg, s, es, t)
    ensures s.now <= t.now
    decreases |es|
  {
    if es != [] { ClockRuns(cfg, Next(cfg, s, es[0]).value, es[1..], t); }
  }

  /** Only submissions, reapers and routers write to main topics, and the first two use the device as the key. */
  lemma MainWriters(cfg: Config, s: Sys, e: Event, p: nat)
    requires Next(cfg, s, e).Some? && p < |s.parts| && s.parts[p].topic.Main?
    requires p < |Next(cfg, s, e).value.parts| && |s.parts[p].log| < |Next(cfg, s, e).value.parts[p].log|
    ensures var log := Next(cfg, s, e).value.parts[p].log;
            log == s.parts[p].log + [log[|s.parts[p].log|]] &&
            (e.RouterCall? || e.RouterError? || log[|s.parts[p].log|].key == log[|s.parts[p].log|].device)
  {
    if e.WorkerCall? || e.WorkerError? { WorkerWritesNone(cfg, s, e, p); }
    else if e.SubCall? || e.SubError? { SubWrites(cfg, s, s.subs[e.i], e.c, p); }
    else if e.ReaperCall? || e.ReaperError? { ReapWrites(cfg, s, s.reapers[e.i], e.c, p); }
    else if e.RouterCall? || e.RouterError? { RouteWrites(cfg, s, cfg.routerTier[e.i], s.routers[e.i].value, e.c, p); }
  }

  lemma WorkerWritesNone(cfg: Config, s: Sys, e: Event, p: nat)
    requires (e.WorkerCall? || e.WorkerError?) && Next(cfg, s, e).Some? && p < |s.parts| && s.parts[p].topic.Main?
    ensures p < |Next(cfg, s, e).value.parts| && Next(cfg, s, e).value.parts[p].log == s.parts[p].log
  {
    if e.WorkerCall? || e.applied { WorkSends(cfg, s, cfg.workerTier[e.i], s.workers[e.i].value, e.c, p); }
  }

  lemma WorkSends(cfg: Config, s: Sys, tier: Tier, k: Task, c: Choice, p: nat)
    requires WorkCallEffect(cfg, s, tier, k, c).Some? && p < |s.parts| && s.parts[p].topic.Main?
    ensures var parts := WorkCallEffect(cfg, s, tier, k, c).value.parts;
            p < |parts| && parts[p].log == s.parts[p].log
  {
  }

  predicate AtMostOne(a: seq<Message>, b: seq<Message>) {
    b == a || (|b| == |a| + 1 && b == a + [b[|a|]])
  }

  predicate OneByDevice(a: seq<Message>, b: seq<Message>) {
    AtMostOne(a, b) && (|b| > |a| ==> b[|a|].key == b[|a|].device)
  }

  lemma SubWrites(cfg: Config, s: Sys, b: Sub, c: Choice, p: nat)
    requires p < |s.parts|
    ensures SubCallEffect(cfg, s, b, c).Some? ==>
              var parts := SubCallEffect(cfg, s, b, c).value.parts;
              p < |parts| && OneByDevice(s.parts[p].log, parts[p].log)
  {
  }

  lemma ReapWrites(cfg: Config, s: Sys, a: Reaper, c: Choice, p: nat)
    requires p < |s.parts|
    ensures ReapCallEffect(cfg, s, a, c).Some? ==>
              var parts := ReapCallEffect(cfg, s, a, c).value.parts;
              p < |parts| && OneByDevice(s.parts[p].log, parts[p].log)
  {
  }

  lemma RouteWrites(cfg: Config, s: Sys, tier: Tier, h: Haul, c: Choice, p: nat)
    requires p < |s.parts|
    ensures RouteCallEffect(cfg, s, tier, h, c).Some? ==>
              var parts := RouteCallEffect(cfg, s, tier, h, c).value.parts;
              p < |parts| && AtMostOne(s.parts[p].log, parts[p].log)
  {
  }

  /**
   On every run, for every message on a main topic that is not keyed by its device: one event of the run put it there, a
   router's, and by then the instant in the header of the retry it forwarded had passed.
   */
  lemma CopyHasWaited(cfg: Config, s: Sys, es: seq<Event>, t: Sys, p: nat, o: nat)
    returns (k: nat, a: Sys, q: nat, i: nat)
    requires Init(s) && Run(cfg, s, es, t) && p < |t.parts| && t.parts[p].topic.Main? && o < |t.parts[p].log|
    requires t.parts[p].log[o].key != t.parts[p].log[o].device
    ensures k < |es| && Run(cfg, s, es[..k], a) && a.now <= t.now && p < |a.parts| && |a.parts[p].log| == o
    ensures Forwards(cfg, a, es[k], p, t.parts[p].log[o], q, i)
  {
    RunLogs(cfg, s, es, t);
    k, a := WhoWrote(cfg, s, es, t, p, o);
    RunLogs(cfg, s, es[..k], a);
    MainWriters(cfg, a, es[k], p);
    q, i := RepublishWaits(cfg, s, es[..k], a, es[k], p, t.parts[p].log[o]);
  }

  /**
   On every run, a worker that holds a retry's copy, in whatever phase, holds it no earlier than the instant of the very
   retry it was forwarded from.
   */
  lemma HandlerHasWaited(cfg: Config, s: Sys, es: seq<Event>, t: Sys, w: nat)
    returns (k: nat, a: Sys, q: nat, i: nat)
    requires Init(s) && Run(cfg, s, es, t) && w < |t.workers| && t.workers[w].Some?
    requires t.workers[w].value.msg.key != t.workers[w].value.msg.device
    ensures k < |es| && Run(cfg, s, es[..k], a) && a.now <= t.now
    ensures var h := t.workers[w].value;
            h.part < |a.parts| && |a.parts[h.part].log| == h.off &&
            Forwards(cfg, a, es[k], h.part, h.msg, q, i) && Passed(a.parts[q].log[i].headers, t.now)
  {
    InvRun(cfg, s, es, t);
    assert TaskLies(t.parts, t.workers[w]);
    k, a, q, i := CopyHasWaited(cfg, s, es, t, t.workers[w].value.part, t.workers[w].value.off);
  }
}

/**
 The declared state machine. The code never consults its transition table. In runs without crashes, failed
 calls and reaps this module says exactly when a job obeys it all the same, once a row whose message is waiting
 on the main topic is read as QUEUED: when the two writes that come after their publish, QUEUED and RETRY, and
 the write of SUCCESS find the row in a state their guard names.
 */
module Lifecycle {
  import opened Prelude
  import opened Jobs
  import opened Store
  import opened Broker
  import opened Protocol
  import opened Frames
  import opened Tokens
  import opened Course
  import Routing
  import Idempotency
  import Overshoot

  // ----- the course of a job in the whole system -----

  /** A submission that has published the job and has yet to write QUEUED. */
  function Queueing(j: JobId): Sub -> nat {
    (b: Sub) => if b.stage == Published && b.id == j then 1 else 0
  }

  /** A worker that has fetched the job and not yet marked it RUNNING. */
  function Front(j: JobId): Option<Task> -> nat {
    (t: Option<Task>) => if t.Some? && t.value.msg.id == j && t.value.phase in {Fetched, Loaded} then 1 else 0
  }

  function Retrying(j: JobId): Option<Task> -> nat {
    (t: Option<Task>) => if t.Some? && t.value.msg.id == j && t.value.phase == RetrySent then 1 else 0
  }

  function Burying(j: JobId): Option<Task> -> nat {
    (t: Option<Task>) => if t.Some? && t.value.msg.id == j && t.value.phase == DlqSent then 1 else 0
  }

  function Of(s: Sys, j: JobId): Life
    requires j in s.rows
  {
    Life(s.rows[j].state,
         Count(s.subs, Idempotency.Unpublished(j)), Count(s.subs, Queueing(j)),
         Count(s.parts, OnMain(For(j))), Count(s.workers, Front(j)), Count(s.workers, Overshoot.Executing(j)),
         Count(s.parts, OnRetry(For(j))), Count(s.routers, InRouter(For(j))), Count(s.parts, OnDlq(For(j))),
         s.work.successes[j], Count(s.workers, Retrying(j)), Count(s.workers, Burying(j)))
  }

  /** The next message of partition `p` is the job's. */
  predicate IsHead(s: Sys, p: nat, j: JobId) {
    p < |s.parts| && s.parts[p].pos < |s.parts[p].log| && s.parts[p].log[s.parts[p].pos].id == j
  }

  /** What an event is for the job. */
  function MoveOf(s: Sys, e: Event, j: JobId): Move {
    match e
    case SubCall(i, _) =>
      if i >= |s.subs| || s.subs[i].id != j then Stay
      else if s.subs[i].stage == Inserted then Publish
      else if s.subs[i].stage == Published then WriteQueued
      else Stay
    case Fetch(_, p) => if IsHead(s, p, j) then Move.Fetch else Stay
    case WorkerCall(w, _) =>
      if w < |s.workers| && s.workers[w].Some? && s.workers[w].value.msg.id == j then WorkMove(s.workers[w].value)
      else Stay
    case Pick(_, p) => if IsHead(s, p, j) then Move.Pick else Stay
    case RouterCall(r, _) =>
      if r < |s.routers| && s.routers[r].Some? && s.routers[r].value.msg.id == j && !s.routers[r].value.sent
      then Forward else Stay
    case _ => Stay
  }

  function WorkMove(k: Task): Move {
    match k.phase
    case Loaded => Start
    case HandlerOk => Succeed
    case HandlerErr => if k.att + 1 >= k.max then Bury else Resend
    case RetrySent => WriteRetry
    case DlqSent => WriteFailed
    case _ => Stay
  }

  /** In the whole system the event does to the job what its move does in the automaton. */
  ghost predicate Moves(cfg: Config, s: Sys, e: Event, j: JobId)
    requires Next(cfg, s, e).Some? && j in s.rows
  {
    var t := Next(cfg, s, e).value;
    j in t.rows && Can(Of(s, j), MoveOf(s, e, j)) && Of(t, j) == Do(Of(s, j), MoveOf(s, e, j))
  }

  // ----- a worker's call -----

  lemma CommitKinds(parts: seq<Part>, p: nat, off: nat, f: Message -> nat)
    ensures var b := Commit(parts, p, off);
            Count(b, OnMain(f)) == Count(parts, OnMain(f)) && Count(b, OnRetry(f)) == Count(parts, OnRetry(f)) &&
            Count(b, OnDlq(f)) == Count(parts, OnDlq(f))
  {
    SameReads(parts, Commit(parts, p, off), f);
  }

  lemma WorkLogs(cfg: Config, s: Sys, tier: Tier, k: Task, c: Choice, j: JobId)
    requires Positioned(s.parts) && WorkCallEffect(cfg, s, tier, k, c).Some? && HasHandler(k.msg.typ)
    requires k.msg.tier == tier && k.msg.id in s.rows
    ensures var f := WorkCallEffect(cfg, s, tier, k, c).value;
            var move := if k.msg.id == j then WorkMove(k) else Stay;
            Count(f.parts, OnMain(For(j))) == Count(s.parts, OnMain(For(j))) &&
            Count(f.parts, OnRetry(For(j))) == Count(s.parts, OnRetry(For(j))) + (if move == Resend then 1 else 0) &&
            Count(f.parts, OnDlq(For(j))) == Count(s.parts, OnDlq(For(j))) + (if move == Bury then 1 else 0)
  {
    var m := Resent(s, k, c);
    match k.phase
    case Done => CommitKinds(s.parts, k.part, k.off, For(j));
    case HandlerErr =>
      if k.att + 1 >= k.max { AppendKinds(cfg.route, s.parts, Dlq, m, For(j)); }
      else { AppendKinds(cfg.route, s.parts, RetryOf(tier), m, For(j)); }
    case _ => assert WorkCallEffect(cfg, s, tier, k, c).value.parts == s.parts;
  }

  /** A worker's own place in the job's course. */
  function Place(t: Option<Task>, j: JobId): (nat, nat, nat, nat) {
    (Front(j)(t), Overshoot.Executing(j)(t), Retrying(j)(t), Burying(j)(t))
  }

  function PlaceAfter(m: Move): (nat, nat, nat, nat) {
    match m
    case Start => (0, 1, 0, 0)
    case Resend => (0, 0, 1, 0)
    case Bury => (0, 0, 0, 1)
    case _ => (0, 0, 0, 0)
  }

  lemma WorkPlace(cfg: Config, s: Sys, tier: Tier, k: Task, c: Choice, j: JobId)
    requires WorkCallEffect(cfg, s, tier, k, c).Some? && HasHandler(k.msg.typ) && k.msg.tier == tier
    requires k.msg.id in s.rows
    ensures var after := Place(WorkCallEffect(cfg, s, tier, k, c).value.task, j);
            after == if k.msg.id != j || WorkMove(k) == Stay then Place(Some(k), j) else PlaceAfter(WorkMove(k))
  {
  }

  lemma PlaceBefore(k: Task, j: JobId)
    requires k.msg.id == j
    ensures Place(Some(k), j) == match WorkMove(k) {
              case Start => (1, 0, 0, 0)
              case WriteRetry => (0, 0, 1, 0)
              case WriteFailed => (0, 0, 0, 1)
              case Stay => Place(Some(k), j)
              case _ => (0, 1, 0, 0)
            }
  {
  }

  /** The row's state after the call, and the successes recorded. */
  lemma WorkState(cfg: Config, s: Sys, tier: Tier, k: Task, c: Choice, j: JobId)
    requires WorkCallEffect(cfg, s, tier, k, c).Some? && HasHandler(k.msg.typ) && k.msg.tier == tier
    requires k.msg.id in s.rows
    requires j in s.rows
    ensures var f := WorkCallEffect(cfg, s, tier, k, c).value;
            var move := if k.msg.id == j then WorkMove(k) else Stay;
            j in f.rows && f.log.successes[j] == s.work.successes[j] + (if move == Succeed then 1 else 0) &&
            f.rows[j].state == match move {
              case Start => State.Running
              case Succeed => State.Success
              case WriteRetry => State.Retry
              case WriteFailed => State.Failed
              case _ => s.rows[j].state
            }
  {
  }

  lemma WorkersChange(ws: seq<Option<Task>>, w: nat, t: Option<Task>, j: JobId)
    requires w < |ws|
    ensures var us := ws[w := t];
            Count(us, Front(j)) + Place(ws[w], j).0 == Count(ws, Front(j)) + Place(t, j).0 &&
            Count(us, Overshoot.Executing(j)) + Place(ws[w], j).1 ==
              Count(ws, Overshoot.Executing(j)) + Place(t, j).1 &&
            Count(us, Retrying(j)) + Place(ws[w], j).2 == Count(ws, Retrying(j)) + Place(t, j).2 &&
            Count(us, Burying(j)) + Place(ws[w], j).3 == Count(ws, Burying(j)) + Place(t, j).3
  {
    CountUpdate(ws, w, t, Front(j));
    CountUpdate(ws, w, t, Overshoot.Executing(j));
    CountUpdate(ws, w, t, Retrying(j));
    CountUpdate(ws, w, t, Burying(j));
  }

  lemma WorkMoves(cfg: Config, s: Sys, w: nat, c: Choice, j: JobId)
    requires Positioned(s.parts) && StepWorker(cfg, s, w, c).Some? && j in s.rows
    requires var m := s.workers[w].value.msg; m.id in s.rows && m.tier == cfg.workerTier[w] && HasHandler(m.typ)
    ensures Moves(cfg, s, WorkerCall(w, c), j)
  {
    var k := s.workers[w].value;
    WorkLogs(cfg, s, cfg.workerTier[w], k, c, j);
    WorkPlace(cfg, s, cfg.workerTier[w], k, c, j);
    WorkState(cfg, s, cfg.workerTier[w], k, c, j);
    WorkAdds(s, w, WorkCallEffect(cfg, s, cfg.workerTier[w], k, c).value, j);
  }

  lemma MembersCount(ws: seq<Option<Task>>, w: nat, j: JobId)
    requires w < |ws|
    ensures Place(ws[w], j).0 <= Count(ws, Front(j)) && Place(ws[w], j).1 <= Count(ws, Overshoot.Executing(j))
    ensures Place(ws[w], j).2 <= Count(ws, Retrying(j)) && Place(ws[w], j).3 <= Count(ws, Burying(j))
  {
    CountMember(ws, w, Front(j));
    CountMember(ws, w, Overshoot.Executing(j));
    CountMember(ws, w, Retrying(j));
    CountMember(ws, w, Burying(j));
  }

  /** The parts of a worker's step make up the move. */
  lemma WorkAdds(s: Sys, w: nat, f: WorkEffect, j: JobId)
    requires w < |s.workers| && s.workers[w].Some? && j in s.rows && j in f.rows
    requires var k := s.workers[w].value;
             var move := if k.msg.id == j then WorkMove(k) else Stay;
             Count(f.parts, OnMain(For(j))) == Count(s.parts, OnMain(For(j))) &&
             Count(f.parts, OnRetry(For(j))) == Count(s.parts, OnRetry(For(j))) + (if move == Resend then 1 else 0) &&
             Count(f.parts, OnDlq(For(j))) == Count(s.parts, OnDlq(For(j))) + (if move == Bury then 1 else 0) &&
             f.log.successes[j] == s.work.successes[j] + (if move == Succeed then 1 else 0) &&
             Place(f.task, j) == (if move == Stay then Place(Some(k), j) else PlaceAfter(move)) &&
             f.rows[j].state == match move {
               case Start => State.Running
               case Succeed => State.Success
               case WriteRetry => State.Retry
               case WriteFailed => State.Failed
               case _ => s.rows[j].state
             }
    ensures var move := if s.workers[w].value.msg.id == j then WorkMove(s.workers[w].value) else Stay;
            Can(Of(s, j), move) && Of(ApplyWork(s, w, f), j) == Do(Of(s, j), move)
  {
    var k := s.workers[w].value;
    WorkersChange(s.workers, w, f.task, j);
    MembersCount(s.workers, w, j);
    if k.msg.id == j { PlaceBefore(k, j); }
    var move := if k.msg.id == j then WorkMove(k) else Stay;
    Adds(Of(s, j), Of(ApplyWork(s, w, f), j), move, Place(Some(k), j), Place(f.task, j));
  }

  /** What a worker's move does to the counts. */
  lemma Adds(a: Life, b: Life, m: Move, before: (nat, nat, nat, nat), after: (nat, nat, nat, nat))
    requires before.0 <= a.front && before.1 <= a.exec && before.2 <= a.retrying && before.3 <= a.burying
    requires b.front == a.front - before.0 + after.0 && b.exec == a.exec - before.1 + after.1
    requires b.retrying == a.retrying - before.2 + after.2 && b.burying == a.burying - before.3 + after.3
    requires m in {Stay, Start, Succeed, Resend, WriteRetry, Bury, WriteFailed}
    requires m == Stay ==> after == before
    requires m == Start ==> before == (1, 0, 0, 0)
    requires m in {Succeed, Resend, Bury} ==> before == (0, 1, 0, 0)
    requires m == WriteRetry ==> before == (0, 0, 1, 0)
    requires m == WriteFailed ==> before == (0, 0, 0, 1)
    requires m != Stay ==> after == PlaceAfter(m)
    requires b.retry == a.retry + (if m == Resend then 1 else 0) && b.dead == a.dead + (if m == Bury then 1 else 0)
    requires b.succ == a.succ + (if m == Succeed then 1 else 0) && b.main == a.main && b.hauled == a.hauled
    requires b.announcing == a.announcing && b.queueing == a.queueing
    requires b.state == match m {
               case Start => State.Running
               case Succeed => State.Success
               case WriteRetry => State.Retry
               case WriteFailed => State.Failed
               case _ => a.state
             }
    ensures Can(a, m) && b == Do(a, m)
  {
  }

  // ----- fetches, routers, submissions -----

  lemma FetchPlaces(s: Sys, w: nat, p: nat, k: Task, j: JobId)
    requires Positioned(s.parts) && j in s.rows && w < |s.workers| && s.workers[w].None? && k.phase == Fetched
    requires p < |s.parts| && s.parts[p].topic.Main? && s.parts[p].pos < |s.parts[p].log|
    requires k.msg == s.parts[p].log[s.parts[p].pos]
    ensures var t := s.(parts := s.parts[p := s.parts[p].(pos := s.parts[p].pos + 1)],
      workers := s.workers[w := Some(k)]);
            var move := if k.msg.id == j then Move.Fetch else Stay;
            Can(Of(s, j), move) && Of(t, j) == Do(Of(s, j), move)
  {
    FetchKinds(s.parts, p, For(j));
    WorkersChange(s.workers, w, Some(k), j);
  }

  lemma FetchMoves(cfg: Config, s: Sys, w: nat, p: nat, j: JobId)
    requires Positioned(s.parts) && StepFetch(cfg, s, w, p).Some? && j in s.rows
    ensures Moves(cfg, s, Event.Fetch(w, p), j)
  {
    var q := s.parts[p];
    FetchPlaces(s, w, p, Task(Fetched, p, q.pos, q.log[q.pos], 0, 0, ""), j);
  }

  lemma PickMoves(cfg: Config, s: Sys, r: nat, p: nat, j: JobId)
    requires Positioned(s.parts) && StepPick(cfg, s, r, p).Some? && j in s.rows
    ensures Moves(cfg, s, Event.Pick(r, p), j)
  {
    var t := StepPick(cfg, s, r, p).value;
    FetchKinds(s.parts, p, For(j));
    CountUpdate(s.routers, r, t.routers[r], InRouter(For(j)));
  }

  lemma RouterPlaces(route: Route, s: Sys, r: nat, to: Topic, m: Message, j: JobId)
    requires Positioned(s.parts) && j in s.rows && r < |s.routers| && s.routers[r].Some? && !s.routers[r].value.sent
    requires to.Main? && Routed(route, s.parts, to, m.key) && m.id == s.routers[r].value.msg.id
    ensures var t := s.(parts := Append(route, s.parts, to, m),
      routers := s.routers[r := Some(s.routers[r].value.(sent := true))]);
            var move := if m.id == j then Forward else Stay;
            Can(Of(s, j), move) && Of(t, j) == Do(Of(s, j), move)
  {
    var h := s.routers[r].value;
    CountUpdate(s.routers, r, Some(h.(sent := true)), InRouter(For(j)));
    CountMember(s.routers, r, InRouter(For(j)));
    AppendKinds(route, s.parts, to, m, For(j));
  }

  lemma RouterMoves(cfg: Config, s: Sys, r: nat, c: Choice, j: JobId)
    requires Positioned(s.parts) && StepRouter(cfg, s, r, c).Some? && j in s.rows
    ensures Moves(cfg, s, RouterCall(r, c), j)
  {
    var h := s.routers[r].value;
    if h.sent {
      CountUpdate(s.routers, r, None, InRouter(For(j)));
      CommitKinds(s.parts, h.part, h.off, For(j));
    } else {
      RouterPlaces(cfg.route, s, r, Main(cfg.routerTier[r]), h.msg.(headers := c.headers), j);
    }
  }

  lemma SubsChange(subs: seq<Sub>, i: nat, b: Sub, j: JobId)
    requires i < |subs|
    ensures var after := subs[i := b];
            Count(after, Idempotency.Unpublished(j)) + Idempotency.Unpublished(j)(subs[i]) ==
              Count(subs, Idempotency.Unpublished(j)) + Idempotency.Unpublished(j)(b) &&
            Count(after, Queueing(j)) + Queueing(j)(subs[i]) == Count(subs, Queueing(j)) + Queueing(j)(b)
    ensures Idempotency.Unpublished(j)(subs[i]) <= Count(subs, Idempotency.Unpublished(j))
    ensures Queueing(j)(subs[i]) <= Count(subs, Queueing(j))
  {
    CountUpdate(subs, i, b, Idempotency.Unpublished(j));
    CountUpdate(subs, i, b, Queueing(j));
    CountMember(subs, i, Idempotency.Unpublished(j));
    CountMember(subs, i, Queueing(j));
  }

  lemma PublishMoves(cfg: Config, s: Sys, i: nat, c: Choice, j: JobId)
    requires Positioned(s.parts) && StepSub(cfg, s, i, c).Some? && j in s.rows && s.subs[i].stage == Inserted
    ensures Moves(cfg, s, SubCall(i, c), j)
  {
    var b := s.subs[i];
    var r := s.rows[b.id];
    SubsChange(s.subs, i, b.(stage := Published), j);
    AppendKinds(cfg.route, s.parts, Main(r.tier), MessageFor(b.id, r, c.headers), For(j));
  }

  lemma QuietSubMoves(cfg: Config, s: Sys, i: nat, c: Choice, j: JobId)
    requires Positioned(s.parts) && StepSub(cfg, s, i, c).Some? && j in s.rows && s.subs[i].stage != Inserted
    ensures Moves(cfg, s, SubCall(i, c), j)
  {
    var f := SubCallEffect(cfg, s, s.subs[i], c).value;
    SubPublishesNothing(cfg, s, s.subs[i], c);
    SubStage(cfg, s, s.subs[i], c);
    SubsChange(s.subs, i, f.sub, j);
    assert Of(StepSub(cfg, s, i, c).value, j) == Of(s, j).(
        state := f.rows[j].state, announcing := Count(s.subs[i := f.sub], Idempotency.Unpublished(j)),
        queueing := Count(s.subs[i := f.sub], Queueing(j)));
  }

  lemma SubMoves(cfg: Config, s: Sys, i: nat, c: Choice, j: JobId)
    requires Positioned(s.parts) && StepSub(cfg, s, i, c).Some? && j in s.rows
    ensures Moves(cfg, s, SubCall(i, c), j)
  {
    if s.subs[i].stage == Inserted { PublishMoves(cfg, s, i, c, j); } else { QuietSubMoves(cfg, s, i, c, j); }
  }

  /** The other calls of a submission: they write QUEUED, insert a new row, or nothing. */
  lemma SubStage(cfg: Config, s: Sys, b: Sub, c: Choice)
    requires SubCallEffect(cfg, s, b, c).Some? && b.stage != Inserted
    ensures var f := SubCallEffect(cfg, s, b, c).value;
            f.sub.stage != Published && (f.sub.stage == Inserted ==> f.sub.id !in s.rows) &&
            forall j :: j in s.rows ==>
              j in f.rows && f.rows[j].state == if b.stage == Published && b.id == j then Queued else s.rows[j].state
  {
  }

  lemma QuietMoves(cfg: Config, s: Sys, e: Event, j: JobId)
    requires (e.Tick? || e.Arrive? || e.Beat?) && Next(cfg, s, e).Some? && j in s.rows
    ensures Moves(cfg, s, e, j)
  {
    if e.Arrive? {
      CountSnoc(s.subs, Arrival(e.req, e.api), Idempotency.Unpublished(j));
      CountSnoc(s.subs, Arrival(e.req, e.api), Queueing(j));
    }
  }

  lemma EventMoves(cfg: Config, s: Sys, e: Event, j: JobId)
    requires Overshoot.Base(cfg, s) && e.IsPlain() && Next(cfg, s, e).Some? && j in s.rows
    ensures Moves(cfg, s, e, j)
  {
    if e.WorkerCall? {
      assert Routing.TaskOk(cfg, s.rows, e.i, s.workers[e.i]);
      RegistryIsTotalOnValid(s.workers[e.i].value.msg.typ);
      WorkMoves(cfg, s, e.i, e.c, j);
    }
    else if e.Fetch? { FetchMoves(cfg, s, e.i, e.p, j); }
    else if e.Pick? { PickMoves(cfg, s, e.i, e.p, j); }
    else if e.RouterCall? { RouterMoves(cfg, s, e.i, e.c, j); }
    else if e.SubCall? { SubMoves(cfg, s, e.i, e.c, j); }
    else { QuietMoves(cfg, s, e, j); }
  }

  // ----- birth -----

  lemma Unknown(cfg: Config, s: Sys, j: JobId)
    requires Overshoot.Base(cfg, s) && j !in s.rows
    ensures Count(s.subs, Idempotency.Unpublished(j)) == Count(s.subs, Queueing(j)) == 0
    ensures Count(s.workers, Front(j)) == Count(s.workers, Overshoot.Executing(j)) == 0
    ensures Count(s.workers, Retrying(j)) == Count(s.workers, Burying(j)) == 0
    ensures Count(s.parts, OnMain(For(j))) == Count(s.parts, OnRetry(For(j))) == Count(s.parts, OnDlq(For(j))) == 0
    ensures Count(s.routers, InRouter(For(j))) == 0 && s.work.successes[j] == 0
  {
    assert Idempotency.OnePublish(s, j);
    Overshoot.HeldAtMostOne(cfg, s, j);
    SplitLogs(s.parts, For(j));
    forall w | 0 <= w < |s.workers| ensures s.workers[w].Some? ==> s.workers[w].value.msg.id != j {
      assert Routing.TaskOk(cfg, s.rows, w, s.workers[w]);
    }
    CountZero(s.workers, Front(j));
    CountZero(s.workers, Overshoot.Executing(j));
    CountZero(s.workers, Retrying(j));
    CountZero(s.workers, Burying(j));
    forall i | 0 <= i < |s.subs| ensures Queueing(j)(s.subs[i]) == 0 {
      assert Routing.SubOk(s.rows, s.subs[i]);
    }
    CountZero(s.subs, Queueing(j));
  }

  /** Only an INSERT adds a job. */
  lemma OnlyInsertsAdd(cfg: Config, s: Sys, e: Event, j: JobId)
    requires e.IsPlain() && Next(cfg, s, e).Some? && j !in s.rows && j in Next(cfg, s, e).value.rows
    ensures e.SubCall? && s.subs[e.i].stage == Inserting
  {
    if !IsSub(e) { NotSub(cfg, s, e); }
  }

  lemma InsertIsBirth(cfg: Config, s: Sys, b: Sub, c: Choice, j: JobId)
    requires SubCallEffect(cfg, s, b, c).Some? && b.stage == Inserting && j !in s.rows
    requires j in SubCallEffect(cfg, s, b, c).value.rows
    ensures var f := SubCallEffect(cfg, s, b, c).value;
            f.rows[j].state == Accepted && f.sub.stage == Inserted && f.sub.id == j && f.parts == s.parts
  {
  }

  /** A job enters the table announced and nothing more. */
  lemma BirthIsBorn(cfg: Config, s: Sys, e: Event, j: JobId)
    requires Overshoot.Base(cfg, s) && e.IsPlain() && Next(cfg, s, e).Some? && j !in s.rows
    requires j in Next(cfg, s, e).value.rows
    ensures Of(Next(cfg, s, e).value, j) == Born()
  {
    OnlyInsertsAdd(cfg, s, e, j);
    Unknown(cfg, s, j);
    InsertIsBirth(cfg, s, s.subs[e.i], e.c, j);
    SubsChange(s.subs, e.i, SubCallEffect(cfg, s, s.subs[e.i], e.c).value.sub, j);
  }

  // ----- whole runs -----

  function ViewOf(s: Sys, j: JobId): State
    requires j in s.rows
  {
    View(Of(s, j))
  }

  /** Every step of the run, seen through the view, is a stutter or an edge of the table. */
  ghost predicate Obeys(cfg: Config, s: Sys, es: seq<Event>, j: JobId)
    decreases |es|
  {
    es != [] && Next(cfg, s, es[0]).Some? ==>
      var t := Next(cfg, s, es[0]).value;
      (j in s.rows ==> j in t.rows && Edge(ViewOf(s, j), ViewOf(t, j))) && Obeys(cfg, t, es[1..], j)
  }

  /** Every write of the run finds the row as its guard says. */
  ghost predicate Guarded(cfg: Config, s: Sys, es: seq<Event>, j: JobId)
    decreases |es|
  {
    es != [] && Next(cfg, s, es[0]).Some? ==>
      (j in s.rows ==> Guard(Of(s, j), MoveOf(s, es[0], j))) && Guarded(cfg, Next(cfg, s, es[0]).value, es[1..], j)
  }

  /** Every late write of the run comes in time. */
  ghost predicate AllTimely(cfg: Config, s: Sys, es: seq<Event>, j: JobId)
    decreases |es|
  {
    es != [] && Next(cfg, s, es[0]).Some? ==>
      (j in s.rows ==> Timely(Of(s, j), MoveOf(s, es[0], j))) && AllTimely(cfg, Next(cfg, s, es[0]).value, es[1..], j)
  }

  /** At no moment of the run have two processes something left to do for the job. */
  ghost predicate AlwaysSolo(cfg: Config, s: Sys, es: seq<Event>, j: JobId)
    decreases |es|
  {
    (j in s.rows ==> Solo(Of(s, j))) &&
    (es != [] && Next(cfg, s, es[0]).Some? ==> AlwaysSolo(cfg, Next(cfg, s, es[0]).value, es[1..], j))
  }

  ghost predicate SaneIn(s: Sys, j: JobId) {
    j in s.rows ==> Sane(Of(s, j))
  }

  ghost predicate FitsIn(s: Sys, j: JobId) {
    j in s.rows ==> Sane(Of(s, j)) && Fits(Of(s, j))
  }

  lemma {:induction false} RunObeysIff(cfg: Config, s: Sys, es: seq<Event>, t: Sys, j: JobId)
    requires Overshoot.Base(cfg, s) && SaneIn(s, j) && Plain(es) && Run(cfg, s, es, t)
    ensures Obeys(cfg, s, es, j) <==> Guarded(cfg, s, es, j)
    ensures Overshoot.Base(cfg, t) && SaneIn(t, j)
    decreases |es|
  {
    if es != [] {
      var u := Next(cfg, s, es[0]).value;
      assert es[0].IsPlain();
      if j in s.rows {
        EventMoves(cfg, s, es[0], j);
        MoveObeysIffGuarded(Of(s, j), MoveOf(s, es[0], j));
      } else if j in u.rows {
        BirthIsBorn(cfg, s, es[0], j);
      }
      Overshoot.BaseNext(cfg, s, es[0]);
      RunObeysIff(cfg, u, es[1..], t, j);
    }
  }

  lemma {:induction false} TimelyRun(cfg: Config, s: Sys, es: seq<Event>, t: Sys, j: JobId)
    requires Overshoot.Base(cfg, s) && FitsIn(s, j) && Plain(es) && Run(cfg, s, es, t) && AllTimely(cfg, s, es, j)
    ensures Guarded(cfg, s, es, j) && FitsIn(t, j)
    decreases |es|
  {
    if es != [] {
      var u := Next(cfg, s, es[0]).value;
      assert es[0].IsPlain();
      if j in s.rows {
        EventMoves(cfg, s, es[0], j);
        TimelyIsGuarded(Of(s, j), MoveOf(s, es[0], j));
        MoveObeysIffGuarded(Of(s, j), MoveOf(s, es[0], j));
      } else if j in u.rows {
        BirthIsBorn(cfg, s, es[0], j);
      }
      Overshoot.BaseNext(cfg, s, es[0]);
      TimelyRun(cfg, u, es[1..], t, j);
    }
  }

  lemma {:induction false} SoloRun(cfg: Config, s: Sys, es: seq<Event>, t: Sys, j: JobId)
    requires Overshoot.Base(cfg, s) && FitsIn(s, j) && (j in s.rows ==> Alone(Of(s, j)))
    requires Plain(es) && Run(cfg, s, es, t) && AlwaysSolo(cfg, s, es, j)
    ensures AllTimely(cfg, s, es, j)
    decreases |es|
  {
    if es != [] {
      var u := Next(cfg, s, es[0]).value;
      assert es[0].IsPlain();
      assert AlwaysSolo(cfg, u, es[1..], j);
      if j in s.rows {
        EventMoves(cfg, s, es[0], j);
        SoloIsTimely(Of(s, j), MoveOf(s, es[0], j));
        TimelyIsGuarded(Of(s, j), MoveOf(s, es[0], j));
        MoveObeysIffGuarded(Of(s, j), MoveOf(s, es[0], j));
      } else if j in u.rows {
        BirthIsBorn(cfg, s, es[0], j);
      }
      Overshoot.BaseNext(cfg, s, es[0]);
      SoloRun(cfg, u, es[1..], t, j);
    }
  }

  // ----- the theorems -----

  /** A job obeys the table throughout a run exactly when each of its writes finds the row as its guard says. */
  lemma ObeysIffGuarded(cfg: Config, s: Sys, es: seq<Event>, t: Sys, j: JobId)
    requires Init(s) && Plain(es) && Run(cfg, s, es, t)
    ensures Obeys(cfg, s, es, j) <==> Guarded(cfg, s, es, j)
  {
    Overshoot.InitInv(cfg, s);
    RunObeysIff(cfg, s, es, t, j);
  }

  /** A step of a reachable state obeys the table exactly when its guard holds. */
  lemma StepObeysIff(cfg: Config, s0: Sys, es: seq<Event>, s: Sys, e: Event, j: JobId)
    requires Init(s0) && Plain(es) && Run(cfg, s0, es, s) && e.IsPlain() && Next(cfg, s, e).Some? && j in s.rows
    ensures j in Next(cfg, s, e).value.rows
    ensures Edge(ViewOf(s, j), ViewOf(Next(cfg, s, e).value, j)) <==> Guard(Of(s, j), MoveOf(s, e, j))
  {
    Overshoot.InitInv(cfg, s0);
    RunObeysIff(cfg, s0, es, s, j);
    EventMoves(cfg, s, e, j);
    MoveObeysIffGuarded(Of(s, j), MoveOf(s, e, j));
  }

  /** A submission's late QUEUED obeys the table if and only if it finds ACCEPTED, QUEUED or RETRY. */
  lemma QueuedWriteObeysIff(cfg: Config, s0: Sys, es: seq<Event>, s: Sys, i: nat, c: Choice, j: JobId)
    requires Init(s0) && Plain(es) && Run(cfg, s0, es, s) && StepSub(cfg, s, i, c).Some?
    requires s.subs[i].stage == Published && s.subs[i].id == j
    ensures j in s.rows && j in StepSub(cfg, s, i, c).value.rows
    ensures Edge(ViewOf(s, j), ViewOf(StepSub(cfg, s, i, c).value, j)) <==>
            s.rows[j].state in {Accepted, Queued, State.Retry}
  {
    StepObeysIff(cfg, s0, es, s, SubCall(i, c), j);
  }

  /**
   A worker's late RETRY obeys the table if and only if it finds RUNNING or RETRY; or, with the retry already back on
   the main topic, ACCEPTED, QUEUED or RETRY.
   */
  lemma RetryWriteObeysIff(cfg: Config, s0: Sys, es: seq<Event>, s: Sys, w: nat, c: Choice, j: JobId)
    requires Init(s0) && Plain(es) && Run(cfg, s0, es, s) && StepWorker(cfg, s, w, c).Some? && j in s.rows
    requires s.workers[w].value.phase == RetrySent && s.workers[w].value.msg.id == j
    ensures j in StepWorker(cfg, s, w, c).value.rows
    ensures Edge(ViewOf(s, j), ViewOf(StepWorker(cfg, s, w, c).value, j)) <==>
            if AtMain(Of(s, j)) then s.rows[j].state in {Accepted, Queued, State.Retry}
            else s.rows[j].state in {State.Running, State.Retry}
  {
    assert MoveOf(s, WorkerCall(w, c), j) == WriteRetry;
    StepObeysIff(cfg, s0, es, s, WorkerCall(w, c), j);
  }

  /**
   With every late QUEUED and RETRY in time the job obeys the table; and whenever nobody has anything left to do
   for it, its state says where its message lies.
   */
  lemma JobsObeyTheTable(cfg: Config, s: Sys, es: seq<Event>, t: Sys, j: JobId)
    requires Init(s) && Plain(es) && Run(cfg, s, es, t) && AllTimely(cfg, s, es, j)
    ensures Obeys(cfg, s, es, j)
    ensures j in t.rows && Idle(Of(t, j)) ==> Settled(Of(t, j))
  {
    Overshoot.InitInv(cfg, s);
    TimelyRun(cfg, s, es, t, j);
    ObeysIffGuarded(cfg, s, es, t, j);
  }

  /** One process at a time on the job is enough for that. */
  lemma SoloJobsObeyTheTable(cfg: Config, s: Sys, es: seq<Event>, t: Sys, j: JobId)
    requires Init(s) && Plain(es) && Run(cfg, s, es, t) && AlwaysSolo(cfg, s, es, j)
    ensures AllTimely(cfg, s, es, j) && Obeys(cfg, s, es, j)
    ensures j in t.rows && Idle(Of(t, j)) ==> Settled(Of(t, j))
  {
    Overshoot.InitInv(cfg, s);
    SoloRun(cfg, s, es, t, j);
    JobsObeyTheTable(cfg, s, es, t, j);
  }

  lemma {:induction false} StaysTerminal(cfg: Config, s: Sys, es: seq<Event>, t: Sys, j: JobId)
    requires Run(cfg, s, es, t) && Obeys(cfg, s, es, j) && j in s.rows && IsTerminal(ViewOf(s, j))
    ensures j in t.rows && ViewOf(t, j) == ViewOf(s, j)
    decreases |es|
  {
    if es != [] {
      StaysTerminal(cfg, Next(cfg, s, es[0]).value, es[1..], t, j);
    }
  }

  /** Where a run has brought a job to SUCCESS or FAILED, no continuation whose writes meet their guards leaves it. */
  lemma TerminalIsFinal(cfg: Config, s: Sys, es: seq<Event>, m: Sys, fs: seq<Event>, t: Sys, j: JobId)
    requires Init(s) && Plain(es) && Run(cfg, s, es, m) && Plain(fs) && Run(cfg, m, fs, t)
    requires j in m.rows && IsTerminal(ViewOf(m, j)) && Guarded(cfg, m, fs, j)
    ensures j in t.rows && ViewOf(t, j) == ViewOf(m, j)
  {
    Overshoot.InitInv(cfg, s);
    RunObeysIff(cfg, s, es, m, j);
    RunObeysIff(cfg, m, fs, t, j);
    StaysTerminal(cfg, m, fs, t, j);
  }

  /** The event writes QUEUED after the job's publish, or RETRY after a retry publish of it. */
  predicate LateWrite(s: Sys, e: Event, j: JobId) {
    match e
    case SubCall(i, _) => i < |s.subs| && s.subs[i].stage == Published && s.subs[i].id == j
    case WorkerCall(w, _) =>
      w < |s.workers| && s.workers[w].Some? && s.workers[w].value.phase == RetrySent && s.workers[w].value.msg.id == j
    case _ => false
  }

  ghost predicate NoLateWrites(cfg: Config, s: Sys, es: seq<Event>, j: JobId)
    decreases |es|
  {
    es != [] && Next(cfg, s, es[0]).Some? ==>
      !LateWrite(s, es[0], j) && NoLateWrites(cfg, Next(cfg, s, es[0]).value, es[1..], j)
  }

  /** At every moment of the run the job's row reads `st`. */
  ghost predicate Reads(cfg: Config, s: Sys, es: seq<Event>, j: JobId, st: State)
    decreases |es|
  {
    j in s.rows && s.rows[j].state == st &&
    (es != [] && Next(cfg, s, es[0]).Some? ==> Reads(cfg, Next(cfg, s, es[0]).value, es[1..], j, st))
  }

  lemma LateIsMove(s: Sys, e: Event, j: JobId)
    ensures MoveOf(s, e, j) in {WriteQueued, WriteRetry} <==> LateWrite(s, e, j)
  {
  }

  lemma TerminalStep(cfg: Config, s: Sys, e: Event, j: JobId)
    requires Overshoot.Base(cfg, s) && SaneIn(s, j) && e.IsPlain() && Next(cfg, s, e).Some?
    requires j in s.rows && IsTerminal(s.rows[j].state)
    ensures var t := Next(cfg, s, e).value;
            j in t.rows && SaneIn(t, j) && (t.rows[j].state == s.rows[j].state <==> !LateWrite(s, e, j))
  {
    EventMoves(cfg, s, e, j);
    MoveObeysIffGuarded(Of(s, j), MoveOf(s, e, j));
    ReopensIffLate(Of(s, j), MoveOf(s, e, j));
    LateIsMove(s, e, j);
  }

  lemma {:induction false} TerminalReads(cfg: Config, s: Sys, es: seq<Event>, t: Sys, j: JobId)
    requires Overshoot.Base(cfg, s) && SaneIn(s, j) && Plain(es) && Run(cfg, s, es, t)
    requires j in s.rows && IsTerminal(s.rows[j].state)
    ensures Reads(cfg, s, es, j, s.rows[j].state) <==> NoLateWrites(cfg, s, es, j)
    decreases |es|
  {
    if es != [] {
      var u := Next(cfg, s, es[0]).value;
      assert es[0].IsPlain();
      TerminalStep(cfg, s, es[0], j);
      Overshoot.BaseNext(cfg, s, es[0]);
      if u.rows[j].state == s.rows[j].state { TerminalReads(cfg, u, es[1..], t, j); }
    }
  }

  /**
   Once a run has brought a job to SUCCESS or FAILED, its row goes on reading so throughout a continuation if and only
   if the continuation has no late QUEUED and no late RETRY for the job.
   */
  lemma TerminalStaysIff(cfg: Config, s: Sys, es: seq<Event>, m: Sys, fs: seq<Event>, t: Sys, j: JobId)
    requires Init(s) && Plain(es) && Run(cfg, s, es, m) && Plain(fs) && Run(cfg, m, fs, t)
    requires j in m.rows && IsTerminal(m.rows[j].state)
    ensures Reads(cfg, m, fs, j, m.rows[j].state) <==> NoLateWrites(cfg, m, fs, j)
  {
    Overshoot.InitInv(cfg, s);
    RunObeysIff(cfg, s, es, m, j);
    TerminalReads(cfg, m, fs, t, j);
  }

  /** A job that lies still, with nobody left to write, keeps its row's state in every run. */
  lemma {:induction false} StillStays(cfg: Config, s: Sys, es: seq<Event>, t: Sys, j: JobId)
    requires Overshoot.Base(cfg, s) && Plain(es) && Run(cfg, s, es, t)
    requires j in s.rows && Idle(Of(s, j)) && Of(s, j).main + Of(s, j).retry == 0
    ensures j in t.rows && Of(t, j) == Of(s, j)
    decreases |es|
  {
    if es != [] {
      assert es[0].IsPlain();
      EventMoves(cfg, s, es[0], j);
      NothingMoves(Of(s, j), MoveOf(s, es[0], j));
      Overshoot.BaseNext(cfg, s, es[0]);
      StillStays(cfg, Next(cfg, s, es[0]).value, es[1..], t, j);
    }
  }
}

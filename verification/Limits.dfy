/**
 The two late writes, and what they can do. A submission writes QUEUED after its publish; a worker writes RETRY
 after its retry publish. The first can hide a success in every deployment, the second exactly where the
 partitions of the job's device and of its id have different owners. Either way the row stays wrong.
 */
module Limits {
  import opened Prelude
  import opened Jobs
  import opened Store
  import opened Broker
  import opened Protocol
  import opened Atomic
  import opened Course
  import opened Lifecycle
  import opened Tightness
  import Serial
  import Overshoot
  import Routing
  import Idempotency
  import Tokens

  /** A plain run after which the job has succeeded, nobody has anything left to do for it, and its row reads `st`. */
  ghost predicate Overwritten(cfg: Config, s: Sys, x: Subject, es: seq<Event>, t: Sys, st: State) {
    Plain(es) && Run(cfg, s, es, t) && x.id in t.rows && t.rows[x.id].typ == x.typ && t.rows[x.id].device == x.device &&
    t.work.successes[x.id] > 0 && t.rows[x.id].state == st && Idle(Of(t, x.id))
  }

  lemma NobodyIsIdle(t: Sys, j: JobId)
    requires j in t.rows && (forall w :: 0 <= w < |t.workers| ==> t.workers[w].None?)
    requires (forall r :: 0 <= r < |t.routers| ==> t.routers[r].None?)
    requires forall i :: 0 <= i < |t.subs| ==> t.subs[i].stage == Closed
    ensures Idle(Of(t, j))
  {
    CountZero(t.subs, Idempotency.Unpublished(j));
    CountZero(t.subs, Queueing(j));
    CountZero(t.workers, Front(j));
    CountZero(t.workers, Overshoot.Executing(j));
    CountZero(t.workers, Retrying(j));
    CountZero(t.workers, Burying(j));
    CountZero(t.routers, Tokens.InRouter(For(j)));
  }

  /** The row stays as it is in every plain continuation. */
  lemma OverwrittenForGood(cfg: Config, s: Sys, x: Subject, es: seq<Event>, t: Sys, st: State, fs: seq<Event>, v: Sys)
    requires Init(s) && Overwritten(cfg, s, x, es, t, st) && Plain(fs) && Run(cfg, t, fs, v)
    ensures x.id in v.rows && v.rows[x.id].state == st
  {
    Overshoot.InitInv(cfg, s);
    RunObeysIff(cfg, s, es, t, x.id);
    StillStays(cfg, t, fs, v, x.id);
  }

  // ----- QUEUED -----

  /** A request through the API that has published and not yet written QUEUED. */
  lemma PublishedOnly(cfg: Config, u: Serial.Setup, x: Subject, s: Sys) returns (t: Sys, pl: Serial.Plant)
    requires Deployment(cfg, u, x, s)
    ensures Reaches(cfg, s, t) && Shows(cfg, u, t, pl) && Staffed(cfg, t) && Wired(u.route, pl.parts)
    ensures t.subs == [Sub(Request(x.typ, x.device, KEY, ""), true, Published, x.id)] && t.subm.subPubs[x.id] > 0
    ensures t.work == s.work && OnlyMessage(t, x, First(u, x))
    ensures x.id in pl.rows && pl.rows[x.id].tier == x.tier && pl.rows[x.id].typ == x.typ
    ensures pl.rows[x.id].device == x.device
  {
    var start := PlantOf(s);
    var q := Request(x.typ, x.device, KEY, "");
    assert CanInsert(start.rows, start.devices.Keys, q, x.id);
    var a := ApiInsertCalls(cfg, u, s, start, q, x.id);
    var inserted := start.(rows := start.rows[x.id := NewRow(q, x.tier)]);
    assert Routed(u.route, s.parts, Main(x.tier), x.device);
    t := AppendCall(cfg, u, a, inserted, 0, []);
    Join(cfg, s, a, t);
    pl := inserted.(parts := t.parts);
    StillStaffed(cfg, s, t);
    StillWired(u, s.parts, t.parts);
  }

  /** The only message in the system is the job's, unread on partition `p`. */
  predicate OnlyMessage(s: Sys, x: Subject, p: nat) {
    p < |s.parts| && |s.parts[p].log| == 1 && s.parts[p].pos == 0 && s.parts[p].committed == 0 &&
    s.parts[p].topic == Main(x.tier) &&
    (forall q :: 0 <= q < |s.parts| && q != p ==> s.parts[q].log == [] && s.parts[q].committed == 0) &&
    var m := s.parts[p].log[0];
    m.id == x.id && m.typ == x.typ && m.tier == x.tier && m.device == x.device
  }

  /**
   In every deployment and for every job there is a plain run after which the job has succeeded and its row reads
   QUEUED: the worker finished between the submission's publish and its state write.
   */
  lemma LateQueuedHidesSuccess(cfg: Config, u: Serial.Setup, x: Subject, s: Sys) returns (es: seq<Event>, t: Sys)
    requires Deployment(cfg, u, x, s)
    ensures Overwritten(cfg, s, x, es, t, Queued)
  {
    var a, pl := PublishedOnly(cfg, u, x, s);
    var p := First(u, x);
    RegistryIsTotalOnValid(x.typ);
    assert Assigned(cfg, a.parts[p]);
    var b, done := SucceedTurn(cfg, u, a, pl, a.parts[p].owner, p);
    Join(cfg, s, a, b);
    t := QueueCall(cfg, u, b, done, 0);
    Join(cfg, s, b, t);
    NobodyIsIdle(t, x.id);
    es :| PlainRun(cfg, s, es, t);
  }

  // ----- RETRY -----

  /** The other worker succeeds with the retry while the first has yet to write RETRY. */
  lemma OvertakenRetry(cfg: Config, u: Serial.Setup, x: Subject, s: Sys)
    returns (t: Sys, pl: Serial.Plant, w: nat, k: Task)
    requires TwoOwners(cfg, u, x, s)
    ensures Reaches(cfg, s, t) && Shows(cfg, u, t, pl) && t.work.successes[x.id] > 0
    ensures w < |s.workers| && w < |cfg.workerTier| && cfg.workerTier[w] == x.tier
    ensures t.workers == s.workers[w := Some(k)]
    ensures t.routers == s.routers && Stalled(x, k) && k.part < |pl.parts|
    ensures forall i :: 0 <= i < |t.subs| ==> t.subs[i].stage == Closed
    ensures x.id in pl.rows && pl.rows[x.id].typ == x.typ && pl.rows[x.id].device == x.device
  {
    var a, stalled;
    a, stalled, w, k := StalledRetry(cfg, u, x, s);
    ForwardShape(u, x, stalled, 0);
    ForwardStays(u, stalled, Waiting(u, x), []);
    var b := ForwardIsCalls(cfg, u, a, stalled, stalled.parts[Waiting(u, x)].owner, Waiting(u, x), []);
    Join(cfg, s, a, b);
    var mid := Serial.Forward(u, stalled, Waiting(u, x), []);
    RegistryIsTotalOnValid(x.typ);
    t, pl := SucceedTurn(cfg, u, b, mid, mid.parts[Second(u, x)].owner, Second(u, x));
    Join(cfg, s, b, t);
  }

  /** The first worker writes RETRY, counts the attempt and commits. */
  lemma RetryLands(cfg: Config, u: Serial.Setup, s: Sys, pl: Serial.Plant, w: nat, k: Task) returns (t: Sys)
    requires Shows(cfg, u, s, pl) && Holds(cfg, s, w, k) && k.phase == RetrySent && k.msg.id in pl.rows
    requires k.part < |pl.parts|
    ensures Reaches(cfg, s, t) && WorkerMovesOn(s, w, None, t) && SameSubmissions(s, t)
    ensures t.work.successes == s.work.successes
    ensures k.msg.id in t.rows && t.rows[k.msg.id].state == State.Retry && SameJob(pl.rows[k.msg.id], t.rows[k.msg.id])
  {
    var b := ChargeCalls(cfg, u, s, pl, w, k);
    var charged := Serial.BumpAttempts(Serial.SetState(pl, k.msg.id, State.Retry, Some(k.err)), k.msg.id);
    t := CommitCalls(cfg, u, b, charged, w, k.(phase := Done));
    Join(cfg, s, b, t);
  }

  lemma RetryOverwrites(cfg: Config, u: Serial.Setup, x: Subject, s: Sys) returns (es: seq<Event>, t: Sys)
    requires TwoOwners(cfg, u, x, s)
    ensures Overwritten(cfg, s, x, es, t, State.Retry)
  {
    var a, pl, w, k := OvertakenRetry(cfg, u, x, s);
    t := RetryLands(cfg, u, a, pl, w, k);
    Join(cfg, s, a, t);
    NobodyIsIdle(t, x.id);
    es :| PlainRun(cfg, s, es, t);
  }

  predicate HoldsJob(t: Option<Task>, j: JobId) {
    t.Some? && t.value.msg.id == j
  }

  lemma OneHolderCounts(ws: seq<Option<Task>>, j: JobId)
    requires forall v, w :: 0 <= v < |ws| && 0 <= w < |ws| && HoldsJob(ws[v], j) && HoldsJob(ws[w], j) ==> v == w
    ensures Count(ws, Front(j)) + Count(ws, Overshoot.Executing(j)) + Count(ws, Retrying(j)) + Count(ws, Burying(j))
    <= 1
  {
    var w := if exists v :: 0 <= v < |ws| && HoldsJob(ws[v], j) then
      var v :| 0 <= v < |ws| && HoldsJob(ws[v], j); v else |ws|;
    var us := if w < |ws| then ws[w := None] else ws;
    CountZero(us, Front(j));
    CountZero(us, Overshoot.Executing(j));
    CountZero(us, Retrying(j));
    CountZero(us, Burying(j));
    if w < |ws| { WorkersChange(ws, w, None, j); }
  }

  lemma NoSlackOneHolder(cfg: Config, s: Sys, j: JobId)
    requires Overshoot.Base(cfg, s) && Overshoot.Inv(cfg, s) && j in s.rows && Overshoot.Slack(cfg, s, j) == 0
    ensures OneHolder(Of(s, j))
  {
    forall v, w | 0 <= v < |s.workers| && 0 <= w < |s.workers| && HoldsJob(s.workers[v], j) && HoldsJob(s.workers[w], j)
      ensures v == w
    {
      Overshoot.NoSlackNoOther(cfg, s, w, v, j);
    }
    OneHolderCounts(s.workers, j);
  }

  lemma {:induction false} SlackKept(cfg: Config, s: Sys, es: seq<Event>, t: Sys, j: JobId)
    requires Plain(es) && Run(cfg, s, es, t) && j in s.rows
    ensures j in t.rows && Overshoot.Slack(cfg, t, j) == Overshoot.Slack(cfg, s, j)
    decreases |es|
  {
    if es != [] {
      assert es[0].IsPlain();
      var m := Next(cfg, s, es[0]).value;
      PlainOwners(cfg, s, es[0]);
      Routing.NextGrows(cfg, s, es[0]);
      Overshoot.SlackFixed(cfg, s, m, j);
      SlackKept(cfg, m, es[1..], t, j);
    }
  }

  lemma {:induction false} OneOwnerHidesNothing(cfg: Config, s: Sys, es: seq<Event>, t: Sys, j: JobId)
    requires Overshoot.Base(cfg, s) && Overshoot.Inv(cfg, s) && SaneIn(s, j) && (j in s.rows ==> NotHidden(Of(s, j)))
    requires Plain(es) && Run(cfg, s, es, t) && j in t.rows && Overshoot.Slack(cfg, t, j) == 0
    ensures NotHidden(Of(t, j))
    decreases |es|
  {
    if es != [] {
      assert es[0].IsPlain();
      var m := Next(cfg, s, es[0]).value;
      if j in s.rows {
        SlackKept(cfg, s, es, t, j);
        NoSlackOneHolder(cfg, s, j);
        EventMoves(cfg, s, es[0], j);
        OneHolderHidesNothing(Of(s, j), MoveOf(s, es[0], j));
        MoveObeysIffGuarded(Of(s, j), MoveOf(s, es[0], j));
      } else if j in m.rows {
        BirthIsBorn(cfg, s, es[0], j);
      }
      Overshoot.InvNext(cfg, s, es[0]);
      Overshoot.BaseNext(cfg, s, es[0]);
      OneOwnerHidesNothing(cfg, m, es[1..], t, j);
    }
  }

  lemma HidingNeedsTwoOwners(cfg: Config, u: Serial.Setup, x: Subject, s: Sys, es: seq<Event>, t: Sys)
    requires Deployment(cfg, u, x, s) && Overwritten(cfg, s, x, es, t, State.Retry)
    ensures TwoOwners(cfg, u, x, s)
  {
    assert Routed(u.route, s.parts, Main(x.tier), x.device) && Routed(u.route, s.parts, Main(x.tier), x.id);
    HiddenMeansSlack(cfg, s, es, t, x.id);
    PlainRunOwners(cfg, s, es, t);
    Overshoot.InitInv(cfg, s);
    Routing.InvRun(cfg, s, es, t);
  }

  lemma HiddenMeansSlack(cfg: Config, s: Sys, es: seq<Event>, t: Sys, j: JobId)
    requires Init(s) && Plain(es) && Run(cfg, s, es, t) && j in t.rows && t.work.successes[j] > 0
    requires t.rows[j].state == State.Retry
    ensures Overshoot.Slack(cfg, t, j) != 0
  {
    Overshoot.InitInv(cfg, s);
    if Overshoot.Slack(cfg, t, j) == 0 { OneOwnerHidesNothing(cfg, s, es, t, j); }
  }

  /**
   For any deployment and any job: some plain run leaves a succeeded job reading RETRY if and only if the partitions of
   its device and of its id have different owners.
   */
  lemma LateRetryHidesSuccessIffTwoOwners(cfg: Config, u: Serial.Setup, x: Subject, s: Sys)
    requires Deployment(cfg, u, x, s)
    ensures (exists es, t :: Overwritten(cfg, s, x, es, t, State.Retry)) <==> TwoOwners(cfg, u, x, s)
  {
    if TwoOwners(cfg, u, x, s) {
      var es, t := RetryOverwrites(cfg, u, x, s);
    }
    forall es, t | Overwritten(cfg, s, x, es, t, State.Retry) ensures TwoOwners(cfg, u, x, s) {
      HidingNeedsTwoOwners(cfg, u, x, s, es, t);
    }
  }
}

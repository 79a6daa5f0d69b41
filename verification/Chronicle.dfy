/**
 Every column of a row is what the statements executed on it say, on every run: whatever processes interleave, crash and
 fail, the row reads as its history does.
 */
module Chronicle {
  import opened Prelude
  import opened Jobs
  import opened Store
  import opened Protocol

  // ----- the statements of a run -----

  /** A statement on one row: its INSERT, a state with an error message, an attempt, a requeue, a heartbeat. */
  datatype Write = Create | Mark(st: State, err: Option<string>) | Count | Requeue | Beat

  datatype Note = Note(write: Write, at: int)

  /** Which statement the next call of a submission executes on the job's row. */
  function SubWrite(s: Sys, b: Sub, c: Choice, j: JobId): Option<Write> {
    if b.stage == Inserting && TierFor(b.req.typ).Some? && CanInsert(s.rows, s.devices, b.req, c.id) && c.id == j
    then Some(Create)
    else if b.stage == Published && b.id == j && j in s.rows then Some(Mark(State.Queued, None))
    else None
  }

  /** Which statement the next call of a worker executes on the job's row. */
  function WorkWrite(s: Sys, tier: Tier, k: Task, j: JobId): Option<Write> {
    if k.msg.id != j || k.msg.tier != tier || j !in s.rows then None else
    match k.phase
    case Loaded => if HasHandler(k.msg.typ) then Some(Mark(State.Running, None)) else None
    case HandlerOk => Some(Mark(State.Success, None))
    case RetrySent => Some(Mark(State.Retry, Some(k.err)))
    case RetryMarked => Some(Count)
    case DlqSent => Some(Mark(State.Failed, Some(k.err)))
    case _ => None
  }

  /** A reaper requeues the first row of its batch, unless it has one still to publish. */
  function ReapWrite(s: Sys, a: Reaper, j: JobId): Option<Write> {
    if a.pending.None? && a.batch != [] && a.batch[0] == j && j in s.rows then Some(Requeue) else None
  }

  /** Which statement the event executes on the job's row; a failed call may have been applied all the same. */
  function WriteOf(cfg: Config, s: Sys, e: Event, j: JobId): Option<Write> {
    match e
    case SubCall(i, c) => if i < |s.subs| then SubWrite(s, s.subs[i], c, j) else None
    case SubError(i, c, applied) => if i < |s.subs| && applied then SubWrite(s, s.subs[i], c, j) else None
    case WorkerCall(w, _) =>
      if w < |s.workers| && w < |cfg.workerTier| && s.workers[w].Some?
      then WorkWrite(s, cfg.workerTier[w], s.workers[w].value, j) else None
    case WorkerError(w, _, applied) =>
      if w < |s.workers| && w < |cfg.workerTier| && s.workers[w].Some? && applied
      then WorkWrite(s, cfg.workerTier[w], s.workers[w].value, j) else None
    case ReaperCall(i, _) => if i < |s.reapers| then ReapWrite(s, s.reapers[i], j) else None
    case ReaperError(i, _, applied) => if i < |s.reapers| && applied then ReapWrite(s, s.reapers[i], j) else None
    case Beat(w) =>
      if w < |s.workers| && s.workers[w].Some? && s.workers[w].value.msg.id == j then Some(Write.Beat) else None
    case _ => None
  }

  /** The statements a run executes on the job's row, with their times. */
  function HistoryOf(cfg: Config, s: Sys, es: seq<Event>, j: JobId): seq<Note>
    decreases |es|
  {
    if es == [] || Next(cfg, s, es[0]).None? then [] else
    var rest := HistoryOf(cfg, Next(cfg, s, es[0]).value, es[1..], j);
    var w := WriteOf(cfg, s, es[0], j);
    if w.Some? then [Note(w.value, s.now)] + rest else rest
  }

  // ----- what a history says -----

  predicate Requeued(h: seq<Note>, from: int, to: int) {
    exists r :: from < r < to && 0 <= r < |h| && h[r].write == Requeue
  }

  predicate Starts(n: Note) {
    n.write.Mark? && n.write.st == State.Running
  }

  /** The first RUNNING since the last requeue. */
  predicate StartIs(h: seq<Note>, x: Option<int>) {
    match x
    case None => forall i :: 0 <= i < |h| && Starts(h[i]) ==> Requeued(h, i, |h|)
    case Some(at) =>
      exists i :: 0 <= i < |h| && Starts(h[i]) && h[i].at == at && !Requeued(h, i, |h|) &&
        forall k :: 0 <= k < i && Starts(h[k]) ==> Requeued(h, k, i)
  }

  predicate Ends(n: Note) {
    n.write.Mark? && (n.write.st == State.Success || n.write.st == State.Failed)
  }

  /** The last SUCCESS or FAILED. */
  predicate FinishIs(h: seq<Note>, x: Option<int>) {
    match x
    case None => forall i :: 0 <= i < |h| ==> !Ends(h[i])
    case Some(at) =>
      exists i :: 0 <= i < |h| && Ends(h[i]) && h[i].at == at && forall k :: i < k < |h| ==> !Ends(h[k])
  }

  predicate Complains(n: Note) {
    n.write.Mark? && n.write.err.Some?
  }

  /** The last error message written. */
  predicate ErrorIs(h: seq<Note>, x: Option<string>) {
    match x
    case None => forall i :: 0 <= i < |h| ==> !Complains(h[i])
    case Some(err) =>
      exists i :: 0 <= i < |h| && Complains(h[i]) && h[i].write.err == Some(err) &&
        forall k :: i < k < |h| ==> !Complains(h[k])
  }

  /** The last heartbeat, unless the row has been requeued since. */
  predicate BeatIs(h: seq<Note>, x: Option<int>) {
    match x
    case None => forall i :: 0 <= i < |h| && h[i].write.Beat? ==> Requeued(h, i, |h|)
    case Some(at) =>
      exists i :: 0 <= i < |h| && h[i].write.Beat? && h[i].at == at &&
        forall k :: i < k < |h| ==> !h[k].write.Beat? && h[k].write != Requeue
  }

  /** The state a statement leaves behind. */
  function StateAfter(w: Write): Option<State> {
    match w
    case Create => Some(State.Accepted)
    case Mark(st, _) => Some(st)
    case Requeue => Some(State.Queued)
    case Count => None
    case Beat => None
  }

  /** The last statement that writes the state. */
  predicate StateIs(h: seq<Note>, st: State) {
    exists i :: 0 <= i < |h| && StateAfter(h[i].write) == Some(st) &&
      forall k :: i < k < |h| ==> StateAfter(h[k].write).None?
  }

  /** One for each increment and each requeue. */
  function Attempts(h: seq<Note>): nat {
    Prelude.Count(h, Weight)
  }

  const Weight: Note -> nat := (n: Note) => if n.write == Write.Count || n.write == Requeue then 1 else 0

  /** The row reads as its history says. */
  predicate Tells(h: seq<Note>, r: Row) {
    StateIs(h, r.state) && r.attempts == Attempts(h) && StartIs(h, r.startedAt) && FinishIs(h, r.finishedAt) &&
    ErrorIs(h, r.lastError) && BeatIs(h, r.heartbeat)
  }

  // ----- one statement more -----

  /** The row after a statement. */
  function Updated(r: Row, w: Write, now: int): Row {
    match w
    case Create => r
    case Mark(st, err) => WithState(r, st, err, now)
    case Count => WithAttempt(r)
    case Requeue => Store.Requeued(r)
    case Beat => WithHeartbeat(r, now)
  }

  lemma StateSnoc(h: seq<Note>, r: Row, n: Note)
    requires StateIs(h, r.state) && !n.write.Create?
    ensures StateIs(h + [n], Updated(r, n.write, n.at).state)
  {
    var g := h + [n];
    var i :| 0 <= i < |h| && StateAfter(h[i].write) == Some(r.state) &&
      forall k :: i < k < |h| ==> StateAfter(h[k].write).None?;
    assert g[|h|] == n && g[i] == h[i];
  }

  lemma AttemptsSnoc(h: seq<Note>, r: Row, n: Note)
    requires r.attempts == Attempts(h) && !n.write.Create?
    ensures Updated(r, n.write, n.at).attempts == Attempts(h + [n])
  {
    CountSnoc(h, n, Weight);
  }

  /** Requeues before the new statement, and the new one if it is one. */
  lemma RequeuedSnoc(h: seq<Note>, n: Note, i: nat)
    ensures forall k :: 0 <= k <= |h| ==> (Requeued(h + [n], i, k) <==> Requeued(h, i, k))
    ensures i < |h| ==> (Requeued(h + [n], i, |h| + 1) <==> Requeued(h, i, |h|) || n.write == Requeue)
  {
    var g := h + [n];
    assert g[|h|] == n;
    forall k | 0 <= k <= |h| ensures Requeued(g, i, k) <==> Requeued(h, i, k) {
      if Requeued(h, i, k) {
        var r :| i < r < k && 0 <= r < |h| && h[r].write == Requeue;
        assert g[r] == h[r];
      }
    }
    if Requeued(h, i, |h|) {
      var r :| i < r < |h| && 0 <= r < |h| && h[r].write == Requeue;
      assert g[r] == h[r];
    }
  }

  lemma StartSnoc(h: seq<Note>, r: Row, n: Note)
    requires StartIs(h, r.startedAt) && !n.write.Create?
    ensures StartIs(h + [n], Updated(r, n.write, n.at).startedAt)
  {
    var g := h + [n];
    assert g[|h|] == n;
    forall i | 0 <= i < |h|
      ensures g[i] == h[i] && (Requeued(g, i, |h| + 1) <==> Requeued(h, i, |h|) || n.write == Requeue)
      ensures forall k :: 0 <= k <= |h| ==> (Requeued(g, i, k) <==> Requeued(h, i, k))
    {
      RequeuedSnoc(h, n, i);
    }
    assert !Requeued(g, |h|, |h| + 1);
    if r.startedAt.Some? {
      var i :| 0 <= i < |h| && Starts(h[i]) && h[i].at == r.startedAt.value && !Requeued(h, i, |h|) &&
        forall k :: 0 <= k < i && Starts(h[k]) ==> Requeued(h, k, i);
      assert Starts(g[i]);
    } else if Starts(n) {
      assert Starts(g[|h|]) && forall k :: 0 <= k < |h| && Starts(g[k]) ==> Requeued(g, k, |h|);
    }
  }

  lemma FinishSnoc(h: seq<Note>, r: Row, n: Note)
    requires FinishIs(h, r.finishedAt) && !n.write.Create?
    ensures FinishIs(h + [n], Updated(r, n.write, n.at).finishedAt)
  {
    var g := h + [n];
    assert g[|h|] == n && forall i :: 0 <= i < |h| ==> g[i] == h[i];
    if r.finishedAt.Some? {
      var i :| 0 <= i < |h| && Ends(h[i]) && h[i].at == r.finishedAt.value && forall k :: i < k < |h| ==> !Ends(h[k]);
      assert Ends(g[i]);
    }
    assert Ends(n) ==> Ends(g[|h|]);
  }

  lemma ErrorSnoc(h: seq<Note>, r: Row, n: Note)
    requires ErrorIs(h, r.lastError) && !n.write.Create?
    ensures ErrorIs(h + [n], Updated(r, n.write, n.at).lastError)
  {
    var g := h + [n];
    assert g[|h|] == n && forall i :: 0 <= i < |h| ==> g[i] == h[i];
    if r.lastError.Some? {
      var i :| 0 <= i < |h| && Complains(h[i]) && h[i].write.err == r.lastError &&
        forall k :: i < k < |h| ==> !Complains(h[k]);
      assert Complains(g[i]);
    }
    assert Complains(n) ==> Complains(g[|h|]);
  }

  lemma BeatSnoc(h: seq<Note>, r: Row, n: Note)
    requires BeatIs(h, r.heartbeat) && !n.write.Create?
    ensures BeatIs(h + [n], Updated(r, n.write, n.at).heartbeat)
  {
    var g := h + [n];
    assert g[|h|] == n && forall i :: 0 <= i < |h| ==> g[i] == h[i];
    forall i | 0 <= i < |h| ensures Requeued(g, i, |h| + 1) <==> Requeued(h, i, |h|) || n.write == Requeue {
      RequeuedSnoc(h, n, i);
    }
    if r.heartbeat.Some? && !n.write.Beat? && n.write != Requeue {
      var i :| 0 <= i < |h| && h[i].write.Beat? && h[i].at == r.heartbeat.value &&
        forall k :: i < k < |h| ==> !h[k].write.Beat? && h[k].write != Requeue;
      assert g[i].write.Beat?;
    }
    if n.write == Requeue && r.heartbeat.Some? {
      forall i | 0 <= i < |g| && g[i].write.Beat? ensures Requeued(g, i, |g|) {
      }
    }
  }

  lemma TellsSnoc(h: seq<Note>, r: Row, n: Note)
    requires Tells(h, r) && !n.write.Create?
    ensures Tells(h + [n], Updated(r, n.write, n.at))
  {
    StateSnoc(h, r, n);
    AttemptsSnoc(h, r, n);
    StartSnoc(h, r, n);
    FinishSnoc(h, r, n);
    ErrorSnoc(h, r, n);
    BeatSnoc(h, r, n);
  }

  lemma NewRowTells(q: Request, tier: Tier, at: int)
    ensures Tells([Note(Create, at)], NewRow(q, tier))
  {
    var h := [Note(Create, at)];
    assert StateAfter(h[0].write) == Some(State.Accepted);
    CountSnoc([], h[0], Weight);
    assert [] + h == h;
  }

  // ----- what one event does to the row -----

  /** The row is written as the statement says, or stays. */
  predicate Written(a: Table, b: Table, j: JobId, w: Option<Write>, now: int) {
    match w
    case None => if j in a then j in b && b[j] == a[j] else j !in b
    case Some(Create) => j !in a && j in b && Tells([Note(Create, now)], b[j])
    case Some(x) => j in a && j in b && b[j] == Updated(a[j], x, now)
  }

  lemma SubWrites(cfg: Config, s: Sys, b: Sub, c: Choice, j: JobId)
    requires SubCallEffect(cfg, s, b, c).Some?
    ensures Written(s.rows, SubCallEffect(cfg, s, b, c).value.rows, j, SubWrite(s, b, c, j), s.now)
  {
    if SubWrite(s, b, c, j) == Some(Create) { NewRowTells(b.req, TierFor(b.req.typ).value, s.now); }
  }

  lemma WorkWrites(cfg: Config, s: Sys, tier: Tier, k: Task, c: Choice, j: JobId)
    requires WorkCallEffect(cfg, s, tier, k, c).Some?
    ensures Written(s.rows, WorkCallEffect(cfg, s, tier, k, c).value.rows, j, WorkWrite(s, tier, k, j), s.now)
  {
  }

  lemma ReapWrites(cfg: Config, s: Sys, a: Reaper, c: Choice, j: JobId)
    requires ReapCallEffect(cfg, s, a, c).Some?
    ensures Written(s.rows, ReapCallEffect(cfg, s, a, c).value.rows, j, ReapWrite(s, a, j), s.now)
  {
  }

  lemma EventWrites(cfg: Config, s: Sys, e: Event, j: JobId)
    requires Next(cfg, s, e).Some?
    ensures Written(s.rows, Next(cfg, s, e).value.rows, j, WriteOf(cfg, s, e, j), s.now)
  {
    if e.SubCall? || e.SubError? || e.ReaperCall? || e.ReaperError? { PublisherWrites(cfg, s, e, j); }
    else if e.WorkerCall? || e.WorkerError? { WorkerWrites(cfg, s, e, j); }
    else { OtherWrites(cfg, s, e, j); }
  }

  lemma PublisherWrites(cfg: Config, s: Sys, e: Event, j: JobId)
    requires (e.SubCall? || e.SubError? || e.ReaperCall? || e.ReaperError?) && Next(cfg, s, e).Some?
    ensures Written(s.rows, Next(cfg, s, e).value.rows, j, WriteOf(cfg, s, e, j), s.now)
  {
    if e.SubCall? || (e.SubError? && e.applied) { SubWrites(cfg, s, s.subs[e.i], e.c, j); }
    else if e.ReaperCall? || (e.ReaperError? && e.applied) { ReapWrites(cfg, s, s.reapers[e.i], e.c, j); }
  }

  lemma WorkerWrites(cfg: Config, s: Sys, e: Event, j: JobId)
    requires (e.WorkerCall? || e.WorkerError?) && Next(cfg, s, e).Some?
    ensures Written(s.rows, Next(cfg, s, e).value.rows, j, WriteOf(cfg, s, e, j), s.now)
  {
    if e.WorkerCall? || e.applied { WorkWrites(cfg, s, cfg.workerTier[e.i], s.workers[e.i].value, e.c, j); }
  }

  lemma OtherWrites(cfg: Config, s: Sys, e: Event, j: JobId)
    requires e.IsCrash() || e.Tick? || e.Arrive? || e.Fetch? || e.Beat? || e.Pick? || e.Scan? || e.RouterCall? ||
             e.RouterError?
    requires Next(cfg, s, e).Some?
    ensures Written(s.rows, Next(cfg, s, e).value.rows, j, WriteOf(cfg, s, e, j), s.now)
  {
  }

  // ----- the theorem -----

  /** The history so far tells of the row, and there is none without the other. */
  predicate SoFar(s: Sys, h: seq<Note>, j: JobId) {
    if j in s.rows then Tells(h, s.rows[j]) else h == []
  }

  lemma {:induction false} RunTells(cfg: Config, s: Sys, es: seq<Event>, t: Sys, h: seq<Note>, j: JobId)
    requires Run(cfg, s, es, t) && SoFar(s, h, j)
    ensures SoFar(t, h + HistoryOf(cfg, s, es, j), j)
    decreases |es|
  {
    if es == [] {
      assert h + [] == h;
    } else {
      var m := Next(cfg, s, es[0]).value;
      var w := WriteOf(cfg, s, es[0], j);
      var rest := HistoryOf(cfg, m, es[1..], j);
      EventWrites(cfg, s, es[0], j);
      if w.Some? {
        var n := Note(w.value, s.now);
        if !w.value.Create? { TellsSnoc(h, s.rows[j], n); } else { assert h + [n] == [n]; }
        RunTells(cfg, m, es[1..], t, h + [n], j);
        Regroup(h, [n], rest);
      } else {
        RunTells(cfg, m, es[1..], t, h, j);
      }
    }
  }

  /**
   On every run, crashes, failed calls, duplicates and requeues included, each row reads as its history says: the state
   the last statement left, one attempt for each increment and requeue, the first start since the last requeue, the last
   finish, the last error message, and the last heartbeat unless a requeue came after it.
   */
  lemma RowTellsItsHistory(cfg: Config, s: Sys, es: seq<Event>, t: Sys, j: JobId)
    requires Init(s) && Run(cfg, s, es, t) && j in t.rows
    ensures Tells(HistoryOf(cfg, s, es, j), t.rows[j])
  {
    RunTells(cfg, s, es, t, [], j);
    assert [] + HistoryOf(cfg, s, es, j) == HistoryOf(cfg, s, es, j);
  }
}

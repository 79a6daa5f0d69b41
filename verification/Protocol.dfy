/**
 The platform at the granularity of single calls. Every SQL statement, append, Redis command, fetch
 and commit is one event of one process; processes interleave freely, may crash between any two calls,
 and may see a call fail. `Next` is the whole system; the theorems about it live in the other modules
 and say which events they allow.
 */
module Protocol {
  import opened Prelude
  import opened Jobs
  import opened Store
  import opened Broker
  import Backoff

  /** Fixed facts of a deployment: message placement, and the tier each worker and router serves. */
  datatype Config = Config(route: Route, workerTier: seq<Tier>, routerTier: seq<Tier>)

  /** What a worker has completed for the message it holds. */
  datatype Phase = Fetched | Loaded | InHandler | HandlerOk | HandlerErr | RetrySent | RetryMarked | DlqSent | Done

  datatype Task = Task(phase: Phase, part: nat, off: nat, msg: Message, att: nat, max: nat, err: string)

  /** A retry message in a router's hands; `until` is its retry-at instant. */
  datatype Haul = Haul(part: nat, off: nat, msg: Message, until: int, sent: bool)

  datatype Stage = Claiming | Losing | Existing | Inserting | Inserted | Published | Closed

  /** One submission: through the API (`api`) or through the submitter used by handlers and ingestion. */
  datatype Sub = Sub(req: Request, api: bool, stage: Stage, id: JobId)

  /** A scanned batch still to be requeued, and a requeued row still to be published. */
  datatype Reaper = Reaper(batch: seq<JobId>, pending: Option<(JobId, Row)>)

  datatype Claim = Claim(id: JobId, expires: int)

  const CLAIM_TTL: int := 86_400_000_000_000

  datatype Reply = Reply(key: string, typ: Type, id: JobId)

  /** One handler run: the job and the partition its message came from. */
  datatype HandlerRun = HandlerRun(id: JobId, part: nat, tier: Tier, device: string)

  /** What workers, submissions and reapers have done so far; no step reads these. */
  datatype WorkLog = WorkLog(
    failures: multiset<JobId>, runs: multiset<JobId>, successes: multiset<JobId>,
    retryPubs: multiset<JobId>, handled: seq<HandlerRun>)

  datatype SubLog = SubLog(subPubs: multiset<JobId>, replies: seq<Reply>, published: seq<HandlerRun>)

  datatype ReapLog = ReapLog(requeues: multiset<JobId>, reaperPubs: multiset<JobId>)

  datatype Sys = Sys(
    rows: Table, devices: set<string>, parts: seq<Part>, claims: map<string, Claim>, now: int,
    workers: seq<Option<Task>>, routers: seq<Option<Haul>>, subs: seq<Sub>, reapers: seq<Reaper>,
    work: WorkLog, subm: SubLog, reap: ReapLog)

  /** What the environment decides for one call. */
  datatype Choice = Choice(
    err: Option<string>, headers: seq<Header>, id: JobId, found: Option<JobId>, jitter: real)

  datatype Event =
    | Tick(d: nat)
    | Arrive(req: Request, api: bool)
    | SubCall(i: nat, c: Choice)
    | Fetch(i: nat, p: nat)
    | WorkerCall(i: nat, c: Choice)
    | Beat(i: nat)
    | Pick(i: nat, p: nat)
    | RouterCall(i: nat, c: Choice)
    | Scan(i: nat, ids: seq<JobId>)
    | ReaperCall(i: nat, c: Choice)
    | SubCrash(i: nat)
    | WorkerCrash(i: nat)
    | RouterCrash(i: nat)
    | ReaperCrash(i: nat)
    | Rebalance(p: nat, owner: nat)
    | SubError(i: nat, c: Choice, applied: bool)
    | WorkerError(i: nat, c: Choice, applied: bool)
    | RouterError(i: nat, c: Choice, applied: bool)
    | ReaperError(i: nat, c: Choice, applied: bool)
  {
    /** A process dies, or a partition changes hands. */
    predicate IsCrash() {
      SubCrash? || WorkerCrash? || RouterCrash? || ReaperCrash? || Rebalance?
    }

    /** A call returns an error to a process that lives on. */
    predicate IsError() {
      SubError? || WorkerError? || RouterError? || ReaperError?
    }

    predicate IsReap() {
      Scan? || ReaperCall? || ReaperCrash? || ReaperError?
    }

    /** Nothing dies, nothing fails, nothing is reaped. */
    predicate IsPlain() {
      !IsCrash() && !IsError() && !IsReap()
    }
  }

  // ----- submission -----

  /** Everything one call of a submission may change. */
  datatype SubEffect = SubEffect(sub: Sub, rows: Table, parts: seq<Part>, claims: map<string, Claim>, log: SubLog)

  /** Validation comes before any call: an unknown type or, at the API, a malformed key never gets past it. */
  function Arrival(req: Request, api: bool): Sub {
    Sub(req, api, if !Valid(req.typ) || (api &&
    !ValidKey(req.key)) then Closed else if api then Claiming else Inserting, "")
  }

  predicate ClaimLive(s: Sys, key: string) {
    key in s.claims && s.now < s.claims[key].expires
  }

  function Close(f: SubEffect, reply: bool): SubEffect {
    f.(sub := f.sub.(stage := Closed),
       log := if reply && f.sub.api
              then f.log.(replies := f.log.replies + [Reply(f.sub.req.key, f.sub.req.typ, f.sub.id)]) else f.log)
  }

  /** The answer of SELECT ... WHERE idempotency_key = $1 AND type = $2. */
  predicate LookupAnswer(rows: Table, q: Request, found: Option<JobId>) {
    match found
    case Some(id) => id in rows && rows[id].key == q.key && rows[id].typ == q.typ
    case None => !Taken(rows, q.key, q.typ)
  }

  function NoSubEffect(s: Sys, b: Sub): SubEffect {
    SubEffect(b, s.rows, s.parts, s.claims, s.subm)
  }

  /** The next call of a submission: SETNX, GET, lookup, INSERT, publish, mark QUEUED. */
  function SubCallEffect(cfg: Config, s: Sys, b: Sub, c: Choice): Option<SubEffect> {
    var f := NoSubEffect(s, b);
    match b.stage
    case Claiming =>
      if ClaimLive(s, b.req.key) then Some(f.(sub := b.(stage := Losing)))
      else Some(f.(sub := b.(stage := Inserting), claims := s.claims[b.req.key := Claim(c.id, s.now + CLAIM_TTL)]))
    case Losing =>
      Some(f.(sub := b.(stage := if ClaimLive(s, b.req.key) then Existing else Closed)))
    case Existing =>
      if !LookupAnswer(s.rows, b.req, c.found) then None
      else if c.found.None? then Some(Close(f, false))
      else Some(Close(f.(sub := b.(id := c.found.value)), true))
    case Inserting =>
      if TierFor(b.req.typ).None? || !CanInsert(s.rows, s.devices, b.req, c.id) then Some(Close(f, false))
      else Some(f.(sub := b.(stage := Inserted, id := c.id),
                   rows := s.rows[c.id := NewRow(b.req, TierFor(b.req.typ).value)]))
    case Inserted =>
      if b.id !in s.rows then None else
      var r := s.rows[b.id];
      if !Routed(cfg.route, s.parts, Main(r.tier), r.device) then None else
      var run := HandlerRun(b.id, cfg.route(Main(r.tier), r.device), r.tier, r.device);
      Some(f.(sub := b.(stage := Published),
              parts := Append(cfg.route, s.parts, Main(r.tier), MessageFor(b.id, r, c.headers)),
              log := s.subm.(subPubs := s.subm.subPubs + multiset{b.id}, published := s.subm.published + [run])))
    case Published =>
      if b.id !in s.rows then None
      else Some(Close(f.(rows := s.rows[b.id := WithState(s.rows[b.id], Queued, None, s.now)]), true))
    case Closed => None
  }

  function ApplySub(s: Sys, i: nat, f: SubEffect): Sys
    requires i < |s.subs|
  {
    s.(subs := s.subs[i := f.sub], rows := f.rows, parts := f.parts, claims := f.claims, subm := f.log)
  }

  function StepSub(cfg: Config, s: Sys, i: nat, c: Choice): Option<Sys> {
    if i >= |s.subs| then None else
    var f := SubCallEffect(cfg, s, s.subs[i], c);
    if f.None? then None else Some(ApplySub(s, i, f.value))
  }

  /** A failed call ends the submission; after INSERT the API still answers with the id. */
  function FailSub(cfg: Config, s: Sys, i: nat, c: Choice, applied: bool): Option<Sys> {
    if i >= |s.subs| || s.subs[i].stage == Closed then None else
    var b := s.subs[i];
    var f := if applied then SubCallEffect(cfg, s, b, c) else Some(NoSubEffect(s, b));
    if f.None? then None
    else if f.value.sub.stage == Closed then Some(ApplySub(s, i, f.value))
    else Some(ApplySub(s, i, Close(f.value, b.stage == Inserted || b.stage == Published)))
  }

  // ----- worker -----

  function StepFetch(cfg: Config, s: Sys, w: nat, p: nat): Option<Sys> {
    if w < |s.workers| && w < |cfg.workerTier| && s.workers[w].None? && p < |s.parts| &&
       s.parts[p].topic == Main(cfg.workerTier[w]) && s.parts[p].owner == w && s.parts[p].pos < |s.parts[p].log|
    then
      var q := s.parts[p];
      Some(s.(parts := s.parts[p := q.(pos := q.pos + 1)],
              workers := s.workers[w := Some(Task(Fetched, p, q.pos, q.log[q.pos], 0, 0, ""))]))
    else None
  }

  /** Everything one call of a worker may change. */
  datatype WorkEffect = WorkEffect(task: Option<Task>, rows: Table, parts: seq<Part>, log: WorkLog)

  function NoWorkEffect(s: Sys, k: Task): WorkEffect {
    WorkEffect(Some(k), s.rows, s.parts, s.work)
  }

  /**
   A commit goes through whoever owns the partition by now, so one from before a reassignment may advance or
   rewind the offset; one that the broker refuses is a failed call.
   */
  function Commit(parts: seq<Part>, p: nat, off: nat): seq<Part> {
    if p < |parts| then parts[p := parts[p].(committed := off + 1)] else parts
  }

  /**
   What a worker publishes to the retry and dead-letter topics: the same content, keyed by the job id; a retry names its
   instant after the trace headers.
   */
  function Resent(s: Sys, k: Task, c: Choice): Message {
    k.msg.(key := k.msg.id,
           headers := if k.phase == HandlerErr && k.att + 1 < k.max
                      then RetryHeaders(c.headers, Backoff.NextAt(s.now, k.att + 1, c.jitter)) else c.headers)
  }

  /**
   The next call of a worker on the message it holds, following `processOne`, `sendToRetry` and `sendToDLQ`.
   A missing row makes any of the row's statements fail, which ends the processing.
   */
  function WorkCallEffect(cfg: Config, s: Sys, tier: Tier, k: Task, c: Choice): Option<WorkEffect> {
    var f := NoWorkEffect(s, k);
    var id := k.msg.id;
    if k.phase == Done then Some(f.(task := None, parts := Commit(s.parts, k.part, k.off)))
    else if k.msg.tier != tier || id !in s.rows then Some(f.(task := Some(k.(phase := Done))))
    else
      var r := s.rows[id];
      match k.phase
      case Fetched =>
        Some(f.(task := Some(k.(phase := Loaded, att := r.attempts, max := r.maxAttempts))))
      case Loaded =>
        if !HasHandler(k.msg.typ) then DeadLetterEffect(cfg, s, k.(err := "no handler"), c)
        else Some(f.(task := Some(k.(phase := InHandler)),
                     rows := s.rows[id := WithState(r, Running, None, s.now)],
                     log := s.work.(runs := s.work.runs + multiset{id},
                       handled := s.work.handled + [HandlerRun(id, k.part, k.msg.tier, k.msg.device)])))
      case InHandler =>
        if c.err.None? then Some(f.(task := Some(k.(phase := HandlerOk))))
        else Some(f.(task := Some(k.(phase := HandlerErr, err := c.err.value)),
                     log := s.work.(failures := s.work.failures + multiset{id})))
      case HandlerOk =>
        Some(f.(task := Some(k.(phase := Done)),
                rows := s.rows[id := WithState(r, Success, None, s.now)],
                log := s.work.(successes := s.work.successes + multiset{id})))
      case HandlerErr =>
        if k.att + 1 >= k.max then DeadLetterEffect(cfg, s, k, c) else RetryEffect(cfg, s, tier, k, c)
      case RetrySent =>
        Some(f.(task := Some(k.(phase := RetryMarked)), rows := s.rows[id := WithState(r, Retry, Some(k.err), s.now)]))
      case RetryMarked =>
        Some(f.(task := Some(k.(phase := Done)), rows := s.rows[id := WithAttempt(r)]))
      case DlqSent =>
        Some(f.(task := Some(k.(phase := Done)), rows := s.rows[id := WithState(r, Failed, Some(k.err), s.now)]))
  }

  function RetryEffect(cfg: Config, s: Sys, tier: Tier, k: Task, c: Choice): Option<WorkEffect> {
    if !Routed(cfg.route, s.parts, RetryOf(tier), k.msg.id) then None else
    Some(NoWorkEffect(s, k.(phase := RetrySent)).(
      parts := Append(cfg.route, s.parts, RetryOf(tier), Resent(s, k, c)),
      log := s.work.(retryPubs := s.work.retryPubs + multiset{k.msg.id})))
  }

  function DeadLetterEffect(cfg: Config, s: Sys, k: Task, c: Choice): Option<WorkEffect> {
    if !Routed(cfg.route, s.parts, Dlq, k.msg.id) then None else
    Some(NoWorkEffect(s, k.(phase := DlqSent)).(
      parts := Append(cfg.route, s.parts, Dlq, Resent(s, k, c))))
  }

  function ApplyWork(s: Sys, w: nat, f: WorkEffect): Sys
    requires w < |s.workers|
  {
    s.(workers := s.workers[w := f.task], rows := f.rows, parts := f.parts, work := f.log)
  }

  function StepWorker(cfg: Config, s: Sys, w: nat, c: Choice): Option<Sys> {
    if w >= |s.workers| || w >= |cfg.workerTier| || s.workers[w].None? then None else
    var f := WorkCallEffect(cfg, s, cfg.workerTier[w], s.workers[w].value, c);
    if f.None? then None else Some(ApplyWork(s, w, f.value))
  }

  /** A failed call sends the worker straight to its commit; a failed commit leaves the offset where it was. */
  function FailWorker(cfg: Config, s: Sys, w: nat, c: Choice, applied: bool): Option<Sys> {
    if w >= |s.workers| || w >= |cfg.workerTier| || s.workers[w].None? || s.workers[w].value.phase == InHandler
      then None else
    var k := s.workers[w].value;
    var f := if applied then WorkCallEffect(cfg, s, cfg.workerTier[w], k, c) else Some(NoWorkEffect(s, k));
    if f.None? then None
    else if k.phase == Done || f.value.task.None? then Some(ApplyWork(s, w, f.value.(task := None)))
    else Some(ApplyWork(s, w, f.value.(task := Some(f.value.task.value.(phase := Done)))))
  }

  /** The heartbeat ticker runs beside the handler; its last write may land late. */
  function StepBeat(s: Sys, w: nat): Option<Sys> {
    if w < |s.workers| && s.workers[w].Some? && s.workers[w].value.phase !in {Fetched, Loaded} &&
       s.workers[w].value.msg.id in s.rows
    then
      var id := s.workers[w].value.msg.id;
      Some(s.(rows := s.rows[id := WithHeartbeat(s.rows[id], s.now)]))
    else None
  }

  // ----- retry router -----

  function StepPick(cfg: Config, s: Sys, r: nat, p: nat): Option<Sys> {
    if r < |s.routers| && r < |cfg.routerTier| && s.routers[r].None? && p < |s.parts| &&
       s.parts[p].topic == RetryOf(cfg.routerTier[r]) && s.parts[p].owner == r && s.parts[p].pos < |s.parts[p].log|
    then
      var q := s.parts[p];
      var m := q.log[q.pos];
      Some(s.(parts := s.parts[p := q.(pos := q.pos + 1)],
              routers := s.routers[r := Some(Haul(p, q.pos, m, RetryAt(m.headers, s.now), false))]))
    else None
  }

  /** Everything one call of a router may change. */
  datatype RouteEffect = RouteEffect(haul: Option<Haul>, parts: seq<Part>)

  /** Wait for `until`, republish under the same key, then commit. */
  function RouteCallEffect(cfg: Config, s: Sys, tier: Tier, h: Haul, c: Choice): Option<RouteEffect> {
    if h.sent then Some(RouteEffect(None, Commit(s.parts, h.part, h.off)))
    else if s.now < h.until || !Routed(cfg.route, s.parts, Main(tier), h.msg.key) then None
    else Some(RouteEffect(Some(h.(sent := true)), Append(cfg.route, s.parts, Main(tier), h.msg.(headers := c.headers))))
  }

  function ApplyRoute(s: Sys, r: nat, f: RouteEffect): Sys
    requires r < |s.routers|
  {
    s.(routers := s.routers[r := f.haul], parts := f.parts)
  }

  function StepRouter(cfg: Config, s: Sys, r: nat, c: Choice): Option<Sys> {
    if r >= |s.routers| || r >= |cfg.routerTier| || s.routers[r].None? then None else
    var f := RouteCallEffect(cfg, s, cfg.routerTier[r], s.routers[r].value, c);
    if f.None? then None else Some(ApplyRoute(s, r, f.value))
  }

  /** A failed republish is skipped without a commit; the next fetch goes on behind it. */
  function FailRouter(cfg: Config, s: Sys, r: nat, c: Choice, applied: bool): Option<Sys> {
    if r >= |s.routers| || r >= |cfg.routerTier| || s.routers[r].None? then None else
    var h := s.routers[r].value;
    var f := if applied then RouteCallEffect(cfg, s, cfg.routerTier[r], h, c) else Some(RouteEffect(None, s.parts));
    if f.None? then None else Some(ApplyRoute(s, r, f.value.(haul := None)))
  }

  // ----- reaper -----

  /** Whatever the scan returns is a bounded list of distinct rows that were stale when it ran. */
  predicate Scanned(rows: Table, now: int, ids: seq<JobId>) {
    |ids| <= MAX_BATCH &&
    (forall i :: 0 <= i < |ids| ==> ids[i] in rows && Stale(rows[ids[i]], now)) &&
    (forall i, k :: 0 <= i < k < |ids| ==> ids[i] != ids[k])
  }

  function StepScan(s: Sys, i: nat, ids: seq<JobId>): Option<Sys> {
    if i < |s.reapers| && s.reapers[i] == Reaper([], None) && Scanned(s.rows, s.now, ids)
    then Some(s.(reapers := s.reapers[i := Reaper(ids, None)])) else None
  }

  /** Everything one call of a reaper may change. */
  datatype ReapEffect = ReapEffect(reaper: Reaper, rows: Table, parts: seq<Part>, log: ReapLog)

  /** Requeue the next row of the batch, then publish it unless its attempts exceed its budget. */
  function ReapCallEffect(cfg: Config, s: Sys, a: Reaper, c: Choice): Option<ReapEffect> {
    if a.pending.Some? then
      var (id, r) := a.pending.value;
      if !Routed(cfg.route, s.parts, Main(r.tier), r.device) then None else
      Some(ReapEffect(Reaper(a.batch, None), s.rows,
                      Append(cfg.route, s.parts, Main(r.tier), MessageFor(id, r, c.headers)),
                      s.reap.(reaperPubs := s.reap.reaperPubs + multiset{id})))
    else if a.batch == [] then None
    else if a.batch[0] !in s.rows then Some(ReapEffect(Reaper(a.batch[1..], None), s.rows, s.parts, s.reap))
    else
      var id := a.batch[0];
      var r := Requeued(s.rows[id]);
      Some(ReapEffect(Reaper(a.batch[1..], if r.attempts > r.maxAttempts then None else Some((id, r))),
                      s.rows[id := r], s.parts, s.reap.(requeues := s.reap.requeues + multiset{id})))
  }

  function ApplyReap(s: Sys, i: nat, f: ReapEffect): Sys
    requires i < |s.reapers|
  {
    s.(reapers := s.reapers[i := f.reaper], rows := f.rows, parts := f.parts, reap := f.log)
  }

  function StepReaper(cfg: Config, s: Sys, i: nat, c: Choice): Option<Sys> {
    if i >= |s.reapers| then None else
    var f := ReapCallEffect(cfg, s, s.reapers[i], c);
    if f.None? then None else Some(ApplyReap(s, i, f.value))
  }

  /** A failed call gives up on that row and goes on with the batch. */
  function FailReaper(cfg: Config, s: Sys, i: nat, c: Choice, applied: bool): Option<Sys> {
    if i >= |s.reapers| || (s.reapers[i].pending.None? && s.reapers[i].batch == []) then None else
    var a := s.reapers[i];
    var rest := Reaper(if a.pending.Some? then a.batch else a.batch[1..], None);
    var f := if applied then ReapCallEffect(cfg, s, a, c) else Some(ReapEffect(rest, s.rows, s.parts, s.reap));
    if f.None? then None else Some(ApplyReap(s, i, f.value.(reaper := rest)))
  }

  // ----- crashes -----

  /** A new assignment of a partition: the reader restarts at the committed offset. */
  function Reassigned(q: Part, owner: nat): Part {
    q.(pos := q.committed, owner := owner)
  }

  function Restarted(parts: seq<Part>, owner: nat, retry: bool): seq<Part> {
    seq(|parts|, i requires 0 <= i < |parts| =>
      if parts[i].owner == owner && (if retry then parts[i].topic.RetryOf? else parts[i].topic.Main?)
      then Reassigned(parts[i], owner) else parts[i])
  }

  function StepCrash(s: Sys, e: Event): Option<Sys>
    requires e.IsCrash()
  {
    match e
    case SubCrash(i) => if i < |s.subs| then Some(s.(subs := s.subs[i := s.subs[i].(stage := Closed)])) else None
    case WorkerCrash(i) =>
      if i < |s.workers| then Some(s.(workers := s.workers[i := None], parts := Restarted(s.parts, i, false))) else None
    case RouterCrash(i) =>
      if i < |s.routers| then Some(s.(routers := s.routers[i := None], parts := Restarted(s.parts, i, true))) else None
    case ReaperCrash(i) =>
      if i < |s.reapers| then Some(s.(reapers := s.reapers[i := Reaper([], None)])) else None
    case Rebalance(p, owner) =>
      if p < |s.parts| then Some(s.(parts := s.parts[p := Reassigned(s.parts[p], owner)])) else None
  }

  // ----- the whole system -----

  function Next(cfg: Config, s: Sys, e: Event): Option<Sys> {
    match e
    case Tick(d) => Some(s.(now := s.now + d))
    case Arrive(req, api) => Some(s.(subs := s.subs + [Arrival(req, api)]))
    case SubCall(i, c) => StepSub(cfg, s, i, c)
    case Fetch(i, p) => StepFetch(cfg, s, i, p)
    case WorkerCall(i, c) => StepWorker(cfg, s, i, c)
    case Beat(i) => StepBeat(s, i)
    case Pick(i, p) => StepPick(cfg, s, i, p)
    case RouterCall(i, c) => StepRouter(cfg, s, i, c)
    case Scan(i, ids) => StepScan(s, i, ids)
    case ReaperCall(i, c) => StepReaper(cfg, s, i, c)
    case SubError(i, c, applied) => FailSub(cfg, s, i, c, applied)
    case WorkerError(i, c, applied) => FailWorker(cfg, s, i, c, applied)
    case RouterError(i, c, applied) => FailRouter(cfg, s, i, c, applied)
    case ReaperError(i, c, applied) => FailReaper(cfg, s, i, c, applied)
    case _ => StepCrash(s, e)
  }

  /** Any fresh deployment: empty table and claims, empty logs, idle processes. */
  predicate Init(s: Sys) {
    s.rows == map[] && s.claims == map[] && s.subs == [] &&
    (forall p :: 0 <= p < |s.parts| ==> s.parts[p].log == [] && s.parts[p].pos == s.parts[p].committed == 0) &&
    (forall w :: 0 <= w < |s.workers| ==> s.workers[w].None?) &&
    (forall r :: 0 <= r < |s.routers| ==> s.routers[r].None?) &&
    (forall i :: 0 <= i < |s.reapers| ==> s.reapers[i] == Reaper([], None)) &&
    s.work == WorkLog(multiset{}, multiset{}, multiset{}, multiset{}, []) &&
    s.subm == SubLog(multiset{}, [], []) && s.reap == ReapLog(multiset{}, multiset{})
  }

  predicate Plain(es: seq<Event>) {
    forall i :: 0 <= i < |es| ==> es[i].IsPlain()
  }

  /** `es` takes `s` to `t`, every event being enabled in turn. */
  predicate Run(cfg: Config, s: Sys, es: seq<Event>, t: Sys)
    decreases |es|
  {
    if es == [] then s == t
    else var n := Next(cfg, s, es[0]); n.Some? && Run(cfg, n.value, es[1..], t)
  }
}

/** The `jobs` table: one row per job and the statements that change a row. */
module Store {
  import opened Prelude
  import opened Jobs

  type JobId = string

  /** Times are nanoseconds. */
  datatype Row = Row(
    typ: Type, tier: Tier, device: string, payload: string, key: string,
    state: State, attempts: nat, maxAttempts: nat, lastError: Option<string>,
    heartbeat: Option<int>, startedAt: Option<int>, finishedAt: Option<int>)

  type Table = map<JobId, Row>

  const STALENESS: int := 60_000_000_000
  const MAX_BATCH: nat := 50

  /** What a submission asks for. */
  datatype Request = Request(typ: Type, device: string, key: string, payload: string)

  function Body(payload: string): string {
    if payload == "" then "{}" else payload
  }

  /** The payload asked for; an absent one is an empty JSON object. */
  predicate PayloadOf(q: Request, payload: string) {
    if |q.payload| > 0 then payload == q.payload else payload == "{}"
  }

  /** A row as its INSERT leaves it: what was asked for, in ACCEPTED, with three attempts ahead of it. */
  predicate Asked(q: Request, tier: Tier, r: Row) {
    r.typ == q.typ && r.tier == tier && r.device == q.device && r.key == q.key && PayloadOf(q, r.payload) &&
    r.state == Accepted && r.attempts == 0 && r.maxAttempts == 3 &&
    r.lastError.None? && r.heartbeat.None? && r.startedAt.None? && r.finishedAt.None?
  }

  function NewRow(q: Request, tier: Tier): Row {
    Row(q.typ, tier, q.device, Body(q.payload), q.key, Accepted, 0, MAX_ATTEMPTS, None, None, None, None)
  }

  /** The unique index on (idempotency_key, type). */
  predicate Taken(rows: Table, key: string, typ: Type) {
    exists id :: id in rows && rows[id].key == key && rows[id].typ == typ
  }

  /** INSERT succeeds only on a fresh primary key, a free (key, type) and a known device. */
  predicate CanInsert(rows: Table, devices: set<string>, q: Request, id: JobId) {
    id !in rows && !Taken(rows, q.key, q.typ) && q.device in devices
  }

  function WithState(r: Row, st: State, err: Option<string>, now: int): Row {
    r.(state := st,
       startedAt := if r.startedAt.Some? then r.startedAt else if st == Running then Some(now) else None,
       finishedAt := if st == Success || st == Failed then Some(now) else r.finishedAt,
       lastError := if err.Some? then err else r.lastError)
  }

  function WithAttempt(r: Row): Row {
    r.(attempts := r.attempts + 1)
  }

  function Requeued(r: Row): Row {
    r.(state := Queued, attempts := r.attempts + 1, heartbeat := None, startedAt := None)
  }

  function WithHeartbeat(r: Row, now: int): Row {
    r.(heartbeat := Some(now))
  }

  /** The WHERE clause of the reaper's scan; a NULL heartbeat never compares. */
  predicate Stale(r: Row, now: int) {
    r.state == Running && r.heartbeat.Some? && r.heartbeat.value < now - STALENESS
  }

  /** The columns no statement changes after INSERT. */
  predicate SameJob(a: Row, b: Row) {
    a.typ == b.typ && a.tier == b.tier && a.device == b.device && a.payload == b.payload &&
    a.key == b.key && a.maxAttempts == b.maxAttempts
  }

  /** Rows are never deleted, their identity never changes, their attempts never fall. */
  ghost predicate Grows(a: Table, b: Table) {
    forall id :: id in a ==> id in b && SameJob(a[id], b[id]) && a[id].attempts <= b[id].attempts
  }

  ghost predicate UniqueKeys(rows: Table) {
    forall a, b :: a in rows && b in rows && rows[a].key == rows[b].key && rows[a].typ == rows[b].typ ==> a == b
  }
}

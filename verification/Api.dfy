/** The API's submission: Redis claim, lookup or insert, publish, mark QUEUED, reply. */
module Api {
  import opened Prelude
  import opened Jobs
  import opened Store
  import opened Broker
  import opened Serial
  import opened Components
  import Authors
  import Protocol

  type Claims = map<string, Protocol.Claim>

  predicate Live(claims: Claims, key: string, now: int) {
    key in claims && now < claims[key].expires
  }

  // ----- claims -----

  /** The claim store; an expired entry is as good as none. */
  class RedisAcquirer {
    var claims: Claims

    constructor ()
      ensures claims == map[]
    {
      claims := map[];
    }

    method SetNx(key: string, id: JobId, now: int) returns (ok: bool)
      modifies this
      ensures ok <==> !Live(old(claims), key, now)
      ensures claims == if ok then old(claims)[key := Protocol.Claim(id, now + Protocol.CLAIM_TTL)] else old(claims)
    {
      ok := key !in claims || claims[key].expires <= now;
      if ok {
        claims := claims[key := Protocol.Claim(id, now + Protocol.CLAIM_TTL)];
      }
    }

    method Get(key: string, now: int) returns (id: Option<JobId>)
      ensures id == if Live(claims, key, now) then Some(claims[key].id) else None
    {
      if key in claims && now < claims[key].expires {
        id := Some(claims[key].id);
      } else {
        id := None;
      }
    }

    /**
     Claims the key for `draw`, or reads who holds it `wait` later; the claim may have expired in between. None is
     an error, otherwise the holder and whether it is new.
     */
    method Acquire(key: string, draw: JobId, now: int, wait: nat) returns (r: Option<(JobId, bool)>)
      modifies this
      ensures r.Some? && r.value.1 <==> !Live(old(claims), key, now)
      ensures r.None? <==> Live(old(claims), key, now) && !Live(old(claims), key, now + wait)
      ensures r.Some? ==> Live(claims, key, now) && claims[key].id == r.value.0
      ensures claims == if Live(old(claims), key, now) then old(claims)
                        else old(claims)[key := Protocol.Claim(draw, now + Protocol.CLAIM_TTL)]
    {
      var ok := SetNx(key, draw, now);
      if ok {
        return Some((draw, true));
      }
      var holder := Get(key, now + wait);
      if holder.None? {
        return None;
      }
      return Some((holder.value, false));
    }
  }

  // ----- submission -----

  datatype Response = BadRequest | Internal | Found(id: JobId, state: State) | Created(id: JobId, state: State)
  {
    predicate HasId() {
      Found? || Created?
    }
  }

  /** One request: the identifiers it will draw, and the time between SETNX and GET. */
  datatype Call = Call(req: Request, draw: JobId, id: JobId, wait: nat, trace: seq<Header>)

  /** The whole request as one function; `found` is the database's answer to the lookup. */
  function Submission(u: Setup, pl: Plant, claims: Claims, c: Call, found: Option<JobId>): (Plant, Claims, Response) {
    var q := c.req;
    if !Valid(q.typ) || !ValidKey(q.key) || TierFor(q.typ).None? then (pl, claims, BadRequest)
    else if Live(claims, q.key, pl.now) then
      (pl, claims,
       if !Live(claims, q.key, pl.now + c.wait) || found.None? || found.value !in pl.rows then Internal
       else Found(found.value, pl.rows[found.value].state))
    else
      var (after, err) := Serial.Submit(u, pl, q, c.id, c.trace);
      (after, claims[q.key := Protocol.Claim(c.draw, pl.now + Protocol.CLAIM_TTL)],
       if err.None? then Created(c.id, State.Queued)
       else if err == Some("publish") then Created(c.id, State.Accepted)
       else Internal)
  }

  /** Insert and publish for a request that won its claim; a publish that fails is answered all the same. */
  method Create(site: Site, c: Call, tier: Tier) returns (r: Response)
    requires TierFor(c.req.typ) == Some(tier)
    modifies site.store`rows, site.kafka
    ensures site.Now() == Serial.Submit(site.U(), old(site.Now()), c.req, c.id, c.trace).0
    ensures var err := Serial.Submit(site.U(), old(site.Now()), c.req, c.id, c.trace).1;
            r == if err.None? then Created(c.id, State.Queued)
                 else if err == Some("publish") then Created(c.id, State.Accepted) else Internal
  {
    var job := site.store.CreateJob(c.req, tier, c.id);
    if job.None? {
      return Internal;
    }
    var ok := site.kafka.Publish(Main(tier), c.req.device, MessageFor(c.id, job.value, []), c.trace);
    if !ok {
      return Created(c.id, job.value.state);
    }
    ghost var before := old(site.store.rows);
    var queued := site.store.UpdateJobState(c.id, State.Queued, None);
    assert before[c.id := job.value][c.id := queued.value] == before[c.id := queued.value];
    return Created(c.id, queued.value.state);
  }

  /** What the lookup would answer, for requests that never ask. */
  ghost function SomeAnswer(rows: Table, q: Request): (found: Option<JobId>)
    ensures Protocol.LookupAnswer(rows, q, found)
  {
    if Taken(rows, q.key, q.typ) then
      var id :| id in rows && rows[id].key == q.key && rows[id].typ == q.typ;
      Some(id)
    else None
  }

  /** Validates, claims the key, answers with the existing job or creates one. */
  method SubmitJob(site: Site, redis: RedisAcquirer, c: Call) returns (r: Response, ghost found: Option<JobId>)
    modifies site.store`rows, site.kafka, redis
    ensures Protocol.LookupAnswer(old(site.store.rows), c.req, found)
    ensures (site.Now(), redis.claims, r) == Submission(site.U(), old(site.Now()), old(redis.claims), c, found)
  {
    found := SomeAnswer(site.store.rows, c.req);
    if !Valid(c.req.typ) || !ValidKey(c.req.key) {
      return BadRequest, found;
    }
    var tier := TierFor(c.req.typ);
    if tier.None? {
      return BadRequest, found;
    }
    var claim := redis.Acquire(c.req.key, c.draw, site.store.clock.now, c.wait);
    if claim.None? {
      return Internal, found;
    }
    if !claim.value.1 {
      var existing := site.store.FindByKey(c.req.key, c.req.typ);
      if existing.None? {
        return Internal, None;
      }
      return Found(existing.value, site.store.rows[existing.value].state), existing;
    }
    r := Create(site, c, tier.value);
  }

  // ----- what a reply means -----

  lemma InsertKeepsUnique(rows: Table, devices: set<string>, q: Request, id: JobId, r: Row)
    requires UniqueKeys(rows) && CanInsert(rows, devices, q, id) && r.key == q.key && r.typ == q.typ
    ensures UniqueKeys(rows[id := r]) && Grows(rows, rows[id := r])
  {
    assert forall x :: x in rows ==> !(rows[x].key == q.key && rows[x].typ == q.typ);
  }

  lemma SubmitKeepsUnique(u: Setup, pl: Plant, q: Request, id: JobId, trace: seq<Header>)
    requires UniqueKeys(pl.rows)
    ensures UniqueKeys(Serial.Submit(u, pl, q, id, trace).0.rows)
    ensures Grows(pl.rows, Serial.Submit(u, pl, q, id, trace).0.rows)
  {
    if TierFor(q.typ).Some? && CanInsert(pl.rows, pl.devices.Keys, q, id) {
      InsertKeepsUnique(pl.rows, pl.devices.Keys, q, id, Serial.Submit(u, pl, q, id, trace).0.rows[id]);
    }
  }

  /** A reply's id names the one row of the request's (key, type), and its state is that row's. */
  lemma RepliesNameTheRow(u: Setup, pl: Plant, claims: Claims, c: Call, found: Option<JobId>)
    requires Protocol.LookupAnswer(pl.rows, c.req, found) && UniqueKeys(pl.rows)
    ensures var (after, _, r) := Submission(u, pl, claims, c, found);
            UniqueKeys(after.rows) && Grows(pl.rows, after.rows) &&
            (r.HasId() ==> r.id in after.rows && after.rows[r.id].key == c.req.key &&
                           after.rows[r.id].typ == c.req.typ && after.rows[r.id].state == r.state)
  {
    SubmitKeepsUnique(u, pl, c.req, c.id, c.trace);
  }

  /**
   Exactly when a well-formed request gets an id: its key is claimed, the claim outlives the read, and a row with
   this key and type exists; or its key is unclaimed and the row can be inserted.
   */
  lemma AnsweredIff(u: Setup, pl: Plant, claims: Claims, c: Call, found: Option<JobId>)
    requires Valid(c.req.typ) && ValidKey(c.req.key) && Protocol.LookupAnswer(pl.rows, c.req, found)
    ensures Submission(u, pl, claims, c, found).2.HasId() <==>
            if Live(claims, c.req.key, pl.now)
            then Live(claims, c.req.key, pl.now + c.wait) && Taken(pl.rows, c.req.key, c.req.typ)
            else CanInsert(pl.rows, pl.devices.Keys, c.req, c.id)
  {
    RegistryIsTotalOnValid(c.req.typ);
  }

  /**
   A repeated request creates and publishes nothing, whatever happened in between. It is answered with the first
   one's id exactly while the claim lives; after that the unique index refuses it and the caller gets an error.
   */
  lemma RepeatGetsSameIdOrError(u: Setup, pl: Plant, claims: Claims, c: Call, found: Option<JobId>,
                                later: Plant, laterClaims: Claims, d: Call, foundLater: Option<JobId>)
    requires Protocol.LookupAnswer(pl.rows, c.req, found) && Protocol.LookupAnswer(later.rows, d.req, foundLater)
    requires UniqueKeys(pl.rows) && UniqueKeys(later.rows) && d.req.key == c.req.key && d.req.typ == c.req.typ
    requires Submission(u, pl, claims, c, found).2.HasId()
    requires Grows(Submission(u, pl, claims, c, found).0.rows, later.rows)
    ensures var first := Submission(u, pl, claims, c, found).2;
            var (after, _, r) := Submission(u, later, laterClaims, d, foundLater);
            after == later &&
            r == if Live(laterClaims, d.req.key, later.now) && Live(laterClaims, d.req.key, later.now + d.wait)
                 then Found(first.id, later.rows[first.id].state) else Internal
  {
    RepliesNameTheRow(u, pl, claims, c, found);
    var first := Submission(u, pl, claims, c, found).2;
    assert later.rows[first.id].key == d.req.key && later.rows[first.id].typ == d.req.typ;
    assert Taken(later.rows, d.req.key, d.req.typ);
  }

  /**
   The same by the clock: for 24 hours from the moment the key was claimed, to the nanosecond at which the repeat reads
   the claim, a repeated request gets the first one's id; from then on, while the key has not been claimed anew, an
   error.
   */
  lemma RepeatWithinADay(u: Setup, pl: Plant, claims: Claims, c: Call, found: Option<JobId>,
                         later: Plant, laterClaims: Claims, d: Call, foundLater: Option<JobId>)
    requires Protocol.LookupAnswer(pl.rows, c.req, found) && Protocol.LookupAnswer(later.rows, d.req, foundLater)
    requires UniqueKeys(pl.rows) && UniqueKeys(later.rows) && d.req.key == c.req.key && d.req.typ == c.req.typ
    requires Submission(u, pl, claims, c, found).2.Created?
    requires Grows(Submission(u, pl, claims, c, found).0.rows, later.rows)
    requires c.req.key in laterClaims && laterClaims[c.req.key] == Submission(u, pl, claims, c, found).1[c.req.key]
    ensures var first := Submission(u, pl, claims, c, found).2;
            var (after, _, r) := Submission(u, later, laterClaims, d, foundLater);
            after == later &&
            r == if later.now + d.wait < pl.now + 24 * 3600 * 1_000_000_000
                 then Found(first.id, later.rows[first.id].state) else Internal
  {
    RepeatGetsSameIdOrError(u, pl, claims, c, found, later, laterClaims, d, foundLater);
  }

  /** A type that no tier knows, or a key that is too short, too long, or has a character it may not have. */
  predicate Malformed(q: Request) {
    !Authors.Recognised(q.typ) || !Authors.WellFormed(q.key)
  }

  /** Exactly the malformed requests are turned away at the door, and they change nothing. */
  lemma MalformedIsRefused(u: Setup, pl: Plant, claims: Claims, c: Call, found: Option<JobId>)
    ensures var (after, claimed, r) := Submission(u, pl, claims, c, found);
            (r == BadRequest <==> Malformed(c.req)) && (Malformed(c.req) ==> after == pl && claimed == claims)
  {
    Authors.FormatIsWellFormed(c.req.key);
    RegistryIsTotalOnValid(c.req.typ);
  }

  /**
   The claim is on the key alone while the index is on (key, type): a second type under a claimed key is refused,
   although the table would take it.
   */
  lemma ClaimIgnoresType(u: Setup, pl: Plant, claims: Claims, c: Call, d: Call, foundC: Option<JobId>,
    foundD: Option<JobId>)
    requires Protocol.LookupAnswer(pl.rows, c.req, foundC) && Submission(u, pl, claims, c, foundC).2.Created?
    requires d.req.key == c.req.key && d.req.typ != c.req.typ && !Taken(pl.rows, d.req.key, d.req.typ)
    requires Protocol.LookupAnswer(Submission(u, pl, claims, c, foundC).0.rows, d.req, foundD)
    ensures var (after, claimed, _) := Submission(u, pl, claims, c, foundC);
            !Submission(u, after, claimed, d, foundD).2.HasId() && Submission(u, after, claimed, d, foundD).0 == after
  {
    var after := Submission(u, pl, claims, c, foundC).0;
    assert !Taken(after.rows, d.req.key, d.req.typ);
  }
}

/**
 A request to the API, taken as one function in Api, is a run of one submission's calls in the call-level machine: the
 same rows, logs, claims and reply, in every branch.
 */
module Requests {
  import opened Prelude
  import opened Jobs
  import opened Store
  import opened Broker
  import opened Protocol
  import opened Atomic
  import Api
  import Serial

  /** The reply of a response: one with an id if it has one. */
  function Replied(q: Request, r: Api.Response): seq<Reply> {
    if r.HasId() then [Reply(q.key, q.typ, r.id)] else []
  }

  /** `t` is `s` after a request with these effects: its plant, its claims, and its reply. */
  ghost predicate After(cfg: Config, u: Serial.Setup, s: Sys, t: Sys, pl: Serial.Plant, claims: Api.Claims, q: Request,
    r: Api.Response)
  {
    Reaches(cfg, s, t) && Shows(cfg, u, t, pl) && t.claims == claims &&
    t.subm.replies == s.subm.replies + Replied(q, r) &&
    t.workers == s.workers && t.routers == s.routers && t.reapers == s.reapers && t.work == s.work
  }

  /** The request has arrived, and its first call is next. */
  lemma Arrives(cfg: Config, s: Sys, q: Request) returns (t: Sys)
    ensures Reaches(cfg, s, t) && t == s.(subs := s.subs + [Arrival(q, true)])
  {
    One(cfg, s, Arrive(q, true));
    t := Next(cfg, s, Arrive(q, true)).value;
  }

  lemma RefusedAtTheDoor(cfg: Config, u: Serial.Setup, s: Sys, pl: Serial.Plant, q: Request) returns (t: Sys)
    requires Shows(cfg, u, s, pl)
    ensures After(cfg, u, s, t, pl, s.claims, q, Api.BadRequest)
  {
    t := Arrives(cfg, s, q);
    assert s.subm.replies + [] == s.subm.replies;
  }

  /** SETNX finds the key claimed, and GET follows `wait` later. */
  lemma LosesClaim(cfg: Config, u: Serial.Setup, s: Sys, pl: Serial.Plant, q: Request, wait: nat) returns (t: Sys)
    requires Shows(cfg, u, s, pl) && Valid(q.typ) && ValidKey(q.key) && ClaimLive(s, q.key)
    ensures Reaches(cfg, s, t)
    ensures var stage := if s.now + wait < s.claims[q.key].expires then Existing else Closed;
            t == s.(subs := s.subs + [Sub(q, true, stage, "")], now := s.now + wait)
  {
    var i := |s.subs|;
    var a := Arrives(cfg, s, q);
    var b := ApplySub(a, i, SubCallEffect(cfg, a, a.subs[i], PLAIN).value);
    SubCalls(cfg, a, i, PLAIN, SubCallEffect(cfg, a, a.subs[i], PLAIN).value);
    Join(cfg, s, a, b);
    One(cfg, b, Tick(wait));
    var c := Next(cfg, b, Tick(wait)).value;
    Join(cfg, s, b, c);
    t := ApplySub(c, i, SubCallEffect(cfg, c, c.subs[i], PLAIN).value);
    SubCalls(cfg, c, i, PLAIN, SubCallEffect(cfg, c, c.subs[i], PLAIN).value);
    Join(cfg, s, c, t);
    assert t.subs == s.subs + [t.subs[i]];
  }

  /** The lookup of a request that lost its claim. */
  lemma LooksUp(cfg: Config, s: Sys, i: nat, found: Option<JobId>) returns (t: Sys)
    requires i < |s.subs| && s.subs[i].api && s.subs[i].stage == Existing && LookupAnswer(s.rows, s.subs[i].req, found)
    ensures Reaches(cfg, s, t) && t.rows == s.rows && t.parts == s.parts && t.now == s.now && t.devices == s.devices
    ensures t.claims == s.claims && t.workers == s.workers && t.routers == s.routers && t.reapers == s.reapers
    ensures t.work == s.work
    ensures t.subm.replies == s.subm.replies +
              (if found.Some? then [Reply(s.subs[i].req.key, s.subs[i].req.typ, found.value)] else [])
  {
    var c := PLAIN.(found := found);
    t := ApplySub(s, i, SubCallEffect(cfg, s, s.subs[i], c).value);
    SubCalls(cfg, s, i, c, SubCallEffect(cfg, s, s.subs[i], c).value);
  }

  /** SETNX takes the claim. */
  lemma TakesClaim(cfg: Config, u: Serial.Setup, s: Sys, pl: Serial.Plant, q: Request, draw: JobId) returns (t: Sys)
    requires Shows(cfg, u, s, pl) && Valid(q.typ) && ValidKey(q.key) && !ClaimLive(s, q.key)
    ensures Reaches(cfg, s, t)
    ensures t == s.(subs := s.subs + [Sub(q, true, Inserting, "")],
                    claims := s.claims[q.key := Claim(draw, s.now + CLAIM_TTL)])
  {
    var i := |s.subs|;
    var a := Arrives(cfg, s, q);
    var c := PLAIN.(id := draw);
    t := ApplySub(a, i, SubCallEffect(cfg, a, a.subs[i], c).value);
    SubCalls(cfg, a, i, c, SubCallEffect(cfg, a, a.subs[i], c).value);
    Join(cfg, s, a, t);
  }

  /** INSERT, publish and QUEUED of a request that has its claim; or its refusal. */
  lemma Creates(cfg: Config, u: Serial.Setup, s: Sys, pl: Serial.Plant, i: nat, c: Api.Call) returns (t: Sys)
    requires Shows(cfg, u, s, pl) && Wired(u.route, pl.parts) && Valid(c.req.typ)
    requires i < |s.subs| && s.subs[i] == Sub(c.req, true, Inserting, "")
    ensures var (after, err) := Serial.Submit(u, pl, c.req, c.id, c.trace);
            After(cfg, u, s, t, after, s.claims, c.req,
                  if err.None? then Api.Created(c.id, State.Queued) else Api.Internal) &&
            (err.None? || err == Some("create job"))
  {
    RegistryIsTotalOnValid(c.req.typ);
    var choice := PLAIN.(id := c.id);
    var f := SubCallEffect(cfg, s, s.subs[i], choice).value;
    SubCalls(cfg, s, i, choice, f);
    var a := ApplySub(s, i, f);
    if CanInsert(pl.rows, pl.devices.Keys, c.req, c.id) {
      var r := NewRow(c.req, TierFor(c.req.typ).value);
      assert Routed(u.route, pl.parts, Main(r.tier), c.req.device);
      t := PublishCalls(cfg, u, a, pl.(rows := pl.rows[c.id := r]), i, c.trace);
      Join(cfg, s, a, t);
      var st := WithState(r, State.Queued, None, pl.now);
      assert pl.rows[c.id := r][c.id := st] == pl.rows[c.id := st];
    } else {
      t := a;
      assert s.subm.replies + [] == s.subm.replies;
    }
  }

  /** A request that finds its key claimed. */
  lemma LosingIsCalls(cfg: Config, u: Serial.Setup, s: Sys, pl: Serial.Plant, c: Api.Call, found: Option<JobId>)
    returns (t: Sys)
    requires Shows(cfg, u, s, pl) && Valid(c.req.typ) && ValidKey(c.req.key) && TierFor(c.req.typ).Some?
    requires Api.Live(s.claims, c.req.key, pl.now) && LookupAnswer(pl.rows, c.req, found)
    ensures var (after, claims, r) := Api.Submission(u, pl, s.claims, c, found);
            After(cfg, u, s, t, after.(now := pl.now + c.wait), claims, c.req, r)
  {
    var a := LosesClaim(cfg, u, s, pl, c.req, c.wait);
    if Api.Live(s.claims, c.req.key, pl.now + c.wait) {
      t := LooksUp(cfg, a, |s.subs|, found);
      Join(cfg, s, a, t);
    } else {
      t := a;
    }
    assert s.subm.replies + [] == s.subm.replies;
  }

  /** Time passes between SETNX and GET, for a request that lost its claim. */
  function Waited(pl: Serial.Plant, claims: Api.Claims, c: Api.Call): Serial.Plant {
    if !Api.Malformed(c.req) && Api.Live(claims, c.req.key, pl.now) then pl.(now := pl.now + c.wait) else pl
  }

  /**
   From any state, where every topic is there: the request as a function of the whole plant is a plain run of its calls,
   with the rows, logs, claims and reply it says, whatever the branch.
   */
  lemma RequestIsCalls(cfg: Config, u: Serial.Setup, s: Sys, pl: Serial.Plant, c: Api.Call, found: Option<JobId>)
    returns (t: Sys)
    requires Shows(cfg, u, s, pl) && Wired(u.route, pl.parts) && LookupAnswer(pl.rows, c.req, found)
    ensures var (after, claims, r) := Api.Submission(u, pl, s.claims, c, found);
            After(cfg, u, s, t, after.(now := Waited(pl, s.claims, c).now), claims, c.req, r)
  {
    var q := c.req;
    Api.MalformedIsRefused(u, pl, s.claims, c, found);
    RegistryIsTotalOnValid(q.typ);
    if Api.Malformed(q) {
      t := RefusedAtTheDoor(cfg, u, s, pl, q);
    } else if Api.Live(s.claims, q.key, pl.now) {
      t := LosingIsCalls(cfg, u, s, pl, c, found);
    } else {
      var a := TakesClaim(cfg, u, s, pl, q, c.draw);
      t := Creates(cfg, u, a, pl, |s.subs|, c);
      Join(cfg, s, a, t);
    }
  }
}

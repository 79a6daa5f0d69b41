/**
 Who is answered, on every run: which calls of an API submission end in a reply with an id, and what a repeated request
 gets within 24 hours of the first, whatever other submissions, processes, crashes and failed calls come in between.
 */
module Repeats {
  import opened Prelude
  import opened Store
  import opened Protocol
  import Idempotency
  import Routing

  /** The events of submission `i`. */
  predicate Of(e: Event, i: nat) {
    (e.SubCall? || e.SubError? || e.SubCrash?) && e.i == i
  }

  /** The run leaves submission `i` alone. */
  predicate Spares(es: seq<Event>, i: nat) {
    forall k :: 0 <= k < |es| ==> !Of(es[k], i)
  }

  lemma OthersSpare(cfg: Config, s: Sys, e: Event, i: nat)
    requires i < |s.subs| && !Of(e, i) && Next(cfg, s, e).Some?
    ensures i < |Next(cfg, s, e).value.subs| && Next(cfg, s, e).value.subs[i] == s.subs[i]
  {
  }

  lemma {:induction false} RunSpares(cfg: Config, s: Sys, es: seq<Event>, t: Sys, i: nat)
    requires i < |s.subs| && Spares(es, i) && Run(cfg, s, es, t)
    ensures i < |t.subs| && t.subs[i] == s.subs[i]
    decreases |es|
  {
    if es != [] {
      assert !Of(es[0], i);
      OthersSpare(cfg, s, es[0], i);
      assert Spares(es[1..], i) by { assert forall k :: 0 <= k < |es[1..]| ==> es[1..][k] == es[k + 1]; }
      RunSpares(cfg, Next(cfg, s, es[0]).value, es[1..], t, i);
    }
  }

  // ----- claims -----

  /** 24 hours. */
  const DAY: int := 24 * 60 * 60 * 1_000_000_000

  /** Until `until` the key is claimed, for as long as that. */
  predicate ClaimedUntil(s: Sys, key: string, until: int) {
    s.now < until ==> key in s.claims && s.claims[key].expires == until
  }

  lemma ClaimStep(cfg: Config, s: Sys, e: Event, key: string, until: int)
    requires ClaimedUntil(s, key, until) && Next(cfg, s, e).Some?
    ensures ClaimedUntil(Next(cfg, s, e).value, key, until) && s.now <= Next(cfg, s, e).value.now
  {
    if s.now < until && (e.SubCall? || (e.SubError? && e.applied)) { ClaimCall(cfg, s, s.subs[e.i], e.c, key, until); }
  }

  lemma ClaimCall(cfg: Config, s: Sys, b: Sub, c: Choice, key: string, until: int)
    requires ClaimedUntil(s, key, until) && SubCallEffect(cfg, s, b, c).Some? && s.now < until
    ensures var claims := SubCallEffect(cfg, s, b, c).value.claims; key in claims && claims[key].expires == until
  {
  }

  lemma {:induction false} ClaimRun(cfg: Config, s: Sys, es: seq<Event>, t: Sys, key: string, until: int)
    requires ClaimedUntil(s, key, until) && Run(cfg, s, es, t)
    ensures ClaimedUntil(t, key, until) && s.now <= t.now
    decreases |es|
  {
    if es != [] {
      ClaimStep(cfg, s, es[0], key, until);
      ClaimRun(cfg, Next(cfg, s, es[0]).value, es[1..], t, key, until);
    }
  }

  /** Submission `i` takes the claim of its key in `s`. */
  predicate TakesClaim(cfg: Config, s: Sys, i: nat, c: Choice) {
    i < |s.subs| && s.subs[i].stage == Claiming && !ClaimLive(s, s.subs[i].req.key) && Next(cfg, s, SubCall(i, c)).Some?
  }

  /** A claim lasts 24 hours to the nanosecond, whatever happens meanwhile. */
  lemma ClaimLastsADay(cfg: Config, s: Sys, i: nat, c: Choice, es: seq<Event>, t: Sys)
    requires TakesClaim(cfg, s, i, c) && Run(cfg, Next(cfg, s, SubCall(i, c)).value, es, t)
    ensures t.now < s.now + DAY ==>
              ClaimLive(t, s.subs[i].req.key) && t.claims[s.subs[i].req.key].expires == s.now + DAY
    ensures var key := s.subs[i].req.key;
            key in t.claims && t.claims[key].expires == s.now + DAY && t.now >= s.now + DAY ==> !ClaimLive(t, key)
  {
    ClaimRun(cfg, Next(cfg, s, SubCall(i, c)).value, es, t, s.subs[i].req.key, s.now + DAY);
  }

  // ----- replies -----

  /** The row of the request's key and type. */
  predicate RowOf(rows: Table, q: Request, j: JobId) {
    j in rows && rows[j].key == q.key && rows[j].typ == q.typ
  }

  /** The reply of an API submission with an id. */
  function Answer(b: Sub, id: JobId): seq<Reply> {
    [Reply(b.req.key, b.req.typ, id)]
  }

  /** A call of an API submission replies when it finds a row, or marks its own QUEUED. */
  predicate CallAnswers(s: Sys, b: Sub) {
    b.api && ((b.stage == Existing && Taken(s.rows, b.req.key, b.req.typ)) || b.stage == Published)
  }

  lemma CallReplies(cfg: Config, s: Sys, b: Sub, c: Choice)
    requires Routing.SubOk(s.rows, b) && SubCallEffect(cfg, s, b, c).Some?
    ensures var f := SubCallEffect(cfg, s, b, c).value;
            if CallAnswers(s, b)
            then f.sub.stage == Closed && RowOf(f.rows, b.req, f.sub.id) &&
                 f.log.replies == s.subm.replies + Answer(b, f.sub.id)
            else f.log.replies == s.subm.replies
  {
  }

  lemma FailureReplies(cfg: Config, s: Sys, i: nat, c: Choice)
    requires i < |s.subs| && Routing.SubOk(s.rows, s.subs[i]) && FailSub(cfg, s, i, c, false).Some?
    ensures var b := s.subs[i];
            var t := FailSub(cfg, s, i, c, false).value;
            t.subs[i].stage == Closed && t.rows == s.rows &&
            t.subm.replies == s.subm.replies +
              (if b.api && (b.stage == Inserted || b.stage == Published) then Answer(b, b.id) else [])
  {
  }

  lemma AppliedReplies(cfg: Config, s: Sys, i: nat, c: Choice)
    requires i < |s.subs| && Routing.SubOk(s.rows, s.subs[i]) && FailSub(cfg, s, i, c, true).Some?
    ensures var b := s.subs[i];
            var t := FailSub(cfg, s, i, c, true).value;
            t.subs[i].stage == Closed &&
            if CallAnswers(s, b) || (b.api && b.stage == Inserted)
            then RowOf(t.rows, b.req, t.subs[i].id) && t.subm.replies == s.subm.replies + Answer(b, t.subs[i].id)
            else t.subm.replies == s.subm.replies
  {
    CallReplies(cfg, s, s.subs[i], c);
  }

  /** Which events of a submission reply: at the API, lookups that find a row and whatever ends it after its INSERT. */
  predicate Answers(s: Sys, b: Sub, failed: bool, applied: bool) {
    b.api &&
    if !failed then CallAnswers(s, b)
    else b.stage == Inserted || b.stage == Published || (applied && CallAnswers(s, b))
  }

  /**
   On every run: exactly these events of a submission reply, each with the request's key and type and the id of the
   row that has them; a submission that has replied is at its end.
   */
  lemma AnswersExactly(cfg: Config, s0: Sys, es: seq<Event>, s: Sys, i: nat, c: Choice, failed: bool, applied: bool,
    t: Sys)
    requires Init(s0) && Run(cfg, s0, es, s) && i < |s.subs|
    requires Next(cfg, s, if failed then SubError(i, c, applied) else SubCall(i, c)) == Some(t)
    ensures i < |t.subs|
    ensures if Answers(s, s.subs[i], failed, applied)
            then t.subs[i].stage == Closed && RowOf(t.rows, s.subs[i].req, t.subs[i].id) &&
                 t.subm.replies == s.subm.replies + Answer(s.subs[i], t.subs[i].id)
            else t.subm.replies == s.subm.replies
  {
    Routing.InvRun(cfg, s0, es, s);
    assert Routing.SubOk(s.rows, s.subs[i]);
    if !failed { CallReplies(cfg, s, s.subs[i], c); }
    else if applied { AppliedReplies(cfg, s, i, c); }
    else { FailureReplies(cfg, s, i, c); }
  }

  // ----- a repeated request -----

  /**
   A repeated request and its three calls, with anything of others in between: SETNX finds the key claimed, GET follows
   in `s2`, and, if the claim still lives, the lookup in `s3`.
   */
  predicate Repeat(cfg: Config, s1: Sys, i: nat, c1: Choice, fs: seq<Event>, s2: Sys) {
    i < |s1.subs| && s1.subs[i].api && s1.subs[i].stage == Claiming && ClaimLive(s1, s1.subs[i].req.key) &&
    Next(cfg, s1, SubCall(i, c1)).Some? && Spares(fs, i) && Run(cfg, Next(cfg, s1, SubCall(i, c1)).value, fs, s2)
  }

  lemma GetFollows(cfg: Config, s1: Sys, i: nat, c1: Choice, fs: seq<Event>, s2: Sys)
    requires Repeat(cfg, s1, i, c1, fs, s2)
    ensures i < |s2.subs| && s2.subs[i] == s1.subs[i].(stage := Losing)
  {
    RunSpares(cfg, Next(cfg, s1, SubCall(i, c1)).value, fs, s2, i);
  }

  /** With the claim gone at its GET, the repeated request ends without a reply. */
  lemma LateRepeatGetsNothing(cfg: Config, s1: Sys, i: nat, c1: Choice, fs: seq<Event>, s2: Sys, c2: Choice, t: Sys)
    requires Repeat(cfg, s1, i, c1, fs, s2) && !ClaimLive(s2, s1.subs[i].req.key)
    requires Next(cfg, s2, SubCall(i, c2)) == Some(t)
    ensures i < |t.subs| && t.subs[i].stage == Closed && t.subm == s2.subm && t.rows == s2.rows && t.parts == s2.parts
  {
    GetFollows(cfg, s1, i, c1, fs, s2);
  }

  lemma LookupFollows(cfg: Config, s1: Sys, i: nat, c1: Choice, fs: seq<Event>, s2: Sys, c2: Choice, gs: seq<Event>,
    s3: Sys)
    requires Repeat(cfg, s1, i, c1, fs, s2) && ClaimLive(s2, s1.subs[i].req.key)
    requires Next(cfg, s2, SubCall(i, c2)).Some? && Spares(gs, i)
    requires Run(cfg, Next(cfg, s2, SubCall(i, c2)).value, gs, s3)
    ensures i < |s3.subs| && s3.subs[i] == s1.subs[i].(stage := Existing)
  {
    GetFollows(cfg, s1, i, c1, fs, s2);
    RunSpares(cfg, Next(cfg, s2, SubCall(i, c2)).value, gs, s3, i);
  }

  lemma LookupAnswers(cfg: Config, s: Sys, i: nat, c: Choice)
    requires i < |s.subs| && s.subs[i].api && s.subs[i].stage == Existing && Next(cfg, s, SubCall(i, c)).Some?
    ensures var t := Next(cfg, s, SubCall(i, c)).value;
            t.subs[i].stage == Closed && t.rows == s.rows && t.parts == s.parts &&
            if Taken(s.rows, s.subs[i].req.key, s.subs[i].req.typ)
            then RowOf(s.rows, s.subs[i].req, t.subs[i].id) &&
                 t.subm.replies == s.subm.replies + Answer(s.subs[i], t.subs[i].id)
            else t.subm.replies == s.subm.replies
  {
  }

  /**
   On every run: with the claim alive at its GET, the repeated request is answered by its lookup exactly when a row of
   its key and type exists, with that row's id; it inserts and publishes nothing.
   */
  lemma RepeatIsAnswered(cfg: Config, s0: Sys, es: seq<Event>, s1: Sys, i: nat, c1: Choice, fs: seq<Event>, s2: Sys,
    c2: Choice, gs: seq<Event>, s3: Sys, c3: Choice, t: Sys)
    requires Init(s0) && Run(cfg, s0, es, s1) && Repeat(cfg, s1, i, c1, fs, s2) && ClaimLive(s2, s1.subs[i].req.key)
    requires Next(cfg, s2, SubCall(i, c2)).Some? && Spares(gs, i)
    requires Run(cfg, Next(cfg, s2, SubCall(i, c2)).value, gs, s3)
    requires Next(cfg, s3, SubCall(i, c3)) == Some(t)
    ensures i < |t.subs| && t.subs[i].stage == Closed && t.rows == s3.rows && t.parts == s3.parts
    ensures Taken(s3.rows, s1.subs[i].req.key, s1.subs[i].req.typ) ==>
              RowOf(s3.rows, s1.subs[i].req, t.subs[i].id) &&
              t.subm.replies == s3.subm.replies + Answer(s1.subs[i], t.subs[i].id)
    ensures !Taken(s3.rows, s1.subs[i].req.key, s1.subs[i].req.typ) ==> t.subm.replies == s3.subm.replies
  {
    LookupFollows(cfg, s1, i, c1, fs, s2, c2, gs, s3);
    LookupAnswers(cfg, s3, i, c3);
  }

  lemma {:induction false} RowStays(cfg: Config, s: Sys, es: seq<Event>, t: Sys, q: Request, j: JobId)
    requires RowOf(s.rows, q, j) && Run(cfg, s, es, t)
    ensures RowOf(t.rows, q, j)
    decreases |es|
  {
    if es != [] {
      Routing.NextGrows(cfg, s, es[0]);
      RowStays(cfg, Next(cfg, s, es[0]).value, es[1..], t, q, j);
    }
  }

  /** The claim of submission `h`, taken in `s`, still lives in every state before its day is over. */
  lemma ClaimStillLives(cfg: Config, s: Sys, h: nat, c: Choice, ds: seq<Event>, s1: Sys, i: nat, c1: Choice,
    fs: seq<Event>, s2: Sys)
    requires TakesClaim(cfg, s, h, c) && Run(cfg, Next(cfg, s, SubCall(h, c)).value, ds, s1)
    requires i < |s1.subs| && s1.subs[i].req.key == s.subs[h].req.key && Next(cfg, s1, SubCall(i, c1)).Some?
    requires Run(cfg, Next(cfg, s1, SubCall(i, c1)).value, fs, s2) && s2.now < s.now + DAY
    ensures ClaimLive(s1, s.subs[h].req.key) && ClaimLive(s2, s.subs[h].req.key)
  {
    var key := s.subs[h].req.key;
    ClaimRun(cfg, Next(cfg, s, SubCall(h, c)).value, ds, s1, key, s.now + DAY);
    ClaimStep(cfg, s1, SubCall(i, c1), key, s.now + DAY);
    ClaimRun(cfg, Next(cfg, s1, SubCall(i, c1)).value, fs, s2, key, s.now + DAY);
  }

  /** A request whose three calls come, with anything of others in between, when its key is claimed. */
  predicate ThreeCalls(cfg: Config, s1: Sys, i: nat, c1: Choice, fs: seq<Event>, s2: Sys, c2: Choice, gs: seq<Event>,
    s3: Sys, c3: Choice, t: Sys)
  {
    i < |s1.subs| && s1.subs[i].api && s1.subs[i].stage == Claiming && Next(cfg, s1, SubCall(i, c1)).Some? &&
    Spares(fs, i) && Run(cfg, Next(cfg, s1, SubCall(i, c1)).value, fs, s2) && Next(cfg, s2, SubCall(i, c2)).Some? &&
    Spares(gs, i) && Run(cfg, Next(cfg, s2, SubCall(i, c2)).value, gs, s3) && Next(cfg, s3, SubCall(i, c3)) == Some(t)
  }

  /**
   On every run: once a row of a key and type is there, a request for them whose GET comes within 24 hours of the moment
   the key was claimed is answered with that row's id, and inserts and publishes nothing.
   */
  lemma RepeatWithinADay(cfg: Config, s0: Sys, es: seq<Event>, s: Sys, h: nat, c: Choice, ds: seq<Event>, s1: Sys,
    i: nat, c1: Choice, fs: seq<Event>, s2: Sys, c2: Choice, gs: seq<Event>, s3: Sys, c3: Choice, t: Sys, j: JobId)
    requires Init(s0) && Run(cfg, s0, es, s) && TakesClaim(cfg, s, h, c)
    requires Run(cfg, Next(cfg, s, SubCall(h, c)).value, ds, s1)
    requires ThreeCalls(cfg, s1, i, c1, fs, s2, c2, gs, s3, c3, t)
    requires s1.subs[i].req.key == s.subs[h].req.key && RowOf(s1.rows, s1.subs[i].req, j)
    requires s2.now < s.now + DAY
    ensures i < |t.subs| && t.subs[i].stage == Closed && t.rows == s3.rows && t.parts == s3.parts
    ensures t.subm.replies == s3.subm.replies + Answer(s1.subs[i], j)
  {
    ClaimStillLives(cfg, s, h, c, ds, s1, i, c1, fs, s2);
    LookupFollows(cfg, s1, i, c1, fs, s2, c2, gs, s3);
    LookupAnswers(cfg, s3, i, c3);
    var a := Next(cfg, s1, SubCall(i, c1)).value;
    var b := Next(cfg, s2, SubCall(i, c2)).value;
    Routing.NextGrows(cfg, s1, SubCall(i, c1));
    RowStays(cfg, a, fs, s2, s1.subs[i].req, j);
    Routing.NextGrows(cfg, s2, SubCall(i, c2));
    RowStays(cfg, b, gs, s3, s1.subs[i].req, j);
    KeysAreUnique(cfg, s0, es, s, h, c, ds, s1, i, c1, fs, s2, c2, gs, s3, c3, t);
  }

  lemma KeysAreUnique(cfg: Config, s0: Sys, es: seq<Event>, s: Sys, h: nat, c: Choice, ds: seq<Event>, s1: Sys, i: nat,
    c1: Choice, fs: seq<Event>, s2: Sys, c2: Choice, gs: seq<Event>, s3: Sys, c3: Choice, t: Sys)
    requires Init(s0) && Run(cfg, s0, es, s) && Next(cfg, s, SubCall(h, c)).Some?
    requires Run(cfg, Next(cfg, s, SubCall(h, c)).value, ds, s1)
    requires ThreeCalls(cfg, s1, i, c1, fs, s2, c2, gs, s3, c3, t)
    ensures UniqueKeys(s3.rows)
  {
    Idempotency.InvRun(cfg, s0, es, s);
    Idempotency.InvNext(cfg, s, SubCall(h, c));
    Idempotency.InvRun(cfg, Next(cfg, s, SubCall(h, c)).value, ds, s1);
    Idempotency.InvNext(cfg, s1, SubCall(i, c1));
    Idempotency.InvRun(cfg, Next(cfg, s1, SubCall(i, c1)).value, fs, s2);
    Idempotency.InvNext(cfg, s2, SubCall(i, c2));
    Idempotency.InvRun(cfg, Next(cfg, s2, SubCall(i, c2)).value, gs, s3);
  }

  /**
   Once the day is over and nobody has claimed the key since, a repeated request takes the claim and its INSERT is
   refused: no row, no message, no reply.
   */
  lemma RepeatAfterADay(cfg: Config, s1: Sys, i: nat, c1: Choice, fs: seq<Event>, s2: Sys, c2: Choice, t: Sys, j: JobId)
    requires TakesClaim(cfg, s1, i, c1) && RowOf(s1.rows, s1.subs[i].req, j)
    requires Spares(fs, i) && Run(cfg, Next(cfg, s1, SubCall(i, c1)).value, fs, s2)
    requires Next(cfg, s2, SubCall(i, c2)) == Some(t)
    ensures i < |t.subs| && t.subs[i].stage == Closed && t.rows == s2.rows && t.parts == s2.parts && t.subm == s2.subm
  {
    var a := Next(cfg, s1, SubCall(i, c1)).value;
    RunSpares(cfg, a, fs, s2, i);
    RowStays(cfg, a, fs, s2, s1.subs[i].req, j);
    assert Taken(s2.rows, s1.subs[i].req.key, s1.subs[i].req.typ);
  }
}

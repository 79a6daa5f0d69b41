/**
 Idempotent submission, on every run: any number of API replicas and submitters racing, claims expiring,
 crashes and failed calls included.
 */
module Idempotency {
  import opened Prelude
  import opened Jobs
  import opened Store
  import opened Protocol
  import opened Frames
  import Routing

  /** A row inserted by this submission and not yet published. */
  function Unpublished(j: JobId): Sub -> nat {
    (b: Sub) => if b.stage == Inserted && b.id == j then 1 else 0
  }

  predicate ReplyOk(rows: Table, a: Reply) {
    a.id in rows && rows[a.id].key == a.key && rows[a.id].typ == a.typ
  }

  ghost predicate RepliesOk(rows: Table, replies: seq<Reply>) {
    forall i :: 0 <= i < |replies| ==> ReplyOk(rows, replies[i])
  }

  /** One row has at most one publish ahead of it or behind it. */
  ghost predicate OnePublish(s: Sys, j: JobId) {
    s.subm.subPubs[j] + Count(s.subs, Unpublished(j)) <= if j in s.rows then 1 else 0
  }

  ghost predicate Inv(s: Sys) {
    UniqueKeys(s.rows) && RepliesOk(s.rows, s.subm.replies) && (forall j :: OnePublish(s, j)) &&
    (forall i :: 0 <= i < |s.subs| ==> Routing.SubOk(s.rows, s.subs[i]))
  }

  lemma InvElsewhere(s: Sys, t: Sys)
    requires Inv(s) && SameSubs(s, t) && Grows(s.rows, t.rows)
    ensures Inv(t)
  {
    forall j ensures OnePublish(t, j) {
      assert OnePublish(s, j);
    }
    forall i | 0 <= i < |t.subm.replies| ensures ReplyOk(t.rows, t.subm.replies[i]) {
      assert ReplyOk(s.rows, s.subm.replies[i]);
    }
  }

  /** What one call may do to keys, replies and publishes; it moves at most one publish from ahead to behind. */
  ghost predicate Lawful(s: Sys, b: Sub, f: SubEffect) {
    Grows(s.rows, f.rows) && UniqueKeys(f.rows) && Routing.SubOk(f.rows, f.sub) && RepliesOk(f.rows, f.log.replies) &&
    forall j :: f.log.subPubs[j] + Unpublished(j)(f.sub) + (if j in s.rows then 1 else 0) <=
                s.subm.subPubs[j] + Unpublished(j)(b) + (if j in f.rows then 1 else 0)
  }

  lemma LawfulKeepsInv(s: Sys, i: nat, f: SubEffect)
    requires Inv(s) && i < |s.subs| && Lawful(s, s.subs[i], f)
    ensures Inv(ApplySub(s, i, f))
  {
    var t := ApplySub(s, i, f);
    forall j ensures OnePublish(t, j) {
      assert OnePublish(s, j);
      CountUpdate(s.subs, i, f.sub, Unpublished(j));
    }
  }

  lemma RepliesGrow(rows: Table, more: Table, replies: seq<Reply>)
    requires RepliesOk(rows, replies) && Grows(rows, more)
    ensures RepliesOk(more, replies)
  {
    forall i | 0 <= i < |replies| ensures ReplyOk(more, replies[i]) {
      assert ReplyOk(rows, replies[i]);
    }
  }

  lemma InsertIsLawful(cfg: Config, s: Sys, b: Sub, c: Choice)
    requires Inv(s) && b.stage == Inserting && TierFor(b.req.typ).Some? && CanInsert(s.rows, s.devices, b.req, c.id)
    ensures Lawful(s, b, SubCallEffect(cfg, s, b, c).value)
  {
    var rows := s.rows[c.id := NewRow(b.req, TierFor(b.req.typ).value)];
    RepliesGrow(s.rows, rows, s.subm.replies);
    assert forall x :: x in s.rows ==> !(s.rows[x].key == b.req.key && s.rows[x].typ == b.req.typ);
    assert UniqueKeys(rows);
  }

  lemma CallPublishes(cfg: Config, s: Sys, b: Sub, c: Choice, j: JobId)
    requires SubCallEffect(cfg, s, b, c).Some? && SubCallEffect(cfg, s, b, c).value.rows.Keys == s.rows.Keys
    requires b.stage == Inserting ==> SubCallEffect(cfg, s, b, c).value.sub.stage == Closed
    ensures var f := SubCallEffect(cfg, s, b, c).value;
            f.log.subPubs[j] + Unpublished(j)(f.sub) <= s.subm.subPubs[j] + Unpublished(j)(b)
  {
  }

  lemma CallReplies(cfg: Config, s: Sys, b: Sub, c: Choice)
    requires RepliesOk(s.rows, s.subm.replies) && Routing.SubOk(s.rows, b) && SubCallEffect(cfg, s, b, c).Some?
    ensures var f := SubCallEffect(cfg, s, b, c).value; RepliesOk(f.rows, f.log.replies) && Routing.SubOk(f.rows, f.sub)
  {
    Routing.SubGrows(cfg, s, b, c);
    RepliesGrow(s.rows, SubCallEffect(cfg, s, b, c).value.rows, s.subm.replies);
  }

  lemma CallIsLawful(cfg: Config, s: Sys, b: Sub, c: Choice)
    requires Inv(s) && Routing.SubOk(s.rows, b) && SubCallEffect(cfg, s, b, c).Some?
    ensures Lawful(s, b, SubCallEffect(cfg, s, b, c).value)
  {
    if b.stage == Inserting && TierFor(b.req.typ).Some? && CanInsert(s.rows, s.devices, b.req, c.id) {
      InsertIsLawful(cfg, s, b, c);
    } else {
      var f := SubCallEffect(cfg, s, b, c).value;
      Routing.SubGrows(cfg, s, b, c);
      CallReplies(cfg, s, b, c);
      assert f.rows.Keys == s.rows.Keys;
      forall j ensures f.log.subPubs[j] + Unpublished(j)(f.sub) <= s.subm.subPubs[j] + Unpublished(j)(b) {
        CallPublishes(cfg, s, b, c, j);
      }
    }
  }

  /** Giving up is lawful, too, and a reply after the INSERT names the row. */
  lemma CloseIsLawful(s: Sys, b: Sub, f: SubEffect, reply: bool)
    requires Lawful(s, b, f) && (reply ==> f.sub.stage in {Inserted, Published, Closed})
    requires reply ==> f.sub.stage == Closed || Routing.SubOk(f.rows, f.sub)
    ensures f.sub.stage != Closed ==> Lawful(s, b, Close(f, reply))
  {
  }

  lemma ErrorIsLawful(cfg: Config, s: Sys, i: nat, c: Choice, applied: bool)
    requires Inv(s) && i < |s.subs| && FailSub(cfg, s, i, c, applied).Some?
    ensures Inv(FailSub(cfg, s, i, c, applied).value)
  {
    var b := s.subs[i];
    var reply := b.stage == Inserted || b.stage == Published;
    if applied {
      CallIsLawful(cfg, s, b, c);
      var f := SubCallEffect(cfg, s, b, c).value;
      CloseIsLawful(s, b, f, reply);
      LawfulKeepsInv(s, i, if f.sub.stage == Closed then f else Close(f, reply));
    } else {
      CloseIsLawful(s, b, NoSubEffect(s, b), reply);
      LawfulKeepsInv(s, i, Close(NoSubEffect(s, b), reply));
    }
  }

  lemma ArriveStep(s: Sys, req: Request, api: bool)
    requires Inv(s)
    ensures Inv(s.(subs := s.subs + [Arrival(req, api)]))
  {
    var t := s.(subs := s.subs + [Arrival(req, api)]);
    forall j ensures OnePublish(t, j) {
      assert OnePublish(s, j);
      CountSnoc(s.subs, Arrival(req, api), Unpublished(j));
    }
  }

  lemma CrashStep(s: Sys, i: nat)
    requires Inv(s) && i < |s.subs|
    ensures Inv(s.(subs := s.subs[i := s.subs[i].(stage := Closed)]))
  {
    var f := NoSubEffect(s, s.subs[i]).(sub := s.subs[i].(stage := Closed));
    LawfulKeepsInv(s, i, f);
    assert s.(subs := s.subs[i := s.subs[i].(stage := Closed)]) == ApplySub(s, i, f);
  }

  lemma InvNext(cfg: Config, s: Sys, e: Event)
    requires Inv(s) && Next(cfg, s, e).Some?
    ensures Inv(Next(cfg, s, e).value)
  {
    if !IsSub(e) {
      NotSub(cfg, s, e);
      Routing.NextGrows(cfg, s, e);
      InvElsewhere(s, Next(cfg, s, e).value);
    } else {
      match e
      case Arrive(req, api) => ArriveStep(s, req, api);
      case SubCall(i, c) => 
        CallIsLawful(cfg, s, s.subs[i], c);
        LawfulKeepsInv(s, i, SubCallEffect(cfg, s, s.subs[i], c).value);
      case SubError(i, c, applied) => ErrorIsLawful(cfg, s, i, c, applied);
      case SubCrash(i) => CrashStep(s, i);
    }
  }

  lemma {:induction false} InvRun(cfg: Config, s: Sys, es: seq<Event>, t: Sys)
    requires Inv(s) && Run(cfg, s, es, t)
    ensures Inv(t)
    decreases |es|
  {
    if es != [] {
      InvNext(cfg, s, es[0]);
      InvRun(cfg, Next(cfg, s, es[0]).value, es[1..], t);
    }
  }

  /** All replies carrying an id for the same (key, type) carry the same id. */
  lemma RepliesAgree(cfg: Config, s: Sys, es: seq<Event>, t: Sys, a: Reply, b: Reply)
    requires Init(s) && Run(cfg, s, es, t) && a in t.subm.replies && b in t.subm.replies
    requires a.key == b.key && a.typ == b.typ
    ensures a.id == b.id && a.id in t.rows && t.rows[a.id].key == a.key && t.rows[a.id].typ == a.typ
  {
    InvRun(cfg, s, es, t);
    assert ReplyOk(t.rows, a) && ReplyOk(t.rows, b);
  }

  /** One row per (key, type), and one submit-path publish per row: two publishes for a pair are the same publish. */
  lemma OneRowOnePublish(cfg: Config, s: Sys, es: seq<Event>, t: Sys, a: JobId, b: JobId)
    requires Init(s) && Run(cfg, s, es, t)
    requires a in t.rows && b in t.rows && t.rows[a].key == t.rows[b].key && t.rows[a].typ == t.rows[b].typ
    ensures a == b && t.subm.subPubs[a] <= 1
  {
    InvRun(cfg, s, es, t);
    assert OnePublish(t, a);
  }
}

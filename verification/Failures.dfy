/**
 Which failed calls lose jobs. Of everything that can fail, exactly the failures that NoLoss names do: without
 them no published job is lost, and each of them alone, in every deployment, can lose one for good.
 */
module Failures {
  import opened Prelude
  import opened Jobs
  import opened Store
  import opened Protocol
  import opened Atomic
  import opened Tightness
  import opened NoLoss
  import Limits
  import Serial

  /** Apart from calls failing as `f` says, nothing out of the ordinary happens. */
  predicate OnlyFails(cfg: Config, s: Sys, es: seq<Event>, f: Failure)
    decreases |es|
  {
    es != [] ==>
      (es[0].IsPlain() || FailureOf(s, es[0]) == Some(f)) &&
      (Next(cfg, s, es[0]).Some? ==> OnlyFails(cfg, Next(cfg, s, es[0]).value, es[1..], f))
  }

  predicate Path(cfg: Config, s: Sys, es: seq<Event>, t: Sys, f: Failure) {
    OnlyFails(cfg, s, es, f) && Run(cfg, s, es, t)
  }

  ghost predicate Leads(cfg: Config, s: Sys, t: Sys, f: Failure) {
    exists es :: Path(cfg, s, es, t, f)
  }

  /** Published and gone: every message of the job is committed, none is dead-lettered, no success is recorded. */
  ghost predicate Lost(t: Sys, j: JobId) {
    IsPublished(t, j) && t.work.successes[j] == 0 &&
    forall p: nat, i: nat :: InRange(t.parts, p, i) && t.parts[p].log[i].id == j ==>
      !t.parts[p].topic.Dlq? && i < t.parts[p].committed
  }

  // ----- paths -----

  lemma {:induction false} PlainPath(cfg: Config, s: Sys, es: seq<Event>, t: Sys, f: Failure)
    requires Plain(es) && Run(cfg, s, es, t)
    ensures Path(cfg, s, es, t, f)
    decreases |es|
  {
    if es != [] {
      assert es[0].IsPlain();
      PlainPath(cfg, Next(cfg, s, es[0]).value, es[1..], t, f);
    }
  }

  lemma PlainLeads(cfg: Config, s: Sys, t: Sys, f: Failure)
    requires Reaches(cfg, s, t)
    ensures Leads(cfg, s, t, f)
  {
    var es :| PlainRun(cfg, s, es, t);
    PlainPath(cfg, s, es, t, f);
  }

  lemma FailureLeads(cfg: Config, s: Sys, e: Event, f: Failure)
    requires Next(cfg, s, e).Some? && FailureOf(s, e) == Some(f)
    ensures Leads(cfg, s, Next(cfg, s, e).value, f)
  {
    var t := Next(cfg, s, e).value;
    assert [e][1..] == [];
    assert Run(cfg, t, [], t) && OnlyFails(cfg, t, [], f);
    assert Path(cfg, s, [e], t, f);
  }

  lemma {:induction false} PathsJoin(cfg: Config, s: Sys, es: seq<Event>, m: Sys, fs: seq<Event>, t: Sys, f: Failure)
    requires Path(cfg, s, es, m, f) && Path(cfg, m, fs, t, f)
    ensures Path(cfg, s, es + fs, t, f)
    decreases |es|
  {
    if es == [] {
      assert es + fs == fs;
    } else {
      assert (es + fs)[1..] == es[1..] + fs;
      PathsJoin(cfg, Next(cfg, s, es[0]).value, es[1..], m, fs, t, f);
    }
  }

  lemma LeadsOn(cfg: Config, s: Sys, m: Sys, t: Sys, f: Failure)
    requires Leads(cfg, s, m, f) && Leads(cfg, m, t, f)
    ensures Leads(cfg, s, t, f)
  {
    var es :| Path(cfg, s, es, m, f);
    var fs :| Path(cfg, m, fs, t, f);
    PathsJoin(cfg, s, es, m, fs, t, f);
  }

  // ----- failures that lose nothing -----

  lemma {:induction false} HarmlessIsMindful(cfg: Config, s: Sys, es: seq<Event>, f: Failure)
    requires OnlyFails(cfg, s, es, f) && !Loses(f)
    ensures Mindful(cfg, s, es)
    decreases |es|
  {
    if es != [] && Next(cfg, s, es[0]).Some? {
      HarmlessIsMindful(cfg, Next(cfg, s, es[0]).value, es[1..], f);
    }
  }

  lemma HarmlessLosesNothing(cfg: Config, s: Sys, es: seq<Event>, t: Sys, f: Failure, j: JobId)
    requires Init(s) && Path(cfg, s, es, t, f) && !Loses(f)
    ensures !Lost(t, j)
  {
    HarmlessIsMindful(cfg, s, es, f);
    if IsPublished(t, j) {
      NoPublishedJobIsLost(cfg, s, es, t, j);
      if p: nat, i: nat :| Outstanding(t, p, i, j) {
        assert InRange(t.parts, p, i);
      } else if p: nat, i: nat :| DeadFor(t, p, i, j) {
        assert InRange(t.parts, p, i);
      }
    }
  }

  // ----- a worker that forgets -----

  /** The worker holds the job's only message, read but uncommitted, at the given phase. */
  predicate HoldsOnly(cfg: Config, s: Sys, x: Subject, w: nat, k: Task) {
    Holds(cfg, s, w, k) && OfSubject(x, k.msg) && x.id in s.rows && k.off == 0 && k.part < |s.parts| &&
    s.parts[k.part].topic.Main? && |s.parts[k.part].log| == 1 &&
    (forall q :: 0 <= q < |s.parts| && q != k.part ==> s.parts[q].log == []) &&
    s.subm.subPubs[x.id] > 0 && s.work.successes[x.id] == 0
  }

  lemma ReadUpTo(cfg: Config, u: Serial.Setup, x: Subject, s: Sys, pl: Serial.Plant, ph: Phase)
    returns (t: Sys, w: nat, k: Task)
    requires Shows(cfg, u, s, pl) && Staffed(cfg, s) && Limits.OnlyMessage(s, x, First(u, x))
    requires TierFor(x.typ) == Some(x.tier)
    requires x.id in pl.rows && s.subm.subPubs[x.id] > 0 && s.work.successes[x.id] == 0
    requires ph in {Fetched, Loaded, HandlerOk, HandlerErr}
    ensures Reaches(cfg, s, t) && HoldsOnly(cfg, t, x, w, k) && k.phase == ph
  {
    var p := First(u, x);
    w := s.parts[p].owner;
    assert Assigned(cfg, s.parts[p]);
    RegistryIsTotalOnValid(x.typ);
    if ph in {Fetched, Loaded} {
      One(cfg, s, Fetch(w, p));
      t := Next(cfg, s, Fetch(w, p)).value;
      k := t.workers[w].value;
      if ph == Loaded {
        var a := t;
        var f := WorkCallEffect(cfg, a, x.tier, k, PLAIN).value;
        WorkCalls(cfg, a, w, k, PLAIN, f);
        t := ApplyWork(a, w, f);
        k := f.task.value;
        Join(cfg, s, a, t);
      }
    } else {
      var a, h := StartCalls(cfg, u, s, pl, w, p);
      var running := Serial.SetState(Serial.Fetched(pl, p), x.id, Running, None);
      var err := if ph == HandlerOk then None else Some("down");
      t := ReturnCalls(cfg, u, a, running, w, h, err);
      k := Returned(h, err);
      Join(cfg, s, a, t);
    }
  }

  /** The call fails, and the worker goes on to its commit. */
  lemma FailedCallMovesOn(cfg: Config, x: Subject, s: Sys, w: nat, k: Task, applied: bool) returns (t: Sys)
    requires HoldsOnly(cfg, s, x, w, k) && Loses(WorkerFails(k.phase, applied)) && HasHandler(x.typ)
    ensures Leads(cfg, s, t, WorkerFails(k.phase, applied))
    ensures w < |t.workers| && t.workers[w].Some?
    ensures HoldsOnly(cfg, t, x, w, t.workers[w].value) && t.workers[w].value.phase == Done
  {
    var e := WorkerError(w, PLAIN, applied);
    FailureLeads(cfg, s, e, WorkerFails(k.phase, applied));
    t := Next(cfg, s, e).value;
  }

  /** The commit takes the job's last message. */
  lemma CommitForgets(cfg: Config, x: Subject, s: Sys, w: nat, k: Task) returns (t: Sys)
    requires HoldsOnly(cfg, s, x, w, k) && k.phase == Done
    ensures Reaches(cfg, s, t) && Lost(t, x.id)
  {
    One(cfg, s, WorkerCall(w, PLAIN));
    t := Next(cfg, s, WorkerCall(w, PLAIN)).value;
    assert t.parts == s.parts[k.part := s.parts[k.part].(committed := 1)];
  }

  /** Each losing failure of a worker can lose any job, in any deployment. */
  lemma WorkerForgets(cfg: Config, u: Serial.Setup, x: Subject, s: Sys, f: Failure) returns (t: Sys)
    requires Deployment(cfg, u, x, s) && f.WorkerFails? && Loses(f)
    ensures Leads(cfg, s, t, f) && Lost(t, x.id)
  {
    var a, pl := Limits.PublishedOnly(cfg, u, x, s);
    var b, w, k := ReadUpTo(cfg, u, x, a, pl, f.phase);
    Join(cfg, s, a, b);
    PlainLeads(cfg, s, b, f);
    RegistryIsTotalOnValid(x.typ);
    var c := FailedCallMovesOn(cfg, x, b, w, k, f.applied);
    LeadsOn(cfg, s, b, c, f);
    t := CommitForgets(cfg, x, c, w, c.workers[w].value);
    PlainLeads(cfg, c, t, f);
    LeadsOn(cfg, s, c, t, f);
  }
}

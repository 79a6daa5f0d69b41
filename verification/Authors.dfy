/**
 What a job is made of, on every run: every row was asked for by a well-formed request and carries what it asked for,
 and every message of the job, on every topic and in every hand, carries it too.
 */
module Authors {
  import opened Jobs
  import opened Store
  import opened Broker
  import opened Protocol
  import Frames
  import Routing

  /** A letter, a digit, an underscore or a hyphen, by its code. */
  predicate KeyCode(n: int) {
    65 <= n <= 90 || 97 <= n <= 122 || 48 <= n <= 57 || n == 95 || n == 45
  }

  predicate WellFormed(key: string) {
    8 <= |key| <= 128 && forall i :: 0 <= i < |key| ==> KeyCode(key[i] as int)
  }

  lemma FormatIsWellFormed(key: string)
    ensures ValidKey(key) <==> WellFormed(key)
  {
  }

  predicate Recognised(t: Type) {
    t in {TelemetryProcessing, RemoteCommand, FirmwareUpdate, HealthCheck, AlertGeneration}
  }

  // ----- rows and their requests -----

  predicate Carries(r: Row, q: Request) {
    r.typ == q.typ && r.device == q.device && r.key == q.key && PayloadOf(q, r.payload) && r.maxAttempts == 3
  }

  /** A submission that has inserted its row, whether it is still at work or has come to its end. */
  predicate Wrote(rows: Table, b: Sub, j: JobId) {
    b.stage in {Inserted, Published, Closed} && b.id == j && j in rows && Carries(rows[j], b.req) &&
    Recognised(b.req.typ) && (b.api ==> WellFormed(b.req.key))
  }

  predicate SubOk(rows: Table, b: Sub) {
    (b.stage in {Inserted, Published} ==> Wrote(rows, b, b.id)) &&
    (b.stage != Closed ==> Recognised(b.req.typ) && (b.api ==> WellFormed(b.req.key)))
  }

  predicate HasAuthor(s: Sys, j: JobId) {
    exists i :: 0 <= i < |s.subs| && Wrote(s.rows, s.subs[i], j)
  }

  ghost predicate Inv(s: Sys) {
    (forall i :: 0 <= i < |s.subs| ==> SubOk(s.rows, s.subs[i])) &&
    (forall j :: j in s.rows ==> HasAuthor(s, j)) && DevicesKnown(s.rows, s.devices)
  }

  /** The foreign key of the jobs table. */
  ghost predicate DevicesKnown(rows: Table, devices: set<string>) {
    forall j :: j in rows ==> rows[j].device in devices
  }

  lemma GrownDevices(a: Table, b: Table, devices: set<string>)
    requires DevicesKnown(a, devices) && Grows(a, b) && b.Keys == a.Keys
    ensures DevicesKnown(b, devices)
  {
  }

  lemma SameDevices(cfg: Config, s: Sys, e: Event)
    requires Next(cfg, s, e).Some?
    ensures Next(cfg, s, e).value.devices == s.devices
  {
  }

  lemma CarriesStays(a: Table, b: Table, x: Sub, j: JobId)
    requires Wrote(a, x, j) && Grows(a, b)
    ensures Wrote(b, x, j)
  {
  }

  /** Rows grow, and every author remains one. */
  lemma AuthorsStay(s: Sys, t: Sys)
    requires Inv(s) && Grows(s.rows, t.rows) && |s.subs| <= |t.subs|
    requires forall i, j :: 0 <= i < |s.subs| && Wrote(s.rows, s.subs[i], j) ==> Wrote(t.rows, t.subs[i], j)
    ensures forall j :: j in s.rows ==> HasAuthor(t, j)
  {
    forall j | j in s.rows ensures HasAuthor(t, j) {
      var i :| 0 <= i < |s.subs| && Wrote(s.rows, s.subs[i], j);
      assert Wrote(t.rows, t.subs[i], j);
    }
  }

  lemma CallKeeps(cfg: Config, s: Sys, b: Sub, c: Choice)
    requires SubOk(s.rows, b) && SubCallEffect(cfg, s, b, c).Some?
    ensures var f := SubCallEffect(cfg, s, b, c).value;
            SubOk(f.rows, f.sub) &&
            forall j :: j in f.rows && j !in s.rows ==> Wrote(f.rows, f.sub, j) && f.rows[j].device in s.devices
  {
  }

  lemma CallKeepsAuthor(cfg: Config, s: Sys, b: Sub, c: Choice, j: JobId)
    requires SubCallEffect(cfg, s, b, c).Some? && Wrote(s.rows, b, j)
    ensures Wrote(SubCallEffect(cfg, s, b, c).value.rows, SubCallEffect(cfg, s, b, c).value.sub, j)
  {
    Routing.SubGrows(cfg, s, b, c);
  }

  /** A submission's call or its failure: the effect on its own record, and everything else as it was. */
  lemma EffectKeeps(s: Sys, i: nat, f: SubEffect)
    requires Inv(s) && i < |s.subs| && Grows(s.rows, f.rows) && SubOk(f.rows, f.sub)
    requires forall j :: Wrote(s.rows, s.subs[i], j) ==> Wrote(f.rows, f.sub, j)
    requires forall j :: j in f.rows && j !in s.rows ==> Wrote(f.rows, f.sub, j) && f.rows[j].device in s.devices
    ensures Inv(ApplySub(s, i, f))
  {
    var t := ApplySub(s, i, f);
    forall k, j | 0 <= k < |s.subs| && Wrote(s.rows, s.subs[k], j) ensures Wrote(t.rows, t.subs[k], j) {
      if k != i { CarriesStays(s.rows, t.rows, s.subs[k], j); }
    }
    AuthorsStay(s, t);
    forall j | j in t.rows ensures HasAuthor(t, j) {
      if j !in s.rows { assert Wrote(t.rows, t.subs[i], j); }
    }
    forall k | 0 <= k < |t.subs| ensures SubOk(t.rows, t.subs[k]) {
      if k != i { assert SubOk(s.rows, s.subs[k]); }
    }
  }

  lemma SubCallKeeps(cfg: Config, s: Sys, i: nat, c: Choice)
    requires Inv(s) && StepSub(cfg, s, i, c).Some?
    ensures Inv(StepSub(cfg, s, i, c).value)
  {
    var b := s.subs[i];
    var f := SubCallEffect(cfg, s, b, c).value;
    CallKeeps(cfg, s, b, c);
    Routing.SubGrows(cfg, s, b, c);
    forall j | Wrote(s.rows, b, j) ensures Wrote(f.rows, f.sub, j) {
      CallKeepsAuthor(cfg, s, b, c, j);
    }
    EffectKeeps(s, i, f);
  }

  lemma FailKeeps(cfg: Config, s: Sys, i: nat, c: Choice, applied: bool)
    requires Inv(s) && FailSub(cfg, s, i, c, applied).Some?
    ensures Inv(FailSub(cfg, s, i, c, applied).value)
  {
    var b := s.subs[i];
    var f := if applied then SubCallEffect(cfg, s, b, c).value else NoSubEffect(s, b);
    if applied {
      CallKeeps(cfg, s, b, c);
      Routing.SubGrows(cfg, s, b, c);
    }
    forall j | Wrote(s.rows, b, j) ensures Wrote(f.rows, f.sub, j) {
      if applied { CallKeepsAuthor(cfg, s, b, c, j); }
    }
    var t := FailSub(cfg, s, i, c, applied).value;
    var g := f.(sub := f.sub.(stage := Closed), log := t.subm);
    EffectKeeps(s, i, g);
    assert t == ApplySub(s, i, g);
  }

  lemma ArriveKeeps(s: Sys, req: Request, api: bool)
    requires Inv(s)
    ensures Inv(s.(subs := s.subs + [Arrival(req, api)]))
  {
    var t := s.(subs := s.subs + [Arrival(req, api)]);
    FormatIsWellFormed(req.key);
    forall k, j | 0 <= k < |s.subs| && Wrote(s.rows, s.subs[k], j) ensures Wrote(t.rows, t.subs[k], j) {
      assert t.subs[k] == s.subs[k];
    }
    AuthorsStay(s, t);
  }

  lemma CrashKeeps(s: Sys, i: nat)
    requires Inv(s) && i < |s.subs|
    ensures Inv(s.(subs := s.subs[i := s.subs[i].(stage := Closed)]))
  {
    var f := NoSubEffect(s, s.subs[i]).(sub := s.subs[i].(stage := Closed));
    EffectKeeps(s, i, f);
    assert ApplySub(s, i, f) == s.(subs := s.subs[i := s.subs[i].(stage := Closed)]);
  }

  lemma OthersKeep(cfg: Config, s: Sys, e: Event)
    requires Inv(s) && !Frames.IsSub(e) && Next(cfg, s, e).Some?
    ensures Inv(Next(cfg, s, e).value)
  {
    var t := Next(cfg, s, e).value;
    Frames.NotSub(cfg, s, e);
    Routing.NextGrows(cfg, s, e);
    forall k, j | 0 <= k < |s.subs| && Wrote(s.rows, s.subs[k], j) ensures Wrote(t.rows, t.subs[k], j) {
      CarriesStays(s.rows, t.rows, s.subs[k], j);
    }
    AuthorsStay(s, t);
    SameDevices(cfg, s, e);
    GrownDevices(s.rows, t.rows, s.devices);
    forall k | 0 <= k < |t.subs| ensures SubOk(t.rows, t.subs[k]) {
      assert SubOk(s.rows, s.subs[k]);
    }
  }

  lemma InvNext(cfg: Config, s: Sys, e: Event)
    requires Inv(s) && Next(cfg, s, e).Some?
    ensures Inv(Next(cfg, s, e).value)
  {
    if !Frames.IsSub(e) { OthersKeep(cfg, s, e); }
    else if e.Arrive? { ArriveKeeps(s, e.req, e.api); }
    else if e.SubCall? { SubCallKeeps(cfg, s, e.i, e.c); }
    else if e.SubError? { FailKeeps(cfg, s, e.i, e.c, e.applied); }
    else { CrashKeeps(s, e.i); }
  }

  lemma {:induction false} InvRun(cfg: Config, s: Sys, es: seq<Event>, t: Sys)
    requires Inv(s) && Run(cfg, s, es, t)
    ensures Inv(t)
    decreases |es|
  {
    if es != [] {
      InvNext(cfg, s, es[0]);
      InvRun(cfg, Next(cfg, s, es[0]).value, es[1..], t);
    }
  }

  // ----- the theorems -----

  /**
   On every run, a submission that has inserted its row finds there what was asked for: payload, device, type, key.
   */
  lemma RowCarriesRequest(cfg: Config, s: Sys, es: seq<Event>, t: Sys, i: nat)
    requires Init(s) && Run(cfg, s, es, t) && i < |t.subs| && t.subs[i].stage in {Inserted, Published}
    ensures var b := t.subs[i];
            b.id in t.rows && t.rows[b.id].device == b.req.device && t.rows[b.id].typ == b.req.typ &&
            t.rows[b.id].key == b.req.key && t.rows[b.id].maxAttempts == 3 &&
            t.rows[b.id].payload == if |b.req.payload| > 0 then b.req.payload else "{}"
  {
    InvRun(cfg, s, es, t);
    assert SubOk(t.rows, t.subs[i]);
  }

  /**
   On every run, every row was inserted by a submission and carries its request for good, its type being one of the
   five; if it came through the API, its key is well formed. Its device exists.
   */
  lemma EveryRowHasItsRequest(cfg: Config, s: Sys, es: seq<Event>, t: Sys, j: JobId) returns (i: nat)
    requires Init(s) && Run(cfg, s, es, t) && j in t.rows
    ensures i < |t.subs| && Wrote(t.rows, t.subs[i], j) && t.rows[j].device in t.devices
  {
    InvRun(cfg, s, es, t);
    assert HasAuthor(t, j);
    i :| 0 <= i < |t.subs| && Wrote(t.rows, t.subs[i], j);
  }

  /** The message asks of its handler what the request asked for. */
  predicate Delivers(m: Message, q: Request) {
    m.typ == q.typ && m.device == q.device && PayloadOf(q, m.payload)
  }

  /** On every run, every message of a job on every topic delivers the request of the submission that wrote its row. */
  lemma MessagesDeliverRequests(cfg: Config, s: Sys, es: seq<Event>, t: Sys, p: nat, o: nat) returns (i: nat)
    requires Init(s) && Run(cfg, s, es, t) && p < |t.parts| && o < |t.parts[p].log|
    ensures i < |t.subs| && Wrote(t.rows, t.subs[i], t.parts[p].log[o].id) && Delivers(t.parts[p].log[o], t.subs[i].req)
  {
    Routing.MessagesMatchRows(cfg, s, es, t, p, o);
    i := EveryRowHasItsRequest(cfg, s, es, t, t.parts[p].log[o].id);
  }

  /** And so does the message in every worker's hands, which is what its handler gets. */
  lemma HandlersGetRequests(cfg: Config, s: Sys, es: seq<Event>, t: Sys, w: nat) returns (i: nat)
    requires Init(s) && Run(cfg, s, es, t) && w < |t.workers| && t.workers[w].Some?
    ensures var m := t.workers[w].value.msg;
            i < |t.subs| && Wrote(t.rows, t.subs[i], m.id) && Delivers(m, t.subs[i].req)
  {
    Routing.InvRun(cfg, s, es, t);
    assert Routing.TaskOk(cfg, t.rows, w, t.workers[w]);
    i := EveryRowHasItsRequest(cfg, s, es, t, t.workers[w].value.msg.id);
  }
}

/** Histories of handler runs and publishes: filtering, first occurrences, and how often a job occurs. */
module Histories {
  import opened Jobs
  import opened Store
  import opened Protocol

  function Keep(xs: seq<HandlerRun>, f: HandlerRun -> bool): seq<HandlerRun> {
    if xs == [] then [] else
    var rest := Keep(xs[..|xs| - 1], f);
    if f(xs[|xs| - 1]) then rest + [xs[|xs| - 1]] else rest
  }

  function OfDevice(t: Tier, d: string): HandlerRun -> bool {
    (x: HandlerRun) => x.tier == t && x.device == d
  }

  function Ids(xs: seq<HandlerRun>): set<JobId> {
    set i | 0 <= i < |xs| :: xs[i].id
  }

  /** The history with later runs of a job dropped. */
  function Once(xs: seq<HandlerRun>): seq<HandlerRun> {
    if xs == [] then [] else
    var before := xs[..|xs| - 1];
    if xs[|xs| - 1].id in Ids(before) then Once(before) else Once(before) + [xs[|xs| - 1]]
  }

  /** How often the job occurs. */
  function Times(xs: seq<HandlerRun>, j: JobId): nat {
    if xs == [] then 0 else Times(xs[..|xs| - 1], j) + (if xs[|xs| - 1].id == j then 1 else 0)
  }

  predicate Distinct(xs: seq<HandlerRun>) {
    forall i, k :: 0 <= i < k < |xs| ==> xs[i].id != xs[k].id
  }

  lemma KeepSnoc(xs: seq<HandlerRun>, x: HandlerRun, f: HandlerRun -> bool)
    ensures Keep(xs + [x], f) == if f(x) then Keep(xs, f) + [x] else Keep(xs, f)
  {
    assert (xs + [x])[..|xs|] == xs;
  }

  lemma IdsSnoc(xs: seq<HandlerRun>, x: HandlerRun)
    ensures Ids(xs + [x]) == Ids(xs) + {x.id}
  {
    var ys := xs + [x];
    assert ys[|xs|] == x;
    forall i | 0 <= i < |xs| ensures xs[i].id in Ids(ys) {
      assert ys[i] == xs[i];
    }
  }

  lemma {:induction false} OnceIds(xs: seq<HandlerRun>)
    ensures Ids(Once(xs)) == Ids(xs)
  {
    if xs != [] {
      var before := xs[..|xs| - 1];
      var x := xs[|xs| - 1];
      assert xs == before + [x];
      OnceIds(before);
      IdsSnoc(before, x);
      IdsSnoc(Once(before), x);
    }
  }

  lemma OnceSnoc(xs: seq<HandlerRun>, x: HandlerRun)
    ensures Once(xs + [x]) == if x.id in Ids(Once(xs)) then Once(xs) else Once(xs) + [x]
  {
    assert (xs + [x])[..|xs|] == xs;
    OnceIds(xs);
  }

  lemma {:induction false} OncePrefix(xs: seq<HandlerRun>, ys: seq<HandlerRun>)
    requires xs <= ys
    ensures Once(xs) <= Once(ys)
    decreases |ys|
  {
    if |xs| < |ys| {
      assert xs <= ys[..|ys| - 1];
      OncePrefix(xs, ys[..|ys| - 1]);
    } else {
      assert xs == ys;
    }
  }

  lemma {:induction false} KeepPrefix(xs: seq<HandlerRun>, ys: seq<HandlerRun>, f: HandlerRun -> bool)
    requires xs <= ys
    ensures Keep(xs, f) <= Keep(ys, f)
    decreases |ys|
  {
    if |xs| < |ys| {
      assert xs <= ys[..|ys| - 1];
      KeepPrefix(xs, ys[..|ys| - 1], f);
    } else {
      assert xs == ys;
    }
  }

  lemma {:induction false} OnceDistinct(xs: seq<HandlerRun>)
    ensures Distinct(Once(xs)) && (Distinct(xs) ==> Once(xs) == xs)
  {
    if xs != [] {
      var before := xs[..|xs| - 1];
      OnceDistinct(before);
      OnceIds(before);
    }
  }

  lemma {:induction false} KeepIds(xs: seq<HandlerRun>, f: HandlerRun -> bool, i: nat)
    requires i < |xs| && f(xs[i])
    ensures xs[i].id in Ids(Keep(xs, f))
  {
    var before := xs[..|xs| - 1];
    var x := xs[|xs| - 1];
    if i < |xs| - 1 {
      KeepIds(before, f, i);
    }
    if f(x) { IdsSnoc(Keep(before, f), x); }
  }

  /** Nothing is kept where nothing fits. */
  lemma {:induction false} KeepNone(xs: seq<HandlerRun>, f: HandlerRun -> bool)
    requires forall i :: 0 <= i < |xs| ==> !f(xs[i])
    ensures Keep(xs, f) == []
  {
    if xs != [] { KeepNone(xs[..|xs| - 1], f); }
  }

  lemma {:induction false} KeepIdsOnly(xs: seq<HandlerRun>, f: HandlerRun -> bool)
    ensures Ids(Keep(xs, f)) <= Ids(xs)
  {
    if xs != [] {
      var before := xs[..|xs| - 1];
      var x := xs[|xs| - 1];
      KeepIdsOnly(before, f);
      assert xs == before + [x];
      IdsSnoc(before, x);
      IdsSnoc(Keep(before, f), x);
    }
  }

  lemma IdsGrow(xs: seq<HandlerRun>, ys: seq<HandlerRun>)
    requires xs <= ys
    ensures Ids(xs) <= Ids(ys)
  {
    forall i | 0 <= i < |xs| ensures xs[i].id in Ids(ys) {
      assert ys[i] == xs[i];
    }
  }

  lemma {:induction false} TimesKept(xs: seq<HandlerRun>, f: HandlerRun -> bool, j: JobId)
    requires forall i :: 0 <= i < |xs| && xs[i].id == j ==> f(xs[i])
    ensures Times(Keep(xs, f), j) == Times(xs, j)
  {
    if xs != [] {
      var before := xs[..|xs| - 1];
      var x := xs[|xs| - 1];
      TimesKept(before, f, j);
      assert (Keep(before, f) + [x])[..|Keep(before, f)|] == Keep(before, f);
    }
  }

  lemma {:induction false} TimesIsMember(xs: seq<HandlerRun>, j: JobId)
    ensures Times(xs, j) > 0 <==> j in Ids(xs)
  {
    if xs != [] {
      var before := xs[..|xs| - 1];
      TimesIsMember(before, j);
      assert xs == before + [xs[|xs| - 1]];
      IdsSnoc(before, xs[|xs| - 1]);
    }
  }

  lemma {:induction false} DistinctTimes(xs: seq<HandlerRun>, j: JobId)
    requires Distinct(xs)
    ensures Times(xs, j) <= 1
  {
    if xs != [] {
      var before := xs[..|xs| - 1];
      DistinctTimes(before, j);
      TimesIsMember(before, j);
    }
  }

  lemma {:induction false} TimesDistinct(xs: seq<HandlerRun>)
    requires forall j :: Times(xs, j) <= 1
    ensures Distinct(xs)
  {
    if xs != [] {
      var before := xs[..|xs| - 1];
      var x := xs[|xs| - 1];
      forall j ensures Times(before, j) <= 1 {
        assert Times(xs, j) <= 1;
      }
      TimesDistinct(before);
      TimesIsMember(before, x.id);
      assert Times(xs, x.id) <= 1;
      assert x.id !in Ids(before);
    }
  }

  lemma {:induction false} TimesDropped(xs: seq<HandlerRun>, f: HandlerRun -> bool, j: JobId)
    requires forall i :: 0 <= i < |xs| && xs[i].id == j ==> !f(xs[i])
    ensures Times(Keep(xs, f), j) == 0
  {
    if xs != [] {
      var before := xs[..|xs| - 1];
      TimesDropped(before, f, j);
      assert (Keep(before, f) + [xs[|xs| - 1]])[..|Keep(before, f)|] == Keep(before, f);
    }
  }
}

/** Optional values, 64-bit range, and counting over sequences, used by every other module. */
module Prelude {

  datatype Option<+T> = None | Some(value: T)

  const TWO63: int := 0x8000_0000_0000_0000
  const SECOND: int := 1_000_000_000

  predicate Int64(x: int) {
    -TWO63 <= x < TWO63
  }

  /** Total of `f` over the elements of `s`. */
  function Count<T>(s: seq<T>, f: T -> nat): nat
  {
    if s == [] then 0 else f(s[0]) + Count(s[1..], f)
  }

  lemma {:induction false} CountUpdate<T>(s: seq<T>, i: nat, v: T, f: T -> nat)
    requires i < |s|
    ensures Count(s[i := v], f) + f(s[i]) == Count(s, f) + f(v)
  {
    var u := s[i := v];
    if i == 0 {
      assert u[1..] == s[1..];
    } else {
      assert u[1..] == s[1..][i - 1 := v];
      CountUpdate(s[1..], i - 1, v, f);
    }
  }

  lemma {:induction false} CountSnoc<T>(s: seq<T>, v: T, f: T -> nat)
    ensures Count(s + [v], f) == Count(s, f) + f(v)
  {
    if s == [] {
      assert s + [v] == [v] && [v][1..] == [];
      assert Count([v], f) == f(v) + Count([v][1..], f);
    } else {
      assert (s + [v])[1..] == s[1..] + [v];
      CountSnoc(s[1..], v, f);
    }
  }

  lemma {:induction false} CountMember<T>(s: seq<T>, i: nat, f: T -> nat)
    requires i < |s|
    ensures f(s[i]) <= Count(s, f)
  {
    if i > 0 {
      CountMember(s[1..], i - 1, f);
    }
  }

  lemma {:induction false} CountPair<T>(s: seq<T>, i: nat, k: nat, f: T -> nat)
    requires i < k < |s|
    ensures f(s[i]) + f(s[k]) <= Count(s, f)
  {
    if i == 0 {
      CountMember(s[1..], k - 1, f);
    } else {
      CountPair(s[1..], i - 1, k - 1, f);
    }
  }

  lemma {:induction false} CountZero<T>(s: seq<T>, f: T -> nat)
    requires forall i :: 0 <= i < |s| ==> f(s[i]) == 0
    ensures Count(s, f) == 0
  {
    if s != [] {
      forall i | 0 <= i < |s[1..]| ensures f(s[1..][i]) == 0 {
        assert s[1..][i] == s[i + 1];
      }
      CountZero(s[1..], f);
    }
  }

  lemma {:induction false} CountMono<T>(s: seq<T>, t: seq<T>, f: T -> nat, g: T -> nat)
    requires |s| == |t|
    requires forall i :: 0 <= i < |s| ==> f(s[i]) <= g(t[i])
    ensures Count(s, f) <= Count(t, g)
  {
    if s != [] {
      forall i | 0 <= i < |s[1..]| ensures f(s[1..][i]) <= g(t[1..][i]) {
        assert s[1..][i] == s[i + 1] && t[1..][i] == t[i + 1];
      }
      CountMono(s[1..], t[1..], f, g);
    }
  }

  lemma {:induction false} CountSplit<T>(s: seq<T>, f: T -> nat, g: T -> nat, h: T -> nat)
    requires forall i :: 0 <= i < |s| ==> h(s[i]) == f(s[i]) + g(s[i])
    ensures Count(s, h) == Count(s, f) + Count(s, g)
  {
    if s != [] {
      forall i | 0 <= i < |s[1..]| ensures h(s[1..][i]) == f(s[1..][i]) + g(s[1..][i]) {
        assert s[1..][i] == s[i + 1];
      }
      CountSplit(s[1..], f, g, h);
    }
  }

  lemma Regroup<T>(a: seq<T>, b: seq<T>, c: seq<T>)
    ensures (a + b) + c == a + (b + c)
  {
  }
}

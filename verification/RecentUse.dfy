/** Sequences of fingerprints in the order of their most recent touch, and the last few elements of those. */
module RecentUse {

  type Fingerprint = nat    // the digest of the delivered bytes

  /** The sequence without `x`. */
  function Without(s: seq<Fingerprint>, x: Fingerprint): seq<Fingerprint> {
    if s == [] then [] else (if s[0] == x then [] else [s[0]]) + Without(s[1..], x)
  }

  function Last(s: seq<Fingerprint>, n: nat): seq<Fingerprint> {
    if |s| <= n then s else s[|s| - n..]
  }

  predicate Distinct(s: seq<Fingerprint>) {
    forall i, j | 0 <= i < j < |s| :: s[i] != s[j]
  }

  /** The fingerprints touched, each once, in order of its most recent touch. */
  function Recency(touches: seq<Fingerprint>): seq<Fingerprint> {
    if touches == [] then []
    else Without(Recency(touches[..|touches| - 1]), touches[|touches| - 1]) + [touches[|touches| - 1]]
  }

  lemma {:induction false} WithoutAppend(s: seq<Fingerprint>, t: seq<Fingerprint>, x: Fingerprint)
    ensures Without(s + t, x) == Without(s, x) + Without(t, x)
  {
    if s == [] {
      assert s + t == t;
    } else {
      assert (s + t)[1..] == s[1..] + t;
      WithoutAppend(s[1..], t, x);
    }
  }

  lemma {:induction false} WithoutAbsent(s: seq<Fingerprint>, x: Fingerprint)
    requires x !in s
    ensures Without(s, x) == s
  {
    if s != [] { WithoutAbsent(s[1..], x); }
  }

  lemma {:induction false} WithoutMember(s: seq<Fingerprint>, x: Fingerprint, y: Fingerprint)
    ensures y in Without(s, x) <==> y in s && y != x
  {
    if s != [] {
      WithoutMember(s[1..], x, y);
      assert s == [s[0]] + s[1..];
    }
  }

  lemma WithoutMembers(s: seq<Fingerprint>, x: Fingerprint)
    ensures forall y :: y in Without(s, x) <==> y in s && y != x
  {
    hide Without;
    forall y ensures y in Without(s, x) <==> y in s && y != x {
      WithoutMember(s, x, y);
    }
  }

  lemma ConsDistinct(x: Fingerprint, s: seq<Fingerprint>)
    requires Distinct(s) && x !in s
    ensures Distinct([x] + s)
  {
  }

  lemma TailDistinct(s: seq<Fingerprint>)
    requires Distinct(s) && s != []
    ensures Distinct(s[1..]) && s[0] !in s[1..] && s == [s[0]] + s[1..]
  {
  }

  lemma JustOne(x: Fingerprint)
    ensures Without([], x) + [x] == [x] && Distinct([x])
  {
  }

  lemma {:induction false} WithoutDistinct(s: seq<Fingerprint>, x: Fingerprint)
    requires Distinct(s)
    ensures Distinct(Without(s, x) + [x])
    ensures x in s ==> |Without(s, x)| == |s| - 1
  {
    hide Distinct;
    if s != [] {
      TailDistinct(s);
      WithoutDistinct(s[1..], x);
      var w := Without(s[1..], x);
      if s[0] == x {
        WithoutAbsent(s[1..], x);
        assert Without(s, x) == w;
      } else {
        WithoutMember(s[1..], x, s[0]);
        ConsDistinct(s[0], w + [x]);
        assert Without(s, x) + [x] == [s[0]] + (w + [x]);
      }
    } else {
      JustOne(x);
    }
  }

  lemma {:induction false} RecencyDistinct(touches: seq<Fingerprint>)
    ensures Distinct(Recency(touches))
    decreases |touches|
  {
    if touches != [] {
      RecencyDistinct(touches[..|touches| - 1]);
      WithoutDistinct(Recency(touches[..|touches| - 1]), touches[|touches| - 1]);
    }
  }

  lemma LastOf(a: seq<Fingerprint>, b: seq<Fingerprint>, n: nat)
    requires |b| == n || (a == [] && |b| <= n)
    ensures Last(a + b, n) == b
  {
  }

  /** A sequence is what fell out of the window and the window. */
  lemma Split(r: seq<Fingerprint>, w: nat) returns (a: seq<Fingerprint>)
    ensures r == a + Last(r, w) && (|Last(r, w)| == w || (a == [] && |Last(r, w)| <= w))
  {
    a := r[..|r| - |Last(r, w)|];
  }

  lemma NotBefore(a: seq<Fingerprint>, l: seq<Fingerprint>, x: Fingerprint)
    requires Distinct(a + l) && x in l
    ensures x !in a && Distinct(l)
  {
    var r := a + l;
    assert forall i | 0 <= i < |a| :: r[i] == a[i];
    assert forall j | 0 <= j < |l| :: r[|a| + j] == l[j];
  }

  /** Touching a fingerprint inside the window moves it to the end. */
  lemma TouchInside(r: seq<Fingerprint>, x: Fingerprint, w: nat)
    requires Distinct(r) && x in Last(r, w)
    ensures Last(Without(r, x) + [x], w) == Without(Last(r, w), x) + [x]
  {
    hide Without, Last, Distinct;
    var l := Last(r, w);
    var a := Split(r, w);
    NotBefore(a, l, x);
    WithoutAppend(a, l, x);
    WithoutAbsent(a, x);
    WithoutDistinct(l, x);
    assert Without(r, x) + [x] == a + (Without(l, x) + [x]);
    LastOf(a, Without(l, x) + [x], w);
  }

  /** Touching one outside appends it and pushes the oldest out of a full window. */
  lemma TouchOutside(r: seq<Fingerprint>, x: Fingerprint, w: nat)
    requires w >= 1 && x !in Last(r, w)
    ensures Last(Without(r, x) + [x], w) == Last(Last(r, w) + [x], w)
  {
    hide Without, Last, Distinct;
    var l := Last(r, w);
    var a := Split(r, w);
    WithoutAppend(a, l, x);
    WithoutAbsent(l, x);
    var b := Without(a, x);
    assert Without(r, x) + [x] == b + (l + [x]);
    if |l| < w {
      WithoutAbsent(a, x);
      LastOf(b, l + [x], w);
      LastOf([], l + [x], w);
      assert [] + (l + [x]) == l + [x];
    } else {
      var kept := l[1..] + [x];
      assert b + (l + [x]) == (b + [l[0]]) + kept && l + [x] == [l[0]] + kept;
      LastOf(b + [l[0]], kept, w);
      LastOf([l[0]], kept, w);
    }
  }

  lemma LastDistinct(s: seq<Fingerprint>, n: nat)
    requires Distinct(s)
    ensures Distinct(Last(s, n)) && |Last(s, n)| <= n
  {
  }

  lemma LastMembers(s: seq<Fingerprint>, n: nat)
    ensures forall y | y in Last(s, n) :: y in s
  {
  }

  lemma RecencyMore(touches: seq<Fingerprint>, x: Fingerprint)
    ensures Recency(touches + [x]) == Without(Recency(touches), x) + [x]
  {
  }
}

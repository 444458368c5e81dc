/** Component names, ordered as Python orders strings, by code point, and `sorted` on lists of such names. */
module Names {

  datatype Name = Name(text: string)

  /** Lexicographic order by code point. */
  predicate TextLeq(a: string, b: string) {
    a == [] || (b != [] && (a[0] < b[0] || (a[0] == b[0] && TextLeq(a[1..], b[1..]))))
  }

  /** The texts agree up to position `i`, where one ends or they differ. */
  ghost predicate PartAt(a: string, b: string, i: int) {
    && 0 <= i <= |a| && i <= |b| && a[..i] == b[..i]
    && (i < |a| && i < |b| ==> a[i] != b[i])
  }

  /** Where two texts part, the shorter or the one with the lower code point comes first. */
  lemma {:induction false} TextLeqDecides(a: string, b: string) returns (i: nat)
    ensures PartAt(a, b, i)
    ensures TextLeq(a, b) <==> i == |a| || (i < |b| && a[i] < b[i])
    decreases |a|
  {
    i := 0;
    if a != [] && b != [] && a[0] == b[0] {
      var j := TextLeqDecides(a[1..], b[1..]);
      i := j + 1;
      assert a[..i] == [a[0]] + a[1..][..j] && b[..i] == [b[0]] + b[1..][..j];
    }
  }

  lemma {:induction false} TextLeqTotal(a: string, b: string)
    ensures TextLeq(a, b) || TextLeq(b, a)
  {
    if a != [] && b != [] && a[0] == b[0] {
      TextLeqTotal(a[1..], b[1..]);
    }
  }

  lemma {:induction false} TextLeqTransitive(a: string, b: string, c: string)
    requires TextLeq(a, b) && TextLeq(b, c)
    ensures TextLeq(a, c)
  {
    if a != [] && a[0] == b[0] && b[0] == c[0] {
      TextLeqTransitive(a[1..], b[1..], c[1..]);
    }
  }

  predicate Leq(a: Name, b: Name) {
    TextLeq(a.text, b.text)
  }

  lemma LeqTotal(a: Name, b: Name)
    ensures Leq(a, b) || Leq(b, a)
  {
    TextLeqTotal(a.text, b.text);
  }

  function Elements(s: seq<Name>): set<Name> {
    set x | x in s
  }

  predicate Ordered(s: seq<Name>) {
    forall i, j | 0 <= i < j < |s| :: Leq(s[i], s[j])
  }

  ghost predicate Distinct(s: seq<Name>) {
    forall i, j | 0 <= i < j < |s| :: s[i] != s[j]
  }

  function Insert(x: Name, s: seq<Name>): seq<Name> {
    if s == [] then [x]
    else if Leq(x, s[0]) then [x] + s
    else [s[0]] + Insert(x, s[1..])
  }

  /** `sorted(s)`. */
  function Sort(s: seq<Name>): seq<Name> {
    if s == [] then [] else Insert(s[0], Sort(s[1..]))
  }

  lemma {:induction false} InsertKeeps(x: Name, s: seq<Name>)
    ensures multiset(Insert(x, s)) == multiset(s) + multiset{x}
  {
    if s != [] && !Leq(x, s[0]) {
      InsertKeeps(x, s[1..]);
      assert s == [s[0]] + s[1..];
    }
  }

  lemma PrependOrdered(x: Name, s: seq<Name>)
    requires Ordered(s) && forall y | y in s :: Leq(x, y)
    ensures Ordered([x] + s)
  {
  }

  lemma {:induction false} InsertOrdered(x: Name, s: seq<Name>)
    requires Ordered(s)
    ensures Ordered(Insert(x, s))
  {
    if s != [] {
      LeqTotal(x, s[0]);
      if Leq(x, s[0]) {
        forall j | 0 < j < |s| ensures Leq(x, s[j]) {
          TextLeqTransitive(x.text, s[0].text, s[j].text);
        }
        PrependOrdered(x, s);
      } else {
        InsertOrdered(x, s[1..]);
        InsertMember(x, s[1..]);
        PrependOrdered(s[0], Insert(x, s[1..]));
      }
    }
  }

  lemma {:induction false} InsertMember(x: Name, s: seq<Name>)
    ensures forall y | y in Insert(x, s) :: y == x || y in s
  {
    if s != [] && !Leq(x, s[0]) {
      InsertMember(x, s[1..]);
    }
  }

  /** The same names, in ascending order. */
  lemma {:induction false} SortOrdered(s: seq<Name>)
    ensures Ordered(Sort(s)) && multiset(Sort(s)) == multiset(s)
  {
    if s != [] {
      assert s == [s[0]] + s[1..];
      SortOrdered(s[1..]);
      InsertOrdered(s[0], Sort(s[1..]));
      InsertKeeps(s[0], Sort(s[1..]));
    }
  }

  lemma {:induction false} DistinctMultiset(s: seq<Name>)
    requires Distinct(s)
    ensures forall x :: multiset(s)[x] <= 1
  {
    if s != [] {
      assert s == [s[0]] + s[1..];
      DistinctMultiset(s[1..]);
    }
  }

  lemma RepeatCounted(s: seq<Name>, i: nat, j: nat)
    requires i < j < |s| && s[i] == s[j]
    ensures multiset(s)[s[i]] >= 2
  {
    assert s == s[..j] + s[j..];
    assert s[i] == s[..j][i] && s[i] in s[..j];
    assert s[j] == s[j..][0] && s[j] in s[j..];
  }

  /** Sorting keeps the elements and keeps them distinct. */
  lemma SortDistinct(s: seq<Name>)
    requires Distinct(s)
    ensures Ordered(Sort(s)) && Distinct(Sort(s)) && Elements(Sort(s)) == Elements(s) && |Sort(s)| == |s|
  {
    var r := Sort(s);
    SortOrdered(s);
    assert |r| == |multiset(r)| == |multiset(s)| == |s|;
    forall x ensures x in r <==> x in s {
      assert (x in r <==> x in multiset(r)) && (x in s <==> x in multiset(s));
    }
    DistinctMultiset(s);
    forall i, j | 0 <= i < j < |r| ensures r[i] != r[j] {
      if r[i] == r[j] { RepeatCounted(r, i, j); }
    }
  }
}

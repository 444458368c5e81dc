/** `heapq`: a heap is the multiset of its entries, compared as tuples, and popping takes out a least one. */
module Heaps {

  // Tuples compare by `key`, then `tie`; the order of ids that tie on both is left open.
  datatype Entry = Entry(key: real, tie: int, id: nat)

  predicate Leq(a: Entry, b: Entry) {
    a.key < b.key || (a.key == b.key && a.tie <= b.tie)
  }

  ghost predicate IsMin(h: multiset<Entry>, e: Entry) {
    e in h && forall x | x in h :: Leq(e, x)
  }

  lemma {:induction false} MinExists(h: multiset<Entry>)
    requires |h| > 0
    ensures exists e :: IsMin(h, e)
    decreases |h|
  {
    var x :| x in h;
    var rest := h - multiset{x};
    if |rest| == 0 {
      assert h == multiset{x};
      assert IsMin(h, x);
    } else {
      MinExists(rest);
      var m :| IsMin(rest, m);
      assert h == rest + multiset{x};
      if Leq(x, m) {
        assert IsMin(h, x);
      } else {
        assert IsMin(h, m);
      }
    }
  }

  /** The entry at the top of a heap, which `heappop` takes out. */
  method Top(h: multiset<Entry>) returns (e: Entry)
    requires |h| > 0
    ensures IsMin(h, e)
  {
    MinExists(h);
    e :| e in h && forall x | x in h :: Leq(e, x);
  }
}

/** `_find_cycles`: Tarjan's strongly connected components over the component graph. */
module Cycles {
  import opened Names

  // Out-edges by component; a component with none may be missing.
  type Graph = map<Name, set<Name>>

  function Successors(g: Graph, u: Name): set<Name> {
    if u in g then g[u] else {}
  }

  predicate Edge(g: Graph, u: Name, w: Name) {
    u in g && w in g[u]
  }

  ghost predicate IsPath(g: Graph, p: seq<Name>) {
    |p| > 0 && forall i | 0 <= i < |p| - 1 :: Edge(g, p[i], p[i + 1])
  }

  ghost predicate PathFrom(g: Graph, p: seq<Name>, u: Name, w: Name) {
    IsPath(g, p) && p[0] == u && p[|p| - 1] == w
  }

  ghost predicate Reach(g: Graph, u: Name, w: Name) {
    exists p :: PathFrom(g, p, u, w)
  }

  lemma ReachRefl(g: Graph, u: Name)
    ensures Reach(g, u, u)
  {
    assert PathFrom(g, [u], u, u);
  }

  lemma ReachEdge(g: Graph, u: Name, w: Name)
    requires Edge(g, u, w)
    ensures Reach(g, u, w)
  {
    assert PathFrom(g, [u, w], u, w);
  }

  lemma ReachTrans(g: Graph, u: Name, v: Name, w: Name)
    requires Reach(g, u, v) && Reach(g, v, w)
    ensures Reach(g, u, w)
  {
    var p :| PathFrom(g, p, u, v);
    var q :| PathFrom(g, q, v, w);
    var r := p + q[1..];
    forall i | 0 <= i < |r| - 1 ensures Edge(g, r[i], r[i + 1]) {
      if i >= |p| - 1 {
        assert r[i] == q[i - |p| + 1] && r[i + 1] == q[i - |p| + 2];
      }
    }
    assert PathFrom(g, r, u, w);
  }

  ghost predicate Closed(g: Graph, s: set<Name>) {
    forall u, w {:trigger Edge(g, u, w)} | u in s && Edge(g, u, w) :: w in s
  }

  lemma ClosedReach(g: Graph, s: set<Name>, u: Name, w: Name)
    requires Closed(g, s) && u in s && Reach(g, u, w)
    ensures w in s
  {
    var p :| PathFrom(g, p, u, w);
    for i := 0 to |p| - 1
      invariant p[i] in s
    {
      assert Edge(g, p[i], p[i + 1]);
    }
  }

  ghost predicate Mutual(g: Graph, u: Name, w: Name) {
    Reach(g, u, w) && Reach(g, w, u)
  }

  /** `c` is one whole strongly connected component. */
  ghost predicate IsScc(g: Graph, c: set<Name>) {
    c != {} && forall x, y {:trigger Mutual(g, x, y)} | x in c :: y in c <==> Mutual(g, x, y)
  }

  // ---- The state of the search ----

  type Index = map<Name, nat>

  ghost predicate ReachesGray(g: Graph, index: Index, gray: set<Name>, y: Name) {
    exists x :: x in gray && x in index && y in index && index[x] <= index[y] && Reach(g, y, x)
  }

  /** The invariant of the search: `open` is the stack, `gray` the nodes whose call has not
      returned. A node off the stack has only successors off the stack, a node whose call has
      returned has only visited successors, an older node on the stack reaches every younger
      one, and each reaches an older one whose call is still running. */
  ghost predicate Wf(g: Graph, index: Index, open: set<Name>, gray: set<Name>) {
    && gray <= open <= index.Keys
    && (forall u, w {:trigger Edge(g, u, w)} | u in index && u !in gray && Edge(g, u, w) :: w in index)
    && (forall u, w {:trigger Edge(g, u, w)} | u in index && u !in open && Edge(g, u, w) :: w !in open)
    && (forall x, y {:trigger Reach(g, x, y)} | x in open && y in open && index[x] <= index[y] :: Reach(g, x, y))
    && (forall y {:trigger ReachesGray(g, index, gray, y)} | y in open :: ReachesGray(g, index, gray, y))
  }

  /** The stack lists the open nodes by ascending index. */
  ghost predicate StackOf(index: Index, open: set<Name>, stack: seq<Name>) {
    && Elements(stack) == open <= index.Keys
    && (forall i, j | 0 <= i < j < |stack| :: index[stack[i]] < index[stack[j]])
  }

  /** The components completed so far are exactly the visited nodes off the stack. */
  ghost predicate Components(g: Graph, done: set<Name>, comps: set<set<Name>>) {
    && (forall c | c in comps :: IsScc(g, c) && c <= done)
    && (forall x | x in done :: exists c :: c in comps && x in c)
  }

  ghost predicate Listed(cycles: seq<seq<Name>>, c: set<Name>) {
    exists k :: 0 <= k < |cycles| && Elements(cycles[k]) == c
  }

  /** `cycles` lists the components of more than one node: each once, each ascending. */
  ghost predicate Reported(comps: set<set<Name>>, cycles: seq<seq<Name>>) {
    && (forall k | 0 <= k < |cycles| ::
          Ordered(cycles[k]) && Distinct(cycles[k]) && |cycles[k]| > 1 && Elements(cycles[k]) in comps)
    && (forall c {:trigger Listed(cycles, c)} | c in comps && |c| > 1 :: Listed(cycles, c))
    && (forall k, l | 0 <= k < l < |cycles| :: Elements(cycles[k]) !! Elements(cycles[l]))
  }

  // ---- Steps of the invariant ----

  lemma OpenReach(g: Graph, index: Index, open: set<Name>, gray: set<Name>, v: Name, y: Name)
    requires Wf(g, index, open, gray) && y in open
    requires forall x | x in gray :: Reach(g, x, v)
    ensures Reach(g, y, v)
  {
    hide Reach, Edge;
    assert ReachesGray(g, index, gray, y);
    var x :| x in gray && index[x] <= index[y] && Reach(g, y, x);
    ReachTrans(g, y, x, v);
  }

  /** Every running call's node reaches the youngest one. */
  lemma GrayReach(g: Graph, index: Index, open: set<Name>, gray: set<Name>, v: Name)
    requires Wf(g, index, open, gray) && v in gray
    requires forall x | x in gray && x != v :: x in index && v in index && index[x] < index[v]
    ensures forall x | x in gray :: Reach(g, x, v)
  {
  }

  /** A call starts. */
  lemma WfPush(g: Graph, index: Index, open: set<Name>, gray: set<Name>, v: Name, n: nat)
    requires Wf(g, index, open, gray) && v !in index
    requires forall x | x in index :: index[x] < n
    requires forall x | x in gray :: Reach(g, x, v)
    ensures Wf(g, index[v := n], open + {v}, gray + {v})
  {
    hide Reach, Edge;
    var index', open', gray' := index[v := n], open + {v}, gray + {v};
    ReachRefl(g, v);
    forall y | y in open' ensures ReachesGray(g, index', gray', y) && Reach(g, y, v) {
      if y == v {
        assert v in gray';
      } else {
        OpenReach(g, index, open, gray, v, y);
        assert ReachesGray(g, index, gray, y);
        var x :| x in gray && index[x] <= index[y] && Reach(g, y, x);
        assert x in gray' && index'[x] <= index'[y];
      }
    }
  }

  lemma KeepReaches(g: Graph, index: Index, open: set<Name>, gray: set<Name>, v: Name, x: Name, y: Name)
    requires ReachesGray(g, index, gray + {v}, x) && v in index && x in index && index[x] < index[v]
    requires Reach(g, v, x) && ReachesGray(g, index, gray + {v}, y)
    ensures ReachesGray(g, index, gray, y)
  {
    hide Reach;
    var z :| z in gray + {v} && z in index && index[z] <= index[y] && Reach(g, y, z);
    if z == v {
      var z' :| z' in gray + {v} && z' in index && index[z'] <= index[x] && Reach(g, x, z');
      ReachTrans(g, y, v, x);
      ReachTrans(g, y, x, z');
      assert z' in gray;
    } else {
      assert z in gray;
    }
  }

  /** `v`'s call returns leaving `v` on the stack: `v` reaches an older node `x` there. */
  lemma WfKeep(g: Graph, index: Index, open: set<Name>, gray: set<Name>, v: Name, x: Name)
    requires Wf(g, index, open, gray + {v}) && v in open && v !in gray
    requires forall w | Edge(g, v, w) :: w in index
    requires x in open && index[x] < index[v] && Reach(g, v, x)
    ensures Wf(g, index, open, gray)
  {
    hide Reach, Edge, ReachesGray;
    assert ReachesGray(g, index, gray + {v}, x);
    forall y | y in open ensures ReachesGray(g, index, gray, y) {
      assert ReachesGray(g, index, gray + {v}, y);
      KeepReaches(g, index, open, gray, v, x, y);
    }
  }

  /** The nodes of the stack from `v` up, when no edge leads from them to the nodes below. */
  ghost predicate IsTop(g: Graph, index: Index, open: set<Name>, gray: set<Name>, v: Name, top: set<Name>) {
    && Wf(g, index, open, gray + {v})
    && v in top && top <= open && gray <= open - top
    && (forall w {:trigger Edge(g, v, w)} | Edge(g, v, w) :: w in index)
    && (forall x | x in open :: x in top <==> index[v] <= index[x])
    && (forall u, w {:trigger Edge(g, u, w)} | u in top && Edge(g, u, w) :: w !in open - top)
  }

  lemma TopReachesRoot(g: Graph, index: Index, open: set<Name>, gray: set<Name>, v: Name, top: set<Name>, y: Name)
    requires IsTop(g, index, open, gray, v, top) && y in top
    ensures Mutual(g, v, y)
  {
    hide Reach, Edge;
    assert ReachesGray(g, index, gray + {v}, y);
    var x :| x in gray + {v} && index[x] <= index[y] && Reach(g, y, x);
    ClosedReach(g, index.Keys - (open - top), y, x);
  }

  lemma TopIsScc(g: Graph, index: Index, open: set<Name>, gray: set<Name>, v: Name, top: set<Name>)
    requires IsTop(g, index, open, gray, v, top)
    ensures IsScc(g, top)
  {
    hide Reach, Edge;
    forall x, y | x in top ensures y in top <==> Mutual(g, x, y) {
      TopReachesRoot(g, index, open, gray, v, top, x);
      if y in top {
        TopReachesRoot(g, index, open, gray, v, top, y);
        ReachTrans(g, x, v, y);
        ReachTrans(g, y, v, x);
      }
      if Mutual(g, x, y) && y !in top {
        ClosedReach(g, index.Keys - (open - top), x, y);
        ClosedReach(g, index.Keys - open, y, x);
      }
    }
  }

  /** `v`'s call returns taking the top of the stack off. */
  lemma WfPop(g: Graph, index: Index, open: set<Name>, gray: set<Name>, v: Name, top: set<Name>)
    requires IsTop(g, index, open, gray, v, top)
    ensures Wf(g, index, open - top, gray)
  {
    hide Reach, Edge;
    forall y | y in open - top ensures ReachesGray(g, index, gray, y) {
      assert ReachesGray(g, index, gray + {v}, y);
    }
  }

  lemma StackPush(index: Index, open: set<Name>, stack: seq<Name>, v: Name, n: nat)
    requires StackOf(index, open, stack) && v !in index
    requires forall x | x in index :: index[x] < n
    ensures StackOf(index[v := n], open + {v}, stack + [v])
  {
  }

  lemma StackInjective(index: Index, open: set<Name>, stack: seq<Name>, x: Name, y: Name)
    requires StackOf(index, open, stack) && x in open && y in open && index[x] == index[y]
    ensures x == y
  {
  }

  lemma ComponentsAdd(g: Graph, done: set<Name>, comps: set<set<Name>>, c: set<Name>)
    requires Components(g, done, comps) && IsScc(g, c)
    ensures Components(g, done + c, comps + {c})
  {
    hide IsScc;
    forall x | x in done + c ensures exists d :: d in comps + {c} && x in d {
      if x in c {
        assert c in comps + {c};
      } else {
        var d :| d in comps && x in d;
        assert d in comps + {c};
      }
    }
  }

  lemma {:induction false} CardElements(s: seq<Name>)
    requires Distinct(s)
    ensures |Elements(s)| == |s|
  {
    if s != [] {
      CardElements(s[1..]);
      assert Elements(s) == {s[0]} + Elements(s[1..]);
    }
  }

  lemma ComponentsApart(g: Graph, done: set<Name>, comps: set<set<Name>>, c: set<Name>)
    requires Components(g, done, comps) && c !! done
    ensures forall d | d in comps :: d !! c
  {
  }

  lemma ElementsOf(s: seq<Name>, c: set<Name>)
    requires Distinct(s) && forall x :: x in s <==> x in c
    ensures Elements(s) == c && |c| == |s|
  {
    CardElements(s);
  }

  lemma ListedMore(cycles: seq<seq<Name>>, last: seq<Name>, c: set<Name>)
    requires Listed(cycles, c) || c == Elements(last)
    ensures Listed(cycles + [last], c)
  {
    var cycles' := cycles + [last];
    if c == Elements(last) {
      assert Elements(cycles'[|cycles|]) == c;
    } else {
      var k :| 0 <= k < |cycles| && Elements(cycles[k]) == c;
      assert Elements(cycles'[k]) == c;
    }
  }

  lemma ReportedSkip(comps: set<set<Name>>, cycles: seq<seq<Name>>, c: set<Name>)
    requires Reported(comps, cycles) && |c| <= 1
    ensures Reported(comps + {c}, cycles)
  {
  }

  lemma ReportedAdd(comps: set<set<Name>>, cycles: seq<seq<Name>>, scc: seq<Name>)
    requires Reported(comps, cycles) && Distinct(scc) && |scc| > 1
    requires forall c | c in comps :: c !! Elements(scc)
    ensures Reported(comps + {Elements(scc)}, cycles + [Sort(scc)])
  {
    var c, last := Elements(scc), Sort(scc);
    hide Listed, Elements, Ordered, Distinct, Sort;
    SortDistinct(scc);
    forall d | d in comps + {c} && |d| > 1 ensures Listed(cycles + [last], d) {
      ListedMore(cycles, last, d);
    }
  }

  // ---- One call of the search ----

  /** The variables of `_find_cycles` and, ghostly, the running calls and all components found. */
  datatype Dfs = Dfs(
    index: Index, low: Index, onStack: set<Name>, stack: seq<Name>, counter: nat,
    cycles: seq<seq<Name>>, gray: set<Name>, comps: set<set<Name>>)

  function Nodes(g: Graph): set<Name> {
    g.Keys + set u, w | u in g && w in g[u] :: w
  }

  ghost predicate Valid(g: Graph, s: Dfs) {
    && s.gray <= s.onStack <= s.index.Keys
    && s.low.Keys == s.index.Keys <= Nodes(g)
    && Wf(g, s.index, s.onStack, s.gray)
    && (forall x | x in s.index :: s.index[x] < s.counter)
    && StackOf(s.index, s.onStack, s.stack)
    && Components(g, s.index.Keys - s.onStack, s.comps)
    && Reported(s.comps, s.cycles)
  }

  /** From `s` to `t` nothing visited is renumbered, taken off the stack or put back on it, and
      only the `low` of `v` may change. */
  ghost predicate Keeps(s: Dfs, t: Dfs, v: Name) {
    && s.index.Keys <= t.index.Keys && s.low.Keys <= t.low.Keys
    && s.counter <= t.counter
    && (forall u {:trigger t.index[u]} | u in s.index :: t.index[u] == s.index[u])
    && (forall u {:trigger t.index[u]} | u in t.index && u !in s.index :: t.index[u] >= s.counter)
    && (forall u {:trigger u in t.onStack} | u in s.index :: u in t.onStack <==> u in s.onStack)
    && (forall u {:trigger t.low[u]} | u in s.low && u != v :: t.low[u] == s.low[u])
  }

  /** `n` is the index of a node on the stack that `v` reaches. */
  ghost predicate LowFrom(g: Graph, s: Dfs, v: Name, n: nat) {
    exists x :: x in s.onStack && x in s.index && s.index[x] == n && Reach(g, v, x)
  }

  /** `n` bounds the index of every node below `b` on the stack that an edge from a node of the
      stack at or above `a` leads to. */
  ghost predicate LowBound(g: Graph, s: Dfs, a: nat, b: nat, n: nat) {
    forall u, w {:trigger Edge(g, u, w)} | Edge(g, u, w) && u in s.onStack && w in s.onStack
        && u in s.index && w in s.index && a <= s.index[u] && s.index[w] < b :: n <= s.index[w]
  }

  /** `v`'s call between two successors; `seen` are the successors already looked at. */
  ghost predicate Scanning(g: Graph, s: Dfs, v: Name, gray0: set<Name>, seen: set<Name>) {
    && Valid(g, s)
    && s.gray == gray0 + {v} && v !in gray0
    && (forall x | x in gray0 :: s.index[x] < s.index[v])
    && s.low[v] <= s.index[v]
    && LowFrom(g, s, v, s.low[v])
    && LowBound(g, s, s.index[v] + 1, s.index[v], s.low[v])
    && (forall w | w in seen :: w in s.index && (w in s.onStack ==> s.low[v] <= s.index[w]))
  }

  /** What `strongconnect(v)` does to the state. */
  ghost predicate Connected(g: Graph, s: Dfs, t: Dfs, v: Name) {
    && Valid(g, t) && t.gray == s.gray && Keeps(s, t, v)
    && v in t.index && t.index[v] == s.counter
    && LowBound(g, t, t.index[v], t.index[v], t.low[v])
    && if v in t.onStack then t.low[v] < t.index[v] && LowFrom(g, t, v, t.low[v]) else t.low[v] == t.index[v]
  }

  ghost predicate CanEnter(g: Graph, s: Dfs, v: Name) {
    Valid(g, s) && v !in s.index && v in Nodes(g) && forall x | x in s.gray :: Reach(g, x, v)
  }

  lemma Enter(g: Graph, s: Dfs, t: Dfs, v: Name)
    requires CanEnter(g, s, v)
    requires t == Dfs(s.index[v := s.counter], s.low[v := s.counter], s.onStack + {v}, s.stack + [v],
                      s.counter + 1, s.cycles, s.gray + {v}, s.comps)
    ensures Scanning(g, t, v, s.gray, {}) && Keeps(s, t, v)
    ensures v in Nodes(g) && v !in s.index
  {
    hide Reach, Edge, Wf, Components, Reported, StackOf, Nodes;
    WfPush(g, s.index, s.onStack, s.gray, v, s.counter);
    StackPush(s.index, s.onStack, s.stack, v, s.counter);
    assert t.index.Keys - t.onStack == s.index.Keys - s.onStack;
    ReachRefl(g, v);
  }

  lemma CallSuccessor(g: Graph, s: Dfs, v: Name, gray0: set<Name>, seen: set<Name>, w: Name)
    requires Scanning(g, s, v, gray0, seen) && Edge(g, v, w) && w !in s.index
    ensures CanEnter(g, s, w)
  {
    assert w in Nodes(g);
    hide Reach, Edge, Components, Reported, StackOf, Nodes;
    ReachEdge(g, v, w);
    GrayReach(g, s.index, s.onStack, s.gray, v);
    forall x | x in s.gray ensures Reach(g, x, w) {
      ReachTrans(g, x, v, w);
    }
  }

  function Min(a: nat, b: nat): nat {
    if b < a then b else a
  }

  lemma ValidFacts(g: Graph, s: Dfs)
    requires Valid(g, s)
    ensures s.gray <= s.onStack <= s.index.Keys && s.low.Keys == s.index.Keys
    ensures forall x | x in s.index :: s.index[x] < s.counter
  {
  }

  lemma ValidLow(g: Graph, s: Dfs, t: Dfs)
    requires Valid(g, s) && t == s.(low := t.low) && t.low.Keys == s.low.Keys
    ensures Valid(g, t)
  {
  }

  /** `low` after the call of the new successor `w`: see `Scanning`. */
  lemma LowAfterCall(g: Graph, s: Dfs, m: Dfs, t: Dfs, v: Name, w: Name)
    requires Edge(g, v, w) && v in s.index && w in m.index && v in t.low
    requires v in s.low && v in m.low && w in m.low && m.low[v] == s.low[v] && s.onStack <= s.index.Keys
    requires Keeps(s, m, w) && LowFrom(g, s, v, s.low[v]) && s.low[v] <= s.index[v] < s.counter
    requires if w in m.onStack then LowFrom(g, m, w, m.low[w]) else m.low[w] >= s.counter
    requires t.index == m.index && t.onStack == m.onStack && t.low[v] == Min(m.low[v], m.low[w])
    ensures LowFrom(g, t, v, t.low[v])
  {
    hide Reach, Edge;
    if m.low[w] < m.low[v] {
      ReachEdge(g, v, w);
      var x :| x in m.onStack && x in m.index && m.index[x] == m.low[w] && Reach(g, w, x);
      ReachTrans(g, v, w, x);
      assert x in t.onStack;
    } else {
      var x :| x in s.onStack && x in s.index && s.index[x] == s.low[v] && Reach(g, v, x);
      assert x in t.onStack && t.index[x] == t.low[v];
    }
  }

  lemma BoundAfterCall(g: Graph, s: Dfs, m: Dfs, t: Dfs, v: Name, w: Name, n: nat)
    requires v in s.index && w in m.index && m.index[w] == s.counter && s.index[v] < s.counter
    requires Keeps(s, m, w) && s.onStack <= s.index.Keys
    requires LowBound(g, s, s.index[v] + 1, s.index[v], n)
    requires w in m.low && LowBound(g, m, m.index[w], m.index[w], m.low[w])
    requires t.index == m.index && t.onStack == m.onStack
    ensures LowBound(g, t, t.index[v] + 1, t.index[v], Min(n, m.low[w]))
  {
  }

  lemma SeenAfterCall(s: Dfs, m: Dfs, t: Dfs, v: Name, seen: set<Name>, w: Name)
    requires Keeps(s, m, w) && v in s.low && v in m.low && w in m.low && w in m.index && w !in s.index && w !in s.low
    requires v != w && m.low[w] <= m.index[w]
    requires t == m.(low := m.low[v := Min(m.low[v], m.low[w])])
    requires forall u | u in seen :: u in s.index && (u in s.onStack ==> s.low[v] <= s.index[u])
    ensures forall u | u in seen + {w} :: u in t.index && (u in t.onStack ==> t.low[v] <= t.index[u])
    ensures Keeps(s, t, v)
  {
  }

  lemma AfterCall(g: Graph, s: Dfs, m: Dfs, t: Dfs, v: Name, gray0: set<Name>, seen: set<Name>, w: Name)
    requires Scanning(g, s, v, gray0, seen) && Edge(g, v, w) && w !in s.index
    requires Connected(g, s, m, w)
    requires v in m.low && w in m.low
    requires t == m.(low := m.low[v := Min(m.low[v], m.low[w])])
    ensures Scanning(g, t, v, gray0, seen + {w}) && Keeps(s, t, v)
  {
    hide Valid, Edge, LowFrom, LowBound;
    ValidLow(g, m, t);
    ValidFacts(g, s);
    ValidFacts(g, m);
    SeenAfterCall(s, m, t, v, seen, w);
    LowAfterCall(g, s, m, t, v, w);
    BoundAfterCall(g, s, m, t, v, w, m.low[v]);
  }

  lemma AfterSeen(g: Graph, s: Dfs, v: Name, gray0: set<Name>, seen: set<Name>, w: Name)
    requires Scanning(g, s, v, gray0, seen) && Edge(g, v, w) && w in s.index
    ensures w !in s.onStack ==> Scanning(g, s, v, gray0, seen + {w})
    ensures w in s.onStack ==> Scanning(g, s.(low := s.low[v := Min(s.low[v], s.index[w])]), v, gray0, seen + {w})
  {
    hide Reach, Edge, Wf, Components, Reported, StackOf, Nodes;
    ReachEdge(g, v, w);
  }

  /** `v` has looked at all its successors and is not a root. */
  lemma Keep(g: Graph, s: Dfs, t: Dfs, v: Name)
    requires Scanning(g, t, v, s.gray, Successors(g, v)) && t.low[v] != t.index[v]
    requires Keeps(s, t, v) && t.index[v] == s.counter
    ensures Connected(g, s, t.(gray := s.gray), v)
  {
    hide Reach, Components, Reported, Nodes, Wf;
    var x :| x in t.onStack && x in t.index && t.index[x] == t.low[v] && Reach(g, v, x);
    WfKeep(g, t.index, t.onStack, s.gray, v, x);
    forall u | u in t.onStack && t.index[u] == t.index[v] ensures u == v {
      StackInjective(t.index, t.onStack, t.stack, u, v);
    }
  }

  lemma RootTop(g: Graph, s: Dfs, v: Name, gray0: set<Name>) returns (top: set<Name>)
    requires Scanning(g, s, v, gray0, Successors(g, v)) && s.low[v] == s.index[v]
    ensures IsTop(g, s.index, s.onStack, gray0, v, top)
    ensures forall x :: x in top <==> x in s.onStack && s.index[v] <= s.index[x]
  {
    hide Reach, Components, Reported, StackOf, Nodes;
    top := set x | x in s.onStack && s.index[v] <= s.index[x];
    forall u | u in s.onStack && s.index[u] == s.index[v] ensures u == v {
      StackInjective(s.index, s.onStack, s.stack, u, v);
    }
  }

  /** `v` is the root of a component, and `scc` has been popped off the stack. */
  ghost predicate Popped(s: Dfs, t: Dfs, v: Name, scc: seq<Name>)
    requires v in s.index && s.onStack <= s.index.Keys
  {
    && t == s.(stack := t.stack, onStack := t.onStack)
    && StackOf(s.index, t.onStack, t.stack) && Distinct(scc)
    && (forall x :: x in scc <==> x in s.onStack && s.index[v] <= s.index[x])
    && (forall x :: x in t.onStack <==> x in s.onStack && s.index[x] < s.index[v])
  }

  /** The component is recorded and the call closed. */
  ghost predicate Emitted(s: Dfs, t: Dfs, scc: seq<Name>, gray0: set<Name>) {
    t == s.(cycles := if |scc| > 1 then s.cycles + [Sort(scc)] else s.cycles,
            comps := s.comps + {Elements(scc)}, gray := gray0)
  }

  lemma Pop(g: Graph, s: Dfs, m: Dfs, t: Dfs, v: Name, gray0: set<Name>, scc: seq<Name>)
    requires Scanning(g, s, v, gray0, Successors(g, v)) && s.low[v] == s.index[v]
    requires Popped(s, m, v, scc) && Emitted(m, t, scc, gray0)
    ensures Valid(g, t)
  {
    hide Reach, Successors, Wf, Components, Reported, StackOf, Nodes, IsTop, IsScc, Sort, Elements, LowFrom, LowBound;
    var top := RootTop(g, s, v, gray0);
    ElementsOf(scc, top);
    TopIsScc(g, s.index, s.onStack, gray0, v, top);
    WfPop(g, s.index, s.onStack, gray0, v, top);
    assert t.onStack == s.onStack - top;
    var done := s.index.Keys - s.onStack;
    ComponentsAdd(g, done, s.comps, top);
    assert done + top == t.index.Keys - t.onStack;
    ComponentsApart(g, done, s.comps, top);
    if |scc| > 1 {
      ReportedAdd(s.comps, s.cycles, scc);
    } else {
      ReportedSkip(s.comps, s.cycles, top);
    }
  }

  lemma PopKeeps(s: Dfs, m: Dfs, t: Dfs, v: Name)
    requires Keeps(s, m, v) && v in m.index && m.index[v] == s.counter
    requires forall u | u in s.index :: s.index[u] < s.counter
    requires t.index == m.index && t.low == m.low && t.counter == m.counter && m.onStack <= m.index.Keys
    requires forall x :: x in t.onStack <==> x in m.onStack && m.index[x] < m.index[v]
    ensures Keeps(s, t, v)
  {
  }

  lemma PopConnected(g: Graph, s: Dfs, m: Dfs, p: Dfs, t: Dfs, v: Name, scc: seq<Name>)
    requires CanEnter(g, s, v)
    requires Scanning(g, m, v, s.gray, Successors(g, v)) && m.low[v] == m.index[v]
    requires Keeps(s, m, v) && m.index[v] == s.counter
    requires Popped(m, p, v, scc) && Emitted(p, t, scc, s.gray)
    ensures Connected(g, s, t, v)
  {
    Pop(g, m, p, t, v, s.gray, scc);
    hide Wf, Components, Reported, StackOf, Nodes, LowFrom, LowBound, Sort, Elements, Keeps;
    PopKeeps(s, m, t, v);
    NothingAbove(g, t, v, t.low[v]);
    PopAssembled(g, s, t, v);
  }

  lemma PopAssembled(g: Graph, s: Dfs, t: Dfs, v: Name)
    requires Valid(g, t) && t.gray == s.gray && Keeps(s, t, v)
    requires v in t.index && t.index[v] == s.counter && v !in t.onStack
    requires t.low[v] == t.index[v] && LowBound(g, t, t.index[v], t.index[v], t.low[v])
    ensures Connected(g, s, t, v)
  {
  }

  lemma NothingAbove(g: Graph, t: Dfs, v: Name, n: nat)
    requires v in t.index && t.onStack <= t.index.Keys
    requires forall x | x in t.onStack :: t.index[x] < t.index[v]
    ensures LowBound(g, t, t.index[v], t.index[v], n)
  {
  }

  /** `strongconnect`: `_find_cycles`'s variables are threaded through as one value. */
  method StrongConnect(g: Graph, s0: Dfs, v: Name) returns (s: Dfs)
    requires CanEnter(g, s0, v)
    ensures Connected(g, s0, s, v)
    decreases Nodes(g) - s0.index.Keys, 0
  {
    hide *;
    s := Dfs(s0.index[v := s0.counter], s0.low[v := s0.counter], s0.onStack + {v}, s0.stack + [v],
             s0.counter + 1, s0.cycles, s0.gray + {v}, s0.comps);
    Enter(g, s0, s, v);

    var remaining := Successors(g, v);
    ghost var seen: set<Name> := {};
    while remaining != {}
      invariant Scanning(g, s, v, s0.gray, seen) && Keeps(s0, s, v)
      invariant seen + remaining == Successors(g, v)
      invariant s0.index.Keys + {v} <= s.index.Keys && s.index[v] == s0.counter
      decreases remaining
    {
      var w :| w in remaining;
      remaining := remaining - {w};
      IsSuccessor(g, v, w);
      ghost var m := s;
      s := Look(g, s, v, s0.gray, seen, w);
      KeepsTrans(s0, m, s, v);
      seen := seen + {w};
    }

    HasLow(g, s, v, s0.gray, seen);
    if s.low[v] == s.index[v] {
      ghost var m := s;
      var scc;
      s, scc := PopDownTo(s, v);
      ghost var p := s;
      s := s.(cycles := if |scc| > 1 then s.cycles + [Sort(scc)] else s.cycles,
              comps := s.comps + {Elements(scc)}, gray := s0.gray);
      IsEmitted(p, s, scc, s0.gray);
      PopConnected(g, s0, m, p, s, v, scc);
    } else {
      Keep(g, s0, s, v);
      s := s.(gray := s0.gray);
    }
  }

  lemma IsSuccessor(g: Graph, v: Name, w: Name)
    requires w in Successors(g, v)
    ensures Edge(g, v, w)
  {
  }

  lemma IsEmitted(s: Dfs, t: Dfs, scc: seq<Name>, gray0: set<Name>)
    requires t == s.(cycles := if |scc| > 1 then s.cycles + [Sort(scc)] else s.cycles,
                     comps := s.comps + {Elements(scc)}, gray := gray0)
    ensures Emitted(s, t, scc, gray0)
  {
  }

  lemma HasLow(g: Graph, s: Dfs, v: Name, gray0: set<Name>, seen: set<Name>)
    requires Scanning(g, s, v, gray0, seen)
    ensures v in s.low && v in s.index && v in s.onStack && StackOf(s.index, s.onStack, s.stack)
  {
  }

  lemma KeepsTrans(s: Dfs, m: Dfs, t: Dfs, v: Name)
    requires Keeps(s, m, v) && Keeps(m, t, v)
    ensures Keeps(s, t, v)
    ensures m.index.Keys <= t.index.Keys && forall u | u in m.index :: t.index[u] == m.index[u]
  {
  }

  /** The body of the successor loop of `v`. */
  method Look(g: Graph, s0: Dfs, v: Name, ghost gray0: set<Name>, ghost seen: set<Name>, w: Name)
    returns (s: Dfs)
    requires Scanning(g, s0, v, gray0, seen) && Edge(g, v, w)
    ensures Scanning(g, s, v, gray0, seen + {w}) && Keeps(s0, s, v)
    decreases Nodes(g) - s0.index.Keys, 1
  {
    hide Nodes, Wf, StackOf, Components, Reported, LowFrom, LowBound, Successors;
    if w !in s0.index {
      CallSuccessor(g, s0, v, gray0, seen, w);
      s := StrongConnect(g, s0, w);
      ghost var m := s;
      s := s.(low := s.low[v := Min(s.low[v], s.low[w])]);
      AfterCall(g, s0, m, s, v, gray0, seen, w);
    } else if w in s0.onStack {
      AfterSeen(g, s0, v, gray0, seen, w);
      s := s0.(low := s0.low[v := Min(s0.low[v], s0.index[w])]);
    } else {
      AfterSeen(g, s0, v, gray0, seen, w);
      s := s0;
    }
  }

  /** The popping loop: takes off every node from `v` up. */
  method PopDownTo(s0: Dfs, v: Name) returns (s: Dfs, scc: seq<Name>)
    requires StackOf(s0.index, s0.onStack, s0.stack) && v in s0.onStack
    ensures Popped(s0, s, v, scc)
  {
    var stack, onStack := s0.stack, s0.onStack;
    scc := [];
    while true
      invariant StackOf(s0.index, onStack, stack) && v in onStack && Distinct(scc)
      invariant forall x :: x in s0.onStack <==> x in onStack || x in scc
      invariant forall x | x in scc :: x !in onStack && s0.index[v] < s0.index[x]
      decreases |stack|
    {
      var n := |stack| - 1;
      var w := stack[n];
      assert forall x | x in onStack :: x in stack;
      stack := stack[..n];
      onStack := onStack - {w};
      scc := scc + [w];
      if w == v { break; }
    }
    s := s0.(stack := stack, onStack := onStack);
  }

  // ---- The result ----

  /** Every strongly connected component of more than one node is listed exactly once, in
      ascending order, and nothing else is. */
  ghost predicate AllCycles(g: Graph, cycles: seq<seq<Name>>) {
    && (forall k | 0 <= k < |cycles| :: Ordered(cycles[k]) && Distinct(cycles[k]))
    && (forall c: set<Name> :: (IsScc(g, c) && |c| > 1) <==> Listed(cycles, c))
    && (forall k, l | 0 <= k < l < |cycles| :: Elements(cycles[k]) !! Elements(cycles[l]))
  }

  lemma SccLeaves(g: Graph, c: set<Name>, x: Name)
    requires IsScc(g, c) && |c| > 1 && x in c
    ensures x in g
  {
    assert |c - {x}| == |c| - 1;
    var y :| y in c - {x};
    assert Mutual(g, x, y);
    var p :| PathFrom(g, p, x, y);
    assert Edge(g, p[0], p[1]);
  }

  lemma SccsMeet(g: Graph, c: set<Name>, d: set<Name>, x: Name)
    requires IsScc(g, c) && IsScc(g, d) && x in c && x in d
    ensures c == d
  {
    hide Mutual;
    assert forall y :: y in c <==> Mutual(g, x, y);
  }

  /** Once every node with an edge is visited, the components off the stack are all there are. */
  lemma AllVisited(g: Graph, index: Index, open: set<Name>, comps: set<set<Name>>, cycles: seq<seq<Name>>)
    requires Wf(g, index, open, {}) && g.Keys <= index.Keys
    requires Components(g, index.Keys - open, comps) && Reported(comps, cycles)
    ensures AllCycles(g, cycles)
  {
    hide Reach, Edge, Elements, Ordered, IsScc;
    forall y ensures y !in open {
      var _ := ReachesGray(g, index, {}, y);
    }
    forall c: set<Name> | IsScc(g, c) && |c| > 1
      ensures Listed(cycles, c)
    {
      var x :| x in c;
      SccLeaves(g, c, x);
      assert x in index.Keys - open;
      var d :| d in comps && x in d;
      SccsMeet(g, c, d, x);
    }
    forall k | 0 <= k < |cycles| ensures |Elements(cycles[k])| > 1 {
      CardElements(cycles[k]);
    }
  }

  /** `_find_cycles`, for any order in which the sets are iterated. */
  method FindCycles(edges: Graph) returns (cycles: seq<seq<Name>>)
    ensures AllCycles(edges, cycles)
  {
    hide Nodes, Wf, StackOf, Components, Reported, LowFrom, LowBound, Reach, Edge;
    var s := Dfs(map[], map[], {}, [], 0, [], {}, {});
    InitiallyValid(edges, s);
    var unvisited := edges.Keys;
    while unvisited != {}
      invariant Valid(edges, s) && s.gray == {}
      invariant edges.Keys - unvisited <= s.index.Keys
      decreases unvisited
    {
      var v :| v in unvisited;
      unvisited := unvisited - {v};
      if v !in s.index {
        KeysAreNodes(edges, v);
        s := StrongConnect(edges, s, v);
      }
    }
    cycles := s.cycles;
    AllVisited(edges, s.index, s.onStack, s.comps, cycles);
  }

  lemma InitiallyValid(g: Graph, s: Dfs)
    requires s == Dfs(map[], map[], {}, [], 0, [], {}, {})
    ensures Valid(g, s)
  {
  }

  lemma KeysAreNodes(g: Graph, v: Name)
    requires v in g
    ensures v in Nodes(g)
  {
  }
}

/** Dependency resolution with a per-request cache and cycle detection. */
module Depends {
  import opened Options

  type Fn = nat        // a callable

  /** A parameter supplied by the caller, or a `Depends` marker. */
  datatype Param = Plain(name: nat) | Dep(fn: Fn, useCache: bool)

  type Graph = map<Fn, seq<Param>>

  /** What pure callables compute: the tree of calls, with supplied values at the leaves. */
  datatype Value = Supplied(name: nat) | Call(fn: Fn, args: seq<Value>)

  predicate Closed(g: Graph) {
    forall f, i {:trigger g[f][i]} | f in g && 0 <= i < |g[f]| && g[f][i].Dep? :: g[f][i].fn in g
  }

  predicate Needs(g: Graph, f: Fn, d: Fn) {
    f in g && exists i :: 0 <= i < |g[f]| && g[f][i].Dep? && g[f][i].fn == d
  }

  // ---- Uncached evaluation ----

  predicate ArgOk(p: Param, v: Value) {
    match p
    case Plain(n) => v == Supplied(n)
    case Dep(d, _) => v.Call? && v.fn == d
  }

  /** `v` is the value of its callable by plain tree evaluation, every dependency evaluated anew. */
  predicate Evaluates(g: Graph, v: Value)
    decreases v
  {
    v.Call? && v.fn in g && |v.args| == |g[v.fn]|
    && forall i | 0 <= i < |v.args| :: ArgOk(g[v.fn][i], v.args[i]) && (g[v.fn][i].Dep? ==> Evaluates(g, v.args[i]))
  }

  /** Tree evaluation has at most one result. */
  lemma {:induction false} EvaluatesOnce(g: Graph, v: Value, w: Value)
    requires Evaluates(g, v) && Evaluates(g, w) && v.fn == w.fn
    ensures v == w
    decreases v
  {
    forall i | 0 <= i < |v.args| ensures v.args[i] == w.args[i] {
      assert ArgOk(g[v.fn][i], v.args[i]) && ArgOk(g[v.fn][i], w.args[i]);
      if g[v.fn][i].Dep? {
        EvaluatesOnce(g, v.args[i], w.args[i]);
      }
    }
    assert v.args == w.args;
  }

  function Size(v: Value): nat
    decreases v, 1
  {
    if v.Supplied? then 1 else 1 + SizeAll(v.args)
  }

  function SizeAll(vs: seq<Value>): nat
    decreases vs, 0
  {
    if vs == [] then 0 else Size(vs[0]) + SizeAll(vs[1..])
  }

  lemma {:induction false} ArgSmaller(vs: seq<Value>, i: nat)
    requires i < |vs|
    ensures Size(vs[i]) <= SizeAll(vs)
  {
    if i > 0 { ArgSmaller(vs[1..], i - 1); }
  }

  // ---- Cycles ----

  ghost predicate IsPath(g: Graph, p: seq<Fn>) {
    p != [] && forall i, j {:trigger p[i], p[j]} | 0 <= i && i + 1 == j < |p| :: Needs(g, p[i], p[j])
  }

  /** A cycle of dependencies is reachable from `f`: some path from it meets a callable twice. */
  ghost predicate CycleFrom(g: Graph, f: Fn) {
    exists p, i, j :: IsPath(g, p) && 0 <= i < j < |p| && p[0] == f && p[i] == p[j]
  }

  lemma PathCons(g: Graph, f: Fn, p: seq<Fn>)
    requires IsPath(g, p) && Needs(g, f, p[0])
    ensures IsPath(g, [f] + p)
  {
  }

  lemma PathPart(g: Graph, p: seq<Fn>, i: nat, j: nat)
    requires IsPath(g, p) && i <= j < |p|
    ensures IsPath(g, p[i..j + 1])
  {
  }

  lemma CycleThrough(g: Graph, f: Fn, d: Fn)
    requires Needs(g, f, d) && CycleFrom(g, d)
    ensures CycleFrom(g, f)
  {
    hide Needs, IsPath;
    var p, i, j :| IsPath(g, p) && 0 <= i < j < |p| && p[0] == d && p[i] == p[j];
    PathCons(g, f, p);
    var q := [f] + p;
    assert q[i + 1] == q[j + 1] && q[0] == f;
  }

  /** A dependency of the innermost callable that is already being resolved closes a cycle. */
  lemma ChainCycle(g: Graph, chain: seq<Fn>, d: Fn)
    requires IsPath(g, chain) && d in chain && Needs(g, chain[|chain| - 1], d)
    ensures CycleFrom(g, chain[|chain| - 1])
  {
    hide Needs, IsPath;
    var k :| 0 <= k < |chain| && chain[k] == d;
    var f, tail := chain[|chain| - 1], chain[k..|chain| - 1 + 1];
    PathPart(g, chain, k, |chain| - 1);
    assert tail[0] == d && tail[|tail| - 1] == f;
    PathCons(g, f, tail);
    var q := [f] + tail;
    assert q[0] == f && q[|q| - 1] == f;
  }

  /** The value at the end of a path is a proper part of the value at its start. */
  lemma {:induction false} PathValue(g: Graph, v: Value, p: seq<Fn>) returns (w: Value)
    requires Evaluates(g, v) && IsPath(g, p) && p[0] == v.fn
    ensures Evaluates(g, w) && w.fn == p[|p| - 1] && Size(w) <= Size(v) - (|p| - 1)
    decreases |p|
  {
    if |p| == 1 {
      w := v;
    } else {
      assert Needs(g, p[0], p[1]);
      var i :| 0 <= i < |g[v.fn]| && g[v.fn][i].Dep? && g[v.fn][i].fn == p[1];
      assert ArgOk(g[v.fn][i], v.args[i]);
      ArgSmaller(v.args, i);
      var q := p[1..|p| - 1 + 1];
      PathPart(g, p, 1, |p| - 1);
      assert q == p[1..];
      hide Needs, IsPath, Evaluates;
      w := PathValue(g, v.args[i], q);
    }
  }

  /** What evaluates has no cycle below it. */
  lemma EvaluatesAcyclic(g: Graph, v: Value)
    requires Evaluates(g, v)
    ensures !CycleFrom(g, v.fn)
  {
    if CycleFrom(g, v.fn) {
      hide IsPath, Size;
      var p, i, j :| IsPath(g, p) && 0 <= i < j < |p| && p[0] == v.fn && p[i] == p[j];
      PathPart(g, p, 0, i);
      PathPart(g, p, i, j);
      var x := PathValue(g, v, p[0..i + 1]);
      var y := PathValue(g, x, p[i..j + 1]);
      EvaluatesOnce(g, x, y);
    }
  }

  // ---- Resolution ----

  /** Every marker for `d` allows the cache. */
  ghost predicate AlwaysCached(g: Graph, d: Fn) {
    forall f, i {:trigger g[f][i]} | f in g && 0 <= i < |g[f]| && g[f][i].Dep? && g[f][i].fn == d :: g[f][i].useCache
  }

  function Count(calls: seq<Fn>, d: Fn): nat {
    multiset(calls)[d]
  }

  ghost predicate CacheOk(g: Graph, cache: map<Fn, Value>) {
    forall d {:trigger cache[d]} | d in cache :: Evaluates(g, cache[d]) && cache[d].fn == d
  }

  /** Whatever was executed had its dependencies executed, and an always-cached dependency was
      executed exactly once if its result is cached and not at all otherwise. */
  ghost predicate CallsOk(g: Graph, cache: map<Fn, Value>, calls: seq<Fn>) {
    && (forall f, d {:trigger Needs(g, f, d)} | f in calls && Needs(g, f, d) :: d in calls)
    && (forall d {:trigger d in cache} | d in cache :: d in calls)
    && (forall d {:trigger Count(calls, d)} | AlwaysCached(g, d) :: Count(calls, d) == if d in cache then 1 else 0)
  }

  ghost predicate ChainOk(g: Graph, f: Fn, chain: seq<Fn>) {
    && (forall i, j | 0 <= i < j < |chain| :: chain[i] != chain[j])
    && (forall c | c in chain :: c in g)
    && (chain != [] ==> IsPath(g, chain) && chain[|chain| - 1] == f)
  }

  function Remaining(g: Graph, chain: seq<Fn>): set<Fn> {
    g.Keys - set c | c in chain
  }

  class Resolver {
    const g: Graph
    var cache: map<Fn, Value>
    ghost var calls: seq<Fn>     // every dependency executed so far

    constructor (g: Graph)
      ensures this.g == g && cache == map[] && calls == []
    {
      this.g := g;
      cache, calls := map[], [];
    }

    ghost predicate Valid()
      reads this
    {
      Closed(g) && CacheOk(g, cache) && CallsOk(g, cache, calls)
    }

    /** `resolve_dependencies`: the arguments for `f`, or `None` for `DependencyCycleError`. */
    method Resolve(f: Fn, chain: seq<Fn>) returns (r: Option<seq<Value>>)
      requires Valid() && f in g && ChainOk(g, f, chain)
      modifies this
      ensures Valid()
      ensures r.None? ==> CycleFrom(g, f)
      ensures r.Some? ==> Evaluates(g, Call(f, r.value)) && forall d | Needs(g, f, d) :: d in calls
      ensures r.Some? ==> forall c | c in chain :: c in cache <==> c in old(cache)
      ensures forall d | d in old(calls) :: d in calls
      decreases Remaining(g, chain)
    {
      hide Evaluates, CycleFrom, CallsOk, CacheOk, Remaining, IsPath;
      var args: seq<Value> := [];
      for i := 0 to |g[f]|
        invariant Valid() && |args| == i
        invariant forall k | 0 <= k < i ::
          ArgOk(g[f][k], args[k]) && (g[f][k].Dep? ==> Evaluates(g, args[k]) && g[f][k].fn in calls)
        invariant forall c | c in chain :: c in cache <==> c in old(cache)
        invariant forall d | d in old(calls) :: d in calls
      {
        var v;
        match g[f][i] {
          case Plain(name) => v := Some(Supplied(name));
          case Dep(d, useCache) => v := Depend(f, chain, d, useCache, i);
        }
        if v.None? { return None; }
        args := args + [v.value];
      }
      AllEvaluate(g, f, args);
      r := Some(args);
    }

    /** One `Depends` parameter. */
    method Depend(f: Fn, chain: seq<Fn>, d: Fn, useCache: bool, ghost i: nat) returns (v: Option<Value>)
      requires Valid() && f in g && ChainOk(g, f, chain) && i < |g[f]| && g[f][i] == Dep(d, useCache)
      modifies this
      ensures Valid()
      ensures v.None? ==> CycleFrom(g, f)
      ensures v.Some? ==> v.value.Call? && v.value.fn == d && Evaluates(g, v.value) && d in calls
      ensures v.Some? ==> forall c | c in chain :: c in cache <==> c in old(cache)
      ensures forall d | d in old(calls) :: d in calls
      decreases Remaining(g, chain), 0
    {
      hide Evaluates, CycleFrom, CallsOk, CacheOk, IsPath;
      assert Needs(g, f, d) && d in g;
      if d in chain {
        ChainCycle(g, chain, d);
        return None;
      }
      if useCache && d in cache {
        CachedValue(g, cache, calls, d);
        return Some(cache[d]);
      }
      ChainMore(g, f, chain, d);
      var args := Resolve(d, chain + [d]);
      if args.None? {
        CycleThrough(g, f, d);
        return None;
      }
      if useCache {
        CachedCall(g, cache, calls, d, args.value);
        cache := cache[d := Call(d, args.value)];
      } else {
        UncachedCall(g, f, i, cache, calls, d);
      }
      calls := calls + [d];
      v := Some(Call(d, args.value));
    }
  }

  lemma AllEvaluate(g: Graph, f: Fn, args: seq<Value>)
    requires f in g && |args| == |g[f]|
    requires forall k | 0 <= k < |args| :: ArgOk(g[f][k], args[k]) && (g[f][k].Dep? ==> Evaluates(g, args[k]))
    ensures Evaluates(g, Call(f, args))
  {
  }

  lemma CachedValue(g: Graph, cache: map<Fn, Value>, calls: seq<Fn>, d: Fn)
    requires CacheOk(g, cache) && CallsOk(g, cache, calls) && d in cache
    ensures Evaluates(g, cache[d]) && cache[d].Call? && cache[d].fn == d && d in calls
  {
  }

  lemma ChainMore(g: Graph, f: Fn, chain: seq<Fn>, d: Fn)
    requires ChainOk(g, f, chain) && f in g && d in g && Needs(g, f, d) && d !in chain
    ensures ChainOk(g, d, chain + [d]) && Remaining(g, chain + [d]) < Remaining(g, chain)
  {
    hide Needs;
    var more := chain + [d];
    assert forall c | c in chain :: c in more;
    assert d in Remaining(g, chain) && d !in Remaining(g, more);
  }

  /** A cacheable dependency was not cached while it was being resolved, so this is its first
      execution. */
  lemma CachedCall(g: Graph, cache: map<Fn, Value>, calls: seq<Fn>, d: Fn, args: seq<Value>)
    requires CacheOk(g, cache) && CallsOk(g, cache, calls) && d !in cache && Evaluates(g, Call(d, args))
    requires forall e | Needs(g, d, e) :: e in calls
    ensures CacheOk(g, cache[d := Call(d, args)]) && CallsOk(g, cache[d := Call(d, args)], calls + [d])
  {
    hide Evaluates, AlwaysCached, Needs;
    assert forall e :: Count(calls + [d], e) == Count(calls, e) + if e == d then 1 else 0;
  }

  /** A dependency executed without the cache is not an always-cached one. */
  lemma UncachedCall(g: Graph, f: Fn, i: nat, cache: map<Fn, Value>, calls: seq<Fn>, d: Fn)
    requires CacheOk(g, cache) && CallsOk(g, cache, calls) && f in g && i < |g[f]| && g[f][i] == Dep(d, false)
    requires forall e | Needs(g, d, e) :: e in calls
    ensures CallsOk(g, cache, calls + [d])
  {
    assert !AlwaysCached(g, d);
    hide AlwaysCached, Needs;
    assert forall e :: Count(calls + [d], e) == Count(calls, e) + if e == d then 1 else 0;
  }

  // ---- The result ----

  ghost predicate Reached(g: Graph, f: Fn, d: Fn) {
    exists p :: IsPath(g, p) && |p| >= 2 && p[0] == f && p[|p| - 1] == d
  }

  lemma AllReachedCalled(g: Graph, f: Fn, d: Fn, cache: map<Fn, Value>, calls: seq<Fn>)
    requires CallsOk(g, cache, calls) && (forall e | Needs(g, f, e) :: e in calls) && Reached(g, f, d)
    ensures d in calls
  {
    var p :| IsPath(g, p) && |p| >= 2 && p[0] == f && p[|p| - 1] == d;
    hide Needs, AlwaysCached, Count;
    assert Needs(g, p[0], p[1]);
    for k := 1 to |p| - 1
      invariant p[k] in calls
    {
      assert Needs(g, p[k], p[k + 1]);
    }
  }

  /** A whole request: a cycle error exactly when a cycle is reachable; otherwise the arguments of
      plain tree evaluation, with every reachable dependency executed, and executed exactly once if
      it is always cached. */
  method ResolveRequest(g: Graph, f: Fn) returns (r: Option<seq<Value>>, ghost calls: seq<Fn>)
    requires Closed(g) && f in g
    ensures r.None? <==> CycleFrom(g, f)
    ensures r.Some? ==> Evaluates(g, Call(f, r.value))
    ensures r.Some? ==> forall d | Reached(g, f, d) :: d in calls
    ensures r.Some? ==> forall d | Reached(g, f, d) && AlwaysCached(g, d) :: Count(calls, d) == 1
  {
    hide Evaluates, CycleFrom, Reached, AlwaysCached, Needs;
    var resolver := new Resolver(g);
    r := resolver.Resolve(f, []);
    calls := resolver.calls;
    if r.Some? {
      EvaluatesAcyclic(g, Call(f, r.value));
      forall d | Reached(g, f, d)
        ensures d in calls && (AlwaysCached(g, d) ==> Count(calls, d) == 1)
      {
        AllReachedCalled(g, f, d, resolver.cache, calls);
        if AlwaysCached(g, d) { CountedOnce(g, d, resolver.cache, calls); }
      }
    }
  }

  lemma CountedOnce(g: Graph, d: Fn, cache: map<Fn, Value>, calls: seq<Fn>)
    requires CallsOk(g, cache, calls) && d in calls && AlwaysCached(g, d)
    ensures Count(calls, d) == 1
  {
  }
}

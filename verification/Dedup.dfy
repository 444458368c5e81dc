/** The subscriber's window of delivered bytes and in-flight marks. */
module Dedup {
  import opened RecentUse

  lemma {:induction false} WithoutOne(s: seq<Fingerprint>, x: Fingerprint) returns (i: nat)
    requires Distinct(s) && x in s
    ensures i < |s| && s[i] == x && Without(s, x) == s[..i] + s[i + 1..]
    decreases |s|
  {
    if s[0] == x {
      i := 0;
      WithoutAbsent(s[1..], x);
    } else {
      var j := WithoutOne(s[1..], x);
      i := j + 1;
      assert s[..i] + s[i + 1..] == [s[0]] + (s[1..][..j] + s[1..][j + 1..]);
    }
  }

  datatype Window = Window(seen: seq<Fingerprint>, inflight: set<Fingerprint>)

  /** A delivery starts, succeeds, or fails. */
  datatype Ev = Arrives(fp: Fingerprint) | Succeeds(fp: Fingerprint) | Fails(fp: Fingerprint)

  /** The fingerprint goes on to be dispatched. */
  predicate Dispatches(s: Window, e: Ev) {
    e.Arrives? && e.fp !in s.seen && e.fp !in s.inflight
  }

  function Step(n: nat, s: Window, e: Ev): Window {
    match e
    case Arrives(x) =>
      if x in s.seen then s.(seen := Without(s.seen, x) + [x])
      else s.(inflight := s.inflight + {x})
    case Succeeds(x) =>
      if x !in s.inflight then s
      else Window(if x in s.seen then s.seen else Last(s.seen + [x], n), s.inflight - {x})
    case Fails(x) => s.(inflight := s.inflight - {x})
  }

  /** Element `i` is moved to the end. */
  predicate MovesToEnd(s: seq<Fingerprint>, t: seq<Fingerprint>, i: nat)
    requires i < |s|
  {
    t == s[..i] + s[i + 1..] + [s[i]]
  }

  class Subscriber {
    const window: nat           // 0 turns deduplication off
    var seen: seq<Fingerprint>
    var inflight: set<Fingerprint>

    constructor (window: nat)
      ensures this.window == window && State() == Window([], {})
    {
      this.window := window;
      seen, inflight := [], {};
    }

    function State(): Window
      reads this
    {
      Window(seen, inflight)
    }

    /** `_is_duplicate`: a hit in the window counts as a touch. */
    method IsDuplicate(fp: Fingerprint) returns (dup: bool)
      modifies this`seen
      ensures dup <==> fp in old(seen) || fp in inflight
      ensures fp !in old(seen) ==> seen == old(seen)
      ensures fp in old(seen) && Distinct(old(seen)) ==>
        exists i :: 0 <= i < |old(seen)| && old(seen)[i] == fp && MovesToEnd(old(seen), seen, i)
      ensures seen == if fp in old(seen) then Without(old(seen), fp) + [fp] else old(seen)
    {
      if fp in seen {
        if Distinct(seen) { var _ := WithoutOne(seen, fp); }
        seen := Without(seen, fp) + [fp];
        return true;
      }
      dup := fp in inflight;
    }

    /** `_deliver` up to the dispatch: whether the callback is to run. */
    method Begin(fp: Fingerprint) returns (dispatch: bool)
      modifies this
      ensures dispatch <==> window == 0 || (fp !in old(seen) && fp !in old(inflight))
      ensures inflight == if dispatch && window > 0 then old(inflight) + {fp} else old(inflight)
      ensures window == 0 ==> dispatch && State() == old(State())
      ensures window > 0 ==> dispatch == Dispatches(old(State()), Arrives(fp))
      ensures window > 0 ==> State() == Step(window, old(State()), Arrives(fp))
    {
      if window == 0 { return true; }
      var dup := IsDuplicate(fp);
      if dup {
        assert inflight == inflight + (if fp in inflight then {fp} else {});
        return false;
      }
      inflight := inflight + {fp};
      dispatch := true;
    }

    /** `_deliver` after the dispatch. */
    method End(fp: Fingerprint, ok: bool)
      requires window > 0 ==> fp in inflight && |seen| <= window
      modifies this
      ensures window == 0 ==> State() == old(State())
      ensures window > 0 ==> inflight == old(inflight) - {fp}
      ensures window > 0 && (!ok || fp in old(seen)) ==> seen == old(seen)
      ensures window > 0 && ok && fp !in old(seen) ==>
        seen == (if |old(seen)| < window then old(seen) else old(seen)[1..]) + [fp]
      ensures window > 0 ==> State() == Step(window, old(State()), if ok then Succeeds(fp) else Fails(fp))
    {
      if window == 0 { return; }
      inflight := inflight - {fp};
      if ok { RecordDelivered(fp); }
    }

    method RecordDelivered(fp: Fingerprint)
      requires |seen| <= window && window > 0
      modifies this`seen
      ensures fp in old(seen) ==> seen == old(seen)
      ensures fp !in old(seen) ==> seen == (if |old(seen)| < window then old(seen) else old(seen)[1..]) + [fp]
      ensures seen == if fp in old(seen) then old(seen) else Last(old(seen) + [fp], window)
    {
      if fp !in seen {
        seen := seen + [fp];
        if |seen| > window {
          seen := seen[1..];
        }
      }
    }
  }

  // ---- Every interleaving ----

  function Run(n: nat, tr: seq<Ev>): Window {
    if tr == [] then Window([], {}) else Step(n, Run(n, tr[..|tr| - 1]), tr[|tr| - 1])
  }

  /** The fingerprint that an event touches, if any. */
  function Touched(s: Window, e: Ev): seq<Fingerprint> {
    if (e.Arrives? && e.fp in s.seen) || (e.Succeeds? && e.fp in s.inflight) then [e.fp] else []
  }

  /** The touches of a trace: successes of running deliveries, and hits in the window. */
  function Touches(n: nat, tr: seq<Ev>): seq<Fingerprint> {
    if tr == [] then []
    else
      var s, e := Run(n, tr[..|tr| - 1]), tr[|tr| - 1];
      Touches(n, tr[..|tr| - 1]) + Touched(s, e)
  }

  lemma StepKeepsApart(n: nat, s: Window, e: Ev)
    requires forall x | x in s.inflight :: x !in s.seen
    ensures forall x | x in Step(n, s, e).inflight :: x !in Step(n, s, e).seen
  {
    WithoutMembers(s.seen, e.fp);
    LastMembers(s.seen + [e.fp], n);
    hide Without, Last;
  }

  /** Nothing in flight is in the window. */
  lemma {:induction false} InflightUnseen(n: nat, tr: seq<Ev>)
    ensures forall x | x in Run(n, tr).inflight :: x !in Run(n, tr).seen
    decreases |tr|
  {
    hide Step;
    if tr != [] {
      InflightUnseen(n, tr[..|tr| - 1]);
      StepKeepsApart(n, Run(n, tr[..|tr| - 1]), tr[|tr| - 1]);
    }
  }

  /** The map always holds exactly the last `n` distinct fingerprints in order of their most recent
      touch. */
  lemma {:induction false} WindowIsRecent(n: nat, tr: seq<Ev>)
    requires n >= 1
    ensures Run(n, tr).seen == Last(Recency(Touches(n, tr)), n)
    decreases |tr|
  {
    hide Last, Recency, Step, Distinct;
    if tr != [] {
      var p, e := tr[..|tr| - 1], tr[|tr| - 1];
      WindowIsRecent(n, p);
      InflightUnseen(n, p);
      StepIsRecent(n, Run(n, p), e, Touches(n, p));
    } else {
      NothingSeen(n);
    }
  }

  /** It holds each fingerprint once, and at most `n`. */
  lemma WindowDistinct(n: nat, tr: seq<Ev>)
    requires n >= 1
    ensures Distinct(Run(n, tr).seen) && |Run(n, tr).seen| <= n
  {
    hide Last, Recency, Run, Touches, Distinct;
    WindowIsRecent(n, tr);
    RecencyDistinct(Touches(n, tr));
    LastDistinct(Recency(Touches(n, tr)), n);
  }

  lemma NothingSeen(n: nat)
    ensures Last(Recency([]), n) == []
  {
  }

  lemma StepIsRecent(n: nat, s: Window, e: Ev, touches: seq<Fingerprint>)
    requires n >= 1 && s.seen == Last(Recency(touches), n) && (e.fp in s.inflight ==> e.fp !in s.seen)
    ensures Step(n, s, e).seen == Last(Recency(touches + Touched(s, e)), n)
  {
    hide Last, Without, Distinct, Recency;
    assert touches + [] == touches;
    RecencyDistinct(touches);
    if Touched(s, e) == [e.fp] {
      RecencyMore(touches, e.fp);
      if e.fp in s.seen {
        TouchInside(Recency(touches), e.fp, n);
      } else {
        TouchOutside(Recency(touches), e.fp, n);
      }
    }
  }

  /** How many deliveries of `x` are running: dispatched and not over. */
  function Running(n: nat, tr: seq<Ev>, x: Fingerprint): int {
    if tr == [] then 0
    else
      var s, e := Run(n, tr[..|tr| - 1]), tr[|tr| - 1];
      Running(n, tr[..|tr| - 1], x)
      + (if e.fp == x && Dispatches(s, e) then 1
         else if e.fp == x && !e.Arrives? && x in s.inflight then -1 else 0)
  }

  /** Two deliveries of the same bytes are never dispatched at once. */
  lemma {:induction false} OneAtATime(n: nat, tr: seq<Ev>, x: Fingerprint)
    requires n >= 1
    ensures Running(n, tr, x) == if x in Run(n, tr).inflight then 1 else 0
    ensures Dispatches(Run(n, tr), Arrives(x)) ==> Running(n, tr, x) == 0
    decreases |tr|
  {
    hide Step;
    if tr != [] {
      var p, e := tr[..|tr| - 1], tr[|tr| - 1];
      OneAtATime(n, p, x);
      InflightUnseen(n, p);
      StepInflight(n, Run(n, p), e, x);
      hide Run;
    }
  }

  /** How one event changes whether `x` is in flight. */
  lemma StepInflight(n: nat, s: Window, e: Ev, x: Fingerprint)
    requires forall y | y in s.inflight :: y !in s.seen
    ensures x in Step(n, s, e).inflight <==>
      (Dispatches(s, e) && e.fp == x) || (x in s.inflight && !(e.fp == x && !e.Arrives?))
  {
    hide Without, Last;
  }

  /** A failed delivery does not cause its retry to be dropped: whatever other deliveries do
      meanwhile, the next arrival of the same bytes is dispatched. */
  lemma {:induction false} RetryIsDispatched(n: nat, tr: seq<Ev>, x: Fingerprint, more: seq<Ev>)
    requires n >= 1 && x in Run(n, tr).inflight && Arrives(x) !in more
    ensures Dispatches(Run(n, tr + [Fails(x)] + more), Arrives(x))
    decreases |more|
  {
    var t := tr + [Fails(x)];
    if more == [] {
      assert t + more == t && t[..|t| - 1] == tr;
      InflightUnseen(n, tr);
    } else {
      var less, e := more[..|more| - 1], more[|more| - 1];
      assert more == less + [e] && e in more;
      RetryIsDispatched(n, tr, x, less);
      assert (t + more)[..|t + more| - 1] == t + less;
      hide Without, Last;
      StepOthers(n, Run(n, t + less), e, x);
    }
  }

  lemma StepOthers(n: nat, s: Window, e: Ev, x: Fingerprint)
    requires Dispatches(s, Arrives(x)) && e != Arrives(x)
    ensures Dispatches(Step(n, s, e), Arrives(x))
  {
    WithoutMembers(s.seen, e.fp);
    LastMembers(s.seen + [e.fp], n);
  }
}

/** The chord barrier of `QueueStore`: `chord_report` and the sweep that drops stale barriers. */
module Chords {
  import opened JobTable
  import opened Options

  type ChordId = nat

  datatype Barrier = Barrier(size: nat, results: seq<Option<Bytes>>, reported: set<int>, createdAt: real)

  datatype Answer = Invalid | Waiting | Complete(results: seq<Option<Bytes>>)

  /** What happens to one chord. */
  datatype Ev = Report(index: int, size: int, result: Option<Bytes>, now: real) | SweepAt(now: real)

  predicate Fits(e: Ev) {
    e.Report? && 0 <= e.index < e.size
  }

  /** The barrier a report is counted against: the open one, or a new one. */
  function Current(b: Option<Barrier>, e: Ev): Barrier
    requires Fits(e)
  {
    if b.Some? then b.value else Barrier(e.size, seq(e.size, _ => None), {}, e.now)
  }

  predicate Stale(ttl: Option<real>, b: Barrier, now: real) {
    ttl.Some? && b.createdAt + ttl.value <= now
  }

  predicate BarrierOk(b: Option<Barrier>) {
    b.Some? ==>
      && |b.value.results| == b.value.size
      && (forall i | i in b.value.reported :: 0 <= i < b.value.size)
      && |b.value.reported| < b.value.size
  }

  function Step(ttl: Option<real>, b: Option<Barrier>, e: Ev): (r: (Option<Barrier>, Answer))
    requires BarrierOk(b)
  {
    if e.SweepAt? then (if b.Some? && Stale(ttl, b.value, e.now) then None else b, Waiting)
    else if !Fits(e) || e.index >= Current(b, e).size then (b, Invalid)
    else
      var c := Current(b, e);
      if e.index in c.reported then (b, Waiting)
      else
        var d := c.(reported := c.reported + {e.index}, results := c.results[e.index := e.result]);
        if |d.reported| >= d.size then (None, Complete(d.results)) else (Some(d), Waiting)
  }

  lemma StepOk(ttl: Option<real>, b: Option<Barrier>, e: Ev)
    requires BarrierOk(b)
    ensures BarrierOk(Step(ttl, b, e).0)
  {
  }

  lemma {:induction false} FullSet(s: set<int>, n: nat)
    requires forall i | i in s :: 0 <= i < n
    ensures |s| <= n
    ensures |s| == n <==> forall i | 0 <= i < n :: i in s
  {
    if n > 0 {
      var r := s - {n - 1};
      FullSet(r, n - 1);
      if n - 1 in s {
        assert s == r + {n - 1};
      } else {
        assert s == r;
      }
    } else if s != {} {
      assert forall i :: i !in s;
    }
  }

  // ---- One report and one sweep, field by field ----

  /** Every member but `index` is among those that have reported. */
  ghost predicate OthersIn(reported: set<int>, size: int, index: int) {
    forall j | 0 <= j < size && j != index :: j in reported
  }

  /** `results` are those of the barrier, none of a new one, with `result` for member `index`. */
  ghost predicate WithResult(b: Option<Barrier>, size: int, index: int, result: Option<Bytes>,
                             results: seq<Option<Bytes>>) {
    && |results| == size
    && forall j | 0 <= j < size ::
      if j == index then results[j] == result
      else if b.Some? && j < |b.value.results| then results[j] == b.value.results[j]
      else results[j] == None
  }

  /** A report outside the size is refused and one that was already counted is ignored. Of the others the
      one that completes the index set answers with all the results and closes the barrier; any other is
      counted, on a barrier opened now if none is open. */
  ghost predicate ReportEffect(b: Option<Barrier>, c: Option<Barrier>, now: real, index: int, size: int,
                               result: Option<Bytes>, answer: Answer) {
    var n := if b.Some? then b.value.size else size;
    var reported := if b.Some? then b.value.reported else {};
    if !(0 <= index < size && index < n) then answer == Invalid && c == b
    else if index in reported then answer == Waiting && c == b
    else if OthersIn(reported, n, index) then
      c == None && answer.Complete? && WithResult(b, n, index, result, answer.results)
    else
      && answer == Waiting && c.Some? && c.value.size == n
      && c.value.createdAt == (if b.Some? then b.value.createdAt else now)
      && WithResult(b, n, index, result, c.value.results)
      && (forall j :: j in c.value.reported <==> j == index || j in reported)
  }

  /** A report fills the index set exactly if every other member has reported. */
  lemma LastIn(reported: set<int>, size: nat, index: nat)
    requires index < size && forall i | i in reported :: 0 <= i < size
    ensures OthersIn(reported, size, index) <==> |reported + {index}| >= size
  {
    var d := reported + {index};
    FullSet(d, size);
    if OthersIn(reported, size, index) {
      assert forall i | 0 <= i < size :: i in d;
    }
    if |d| >= size {
      forall j | 0 <= j < size && j != index ensures j in reported {
        assert j in d;
      }
    }
  }

  lemma ReportStep(ttl: Option<real>, b: Option<Barrier>, index: int, size: int, result: Option<Bytes>, now: real)
    requires BarrierOk(b)
    ensures var (c, answer) := Step(ttl, b, Report(index, size, result, now));
      ReportEffect(b, c, now, index, size, result, answer)
  {
    var e := Report(index, size, result, now);
    if Fits(e) && index < Current(b, e).size && index !in Current(b, e).reported {
      LastIn(Current(b, e).reported, Current(b, e).size, index);
    }
  }

  class ChordTable {
    const ttl: Option<real>
    var chords: map<ChordId, Barrier>

    constructor (ttl: Option<real>)
      ensures Valid() && this.ttl == ttl && chords == map[]
    {
      this.ttl := ttl;
      chords := map[];
    }

    predicate Valid()
      reads this
    {
      forall c | c in chords :: BarrierOk(Some(chords[c]))
    }

    function Of(c: ChordId): Option<Barrier>
      reads this
    {
      if c in chords then Some(chords[c]) else None
    }

    /** `chord_report`; `Invalid` is its `ValueError`. */
    method ChordReport(now: real, c: ChordId, index: int, size: int, result: Option<Bytes>) returns (r: Answer)
      requires Valid()
      modifies this
      ensures Valid()
      ensures ReportEffect(old(Of(c)), Of(c), now, index, size, result, r)
      ensures r == Step(ttl, old(Of(c)), Report(index, size, result, now)).1
      ensures Of(c) == Step(ttl, old(Of(c)), Report(index, size, result, now)).0
      ensures forall d | d != c :: Of(d) == old(Of(d))
    {
      hide ReportEffect;
      ReportStep(ttl, Of(c), index, size, result, now);
      if size <= 0 || index < 0 || index >= size { return Invalid; }
      var chord;
      if c !in chords {
        chord := Barrier(size, seq(size, _ => None), {}, now);
      } else {
        chord := chords[c];
        if index >= chord.size { return Invalid; }
      }
      assert chord == Current(old(Of(c)), Report(index, size, result, now));
      if index in chord.reported { return Waiting; }
      chord := chord.(reported := chord.reported + {index}, results := chord.results[index := result]);
      if |chord.reported| >= chord.size {
        chords := chords - {c};
        r := Complete(chord.results);
      } else {
        chords := chords[c := chord];
        r := Waiting;
      }
    }

    /** The sweep's part: every barrier past its time to live is dropped. */
    method DropStale(now: real)
      requires Valid()
      modifies this
      ensures forall c | c in chords :: c in old(chords) && chords[c] == old(chords)[c]
      ensures forall c | c in old(chords) ::
        c !in chords <==> ttl.Some? && now >= old(chords)[c].createdAt + ttl.value
      ensures Valid() && forall c :: Of(c) == Step(ttl, old(Of(c)), SweepAt(now)).0
    {
      chords := map c | c in chords && !Stale(ttl, chords[c], now) :: chords[c];
    }
  }

  // ---- Every interleaving of reports, redeliveries and sweeps ----

  function Run(ttl: Option<real>, tr: seq<Ev>): (b: Option<Barrier>)
    ensures BarrierOk(b)
  {
    if tr == [] then None
    else
      var b := Run(ttl, tr[..|tr| - 1]);
      StepOk(ttl, b, tr[|tr| - 1]);
      Step(ttl, b, tr[|tr| - 1]).0
  }

  /** The answer to event `e` after the trace `tr`. */
  function AnswerTo(ttl: Option<real>, tr: seq<Ev>, e: Ev): Answer {
    Step(ttl, Run(ttl, tr), e).1
  }

  /** Where the open barrier was opened, or -1. */
  function OpenedAt(ttl: Option<real>, tr: seq<Ev>): (w: int)
    ensures -1 <= w < |tr|
  {
    if Run(ttl, tr).None? then -1
    else if Run(ttl, tr[..|tr| - 1]).None? then |tr| - 1
    else OpenedAt(ttl, tr[..|tr| - 1])
  }

  /** Event `e` is a report of member `i` of a chord of the given size. */
  predicate Reports(e: Ev, size: int, i: int) {
    Fits(e) && e.index == i < size
  }

  /** The first report of member `i` from `w` on. */
  ghost predicate FirstReport(tr: seq<Ev>, w: nat, size: int, i: int, j: int) {
    w <= j < |tr| && Reports(tr[j], size, i) && forall k | w <= k < j :: !Reports(tr[k], size, i)
  }

  /** `r` is the first result reported for member `i` from `w` on. */
  ghost predicate FirstResult(tr: seq<Ev>, w: nat, size: int, i: int, r: Option<Bytes>) {
    exists j :: FirstReport(tr, w, size, i, j) && r == tr[j].result
  }

  ghost predicate Reported(tr: seq<Ev>, w: nat, size: int, i: int) {
    exists j :: w <= j < |tr| && Reports(tr[j], size, i)
  }

  /** An open barrier is exactly what was reported since it opened, first reports first. */
  ghost predicate Shape(tr: seq<Ev>, b: Barrier, w: nat) {
    && w < |tr| && Fits(tr[w]) && b.size == tr[w].size && b.createdAt == tr[w].now && |b.results| == b.size
    && (forall i {:trigger i in b.reported} :: i in b.reported <==> Reported(tr, w, b.size, i))
    && (forall i | i in b.reported :: 0 <= i < b.size && FirstResult(tr, w, b.size, i, b.results[i]))
  }

  lemma ReportedMore(tr: seq<Ev>, e: Ev, w: nat, size: int, i: int)
    ensures w <= |tr| ==> (Reported(tr + [e], w, size, i) <==> Reported(tr, w, size, i) || Reports(e, size, i))
    ensures forall j | FirstReport(tr, w, size, i, j) :: FirstReport(tr + [e], w, size, i, j)
    ensures w <= |tr| && Reports(e, size, i) && !Reported(tr, w, size, i) ==> FirstReport(tr + [e], w, size, i, |tr|)
  {
    var u := tr + [e];
    assert forall j | 0 <= j < |tr| :: u[j] == tr[j];
    assert u[|tr|] == e;
    hide Reports;
    if w <= |tr| && Reported(tr, w, size, i) {
      var j :| w <= j < |tr| && Reports(tr[j], size, i);
      assert Reports(u[j], size, i);
    }
    if w <= |tr| && Reports(e, size, i) {
      assert Reports(u[|tr|], size, i);
    }
  }

  /** A report counted against a barrier. */
  lemma ShapeCount(tr: seq<Ev>, e: Ev, b: Barrier, c: Barrier, w: nat)
    requires Shape(tr, b, w) && Fits(e) && e.index < b.size && e.index !in b.reported
    requires c == b.(reported := b.reported + {e.index}, results := b.results[e.index := e.result])
    ensures Shape(tr + [e], c, w)
  {
    forall i ensures i in c.reported <==> Reported(tr + [e], w, c.size, i) {
      ReportedMore(tr, e, w, b.size, i);
    }
    forall i | i in c.reported
      ensures 0 <= i < c.size && FirstResult(tr + [e], w, c.size, i, c.results[i])
    {
      ReportedMore(tr, e, w, b.size, i);
      if i != e.index {
        var j :| FirstReport(tr, w, b.size, i, j) && b.results[i] == tr[j].result;
        assert FirstReport(tr + [e], w, c.size, i, j);
      } else {
        assert FirstReport(tr + [e], w, c.size, i, |tr|);
      }
    }
  }

  /** An event that leaves the barrier as it is. */
  lemma ShapeKeep(tr: seq<Ev>, e: Ev, b: Barrier, w: nat)
    requires Shape(tr, b, w)
    requires forall i | Reports(e, b.size, i) :: i in b.reported
    ensures Shape(tr + [e], b, w)
  {
    forall i ensures i in b.reported <==> Reported(tr + [e], w, b.size, i) {
      ReportedMore(tr, e, w, b.size, i);
    }
    forall i | i in b.reported
      ensures FirstResult(tr + [e], w, b.size, i, b.results[i])
    {
      ReportedMore(tr, e, w, b.size, i);
      var j :| FirstReport(tr, w, b.size, i, j) && b.results[i] == tr[j].result;
      assert FirstReport(tr + [e], w, b.size, i, j);
    }
  }

  /** A barrier just opened by `e`, with `e` counted. */
  lemma ShapeOpen(tr: seq<Ev>, e: Ev, c: Barrier)
    requires Fits(e)
    requires var b := Current(None, e); c == b.(reported := {e.index}, results := b.results[e.index := e.result])
    ensures Shape(tr + [e], c, |tr|)
  {
  }

  /** After any trace, the open barrier is what was reported since it opened. */
  lemma {:induction false} RunShape(ttl: Option<real>, tr: seq<Ev>)
    ensures var w := OpenedAt(ttl, tr);
      if w < 0 then Run(ttl, tr).None? else Run(ttl, tr).Some? && Shape(tr, Run(ttl, tr).value, w)
    decreases |tr|
  {
    if tr != [] {
      var p, e := tr[..|tr| - 1], tr[|tr| - 1];
      assert tr == p + [e];
      RunShape(ttl, p);
      StepShape(ttl, p, Run(ttl, p), e, OpenedAt(ttl, p));
      hide Step, Shape;
    }
  }

  lemma StepShape(ttl: Option<real>, p: seq<Ev>, b: Option<Barrier>, e: Ev, w: int)
    requires BarrierOk(b) && if w < 0 then b.None? else b.Some? && Shape(p, b.value, w)
    ensures var s := Step(ttl, b, e).0;
      s.Some? ==> Shape(p + [e], s.value, if b.None? then |p| else w)
  {
    hide Shape;
    var s := Step(ttl, b, e).0;
    if s.Some? {
      if b.None? {
        assert {} + {e.index} == {e.index};
        ShapeOpen(p, e, s.value);
      } else if s == b {
        ShapeKeep(p, e, b.value, w);
      } else {
        ShapeCount(p, e, b.value, s.value, w);
      }
    }
  }

  /** The window of event `e` after `tr`: from the opening of the barrier it meets, or from itself. */
  function Window(ttl: Option<real>, tr: seq<Ev>): (w: nat)
    ensures w <= |tr|
  {
    if OpenedAt(ttl, tr) >= 0 then OpenedAt(ttl, tr) else |tr|
  }

  /** Every member has reported in the window of event `e`, that event included. */
  ghost predicate AllReported(ttl: Option<real>, tr: seq<Ev>, e: Ev) {
    var w, u := Window(ttl, tr), tr + [e];
    && Fits(e) && Fits(u[w]) && e.index < u[w].size
    && forall i {:trigger Reported(u, w, u[w].size, i)} | 0 <= i < u[w].size :: Reported(u, w, u[w].size, i)
  }

  /** Member by member, the first result reported in the window. */
  ghost predicate FirstResults(ttl: Option<real>, tr: seq<Ev>, e: Ev, results: seq<Option<Bytes>>) {
    var w, u := Window(ttl, tr), tr + [e];
    && Fits(u[w]) && |results| == u[w].size
    && forall i | 0 <= i < |results| :: FirstResult(u, w, u[w].size, i, results[i])
  }

  /** A barrier fires exactly on the report that completes the index set since it opened, and it
      returns the first reported result of each index in order. */
  lemma FiresExactly(ttl: Option<real>, tr: seq<Ev>, e: Ev)
    ensures AnswerTo(ttl, tr, e).Complete? <==> AllReported(ttl, tr, e)
    ensures AnswerTo(ttl, tr, e).Complete? ==> FirstResults(ttl, tr, e, AnswerTo(ttl, tr, e).results)
  {
    var b := Run(ttl, tr);
    RunShape(ttl, tr);
    if Fits(e) {
      OpeningFits(ttl, tr, e);
      hide Shape;
      if e.index < Current(b, e).size {
        if e.index !in Current(b, e).reported {
          FiresCounted(ttl, tr, e);
        } else {
          FiresRepeated(ttl, tr, e);
        }
      }
    }
  }

  lemma OpeningFits(ttl: Option<real>, tr: seq<Ev>, e: Ev)
    requires Fits(e)
    ensures var w, u := Window(ttl, tr), tr + [e]; Fits(u[w]) && u[w].size == Current(Run(ttl, tr), e).size
  {
    RunShape(ttl, tr);
  }

  function Counted(c: Barrier, e: Ev): Barrier
    requires Fits(e) && e.index < |c.results|
  {
    c.(reported := c.reported + {e.index}, results := c.results[e.index := e.result])
  }

  lemma CountedShape(ttl: Option<real>, tr: seq<Ev>, e: Ev)
    requires Fits(e)
    requires var c := Current(Run(ttl, tr), e); e.index < c.size && e.index !in c.reported
    ensures Shape(tr + [e], Counted(Current(Run(ttl, tr), e), e), Window(ttl, tr))
  {
    var b := Run(ttl, tr);
    RunShape(ttl, tr);
    hide Shape;
    if b.None? {
      assert {} + {e.index} == {e.index};
      ShapeOpen(tr, e, Counted(Current(b, e), e));
    } else {
      ShapeCount(tr, e, b.value, Counted(b.value, e), Window(ttl, tr));
    }
  }

  lemma FiresCounted(ttl: Option<real>, tr: seq<Ev>, e: Ev)
    requires Fits(e)
    requires var c := Current(Run(ttl, tr), e); e.index < c.size && e.index !in c.reported
    ensures AnswerTo(ttl, tr, e).Complete? <==> AllReported(ttl, tr, e)
    ensures AnswerTo(ttl, tr, e).Complete? ==> FirstResults(ttl, tr, e, AnswerTo(ttl, tr, e).results)
  {
    hide Run, Window, FirstResult, Reported;
    var d := Counted(Current(Run(ttl, tr), e), e);
    CountedShape(ttl, tr, e);
    OpeningFits(ttl, tr, e);
    FullSet(d.reported, d.size);
    var w, u := Window(ttl, tr), tr + [e];
    assert AnswerTo(ttl, tr, e) == if |d.reported| >= d.size then Complete(d.results) else Waiting;
    assert forall i {:trigger Reported(u, w, d.size, i)} :: Reported(u, w, d.size, i) <==> i in d.reported;
    if |d.reported| >= d.size {
      forall i | 0 <= i < d.size
        ensures FirstResult(u, w, d.size, i, d.results[i])
      {
        assert i in d.reported;
      }
    }
  }

  lemma FiresRepeated(ttl: Option<real>, tr: seq<Ev>, e: Ev)
    requires Fits(e)
    requires var c := Current(Run(ttl, tr), e); e.index < c.size && e.index in c.reported
    ensures !AnswerTo(ttl, tr, e).Complete? && !AllReported(ttl, tr, e)
  {
    var b, w := Run(ttl, tr).value, Window(ttl, tr);
    RunShape(ttl, tr);
    OpeningFits(ttl, tr, e);
    hide Run, Window, FirstReport, Reported;
    FullSet(b.reported, b.size);
    var i :| 0 <= i < b.size && i !in b.reported;
    ReportedMore(tr, e, w, b.size, i);
    assert !Reported(tr + [e], w, b.size, i);
  }

  /** A barrier is opened exactly by a fitting report, unless that completes it at once, and stays open
      with the same window until it fires or a sweep finds it past its time to live. */
  lemma OpenExactly(ttl: Option<real>, tr: seq<Ev>, e: Ev)
    ensures var w, later := OpenedAt(ttl, tr), OpenedAt(ttl, tr + [e]);
      if w < 0 then
        later == if Fits(e) && e.size > 1 then |tr| else -1
      else
        var over := e.SweepAt? && ttl.Some? && e.now >= tr[w].now + ttl.value;
        later == if AllReported(ttl, tr, e) || over then -1 else w
  {
    FiresExactly(ttl, tr, e);
    hide AllReported, FirstResults;
    RunShape(ttl, tr);
    assert (tr + [e])[..|tr|] == tr;
    OneStep(ttl, Run(ttl, tr), e);
  }

  /** What becomes of one barrier in one step. */
  lemma OneStep(ttl: Option<real>, b: Option<Barrier>, e: Ev)
    requires BarrierOk(b)
    ensures var (c, answer) := Step(ttl, b, e);
      && (b.None? ==> (c.Some? <==> Fits(e) && e.size > 1))
      && (b.Some? ==> (c.None? <==>
            answer.Complete? || (e.SweepAt? && ttl.Some? && e.now >= b.value.createdAt + ttl.value)))
  {
    if b.None? && Fits(e) {
      assert {} + {e.index} == {e.index} && |{e.index}| == 1;
    }
  }

  lemma {:induction false} OpenedLater(ttl: Option<real>, tr: seq<Ev>, more: seq<Ev>)
    requires Run(ttl, tr).None?
    ensures OpenedAt(ttl, tr + more) >= |tr| || OpenedAt(ttl, tr + more) == -1
    decreases |more|
  {
    if more == [] {
      assert tr + more == tr;
    } else {
      OpenedLater(ttl, tr, more[..|more| - 1]);
      assert (tr + more)[..|tr + more| - 1] == tr + more[..|more| - 1];
    }
  }

  /** A barrier that fired on `e` fires a further time, on `f`, only if every member has reported
      again since. */
  lemma FiresAgain(ttl: Option<real>, tr: seq<Ev>, e: Ev, more: seq<Ev>, f: Ev)
    requires AnswerTo(ttl, tr, e).Complete? && AnswerTo(ttl, tr + [e] + more, f).Complete?
    ensures forall i {:trigger Reported(more + [f], 0, |AnswerTo(ttl, tr + [e] + more, f).results|, i)} |
      0 <= i < |AnswerTo(ttl, tr + [e] + more, f).results| ::
      Reported(more + [f], 0, |AnswerTo(ttl, tr + [e] + more, f).results|, i)
  {
    hide Run, Step, AnswerTo, OpenedAt, Window, Reported, FirstResult;
    var t := tr + [e];
    WindowLater(ttl, tr, e, more);
    FiresExactly(ttl, t + more, f);
    var w, u := Window(ttl, t + more), t + more + [f];
    var size := |AnswerTo(ttl, t + more, f).results|;
    assert u == t + (more + [f]) && size == u[w].size;
    forall i {:trigger Reported(more + [f], 0, size, i)} | 0 <= i < size ensures Reported(more + [f], 0, size, i) {
      assert Reported(u, w, u[w].size, i);
      ReportedSuffix(t, more + [f], w, size, i);
    }
  }

  /** Firing closes the barrier, so the next window starts later. */
  lemma WindowLater(ttl: Option<real>, tr: seq<Ev>, e: Ev, more: seq<Ev>)
    requires AnswerTo(ttl, tr, e).Complete?
    ensures |tr| < Window(ttl, tr + [e] + more)
  {
    hide Run, Step, AnswerTo, OpenedAt;
    FiredCloses(ttl, tr, e);
    OpenedLater(ttl, tr + [e], more);
  }

  lemma FiredCloses(ttl: Option<real>, tr: seq<Ev>, e: Ev)
    requires AnswerTo(ttl, tr, e).Complete?
    ensures Run(ttl, tr + [e]).None?
  {
  }

  lemma ReportedSuffix(t: seq<Ev>, v: seq<Ev>, w: nat, size: int, i: int)
    requires |t| <= w && Reported(t + v, w, size, i)
    ensures Reported(v, 0, size, i)
  {
  }
}

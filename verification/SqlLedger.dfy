/** The SQL ledger statement by statement: any number of handler calls on one key, interleaved. */
module SqlLedger {
  import opened Ledger
  import opened Options

  /** The key's row: pending with a lease, or done with a result. Every statement names the key, so
      rows of different keys do not interfere. */
  datatype Row = Pending(lease: real) | Finished(result: Payload)

  datatype Outcome = Returned(result: Payload) | Conflict | Raised

  /** Where a handler call stands. The claim makes at most two passes; `now` is the clock it read
      before its statement, `until` the lease recorded for it. */
  datatype Call =
    | Start(pass: nat)
    | Insert(pass: nat, now: real)
    | Select(pass: nat, now: real)
    | Update(now: real)
    | Body(until: real)
    | MarkUpdate(result: Payload, until: real)
    | MarkInsert(result: Payload, until: real)
    | Releasing(until: real)
    | Over(outcome: Outcome)
    | Crashed

  type Caller = nat

  datatype Sys = Sys(
    clock: real,
    row: Option<Row>,
    calls: map<Caller, Call>,
    first: Option<Payload>)     // what the first body to succeed returned

  datatype Action = Arrive | Statement | Succeed(result: Payload) | Fail | Crash | ReleaseLost

  // ---- The statements ----

  /** `INSERT` of a pending row: the primary key lets one caller land it. */
  function InsertPending(row: Option<Row>, lease: real): (Option<Row>, bool) {
    if row.None? then (Some(Pending(lease)), true) else (row, false)
  }

  /** `UPDATE … WHERE status pending AND lease_expires_at <= now`. */
  function TakeOver(row: Option<Row>, now: real, lease: real): (Option<Row>, bool) {
    if row.Some? && row.value.Pending? && row.value.lease <= now then (Some(Pending(lease)), true) else (row, false)
  }

  /** `UPDATE … SET done WHERE status pending`. */
  function CompletePending(row: Option<Row>, r: Payload): (Option<Row>, bool) {
    if row.Some? && row.value.Pending? then (Some(Finished(r)), true) else (row, false)
  }

  /** `INSERT` of a done row. */
  function InsertDone(row: Option<Row>, r: Payload): Option<Row> {
    if row.None? then Some(Finished(r)) else row
  }

  /** `DELETE … WHERE status pending`. */
  function DeletePending(row: Option<Row>): Option<Row> {
    if row.Some? && row.value.Pending? then None else row
  }

  /** The next statement of a call, or the clock reading before one. */
  function Proceed(lease: real, s: Sys, p: Call): (Option<Row>, Call) {
    match p
    case Start(n) => (s.row, Insert(n, s.clock))
    case Insert(n, now) =>
      var (row, ok) := InsertPending(s.row, now + lease);
      (row, if ok then Body(now + lease) else Select(n, now))
    case Select(n, now) =>
      (s.row,
       if s.row.None? then (if n < 2 then Start(n + 1) else Over(Conflict))
       else if s.row.value.Finished? then Over(Returned(s.row.value.result))
       else if s.row.value.lease > now then Over(Conflict)
       else Update(now))
    case Update(now) =>
      var (row, ok) := TakeOver(s.row, now, now + lease);
      (row, if ok then Body(now + lease) else Over(Conflict))
    case MarkUpdate(r, u) =>
      var (row, ok) := CompletePending(s.row, r);
      (row, if ok then Over(Returned(r)) else MarkInsert(r, u))
    case MarkInsert(r, _) => (InsertDone(s.row, r), Over(Returned(r)))
    case Releasing(_) => (DeletePending(s.row), Over(Raised))
    case _ => (s.row, p)
  }

  /** Caller `c` acts; an action that does not apply changes nothing. */
  function Act(lease: real, s: Sys, c: Caller, a: Action): Sys {
    if a.Arrive? then (if c in s.calls then s else s.(calls := s.calls[c := Start(1)]))
    else if c !in s.calls then s
    else
      var p := s.calls[c];
      match a
      case Statement =>
        var (row, q) := Proceed(lease, s, p);
        s.(row := row, calls := s.calls[c := q])
      case Succeed(r) =>
        if p.Body? then
          s.(calls := s.calls[c := MarkUpdate(r, p.until)], first := if s.first.None? then Some(r) else s.first)
        else s
      case Fail => if p.Body? then s.(calls := s.calls[c := Releasing(p.until)]) else s
      case Crash => if p.Body? then s.(calls := s.calls[c := Crashed]) else s
      case ReleaseLost => if p.Releasing? then s.(calls := s.calls[c := Over(Raised)]) else s
      case Arrive => s
  }

  ghost predicate Next(lease: real, s: Sys, t: Sys) {
    || (exists c, a :: t == Act(lease, s, c, a))
    || (exists later :: s.clock <= later && t == s.(clock := later))
  }

  /** A claimed execution that has not settled. */
  predicate Holds(p: Call) {
    p.Body? || p.MarkUpdate? || p.MarkInsert? || p.Releasing?
  }

  /** Every claimed execution settles before its recorded lease lapses. */
  ghost predicate Timely(s: Sys) {
    forall c {:trigger s.calls[c]} | c in s.calls && Holds(s.calls[c]) :: s.clock < s.calls[c].until
  }

  /** Any interleaving of calls, crashes and waits on a key that starts free. */
  ghost predicate Steps(lease: real, run: seq<Sys>) {
    && run != [] && run[0].row == None && run[0].calls == map[] && run[0].first == None
    && (forall i | 0 <= i < |run| - 1 :: Next(lease, run[i], run[i + 1]))
  }

  ghost predicate Run(lease: real, run: seq<Sys>) {
    Steps(lease, run) && forall i | 0 <= i < |run| :: Timely(run[i])
  }

  // ---- Refinement ----

  function EntryOf(row: Option<Row>): Entry {
    match row
    case None => Free
    case Some(Pending(l)) => Held(l)
    case Some(Finished(r)) => Done(r)
  }

  /** Each answer of a claim that lets the caller run the body or hands it a result is the answer
      of the abstract claim at the statement that decides it, with the clock the call had read;
      every other statement of a claim leaves the entry alone. An insert takes the key exactly if there is
      no row, a take-over exactly if its row is a lapsed claim. */
  lemma ClaimStatementsRefine(lease: real, s: Sys, p: Call)
    requires p.Insert? || p.Select? || p.Update?
    ensures var (row, q) := Proceed(lease, s, p);
      var (e, a) := Claim(EntryOf(s.row), p.now, lease);
      && (q.Body? ==> EntryOf(row) == e && a == Claimed && q.until == p.now + lease)
      && (q.Over? && q.outcome.Returned? ==> EntryOf(row) == e && a == DoneWith(q.outcome.result))
      && (!q.Body? ==> row == s.row)
      && (p.Select? && q == Over(Conflict) && s.row.Some? ==> a == InFlight)
      && (p.Insert? ==> (q.Body? <==> s.row == None))
      && (p.Update? ==> (q.Body? <==> s.row.Some? && s.row.value.Pending? && p.now >= s.row.value.lease))
      && (q.Body? ==> row == Some(Pending(p.now + lease)))
  {
  }

  /** A mark is the abstract mark at one of its two statements, unless a new claim lands between
      them: then, and only then, its result is dropped. */
  lemma MarkStatementsRefine(s: Sys, r: Payload)
    ensures var (row, ok) := CompletePending(s.row, r);
      if ok then EntryOf(row) == Mark(EntryOf(s.row), r) else row == s.row
    ensures EntryOf(InsertDone(s.row, r)) == Mark(EntryOf(s.row), r) <==> !(s.row.Some? && s.row.value.Pending?)
    ensures EntryOf(DeletePending(s.row)) == Release(EntryOf(s.row))
  {
  }

  // ---- The invariant ----

  ghost predicate CallOk(s: Sys, p: Call) {
    match p
    case Insert(_, now) => now <= s.clock
    case Select(_, now) => now <= s.clock
    case Update(now) => now <= s.clock
    case Body(u) => s.row == Some(Pending(u)) && s.first == None
    case MarkUpdate(r, u) => s.row == Some(Pending(u)) && s.first == Some(r)
    case MarkInsert(_, _) => false
    case Releasing(u) => s.row == Some(Pending(u)) && s.first == None
    case Over(Returned(r)) => s.first == Some(r)
    case _ => true
  }

  ghost predicate Inv(s: Sys) {
    && (forall c {:trigger s.calls[c]} | c in s.calls :: CallOk(s, s.calls[c]))
    && (forall c, d {:trigger s.calls[c], s.calls[d]} |
          c in s.calls && d in s.calls && Holds(s.calls[c]) && Holds(s.calls[d]) :: c == d)
    && (s.row.Some? && s.row.value.Finished? ==> s.first == Some(s.row.value.result))
    && (s.first.Some? && !(s.row.Some? && s.row.value.Finished?) ==> exists c :: c in s.calls && s.calls[c].MarkUpdate?)
  }

  /** A claim that takes the key finds no unsettled execution and no success before it. */
  lemma NobodyHolds(s: Sys)
    requires Inv(s) && Timely(s)
    requires s.row.None? || (s.row.value.Pending? && s.row.value.lease <= s.clock)
    ensures s.first == None && forall c | c in s.calls :: !Holds(s.calls[c])
  {
  }

  /** Caller `c` moves from `s` to `t`, where whoever else holds the key still does. */
  lemma MoveKeeps(s: Sys, t: Sys, c: Caller)
    requires Inv(s) && c in s.calls && c in t.calls && t.calls == s.calls[c := t.calls[c]] && s.clock <= t.clock
    requires CallOk(t, t.calls[c])
    requires t.row == s.row || forall d | d in s.calls && d != c :: !Holds(s.calls[d])
    requires t.first == s.first || s.first.None?
    requires t.first == s.first || forall d | d in s.calls && d != c :: !Holds(s.calls[d])
    requires Holds(t.calls[c]) ==> Holds(s.calls[c]) || forall d | d in s.calls && d != c :: !Holds(s.calls[d])
    requires t.row.Some? && t.row.value.Finished? ==> t.first == Some(t.row.value.result)
    requires t.first.Some? && !(t.row.Some? && t.row.value.Finished?) ==>
      t.calls[c].MarkUpdate? || (s.first == t.first && s.row == t.row && !s.calls[c].MarkUpdate?)
    ensures Inv(t)
  {
    forall d | d in t.calls ensures CallOk(t, t.calls[d]) {
      if d != c { assert CallOk(s, s.calls[d]); }
    }
    if t.first.Some? && !(t.row.Some? && t.row.value.Finished?) {
      if t.calls[c].MarkUpdate? {
        assert c in t.calls;
      } else {
        var d :| d in s.calls && s.calls[d].MarkUpdate?;
        assert d in t.calls && t.calls[d].MarkUpdate?;
      }
    }
  }

  lemma OnlyHolder(s: Sys, c: Caller)
    requires Inv(s) && c in s.calls && Holds(s.calls[c])
    ensures forall d | d in s.calls && d != c :: !Holds(s.calls[d])
  {
  }

  lemma StatementKeeps(lease: real, s: Sys, c: Caller)
    requires Inv(s) && Timely(s) && c in s.calls
    ensures Inv(Act(lease, s, c, Statement))
  {
    var p, t := s.calls[c], Act(lease, s, c, Statement);
    assert CallOk(s, p);
    if Holds(p) { OnlyHolder(s, c); }
    if p.Insert? && s.row.None? { NobodyHolds(s); }
    if p.Update? && TakeOver(s.row, p.now, 0.0).1 { NobodyHolds(s); }
    hide Inv;
    MoveKeeps(s, t, c);
  }

  lemma ActKeeps(lease: real, s: Sys, c: Caller, a: Action)
    requires Inv(s) && Timely(s)
    ensures Inv(Act(lease, s, c, a))
  {
    var t := Act(lease, s, c, a);
    if a.Statement? && c in s.calls {
      StatementKeeps(lease, s, c);
    } else if t != s {
      if c in s.calls {
        assert CallOk(s, s.calls[c]);
        OnlyHolder(s, c);
        hide Inv;
        MoveKeeps(s, t, c);
      } else {
        forall d | d in t.calls ensures CallOk(t, t.calls[d]) {
          if d != c { assert CallOk(s, s.calls[d]); }
        }
        if s.first.Some? && !(s.row.Some? && s.row.value.Finished?) {
          var d :| d in s.calls && s.calls[d].MarkUpdate?;
          assert d in t.calls && t.calls[d].MarkUpdate?;
        }
      }
    }
  }

  lemma {:induction false} RunInv(lease: real, run: seq<Sys>, n: nat)
    requires Run(lease, run) && n < |run|
    ensures Inv(run[n])
  {
    if n > 0 {
      RunInv(lease, run, n - 1);
      var s, t := run[n - 1], run[n - 1 + 1];
      assert Timely(s) && Next(lease, s, t);
      hide Run, Timely, Act;
      if c, a :| t == Act(lease, s, c, a) {
        ActKeeps(lease, s, c, a);
      } else {
        LaterKeeps(s, t);
      }
    }
  }

  lemma LaterKeeps(s: Sys, t: Sys)
    requires Inv(s) && s.clock <= t.clock && t == s.(clock := t.clock)
    ensures Inv(t)
  {
  }

  // ---- Exactly once ----

  /** No two bodies overlap, and none runs once one has succeeded, recorded or not. */
  lemma BodiesNeverOverlap(lease: real, run: seq<Sys>, n: nat, c: Caller, d: Caller)
    requires Run(lease, run) && n < |run| && c in run[n].calls && run[n].calls[c].Body?
    ensures run[n].first == None
    ensures d in run[n].calls && run[n].calls[d].Body? ==> c == d
  {
    RunInv(lease, run, n);
    hide Run;
    assert CallOk(run[n], run[n].calls[c]);
  }

  /** Every call that is handed a result gets what the first successful body returned. */
  lemma EveryoneGetsTheFirst(lease: real, run: seq<Sys>, n: nat, c: Caller, r: Payload)
    requires Run(lease, run) && n < |run| && c in run[n].calls && run[n].calls[c] == Over(Returned(r))
    ensures run[n].first == Some(r)
    ensures run[n].row.Some? && run[n].row.value.Finished? ==> run[n].row == Some(Finished(r))
  {
    RunInv(lease, run, n);
    hide Run;
    assert CallOk(run[n], run[n].calls[c]);
  }

  lemma StepOf(lease: real, run: seq<Sys>, i: nat)
    requires Run(lease, run) && i + 1 < |run|
    ensures Next(lease, run[i], run[i + 1])
  {
  }

  lemma FinishedStays(lease: real, s: Sys, t: Sys, r: Payload)
    requires s.row == Some(Finished(r)) && Next(lease, s, t)
    ensures t.row == Some(Finished(r))
  {
  }

  lemma FinishedIsFirst(s: Sys, r: Payload)
    requires Inv(s) && s.row == Some(Finished(r))
    ensures s.first == Some(r)
  {
  }

  /** The first success and the stored result never change. */
  lemma {:induction false} ResultStays(lease: real, run: seq<Sys>, i: nat, j: nat, r: Payload)
    requires Run(lease, run) && i <= j < |run| && run[i].row == Some(Finished(r))
    ensures run[j].row == Some(Finished(r)) && run[j].first == Some(r)
    decreases j
  {
    hide Run, Inv, Next;
    RunInv(lease, run, j);
    if i < j {
      ResultStays(lease, run, i, j - 1, r);
      StepOf(lease, run, j - 1);
      FinishedStays(lease, run[j - 1], run[j], r);
    }
    FinishedIsFirst(run[j], r);
  }

  /** On its way to the stored result `r`, or there. */
  predicate HeadedFor(p: Call, r: Payload) {
    p == Start(1) || (p.Insert? && p.pass == 1) || (p.Select? && p.pass == 1) || p == Over(Returned(r))
  }

  lemma HeadedStep(lease: real, s: Sys, t: Sys, c: Caller, r: Payload)
    requires s.row == Some(Finished(r)) && Next(lease, s, t)
    requires c in s.calls ==> HeadedFor(s.calls[c], r)
    ensures c in t.calls ==> HeadedFor(t.calls[c], r)
  {
  }

  /** A call that arrives once the result is stored never runs the body and is never refused: it
      is on its way to that result, or has it. */
  lemma {:induction false} LaterCallsGetTheResult(lease: real, run: seq<Sys>, i: nat, j: nat, c: Caller, r: Payload)
    requires Run(lease, run) && i <= j < |run| && run[i].row == Some(Finished(r)) && c !in run[i].calls
    ensures c in run[j].calls ==> HeadedFor(run[j].calls[c], r)
    decreases j
  {
    hide Run, Next, HeadedFor;
    if i < j {
      LaterCallsGetTheResult(lease, run, i, j - 1, c, r);
      ResultStays(lease, run, i, j - 1, r);
      StepOf(lease, run, j - 1);
      HeadedStep(lease, run[j - 1], run[j], c, r);
    }
  }

  // ---- Late settlements ----

  /** In a timely run every mark is taken by its first statement: none is ever dropped. */
  lemma TimelyMarksLand(lease: real, run: seq<Sys>, n: nat, c: Caller)
    requires Run(lease, run) && n < |run| && c in run[n].calls
    ensures !run[n].calls[c].MarkInsert?
    ensures run[n].calls[c].MarkUpdate? ==>
      Proceed(lease, run[n], run[n].calls[c]).0 == Some(Finished(run[n].calls[c].result))
  {
    RunInv(lease, run, n);
    hide Run;
    assert CallOk(run[n], run[n].calls[c]);
  }

  function Now(run: seq<Sys>): Sys
    requires run != []
  {
    run[|run| - 1]
  }

  lemma OneStep(lease: real, run: seq<Sys>, t: Sys) returns (more: seq<Sys>)
    requires Steps(lease, run) && Next(lease, Now(run), t)
    ensures Steps(lease, more) && Now(more) == t
  {
    hide Next;
    more := run + [t];
  }

  lemma Acts(lease: real, run: seq<Sys>, c: Caller, a: Action) returns (more: seq<Sys>)
    requires Steps(lease, run)
    ensures Steps(lease, more) && Now(more) == Act(lease, Now(run), c, a)
  {
    hide Act;
    assert Next(lease, Now(run), Act(lease, Now(run), c, a));
    more := OneStep(lease, run, Act(lease, Now(run), c, a));
  }

  lemma Waits(lease: real, run: seq<Sys>, later: real) returns (more: seq<Sys>)
    requires Steps(lease, run) && Now(run).clock <= later
    ensures Steps(lease, more) && Now(more) == Now(run).(clock := later)
  {
    hide Act;
    assert Next(lease, Now(run), Now(run).(clock := later));
    more := OneStep(lease, run, Now(run).(clock := later));
  }

  /** A new call claims a free key and starts its body. */
  lemma ClaimsFree(lease: real, run: seq<Sys>, c: Caller) returns (more: seq<Sys>)
    requires Steps(lease, run) && Now(run).row == None && c !in Now(run).calls
    ensures Steps(lease, more)
    ensures var s, until := Now(run), Now(run).clock + lease;
      Now(more) == s.(row := Some(Pending(until)), calls := s.calls[c := Body(until)])
  {
    var s, until := Now(run), Now(run).clock + lease;
    more := Acts(lease, run, c, Arrive);
    more := Acts(lease, more, c, Statement);
    assert s.calls[c := Start(1)][c := Insert(1, s.clock)] == s.calls[c := Insert(1, s.clock)];
    assert Now(more) == s.(calls := s.calls[c := Insert(1, s.clock)]);
    more := Acts(lease, more, c, Statement);
    assert s.calls[c := Insert(1, s.clock)][c := Body(until)] == s.calls[c := Body(until)];
  }

  /** A new call takes over a lapsed claim and starts its body. */
  lemma TakesOver(lease: real, run: seq<Sys>, c: Caller) returns (more: seq<Sys>)
    requires Steps(lease, run) && c !in Now(run).calls
    requires var s := Now(run); s.row.Some? && s.row.value.Pending? && s.row.value.lease <= s.clock
    ensures Steps(lease, more)
    ensures var s, until := Now(run), Now(run).clock + lease;
      Now(more) == s.(row := Some(Pending(until)), calls := s.calls[c := Body(until)])
  {
    var s, until := Now(run), Now(run).clock + lease;
    more := Acts(lease, run, c, Arrive);
    more := Acts(lease, more, c, Statement);
    assert Now(more) == s.(calls := s.calls[c := Start(1)][c := Insert(1, s.clock)]);
    more := Acts(lease, more, c, Statement);
    assert Now(more) == s.(calls := s.calls[c := Start(1)][c := Insert(1, s.clock)][c := Select(1, s.clock)]);
    assert s.calls[c := Start(1)][c := Insert(1, s.clock)][c := Select(1, s.clock)] == s.calls[c := Select(1, s.clock)];
    more := Acts(lease, more, c, Statement);
    assert Now(more) == s.(calls := s.calls[c := Select(1, s.clock)][c := Update(s.clock)]);
    more := Acts(lease, more, c, Statement);
    assert s.calls[c := Select(1, s.clock)][c := Update(s.clock)][c := Body(until)] == s.calls[c := Body(until)];
  }

  /** A body fails and its claim is released. */
  lemma FailsAndReleases(lease: real, run: seq<Sys>, c: Caller) returns (more: seq<Sys>)
    requires Steps(lease, run) && c in Now(run).calls && Now(run).calls[c].Body?
    requires Now(run).row.Some? && Now(run).row.value.Pending?
    ensures Steps(lease, more) && Now(more) == Now(run).(row := None, calls := Now(run).calls[c := Over(Raised)])
  {
    var s := Now(run);
    var u := s.calls[c].until;
    more := Acts(lease, run, c, Fail);
    assert Now(more) == s.(calls := s.calls[c := Releasing(u)]);
    more := Acts(lease, more, c, Statement);
    assert s.calls[c := Releasing(u)][c := Over(Raised)] == s.calls[c := Over(Raised)];
  }

  /** A body succeeds, and the mark's first statement finds no row. */
  lemma SucceedsUnclaimed(lease: real, run: seq<Sys>, c: Caller, r: Payload) returns (more: seq<Sys>)
    requires Steps(lease, run) && c in Now(run).calls && Now(run).calls[c].Body? && Now(run).row == None
      && Now(run).first == None
    ensures Steps(lease, more)
    ensures var s := Now(run); Now(more) == s.(first := Some(r), calls := s.calls[c := MarkInsert(r, s.calls[c].until)])
  {
    var s := Now(run);
    var u := s.calls[c].until;
    more := Acts(lease, run, c, Succeed(r));
    assert Now(more) == s.(first := Some(r), calls := s.calls[c := MarkUpdate(r, u)]);
    more := Acts(lease, more, c, Statement);
    assert s.calls[c := MarkUpdate(r, u)][c := MarkInsert(r, u)] == s.calls[c := MarkInsert(r, u)];
  }

  /** A late mark can be dropped. Call 0's lease lapses while its body runs; call 1 takes over, fails
      and releases; call 0 succeeds and finds no row to complete; call 2 claims the key; and the second
      statement of call 0's mark is refused. Call 0 has returned the first success, the key is only
      claimed, and call 2 runs the body again. */
  lemma LateMarkIsDropped(lease: real, s0: Sys, r: Payload) returns (run: seq<Sys>)
    requires lease > 0.0 && s0 == Sys(0.0, None, map[], None)
    ensures Steps(lease, run)
    ensures var s := Now(run);
      && s.first == Some(r) && 0 in s.calls && s.calls[0] == Over(Returned(r))
      && 2 in s.calls && s.calls[2].Body? && s.row == Some(Pending(s.calls[2].until))
  {
    hide Act, Next;
    run := [s0];
    assert Steps(lease, run) by { JustStarted(lease, s0); }
    run := ClaimsFree(lease, run, 0);
    run := Waits(lease, run, lease);
    run := TakesOver(lease, run, 1);
    run := FailsAndReleases(lease, run, 1);
    run := SucceedsUnclaimed(lease, run, 0, r);
    run := ClaimsFree(lease, run, 2);
    var s := Now(run);
    run := Acts(lease, run, 0, Statement);
    assert Now(run) == s.(calls := s.calls[0 := Over(Returned(r))]) by { SecondMark(lease, s, 0); }
  }

  lemma JustStarted(lease: real, s: Sys)
    requires s == Sys(0.0, None, map[], None)
    ensures Steps(lease, [s])
  {
  }

  lemma SecondMark(lease: real, s: Sys, c: Caller)
    requires c in s.calls && s.calls[c].MarkInsert? && s.row.Some?
    ensures Act(lease, s, c, Statement) == s.(calls := s.calls[c := Over(Returned(s.calls[c].result))])
  {
  }
}

/** What a crash of the owner can and cannot do to the jobs of a queue. */
module Recovery {
  import opened JobTable
  import opened JobHistory
  import opened Options
  import opened QueueDisk
  import opened Workflows

  /** Crash after any single storage write of an operation: every job whose enqueue was answered
      before the operation, or had become visible in it, is recovered exactly if no accepted ack and
      no expiry removed it. */
  lemma CrashLosesNothing(cfg: Config, before: seq<Crash>, after: seq<Crash>, c0: Crash, c1: Crash, k: nat, id: JobId)
    requires CrashSafe(cfg, before, after, c0, c1) && |before| <= k < |after|
    requires id in Issued(c0.history) || id in Issued(after[k].history)
    ensures id in Recover(after[k].disk) <==> !exists j: nat :: RemovedAt(cfg, after[k].history, j, id)
  {
    hide SingleWrite;
    var h := after[k].history;
    assert h[..|c0.history|] == c0.history;
    assert h[..|h|] == h;
    if id in Issued(c0.history) { IssuedPrefix(h, |c0.history|, |h|, id); }
    hide Issued;
    NothingLost(cfg, h, id);
  }

  /** An operation is answered after its last write, and a crash from then on shows all it did: the
      job it enqueued is recovered, and the token it handed out is in the history the next owner
      starts from. */
  lemma AnsweredIsShown(cfg: Config, before: seq<Crash>, after: seq<Crash>, c0: Crash, c1: Crash)
    requires CrashSafe(cfg, before, after, c0, c1) && OnDisk(cfg, c0.disk, c0.history)
    ensures OnDisk(cfg, c1.disk, c1.history) && c0.history <= c1.history
    ensures |after| > |before| ==> after[|after| - 1] == c1
    ensures |after| == |before| ==> c1 == c0
  {
    hide SingleWrite, OnDisk;
  }

  /** Whatever run `h` the recovered owner goes on with, it never hands out again a token that the
      storage showed as handed out when it crashed, the last one included. */
  lemma CrashReissuesNothing(cfg: Config, before: seq<Crash>, after: seq<Crash>, c0: Crash, c1: Crash, k: nat,
                             h: History, i: nat, j: nat, id: JobId)
    requires CrashSafe(cfg, before, after, c0, c1) && |before| <= k < |after|
    requires Legal(cfg, h) && after[k].history <= h && |after[k].history| <= j
    requires ClaimAt(after[k].history, i, id) && ClaimAt(h, j, id)
    ensures id in Replay(cfg, h[..i + 1]) && id in Replay(cfg, h[..j + 1])
    ensures Replay(cfg, h[..i + 1])[id].attempts < Replay(cfg, h[..j + 1])[id].attempts
  {
    hide SingleWrite, OnDisk;
    assert after[k].history[i] == h[i];
    TokensFresh(cfg, h, i, j, id);
  }

  // ---- A crash among workers, owners and the network ----

  /** The states show the table of queue `q` after each of the events of `h` from position `n` on. */
  ghost predicate ShowsEach(cfg: Config, q: Queue, h: History, n: nat, states: seq<System>) {
    && n <= |h| && |states| == |h| - n + 1
    && forall i | 0 <= i < |states| :: q in states[i].tables && states[i].tables[q] == Replay(cfg, h[..n + i])
  }

  /** A crash is the run without it, stopped early: if `states` are the states of the system in which
      queue `q` has the table of `c0`, of `c1`, and after each event between them, then a crash
      anywhere in the operation recovers the table of queue `q` in one of those states. */
  lemma CrashStopsEarly(cfgs: map<Queue, Config>, q: Queue, before: seq<Crash>, after: seq<Crash>, c0: Crash, c1: Crash,
                        k: nat, states: seq<System>) returns (i: nat)
    requires q in cfgs && CrashSafe(cfgs[q], before, after, c0, c1) && |before| <= k < |after|
    requires ShowsEach(cfgs[q], q, c1.history, |c0.history|, states)
    ensures i < |states| && Recover(after[k].disk) == states[i].tables[q]
    ensures |after[k].history| == |c0.history| + i
  {
    hide SingleWrite;
    var h := after[k].history;
    i := |h| - |c0.history|;
    assert c1.history[..|h|] == h;
    assert q in states[i].tables && states[i].tables[q] == Replay(cfgs[q], c1.history[..|c0.history| + i]);
  }

  /** An enqueue is one event, so a crash in it leaves the system before or after the step that makes
      it: the start of a chain, its next step, or any other job. */
  lemma EnqueueShows(cfgs: map<Queue, Config>, q: Queue, h: History, s: System, t: System, e: Stamped)
    requires Workflows.Event(cfgs, s, t, q, e) && s.tables[q] == Replay(cfgs[q], h)
    ensures ShowsEach(cfgs[q], q, h + [e], |h|, [s, t])
  {
    hide Enabled, Apply, Replay, ShowsEach;
    TwoTables(cfgs[q], q, h, e, s, t);
  }

  lemma TwoTables(cfg: Config, q: Queue, h: History, e: Stamped, s: System, t: System)
    requires q in s.tables && q in t.tables
    requires s.tables[q] == Replay(cfg, h) && t.tables[q] == Apply(cfg, Replay(cfg, h), e)
    ensures ShowsEach(cfg, q, h + [e], |h|, [s, t])
  {
    ReplayMore(cfg, h, e);
    hide Apply, Replay;
    assert (h + [e])[..|h|] == h && (h + [e])[..|h| + 1] == h + [e];
  }

  lemma ReplayMore(cfg: Config, h: History, e: Stamped)
    ensures Replay(cfg, h + [e]) == Apply(cfg, Replay(cfg, h), e)
  {
    assert (h + [e])[..|h|] == h;
    hide Apply;
  }

  /** What the system must have for the owner of `q` to make event `e` on behalf of worker `w`: a claim
      an idle worker, an accepted ack the message. Enqueues have their own steps. */
  ghost predicate Possible(s: System, q: Queue, e: Stamped, w: Worker) {
    match e.event
    case Enqueued(_, _) => false
    case Claimed(_, _) => w in s.workers && s.workers[w].Idle?
    case Finished(id, token, _) => token.Some? && AckJob(Ref(q, id), token.value) in s.net
    case _ => true
  }

  /** Such an event is a step of the system; of a claim the answer is lost, as the owner crashed. */
  lemma EventIsStep(cfgs: map<Queue, Config>, s: System, q: Queue, e: Stamped, w: Worker) returns (t: System)
    requires q in s.tables && q in cfgs && Enabled(cfgs[q], s.tables[q], e) && Possible(s, q, e, w)
    ensures Next(cfgs, s, t) && t.tables == s.tables[q := Apply(cfgs[q], s.tables[q], e)]
    ensures t.workers == s.workers && t.net == s.net && t.chains == s.chains && t.origins == s.origins
  {
    hide Enabled, Apply;
    t := s.(tables := s.tables[q := Apply(cfgs[q], s.tables[q], e)]);
    assert Workflows.Event(cfgs, s, t, q, e);
    hide Workflows.Event;
    if e.event.Claimed? {
      ClaimedShows(cfgs, s, q, e);
      hide LastStep;
      assert Claim(cfgs, s, t, q, e, w, true);
    } else if e.event.Finished? {
      var m := AckJob(Ref(q, e.event.id), e.event.token.value);
      if m.job in s.origins && LastStep(s, s.origins[m.job]) {
        t := t.(finished := s.finished + {s.origins[m.job].chain});
      }
      EventOf(cfgs, s, t, q, e);
      assert Accept(cfgs, s, t, m, e);
    } else {
      var r := Ref(q, e.event.id);
      EventKnown(cfgs, s, q, e);
      if e.event.Purged? && r in s.origins && s.tables[q][e.event.id].state == Dead {
        t := t.(expired := s.expired + {s.origins[r]});
      }
      EventOf(cfgs, s, t, q, e);
      assert OwnerEvent(cfgs, s, t, q, e);
    }
  }

  lemma EventOf(cfgs: map<Queue, Config>, s: System, t: System, q: Queue, e: Stamped)
    requires q in s.tables && q in cfgs && Enabled(cfgs[q], s.tables[q], e)
    requires t.tables == s.tables[q := Apply(cfgs[q], s.tables[q], e)]
    ensures Workflows.Event(cfgs, s, t, q, e)
  {
    hide Enabled, Apply;
  }

  lemma ClaimedShows(cfgs: map<Queue, Config>, s: System, q: Queue, e: Stamped)
    requires q in s.tables && q in cfgs && Enabled(cfgs[q], s.tables[q], e) && e.event.Claimed?
    ensures e.event.id in Apply(cfgs[q], s.tables[q], e)
  {
  }

  lemma EventKnown(cfgs: map<Queue, Config>, s: System, q: Queue, e: Stamped)
    requires q in s.tables && q in cfgs && Enabled(cfgs[q], s.tables[q], e) && !e.event.Enqueued?
    ensures e.event.id in s.tables[q]
  {
  }

  /** The last state of a run. */
  function Final(run: seq<System>): System
    requires run != []
  {
    run[|run| - 1]
  }

  /** Only the table of `q` has changed, to `u`, and what the queues make known of their chains. */
  ghost predicate OnlyTable(s: System, t: System, q: Queue, u: Table) {
    && t.tables == s.tables[q := u]
    && t.workers == s.workers && t.net == s.net && t.chains == s.chains && t.origins == s.origins
  }

  ghost predicate AllPossible(s: System, q: Queue, h: History, n: nat, w: Worker) {
    forall i | n <= i < |h| :: Possible(s, q, h[i], w)
  }

  /** The events of `h` from position `n` on, made one by one, continue the run. */
  lemma {:induction false} EventsAreSteps(cfgs: map<Queue, Config>, run: seq<System>, q: Queue, h: History, n: nat,
                                          w: Worker)
    returns (more: seq<System>)
    requires run != [] && Workflows.Run(cfgs, run) && q in cfgs && Legal(cfgs[q], h) && n <= |h|
    requires q in Final(run).tables && Final(run).tables[q] == Replay(cfgs[q], h[..n])
      && AllPossible(Final(run), q, h, n, w)
    ensures more != [] && Workflows.Run(cfgs, more) && OnlyTable(Final(run), Final(more), q, Replay(cfgs[q], h))
    decreases |h| - n
  {
    hide Next, Legal, Enabled, Apply, Replay, Possible, AllPossible, Workflows.Run;
    var s := Final(run);
    if n == |h| {
      more := run;
      assert h[..n] == h && s.tables[q := s.tables[q]] == s.tables;
    } else {
      StepAt(cfgs[q], h, n);
      FirstPossible(s, q, h, n, w);
      var t := EventIsStep(cfgs, s, q, h[n], w);
      RunMore(cfgs, run, t);
      StillPossible(s, t, q, h, n, w);
      more := EventsAreSteps(cfgs, run + [t], q, h, n + 1, w);
    }
  }

  lemma FirstPossible(s: System, q: Queue, h: History, n: nat, w: Worker)
    requires AllPossible(s, q, h, n, w) && n < |h|
    ensures Possible(s, q, h[n], w)
  {
  }

  lemma StillPossible(s: System, t: System, q: Queue, h: History, n: nat, w: Worker)
    requires AllPossible(s, q, h, n, w) && t.workers == s.workers && t.net == s.net
    ensures AllPossible(t, q, h, n + 1, w)
  {
  }

  lemma RunMore(cfgs: map<Queue, Config>, run: seq<System>, t: System)
    requires run != [] && Workflows.Run(cfgs, run) && Next(cfgs, Final(run), t)
    ensures Workflows.Run(cfgs, run + [t])
  {
    hide Next, Initial;
  }

  /** A crash after any single write of a claim, an ack, a nack or a sweep leaves the queue with the
      table it has at the end of some run without crashes, the rest of the system being as it was: so
      whatever holds in every reachable state holds after it. */
  lemma CrashIsARun(cfgs: map<Queue, Config>, q: Queue, before: seq<Crash>, after: seq<Crash>, c0: Crash, c1: Crash,
                    k: nat, run: seq<System>, w: Worker) returns (more: seq<System>)
    requires q in cfgs && CrashSafe(cfgs[q], before, after, c0, c1) && |before| <= k < |after|
    requires run != [] && Workflows.Run(cfgs, run)
    requires q in Final(run).tables && Final(run).tables[q] == Replay(cfgs[q], c0.history)
    requires AllPossible(Final(run), q, after[k].history, |c0.history|, w)
    ensures more != [] && Workflows.Run(cfgs, more) && OnlyTable(Final(run), Final(more), q, Recover(after[k].disk))
  {
    var h := after[k].history;
    assert OnDisk(cfgs[q], after[k].disk, h) && c0.history <= h by { hide SingleWrite; }
    assert h[..|c0.history|] == c0.history;
    hide CrashSafe, Workflows.Run, AllPossible, Replay, Legal;
    more := EventsAreSteps(cfgs, run, q, h, |c0.history|, w);
  }

  /** In particular a chain survives every such crash. */
  lemma CrashKeepsChains(cfgs: map<Queue, Config>, q: Queue, before: seq<Crash>, after: seq<Crash>, c0: Crash,
                         c1: Crash, k: nat, run: seq<System>, w: Worker, c: ChainId, p: nat) returns (t: System)
    requires q in cfgs && CrashSafe(cfgs[q], before, after, c0, c1) && |before| <= k < |after|
    requires run != [] && Workflows.Run(cfgs, run) && c in Final(run).chains && Reached(Final(run), c, p)
    requires q in Final(run).tables && Final(run).tables[q] == Replay(cfgs[q], c0.history)
    requires AllPossible(Final(run), q, after[k].history, |c0.history|, w)
    ensures OnlyTable(Final(run), t, q, Recover(after[k].disk))
    ensures c in t.finished || PurgedFrom(t, c, p) || CarriedFrom(t, c, p)
  {
    hide CrashSafe, PurgedFrom, CarriedFrom, Workflows.Run, Recover, AllPossible, Replay;
    var more := CrashIsARun(cfgs, q, before, after, c0, c1, k, run, w);
    t := Final(more);
    ChainNeverLost(cfgs, more, |more| - 1, c, p);
  }
}

/** Chains over several queues: workers, owners and a network that delays, repeats and loses. */
module Workflows {
  import opened JobTable
  import opened Options

  type Worker = nat
  type ChainId = nat

  datatype Ref = Ref(queue: Queue, id: JobId)

  /** Which step of which chain a job runs; kept for the statement only. */
  datatype Origin = Origin(chain: ChainId, step: nat)

  /** `_loop`: idle, running the body, waiting for the follow-on enqueue's answer, or free to ack. */
  datatype Phase =
    | Idle
    | Running(job: Ref, attempt: nat, wf: Workflow)
    | Advancing(job: Ref, attempt: nat, nonce: nat)
    | Advanced(job: Ref, attempt: nat)

  datatype Message =
    | EnqueueNext(nonce: nat, from: Ref, rest: seq<Queue>)   // put the rest of the chain on its first queue
    | AckJob(job: Ref, attempt: nat)

  datatype System = System(
    tables: map<Queue, Table>,
    workers: map<Worker, Phase>,
    net: set<Message>,            // every message ever sent: it may arrive late, twice or never
    answered: set<nat>,           // enqueues the owner has answered
    chains: map<ChainId, seq<Queue>>,
    issued: set<Ref>,             // every job ever enqueued
    origins: map<Ref, Origin>,
    finished: set<ChainId>,       // the last step's ack was accepted
    expired: set<Origin>)         // steps of which a dead letter outlived its time to live

  /** `_encode_wf`: the continuation for a chain whose queues still to run are `rest`. */
  function Rest(rest: seq<Queue>): Workflow {
    if rest == [] then NoWorkflow else Chain(rest)
  }

  // ---- Steps ----

  /** The owner of queue `q` makes one change of its table. */
  ghost predicate Event(cfgs: map<Queue, Config>, s: System, t: System, q: Queue, e: Stamped) {
    && q in s.tables && q in cfgs && Enabled(cfgs[q], s.tables[q], e)
    && t.tables == s.tables[q := Apply(cfgs[q], s.tables[q], e)]
  }

  /** `chain()`: the first step is enqueued with the rest as its continuation. */
  ghost predicate Start(cfgs: map<Queue, Config>, s: System, t: System, c: ChainId, queues: seq<Queue>, e: Stamped) {
    && queues != [] && c !in s.chains && e.event.Enqueued? && e.event.record.wf == Rest(queues[1..])
    && Ref(queues[0], e.event.id) !in s.issued
    && Event(cfgs, s, t, queues[0], e)
    && t == s.(tables := t.tables, chains := s.chains[c := queues], issued := s.issued + {Ref(queues[0], e.event.id)},
               origins := s.origins[Ref(queues[0], e.event.id) := Origin(c, 0)])
  }

  /** Any other job is enqueued. */
  ghost predicate Enqueue(cfgs: map<Queue, Config>, s: System, t: System, q: Queue, e: Stamped) {
    && e.event.Enqueued? && Ref(q, e.event.id) !in s.issued && Event(cfgs, s, t, q, e)
    && t == s.(tables := t.tables, issued := s.issued + {Ref(q, e.event.id)})
  }

  /** A claim; its answer may be lost. */
  ghost predicate Claim(cfgs: map<Queue, Config>, s: System, t: System, q: Queue, e: Stamped, w: Worker, lost: bool) {
    && e.event.Claimed? && Event(cfgs, s, t, q, e)
    && w in s.workers && s.workers[w].Idle?
    && (var r := t.tables[q][e.event.id];
        t == s.(tables := t.tables,
                workers := if lost then s.workers else s.workers[w := Running(Ref(q, e.event.id), r.attempts, r.wf)]))
  }

  /** A worker whose body returned sends the follow-on, or has none to send. */
  ghost predicate Advance(s: System, t: System, w: Worker, nonce: nat) {
    && w in s.workers && s.workers[w].Running?
    && (var p := s.workers[w];
        if p.wf.Chain? && p.wf.rest != [] then
          && (forall m | m in s.net && m.EnqueueNext? :: m.nonce != nonce) && nonce !in s.answered
          && t == s.(net := s.net + {EnqueueNext(nonce, p.job, p.wf.rest)},
                     workers := s.workers[w := Advancing(p.job, p.attempt, nonce)])
        else
          t == s.(workers := s.workers[w := Advanced(p.job, p.attempt)]))
  }

  /** The owner of the next queue receives a follow-on and answers it. */
  ghost predicate Deliver(cfgs: map<Queue, Config>, s: System, t: System, m: Message, e: Stamped) {
    && m in s.net && m.EnqueueNext? && m.rest != []
    && e.event.Enqueued? && e.event.record.wf == Rest(m.rest[1..])
    && Ref(m.rest[0], e.event.id) !in s.issued
    && Event(cfgs, s, t, m.rest[0], e)
    && t == s.(tables := t.tables, answered := s.answered + {m.nonce},
               issued := s.issued + {Ref(m.rest[0], e.event.id)},
               origins := if m.from in s.origins
                          then s.origins[Ref(m.rest[0], e.event.id) :=
                                 Origin(s.origins[m.from].chain, s.origins[m.from].step + 1)]
                          else s.origins)
  }

  /** The answer reaches the waiting worker. */
  ghost predicate Answer(s: System, t: System, w: Worker) {
    && w in s.workers && s.workers[w].Advancing? && s.workers[w].nonce in s.answered
    && t == s.(workers := s.workers[w := Advanced(s.workers[w].job, s.workers[w].attempt)])
  }

  ghost predicate SendAck(s: System, t: System, w: Worker) {
    && w in s.workers && s.workers[w].Advanced?
    && t == s.(net := s.net + {AckJob(s.workers[w].job, s.workers[w].attempt)}, workers := s.workers[w := Idle])
  }

  /** A worker crashes, times out, or fails in its body: it forgets the job. */
  ghost predicate GiveUp(s: System, t: System, w: Worker) {
    w in s.workers && t == s.(workers := s.workers[w := Idle])
  }

  predicate LastStep(s: System, o: Origin) {
    o.chain in s.chains && o.step + 1 == |s.chains[o.chain]|
  }

  /** The owner accepts an ack; a stale one changes nothing and is no step. */
  ghost predicate Accept(cfgs: map<Queue, Config>, s: System, t: System, m: Message, e: Stamped) {
    && m in s.net && m.AckJob? && e.event.Finished? && e.event.id == m.job.id && e.event.token == Some(m.attempt)
    && Event(cfgs, s, t, m.job.queue, e)
    && t == s.(tables := t.tables,
               finished := if m.job in s.origins && LastStep(s, s.origins[m.job])
                           then s.finished + {s.origins[m.job].chain} else s.finished)
  }

  /** A nack from anyone, a lapsed lease, or a purge. */
  ghost predicate OwnerEvent(cfgs: map<Queue, Config>, s: System, t: System, q: Queue, e: Stamped) {
    && (e.event.Failed? || e.event.Lapsed? || e.event.Purged?)
    && Event(cfgs, s, t, q, e)
    && (var r := Ref(q, e.event.id);
        t == s.(tables := t.tables,
                expired := if e.event.Purged? && r in s.origins && s.tables[q][e.event.id].state == Dead
                           then s.expired + {s.origins[r]} else s.expired))
  }

  ghost predicate Next(cfgs: map<Queue, Config>, s: System, t: System) {
    || t == s                                                      // an owner crash: `Recovery.CrashStopsEarly`
    || (exists c, queues, e :: Start(cfgs, s, t, c, queues, e))
    || (exists q, e :: Enqueue(cfgs, s, t, q, e))
    || (exists q, e, w, lost :: Claim(cfgs, s, t, q, e, w, lost))
    || (exists w, nonce :: Advance(s, t, w, nonce))
    || (exists m, e :: Deliver(cfgs, s, t, m, e))
    || (exists w :: Answer(s, t, w))
    || (exists w :: SendAck(s, t, w))
    || (exists w :: GiveUp(s, t, w))
    || (exists m, e :: Accept(cfgs, s, t, m, e))
    || (exists q, e :: OwnerEvent(cfgs, s, t, q, e))
  }

  ghost predicate Initial(s: System) {
    && (forall q | q in s.tables :: s.tables[q] == map[])
    && (forall w | w in s.workers :: s.workers[w] == Idle)
    && s.net == {} && s.answered == {} && s.chains == map[] && s.origins == map[] && s.finished == {} && s.expired == {}
  }

  ghost predicate Run(cfgs: map<Queue, Config>, run: seq<System>) {
    && run != [] && Initial(run[0])
    && forall i | 0 <= i < |run| - 1 :: Next(cfgs, run[i], run[i + 1])
  }

  // ---- The invariant ----

  /** Job `r` runs step `p` or a later one of chain `c` and is still in its queue or dead-lettered. */
  ghost predicate Carries(s: System, r: Ref, c: ChainId, p: nat) {
    && r in s.origins && s.origins[r].chain == c && s.origins[r].step >= p
    && r.queue in s.tables && r.id in s.tables[r.queue] && s.tables[r.queue][r.id].state != Done
  }

  /** A dead letter of step `p` or a later one of chain `c` has been purged. */
  ghost predicate PurgedFrom(s: System, c: ChainId, p: nat) {
    exists k: nat {:trigger Origin(c, k)} :: k >= p && Origin(c, k) in s.expired
  }

  ghost predicate Covered(s: System, c: ChainId, p: nat) {
    c in s.finished || PurgedFrom(s, c, p) || exists r :: Carries(s, r, c, p)
  }

  /** The step of chain `c` that job `r` runs has been passed on, unless it is the last. */
  ghost predicate PassedOn(s: System, r: Ref) {
    r in s.origins && !LastStep(s, s.origins[r]) ==> Covered(s, s.origins[r].chain, s.origins[r].step + 1)
  }

  /** A job of a chain sits on its step's queue and carries the remaining suffix. */
  ghost predicate OriginOk(s: System, r: Ref) {
    r in s.origins ==>
      var o := s.origins[r];
      && o.chain in s.chains && o.step < |s.chains[o.chain]| && r.queue == s.chains[o.chain][o.step]
      && (r.queue in s.tables && r.id in s.tables[r.queue] ==>
            s.tables[r.queue][r.id].wf == Rest(s.chains[o.chain][o.step + 1..]))
  }

  /** The continuation a worker or a message holds is the one of its job. */
  ghost predicate HoldsRest(s: System, r: Ref, wf: Workflow) {
    r in s.origins && s.origins[r].chain in s.chains && s.origins[r].step < |s.chains[s.origins[r].chain]| ==>
      wf == Rest(s.chains[s.origins[r].chain][s.origins[r].step + 1..])
  }

  ghost predicate PhaseOk(s: System, p: Phase) {
    match p
    case Idle => true
    case Running(r, _, wf) => r in s.issued && HoldsRest(s, r, wf)
    case Advancing(r, _, nonce) => r in s.issued && exists rest :: EnqueueNext(nonce, r, rest) in s.net
    case Advanced(r, _) => r in s.issued && PassedOn(s, r)
  }

  ghost predicate MessageOk(s: System, m: Message) {
    match m
    case EnqueueNext(nonce, r, rest) =>
      r in s.issued && rest != [] && HoldsRest(s, r, Chain(rest)) && (nonce in s.answered ==> PassedOn(s, r))
    case AckJob(r, _) => r in s.issued && PassedOn(s, r)
  }

  ghost predicate JobsOk(s: System) {
    && s.origins.Keys <= s.issued
    && (forall q, id {:trigger Ref(q, id)} | q in s.tables && id in s.tables[q] :: Ref(q, id) in s.issued)
    && (forall r {:trigger OriginOk(s, r)} | r in s.origins :: OriginOk(s, r))
  }

  /** Every chain is covered from each step on that a job of it was ever enqueued for. */
  ghost predicate ChainsOk(s: System) {
    && (forall c {:trigger s.chains[c]} | c in s.chains :: s.chains[c] != [] && Covered(s, c, 0))
    && (forall r {:trigger s.origins[r]} | r in s.origins :: Covered(s, s.origins[r].chain, s.origins[r].step))
  }

  ghost predicate WorkersOk(s: System) {
    forall w {:trigger s.workers[w]} | w in s.workers :: PhaseOk(s, s.workers[w])
  }

  ghost predicate NetOk(s: System) {
    && (forall m {:trigger MessageOk(s, m)} | m in s.net :: MessageOk(s, m))
    && (forall m, n | m in s.net && n in s.net && m.EnqueueNext? && n.EnqueueNext? && m.nonce == n.nonce :: m == n)
    && (forall n | n in s.answered :: exists m :: m in s.net && m.EnqueueNext? && m.nonce == n)
  }

  ghost predicate Inv(s: System) {
    JobsOk(s) && ChainsOk(s) && WorkersOk(s) && NetOk(s)
  }

  // ---- What every step keeps ----

  ghost predicate NamesKept(s: System, t: System) {
    && s.issued <= t.issued
    && (forall c {:trigger c in s.chains} | c in s.chains :: c in t.chains && t.chains[c] == s.chains[c])
    && (forall r {:trigger r in t.origins} | r in s.issued && r in t.origins ::
          r in s.origins && t.origins[r] == s.origins[r])
    && (forall r {:trigger r in s.origins} | r in s.origins :: r in t.origins)
  }

  /** From `s` to `t` nothing known changes its chain or continuation and no coverage is lost. */
  ghost predicate Extends(s: System, t: System) {
    && NamesKept(s, t)
    && (forall c, p {:trigger Covered(t, c, p)} | Covered(s, c, p) :: Covered(t, c, p))
  }

  lemma KeepsPassedOn(s: System, t: System, r: Ref)
    requires Extends(s, t) && r in s.issued && PassedOn(s, r) && JobsOk(s)
    ensures PassedOn(t, r)
  {
  }

  lemma KeepsRest(s: System, t: System, r: Ref, wf: Workflow)
    requires Extends(s, t) && r in s.issued && HoldsRest(s, r, wf) && JobsOk(s)
    ensures HoldsRest(t, r, wf)
  {
    hide Covered;
    if r in t.origins {
      var o := t.origins[r];
      assert OriginOk(s, r);
      assert t.chains[o.chain] == s.chains[o.chain];
    }
  }

  lemma KeepsPhase(s: System, t: System, p: Phase)
    requires Extends(s, t) && s.net <= t.net && PhaseOk(s, p) && JobsOk(s)
    ensures PhaseOk(t, p)
  {
    hide Extends, PassedOn, HoldsRest, JobsOk;
    assert s.issued <= t.issued by { ExtendsIssued(s, t); }
    match p {
      case Idle =>
      case Running(r, _, wf) => KeepsRest(s, t, r, wf);
      case Advancing(r, _, nonce) =>
        var rest :| EnqueueNext(nonce, r, rest) in s.net;
        assert EnqueueNext(nonce, r, rest) in t.net;
      case Advanced(r, _) => KeepsPassedOn(s, t, r);
    }
  }

  lemma ExtendsIssued(s: System, t: System)
    requires Extends(s, t)
    ensures s.issued <= t.issued
  {
  }

  lemma KeepsMessage(s: System, t: System, m: Message)
    requires Extends(s, t) && MessageOk(s, m) && JobsOk(s)
    requires m.EnqueueNext? && m.nonce in t.answered ==> m.nonce in s.answered
    ensures MessageOk(t, m)
  {
    hide Extends, PassedOn, HoldsRest, JobsOk;
    ExtendsIssued(s, t);
    match m {
      case EnqueueNext(nonce, r, rest) =>
        KeepsRest(s, t, r, Chain(rest));
        if nonce in t.answered { KeepsPassedOn(s, t, r); }
      case AckJob(r, _) => KeepsPassedOn(s, t, r);
    }
  }

  lemma KeepsWorkers(s: System, t: System)
    requires Extends(s, t) && s.net <= t.net && WorkersOk(s) && JobsOk(s) && t.workers == s.workers
    ensures WorkersOk(t)
  {
    hide Extends, PhaseOk, JobsOk;
    forall w | w in t.workers ensures PhaseOk(t, t.workers[w]) {
      KeepsPhase(s, t, s.workers[w]);
    }
  }

  lemma KeepsNet(s: System, t: System)
    requires Extends(s, t) && NetOk(s) && JobsOk(s) && t.net == s.net && t.answered == s.answered
    ensures NetOk(t)
  {
    hide Extends, MessageOk, JobsOk;
    forall m | m in t.net ensures MessageOk(t, m) {
      assert MessageOk(s, m);
      KeepsMessage(s, t, m);
    }
  }

  // ---- What an event does to coverage ----

  /** No job is taken out of its queue or finished. */
  ghost predicate JobsStay(s: System, t: System) {
    && s.origins.Keys <= t.origins.Keys && (forall r | r in s.origins :: t.origins[r] == s.origins[r])
    && s.finished <= t.finished && s.expired <= t.expired
    && forall r {:trigger r in s.origins} | r in s.origins && r.queue in s.tables && r.id in s.tables[r.queue]
         && s.tables[r.queue][r.id].state != Done ::
         r.queue in t.tables && r.id in t.tables[r.queue] && t.tables[r.queue][r.id].state != Done
  }

  lemma PurgedMore(s: System, t: System, c: ChainId, p: nat)
    requires PurgedFrom(s, c, p) && s.expired <= t.expired
    ensures PurgedFrom(t, c, p)
  {
    var k: nat :| k >= p && Origin(c, k) in s.expired;
    assert Origin(c, k) in t.expired;
  }

  lemma StayCovered(s: System, t: System, c: ChainId, p: nat)
    requires JobsStay(s, t) && Covered(s, c, p)
    ensures Covered(t, c, p)
  {
    if PurgedFrom(s, c, p) {
      PurgedMore(s, t, c, p);
    } else if c !in s.finished {
      var r :| Carries(s, r, c, p);
      assert Carries(t, r, c, p);
    }
  }

  /** Only an accepted ack or a purge ends a job's time in its queue. */
  lemma EventStays(cfg: Config, u: Table, e: Stamped, id: JobId)
    requires Enabled(cfg, u, e) && id in u && u[id].state != Done
    requires !((e.event.Finished? || e.event.Purged?) && e.event.id == id)
    ensures id in Apply(cfg, u, e) && Apply(cfg, u, e)[id].state != Done
    ensures Apply(cfg, u, e)[id].wf == u[id].wf
  {
  }

  /** A job in the table after an event was there before with the same continuation, or is new. */
  lemma EventJobs(cfg: Config, u: Table, e: Stamped, id: JobId)
    requires Enabled(cfg, u, e) && id in Apply(cfg, u, e)
    ensures if e.event.Enqueued? && e.event.id == id then Apply(cfg, u, e)[id] == e.event.record
            else id in u && Apply(cfg, u, e)[id].wf == u[id].wf
  {
  }

  lemma EventShows(cfg: Config, u: Table, e: Stamped)
    requires Enabled(cfg, u, e) && (e.event.Enqueued? || e.event.Claimed?)
    ensures var id := e.event.id;
      && id in Apply(cfg, u, e) && Apply(cfg, u, e)[id].state != Done
      && if e.event.Enqueued? then Apply(cfg, u, e)[id] == e.event.record else id in u
  {
  }

  lemma EventStay(cfgs: map<Queue, Config>, s: System, t: System, q: Queue, e: Stamped)
    requires Event(cfgs, s, t, q, e) && NamesKept(s, t) && JobsOk(s) && !e.event.Finished? && !e.event.Purged?
    requires s.finished <= t.finished && s.expired <= t.expired
    ensures JobsStay(s, t)
  {
    forall r | r in s.origins && r.queue in s.tables && r.id in s.tables[r.queue]
      && s.tables[r.queue][r.id].state != Done
      ensures r.id in t.tables[r.queue] && t.tables[r.queue][r.id].state != Done
    {
      if r.queue == q { EventStays(cfgs[q], s.tables[q], e, r.id); }
    }
    hide Enabled, Apply;
  }

  lemma StayExtends(s: System, t: System)
    requires JobsStay(s, t) && NamesKept(s, t)
    ensures Extends(s, t)
  {
    hide Covered, JobsStay;
    forall c, p: nat | Covered(s, c, p) ensures Covered(t, c, p) {
      StayCovered(s, t, c, p);
    }
  }

  lemma EventJobsOk(cfgs: map<Queue, Config>, s: System, t: System, q: Queue, e: Stamped)
    requires JobsOk(s) && Event(cfgs, s, t, q, e) && NamesKept(s, t) && t.origins.Keys <= t.issued
    requires t.issued == s.issued + if e.event.Enqueued? then {Ref(q, e.event.id)} else {}
    requires e.event.Enqueued? ==> Ref(q, e.event.id) !in s.issued && OriginOk(t, Ref(q, e.event.id))
    ensures JobsOk(t)
  {
    hide Enabled, Apply;
    forall p, id | p in t.tables && id in t.tables[p] ensures Ref(p, id) in t.issued {
      if p == q { EventJobs(cfgs[q], s.tables[q], e, id); }
      if p in s.tables && id in s.tables[p] { assert Ref(p, id) in s.issued; }
    }
    forall r | r in t.origins ensures OriginOk(t, r) {
      if r in s.issued {
        assert OriginOk(s, r);
        var o := t.origins[r];
        assert o.chain in s.chains;
        if r.queue == q && r.id in t.tables[q] { EventJobs(cfgs[q], s.tables[q], e, r.id); }
      }
    }
  }

  // ---- The steps keep the invariant ----

  lemma ChainsKept(s: System, t: System)
    requires Extends(s, t) && ChainsOk(s) && t.chains == s.chains
    requires forall r {:trigger t.origins[r]} | r in t.origins ::
      (r in s.origins && t.origins[r] == s.origins[r]) || Covered(t, t.origins[r].chain, t.origins[r].step)
    ensures ChainsOk(t)
  {
    hide Covered;
    forall r | r in t.origins ensures Covered(t, t.origins[r].chain, t.origins[r].step) {
      if r in s.origins { assert Covered(s, s.origins[r].chain, s.origins[r].step); }
    }
  }

  lemma EnqueueKeeps(cfgs: map<Queue, Config>, s: System, t: System, q: Queue, e: Stamped)
    requires Inv(s) && Enqueue(cfgs, s, t, q, e)
    ensures Inv(t)
  {
    hide ChainsOk, WorkersOk, NetOk, Enabled, Apply;
    assert Ref(q, e.event.id) !in t.origins;
    EventJobsOk(cfgs, s, t, q, e);
    EventStay(cfgs, s, t, q, e);
    StayExtends(s, t);
    hide JobsOk, Extends;
    ChainsKept(s, t);
    KeepsWorkers(s, t);
    KeepsNet(s, t);
  }

  lemma StartKeeps(cfgs: map<Queue, Config>, s: System, t: System, c: ChainId, queues: seq<Queue>, e: Stamped)
    requires Inv(s) && Start(cfgs, s, t, c, queues, e)
    ensures Inv(t)
  {
    hide WorkersOk, NetOk, Enabled;
    var r := Ref(queues[0], e.event.id);
    EventShows(cfgs[queues[0]], s.tables[queues[0]], e);
    assert OriginOk(t, r) && Carries(t, r, c, 0);
    assert Covered(t, c, 0);
    hide Apply;
    EventJobsOk(cfgs, s, t, queues[0], e);
    EventStay(cfgs, s, t, queues[0], e);
    StayExtends(s, t);
    hide JobsOk;
    forall d | d in s.chains ensures Covered(t, d, 0) {
      assert s.chains[d] != [] && Covered(s, d, 0);
    }
    forall u | u in s.origins ensures Covered(t, s.origins[u].chain, s.origins[u].step) {
      assert Covered(s, s.origins[u].chain, s.origins[u].step);
    }
    KeepsWorkers(s, t);
    KeepsNet(s, t);
    hide Covered, Extends;
  }

  lemma ClaimKeeps(cfgs: map<Queue, Config>, s: System, t: System, q: Queue, e: Stamped, w: Worker, lost: bool)
    requires Inv(s) && Claim(cfgs, s, t, q, e, w, lost)
    ensures Inv(t)
  {
    hide ChainsOk, WorkersOk, NetOk, Enabled;
    var r := Ref(q, e.event.id);
    EventShows(cfgs[q], s.tables[q], e);
    assert r in s.issued;
    hide Apply;
    EventJobsOk(cfgs, s, t, q, e);
    EventStay(cfgs, s, t, q, e);
    StayExtends(s, t);
    assert r in t.origins ==> OriginOk(t, r);
    assert HoldsRest(t, r, t.tables[q][r.id].wf);
    ChainsKept(s, t);
    KeepsNet(s, t);
    ChangedWorker(s, t, w);
  }

  /** One worker moves to a phase that is in order. */
  lemma ChangedWorker(s: System, t: System, w: Worker)
    requires Extends(s, t) && s.net <= t.net && WorkersOk(s) && JobsOk(s)
    requires w in s.workers && t.workers.Keys == s.workers.Keys && forall v | v in s.workers && v != w ::
      t.workers[v] == s.workers[v]
    requires t.workers[w] == s.workers[w] || PhaseOk(t, t.workers[w])
    ensures WorkersOk(t)
  {
    hide Extends, PhaseOk, JobsOk;
    forall v | v in t.workers ensures PhaseOk(t, t.workers[v]) {
      assert PhaseOk(s, s.workers[v]);
      KeepsPhase(s, t, s.workers[v]);
    }
  }

  /** A step that leaves tables, chains and answers alone. */
  lemma QuietExtends(s: System, t: System)
    requires t.tables == s.tables && t.chains == s.chains && t.origins == s.origins && t.issued == s.issued
    requires t.finished == s.finished && t.expired == s.expired && Inv(s)
    ensures Extends(s, t) && JobsOk(t) && ChainsOk(t)
  {
    hide WorkersOk, NetOk;
    assert JobsStay(s, t);
    StayExtends(s, t);
    assert JobsOk(t) by {
      forall r | r in t.origins ensures OriginOk(t, r) { assert OriginOk(s, r); }
    }
    ChainsKept(s, t);
  }

  lemma WorkerKeeps(s: System, t: System, w: Worker)
    requires Inv(s) && (Answer(s, t, w) || GiveUp(s, t, w))
    ensures Inv(t)
  {
    QuietExtends(s, t);
    hide JobsOk, ChainsOk, Extends, PassedOn;
    if Answer(s, t, w) {
      var p := s.workers[w];
      assert PhaseOk(s, p);
      var rest :| EnqueueNext(p.nonce, p.job, rest) in s.net;
      assert MessageOk(s, EnqueueNext(p.nonce, p.job, rest));
      KeepsPassedOn(s, t, p.job);
    }
    KeepsNet(s, t);
    hide NetOk;
    ChangedWorker(s, t, w);
  }

  /** One more message, in order. */
  lemma SentMessage(s: System, t: System, m: Message)
    requires Extends(s, t) && NetOk(s) && JobsOk(s) && t.net == s.net + {m} && t.answered == s.answered
      && MessageOk(t, m)
    requires m.EnqueueNext? ==> m.nonce !in s.answered && forall n | n in s.net && n.EnqueueNext? :: n.nonce != m.nonce
    ensures NetOk(t)
  {
    hide Extends, MessageOk, JobsOk;
    forall n | n in t.net ensures MessageOk(t, n) {
      if n in s.net {
        assert MessageOk(s, n);
        KeepsMessage(s, t, n);
      }
    }
    forall n | n in t.answered ensures exists k :: k in t.net && k.EnqueueNext? && k.nonce == n {
      var k :| k in s.net && k.EnqueueNext? && k.nonce == n;
      assert k in t.net;
    }
  }

  lemma SendAckKeeps(s: System, t: System, w: Worker)
    requires Inv(s) && SendAck(s, t, w)
    ensures Inv(t)
  {
    QuietExtends(s, t);
    hide JobsOk, ChainsOk, NetOk, Extends, PassedOn;
    var p := s.workers[w];
    assert PhaseOk(s, p);
    KeepsPassedOn(s, t, p.job);
    SentMessage(s, t, AckJob(p.job, p.attempt));
    ChangedWorker(s, t, w);
  }

  lemma AdvanceKeeps(s: System, t: System, w: Worker, nonce: nat)
    requires Inv(s) && Advance(s, t, w, nonce)
    ensures Inv(t)
  {
    QuietExtends(s, t);
    var p := s.workers[w];
    assert PhaseOk(s, p);
    KeepsRest(s, t, p.job, p.wf);
    if p.wf.Chain? && p.wf.rest != [] {
      var m := EnqueueNext(nonce, p.job, p.wf.rest);
      hide JobsOk, ChainsOk, NetOk, Extends, PassedOn;
      SentMessage(s, t, m);
      assert m in t.net;
      ChangedWorker(s, t, w);
    } else {
      NoneLeft(t, p.job, p.wf);
      hide JobsOk, ChainsOk, Extends, PassedOn;
      KeepsNet(s, t);
      ChangedWorker(s, t, w);
    }
  }

  /** A job of a chain without a continuation runs its last step. */
  lemma NoneLeft(s: System, r: Ref, wf: Workflow)
    requires JobsOk(s) && HoldsRest(s, r, wf) && (wf.Chain? ==> wf.rest == [])
    ensures PassedOn(s, r)
  {
    if r in s.origins {
      assert OriginOk(s, r);
    }
  }

  lemma DeliverKeeps(cfgs: map<Queue, Config>, s: System, t: System, m: Message, e: Stamped)
    requires Inv(s) && Deliver(cfgs, s, t, m, e)
    ensures Inv(t)
  {
    hide ChainsOk, WorkersOk, Enabled, Apply;
    var q, r := m.rest[0], Ref(m.rest[0], e.event.id);
    EventShows(cfgs[q], s.tables[q], e);
    assert MessageOk(s, m);
    NextOrigin(s, t, m, r);
    EventJobsOk(cfgs, s, t, q, e);
    EventStay(cfgs, s, t, q, e);
    StayExtends(s, t);
    DeliverPasses(s, t, m, r);
    hide JobsOk, Extends, PassedOn, Event, OriginOk;
    ChainsKept(s, t);
    KeepsWorkers(s, t);
    forall n | n in t.net ensures MessageOk(t, n) {
      DeliverMessage(s, t, m, n);
    }
    assert forall n | n in s.answered :: n in t.answered;
    hide MessageOk;
  }

  /** The follow-on is the next step of the same chain, with one queue less to run. */
  lemma NextOrigin(s: System, t: System, m: Message, r: Ref)
    requires JobsOk(s) && m.EnqueueNext? && MessageOk(s, m) && r !in s.issued && r.queue == m.rest[0]
    requires t.chains == s.chains
    requires t.origins == if m.from in s.origins
                          then s.origins[r := Origin(s.origins[m.from].chain, s.origins[m.from].step + 1)]
                          else s.origins
    requires r.queue in t.tables && r.id in t.tables[r.queue] && t.tables[r.queue][r.id].wf == Rest(m.rest[1..])
    ensures OriginOk(t, r)
  {
    if m.from in s.origins {
      assert OriginOk(s, m.from);
      var o := s.origins[m.from];
      var queues := s.chains[o.chain];
      assert m.rest == queues[o.step + 1..];
      assert m.rest[1..] == queues[o.step + 2..];
    }
  }

  lemma DeliverPasses(s: System, t: System, m: Message, r: Ref)
    requires JobsOk(s) && m.EnqueueNext? && MessageOk(s, m) && r !in s.issued
    requires t.origins == if m.from in s.origins
                          then s.origins[r := Origin(s.origins[m.from].chain, s.origins[m.from].step + 1)]
                          else s.origins
    requires r.queue in t.tables && r.id in t.tables[r.queue] && t.tables[r.queue][r.id].state != Done
    ensures PassedOn(t, m.from)
    ensures forall u | u in t.origins ::
      (u in s.origins && t.origins[u] == s.origins[u]) || Covered(t, t.origins[u].chain, t.origins[u].step)
  {
    if m.from in s.origins {
      var o := s.origins[m.from];
      assert Carries(t, r, o.chain, o.step + 1);
    }
  }

  lemma DeliverMessage(s: System, t: System, m: Message, n: Message)
    requires Extends(s, t) && JobsOk(s) && NetOk(s) && m in s.net && n in s.net && m.EnqueueNext?
    requires t.answered == s.answered + {m.nonce} && PassedOn(t, m.from)
    ensures MessageOk(t, n)
  {
    hide Extends, JobsOk, PassedOn, HoldsRest;
    assert MessageOk(s, n);
    if n.EnqueueNext? && n.nonce == m.nonce {
      assert n == m;
      KeepsRest(s, t, n.from, Chain(n.rest));
      ExtendsIssued(s, t);
    } else {
      KeepsMessage(s, t, n);
    }
  }

  /** An accepted ack takes a job away only after its step was passed on. */
  lemma AcceptExtends(cfgs: map<Queue, Config>, s: System, t: System, m: Message, e: Stamped)
    requires JobsOk(s) && MessageOk(s, m) && Accept(cfgs, s, t, m, e)
    ensures Extends(s, t)
  {
    hide JobsOk, Enabled, Apply;
    forall c, p: nat | Covered(s, c, p) ensures Covered(t, c, p) {
      AcceptCovered(cfgs, s, t, m, e, c, p);
    }
    hide Covered;
  }

  lemma AcceptCarries(cfgs: map<Queue, Config>, s: System, t: System, m: Message, e: Stamped, r: Ref, c: ChainId,
                      p: nat)
    requires Accept(cfgs, s, t, m, e) && Carries(s, r, c, p) && r != m.job
    ensures Carries(t, r, c, p)
  {
    if r.queue == m.job.queue {
      EventStays(cfgs[r.queue], s.tables[r.queue], e, r.id);
    }
    hide Enabled, Apply;
  }

  lemma AcceptCovered(cfgs: map<Queue, Config>, s: System, t: System, m: Message, e: Stamped, c: ChainId, p: nat)
    requires MessageOk(s, m) && Accept(cfgs, s, t, m, e) && Covered(s, c, p)
    ensures Covered(t, c, p)
  {
    hide Event;
    if c !in t.finished && !PurgedFrom(t, c, p) {
      var r :| Carries(s, r, c, p);
      if r != m.job {
        AcceptCarries(cfgs, s, t, m, e, r, c, p);
      } else {
        assert !LastStep(s, s.origins[r]) && Covered(s, c, s.origins[r].step + 1);
        assert PurgedFrom(s, c, s.origins[r].step + 1) ==> PurgedFrom(t, c, p);
        var u :| Carries(s, u, c, s.origins[r].step + 1);
        AcceptCarries(cfgs, s, t, m, e, u, c, s.origins[r].step + 1);
        assert Carries(t, u, c, p);
      }
    }
  }

  lemma AcceptKeeps(cfgs: map<Queue, Config>, s: System, t: System, m: Message, e: Stamped)
    requires Inv(s) && Accept(cfgs, s, t, m, e)
    ensures Inv(t)
  {
    hide ChainsOk, WorkersOk, Enabled, Apply;
    assert MessageOk(s, m);
    AcceptExtends(cfgs, s, t, m, e);
    EventJobsOk(cfgs, s, t, m.job.queue, e);
    hide JobsOk, Extends, Event;
    ChainsKept(s, t);
    KeepsWorkers(s, t);
    KeepsNet(s, t);
  }

  lemma OwnerCovered(cfgs: map<Queue, Config>, s: System, t: System, q: Queue, e: Stamped, c: ChainId, p: nat)
    requires OwnerEvent(cfgs, s, t, q, e) && Covered(s, c, p)
    ensures Covered(t, c, p)
  {
    if PurgedFrom(s, c, p) {
      PurgedMore(s, t, c, p);
    } else if c !in t.finished && !PurgedFrom(t, c, p) {
      var r :| Carries(s, r, c, p);
      assert Origin(c, s.origins[r].step) !in t.expired;
      if r.queue == q && !(e.event.Purged? && e.event.id == r.id) {
        EventStays(cfgs[q], s.tables[q], e, r.id);
      }
      hide Apply;
      assert Carries(t, r, c, p);
    }
  }

  lemma OwnerKeeps(cfgs: map<Queue, Config>, s: System, t: System, q: Queue, e: Stamped)
    requires Inv(s) && OwnerEvent(cfgs, s, t, q, e)
    ensures Inv(t)
  {
    hide ChainsOk, WorkersOk, NetOk, Enabled, Apply;
    EventJobsOk(cfgs, s, t, q, e);
    hide JobsOk, Event;
    forall c, p: nat | Covered(s, c, p) ensures Covered(t, c, p) {
      OwnerCovered(cfgs, s, t, q, e, c, p);
    }
    assert Extends(s, t);
    hide Covered, Extends;
    ChainsKept(s, t);
    KeepsWorkers(s, t);
    KeepsNet(s, t);
  }

  // ---- Every run ----

  lemma InitialInv(s: System)
    requires Initial(s)
    ensures Inv(s)
  {
  }

  lemma NextKeeps(cfgs: map<Queue, Config>, s: System, t: System)
    requires Inv(s) && Next(cfgs, s, t)
    ensures Inv(t)
  {
    hide Inv, Start, Enqueue, Claim, Advance, Deliver, Answer, SendAck, GiveUp, Accept, OwnerEvent;
    if c, queues, e :| Start(cfgs, s, t, c, queues, e) { StartKeeps(cfgs, s, t, c, queues, e); }
    else if q, e :| Enqueue(cfgs, s, t, q, e) { EnqueueKeeps(cfgs, s, t, q, e); }
    else if q, e, w, lost :| Claim(cfgs, s, t, q, e, w, lost) { ClaimKeeps(cfgs, s, t, q, e, w, lost); }
    else if w, nonce :| Advance(s, t, w, nonce) { AdvanceKeeps(s, t, w, nonce); }
    else if m, e :| Deliver(cfgs, s, t, m, e) { DeliverKeeps(cfgs, s, t, m, e); }
    else if w :| Answer(s, t, w) { WorkerKeeps(s, t, w); }
    else if w :| SendAck(s, t, w) { SendAckKeeps(s, t, w); }
    else if w :| GiveUp(s, t, w) { WorkerKeeps(s, t, w); }
    else if m, e :| Accept(cfgs, s, t, m, e) { AcceptKeeps(cfgs, s, t, m, e); }
    else if q, e :| OwnerEvent(cfgs, s, t, q, e) { OwnerKeeps(cfgs, s, t, q, e); }
  }

  lemma {:induction false} RunInv(cfgs: map<Queue, Config>, run: seq<System>, n: nat)
    requires Run(cfgs, run) && n < |run|
    ensures Inv(run[n])
  {
    hide Inv, Next;
    if n == 0 {
      InitialInv(run[0]);
    } else {
      RunInv(cfgs, run, n - 1);
      assert Next(cfgs, run[n - 1], run[n - 1 + 1]);
      NextKeeps(cfgs, run[n - 1], run[n]);
    }
  }

  /** Job `r` was enqueued for step `k` of chain `c`, is on that step's queue or dead-lettered there,
      and carries the queues after it. */
  ghost predicate CarriesSuffix(s: System, c: ChainId, r: Ref, k: nat) {
    && r in s.origins && s.origins[r] == Origin(c, k)
    && c in s.chains && k < |s.chains[c]| && r.queue == s.chains[c][k]
    && r.queue in s.tables && r.id in s.tables[r.queue]
    && s.tables[r.queue][r.id].state in {Ready, Leased, Dead}
    && s.tables[r.queue][r.id].wf == Rest(s.chains[c][k + 1..])
  }

  /** Some job was enqueued for step `p` of chain `c`; the first step is enqueued with the start. */
  ghost predicate Reached(s: System, c: ChainId, p: nat) {
    p == 0 || exists r :: r in s.origins && s.origins[r] == Origin(c, p)
  }

  /** A job of chain `c` carries what remains after step `p` or after a later one. */
  ghost predicate CarriedFrom(s: System, c: ChainId, p: nat) {
    exists r, k: nat :: k >= p && CarriesSuffix(s, c, r, k)
  }

  /** A started chain is never silently lost: in every reachable state, for every step it has
      reached, a job of it for that step or a later one is in its queue or dead-lettered there and
      carries the rest, or the last step's ack was accepted, or a dead letter of that step or a later
      one outlived its time to live. So only a dead letter of the furthest step can lose it. */
  lemma ChainNeverLost(cfgs: map<Queue, Config>, run: seq<System>, n: nat, c: ChainId, p: nat)
    requires Run(cfgs, run) && n < |run| && c in run[n].chains && Reached(run[n], c, p)
    ensures c in run[n].finished || PurgedFrom(run[n], c, p) || CarriedFrom(run[n], c, p)
  {
    hide Run, Inv, Reached, CarriedFrom, PurgedFrom;
    RunInv(cfgs, run, n);
    ReachedCovered(run[n], c, p);
    CoveredCarried(run[n], c, p);
  }

  lemma ReachedCovered(s: System, c: ChainId, p: nat)
    requires Inv(s) && c in s.chains && Reached(s, c, p)
    ensures Covered(s, c, p)
  {
    hide JobsOk, WorkersOk, NetOk, Covered;
    assert s.chains[c] != [] && Covered(s, c, 0);
    if p > 0 {
      var u :| u in s.origins && s.origins[u] == Origin(c, p);
      assert Covered(s, s.origins[u].chain, s.origins[u].step);
    }
  }

  lemma CoveredCarried(s: System, c: ChainId, p: nat)
    requires Inv(s) && c in s.chains && Covered(s, c, p)
    ensures c in s.finished || PurgedFrom(s, c, p) || CarriedFrom(s, c, p)
  {
    hide ChainsOk, WorkersOk, NetOk, PurgedFrom;
    if c !in s.finished && !PurgedFrom(s, c, p) {
      var r :| Carries(s, r, c, p);
      assert OriginOk(s, r);
      hide OriginOk;
      assert CarriesSuffix(s, c, r, s.origins[r].step);
    }
  }

  // ---- Dead letters and their time to live ----

  ghost predicate KeepsDeadLetters(cfgs: map<Queue, Config>) {
    forall q | q in cfgs :: cfgs[q].deadLetterTtl.None?
  }

  lemma OwnerExpiresNothing(cfgs: map<Queue, Config>, s: System, t: System, q: Queue, e: Stamped)
    requires OwnerEvent(cfgs, s, t, q, e) && KeepsDeadLetters(cfgs) && s.expired == {}
    ensures t.expired == {}
  {
    hide Apply;
  }

  lemma WorkersExpireNothing(s: System, t: System)
    requires (exists w, nonce :: Advance(s, t, w, nonce))
      || (exists w :: Answer(s, t, w) || SendAck(s, t, w) || GiveUp(s, t, w))
    ensures t.expired == s.expired
  {
  }

  lemma EnqueuesExpireNothing(cfgs: map<Queue, Config>, s: System, t: System)
    requires (exists c, queues, e :: Start(cfgs, s, t, c, queues, e)) || (exists q, e :: Enqueue(cfgs, s, t, q, e))
      || (exists m, e :: Deliver(cfgs, s, t, m, e))
    ensures t.expired == s.expired
  {
    hide Event, Rest;
  }

  lemma ClaimsExpireNothing(cfgs: map<Queue, Config>, s: System, t: System)
    requires (exists q, e, w, lost :: Claim(cfgs, s, t, q, e, w, lost)) || (exists m, e :: Accept(cfgs, s, t, m, e))
    ensures t.expired == s.expired
  {
    hide Apply, Enabled, LastStep;
  }

  lemma ExpiresNothing(cfgs: map<Queue, Config>, s: System, t: System)
    requires Next(cfgs, s, t) && KeepsDeadLetters(cfgs) && s.expired == {}
    ensures t.expired == {}
  {
    hide KeepsDeadLetters, Start, Enqueue, Claim, Advance, Deliver, Answer, SendAck, GiveUp, Accept, OwnerEvent;
    if q, e :| OwnerEvent(cfgs, s, t, q, e) {
      OwnerExpiresNothing(cfgs, s, t, q, e);
    } else if (exists q, e, w, lost :: Claim(cfgs, s, t, q, e, w, lost)) || (exists m, e :: Accept(cfgs, s, t, m, e)) {
      ClaimsExpireNothing(cfgs, s, t);
    } else if (exists w, nonce :: Advance(s, t, w, nonce))
      || (exists w :: Answer(s, t, w) || SendAck(s, t, w) || GiveUp(s, t, w)) {
      WorkersExpireNothing(s, t);
    } else if t != s {
      EnqueuesExpireNothing(cfgs, s, t);
    }
  }

  lemma {:induction false} NothingExpires(cfgs: map<Queue, Config>, run: seq<System>, n: nat)
    requires Run(cfgs, run) && KeepsDeadLetters(cfgs) && n < |run|
    ensures run[n].expired == {}
  {
    hide Next, KeepsDeadLetters;
    if n > 0 {
      NothingExpires(cfgs, run, n - 1);
      assert Next(cfgs, run[n - 1], run[n - 1 + 1]);
      ExpiresNothing(cfgs, run[n - 1], run[n]);
    }
  }

  /** Chain `c` is finished, or a job of the furthest step it has reached is queued or dead-lettered. */
  ghost predicate Accounted(s: System, c: ChainId) {
    c in s.finished || forall p: nat | Reached(s, c, p) :: CarriedFrom(s, c, p)
  }

  ghost predicate AlwaysAccounted(cfgs: map<Queue, Config>) {
    forall run: seq<System>, n: nat, c {:trigger Run(cfgs, run), Accounted(run[n], c)} |
      Run(cfgs, run) && n < |run| && c in run[n].chains :: Accounted(run[n], c)
  }

  /** A chain of one step on queue `q`, alone in the system with its job table. */
  function Lone(q: Queue, t: Table, expired: set<Origin>): System {
    System(map[q := t], map[0 := Idle], {}, {}, map[0 := [q]], {Ref(q, 0)}, map[Ref(q, 0) := Origin(0, 0)], {}, expired)
  }

  lemma LoneStart(cfgs: map<Queue, Config>, q: Queue, s: System, e: Stamped, r: JobRecord)
    requires q in cfgs && e == At(1.0, Enqueued(0, r)) && IsNew(r) && r.wf == NoWorkflow
    requires s == System(map[q := map[]], map[0 := Idle], {}, {}, map[], {}, map[], {}, {})
    ensures Next(cfgs, s, Lone(q, map[0 := r], {}))
  {
    var t := Lone(q, map[0 := r], {});
    assert s.tables[q][0 := r] == t.tables[q] && s.tables[q := t.tables[q]] == t.tables;
    assert s.origins[Ref(q, 0) := Origin(0, 0)] == t.origins && [q][1..] == [];
    assert Start(cfgs, s, t, 0, [q], e);
  }

  lemma LoneClaim(cfgs: map<Queue, Config>, q: Queue, r: JobRecord, e: Stamped)
    requires q in cfgs && e == At(1.0, Claimed(0, 1.0)) && Eligible(r, 1.0)
    ensures Next(cfgs, Lone(q, map[0 := r], {}), Lone(q, map[0 := ClaimedRecord(r, 1.0, 1.0)], {}))
  {
    var s, t := Lone(q, map[0 := r], {}), Lone(q, map[0 := ClaimedRecord(r, 1.0, 1.0)], {});
    assert s.tables[q][0 := ClaimedRecord(r, 1.0, 1.0)] == t.tables[q] && s.tables[q := t.tables[q]] == t.tables;
    assert Claim(cfgs, s, t, q, e, 0, true);
  }

  lemma LoneFailure(cfgs: map<Queue, Config>, q: Queue, r: JobRecord, e: Stamped)
    requires q in cfgs && e == At(1.0, Failed(0, None, None, 0.0)) && r.state == Leased
    ensures Next(cfgs, Lone(q, map[0 := r], {}), Lone(q, map[0 := FailedRecord(r, 1.0, None, 0.0)], {}))
  {
    var s, t := Lone(q, map[0 := r], {}), Lone(q, map[0 := FailedRecord(r, 1.0, None, 0.0)], {});
    assert s.tables[q][0 := FailedRecord(r, 1.0, None, 0.0)] == t.tables[q] && s.tables[q := t.tables[q]] == t.tables;
    assert OwnerEvent(cfgs, s, t, q, e);
  }

  lemma LonePurge(cfgs: map<Queue, Config>, q: Queue, r: JobRecord, e: Stamped)
    requires q in cfgs && e.event == Purged(0) && r.state == Dead && Purgeable(cfgs[q], r, e.now)
    ensures Next(cfgs, Lone(q, map[0 := r], {}), Lone(q, map[], {Origin(0, 0)}))
  {
    var s, t := Lone(q, map[0 := r], {}), Lone(q, map[], {Origin(0, 0)});
    assert s.tables[q][0 := r] == s.tables[q];
    assert s.tables[q] - {0} == t.tables[q] && s.tables[q := t.tables[q]] == t.tables;
    assert OwnerEvent(cfgs, s, t, q, e);
  }

  lemma LoneGone(q: Queue)
    ensures var s := Lone(q, map[], {Origin(0, 0)}); 0 in s.chains && !Accounted(s, 0) && !CarriedFrom(s, 0, 0)
  {
    assert Reached(Lone(q, map[], {Origin(0, 0)}), 0, 0);
  }

  lemma RunOfFive(cfgs: map<Queue, Config>, s0: System, s1: System, s2: System, s3: System, s4: System)
    requires Initial(s0) && Next(cfgs, s0, s1) && Next(cfgs, s1, s2) && Next(cfgs, s2, s3) && Next(cfgs, s3, s4)
    ensures Run(cfgs, [s0, s1, s2, s3, s4])
  {
    hide Initial, Next;
  }

  /** A job with one attempt, when it is new, claimed and failed. */
  function LoneJob(): JobRecord {
    JobRecord(Bytes(""), Ready, 0, 1, 0.0, 0.0, 0, 1, None, None, 0.0, NoWorkflow)
  }

  function LoneClaimed(): JobRecord {
    ClaimedRecord(LoneJob(), 1.0, 1.0)
  }

  function LoneDead(): JobRecord {
    FailedRecord(LoneClaimed(), 1.0, None, 0.0)
  }

  lemma LoneJobDies(cfg: Config, late: real)
    requires cfg.deadLetterTtl.Some? && 1.0 + cfg.deadLetterTtl.value <= late
    ensures IsNew(LoneJob()) && LoneJob().wf == NoWorkflow && Eligible(LoneJob(), 1.0) && LoneClaimed().state == Leased
    ensures LoneDead().state == Dead && Purgeable(cfg, LoneDead(), late)
  {
  }

  /** Where dead letters have a time to live, a chain whose only job is dead-lettered and purged
      leaves nothing behind. */
  lemma PurgedChainIsGone(cfgs: map<Queue, Config>, q: Queue) returns (run: seq<System>)
    requires q in cfgs && cfgs[q].deadLetterTtl.Some?
    ensures Run(cfgs, run)
    ensures |run| == 5 && 0 in run[4].chains && !Accounted(run[4], 0) && !CarriedFrom(run[4], 0, 0)
  {
    var ttl := cfgs[q].deadLetterTtl.value;
    var late := if ttl > 0.0 then 1.0 + ttl else 1.0;
    var s0 := System(map[q := map[]], map[0 := Idle], {}, {}, map[], {}, map[], {}, {});
    var s1, s2 := Lone(q, map[0 := LoneJob()], {}), Lone(q, map[0 := LoneClaimed()], {});
    var s3, s4 := Lone(q, map[0 := LoneDead()], {}), Lone(q, map[], {Origin(0, 0)});
    LoneJobDies(cfgs[q], late);
    assert Initial(s0);
    hide Next, Lone, Run, Accounted, CarriedFrom, Initial, IsNew, Eligible, Purgeable, ClaimedRecord, FailedRecord,
      LoneJob;
    LoneStart(cfgs, q, s0, At(1.0, Enqueued(0, LoneJob())), LoneJob());
    LoneClaim(cfgs, q, LoneJob(), At(1.0, Claimed(0, 1.0)));
    LoneFailure(cfgs, q, LoneClaimed(), At(1.0, Failed(0, None, None, 0.0)));
    LonePurge(cfgs, q, LoneDead(), At(late, Purged(0)));
    RunOfFive(cfgs, s0, s1, s2, s3, s4);
    LoneGone(q);
    run := [s0, s1, s2, s3, s4];
  }

  /** Every started chain is always finished, queued or dead-lettered exactly when every queue keeps
      its dead letters for good. */
  lemma DeadLettersDecide(cfgs: map<Queue, Config>)
    ensures AlwaysAccounted(cfgs) <==> KeepsDeadLetters(cfgs)
  {
    hide Run, CarriesSuffix, CarriedFrom, Reached;
    if KeepsDeadLetters(cfgs) {
      forall run: seq<System>, n: nat, c | Run(cfgs, run) && n < |run| && c in run[n].chains
        ensures Accounted(run[n], c)
      {
        NothingExpires(cfgs, run, n);
        forall p: nat | c !in run[n].finished && Reached(run[n], c, p) ensures CarriedFrom(run[n], c, p) {
          ChainNeverLost(cfgs, run, n, c, p);
        }
      }
    } else {
      var q :| q in cfgs && cfgs[q].deadLetterTtl.Some?;
      var run := PurgedChainIsGone(cfgs, q);
      assert !Accounted(run[4], 0);
    }
  }
}

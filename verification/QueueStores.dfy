/** `QueueStore`: the heap-backed, write-through store, proved against the plain job table whatever it is
    asked and wherever it crashes. */
module QueueStores {
  import opened JobTable
  import opened Heaps
  import opened QueueDisk
  import opened QueueEffects
  import opened Options

  // ---- Heap bookkeeping ----

  datatype Queues = Queues(
    ready: multiset<Entry>, delayed: multiset<Entry>, leases: multiset<Entry>, done: multiset<Entry>)

  function ReadyEntry(id: JobId, r: JobRecord): Entry {
    Entry(-(r.priority as real), r.order, id)
  }

  function TimeEntry(time: real, id: JobId): Entry {
    Entry(time, 0, id)
  }

  /** A job can be found through the heap its state belongs to, stale entries or not; a job found
      only through the ready heap has been due since `clock`. */
  ghost predicate Tracked(cfg: Config, id: JobId, r: JobRecord, q: Queues, clock: real) {
    match r.state
    case Ready => (ReadyEntry(id, r) in q.ready && r.notBefore <= clock) || TimeEntry(r.notBefore, id) in q.delayed
    case Leased => TimeEntry(r.leaseUntil, id) in q.leases
    case Done => TimeEntry(r.completedAt + cfg.resultTtl, id) in q.done
    case Dead => true
  }

  ghost predicate AllTracked(cfg: Config, t: Table, q: Queues, clock: real) {
    forall id {:trigger id in t} | id in t :: Tracked(cfg, id, t[id], q, clock)
  }

  /** An entry of the ready heap is for an id that was issued, and carries that job's rank. */
  ghost predicate Faithful(t: Table, ready: multiset<Entry>, issued: set<JobId>) {
    forall e {:trigger ready[e]} | e in ready :: e.id in issued && (e.id in t ==> e == ReadyEntry(e.id, t[e.id]))
  }

  ghost predicate OrdersBelow(t: Table, last: nat) {
    && (forall id {:trigger id in t} | id in t :: t[id].order <= last)
    && (forall a, b {:trigger t[a], t[b]} | a in t && b in t && a != b :: t[a].order != t[b].order)
  }

  /** Every due job has its entry in the ready heap. */
  ghost predicate DueReady(t: Table, ready: multiset<Entry>, now: real) {
    forall id {:trigger id in t} | id in t && Eligible(t[id], now) :: ReadyEntry(id, t[id]) in ready
  }

  // ---- Steps of the bookkeeping ----

  /** Maturing one delayed entry `e`. */
  lemma MatureStep(cfg: Config, t: Table, q: Queues, p: Queues, e: Entry, now: real)
    requires AllTracked(cfg, t, q, now) && e in q.delayed && e.key <= now
    requires p == q.(delayed := q.delayed - multiset{e},
                     ready := if e.id in t && Eligible(t[e.id], now)
                              then q.ready + multiset{ReadyEntry(e.id, t[e.id])} else q.ready)
    ensures AllTracked(cfg, t, p, now)
  {
    forall id | id in t ensures Tracked(cfg, id, t[id], p, now) {
      assert Tracked(cfg, id, t[id], q, now);
    }
  }

  lemma LaterTracked(cfg: Config, t: Table, q: Queues, clock: real, now: real)
    requires AllTracked(cfg, t, q, clock) && clock <= now
    ensures AllTracked(cfg, t, q, now)
  {
  }

  lemma MinKey(h: multiset<Entry>, e: Entry)
    requires IsMin(h, e)
    ensures e in h && forall x | x in h :: e.key <= x.key
  {
  }

  lemma AllDue(cfg: Config, t: Table, q: Queues, now: real)
    requires AllTracked(cfg, t, q, now) && forall e | e in q.delayed :: e.key > now
    ensures DueReady(t, q.ready, now)
  {
  }

  lemma FaithfulPush(t: Table, ready: multiset<Entry>, issued: set<JobId>, id: JobId)
    requires Faithful(t, ready, issued) && id in t && id in issued
    ensures Faithful(t, ready + multiset{ReadyEntry(id, t[id])}, issued)
  {
  }

  lemma FaithfulPop(t: Table, ready: multiset<Entry>, issued: set<JobId>, e: Entry)
    requires Faithful(t, ready, issued)
    ensures Faithful(t, ready - multiset{e}, issued)
  {
  }

  /** The table with the lapsed leases of `ids` reclaimed. */
  function Partly(t: Table, now: real, ids: set<JobId>): Table {
    map id | id in t :: if id in ids then LapsedRecord(t[id], now) else t[id]
  }

  /** Whatever was not taken out of the heaps still tracks the job. */
  lemma StillTracked(cfg: Config, id: JobId, r: JobRecord, q: Queues, p: Queues, e: Entry, now: real)
    requires Tracked(cfg, id, r, q, now) && e.id != id
    requires q.ready - multiset{e} <= p.ready && q.delayed - multiset{e} <= p.delayed
    requires q.leases - multiset{e} <= p.leases && q.done - multiset{e} <= p.done
    ensures Tracked(cfg, id, r, p, now)
  {
  }

  /** A reclaimed job is found through its new ready entry, or dead. */
  lemma ReclaimedTracked(cfg: Config, id: JobId, r: JobRecord, p: Queues, now: real)
    requires Lapses(r, now) && 0.0 <= now
    requires LapsedRecord(r, now).state == Ready ==> ReadyEntry(id, LapsedRecord(r, now)) in p.ready
    ensures Tracked(cfg, id, LapsedRecord(r, now), p, now)
  {
  }

  lemma ReclaimedDue(t: Table, ready: multiset<Entry>, more: multiset<Entry>, id: JobId, r: JobRecord, now: real)
    requires DueReady(t, ready, now) && id in t && ready <= more
    requires r.state == Ready ==> ReadyEntry(id, r) in more
    ensures DueReady(t[id := r], more, now)
  {
    hide ReadyEntry;
    var u := t[id := r];
    forall o | o in u && Eligible(u[o], now) ensures ReadyEntry(o, u[o]) in more {
      if o != id {
        assert o in t && Eligible(t[o], now);
        assert ready[ReadyEntry(o, t[o])] <= more[ReadyEntry(o, t[o])];
      }
    }
  }

  /** Reclaiming the job of one lease entry `e`. */
  lemma ReclaimStep(cfg: Config, t: Table, u: Table, q: Queues, p: Queues, e: Entry, now: real)
    requires AllTracked(cfg, t, q, now) && e in q.leases && e.key <= now && 0.0 <= now
    requires e.id in t && Lapses(t[e.id], now) && u == t[e.id := LapsedRecord(t[e.id], now)]
    requires p == q.(leases := q.leases - multiset{e},
                     ready := if u[e.id].state == Ready then q.ready + multiset{ReadyEntry(e.id, u[e.id])} else q.ready)
    ensures AllTracked(cfg, u, p, now)
    ensures DueReady(t, q.ready, now) ==> DueReady(u, p.ready, now)
  {
    hide Tracked, LapsedRecord, ReadyEntry, DueReady, Lapses;
    ReclaimedTracked(cfg, e.id, t[e.id], p, now);
    forall id | id in t && id != e.id ensures Tracked(cfg, id, u[id], p, now) {
      assert Tracked(cfg, id, t[id], q, now);
      StillTracked(cfg, id, t[id], q, p, e, now);
    }
    if DueReady(t, q.ready, now) {
      ReclaimedDue(t, q.ready, p.ready, e.id, u[e.id], now);
    }
  }

  /** Dropping a lease entry that is stale. */
  lemma StaleLease(cfg: Config, t: Table, q: Queues, e: Entry, now: real)
    requires AllTracked(cfg, t, q, now) && e.key <= now
    requires e.id in t ==> !Lapses(t[e.id], now)
    ensures AllTracked(cfg, t, q.(leases := q.leases - multiset{e}), now)
  {
  }

  lemma NoneLapsed(cfg: Config, t: Table, q: Queues, now: real)
    requires AllTracked(cfg, t, q, now) && forall e | e in q.leases :: e.key > now
    ensures forall id | id in t :: !Lapses(t[id], now)
  {
  }

  /** Rewriting one job without touching its rank. */
  lemma SameRank(t: Table, ready: multiset<Entry>, issued: set<JobId>, last: nat, id: JobId, r: JobRecord)
    requires Faithful(t, ready, issued) && OrdersBelow(t, last)
    requires id in t && r.priority == t[id].priority && r.order == t[id].order
    ensures Faithful(t[id := r], ready, issued) && OrdersBelow(t[id := r], last)
  {
  }

  predicate Unrepeated(s: seq<JobId>) {
    forall i, j | 0 <= i < j < |s| :: s[i] != s[j]
  }

  ghost predicate AllLapse(t: Table, now: real, changed: seq<JobId>) {
    Unrepeated(changed) && forall id | id in changed :: id in t && Lapses(t[id], now)
  }

  function Ids(s: seq<JobId>): set<JobId> {
    set id | id in s
  }

  function LapsedIds(t: Table, now: real): set<JobId> {
    set id | id in t && Lapses(t[id], now)
  }

  lemma PartlyAll(t: Table, u: Table, now: real, changed: seq<JobId>)
    requires u == Partly(t, now, Ids(changed)) && AllLapse(t, now, changed)
    requires forall id | id in u :: !Lapses(u[id], now)
    ensures u == Reclaimed(t, now) && Unrepeated(changed) && Ids(changed) == LapsedIds(t, now)
  {
    forall id | id in t && id !in changed ensures !Lapses(t[id], now) {
      assert u[id] == t[id];
    }
  }

  lemma PartlyNone(t: Table, now: real)
    ensures AllLapse(t, now, []) && Partly(t, now, Ids([])) == t
  {
  }

  lemma PartlyMore(t: Table, now: real, changed: seq<JobId>, id: JobId)
    requires AllLapse(t, now, changed) && id in t
    requires var u := Partly(t, now, Ids(changed)); Lapses(u[id], now)
    ensures AllLapse(t, now, changed + [id])
    ensures var u := Partly(t, now, Ids(changed));
            Partly(t, now, Ids(changed + [id])) == u[id := LapsedRecord(u[id], now)]
  {
  }

  lemma LapsedStart(t: Table, now: real, changed: seq<JobId>)
    requires Unrepeated(changed) && Ids(changed) == LapsedIds(t, now)
    ensures Partly(t, now, Ids(changed[..0])) == t
    ensures forall id | id in changed :: id in Reclaimed(t, now)
  {
    forall id | id in changed ensures id in t {
      assert id in Ids(changed);
    }
  }

  lemma LapsedEnd(t: Table, now: real, changed: seq<JobId>)
    requires Ids(changed) == LapsedIds(t, now)
    ensures Partly(t, now, Ids(changed[..|changed|])) == Reclaimed(t, now)
  {
    assert changed[..|changed|] == changed;
    hide LapsedRecord;
  }

  lemma LapsedWrite(cfg: Config, t: Table, now: real, changed: seq<JobId>, i: nat, d: Disk, h: History, jobs: Table)
    requires i < |changed| && Unrepeated(changed) && Ids(changed) == LapsedIds(t, now)
    requires OnDisk(cfg, d, h) && Replay(cfg, h) == Partly(t, now, Ids(changed[..i])) && LastTime(h) <= now
    requires jobs == Reclaimed(t, now)
    ensures var id := changed[i];
      && id in jobs
      && OnDisk(cfg, d.(records := d.records[id := jobs[id]]), h + [At(now, Lapsed(id))])
      && Replay(cfg, h + [At(now, Lapsed(id))]) == Partly(t, now, Ids(changed[..i + 1]))
    ensures Issued(h + [At(now, Lapsed(changed[i]))]) == Issued(h) && LastTime(h + [At(now, Lapsed(changed[i]))]) == now
  {
    var id := changed[i];
    var s := At(now, Lapsed(id));
    assert id in Ids(changed);
    var u := Partly(t, now, Ids(changed[..i]));
    assert id !in Ids(changed[..i]);
    hide OnDisk, Replay, LapsedRecord;
    assert Enabled(cfg, u, s) && Apply(cfg, u, s) == u[id := jobs[id]];
    PutRecord(cfg, d, h, s, jobs[id]);
    assert Ids(changed[..i + 1]) == Ids(changed[..i]) + {id} by {
      assert changed[..i + 1] == changed[..i] + [id];
    }
    assert u[id := jobs[id]] == Partly(t, now, Ids(changed[..i + 1]));
  }

  /** Reclaiming one job keeps the ranks, its new ready entry included. */
  lemma ReclaimRanks(t: Table, ready: multiset<Entry>, issued: set<JobId>, last: nat, id: JobId, now: real)
    requires Faithful(t, ready, issued) && OrdersBelow(t, last) && id in t && id in issued
    ensures var u := t[id := LapsedRecord(t[id], now)];
      && u.Keys == t.Keys && OrdersBelow(u, last)
      && Faithful(u, if u[id].state == Ready then ready + multiset{ReadyEntry(id, u[id])} else ready, issued)
  {
    var u := t[id := LapsedRecord(t[id], now)];
    hide Faithful, OrdersBelow, ReadyEntry;
    SameRank(t, ready, issued, last, id, u[id]);
    FaithfulPush(u, ready, issued, id);
  }

  /** The first due entry of the ready heap is the job a scan of the table would pick. */
  lemma TopIsBest(t: Table, ready: multiset<Entry>, issued: set<JobId>, last: nat, e: Entry, now: real)
    requires Faithful(t, ready, issued) && OrdersBelow(t, last) && DueReady(t, ready, now)
    requires IsMin(ready, e) && e.id in t && Eligible(t[e.id], now)
    ensures IsBest(t, now, e.id)
  {
  }

  /** Dropping the entry of a job that is not due. */
  lemma StaleReady(cfg: Config, t: Table, q: Queues, e: Entry, now: real)
    requires AllTracked(cfg, t, q, now) && DueReady(t, q.ready, now)
    requires e.id in t ==> !Eligible(t[e.id], now)
    ensures AllTracked(cfg, t, q.(ready := q.ready - multiset{e}), now)
    ensures DueReady(t, q.ready - multiset{e}, now)
  {
  }

  lemma NoneDue(t: Table, ready: multiset<Entry>, now: real)
    requires DueReady(t, ready, now) && |ready| == 0
    ensures forall id | id in t :: !Eligible(t[id], now)
  {
  }

  /** What `ClaimedRecord` keeps, and the event it makes. */
  lemma ClaimedIs(cfg: Config, t: Table, now: real, id: JobId, lease: real)
    requires id in t && Eligible(t[id], now)
    ensures var r, s := ClaimedRecord(t[id], now, lease), At(now, Claimed(id, lease));
      && r.priority == t[id].priority && r.order == t[id].order
      && Enabled(cfg, t, s) && Apply(cfg, t, s) == t[id := r]
  {
  }

  lemma FinishedIs(cfg: Config, t: Table, now: real, id: JobId, token: Option<nat>, result: Option<Bytes>)
    requires id in t && HoldsLease(t[id], token)
    ensures var r, s := FinishedRecord(t[id], now, result), At(now, Finished(id, token, result));
      && r.priority == t[id].priority && r.order == t[id].order
      && Enabled(cfg, t, s) && Apply(cfg, t, s) == if cfg.keepResults then t[id := r] else t - {id}
  {
  }

  lemma FailedIs(cfg: Config, t: Table, now: real, id: JobId, token: Option<nat>, error: Option<string>, delay: real)
    requires id in t && HoldsLease(t[id], token)
    ensures var r, s := FailedRecord(t[id], now, error, delay), At(now, Failed(id, token, error, delay));
      && r.priority == t[id].priority && r.order == t[id].order
      && Enabled(cfg, t, s) && Apply(cfg, t, s) == t[id := r]
  {
  }

  /** Rewriting one job and pushing its new entry keeps every job tracked. */
  lemma RewriteTracked(cfg: Config, t: Table, q: Queues, p: Queues, id: JobId, r: JobRecord, now: real)
    requires AllTracked(cfg, t, q, now) && Tracked(cfg, id, r, p, now)
    requires q.ready <= p.ready && q.delayed <= p.delayed && q.leases <= p.leases && q.done <= p.done
    ensures AllTracked(cfg, t[id := r], p, now)
  {
  }

  lemma RemovedRanks(t: Table, ready: multiset<Entry>, issued: set<JobId>, last: nat, id: JobId)
    requires Faithful(t, ready, issued) && OrdersBelow(t, last)
    ensures Faithful(t - {id}, ready, issued) && OrdersBelow(t - {id}, last)
  {
  }

  lemma RemovedTracked(cfg: Config, t: Table, q: Queues, id: JobId, now: real)
    requires AllTracked(cfg, t, q, now)
    ensures AllTracked(cfg, t - {id}, q, now)
  {
  }

  // ---- Sweeping ----

  /** `t` is `u` with some purgeable jobs gone. */
  ghost predicate PartlySwept(cfg: Config, u: Table, t: Table, now: real) {
    && (forall id | id in t :: id in u && t[id] == u[id])
    && (forall id | id in u && id !in t :: Purgeable(cfg, u[id], now))
  }

  lemma SweptOne(cfg: Config, u: Table, t: Table, now: real, id: JobId)
    requires PartlySwept(cfg, u, t, now) && id in t && Purgeable(cfg, t[id], now)
    ensures PartlySwept(cfg, u, t - {id}, now)
    ensures Enabled(cfg, t, At(now, Purged(id))) && Apply(cfg, t, At(now, Purged(id))) == t - {id}
  {
    hide Purgeable;
  }

  lemma StaleDone(cfg: Config, t: Table, q: Queues, e: Entry, now: real)
    requires AllTracked(cfg, t, q, now) && e.key <= now
    ensures AllTracked(cfg,
                       if e.id in t && t[e.id].state == Done && Purgeable(cfg, t[e.id], now) then t - {e.id} else t,
                       q.(done := q.done - multiset{e}), now)
  {
  }

  lemma NoResultDue(cfg: Config, t: Table, q: Queues, now: real)
    requires AllTracked(cfg, t, q, now) && forall e | e in q.done :: e.key > now
    ensures forall id | id in t && t[id].state == Done :: !Purgeable(cfg, t[id], now)
  {
  }

  function ExpiredDead(cfg: Config, t: Table, now: real): set<JobId> {
    set id | id in t && t[id].state == Dead && Purgeable(cfg, t[id], now)
  }

  lemma DeadOne(cfg: Config, t: Table, now: real, id: JobId, expired: set<JobId>)
    requires id in expired && expired == ExpiredDead(cfg, t, now)
    requires forall o | o in t && t[o].state == Done :: !Purgeable(cfg, t[o], now)
    ensures id in t && Purgeable(cfg, t[id], now) && ExpiredDead(cfg, t - {id}, now) == expired - {id}
    ensures forall o | o in t - {id} && (t - {id})[o].state == Done :: !Purgeable(cfg, (t - {id})[o], now)
  {
  }

  lemma SweptAll(cfg: Config, t0: Table, t: Table, now: real)
    requires PartlySwept(cfg, Reclaimed(t0, now), t, now) && ExpiredDead(cfg, t, now) == {}
    requires forall id | id in t && t[id].state == Done :: !Purgeable(cfg, t[id], now)
    ensures t == Swept(cfg, t0, now)
  {
    hide Reclaimed;
    forall id | id in t ensures !Purgeable(cfg, t[id], now) {
      assert id !in ExpiredDead(cfg, t, now);
    }
  }

  lemma SweepsCounted(cfg: Config, t: Table, now: real)
    ensures SweepEffect(cfg, t, Swept(cfg, t, now), now, |LapsedIds(t, now)|)
  {
    hide SweepEffect, Swept;
    Sweeps(cfg, t, now);
    assert LapsedIds(t, now) == set id | id in t && Lapses(t[id], now);
  }

  lemma {:induction false} CountIds(s: seq<JobId>)
    requires Unrepeated(s)
    ensures |Ids(s)| == |s|
  {
    if s != [] {
      CountIds(s[1..]);
      assert Ids(s) == {s[0]} + Ids(s[1..]);
    }
  }

  lemma NothingSwept(cfg: Config, t: Table, now: real)
    ensures PartlySwept(cfg, t, t, now)
  {
  }

  // ---- Recovery ----

  /** Two jobs of one table never share a rank. */
  lemma {:induction false} OrdersDistinct(cfg: Config, h: History)
    requires Legal(cfg, h)
    ensures forall a, b {:trigger Replay(cfg, h)[a], Replay(cfg, h)[b]} |
      a in Replay(cfg, h) && b in Replay(cfg, h) && a != b :: Replay(cfg, h)[a].order != Replay(cfg, h)[b].order
    ensures 0.0 <= LastTime(h)
    decreases |h|
  {
    if h != [] {
      OrdersDistinct(cfg, h[..|h| - 1]);
      OrderKept(cfg, Replay(cfg, h[..|h| - 1]), h[|h| - 1]);
      hide Apply;
    }
  }

  lemma OrderKept(cfg: Config, t: Table, s: Stamped)
    requires Enabled(cfg, t, s)
    ensures forall a | a in Apply(cfg, t, s) && (s.event.Enqueued? ==> a != s.event.id) ::
      a in t && Apply(cfg, t, s)[a].order == t[a].order
    ensures s.event.Enqueued? ==>
      s.event.id in Apply(cfg, t, s) && Apply(cfg, t, s)[s.event.id].order == s.event.record.order
  {
  }

  /** The jobs of `t` with an id in `ids`. */
  function Restricted(t: Table, ids: set<JobId>): Table {
    map id | id in t && id in ids :: t[id]
  }

  ghost predicate PartOf(u: Table, t: Table) {
    forall id | id in u :: id in t && t[id] == u[id]
  }

  ghost predicate DistinctOrders(t: Table) {
    forall a, b {:trigger t[a], t[b]} | a in t && b in t && a != b :: t[a].order != t[b].order
  }

  lemma RecoveryFacts(cfg: Config, d: Disk, h: History)
    requires OnDisk(cfg, d, h)
    ensures Recover(d) == Replay(cfg, h) && DistinctOrders(Recover(d))
    ensures 0.0 <= LastTime(h) && Recover(d).Keys <= Issued(h)
  {
    OrdersDistinct(cfg, h);
    JobsIssued(cfg, h);
  }

  /** Every entry of the ready heap is for a job in the table. */
  ghost predicate ReadyKnown(t: Table, ready: multiset<Entry>) {
    forall e {:trigger ready[e]} | e in ready :: e.id in t
  }

  lemma NothingLoaded(cfg: Config, t: Table, q: Queues, now: real, issued: set<JobId>)
    requires q == Queues(multiset{}, multiset{}, multiset{}, multiset{})
    ensures Restricted(t, {}) == map[] && AllTracked(cfg, map[], q, now)
    ensures Faithful(map[], q.ready, issued) && ReadyKnown(map[], q.ready) && OrdersBelow(map[], 0)
  {
  }

  lemma LoadedMore(t: Table, seen: set<JobId>, id: JobId)
    requires id !in seen
    ensures Restricted(t, seen + {id}) == (if id in t then Restricted(t, seen)[id := t[id]] else Restricted(t, seen))
    ensures id !in Restricted(t, seen) && PartOf(Restricted(t, seen), t)
  {
  }

  lemma AllLoaded(t: Table, seen: set<JobId>)
    requires t.Keys <= seen
    ensures Restricted(t, seen) == t
  {
  }

  lemma LoadRanks(t: Table, jobs: Table, ready: multiset<Entry>, issued: set<JobId>, last: nat, id: JobId)
    requires Faithful(jobs, ready, issued) && ReadyKnown(jobs, ready) && OrdersBelow(jobs, last)
    requires DistinctOrders(t) && id in t && id !in jobs && PartOf(jobs, t)
    ensures var u := jobs[id := t[id]];
      && Faithful(u, ready, issued) && ReadyKnown(u, ready)
      && OrdersBelow(u, if last < t[id].order then t[id].order else last)
  {
  }

  /** Nothing is taken out of the heaps, and no more than `e` is put into the ready heap. */
  ghost predicate OnlyMore(q: Queues, p: Queues, e: Entry) {
    && q.ready <= p.ready && q.delayed <= p.delayed && q.leases <= p.leases && q.done <= p.done
    && forall x | x in p.ready :: x in q.ready || x == e
  }

  lemma Placed(cfg: Config, u: Table, q: Queues, p: Queues, issued: set<JobId>, id: JobId, r: JobRecord, now: real)
    requires AllTracked(cfg, u, q, now) && Tracked(cfg, id, r, p, now) && OnlyMore(q, p, ReadyEntry(id, r))
    requires Faithful(u[id := r], q.ready, issued) && ReadyKnown(u[id := r], q.ready) && id in issued
    ensures AllTracked(cfg, u[id := r], p, now) && Faithful(u[id := r], p.ready, issued)
      && ReadyKnown(u[id := r], p.ready)
  {
    RewriteTracked(cfg, u, q, p, id, r, now);
    OfferedFaithful(u[id := r], q.ready, p.ready, issued, id);
    hide AllTracked, Faithful, Tracked;
  }

  /** What `add` and `nack` rely on when they offer a job. */
  lemma OfferedFaithful(t: Table, was: multiset<Entry>, ready: multiset<Entry>, issued: set<JobId>, id: JobId)
    requires Faithful(t, was, issued) && id in t && id in issued
    requires forall e | e in ready :: e in was || e == ReadyEntry(id, t[id])
    ensures Faithful(t, ready, issued)
  {
  }

  lemma OfferedTracked(cfg: Config, id: JobId, r: JobRecord, q: Queues, now: real)
    requires r.state == Ready
    requires r.notBefore <= now ==> ReadyEntry(id, r) in q.ready
    requires r.notBefore > now ==> TimeEntry(r.notBefore, id) in q.delayed
    ensures Tracked(cfg, id, r, q, now)
  {
  }

  lemma DoneTracked(cfg: Config, id: JobId, r: JobRecord, q: Queues, now: real, result: Option<Bytes>)
    requires TimeEntry(now + cfg.resultTtl, id) in q.done
    ensures Tracked(cfg, id, FinishedRecord(r, now, result), q, now)
  {
  }

  lemma FailedState(r: JobRecord, now: real, error: Option<string>, delay: real)
    ensures FailedRecord(r, now, error, delay).state == (if r.attempts < r.maxAttempts then Ready else Dead)
  {
  }

  lemma DiskIssued(cfg: Config, d: Disk, h: History)
    requires OnDisk(cfg, d, h)
    ensures Replay(cfg, h).Keys <= Issued(h)
  {
  }

  lemma {:induction false} JobsIssued(cfg: Config, h: History)
    requires Legal(cfg, h)
    ensures Replay(cfg, h).Keys <= Issued(h)
    decreases |h|
  {
    if h != [] {
      var p, s := h[..|h| - 1], h[|h| - 1];
      JobsIssued(cfg, p);
      assert h == p + [s];
      LegalStep(cfg, p, s);
      hide Issued, Replay, Legal;
    }
  }

  /** The record `add` writes. */
  function NewRecord(data: Bytes, maxAttempts: nat, priority: int, order: nat, now: real, delay: real,
                     wf: Workflow): JobRecord {
    JobRecord(data, Ready, 0, maxAttempts, 0.0, DueAt(now, delay), priority, order, None, None, 0.0, wf)
  }

  lemma NewIs(cfg: Config, t: Table, data: Bytes, maxAttempts: nat, priority: int, last: nat, now: real, delay: real,
              wf: Workflow, id: JobId)
    requires OrdersBelow(t, last) && id !in t && maxAttempts >= 1
    ensures var r := NewRecord(data, maxAttempts, priority, last + 1, now, delay, wf);
      Enabled(cfg, t, At(now, Enqueued(id, r))) && r.state == Ready && r.order == last + 1
  {
  }

  lemma Adds(t: Table, last: nat, now: real, id: JobId, data: Bytes, maxAttempts: nat, priority: int, delay: real,
             wf: Workflow)
    requires OrdersBelow(t, last) && id !in t
    ensures AddEffect(t, t[id := NewRecord(data, maxAttempts, priority, last + 1, now, delay, wf)],
                      now, id, data, maxAttempts, priority, delay, wf)
  {
  }

  lemma ReclaimedKeys(t: Table, now: real)
    ensures Reclaimed(t, now).Keys == t.Keys
  {
  }

  lemma NewIndexed(t: Table, ready: multiset<Entry>, issued: set<JobId>, last: nat, id: JobId, r: JobRecord)
    requires Faithful(t, ready, issued) && OrdersBelow(t, last) && id !in issued && id !in t
    requires r.order == last + 1
    ensures Faithful(t[id := r], ready, issued + {id}) && OrdersBelow(t[id := r], last + 1)
  {
  }

  lemma ClaimStep(cfg: Config, t: Table, u: Table, q: Queues, p: Queues, e: Entry, now: real, lease: real)
    requires AllTracked(cfg, t, q, now)
    requires e.id in t && Eligible(t[e.id], now) && u == t[e.id := ClaimedRecord(t[e.id], now, lease)]
    requires p == q.(ready := q.ready - multiset{e}, leases := q.leases + multiset{TimeEntry(now + lease, e.id)})
    ensures AllTracked(cfg, u, p, now)
  {
    forall id | id in u ensures Tracked(cfg, id, u[id], p, now) {
      assert Tracked(cfg, id, t[id], q, now);
    }
  }

  class QueueStore {
    const cfg: Config
    var jobs: Table
    var ids: set<JobId>
    var ready: multiset<Entry>
    var delayed: multiset<Entry>
    var leases: multiset<Entry>
    var done: multiset<Entry>
    var lastOrder: nat
    var disk: Disk
    ghost var history: History      // the events the storage shows
    ghost var clock: real           // the last operation's clock reading
    ghost var crashes: seq<Crash>   // the storage after each write, with its events

    /** What a crash now would leave. */
    ghost function Now(): Crash
      reads this
    {
      Crash(disk, history)
    }

    ghost function Q(): Queues
      reads this
    {
      Queues(ready, delayed, leases, done)
    }

    /** The heaps index the table and the ids mirror it. */
    ghost predicate Indexed(issued: set<JobId>)
      reads this
    {
      && AllTracked(cfg, jobs, Q(), clock)
      && Faithful(jobs, ready, issued)
      && OrdersBelow(jobs, lastOrder)
      && ids == jobs.Keys
    }

    ghost predicate Valid()
      reads this
    {
      && 0.0 <= LastTime(history) <= clock
      && OnDisk(cfg, disk, history)
      && jobs == Replay(cfg, history)
      && Indexed(Issued(history))
    }

    // ---- Private steps ----

    method OfferReady(now: real, id: JobId)
      requires id in jobs
      modifies this`ready, this`delayed
      ensures old(ready) <= ready && old(delayed) <= delayed
      ensures jobs[id].notBefore <= now ==> ReadyEntry(id, jobs[id]) in ready
      ensures jobs[id].notBefore > now ==> TimeEntry(jobs[id].notBefore, id) in delayed
      ensures forall e | e in ready :: e in old(ready) || e == ReadyEntry(id, jobs[id])
    {
      var r := jobs[id];
      if r.notBefore > now {
        delayed := delayed + multiset{TimeEntry(r.notBefore, id)};
      } else {
        ready := ready + multiset{ReadyEntry(id, r)};
      }
    }

    method MatureDelayed(now: real, ghost issued: set<JobId>)
      requires AllTracked(cfg, jobs, Q(), clock) && Faithful(jobs, ready, issued) && jobs.Keys <= issued && clock <= now
      modifies this`ready, this`delayed
      ensures AllTracked(cfg, jobs, Q(), now) && Faithful(jobs, ready, issued)
      ensures DueReady(jobs, ready, now)
    {
      hide AllTracked, Faithful, DueReady, ReadyEntry, IsMin;
      LaterTracked(cfg, jobs, Q(), clock, now);
      while |delayed| > 0
        invariant AllTracked(cfg, jobs, Q(), now) && Faithful(jobs, ready, issued)
        decreases |delayed|
      {
        var e := Top(delayed);
        MinKey(delayed, e);
        if e.key > now { break; }
        ghost var q := Q();
        delayed := delayed - multiset{e};
        if e.id in jobs && jobs[e.id].state == Ready && jobs[e.id].notBefore <= now {
          FaithfulPush(jobs, ready, issued, e.id);
          ready := ready + multiset{ReadyEntry(e.id, jobs[e.id])};
        }
        MatureStep(cfg, jobs, q, Q(), e, now);
      }
      AllDue(cfg, jobs, Q(), now);
    }

    method ReclaimLeases(now: real, ghost issued: set<JobId>) returns (changed: seq<JobId>)
      requires AllTracked(cfg, jobs, Q(), clock) && Faithful(jobs, ready, issued) && OrdersBelow(jobs, lastOrder)
      requires jobs.Keys <= issued && clock <= now && 0.0 <= now
      modifies this`jobs, this`ready, this`leases
      ensures AllTracked(cfg, jobs, Q(), now) && Faithful(jobs, ready, issued) && OrdersBelow(jobs, lastOrder)
      ensures jobs == Reclaimed(old(jobs), now)
      ensures Unrepeated(changed) && Ids(changed) == LapsedIds(old(jobs), now)
      ensures DueReady(old(jobs), old(ready), now) ==> DueReady(jobs, ready, now)
    {
      hide AllTracked, Faithful, DueReady, OrdersBelow, ReadyEntry, IsMin, Reclaimed, Partly, LapsedRecord,
        Lapses, Ids, LapsedIds, Unrepeated, AllLapse;
      LaterTracked(cfg, jobs, Q(), clock, now);
      changed := [];
      PartlyNone(jobs, now);
      while |leases| > 0
        invariant AllTracked(cfg, jobs, Q(), now) && Faithful(jobs, ready, issued) && OrdersBelow(jobs, lastOrder)
        invariant AllLapse(old(jobs), now, changed) && jobs.Keys == old(jobs).Keys
        invariant jobs == Partly(old(jobs), now, Ids(changed))
        invariant DueReady(old(jobs), old(ready), now) ==> DueReady(jobs, ready, now)
        decreases |leases|
      {
        var e := Top(leases);
        MinKey(leases, e);
        if e.key > now { break; }
        var hit := ReclaimEntry(now, e, issued);
        if hit {
          PartlyMore(old(jobs), now, changed, e.id);
          changed := changed + [e.id];
        }
      }
      NoneLapsed(cfg, jobs, Q(), now);
      PartlyAll(old(jobs), jobs, now, changed);
    }

    /** One turn of the reclaiming loop: takes the entry out and reclaims its job if it lapsed. */
    method ReclaimEntry(now: real, e: Entry, ghost issued: set<JobId>) returns (hit: bool)
      requires AllTracked(cfg, jobs, Q(), now) && Faithful(jobs, ready, issued) && OrdersBelow(jobs, lastOrder)
      requires jobs.Keys <= issued && 0.0 <= now && e in leases && e.key <= now
      modifies this`jobs, this`ready, this`leases
      ensures AllTracked(cfg, jobs, Q(), now) && Faithful(jobs, ready, issued) && OrdersBelow(jobs, lastOrder)
      ensures leases == old(leases) - multiset{e} && jobs.Keys == old(jobs).Keys
      ensures hit <==> e.id in old(jobs) && Lapses(old(jobs)[e.id], now)
      ensures jobs == if hit then old(jobs)[e.id := LapsedRecord(old(jobs)[e.id], now)] else old(jobs)
      ensures DueReady(old(jobs), old(ready), now) ==> DueReady(jobs, ready, now)
    {
      hide AllTracked, Faithful, DueReady, OrdersBelow, ReadyEntry, LapsedRecord, Lapses;
      ghost var q := Q();
      leases := leases - multiset{e};
      hit := e.id in jobs && Lapses(jobs[e.id], now);
      if hit {
        ReclaimJob(now, e, issued, q);
      } else {
        StaleLease(cfg, jobs, q, e, now);
      }
    }

    method ReclaimJob(now: real, e: Entry, ghost issued: set<JobId>, ghost q: Queues)
      requires AllTracked(cfg, jobs, q, now) && Q() == q.(leases := q.leases - multiset{e}) && e in q.leases
      requires Faithful(jobs, ready, issued) && OrdersBelow(jobs, lastOrder) && e.id in issued
      requires 0.0 <= now && e.key <= now && e.id in jobs && Lapses(jobs[e.id], now)
      modifies this`jobs, this`ready
      ensures AllTracked(cfg, jobs, Q(), now) && Faithful(jobs, ready, issued) && OrdersBelow(jobs, lastOrder)
      ensures jobs == old(jobs)[e.id := LapsedRecord(old(jobs)[e.id], now)] && jobs.Keys == old(jobs).Keys
      ensures DueReady(old(jobs), q.ready, now) ==> DueReady(jobs, ready, now)
    {
      hide AllTracked, Faithful, DueReady, OrdersBelow, ReadyEntry, LapsedRecord, Lapses;
      ReclaimRanks(jobs, ready, issued, lastOrder, e.id, now);
      jobs := jobs[e.id := LapsedRecord(jobs[e.id], now)];
      if jobs[e.id].state == Ready {
        ready := ready + multiset{ReadyEntry(e.id, jobs[e.id])};
      }
      ReclaimStep(cfg, old(jobs), jobs, q, Q(), e, now);
    }

    /** Writes the reclaimed jobs one by one; memory is ahead of the storage until the last. */
    method WriteLapsed(now: real, changed: seq<JobId>, ghost t: Table)
      requires OnDisk(cfg, disk, history) && Replay(cfg, history) == t && LastTime(history) <= now
      requires jobs == Reclaimed(t, now) && Unrepeated(changed) && Ids(changed) == LapsedIds(t, now)
      modifies this`disk, this`history, this`crashes
      ensures OnDisk(cfg, disk, history) && Replay(cfg, history) == jobs
      ensures LastTime(old(history)) <= LastTime(history) <= now
      ensures old(history) <= history && Issued(history) == Issued(old(history))
      ensures CrashSafe(cfg, old(crashes), crashes, old(Now()), Now())
    {
      hide OnDisk, Replay, Reclaimed, Partly, LapsedRecord, Lapses, LapsedIds, Issued, Ids, Unrepeated, AllLapse,
        CrashSafe, SingleWrite;
      LapsedStart(t, now, changed);
      CrashSafeNone(cfg, crashes, Now());
      for i := 0 to |changed|
        invariant OnDisk(cfg, disk, history) && Replay(cfg, history) == Partly(t, now, Ids(changed[..i]))
        invariant LastTime(old(history)) <= LastTime(history) <= now
        invariant old(history) <= history && Issued(history) == Issued(old(history))
        invariant CrashSafe(cfg, old(crashes), crashes, old(Now()), Now())
      {
        var id := changed[i];
        LapsedWrite(cfg, t, now, changed, i, disk, history, jobs);
        RecordWrite(disk, id, jobs[id]);
        ghost var m, h := Now(), history + [At(now, Lapsed(id))];
        disk := disk.(records := disk.records[id := jobs[id]]);
        CrashSafeMore(cfg, old(crashes), crashes, old(Now()), m, Crash(disk, h));
        history := h;
        crashes := crashes + [Crash(disk, h)];
      }
      LapsedEnd(t, now, changed);
    }

    /** The popping loop of `claim`, on a table whose leases and delays are up to date. */
    method TakeBest(now: real, lease: real) returns (r: Option<Delivery>)
      requires Valid() && clock == now && DueReady(jobs, ready, now)
      modifies this`jobs, this`ready, this`leases, this`disk, this`history, this`crashes
      ensures Valid()
      ensures r.None? ==> jobs == old(jobs) && history == old(history)
      ensures r.None? ==> forall id | id in jobs :: !Eligible(jobs[id], now)
      ensures r.Some? ==>
        var id := r.value.id;
        && IsBest(old(jobs), now, id)
        && jobs == old(jobs)[id := ClaimedRecord(old(jobs)[id], now, lease)]
        && r.value.job == jobs[id]
        && history == old(history) + [At(now, Claimed(id, lease))]
      ensures CrashSafe(cfg, old(crashes), crashes, old(Now()), Now())
    {
      hide AllTracked, Faithful, DueReady, OrdersBelow, ReadyEntry, IsMin, OnDisk, Replay, Issued, CrashSafe,
        SingleWrite, IsBest;
      CrashSafeNone(cfg, crashes, Now());
      while |ready| > 0
        invariant Valid() && clock == now && DueReady(jobs, ready, now)
        invariant jobs == old(jobs) && Now() == old(Now()) && crashes == old(crashes)
        decreases |ready|
      {
        var e := Top(ready);
        MinKey(ready, e);
        ghost var q := Q();
        ready := ready - multiset{e};
        FaithfulPop(jobs, q.ready, Issued(history), e);
        if e.id in jobs && jobs[e.id].state == Ready && jobs[e.id].notBefore <= now {
          TopIsBest(jobs, q.ready, Issued(history), lastOrder, e, now);
          r := LeaseJob(now, lease, e, q);
          return;
        }
        StaleReady(cfg, jobs, q, e, now);
      }
      NoneDue(jobs, ready, now);
      r := None;
    }

    method LeaseJob(now: real, lease: real, e: Entry, ghost q: Queues) returns (r: Option<Delivery>)
      requires 0.0 <= LastTime(history) <= clock == now && OnDisk(cfg, disk, history) && jobs == Replay(cfg, history)
      requires AllTracked(cfg, jobs, q, now) && Q() == q.(ready := q.ready - multiset{e})
      requires Faithful(jobs, ready, Issued(history)) && OrdersBelow(jobs, lastOrder) && ids == jobs.Keys
      requires e.id in jobs && Eligible(jobs[e.id], now)
      modifies this`jobs, this`leases, this`disk, this`history, this`crashes
      ensures Valid()
      ensures jobs == old(jobs)[e.id := ClaimedRecord(old(jobs)[e.id], now, lease)]
      ensures r == Some(Delivery(e.id, jobs[e.id]))
      ensures history == old(history) + [At(now, Claimed(e.id, lease))]
      ensures CrashSafe(cfg, old(crashes), crashes, old(Now()), Now())
    {
      hide AllTracked, Faithful, OrdersBelow, ReadyEntry, OnDisk, Replay, Issued, CrashSafe, SingleWrite,
        ClaimedRecord, Eligible,
        Enabled, Apply;
      var rec := ClaimedRecord(jobs[e.id], now, lease);
      ClaimedIs(cfg, jobs, now, e.id, lease);
      SameRank(jobs, ready, Issued(history), lastOrder, e.id, rec);
      jobs := jobs[e.id := rec];
      leases := leases + multiset{TimeEntry(now + lease, e.id)};
      ClaimStep(cfg, old(jobs), jobs, q, Q(), e, now, lease);
      WriteJob(now, e.id, Claimed(e.id, lease));
      r := Some(Delivery(e.id, jobs[e.id]));
    }

    /** `_write_job` for a job already indexed: the storage shows the event `v`. */
    method WriteJob(now: real, id: JobId, ghost v: Event)
      requires id in jobs && v.id == id && !v.Enqueued? && LastTime(history) <= now
      requires OnDisk(cfg, disk, history) && id in Replay(cfg, history)
      requires Enabled(cfg, Replay(cfg, history), At(now, v))
      requires Apply(cfg, Replay(cfg, history), At(now, v)) == Replay(cfg, history)[id := jobs[id]]
      modifies this`disk, this`history, this`crashes
      ensures OnDisk(cfg, disk, history) && Replay(cfg, history) == Replay(cfg, old(history))[id := jobs[id]]
      ensures history == old(history) + [At(now, v)] && LastTime(history) == now
        && Issued(history) == Issued(old(history))
      ensures CrashSafe(cfg, old(crashes), crashes, old(Now()), Now())
    {
      hide OnDisk, Replay, Issued, CrashSafe, SingleWrite, Enabled, Apply;
      PutRecord(cfg, disk, history, At(now, v), jobs[id]);
      CrashSafeNone(cfg, crashes, Now());
      RecordWrite(disk, id, jobs[id]);
      ghost var m, h := Now(), history + [At(now, v)];
      disk := disk.(records := disk.records[id := jobs[id]]);
      CrashSafeMore(cfg, old(crashes), crashes, m, m, Crash(disk, h));
      history := h;
      crashes := crashes + [Crash(disk, h)];
    }

    /** `_forget`: erases the record, then rewrites the index; a crash between the two writes
        leaves an index entry without a record. */
    method Forget(now: real, id: JobId, ghost v: Event)
      requires 0.0 <= LastTime(history) <= clock == now && OnDisk(cfg, disk, history) && jobs == Replay(cfg, history)
      requires AllTracked(cfg, jobs - {id}, Q(), now) && Faithful(jobs, ready, Issued(history))
      requires OrdersBelow(jobs, lastOrder) && ids == jobs.Keys
      requires id in jobs && v.id == id && !v.Enqueued?
      requires Enabled(cfg, jobs, At(now, v)) && Apply(cfg, jobs, At(now, v)) == jobs - {id}
      modifies this`jobs, this`ids, this`disk, this`history, this`crashes
      ensures Valid() && jobs == old(jobs) - {id} && history == old(history) + [At(now, v)]
      ensures CrashSafe(cfg, old(crashes), crashes, old(Now()), Now())
    {
      hide AllTracked, Faithful, OrdersBelow, OnDisk, Replay, Issued, CrashSafe, SingleWrite, Enabled, Apply;
      ghost var h := history + [At(now, v)];
      EraseRecord(cfg, disk, history, At(now, v));
      CrashSafeNone(cfg, crashes, Now());
      RemovedRanks(jobs, ready, Issued(history), lastOrder, id);
      RecordWrite(disk, id, jobs[id]);
      jobs := jobs - {id};
      ids := ids - {id};
      disk := disk.(records := disk.records - {id});
      history := h;
      CrashSafeMore(cfg, old(crashes), crashes, old(Now()), old(Now()), Now());
      crashes := crashes + [Now()];
      ghost var m := Now();
      PutIndex(cfg, disk, h, ids);
      IndexWrite(disk, ids);
      disk := disk.(index := ids);
      CrashSafeMore(cfg, old(crashes), crashes, old(Now()), m, Now());
      crashes := crashes + [Now()];
    }

    /** `ack` of a job whose result is kept. */
    method KeepResult(now: real, id: JobId, token: Option<nat>, result: Option<Bytes>)
      requires Valid() && clock == now && cfg.keepResults && id in jobs && HoldsLease(jobs[id], token)
      modifies this`jobs, this`done, this`disk, this`history, this`crashes
      ensures Valid() && jobs == old(jobs)[id := FinishedRecord(old(jobs)[id], now, result)]
      ensures history == old(history) + [At(now, Finished(id, token, result))]
      ensures CrashSafe(cfg, old(crashes), crashes, old(Now()), Now())
    {
      hide AllTracked, Faithful, OrdersBelow, OnDisk, Replay, Issued, CrashSafe, SingleWrite, Enabled, Apply,
        FinishedRecord, HoldsLease, ReadyEntry;
      FinishedIs(cfg, jobs, now, id, token, result);
      var rec := FinishedRecord(jobs[id], now, result);
      SameRank(jobs, ready, Issued(history), lastOrder, id, rec);
      jobs := jobs[id := rec];
      done := done + multiset{TimeEntry(now + cfg.resultTtl, id)};
      DoneTracked(cfg, id, old(jobs)[id], Q(), now, result);
      RewriteTracked(cfg, old(jobs), old(Q()), Q(), id, rec, now);
      WriteJob(now, id, Finished(id, token, result));
    }

    /** `add` in memory. */
    method Insert(now: real, id: JobId, rec: JobRecord)
      requires AllTracked(cfg, jobs, Q(), now) && Faithful(jobs, ready, Issued(history))
      requires OrdersBelow(jobs, lastOrder) && ids == jobs.Keys && id !in Issued(history) && id !in jobs
      requires rec.state == Ready && rec.order == lastOrder + 1
      modifies this`jobs, this`ids, this`ready, this`delayed, this`lastOrder
      ensures AllTracked(cfg, jobs, Q(), now) && Faithful(jobs, ready, Issued(history) + {id})
      ensures OrdersBelow(jobs, lastOrder) && ids == jobs.Keys && jobs == old(jobs)[id := rec]
    {
      hide AllTracked, Faithful, OrdersBelow, Issued, ReadyEntry, Tracked;
      NewIndexed(jobs, ready, Issued(history), lastOrder, id, rec);
      lastOrder := lastOrder + 1;
      jobs := jobs[id := rec];
      ids := ids + {id};
      OfferReady(now, id);
      OfferedFaithful(jobs, old(ready), ready, Issued(history) + {id}, id);
      OfferedTracked(cfg, id, rec, Q(), now);
      RewriteTracked(cfg, old(jobs), old(Q()), Q(), id, rec, now);
    }

    /** `nack` in memory: a job with attempts left is offered again. */
    method Requeue(now: real, id: JobId, rec: JobRecord)
      requires AllTracked(cfg, jobs, Q(), now) && Faithful(jobs, ready, Issued(history))
      requires OrdersBelow(jobs, lastOrder) && id in Issued(history) && id in jobs
      requires rec.priority == jobs[id].priority && rec.order == jobs[id].order && rec.state in {Ready, Dead}
      modifies this`jobs, this`ready, this`delayed
      ensures AllTracked(cfg, jobs, Q(), now) && Faithful(jobs, ready, Issued(history))
      ensures OrdersBelow(jobs, lastOrder) && jobs == old(jobs)[id := rec]
    {
      hide AllTracked, Faithful, OrdersBelow, Issued, ReadyEntry, Tracked;
      SameRank(jobs, ready, Issued(history), lastOrder, id, rec);
      jobs := jobs[id := rec];
      if rec.state == Ready {
        OfferReady(now, id);
        OfferedFaithful(jobs, old(ready), ready, Issued(history), id);
        OfferedTracked(cfg, id, rec, Q(), now);
      }
      RewriteTracked(cfg, old(jobs), old(Q()), Q(), id, rec, now);
    }

    /** `add`'s two writes: the record, still invisible, then the index. */
    method WriteNew(now: real, id: JobId)
      requires OnDisk(cfg, disk, history) && id in jobs && id !in Issued(history) && LastTime(history) <= now
      requires ids == Replay(cfg, history).Keys + {id}
      requires Enabled(cfg, Replay(cfg, history), At(now, Enqueued(id, jobs[id])))
      modifies this`disk, this`history, this`crashes
      ensures history == old(history) + [At(now, Enqueued(id, jobs[id]))] && LastTime(history) == now
      ensures OnDisk(cfg, disk, history) && Replay(cfg, history) == Replay(cfg, old(history))[id := jobs[id]]
      ensures Issued(history) == Issued(old(history)) + {id}
      ensures CrashSafe(cfg, old(crashes), crashes, old(Now()), Now())
    {
      hide OnDisk, Replay, Issued, CrashSafe, SingleWrite, Enabled;
      CrashSafeNone(cfg, crashes, Now());
      PutUnindexed(cfg, disk, history, id, jobs[id]);
      RecordWrite(disk, id, jobs[id]);
      disk := disk.(records := disk.records[id := jobs[id]]);
      CrashSafeMore(cfg, old(crashes), crashes, old(Now()), old(Now()), Now());
      crashes := crashes + [Now()];
      ghost var m := Now();

      ghost var h := history + [At(now, Enqueued(id, jobs[id]))];
      IndexNew(cfg, disk, history, now, id, jobs[id]);
      IndexWrite(disk, ids);
      disk := disk.(index := ids);
      history := h;
      CrashSafeMore(cfg, old(crashes), crashes, old(Now()), m, Now());
      crashes := crashes + [Now()];
    }

    // ---- Operations ----

    /** Puts a job on the queue under a fresh id. The enqueue becomes visible with the index write. */
    method Add(now: real, id: JobId, data: Bytes, maxAttempts: nat, priority: int, delay: real, wf: Workflow)
      returns (r: JobId)
      requires Valid() && clock <= now && maxAttempts >= 1 && id !in Issued(history)
      modifies this
      ensures Valid() && clock == now && r == id && id !in old(jobs)
      ensures AddEffect(old(jobs), jobs, now, id, data, maxAttempts, priority, delay, wf)
      ensures jobs == old(jobs)[id := NewRecord(data, maxAttempts, priority, old(lastOrder) + 1, now, delay, wf)]
      ensures history == old(history) + [At(now, Enqueued(id, jobs[id]))]
      ensures CrashSafe(cfg, old(crashes), crashes, old(Now()), Now())
    {
      hide AllTracked, Faithful, OrdersBelow, OnDisk, Replay, Issued, CrashSafe, SingleWrite, Enabled, NewRecord,
        AddEffect;
      DiskIssued(cfg, disk, history);
      LaterTracked(cfg, jobs, Q(), clock, now);
      var rec := NewRecord(data, maxAttempts, priority, lastOrder + 1, now, delay, wf);
      NewIs(cfg, jobs, data, maxAttempts, priority, lastOrder, now, delay, wf, id);
      Adds(jobs, lastOrder, now, id, data, maxAttempts, priority, delay, wf);
      clock := now;
      Insert(now, id, rec);
      WriteNew(now, id);
      r := id;
    }

    /** Leases the job a linear scan would pick, after reclaiming every lapsed lease; answers
        nothing only when no job is due. */
    method Claim(now: real, lease: real) returns (r: Option<Delivery>)
      requires Valid() && clock <= now
      modifies this
      ensures Valid() && clock == now && ClaimEffect(old(jobs), jobs, now, lease, r)
      ensures var t := Reclaimed(old(jobs), now);
        match r
        case None => jobs == t && forall id | id in t :: !Eligible(t[id], now)
        case Some(d) =>
          IsBest(t, now, d.id) && jobs == t[d.id := ClaimedRecord(t[d.id], now, lease)] && d.job == jobs[d.id]
      ensures old(history) <= history
      ensures r.Some? ==> |history| > 0 && history[|history| - 1] == At(now, Claimed(r.value.id, lease))
      ensures CrashSafe(cfg, old(crashes), crashes, old(Now()), Now())
    {
      hide AllTracked, Faithful, OrdersBelow, OnDisk, Replay, Issued, CrashSafe, SingleWrite, DueReady, IsBest,
        Reclaimed, LapsedIds, Eligible, ClaimedRecord, ClaimEffect;
      DiskIssued(cfg, disk, history);
      ghost var issued := Issued(history);
      MatureDelayed(now, issued);
      clock := now;
      ghost var t := jobs;
      var changed := ReclaimLeases(now, issued);
      ReclaimedKeys(t, now);
      WriteLapsed(now, changed, t);
      ghost var c, h := crashes, Now();
      r := TakeBest(now, lease);
      Claims(t, jobs, now, lease, r);
      CrashSafeTrans(cfg, old(crashes), c, crashes, old(Now()), h, Now());
    }

    /** Accepted from the current claimant only; keeps the result or forgets the job. */
    method Ack(now: real, id: JobId, result: Option<Bytes>, token: Option<nat>) returns (ok: bool)
      requires Valid() && clock <= now
      modifies this
      ensures Valid() && clock == now && AckEffect(cfg, old(jobs), jobs, now, id, result, token, ok)
      ensures ok <==> id in old(jobs) && HoldsLease(old(jobs)[id], token)
      ensures !ok ==> jobs == old(jobs) && history == old(history)
      ensures ok ==> jobs == if cfg.keepResults then old(jobs)[id := FinishedRecord(old(jobs)[id], now, result)]
        else old(jobs) - {id}
      ensures ok ==> history == old(history) + [At(now, Finished(id, token, result))]
      ensures CrashSafe(cfg, old(crashes), crashes, old(Now()), Now())
    {
      hide AllTracked, Faithful, OrdersBelow, OnDisk, Replay, Issued, CrashSafe, SingleWrite, Enabled, Apply,
        FinishedRecord, HoldsLease, ReadyEntry, AckEffect;
      LaterTracked(cfg, jobs, Q(), clock, now);
      CrashSafeNone(cfg, crashes, Now());
      clock := now;
      ok := id in jobs && HoldsLease(jobs[id], token);
      if ok {
        FinishedIs(cfg, jobs, now, id, token, result);
        if cfg.keepResults {
          KeepResult(now, id, token, result);
        } else {
          RemovedTracked(cfg, jobs, Q(), id, now);
          Forget(now, id, Finished(id, token, result));
        }
      }
      Acks(cfg, old(jobs), jobs, now, id, result, token, ok);
    }

    /** `Some(true)` is "requeued", `Some(false)` is "dead", `None` a refusal. */
    method Nack(now: real, id: JobId, error: Option<string>, delay: real, token: Option<nat>) returns (r: Option<bool>)
      requires Valid() && clock <= now
      modifies this
      ensures Valid() && clock == now && NackEffect(old(jobs), jobs, now, id, error, delay, token, r)
      ensures r.Some? <==> id in old(jobs) && HoldsLease(old(jobs)[id], token)
      ensures r.None? ==> jobs == old(jobs) && history == old(history)
      ensures r.Some? ==> r.value == (old(jobs)[id].attempts < old(jobs)[id].maxAttempts)
      ensures r.Some? ==> jobs == old(jobs)[id := FailedRecord(old(jobs)[id], now, error, delay)]
      ensures r.Some? ==> history == old(history) + [At(now, Failed(id, token, error, delay))]
      ensures CrashSafe(cfg, old(crashes), crashes, old(Now()), Now())
    {
      hide AllTracked, Faithful, OrdersBelow, OnDisk, Replay, Issued, CrashSafe, SingleWrite, Enabled, Apply,
        FailedRecord, HoldsLease, NackEffect;
      LaterTracked(cfg, jobs, Q(), clock, now);
      CrashSafeNone(cfg, crashes, Now());
      clock := now;
      if id !in jobs || !HoldsLease(jobs[id], token) {
        Nacks(jobs, jobs, now, id, error, delay, token, None);
        return None;
      }
      FailedIs(cfg, jobs, now, id, token, error, delay);
      DiskIssued(cfg, disk, history);
      FailedState(jobs[id], now, error, delay);
      r := Some(jobs[id].attempts < jobs[id].maxAttempts);
      Requeue(now, id, FailedRecord(jobs[id], now, error, delay));
      WriteJob(now, id, Failed(id, token, error, delay));
      Nacks(old(jobs), jobs, now, id, error, delay, token, r);
    }

    /** Reclaims lapsed leases, then purges results and dead letters past their time to live. */
    method Sweep(now: real) returns (n: nat)
      requires Valid() && clock <= now
      modifies this
      ensures Valid() && clock == now && SweepEffect(cfg, old(jobs), jobs, now, n)
      ensures jobs == Swept(cfg, old(jobs), now) && n == |LapsedIds(old(jobs), now)|
      ensures old(history) <= history
      ensures CrashSafe(cfg, old(crashes), crashes, old(Now()), Now())
    {
      hide AllTracked, Faithful, OrdersBelow, OnDisk, Replay, Issued, CrashSafe, SingleWrite, DueReady, Reclaimed,
        LapsedIds, Swept, PartlySwept, ExpiredDead, Unrepeated, Ids, Purgeable, SweepEffect;
      DiskIssued(cfg, disk, history);
      ghost var t := jobs;
      var changed := ReclaimLeases(now, Issued(history));
      clock := now;
      ReclaimedKeys(t, now);
      WriteLapsed(now, changed, t);
      CountIds(changed);
      n := |changed|;
      ghost var c, h, u := crashes, Now(), jobs;
      PurgeResults(now);
      ghost var c', h' := crashes, Now();
      CrashSafeTrans(cfg, old(crashes), c, c', old(Now()), h, h');
      PurgeDead(now, u);
      CrashSafeTrans(cfg, old(crashes), c', crashes, old(Now()), h', Now());
      SweptAll(cfg, t, jobs, now);
      SweepsCounted(cfg, t, now);
    }

    method PurgeResults(now: real)
      requires Valid() && clock == now
      modifies this`jobs, this`ids, this`done, this`disk, this`history, this`crashes
      ensures Valid() && PartlySwept(cfg, old(jobs), jobs, now)
      ensures forall id | id in jobs && jobs[id].state == Done :: !Purgeable(cfg, jobs[id], now)
      ensures old(history) <= history && CrashSafe(cfg, old(crashes), crashes, old(Now()), Now())
    {
      hide AllTracked, Faithful, OrdersBelow, OnDisk, Replay, Issued, CrashSafe, SingleWrite, IsMin, PartlySwept,
        Enabled, Apply;
      CrashSafeNone(cfg, crashes, Now());
      NothingSwept(cfg, jobs, now);
      while |done| > 0
        invariant Valid() && PartlySwept(cfg, old(jobs), jobs, now)
        invariant old(history) <= history && CrashSafe(cfg, old(crashes), crashes, old(Now()), Now())
        decreases |done|
      {
        var e := Top(done);
        MinKey(done, e);
        if e.key > now { break; }
        StaleDone(cfg, jobs, Q(), e, now);
        done := done - multiset{e};
        if e.id in jobs && jobs[e.id].state == Done && jobs[e.id].completedAt + cfg.resultTtl <= now {
          SweptOne(cfg, old(jobs), jobs, now, e.id);
          ghost var c, h := crashes, Now();
          Forget(now, e.id, Purged(e.id));
          CrashSafeTrans(cfg, old(crashes), c, crashes, old(Now()), h, Now());
        }
      }
      NoResultDue(cfg, jobs, Q(), now);
    }

    method PurgeDead(now: real, ghost u: Table)
      requires Valid() && clock == now && PartlySwept(cfg, u, jobs, now)
      requires forall id | id in jobs && jobs[id].state == Done :: !Purgeable(cfg, jobs[id], now)
      modifies this`jobs, this`ids, this`disk, this`history, this`crashes
      ensures Valid() && PartlySwept(cfg, u, jobs, now) && ExpiredDead(cfg, jobs, now) == {}
      ensures forall id | id in jobs && jobs[id].state == Done :: !Purgeable(cfg, jobs[id], now)
      ensures old(history) <= history && CrashSafe(cfg, old(crashes), crashes, old(Now()), Now())
    {
      hide AllTracked, Faithful, OrdersBelow, OnDisk, Replay, Issued, CrashSafe, SingleWrite, PartlySwept, ExpiredDead,
        Purgeable, Enabled, Apply;
      CrashSafeNone(cfg, crashes, Now());
      var expired := ExpiredDead(cfg, jobs, now);
      while expired != {}
        invariant Valid() && PartlySwept(cfg, u, jobs, now) && expired == ExpiredDead(cfg, jobs, now)
        invariant forall id | id in jobs && jobs[id].state == Done :: !Purgeable(cfg, jobs[id], now)
        invariant old(history) <= history && CrashSafe(cfg, old(crashes), crashes, old(Now()), Now())
        decreases expired
      {
        var id :| id in expired;
        DeadOne(cfg, jobs, now, id, expired);
        SweptOne(cfg, u, jobs, now, id);
        RemovedTracked(cfg, jobs, Q(), id, now);
        ghost var c, h := crashes, Now();
        Forget(now, id, Purged(id));
        CrashSafeTrans(cfg, old(crashes), c, crashes, old(Now()), h, Now());
        expired := expired - {id};
      }
    }

    // ---- Start and recovery ----

    /** A store before `load`, on a storage that a crash left showing `history`. */
    constructor (cfg: Config, disk: Disk, ghost history: History)
      ensures this.cfg == cfg && this.disk == disk && this.history == history && Unloaded()
    {
      this.cfg := cfg;
      jobs, ids, lastOrder := map[], {}, 0;
      ready, delayed, leases, done := multiset{}, multiset{}, multiset{}, multiset{};
      this.disk := disk;
      this.history := history;
      clock, crashes := 0.0, [];
    }

    predicate Unloaded()
      reads this
    {
      && jobs == map[] && ids == {} && lastOrder == 0
      && Queues(ready, delayed, leases, done) == Queues(multiset{}, multiset{}, multiset{}, multiset{})
    }

    /** After a crash at any point the fresh store holds the table the storage shows, and is ready
        for every operation: the run goes on from the same history. */
    method Load(now: real)
      requires Unloaded() && OnDisk(cfg, disk, history) && LastTime(history) <= now
      modifies this`jobs, this`ids, this`ready, this`delayed, this`leases, this`done, this`lastOrder, this`clock
      ensures Valid() && clock == now
      ensures jobs == Recover(disk) == Replay(cfg, history)
    {
      hide AllTracked, Faithful, OrdersBelow, Replay, Issued, Legal, Restricted, DistinctOrders, ReadyKnown, PartOf;
      RecoveryFacts(cfg, disk, history);
      clock := now;
      var index := disk.index;
      ghost var seen: set<JobId>, t := {}, Recover(disk);
      NothingLoaded(cfg, t, Q(), now, Issued(history));
      while index != {}
        invariant clock == now && seen + index == disk.index && seen !! index
        invariant jobs == Restricted(t, seen) && ids == jobs.Keys && ReadyKnown(jobs, ready)
        invariant AllTracked(cfg, jobs, Q(), now) && Faithful(jobs, ready, Issued(history))
          && OrdersBelow(jobs, lastOrder)
        decreases index
      {
        var id :| id in index;
        index := index - {id};
        LoadedMore(t, seen, id);
        if id in disk.records {
          LoadJob(now, id, disk.records[id], t);
        }
        seen := seen + {id};
      }
      AllLoaded(t, seen);
    }

    /** One record read back, put where its state belongs. */
    method LoadJob(now: real, id: JobId, rec: JobRecord, ghost t: Table)
      requires AllTracked(cfg, jobs, Q(), now) && Faithful(jobs, ready, Issued(history)) && OrdersBelow(jobs, lastOrder)
      requires ids == jobs.Keys && id !in jobs && id in Issued(history) && ReadyKnown(jobs, ready)
      requires DistinctOrders(t) && id in t && t[id] == rec && PartOf(jobs, t)
      modifies this`jobs, this`ids, this`ready, this`delayed, this`leases, this`done, this`lastOrder
      ensures AllTracked(cfg, jobs, Q(), now) && Faithful(jobs, ready, Issued(history)) && OrdersBelow(jobs, lastOrder)
      ensures jobs == old(jobs)[id := rec] && ids == jobs.Keys && ReadyKnown(jobs, ready)
    {
      hide AllTracked, Faithful, OrdersBelow, Issued, DistinctOrders, ReadyKnown, ReadyEntry, Tracked, PartOf, OnlyMore;
      ghost var u, q, issued := jobs, Q(), Issued(history);
      LoadRanks(t, u, q.ready, issued, lastOrder, id);
      jobs, ids, lastOrder := jobs[id := rec], ids + {id}, if lastOrder < rec.order then rec.order else lastOrder;
      Place(now, id);
      Placed(cfg, u, q, Q(), issued, id, rec, now);
    }

    method Place(now: real, id: JobId)
      requires id in jobs
      modifies this`ready, this`delayed, this`leases, this`done
      ensures Tracked(cfg, id, jobs[id], Q(), now) && OnlyMore(old(Q()), Q(), ReadyEntry(id, jobs[id]))
    {
      var rec := jobs[id];
      match rec.state {
        case Ready => OfferReady(now, id);
        case Leased => leases := leases + multiset{TimeEntry(rec.leaseUntil, id)};
        case Done => done := done + multiset{TimeEntry(rec.completedAt + cfg.resultTtl, id)};
        case Dead =>
      }
    }
  }
}

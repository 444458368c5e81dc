/** The write-through storage of a queue, and what a crash after any write leaves on it. */
module QueueDisk {
  import opened JobTable

  /** The index of job ids, and one record per job key. */
  datatype Disk = Disk(index: set<JobId>, records: Table)

  /** What `load` finds: indexed ids whose record is there. */
  function Recover(d: Disk): Table {
    map id | id in d.index && id in d.records :: d.records[id]
  }

  /** The storage shows exactly the table after the legal history `h`. */
  ghost predicate OnDisk(cfg: Config, d: Disk, h: History) {
    Legal(cfg, h) && Recover(d) == Replay(cfg, h) && d.index <= Issued(h)
  }

  /** The storage as a crash right after some write would leave it, and the events it shows. */
  datatype Crash = Crash(disk: Disk, history: History)

  /** One `put` or `delete` of a record, or one `put` of the index. */
  ghost predicate SingleWrite(d: Disk, e: Disk) {
    d.records == e.records || (d.index == e.index && exists id :: d.records - {id} == e.records - {id})
  }

  /** From `c0` to `c1` the storage changed by single writes, the states after which `after` lists
      beyond `before`; a crash at any of them recovers the table of a legal history that holds all
      of `c0`'s and nothing beyond `c1`'s; and after the last of them it shows all of `c1`'s. */
  ghost predicate CrashSafe(cfg: Config, before: seq<Crash>, after: seq<Crash>, c0: Crash, c1: Crash) {
    && before <= after
    && (forall i | |before| <= i < |after| ::
          && OnDisk(cfg, after[i].disk, after[i].history)
          && c0.history <= after[i].history <= c1.history
          && SingleWrite(if i == |before| then c0.disk else after[i - 1].disk, after[i].disk))
    && c1 == (if |after| == |before| then c0 else after[|after| - 1])
  }

  lemma CrashSafeNone(cfg: Config, a: seq<Crash>, c: Crash)
    ensures CrashSafe(cfg, a, a, c, c)
  {
  }

  lemma CrashSafeMore(cfg: Config, a: seq<Crash>, b: seq<Crash>, c0: Crash, c1: Crash, c: Crash)
    requires CrashSafe(cfg, a, b, c0, c1) && OnDisk(cfg, c.disk, c.history)
    requires c0.history <= c1.history <= c.history && SingleWrite(c1.disk, c.disk)
    ensures CrashSafe(cfg, a, b + [c], c0, c)
  {
    hide OnDisk, SingleWrite;
  }

  lemma CrashSafeTrans(cfg: Config, a: seq<Crash>, b: seq<Crash>, c: seq<Crash>, c0: Crash, c1: Crash, c2: Crash)
    requires CrashSafe(cfg, a, b, c0, c1) && CrashSafe(cfg, b, c, c1, c2) && c0.history <= c1.history <= c2.history
    ensures CrashSafe(cfg, a, c, c0, c2)
  {
    hide OnDisk, SingleWrite;
  }

  lemma RecordWrite(d: Disk, id: JobId, r: JobRecord)
    ensures SingleWrite(d, d.(records := d.records[id := r])) && SingleWrite(d, d.(records := d.records - {id}))
  {
  }

  lemma IndexWrite(d: Disk, ids: set<JobId>)
    ensures SingleWrite(d, d.(index := ids))
  {
  }

  /** Rewriting a known job's record shows one more event. */
  lemma PutRecord(cfg: Config, d: Disk, h: History, s: Stamped, r: JobRecord)
    requires OnDisk(cfg, d, h) && Enabled(cfg, Replay(cfg, h), s) && LastTime(h) <= s.now
    requires !s.event.Enqueued? && s.event.id in Replay(cfg, h)
    requires Apply(cfg, Replay(cfg, h), s) == Replay(cfg, h)[s.event.id := r]
    ensures OnDisk(cfg, d.(records := d.records[s.event.id := r]), h + [s])
    ensures Replay(cfg, h + [s]) == Replay(cfg, h)[s.event.id := r] && LastTime(h + [s]) == s.now
    ensures Issued(h + [s]) == Issued(h)
  {
    hide Enabled, Apply, Issued;
    LegalStep(cfg, h, s);
    hide Legal, Replay;
    assert s.event.id in Recover(d);
  }

  /** Erasing a job's record shows one more event, even before the index is rewritten. */
  lemma EraseRecord(cfg: Config, d: Disk, h: History, s: Stamped)
    requires OnDisk(cfg, d, h) && Enabled(cfg, Replay(cfg, h), s) && LastTime(h) <= s.now
    requires !s.event.Enqueued? && Apply(cfg, Replay(cfg, h), s) == Replay(cfg, h) - {s.event.id}
    ensures OnDisk(cfg, d.(records := d.records - {s.event.id}), h + [s])
    ensures Replay(cfg, h + [s]) == Replay(cfg, h) - {s.event.id} && LastTime(h + [s]) == s.now
    ensures Issued(h + [s]) == Issued(h)
  {
    hide Enabled, Apply, Issued;
    LegalStep(cfg, h, s);
    hide Legal, Replay;
  }

  /** Rewriting the index with the ids in the table shows nothing new. */
  lemma PutIndex(cfg: Config, d: Disk, h: History, ids: set<JobId>)
    requires OnDisk(cfg, d, h) && ids == Replay(cfg, h).Keys
    ensures OnDisk(cfg, d.(index := ids), h)
  {
  }

  /** The record of a job not indexed yet is invisible. */
  lemma PutUnindexed(cfg: Config, d: Disk, h: History, id: JobId, r: JobRecord)
    requires OnDisk(cfg, d, h) && id !in Issued(h)
    ensures OnDisk(cfg, d.(records := d.records[id := r]), h)
  {
  }

  /** Indexing it makes the enqueue visible. */
  lemma IndexNew(cfg: Config, d: Disk, h: History, now: real, id: JobId, r: JobRecord)
    requires OnDisk(cfg, d, h) && id in d.records && d.records[id] == r && id !in Issued(h)
    requires Enabled(cfg, Replay(cfg, h), At(now, Enqueued(id, r))) && LastTime(h) <= now
    ensures OnDisk(cfg, d.(index := Replay(cfg, h).Keys + {id}), h + [At(now, Enqueued(id, r))])
    ensures Replay(cfg, h + [At(now, Enqueued(id, r))]) == Replay(cfg, h)[id := r]
    ensures LastTime(h + [At(now, Enqueued(id, r))]) == now
    ensures Issued(h + [At(now, Enqueued(id, r))]) == Issued(h) + {id}
  {
    LegalStep(cfg, h, At(now, Enqueued(id, r)));
    hide Enabled, Issued, Legal, Replay;
    assert Replay(cfg, h).Keys <= d.index;
  }
}

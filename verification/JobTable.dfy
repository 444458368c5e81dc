/** The job table of one queue, as every operation of `QueueStore` is meant to change it. */
module JobTable {
  import opened Options

  type JobId = nat       // a version 4 UUID
  type Queue = nat       // a queue prefix
  datatype Bytes = Bytes(content: string)

  /** A workflow continuation, opaque to the store: the queues still to run, or a chord slot. */
  datatype Workflow = NoWorkflow | Chain(rest: seq<Queue>) | Chord(chord: nat, index: int, size: int)

  datatype JobState = Ready | Leased | Dead | Done

  datatype JobRecord = JobRecord(
    data: Bytes,
    state: JobState,
    attempts: nat,
    maxAttempts: nat,
    leaseUntil: real,
    notBefore: real,
    priority: int,
    order: nat,              // `seq`
    lastError: Option<string>,
    result: Option<Bytes>,
    completedAt: real,
    wf: Workflow)

  datatype Config = Config(keepResults: bool, resultTtl: real, deadLetterTtl: Option<real>)

  type Table = map<JobId, JobRecord>

  // ---- One job ----

  /** A lease that ran out: back to ready, or dead once the attempts are used up. */
  function LapsedRecord(r: JobRecord, now: real): JobRecord {
    if r.attempts >= r.maxAttempts then
      r.(state := Dead, completedAt := now,
         lastError := if r.lastError in {None, Some("")} then Some("lease expired") else r.lastError)
    else
      r.(state := Ready, leaseUntil := 0.0, notBefore := 0.0)
  }

  function ClaimedRecord(r: JobRecord, now: real, lease: real): JobRecord {
    r.(state := Leased, attempts := r.attempts + 1, leaseUntil := now + lease)
  }

  function FinishedRecord(r: JobRecord, now: real, result: Option<Bytes>): JobRecord {
    r.(state := Done, result := result, completedAt := now, leaseUntil := 0.0)
  }

  function DueAt(now: real, delay: real): real {
    if delay > 0.0 then now + delay else 0.0
  }

  function FailedRecord(r: JobRecord, now: real, error: Option<string>, delay: real): JobRecord {
    if r.attempts >= r.maxAttempts then
      r.(lastError := error, state := Dead, completedAt := now)
    else
      r.(lastError := error, state := Ready, leaseUntil := 0.0, notBefore := DueAt(now, delay))
  }

  /** The lease has run out. */
  predicate Lapses(r: JobRecord, now: real) {
    r.state == Leased && r.leaseUntil <= now
  }

  predicate Eligible(r: JobRecord, now: real) {
    r.state == Ready && r.notBefore <= now
  }

  /** `_holds_lease`: a settlement is accepted only from the current claimant. */
  predicate HoldsLease(r: JobRecord, token: Option<nat>) {
    r.state == Leased && (token.None? || r.attempts == token.value)
  }

  /** A kept result or a dead letter whose time to live is over. A dead letter stamped zero is
      never purged, as the source tests the stamp for truth. */
  predicate Purgeable(cfg: Config, r: JobRecord, now: real) {
    || (r.state == Done && r.completedAt + cfg.resultTtl <= now)
    || (r.state == Dead && cfg.deadLetterTtl.Some? && r.completedAt != 0.0
        && r.completedAt + cfg.deadLetterTtl.value <= now)
  }

  // ---- The table ----

  /** Every lapsed lease reclaimed. */
  function Reclaimed(t: Table, now: real): Table {
    map id | id in t :: if Lapses(t[id], now) then LapsedRecord(t[id], now) else t[id]
  }

  function Swept(cfg: Config, t: Table, now: real): Table {
    var u := Reclaimed(t, now);
    map id | id in u && !Purgeable(cfg, u[id], now) :: u[id]
  }

  /** First served: greater priority, then older. */
  predicate ServedBefore(r: JobRecord, s: JobRecord) {
    r.priority > s.priority || (r.priority == s.priority && r.order < s.order)
  }

  /** What a linear scan of the table for the next job would pick. */
  ghost predicate IsBest(t: Table, now: real, id: JobId) {
    && id in t && Eligible(t[id], now)
    && forall other | other in t && Eligible(t[other], now) && other != id :: ServedBefore(t[id], t[other])
  }

  /** At most one job is best, so `IsBest` determines the answer. */
  lemma BestUnique(t: Table, now: real, a: JobId, b: JobId)
    requires IsBest(t, now, a) && IsBest(t, now, b)
    ensures a == b
  {
  }

  // ---- Events ----

  /** The changes of the table that a reader of the storage can tell apart. */
  datatype Event =
    | Enqueued(id: JobId, record: JobRecord)
    | Lapsed(id: JobId)
    | Claimed(id: JobId, lease: real)
    | Finished(id: JobId, token: Option<nat>, result: Option<Bytes>)                // accepted ack
    | Failed(id: JobId, token: Option<nat>, error: Option<string>, delay: real)     // accepted nack
    | Purged(id: JobId)

  datatype Stamped = At(now: real, event: Event)

  type History = seq<Stamped>

  /** A job as `add` creates it. */
  predicate IsNew(r: JobRecord) {
    && r.state == Ready && r.attempts == 0 && r.maxAttempts >= 1
    && r.leaseUntil == 0.0 && r.lastError == None && r.result == None && r.completedAt == 0.0
  }

  ghost predicate Enabled(cfg: Config, t: Table, s: Stamped) {
    match s.event
    case Enqueued(id, r) => id !in t && IsNew(r) && forall o | o in t :: t[o].order < r.order
    case Lapsed(id) => id in t && Lapses(t[id], s.now)
    case Claimed(id, _) => id in t && Eligible(t[id], s.now)
    case Finished(id, token, _) => id in t && HoldsLease(t[id], token)
    case Failed(id, token, _, _) => id in t && HoldsLease(t[id], token)
    case Purged(id) => id in t && Purgeable(cfg, t[id], s.now)
  }

  function Apply(cfg: Config, t: Table, s: Stamped): Table {
    match s.event
    case Enqueued(id, r) => t[id := r]
    case Lapsed(id) => if id in t then t[id := LapsedRecord(t[id], s.now)] else t
    case Claimed(id, lease) => if id in t then t[id := ClaimedRecord(t[id], s.now, lease)] else t
    case Finished(id, _, result) =>
      if id in t && cfg.keepResults then t[id := FinishedRecord(t[id], s.now, result)] else t - {id}
    case Failed(id, _, error, delay) => if id in t then t[id := FailedRecord(t[id], s.now, error, delay)] else t
    case Purged(id) => t - {id}
  }

  function Replay(cfg: Config, h: History): Table {
    if h == [] then map[] else Apply(cfg, Replay(cfg, h[..|h| - 1]), h[|h| - 1])
  }

  ghost function Issued(h: History): set<JobId> {
    set s | s in h && s.event.Enqueued? :: s.event.id
  }

  function LastTime(h: History): real {
    if h == [] then 0.0 else h[|h| - 1].now
  }

  /** Each event was possible when it happened, clocks never ran back, and no id was reused. */
  ghost predicate Legal(cfg: Config, h: History) {
    h == [] ||
    (var p, s := h[..|h| - 1], h[|h| - 1];
     && Legal(cfg, p) && Enabled(cfg, Replay(cfg, p), s) && LastTime(p) <= s.now
     && (s.event.Enqueued? ==> s.event.id !in Issued(p)))
  }

  lemma LegalStep(cfg: Config, h: History, s: Stamped)
    requires Legal(cfg, h) && Enabled(cfg, Replay(cfg, h), s) && LastTime(h) <= s.now
    requires s.event.Enqueued? ==> s.event.id !in Issued(h)
    ensures Legal(cfg, h + [s]) && Replay(cfg, h + [s]) == Apply(cfg, Replay(cfg, h), s)
    ensures LastTime(h + [s]) == s.now
    ensures Issued(h + [s]) == if s.event.Enqueued? then Issued(h) + {s.event.id} else Issued(h)
  {
    assert (h + [s])[..|h|] == h;
    hide Enabled, Apply;
  }

  lemma {:induction false} LegalPrefix(cfg: Config, h: History, n: nat)
    requires Legal(cfg, h) && n <= |h|
    ensures Legal(cfg, h[..n])
    decreases |h|
  {
    if n < |h| {
      LegalPrefix(cfg, h[..|h| - 1], n);
      assert h[..|h| - 1][..n] == h[..n];
    } else {
      assert h[..n] == h;
    }
  }

  lemma StepAt(cfg: Config, h: History, n: nat)
    requires Legal(cfg, h) && n < |h|
    ensures Legal(cfg, h[..n]) && Legal(cfg, h[..n + 1])
    ensures Enabled(cfg, Replay(cfg, h[..n]), h[n])
    ensures Replay(cfg, h[..n + 1]) == Apply(cfg, Replay(cfg, h[..n]), h[n])
    ensures h[n].event.Enqueued? ==> h[n].event.id !in Issued(h[..n])
    ensures LastTime(h[..n]) <= h[n].now
  {
    LegalPrefix(cfg, h, n);
    LegalPrefix(cfg, h, n + 1);
    assert h[..n + 1][..n] == h[..n];
    hide Enabled, Apply;
  }

  lemma {:induction false} TimesAscend(cfg: Config, h: History, i: nat, j: nat)
    requires Legal(cfg, h) && i <= j < |h|
    ensures h[i].now <= h[j].now
    decreases j
  {
    if i < j {
      StepAt(cfg, h, j);
      TimesAscend(cfg, h, i, j - 1);
    }
  }
}

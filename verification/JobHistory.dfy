/** What holds over every run of a queue, owner crashes included: a run is a legal history. */
module JobHistory {
  import opened JobTable
  import opened Options

  ghost predicate ClaimAt(h: History, i: nat, id: JobId) {
    i < |h| && h[i].event.Claimed? && h[i].event.id == id
  }

  ghost predicate SettledAt(h: History, j: nat, id: JobId) {
    j < |h| && (h[j].event.Finished? || h[j].event.Failed?) && h[j].event.id == id
  }

  /** No event of job `id` strictly between `i` and `j`. */
  ghost predicate SilentBetween(h: History, i: int, j: int, id: JobId)
    requires -1 <= i && j <= |h|
  {
    forall k | i < k < j :: h[k].event.id != id
  }

  /** The last event of job `id`, or -1. */
  ghost function LastOf(h: History, id: JobId): (n: int)
    ensures -1 <= n < |h|
    ensures n >= 0 ==> h[n].event.id == id
    ensures SilentBetween(h, n, |h|, id)
  {
    if h == [] then -1
    else if h[|h| - 1].event.id == id then |h| - 1
    else
      var n := LastOf(h[..|h| - 1], id);
      assert forall k | 0 <= k < |h| - 1 :: h[..|h| - 1][k] == h[k];
      n
  }

  /** What the last event of a job says about it now, field by field. */
  ghost predicate AsLeft(cfg: Config, t: Table, s: Stamped) {
    var id := s.event.id;
    match s.event
    case Enqueued(_, r) => id in t && t[id] == r && IsNew(r)
    case Claimed(_, lease) => id in t && t[id].state == Leased && t[id].leaseUntil == s.now + lease
    case Lapsed(_) =>
      && id in t
      && if t[id].attempts < t[id].maxAttempts then t[id].state == Ready && t[id].notBefore == 0.0
         else t[id].state == Dead && t[id].completedAt == s.now && t[id].lastError !in {None, Some("")}
    case Failed(_, _, error, delay) =>
      && id in t && t[id].lastError == error
      && if t[id].attempts < t[id].maxAttempts then
           t[id].state == Ready && t[id].notBefore == if delay > 0.0 then s.now + delay else 0.0
         else
           t[id].state == Dead && t[id].completedAt == s.now
    case Finished(_, _, result) =>
      if cfg.keepResults then
        id in t && t[id].state == Done && t[id].result == result && t[id].completedAt == s.now
      else
        id !in t
    case Purged(_) => id !in t
  }

  lemma OthersKept(cfg: Config, t: Table, s: Stamped, id: JobId)
    requires id != s.event.id
    ensures id in Apply(cfg, t, s) <==> id in t
    ensures id in t ==> Apply(cfg, t, s)[id] == t[id]
  {
  }

  lemma LeftBy(cfg: Config, t: Table, s: Stamped)
    requires Enabled(cfg, t, s)
    ensures AsLeft(cfg, Apply(cfg, t, s), s)
  {
  }

  lemma LeftKept(cfg: Config, t: Table, u: Table, s: Stamped)
    requires AsLeft(cfg, t, s) && (s.event.id in u <==> s.event.id in t)
    requires s.event.id in t ==> u[s.event.id] == t[s.event.id]
    ensures AsLeft(cfg, u, s)
  {
  }

  /** In every run a job is as its last event left it. */
  lemma {:induction false} StateFromLast(cfg: Config, h: History, id: JobId)
    requires Legal(cfg, h)
    ensures var n := LastOf(h, id);
            if n < 0 then id !in Replay(cfg, h) && id !in Issued(h)
            else AsLeft(cfg, Replay(cfg, h), h[n]) && id in Issued(h)
    decreases |h|
  {
    if h != [] {
      var p, s := h[..|h| - 1], h[|h| - 1];
      var t := Replay(cfg, p);
      StateFromLast(cfg, p, id);
      IssuedStep(p, s);
      assert h == p + [s];
      hide Apply, Enabled, AsLeft;
      if s.event.id == id {
        LeftBy(cfg, t, s);
      } else {
        OthersKept(cfg, t, s, id);
        if LastOf(h, id) >= 0 { LeftKept(cfg, t, Apply(cfg, t, s), h[LastOf(h, id)]); }
      }
    }
  }

  lemma IssuedStep(h: History, s: Stamped)
    ensures Issued(h + [s]) == if s.event.Enqueued? then Issued(h) + {s.event.id} else Issued(h)
  {
  }

  /** The event of `id` before position `j`, seen from the table just before `j`. */
  lemma Before(cfg: Config, h: History, j: nat, id: JobId) returns (n: int)
    requires Legal(cfg, h) && j < |h|
    ensures -1 <= n < j && SilentBetween(h, n, j, id)
    ensures if n < 0 then id !in Replay(cfg, h[..j]) && id !in Issued(h[..j])
            else h[n].event.id == id && AsLeft(cfg, Replay(cfg, h[..j]), h[n]) && id in Issued(h[..j])
  {
    hide AsLeft, Issued;
    LegalPrefix(cfg, h, j);
    StateFromLast(cfg, h[..j], id);
    n := LastOf(h[..j], id);
    assert forall k | 0 <= k < j :: h[..j][k] == h[k];
  }

  // ---- Nothing is lost ----

  /** Event `j` takes job `id` out of the table: an accepted ack whose result is not kept, or the
      expiry of a kept result or of a dead letter, a dead letter stamped zero excepted. */
  ghost predicate RemovedAt(cfg: Config, h: History, j: nat, id: JobId) {
    && j < |h| && h[j].event.id == id && id in Replay(cfg, h[..j])
    && (var r, now := Replay(cfg, h[..j])[id], h[j].now;
        || (h[j].event.Finished? && !cfg.keepResults)
        || (h[j].event.Purged? && r.state == Done && now >= r.completedAt + cfg.resultTtl)
        || (h[j].event.Purged? && r.state == Dead && r.completedAt != 0.0 && cfg.deadLetterTtl.Some?
            && now >= r.completedAt + cfg.deadLetterTtl.value))
  }

  /** Nothing is lost and nothing comes back: a job is in the table, after a recovery too, exactly if
      its enqueue was answered and neither an accepted ack nor an expiry has removed it since. */
  lemma NothingLost(cfg: Config, h: History, id: JobId)
    requires Legal(cfg, h)
    ensures id in Replay(cfg, h) <==> id in Issued(h) && !exists j: nat :: RemovedAt(cfg, h, j, id)
  {
    hide Issued, Apply, Purgeable;
    StateFromLast(cfg, h, id);
    var n := LastOf(h, id);
    if n >= 0 && id !in Replay(cfg, h) {
      RemovedByLast(cfg, h, n, id);
    }
    if j: nat :| RemovedAt(cfg, h, j, id) {
      RemovedStays(cfg, h, j, |h|, id);
      assert h[..|h|] == h;
    }
  }

  lemma RemovedByLast(cfg: Config, h: History, n: nat, id: JobId)
    requires Legal(cfg, h) && n < |h| && h[n].event.id == id && AsLeft(cfg, Replay(cfg, h), h[n])
      && id !in Replay(cfg, h)
    ensures RemovedAt(cfg, h, n, id)
  {
    StepAt(cfg, h, n);
    hide Legal, Replay, Apply;
  }

  lemma RemovedNow(cfg: Config, h: History, j: nat, id: JobId)
    requires Legal(cfg, h) && RemovedAt(cfg, h, j, id)
    ensures id !in Replay(cfg, h[..j + 1]) && id in Issued(h[..j])
  {
    StepAt(cfg, h, j);
    var _ := Before(cfg, h, j, id);
    hide Legal, Replay, Issued, Enabled, Purgeable;
  }

  /** A job that is gone comes back only by an enqueue of its id, and ids are used once. */
  lemma StaysGone(cfg: Config, h: History, n: nat, id: JobId)
    requires Legal(cfg, h) && n < |h| && id !in Replay(cfg, h[..n]) && id in Issued(h[..n])
    ensures id !in Replay(cfg, h[..n + 1])
  {
    StepAt(cfg, h, n);
    hide Legal, Replay, Issued;
  }

  lemma {:induction false} RemovedStays(cfg: Config, h: History, j: nat, k: nat, id: JobId)
    requires Legal(cfg, h) && RemovedAt(cfg, h, j, id) && j < k <= |h|
    ensures id !in Replay(cfg, h[..k])
    decreases k
  {
    hide RemovedAt, Legal, Replay, Issued;
    RemovedNow(cfg, h, j, id);
    if k - 1 > j {
      RemovedStays(cfg, h, j, k - 1, id);
      IssuedPrefix(h, j, k - 1, id);
      StaysGone(cfg, h, k - 1, id);
    }
  }

  // ---- Where a job comes from ----

  /** No event of a job but its enqueue touches what it carries or where it stands in the queue. */
  lemma CargoKept(cfg: Config, t: Table, s: Stamped, id: JobId)
    requires id in Apply(cfg, t, s) && !(s.event.Enqueued? && s.event.id == id)
    ensures id in t
    ensures var r, u := t[id], Apply(cfg, t, s)[id];
      u.data == r.data && u.priority == r.priority && u.order == r.order && u.wf == r.wf
        && u.maxAttempts == r.maxAttempts
  {
  }

  /** In every run, crashes and redeliveries included, a job still carries the payload, priority, rank,
      continuation and limit that it was enqueued with. */
  lemma {:induction false} RecordTraced(cfg: Config, h: History, id: JobId) returns (i: nat, r: JobRecord)
    requires Legal(cfg, h) && id in Replay(cfg, h)
    ensures i < |h| && h[i].event == Enqueued(id, r)
    ensures var u := Replay(cfg, h)[id];
      u.data == r.data && u.priority == r.priority && u.order == r.order && u.wf == r.wf
        && u.maxAttempts == r.maxAttempts
    decreases |h|
  {
    var p, s := h[..|h| - 1], h[|h| - 1];
    if s.event.Enqueued? && s.event.id == id {
      i, r := |h| - 1, s.event.record;
    } else {
      CargoKept(cfg, Replay(cfg, p), s, id);
      hide Apply, Enabled;
      i, r := RecordTraced(cfg, p, id);
    }
  }

  // ---- Fencing and settlement ----

  /** A settlement is accepted only right after a claim of the same job, with no event of the job
      in between, and with that claim's attempt number if it carries one. */
  lemma SettledByLatestClaimant(cfg: Config, h: History, j: nat, id: JobId) returns (i: nat)
    requires Legal(cfg, h) && SettledAt(h, j, id)
    ensures i < j && ClaimAt(h, i, id) && SilentBetween(h, i, j, id)
    ensures id in Replay(cfg, h[..i + 1])
    ensures h[j].event.token.Some? ==> h[j].event.token.value == Replay(cfg, h[..i + 1])[id].attempts
  {
    var n := Before(cfg, h, j, id);
    StepAt(cfg, h, j);
    i := n;
    SilentKeeps(cfg, h, i + 1, j, id);
  }

  lemma {:induction false} SilentKeeps(cfg: Config, h: History, i: nat, j: nat, id: JobId)
    requires Legal(cfg, h) && i <= j <= |h| && SilentBetween(h, i - 1, j, id)
    ensures id in Replay(cfg, h[..i]) <==> id in Replay(cfg, h[..j])
    ensures id in Replay(cfg, h[..i]) ==> Replay(cfg, h[..i])[id] == Replay(cfg, h[..j])[id]
    decreases j
  {
    if i < j {
      SilentKeeps(cfg, h, i, j - 1, id);
      StepAt(cfg, h, j - 1);
      OthersKept(cfg, Replay(cfg, h[..j - 1]), h[j - 1], id);
      hide Apply, Enabled, Replay;
    }
  }

  /** Claims and settlements alternate: a job settled twice was claimed again in between, so each
      claim is settled at most once. */
  lemma SettledOnce(cfg: Config, h: History, j: nat, k: nat, id: JobId) returns (i: nat)
    requires Legal(cfg, h) && SettledAt(h, j, id) && SettledAt(h, k, id) && j < k
    ensures j < i < k && ClaimAt(h, i, id)
  {
    i := SettledByLatestClaimant(cfg, h, k, id);
  }

  /** Two claims of one job are separated by an accepted nack or by the first one's lease. */
  lemma {:induction false} ClaimsSeparated(cfg: Config, h: History, i: nat, j: nat, id: JobId)
    requires Legal(cfg, h) && i < j && ClaimAt(h, i, id) && ClaimAt(h, j, id)
    ensures (exists m :: i < m < j && h[m].event.Failed? && h[m].event.id == id)
            || h[j].now >= h[i].now + h[i].event.lease
    decreases j
  {
    hide Legal, Replay, Issued, Apply;
    var n := Before(cfg, h, j, id);
    StepAt(cfg, h, j);
    assert n >= i;
    EnqueuedFirst(cfg, h, i, n, id);
    if h[n].event.Lapsed? {
      LapseAfterClaim(cfg, h, i, n, id);
      TimesAscend(cfg, h, n, j);
    }
  }

  /** An id is never enqueued again once claimed. */
  lemma EnqueuedFirst(cfg: Config, h: History, i: nat, n: nat, id: JobId)
    requires Legal(cfg, h) && i <= n < |h| && h[n].event.id == id && ClaimAt(h, i, id)
    ensures !h[n].event.Enqueued?
  {
    StepAt(cfg, h, n);
    StepAt(cfg, h, i);
    var m := Before(cfg, h, i, id);
    IssuedPrefix(h, i, n, id);
  }

  lemma IssuedPrefix(h: History, i: nat, n: nat, id: JobId)
    requires i <= n <= |h| && id in Issued(h[..i])
    ensures id in Issued(h[..n])
  {
  }

  lemma LapseAfterClaim(cfg: Config, h: History, i: nat, n: nat, id: JobId)
    requires Legal(cfg, h) && i < n < |h| && ClaimAt(h, i, id) && h[n].event == Lapsed(id)
    ensures (exists m :: i < m < n && h[m].event.Failed? && h[m].event.id == id)
            || h[n].now >= h[i].now + h[i].event.lease
    decreases n, 0
  {
    hide Legal, Replay, Issued, Apply;
    var m := Before(cfg, h, n, id);
    StepAt(cfg, h, n);
    assert m >= i && ClaimAt(h, m, id);
    if m > i {
      ClaimsSeparated(cfg, h, i, m, id);
      TimesAscend(cfg, h, m, n);
    }
  }

  // ---- Attempts ----

  ghost function Claims(h: History, id: JobId): nat {
    if h == [] then 0
    else Claims(h[..|h| - 1], id) + if h[|h| - 1].event.Claimed? && h[|h| - 1].event.id == id then 1 else 0
  }

  /** The `max_attempts` the job was enqueued with. */
  ghost function Limit(h: History, id: JobId): nat {
    if h == [] then 0
    else
      var s := h[|h| - 1];
      if s.event.Enqueued? && s.event.id == id then s.event.record.maxAttempts else Limit(h[..|h| - 1], id)
  }

  ghost predicate WithinLimits(r: JobRecord) {
    match r.state
    case Ready => r.attempts < r.maxAttempts
    case Leased => 1 <= r.attempts <= r.maxAttempts
    case Dead => 1 <= r.attempts <= r.maxAttempts
    case Done => 1 <= r.attempts <= r.maxAttempts
  }

  /** Attempts are conserved: in every reachable table a job's counter is the number of times it
      was handed out and respects its state; no job is ever handed out more than its limit. */
  lemma {:induction false} Conservation(cfg: Config, h: History, id: JobId)
    requires Legal(cfg, h)
    ensures Claims(h, id) <= Limit(h, id)
    ensures id in Replay(cfg, h) ==>
      var r := Replay(cfg, h)[id];
      WithinLimits(r) && r.attempts == Claims(h, id) && r.maxAttempts == Limit(h, id)
    decreases |h|
  {
    if h != [] {
      var p, s := h[..|h| - 1], h[|h| - 1];
      Conservation(cfg, p, id);
      if s.event.id != id {
        OthersKept(cfg, Replay(cfg, p), s, id);
        hide Apply, Enabled;
      } else if s.event.Enqueued? {
        NoClaimsBefore(cfg, p, id);
      }
    }
  }

  lemma {:induction false} NoClaimsBefore(cfg: Config, h: History, id: JobId)
    requires Legal(cfg, h) && id !in Issued(h)
    ensures Claims(h, id) == 0
    decreases |h|
  {
    if h != [] {
      var p, s := h[..|h| - 1], h[|h| - 1];
      assert h == p + [s];
      IssuedStep(p, s);
      NoClaimsBefore(cfg, p, id);
      StateFromLast(cfg, p, id);
      hide Issued, Apply, Replay;
    }
  }

  lemma {:induction false} ClaimsGrow(h: History, i: nat, j: nat, id: JobId)
    requires i <= j <= |h|
    ensures Claims(h[..i], id) <= Claims(h[..j], id)
    decreases j
  {
    if i < j {
      ClaimsGrow(h, i, j - 1, id);
      assert h[..j][..j - 1] == h[..j - 1];
    }
  }

  /** No (job, attempt) token is handed out twice, whatever crashes and recoveries lie between. */
  lemma TokensFresh(cfg: Config, h: History, i: nat, j: nat, id: JobId)
    requires Legal(cfg, h) && i < j && ClaimAt(h, i, id) && ClaimAt(h, j, id)
    ensures id in Replay(cfg, h[..i + 1]) && id in Replay(cfg, h[..j + 1])
    ensures Replay(cfg, h[..i + 1])[id].attempts < Replay(cfg, h[..j + 1])[id].attempts
  {
    StepAt(cfg, h, i);
    StepAt(cfg, h, j);
    Conservation(cfg, h[..i + 1], id);
    Conservation(cfg, h[..j], id);
    ClaimsGrow(h, i + 1, j, id);
    hide Replay, Claims, Limit;
  }
}

/** What each operation of the queue store does to its table, field by field. */
module QueueEffects {
  import opened JobTable
  import opened Options

  /** A claim's answer: the caller's copy of the job, with its fencing token in `attempts`. */
  datatype Delivery = Delivery(id: JobId, job: JobRecord)

  /** `s` carries what `r` carries and has its place in the queue. */
  predicate SameCargo(r: JobRecord, s: JobRecord) {
    && s.data == r.data && s.wf == r.wf && s.maxAttempts == r.maxAttempts
    && s.priority == r.priority && s.order == r.order
  }

  /** No job but `id` has changed. */
  ghost predicate OnlyJob(t: Table, u: Table, id: JobId) {
    && (forall o | o in t && o != id :: o in u && u[o] == t[o])
    && (forall o | o in u && o != id :: o in t)
  }

  /** A job whose lease ran out is ready at once, or dead if it has no attempts left. */
  predicate GivenBack(r: JobRecord, s: JobRecord, now: real) {
    && SameCargo(r, s) && s.attempts == r.attempts && s.result == r.result
    && if r.attempts < r.maxAttempts then
         && s.state == Ready && s.leaseUntil == 0.0 && s.notBefore == 0.0
         && s.lastError == r.lastError && s.completedAt == r.completedAt
       else
         && s.state == Dead && s.completedAt == now && s.leaseUntil == r.leaseUntil && s.notBefore == r.notBefore
         && s.lastError == if r.lastError == None || r.lastError == Some("") then Some("lease expired") else r.lastError
  }

  /** `u` is `t` with every lapsed lease given back. */
  ghost predicate AfterReclaim(t: Table, u: Table, now: real) {
    && u.Keys == t.Keys
    && forall id | id in t ::
      if t[id].state == Leased && t[id].leaseUntil <= now then GivenBack(t[id], u[id], now) else u[id] == t[id]
  }

  /** The job may be handed out. */
  predicate Waiting(r: JobRecord, now: real) {
    r.state == Ready && now >= r.notBefore
  }

  /** The job handed out: the old one with one more attempt and its lease. */
  predicate HandedOut(r: JobRecord, s: JobRecord, now: real, lease: real) {
    && SameCargo(r, s) && s.state == Leased && s.attempts == r.attempts + 1 && s.leaseUntil == now + lease
    && s.lastError == r.lastError && s.result == r.result && s.notBefore == r.notBefore
    && s.completedAt == r.completedAt
  }

  /** Of the table `v` the waiting job of the greatest priority and, among those, the least `seq` is
      handed out, and nothing only if none is waiting. */
  ghost predicate Chooses(v: Table, u: Table, now: real, lease: real, answer: Option<Delivery>) {
    match answer
    case None => u == v && forall id | id in v :: !Waiting(v[id], now)
    case Some(d) =>
      && d.id in v && Waiting(v[d.id], now) && HandedOut(v[d.id], d.job, now, lease)
      && d.id in u && u[d.id] == d.job && OnlyJob(v, u, d.id)
      && forall o | o in v && Waiting(v[o], now) && o != d.id ::
        v[o].priority < v[d.id].priority || (v[o].priority == v[d.id].priority && v[o].order > v[d.id].order)
  }

  /** A claim chooses once the lapsed leases are given back. */
  ghost predicate ClaimEffect(t: Table, u: Table, now: real, lease: real, answer: Option<Delivery>) {
    exists v :: AfterReclaim(t, v, now) && Chooses(v, u, now, lease, answer)
  }

  /** A new job waits for its delay, behind every job of its priority. */
  ghost predicate AddEffect(t: Table, u: Table, now: real, id: JobId, data: Bytes, maxAttempts: nat, priority: int,
                            delay: real, wf: Workflow) {
    && id !in t && id in u && OnlyJob(t, u, id)
    && u[id].data == data && u[id].wf == wf && u[id].maxAttempts == maxAttempts && u[id].priority == priority
    && u[id].state == Ready && u[id].attempts == 0 && u[id].leaseUntil == 0.0 && u[id].completedAt == 0.0
    && u[id].notBefore == (if delay > 0.0 then now + delay else 0.0)
    && u[id].lastError == None && u[id].result == None
    && forall o | o in t :: t[o].order < u[id].order
  }

  /** A settlement is accepted from the holder of the lease, who shows the attempt number if any. */
  predicate Accepts(t: Table, id: JobId, token: Option<nat>) {
    id in t && t[id].state == Leased && (token.Some? ==> token.value == t[id].attempts)
  }

  ghost predicate AckEffect(cfg: Config, t: Table, u: Table, now: real, id: JobId, result: Option<Bytes>,
                            token: Option<nat>, ok: bool) {
    && ok == Accepts(t, id, token)
    && if !ok then u == t
       else
         && OnlyJob(t, u, id) && (id in u <==> cfg.keepResults)
         && (id in u ==>
               && SameCargo(t[id], u[id]) && u[id].state == Done && u[id].result == result && u[id].completedAt == now
               && u[id].leaseUntil == 0.0 && u[id].attempts == t[id].attempts && u[id].notBefore == t[id].notBefore
               && u[id].lastError == t[id].lastError)
  }

  /** The answer is whether the job was requeued; it is, after the delay, if attempts are left. */
  ghost predicate NackEffect(t: Table, u: Table, now: real, id: JobId, error: Option<string>, delay: real,
                             token: Option<nat>, answer: Option<bool>) {
    && answer.Some? == Accepts(t, id, token)
    && if answer.None? then u == t
       else
         && answer.value == (t[id].attempts < t[id].maxAttempts)
         && OnlyJob(t, u, id) && id in u && SameCargo(t[id], u[id])
         && u[id].attempts == t[id].attempts && u[id].result == t[id].result && u[id].lastError == error
         && if answer.value then
              && u[id].state == Ready && u[id].leaseUntil == 0.0 && u[id].completedAt == t[id].completedAt
              && u[id].notBefore == if delay > 0.0 then now + delay else 0.0
            else
              && u[id].state == Dead && u[id].completedAt == now
              && u[id].leaseUntil == t[id].leaseUntil && u[id].notBefore == t[id].notBefore
  }

  /** Kept results and dead letters go once their time to live is over; a dead letter stays for good
      without one, or if its stamp is zero. */
  predicate Outlived(cfg: Config, r: JobRecord, now: real) {
    || (r.state == Done && now >= r.completedAt + cfg.resultTtl)
    || (r.state == Dead && r.completedAt != 0.0 && cfg.deadLetterTtl.Some?
        && now >= r.completedAt + cfg.deadLetterTtl.value)
  }

  ghost predicate Purges(cfg: Config, v: Table, u: Table, now: real) {
    && (forall id :: id in u <==> id in v && !Outlived(cfg, v[id], now))
    && forall id | id in u :: u[id] == v[id]
  }

  /** A sweep gives back the lapsed leases, counts them, and then drops what has outlived its time. */
  ghost predicate SweepEffect(cfg: Config, t: Table, u: Table, now: real, n: nat) {
    && n == |set id | id in t && t[id].state == Leased && t[id].leaseUntil <= now|
    && exists v :: AfterReclaim(t, v, now) && Purges(cfg, v, u, now)
  }

  // ---- The table's functions do this ----

  lemma Reclaims(t: Table, now: real)
    ensures AfterReclaim(t, Reclaimed(t, now), now)
  {
  }

  lemma Claims(t: Table, u: Table, now: real, lease: real, answer: Option<Delivery>)
    requires var v := Reclaimed(t, now);
      match answer
      case None => u == v && forall id | id in v :: !Eligible(v[id], now)
      case Some(d) =>
        IsBest(v, now, d.id) && u == v[d.id := ClaimedRecord(v[d.id], now, lease)] && d.job == u[d.id]
    ensures ClaimEffect(t, u, now, lease, answer)
  {
    Reclaims(t, now);
    hide Reclaimed, AfterReclaim;
    assert Chooses(Reclaimed(t, now), u, now, lease, answer);
  }

  lemma Acks(cfg: Config, t: Table, u: Table, now: real, id: JobId, result: Option<Bytes>, token: Option<nat>, ok: bool)
    requires ok <==> id in t && HoldsLease(t[id], token)
    requires !ok ==> u == t
    requires ok ==> u == if cfg.keepResults then t[id := FinishedRecord(t[id], now, result)] else t - {id}
    ensures AckEffect(cfg, t, u, now, id, result, token, ok)
  {
  }

  lemma Nacks(t: Table, u: Table, now: real, id: JobId, error: Option<string>, delay: real, token: Option<nat>,
              answer: Option<bool>)
    requires answer.Some? <==> id in t && HoldsLease(t[id], token)
    requires answer.None? ==> u == t
    requires answer.Some? ==> answer.value == (t[id].attempts < t[id].maxAttempts)
    requires answer.Some? ==> u == t[id := FailedRecord(t[id], now, error, delay)]
    ensures NackEffect(t, u, now, id, error, delay, token, answer)
  {
  }

  lemma Sweeps(cfg: Config, t: Table, now: real)
    ensures SweepEffect(cfg, t, Swept(cfg, t, now), now, |set id | id in t && Lapses(t[id], now)|)
  {
    Reclaims(t, now);
    assert (set id | id in t && Lapses(t[id], now))
      == (set id | id in t && t[id].state == Leased && t[id].leaseUntil <= now);
    hide Reclaimed, AfterReclaim;
    assert Purges(cfg, Reclaimed(t, now), Swept(cfg, t, now), now);
  }
}

/** The token-bucket rate limiter, with and without its eviction of idle buckets. */
module RateLimit {

  type Key = nat

  /** `refill` is `rate / per`; a bucket must be idle this long before it may be evicted. */
  datatype Params = Params(refill: real, burst: real, idle: real)

  datatype Bucket = Bucket(tokens: real, last: real)

  type Buckets = map<Key, Bucket>

  const EVICT_AT := 1024

  function Min(a: real, b: real): real {
    if b < a then b else a
  }

  function Gain(p: Params, time: real): real {
    time * p.refill
  }

  lemma GainAdds(p: Params, a: real, b: real)
    ensures Gain(p, a + b) == Gain(p, a) + Gain(p, b)
  {
  }

  lemma GainPositive(p: Params, a: real)
    requires p.refill > 0.0 && a >= 0.0
    ensures Gain(p, a) >= 0.0
  {
  }

  /** The tokens key `k` has at time `now`; a key without a bucket has a full one. */
  function Level(p: Params, m: Buckets, k: Key, now: real): real {
    var b := if k in m then m[k] else Bucket(p.burst, now);
    Min(p.burst, b.tokens + Gain(p, now - b.last))
  }

  predicate Stale(p: Params, b: Bucket, now: real) {
    now - b.last >= p.idle && b.tokens + Gain(p, now - b.last) >= p.burst
  }

  /** `_evict`. */
  function Evicted(p: Params, m: Buckets, now: real): Buckets {
    if |m| < EVICT_AT then m else map k | k in m && !Stale(p, m[k], now) :: m[k]
  }

  /** One request: the answer and the buckets after it. */
  function Request(p: Params, m: Buckets, k: Key, now: real): (Buckets, bool) {
    var tokens := Level(p, m, k, now);
    if tokens < 1.0 then (m[k := Bucket(tokens, now)], false) else (m[k := Bucket(tokens - 1.0, now)], true)
  }

  // ---- One request, field by field ----

  /** From 1024 buckets on, those go that have been idle long enough and have filled up by now. */
  ghost predicate EvictEffect(p: Params, m: Buckets, n: Buckets, now: real) {
    && (forall k | k in n :: k in m && n[k] == m[k])
    && forall k | k in m ::
      k !in n <==> |m| >= 1024 && now >= m[k].last + p.idle && m[k].tokens + (now - m[k].last) * p.refill >= p.burst
  }

  /** The tokens of key `k`: the burst for a new key, else what is left and what refilled since, up to the
      burst. */
  ghost predicate Holds(p: Params, m: Buckets, k: Key, now: real, tokens: real) {
    && tokens <= p.burst
    && if k !in m then tokens == p.burst
      else
        var refilled := m[k].tokens + (now - m[k].last) * p.refill;
        tokens <= refilled && (tokens == p.burst || tokens == refilled)
  }

  /** The request is admitted exactly if there is a whole token, which it takes. */
  ghost predicate ChargeEffect(m: Buckets, n: Buckets, k: Key, now: real, tokens: real, ok: bool) {
    && (ok <==> tokens >= 1.0)
    && k in n && n[k].last == now && n[k].tokens == (if ok then tokens - 1.0 else tokens)
    && (forall o | o in m && o != k :: o in n && n[o] == m[o]) && (forall o | o in n && o != k :: o in m)
  }

  ghost predicate AdmitEffect(p: Params, m: Buckets, n: Buckets, k: Key, now: real, ok: bool) {
    exists e, tokens :: EvictEffect(p, m, e, now) && Holds(p, e, k, now, tokens)
      && ChargeEffect(e, n, k, now, tokens, ok)
  }

  lemma StaleIs(p: Params, b: Bucket, now: real)
    ensures Stale(p, b, now) <==> now >= b.last + p.idle && b.tokens + (now - b.last) * p.refill >= p.burst
  {
  }

  lemma EvictedIs(p: Params, m: Buckets, now: real)
    ensures EvictEffect(p, m, Evicted(p, m, now), now)
  {
    hide Stale;
    forall k | k in m
      ensures Stale(p, m[k], now) <==>
        now >= m[k].last + p.idle && m[k].tokens + (now - m[k].last) * p.refill >= p.burst
    {
      StaleIs(p, m[k], now);
    }
  }

  lemma LevelIs(p: Params, m: Buckets, k: Key, now: real)
    ensures Holds(p, m, k, now, Level(p, m, k, now))
  {
    GainAdds(p, 0.0, 0.0);
    assert now - now == 0.0;
  }

  class RateLimiter {
    const p: Params
    var buckets: Buckets

    constructor (rate: real, per: real, burst: real)
      requires rate > 0.0 && per > 0.0
      ensures p.refill == rate / per && p.refill > 0.0 && p.burst == burst && buckets == map[]
      ensures p.idle >= 60.0 && p.idle >= per * 10.0 && (p.idle == 60.0 || p.idle == per * 10.0)
    {
      p := Params(rate / per, burst, if per * 10.0 > 60.0 then per * 10.0 else 60.0);
      buckets := map[];
    }

    method Evict(now: real)
      modifies this
      ensures EvictEffect(p, old(buckets), buckets, now)
      ensures buckets == Evicted(p, old(buckets), now)
    {
      hide EvictEffect;
      EvictedIs(p, buckets, now);
      if |buckets| < EVICT_AT { return; }
      var stale := set k | k in buckets && Stale(p, buckets[k], now);
      buckets := buckets - stale;
      assert buckets == Evicted(p, old(buckets), now);
    }

    /** `__call__` up to the decision: false is `RateLimitError`. */
    method Admit(k: Key, now: real) returns (ok: bool)
      modifies this
      ensures AdmitEffect(p, old(buckets), buckets, k, now, ok)
      ensures (buckets, ok) == Request(p, Evicted(p, old(buckets), now), k, now)
    {
      Evict(now);
      ghost var e := buckets;
      var b := if k in buckets then buckets[k] else Bucket(p.burst, now);
      var tokens := Min(p.burst, b.tokens + Gain(p, now - b.last));
      LevelIs(p, e, k, now);
      if tokens < 1.0 {
        buckets := buckets[k := Bucket(tokens, now)];
        assert ChargeEffect(e, buckets, k, now, tokens, false);
        return false;
      }
      buckets := buckets[k := Bucket(tokens - 1.0, now)];
      assert ChargeEffect(e, buckets, k, now, tokens, true);
      ok := true;
    }
  }

  /** The constructor's check of its arguments: `None` is its `ValueError`. */
  method Create(rate: real, per: real, burst: real) returns (r: RateLimiter?)
    ensures r == null <==> rate <= 0.0 || per <= 0.0
    ensures r != null ==> fresh(r) && r.p.refill == rate / per && r.p.burst == burst && r.buckets == map[]
  {
    if rate <= 0.0 || per <= 0.0 { return null; }
    r := new RateLimiter(rate, per, burst);
  }

  // ---- Traces ----

  datatype Arrival = Arrival(key: Key, at: real)

  predicate Ascending(tr: seq<Arrival>, from: real) {
    tr == [] || (from <= tr[0].at && Ascending(tr[1..], tr[0].at))
  }

  /** The answers of the limiter as it is. */
  function Answers(p: Params, m: Buckets, tr: seq<Arrival>): seq<bool>
    decreases |tr|
  {
    if tr == [] then []
    else
      var (m', ok) := Request(p, Evicted(p, m, tr[0].at), tr[0].key, tr[0].at);
      [ok] + Answers(p, m', tr[1..])
  }

  /** The answers of a limiter that never evicts. */
  function PlainAnswers(p: Params, m: Buckets, tr: seq<Arrival>): seq<bool>
    decreases |tr|
  {
    if tr == [] then []
    else
      var (m', ok) := Request(p, m, tr[0].key, tr[0].at);
      [ok] + PlainAnswers(p, m', tr[1..])
  }

  /** Two tables that give every key the same tokens from `now` on. */
  ghost predicate SameLevels(p: Params, a: Buckets, b: Buckets, now: real) {
    forall k, t {:trigger Level(p, a, k, t)} | now <= t :: Level(p, a, k, t) == Level(p, b, k, t)
  }

  /** A stale bucket will be full at every later time, so dropping it changes no level. */
  lemma EvictionIsInvisible(p: Params, m: Buckets, now: real)
    requires p.refill > 0.0
    ensures SameLevels(p, Evicted(p, m, now), m, now)
  {
  }

  lemma RequestKeepsSame(p: Params, a: Buckets, b: Buckets, k: Key, now: real)
    requires SameLevels(p, a, b, now)
    ensures Request(p, a, k, now).1 == Request(p, b, k, now).1
    ensures SameLevels(p, Request(p, a, k, now).0, Request(p, b, k, now).0, now)
  {
    hide Gain;
    var a', b' := Request(p, a, k, now).0, Request(p, b, k, now).0;
    assert Level(p, a, k, now) == Level(p, b, k, now);
    forall j, t | now <= t ensures Level(p, a', j, t) == Level(p, b', j, t) {
      if j != k {
        assert Level(p, a, j, t) == Level(p, b, j, t);
      }
    }
  }

  lemma SameTrans(p: Params, a: Buckets, b: Buckets, c: Buckets, now: real, later: real)
    requires SameLevels(p, a, b, later) && SameLevels(p, b, c, now) && now <= later
    ensures SameLevels(p, a, c, later)
  {
  }

  lemma {:induction false} SameAnswersFrom(p: Params, a: Buckets, b: Buckets, tr: seq<Arrival>, now: real)
    requires p.refill > 0.0 && SameLevels(p, a, b, now) && Ascending(tr, now)
    ensures Answers(p, a, tr) == PlainAnswers(p, b, tr)
    decreases |tr|
  {
    if tr != [] {
      var k, t := tr[0].key, tr[0].at;
      var e := Evicted(p, a, t);
      hide SameLevels, Request, Evicted;
      EvictionIsInvisible(p, a, t);
      SameTrans(p, e, a, b, now, t);
      RequestKeepsSame(p, e, b, k, t);
      SameAnswersFrom(p, Request(p, e, k, t).0, Request(p, b, k, t).0, tr[1..], t);
    }
  }

  lemma SameItself(p: Params, m: Buckets, now: real)
    ensures SameLevels(p, m, m, now)
  {
  }

  /** On every trace the limiter answers exactly as one that never evicts. */
  lemma SameAnswers(p: Params, tr: seq<Arrival>, now: real)
    requires p.refill > 0.0 && Ascending(tr, now)
    ensures Answers(p, map[], tr) == PlainAnswers(p, map[], tr)
  {
    SameAnswersFrom(p, map[], map[], tr, now);
  }

  // ---- The rate ----

  function Admitted(k: Key, tr: seq<Arrival>, answers: seq<bool>): nat
    requires |answers| == |tr|
  {
    if tr == [] then 0
    else (if tr[0].key == k && answers[0] then 1 else 0) + Admitted(k, tr[1..], answers[1..])
  }

  lemma {:induction false} PlainLength(p: Params, m: Buckets, tr: seq<Arrival>)
    ensures |PlainAnswers(p, m, tr)| == |tr|
    decreases |tr|
  {
    if tr != [] {
      PlainLength(p, Request(p, m, tr[0].key, tr[0].at).0, tr[1..]);
      hide Request;
    }
  }

  lemma LevelGrows(p: Params, m: Buckets, k: Key, now: real, t: real)
    requires p.refill > 0.0 && now <= t
    ensures Level(p, m, k, t) <= Level(p, m, k, now) + Gain(p, t - now)
    ensures Level(p, m, k, t) <= p.burst
  {
  }

  /** Right after a request, the key has what the request left it. */
  lemma LevelAfter(p: Params, m: Buckets, k: Key, j: Key, t: real)
    ensures var (m', ok) := Request(p, m, j, t);
      Level(p, m', k, t) == Level(p, m, k, t) - if k == j && ok then 1.0 else 0.0
  {
    hide Gain;
    GainAdds(p, 0.0, 0.0);
    assert t - t == 0.0;
  }

  /** From any state, what a key is admitted until `end` is bounded by its level now and what
      refills meanwhile. */
  lemma {:induction false} AdmittedBound(p: Params, m: Buckets, k: Key, tr: seq<Arrival>, now: real, end: real)
    requires p.refill > 0.0 && Ascending(tr, now) && now <= end && forall a | a in tr :: a.at <= end
    requires |PlainAnswers(p, m, tr)| == |tr|
    ensures var bound := Level(p, m, k, now) + Gain(p, end - now);
      Admitted(k, tr, PlainAnswers(p, m, tr)) as real <= if bound < 0.0 then 0.0 else bound
    decreases |tr|
  {
    if tr != [] {
      var j, t := tr[0].key, tr[0].at;
      var (m', ok) := Request(p, m, j, t);
      assert PlainAnswers(p, m, tr)[1..] == PlainAnswers(p, m', tr[1..]);
      assert tr[0] in tr && forall a | a in tr[1..] :: a in tr;
      AdmittedBound(p, m', k, tr[1..], t, end);
      LevelGrows(p, m, k, now, t);
      LevelAfter(p, m, k, j, t);
      GainAdds(p, t - now, end - t);
      assert t - now + (end - t) == end - now;
      GainPositive(p, end - t);
      assert ok && j == k ==> Level(p, m, k, t) >= 1.0;
      hide Level, Gain, Request;
    }
  }

  /** In any window of length `T`, starting in any state the limiter can be in, a key is admitted
      at most `burst + T * rate / per` times. */
  lemma RateBound(p: Params, m: Buckets, k: Key, tr: seq<Arrival>, T: real)
    requires p.refill > 0.0 && p.burst >= 0.0 && tr != [] && Ascending(tr, tr[0].at)
    requires forall a | a in tr :: a.at <= tr[0].at + T
    ensures |Answers(p, m, tr)| == |tr|
    ensures Admitted(k, tr, Answers(p, m, tr)) as real <= p.burst + T * p.refill
  {
    assert Gain(p, T) == T * p.refill;
    hide Gain, Level, Answers, PlainAnswers, Admitted;
    var now := tr[0].at;
    assert tr[0] in tr;
    SameItself(p, m, now);
    SameAnswersFrom(p, m, m, tr, now);
    PlainLength(p, m, tr);
    AdmittedBound(p, m, k, tr, now, now + T);
    assert now + T - now == T && T >= 0.0;
    GainPositive(p, T);
    LevelGrows(p, m, k, now, now);
  }

  // ---- And not below it ----

  /** Every request of key `k` comes at least one token's time after the one before; that was at `last`. */
  predicate Spaced(p: Params, k: Key, tr: seq<Arrival>, last: real) {
    tr == [] ||
    if tr[0].key == k then (tr[0].at - last) * p.refill >= 1.0 && Spaced(p, k, tr[1..], tr[0].at)
    else Spaced(p, k, tr[1..], last)
  }

  /** The key refills up to the burst. */
  lemma LevelRefills(p: Params, m: Buckets, k: Key, last: real, t: real)
    requires p.refill > 0.0 && p.burst >= 1.0 && Level(p, m, k, last) >= 0.0
    requires (t - last) * p.refill >= 1.0
    ensures Level(p, m, k, t) >= 1.0
  {
    var b := if k in m then m[k] else Bucket(p.burst, last);
    GainAdds(p, last - b.last, t - last);
    assert last - b.last + (t - last) == t - b.last;
  }

  /** No other key's request takes from key `k`. */
  lemma LevelOthers(p: Params, m: Buckets, k: Key, j: Key, t: real, last: real)
    requires j != k
    ensures Level(p, Request(p, m, j, t).0, k, last) == Level(p, m, k, last)
  {
    hide Gain;
  }

  lemma {:induction false} SteadyPlain(p: Params, m: Buckets, k: Key, tr: seq<Arrival>, last: real)
    requires p.refill > 0.0 && p.burst >= 1.0 && Level(p, m, k, last) >= 0.0 && Spaced(p, k, tr, last)
    requires |PlainAnswers(p, m, tr)| == |tr|
    ensures forall i | 0 <= i < |tr| && tr[i].key == k :: PlainAnswers(p, m, tr)[i]
    decreases |tr|
  {
    if tr != [] {
      var j, t := tr[0].key, tr[0].at;
      var (m', ok) := Request(p, m, j, t);
      if j == k {
        LevelRefills(p, m, k, last, t);
        LevelAfter(p, m, k, j, t);
      } else {
        LevelOthers(p, m, k, j, t, last);
      }
      assert j == k ==> ok;
      hide Level, Request;
      assert PlainAnswers(p, m, tr) == [ok] + PlainAnswers(p, m', tr[1..]);
      SteadyPlain(p, m', k, tr[1..], if j == k then t else last);
    }
  }

  /** A key whose requests keep to the rate is never refused, whatever the other keys do. */
  lemma SteadyAdmitted(p: Params, m: Buckets, k: Key, tr: seq<Arrival>, last: real, now: real)
    requires p.refill > 0.0 && p.burst >= 1.0 && Level(p, m, k, last) >= 0.0 && Spaced(p, k, tr, last)
    requires Ascending(tr, now)
    ensures |Answers(p, m, tr)| == |tr| && forall i | 0 <= i < |tr| && tr[i].key == k :: Answers(p, m, tr)[i]
  {
    hide Level, Answers, PlainAnswers, Spaced, SameLevels;
    SameItself(p, m, now);
    SameAnswersFrom(p, m, m, tr, now);
    PlainLength(p, m, tr);
    SteadyPlain(p, m, k, tr, last);
  }
}

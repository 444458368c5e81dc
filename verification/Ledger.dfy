/** The exactly-once ledger: one abstract entry per key, and two backends that implement it. */
module Ledger {
  import opened Options

  datatype Payload = Payload(json: string)

  /** An idempotency key is free, claimed until some time, or done with its result. */
  datatype Entry = Free | Held(until: real) | Done(result: Payload)

  datatype Answer = Claimed | InFlight | DoneWith(result: Payload)

  /** A lapsed claim is as good as none. */
  function Unlapsed(e: Entry, now: real): Entry {
    if e.Held? && e.until <= now then Free else e
  }

  function Claim(e: Entry, now: real, lease: real): (r: (Entry, Answer))
    ensures r.1 == Claimed <==> e == Free || (e.Held? && now >= e.until)
    ensures r.1.DoneWith? <==> e.Done?
    ensures e.Done? ==> r.1.result == e.result
    ensures r.1 != Claimed ==> r.0 == e
  {
    match Unlapsed(e, now)
    case Free => (Held(now + lease), Claimed)
    case Held(_) => (e, InFlight)
    case Done(r) => (e, DoneWith(r))
  }

  function Mark(e: Entry, r: Payload): Entry {
    if e.Done? then e else Done(r)
  }

  function Release(e: Entry): Entry {
    if e.Done? then e else Free
  }

  // ---- The contract of the protocol, over any sequence of operations ----

  datatype Op = ClaimOp(now: real, lease: real) | MarkOp(result: Payload) | ReleaseOp

  function Apply(e: Entry, op: Op): Entry {
    match op
    case ClaimOp(now, lease) => Claim(e, now, lease).0
    case MarkOp(r) => Mark(e, r)
    case ReleaseOp => Release(e)
  }

  function Run(e: Entry, ops: seq<Op>): Entry
    decreases |ops|
  {
    if ops == [] then e else Run(Apply(e, ops[0]), ops[1..])
  }

  /** Done is terminal: no sequence of claims, marks and releases changes the result, and every
      later claim is answered with it. */
  lemma {:induction false} DoneIsTerminal(r: Payload, ops: seq<Op>, now: real, lease: real)
    ensures Run(Done(r), ops) == Done(r) && Claim(Run(Done(r), ops), now, lease).1 == DoneWith(r)
  {
    if ops != [] {
      DoneIsTerminal(r, ops[1..], now, lease);
    }
  }

  /** The first mark wins, whatever claims and releases came before and whatever comes after. */
  lemma {:induction false} FirstResultWins(e: Entry, before: seq<Op>, r: Payload, after: seq<Op>)
    requires !e.Done? && forall op | op in before :: !op.MarkOp?
    ensures Run(e, before + [MarkOp(r)] + after) == Done(r)
    decreases |before|
  {
    if before == [] {
      assert [MarkOp(r)] + after == before + [MarkOp(r)] + after;
      assert ([MarkOp(r)] + after)[1..] == after;
      DoneIsTerminal(r, after, 0.0, 0.0);
    } else {
      assert (before + [MarkOp(r)] + after)[1..] == before[1..] + [MarkOp(r)] + after;
      FirstResultWins(Apply(e, before[0]), before[1..], r, after);
    }
  }

  /** While a claim is held and neither marked nor released, every other claim before its lease
      lapses is refused and changes nothing. */
  lemma {:induction false} HeldIsExclusive(until: real, ops: seq<Op>)
    requires forall op | op in ops :: op.ClaimOp? && op.now < until
    ensures Run(Held(until), ops) == Held(until)
    ensures forall op | op in ops :: Claim(Held(until), op.now, op.lease).1 == InFlight
  {
    if ops != [] {
      HeldIsExclusive(until, ops[1..]);
    }
  }

  /** A claim lasts exactly its lease: with neither a mark nor a release since, and whatever rivals came
      meanwhile, a claim before the lease is over is refused and changes nothing, and one from then on
      is granted. */
  lemma ClaimLasts(e: Entry, now: real, lease: real, rivals: seq<Op>, t: real, l: real)
    requires Claim(e, now, lease).1 == Claimed
    requires forall op | op in rivals :: op.ClaimOp? && op.now < now + lease
    ensures var h := Run(Claim(e, now, lease).0, rivals);
      && (t < now + lease ==> Claim(h, t, l) == (h, InFlight))
      && (t >= now + lease ==> Claim(h, t, l).1 == Claimed)
  {
    HeldIsExclusive(now + lease, rivals);
  }

  /** A release gives the key back at once, unless it is done. */
  lemma ReleaseFrees(e: Entry, now: real, lease: real)
    ensures Claim(Release(e), now, lease).1 == if e.Done? then DoneWith(e.result) else Claimed
  {
  }

  // ---- In memory ----

  type Key = nat

  datatype Record = Record(done: bool, result: Payload, leaseUntil: real)

  datatype LogEntry = LogEntry(value: Payload, key: Option<Key>)

  /** Topic `topic`, and no other, has its log changed, from `was` to `log`; a topic without a log has the
      empty one. */
  ghost predicate LogChanged(older: map<Key, seq<LogEntry>>, newer: map<Key, seq<LogEntry>>, topic: Key,
                             was: seq<LogEntry>, log: seq<LogEntry>) {
    && (if topic in older then was == older[topic] else was == [])
    && topic in newer && newer[topic] == log
    && (forall o | o in older && o != topic :: o in newer && newer[o] == older[o])
    && (forall o | o in newer && o != topic :: o in older)
  }

  class InMemoryStorage {
    var processed: map<Key, Record>
    var eventLog: map<Key, seq<LogEntry>>

    constructor ()
      ensures processed == map[] && eventLog == map[]
    {
      processed, eventLog := map[], map[];
    }

    /** The ledger entry of a key. */
    function Of(k: Key): Entry
      reads this
    {
      if k !in processed then Free
      else if processed[k].done then Done(processed[k].result)
      else Held(processed[k].leaseUntil)
    }

    method ClaimProcessed(k: Key, now: real, lease: real) returns (a: Answer)
      modifies this`processed
      ensures a == Claim(old(Of(k)), now, lease).1 && Of(k) == Claim(old(Of(k)), now, lease).0
      ensures forall o | o != k :: Of(o) == old(Of(o))
    {
      if k in processed {
        var rec := processed[k];
        if rec.done { return DoneWith(rec.result); }
        if rec.leaseUntil > now { return InFlight; }
      }
      processed := processed[k := Record(false, Payload(""), now + lease)];
      a := Claimed;
    }

    method ReleaseClaim(k: Key)
      modifies this`processed
      ensures Of(k) == Release(old(Of(k)))
      ensures forall o | o != k :: Of(o) == old(Of(o))
    {
      if k in processed && !processed[k].done {
        processed := processed - {k};
      }
    }

    method CheckProcessed(k: Key) returns (r: Option<Payload>)
      ensures r == if Of(k).Done? then Some(Of(k).result) else None
    {
      if k in processed && processed[k].done { return Some(processed[k].result); }
      r := None;
    }

    method MarkProcessed(k: Key, result: Payload)
      modifies this`processed
      ensures Of(k) == Mark(old(Of(k)), result)
      ensures forall o | o != k :: Of(o) == old(Of(o))
    {
      if k in processed && processed[k].done { return; }
      processed := processed[k := Record(true, result, 0.0)];
    }

    /** Appends unless the idempotency key is already done; a claim in flight still logs. */
    method Log(topic: Key, value: Payload, k: Option<Key>)
      modifies this`eventLog
      ensures k.Some? && Of(k.value).Done? ==> eventLog == old(eventLog)
      ensures !(k.Some? && Of(k.value).Done?) ==>
        exists was :: LogChanged(old(eventLog), eventLog, topic, was, was + [LogEntry(value, k)])
    {
      if k.Some? && k.value in processed && processed[k.value].done { return; }
      if topic !in eventLog {
        eventLog := eventLog[topic := []];
      }
      ghost var was := eventLog[topic];
      eventLog := eventLog[topic := eventLog[topic] + [LogEntry(value, k)]];
      assert LogChanged(old(eventLog), eventLog, topic, was, was + [LogEntry(value, k)]);
    }
  }

  // ---- Redis ----

  /** A string value and when it expires. */
  datatype Cell = Cell(value: string, expires: Option<real>)

  /** `GET`: an expired key reads as missing. */
  function Get(c: Option<Cell>, now: real): Option<string> {
    if c.None? || (c.value.expires.Some? && c.value.expires.value <= now) then None else Some(c.value.value)
  }

  predicate Tagged(v: string, tag: char) {
    v != "" && v[0] == tag
  }

  /** `_decode`: finished, and with what; an untagged record is an older version's bare result. */
  function Decode(v: string): Option<Payload> {
    if Tagged(v, 'D') then Some(Payload(v[1..]))
    else if Tagged(v, 'P') then None
    else Some(Payload(v))
  }

  function ClaimScript(c: Option<Cell>, now: real, lease: real): (Option<Cell>, Option<string>) {
    var cur := Get(c, now);
    if cur.Some? then (c, cur) else (Some(Cell("P", Some(now + lease))), None)
  }

  function MarkScript(c: Option<Cell>, now: real, v: string): Option<Cell> {
    var cur := Get(c, now);
    if cur.Some? && Tagged(cur.value, 'D') then c else Some(Cell(v, None))
  }

  /** The log script appends unless the record is there and is not a claim. */
  predicate LogScript(c: Option<Cell>, now: real) {
    var cur := Get(c, now);
    cur.None? || Tagged(cur.value, 'P')
  }

  function ReleaseScript(c: Option<Cell>, now: real): Option<Cell> {
    var cur := Get(c, now);
    if cur.Some? && Tagged(cur.value, 'P') then None else c
  }

  /** The ledger entry a stored value stands for. */
  function EntryOf(c: Option<Cell>, now: real): Entry {
    var cur := Get(c, now);
    if cur.None? then Free
    else if Decode(cur.value).Some? then Done(Decode(cur.value).value)
    else if c.value.expires.Some? then Held(c.value.expires.value)
    else Held(now + 1.0)      // a claim without an expiry is held; none is ever written
  }

  /** A value this version wrote: a leased claim, or a result kept for good. */
  predicate Ours(c: Option<Cell>) {
    c.Some? ==> (c.value.value == "P" && c.value.expires.Some?) || (Tagged(c.value.value, 'D') && c.value.expires.None?)
  }

  /** An older version's bare result. */
  predicate Legacy(c: Option<Cell>, now: real) {
    var cur := Get(c, now);
    cur.Some? && !Tagged(cur.value, 'D') && !Tagged(cur.value, 'P')
  }

  /** Python's reading of the claim script's reply; an empty reply counts as none. */
  function ClaimReply(reply: Option<string>): Answer {
    if reply in {None, Some("")} then Claimed
    else if Decode(reply.value).Some? then DoneWith(Decode(reply.value).value)
    else InFlight
  }

  function Millis(lease: real): real {
    (lease * 1000.0).Floor as real / 1000.0
  }

  /** `claim_processed` on one key. The lease is cut to whole milliseconds. */
  function RedisClaim(c: Option<Cell>, now: real, lease: real): (Option<Cell>, Answer) {
    var r := ClaimScript(c, now, Millis(lease));
    (r.0, ClaimReply(r.1))
  }

  /** The key after claims that came in this order. */
  function RedisRivals(c: Option<Cell>, rivals: seq<Op>): Option<Cell>
    requires forall op | op in rivals :: op.ClaimOp?
    decreases |rivals|
  {
    if rivals == [] then c
    else
      assert rivals[0] in rivals;
      RedisRivals(RedisClaim(c, rivals[0].now, rivals[0].lease).0, rivals[1..])
  }

  /** A claim, and how long it lasts. */
  ghost predicate ClaimedFor(c: Option<Cell>, now: real, lease: real) {
    && c.Some? && c.value.value == "P" && c.value.expires.Some?
    && now + lease - 0.001 < c.value.expires.value <= now + lease
  }

  /** A key with a claim on it refuses every claim until its lease, cut to milliseconds, is over. */
  lemma {:induction false} RivalsRefused(c: Option<Cell>, now: real, lease: real, rivals: seq<Op>)
    requires ClaimedFor(c, now, lease)
    requires forall op | op in rivals :: op.ClaimOp? && op.now < now + lease - 0.001
    ensures RedisRivals(c, rivals) == c
    decreases |rivals|
  {
    if rivals != [] {
      assert rivals[0] in rivals && Get(c, rivals[0].now) == Some("P");
      RivalsRefused(c, now, lease, rivals[1..]);
    }
  }

  /** A claim lasts its lease to the millisecond: with neither a mark nor a release since, and whatever
      rivals came meanwhile, every claim before that is refused and leaves the key alone, and every claim
      from the end of the lease on is granted. */
  lemma RedisClaimLasts(c: Option<Cell>, now: real, lease: real, rivals: seq<Op>, t: real, l: real)
    requires Ours(c) && RedisClaim(c, now, lease).1 == Claimed
    requires forall op | op in rivals :: op.ClaimOp? && op.now < now + lease - 0.001
    ensures var h := RedisRivals(RedisClaim(c, now, lease).0, rivals);
      && (t < now + lease - 0.001 ==> RedisClaim(h, t, l) == (h, InFlight))
      && (t >= now + lease ==> RedisClaim(h, t, l).1 == Claimed)
  {
    RivalsRefused(RedisClaim(c, now, lease).0, now, lease, rivals);
  }

  class RedisStorage {
    var store: map<Key, Cell>
    var logs: map<Key, seq<LogEntry>>     // newest first

    constructor ()
      ensures store == map[] && logs == map[] && Valid()
    {
      store, logs := map[], map[];
    }

    function At(k: Key): Option<Cell>
      reads this
    {
      if k in store then Some(store[k]) else None
    }

    predicate Valid()
      reads this
    {
      forall k | k in store :: Ours(Some(store[k]))
    }

    method Put(k: Key, c: Option<Cell>)
      modifies this`store
      ensures At(k) == c && forall o | o != k :: At(o) == old(At(o))
      ensures old(Valid()) && Ours(c) ==> Valid()
    {
      store := if c.None? then store - {k} else store[k := c.value];
    }

    /** Redis needs a lease of at least one millisecond. A claim that is granted lasts its lease to the
        millisecond, and one that is not leaves the key alone. */
    method ClaimProcessed(k: Key, now: real, lease: real) returns (a: Answer)
      requires Valid() && lease >= 0.001
      modifies this`store
      ensures Valid() && (At(k), a) == RedisClaim(old(At(k)), now, lease)
      ensures a == Claimed ==> ClaimedFor(At(k), now, lease)
      ensures a != Claimed ==> At(k) == old(At(k))
      ensures a == Claim(EntryOf(old(At(k)), now), now, Millis(lease)).1
      ensures EntryOf(At(k), now) == Claim(EntryOf(old(At(k)), now), now, Millis(lease)).0
      ensures forall o | o != k :: At(o) == old(At(o))
    {
      assert Millis(lease) > 0.0;
      var r := ClaimScript(At(k), now, Millis(lease));
      Put(k, r.0);
      a := ClaimReply(r.1);
    }

    method MarkProcessed(k: Key, now: real, result: Payload)
      requires Valid()
      modifies this`store
      ensures Valid() && EntryOf(At(k), now) == Mark(EntryOf(old(At(k)), now), result)
      ensures forall o | o != k :: At(o) == old(At(o))
    {
      Put(k, MarkScript(At(k), now, "D" + result.json));
    }

    method ReleaseClaim(k: Key, now: real)
      requires Valid()
      modifies this`store
      ensures Valid() && EntryOf(At(k), now) == Release(EntryOf(old(At(k)), now))
      ensures forall o | o != k :: At(o) == old(At(o))
    {
      Put(k, ReleaseScript(At(k), now));
    }

    method CheckProcessed(k: Key, now: real) returns (r: Option<Payload>)
      requires Valid()
      ensures r == if EntryOf(At(k), now).Done? then Some(EntryOf(At(k), now).result) else None
    {
      var raw := Get(At(k), now);
      r := if raw.None? then None else Decode(raw.value);
    }

    /** As in memory: appends unless the idempotency key is already done. */
    method Log(topic: Key, value: Payload, k: Option<Key>, now: real)
      requires Valid()
      modifies this`logs
      ensures k.Some? && EntryOf(At(k.value), now).Done? ==> logs == old(logs)
      ensures !(k.Some? && EntryOf(At(k.value), now).Done?) ==>
        exists was :: LogChanged(old(logs), logs, topic, was, [LogEntry(value, k)] + was)
    {
      if k.None? || LogScript(At(k.value), now) {
        var was := if topic in logs then logs[topic] else [];
        logs := logs[topic := [LogEntry(value, k)] + was];
        assert LogChanged(old(logs), logs, topic, was, [LogEntry(value, k)] + was);
      }
    }
  }

  /** Between operations only time passes: what an entry stands for later is what the abstract
      ledger makes of it later. */
  lemma TimePasses(c: Option<Cell>, now: real, later: real)
    requires Ours(c) && now <= later
    ensures EntryOf(c, later) == Unlapsed(EntryOf(c, now), later)
  {
  }

  /** First result wins in Redis exactly for the records this version writes: `mark` overwrites an
      older version's bare result with a different one. */
  lemma MarkKeepsFirst(c: Option<Cell>, now: real)
    ensures (forall r: Payload :: EntryOf(MarkScript(c, now, "D" + r.json), now) == Mark(EntryOf(c, now), r))
      <==> !Legacy(c, now)
  {
    if Legacy(c, now) {
      var stored := Get(c, now).value;
      var r := Payload(stored + "0");
      assert EntryOf(MarkScript(c, now, "D" + r.json), now) == Done(r);
      assert Mark(EntryOf(c, now), r) == Done(Payload(stored));
      assert |r.json| != |stored|;
    }
  }

  /** An older version's result, and a mark that replaces it. */
  lemma OldResultReplaced(c: Option<Cell>, now: real)
    requires c == Some(Cell("7", None))
    ensures EntryOf(c, now) == Done(Payload("7")) && EntryOf(MarkScript(c, now, "D8"), now) == Done(Payload("8"))
  {
    assert "D8"[1..] == "8";
  }
}

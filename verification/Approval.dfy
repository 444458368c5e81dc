/** Human approval of gated tools, and all who take part in it. */
module Approval {
  import opened Options

  type Tool = nat
  type ReqId = nat
  datatype Args = Args(json: string)

  datatype State = Pending | Approved | Denied | Expired

  /** `expiresAt` 0 is no deadline. */
  datatype Request = Request(
    tool: Tool, arguments: Args, state: State, requestedAt: real, expiresAt: real,
    decidedAt: real, decidedBy: Option<string>, note: Option<string>)

  predicate IsExpired(r: Request, now: real) {
    r.expiresAt > 0.0 && now >= r.expiresAt
  }

  function NewRequest(tool: Tool, args: Args, now: real, ttl: Option<real>): Request {
    Request(tool, args, Pending, now, if ttl.Some? && ttl.value != 0.0 then now + ttl.value else 0.0, 0.0, None, None)
  }

  datatype Decision = Decision(approved: bool, who: Option<string>, note: Option<string>, arguments: Option<Args>)

  /** What a decision makes of a request: the first one before the deadline settles it, and only a
      yes may replace the arguments. */
  function Decided(r: Request, now: real, d: Decision): Request {
    if r.state != Pending then r
    else if IsExpired(r, now) then r.(state := Expired, decidedBy := d.who, note := d.note, decidedAt := now)
    else if !d.approved then r.(state := Denied, decidedBy := d.who, note := d.note, decidedAt := now)
    else r.(state := Approved, decidedBy := d.who, note := d.note, decidedAt := now,
            arguments := if d.arguments.Some? then d.arguments.value else r.arguments)
  }

  /** `_expire`. */
  function TimedOut(r: Request, now: real): Request {
    if r.state == Pending then r.(state := Expired, decidedAt := now) else r
  }

  /** How a wait ends. */
  datatype Verdict = Cleared(arguments: Args) | Refused | Unknown | Waits

  /** `_settled`. */
  function Settled(r: Request): Verdict {
    if r.state == Approved then Cleared(r.arguments) else Refused
  }

  // ---- What the gate's operations make of a request, field by field ----

  /** Only the outcome differs. */
  predicate SameRequest(r: Request, q: Request) {
    q.tool == r.tool && q.requestedAt == r.requestedAt && q.expiresAt == r.expiresAt
  }

  /** Before the deadline a yes approves a pending request, with the operator's arguments if there are
      any, and a no denies it; from the deadline on it expires; a settled one stays as it is. */
  predicate DecidedAs(r: Request, q: Request, now: real, d: Decision) {
    if r.state != Pending then q == r
    else
      && SameRequest(r, q) && q.decidedAt == now && q.decidedBy == d.who && q.note == d.note
      && if r.expiresAt > 0.0 && now >= r.expiresAt then q.state == Expired && q.arguments == r.arguments
        else if d.approved then
          q.state == Approved && q.arguments == if d.arguments.Some? then d.arguments.value else r.arguments
        else q.state == Denied && q.arguments == r.arguments
  }

  /** A pending request expires, a settled one stays as it is. */
  predicate ExpiredAs(r: Request, q: Request, now: real) {
    if r.state != Pending then q == r
    else
      && SameRequest(r, q) && q.arguments == r.arguments && q.state == Expired && q.decidedAt == now
      && q.decidedBy == r.decidedBy && q.note == r.note
  }

  /** No request but `id` has changed. */
  ghost predicate OnlyRequest(m: map<ReqId, Request>, n: map<ReqId, Request>, id: ReqId) {
    && (forall o | o in m && o != id :: o in n && n[o] == m[o])
    && (forall o | o in n && o != id :: o in m)
  }

  // ---- The gate ----

  class ApprovalGate {
    const timeout: Option<real>
    var requests: map<ReqId, Request>
    var waiters: set<ReqId>           // requests someone in this process can wait for
    var signalled: set<ReqId>         // their events that have been set

    constructor (timeout: Option<real>)
      ensures this.timeout == timeout && requests == map[] && waiters == {} && signalled == {}
    {
      this.timeout := timeout;
      requests, waiters, signalled := map[], {}, {};
    }

    /** `request` under a fresh id. */
    method File(now: real, id: ReqId, tool: Tool, args: Args)
      requires id !in requests
      modifies this`requests, this`waiters, this`signalled
      ensures id in requests && OnlyRequest(old(requests), requests, id)
      ensures requests[id].tool == tool && requests[id].arguments == args && requests[id].state == Pending
        && requests[id].requestedAt == now && requests[id].decidedAt == 0.0
      ensures match timeout
        case None => requests[id].expiresAt == 0.0
        case Some(ttl) => requests[id].expiresAt == if ttl == 0.0 then 0.0 else now + ttl
      ensures requests == old(requests)[id := NewRequest(tool, args, now, timeout)]
      ensures waiters == old(waiters) + {id} && signalled == old(signalled) - {id}
    {
      requests := requests[id := NewRequest(tool, args, now, timeout)];
      waiters := waiters + {id};
      signalled := signalled - {id};
    }

    /** `decide`; `None` when this gate never had the request. A settled one comes back untouched. */
    method Decide(now: real, id: ReqId, d: Decision) returns (r: Option<Request>)
      modifies this`requests, this`signalled
      ensures OnlyRequest(old(requests), requests, id) && (id in requests <==> id in old(requests))
      ensures r == if id in requests then Some(requests[id]) else None
      ensures id in requests ==> DecidedAs(old(requests)[id], requests[id], now, d)
      ensures r == if id in old(requests) then Some(Decided(old(requests)[id], now, d)) else None
      ensures requests == if id in old(requests) then old(requests)[id := Decided(old(requests)[id], now, d)]
        else old(requests)
      ensures signalled == if id in old(requests) && old(requests)[id].state == Pending && id in waiters
                           then old(signalled) + {id} else old(signalled)
    {
      if id !in requests { return None; }
      var req := requests[id];
      if req.state != Pending {
        assert requests == requests[id := req];
        return Some(req);
      }
      if IsExpired(req, now) {
        req := req.(state := Expired);
      } else {
        req := req.(state := if d.approved then Approved else Denied);
        if d.approved && d.arguments.Some? {
          req := req.(arguments := d.arguments.value);
        }
      }
      req := req.(decidedBy := d.who, note := d.note, decidedAt := now);
      requests := requests[id := req];
      if id in waiters {
        signalled := signalled + {id};
      }
      r := Some(req);
    }

    /** `_expire`. */
    method Expire(now: real, id: ReqId)
      modifies this`requests
      ensures OnlyRequest(old(requests), requests, id) && (id in requests <==> id in old(requests))
      ensures id in requests ==> ExpiredAs(old(requests)[id], requests[id], now)
      ensures requests == if id in old(requests) then old(requests)[id := TimedOut(old(requests)[id], now)]
        else old(requests)
    {
      if id !in requests || requests[id].state != Pending {
        if id in requests { assert requests == requests[id := requests[id]]; }
        return;
      }
      requests := requests[id := requests[id].(state := Expired, decidedAt := now)];
    }

    /** The first look of `wait`: it clears exactly an approved request, with the arguments approved,
        and goes on to wait exactly for a pending one that was filed in this process. */
    method Look(id: ReqId) returns (v: Verdict)
      ensures v.Cleared? <==> id in requests && requests[id].state == Approved
      ensures v.Cleared? ==> v.arguments == requests[id].arguments
      ensures v.Waits? <==> id in requests && requests[id].state == Pending && id in waiters
      ensures v.Unknown? <==> id !in requests
    {
      if id !in requests { return Unknown; }
      if requests[id].state != Pending { return Settled(requests[id]); }
      v := if id !in waiters then Refused else Waits;
    }

    /** The end of `wait`: the event was set, or the time ran out first. A timeout refuses even if
        a decision slipped in before it. */
    method Wake(now: real, id: ReqId, timedOut: bool) returns (v: Verdict)
      requires id in requests && (timedOut || id in signalled)
      modifies this`requests, this`waiters
      ensures waiters == old(waiters) - {id}
      ensures requests == if timedOut then old(requests)[id := TimedOut(old(requests)[id], now)] else old(requests)
      ensures v == if timedOut then Refused else Settled(requests[id])
    {
      if timedOut {
        Expire(now, id);
      }
      waiters := waiters - {id};
      v := if timedOut then Refused else Settled(requests[id]);
    }

    /** `wait` from beginning to end, for any decision of an operator made while it waits (at time
        `at`) and any outcome of the race with its deadline (which ends it at time `now`): it clears
        only an approved request, with the arguments approved; if it was not timed out, every approved
        one; and a pending request that nobody decided is expired and refused. */
    method Wait(id: ReqId, meanwhile: Option<Decision>, at: real, timedOut: bool, now: real) returns (v: Verdict)
      requires timedOut || meanwhile.Some?
      modifies this
      ensures v.Cleared? ==> id in requests && requests[id].state == Approved && v.arguments == requests[id].arguments
      ensures v.Unknown? <==> id !in old(requests)
      ensures !v.Waits?
      ensures id in old(requests) && (old(requests)[id].state != Pending || id !in old(waiters)) ==>
        requests == old(requests) && (v.Cleared? <==> requests[id].state == Approved)
      ensures id in old(requests) && old(requests)[id].state == Pending && id in old(waiters) ==>
        && id in requests && requests[id].state != Pending
        && requests == old(requests)[id := requests[id]]
        && requests[id] == (if meanwhile.Some? then Decided(old(requests)[id], at, meanwhile.value)
          else TimedOut(old(requests)[id], now))
        && (v.Cleared? <==> !timedOut && requests[id].state == Approved)
      ensures id in old(requests) && old(requests)[id].state == Pending && id in old(waiters) ==>
        var r := old(requests)[id];
        && (v.Cleared? <==>
              !timedOut && meanwhile.Some? && meanwhile.value.approved && !(r.expiresAt > 0.0 && at >= r.expiresAt))
        && (v.Cleared? ==>
              v.arguments == if meanwhile.value.arguments.Some? then meanwhile.value.arguments.value else r.arguments)
    {
      v := Look(id);
      if v.Waits? {
        if meanwhile.Some? {
          var _ := Decide(at, id, meanwhile.value);
        }
        v := Wake(now, id, timedOut);
      }
    }

    /** `pending`: requests past their deadline are settled as expired, not offered. */
    method ListPending(now: real) returns (live: set<ReqId>)
      modifies this`requests
      ensures requests.Keys == old(requests).Keys
      ensures forall id :: id in live <==>
        id in old(requests) && old(requests)[id].state == Pending
          && !(old(requests)[id].expiresAt > 0.0 && now >= old(requests)[id].expiresAt)
      ensures forall id | id in requests ::
        if id in live then requests[id] == old(requests)[id] else ExpiredAs(old(requests)[id], requests[id], now)
    {
      live := set id | id in requests && requests[id].state == Pending && !IsExpired(requests[id], now);
      var stale := set id | id in requests && requests[id].state == Pending && IsExpired(requests[id], now);
      ghost var all := stale;
      while stale != {}
        invariant stale <= all && requests.Keys == old(requests).Keys
        invariant forall id | id in requests ::
          if id in all - stale then ExpiredAs(old(requests)[id], requests[id], now)
          else requests[id] == old(requests)[id]
        decreases stale
      {
        var id :| id in stale;
        Expire(now, id);
        stale := stale - {id};
      }
    }
  }

  // ---- Agents, operators and the clock ----

  type Call = nat         // one tool call of one run

  /** A tool call is waiting for its request, or over. */
  datatype Phase = Waiting(request: ReqId, tool: Tool) | Over

  datatype Invocation = Invocation(call: Call, tool: Tool, arguments: Args, request: Option<ReqId>, at: real)

  datatype Sys = Sys(
    clock: real,
    requests: map<ReqId, Request>,
    calls: map<Call, Phase>,
    filedFor: map<ReqId, Call>,
    invoked: seq<Invocation>)

  /** `_dispatch_tool` with a gate: a gated tool files its own request, any other runs at once. */
  ghost predicate Dispatch(gated: set<Tool>, ttl: Option<real>, s: Sys, t: Sys, c: Call, tool: Tool, args: Args,
                           id: ReqId) {
    && c !in s.calls
    && if tool in gated then
         && id !in s.requests && id !in s.filedFor
         && t == s.(requests := s.requests[id := NewRequest(tool, args, s.clock, ttl)],
                    calls := s.calls[c := Waiting(id, tool)], filedFor := s.filedFor[id := c])
       else
         t == s.(calls := s.calls[c := Over], invoked := s.invoked + [Invocation(c, tool, args, None, s.clock)])
  }

  ghost predicate Operator(s: Sys, t: Sys, id: ReqId, d: Decision) {
    && id in s.requests
    && t == s.(requests := s.requests[id := Decided(s.requests[id], s.clock, d)])
  }

  /** A deadline is enforced by a timed-out wait or by listing the pending requests. */
  ghost predicate Deadline(s: Sys, t: Sys, id: ReqId) {
    id in s.requests && t == s.(requests := s.requests[id := TimedOut(s.requests[id], s.clock)])
  }

  /** A wait that finds its request settled, at its first look or on its event: the tool runs with what
      `_settled` returns, or not at all. */
  ghost predicate Resume(s: Sys, t: Sys, c: Call) {
    && c in s.calls && s.calls[c].Waiting? && s.calls[c].request in s.requests
    && s.requests[s.calls[c].request].state != Pending
    && (var id, tool := s.calls[c].request, s.calls[c].tool;
        var v := Settled(s.requests[id]);
        t == s.(calls := s.calls[c := Over],
                invoked := if v.Cleared? then s.invoked + [Invocation(c, tool, v.arguments, Some(id), s.clock)]
                  else s.invoked))
  }

  ghost predicate GiveUp(s: Sys, t: Sys, c: Call) {
    && c in s.calls && s.calls[c].Waiting? && s.calls[c].request in s.requests
    && (var id := s.calls[c].request;
        t == s.(calls := s.calls[c := Over], requests := s.requests[id := TimedOut(s.requests[id], s.clock)]))
  }

  ghost predicate Tick(s: Sys, t: Sys) {
    s.clock <= t.clock && t == s.(clock := t.clock)
  }

  /** Who does what in one step. */
  datatype Action =
    | Dispatches(call: Call, tool: Tool, arguments: Args, id: ReqId)
    | Decides(id: ReqId, decision: Decision)
    | Enforces(id: ReqId)
    | Resumes(call: Call)
    | GivesUp(call: Call)
    | Ticks

  ghost predicate Next(gated: set<Tool>, ttl: Option<real>, s: Sys, t: Sys, x: Action) {
    match x
    case Dispatches(c, tool, args, id) => Dispatch(gated, ttl, s, t, c, tool, args, id)
    case Decides(id, d) => Operator(s, t, id, d)
    case Enforces(id) => Deadline(s, t, id)
    case Resumes(c) => Resume(s, t, c)
    case GivesUp(c) => GiveUp(s, t, c)
    case Ticks => Tick(s, t)
  }

  /** Any actions of agents, operators and deadlines, and the states before and after each. */
  ghost predicate Run(gated: set<Tool>, ttl: Option<real>, run: seq<Sys>, acts: seq<Action>) {
    && |run| == |acts| + 1 && run[0].requests == map[] && run[0].calls == map[] && run[0].filedFor == map[]
    && run[0].invoked == [] && 0.0 <= run[0].clock
    && forall i | 0 <= i < |acts| :: Next(gated, ttl, run[i], run[i + 1], acts[i])
  }

  /** What `decide` and `_expire` may make of request `r`. */
  predicate Settles(r: Request, q: Request) {
    q.tool == r.tool && q.expiresAt == r.expiresAt && (r.state != Pending || q.state == Pending ==> q == r)
  }

  /** A request never changes while it is pending nor once it is settled, and its tool never does. */
  ghost predicate KeepsSettled(s: Sys, t: Sys) {
    forall id {:trigger id in s.requests} | id in s.requests ::
      id in t.requests && Settles(s.requests[id], t.requests[id])
  }

  lemma KeptOne(s: Sys, t: Sys, id: ReqId)
    requires KeepsSettled(s, t) && id in s.requests
    ensures id in t.requests && Settles(s.requests[id], t.requests[id])
  {
  }

  lemma SameKeepsSettled(s: Sys, t: Sys)
    requires t.requests == s.requests
    ensures KeepsSettled(s, t)
  {
  }

  lemma DispatchKeepsSettled(gated: set<Tool>, ttl: Option<real>, s: Sys, t: Sys, c: Call, tool: Tool, args: Args,
                             id: ReqId)
    requires Dispatch(gated, ttl, s, t, c, tool, args, id)
    ensures KeepsSettled(s, t)
  {
  }

  lemma OperatorKeepsSettled(s: Sys, t: Sys, id: ReqId, d: Decision)
    requires Operator(s, t, id, d)
    ensures KeepsSettled(s, t)
  {
  }

  lemma TimeoutKeepsSettled(s: Sys, t: Sys, id: ReqId)
    requires id in s.requests && t.requests == s.requests[id := TimedOut(s.requests[id], s.clock)]
    ensures KeepsSettled(s, t)
  {
  }

  lemma StepKeepsSettled(gated: set<Tool>, ttl: Option<real>, s: Sys, t: Sys, x: Action)
    requires Next(gated, ttl, s, t, x)
    ensures KeepsSettled(s, t)
  {
    hide KeepsSettled, Dispatch, Operator, Decided, TimedOut, Settled;
    match x {
      case Dispatches(c, tool, args, id) => DispatchKeepsSettled(gated, ttl, s, t, c, tool, args, id);
      case Decides(id, d) => OperatorKeepsSettled(s, t, id, d);
      case Enforces(id) => TimeoutKeepsSettled(s, t, id);
      case GivesUp(c) => TimeoutKeepsSettled(s, t, s.calls[c].request);
      case Resumes(_) => SameKeepsSettled(s, t);
      case Ticks => SameKeepsSettled(s, t);
    }
  }

  /** A gated tool runs only on its own request, approved before the deadline, with exactly the
      approved arguments. */
  ghost predicate InvocationOk(gated: set<Tool>, s: Sys, v: Invocation) {
    && v.at <= s.clock
    && (v.tool in gated ==> v.request.Some?)
    && (v.request.Some? ==>
          var id := v.request.value;
          && id in s.requests && id in s.filedFor && s.filedFor[id] == v.call
          && (var r := s.requests[id];
              && r.tool == v.tool && r.state == Approved && r.arguments == v.arguments
              && r.decidedAt <= v.at && !(r.expiresAt > 0.0 && r.decidedAt >= r.expiresAt)))
  }

  ghost predicate RequestOk(s: Sys, r: Request) {
    && r.decidedAt <= s.clock
    && (r.state == Approved ==> !(r.expiresAt > 0.0 && r.decidedAt >= r.expiresAt))
  }

  ghost predicate CallOk(s: Sys, c: Call, p: Phase) {
    p.Waiting? ==>
      && p.request in s.requests && s.requests[p.request].tool == p.tool
      && p.request in s.filedFor && s.filedFor[p.request] == c
      && forall v | v in s.invoked :: v.call != c
  }

  ghost predicate Inv(gated: set<Tool>, s: Sys) {
    && 0.0 <= s.clock
    && (forall v {:trigger InvocationOk(gated, s, v)} | v in s.invoked :: InvocationOk(gated, s, v))
    && (forall id {:trigger s.requests[id]} | id in s.requests :: RequestOk(s, s.requests[id]))
    && (forall c {:trigger s.calls[c]} | c in s.calls :: CallOk(s, c, s.calls[c]))
    && (forall v | v in s.invoked :: v.call in s.calls && s.calls[v.call] == Over)
    && (forall i, j | 0 <= i < j < |s.invoked| :: s.invoked[i].call != s.invoked[j].call)
    && s.filedFor.Keys == s.requests.Keys
  }

  lemma KeepsInvocation(gated: set<Tool>, s: Sys, t: Sys, v: Invocation)
    requires KeepsSettled(s, t) && s.clock <= t.clock && InvocationOk(gated, s, v)
    requires forall id | id in s.filedFor :: id in t.filedFor && t.filedFor[id] == s.filedFor[id]
    ensures InvocationOk(gated, t, v)
  {
  }

  /** What any step keeps of the parts it does not touch. */
  lemma StepFrame(gated: set<Tool>, s: Sys, t: Sys)
    requires Inv(gated, s) && KeepsSettled(s, t) && 0.0 <= s.clock <= t.clock
    requires forall id | id in s.filedFor :: id in t.filedFor && t.filedFor[id] == s.filedFor[id]
    ensures forall v {:trigger InvocationOk(gated, t, v)} | v in s.invoked :: InvocationOk(gated, t, v)
  {
    hide InvocationOk, KeepsSettled, CallOk, RequestOk;
    forall v | v in s.invoked ensures InvocationOk(gated, t, v) {
      assert InvocationOk(gated, s, v);
      KeepsInvocation(gated, s, t, v);
    }
  }

  lemma DecidedOk(r: Request, now: real, d: Decision, s: Sys, t: Sys)
    requires RequestOk(s, r) && s.clock == now == t.clock && 0.0 <= now
    ensures RequestOk(t, Decided(r, now, d)) && RequestOk(t, TimedOut(r, now))
  {
  }

  /** A step that only changes requests, by decisions and deadlines. */
  lemma RequestsKeep(gated: set<Tool>, s: Sys, t: Sys, id: ReqId)
    requires Inv(gated, s) && KeepsSettled(s, t) && id in s.requests && t.requests == s.requests[id := t.requests[id]]
    requires t.calls == s.calls && t.invoked == s.invoked && t.filedFor == s.filedFor && t.clock == s.clock
    requires RequestOk(t, t.requests[id])
    ensures Inv(gated, t)
  {
    StepFrame(gated, s, t);
    hide InvocationOk;
    forall i | i in t.requests ensures RequestOk(t, t.requests[i]) {
      if i != id { assert RequestOk(s, s.requests[i]); }
    }
    forall c | c in t.calls ensures CallOk(t, c, t.calls[c]) {
      assert CallOk(s, c, s.calls[c]);
    }
  }

  /** A gated call files its request and waits. */
  lemma FilingKeeps(gated: set<Tool>, ttl: Option<real>, s: Sys, t: Sys, c: Call, tool: Tool, args: Args, id: ReqId)
    requires Inv(gated, s) && Dispatch(gated, ttl, s, t, c, tool, args, id) && KeepsSettled(s, t) && tool in gated
    ensures Inv(gated, t)
  {
    StepFrame(gated, s, t);
    hide InvocationOk, KeepsSettled;
    forall i | i in t.requests ensures RequestOk(t, t.requests[i]) {
      if i in s.requests { assert RequestOk(s, s.requests[i]); }
    }
    hide RequestOk;
    forall d | d in t.calls ensures CallOk(t, d, t.calls[d]) {
      if d != c { assert CallOk(s, d, s.calls[d]); }
    }
  }

  /** Any other call runs at once. */
  lemma AtOnceKeeps(gated: set<Tool>, ttl: Option<real>, s: Sys, t: Sys, c: Call, tool: Tool, args: Args, id: ReqId)
    requires Inv(gated, s) && Dispatch(gated, ttl, s, t, c, tool, args, id) && KeepsSettled(s, t) && tool !in gated
    ensures Inv(gated, t)
  {
    StepFrame(gated, s, t);
    hide KeepsSettled;
    forall i | i in t.requests ensures RequestOk(t, t.requests[i]) {
      assert RequestOk(s, s.requests[i]);
    }
    hide RequestOk;
    forall d | d in t.calls ensures CallOk(t, d, t.calls[d]) {
      if d != c { assert CallOk(s, d, s.calls[d]); }
    }
    hide CallOk;
    forall v | v in t.invoked ensures InvocationOk(gated, t, v) {
      if v !in s.invoked { assert v == Invocation(c, tool, args, None, s.clock); }
    }
  }

  lemma DispatchKeeps(gated: set<Tool>, ttl: Option<real>, s: Sys, t: Sys, c: Call, tool: Tool, args: Args, id: ReqId)
    requires Inv(gated, s) && Dispatch(gated, ttl, s, t, c, tool, args, id) && KeepsSettled(s, t)
    ensures Inv(gated, t)
  {
    hide Inv, Dispatch, KeepsSettled;
    if tool in gated {
      FilingKeeps(gated, ttl, s, t, c, tool, args, id);
    } else {
      AtOnceKeeps(gated, ttl, s, t, c, tool, args, id);
    }
  }

  lemma EndKeeps(gated: set<Tool>, s: Sys, t: Sys, c: Call)
    requires Inv(gated, s) && (Resume(s, t, c) || GiveUp(s, t, c)) && KeepsSettled(s, t)
    ensures Inv(gated, t)
  {
    StepFrame(gated, s, t);
    assert CallOk(s, c, s.calls[c]);
    var id := s.calls[c].request;
    assert RequestOk(s, s.requests[id]);
    forall i | i in t.requests ensures RequestOk(t, t.requests[i]) {
      assert RequestOk(s, s.requests[i]);
    }
    forall v | v in t.invoked ensures InvocationOk(gated, t, v) {
      if v !in s.invoked { assert v == t.invoked[|t.invoked| - 1]; }
    }
    hide InvocationOk, RequestOk;
    forall d | d in t.calls ensures CallOk(t, d, t.calls[d]) {
      if d != c { assert CallOk(s, d, s.calls[d]); }
    }
    hide CallOk;
  }

  lemma TickKeeps(gated: set<Tool>, s: Sys, t: Sys)
    requires Inv(gated, s) && Tick(s, t)
    ensures Inv(gated, t)
  {
    StepFrame(gated, s, t);
    hide InvocationOk;
    forall i | i in t.requests ensures RequestOk(t, t.requests[i]) {
      assert RequestOk(s, s.requests[i]);
    }
    forall d | d in t.calls ensures CallOk(t, d, t.calls[d]) {
      assert CallOk(s, d, s.calls[d]);
    }
  }

  lemma NextKeeps(gated: set<Tool>, ttl: Option<real>, s: Sys, t: Sys, x: Action)
    requires Inv(gated, s) && Next(gated, ttl, s, t, x)
    ensures Inv(gated, t)
  {
    StepKeepsSettled(gated, ttl, s, t, x);
    hide Inv, KeepsSettled, Dispatch;
    match x {
      case Dispatches(c, tool, args, id) => DispatchKeeps(gated, ttl, s, t, c, tool, args, id);
      case Decides(id, d) =>
        KnownOk(gated, s, id);
        DecidedOk(s.requests[id], s.clock, d, s, t);
        RequestsKeep(gated, s, t, id);
      case Enforces(id) =>
        KnownOk(gated, s, id);
        DecidedOk(s.requests[id], s.clock, Decision(false, None, None, None), s, t);
        RequestsKeep(gated, s, t, id);
      case Resumes(c) => EndKeeps(gated, s, t, c);
      case GivesUp(c) => EndKeeps(gated, s, t, c);
      case Ticks => TickKeeps(gated, s, t);
    }
  }

  lemma KnownOk(gated: set<Tool>, s: Sys, id: ReqId)
    requires Inv(gated, s) && id in s.requests
    ensures RequestOk(s, s.requests[id]) && 0.0 <= s.clock
  {
  }

  lemma StepOf(gated: set<Tool>, ttl: Option<real>, run: seq<Sys>, acts: seq<Action>, n: nat)
    requires Run(gated, ttl, run, acts) && n < |acts|
    ensures n + 1 < |run| && Next(gated, ttl, run[n], run[n + 1], acts[n]) && KeepsSettled(run[n], run[n + 1])
  {
    hide KeepsSettled, Next;
    StepKeepsSettled(gated, ttl, run[n], run[n + 1], acts[n]);
  }

  lemma {:induction false} RunInv(gated: set<Tool>, ttl: Option<real>, run: seq<Sys>, acts: seq<Action>, n: nat)
    requires Run(gated, ttl, run, acts) && n <= |acts|
    ensures Inv(gated, run[n])
  {
    hide Next, KeepsSettled;
    if n > 0 {
      RunInv(gated, ttl, run, acts, n - 1);
      StepOf(gated, ttl, run, acts, n - 1);
      hide Inv;
      NextKeeps(gated, ttl, run[n - 1], run[n], acts[n - 1]);
    }
  }

  // ---- Where an invocation comes from ----

  /** The request that a step first shows was filed by it, for the call and with the arguments it has. */
  lemma NewlyFiled(gated: set<Tool>, ttl: Option<real>, s: Sys, t: Sys, x: Action, id: ReqId)
    requires Next(gated, ttl, s, t, x) && id in t.requests && id !in s.requests
    ensures x.Dispatches? && x.id == id && x.tool in gated && id in t.filedFor && t.filedFor[id] == x.call
    ensures var r := t.requests[id];
      && r.tool == x.tool && r.arguments == x.arguments && r.state == Pending
      && (ttl.Some? && ttl.value != 0.0 ==> r.expiresAt == s.clock + ttl.value)
  {
  }

  /** Step `a` files request `id` as `r` has it. */
  ghost predicate FiledBy(ttl: Option<real>, run: seq<Sys>, acts: seq<Action>, a: nat, id: ReqId, r: Request,
                          filedFor: map<ReqId, Call>) {
    && a < |acts| < |run| && acts[a].Dispatches? && acts[a].id == id
    && id !in run[a].requests && id in filedFor && filedFor[id] == acts[a].call
    && r.tool == acts[a].tool && (r.state == Pending ==> r.arguments == acts[a].arguments)
    && (ttl.Some? && ttl.value != 0.0 ==> r.expiresAt == run[a].clock + ttl.value)
  }

  lemma FilingsKept(gated: set<Tool>, ttl: Option<real>, s: Sys, t: Sys, x: Action, id: ReqId)
    requires Next(gated, ttl, s, t, x) && id in s.filedFor
    ensures id in t.filedFor && t.filedFor[id] == s.filedFor[id]
  {
  }

  lemma {:induction false} FiledAt(gated: set<Tool>, ttl: Option<real>, run: seq<Sys>, acts: seq<Action>, n: nat,
                                   id: ReqId)
    returns (a: nat)
    requires Run(gated, ttl, run, acts) && n <= |acts| && id in run[n].requests
    ensures a < n && FiledBy(ttl, run, acts, a, id, run[n].requests[id], run[n].filedFor)
    decreases n
  {
    hide Next, KeepsSettled;
    assert n > 0;
    var s, t := run[n - 1], run[n];
    StepOf(gated, ttl, run, acts, n - 1);
    if id in s.requests {
      a := FiledAt(gated, ttl, run, acts, n - 1, id);
      FilingsKept(gated, ttl, s, t, acts[n - 1], id);
      KeptOne(s, t, id);
    } else {
      a := n - 1;
      NewlyFiled(gated, ttl, s, t, acts[n - 1], id);
    }
  }

  /** A request becomes approved by an operator's yes before its deadline and by nothing else. */
  lemma NewlyApproved(gated: set<Tool>, ttl: Option<real>, s: Sys, t: Sys, x: Action, id: ReqId)
    requires Next(gated, ttl, s, t, x) && id in t.requests && t.requests[id].state == Approved
    requires id in s.requests ==> s.requests[id].state != Approved
    ensures id in s.requests && s.requests[id].state == Pending
    ensures x.Decides? && x.id == id && x.decision.approved
    ensures var r, d := s.requests[id], x.decision;
      && t.requests[id].arguments == (if d.arguments.Some? then d.arguments.value else r.arguments)
      && !(r.expiresAt > 0.0 && s.clock >= r.expiresAt)
  {
  }

  /** Step `b` is an operator's yes to the pending request `id` before its deadline, which leaves it with
      the arguments `args`. */
  ghost predicate ApprovedBy(run: seq<Sys>, acts: seq<Action>, b: nat, id: ReqId, args: Args) {
    && b < |acts| < |run| && acts[b].Decides? && acts[b].id == id && acts[b].decision.approved
    && id in run[b].requests && run[b].requests[id].state == Pending
    && (var r, d := run[b].requests[id], acts[b].decision;
        && args == (if d.arguments.Some? then d.arguments.value else r.arguments)
        && !(r.expiresAt > 0.0 && run[b].clock >= r.expiresAt))
  }

  lemma {:induction false} ApprovedAt(gated: set<Tool>, ttl: Option<real>, run: seq<Sys>, acts: seq<Action>, n: nat,
                                      id: ReqId)
    returns (b: nat)
    requires Run(gated, ttl, run, acts) && n <= |acts|
    requires id in run[n].requests && run[n].requests[id].state == Approved
    ensures b < n && ApprovedBy(run, acts, b, id, run[n].requests[id].arguments)
    decreases n
  {
    hide Next, KeepsSettled;
    assert n > 0;
    var s, t := run[n - 1], run[n];
    StepOf(gated, ttl, run, acts, n - 1);
    if id in s.requests && s.requests[id].state == Approved {
      b := ApprovedAt(gated, ttl, run, acts, n - 1, id);
      KeptOne(s, t, id);
    } else {
      b := n - 1;
      NewlyApproved(gated, ttl, s, t, acts[n - 1], id);
    }
  }

  /** An invocation that rests on a request is made when the wait for it resumes and finds it approved. */
  lemma NewlyInvoked(gated: set<Tool>, ttl: Option<real>, s: Sys, t: Sys, x: Action, i: nat)
    requires Next(gated, ttl, s, t, x) && i < |t.invoked|
    ensures |s.invoked| <= |t.invoked| <= |s.invoked| + 1
    ensures i < |s.invoked| ==> t.invoked[i] == s.invoked[i]
    ensures i == |s.invoked| && t.invoked[i].request.Some? ==>
      var v, id := t.invoked[i], t.invoked[i].request.value;
      && x == Resumes(v.call) && id in s.requests
      && s.requests[id].state == Approved && v.arguments == s.requests[id].arguments
  {
  }

  /** Step `e` makes invocation `v`, on its request as it stands approved. */
  ghost predicate InvokedBy(run: seq<Sys>, acts: seq<Action>, e: nat, i: nat, v: Invocation)
    requires v.request.Some?
  {
    && e < |acts| < |run| && acts[e] == Resumes(v.call)
    && |run[e].invoked| == i < |run[e + 1].invoked| && run[e + 1].invoked[i] == v
    && v.request.value in run[e].requests
    && run[e].requests[v.request.value].state == Approved
    && run[e].requests[v.request.value].arguments == v.arguments
  }

  lemma {:induction false} InvokedAt(gated: set<Tool>, ttl: Option<real>, run: seq<Sys>, acts: seq<Action>, n: nat,
                                     i: nat)
    returns (e: nat)
    requires Run(gated, ttl, run, acts) && n <= |acts| && i < |run[n].invoked| && run[n].invoked[i].request.Some?
    ensures e < n && InvokedBy(run, acts, e, i, run[n].invoked[i])
    decreases n
  {
    hide Next, KeepsSettled;
    assert n > 0;
    StepOf(gated, ttl, run, acts, n - 1);
    NewlyInvoked(gated, ttl, run[n - 1], run[n], acts[n - 1], i);
    if i < |run[n - 1].invoked| {
      e := InvokedAt(gated, ttl, run, acts, n - 1, i);
    } else {
      e := n - 1;
    }
  }

  /** What led to invocation `v`, step by step: `a` filed its request for that very call, `b` was an
      operator's yes to it before its deadline, and `e` ran the tool, with the operator's arguments if the
      operator gave any and else with those filed. */
  ghost predicate LedTo(ttl: Option<real>, run: seq<Sys>, acts: seq<Action>, a: nat, b: nat, e: nat, v: Invocation) {
    && v.request.Some? && a < b < e < |acts| < |run|
    && acts[a].Dispatches? && acts[a].id == v.request.value && v.request.value !in run[a].requests
    && acts[a].call == v.call && acts[a].tool == v.tool
    && acts[b].Decides? && acts[b].id == v.request.value && acts[b].decision.approved
    && v.request.value in run[b].requests && run[b].requests[v.request.value].state == Pending
    && (ttl.Some? && ttl.value > 0.0 ==> run[b].clock < run[a].clock + ttl.value)
    && v.arguments ==
       (if acts[b].decision.arguments.Some? then acts[b].decision.arguments.value else acts[a].arguments)
    && acts[e] == Resumes(v.call)
  }

  /** The way of every invocation that rests on a request. */
  lemma InvocationTraced(gated: set<Tool>, ttl: Option<real>, run: seq<Sys>, acts: seq<Action>, n: nat, i: nat)
    returns (a: nat, b: nat, e: nat)
    requires Run(gated, ttl, run, acts) && n <= |acts| && i < |run[n].invoked| && run[n].invoked[i].request.Some?
    ensures e < n && LedTo(ttl, run, acts, a, b, e, run[n].invoked[i])
  {
    var id := run[n].invoked[i].request.value;
    hide Run, Inv;
    e := InvokedAt(gated, ttl, run, acts, n, i);
    b := ApprovedAt(gated, ttl, run, acts, e, id);
    a := FiledAt(gated, ttl, run, acts, b, id);
    RunInv(gated, ttl, run, acts, a);
    ClockPositive(gated, run[a]);
    InvokedFor(gated, ttl, run, acts, n, i);
    FilingStays(gated, ttl, run, acts, b, n, id);
    ToolStays(gated, ttl, run, acts, b, n, id);
  }

  lemma ClockPositive(gated: set<Tool>, s: Sys)
    requires Inv(gated, s)
    ensures 0.0 <= s.clock
  {
  }

  lemma InvokedFor(gated: set<Tool>, ttl: Option<real>, run: seq<Sys>, acts: seq<Action>, n: nat, i: nat)
    requires Run(gated, ttl, run, acts) && n <= |acts| && i < |run[n].invoked| && run[n].invoked[i].request.Some?
    ensures InvocationOk(gated, run[n], run[n].invoked[i])
  {
    RunInv(gated, ttl, run, acts, n);
    hide Run, InvocationOk;
  }

  lemma {:induction false} FilingStays(gated: set<Tool>, ttl: Option<real>, run: seq<Sys>, acts: seq<Action>, i: nat,
                                       j: nat, id: ReqId)
    requires Run(gated, ttl, run, acts) && i <= j <= |acts| && id in run[i].filedFor
    ensures id in run[j].filedFor && run[j].filedFor[id] == run[i].filedFor[id]
    decreases j
  {
    hide Next, KeepsSettled;
    if i < j {
      FilingStays(gated, ttl, run, acts, i, j - 1, id);
      StepOf(gated, ttl, run, acts, j - 1);
      FilingsKept(gated, ttl, run[j - 1], run[j], acts[j - 1], id);
    }
  }

  lemma {:induction false} ToolStays(gated: set<Tool>, ttl: Option<real>, run: seq<Sys>, acts: seq<Action>, i: nat,
                                     j: nat, id: ReqId)
    requires Run(gated, ttl, run, acts) && i <= j <= |acts| && id in run[i].requests
    ensures id in run[j].requests && run[j].requests[id].tool == run[i].requests[id].tool
    decreases j
  {
    hide Next, KeepsSettled;
    if i < j {
      ToolStays(gated, ttl, run, acts, i, j - 1, id);
      StepOf(gated, ttl, run, acts, j - 1);
      KeptOne(run[j - 1], run[j], id);
    }
  }

  /** In every run a gated tool was invoked only after the request filed for that very call got an
      operator's yes before its deadline, with the operator's arguments if the operator gave any and
      else with those filed, and each call and each request led to at most one invocation. */
  lemma GatedToolsNeedApproval(gated: set<Tool>, ttl: Option<real>, run: seq<Sys>, acts: seq<Action>, n: nat, i: nat)
    returns (a: nat, b: nat, e: nat)
    requires Run(gated, ttl, run, acts) && n <= |acts| && i < |run[n].invoked| && run[n].invoked[i].tool in gated
    ensures var s := run[n]; var v := s.invoked[i];
      && e < n && LedTo(ttl, run, acts, a, b, e, v)
      && v.request.value in s.filedFor && s.filedFor[v.request.value] == v.call
      && v.request.value in s.requests
      && (var r := s.requests[v.request.value];
          && r.state == Approved && r.tool == v.tool && r.arguments == v.arguments
          && r.decidedAt <= v.at && (r.expiresAt > 0.0 ==> r.decidedAt < r.expiresAt))
      && forall j | 0 <= j < |s.invoked| && j != i :: s.invoked[j].call != v.call && s.invoked[j].request != v.request
  {
    RunInv(gated, ttl, run, acts, n);
    hide Run, LedTo;
    var s := run[n];
    var v := s.invoked[i];
    assert InvocationOk(gated, s, v);
    forall j | 0 <= j < |s.invoked| && j != i
      ensures s.invoked[j].call != v.call && s.invoked[j].request != v.request
    {
      assert InvocationOk(gated, s, s.invoked[j]);
    }
    a, b, e := InvocationTraced(gated, ttl, run, acts, n, i);
  }

  /** Settled requests never change, over any stretch of a run. */
  lemma {:induction false} SettledStays(gated: set<Tool>, ttl: Option<real>, run: seq<Sys>, acts: seq<Action>, i: nat,
                                        j: nat, id: ReqId)
    requires Run(gated, ttl, run, acts) && i <= j <= |acts|
    requires id in run[i].requests && run[i].requests[id].state != Pending
    ensures id in run[j].requests && run[j].requests[id] == run[i].requests[id]
    decreases j
  {
    hide Next, KeepsSettled;
    if i < j {
      SettledStays(gated, ttl, run, acts, i, j - 1, id);
      StepOf(gated, ttl, run, acts, j - 1);
      KeptOne(run[j - 1], run[j], id);
    }
  }

  /** A no is final: whatever anyone does after it, before or after its deadline, no tool ever runs on
      the request. */
  lemma NoIsFinal(gated: set<Tool>, ttl: Option<real>, run: seq<Sys>, acts: seq<Action>, j: nat, id: ReqId, n: nat)
    requires Run(gated, ttl, run, acts) && j < |acts| && n <= |acts|
    requires acts[j].Decides? && acts[j].id == id && !acts[j].decision.approved
    requires id in run[j].requests && run[j].requests[id].state == Pending
    ensures forall v | v in run[n].invoked :: v.request != Some(id)
  {
    forall i | 0 <= i < |run[n].invoked| ensures run[n].invoked[i].request != Some(id) {
      if run[n].invoked[i].request == Some(id) {
        var _, b, _ := InvocationTraced(gated, ttl, run, acts, n, i);
        PendingOnce(gated, ttl, run, acts, b, j, id);
        PendingOnce(gated, ttl, run, acts, j, b, id);
      }
    }
  }

  /** A decision settles a pending request, so a later one finds it settled. */
  lemma PendingOnce(gated: set<Tool>, ttl: Option<real>, run: seq<Sys>, acts: seq<Action>, i: nat, j: nat, id: ReqId)
    requires Run(gated, ttl, run, acts) && i < |acts| && j < |acts| && acts[i].Decides? && acts[i].id == id
    requires id in run[i].requests && run[i].requests[id].state == Pending
    ensures i < j ==> id in run[j].requests && run[j].requests[id].state != Pending
  {
    hide KeepsSettled, Operator;
    StepOf(gated, ttl, run, acts, i);
    if i < j {
      DecisionSettles(run[i], run[i + 1], id, acts[i].decision);
      hide Next;
      SettledStays(gated, ttl, run, acts, i + 1, j, id);
    }
  }

  lemma DecisionSettles(s: Sys, t: Sys, id: ReqId, d: Decision)
    requires Operator(s, t, id, d) && s.requests[id].state == Pending
    ensures id in t.requests && t.requests[id].state != Pending
  {
  }
}

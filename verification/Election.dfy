/** Leader election among the owner replicas of a queue (`QueueRole` with `ha=True`). */
module Election {

  // uuid4().hex has fixed length and lower-case digits, so text order is the order of the number.
  type Id = nat

  ghost predicate IsMin(s: set<Id>, a: Id) {
    a in s && forall b | b in s :: a <= b
  }

  /** `leader == self._id`. */
  predicate Leads(members: set<Id>, me: Id) {
    me in members && forall b | b in members :: me <= b
  }

  /** One replica's membership view and role. */
  class QueueRole {
    const id: Id
    var members: set<Id>
    var active: bool

    constructor (id: Id)
      ensures this.id == id && members == {} && !active && Consistent()
    {
      this.id := id;
      members, active := {}, false;
    }

    predicate Consistent()
      reads this
    {
      active <==> Leads(members, id)
    }

    /** `_on_membership` under the election lock: a liveliness token appeared or went away. */
    method OnMembership(owner: Id, put: bool)
      requires Consistent()
      modifies this
      ensures Consistent() && members == if put then old(members) + {owner} else old(members) - {owner}
      ensures active <==> IsMin(members, id)
    {
      members := if put then members + {owner} else members - {owner};
      Reconcile();
    }

    /** The end of `bind`: the replica counts itself in. */
    method CountSelf()
      requires Consistent()
      modifies this
      ensures Consistent() && members == old(members) + {id} && (active <==> IsMin(members, id))
    {
      members := members + {id};
      Reconcile();
    }

    method Reconcile()
      modifies this`active
      ensures Consistent() && (active <==> IsMin(members, id))
    {
      if Leads(members, id) && !active {
        active := true;       // `_activate`
      } else if !Leads(members, id) && active {
        active := false;      // `_deactivate`
      }
    }
  }

  // ---- The protocol ----

  /** A subscribed replica; `pending[o]` are the events about owner `o` still to be delivered, in
      order (`true` for a token that appeared). Events about different owners may overtake. */
  datatype Replica = Replica(members: set<Id>, active: bool, bound: bool, pending: map<Id, seq<bool>>)

  datatype Net = Net(
    live: set<Id>,                  // declared liveliness tokens
    replicas: map<Id, Replica>,     // live replicas that have subscribed
    used: set<Id>)                  // every id ever drawn

  function Pending(r: Replica, o: Id): seq<bool> {
    if o in r.pending then r.pending[o] else []
  }

  /** Every subscribed replica will hear about owner `o`. */
  function Notify(replicas: map<Id, Replica>, o: Id, put: bool): map<Id, Replica> {
    map i | i in replicas :: replicas[i].(pending := replicas[i].pending[o := Pending(replicas[i], o) + [put]])
  }

  /** Reconciled with a new view. */
  function Reconciled(r: Replica, me: Id, members: set<Id>): Replica {
    r.(members := members, active := Leads(members, me))
  }

  ghost predicate Declare(s: Net, t: Net, me: Id) {
    && me !in s.used
    && t == Net(s.live + {me}, Notify(s.replicas, me, true), s.used + {me})
  }

  /** `declare_subscriber(history=True)`: the tokens alive now are replayed first. */
  function Replayed(live: set<Id>): map<Id, seq<bool>> {
    map o | o in live :: [true]
  }

  ghost predicate Subscribe(s: Net, t: Net, me: Id) {
    && me in s.live && me !in s.replicas
    && t == s.(replicas := s.replicas[me := Replica({}, false, false, Replayed(s.live))])
  }

  ghost predicate Bind(s: Net, t: Net, me: Id) {
    && me in s.replicas && !s.replicas[me].bound
    && (var r := s.replicas[me];
        t == s.(replicas := s.replicas[me := Reconciled(r, me, r.members + {me}).(bound := true)]))
  }

  ghost predicate Deliver(s: Net, t: Net, me: Id, o: Id) {
    && me in s.replicas && Pending(s.replicas[me], o) != []
    && (var r := s.replicas[me];
        var put, rest := r.pending[o][0], r.pending[o][1..];
        t == s.(replicas := s.replicas[me :=
          Reconciled(r.(pending := r.pending[o := rest]), me, if put then r.members + {o} else r.members - {o})]))
  }

  /** A crash or `unbind`: the token goes away and the others will hear. */
  ghost predicate Crash(s: Net, t: Net, me: Id) {
    && me in s.live
    && t == s.(live := s.live - {me}, replicas := Notify(s.replicas - {me}, me, false))
  }

  ghost predicate Next(s: Net, t: Net) {
    || (exists me :: Declare(s, t, me)) || (exists me :: Subscribe(s, t, me)) || (exists me :: Bind(s, t, me))
    || (exists me, o :: Deliver(s, t, me, o)) || (exists me :: Crash(s, t, me))
  }

  const EMPTY := Net({}, map[], {})

  ghost predicate Run(run: seq<Net>) {
    run != [] && run[0] == EMPTY && forall i | 0 <= i < |run| - 1 :: Next(run[i], run[i + 1])
  }

  // ---- Invariant ----

  /** What replica `r` will think of owner `o` once its pending events are delivered. */
  predicate Eventually(r: Replica, o: Id) {
    var p := Pending(r, o);
    if p == [] then o in r.members else p[|p| - 1]
  }

  /** View plus pending events equals the live set, and active means lowest id of the view. */
  ghost predicate ReplicaOk(s: Net, me: Id, r: Replica) {
    && me in s.live
    && (forall o {:trigger Eventually(r, o)} :: Eventually(r, o) <==> o in s.live)
    && (r.active <==> Leads(r.members, me))
  }

  ghost predicate Inv(s: Net) {
    && s.live <= s.used
    && forall me {:trigger s.replicas[me]} | me in s.replicas :: ReplicaOk(s, me, s.replicas[me])
  }

  /** Hearing about owner `o` changes the outlook on `o` alone. */
  lemma Notified(r: Replica, o: Id, put: bool, x: Id)
    ensures Eventually(r.(pending := r.pending[o := Pending(r, o) + [put]]), x)
      <==> if x == o then put else Eventually(r, x)
  {
  }

  lemma NotifyKeeps(s: Net, t: Net, o: Id, put: bool, others: map<Id, Replica>)
    requires Inv(s) && t.replicas == Notify(others, o, put) && t.live <= t.used
    requires forall me | me in others :: me in s.replicas && others[me] == s.replicas[me] && me in t.live
    requires t.live == if put then s.live + {o} else s.live - {o}
    ensures Inv(t)
  {
    hide Leads;
    forall me | me in t.replicas ensures ReplicaOk(t, me, t.replicas[me]) {
      assert ReplicaOk(s, me, s.replicas[me]);
      forall x ensures Eventually(t.replicas[me], x) <==> x in t.live {
        Notified(s.replicas[me], o, put, x);
      }
    }
  }

  lemma DeliverKeeps(s: Net, t: Net, me: Id, o: Id)
    requires Inv(s) && Deliver(s, t, me, o)
    ensures Inv(t)
  {
    hide Leads;
    var r, u := s.replicas[me], t.replicas[me];
    assert ReplicaOk(s, me, r);
    forall x ensures Eventually(u, x) <==> x in t.live {
      assert Eventually(u, x) <==> Eventually(r, x);
    }
    forall i | i in t.replicas ensures ReplicaOk(t, i, t.replicas[i]) {
      if i != me { assert ReplicaOk(s, i, s.replicas[i]); }
    }
  }

  lemma LocalKeeps(s: Net, t: Net, me: Id)
    requires Inv(s) && (Subscribe(s, t, me) || Bind(s, t, me))
    ensures Inv(t)
  {
    forall i | i in t.replicas ensures ReplicaOk(t, i, t.replicas[i]) {
      if i != me {
        assert ReplicaOk(s, i, s.replicas[i]);
      } else if Bind(s, t, me) {
        var r, u := s.replicas[me], t.replicas[me];
        assert ReplicaOk(s, me, r);
        forall x ensures Eventually(u, x) <==> x in t.live {
          assert Eventually(u, x) <==> Eventually(r, x) || (x == me && Pending(r, x) == []);
          assert Eventually(r, me);
        }
      }
    }
  }

  /** Every step keeps the invariant. */
  lemma NextKeeps(s: Net, t: Net)
    requires Inv(s) && Next(s, t)
    ensures Inv(t)
  {
    hide Leads, Eventually;
    if me :| Declare(s, t, me) {
      assert forall i | i in s.replicas :: ReplicaOk(s, i, s.replicas[i]);
      NotifyKeeps(s, t, me, true, s.replicas);
    } else if me :| Subscribe(s, t, me) {
      LocalKeeps(s, t, me);
    } else if me :| Bind(s, t, me) {
      LocalKeeps(s, t, me);
    } else if me, o :| Deliver(s, t, me, o) {
      DeliverKeeps(s, t, me, o);
    } else if me :| Crash(s, t, me) {
      assert forall i | i in s.replicas :: ReplicaOk(s, i, s.replicas[i]);
      NotifyKeeps(s, t, me, false, s.replicas - {me});
    }
  }

  lemma {:induction false} RunInv(run: seq<Net>, n: nat)
    requires Run(run) && n < |run|
    ensures Inv(run[n])
  {
    if n > 0 {
      hide Inv, Next;
      RunInv(run, n - 1);
      assert Next(run[n - 1], run[n - 1 + 1]);
      NextKeeps(run[n - 1], run[n]);
    }
  }

  /** Every live replica has subscribed and heard everything. */
  ghost predicate Settled(s: Net) {
    forall me | me in s.live ::
      me in s.replicas && forall o {:trigger Pending(s.replicas[me], o)} :: Pending(s.replicas[me], o) == []
  }

  /** Once nothing is pending, every live replica sees exactly the live ones, and the one with the
      lowest id, and no other, is the owner. */
  lemma ExactlyOneOwner(run: seq<Net>, n: nat)
    requires Run(run) && n < |run| && Settled(run[n])
    ensures forall me | me in run[n].live :: run[n].replicas[me].members == run[n].live
    ensures forall me | me in run[n].live :: run[n].replicas[me].active <==> IsMin(run[n].live, me)
    ensures run[n].live != {} ==> exists me :: me in run[n].live && run[n].replicas[me].active
  {
    RunInv(run, n);
    var s := run[n];
    forall me | me in s.live ensures s.replicas[me].members == s.live {
      var r := s.replicas[me];
      assert ReplicaOk(s, me, r);
      forall o ensures o in r.members <==> o in s.live {
        assert Pending(r, o) == [] && (Eventually(r, o) <==> o in s.live);
      }
    }
    if s.live != {} {
      var me := LowestOf(s.live);
    }
  }

  /** What two owners at once mean, in every run: the higher one does not see the lower, and the news
      that the lower is alive is still on its way to it. */
  lemma TwoOwnersNeedNews(run: seq<Net>, n: nat, a: Id, b: Id)
    requires Run(run) && n < |run| && a < b && a in run[n].replicas && b in run[n].replicas
    requires run[n].replicas[a].active && run[n].replicas[b].active
    ensures a !in run[n].replicas[b].members && b in run[n].live
    ensures var p := Pending(run[n].replicas[b], a); p != [] && p[|p| - 1]
  {
    RunInv(run, n);
    hide Run;
    var s := run[n];
    assert ReplicaOk(s, a, s.replicas[a]) && ReplicaOk(s, b, s.replicas[b]);
    assert Eventually(s.replicas[b], a) <==> a in s.live;
  }

  lemma {:induction false} LowestOf(s: set<Id>) returns (me: Id)
    requires s != {}
    ensures IsMin(s, me)
    decreases s
  {
    var x :| x in s;
    if s == {x} {
      me := x;
    } else {
      var other := LowestOf(s - {x});
      me := if other < x then other else x;
      assert forall b | b in s :: b == x || b in s - {x};
    }
  }

  /** Before everything is heard two replicas can both be active: a lower id has just counted
      itself in and the older owner has not heard of it yet. */
  lemma TwoOwnersWhilePending() returns (run: seq<Net>)
    ensures Run(run)
    ensures var s := run[|run| - 1]; 1 in s.replicas && 2 in s.replicas && s.replicas[1].active && s.replicas[2].active
  {
    var alone, both := Replayed({2}), Replayed({1, 2});
    var r := Replica({2}, true, true, alone);
    var s1 := Net({2}, map[], {2});
    var s2 := Net({2}, map[2 := Replica({}, false, false, alone)], {2});
    var s3 := Net({2}, map[2 := r], {2});
    var s4 := Net({1, 2}, Notify(map[2 := r], 1, true), {1, 2});
    var s5 := s4.(replicas := s4.replicas[1 := Replica({}, false, false, both)]);
    var s6 := s4.(replicas := s4.replicas[1 := Replica({1}, true, true, both)]);
    run := [EMPTY, s1, s2, s3, s4, s5, s6];
    assert Notify(EMPTY.replicas, 2, true) == map[];
    assert Declare(EMPTY, s1, 2);
    assert Subscribe(s1, s2, 2);
    assert {} + {2} == {2} && {} + {1} == {1};
    assert s2.replicas[2 := r] == s3.replicas;
    assert Bind(s2, s3, 2);
    assert {2} + {1} == {1, 2};
    assert Declare(s3, s4, 1);
    assert Subscribe(s4, s5, 1);
    assert s5.replicas[1 := Replica({1}, true, true, both)] == s6.replicas;
    assert Bind(s5, s6, 1);
  }
}

/** How an address list changes the set of connections. */
module Reconciliation {
  import opened Wrappers
  import opened Connectivity
  import opened BalancerModel
  import opened BalancerInvariants

  /** None of the `NewSubConn` attempts from number `from` up to `to` failed. */
  ghost predicate Unrefused(refuse: nat -> bool, from: nat, to: nat) {
    forall n :: from <= n < to ==> !refuse(n)
  }

  ghost predicate NoneRefused(refuse: nat -> bool, b: Balancer, b': Balancer) {
    Unrefused(refuse, b.cc.attempts, b'.cc.attempts)
  }

  lemma AddressKeysAppend(addresses: seq<Address>, last: Address)
    ensures AddressKeys(addresses + [last]) == AddressKeys(addresses) + {BuildAddressKey(last)}
  {
  }

  lemma KeySetInsert(m: map<string, SubConn>, k: string, n: SubConn)
    requires k !in m
    ensures m[k := n].Keys == m.Keys + {k}
    ensures |m[k := n]| == |m| + 1
  {
  }

  lemma CreateKeys(refuse: nat -> bool, b: Balancer, addr: Address)
    ensures var b' := CreateSubConnection(refuse, b, BuildAddressKey(addr), addr);
            && b.subConns.Keys <= b'.subConns.Keys <= b.subConns.Keys + {BuildAddressKey(addr)}
            && b.cc.attempts <= b'.cc.attempts <= b.cc.attempts + 1
  {
  }

  lemma CreateUnrefused(refuse: nat -> bool, b: Balancer, addr: Address)
    requires NoneRefused(refuse, b, CreateSubConnection(refuse, b, BuildAddressKey(addr), addr))
    ensures var b' := CreateSubConnection(refuse, b, BuildAddressKey(addr), addr);
            && b'.subConns.Keys == b.subConns.Keys + {BuildAddressKey(addr)}
            && |b'.subConns| == |b.subConns| + (b'.cc.attempts - b.cc.attempts)
  {
    var b', key, n := CreateSubConnection(refuse, b, BuildAddressKey(addr), addr), BuildAddressKey(addr), b.cc.attempts;
    if key in b.subConns {
      assert b.subConns.Keys + {key} == b.subConns.Keys;
    } else {
      assert b'.cc.attempts == n + 1;
      assert !refuse(n);
      assert b'.subConns == b.subConns[key := n];
      KeySetInsert(b.subConns, key, n);
    }
  }

  /** The creation loop adds only given keys. */
  lemma {:induction false} CreateAllKeys(refuse: nat -> bool, b: Balancer, addresses: seq<Address>)
    ensures var b' := CreateAll(refuse, b, addresses);
            && b.subConns.Keys <= b'.subConns.Keys <= b.subConns.Keys + AddressKeys(addresses)
            && b.cc.attempts <= b'.cc.attempts
  {
    if addresses != [] {
      var front, last := addresses[..|addresses| - 1], addresses[|addresses| - 1];
      assert addresses == front + [last];
      AddressKeysAppend(front, last);
      CreateAllKeys(refuse, b, front);
      CreateKeys(refuse, CreateAll(refuse, b, front), last);
    }
  }

  lemma UnionStep(had: set<string>, front: set<string>, last: string)
    ensures had + front + {last} == had + (front + {last})
  {
  }

  /** With no refusal it adds all the missing ones, and makes exactly one attempt for each,
      however often an address is repeated. */
  lemma {:induction false} CreateAllUnrefused(refuse: nat -> bool, b: Balancer, addresses: seq<Address>)
    requires NoneRefused(refuse, b, CreateAll(refuse, b, addresses))
    ensures var b' := CreateAll(refuse, b, addresses);
            && b'.subConns.Keys == b.subConns.Keys + AddressKeys(addresses)
            && |b'.subConns| == |b.subConns| + (b'.cc.attempts - b.cc.attempts)
  {
    if addresses != [] {
      var front, last := addresses[..|addresses| - 1], addresses[|addresses| - 1];
      var mid, b' := CreateAll(refuse, b, front), CreateAll(refuse, b, addresses);
      assert addresses == front + [last];
      AddressKeysAppend(front, last);
      CreateAllKeys(refuse, b, front);
      CreateKeys(refuse, mid, last);
      assert Unrefused(refuse, b.cc.attempts, mid.cc.attempts);
      assert Unrefused(refuse, mid.cc.attempts, b'.cc.attempts);
      CreateAllUnrefused(refuse, b, front);
      CreateUnrefused(refuse, mid, last);
      UnionStep(b.subConns.Keys, AddressKeys(front), BuildAddressKey(last));
      assert b' == CreateSubConnection(refuse, mid, BuildAddressKey(last), last);
    } else {
      assert AddressKeys(addresses) == {};
    }
  }

  lemma {:induction false} CreateAllIdle(refuse: nat -> bool, b: Balancer, addresses: seq<Address>)
    requires AddressKeys(addresses) <= b.subConns.Keys
    ensures CreateAll(refuse, b, addresses) == b
  {
    if addresses != [] {
      var front, last := addresses[..|addresses| - 1], addresses[|addresses| - 1];
      assert addresses == front + [last];
      AddressKeysAppend(front, last);
      CreateAllIdle(refuse, b, front);
    }
  }

  lemma RetireNone(b: Balancer, keep: set<string>)
    requires b.subConns.Keys <= keep
    ensures Retire(b, keep) == b
  {
  }

  lemma CreateAllGrows(refuse: nat -> bool, b: Balancer, u: ClientConnState)
    requires Core(b) && Absorb(b, u).options.Some?
    ensures var created := CreateAll(refuse, Absorb(b, u).(apis := true, resolverErr := None), u.addresses);
            Ledgered(created) && Grown(Absorb(b, u).(apis := true, resolverErr := None), created)
  {
    AbsorbKeepsCore(b, u);
    AcceptKeepsCore(Absorb(b, u));
    CreateAllKeepsCore(refuse, Absorb(b, u).(apis := true, resolverErr := None), u.addresses);
  }

  /** A non-empty update leaves connections for given addresses only, and for all of them
      when no creation was refused. */
  lemma UpdatedKeys(refuse: nat -> bool, b: Balancer, u: ClientConnState)
    requires Inv(b) && u.addresses != [] && UpdateClientConnState(refuse, b, u).Ok?
    ensures var b' := UpdateClientConnState(refuse, b, u).value;
            && b'.subConns.Keys <= AddressKeys(u.addresses)
            && (NoneRefused(refuse, b, b') ==> b'.subConns.Keys == AddressKeys(u.addresses))
  {
    var accepted := Absorb(b, u).(apis := true, resolverErr := None);
    GoodUpdateShape(refuse, b, u);
    CreateAllKeys(refuse, accepted, u.addresses);
    if NoneRefused(refuse, b, UpdateClientConnState(refuse, b, u).value) {
      assert NoneRefused(refuse, accepted, CreateAll(refuse, accepted, u.addresses));
      CreateAllUnrefused(refuse, accepted, u.addresses);
    }
  }

  /** Attempts are made for missing addresses only: with no refusal one for each, so a
      repeated address makes one connection. */
  lemma UpdatedAttempts(refuse: nat -> bool, b: Balancer, u: ClientConnState)
    requires Inv(b) && u.addresses != [] && UpdateClientConnState(refuse, b, u).Ok?
    ensures var b' := UpdateClientConnState(refuse, b, u).value;
            NoneRefused(refuse, b, b') ==>
              b'.cc.attempts - b.cc.attempts == |AddressKeys(u.addresses) - b.subConns.Keys|
  {
    GoodUpdateShape(refuse, b, u);
    var accepted := Absorb(b, u).(apis := true, resolverErr := None);
    var created := CreateAll(refuse, accepted, u.addresses);
    var b' := UpdateClientConnState(refuse, b, u).value;
    if NoneRefused(refuse, b, b') {
      assert NoneRefused(refuse, accepted, created);
      CreateAllUnrefused(refuse, accepted, u.addresses);
      UnionSize(b.subConns.Keys, AddressKeys(u.addresses));
      assert |created.subConns| == |created.subConns.Keys| && |b.subConns| == |b.subConns.Keys|;
    }
  }

  /** The refused attempts among those numbered from `from` up to `to`. */
  function Refusals(refuse: nat -> bool, from: nat, to: nat): nat
    requires from <= to
  {
    if from == to then 0 else Refusals(refuse, from, to - 1) + if refuse(to - 1) then 1 else 0
  }

  /** The attempts from `from` up to `to` took `had` to `has`: each added a connection or was
      refused, and only refusals left any of `keys` without one. */
  ghost predicate Attempted(refuse: nat -> bool, from: nat, to: nat, had: map<string, SubConn>,
                            has: map<string, SubConn>, keys: set<string>)
  {
    && from <= to
    && |has| + Refusals(refuse, from, to) == |had| + (to - from)
    && |keys - has.Keys| <= Refusals(refuse, from, to)
  }

  lemma MissingStep(keys: set<string>, key: string, had: set<string>, has: set<string>)
    requires had <= has <= had + {key}
    ensures |(keys + {key}) - has| <= |keys - had| + if key in has then 0 else 1
  {
    if key in has {
      Within((keys + {key}) - has, keys - had);
    } else {
      assert has == had;
      Within((keys + {key}) - has, (keys - had) + {key});
    }
  }

  lemma Within(s: set<string>, t: set<string>)
    requires s <= t
    ensures |s| <= |t|
  {
    assert t == s + (t - s);
  }

  lemma AttemptRefused(refuse: nat -> bool, from: nat, to: nat, had: map<string, SubConn>,
                       mid: map<string, SubConn>, keys: set<string>, key: string)
    requires Attempted(refuse, from, to, had, mid, keys)
    ensures key in mid ==> Attempted(refuse, from, to, had, mid, keys + {key})
    ensures key !in mid && refuse(to) ==> Attempted(refuse, from, to + 1, had, mid, keys + {key})
  {
    MissingStep(keys, key, mid.Keys, mid.Keys);
  }

  lemma AttemptMade(refuse: nat -> bool, from: nat, to: nat, had: map<string, SubConn>,
                    mid: map<string, SubConn>, keys: set<string>, key: string)
    requires Attempted(refuse, from, to, had, mid, keys) && key !in mid && !refuse(to)
    ensures Attempted(refuse, from, to + 1, had, mid[key := to], keys + {key})
  {
    KeySetInsert(mid, key, to);
    MissingStep(keys, key, mid.Keys, mid[key := to].Keys);
  }

  /** From `mid` at attempt `to` to `has` at attempt `next`, by what creation does for `key`. */
  ghost predicate CreatesFor(refuse: nat -> bool, mid: map<string, SubConn>, to: nat, has: map<string, SubConn>,
                             next: nat, key: string)
  {
    if key in mid then has == mid && next == to
    else next == to + 1 && has == if refuse(to) then mid else mid[key := to]
  }

  lemma CreateCreates(refuse: nat -> bool, b: Balancer, addr: Address)
    ensures var b' := CreateSubConnection(refuse, b, BuildAddressKey(addr), addr);
            CreatesFor(refuse, b.subConns, b.cc.attempts, b'.subConns, b'.cc.attempts, BuildAddressKey(addr))
  {
  }

  lemma AttemptStep(refuse: nat -> bool, from: nat, to: nat, next: nat, had: map<string, SubConn>,
                    mid: map<string, SubConn>, has: map<string, SubConn>, keys: set<string>, key: string)
    requires Attempted(refuse, from, to, had, mid, keys) && CreatesFor(refuse, mid, to, has, next, key)
    ensures Attempted(refuse, from, next, had, has, keys + {key})
  {
    if key !in mid && !refuse(to) {
      AttemptMade(refuse, from, to, had, mid, keys, key);
    } else {
      AttemptRefused(refuse, from, to, had, mid, keys, key);
    }
  }

  ghost predicate AllAttempted(refuse: nat -> bool, b: Balancer, b': Balancer, addresses: seq<Address>) {
    Attempted(refuse, b.cc.attempts, b'.cc.attempts, b.subConns, b'.subConns, AddressKeys(addresses))
  }

  lemma NoneAttempted(refuse: nat -> bool, b: Balancer)
    ensures AllAttempted(refuse, b, b, [])
  {
    assert AddressKeys([]) - b.subConns.Keys == {};
  }

  lemma LastAttempted(refuse: nat -> bool, b: Balancer, mid: Balancer, front: seq<Address>, last: Address)
    requires AllAttempted(refuse, b, mid, front)
    ensures AllAttempted(refuse, b, CreateSubConnection(refuse, mid, BuildAddressKey(last), last), front + [last])
  {
    var b' := CreateSubConnection(refuse, mid, BuildAddressKey(last), last);
    AddressKeysAppend(front, last);
    CreateCreates(refuse, mid, last);
    AttemptStep(refuse, b.cc.attempts, mid.cc.attempts, b'.cc.attempts, b.subConns, mid.subConns, b'.subConns,
                AddressKeys(front), BuildAddressKey(last));
  }

  lemma {:induction false} CreateAllAttempted(refuse: nat -> bool, b: Balancer, addresses: seq<Address>)
    ensures AllAttempted(refuse, b, CreateAll(refuse, b, addresses), addresses)
  {
    if addresses == [] {
      NoneAttempted(refuse, b);
    } else {
      var front, last := addresses[..|addresses| - 1], addresses[|addresses| - 1];
      CreateAllAttempted(refuse, b, front);
      LastAttempted(refuse, b, CreateAll(refuse, b, front), front, last);
      assert front + [last] == addresses;
    }
  }

  /** With any refusals: every attempt that is not refused makes one connection, and no more
      given addresses stay without one than attempts were refused. So a refusal never stops
      the creation of the other connections. */
  lemma UpdatedRefusals(refuse: nat -> bool, b: Balancer, u: ClientConnState)
    requires u.addresses != [] && UpdateClientConnState(refuse, b, u).Ok?
    ensures var b' := UpdateClientConnState(refuse, b, u).value;
            && b.cc.attempts <= b'.cc.attempts
            && |AddressKeys(u.addresses) - b'.subConns.Keys| <= Refusals(refuse, b.cc.attempts, b'.cc.attempts)
            && |b'.subConns.Keys - b.subConns.Keys| + Refusals(refuse, b.cc.attempts, b'.cc.attempts)
                 == b'.cc.attempts - b.cc.attempts
  {
    var accepted := Absorb(b, u).(apis := true, resolverErr := None);
    var created := CreateAll(refuse, accepted, u.addresses);
    GoodUpdateShape(refuse, b, u);
    CreateAllAttempted(refuse, accepted, u.addresses);
    CreateAllKeys(refuse, accepted, u.addresses);
    CreatedCount(b.subConns, created.subConns, AddressKeys(u.addresses));
  }

  lemma CreatedCount(had: map<string, SubConn>, has: map<string, SubConn>, keys: set<string>)
    requires had.Keys <= has.Keys <= had.Keys + keys
    ensures |Kept(has, keys).Keys - had.Keys| == |has| - |had|
    ensures keys - Kept(has, keys).Keys == keys - has.Keys
  {
    assert Kept(has, keys).Keys == has.Keys * keys;
    CreatedSize(had.Keys, has.Keys, keys);
    assert |has| == |has.Keys| && |had| == |had.Keys|;
  }

  lemma CreatedSize(had: set<string>, has: set<string>, keys: set<string>)
    requires had <= has <= had + keys
    ensures |has * keys - had| == |has| - |had|
    ensures keys - has * keys == keys - has
  {
    assert has * keys - had == has - had;
    UnionSize(had, has);
    assert had + has == has;
  }

  lemma UnionSize(s: set<string>, t: set<string>)
    ensures |s + t| == |s| + |t - s|
  {
  }

  /** A surviving address keeps its connection, every recorded state is kept, and what is
      new is a fresh Idle connection dialled to its address. */
  lemma UpdatedSurvivors(refuse: nat -> bool, b: Balancer, u: ClientConnState)
    requires Inv(b) && u.addresses != [] && UpdateClientConnState(refuse, b, u).Ok?
    ensures var b' := UpdateClientConnState(refuse, b, u).value;
            && (forall a :: a in b.subConns && a in AddressKeys(u.addresses) ==>
                  a in b'.subConns && b'.subConns[a] == b.subConns[a])
            && (forall sc :: sc in b.scStates ==> sc in b'.scStates && b'.scStates[sc] == b.scStates[sc])
            && (forall sc :: sc in b'.scStates && sc !in b.scStates ==>
                  b'.scStates[sc] == Idle && sc !in b.cc.dialed)
            && (forall a :: a in b'.subConns && a !in b.subConns ==>
                  && b'.subConns[a] in b'.scStates && b'.subConns[a] !in b.cc.dialed
                  && b'.subConns[a] in b'.cc.dialed && b'.cc.dialed[b'.subConns[a]] == a)
  {
    GoodUpdateShape(refuse, b, u);
    CreateAllGrows(refuse, b, u);
  }

  lemma GrownStale(refuse: nat -> bool, b: Balancer, addresses: seq<Address>)
    requires Core(b) && b.apis
    ensures var created := CreateAll(refuse, b, addresses);
            Stale(created.subConns, AddressKeys(addresses)) == Stale(b.subConns, AddressKeys(addresses))
  {
    var created, keep := CreateAll(refuse, b, addresses), AddressKeys(addresses);
    CreateAllKeys(refuse, b, addresses);
    CreateAllKeepsCore(refuse, b, addresses);
    StaleWithin(b.subConns, created.subConns, keep);
    StaleWithin(created.subConns, b.subConns, keep);
  }

  lemma StaleWithin(m: map<string, SubConn>, m': map<string, SubConn>, keep: set<string>)
    requires forall a :: a in m && a !in keep ==> a in m' && m'[a] == m[a]
    ensures Stale(m, keep) <= Stale(m', keep)
  {
  }

  /** The connections of the live addresses that `given` does not name. */
  function Vanished(subConns: map<string, SubConn>, given: seq<Address>): set<SubConn> {
    set a | a in subConns && (forall g :: g in given ==> g.addr != a) :: subConns[a]
  }

  /** The connections shut down are those of the addresses that disappeared, once each. */
  lemma UpdatedShutdowns(refuse: nat -> bool, b: Balancer, u: ClientConnState)
    requires Inv(b) && u.addresses != [] && UpdateClientConnState(refuse, b, u).Ok?
    ensures var b' := UpdateClientConnState(refuse, b, u).value;
            && b'.cc.shutdowns == b.cc.shutdowns + multiset(Vanished(b.subConns, u.addresses))
            && |Vanished(b.subConns, u.addresses)| == |b.subConns.Keys - AddressKeys(u.addresses)|
  {
    var accepted := Absorb(b, u).(apis := true, resolverErr := None);
    GoodUpdateShape(refuse, b, u);
    AbsorbKeepsCore(b, u);
    AcceptKeepsCore(Absorb(b, u));
    GrownStale(refuse, accepted, u.addresses);
    CreateAllFrame(refuse, accepted, u.addresses);
    StaleCount(b, AddressKeys(u.addresses));
    StaleVanished(b.subConns, u.addresses);
  }

  lemma StaleVanished(subConns: map<string, SubConn>, given: seq<Address>)
    ensures Stale(subConns, AddressKeys(given)) == Vanished(subConns, given)
  {
    forall a
      ensures a in AddressKeys(given) <==> exists g :: g in given && g.addr == a
    {
      if g :| g in given && g.addr == a {
        assert BuildAddressKey(g) == a;
      }
    }
  }

  lemma StaleCount(b: Balancer, keep: set<string>)
    requires Ledgered(b)
    ensures |Stale(b.subConns, keep)| == |b.subConns.Keys - keep|
  {
    BijectionSize(b.subConns.Keys - keep, Stale(b.subConns, keep), b.subConns, b.cc.dialed);
  }

  lemma {:induction false} BijectionSize(keys: set<string>, scs: set<SubConn>,
                                         to: map<string, SubConn>, back: map<SubConn, string>)
    requires forall a :: a in keys ==> a in to && to[a] in scs && to[a] in back && back[to[a]] == a
    requires forall sc :: sc in scs ==> sc in back && back[sc] in keys && to[back[sc]] == sc
    ensures |keys| == |scs|
  {
    if keys == {} {
      assert scs == {};
    } else {
      var a :| a in keys;
      BijectionSize(keys - {a}, scs - {to[a]}, to, back);
    }
  }

  lemma SameVanished(subConns: map<string, SubConn>, given: seq<Address>, given': seq<Address>)
    requires AddressKeys(given) == AddressKeys(given')
    ensures Vanished(subConns, given) == Vanished(subConns, given')
  {
    StaleVanished(subConns, given);
    StaleVanished(subConns, given');
  }

  /** The resulting addresses do not depend on the order or repetition of the list. */
  lemma OrderIrrelevant(refuse: nat -> bool, b: Balancer, u: ClientConnState, v: ClientConnState)
    requires Inv(b) && u.addresses != [] && v.addresses != []
    requires AddressKeys(u.addresses) == AddressKeys(v.addresses)
    requires UpdateClientConnState(refuse, b, u).Ok? && UpdateClientConnState(refuse, b, v).Ok?
    requires NoneRefused(refuse, b, UpdateClientConnState(refuse, b, u).value)
    requires NoneRefused(refuse, b, UpdateClientConnState(refuse, b, v).value)
    ensures var b1, b2 := UpdateClientConnState(refuse, b, u).value, UpdateClientConnState(refuse, b, v).value;
            && b1.subConns.Keys == b2.subConns.Keys
            && b1.cc.attempts == b2.cc.attempts
            && b1.cc.shutdowns == b2.cc.shutdowns
  {
    UpdatedKeys(refuse, b, u);
    UpdatedKeys(refuse, b, v);
    UpdatedAttempts(refuse, b, u);
    UpdatedAttempts(refuse, b, v);
    UpdatedShutdowns(refuse, b, u);
    UpdatedShutdowns(refuse, b, v);
    SameVanished(b.subConns, u.addresses, v.addresses);
  }

  /** Repeating an update that was refused nothing changes nothing at all. */
  lemma UpdateIdempotent(refuse: nat -> bool, b: Balancer, u: ClientConnState)
    requires Inv(b) && u.addresses != [] && UpdateClientConnState(refuse, b, u).Ok?
    requires NoneRefused(refuse, b, UpdateClientConnState(refuse, b, u).value)
    ensures var b' := UpdateClientConnState(refuse, b, u).value;
            UpdateClientConnState(refuse, b', u) == Ok(b')
  {
    var b' := UpdateClientConnState(refuse, b, u).value;
    UpdatedKeys(refuse, b, u);
    GoodUpdateShape(refuse, b, u);
    ReconcileFrame(refuse, b, u);
    assert Absorb(b', u).(apis := true, resolverErr := None) == b';
    CreateAllIdle(refuse, b', u.addresses);
    RetireNone(b', AddressKeys(u.addresses));
    assert Reconcile(refuse, b', u) == b';
    RebuildAgain(Reconcile(refuse, b, u));
  }

  lemma RebuildAgain(r: Balancer)
    requires RegeneratePicker(r, r.options).Ok?
    ensures var b' := Publish(RegeneratePicker(r, r.options).value);
            RegeneratePicker(b', b'.options).Ok? && Publish(RegeneratePicker(b', b'.options).value) == b'
  {
    var b' := Publish(RegeneratePicker(r, r.options).value);
    assert ReadyEntries(b') == ReadyEntries(r);
  }

  /** An empty address list and a resolver error remove nothing and call nothing but
      `UpdateState`; an empty list still replaces the response the pickers are built from. */
  lemma FailureKeepsConnections(refuse: nat -> bool, b: Balancer, e: Event)
    requires Inv(b)
    requires e.ResolveFailed? || (e.Resolved? && e.update.addresses == [])
    ensures Step(refuse, b, e).Ok?
    ensures var b' := Step(refuse, b, e).value;
            && b'.subConns == b.subConns && b'.scStates == b.scStates && b'.csEvltr == b.csEvltr
            && b'.cc == b.cc.(published := b'.cc.published)
            && b'.state == (if b.subConns == map[] then TransientFailure else b.state)
            && b'.connErr == b.connErr
            && b'.resolverErr == (if e.Resolved? then Some(ProducedZeroAddresses) else e.err)
            && b'.response == (if e.Resolved? then Absorb(b, e.update).response else b.response)
  {
    match e
    case Resolved(u) =>
      AbsorbKeepsInv(b, u);
      ResolverErrorKeepsInv(Absorb(b, u), Some(ProducedZeroAddresses));
      FailureShape(Absorb(b, u), Some(ProducedZeroAddresses));
    case ResolveFailed(err) =>
      ResolverErrorKeepsInv(b, err);
      FailureShape(b, err);
  }
}

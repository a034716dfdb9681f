/** The invariants of the balancer and the proof that every callback keeps them. */
module BalancerInvariants {
  import opened Wrappers
  import opened Connectivity
  import opened BalancerModel

  /** The evaluator's counters are the histogram of the tracked states. */
  ghost predicate Counted(b: Balancer) {
    && b.csEvltr == Histogram(b.scStates)
    && forall sc :: sc in b.scStates ==> b.scStates[sc] != Shutdown
  }

  /** Every handle came from gRPC, a live one was made for the address it is filed under
      and was never shut down, and nothing was shut down twice. */
  ghost predicate Ledgered(b: Balancer) {
    && (forall sc :: sc in b.cc.dialed ==> sc < b.cc.attempts)
    && (forall sc :: sc in b.scStates ==> sc in b.cc.dialed)
    && (forall sc :: sc in b.cc.connects ==> sc in b.cc.dialed)
    && (forall sc :: sc in b.cc.shutdowns ==> sc in b.cc.dialed && b.cc.shutdowns[sc] == 1)
    && (forall a :: a in b.subConns ==>
          && b.subConns[a] in b.cc.dialed
          && b.cc.dialed[b.subConns[a]] == a
          && b.subConns[a] !in b.cc.shutdowns)
  }

  /** The cached aggregate is exact, or TransientFailure, or still the zero value. */
  ghost predicate Lagging(b: Balancer) {
    && (b.state == TransientFailure ==> forall a :: a in b.subConns ==> !IsReady(b, a))
    && (b.state != TransientFailure ==>
          b.state == if b.scStates == map[] then Idle else Aggregate(b.scStates))
  }

  /** Pointers are set before anything dereferences them. */
  ghost predicate Wired(b: Balancer) {
    && (b.options.Some? <==> b.response.Some?)
    && (b.apis ==> b.options.Some?)
    && (b.scStates != map[] ==> b.apis)
    && (b.subConns != map[] ==> b.apis)
    && (b.v2Picker.NamingPicker? ==> b.apis && b.v2Picker.options == b.options)
  }

  /** The cached picker hands out exactly the live Ready connections, and offers only
      instances it has a connection for. */
  ghost predicate Snapshot(b: Balancer) {
    && ReadyView(b.v2Picker) == ReadyEntries(b)
    && (b.v2Picker.NamingPicker? ==>
          && InstanceKeys(b.v2Picker.insList.instances) <= b.v2Picker.readySCs.Keys
          && b.v2Picker.insList.totalWeight == TotalWeight(b.v2Picker.insList.instances))
  }

  /** gRPC was last given the cached pair; once a SubConn can exist it was given one. */
  ghost predicate Shown(b: Balancer) {
    && b.cc.published == (if b.v2Picker.NilPicker? then None else Some(Publication(b.state, b.v2Picker)))
    && (b.apis ==> !b.v2Picker.NilPicker?)
  }

  /** No two addresses share a connection. */
  ghost predicate Injective(subConns: map<string, SubConn>) {
    forall a, a' :: a in subConns && a' in subConns && subConns[a] == subConns[a'] ==> a == a'
  }

  lemma LedgerInjective(b: Balancer)
    requires Ledgered(b)
    ensures Injective(b.subConns)
  {
  }

  ghost predicate Core(b: Balancer) {
    Counted(b) && Ledgered(b) && Lagging(b) && Wired(b)
  }

  ghost predicate Inv(b: Balancer) {
    Core(b) && Snapshot(b) && Shown(b)
  }

  lemma InitInv()
    ensures Inv(Init())
  {
  }

  // ---------- creating connections ----------

  /** `b'` is `b` with more connections, all of them new and Idle. */
  ghost predicate Grown(b: Balancer, b': Balancer) {
    && b' == b.(subConns := b'.subConns, scStates := b'.scStates, csEvltr := b'.csEvltr, cc := b'.cc)
    && b'.cc.shutdowns == b.cc.shutdowns && b'.cc.published == b.cc.published
    && b.cc.attempts <= b'.cc.attempts
    && (forall a :: a in b.subConns ==> a in b'.subConns && b'.subConns[a] == b.subConns[a])
    && (forall sc :: sc in b.scStates ==> sc in b'.scStates && b'.scStates[sc] == b.scStates[sc])
    && (forall sc :: sc in b'.scStates && sc !in b.scStates ==> b'.scStates[sc] == Idle && b.cc.attempts <= sc)
    && (forall a :: a in b'.subConns && a !in b.subConns ==>
          b'.subConns[a] in b'.scStates && b.cc.attempts <= b'.subConns[a])
    && (forall sc :: sc in b.cc.dialed ==> sc in b'.cc.dialed && b'.cc.dialed[sc] == b.cc.dialed[sc])
    && (forall sc :: sc in b'.cc.dialed && sc !in b.cc.dialed ==> b.cc.attempts <= sc)
  }

  lemma CreateGrows(refuse: nat -> bool, b: Balancer, key: string, addr: Address)
    requires Ledgered(b)
    ensures Grown(b, CreateSubConnection(refuse, b, key, addr))
  {
    var b', n := CreateSubConnection(refuse, b, key, addr), b.cc.attempts;
    if key !in b.subConns && !refuse(n) {
      assert b'.subConns == b.subConns[key := n] && b'.scStates == b.scStates[n := Idle];
      assert b'.cc.dialed == b.cc.dialed[n := addr.addr];
      assert n !in b.cc.dialed && n !in b.scStates;
    }
  }

  lemma CreateKeepsCounts(refuse: nat -> bool, b: Balancer, key: string, addr: Address)
    requires Ledgered(b) && Counted(b)
    ensures Counted(CreateSubConnection(refuse, b, key, addr))
  {
    TransitionCounts(b.scStates, b.cc.attempts, Idle);
  }

  lemma CreateKeepsLedger(refuse: nat -> bool, b: Balancer, addr: Address)
    requires Ledgered(b)
    ensures Ledgered(CreateSubConnection(refuse, b, BuildAddressKey(addr), addr))
  {
    var b', n := CreateSubConnection(refuse, b, BuildAddressKey(addr), addr), b.cc.attempts;
    if BuildAddressKey(addr) !in b.subConns && !refuse(n) {
      assert b'.subConns == b.subConns[addr.addr := n] && b'.scStates == b.scStates[n := Idle];
      assert b'.cc.dialed == b.cc.dialed[n := addr.addr];
      assert n !in b.cc.dialed && n !in b.cc.shutdowns && b'.cc.shutdowns == b.cc.shutdowns;
      assert b'.cc.connects == b.cc.connects + multiset{n};
    }
  }

  lemma GrownAggregate(b: Balancer, b': Balancer)
    requires Grown(b, b') && b.scStates != map[] && Aggregate(b.scStates) != TransientFailure
    ensures Aggregate(b'.scStates) == Aggregate(b.scStates)
  {
  }

  lemma IdleAggregate(m: map<SubConn, State>)
    requires m != map[] && forall sc :: sc in m ==> m[sc] == Idle
    ensures Aggregate(m) == Idle
  {
  }

  lemma GrownReady(b: Balancer, b': Balancer)
    requires Grown(b, b') && Ledgered(b)
    ensures forall a :: IsReady(b', a) <==> IsReady(b, a)
    ensures ReadyEntries(b') == ReadyEntries(b)
  {
  }

  lemma GrownKeepsLag(b: Balancer, b': Balancer)
    requires Grown(b, b') && Ledgered(b) && Lagging(b)
    ensures Lagging(b')
  {
    GrownReady(b, b');
    if b.state != TransientFailure && b'.scStates != map[] {
      if b.scStates == map[] {
        IdleAggregate(b'.scStates);
      } else {
        GrownAggregate(b, b');
      }
    }
  }

  lemma CreateKeepsCore(refuse: nat -> bool, b: Balancer, addr: Address)
    requires Core(b) && b.apis
    ensures Core(CreateSubConnection(refuse, b, BuildAddressKey(addr), addr))
    ensures Grown(b, CreateSubConnection(refuse, b, BuildAddressKey(addr), addr))
  {
    CreateGrows(refuse, b, BuildAddressKey(addr), addr);
    CreateKeepsCounts(refuse, b, BuildAddressKey(addr), addr);
    CreateKeepsLedger(refuse, b, addr);
    GrownKeepsLag(b, CreateSubConnection(refuse, b, BuildAddressKey(addr), addr));
  }

  lemma GrownTransitive(a: Balancer, b: Balancer, c: Balancer)
    requires Grown(a, b) && Grown(b, c)
    ensures Grown(a, c)
  {
  }

  lemma {:induction false} CreateAllKeepsCore(refuse: nat -> bool, b: Balancer, addresses: seq<Address>)
    requires Core(b) && b.apis
    ensures Core(CreateAll(refuse, b, addresses))
    ensures Grown(b, CreateAll(refuse, b, addresses))
  {
    if addresses != [] {
      var front, last := addresses[..|addresses| - 1], addresses[|addresses| - 1];
      CreateAllKeepsCore(refuse, b, front);
      var mid := CreateAll(refuse, b, front);
      CreateKeepsCore(refuse, mid, last);
      GrownTransitive(b, mid, CreateAll(refuse, b, addresses));
    }
  }

  lemma CreateFrame(refuse: nat -> bool, b: Balancer, key: string, addr: Address)
    ensures var b' := CreateSubConnection(refuse, b, key, addr);
            b' == b.(subConns := b'.subConns, scStates := b'.scStates, csEvltr := b'.csEvltr,
                     cc := b.cc.(attempts := b'.cc.attempts, dialed := b'.cc.dialed, connects := b'.cc.connects))
  {
  }

  lemma {:induction false} CreateAllFrame(refuse: nat -> bool, b: Balancer, addresses: seq<Address>)
    ensures var b' := CreateAll(refuse, b, addresses);
            b' == b.(subConns := b'.subConns, scStates := b'.scStates, csEvltr := b'.csEvltr,
                     cc := b.cc.(attempts := b'.cc.attempts, dialed := b'.cc.dialed, connects := b'.cc.connects))
  {
    if addresses != [] {
      var front, last := addresses[..|addresses| - 1], addresses[|addresses| - 1];
      CreateAllFrame(refuse, b, front);
      CreateFrame(refuse, CreateAll(refuse, b, front), BuildAddressKey(last), last);
    }
  }

  // ---------- retiring connections ----------

  lemma RetireKeepsCore(b: Balancer, keep: set<string>)
    requires Core(b)
    ensures Core(Retire(b, keep))
  {
  }

  lemma AbsorbKeepsCore(b: Balancer, u: ClientConnState)
    requires Core(b)
    ensures Core(Absorb(b, u))
  {
  }

  lemma AbsorbKeepsInv(b: Balancer, u: ClientConnState)
    requires Inv(b)
    ensures Inv(Absorb(b, u))
  {
  }

  lemma AcceptKeepsCore(b: Balancer)
    requires Core(b) && b.options.Some?
    ensures Core(b.(apis := true, resolverErr := None))
  {
  }

  /** Reconciling touches the connections and the resolver error only. */
  lemma ReconcileFrame(refuse: nat -> bool, b: Balancer, u: ClientConnState)
    ensures var b' := Reconcile(refuse, b, u);
            && b'.apis && b'.state == b.state && b'.v2Picker == b.v2Picker
            && b'.options == Absorb(b, u).options && b'.response == Absorb(b, u).response
            && b'.lbCfg == Absorb(b, u).lbCfg
            && b'.connErr == b.connErr && b'.resolverErr == None
            && b'.cc.published == b.cc.published
  {
    CreateAllFrame(refuse, Absorb(b, u).(apis := true, resolverErr := None), u.addresses);
  }

  /** After a good update only the picker and its publication differ from the reconciled state. */
  lemma GoodUpdateShape(refuse: nat -> bool, b: Balancer, u: ClientConnState)
    requires u.addresses != [] && UpdateClientConnState(refuse, b, u).Ok?
    ensures var b', r := UpdateClientConnState(refuse, b, u).value, Reconcile(refuse, b, u);
            && RegeneratePicker(r, r.options).Ok?
            && b' == Publish(RegeneratePicker(r, r.options).value)
            && b' == r.(v2Picker := b'.v2Picker, cc := r.cc.(published := b'.cc.published))
  {
    ReconcileFrame(refuse, b, u);
  }

  /** A resolver failure touches no connection. */
  lemma FailureShape(b: Balancer, err: Option<Error>)
    requires ResolverError(b, err).Ok?
    ensures var b' := ResolverError(b, err).value;
            b' == b.(resolverErr := err, state := b'.state, v2Picker := b'.v2Picker,
                     cc := b.cc.(published := b'.cc.published))
  {
  }

  /** The states `b` tracks after a notification. */
  function TrackedAfter(b: Balancer, sc: SubConn, s: State): map<SubConn, State> {
    if sc in b.scStates && !Ignored(b.scStates[sc], s) then Track(b.scStates, sc, s) else b.scStates
  }

  /** A notification changes the tracked states, what is derived from them, and `connErr`. */
  lemma NotificationShape(b: Balancer, sc: SubConn, s: State, err: Option<Error>)
    requires UpdateSubConnState(b, sc, s, err).Ok?
    ensures var b' := UpdateSubConnState(b, sc, s, err).value;
            b' == b.(scStates := TrackedAfter(b, sc, s), csEvltr := b'.csEvltr, state := b'.state,
                     v2Picker := b'.v2Picker, connErr := b'.connErr,
                     cc := b.cc.(connects := b'.cc.connects, published := b'.cc.published))
  {
    if sc in b.scStates && !Ignored(b.scStates[sc], s) {
      var recorded := Recorded(b, sc, s, err);
      var picker := UpdateSubConnState(b, sc, s, err).value.v2Picker;
      RebuiltShape(recorded);
      assert UpdateSubConnState(b, sc, s, err).value == Publish(recorded.(v2Picker := picker));
    }
  }

  lemma RebuiltShape(b: Balancer)
    ensures var b' := RegeneratePicker(b, b.options);
            b'.Ok? ==> b'.value == b.(v2Picker := b'.value.v2Picker)
  {
  }

  lemma AcceptedInjective(refuse: nat -> bool, b: Balancer, u: ClientConnState)
    requires Core(b) && Absorb(b, u).options.Some?
    ensures Injective(CreateAll(refuse, Absorb(b, u).(apis := true, resolverErr := None), u.addresses).subConns)
  {
    AbsorbKeepsCore(b, u);
    AcceptKeepsCore(Absorb(b, u));
    CreateAllKeepsCore(refuse, Absorb(b, u).(apis := true, resolverErr := None), u.addresses);
    LedgerInjective(CreateAll(refuse, Absorb(b, u).(apis := true, resolverErr := None), u.addresses));
  }

  lemma ReconcileKeepsCore(refuse: nat -> bool, b: Balancer, u: ClientConnState)
    requires Core(b) && Absorb(b, u).options.Some?
    ensures Core(Reconcile(refuse, b, u))
  {
    var absorbed := Absorb(b, u);
    AbsorbKeepsCore(b, u);
    AcceptKeepsCore(absorbed);
    CreateAllKeepsCore(refuse, absorbed.(apis := true, resolverErr := None), u.addresses);
    RetireKeepsCore(CreateAll(refuse, absorbed.(apis := true, resolverErr := None), u.addresses),
                    AddressKeys(u.addresses));
  }

  // ---------- rebuilding the picker ----------

  lemma {:induction false} OfferedKeys(instances: seq<Instance>, keys: set<string>)
    ensures InstanceKeys(Offered(instances, keys)) == InstanceKeys(instances) * keys
  {
    if instances != [] {
      var front, last := instances[..|instances| - 1], instances[|instances| - 1];
      OfferedKeys(front, keys);
      assert instances == front + [last];
      KeysAppend(front, last);
      KeysAppend(Offered(front, keys), last);
    }
  }

  lemma KeysAppend(instances: seq<Instance>, last: Instance)
    ensures InstanceKeys(instances + [last]) == InstanceKeys(instances) + {InstanceKey(last)}
  {
  }

  lemma RebuiltReady(b: Balancer, options: Option<DialOptions>)
    requires Lagging(b) && RegeneratePicker(b, options).Ok?
    ensures ReadyView(RegeneratePicker(b, options).value.v2Picker) == ReadyEntries(b)
  {
  }

  lemma RebuiltInv(b: Balancer, options: Option<DialOptions>)
    requires Core(b)
    requires b.state == TransientFailure || (b.apis && options == b.options)
    ensures RegeneratePicker(b, options).Ok? && Inv(Publish(RegeneratePicker(b, options).value))
  {
    var b' := Publish(RegeneratePicker(b, options).value);
    RebuiltReady(b, options);
    assert ReadyEntries(b') == ReadyEntries(b);
    if b.state != TransientFailure {
      OfferedKeys(b.response.value.instances, ReadyEntries(b).Keys);
    }
    assert Snapshot(b');
    assert Lagging(b') by {
      forall a
        ensures IsReady(b', a) <==> IsReady(b, a)
      {
      }
    }
    assert Counted(b') && Ledgered(b') && Wired(b') && Shown(b');
  }

  // ---------- the three callbacks ----------

  lemma ResolverErrorKeepsInv(b: Balancer, err: Option<Error>)
    requires Inv(b)
    ensures ResolverError(b, err).Ok? && Inv(ResolverError(b, err).value)
  {
    var failed := b.(resolverErr := err, state := if b.subConns == map[] then TransientFailure else b.state);
    assert ReadyEntries(failed) == ReadyEntries(b);
    assert Counted(failed) && Ledgered(failed) && Lagging(failed) && Wired(failed);
    if failed.state == TransientFailure {
      RebuiltInv(failed, None);
    }
  }

  lemma GoodUpdateKeepsInv(refuse: nat -> bool, b: Balancer, u: ClientConnState)
    requires Core(b) && u.addresses != [] && Absorb(b, u).options.Some?
    ensures UpdateClientConnState(refuse, b, u).Ok? && Inv(UpdateClientConnState(refuse, b, u).value)
  {
    ReconcileKeepsCore(refuse, b, u);
    ReconcileFrame(refuse, b, u);
    RebuiltInv(Reconcile(refuse, b, u), Absorb(b, u).options);
  }

  lemma UpdateClientConnStateKeepsInv(refuse: nat -> bool, b: Balancer, u: ClientConnState)
    requires Inv(b)
    requires u.addresses == [] || Absorb(b, u).options.Some?
    ensures UpdateClientConnState(refuse, b, u).Ok? && Inv(UpdateClientConnState(refuse, b, u).value)
  {
    if u.addresses == [] {
      AbsorbKeepsInv(b, u);
      ResolverErrorKeepsInv(Absorb(b, u), Some(ProducedZeroAddresses));
    } else {
      GoodUpdateKeepsInv(refuse, b, u);
    }
  }

  lemma RecordedState(b: Balancer, sc: SubConn, s: State, connErr: Option<Error>)
    requires Counted(b) && sc in b.scStates
    ensures Counted(Recorded(b, sc, s, connErr))
    ensures Recorded(b, sc, s, connErr).state == Aggregate(Track(b.scStates, sc, s))
  {
    TransitionAggregates(b.scStates, b.csEvltr, sc, s);
    TrackKeepsStates(b.scStates, sc, s);
  }

  lemma RecordedLedger(b: Balancer, sc: SubConn, s: State, connErr: Option<Error>)
    requires Ledgered(b) && sc in b.scStates
    ensures Ledgered(Recorded(b, sc, s, connErr))
  {
  }

  lemma AggregateLags(b: Balancer)
    requires b.state == Aggregate(b.scStates)
    ensures Lagging(b)
  {
  }

  lemma RecordedKeepsCore(b: Balancer, sc: SubConn, s: State, connErr: Option<Error>)
    requires Core(b) && sc in b.scStates
    ensures Core(Recorded(b, sc, s, connErr))
  {
    var b' := Recorded(b, sc, s, connErr);
    RecordedState(b, sc, s, connErr);
    RecordedLedger(b, sc, s, connErr);
    AggregateLags(b');
    assert Wired(b');
  }

  lemma UnflippedReady(b: Balancer, sc: SubConn, s: State, connErr: Option<Error>)
    requires sc in b.scStates && (s == Ready <==> b.scStates[sc] == Ready)
    ensures ReadyEntries(Recorded(b, sc, s, connErr)) == ReadyEntries(b)
  {
  }

  lemma UnflippedKeepsInv(b: Balancer, sc: SubConn, s: State, connErr: Option<Error>)
    requires sc in b.scStates && (s == Ready <==> b.scStates[sc] == Ready)
    requires Wired(b) && Snapshot(b) && !b.v2Picker.NilPicker? && Core(Recorded(b, sc, s, connErr))
    ensures Inv(Publish(Recorded(b, sc, s, connErr)))
  {
    UnflippedReady(b, sc, s, connErr);
    RecordedWired(b, sc, s, connErr);
    PublishKeepsInv(Recorded(b, sc, s, connErr));
  }

  lemma RecordedWired(b: Balancer, sc: SubConn, s: State, connErr: Option<Error>)
    requires Wired(b) && sc in b.scStates
    ensures Recorded(b, sc, s, connErr).apis && Recorded(b, sc, s, connErr).options.Some?
  {
  }

  /** `sc`'s notification makes the balancer build a new picker. */
  predicate Rebuilds(b: Balancer, sc: SubConn, s: State, connErr: Option<Error>)
    requires sc in b.scStates
  {
    (s == Ready) != (b.scStates[sc] == Ready) || Recorded(b, sc, s, connErr).state == TransientFailure
  }

  lemma RebuildingKeepsInv(b: Balancer, sc: SubConn, s: State, connErr: Option<Error>)
    requires sc in b.scStates && !Ignored(b.scStates[sc], s) && Rebuilds(b, sc, s, connErr)
    requires Core(Recorded(b, sc, s, connErr))
    requires Recorded(b, sc, s, connErr).apis && Recorded(b, sc, s, connErr).options.Some?
    ensures UpdateSubConnState(b, sc, s, connErr).Ok? && Inv(UpdateSubConnState(b, sc, s, connErr).value)
  {
    RebuildingShape(b, sc, s, connErr);
    RebuiltInv(Recorded(b, sc, s, connErr), Recorded(b, sc, s, connErr).options);
  }

  lemma RebuildingShape(b: Balancer, sc: SubConn, s: State, connErr: Option<Error>)
    requires sc in b.scStates && !Ignored(b.scStates[sc], s) && Rebuilds(b, sc, s, connErr)
    ensures var rebuilt := RegeneratePicker(Recorded(b, sc, s, connErr), Recorded(b, sc, s, connErr).options);
            rebuilt.Ok? ==> UpdateSubConnState(b, sc, s, connErr) == Ok(Publish(rebuilt.value))
  {
  }

  lemma TransitionKeepsInv(b: Balancer, sc: SubConn, s: State, connErr: Option<Error>)
    requires sc in b.scStates && !Ignored(b.scStates[sc], s)
    requires Wired(b) && Snapshot(b) && !b.v2Picker.NilPicker? && Core(Recorded(b, sc, s, connErr))
    ensures UpdateSubConnState(b, sc, s, connErr).Ok? && Inv(UpdateSubConnState(b, sc, s, connErr).value)
  {
    RecordedWired(b, sc, s, connErr);
    if Rebuilds(b, sc, s, connErr) {
      RebuildingKeepsInv(b, sc, s, connErr);
    } else {
      UnflippedKeepsInv(b, sc, s, connErr);
    }
  }

  lemma UpdateSubConnStateKeepsInv(b: Balancer, sc: SubConn, s: State, connErr: Option<Error>)
    requires Inv(b)
    ensures UpdateSubConnState(b, sc, s, connErr).Ok? && Inv(UpdateSubConnState(b, sc, s, connErr).value)
  {
    if sc in b.scStates {
      if Ignored(b.scStates[sc], s) {
        ConnectKeepsInv(b, sc);
      } else {
        RecordedKeepsCore(b, sc, s, connErr);
        TransitionKeepsInv(b, sc, s, connErr);
      }
    }
  }

  lemma ConnectKeepsInv(b: Balancer, sc: SubConn)
    requires Inv(b) && sc in b.scStates
    ensures Inv(b.(cc := Connect(b.cc, sc)))
  {
    var b' := b.(cc := Connect(b.cc, sc));
    assert ReadyEntries(b') == ReadyEntries(b);
    assert Counted(b') && Ledgered(b') && Lagging(b');
  }

  lemma PublishKeepsInv(b: Balancer)
    requires Core(b) && Snapshot(b) && b.apis && !b.v2Picker.NilPicker?
    ensures Inv(Publish(b))
  {
  }

  /** Every callback keeps the invariant; only a non-empty update that arrives before any
      attributes can panic. */
  lemma StepKeepsInv(refuse: nat -> bool, b: Balancer, e: Event)
    requires Inv(b)
    ensures Step(refuse, b, e).Panic? <==>
              e.Resolved? && e.update.addresses != [] && b.options.None? && e.update.attributes.None?
    ensures Step(refuse, b, e).Ok? ==> Inv(Step(refuse, b, e).value)
  {
    match e
    case Resolved(u) =>
      if u.addresses == [] || Absorb(b, u).options.Some? {
        UpdateClientConnStateKeepsInv(refuse, b, u);
      }
    case ResolveFailed(err) => ResolverErrorKeepsInv(b, err);
    case Notified(sc, s, connErr) => UpdateSubConnStateKeepsInv(b, sc, s, connErr);
  }

  lemma {:induction false} RunKeepsInv(refuse: nat -> bool, es: seq<Event>)
    requires Run(refuse, es).Ok?
    ensures Inv(Run(refuse, es).value)
  {
    if es == [] {
      InitInv();
    } else {
      var front := es[..|es| - 1];
      RunKeepsInv(refuse, front);
      StepKeepsInv(refuse, Run(refuse, front).value, es[|es| - 1]);
    }
  }
}

/**
 balancer.go: the balancer as an object that updates its fields in place.

 Every method is proved to change the object exactly as the function of the same name in
 `BalancerModel` changes its abstract state, and to keep the invariant of all runs.
 */
module PolarisBalancer {
  import opened Wrappers
  import opened Connectivity
  import M = BalancerModel
  import opened I = BalancerInvariants

  /** gRPC as the balancer sees it: attempt `n` to create a SubConn fails iff `refuse(n)`. */
  class ClientConn {
    const refuse: nat -> bool
    var attempts: nat
    var dialed: map<M.SubConn, string>
    var connects: multiset<M.SubConn>
    var shutdowns: multiset<M.SubConn>
    var published: Option<M.Publication>

    ghost function View(): M.Ledger
      reads this
    {
      M.Ledger(attempts, dialed, connects, shutdowns, published)
    }

    constructor (refuse: nat -> bool)
      ensures View() == M.Init().cc && this.refuse == refuse
    {
      this.refuse := refuse;
      attempts, dialed, connects, shutdowns, published := 0, map[], multiset{}, multiset{}, None;
    }

    method NewSubConn(addr: M.Address) returns (r: Option<M.SubConn>)
      modifies `attempts, `dialed
      ensures r == if refuse(old(attempts)) then None else Some(old(attempts))
      ensures attempts == old(attempts) + 1
      ensures dialed == if r.None? then old(dialed) else old(dialed)[r.value := addr.addr]
    {
      r := None;
      if !refuse(attempts) {
        r := Some(attempts);
        dialed := dialed[attempts := addr.addr];
      }
      attempts := attempts + 1;
    }

    method Connect(sc: M.SubConn)
      modifies `connects
      ensures View() == M.Connect(old(View()), sc)
    {
      connects := connects + multiset{sc};
    }

    method Shutdown(sc: M.SubConn)
      modifies `shutdowns
      ensures shutdowns == old(shutdowns) + multiset{sc}
    {
      shutdowns := shutdowns + multiset{sc};
    }

    method UpdateState(state: State, picker: M.Picker)
      modifies `published
      ensures published == Some(M.Publication(state, picker))
    {
      published := Some(M.Publication(state, picker));
    }
  }

  class PolarisNamingBalancer {
    const cc: ClientConn
    const csEvltr: ConnectivityStateEvaluator
    var state: State
    var subConns: map<string, M.SubConn>
    var scStates: map<M.SubConn, State>
    var v2Picker: M.Picker
    var apis: bool
    var lbCfg: Option<M.LBConfig>
    var options: Option<M.DialOptions>
    var response: Option<M.InstancesResponse>
    var resolverErr: Option<M.Error>
    var connErr: Option<M.Error>

    ghost function View(): M.Balancer
      reads this, cc, csEvltr
    {
      M.Balancer(subConns, scStates, csEvltr.View(), state, v2Picker, apis, lbCfg, options, response,
                 resolverErr, connErr, cc.View())
    }

    ghost predicate Valid()
      reads this, cc, csEvltr
    {
      Inv(View())
    }

    constructor (cc: ClientConn)
      requires cc.View() == M.Init().cc
      ensures this.cc == cc && fresh(csEvltr)
      ensures View() == M.Init() && Valid()
    {
      this.cc := cc;
      csEvltr := new ConnectivityStateEvaluator();
      state, subConns, scStates, v2Picker, apis := Idle, map[], map[], M.NilPicker, false;
      lbCfg, options, response, resolverErr, connErr := None, None, None, None, None;
      new;
      InitInv();
    }

    method CreateSubConnection(key: string, addr: M.Address)
      modifies `subConns, `scStates, cc`attempts, cc`dialed, cc`connects, csEvltr
      ensures View() == M.CreateSubConnection(cc.refuse, old(View()), key, addr)
    {
      if key in subConns {
        return;
      }
      var sc := cc.NewSubConn(addr);
      if sc.None? {
        return;
      }
      subConns := subConns[key := sc.value];
      scStates := scStates[sc.value := Idle];
      var _ := csEvltr.RecordTransition(Shutdown, Idle);
      cc.Connect(sc.value);
    }

    /** The creation loop of an update, which also collects the given keys. */
    method CreateAll(addresses: seq<M.Address>) returns (addressSet: set<string>)
      modifies `subConns, `scStates, cc`attempts, cc`dialed, cc`connects, csEvltr
      ensures View() == M.CreateAll(cc.refuse, old(View()), addresses)
      ensures addressSet == M.AddressKeys(addresses)
    {
      addressSet := {};
      for i := 0 to |addresses|
        invariant View() == M.CreateAll(cc.refuse, old(View()), addresses[..i])
        invariant addressSet == M.AddressKeys(addresses[..i])
      {
        var a := addresses[i];
        var key := M.BuildAddressKey(a);
        PrefixStep(addresses, i);
        addressSet := addressSet + {key};
        CreateSubConnection(key, a);
      }
      assert addresses[..|addresses|] == addresses;
    }

    /** The deletion loop of an update: shut down and forget every connection whose address
        is not in `addressSet`, in any order. */
    method RemoveStale(addressSet: set<string>)
      requires Injective(subConns)
      modifies `subConns, cc`shutdowns
      ensures subConns == M.Kept(old(subConns), addressSet)
      ensures cc.shutdowns == old(cc.shutdowns) + multiset(M.Stale(old(subConns), addressSet))
    {
      ghost var before, told := subConns, cc.shutdowns;
      var pending := subConns.Keys;
      KeepAll(before, addressSet + pending);
      while pending != {}
        invariant pending <= before.Keys
        invariant subConns == M.Kept(before, addressSet + pending)
        invariant cc.shutdowns == told + multiset(M.Stale(before, addressSet + pending))
      {
        var a :| a in pending;
        Shrink(addressSet, pending, a);
        if a !in addressSet {
          RetireOne(before, addressSet + (pending - {a}), a);
          RemoveOne(a);
        }
        pending := pending - {a};
      }
      assert pending == {};
      Shrunk(addressSet);
    }

    method RemoveOne(a: string)
      requires a in subConns
      modifies `subConns, cc`shutdowns
      ensures subConns == old(subConns) - {a}
      ensures cc.shutdowns == old(cc.shutdowns) + multiset{old(subConns)[a]}
    {
      var sc := subConns[a];
      subConns := subConns - {a};
      cc.Shutdown(sc);
    }

    /** Takes over the attributes and the configuration of a resolver state. */
    method Absorb(ccs: M.ClientConnState)
      modifies `options, `response, `lbCfg
      ensures View() == M.Absorb(old(View()), ccs)
    {
      if options.None? && ccs.attributes.Some? {
        options := Some(ccs.attributes.value.options);
      }
      if ccs.attributes.Some? {
        response := Some(ccs.attributes.value.response);
      }
      if ccs.balancerConfig.Some? {
        lbCfg := ccs.balancerConfig;
      }
    }

    method UpdateClientConnState(ccs: M.ClientConnState) returns (badResolverState: bool)
      requires Valid()
      requires ccs.addresses != [] ==> options.Some? || ccs.attributes.Some?
      modifies this, cc, csEvltr
      ensures Ok(View()) == M.UpdateClientConnState(cc.refuse, old(View()), ccs)
      ensures Valid()
      ensures badResolverState <==> ccs.addresses == []
    {
      UpdateClientConnStateKeepsInv(cc.refuse, View(), ccs);
      if ccs.addresses == [] {
        AbsorbKeepsInv(View(), ccs);
        Absorb(ccs);
        ResolverError(Some(M.ProducedZeroAddresses));
        return true;
      }
      AcceptedInjective(cc.refuse, View(), ccs);
      Accept(ccs);
      return false;
    }

    /** A good update: rearrange the connections and publish a new picker. */
    method Accept(ccs: M.ClientConnState)
      requires ccs.addresses != []
      requires M.UpdateClientConnState(cc.refuse, View(), ccs).Ok?
      requires var accepted := M.Absorb(View(), ccs).(apis := true, resolverErr := None);
               Injective(M.CreateAll(cc.refuse, accepted, ccs.addresses).subConns)
      modifies this, cc, csEvltr
      ensures Ok(View()) == M.UpdateClientConnState(cc.refuse, old(View()), ccs)
    {
      ReconcileFrame(cc.refuse, View(), ccs);
      Reconcile(ccs);
      RegeneratePicker(options);
      cc.UpdateState(state, v2Picker);
    }

    /** Create what is missing, shut down what disappeared. */
    method Reconcile(ccs: M.ClientConnState)
      requires var accepted := M.Absorb(View(), ccs).(apis := true, resolverErr := None);
               Injective(M.CreateAll(cc.refuse, accepted, ccs.addresses).subConns)
      modifies this, cc, csEvltr
      ensures View() == M.Reconcile(cc.refuse, old(View()), ccs)
    {
      Absorb(ccs);
      if !apis {
        apis := true;
      }
      resolverErr := None;
      var addressSet := CreateAll(ccs.addresses);
      RemoveStale(addressSet);
    }

    method ResolverError(err: Option<M.Error>)
      requires Valid()
      modifies this, cc
      ensures Ok(View()) == M.ResolverError(old(View()), err)
      ensures Valid()
    {
      ResolverErrorKeepsInv(View(), err);
      ReportError(err);
    }

    method ReportError(err: Option<M.Error>)
      modifies `resolverErr, `state, `v2Picker, cc`published
      ensures Ok(View()) == M.ResolverError(old(View()), err)
    {
      resolverErr := err;
      if subConns == map[] {
        state := TransientFailure;
      }
      if state != TransientFailure {
        return;
      }
      RegeneratePicker(None);
      cc.UpdateState(state, v2Picker);
    }

    method UpdateSubConnState(sc: M.SubConn, s: State, connectionError: Option<M.Error>)
      requires Valid()
      modifies this, cc, csEvltr
      ensures Ok(View()) == M.UpdateSubConnState(old(View()), sc, s, connectionError)
      ensures Valid()
    {
      UpdateSubConnStateKeepsInv(View(), sc, s, connectionError);
      if sc !in scStates {
        return;
      }
      var oldS := scStates[sc];
      if oldS == TransientFailure && (s == Connecting || s == Idle) {
        if s == Idle {
          cc.Connect(sc);
        }
        return;
      }
      HandleTransition(sc, s, connectionError);
    }

    method HandleTransition(sc: M.SubConn, s: State, connectionError: Option<M.Error>)
      requires sc in scStates && !M.Ignored(scStates[sc], s)
      requires M.UpdateSubConnState(View(), sc, s, connectionError).Ok?
      modifies this, cc, csEvltr
      ensures Ok(View()) == M.UpdateSubConnState(old(View()), sc, s, connectionError)
    {
      var oldS := scStates[sc];
      Record(sc, s, connectionError);
      if (s == Ready) != (oldS == Ready) || state == TransientFailure {
        RegeneratePicker(options);
      }
      cc.UpdateState(state, v2Picker);
    }

    /** Records a notification: the tracked state, the reconnect, the error and the aggregate. */
    method Record(sc: M.SubConn, s: State, connectionError: Option<M.Error>)
      requires sc in scStates
      modifies `scStates, `connErr, `state, cc`connects, csEvltr
      ensures View() == M.Recorded(old(View()), sc, s, connectionError)
    {
      var oldS := scStates[sc];
      scStates := scStates[sc := s];
      match s {
        case Idle => cc.Connect(sc);
        case Shutdown => scStates := scStates - {sc};
        case TransientFailure => connErr := connectionError;
        case _ =>
      }
      assert scStates == Track(old(scStates), sc, s);
      state := csEvltr.RecordTransition(oldS, s);
    }

    /** Nil options are only safe for an error picker, a nil response is not safe otherwise. */
    method RegeneratePicker(opts: Option<M.DialOptions>)
      requires state == TransientFailure || response.Some?
      modifies `v2Picker
      ensures Ok(View()) == M.RegeneratePicker(old(View()), opts)
    {
      if state == TransientFailure {
        v2Picker := M.ErrPicker(M.MergeErrors(connErr, resolverErr));
        return;
      }
      var readySCs := CollectReady();
      var copyR := response.value;
      var readyInstances, totalWeight := FilterInstances(copyR.instances, readySCs.Keys);
      v2Picker := M.NamingPicker(readySCs, opts, lbCfg,
                                 copyR.(instances := readyInstances, totalWeight := totalWeight));
    }

    /** The instance loop: keeps the instances that have a connection and adds their weights. */
    static method FilterInstances(instances: seq<M.Instance>, keys: set<string>)
      returns (readyInstances: seq<M.Instance>, totalWeight: int)
      ensures readyInstances == M.Offered(instances, keys)
      ensures totalWeight == M.TotalWeight(readyInstances)
    {
      readyInstances, totalWeight := [], 0;
      for i := 0 to |instances|
        invariant readyInstances == M.Offered(instances[..i], keys)
        invariant totalWeight == M.TotalWeight(readyInstances)
      {
        var instance := instances[i];
        assert instances[..i + 1][..i] == instances[..i];
        if M.InstanceKey(instance) in keys {
          assert (readyInstances + [instance])[..|readyInstances|] == readyInstances;
          readyInstances := readyInstances + [instance];
          totalWeight := totalWeight + instance.weight;
        }
      }
      assert instances[..|instances|] == instances;
    }

    method CollectReady() returns (readySCs: map<string, M.SubConn>)
      ensures readySCs == M.ReadyEntries(View())
    {
      readySCs := map[];
      var pending := subConns.Keys;
      while pending != {}
        invariant pending <= subConns.Keys
        invariant readySCs == map a | a in subConns && a !in pending && M.IsReady(View(), a) :: subConns[a]
      {
        var addr :| addr in pending;
        var sc := subConns[addr];
        if sc in scStates && scStates[sc] == Ready {
          readySCs := readySCs[addr := sc];
        }
        pending := pending - {addr};
      }
    }
  }

  // ---------- loop steps ----------

  lemma PrefixStep(addresses: seq<M.Address>, i: nat)
    requires i < |addresses|
    ensures addresses[..i + 1][..i] == addresses[..i] && addresses[..i + 1][i] == addresses[i]
    ensures M.AddressKeys(addresses[..i + 1]) == M.AddressKeys(addresses[..i]) + {M.BuildAddressKey(addresses[i])}
  {
  }

  lemma Shrink(addressSet: set<string>, pending: set<string>, a: string)
    requires a in pending
    ensures a in addressSet ==> addressSet + (pending - {a}) == addressSet + pending
    ensures a !in addressSet ==> addressSet + (pending - {a}) + {a} == addressSet + pending
  {
  }

  lemma Shrunk(addressSet: set<string>)
    ensures addressSet + {} == addressSet
  {
  }

  lemma KeepAll(subConns: map<string, M.SubConn>, keep: set<string>)
    requires subConns.Keys <= keep
    ensures M.Kept(subConns, keep) == subConns && M.Stale(subConns, keep) == {}
  {
  }

  lemma RetireOne(subConns: map<string, M.SubConn>, keep: set<string>, a: string)
    requires Injective(subConns) && a in subConns && a !in keep
    ensures a in M.Kept(subConns, keep + {a}) && M.Kept(subConns, keep + {a})[a] == subConns[a]
    ensures M.Kept(subConns, keep) == M.Kept(subConns, keep + {a}) - {a}
    ensures multiset(M.Stale(subConns, keep)) == multiset(M.Stale(subConns, keep + {a})) + multiset{subConns[a]}
  {
  }
}

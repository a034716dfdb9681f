/** What a picker offers and what a pick returns. */
module Picking {
  import opened Wrappers
  import opened Connectivity
  import opened BalancerModel
  import opened BalancerInvariants
  import opened BalancerRuns
  import opened Lookup
  import HostPort
  import Reconciliation
  import Failures
  import History
  import Lifecycle

  // ---------- the offered instances ----------

  /** The instance filter keeps the order: it distributes over concatenation. */
  lemma {:induction false} OfferedConcat(front: seq<Instance>, back: seq<Instance>, keys: set<string>)
    ensures Offered(front + back, keys) == Offered(front, keys) + Offered(back, keys)
  {
    if back == [] {
      assert front + back == front;
    } else {
      var all, last := front + back, back[|back| - 1];
      assert all[..|all| - 1] == front + back[..|back| - 1];
      OfferedConcat(front, back[..|back| - 1], keys);
    }
  }

  /** It keeps every occurrence of an instance that has a connection, and no other. */
  lemma {:induction false} OfferedCounts(instances: seq<Instance>, keys: set<string>, i: Instance)
    ensures multiset(Offered(instances, keys))[i] == if InstanceKey(i) in keys then multiset(instances)[i] else 0
  {
    if instances != [] {
      var front, last := instances[..|instances| - 1], instances[|instances| - 1];
      OfferedCounts(front, keys, i);
      assert instances == front + [last];
    }
  }

  /** The total weight of an offer is the sum over its instances. */
  lemma {:induction false} WeightConcat(front: seq<Instance>, back: seq<Instance>, i: Instance)
    ensures TotalWeight([]) == 0 && TotalWeight([i]) == i.weight
    ensures TotalWeight(front + back) == TotalWeight(front) + TotalWeight(back)
  {
    assert [i][..0] == [];
    if back == [] {
      assert front + back == front;
    } else {
      assert (front + back)[..|front + back| - 1] == front + back[..|back| - 1];
      WeightConcat(front, back[..|back| - 1], i);
    }
  }

  /** The latest resolver update of the run carried addresses. */
  predicate LastUpdateGood(es: seq<Event>) {
    if es == [] then false
    else if es[|es| - 1].Resolved? then es[|es| - 1].update.addresses != []
    else LastUpdateGood(es[..|es| - 1])
  }

  /** The latest resolver update of the run carried none. */
  predicate LastUpdateEmpty(es: seq<Event>) {
    if es == [] then false
    else if es[|es| - 1].Resolved? then es[|es| - 1].update.addresses == []
    else LastUpdateEmpty(es[..|es| - 1])
  }

  /** Every live address has an instance in the response, and the picker offers one for
      every connection it holds. */
  ghost predicate Covered(b: Balancer) {
    && b.response.Some?
    && b.subConns.Keys <= InstanceKeys(b.response.value.instances)
    && (b.v2Picker.NamingPicker? ==>
          InstanceKeys(b.v2Picker.insList.instances) == b.v2Picker.readySCs.Keys)
  }

  /** A naming picker built in `r` offers exactly the Ready connections the response names. */
  lemma RebuiltOffer(r: Balancer, options: Option<DialOptions>)
    requires r.state != TransientFailure && RegeneratePicker(r, options).Ok?
    ensures var p := RegeneratePicker(r, options).value.v2Picker;
            && p.NamingPicker? && r.response.Some?
            && p.readySCs == ReadyEntries(r)
            && p.insList.instances == Offered(r.response.value.instances, p.readySCs.Keys)
            && p.insList.totalWeight == TotalWeight(p.insList.instances)
            && InstanceKeys(p.insList.instances) == p.readySCs.Keys * InstanceKeys(r.response.value.instances)
  {
    OfferedKeys(r.response.value.instances, ReadyEntries(r).Keys);
  }

  lemma RebuiltCovered(r: Balancer, options: Option<DialOptions>)
    requires RegeneratePicker(r, options).Ok? && r.response.Some?
    requires r.subConns.Keys <= InstanceKeys(r.response.value.instances)
    ensures Covered(Publish(RegeneratePicker(r, options).value))
  {
    if r.state != TransientFailure {
      RebuiltOffer(r, options);
      assert ReadyEntries(r).Keys <= r.subConns.Keys;
    }
  }

  lemma UpdateCovered(refuse: nat -> bool, b: Balancer, e: Event)
    requires Inv(b) && IsGoodUpdate(e) && Coherent(e) && Step(refuse, b, e).Ok?
    ensures Covered(Step(refuse, b, e).value)
  {
    var u := e.update;
    var r := Reconcile(refuse, b, u);
    GoodUpdateShape(refuse, b, u);
    ReconcileFrame(refuse, b, u);
    Reconciliation.UpdatedKeys(refuse, b, u);
    AddressesOfKeys(u.attributes.value.response.instances);
    RebuiltCovered(r, r.options);
  }

  lemma NotifiedCovered(b: Balancer, sc: SubConn, s: State, err: Option<Error>)
    requires Covered(b) && UpdateSubConnState(b, sc, s, err).Ok?
    ensures Covered(UpdateSubConnState(b, sc, s, err).value)
  {
    NotificationShape(b, sc, s, err);
    if sc in b.scStates && !Ignored(b.scStates[sc], s) {
      var r := Recorded(b, sc, s, err);
      if (s == Ready) != (b.scStates[sc] == Ready) || r.state == TransientFailure {
        RebuiltCovered(r, r.options);
      }
    }
  }

  /** If the latest update was non-empty, every Ready connection is offered and every
      offered instance has one, whatever `NewSubConn` calls failed. */
  lemma {:induction false} OfferMatchesConnections(refuse: nat -> bool, es: seq<Event>)
    requires Run(refuse, es).Ok? && LastUpdateGood(es)
    requires forall e :: e in es ==> Coherent(e)
    ensures Covered(Run(refuse, es).value)
  {
    var front, e := es[..|es| - 1], es[|es| - 1];
    assert e in es && forall x :: x in front ==> x in es;
    RunKeepsInv(refuse, front);
    var b := Run(refuse, front).value;
    match e
    case Resolved(u) => UpdateCovered(refuse, b, e);
    case ResolveFailed(err) =>
      OfferMatchesConnections(refuse, front);
      FailureShape(b, err);
    case Notified(sc, s, err) =>
      OfferMatchesConnections(refuse, front);
      NotifiedCovered(b, sc, s, err);
  }

  lemma {:induction false} EmptiedResponse(refuse: nat -> bool, es: seq<Event>)
    requires Run(refuse, es).Ok? && LastUpdateEmpty(es)
    requires forall e :: e in es ==> Coherent(e)
    ensures Run(refuse, es).value.response.Some? && Run(refuse, es).value.response.value.instances == []
  {
    var front, e := es[..|es| - 1], es[|es| - 1];
    assert e in es && forall x :: x in front ==> x in es;
    StepOptions(refuse, Run(refuse, front).value, e);
    if !e.Resolved? {
      EmptiedResponse(refuse, front);
    } else {
      assert |AddressesOf(e.update.attributes.value.response.instances)| == 0;
    }
  }

  /** The live connection of address `a` is Ready once notification `e` is recorded. */
  predicate ReadyNext(b: Balancer, e: Event, a: string)
    requires e.Notified?
  {
    && a in b.subConns && b.subConns[a] in b.scStates
    && (if b.subConns[a] == e.sc then e.state == Ready else b.scStates[b.subConns[a]] == Ready)
  }

  /** After an empty update the connections stay but the response is already replaced: a
      picker built then offers nothing. It holds connections that no pick can choose if and
      only if the notification leaves some live connection Ready. */
  lemma {:induction false} EmptyUpdateStarves(refuse: nat -> bool, es: seq<Event>, e: Event)
    requires Run(refuse, es).Ok? && LastUpdateEmpty(es) && e.Notified?
    requires forall x :: x in es ==> Coherent(x)
    requires Failures.Builds(Run(refuse, es).value, e)
    ensures Run(refuse, es + [e]).Ok?
    ensures var p := Run(refuse, es + [e]).value.v2Picker;
            && (p.NamingPicker? ==> p.insList.instances == [])
            && ((p.NamingPicker? && InstanceKeys(p.insList.instances) != p.readySCs.Keys)
                <==> exists a :: ReadyNext(Run(refuse, es).value, e, a))
  {
    var b := Run(refuse, es).value;
    RunKeepsInv(refuse, es);
    RunSnoc(refuse, es, e);
    UpdateSubConnStateKeepsInv(b, e.sc, e.state, e.connectionError);
    EmptiedResponse(refuse, es);
    StarvedPicker(b, e);
  }

  lemma StarvedPicker(b: Balancer, e: Event)
    requires Counted(b) && e.Notified? && Failures.Builds(b, e)
    requires UpdateSubConnState(b, e.sc, e.state, e.connectionError).Ok?
    requires b.response.Some? && b.response.value.instances == []
    ensures var p := UpdateSubConnState(b, e.sc, e.state, e.connectionError).value.v2Picker;
            && (p.NamingPicker? ==> p.insList.instances == [])
            && ((p.NamingPicker? && InstanceKeys(p.insList.instances) != p.readySCs.Keys)
                <==> exists a :: ReadyNext(b, e, a))
  {
    var r := Recorded(b, e.sc, e.state, e.connectionError);
    RecordedState(b, e.sc, e.state, e.connectionError);
    RebuildingShape(b, e.sc, e.state, e.connectionError);
    NextReady(b, e);
    if r.state != TransientFailure {
      RebuiltOffer(r, r.options);
    } else {
      forall a
        ensures !IsReady(r, a)
      {
        assert a in r.subConns && r.subConns[a] in r.scStates ==> r.scStates[r.subConns[a]] != Ready;
      }
    }
  }

  lemma NextReady(b: Balancer, e: Event)
    requires e.Notified? && e.sc in b.scStates
    ensures var r := Recorded(b, e.sc, e.state, e.connectionError);
            && (forall a :: IsReady(r, a) <==> ReadyNext(b, e, a))
            && (ReadyEntries(r) != map[] <==> exists a :: ReadyNext(b, e, a))
  {
    var r := Recorded(b, e.sc, e.state, e.connectionError);
    forall a
      ensures IsReady(r, a) <==> ReadyNext(b, e, a)
    {
    }
    if a :| ReadyNext(b, e, a) {
      assert a in ReadyEntries(r);
    }
    if ReadyEntries(r) != map[] {
      var a :| a in ReadyEntries(r);
      assert ReadyNext(b, e, a);
    }
  }

  /** Such a picker is reachable: an instance is resolved, the next lookup finds nothing, and
      the connection then becomes Ready. It is in the picker, but no pick can choose it. */
  lemma ReadyButNotOffered(refuse: nat -> bool, o: DialOptions, i: Instance)
    requires !refuse(0)
    ensures var full, none := InstancesResponse("", [i], i.weight), InstancesResponse("", [], 0);
            var es := [Resolved(ClientConnState(AddressesOf([i]), Some(Attributes(o, full)), None)),
                       Resolved(ClientConnState(AddressesOf([]), Some(Attributes(o, none)), None)),
                       Notified(0, Ready, None)];
            && Coherent(es[0]) && Coherent(es[1])
            && Run(refuse, es).Ok?
            && var p := Run(refuse, es).value.v2Picker;
               p.NamingPicker? && p.readySCs == map[InstanceKey(i) := 0] && p.insList.instances == []
  {
    var u0 := ClientConnState(AddressesOf([i]), Some(Attributes(o, InstancesResponse("", [i], i.weight))), None);
    var u1 := ClientConnState(AddressesOf([]), Some(Attributes(o, InstancesResponse("", [], 0))), None);
    assert u0.addresses == [Address(InstanceKey(i))] && u1.addresses == [];
    var b0 := Failures.FirstUpdate(refuse, u0, Address(InstanceKey(i)));
    var b1 := EmptyStep(refuse, b0, u1);
    BecomesReady(b1, InstanceKey(i));
    Failures.RunThree(refuse, Resolved(u0), Resolved(u1), Notified(0, Ready, None), b0, b1);
  }

  lemma EmptyStep(refuse: nat -> bool, b: Balancer, u: ClientConnState) returns (b': Balancer)
    requires Inv(b) && u.addresses == [] && u.attributes.Some?
    ensures Step(refuse, b, Resolved(u)) == Ok(b') && Inv(b')
    ensures b'.subConns == b.subConns && b'.scStates == b.scStates
    ensures b'.response == Some(u.attributes.value.response)
  {
    Reconciliation.FailureKeepsConnections(refuse, b, Resolved(u));
    UpdateClientConnStateKeepsInv(refuse, b, u);
    b' := UpdateClientConnState(refuse, b, u).value;
  }

  lemma BecomesReady(b: Balancer, a: string)
    requires Counted(b) && b.subConns == map[a := 0] && b.scStates == map[0 := Idle]
    requires b.response.Some? && b.response.value.instances == []
    ensures UpdateSubConnState(b, 0, Ready, None).Ok?
    ensures var p := UpdateSubConnState(b, 0, Ready, None).value.v2Picker;
            p.NamingPicker? && p.readySCs == map[a := 0] && p.insList.instances == []
  {
    var r := Recorded(b, 0, Ready, None);
    RecordedReady(b, a);
    RebuiltOffer(r, r.options);
  }

  lemma RecordedReady(b: Balancer, a: string)
    requires Counted(b) && b.subConns == map[a := 0] && b.scStates == map[0 := Idle]
    ensures var r := Recorded(b, 0, Ready, None);
            && r.state == Ready && ReadyEntries(r) == map[a := 0]
            && r.response == b.response && r.options == b.options
  {
  }

  // ---------- Pick ----------

  type Routers = InstancesResponse -> Result<InstancesResponse, Error>

  type LoadBalancer = InstancesResponse -> Result<Instance, Error>

  datatype PickResult =
    | Picked(sc: SubConn, instance: Instance)
    | Unavailable(cause: MergedError)
    | PickFailed(error: Error)
    | NoSubConnAvailable
    | PickPanics

  function Pick(p: Picker, routers: Routers, balance: LoadBalancer): PickResult {
    match p
    case NilPicker => PickPanics
    case ErrPicker(error) => Unavailable(error)
    case NamingPicker(readySCs, options, lbCfg, insList) =>
      if options.None? then PickPanics
      else
        var routed := if options.value.route then routers(insList) else Success(insList);
        if routed.Failure? then PickFailed(routed.error)
        else
          var chosen := balance(routed.value);
          if chosen.Failure? then PickFailed(chosen.error)
          else
            var addr := HostPort.Render(chosen.value.host, chosen.value.port);
            if addr in readySCs then Picked(readySCs[addr], chosen.value) else NoSubConnAvailable
  }

  /** Routing keeps offered instances only. */
  ghost predicate RoutesOffered(routers: Routers) {
    forall r, i :: routers(r).Success? && i in routers(r).value.instances ==> i in r.instances
  }

  /** Load balancing chooses one of the instances it is given. */
  ghost predicate ChoosesOffered(balance: LoadBalancer) {
    forall r :: balance(r).Success? ==> balance(r).value in r.instances
  }

  /** The instances that load balancing is given: with the route option what the router
      makes of the offer, without it the offer itself. */
  predicate Balanced(route: bool, offer: InstancesResponse, routers: Routers, given: InstancesResponse) {
    if route then routers(offer) == Success(given) else given == offer
  }

  predicate RoutingFails(route: bool, offer: InstancesResponse, routers: Routers, e: Error) {
    route && routers(offer) == Failure(e)
  }

  /** The outcome of a pick, for any router and any load balancing: it fails with `e` if and
      only if one of the two does, and otherwise follows the instance chosen from what the
      balancing was given. */
  lemma PickExact(p: Picker, routers: Routers, balance: LoadBalancer)
    requires p.NamingPicker? && p.options.Some?
    ensures var route, r := p.options.value.route, Pick(p, routers, balance);
            && (forall e :: r == PickFailed(e) <==>
                  RoutingFails(route, p.insList, routers, e) ||
                  exists given :: Balanced(route, p.insList, routers, given) && balance(given) == Failure(e))
            && (forall sc, i :: r == Picked(sc, i) <==>
                  && (exists given :: Balanced(route, p.insList, routers, given) && balance(given) == Success(i))
                  && InstanceKey(i) in p.readySCs && p.readySCs[InstanceKey(i)] == sc)
            && (r == NoSubConnAvailable <==>
                  exists given, i :: Balanced(route, p.insList, routers, given) && balance(given) == Success(i)
                                     && InstanceKey(i) !in p.readySCs)
  {
    var route, r := p.options.value.route, Pick(p, routers, balance);
    if !RoutingFails(route, p.insList, routers, if r.PickFailed? then r.error else ProducedZeroAddresses) {
      var given := if route then routers(p.insList) else Success(p.insList);
      assert given.Success? ==> Balanced(route, p.insList, routers, given.value);
    }
  }

  lemma PickOffered(p: Picker, routers: Routers, balance: LoadBalancer)
    requires RoutesOffered(routers) && ChoosesOffered(balance)
    requires p.NamingPicker? && p.options.Some?
    requires InstanceKeys(p.insList.instances) <= p.readySCs.Keys
    ensures var r := Pick(p, routers, balance);
            && (r.PickFailed? || r.Picked?)
            && (r.Picked? ==> r.instance in p.insList.instances && InstanceKey(r.instance) in p.readySCs
                              && r.sc == p.readySCs[InstanceKey(r.instance)])
  {
  }

  /** In every reachable state a pick on the published picker neither panics nor asks gRPC
      to wait. An error picker answers with its errors. A SubConn it returns is live,
      recorded Ready at this moment, and was dialled to the chosen instance and to no other
      host and port; with the route option of the first resolver state the router kept that
      instance. */
  lemma {:induction false} PickSound(refuse: nat -> bool, es: seq<Event>, routers: Routers, balance: LoadBalancer)
    requires Run(refuse, es).Ok? && Run(refuse, es).value.cc.published.Some?
    requires RoutesOffered(routers) && ChoosesOffered(balance)
    ensures var b := Run(refuse, es).value;
            var r := Pick(b.cc.published.value.picker, routers, balance);
            && r != NoSubConnAvailable && r != PickPanics
            && (r.Unavailable? <==> b.v2Picker.ErrPicker?)
            && (r.Unavailable? ==> r.cause == b.v2Picker.error)
            && (r.Picked? ==>
                  && Lifecycle.PhaseOf(b, r.sc) == Lifecycle.Live
                  && r.sc in b.scStates && b.scStates[r.sc] == Ready
                  && r.sc in b.cc.dialed
                  && (forall host, port :: b.cc.dialed[r.sc] == HostPort.Render(host, port)
                                           <==> host == r.instance.host && port == r.instance.port)
                  && b.v2Picker.NamingPicker? && History.FirstOptions(es).Some?
                  && exists given ::
                       && Balanced(History.FirstOptions(es).value.route, b.v2Picker.insList, routers, given)
                       && balance(given) == Success(r.instance) && r.instance in given.instances)
  {
    RunKeepsInv(refuse, es);
    var b := Run(refuse, es).value;
    var r := Pick(b.v2Picker, routers, balance);
    if b.v2Picker.NamingPicker? {
      PickOffered(b.v2Picker, routers, balance);
      PickExact(b.v2Picker, routers, balance);
      History.FieldsFollowHistory(refuse, es);
      if r.Picked? {
        PickedIsReady(b, r.sc, r.instance);
      }
    }
  }

  lemma PickedIsReady(b: Balancer, sc: SubConn, i: Instance)
    requires Inv(b) && InstanceKey(i) in ReadyView(b.v2Picker) && ReadyView(b.v2Picker)[InstanceKey(i)] == sc
    ensures Lifecycle.PhaseOf(b, sc) == Lifecycle.Live
    ensures sc in b.scStates && b.scStates[sc] == Ready
    ensures sc in b.cc.dialed
    ensures forall host, port :: b.cc.dialed[sc] == HostPort.Render(host, port) <==> host == i.host && port == i.port
  {
    assert InstanceKey(i) in ReadyEntries(b);
    assert b.subConns[InstanceKey(i)] == sc && b.cc.dialed[sc] == InstanceKey(i);
    forall host, port
      ensures b.cc.dialed[sc] == HostPort.Render(host, port) <==> host == i.host && port == i.port
    {
      HostPort.RenderInjective(host, port, i.host, i.port);
    }
  }

  /** The converse while the latest update was good: every live Ready connection has an
      offered instance, and a pick returns the connection whenever load balancing chooses
      that instance from what it is given, routed or not. */
  lemma {:induction false} EveryReadyPickable(refuse: nat -> bool, es: seq<Event>, a: string, routers: Routers,
                                              balance: LoadBalancer) returns (i: Instance)
    requires Run(refuse, es).Ok? && LastUpdateGood(es) && forall e :: e in es ==> Coherent(e)
    requires a in Run(refuse, es).value.subConns
    requires History.LiveReady(Run(refuse, es).value, a, Run(refuse, es).value.subConns[a])
    ensures var b := Run(refuse, es).value;
            && b.v2Picker.NamingPicker? && b.v2Picker.options.Some?
            && i in b.v2Picker.insList.instances && InstanceKey(i) == a
            && forall given :: Balanced(b.v2Picker.options.value.route, b.v2Picker.insList, routers, given)
                               && balance(given) == Success(i) ==>
                 Pick(b.v2Picker, routers, balance) == Picked(b.subConns[a], i)
  {
    RunKeepsInv(refuse, es);
    OfferMatchesConnections(refuse, es);
    var b := Run(refuse, es).value;
    assert a in ReadyEntries(b) && a in ReadyView(b.v2Picker);
    assert a in InstanceKeys(b.v2Picker.insList.instances);
    i :| i in b.v2Picker.insList.instances && InstanceKey(i) == a;
    PickExact(b.v2Picker, routers, balance);
  }
}

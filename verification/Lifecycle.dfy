/** The life of one SubConn: created, live, retired, gone. */
module Lifecycle {
  import opened Wrappers
  import opened Connectivity
  import opened BalancerModel
  import opened BalancerInvariants
  import opened BalancerRuns

  /** `Live`: filed under an address. `Retired`: only its state is still tracked. */
  datatype Phase = Unissued | Live | Retired | Gone

  function PhaseOf(b: Balancer, sc: SubConn): Phase {
    if sc in b.subConns.Values then Live
    else if sc in b.scStates then Retired
    else if sc in b.cc.dialed then Gone
    else Unissued
  }

  function PhaseRank(p: Phase): nat {
    match p
    case Unissued => 0
    case Live => 1
    case Retired => 2
    case Gone => 3
  }

  /** A connection is live exactly when it is filed under the address it was made for. */
  ghost predicate FiledUnderOwnAddress(b: Balancer, sc: SubConn) {
    sc in b.cc.dialed && b.cc.dialed[sc] in b.subConns && b.subConns[b.cc.dialed[sc]] == sc
  }

  lemma LiveByAddress(b: Balancer, sc: SubConn)
    requires Ledgered(b)
    ensures sc in b.subConns.Values <==> FiledUnderOwnAddress(b, sc)
  {
  }

  /** Nothing is created twice and no retired or gone connection becomes live again. */
  ghost predicate Forward(b: Balancer, b': Balancer) {
    && (forall sc :: sc in b.cc.dialed ==> sc in b'.cc.dialed && b'.cc.dialed[sc] == b.cc.dialed[sc])
    && (forall sc :: sc in b.cc.dialed && FiledUnderOwnAddress(b', sc) ==> FiledUnderOwnAddress(b, sc))
    && (forall sc :: sc in b.cc.dialed && sc in b'.scStates ==> sc in b.scStates)
  }

  lemma GrownForward(b: Balancer, b': Balancer, keep: set<string>)
    requires Ledgered(b) && Grown(b, b')
    ensures Forward(b, Retire(b', keep))
  {
  }

  lemma ReconcileForward(refuse: nat -> bool, b: Balancer, u: ClientConnState)
    requires Core(b) && Absorb(b, u).options.Some?
    ensures Forward(b, Reconcile(refuse, b, u))
  {
    var accepted := Absorb(b, u).(apis := true, resolverErr := None);
    AbsorbKeepsCore(b, u);
    AcceptKeepsCore(Absorb(b, u));
    CreateAllKeepsCore(refuse, accepted, u.addresses);
    GrownForward(accepted, CreateAll(refuse, accepted, u.addresses), AddressKeys(u.addresses));
  }

  lemma NotifiedForward(b: Balancer, sc: SubConn, s: State, err: Option<Error>)
    requires UpdateSubConnState(b, sc, s, err).Ok?
    ensures Forward(b, UpdateSubConnState(b, sc, s, err).value)
  {
    NotificationShape(b, sc, s, err);
  }

  lemma StepForward(refuse: nat -> bool, b: Balancer, e: Event)
    requires Inv(b) && Step(refuse, b, e).Ok?
    ensures Forward(b, Step(refuse, b, e).value)
  {
    match e
    case Resolved(u) =>
      if u.addresses != [] {
        GoodUpdateShape(refuse, b, u);
        ReconcileForward(refuse, b, u);
      } else {
        FailureShape(Absorb(b, u), Some(ProducedZeroAddresses));
      }
    case ResolveFailed(err) => FailureShape(b, err);
    case Notified(sc, s, err) => NotifiedForward(b, sc, s, err);
  }

  /** Along every run a connection only ever moves on to a later phase. */
  lemma {:induction false} PhaseNeverReturns(refuse: nat -> bool, es: seq<Event>, more: seq<Event>, sc: SubConn)
    requires Run(refuse, es + more).Ok?
    ensures Run(refuse, es).Ok?
    ensures PhaseRank(PhaseOf(Run(refuse, es).value, sc)) <= PhaseRank(PhaseOf(Run(refuse, es + more).value, sc))
  {
    if more == [] {
      assert es + more == es;
    } else {
      var front, e := more[..|more| - 1], more[|more| - 1];
      AppendSnoc(es, more);
      PrefixRuns(refuse, es + front, e);
      PhaseNeverReturns(refuse, es, front, sc);
      PhaseStep(refuse, es + front, e, sc);
    }
  }

  lemma AppendSnoc(es: seq<Event>, more: seq<Event>)
    requires more != []
    ensures es + more == (es + more[..|more| - 1]) + [more[|more| - 1]]
  {
  }

  lemma {:induction false} PrefixRuns(refuse: nat -> bool, es: seq<Event>, e: Event)
    requires Run(refuse, es + [e]).Ok?
    ensures Run(refuse, es).Ok?
  {
  }

  lemma {:induction false} PhaseStep(refuse: nat -> bool, es: seq<Event>, e: Event, sc: SubConn)
    requires Run(refuse, es).Ok? && Run(refuse, es + [e]).Ok?
    ensures PhaseRank(PhaseOf(Run(refuse, es).value, sc)) <= PhaseRank(PhaseOf(Run(refuse, es + [e]).value, sc))
  {
    RunSnoc(refuse, es, e);
    RunKeepsInv(refuse, es);
    RunKeepsInv(refuse, es + [e]);
    StepForward(refuse, Run(refuse, es).value, e);
    PhaseForward(Run(refuse, es).value, Run(refuse, es + [e]).value, sc);
  }

  lemma PhaseForward(b: Balancer, b': Balancer, sc: SubConn)
    requires Ledgered(b) && Ledgered(b') && Forward(b, b')
    ensures PhaseRank(PhaseOf(b, sc)) <= PhaseRank(PhaseOf(b', sc))
  {
    LiveByAddress(b, sc);
    LiveByAddress(b', sc);
  }

  // ---------- shutting down ----------

  /** gRPC reports Shutdown only for connections it was told to shut down. */
  ghost predicate Disciplined(refuse: nat -> bool, es: seq<Event>) {
    if es == [] then true
    else
      var front := es[..|es| - 1];
      Disciplined(refuse, front) &&
      (Run(refuse, front).Ok? ==> DisciplinedStep(Run(refuse, front).value, es[|es| - 1]))
  }

  predicate DisciplinedStep(b: Balancer, e: Event) {
    e.Notified? && e.state == Shutdown ==> e.sc in b.cc.shutdowns
  }

  /** Every issued connection is either live or was shut down. */
  ghost predicate Accounted(b: Balancer) {
    forall sc :: sc in b.cc.dialed ==> FiledUnderOwnAddress(b, sc) || sc in b.cc.shutdowns
  }

  ghost predicate LiveTracked(b: Balancer) {
    forall a :: a in b.subConns ==> b.subConns[a] in b.scStates
  }

  lemma CreateAccounted(refuse: nat -> bool, b: Balancer, addr: Address)
    requires Ledgered(b) && Accounted(b) && LiveTracked(b)
    ensures var b' := CreateSubConnection(refuse, b, BuildAddressKey(addr), addr);
            Accounted(b') && LiveTracked(b')
  {
    var b', n := CreateSubConnection(refuse, b, BuildAddressKey(addr), addr), b.cc.attempts;
    if addr.addr !in b.subConns && !refuse(n) {
      assert b'.cc.dialed == b.cc.dialed[n := addr.addr] && b'.subConns == b.subConns[addr.addr := n];
      assert b'.cc.shutdowns == b.cc.shutdowns && b'.scStates == b.scStates[n := Idle];
      assert FiledUnderOwnAddress(b', n);
      forall sc | sc in b.cc.dialed
        ensures FiledUnderOwnAddress(b', sc) || sc in b'.cc.shutdowns
      {
        assert sc != n;
      }
    }
  }

  lemma {:induction false} CreateAllAccounted(refuse: nat -> bool, b: Balancer, addresses: seq<Address>)
    requires Core(b) && b.apis && Accounted(b) && LiveTracked(b)
    ensures var b' := CreateAll(refuse, b, addresses); Accounted(b') && LiveTracked(b')
  {
    if addresses != [] {
      var front, last := addresses[..|addresses| - 1], addresses[|addresses| - 1];
      CreateAllKeepsCore(refuse, b, front);
      CreateAllAccounted(refuse, b, front);
      CreateAccounted(refuse, CreateAll(refuse, b, front), last);
    }
  }

  lemma RetireAccounted(b: Balancer, keep: set<string>)
    requires Ledgered(b) && Accounted(b) && LiveTracked(b)
    ensures Accounted(Retire(b, keep)) && LiveTracked(Retire(b, keep))
  {
  }

  lemma ReconcileAccounted(refuse: nat -> bool, b: Balancer, u: ClientConnState)
    requires Core(b) && Absorb(b, u).options.Some? && Accounted(b) && LiveTracked(b)
    ensures Accounted(Reconcile(refuse, b, u)) && LiveTracked(Reconcile(refuse, b, u))
  {
    var accepted := Absorb(b, u).(apis := true, resolverErr := None);
    AbsorbKeepsCore(b, u);
    AcceptKeepsCore(Absorb(b, u));
    assert Accounted(accepted) && LiveTracked(accepted);
    CreateAllAccounted(refuse, accepted, u.addresses);
    CreateAllKeepsCore(refuse, accepted, u.addresses);
    RetireAccounted(CreateAll(refuse, accepted, u.addresses), AddressKeys(u.addresses));
  }

  lemma NotifiedAccounted(b: Balancer, sc: SubConn, s: State, err: Option<Error>)
    requires Ledgered(b) && Accounted(b) && LiveTracked(b)
    requires UpdateSubConnState(b, sc, s, err).Ok?
    requires DisciplinedStep(b, Notified(sc, s, err))
    ensures Accounted(UpdateSubConnState(b, sc, s, err).value)
    ensures LiveTracked(UpdateSubConnState(b, sc, s, err).value)
  {
    var b' := UpdateSubConnState(b, sc, s, err).value;
    NotificationShape(b, sc, s, err);
    forall sc' | sc' in b.cc.dialed
      ensures FiledUnderOwnAddress(b', sc') <==> FiledUnderOwnAddress(b, sc')
    {
    }
  }

  lemma UpdateAccounted(refuse: nat -> bool, b: Balancer, u: ClientConnState)
    requires Core(b) && Accounted(b) && LiveTracked(b)
    requires u.addresses != [] && UpdateClientConnState(refuse, b, u).Ok?
    ensures var b' := UpdateClientConnState(refuse, b, u).value; Accounted(b') && LiveTracked(b')
  {
    GoodUpdateShape(refuse, b, u);
    ReconcileAccounted(refuse, b, u);
  }

  lemma StepAccounted(refuse: nat -> bool, b: Balancer, e: Event)
    requires Inv(b) && Accounted(b) && LiveTracked(b)
    requires Step(refuse, b, e).Ok? && DisciplinedStep(b, e)
    ensures Accounted(Step(refuse, b, e).value) && LiveTracked(Step(refuse, b, e).value)
  {
    match e
    case Resolved(u) =>
      if u.addresses != [] {
        UpdateAccounted(refuse, b, u);
      } else {
        FailureShape(Absorb(b, u), Some(ProducedZeroAddresses));
      }
    case ResolveFailed(err) => FailureShape(b, err);
    case Notified(sc, s, err) => NotifiedAccounted(b, sc, s, err);
  }

  lemma {:induction false} RunAccounted(refuse: nat -> bool, es: seq<Event>)
    requires Run(refuse, es).Ok? && Disciplined(refuse, es)
    ensures Accounted(Run(refuse, es).value) && LiveTracked(Run(refuse, es).value)
  {
    if es != [] {
      var front := es[..|es| - 1];
      RunAccounted(refuse, front);
      RunKeepsInv(refuse, front);
      StepAccounted(refuse, Run(refuse, front).value, es[|es| - 1]);
    }
  }

  /** The phases partition the issued connections: a live one is tracked and was never shut
      down, a retired or gone one was shut down exactly once, and no two addresses share one. */
  lemma {:induction false} PhasesExact(refuse: nat -> bool, es: seq<Event>, sc: SubConn)
    requires Run(refuse, es).Ok? && Disciplined(refuse, es)
    ensures var b := Run(refuse, es).value;
            && (PhaseOf(b, sc) == Live ==> sc in b.scStates && b.cc.shutdowns[sc] == 0)
            && (PhaseOf(b, sc) == Retired || PhaseOf(b, sc) == Gone ==> b.cc.shutdowns[sc] == 1)
            && (PhaseOf(b, sc) == Unissued ==> b.cc.shutdowns[sc] == 0 && b.cc.connects[sc] == 0)
            && (forall a, a' :: a in b.subConns && a' in b.subConns && b.subConns[a] == b.subConns[a'] ==> a == a')
  {
    RunKeepsInv(refuse, es);
    RunAccounted(refuse, es);
    LiveByAddress(Run(refuse, es).value, sc);
  }
}

/** What holds after every callback of every run of the balancer. */
module BalancerRuns {
  import opened Wrappers
  import opened Connectivity
  import opened BalancerModel
  import opened BalancerInvariants

  /** A naming picker holds exactly the live connections that are Ready now, although it
      is rebuilt on few events only; any other picker means that none is Ready. */
  lemma {:induction false} ReadyViewExact(refuse: nat -> bool, es: seq<Event>)
    requires Run(refuse, es).Ok?
    ensures var b := Run(refuse, es).value;
            && (forall a, sc :: a in ReadyView(b.v2Picker) && ReadyView(b.v2Picker)[a] == sc <==>
                  a in b.subConns && b.subConns[a] == sc && sc in b.scStates && b.scStates[sc] == Ready)
            && (!b.v2Picker.NamingPicker? ==> forall a :: a in b.subConns ==> !IsReady(b, a))
  {
    RunKeepsInv(refuse, es);
    var b := Run(refuse, es).value;
    assert forall a :: a in b.subConns && IsReady(b, a) ==> a in ReadyEntries(b);
  }

  /** The incremental counters are the histogram of the tracked states, so they are never
      negative and report the aggregate. */
  lemma {:induction false} EvaluatorExact(refuse: nat -> bool, es: seq<Event>)
    requires Run(refuse, es).Ok?
    ensures var b := Run(refuse, es).value;
            && b.csEvltr == Histogram(b.scStates)
            && CurrentState(b.csEvltr) == Aggregate(b.scStates)
            && forall sc :: sc in b.scStates ==> b.scStates[sc] != Shutdown
  {
    RunKeepsInv(refuse, es);
    HistogramAggregates(Run(refuse, es).value.scStates);
  }

  ghost predicate NonNegative(c: Counters) {
    c.ready >= 0 && c.connecting >= 0 && c.idle >= 0 && c.transientFailure >= 0
  }

  /** The decrement of a transition never meets a zero counter. */
  lemma {:induction false} NoUnderflow(refuse: nat -> bool, es: seq<Event>, sc: SubConn)
    requires Run(refuse, es).Ok? && sc in Run(refuse, es).value.scStates
    ensures var b := Run(refuse, es).value;
            NonNegative(Bump(b.csEvltr, b.scStates[sc], -1))
  {
    RunKeepsInv(refuse, es);
    var b := Run(refuse, es).value;
    InStateEmpty(b.scStates, b.scStates[sc]);
  }

  function Rank(s: State): nat {
    match s
    case Ready => 3
    case Connecting => 2
    case Idle => 1
    case TransientFailure => 0
    case Shutdown => 0
  }

  /** The cached aggregate is exact or TransientFailure: it can only lag pessimistically. */
  lemma {:induction false} CachedStateLags(refuse: nat -> bool, es: seq<Event>)
    requires Run(refuse, es).Ok?
    ensures var b := Run(refuse, es).value;
            && (b.scStates != map[] ==> b.state == Aggregate(b.scStates) || b.state == TransientFailure)
            && (b.scStates != map[] ==> Rank(b.state) <= Rank(Aggregate(b.scStates)))
            && (b.scStates == map[] ==> b.state == Idle || b.state == TransientFailure)
            && (b.state == TransientFailure ==> ReadyEntries(b) == map[])
  {
    RunKeepsInv(refuse, es);
  }

  lemma {:induction false} RunSnoc(refuse: nat -> bool, es: seq<Event>, e: Event)
    requires Run(refuse, es).Ok?
    ensures Run(refuse, es + [e]) == Step(refuse, Run(refuse, es).value, e)
  {
  }

  /** A recorded notification makes the cached aggregate exact again. */
  lemma {:induction false} NotificationRefreshesState(refuse: nat -> bool, es: seq<Event>, sc: SubConn, s: State,
                                                      err: Option<Error>)
    requires Run(refuse, es).Ok? && sc in Run(refuse, es).value.scStates
    requires !Ignored(Run(refuse, es).value.scStates[sc], s)
    ensures Run(refuse, es + [Notified(sc, s, err)]).Ok?
    ensures var after := Run(refuse, es + [Notified(sc, s, err)]).value; after.state == Aggregate(after.scStates)
  {
    NotificationRuns(refuse, es, sc, s, err);
    RunSnoc(refuse, es, Notified(sc, s, err));
    RecordedNotification(Run(refuse, es).value, sc, s, err);
  }

  lemma NotificationRuns(refuse: nat -> bool, es: seq<Event>, sc: SubConn, s: State, err: Option<Error>)
    requires Run(refuse, es).Ok?
    ensures Counted(Run(refuse, es).value) && UpdateSubConnState(Run(refuse, es).value, sc, s, err).Ok?
  {
    RunKeepsInv(refuse, es);
    UpdateSubConnStateKeepsInv(Run(refuse, es).value, sc, s, err);
  }

  lemma RecordedNotification(b: Balancer, sc: SubConn, s: State, err: Option<Error>)
    requires Counted(b) && sc in b.scStates && !Ignored(b.scStates[sc], s)
    requires UpdateSubConnState(b, sc, s, err).Ok?
    ensures var b' := UpdateSubConnState(b, sc, s, err).value;
            b'.state == Aggregate(b'.scStates)
  {
    RecordedState(b, sc, s, err);
    NotificationShape(b, sc, s, err);
    RebuiltShape(Recorded(b, sc, s, err));
    assert UpdateSubConnState(b, sc, s, err).value.state == Recorded(b, sc, s, err).state;
  }

  /** What gRPC was last told is what the balancer caches, and it is never told a nil picker. */
  lemma {:induction false} PublishedConsistent(refuse: nat -> bool, es: seq<Event>)
    requires Run(refuse, es).Ok?
    ensures var b := Run(refuse, es).value;
            && (b.cc.published.Some? ==>
                  b.cc.published.value == Publication(b.state, b.v2Picker) && !b.v2Picker.NilPicker?)
            && (b.cc.published.None? ==> b.v2Picker.NilPicker? && b.scStates == map[] && b.subConns == map[])
  {
    RunKeepsInv(refuse, es);
  }

  // ---------- nil safety ----------

  predicate IsGoodUpdate(e: Event) {
    e.Resolved? && e.update.addresses != []
  }

  /** Some resolver state so far carried the attributes. */
  predicate Attributed(es: seq<Event>) {
    exists i :: 0 <= i < |es| && es[i].Resolved? && es[i].update.attributes.Some?
  }

  lemma {:induction false} AttributesKept(refuse: nat -> bool, es: seq<Event>)
    requires Run(refuse, es).Ok?
    ensures Attributed(es) <==> Run(refuse, es).value.options.Some?
  {
    if es != [] {
      var front, e := es[..|es| - 1], es[|es| - 1];
      AttributesKept(refuse, front);
      StepOptions(refuse, Run(refuse, front).value, e);
      assert es == front + [e];
      AttributedSnoc(front, e);
    }
  }

  lemma StepOptions(refuse: nat -> bool, b: Balancer, e: Event)
    requires Step(refuse, b, e).Ok?
    ensures var b' := Step(refuse, b, e).value;
            && b'.options == (if e.Resolved? then Absorb(b, e.update).options else b.options)
            && b'.response == (if e.Resolved? then Absorb(b, e.update).response else b.response)
  {
    if IsGoodUpdate(e) {
      ReconcileFrame(refuse, b, e.update);
      GoodUpdateShape(refuse, b, e.update);
    } else if e.Resolved? {
      FailureShape(Absorb(b, e.update), Some(ProducedZeroAddresses));
    }
  }

  /** No non-empty update came before the first attributes. */
  ghost predicate Supplied(es: seq<Event>) {
    forall i :: 0 <= i < |es| && IsGoodUpdate(es[i]) ==> Attributed(es[..i + 1])
  }

  lemma {:induction false} SuppliedSnoc(es: seq<Event>, e: Event)
    ensures Supplied(es + [e]) <==> Supplied(es) && (IsGoodUpdate(e) ==> Attributed(es + [e]))
  {
    var all := es + [e];
    assert all[..|es| + 1] == all;
    forall i | 0 <= i < |es|
      ensures all[i] == es[i] && all[..i + 1] == es[..i + 1]
    {
    }
    if Supplied(all) {
      forall i | 0 <= i < |es| && IsGoodUpdate(es[i])
        ensures Attributed(es[..i + 1])
      {
        assert IsGoodUpdate(all[i]);
      }
      if IsGoodUpdate(e) {
        assert IsGoodUpdate(all[|es|]);
      }
    }
  }

  /** A run panics exactly when a non-empty update arrives before any attributes did. */
  lemma {:induction false} NilSafety(refuse: nat -> bool, es: seq<Event>)
    ensures Run(refuse, es).Ok? <==> Supplied(es)
  {
    if es != [] {
      var front, e := es[..|es| - 1], es[|es| - 1];
      assert es == front + [e];
      NilSafety(refuse, front);
      SuppliedSnoc(front, e);
      if Run(refuse, front).Ok? {
        LastStepPanics(refuse, front, e);
      }
    }
  }

  lemma {:induction false} LastStepPanics(refuse: nat -> bool, es: seq<Event>, e: Event)
    requires Run(refuse, es).Ok?
    ensures Run(refuse, es + [e]).Ok? <==> (IsGoodUpdate(e) ==> Attributed(es + [e]))
  {
    RunSnoc(refuse, es, e);
    RunKeepsInv(refuse, es);
    AttributesKept(refuse, es);
    AttributedSnoc(es, e);
    StepKeepsInv(refuse, Run(refuse, es).value, e);
  }

  lemma {:induction false} AttributedSnoc(es: seq<Event>, e: Event)
    ensures Attributed(es + [e]) <==> Attributed(es) || (e.Resolved? && e.update.attributes.Some?)
  {
    var all := es + [e];
    if i :| 0 <= i < |es| && es[i].Resolved? && es[i].update.attributes.Some? {
      assert all[i] == es[i];
    }
    if e.Resolved? && e.update.attributes.Some? {
      assert all[|es|] == e;
    }
    if i :| 0 <= i < |all| && all[i].Resolved? && all[i].update.attributes.Some? {
      assert i < |es| ==> all[i] == es[i];
    }
  }

  /** Once anything is tracked the attributes are there, every naming picker carries the
      dial options, and the resolver-error path only ever builds error pickers. */
  lemma {:induction false} NothingMissing(refuse: nat -> bool, es: seq<Event>)
    requires Run(refuse, es).Ok?
    ensures var b := Run(refuse, es).value;
            && (b.scStates != map[] ==> b.options.Some? && b.response.Some?)
            && (b.v2Picker.NamingPicker? ==> b.options.Some? && b.v2Picker.options == b.options)
            && (forall err :: ResolverError(b, err).Ok? &&
                  (var b' := ResolverError(b, err).value;
                   b'.v2Picker.ErrPicker? || (b'.v2Picker == b.v2Picker && b'.cc == b.cc)))
  {
    RunKeepsInv(refuse, es);
  }

  // ---------- reconnecting ----------

  /** The Idle notifications `es` delivers for `sc` while it is tracked. */
  ghost function IdleHeard(refuse: nat -> bool, es: seq<Event>, sc: SubConn): nat {
    if es == [] then 0
    else
      var front, e := es[..|es| - 1], es[|es| - 1];
      IdleHeard(refuse, front, sc) +
        if Run(refuse, front).Ok? && HearsIdle(Run(refuse, front).value, e, sc) then 1 else 0
  }

  function Issued(b: Balancer, sc: SubConn): nat {
    if sc in b.cc.dialed then 1 else 0
  }

  lemma CreateConnects(refuse: nat -> bool, b: Balancer, addr: Address, sc: SubConn)
    requires b.cc.attempts !in b.cc.dialed
    ensures var b' := CreateSubConnection(refuse, b, BuildAddressKey(addr), addr);
            b'.cc.connects[sc] + Issued(b, sc) == b.cc.connects[sc] + Issued(b', sc)
  {
  }

  lemma {:induction false} CreateAllConnects(refuse: nat -> bool, b: Balancer, addresses: seq<Address>, sc: SubConn)
    requires Core(b) && b.apis
    ensures var b' := CreateAll(refuse, b, addresses);
            b'.cc.connects[sc] + Issued(b, sc) == b.cc.connects[sc] + Issued(b', sc)
  {
    if addresses != [] {
      var front, last := addresses[..|addresses| - 1], addresses[|addresses| - 1];
      CreateAllConnects(refuse, b, front, sc);
      CreateAllKeepsCore(refuse, b, front);
      CreateConnects(refuse, CreateAll(refuse, b, front), last, sc);
    }
  }

  lemma ReconcileConnects(refuse: nat -> bool, b: Balancer, u: ClientConnState, sc: SubConn)
    requires Core(b) && Absorb(b, u).options.Some?
    ensures var b' := Reconcile(refuse, b, u);
            b'.cc.connects[sc] + Issued(b, sc) == b.cc.connects[sc] + Issued(b', sc)
  {
    var accepted := Absorb(b, u).(apis := true, resolverErr := None);
    AbsorbKeepsCore(b, u);
    AcceptKeepsCore(Absorb(b, u));
    CreateAllConnects(refuse, accepted, u.addresses, sc);
  }

  ghost predicate HearsIdle(b: Balancer, e: Event, sc: SubConn) {
    sc in b.scStates && e.Notified? && e.sc == sc && e.state == Idle
  }

  lemma StepConnects(refuse: nat -> bool, b: Balancer, e: Event, sc: SubConn)
    requires Inv(b) && Step(refuse, b, e).Ok?
    ensures var b' := Step(refuse, b, e).value;
            b'.cc.connects[sc] + Issued(b, sc)
              == b.cc.connects[sc] + Issued(b', sc) + if HearsIdle(b, e, sc) then 1 else 0
  {
    match e
    case Resolved(u) =>
      if u.addresses != [] {
        GoodUpdateShape(refuse, b, u);
        ReconcileConnects(refuse, b, u, sc);
      } else {
        FailureShape(Absorb(b, u), Some(ProducedZeroAddresses));
      }
    case ResolveFailed(err) => FailureShape(b, err);
    case Notified(sc', s, err) => NotifiedConnects(b, sc', s, err, sc);
  }

  lemma NotifiedConnects(b: Balancer, sc': SubConn, s: State, err: Option<Error>, sc: SubConn)
    requires UpdateSubConnState(b, sc', s, err).Ok?
    ensures var b' := UpdateSubConnState(b, sc', s, err).value;
            && b'.cc.dialed == b.cc.dialed
            && b'.cc.connects[sc] == b.cc.connects[sc] + if HearsIdle(b, Notified(sc', s, err), sc) then 1 else 0
  {
    if sc' in b.scStates && !Ignored(b.scStates[sc'], s) {
      RebuiltShape(Recorded(b, sc', s, err));
      assert UpdateSubConnState(b, sc', s, err).value.cc.connects == Recorded(b, sc', s, err).cc.connects;
    }
  }

  /** `Connect` was called once for the creation and once per Idle notification. */
  lemma {:induction false} ReconnectLedger(refuse: nat -> bool, es: seq<Event>, sc: SubConn)
    requires Run(refuse, es).Ok?
    ensures var b := Run(refuse, es).value;
            b.cc.connects[sc] == Issued(b, sc) + IdleHeard(refuse, es, sc)
  {
    if es != [] {
      var front := es[..|es| - 1];
      ReconnectLedger(refuse, front, sc);
      RunKeepsInv(refuse, front);
      StepConnects(refuse, Run(refuse, front).value, es[|es| - 1], sc);
    }
  }
}

/** When a picker is built, which errors an error picker reports, and how long a failure sticks. */
module Failures {
  import opened Wrappers
  import opened Connectivity
  import opened BalancerModel
  import opened BalancerInvariants
  import opened BalancerRuns
  import opened Lifecycle
  import Reconciliation

  // ---------- the errors behind an error picker ----------

  predicate CarriesError(e: Event) {
    && (e.ResolveFailed? ==> e.err.Some?)
    && (e.Notified? && e.state == TransientFailure ==> e.connectionError.Some?)
  }

  ghost predicate NeverRefuses(refuse: nat -> bool) {
    forall n :: !refuse(n)
  }

  /** `NewSubConn` never fails, Shutdown is reported only after a shutdown, and failures
      come with an error. */
  ghost predicate Benign(refuse: nat -> bool, es: seq<Event>) {
    NeverRefuses(refuse) && Disciplined(refuse, es) && forall e :: e in es ==> CarriesError(e)
  }

  lemma {:induction false} BenignPrefix(refuse: nat -> bool, es: seq<Event>, e: Event)
    requires Benign(refuse, es + [e])
    ensures Benign(refuse, es) && CarriesError(e)
    ensures Run(refuse, es).Ok? ==> DisciplinedStep(Run(refuse, es).value, e)
  {
  }

  /** A tracked failure left its error behind. */
  ghost predicate FailuresExplained(b: Balancer) {
    forall sc :: sc in b.scStates && b.scStates[sc] == TransientFailure ==> b.connErr.Some?
  }

  lemma StepFailuresExplained(refuse: nat -> bool, b: Balancer, e: Event)
    requires Inv(b) && FailuresExplained(b) && CarriesError(e) && Step(refuse, b, e).Ok?
    ensures FailuresExplained(Step(refuse, b, e).value)
  {
    match e
    case Resolved(u) =>
      if u.addresses != [] {
        Reconciliation.UpdatedSurvivors(refuse, b, u);
        GoodUpdateShape(refuse, b, u);
        ReconcileFrame(refuse, b, u);
      } else {
        FailureShape(Absorb(b, u), Some(ProducedZeroAddresses));
      }
    case ResolveFailed(err) => FailureShape(b, err);
    case Notified(sc, s, err) => NotifiedFailuresExplained(b, sc, s, err);
  }

  lemma NotifiedFailuresExplained(b: Balancer, sc: SubConn, s: State, err: Option<Error>)
    requires FailuresExplained(b) && CarriesError(Notified(sc, s, err))
    requires UpdateSubConnState(b, sc, s, err).Ok?
    ensures FailuresExplained(UpdateSubConnState(b, sc, s, err).value)
  {
    NotificationShape(b, sc, s, err);
    if sc in b.scStates && !Ignored(b.scStates[sc], s) {
      RebuiltShape(Recorded(b, sc, s, err));
      assert UpdateSubConnState(b, sc, s, err).value.connErr == if s == TransientFailure then err else b.connErr;
    }
  }

  lemma {:induction false} RunFailuresExplained(refuse: nat -> bool, es: seq<Event>)
    requires Run(refuse, es).Ok? && forall e :: e in es ==> CarriesError(e)
    ensures FailuresExplained(Run(refuse, es).value)
  {
    if es == [] {
    } else {
      var front, e := es[..|es| - 1], es[|es| - 1];
      assert e in es && forall x :: x in front ==> x in es;
      RunFailuresExplained(refuse, front);
      RunKeepsInv(refuse, front);
      StepFailuresExplained(refuse, Run(refuse, front).value, e);
    }
  }

  /** A tracked failure left its error behind, and an updated balancer has a tracked connection. */
  ghost predicate Explained(b: Balancer) {
    && FailuresExplained(b)
    && (b.apis ==> b.subConns != map[])
    && LiveTracked(b)
  }

  lemma UpdateKeepsSome(refuse: nat -> bool, b: Balancer, u: ClientConnState)
    requires Inv(b) && NeverRefuses(refuse)
    requires u.addresses != [] && UpdateClientConnState(refuse, b, u).Ok?
    ensures UpdateClientConnState(refuse, b, u).value.subConns != map[]
  {
    Reconciliation.UpdatedKeys(refuse, b, u);
    assert BuildAddressKey(u.addresses[0]) in UpdateClientConnState(refuse, b, u).value.subConns;
  }

  lemma {:induction false} RunExplained(refuse: nat -> bool, es: seq<Event>)
    requires Run(refuse, es).Ok? && Benign(refuse, es)
    ensures Explained(Run(refuse, es).value)
  {
    if es == [] {
    } else {
      var front, e := es[..|es| - 1], es[|es| - 1];
      assert es == front + [e];
      BenignPrefix(refuse, front, e);
      RunExplained(refuse, front);
      RunStepExplained(refuse, front, e);
    }
  }

  lemma {:induction false} RunStepExplained(refuse: nat -> bool, es: seq<Event>, e: Event)
    requires Run(refuse, es).Ok? && Run(refuse, es + [e]).Ok? && Benign(refuse, es + [e])
    requires Explained(Run(refuse, es).value)
    ensures Explained(Run(refuse, es + [e]).value)
  {
    RunSnoc(refuse, es, e);
    BenignPrefix(refuse, es, e);
    RunKeepsInv(refuse, es);
    RunAccounted(refuse, es + [e]);
    StepExplained(refuse, Run(refuse, es).value, e);
  }

  lemma StepExplained(refuse: nat -> bool, b: Balancer, e: Event)
    requires Inv(b) && Explained(b) && NeverRefuses(refuse) && CarriesError(e)
    requires Step(refuse, b, e).Ok? && LiveTracked(Step(refuse, b, e).value)
    ensures Explained(Step(refuse, b, e).value)
  {
    StepFailuresExplained(refuse, b, e);
    match e
    case Resolved(u) =>
      if u.addresses != [] {
        UpdateKeepsSome(refuse, b, u);
      } else {
        FailureShape(Absorb(b, u), Some(ProducedZeroAddresses));
      }
    case ResolveFailed(err) => FailureShape(b, err);
    case Notified(sc, s, err) => NotificationShape(b, sc, s, err);
  }

  predicate IsFailure(e: Event) {
    e.ResolveFailed? || (e.Resolved? && e.update.addresses == [])
  }

  predicate Updated(es: seq<Event>) {
    es != [] && (Updated(es[..|es| - 1]) || IsGoodUpdate(es[|es| - 1]))
  }

  /** A resolver failure came before the first good update. */
  predicate FailedFirst(es: seq<Event>) {
    es != [] && (FailedFirst(es[..|es| - 1]) || (IsFailure(es[|es| - 1]) && !Updated(es[..|es| - 1])))
  }

  predicate Hears(b: Balancer, e: Event) {
    e.Notified? && e.sc in b.scStates
  }

  /** Some tracked connection has reported a state. */
  predicate Heard(refuse: nat -> bool, es: seq<Event>) {
    es != [] &&
    (Heard(refuse, es[..|es| - 1]) ||
     (Run(refuse, es[..|es| - 1]).Ok? && Hears(Run(refuse, es[..|es| - 1]).value, es[|es| - 1])))
  }

  /** How the history of a run shows in the cached aggregate and the connection error. */
  ghost predicate Recalls(b: Balancer, updated: bool, failedFirst: bool, heard: bool) {
    && (b.apis <==> updated)
    && (!heard ==> b.connErr.None? && (b.state == TransientFailure <==> failedFirst))
    && (heard ==> updated && (b.state == TransientFailure ==> b.connErr.Some?))
  }

  lemma AllFailedExplained(b: Balancer)
    requires Inv(b) && Explained(b) && b.apis && Aggregate(b.scStates) == TransientFailure
    ensures b.connErr.Some?
  {
  }

  lemma HearingRecalls(b: Balancer, sc: SubConn, s: State, err: Option<Error>, failedFirst: bool, heard: bool)
    requires Inv(b) && Explained(b) && Recalls(b, b.apis, failedFirst, heard)
    requires sc in b.scStates && UpdateSubConnState(b, sc, s, err).Ok?
    requires Inv(UpdateSubConnState(b, sc, s, err).value) && Explained(UpdateSubConnState(b, sc, s, err).value)
    ensures Recalls(UpdateSubConnState(b, sc, s, err).value, b.apis, failedFirst, true)
  {
    var b' := UpdateSubConnState(b, sc, s, err).value;
    NotificationShape(b, sc, s, err);
    if !Ignored(b.scStates[sc], s) && b'.state == TransientFailure {
      RecordedNotification(b, sc, s, err);
      AllFailedExplained(b');
    }
  }

  lemma {:induction false} RunRecalls(refuse: nat -> bool, es: seq<Event>)
    requires Run(refuse, es).Ok? && Benign(refuse, es)
    ensures Recalls(Run(refuse, es).value, Updated(es), FailedFirst(es), Heard(refuse, es))
  {
    if es != [] {
      var front, e := es[..|es| - 1], es[|es| - 1];
      assert es == front + [e];
      BenignPrefix(refuse, front, e);
      RunRecalls(refuse, front);
      RunKeepsInv(refuse, front);
      RunKeepsInv(refuse, es);
      RunExplained(refuse, front);
      RunExplained(refuse, es);
      StepRecalls(refuse, Run(refuse, front).value, e, Updated(front), FailedFirst(front), Heard(refuse, front));
    }
  }

  lemma StepRecalls(refuse: nat -> bool, b: Balancer, e: Event, updated: bool, failedFirst: bool, heard: bool)
    requires Inv(b) && Explained(b) && Recalls(b, updated, failedFirst, heard) && Step(refuse, b, e).Ok?
    requires Inv(Step(refuse, b, e).value) && Explained(Step(refuse, b, e).value)
    ensures Recalls(Step(refuse, b, e).value, updated || IsGoodUpdate(e),
                    failedFirst || (IsFailure(e) && !updated), heard || Hears(b, e))
  {
    match e
    case Resolved(u) =>
      if u.addresses != [] {
        GoodUpdateShape(refuse, b, u);
        ReconcileFrame(refuse, b, u);
      } else {
        FailureShape(Absorb(b, u), Some(ProducedZeroAddresses));
      }
    case ResolveFailed(err) => FailureShape(b, err);
    case Notified(sc, s, err) =>
      if sc in b.scStates {
        HearingRecalls(b, sc, s, err, failedFirst, heard);
      }
  }

  /** Notification `s` for `sc` is recorded, not suppressed or unknown. */
  predicate IsRecorded(b: Balancer, sc: SubConn, s: State) {
    sc in b.scStates && !(b.scStates[sc] == TransientFailure && (s == Connecting || s == Idle))
  }

  /** The callbacks after which the balancer builds a new picker, by the state before them: a
      good update, a resolver failure without connections or during TransientFailure, and a
      recorded notification by which a connection enters or leaves Ready or after which the
      tracked connections aggregate to TransientFailure. */
  ghost predicate Builds(b: Balancer, e: Event) {
    match e
    case Resolved(u) => u.addresses != [] || b.subConns == map[] || b.state == TransientFailure
    case ResolveFailed(_) => b.subConns == map[] || b.state == TransientFailure
    case Notified(sc, s, _) =>
      && IsRecorded(b, sc, s)
      && ((s == Ready) != (b.scStates[sc] == Ready) || Aggregate(Track(b.scStates, sc, s)) == TransientFailure)
  }

  lemma BuildsRebuilds(b: Balancer, sc: SubConn, s: State, err: Option<Error>)
    requires Counted(b) && IsRecorded(b, sc, s)
    ensures Builds(b, Notified(sc, s, err)) <==> Rebuilds(b, sc, s, err)
  {
    RecordedState(b, sc, s, err);
  }

  /** A newly built picker reports an error exactly when the cached aggregate says so, and
      it is made of the fields as they are after the callback. */
  lemma BuiltPicker(refuse: nat -> bool, b: Balancer, e: Event)
    requires Inv(b) && Step(refuse, b, e).Ok? && Builds(b, e)
    ensures BuiltFrom(Step(refuse, b, e).value)
  {
    match e
    case Resolved(u) =>
      if u.addresses != [] {
        GoodUpdateShape(refuse, b, u);
        RegeneratedPicker(Reconcile(refuse, b, u));
      }
    case ResolveFailed(err) =>
    case Notified(sc, s, err) =>
      BuildsRebuilds(b, sc, s, err);
      RebuildingShape(b, sc, s, err);
      RegeneratedPicker(Recorded(b, sc, s, err));
  }

  /** Every other callback keeps the picker. A recorded notification publishes it again with
      the new aggregate; after anything else the last published pair is as before. */
  lemma KeptPicker(refuse: nat -> bool, b: Balancer, e: Event)
    requires Inv(b) && Step(refuse, b, e).Ok? && !Builds(b, e)
    ensures var b' := Step(refuse, b, e).value;
            && b'.v2Picker == b.v2Picker
            && b'.cc.published == (if e.Notified? && IsRecorded(b, e.sc, e.state)
                                   then Some(Publication(Aggregate(Track(b.scStates, e.sc, e.state)), b.v2Picker))
                                   else b.cc.published)
  {
    if e.Notified? && IsRecorded(b, e.sc, e.state) {
      BuildsRebuilds(b, e.sc, e.state, e.connectionError);
      RecordedState(b, e.sc, e.state, e.connectionError);
    }
  }

  /** So an error picker can be published together with Connecting: the first resolution
      fails, the next one succeeds, and its connection starts to connect. */
  lemma ErrorPickerWhileConnecting(refuse: nat -> bool, err: Error, a: Address)
    requires NeverRefuses(refuse)
    ensures var es := [ResolveFailed(Some(err)), Resolved(Offer(a)), Notified(0, Connecting, None)];
            && Benign(refuse, es)
            && Run(refuse, es).Ok?
            && Run(refuse, es).value.cc.published == Some(Publication(Connecting, EMPTY_ERROR_PICKER))
  {
    var e0, e1, e2 := ResolveFailed(Some(err)), Resolved(Offer(a)), Notified(0, Connecting, None);
    BenignExceptionReachable(refuse, err, a);
    RunKeepsInv(refuse, [e0, e1]);
    var b := Run(refuse, [e0, e1]).value;
    FirstUpdateAfterFailure(refuse, err, a);
    ConnectingKeepsPicker(refuse, b);
    assert [e0, e1] + [e2] == [e0, e1, e2];
    RunSnoc(refuse, [e0, e1], e2);
    DisciplinedThree(refuse, e0, e1, e2);
  }

  lemma FirstUpdateAfterFailure(refuse: nat -> bool, err: Error, a: Address)
    requires !refuse(0)
    ensures var es := [ResolveFailed(Some(err)), Resolved(Offer(a))];
            Run(refuse, es).Ok? ==> Run(refuse, es).value.scStates == map[0 := Idle]
  {
    var e0, e1 := ResolveFailed(Some(err)), Resolved(Offer(a));
    InitInv();
    ResolverErrorKeepsInv(Init(), Some(err));
    FailureShape(Init(), Some(err));
    var b0 := ResolverError(Init(), Some(err)).value;
    RunTwo(refuse, e0, e1, b0);
    UpdateClientConnStateKeepsInv(refuse, b0, Offer(a));
    GoodUpdateShape(refuse, b0, Offer(a));
    ReconcileOne(refuse, b0, Offer(a), a);
  }

  lemma OneConnecting(m: map<SubConn, State>)
    requires m == map[0 := Idle]
    ensures Aggregate(Track(m, 0, Connecting)) == Connecting
  {
    assert Track(m, 0, Connecting) == map[0 := Connecting];
    assert 0 in Track(m, 0, Connecting);
  }

  lemma ConnectingKeepsPicker(refuse: nat -> bool, b: Balancer)
    requires Inv(b) && b.scStates == map[0 := Idle]
    ensures var after := Step(refuse, b, Notified(0, Connecting, None));
            after.Ok? && after.value.cc.published == Some(Publication(Connecting, b.v2Picker))
  {
    var e := Notified(0, Connecting, None);
    StepKeepsInv(refuse, b, e);
    OneConnecting(b.scStates);
    KeptPicker(refuse, b, e);
  }

  /** The picker is what the current fields make: the errors while the cached aggregate is
      TransientFailure, else the Ready connections and their instances. */
  ghost predicate BuiltFrom(b: Balancer) {
    if b.state == TransientFailure
    then b.v2Picker == ErrPicker(MergeErrors(b.connErr, b.resolverErr))
    else b.response.Some? && b.v2Picker == NewNamingPicker(b, b.options)
  }

  lemma RegeneratedPicker(r: Balancer)
    requires RegeneratePicker(r, r.options).Ok?
    ensures BuiltFrom(Publish(RegeneratePicker(r, r.options).value))
  {
    assert ReadyEntries(Publish(RegeneratePicker(r, r.options).value)) == ReadyEntries(r);
  }

  lemma BuiltResolverError(refuse: nat -> bool, b: Balancer, e: Event)
    requires Step(refuse, b, e).Ok? && CarriesError(e)
    ensures var b' := Step(refuse, b, e).value;
            && (IsGoodUpdate(e) ==> b'.resolverErr == None && b'.state == b.state && b'.connErr == b.connErr)
            && (IsFailure(e) ==> b'.resolverErr.Some?)
  {
    if IsGoodUpdate(e) {
      GoodUpdateShape(refuse, b, e.update);
      ReconcileFrame(refuse, b, e.update);
    }
  }

  /** The guards, before the callback, under which a newly built picker reports no error:
      a good update while the aggregate is TransientFailure, or the Shutdown of the last
      tracked connection with no resolver error outstanding, before any connection error. */
  ghost predicate LosesError(b: Balancer, e: Event) {
    && b.connErr.None?
    && ((IsGoodUpdate(e) && b.state == TransientFailure)
        || (e.Notified? && e.state == Shutdown && b.resolverErr.None? && b.scStates.Keys == {e.sc}))
  }

  /** On every run whose failures carry their errors, with any refusals and any Shutdown
      reports, a newly built picker reports no error at all exactly under those guards. */
  lemma {:induction false} ErrorlessExactly(refuse: nat -> bool, es: seq<Event>, e: Event)
    requires Run(refuse, es).Ok? && Run(refuse, es + [e]).Ok?
    requires (forall x :: x in es ==> CarriesError(x)) && CarriesError(e)
    requires Builds(Run(refuse, es).value, e)
    ensures (Run(refuse, es + [e]).value.v2Picker == EMPTY_ERROR_PICKER) <==> LosesError(Run(refuse, es).value, e)
  {
    RunSnoc(refuse, es, e);
    RunKeepsInv(refuse, es);
    RunFailuresExplained(refuse, es);
    BuiltErrorless(refuse, Run(refuse, es).value, e);
  }

  lemma BuiltErrorless(refuse: nat -> bool, b: Balancer, e: Event)
    requires Inv(b) && FailuresExplained(b) && CarriesError(e)
    requires Step(refuse, b, e).Ok? && Builds(b, e)
    ensures (Step(refuse, b, e).value.v2Picker == EMPTY_ERROR_PICKER) <==> LosesError(b, e)
  {
    BuiltPicker(refuse, b, e);
    EmptyErrors(Step(refuse, b, e).value);
    if e.Notified? {
      NotifiedLosses(b, e.sc, e.state, e.connectionError);
    } else {
      BuiltResolverError(refuse, b, e);
    }
  }

  lemma EmptyErrors(b: Balancer)
    requires BuiltFrom(b)
    ensures (b.v2Picker == EMPTY_ERROR_PICKER) <==> NoErrorLeft(b)
  {
  }

  ghost predicate NoErrorLeft(b: Balancer) {
    b.state == TransientFailure && b.connErr.None? && b.resolverErr.None?
  }

  lemma NotifiedLosses(b: Balancer, sc: SubConn, s: State, err: Option<Error>)
    requires Counted(b) && FailuresExplained(b) && CarriesError(Notified(sc, s, err))
    requires sc in b.scStates && !Ignored(b.scStates[sc], s) && UpdateSubConnState(b, sc, s, err).Ok?
    ensures NoErrorLeft(UpdateSubConnState(b, sc, s, err).value) <==> LosesError(b, Notified(sc, s, err))
  {
    NotifiedErrors(b, sc, s, err);
    if b.connErr.None? && s != TransientFailure {
      NotifiedErrorless(b, sc, s);
    }
  }

  lemma NotifiedErrors(b: Balancer, sc: SubConn, s: State, err: Option<Error>)
    requires Counted(b) && sc in b.scStates && !Ignored(b.scStates[sc], s)
    requires UpdateSubConnState(b, sc, s, err).Ok?
    ensures var b' := UpdateSubConnState(b, sc, s, err).value;
            && b'.resolverErr == b.resolverErr
            && b'.connErr == (if s == TransientFailure then err else b.connErr)
            && b'.state == Aggregate(Track(b.scStates, sc, s))
  {
    RecordedState(b, sc, s, err);
    NotificationShape(b, sc, s, err);
    RebuiltShape(Recorded(b, sc, s, err));
    assert UpdateSubConnState(b, sc, s, err).value.connErr == Recorded(b, sc, s, err).connErr;
    assert UpdateSubConnState(b, sc, s, err).value.state == Recorded(b, sc, s, err).state;
  }

  /** While no connection error is known, only losing the last connection makes the
      aggregate TransientFailure without a new failure. */
  lemma NotifiedErrorless(b: Balancer, sc: SubConn, s: State)
    requires Counted(b) && FailuresExplained(b) && b.connErr.None? && sc in b.scStates && s != TransientFailure
    ensures Aggregate(Track(b.scStates, sc, s)) == TransientFailure <==> s == Shutdown && b.scStates.Keys == {sc}
  {
    var m := Track(b.scStates, sc, s);
    if s == Shutdown {
      if c :| c in m {
        assert c in b.scStates && m[c] == b.scStates[c] && c != sc;
        assert m[c] != TransientFailure && m[c] != Shutdown;
      }
      forall c | c in b.scStates && c != sc
        ensures c in m
      {
      }
    } else {
      assert sc in m && m[sc] == s;
    }
  }

  /** On benign runs the guards come down to the history, in exactly one situation: a good
      update, after a resolver failure that preceded every good update, while no tracked
      connection has reported yet. `ResolverError` and `UpdateSubConnState` never build a
      picker without an error. */
  lemma {:induction false} ErrorAvailability(refuse: nat -> bool, es: seq<Event>, e: Event)
    requires Run(refuse, es).Ok? && Run(refuse, es + [e]).Ok? && Benign(refuse, es + [e])
    requires Builds(Run(refuse, es).value, e)
    ensures (Run(refuse, es + [e]).value.v2Picker == EMPTY_ERROR_PICKER)
              <==> (IsGoodUpdate(e) && FailedFirst(es) && !Heard(refuse, es))
  {
    BenignPrefix(refuse, es, e);
    ErrorlessExactly(refuse, es, e);
    RunKeepsInv(refuse, es);
    RunExplained(refuse, es);
    RunRecalls(refuse, es);
    BenignLosses(Run(refuse, es).value, e, Updated(es), FailedFirst(es), Heard(refuse, es));
  }

  lemma BenignLosses(b: Balancer, e: Event, updated: bool, failedFirst: bool, heard: bool)
    requires Ledgered(b) && Wired(b) && Explained(b) && Recalls(b, updated, failedFirst, heard)
    requires DisciplinedStep(b, e)
    ensures LosesError(b, e) <==> IsGoodUpdate(e) && failedFirst && !heard
  {
    if b.apis {
      LiveRemains(b);
    }
  }

  lemma LiveRemains(b: Balancer)
    requires Ledgered(b) && LiveTracked(b) && b.subConns != map[]
    ensures exists sc :: sc in b.scStates && sc !in b.cc.shutdowns
  {
    var a :| a in b.subConns;
    assert b.subConns[a] in b.scStates && b.subConns[a] !in b.cc.shutdowns;
  }

  function Offer(a: Address): ClientConnState {
    ClientConnState([a], Some(Attributes(DialOptions("", false), InstancesResponse("", [], 0))), None)
  }

  lemma CreateOne(refuse: nat -> bool, b: Balancer, a: Address)
    ensures CreateAll(refuse, b, [a]) == CreateSubConnection(refuse, b, BuildAddressKey(a), a)
    ensures AddressKeys([a]) == {a.addr}
  {
  }

  lemma ReconcileOne(refuse: nat -> bool, b: Balancer, u: ClientConnState, a: Address)
    requires !refuse(0) && u.addresses == [a]
    requires b.subConns == map[] && b.scStates == map[] && b.cc.attempts == 0
    ensures var r := Reconcile(refuse, b, u);
            r.subConns == map[a.addr := 0] && r.scStates == map[0 := Idle] && r.cc.attempts == 1
  {
    var accepted := Absorb(b, u).(apis := true, resolverErr := None);
    CreateOne(refuse, accepted, a);
    var created := CreateAll(refuse, accepted, [a]);
    assert created.subConns == map[][a.addr := 0];
    assert created.scStates == map[][0 := Idle];
    Reconciliation.RetireNone(created, AddressKeys([a]));
  }

  lemma FirstUpdate(refuse: nat -> bool, u: ClientConnState, a: Address) returns (b: Balancer)
    requires !refuse(0) && u.addresses == [a] && u.attributes.Some?
    ensures Step(refuse, Init(), Resolved(u)) == Ok(b) && Inv(b)
    ensures b.subConns == map[a.addr := 0] && b.scStates == map[0 := Idle] && b.cc.attempts == 1
    ensures b.connErr == None && b.resolverErr == None
  {
    InitInv();
    UpdateClientConnStateKeepsInv(refuse, Init(), u);
    GoodUpdateShape(refuse, Init(), u);
    ReconcileFrame(refuse, Init(), u);
    ReconcileOne(refuse, Init(), u, a);
    b := UpdateClientConnState(refuse, Init(), u).value;
  }

  lemma RefusedReconcile(refuse: nat -> bool, b: Balancer, u: ClientConnState, a: Address, a': Address)
    requires refuse(1) && a.addr != a'.addr && u.addresses == [a']
    requires b.subConns == map[a.addr := 0] && b.cc.attempts == 1
    ensures var r := Reconcile(refuse, b, u);
            r.scStates == b.scStates && 0 in r.cc.shutdowns
  {
    var accepted := Absorb(b, u).(apis := true, resolverErr := None);
    CreateOne(refuse, accepted, a');
    var created := CreateAll(refuse, accepted, [a']);
    assert created.subConns == b.subConns && created.scStates == b.scStates;
    assert a.addr in created.subConns && a.addr !in AddressKeys([a']);
    assert 0 in Stale(created.subConns, AddressKeys([a']));
  }

  lemma RefusedUpdate(refuse: nat -> bool, b: Balancer, u: ClientConnState, a: Address, a': Address)
    returns (b': Balancer)
    requires refuse(1) && a.addr != a'.addr && u.addresses == [a'] && u.attributes.Some?
    requires Inv(b) && b.subConns == map[a.addr := 0] && b.cc.attempts == 1 && b.connErr == None
    ensures Step(refuse, b, Resolved(u)) == Ok(b') && Inv(b')
    ensures b'.scStates == b.scStates && 0 in b'.cc.shutdowns && b'.connErr == None && b'.resolverErr == None
  {
    UpdateClientConnStateKeepsInv(refuse, b, u);
    GoodUpdateShape(refuse, b, u);
    ReconcileFrame(refuse, b, u);
    RefusedReconcile(refuse, b, u, a, a');
    b' := UpdateClientConnState(refuse, b, u).value;
  }

  lemma LastShutdown(b: Balancer)
    requires Inv(b) && b.scStates == map[0 := Idle] && b.connErr == None && b.resolverErr == None
    ensures UpdateSubConnState(b, 0, Shutdown, None).Ok?
    ensures UpdateSubConnState(b, 0, Shutdown, None).value.v2Picker == EMPTY_ERROR_PICKER
  {
    RecordedState(b, 0, Shutdown, None);
    assert Track(b.scStates, 0, Shutdown) == map[];
  }

  lemma RunTwo(refuse: nat -> bool, e0: Event, e1: Event, b0: Balancer)
    requires Step(refuse, Init(), e0) == Ok(b0)
    ensures Run(refuse, [e0]) == Ok(b0)
    ensures Run(refuse, [e0, e1]) == Step(refuse, b0, e1)
  {
    assert Run(refuse, []) == Ok(Init());
    RunSnoc(refuse, [], e0);
    assert [] + [e0] == [e0];
    RunSnoc(refuse, [e0], e1);
    assert [e0] + [e1] == [e0, e1];
  }

  lemma RunThree(refuse: nat -> bool, e0: Event, e1: Event, e2: Event, b0: Balancer, b1: Balancer)
    requires Step(refuse, Init(), e0) == Ok(b0) && Step(refuse, b0, e1) == Ok(b1)
    ensures Run(refuse, [e0, e1]) == Ok(b1)
    ensures Run(refuse, [e0, e1, e2]) == Step(refuse, b1, e2)
  {
    RunTwo(refuse, e0, e1, b0);
    RunSnoc(refuse, [e0, e1], e2);
    assert [e0, e1] + [e2] == [e0, e1, e2];
  }

  lemma DisciplinedThree(refuse: nat -> bool, e0: Event, e1: Event, e2: Event)
    requires !e0.Notified? && !e1.Notified?
    requires Run(refuse, [e0, e1]).Ok? && DisciplinedStep(Run(refuse, [e0, e1]).value, e2)
    ensures Disciplined(refuse, [e0, e1, e2])
  {
    assert [e0, e1, e2][..2] == [e0, e1] && [e0, e1][..1] == [e0] && [e0][..0] == [];
    assert Disciplined(refuse, [e0]);
    assert Disciplined(refuse, [e0, e1]);
  }

  /** The exception on benign runs is reachable: the first resolution fails and the next
      one succeeds. */
  lemma BenignExceptionReachable(refuse: nat -> bool, err: Error, a: Address)
    requires NeverRefuses(refuse)
    ensures var es := [ResolveFailed(Some(err)), Resolved(Offer(a))];
            && Benign(refuse, es)
            && Run(refuse, es).Ok? && Run(refuse, es).value.v2Picker == EMPTY_ERROR_PICKER
  {
    var e0, e1 := ResolveFailed(Some(err)), Resolved(Offer(a));
    InitInv();
    ResolverErrorKeepsInv(Init(), Some(err));
    var b0 := ResolverError(Init(), Some(err)).value;
    FailureShape(Init(), Some(err));
    UpdateClientConnStateKeepsInv(refuse, b0, Offer(a));
    BuiltErrorless(refuse, b0, e1);
    RunTwo(refuse, e0, e1, b0);
    DisciplinedTwo(refuse, e0, e1);
  }

  lemma DisciplinedTwo(refuse: nat -> bool, e0: Event, e1: Event)
    requires !e0.Notified? && !e1.Notified?
    ensures Disciplined(refuse, [e0, e1])
  {
    assert [e0, e1][..1] == [e0] && [e0][..0] == [];
    assert Disciplined(refuse, [e0]);
  }

  /** Outside the benign runs there is another exception. A refused creation reaches it: the
      only address is replaced by one whose creation is refused, and the retired
      connection's Shutdown then builds a picker that reports no error. */
  lemma RefusalLosesError(refuse: nat -> bool, a: Address, a': Address)
    requires !refuse(0) && refuse(1) && a.addr != a'.addr
    ensures var es := [Resolved(Offer(a)), Resolved(Offer(a')), Notified(0, Shutdown, None)];
            && Disciplined(refuse, es)
            && Run(refuse, es).Ok? && Run(refuse, es).value.v2Picker == EMPTY_ERROR_PICKER
  {
    var b0 := FirstUpdate(refuse, Offer(a), a);
    var b1 := RefusedUpdate(refuse, b0, Offer(a'), a, a');
    LastShutdown(b1);
    RunThree(refuse, Resolved(Offer(a)), Resolved(Offer(a')), Notified(0, Shutdown, None), b0, b1);
    DisciplinedThree(refuse, Resolved(Offer(a)), Resolved(Offer(a')), Notified(0, Shutdown, None));
  }

  /** So does a Shutdown report for a connection nobody shut down, without any refusal. */
  lemma EarlyShutdownLosesError(refuse: nat -> bool, a: Address)
    requires NeverRefuses(refuse)
    ensures var es := [Resolved(Offer(a)), Notified(0, Shutdown, None)];
            && CarriesError(es[0]) && CarriesError(es[1])
            && Run(refuse, es).Ok? && Run(refuse, es).value.v2Picker == EMPTY_ERROR_PICKER
  {
    var b0 := FirstUpdate(refuse, Offer(a), a);
    LastShutdown(b0);
    RunTwo(refuse, Resolved(Offer(a)), Notified(0, Shutdown, None), b0);
  }

  // ---------- sticky failures ----------

  /** A recorded failure ends with Ready or with the end of tracking, on those notifications. */
  lemma FailureSticks(refuse: nat -> bool, b: Balancer, e: Event, sc: SubConn)
    requires Inv(b) && Step(refuse, b, e).Ok?
    requires sc in b.scStates && b.scStates[sc] == TransientFailure
    ensures var b' := Step(refuse, b, e).value;
            && (sc in b'.scStates ==> b'.scStates[sc] == TransientFailure || b'.scStates[sc] == Ready)
            && (sc !in b'.scStates <==> e.Notified? && e.sc == sc && e.state == Shutdown)
            && (sc in b'.scStates && b'.scStates[sc] == Ready <==> e.Notified? && e.sc == sc && e.state == Ready)
  {
    match e
    case Resolved(u) =>
      if u.addresses != [] {
        Reconciliation.UpdatedSurvivors(refuse, b, u);
      } else {
        FailureShape(Absorb(b, u), Some(ProducedZeroAddresses));
      }
    case ResolveFailed(err) => FailureShape(b, err);
    case Notified(sc', s, err) => NotifiedSticks(b, sc', s, err, sc);
  }

  lemma NotifiedSticks(b: Balancer, sc': SubConn, s: State, err: Option<Error>, sc: SubConn)
    requires UpdateSubConnState(b, sc', s, err).Ok? && HasFailed(b, sc)
    ensures var b' := UpdateSubConnState(b, sc', s, err).value;
            && (sc in b'.scStates ==> b'.scStates[sc] == TransientFailure || b'.scStates[sc] == Ready)
            && (sc !in b'.scStates <==> sc' == sc && s == Shutdown)
            && (sc in b'.scStates && b'.scStates[sc] == Ready <==> sc' == sc && s == Ready)
  {
    NotificationShape(b, sc', s, err);
  }

  /** `e` reports Ready or Shutdown for `sc`. */
  predicate Releases(e: Event, sc: SubConn) {
    e.Notified? && e.sc == sc && (e.state == Ready || e.state == Shutdown)
  }

  predicate HasFailed(b: Balancer, sc: SubConn) {
    sc in b.scStates && b.scStates[sc] == TransientFailure
  }

  /** Over every run, a recorded failure stays recorded until Ready or Shutdown is reported. */
  lemma {:induction false} StickyFailure(refuse: nat -> bool, es: seq<Event>, more: seq<Event>, sc: SubConn)
    requires Run(refuse, es).Ok? && Run(refuse, es + more).Ok?
    requires HasFailed(Run(refuse, es).value, sc)
    requires forall e :: e in more ==> !Releases(e, sc)
    ensures HasFailed(Run(refuse, es + more).value, sc)
  {
    if more == [] {
      assert es + more == es;
    } else {
      var front, e := more[..|more| - 1], more[|more| - 1];
      AppendSnoc(es, more);
      PrefixRuns(refuse, es + front, e);
      StickyFailure(refuse, es, front, sc);
      StickyStep(refuse, es + front, e, sc);
    }
  }

  lemma {:induction false} StickyStep(refuse: nat -> bool, es: seq<Event>, e: Event, sc: SubConn)
    requires Run(refuse, es).Ok? && Run(refuse, es + [e]).Ok?
    requires HasFailed(Run(refuse, es).value, sc) && !Releases(e, sc)
    ensures HasFailed(Run(refuse, es + [e]).value, sc)
  {
    RunKeepsInv(refuse, es);
    RunSnoc(refuse, es, e);
    FailureSticks(refuse, Run(refuse, es).value, e, sc);
  }

  predicate Quiet(e: Event) {
    e.Notified? && (e.state == Idle || e.state == Connecting)
  }

  /** While all tracked connections have failed, Idle and Connecting reports only cause
      `Connect` calls: no state, counter, aggregate, picker or publication changes. */
  lemma {:induction false} AllFailedIsQuiet(refuse: nat -> bool, es: seq<Event>, more: seq<Event>)
    requires Run(refuse, es).Ok?
    requires forall sc :: sc in Run(refuse, es).value.scStates ==> HasFailed(Run(refuse, es).value, sc)
    requires forall e :: e in more ==> Quiet(e)
    ensures Run(refuse, es + more).Ok?
    ensures var b, b' := Run(refuse, es).value, Run(refuse, es + more).value;
            b' == b.(cc := b.cc.(connects := b'.cc.connects))
  {
    if more == [] {
      assert es + more == es;
    } else {
      var front, e := more[..|more| - 1], more[|more| - 1];
      AppendSnoc(es, more);
      AllFailedIsQuiet(refuse, es, front);
      RunSnoc(refuse, es + front, e);
      assert Quiet(e);
    }
  }
}

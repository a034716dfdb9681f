/** Remembered fields, cached picker and tracked states, in terms of the callbacks so far. */
module History {
  import opened Wrappers
  import opened Connectivity
  import opened BalancerModel
  import opened BalancerInvariants
  import opened BalancerRuns
  import Failures
  import Lifecycle
  import Reconciliation

  /** The dial options of the first resolver state that carried attributes. */
  function FirstOptions(es: seq<Event>): Option<DialOptions> {
    if es == [] then None
    else
      var earlier, e := FirstOptions(es[..|es| - 1]), es[|es| - 1];
      if earlier.None? && e.Resolved? && e.update.attributes.Some? then Some(e.update.attributes.value.options)
      else earlier
  }

  /** The response of the latest resolver state that carried attributes, empty or not. */
  function LatestResponse(es: seq<Event>): Option<InstancesResponse> {
    if es == [] then None
    else
      var e := es[|es| - 1];
      if e.Resolved? && e.update.attributes.Some? then Some(e.update.attributes.value.response)
      else LatestResponse(es[..|es| - 1])
  }

  /** The latest balancer configuration. */
  function LatestConfig(es: seq<Event>): Option<LBConfig> {
    if es == [] then None
    else
      var e := es[|es| - 1];
      if e.Resolved? && e.update.balancerConfig.Some? then e.update.balancerConfig
      else LatestConfig(es[..|es| - 1])
  }

  /** The latest resolver failure since the latest good update. */
  function ResolverErrorSince(es: seq<Event>): Option<Error> {
    if es == [] then None
    else
      match es[|es| - 1]
      case Resolved(u) => if u.addresses == [] then Some(ProducedZeroAddresses) else None
      case ResolveFailed(err) => err
      case Notified(_, _, _) => ResolverErrorSince(es[..|es| - 1])
  }

  /** The error of the latest failure reported by a connection tracked at that moment. */
  function LatestConnectionError(refuse: nat -> bool, es: seq<Event>): Option<Error> {
    if es == [] then None
    else
      var front, e := es[..|es| - 1], es[|es| - 1];
      if Run(refuse, front).Ok? && Failures.Hears(Run(refuse, front).value, e) && e.state == TransientFailure
      then e.connectionError
      else LatestConnectionError(refuse, front)
  }

  lemma StepFields(refuse: nat -> bool, b: Balancer, e: Event)
    requires Step(refuse, b, e).Ok?
    ensures var b' := Step(refuse, b, e).value;
            && b'.lbCfg == (if e.Resolved? then Absorb(b, e.update).lbCfg else b.lbCfg)
            && b'.resolverErr == (match e
                                  case Resolved(u) => if u.addresses == [] then Some(ProducedZeroAddresses) else None
                                  case ResolveFailed(err) => err
                                  case Notified(_, _, _) => b.resolverErr)
            && b'.connErr == (if Failures.Hears(b, e) && e.state == TransientFailure then e.connectionError
                              else b.connErr)
  {
    match e
    case Resolved(u) =>
      if u.addresses != [] {
        GoodUpdateShape(refuse, b, u);
        ReconcileFrame(refuse, b, u);
      } else {
        FailureShape(Absorb(b, u), Some(ProducedZeroAddresses));
      }
    case ResolveFailed(err) => FailureShape(b, err);
    case Notified(sc, s, err) => NotifiedFields(b, sc, s, err);
  }

  lemma NotifiedFields(b: Balancer, sc: SubConn, s: State, err: Option<Error>)
    requires UpdateSubConnState(b, sc, s, err).Ok?
    ensures var b' := UpdateSubConnState(b, sc, s, err).value;
            && b'.lbCfg == b.lbCfg && b'.resolverErr == b.resolverErr
            && b'.connErr == if sc in b.scStates && s == TransientFailure then err else b.connErr
  {
    NotificationShape(b, sc, s, err);
    if sc in b.scStates && !Ignored(b.scStates[sc], s) {
      RebuiltShape(Recorded(b, sc, s, err));
      assert UpdateSubConnState(b, sc, s, err).value.connErr == Recorded(b, sc, s, err).connErr;
    }
  }

  /** The remembered fields follow the history of the run. In particular the connection
      error is never cleared: it outlives every recovery. */
  lemma {:induction false} FieldsFollowHistory(refuse: nat -> bool, es: seq<Event>)
    requires Run(refuse, es).Ok?
    ensures var b := Run(refuse, es).value;
            && b.options == FirstOptions(es)
            && b.response == LatestResponse(es)
            && b.lbCfg == LatestConfig(es)
            && b.resolverErr == ResolverErrorSince(es)
            && b.connErr == LatestConnectionError(refuse, es)
  {
    if es != [] {
      var front, e := es[..|es| - 1], es[|es| - 1];
      FieldsFollowHistory(refuse, front);
      StepOptions(refuse, Run(refuse, front).value, e);
      StepFields(refuse, Run(refuse, front).value, e);
    }
  }

  /** `m` reports the connection error `conn` and the resolver error `resolver`, each in its
      own place, and wraps nothing else; with neither it wraps a nil resolver error. */
  predicate Reports(m: MergedError, conn: Option<Error>, resolver: Option<Error>) {
    match m
    case LastResolver(r) => conn == None && r == resolver
    case LastConnection(c) => conn == Some(c) && resolver == None
    case Both(c, r) => conn == Some(c) && resolver == Some(r)
  }

  lemma MergeReportsBoth(connErr: Option<Error>, resolverErr: Option<Error>)
    ensures Reports(MergeErrors(connErr, resolverErr), connErr, resolverErr)
  {
  }

  /** When a picker is built while the aggregate is TransientFailure, it reports the latest
      connection error and the resolver error outstanding at that moment, and nothing else. */
  lemma {:induction false} ErrorPickerReports(refuse: nat -> bool, es: seq<Event>, e: Event)
    requires Run(refuse, es).Ok? && Run(refuse, es + [e]).Ok? && Failures.Builds(Run(refuse, es).value, e)
    requires Run(refuse, es + [e]).value.state == TransientFailure
    ensures var p := Run(refuse, es + [e]).value.v2Picker;
            && p.ErrPicker?
            && Reports(p.error, LatestConnectionError(refuse, es + [e]), ResolverErrorSince(es + [e]))
  {
    RunSnoc(refuse, es, e);
    RunKeepsInv(refuse, es);
    Failures.BuiltPicker(refuse, Run(refuse, es).value, e);
    FieldsFollowHistory(refuse, es + [e]);
    MergeReportsBoth(Run(refuse, es + [e]).value.connErr, Run(refuse, es + [e]).value.resolverErr);
  }

  // ---------- the cached picker ----------

  /** The callbacks up to the latest one that built a picker. */
  ghost function UpToBuild(refuse: nat -> bool, es: seq<Event>): seq<Event> {
    if es == [] then []
    else
      var front := es[..|es| - 1];
      if Run(refuse, front).Ok? && Failures.Builds(Run(refuse, front).value, es[|es| - 1]) then es
      else UpToBuild(refuse, front)
  }

  predicate LiveReady(b: Balancer, a: string, sc: SubConn) {
    a in b.subConns && b.subConns[a] == sc && sc in b.scStates && b.scStates[sc] == Ready
  }

  /** `p` says what the callbacks `es`, after which the balancer is `b`, have left to say: the
      latest errors while the aggregate is TransientFailure, else the live Ready connections
      with their instances of the latest response, the first options and the latest
      configuration. */
  ghost predicate Tells(refuse: nat -> bool, es: seq<Event>, b: Balancer, p: Picker) {
    match p
    case NilPicker => es == []
    case ErrPicker(error) =>
      b.state == TransientFailure && Reports(error, LatestConnectionError(refuse, es), ResolverErrorSince(es))
    case NamingPicker(readySCs, options, lbCfg, insList) =>
      && b.state != TransientFailure
      && (forall a, sc :: (a in readySCs && readySCs[a] == sc) <==> LiveReady(b, a, sc))
      && options == FirstOptions(es) && options.Some?
      && lbCfg == LatestConfig(es)
      && LatestResponse(es).Some?
      && insList.service == LatestResponse(es).value.service
      && insList.instances == Offered(LatestResponse(es).value.instances, readySCs.Keys)
      && insList.totalWeight == TotalWeight(insList.instances)
  }

  lemma BuiltTells(refuse: nat -> bool, es: seq<Event>, b: Balancer)
    requires Failures.BuiltFrom(b) && Wired(b)
    requires b.options == FirstOptions(es) && b.response == LatestResponse(es) && b.lbCfg == LatestConfig(es)
    requires b.resolverErr == ResolverErrorSince(es) && b.connErr == LatestConnectionError(refuse, es)
    ensures Tells(refuse, es, b, b.v2Picker)
  {
    MergeReportsBoth(b.connErr, b.resolverErr);
    if b.state != TransientFailure {
      forall a, sc
        ensures (a in b.v2Picker.readySCs && b.v2Picker.readySCs[a] == sc) <==> LiveReady(b, a, sc)
      {
        assert a in ReadyEntries(b) <==> a in b.subConns && IsReady(b, a);
      }
    }
  }

  /** Over every run the cached picker is the one the latest building callback made, and says
      what the history up to that callback left to say. Nothing else ever changes it. */
  lemma {:induction false} PickerFollowsHistory(refuse: nat -> bool, es: seq<Event>)
    requires Run(refuse, es).Ok?
    ensures var built := UpToBuild(refuse, es);
            && built <= es && Run(refuse, built).Ok?
            && Run(refuse, es).value.v2Picker == Run(refuse, built).value.v2Picker
            && Tells(refuse, built, Run(refuse, built).value, Run(refuse, es).value.v2Picker)
  {
    if es != [] {
      var front, e := es[..|es| - 1], es[|es| - 1];
      var b := Run(refuse, front).value;
      assert es == front + [e];
      RunSnoc(refuse, front, e);
      RunKeepsInv(refuse, front);
      if Failures.Builds(b, e) {
        Failures.BuiltPicker(refuse, b, e);
        RunKeepsInv(refuse, es);
        FieldsFollowHistory(refuse, es);
        BuiltTells(refuse, es, Run(refuse, es).value);
      } else {
        PickerFollowsHistory(refuse, front);
        Failures.KeptPicker(refuse, b, e);
      }
    }
  }

  // ---------- the tracked states ----------

  /** What a connection known as `s` counts as after a report `to`: that, except that a
      failure hides later Idle and Connecting reports; gone after Shutdown. */
  function StateReported(s: Option<State>, to: State): Option<State> {
    if s.None? then None
    else
      match to
      case Shutdown => None
      case Ready => Some(Ready)
      case TransientFailure => Some(TransientFailure)
      case Connecting => if s == Some(TransientFailure) then s else Some(Connecting)
      case Idle => if s == Some(TransientFailure) then s else Some(Idle)
  }

  /** The same after all the callbacks `es`. */
  function StateHeard(es: seq<Event>, sc: SubConn, s: State): Option<State> {
    if es == [] then Some(s)
    else
      var earlier, e := StateHeard(es[..|es| - 1], sc, s), es[|es| - 1];
      if e.Notified? && e.sc == sc then StateReported(earlier, e.state) else earlier
  }

  /** `b` tracks `sc` as `s`, or has stopped tracking a connection it once had. */
  predicate TracksAs(b: Balancer, sc: SubConn, s: Option<State>) {
    && sc in b.cc.dialed
    && (s.Some? <==> sc in b.scStates)
    && (s.Some? ==> b.scStates[sc] == s.value)
  }

  lemma StepTracks(refuse: nat -> bool, b: Balancer, e: Event, sc: SubConn, s: Option<State>)
    requires Inv(b) && Step(refuse, b, e).Ok? && TracksAs(b, sc, s)
    ensures TracksAs(Step(refuse, b, e).value, sc,
                     if e.Notified? && e.sc == sc then StateReported(s, e.state) else s)
  {
    match e
    case Resolved(u) =>
      if u.addresses != [] {
        UpdateTracks(refuse, b, u, sc, s);
      } else {
        FailureShape(Absorb(b, u), Some(ProducedZeroAddresses));
      }
    case ResolveFailed(err) => FailureShape(b, err);
    case Notified(sc', to, err) => NotifiedTracks(b, sc', to, err, sc, s);
  }

  lemma NotifiedTracks(b: Balancer, sc': SubConn, to: State, err: Option<Error>, sc: SubConn, s: Option<State>)
    requires UpdateSubConnState(b, sc', to, err).Ok? && TracksAs(b, sc, s)
    ensures TracksAs(UpdateSubConnState(b, sc', to, err).value, sc, if sc' == sc then StateReported(s, to) else s)
  {
    NotificationShape(b, sc', to, err);
  }

  lemma UpdateTracks(refuse: nat -> bool, b: Balancer, u: ClientConnState, sc: SubConn, s: Option<State>)
    requires Inv(b) && u.addresses != [] && UpdateClientConnState(refuse, b, u).Ok? && TracksAs(b, sc, s)
    ensures TracksAs(UpdateClientConnState(refuse, b, u).value, sc, s)
  {
    Reconciliation.UpdatedSurvivors(refuse, b, u);
    GoodUpdateShape(refuse, b, u);
    Reconciliation.CreateAllGrows(refuse, b, u);
  }

  /** Over every run, from any moment on at which a connection is tracked, its tracked state is
      a function of the reports for it alone. */
  lemma {:induction false} StatesFollowReports(refuse: nat -> bool, es: seq<Event>, more: seq<Event>, sc: SubConn,
                                               s: State)
    requires Run(refuse, es).Ok? && Run(refuse, es + more).Ok?
    requires TracksAs(Run(refuse, es).value, sc, Some(s))
    ensures TracksAs(Run(refuse, es + more).value, sc, StateHeard(more, sc, s))
  {
    if more == [] {
      assert es + more == es;
    } else {
      var front, e := more[..|more| - 1], more[|more| - 1];
      var earlier := es + front;
      Lifecycle.AppendSnoc(es, more);
      Lifecycle.PrefixRuns(refuse, earlier, e);
      StatesFollowReports(refuse, es, front, sc, s);
      StatesFollowStep(refuse, earlier, e, sc, StateHeard(front, sc, s));
    }
  }

  /** Every tracked connection is in this situation. */
  lemma {:induction false} TrackedIsHeard(refuse: nat -> bool, es: seq<Event>, sc: SubConn)
    requires Run(refuse, es).Ok? && sc in Run(refuse, es).value.scStates
    ensures TracksAs(Run(refuse, es).value, sc, Some(Run(refuse, es).value.scStates[sc]))
  {
    RunKeepsInv(refuse, es);
  }

  lemma {:induction false} StatesFollowStep(refuse: nat -> bool, es: seq<Event>, e: Event, sc: SubConn,
                                            s: Option<State>)
    requires Run(refuse, es).Ok? && Run(refuse, es + [e]).Ok? && TracksAs(Run(refuse, es).value, sc, s)
    ensures TracksAs(Run(refuse, es + [e]).value, sc,
                     if e.Notified? && e.sc == sc then StateReported(s, e.state) else s)
  {
    RunSnoc(refuse, es, e);
    RunKeepsInv(refuse, es);
    StepTracks(refuse, Run(refuse, es).value, e, sc, s);
  }
}

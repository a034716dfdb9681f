/**
 What the three callbacks of the balancer do, as functions on its state.

 `Balancer` holds the fields of `polarisNamingBalancer` plus a `Ledger` of everything it
 has asked of gRPC. gRPC's answers to `NewSubConn` come from an oracle: attempt number `n`
 of a run fails exactly when `refuse(n)`, and a successful attempt hands out the fresh
 SubConn `n`. Theorems quantify over every oracle.

 A callback that would dereference nil gives `Panic`.
 */
module BalancerModel {
  import opened Wrappers
  import opened Connectivity
  import HostPort

  type SubConn = nat

  datatype Error = ProducedZeroAddresses | Foreign(text: string)

  datatype DialOptions = DialOptions(namespace: string, route: bool)

  datatype LBConfig = LBConfig(lbPolicy: string, hashKey: string)

  datatype Instance = Instance(host: string, port: nat, weight: int, id: string)

  datatype InstancesResponse = InstancesResponse(service: string, instances: seq<Instance>, totalWeight: int)

  datatype Address = Address(addr: string)

  /** The two values the resolver attaches to every state it reports. */
  datatype Attributes = Attributes(options: DialOptions, response: InstancesResponse)

  datatype ClientConnState =
    ClientConnState(addresses: seq<Address>, attributes: Option<Attributes>, balancerConfig: Option<LBConfig>)

  /** The error behind an error picker. */
  datatype MergedError =
    | LastResolver(resolverErr: Option<Error>)
    | LastConnection(connErr: Error)
    | Both(lastConnErr: Error, lastResolverErr: Error)

  datatype Picker =
    | NilPicker
    | ErrPicker(error: MergedError)
    | NamingPicker(readySCs: map<string, SubConn>, options: Option<DialOptions>,
                   lbCfg: Option<LBConfig>, insList: InstancesResponse)

  datatype Publication = Publication(state: State, picker: Picker)

  /** The calls made to gRPC: `NewSubConn` attempts and the address each SubConn was made
      for, `Connect` and `Shutdown` calls per SubConn, and the last `UpdateState`. */
  datatype Ledger =
    Ledger(attempts: nat, dialed: map<SubConn, string>, connects: multiset<SubConn>,
           shutdowns: multiset<SubConn>, published: Option<Publication>)

  datatype Balancer = Balancer(
    subConns: map<string, SubConn>,
    scStates: map<SubConn, State>,
    csEvltr: Counters,
    state: State,
    v2Picker: Picker,
    apis: bool,
    lbCfg: Option<LBConfig>,
    options: Option<DialOptions>,
    response: Option<InstancesResponse>,
    resolverErr: Option<Error>,
    connErr: Option<Error>,
    cc: Ledger)

  datatype Event =
    | Resolved(update: ClientConnState)
    | ResolveFailed(err: Option<Error>)
    | Notified(sc: SubConn, state: State, connectionError: Option<Error>)

  function Init(): Balancer {
    Balancer(map[], map[], ZERO, Idle, NilPicker, false, None, None, None, None, None,
             Ledger(0, map[], multiset{}, multiset{}, None))
  }

  // ---------- calls to gRPC ----------

  function Connect(cc: Ledger, sc: SubConn): Ledger {
    cc.(connects := cc.connects + multiset{sc})
  }

  function Publish(b: Balancer): Balancer {
    b.(cc := b.cc.(published := Some(Publication(b.state, b.v2Picker))))
  }

  // ---------- keys ----------

  function BuildAddressKey(a: Address): string {
    a.addr
  }

  function InstanceKey(i: Instance): string {
    HostPort.Render(i.host, i.port)
  }

  function AddressKeys(addresses: seq<Address>): set<string> {
    set a | a in addresses :: BuildAddressKey(a)
  }

  function InstanceKeys(instances: seq<Instance>): set<string> {
    set i | i in instances :: InstanceKey(i)
  }

  // ---------- pickers ----------

  function MergeErrors(connErr: Option<Error>, resolverErr: Option<Error>): MergedError {
    if connErr.None? then LastResolver(resolverErr)
    else if resolverErr.None? then LastConnection(connErr.value)
    else Both(connErr.value, resolverErr.value)
  }

  /** An error picker that has no error to report: `last resolver error: <nil>`. */
  const EMPTY_ERROR_PICKER := ErrPicker(LastResolver(None))

  predicate IsReady(b: Balancer, addr: string) {
    addr in b.subConns && b.subConns[addr] in b.scStates && b.scStates[b.subConns[addr]] == Ready
  }

  /** The live connections recorded as Ready, by address. */
  function ReadyEntries(b: Balancer): map<string, SubConn> {
    map a | a in b.subConns && IsReady(b, a) :: b.subConns[a]
  }

  /** The connections a picker can hand out. */
  function ReadyView(p: Picker): map<string, SubConn> {
    if p.NamingPicker? then p.readySCs else map[]
  }

  function Offered(instances: seq<Instance>, keys: set<string>): seq<Instance> {
    if instances == [] then []
    else
      var front, last := Offered(instances[..|instances| - 1], keys), instances[|instances| - 1];
      if InstanceKey(last) in keys then front + [last] else front
  }

  function TotalWeight(instances: seq<Instance>): int {
    if instances == [] then 0
    else TotalWeight(instances[..|instances| - 1]) + instances[|instances| - 1].weight
  }

  function NewNamingPicker(b: Balancer, options: Option<DialOptions>): Picker
    requires b.response.Some?
  {
    var ready := ReadyEntries(b);
    var kept := Offered(b.response.value.instances, ready.Keys);
    NamingPicker(ready, options, b.lbCfg,
                 b.response.value.(instances := kept, totalWeight := TotalWeight(kept)))
  }

  function RegeneratePicker(b: Balancer, options: Option<DialOptions>): Outcome<Balancer> {
    if b.state == TransientFailure then
      Ok(b.(v2Picker := ErrPicker(MergeErrors(b.connErr, b.resolverErr))))
    else if b.response.None? then Panic
    else Ok(b.(v2Picker := NewNamingPicker(b, options)))
  }

  // ---------- UpdateClientConnState ----------

  function CreateSubConnection(refuse: nat -> bool, b: Balancer, key: string, addr: Address): Balancer {
    var n := b.cc.attempts;
    if key in b.subConns then b
    else if refuse(n) then b.(cc := b.cc.(attempts := n + 1))
    else
      b.(subConns := b.subConns[key := n],
         scStates := b.scStates[n := Idle],
         csEvltr := Transition(b.csEvltr, Shutdown, Idle),
         cc := Connect(b.cc.(attempts := n + 1, dialed := b.cc.dialed[n := addr.addr]), n))
  }

  function CreateAll(refuse: nat -> bool, b: Balancer, addresses: seq<Address>): Balancer {
    if addresses == [] then b
    else
      var a := addresses[|addresses| - 1];
      CreateSubConnection(refuse, CreateAll(refuse, b, addresses[..|addresses| - 1]), BuildAddressKey(a), a)
  }

  function Stale(subConns: map<string, SubConn>, keep: set<string>): set<SubConn> {
    set a | a in subConns && a !in keep :: subConns[a]
  }

  function Kept(subConns: map<string, SubConn>, keep: set<string>): map<string, SubConn> {
    map a | a in subConns && a in keep :: subConns[a]
  }

  /** Shut down and forget the connections of addresses outside `keep`; their states stay. */
  function Retire(b: Balancer, keep: set<string>): Balancer {
    b.(subConns := Kept(b.subConns, keep),
       cc := b.cc.(shutdowns := b.cc.shutdowns + multiset(Stale(b.subConns, keep))))
  }

  /** The attributes and the configuration are taken over before anything is checked. */
  function Absorb(b: Balancer, u: ClientConnState): Balancer {
    b.(options := if b.options.None? && u.attributes.Some? then Some(u.attributes.value.options) else b.options,
       response := if u.attributes.Some? then Some(u.attributes.value.response) else b.response,
       lbCfg := if u.balancerConfig.Some? then u.balancerConfig else b.lbCfg)
  }

  /** The connections after a non-empty update, before the picker is rebuilt. */
  function Reconcile(refuse: nat -> bool, b: Balancer, u: ClientConnState): Balancer {
    var accepted := Absorb(b, u).(apis := true, resolverErr := None);
    Retire(CreateAll(refuse, accepted, u.addresses), AddressKeys(u.addresses))
  }

  function UpdateClientConnState(refuse: nat -> bool, b: Balancer, u: ClientConnState): Outcome<Balancer> {
    var absorbed := Absorb(b, u);
    if u.addresses == [] then ResolverError(absorbed, Some(ProducedZeroAddresses))
    else if !absorbed.apis && absorbed.options.None? then Panic
    else
      var b' :- RegeneratePicker(Reconcile(refuse, b, u), absorbed.options);
      Ok(Publish(b'))
  }

  // ---------- ResolverError ----------

  function ResolverError(b: Balancer, err: Option<Error>): Outcome<Balancer> {
    var failed := b.(resolverErr := err,
                     state := if b.subConns == map[] then TransientFailure else b.state);
    if failed.state != TransientFailure then Ok(failed)
    else
      var b' :- RegeneratePicker(failed, None);
      Ok(Publish(b'))
  }

  // ---------- UpdateSubConnState ----------

  /** Notifications that a recorded failure suppresses. */
  predicate Ignored(from: State, to: State) {
    from == TransientFailure && (to == Connecting || to == Idle)
  }

  /** All the fields a recorded notification sets before the picker is considered. */
  function Recorded(b: Balancer, sc: SubConn, s: State, connErr: Option<Error>): Balancer
    requires sc in b.scStates
  {
    var counters := Transition(b.csEvltr, b.scStates[sc], s);
    b.(scStates := Track(b.scStates, sc, s),
       csEvltr := counters,
       state := CurrentState(counters),
       connErr := if s == TransientFailure then connErr else b.connErr,
       cc := if s == Idle then Connect(b.cc, sc) else b.cc)
  }

  function UpdateSubConnState(b: Balancer, sc: SubConn, s: State, connErr: Option<Error>): Outcome<Balancer> {
    if sc !in b.scStates then Ok(b)
    else if Ignored(b.scStates[sc], s) then
      Ok(if s == Idle then b.(cc := Connect(b.cc, sc)) else b)
    else
      var recorded := Recorded(b, sc, s, connErr);
      var flipped := (s == Ready) != (b.scStates[sc] == Ready);
      var b' :- if flipped || recorded.state == TransientFailure then RegeneratePicker(recorded, recorded.options)
                else Ok(recorded);
      Ok(Publish(b'))
  }

  // ---------- runs ----------

  function Step(refuse: nat -> bool, b: Balancer, e: Event): Outcome<Balancer> {
    match e
    case Resolved(u) => UpdateClientConnState(refuse, b, u)
    case ResolveFailed(err) => ResolverError(b, err)
    case Notified(sc, s, connErr) => UpdateSubConnState(b, sc, s, connErr)
  }

  /** The state after the callbacks `es`, delivered one at a time from a fresh balancer. */
  function Run(refuse: nat -> bool, es: seq<Event>): Outcome<Balancer> {
    if es == [] then Ok(Init())
    else
      var b :- Run(refuse, es[..|es| - 1]);
      Step(refuse, b, es[|es| - 1])
  }
}

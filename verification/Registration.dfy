/**
 server.go: registering the services of a gRPC server, with rollback.

 The registry is reached over a network. Call number `n` of a server's provider API meets
 the fate `network(n)`: it is `Done`, its request is lost, or only its reply is lost, in
 which case the registry changed although the caller sees an error.
 */
module Registration {
  import opened Wrappers
  import opened Registry
  import HostPort

  datatype Fate = Done | RequestLost | ReplyLost

  datatype ServerOptions =
    ServerOptions(namespace: string, svcName: string, host: string, port: int, version: string)

  datatype RegisterRequest =
    RegisterRequest(namespace: string, service: string, host: string, port: int, protocol: string, version: string)

  datatype RegisterError = NoLocalHost | BadPort(cause: HostPort.ParseError) | RegisterFailed(service: string)

  function BuildRegisterInstanceRequest(o: ServerOptions, serviceName: string): RegisterRequest {
    RegisterRequest(o.namespace, serviceName, o.host, o.port, "grpc", o.version)
  }

  function RequestEndpoint(r: RegisterRequest): Endpoint {
    EndpointOf(ServiceKey(r.namespace, r.service), r.host, r.port)
  }

  /** The instance the naming server receives for a request. */
  function Wire(r: RegisterRequest): NamingInstance {
    NamingInstance(ServiceKey(r.namespace, r.service), r.host, r.port, r.protocol, r.version, "", "", false, 0, false)
  }

  /** The registry and the number of provider calls made so far. */
  datatype World = World(services: Services, calls: nat)

  /** Stands for the naming server's random ids: different for different `n`. */
  function Uuid(n: nat): string {
    HostPort.DecimalNat(n)
  }

  function Filed(r: RegisterRequest, n: nat): NamingInstance {
    Stamp(Wire(r), Uuid(2 * n), Uuid(2 * n + 1))
  }

  function CallRegister(network: nat -> Fate, w: World, r: RegisterRequest): World {
    World(if network(w.calls) == RequestLost then w.services else File(w.services, Filed(r, w.calls)), w.calls + 1)
  }

  function CallDeregister(network: nat -> Fate, w: World, r: RegisterRequest): World {
    World(if network(w.calls) == RequestLost then w.services else Unfile(w.services, RequestEndpoint(r)), w.calls + 1)
  }

  function DeregisterServices(network: nat -> Fate, w: World, requests: seq<RegisterRequest>): World {
    if requests == [] then w
    else
      CallDeregister(network, DeregisterServices(network, w, requests[..|requests| - 1]), requests[|requests| - 1])
  }

  /** The world after one registration request for each of `names`, in order. */
  function SendAll(network: nat -> Fate, w: World, o: ServerOptions, names: seq<string>): World {
    if names == [] then w
    else
      CallRegister(network, SendAll(network, w, o, names[..|names| - 1]),
                   BuildRegisterInstanceRequest(o, names[|names| - 1]))
  }

  /** The requests for `names`, in order. */
  function Requests(o: ServerOptions, names: seq<string>): (rs: seq<RegisterRequest>)
    ensures |rs| == |names|
  {
    if names == [] then []
    else Requests(o, names[..|names| - 1]) + [BuildRegisterInstanceRequest(o, names[|names| - 1])]
  }

  /** All the first `n` registrations of `names` from world `w` are answered. */
  predicate Answered(network: nat -> Fate, w: World, n: nat) {
    forall i :: w.calls <= i < w.calls + n ==> Answers(network, i)
  }

  predicate Answers(network: nat -> Fate, call: nat) {
    network(call) == Done
  }

  // ---------- what the calls do to the registry ----------

  ghost predicate Names(requests: seq<RegisterRequest>, e: Endpoint) {
    exists r :: r in requests && RequestEndpoint(r) == e
  }

  lemma NamesSnoc(front: seq<RegisterRequest>, last: RegisterRequest, e: Endpoint)
    ensures Names(front + [last], e) <==> Names(front, e) || RequestEndpoint(last) == e
  {
  }

  /** Some request for `e` among `requests`, sent one by one, reaches the registry. */
  ghost predicate Reaches(network: nat -> Fate, w: World, requests: seq<RegisterRequest>, e: Endpoint) {
    requests != [] &&
    var front, last := requests[..|requests| - 1], requests[|requests| - 1];
    Reaches(network, w, front, e) || (RequestEndpoint(last) == e && network(w.calls + |front|) != RequestLost)
  }

  /** Deregistering clears exactly the endpoints one of whose requests arrives. */
  lemma {:induction false} DeregisteredEntry(network: nat -> Fate, w: World, requests: seq<RegisterRequest>,
                                             e: Endpoint)
    ensures DeregisterServices(network, w, requests).calls == w.calls + |requests|
    ensures Entry(DeregisterServices(network, w, requests).services, e)
         == if Reaches(network, w, requests, e) then None else Entry(w.services, e)
  {
    if requests != [] {
      var front, last := requests[..|requests| - 1], requests[|requests| - 1];
      var mid := DeregisterServices(network, w, front);
      DeregisteredEntry(network, w, front, e);
      UnfileEntry(mid.services, RequestEndpoint(last), e);
    }
  }

  /** None of the next `n` requests is lost. */
  ghost predicate DeregistersArrive(network: nat -> Fate, w: World, n: nat) {
    forall i :: w.calls <= i < w.calls + n ==> network(i) != RequestLost
  }

  lemma {:induction false} ArrivedClears(network: nat -> Fate, w: World, requests: seq<RegisterRequest>, e: Endpoint)
    requires DeregistersArrive(network, w, |requests|)
    ensures Reaches(network, w, requests, e) <==> Names(requests, e)
  {
    if requests != [] {
      var front, last := requests[..|requests| - 1], requests[|requests| - 1];
      ArrivedClears(network, w, front, e);
      assert requests == front + [last];
      NamesSnoc(front, last, e);
      assert network(w.calls + |front|) != RequestLost;
    }
  }

  lemma {:induction false} SendCalls(network: nat -> Fate, w: World, o: ServerOptions, names: seq<string>)
    ensures SendAll(network, w, o, names).calls == w.calls + |names|
  {
    if names != [] {
      SendCalls(network, w, o, names[..|names| - 1]);
    }
  }

  lemma {:induction false} ReachesNamed(network: nat -> Fate, w: World, requests: seq<RegisterRequest>, e: Endpoint)
    requires Reaches(network, w, requests, e)
    ensures Names(requests, e)
  {
    var front, last := requests[..|requests| - 1], requests[|requests| - 1];
    assert requests == front + [last];
    NamesSnoc(front, last, e);
    if Reaches(network, w, front, e) {
      ReachesNamed(network, w, front, e);
    }
  }

  lemma NotNamed(network: nat -> Fate, w: World, requests: seq<RegisterRequest>, e: Endpoint)
    requires !Names(requests, e)
    ensures !Reaches(network, w, requests, e)
  {
    if Reaches(network, w, requests, e) {
      ReachesNamed(network, w, requests, e);
    }
  }

  lemma RequestsSnoc(o: ServerOptions, names: seq<string>)
    requires names != []
    ensures var rs, front := Requests(o, names), Requests(o, names[..|names| - 1]);
            rs[..|rs| - 1] == front && rs[|rs| - 1] == BuildRegisterInstanceRequest(o, names[|names| - 1])
  {
  }

  lemma CallElsewhere(network: nat -> Fate, w: World, r: RegisterRequest, e: Endpoint)
    requires RequestEndpoint(r) != e || network(w.calls) == RequestLost
    ensures Entry(CallRegister(network, w, r).services, e) == Entry(w.services, e)
  {
    FileEntry(w.services, Filed(r, w.calls), e);
  }

  /** Registering leaves every endpoint alone that none of its requests reaches. */
  lemma {:induction false} SentElsewhere(network: nat -> Fate, w: World, o: ServerOptions, names: seq<string>,
                                         e: Endpoint)
    requires !Reaches(network, w, Requests(o, names), e)
    ensures Entry(SendAll(network, w, o, names).services, e) == Entry(w.services, e)
  {
    if names != [] {
      var front, last := names[..|names| - 1], names[|names| - 1];
      RequestsSnoc(o, names);
      SentElsewhere(network, w, o, front, e);
      SendCalls(network, w, o, front);
      CallElsewhere(network, SendAll(network, w, o, front), BuildRegisterInstanceRequest(o, last), e);
    }
  }

  /** The registry lists `name` at the server's host and port, as a healthy grpc instance. */
  ghost predicate ServedAt(s: Services, o: ServerOptions, name: string) {
    var entry := Entry(s, EndpointOf(ServiceKey(o.namespace, name), o.host, o.port));
    && entry.Some? && entry.value.key == ServiceKey(o.namespace, name)
    && entry.value.host == o.host && entry.value.port == o.port
    && entry.value.protocol == "grpc" && entry.value.version == o.version
    && entry.value.healthy && !entry.value.isolate && entry.value.weight == DEFAULT_WEIGHT
  }

  lemma SendServes(network: nat -> Fate, w: World, o: ServerOptions, sent: string, name: string)
    requires ServedAt(w.services, o, name) || (sent == name && network(w.calls) != RequestLost)
    ensures ServedAt(CallRegister(network, w, BuildRegisterInstanceRequest(o, sent)).services, o, name)
  {
  }

  /** A request that reaches the registry leaves its service served, answered or not. */
  lemma {:induction false} SentHere(network: nat -> Fate, w: World, o: ServerOptions, names: seq<string>, k: nat)
    requires k < |names| && network(w.calls + k) != RequestLost
    ensures ServedAt(SendAll(network, w, o, names).services, o, names[k])
  {
    var front := names[..|names| - 1];
    SendCalls(network, w, o, front);
    if k < |front| {
      SentHere(network, w, o, front, k);
    }
    SendServes(network, SendAll(network, w, o, front), o, names[|names| - 1], names[k]);
  }

  // ---------- doRegister ----------

  datatype RegisterOutcome = Registered | Failed(service: string)

  datatype Progress = Progress(world: World, requests: seq<RegisterRequest>, outcome: RegisterOutcome)

  /** One turn of the loop: remember the request, then send it. */
  function RegisterNext(network: nat -> Fate, o: ServerOptions, p: Progress, name: string): Progress {
    var r := BuildRegisterInstanceRequest(o, name);
    Progress(CallRegister(network, p.world, r), p.requests + [r],
             if Answers(network, p.world.calls) then Registered else Failed(name))
  }

  /** Registers `names` one by one until a call reports an error. */
  function RegisterNames(network: nat -> Fate, w: World, o: ServerOptions, earlier: seq<RegisterRequest>,
                         names: seq<string>): Progress
  {
    if names == [] then Progress(w, earlier, Registered)
    else
      var front := RegisterNames(network, w, o, earlier, names[..|names| - 1]);
      if front.outcome.Failed? then front else RegisterNext(network, o, front, names[|names| - 1])
  }

  /** The registration loop with its rollback. */
  function DoRegister(network: nat -> Fate, w: World, o: ServerOptions, earlier: seq<RegisterRequest>,
                      names: seq<string>): Progress
  {
    var p := RegisterNames(network, w, o, earlier, names);
    if p.outcome.Failed? then p.(world := DeregisterServices(network, p.world, p.requests)) else p
  }

  lemma {:induction false} FailureStays(network: nat -> Fate, w: World, o: ServerOptions,
                                        earlier: seq<RegisterRequest>, names: seq<string>, n: nat)
    requires n <= |names| && RegisterNames(network, w, o, earlier, names[..n]).outcome.Failed?
    ensures RegisterNames(network, w, o, earlier, names) == RegisterNames(network, w, o, earlier, names[..n])
  {
    if n < |names| {
      var front := names[..|names| - 1];
      assert front[..n] == names[..n];
      FailureStays(network, w, o, earlier, front, n);
    } else {
      assert names[..n] == names;
    }
  }

  /** While every call is answered the loop sends every request in order. */
  lemma {:induction false} AnsweredRegisters(network: nat -> Fate, w: World, o: ServerOptions,
                                             earlier: seq<RegisterRequest>, names: seq<string>)
    requires Answered(network, w, |names|)
    ensures RegisterNames(network, w, o, earlier, names)
         == Progress(SendAll(network, w, o, names), earlier + Requests(o, names), Registered)
  {
    if names == [] {
      assert earlier + Requests(o, names) == earlier;
    } else {
      var front := names[..|names| - 1];
      AnsweredRegisters(network, w, o, earlier, front);
      SendCalls(network, w, o, front);
      assert Answers(network, w.calls + |front|);
      AppendAgain(earlier, o, names);
    }
  }

  lemma {:induction false} AppendAgain(earlier: seq<RegisterRequest>, o: ServerOptions, names: seq<string>)
    requires names != []
    ensures earlier + Requests(o, names)
         == earlier + Requests(o, names[..|names| - 1]) + [BuildRegisterInstanceRequest(o, names[|names| - 1])]
  {
  }

  lemma LastUnanswered(network: nat -> Fate, w: World, n: nat)
    requires Answered(network, w, n) && !Answered(network, w, n + 1)
    ensures !Answers(network, w.calls + n)
  {
  }

  lemma {:induction false} StopsAtLast(network: nat -> Fate, w: World, o: ServerOptions,
                                       earlier: seq<RegisterRequest>, names: seq<string>)
    requires names != [] && Answered(network, w, |names| - 1) && !Answers(network, w.calls + |names| - 1)
    ensures RegisterNames(network, w, o, earlier, names)
         == Progress(SendAll(network, w, o, names), earlier + Requests(o, names), Failed(names[|names| - 1]))
  {
    var front, name := names[..|names| - 1], names[|names| - 1];
    var p := Progress(SendAll(network, w, o, front), earlier + Requests(o, front), Registered);
    assert RegisterNames(network, w, o, earlier, front) == p && p.world.calls == w.calls + |front| by {
      AnsweredRegisters(network, w, o, earlier, front);
      SendCalls(network, w, o, front);
    }
    assert RegisterNames(network, w, o, earlier, names) == RegisterNext(network, o, p, name);
    UnansweredTurn(network, o, p, name);
    AppendAgain(earlier, o, names);
  }

  lemma UnansweredTurn(network: nat -> Fate, o: ServerOptions, p: Progress, name: string)
    requires !Answers(network, p.world.calls)
    ensures var r := BuildRegisterInstanceRequest(o, name);
            RegisterNext(network, o, p, name)
              == Progress(CallRegister(network, p.world, r), p.requests + [r], Failed(name))
  {
  }

  /** Otherwise it stops at the first error, having sent the failed request too: `sent` are
      the names it got to. */
  lemma {:induction false} UnansweredStops(network: nat -> Fate, w: World, o: ServerOptions,
                                           earlier: seq<RegisterRequest>, names: seq<string>)
    returns (sent: seq<string>)
    requires !Answered(network, w, |names|)
    ensures sent <= names && sent != []
    ensures Answered(network, w, |sent| - 1) && !Answers(network, w.calls + |sent| - 1)
    ensures RegisterNames(network, w, o, earlier, names)
         == Progress(SendAll(network, w, o, sent), earlier + Requests(o, sent), Failed(sent[|sent| - 1]))
  {
    var front := names[..|names| - 1];
    if Answered(network, w, |front|) {
      sent := names;
      LastUnanswered(network, w, |front|);
      StopsAtLast(network, w, o, earlier, names);
    } else {
      sent := UnansweredStops(network, w, o, earlier, front);
    }
  }

  /** All or nothing. If any registration reports an error, even one that took effect, and
      the rollback's requests arrive, then nothing of this server is left and every other
      entry is as before. */
  lemma {:induction false} RollbackLeavesNothing(network: nat -> Fate, w: World, o: ServerOptions,
                                                 earlier: seq<RegisterRequest>, names: seq<string>, e: Endpoint)
    requires DoRegister(network, w, o, earlier, names).outcome.Failed?
    requires DeregistersArrive(network, RegisterNames(network, w, o, earlier, names).world,
                               |DoRegister(network, w, o, earlier, names).requests|)
    ensures var p := DoRegister(network, w, o, earlier, names);
            Entry(p.world.services, e) == if Names(p.requests, e) then None else Entry(w.services, e)
  {
    if Answered(network, w, |names|) {
      AnsweredRegisters(network, w, o, earlier, names);
    }
    var sent := UnansweredStops(network, w, o, earlier, names);
    var p := RegisterNames(network, w, o, earlier, names);
    DeregisteredEntry(network, p.world, p.requests, e);
    ArrivedClears(network, p.world, p.requests, e);
    if !Names(p.requests, e) {
      NamesSuffix(earlier, Requests(o, sent), e);
      NotNamed(network, w, Requests(o, sent), e);
      SentElsewhere(network, w, o, sent, e);
    }
  }

  lemma NamesSuffix(a: seq<RegisterRequest>, b: seq<RegisterRequest>, e: Endpoint)
    ensures Names(a + b, e) <==> Names(a, e) || Names(b, e)
  {
  }

  /** On success every service name maps to the server's host and port, every other entry is
      as before, and the new requests are remembered for deregistration beside the earlier. */
  lemma {:induction false} SuccessRegistersAll(network: nat -> Fate, w: World, o: ServerOptions,
                                               earlier: seq<RegisterRequest>, names: seq<string>)
    ensures DoRegister(network, w, o, earlier, names).outcome.Registered? <==> Answered(network, w, |names|)
    ensures DoRegister(network, w, o, earlier, names).outcome.Registered? ==>
              var p := DoRegister(network, w, o, earlier, names);
              && p.requests == earlier + Requests(o, names)
              && (forall name :: name in names ==> ServedAt(p.world.services, o, name))
              && (forall e :: !Names(Requests(o, names), e) ==> Entry(p.world.services, e) == Entry(w.services, e))
  {
    var p := RegisterNames(network, w, o, earlier, names);
    if !Answered(network, w, |names|) {
      var sent := UnansweredStops(network, w, o, earlier, names);
    } else {
      AnsweredRegisters(network, w, o, earlier, names);
      forall name | name in names
        ensures ServedAt(p.world.services, o, name)
      {
        var i :| 0 <= i < |names| && names[i] == name;
        assert Answers(network, w.calls + i);
        SentHere(network, w, o, names, i);
      }
      forall e | !Names(Requests(o, names), e)
        ensures Entry(p.world.services, e) == Entry(w.services, e)
      {
        NotNamed(network, w, Requests(o, names), e);
        SentElsewhere(network, w, o, names, e);
      }
    }
  }

  /** Deregistering after a success clears exactly what this server ever asked for, whatever
      was filed there before, and leaves every other entry as it was before registering. */
  lemma {:induction false} DeregisterAfterSuccess(network: nat -> Fate, w: World, o: ServerOptions,
                                                  earlier: seq<RegisterRequest>, names: seq<string>, e: Endpoint)
    requires DoRegister(network, w, o, earlier, names).outcome.Registered?
    requires DeregistersArrive(network, DoRegister(network, w, o, earlier, names).world, |earlier| + |names|)
    ensures var p := DoRegister(network, w, o, earlier, names);
            Entry(DeregisterServices(network, p.world, p.requests).services, e)
              == if Names(earlier + Requests(o, names), e) then None else Entry(w.services, e)
  {
    var p := DoRegister(network, w, o, earlier, names);
    SuccessRegistersAll(network, w, o, earlier, names);
    DeregisteredEntry(network, p.world, p.requests, e);
    ArrivedClears(network, p.world, p.requests, e);
    NamesSuffix(earlier, Requests(o, names), e);
  }

  /** In particular it restores what clients of the registry see, if nothing was filed where
      this server registers. */
  lemma {:induction false} DeregisterUndoesRegister(network: nat -> Fate, w: World, o: ServerOptions,
                                                    earlier: seq<RegisterRequest>, names: seq<string>, e: Endpoint)
    requires DoRegister(network, w, o, earlier, names).outcome.Registered?
    requires DeregistersArrive(network, DoRegister(network, w, o, earlier, names).world, |earlier| + |names|)
    requires Names(earlier + Requests(o, names), e) ==> Entry(w.services, e) == None
    ensures var p := DoRegister(network, w, o, earlier, names);
            Entry(DeregisterServices(network, p.world, p.requests).services, e) == Entry(w.services, e)
  {
    DeregisterAfterSuccess(network, w, o, earlier, names, e);
  }

  ghost predicate NoneLost(network: nat -> Fate) {
    forall n :: network(n) != RequestLost
  }

  /** While no request is lost, registering is all or nothing: every name is served, or
      nothing is filed where this server ever registered and every other entry is kept. */
  lemma {:induction false} AllOrNothing(network: nat -> Fate, w: World, o: ServerOptions,
                                        earlier: seq<RegisterRequest>, names: seq<string>)
    ensures var p := DoRegister(network, w, o, earlier, names);
            && (p.outcome.Registered? ==> forall name :: name in names ==> ServedAt(p.world.services, o, name))
            && (p.outcome.Failed? && NoneLost(network) ==> NothingLeft(w.services, p.world.services, p.requests))
  {
    var p := DoRegister(network, w, o, earlier, names);
    SuccessRegistersAll(network, w, o, earlier, names);
    if p.outcome.Failed? && NoneLost(network) {
      forall e
        ensures Entry(p.world.services, e) == if Names(p.requests, e) then None else Entry(w.services, e)
      {
        RollbackLeavesNothing(network, w, o, earlier, names, e);
      }
    }
  }

  /** `after` has nothing at the endpoints of `requests` and is as `before` elsewhere. */
  ghost predicate NothingLeft(before: Services, after: Services, requests: seq<RegisterRequest>) {
    forall e :: Entry(after, e) == if Names(requests, e) then None else Entry(before, e)
  }
}

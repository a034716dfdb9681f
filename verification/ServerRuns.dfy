/** server.go: what any sequence of registering, deregistering and stopping does to the registry. */
module ServerRuns {
  import opened Wrappers
  import opened Registry
  import opened Registration

  datatype ServerState = ServerState(world: World, requests: seq<RegisterRequest>, isStop: bool)

  /** A call on the server, or a change of the registry by somebody else. `Registers` is a
      registration whose host and port are known, `names` its services in order. */
  datatype ServerCall =
    | Registers(options: ServerOptions, names: seq<string>)
    | Deregisters
    | Stops
    | FiledByOthers(instance: NamingInstance)
    | UnfiledByOthers(endpoint: Endpoint)

  function DeregisterAll(network: nat -> Fate, s: ServerState): ServerState {
    s.(world := DeregisterServices(network, s.world, s.requests))
  }

  function ServerStep(network: nat -> Fate, s: ServerState, c: ServerCall): ServerState {
    match c
    case Registers(o, names) =>
      var p := DoRegister(network, s.world, o, s.requests, names);
      s.(world := p.world, requests := p.requests)
    case Deregisters => DeregisterAll(network, s)
    case Stops => if s.isStop then s else DeregisterAll(network, s).(isStop := true)
    case FiledByOthers(i) => s.(world := s.world.(services := File(s.world.services, i)))
    case UnfiledByOthers(e) => s.(world := s.world.(services := Unfile(s.world.services, e)))
  }

  /** A new server in front of a registry in any state. */
  function ServerRun(network: nat -> Fate, w: World, cs: seq<ServerCall>): ServerState {
    if cs == [] then ServerState(w, [], false)
    else ServerStep(network, ServerRun(network, w, cs[..|cs| - 1]), cs[|cs| - 1])
  }

  lemma {:induction false} ServerRunSnoc(network: nat -> Fate, w: World, cs: seq<ServerCall>, c: ServerCall)
    ensures ServerRun(network, w, cs + [c]) == ServerStep(network, ServerRun(network, w, cs), c)
  {
    assert (cs + [c])[..|cs|] == cs;
  }

  // ---------- what the server remembers ----------

  /** The names a registration loop gets to: all of them, or up to its first error. */
  function Attempted(network: nat -> Fate, w: World, names: seq<string>): seq<string> {
    if names == [] then []
    else if Answered(network, w, |names| - 1) then names
    else Attempted(network, w, names[..|names| - 1])
  }

  lemma {:induction false} AttemptedRequests(network: nat -> Fate, w: World, o: ServerOptions,
                                             earlier: seq<RegisterRequest>, names: seq<string>)
    ensures RegisterNames(network, w, o, earlier, names).requests
         == earlier + Requests(o, Attempted(network, w, names))
    ensures RegisterNames(network, w, o, earlier, names).outcome.Registered? <==> Answered(network, w, |names|)
  {
    if names == [] {
      assert earlier + Requests(o, []) == earlier;
    } else if Answered(network, w, |names|) {
      AnsweredRegisters(network, w, o, earlier, names);
    } else if Answered(network, w, |names| - 1) {
      LastUnanswered(network, w, |names| - 1);
      StopsAtLast(network, w, o, earlier, names);
    } else {
      AttemptedRequests(network, w, o, earlier, names[..|names| - 1]);
    }
  }

  /** Every request of every registration in the run, failed and rolled back ones included. */
  function Tried(network: nat -> Fate, w: World, cs: seq<ServerCall>): seq<RegisterRequest> {
    if cs == [] then []
    else
      var front, c := cs[..|cs| - 1], cs[|cs| - 1];
      if c.Registers?
      then Tried(network, w, front)
           + Requests(c.options, Attempted(network, ServerRun(network, w, front).world, c.names))
      else Tried(network, w, front)
  }

  /** The server remembers all it ever tried, whatever became of it; it is stopped if and
      only if `Stop` was called. */
  lemma {:induction false} RemembersAllTried(network: nat -> Fate, w: World, cs: seq<ServerCall>)
    ensures ServerRun(network, w, cs).requests == Tried(network, w, cs)
    ensures ServerRun(network, w, cs).isStop <==> Stops in cs
  {
    if cs != [] {
      var front, c := cs[..|cs| - 1], cs[|cs| - 1];
      RemembersAllTried(network, w, front);
      assert cs == front + [c];
      if c.Registers? {
        var s := ServerRun(network, w, front);
        AttemptedRequests(network, s.world, c.options, s.requests, c.names);
      }
    }
  }

  // ---------- what deregistering and stopping clear ----------

  lemma DeregisterAllClears(network: nat -> Fate, s: ServerState, e: Endpoint)
    ensures Entry(DeregisterAll(network, s).world.services, e)
         == if Reaches(network, s.world, s.requests, e) then None else Entry(s.world.services, e)
    ensures DeregistersArrive(network, s.world, |s.requests|) ==>
              (Reaches(network, s.world, s.requests, e) <==> Names(s.requests, e))
  {
    DeregisteredEntry(network, s.world, s.requests, e);
    if DeregistersArrive(network, s.world, |s.requests|) {
      ArrivedClears(network, s.world, s.requests, e);
    }
  }

  /** After any calls, deregistering clears exactly the endpoints the server ever tried, if
      its requests arrive: also those it had rolled back, and whoever filed the entry. The
      first `Stop` does the same, and every later `Stop` changes nothing at all. */
  lemma {:induction false} ClearsAllTried(network: nat -> Fate, w: World, cs: seq<ServerCall>, c: ServerCall,
                                          e: Endpoint)
    requires c == Deregisters || c == Stops
    ensures var s, s' := ServerRun(network, w, cs), ServerRun(network, w, cs + [c]);
            if c == Stops && Stops in cs then s' == s
            else DeregistersArrive(network, s.world, |Tried(network, w, cs)|) ==>
                   Entry(s'.world.services, e)
                     == if Names(Tried(network, w, cs), e) then None else Entry(s.world.services, e)
  {
    RemembersAllTried(network, w, cs);
    ServerRunSnoc(network, w, cs, c);
    DeregisterAllClears(network, ServerRun(network, w, cs), e);
  }

  /** The calls a run makes at the provider: one per name a registration gets to, all
      remembered requests for a rollback, a deregistration and the first `Stop`. */
  function CallsMade(network: nat -> Fate, w: World, cs: seq<ServerCall>): nat {
    if cs == [] then 0
    else
      var front := cs[..|cs| - 1];
      var before := ServerRun(network, w, front).world;
      CallsMade(network, w, front) +
        match cs[|cs| - 1]
        case Registers(o, names) =>
          |Attempted(network, before, names)|
          + if Answered(network, before, |names|) then 0 else |Tried(network, w, cs)|
        case Deregisters => |Tried(network, w, front)|
        case Stops => if Stops in front then 0 else |Tried(network, w, front)|
        case FiledByOthers(_) => 0
        case UnfiledByOthers(_) => 0
  }

  lemma {:induction false} RegisterNamesCalls(network: nat -> Fate, w: World, o: ServerOptions,
                                              earlier: seq<RegisterRequest>, names: seq<string>)
    ensures RegisterNames(network, w, o, earlier, names).world.calls == w.calls + |Attempted(network, w, names)|
  {
    if names == [] {
    } else if Answered(network, w, |names|) {
      AnsweredRegisters(network, w, o, earlier, names);
      SendCalls(network, w, o, names);
    } else if Answered(network, w, |names| - 1) {
      LastUnanswered(network, w, |names| - 1);
      StopsAtLast(network, w, o, earlier, names);
      SendCalls(network, w, o, names);
    } else {
      AttemptedRequests(network, w, o, earlier, names[..|names| - 1]);
      RegisterNamesCalls(network, w, o, earlier, names[..|names| - 1]);
    }
  }

  lemma {:induction false} DeregisterCalls(network: nat -> Fate, w: World, requests: seq<RegisterRequest>)
    ensures DeregisterServices(network, w, requests).calls == w.calls + |requests|
  {
    if requests != [] {
      DeregisterCalls(network, w, requests[..|requests| - 1]);
    }
  }

  /** No other provider call is ever made; in particular `Stop` deregisters once. */
  lemma {:induction false} CallsExact(network: nat -> Fate, w: World, cs: seq<ServerCall>)
    ensures ServerRun(network, w, cs).world.calls == w.calls + CallsMade(network, w, cs)
  {
    if cs != [] {
      var front, c := cs[..|cs| - 1], cs[|cs| - 1];
      var s := ServerRun(network, w, front);
      CallsExact(network, w, front);
      RemembersAllTried(network, w, front);
      match c
      case Registers(o, names) =>
        AttemptedRequests(network, s.world, o, s.requests, names);
        RegisterNamesCalls(network, s.world, o, s.requests, names);
        var p := RegisterNames(network, s.world, o, s.requests, names);
        DeregisterCalls(network, p.world, p.requests);
      case Deregisters => DeregisterCalls(network, s.world, s.requests);
      case Stops => DeregisterCalls(network, s.world, s.requests);
      case FiledByOthers(_) =>
      case UnfiledByOthers(_) =>
    }
  }

  /** A run in which this hurts: a registration fails and is rolled back, somebody else files
      an instance at its endpoint, and `Stop` then removes that instance. */
  lemma StopRemovesOthers(network: nat -> Fate, w: World, o: ServerOptions, name: string, i: NamingInstance)
    requires w.calls == 0 && network(0) != Done && network(2) != RequestLost
    requires EndpointOf(i.key, i.host, i.port) == RequestEndpoint(BuildRegisterInstanceRequest(o, name))
    ensures var cs, e := [Registers(o, [name]), FiledByOthers(i)], EndpointOf(i.key, i.host, i.port);
            && Entry(ServerRun(network, w, cs).world.services, e) == Some(i)
            && Entry(ServerRun(network, w, cs + [Stops]).world.services, e) == None
  {
    var c0, c1, e := Registers(o, [name]), FiledByOthers(i), EndpointOf(i.key, i.host, i.port);
    var r := BuildRegisterInstanceRequest(o, name);
    OneAttempt(network, w, o, name);
    ServerRunSnoc(network, w, [], c0);
    assert [] + [c0] == [c0];
    ServerRunSnoc(network, w, [c0], c1);
    assert [c0] + [c1] == [c0, c1];
    var s := ServerRun(network, w, [c0, c1]);
    FileEntry(ServerRun(network, w, [c0]).world.services, i, e);
    RemembersAllTried(network, w, [c0, c1]);
    assert s.requests == [r] && s.world.calls == 2;
    ClearsAllTried(network, w, [c0, c1], Stops, e);
    assert r in s.requests;
  }

  lemma OneAttempt(network: nat -> Fate, w: World, o: ServerOptions, name: string)
    requires w.calls == 0 && network(0) != Done
    ensures var p := DoRegister(network, w, o, [], [name]);
            p.requests == [BuildRegisterInstanceRequest(o, name)] && p.world.calls == 2
  {
    assert [name][..0] == [];
    AttemptedRequests(network, w, o, [], [name]);
    RegisterNamesCalls(network, w, o, [], [name]);
    var p := RegisterNames(network, w, o, [], [name]);
    assert !Answers(network, w.calls);
    assert Requests(o, [name]) == [BuildRegisterInstanceRequest(o, name)];
    DeregisterCalls(network, p.world, p.requests);
  }
}

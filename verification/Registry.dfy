/** test/mock/naming.go: the in-memory naming server that registrations end up in. */
module Registry {
  import opened Wrappers
  import HostPort

  const DEFAULT_WEIGHT := 100

  datatype ServiceKey = ServiceKey(namespace: string, service: string)

  /** A registered instance; the server itself sets everything from `id` on. */
  datatype NamingInstance =
    NamingInstance(key: ServiceKey, host: string, port: int, protocol: string, version: string,
                   id: string, revision: string, healthy: bool, weight: int, isolate: bool)

  /** Where an instance is filed: its service and its printed address. */
  datatype Endpoint = Endpoint(key: ServiceKey, addr: string)

  type Services = map<ServiceKey, map<string, NamingInstance>>

  function EndpointOf(key: ServiceKey, host: string, port: int): Endpoint {
    Endpoint(key, HostPort.Render(host, port))
  }

  function Bucket(s: Services, key: ServiceKey): map<string, NamingInstance> {
    if key in s then s[key] else map[]
  }

  /** The instance filed at an endpoint: all a client of the registry can see. */
  function Entry(s: Services, e: Endpoint): Option<NamingInstance> {
    if e.addr in Bucket(s, e.key) then Some(Bucket(s, e.key)[e.addr]) else None
  }

  function Stamp(i: NamingInstance, id: string, revision: string): NamingInstance {
    i.(id := id, revision := revision, healthy := true, weight := DEFAULT_WEIGHT, isolate := false)
  }

  function File(s: Services, i: NamingInstance): Services {
    s[i.key := Bucket(s, i.key)[HostPort.Render(i.host, i.port) := i]]
  }

  function Unfile(s: Services, e: Endpoint): Services {
    s[e.key := Bucket(s, e.key) - {e.addr}]
  }

  /** Filing changes one endpoint. */
  lemma FileEntry(s: Services, i: NamingInstance, e: Endpoint)
    ensures Entry(File(s, i), e) == if e == EndpointOf(i.key, i.host, i.port) then Some(i) else Entry(s, e)
  {
  }

  /** Unfiling clears one endpoint. */
  lemma UnfileEntry(s: Services, gone: Endpoint, e: Endpoint)
    ensures Entry(Unfile(s, gone), e) == if e == gone then None else Entry(s, e)
  {
  }

  class NamingServer {
    var services: Services
    var heartbeatCounts: map<string, nat>

    constructor ()
      ensures services == map[] && heartbeatCounts == map[]
    {
      services, heartbeatCounts := map[], map[];
    }

    method RegisterInstance(instance: NamingInstance, id: string, revision: string)
      returns (registered: NamingInstance)
      modifies `services
      ensures registered == Stamp(instance, id, revision)
      ensures registered.id == id && registered.revision == revision
      ensures registered.healthy && !registered.isolate && registered.weight == DEFAULT_WEIGHT
      ensures registered.(id := "", revision := "", healthy := false, weight := 0, isolate := false)
           == instance.(id := "", revision := "", healthy := false, weight := 0, isolate := false)
      ensures services == File(old(services), registered)
    {
      var addr := HostPort.Render(instance.host, instance.port);
      if instance.key !in services {
        services := services[instance.key := map[]];
      }
      registered := instance.(id := id, revision := revision, healthy := true,
                              weight := DEFAULT_WEIGHT, isolate := false);
      services := services[instance.key := services[instance.key][addr := registered]];
    }

    method DeregisterInstance(key: ServiceKey, host: string, port: int) returns (oldInstance: Option<NamingInstance>)
      modifies `services
      ensures oldInstance == Entry(old(services), EndpointOf(key, host, port))
      ensures services == Unfile(old(services), EndpointOf(key, host, port))
    {
      var addr := HostPort.Render(host, port);
      if key !in services {
        services := services[key := map[]];
      }
      var instances := services[key];
      if addr !in instances {
        assert instances - {addr} == instances;
        return None;
      }
      oldInstance := Some(instances[addr]);
      services := services[key := instances - {addr}];
    }

    method Heartbeat(key: ServiceKey, host: string, port: int)
      modifies this
      ensures services == Beat(Ledger(old(services), old(heartbeatCounts)), EndpointOf(key, host, port)).services
      ensures heartbeatCounts
           == Beat(Ledger(old(services), old(heartbeatCounts)), EndpointOf(key, host, port)).heartbeatCounts
    {
      var addr := HostPort.Render(host, port);
      if key !in services {
        services := services[key := map[]];
      }
      if addr !in services[key] {
        return;
      }
      heartbeatCounts := heartbeatCounts[addr := HeartbeatCount(addr) + 1];
    }

    function HeartbeatCount(address: string): nat
      reads this
    {
      CountOf(heartbeatCounts, address)
    }
  }

  // ---------- runs ----------

  datatype Ledger = Ledger(services: Services, heartbeatCounts: map<string, nat>)

  datatype Call =
    | Register(instance: NamingInstance)
    | Deregister(endpoint: Endpoint)
    | Heartbeat(endpoint: Endpoint)

  function CountOf(counts: map<string, nat>, addr: string): nat {
    if addr in counts then counts[addr] else 0
  }

  function Beat(r: Ledger, e: Endpoint): Ledger {
    var filed := r.services[e.key := Bucket(r.services, e.key)];
    if Entry(r.services, e).None? then r.(services := filed)
    else Ledger(filed, r.heartbeatCounts[e.addr := CountOf(r.heartbeatCounts, e.addr) + 1])
  }

  function Serve(r: Ledger, c: Call): Ledger {
    match c
    case Register(i) => r.(services := File(r.services, i))
    case Deregister(e) => r.(services := Unfile(r.services, e))
    case Heartbeat(e) => Beat(r, e)
  }

  function ServeAll(calls: seq<Call>): Ledger {
    if calls == [] then Ledger(map[], map[])
    else Serve(ServeAll(calls[..|calls| - 1]), calls[|calls| - 1])
  }

  /** What the latest registration or deregistration of an endpoint left there. */
  function Latest(calls: seq<Call>, e: Endpoint): Option<NamingInstance> {
    if calls == [] then None
    else
      match calls[|calls| - 1]
      case Register(i) =>
        if EndpointOf(i.key, i.host, i.port) == e then Some(i) else Latest(calls[..|calls| - 1], e)
      case Deregister(gone) => if gone == e then None else Latest(calls[..|calls| - 1], e)
      case Heartbeat(_) => Latest(calls[..|calls| - 1], e)
  }

  /** The heartbeats for a printed address, of any service that had it registered then. */
  function BeatsHeard(calls: seq<Call>, addr: string): nat {
    if calls == [] then 0
    else
      var front, c := calls[..|calls| - 1], calls[|calls| - 1];
      BeatsHeard(front, addr) +
        if c.Heartbeat? && c.endpoint.addr == addr && Latest(front, c.endpoint).Some? then 1 else 0
  }

  /** After any calls the registry holds the latest registration of each endpoint, and the
      heartbeat counters count the heartbeats of registered instances by printed address. */
  lemma {:induction false} RegistryHoldsLatest(calls: seq<Call>, e: Endpoint, addr: string)
    ensures Entry(ServeAll(calls).services, e) == Latest(calls, e)
    ensures CountOf(ServeAll(calls).heartbeatCounts, addr) == BeatsHeard(calls, addr)
  {
    if calls != [] {
      var front, c := calls[..|calls| - 1], calls[|calls| - 1];
      RegistryHoldsLatest(front, e, addr);
      match c
      case Register(i) => FileEntry(ServeAll(front).services, i, e);
      case Deregister(gone) => UnfileEntry(ServeAll(front).services, gone, e);
      case Heartbeat(beating) => RegistryHoldsLatest(front, beating, addr);
    }
  }
}

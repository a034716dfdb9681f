/** server.go: the server object, and the provider API it reaches the registry through. */
module PolarisServer {
  import opened Wrappers
  import opened Registry
  import opened Registration
  import opened ServerRuns
  import HostPort

  class ProviderAPI {
    const registry: NamingServer
    const network: nat -> Fate
    var calls: nat

    ghost function View(): World
      reads this, registry
    {
      World(registry.services, calls)
    }

    constructor (registry: NamingServer, network: nat -> Fate)
      ensures this.registry == registry && this.network == network && calls == 0
    {
      this.registry, this.network, calls := registry, network, 0;
    }

    method RegisterInstance(r: RegisterRequest) returns (ok: bool)
      modifies this, registry`services
      ensures View() == CallRegister(network, old(View()), r)
      ensures ok <==> network(old(calls)) == Done
    {
      var fate := network(calls);
      if fate != RequestLost {
        var _ := registry.RegisterInstance(Wire(r), Uuid(2 * calls), Uuid(2 * calls + 1));
      }
      calls := calls + 1;
      ok := fate == Done;
    }

    method Deregister(r: RegisterRequest) returns (ok: bool)
      modifies this, registry`services
      ensures View() == CallDeregister(network, old(View()), r)
      ensures ok <==> network(old(calls)) == Done
    {
      var fate := network(calls);
      if fate != RequestLost {
        var _ := registry.DeregisterInstance(ServiceKey(r.namespace, r.service), r.host, r.port);
      }
      calls := calls + 1;
      ok := fate == Done;
    }
  }

  method DeregisterEach(providerAPI: ProviderAPI, services: seq<RegisterRequest>)
    modifies providerAPI, providerAPI.registry`services
    ensures providerAPI.View() == DeregisterServices(providerAPI.network, old(providerAPI.View()), services)
  {
    for i := 0 to |services|
      invariant providerAPI.View() == DeregisterServices(providerAPI.network, old(providerAPI.View()), services[..i])
    {
      assert services[..i + 1][..i] == services[..i];
      var _ := providerAPI.Deregister(services[i]);
    }
    assert services[..|services|] == services;
  }

  /** The names to register: the configured one, or the server's own in any order. */
  ghost predicate Listing(names: seq<string>, svcInfo: set<string>, svcName: string) {
    if svcName != "" then names == [svcName]
    else |names| == |svcInfo| && forall n :: n in svcInfo <==> n in names
  }

  method BuildServiceNames(svcInfo: set<string>, svcName: string) returns (ret: seq<string>)
    ensures Listing(ret, svcInfo, svcName)
  {
    ret := [];
    var pending := svcInfo;
    while pending != {}
      invariant pending <= svcInfo
      invariant forall n :: n in svcInfo - pending <==> n in ret
      invariant |ret| + |pending| == |svcInfo|
    {
      var k :| k in pending;
      pending := pending - {k};
      ret := ret + [k];
    }
    if svcName != "" {
      ret := [svcName];
    }
  }

  class Server {
    const providerAPI: ProviderAPI
    var serverOptions: ServerOptions
    var registerRequests: seq<RegisterRequest>
    var isStop: bool

    ghost function View(): ServerState
      reads this, providerAPI, providerAPI.registry
    {
      ServerState(providerAPI.View(), registerRequests, isStop)
    }

    constructor (providerAPI: ProviderAPI, serverOptions: ServerOptions)
      ensures this.providerAPI == providerAPI && this.serverOptions == serverOptions
      ensures registerRequests == [] && !isStop
    {
      this.providerAPI, this.serverOptions := providerAPI, serverOptions;
      registerRequests, isStop := [], false;
    }

    /** Fills in the host and the port when they are not configured; a missing host is
        noticed before the port is looked at. */
    method Locate(lisAddr: string, localHost: Option<string>) returns (err: Option<RegisterError>)
      modifies `serverOptions
      ensures serverOptions == old(serverOptions).(host := serverOptions.host, port := serverOptions.port)
      ensures serverOptions.host == if old(serverOptions).host == "" && localHost.Some? then localHost.value
                                    else old(serverOptions).host
      ensures err.None? && old(serverOptions).port == 0 ==> HostPort.PortOf(lisAddr, serverOptions.port)
      ensures err.Some? || old(serverOptions).port != 0 ==> serverOptions.port == old(serverOptions).port
      ensures (err == Some(NoLocalHost)) <==> (old(serverOptions).host == "" && localHost.None?)
      ensures (err.Some? && err.value.BadPort?) <==>
                (err != Some(NoLocalHost) && old(serverOptions).port == 0 && HostPort.ParsePort(lisAddr).Failure?)
      ensures err.Some? && err.value.BadPort? ==> err.value.cause == HostPort.ParsePort(lisAddr).error
      ensures err.Some? ==> !err.value.RegisterFailed?
    {
      if serverOptions.host == "" {
        if localHost.None? {
          return Some(NoLocalHost);
        }
        serverOptions := serverOptions.(host := localHost.value);
      }
      if serverOptions.port == 0 {
        var port := HostPort.ParsePort(lisAddr);
        if port.Failure? {
          return Some(BadPort(port.error));
        }
        HostPort.ParsedEndsInPort(lisAddr, port.value);
        serverOptions := serverOptions.(port := port.value);
      }
      return None;
    }

    /** `names` is the order in which the services were listed. On success each of them is
        served at the host and the port in use; after a failed registration nothing is left. */
    method DoRegister(lisAddr: string, localHost: Option<string>, svcInfo: set<string>)
      returns (err: Option<RegisterError>, ghost names: seq<string>)
      modifies this, providerAPI, providerAPI.registry`services
      ensures serverOptions == old(serverOptions).(host := serverOptions.host, port := serverOptions.port)
      ensures serverOptions.host == if old(serverOptions).host == "" && localHost.Some? then localHost.value
                                    else old(serverOptions).host
      ensures (err == Some(NoLocalHost)) <==> (old(serverOptions).host == "" && localHost.None?)
      ensures (err.Some? && err.value.BadPort?) <==>
                (err != Some(NoLocalHost) && old(serverOptions).port == 0 && HostPort.ParsePort(lisAddr).Failure?)
      ensures err.Some? && err.value.BadPort? ==> err.value.cause == HostPort.ParsePort(lisAddr).error
      ensures err.Some? && !err.value.RegisterFailed? ==>
                View() == old(View()) && serverOptions.port == old(serverOptions).port
      ensures err.None? || err.value.RegisterFailed? ==>
                && (if old(serverOptions).port != 0 then serverOptions.port == old(serverOptions).port
                    else HostPort.PortOf(lisAddr, serverOptions.port))
                && Listing(names, svcInfo, serverOptions.svcName)
                && View() == ServerStep(providerAPI.network, old(View()), Registers(serverOptions, names))
                && var p := Registration.DoRegister(providerAPI.network, old(providerAPI.View()), serverOptions,
                                                    old(registerRequests), names);
                   err == if p.outcome.Failed? then Some(RegisterFailed(p.outcome.service)) else None
      ensures err.None? ==> forall n :: n in names ==> ServedAt(providerAPI.registry.services, serverOptions, n)
      ensures err.Some? && err.value.RegisterFailed? && NoneLost(providerAPI.network) ==>
                NothingLeft(old(providerAPI.registry.services), providerAPI.registry.services, registerRequests)
    {
      names := [];
      err := Locate(lisAddr, localHost);
      if err.Some? {
        return;
      }
      var svcInfos := BuildServiceNames(svcInfo, serverOptions.svcName);
      names := svcInfos;
      AllOrNothing(providerAPI.network, providerAPI.View(), serverOptions, registerRequests, names);
      err := RegisterEach(svcInfos);
    }

    method RegisterEach(svcInfos: seq<string>) returns (err: Option<RegisterError>)
      modifies `registerRequests, providerAPI, providerAPI.registry`services
      ensures var p := Registration.DoRegister(providerAPI.network, old(providerAPI.View()), serverOptions,
                                               old(registerRequests), svcInfos);
              && providerAPI.View() == p.world
              && registerRequests == p.requests
              && err == if p.outcome.Failed? then Some(RegisterFailed(p.outcome.service)) else None
    {
      ghost var before, earlier := providerAPI.View(), registerRequests;
      for i := 0 to |svcInfos|
        invariant RegisterNames(providerAPI.network, before, serverOptions, earlier, svcInfos[..i])
               == Progress(providerAPI.View(), registerRequests, Registered)
      {
        var name := svcInfos[i];
        assert svcInfos[..i + 1][..i] == svcInfos[..i];
        var registerRequest := BuildRegisterInstanceRequest(serverOptions, name);
        registerRequests := registerRequests + [registerRequest];
        var ok := providerAPI.RegisterInstance(registerRequest);
        if !ok {
          FailureStays(providerAPI.network, before, serverOptions, earlier, svcInfos, i + 1);
          DeregisterEach(providerAPI, registerRequests);
          return Some(RegisterFailed(name));
        }
      }
      assert svcInfos[..|svcInfos|] == svcInfos;
      return None;
    }

    method Deregister()
      modifies providerAPI, providerAPI.registry`services
      ensures View() == ServerStep(providerAPI.network, old(View()), Deregisters)
    {
      DeregisterEach(providerAPI, registerRequests);
    }

    /** The first call deregisters; every later one changes nothing. */
    method Stop()
      modifies `isStop, providerAPI, providerAPI.registry`services
      ensures View() == ServerStep(providerAPI.network, old(View()), Stops)
    {
      if isStop {
        return;
      }
      isStop := true;
      Deregister();
    }
  }
}

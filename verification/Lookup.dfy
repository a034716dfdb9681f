/** resolver.go: turning a service's instances into a resolver state, and reporting it. */
module Lookup {
  import opened Wrappers
  import opened BalancerModel
  import HostPort

  type Interceptor = InstancesResponse -> InstancesResponse

  /** What the resolver reports to gRPC; gRPC adds the balancer configuration. */
  datatype ResolverState = ResolverState(addresses: seq<Address>, attributes: Attributes)

  function AddressesOf(instances: seq<Instance>): seq<Address> {
    seq(|instances|, i requires 0 <= i < |instances| => Address(InstanceKey(instances[i])))
  }

  function Intercepted(interceptors: seq<Interceptor>, resp: InstancesResponse): InstancesResponse {
    if interceptors == [] then resp
    else interceptors[|interceptors| - 1](Intercepted(interceptors[..|interceptors| - 1], resp))
  }

  /** One interceptor is applied to the answer; of two lists the earlier one comes first. */
  lemma {:induction false} InterceptedInOrder(front: seq<Interceptor>, back: seq<Interceptor>, i: Interceptor,
                                              resp: InstancesResponse)
    ensures Intercepted([], resp) == resp
    ensures Intercepted([i], resp) == i(resp)
    ensures Intercepted(front + back, resp) == Intercepted(back, Intercepted(front, resp))
  {
    assert [i][..0] == [];
    if back == [] {
      assert front + back == front;
    } else {
      assert (front + back)[..|front + back| - 1] == front + back[..|back| - 1];
      InterceptedInOrder(front, back[..|back| - 1], i, resp);
    }
  }

  /** `resp` is what the last interceptor made, or the answer if there is none. */
  predicate FromLastOutput(interceptors: seq<Interceptor>, answer: InstancesResponse, resp: InstancesResponse) {
    var n := |interceptors|;
    if n == 0 then resp == answer
    else resp == interceptors[n - 1](Intercepted(interceptors[..n - 1], answer))
  }

  /** The addresses are the printed host and port of each instance, in the same order. */
  predicate OneAddressEach(addresses: seq<Address>, instances: seq<Instance>) {
    && |addresses| == |instances|
    && forall n :: 0 <= n < |instances| ==>
         addresses[n].addr == HostPort.Render(instances[n].host, instances[n].port)
  }

  /** `answer` is what the polaris SDK gives for the service's instances. */
  method DoLookup(options: DialOptions, interceptors: seq<Interceptor>, answer: Result<InstancesResponse, Error>)
    returns (r: Result<ResolverState, Error>)
    ensures answer.Failure? ==> r == Failure(answer.error)
    ensures answer.Success? ==>
              var resp := Intercepted(interceptors, answer.value);
              r == Success(ResolverState(AddressesOf(resp.instances), Attributes(options, resp)))
    ensures answer.Success? ==> FromLastOutput(interceptors, answer.value, r.value.attributes.response)
    ensures answer.Success? ==> OneAddressEach(r.value.addresses, r.value.attributes.response.instances)
  {
    if answer.Failure? {
      return Failure(answer.error);
    }
    var resp := answer.value;
    for i := 0 to |interceptors|
      invariant resp == Intercepted(interceptors[..i], answer.value)
    {
      assert interceptors[..i + 1][..i] == interceptors[..i];
      resp := interceptors[i](resp);
    }
    assert interceptors[..|interceptors|] == interceptors;
    var addresses := [];
    for i := 0 to |resp.instances|
      invariant addresses == AddressesOf(resp.instances[..i])
    {
      var instance := resp.instances[i];
      addresses := addresses + [Address(HostPort.Render(instance.host, instance.port))];
    }
    assert resp.instances[..|resp.instances|] == resp.instances;
    r := Success(ResolverState(addresses, Attributes(options, resp)));
  }

  /** The address list and the attached response come from the same lookup. */
  predicate Coherent(e: Event) {
    e.Resolved? ==>
      && e.update.attributes.Some?
      && e.update.addresses == AddressesOf(e.update.attributes.value.response.instances)
  }

  /** One refresh: the balancer callback that gRPC makes for its outcome. */
  method DoRefresh(options: DialOptions, interceptors: seq<Interceptor>, answer: Result<InstancesResponse, Error>,
                   config: Option<LBConfig>)
    returns (e: Event)
    ensures Coherent(e) && !e.Notified?
    ensures e.ResolveFailed? <==> answer.Failure?
    ensures answer.Failure? ==> e.err == Some(answer.error)
    ensures e.Resolved? ==>
              e.update.attributes.value == Attributes(options, Intercepted(interceptors, answer.value))
    ensures e.Resolved? ==>
              && FromLastOutput(interceptors, answer.value, e.update.attributes.value.response)
              && OneAddressEach(e.update.addresses, e.update.attributes.value.response.instances)
              && e.update.balancerConfig == config
  {
    var looked := DoLookup(options, interceptors, answer);
    match looked
    case Failure(err) => e := ResolveFailed(Some(err));
    case Success(state) => e := Resolved(ClientConnState(state.addresses, Some(state.attributes), config));
  }

  lemma AddressesOfKeys(instances: seq<Instance>)
    ensures AddressKeys(AddressesOf(instances)) == InstanceKeys(instances)
  {
    var addresses := AddressesOf(instances);
    forall k | k in InstanceKeys(instances)
      ensures k in AddressKeys(addresses)
    {
      var i :| i in instances && InstanceKey(i) == k;
      var n :| 0 <= n < |instances| && instances[n] == i;
      assert addresses[n] == Address(k) && Address(k) in addresses;
      assert BuildAddressKey(Address(k)) == k;
    }
  }
}

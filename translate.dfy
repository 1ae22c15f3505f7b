/**
 * The translation layer of the eureka plugin: identity derivation, endpoint splitting, and
 * the conversions between go-chassis instances and eureka instance records.
 */
module Translate {

  import opened Wrappers
  import opened Strings
  import opened Strconv
  import opened Url
  import opened Records

  const DefaultPort: int := 80
  const DefaultDataCenterName: string := "MyOwn"
  const DefaultDataCenterClass: string := "com.netflix.appinfo.InstanceInfo$DefaultDataCenterInfo"
  const DefaultProtocol: string := "https"

  /** `genSid`: the registry-facing service id is the service name; the rest is ignored. */
  function GenSid(appID: string, serviceName: string, version: string, env: string): (sid: string)
    ensures sid == serviceName
  {
    serviceName
  }

  /**
   * `getIpPort`: without a `:` the address is empty and the port 80; otherwise the address
   * is the text before the first `:` and the port the `Atoi` of the text up to the next one.
   */
  function GetIpPort(ep: string): (r: (string, int))
    ensures ':' !in ep ==> r == ("", DefaultPort)
    ensures ':' in ep ==>
      var i := FirstIndex(ep, ':');
      var t := ep[i + 1..];
      r == (ep[..i], Atoi(t[..FirstIndex(t, ':')]))
  {
    if Count(ep, ':') > 0 then
      var seps := Split(ep, ':');
      var i := FirstIndex(ep, ':');
      SplitHead(ep, ':');
      SplitAt(ep, ':', i);
      SplitHead(ep[i + 1..], ':');
      (seps[0], Atoi(seps[1]))
    else ("", DefaultPort)
  }

  /**
   * `order` is an order in which Go's map iteration may visit the protocols of `m`: every
   * protocol exactly once. The model leaves the order open and takes it as a parameter.
   */
  predicate IsKeyOrder(m: map<string, string>, order: seq<string>)
  {
    && |order| == |m|
    && (forall i :: 0 <= i < |order| ==> order[i] in m)
    && forall i, j :: 0 <= i < j < |order| ==> order[i] != order[j]
  }

  /**
   * `registry.GetProtocolList(m)`: for each protocol `p`, in the iteration order, the
   * endpoint `p://m[p]`; the map holds the address `host:port` under its protocol.
   */
  function ProtocolList(m: map<string, string>, order: seq<string>): (eps: seq<string>)
    requires IsKeyOrder(m, order)
    ensures |eps| == |m|
    ensures forall i :: 0 <= i < |eps| ==> eps[i] == order[i] + "://" + m[order[i]]
    ensures forall p :: p in m ==> p + "://" + m[p] in eps
  {
    KeyOrderCovers(m, order);
    seq(|order|, i requires 0 <= i < |order| => order[i] + "://" + m[order[i]])
  }

  /** A sequence without repeats has as many distinct elements as it is long. */
  lemma {:induction false} DistinctElements(xs: seq<string>)
    requires forall i, j :: 0 <= i < j < |xs| ==> xs[i] != xs[j]
    ensures |set x | x in xs| == |xs|
  {
    if xs != [] {
      DistinctElements(xs[1..]);
      assert (set x | x in xs) == {xs[0]} + (set x | x in xs[1..]);
      assert xs[0] !in xs[1..];
    }
  }

  lemma {:induction false} SubsetSize(a: set<string>, b: set<string>)
    requires a <= b
    ensures |a| <= |b|
    decreases a
  {
    if a != {} {
      var x :| x in a;
      SubsetSize(a - {x}, b - {x});
    }
  }

  /** An iteration order visits every protocol of the map: it has `|m|` distinct ones. */
  lemma KeyOrderCovers(m: map<string, string>, order: seq<string>)
    requires IsKeyOrder(m, order)
    ensures forall p :: p in m ==> p in order
  {
    var visited := set x | x in order;
    DistinctElements(order);
    assert visited <= m.Keys;
    forall p | p in m
      ensures p in order
    {
      if p !in visited {
        SubsetSize(visited, m.Keys - {p});
      }
    }
  }

  /**
   * The first endpoint of the protocol list, the one `msiToInstVo` parses.
   * `msiToInstVo` indexes `eps[0]` unchecked, so the instance must have at least one endpoint.
   */
  function FirstEndpoint(m: map<string, string>, order: seq<string>): (ep: string)
    requires IsKeyOrder(m, order) && |m| > 0
    ensures order[0] in m && ep == order[0] + "://" + m[order[0]]
  {
    ProtocolList(m, order)[0]
  }

  /** What `msiToInstVo` demands of an instance: an endpoint, and a first one `url.Parse` accepts. */
  predicate Registrable(instance: MicroServiceInstance, order: seq<string>)
  {
    && IsKeyOrder(instance.endpointsMap, order) && |instance.endpointsMap| > 0
    && ParseEndpoint(FirstEndpoint(instance.endpointsMap, order)).Some?
  }

  /**
   * `msiToInstVo`: the eureka record for an instance of service `sid`, built from the
   * first endpoint of its protocol list when the protocols are visited in `order`.
   * `msiToInstVo` dereferences `eps[0]` and the parsed URL unchecked: a missing endpoint or a
   * `url.Parse` failure (a non-numeric port, say) panics, hence `Registrable`.
   */
  function MsiToInstVo(sid: string, instance: MicroServiceInstance, order: seq<string>): (vo: InstanceVo)
    requires Registrable(instance, order)
    ensures var u := ParseEndpoint(FirstEndpoint(instance.endpointsMap, order)).value;
      && vo.hostname == u.host && vo.ipAddr == u.host
      && vo.port == Some(PositiveInt(Atoi(u.port), false))
      && vo.securePort == Some(PositiveInt(Atoi(u.port), true))
      && 0 <= Atoi(u.port)
    ensures vo.app == sid && vo.vipAddress == ToLower(sid) && vo.secureVipAddress == ToLower(sid)
    ensures vo.status == StatusUp && vo.countryId == 1
    ensures vo.dataCenterInfo == Some(DataCenterInfo(DefaultDataCenterName, DefaultDataCenterClass, None))
    ensures vo.instanceId == "" && vo.metadata == None
  {
    var eps := ProtocolList(instance.endpointsMap, order);
    var u := ParseEndpoint(eps[0]).value;
    var port := Atoi(u.port);
    var dataCenterInfo := DataCenterInfo(DefaultDataCenterName, DefaultDataCenterClass, None);
    InstanceVo(
      instanceId := "",
      hostname := u.host,
      app := sid,
      ipAddr := u.host,
      status := StatusUp,
      dataCenterInfo := Some(dataCenterInfo),
      port := Some(PositiveInt(port, false)),
      securePort := Some(PositiveInt(port, true)),
      countryId := 1,
      vipAddress := ToLower(sid),
      secureVipAddress := ToLower(sid),
      metadata := None)
  }

  /** A record `instanceVoToMicroServiceInstance` can read: it dereferences these three pointers. */
  predicate Translatable(vo: InstanceVo)
  {
    vo.port.Some? && vo.dataCenterInfo.Some? && vo.metadata.Some?
  }

  /**
   * `instanceVoToMicroServiceInstance`: the go-chassis instance for an eureka record. Its
   * default endpoint is the address, a `:` and the decimal port, so the port reads back.
   */
  function InstanceVoToMicroServiceInstance(vo: InstanceVo): (msi: MicroServiceInstance)
    requires Translatable(vo)
    ensures msi.instanceID == vo.instanceId && msi.hostName == vo.hostname && msi.serviceID == vo.app
    ensures msi.defaultProtocol == DefaultProtocol && msi.status == vo.status
    ensures msi.defaultEndpoint == vo.ipAddr + ":" + Itoa(vo.port.value.value)
    ensures msi.endpointsMap == map[] && msi.metadata == vo.metadata.value.entries
    ensures msi.dataCenterInfo == Some(DataCenter(vo.dataCenterInfo.value.name, "", vo.dataCenterInfo.value.className))
  {
    var dc := vo.dataCenterInfo.value;
    var endpoint := vo.ipAddr + ":" + Itoa(vo.port.value.value);
    MicroServiceInstance(
      instanceID := vo.instanceId,
      hostName := vo.hostname,
      serviceID := vo.app,
      defaultProtocol := DefaultProtocol,
      defaultEndpoint := endpoint,
      status := vo.status,
      endpointsMap := map[],
      metadata := vo.metadata.value.entries,
      dataCenterInfo := Some(DataCenter(dc.name, "", dc.className)))
  }

  /** `filterInstances`: every record translated, in the order the registry listed them. */
  method FilterInstances(providerInstances: seq<InstanceVo>) returns (instances: seq<MicroServiceInstance>)
    requires forall i :: 0 <= i < |providerInstances| ==> Translatable(providerInstances[i])
    ensures |instances| == |providerInstances|
    ensures forall i :: 0 <= i < |providerInstances| ==>
      instances[i] == InstanceVoToMicroServiceInstance(providerInstances[i])
  {
    instances := [];
    for k := 0 to |providerInstances|
      invariant |instances| == k
      invariant forall i :: 0 <= i < k ==> instances[i] == InstanceVoToMicroServiceInstance(providerInstances[i])
    {
      var msi := InstanceVoToMicroServiceInstance(providerInstances[k]);
      instances := instances + [msi];
    }
  }

  /** `getIpPort` splits `host:text` into the host and the `Atoi` of the text. */
  lemma GetIpPortOfPair(host: string, text: string)
    requires ':' !in host && ':' !in text
    ensures GetIpPort(host + ":" + text) == (host, Atoi(text))
  {
    var e := host + ":" + text;
    assert e == host + ([':'] + text);
    FirstIndexAfter(host, [':'] + text, ':');
    assert e[..|host|] == host;
    assert e[|host| + 1..] == text;
    FirstIndexIs(text, ':', |text|);
    assert text[..|text|] == text;
  }

  /** `getIpPort` reads a default endpoint back into the address and port it was built from. */
  lemma GetIpPortOfDefaultEndpoint(vo: InstanceVo)
    requires Translatable(vo) && ':' !in vo.ipAddr
    ensures GetIpPort(InstanceVoToMicroServiceInstance(vo).defaultEndpoint) == (vo.ipAddr, vo.port.value.value)
  {
    var digits := Itoa(vo.port.value.value);
    assert ':' !in digits by {
      assert forall i :: 0 <= i < |digits| ==> digits[i] != ':';
    }
    GetIpPortOfPair(vo.ipAddr, digits);
    AtoiItoa(vo.port.value.value);
  }

  /** The record as the registry stores it: it assigns the instance id and returns metadata. */
  function Stored(vo: InstanceVo, id: string, metadata: map<string, string>): InstanceVo
  {
    vo.(instanceId := id, metadata := Some(InstanceMetadata(metadata)))
  }

  /** The first protocol `scheme` holding `host:port/path` is parsed back into its host and port. */
  lemma ParseFirstEndpoint(m: map<string, string>, order: seq<string>,
                           scheme: string, host: string, port: string, path: string)
    requires IsKeyOrder(m, order) && |order| > 0 && order[0] == scheme
    requires IsScheme(scheme) && IsHostName(host) && AllDigits(port) && IsPath(path)
    requires m[scheme] == host + ":" + port + path
    ensures |m| > 0 && ParseEndpoint(FirstEndpoint(m, order)) == Some(Url(host, port))
  {
    assert FirstEndpoint(m, order) == FormatEndpoint(scheme, host, port, path);
    ParseFormat(scheme, host, port, path);
  }

  /**
   * Registering an instance whose first protocol `scheme` holds the address
   * `host:port/path` and reading its record back gives the endpoint `host:port`, the
   * service id and the registry's id.
   */
  lemma RoundTrip(sid: string, instance: MicroServiceInstance, order: seq<string>,
                   scheme: string, host: string, port: nat, path: string,
                   id: string, metadata: map<string, string>)
    requires IsKeyOrder(instance.endpointsMap, order) && |order| > 0 && order[0] == scheme
    requires IsScheme(scheme) && IsHostName(host) && IsPath(path) && port <= MaxInt64
    requires instance.endpointsMap[scheme] == host + ":" + Itoa(port) + path
    ensures Registrable(instance, order)
    ensures ParseEndpoint(FirstEndpoint(instance.endpointsMap, order)) == Some(Url(host, Itoa(port)))
    ensures var back := InstanceVoToMicroServiceInstance(Stored(MsiToInstVo(sid, instance, order), id, metadata));
      && back.defaultEndpoint == host + ":" + Itoa(port)
      && GetIpPort(back.defaultEndpoint) == (host, port)
      && back.serviceID == sid && back.instanceID == id && back.hostName == host
      && back.defaultProtocol == DefaultProtocol && back.status == StatusUp
      && back.dataCenterInfo == Some(DataCenter(DefaultDataCenterName, "", DefaultDataCenterClass))
  {
    ParseFirstEndpoint(instance.endpointsMap, order, scheme, host, Itoa(port), path);
    AtoiItoa(port);
    var vo := Stored(MsiToInstVo(sid, instance, order), id, metadata);
    assert vo.ipAddr == host && vo.port.value.value == port;
    assert ':' !in host by {
      assert forall i :: 0 <= i < |host| ==> host[i] != ':';
    }
    GetIpPortOfDefaultEndpoint(vo);
  }

  /**
   * The vip addresses are the registry's grouping key: they hold no upper-case letter, and
   * services whose names differ only in ASCII case share them.
   */
  lemma VipAddressesLowerCase(sid: string, other: string, instance: MicroServiceInstance, order: seq<string>)
    requires Registrable(instance, order)
    requires |other| == |sid| && forall i :: 0 <= i < |sid| ==> LowerChar(other[i]) == LowerChar(sid[i])
    ensures var vo := MsiToInstVo(sid, instance, order);
      && (forall i :: 0 <= i < |vo.vipAddress| ==> !IsUpperAscii(vo.vipAddress[i]))
      && ToLower(vo.vipAddress) == vo.vipAddress
      && MsiToInstVo(other, instance, order).vipAddress == vo.vipAddress
  {
  }

  /** An address without `:` falls back to no host and port 80. */
  lemma GetIpPortWithoutColon()
    ensures GetIpPort("myhost") == ("", DefaultPort)
  {
  }

  /** `host:port` splits into the host and the port number. */
  lemma GetIpPortWithColon()
    ensures GetIpPort("myhost:9090") == ("myhost", 9090)
  {
    assert Itoa(9090) == "9090" by {
      assert Decimal(9) == "9";
      assert Decimal(90) == "90";
      assert Decimal(909) == "909";
    }
    assert "myhost:9090" == "myhost" + ":" + Itoa(9090);
    GetIpPortOfPair("myhost", Itoa(9090));
    AtoiItoa(9090);
  }

  /** The example address is `host:port` with a well-formed scheme, host and port. */
  lemma ExampleEndpointForm()
    ensures IsScheme("rest") && IsHostName("10.0.0.5") && IsPath("")
    ensures Itoa(8443) == "8443"
    ensures "10.0.0.5:8443" == "10.0.0.5" + ":" + Itoa(8443) + ""
  {
  }

  /** The example map has one protocol, listed as `rest://10.0.0.5:8443`. */
  lemma ExampleProtocolList(m: map<string, string>)
    requires m == map["rest" := "10.0.0.5:8443"]
    ensures IsKeyOrder(m, ["rest"])
    ensures ProtocolList(m, ["rest"]) == ["rest://10.0.0.5:8443"]
  {
    assert |m| == 1 && "rest" in m;
    var eps := ProtocolList(m, ["rest"]);
    assert |eps| == 1 && eps[0] == "rest" + "://" + "10.0.0.5:8443";
    assert "rest" + "://" + "10.0.0.5:8443" == "rest://10.0.0.5:8443";
  }

  /**
   * An instance registered with the single endpoint `rest` at `10.0.0.5:8443` is listed
   * as `rest://10.0.0.5:8443` and comes back with the default endpoint `10.0.0.5:8443`.
   */
  lemma RoundTripExample(sid: string, instance: MicroServiceInstance)
    requires instance.endpointsMap == map["rest" := "10.0.0.5:8443"]
    ensures IsKeyOrder(instance.endpointsMap, ["rest"])
    ensures ProtocolList(instance.endpointsMap, ["rest"]) == ["rest://10.0.0.5:8443"]
    ensures Registrable(instance, ["rest"])
    ensures var vo := MsiToInstVo(sid, instance, ["rest"]);
      && vo.ipAddr == "10.0.0.5" && vo.port == Some(PositiveInt(8443, false))
      && InstanceVoToMicroServiceInstance(Stored(vo, "", map[])).defaultEndpoint == "10.0.0.5:8443"
  {
    ExampleProtocolList(instance.endpointsMap);
    ExampleEndpointForm();
    RoundTrip(sid, instance, ["rest"], "rest", "10.0.0.5", 8443, "", "", map[]);
    AtoiItoa(8443);
  }
}

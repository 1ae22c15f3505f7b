/**
 * `NewEurekaRegistry` and `NewEurekaDiscovery`: the client configuration both build from
 * the configured registry addresses, and the plugin values they return.
 */
module Construction {

  import opened Strings

  const PluginName: string := "eureka"
  const DefaultRegion: string := "default-region-1"
  const DefaultZone: string := "default-zone-1"

  /** `registry.Options`, of which only the registry addresses are read. */
  datatype Options = Options(addrs: seq<string>)

  /** The fields of the eureka client configuration the constructors set. */
  datatype ClientConfig = ClientConfig(
    useDnsForFetchingServiceUrls: bool,
    region: string,
    availabilityZones: map<string, string>,
    serviceUrl: map<string, string>)

  /** The `Registrator` value: its name, the configuration its client holds, and the options. */
  datatype Registrator = Registrator(name: string, client: ClientConfig, opts: Options)

  /** The `Discovery` value, built the same way. */
  datatype Discovery = Discovery(name: string, client: ClientConfig, opts: Options)

  /** The eureka service URL of one registry address. */
  function ServiceUrl(addr: string): string
  {
    "http://" + addr + "/eureka"
  }

  /** The service URLs of the addresses, in address order. */
  function ServiceUrlList(addrs: seq<string>): (urls: seq<string>)
  {
    seq(|addrs|, i requires 0 <= i < |addrs| => ServiceUrl(addrs[i]))
  }

  /**
   * The configuration the constructors produce: no DNS lookup of service URLs, the fixed
   * region with its one zone, and under that zone the comma-joined service URLs.
   */
  predicate IsClientConfigFor(config: ClientConfig, addrs: seq<string>)
  {
    && !config.useDnsForFetchingServiceUrls
    && config.region == DefaultRegion
    && config.availabilityZones == map[DefaultRegion := DefaultZone]
    && config.serviceUrl == map[DefaultZone := Join(ServiceUrlList(addrs), ",")]
  }

  /** The loop of the constructors: one `http://<addr>/eureka` per address, in order. */
  method ServiceUrls(addrs: seq<string>) returns (serviceUrls: seq<string>)
    ensures |serviceUrls| == |addrs|
    ensures forall i :: 0 <= i < |addrs| ==> serviceUrls[i] == "http://" + addrs[i] + "/eureka"
  {
    serviceUrls := [];
    for k := 0 to |addrs|
      invariant |serviceUrls| == k
      invariant forall i :: 0 <= i < k ==> serviceUrls[i] == "http://" + addrs[i] + "/eureka"
    {
      var url := "http://" + addrs[k] + "/eureka";
      serviceUrls := serviceUrls + [url];
    }
  }

  /** The configuration common to both constructors. */
  method NewClientConfig(options: Options) returns (config: ClientConfig)
    ensures IsClientConfigFor(config, options.addrs)
  {
    var region := DefaultRegion;
    var availabilityZones := map[region := DefaultZone];
    var serviceUrls := ServiceUrls(options.addrs);
    assert serviceUrls == ServiceUrlList(options.addrs);
    config := ClientConfig(
      useDnsForFetchingServiceUrls := false,
      region := region,
      availabilityZones := availabilityZones,
      serviceUrl := map[availabilityZones[region] := Join(serviceUrls, ",")]);
  }

  /** `NewEurekaRegistry`. */
  method NewEurekaRegistry(options: Options) returns (r: Registrator)
    ensures r.name == PluginName && r.opts == options
    ensures IsClientConfigFor(r.client, options.addrs)
  {
    var config := NewClientConfig(options);
    r := Registrator(PluginName, config, options);
  }

  /** `NewEurekaDiscovery`. */
  method NewEurekaDiscovery(options: Options) returns (d: Discovery)
    ensures d.name == PluginName && d.opts == options
    ensures IsClientConfigFor(d.client, options.addrs)
  {
    var config := NewClientConfig(options);
    d := Discovery(PluginName, config, options);
  }

  /**
   * When no address holds a comma, the configured service-URL text splits back into
   * exactly one URL per address, in address order.
   */
  lemma ServiceUrlsRecoverable(config: ClientConfig, addrs: seq<string>)
    requires IsClientConfigFor(config, addrs)
    requires |addrs| >= 1
    requires forall i :: 0 <= i < |addrs| ==> ',' !in addrs[i]
    ensures Split(config.serviceUrl[DefaultZone], ',') == ServiceUrlList(addrs)
    ensures forall i :: 0 <= i < |addrs| ==> Split(config.serviceUrl[DefaultZone], ',')[i] == ServiceUrl(addrs[i])
  {
    var urls := ServiceUrlList(addrs);
    forall k | 0 <= k < |urls|
      ensures ',' !in urls[k]
    {
      assert urls[k] == "http://" + addrs[k] + "/eureka";
      assert forall j :: 0 <= j < |urls[k]| ==> urls[k][j] != ',' by {
        forall j | 0 <= j < |urls[k]|
          ensures urls[k][j] != ','
        {
          if 7 <= j < 7 + |addrs[k]| {
            assert urls[k][j] == addrs[k][j - 7];
          }
        }
      }
    }
    SplitJoin(urls, ',');
  }
}

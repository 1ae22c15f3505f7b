/**
 * The read path of the plugin (`Discovery`): each operation makes one call on the
 * registry client and translates what comes back, element by element.
 */
module ServiceDiscovery {

  import opened Wrappers
  import opened Records
  import opened Translate

  /** `GetMicroServiceID`: the same identity derivation as registration, never failing. */
  function GetMicroServiceID(appID: string, microServiceName: string, version: string, env: string)
    : (r: (string, Option<Error>))
    ensures r == (microServiceName, None)
  {
    (GenSid(appID, microServiceName, version, env), None)
  }

  /** The descriptor `GetAllMicroServices` makes of an application: its name and nothing else. */
  function NameOnly(app: ApplicationVo): MicroService
  {
    MicroService(appID := "", serviceName := app.name, version := "", environment := "")
  }

  /**
   * `GetAllMicroServices`: one descriptor per application, in the registry's order, or the
   * registry's error and no list.
   */
  method GetAllMicroServices(api: Api) returns (mss: seq<MicroService>, err: Option<Error>)
    ensures api.queryAllInstances.Failed? ==> mss == [] && err == Some(api.queryAllInstances.error)
    ensures api.queryAllInstances.Ok? ==>
      var apps := api.queryAllInstances.value;
      && err == None
      && |mss| == |apps|
      && forall i :: 0 <= i < |apps| ==> mss[i] == NameOnly(apps[i]) && mss[i].serviceName == apps[i].name
  {
    mss := [];
    match api.queryAllInstances
    case Failed(e) =>
      return [], Some(e);
    case Ok(appVos) =>
      for k := 0 to |appVos|
        invariant |mss| == k
        invariant forall i :: 0 <= i < k ==> mss[i] == NameOnly(appVos[i])
      {
        mss := mss + [NameOnly(appVos[k])];
      }
      err := None;
  }

  /** `GetMicroService`: the application's name under the id it was looked up by, or the registry's error. */
  function GetMicroService(api: Api, microServiceID: string): (r: (Option<MicroService>, Option<Error>))
    ensures var outcome := api.getApplication(microServiceID);
      && (outcome.Ok? ==> r == (Some(MicroService(microServiceID, outcome.value.name, "", "")), None))
      && (outcome.Failed? ==> r == (None, Some(outcome.error)))
  {
    match api.getApplication(microServiceID)
    case Failed(e) => (None, Some(e))
    case Ok(app) => (Some(MicroService(appID := microServiceID, serviceName := app.name, version := "", environment := "")), None)
  }

  /** What the registry must give back for the listing not to dereference a nil pointer. */
  predicate Listable(outcome: Result<seq<InstanceVo>>)
  {
    outcome.Ok? ==> forall i :: 0 <= i < |outcome.value| ==> Translatable(outcome.value[i])
  }

  /** `GetMicroServiceInstances`: the provider's records, each translated, in order; or the registry's error. */
  method GetMicroServiceInstances(api: Api, providerID: string)
    returns (instances: seq<MicroServiceInstance>, err: Option<Error>)
    requires Listable(api.queryAllInstanceByAppId(providerID))
    ensures var outcome := api.queryAllInstanceByAppId(providerID);
      && (outcome.Failed? ==> instances == [] && err == Some(outcome.error))
      && (outcome.Ok? ==>
            && err == None
            && |instances| == |outcome.value|
            && forall i :: 0 <= i < |instances| ==>
                 instances[i] == InstanceVoToMicroServiceInstance(outcome.value[i]))
  {
    match api.queryAllInstanceByAppId(providerID)
    case Failed(e) =>
      return [], Some(e);
    case Ok(instanceVos) =>
      instances := FilterInstances(instanceVos);
      err := None;
  }

  /** The error `FindMicroServiceInstances` wraps a registry failure in. */
  function FindFailure(cause: Error): Error
  {
    Error("FindMicroServiceInstances failed, err: " + cause.message)
  }

  /**
   * `FindMicroServiceInstances`: the records of the named service, each translated, in
   * order; a registry failure comes back wrapped with the operation's name.
   */
  method FindMicroServiceInstances(api: Api, microServiceName: string)
    returns (instances: seq<MicroServiceInstance>, err: Option<Error>)
    requires Listable(api.queryAllInstanceByAppId(microServiceName))
    ensures var outcome := api.queryAllInstanceByAppId(microServiceName);
      && (outcome.Failed? ==> instances == [] && err == Some(FindFailure(outcome.error)))
      && (outcome.Ok? ==>
            && err == None
            && |instances| == |outcome.value|
            && forall i :: 0 <= i < |instances| ==>
                 instances[i] == InstanceVoToMicroServiceInstance(outcome.value[i]))
  {
    match api.queryAllInstanceByAppId(microServiceName)
    case Failed(e) =>
      return [], Some(FindFailure(e));
    case Ok(providerInstances) =>
      instances := FilterInstances(providerInstances);
      err := None;
  }
}

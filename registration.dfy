/**
 * The write path of the plugin (`Registrator`): each operation translates its input,
 * makes one call on the registry client, and shapes the outcome into the Go results.
 */
module Registration {

  import opened Wrappers
  import opened Url
  import opened Records
  import opened Translate

  /** `RegisterService`: no registry call; the service id is derived and never fails. */
  function RegisterService(ms: MicroService): (r: (string, Option<Error>))
    ensures r == (ms.serviceName, None)
  {
    (GenSid(ms.appID, ms.serviceName, ms.version, ms.environment), None)
  }

  /**
   * `RegisterServiceInstance`: the translated record goes to the registry; its id comes
   * back on success, and on failure the id is empty and the registry's error is returned.
   */
  function RegisterServiceInstance(api: Api, sid: string, instance: MicroServiceInstance, order: seq<string>)
    : (r: (string, Option<Error>))
    requires Registrable(instance, order)
    ensures var outcome := api.registerInstanceWithVo(MsiToInstVo(sid, instance, order));
      && (r.1.None? <==> outcome.Ok?)
      && (outcome.Ok? ==> r.0 == outcome.value)
      && (outcome.Failed? ==> r == ("", Some(outcome.error)))
  {
    var vo := MsiToInstVo(sid, instance, order);
    match api.registerInstanceWithVo(vo)
    case Ok(instanceId) => (instanceId, None)
    case Failed(err) => ("", Some(err))
  }

  /**
   * `RegisterServiceAndInstance`: the service id is returned whether or not the instance
   * was registered; the instance id and error are those of registering under that id.
   */
  function RegisterServiceAndInstance(api: Api, ms: MicroService, instance: MicroServiceInstance, order: seq<string>)
    : (r: (string, string, Option<Error>))
    requires Registrable(instance, order)
    ensures r.0 == RegisterService(ms).0 == ms.serviceName
    ensures (r.1, r.2) == RegisterServiceInstance(api, ms.serviceName, instance, order)
  {
    var sid := GenSid(ms.appID, ms.serviceName, ms.version, ms.environment);
    var vo := MsiToInstVo(sid, instance, order);
    match api.registerInstanceWithVo(vo)
    case Ok(instanceId) => (sid, instanceId, None)
    case Failed(err) => (sid, "", Some(err))
  }

  /** `UnRegisterMicroServiceInstance`: the registry's error, or nil. */
  function UnRegisterMicroServiceInstance(api: Api, microServiceID: string, microServiceInstanceID: string)
    : (err: Option<Error>)
    ensures var outcome := api.deRegisterInstance(microServiceID, microServiceInstanceID);
      (err.None? <==> outcome.Pass?) && (outcome.Fail? ==> err == Some(outcome.error))
  {
    match api.deRegisterInstance(microServiceID, microServiceInstanceID)
    case Fail(e) => Some(e)
    case Pass => None
  }

  /**
   * `Heartbeat`: alive exactly when the heartbeat call succeeded, and then with no error;
   * an expired instance and a transport failure are not told apart.
   */
  function Heartbeat(api: Api, microServiceID: string, microServiceInstanceID: string)
    : (r: (bool, Option<Error>))
    ensures var outcome := api.sendHeartbeat(microServiceID, microServiceInstanceID);
      && (r.0 <==> outcome.Pass?)
      && (r.0 <==> r.1.None?)
      && (outcome.Fail? ==> r.1 == Some(outcome.error))
  {
    match api.sendHeartbeat(microServiceID, microServiceInstanceID)
    case Fail(e) => (false, Some(e))
    case Pass => (true, None)
  }

  /** `UpdateMicroServiceInstanceStatus`: the status text goes through as given; the registry's error, or nil. */
  function UpdateMicroServiceInstanceStatus(api: Api, microServiceID: string, microServiceInstanceID: string, status: string)
    : (err: Option<Error>)
    ensures var outcome := api.updateInstanceStatus(microServiceID, microServiceInstanceID, status);
      (err.None? <==> outcome.Pass?) && (outcome.Fail? ==> err == Some(outcome.error))
  {
    match api.updateInstanceStatus(microServiceID, microServiceInstanceID, status)
    case Fail(e) => Some(e)
    case Pass => None
  }

  /** `UpdateMicroServiceInstanceProperties`: the properties become the instance metadata; the registry's error, or nil. */
  function UpdateMicroServiceInstanceProperties(api: Api, microServiceID: string, microServiceInstanceID: string,
                                                properties: map<string, string>)
    : (err: Option<Error>)
    ensures var outcome := api.updateMeta(microServiceID, microServiceInstanceID, properties);
      (err.None? <==> outcome.Pass?) && (outcome.Fail? ==> err == Some(outcome.error))
  {
    match api.updateMeta(microServiceID, microServiceInstanceID, properties)
    case Fail(e) => Some(e)
    case Pass => None
  }

  /** Two services whose names agree get the same id, whatever their app id, version or environment. */
  lemma IdentityCollapse(a: MicroService, b: MicroService)
    requires a.serviceName == b.serviceName
    ensures RegisterService(a) == RegisterService(b)
  {
  }
}

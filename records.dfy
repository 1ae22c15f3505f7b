/**
 * The two data models the plugin translates between, and the registry client it calls:
 * the eureka client's wire records and go-chassis's registry records.
 */
module Records {

  import opened Wrappers
  import opened Strconv

  /** Go's 64-bit `int`. */
  type Int = n: int | InInt64(n)

  // ----- eureka wire records -----

  /** `eureka.STATUS_UP`. */
  const StatusUp: string := "UP"

  /** `eureka.PositiveInt`: a port number and whether that port is switched on. */
  datatype PositiveInt = PositiveInt(value: Int, enabled: bool)

  /** `eureka.DataCenterInfo`; `className` is the record's `Class` field. */
  datatype DataCenterInfo = DataCenterInfo(name: string, className: string, metadata: Option<map<string, string>>)

  /** The metadata block of an `eureka.InstanceVo`; its `Map` field is `entries` here. */
  datatype InstanceMetadata = InstanceMetadata(entries: map<string, string>)

  /** `eureka.InstanceVo`, with the fields the plugin writes or reads; pointers are options. */
  datatype InstanceVo = InstanceVo(
    instanceId: string,
    hostname: string,
    app: string,
    ipAddr: string,
    status: string,
    dataCenterInfo: Option<DataCenterInfo>,
    port: Option<PositiveInt>,
    securePort: Option<PositiveInt>,
    countryId: Int,
    vipAddress: string,
    secureVipAddress: string,
    metadata: Option<InstanceMetadata>)

  /** An application as `QueryAllInstances` and `GetApplication` return it; only its name is read. */
  datatype ApplicationVo = ApplicationVo(name: string)

  // ----- go-chassis registry records -----

  /** `registry.MicroService`, with the fields the plugin reads or writes. */
  datatype MicroService = MicroService(appID: string, serviceName: string, version: string, environment: string)

  /** `registry.DataCenterInfo`. */
  datatype DataCenter = DataCenter(name: string, region: string, availableZone: string)

  /** `registry.MicroServiceInstance`, with the fields the plugin reads or writes. */
  datatype MicroServiceInstance = MicroServiceInstance(
    instanceID: string,
    hostName: string,
    serviceID: string,
    defaultProtocol: string,
    defaultEndpoint: string,
    status: string,
    endpointsMap: map<string, string>,
    metadata: map<string, string>,
    dataCenterInfo: Option<DataCenter>)

  // ----- the registry client -----

  /**
   * The eureka client's API object as the plugin sees it: each call is the outcome the
   * remote registry gives for exactly the arguments passed.
   */
  datatype Api = Api(
    registerInstanceWithVo: InstanceVo -> Result<string>,
    deRegisterInstance: (string, string) -> Outcome,
    sendHeartbeat: (string, string) -> Outcome,
    updateInstanceStatus: (string, string, string) -> Outcome,
    updateMeta: (string, string, map<string, string>) -> Outcome,
    queryAllInstances: Result<seq<ApplicationVo>>,
    getApplication: string -> Result<ApplicationVo>,
    queryAllInstanceByAppId: string -> Result<seq<InstanceVo>>)
}

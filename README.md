# Eureka registry plugin for go-chassis, modelled in Dafny

The plugin (`plugin.go`, package `eurekaplugin`) adapts go-chassis's registry interfaces
to a Eureka server. It has two halves. The *Registrator* registers and deregisters
instances, sends heartbeats, and updates an instance's status and metadata. The
*Discovery* lists applications and the instances of one application. Both work through a
translation layer:

- `genSid` is the identity rule: the registry-facing service id is the service name alone.
- `msiToInstVo` turns a go-chassis instance into an eureka instance record. It works from
  the instance's first endpoint.
- `instanceVoToMicroServiceInstance` turns an eureka record back into a go-chassis
  instance.
- `getIpPort` splits an address at its colons. Nothing in `plugin.go` calls it; it is
  modelled as part of the translation layer, next to the default endpoint it can read.

The constructors build the client configuration: one `http://<addr>/eureka` URL per
configured address, comma-joined under a fixed region and zone.

The model follows the file's structure:

- `translate.dfy` (module `Translate`) holds the translation layer and its round-trip
  lemmas.
- `registration.dfy` (`Registration`) and `discovery.dfy` (`ServiceDiscovery`) hold the two
  capability sets.
- `construction.dfy` (`Construction`) holds the constructors.
- `records.dfy` (`Records`) holds the data models of both sides.

The Go library behaviour the plugin depends on is modelled in its own modules:

- `strings.dfy`: `strings.ToLower`, `Count`, `Split` and `Join`.
- `strconv.dfy`: `strconv.Atoi` and `Itoa` for a 64-bit `int`.
- `url.dfy`: `url.Parse` with `Hostname()` and `Port()`.

The eureka client is a value of type `Records.Api`. Each field of `Api` is the outcome the
remote registry gives for the exact arguments of one call. Each plugin method takes `api`
in place of `r.registryClient.Api()`. The `Registrator` and `Discovery` structs hold no
state that any method changes, so their methods are functions over `api`. The exceptions
are the loops the source has (`filterInstances`, the `GetAllMicroServices` loop and the
constructors' URL loop), which are methods with loop invariants.

Four facts about the code shape the model:

- Translation has no error path. `msiToInstVo` indexes `eps[0]`, so it panics on an empty
  endpoint map. It discards the error of `url.Parse` and dereferences the URL, so it also
  panics when parsing fails, which includes a port that is not all digits. `url.Parse`
  checks only that the port is made of digits. The code then discards the error of `Atoi`
  as well, so two parsed ports lose their value. A missing port reaches `Atoi` as the
  empty string and becomes 0. An all-digit port beyond 2^63-1, such as
  `99999999999999999999`, is a range error and becomes 9223372036854775807. A port with
  leading zeros keeps its value. The model states the panics as the precondition
  `Translate.Registrable`, and it models both lost values (`Strconv.AtoiOverflow`).
- `instanceVoToMicroServiceInstance` dereferences `DataCenterInfo`, `Port` and `Metadata`
  without a check, so a record with any of them nil panics. `Translate.Translatable` is a
  precondition of the back-translation and of the listings.
- The status is a string, copied from the eureka record into the go-chassis record.
  `eureka.STATUS_UP` is taken to be `"UP"`.
- The code returns the client's error unchanged everywhere except
  `FindMicroServiceInstances`, which wraps it with `fmt.Errorf`.

## Model

| member | source | states |
|---|---|---|
| `Translate.GenSid` | plugin.go:27-31 | the service id is the service name, whatever the app id, version and environment |
| `Registration.IdentityCollapse` | plugin.go:27-31 | two services with the same name get the same id |
| `Translate.GetIpPort` | plugin.go:33-42 | with no `:` the result is `("", 80)`; otherwise it is the text before the first `:` and the `Atoi` of the text between the first and second `:` |
| `Translate.GetIpPortOfPair` | plugin.go:33-42 | `host:text` splits into `host` and `Atoi(text)` when neither part holds a `:` |
| `Translate.GetIpPortWithoutColon` | plugin.go:33-42 | `"myhost"` gives `("", 80)` |
| `Translate.GetIpPortWithColon` | plugin.go:33-42 | `"myhost:9090"` gives `("myhost", 9090)` |
| `Translate.ProtocolList` | plugin.go:45 | one endpoint per protocol of the map: entry i is `p://m[p]` for the i-th protocol `p` of the iteration order, and every protocol of the map has its entry |
| `Translate.KeyOrderCovers` | plugin.go:45 | an iteration order, holding as many distinct protocols of the map as the map has, visits every protocol |
| `Translate.FirstEndpoint` | plugin.go:45-47 | the endpoint parsed is `p://m[p]` for the first protocol `p` of the iteration order |
| `Translate.MsiToInstVo` | plugin.go:44-67 | hostname and IP are the first endpoint's host; plain and secure port carry the same `Atoi` of its port, never negative, with `Enabled` false and true respectively; app is the service id and both vip addresses are its lower-case form; status UP, country 1 and the `MyOwn` data-center record hold whatever the instance's status or metadata |
| `Translate.VipAddressesLowerCase` | plugin.go:63-64 | the vip address has no upper-case letter, lower-casing it again changes nothing, and names that differ only in ASCII case share it |
| `Translate.InstanceVoToMicroServiceInstance` | plugin.go:255-272 | service id is the record's app and instance id its id; protocol `https`; endpoint `ip:port`; status and metadata copied; empty endpoint map; empty region and zone taken from the data-center class |
| `Translate.GetIpPortOfDefaultEndpoint` | plugin.go:255-261 | `getIpPort` reads the default endpoint back into the record's IP and port when the IP has no `:` |
| `Translate.ParseFirstEndpoint` | plugin.go:45-48 | when the first protocol `scheme` holds `H:P/path`, the parsed first endpoint has host H and port P |
| `Translate.RoundTrip` | plugin.go:44-61 | an instance whose first protocol `scheme` holds the address `H:P/path` (P canonical decimal) can be translated, and is registered and read back as `ServiceID = sid`, `DefaultEndpoint = "H:P"`, `HostName = H`, status UP and the registry's instance id |
| `Translate.ExampleProtocolList` | plugin.go:45 | the map `{rest: 10.0.0.5:8443}` is listed as `rest://10.0.0.5:8443` |
| `Translate.RoundTripExample` | plugin.go:44-61 | the instance with the single endpoint `rest` at `10.0.0.5:8443` gets IP `10.0.0.5` and port 8443, and comes back with the default endpoint `10.0.0.5:8443` |
| `Translate.FilterInstances` | plugin.go:245-253 | the result has the input's length and order, and element i is the translation of record i |
| `Registration.RegisterService` | plugin.go:69-73 | returns the service name and a nil error |
| `Registration.RegisterServiceInstance` | plugin.go:75-85 | the translated record goes to the registry; on success the registry's id and nil come back, on failure `""` and the registry's error |
| `Registration.RegisterServiceAndInstance` | plugin.go:87-98 | the service id is returned even when instance registration fails; the instance id and error are those of `RegisterServiceInstance` under that id |
| `Registration.UnRegisterMicroServiceInstance` | plugin.go:100-109 | nil exactly when deregistration succeeded, otherwise the registry's error unchanged |
| `Registration.Heartbeat` | plugin.go:111-120 | alive exactly when the heartbeat call succeeded, alive exactly when the error is nil, and the registry's error on failure |
| `Registration.UpdateMicroServiceInstanceStatus` | plugin.go:132-142 | nil exactly when the status update succeeded, otherwise the registry's error unchanged |
| `Registration.UpdateMicroServiceInstanceProperties` | plugin.go:149-159 | nil exactly when the metadata update succeeded, otherwise the registry's error unchanged |
| `ServiceDiscovery.GetMicroServiceID` | plugin.go:173-177 | returns the service name and a nil error |
| `ServiceDiscovery.GetAllMicroServices` | plugin.go:179-194 | on failure no list and the registry's error; on success one descriptor per application, same length and order, with `ServiceName = app.Name` |
| `ServiceDiscovery.GetMicroService` | plugin.go:196-208 | on success the application's name under the id it was looked up by; on failure no descriptor and the registry's error |
| `ServiceDiscovery.GetMicroServiceInstances` | plugin.go:211-221 | on failure no list and the registry's error; on success every record translated, in order |
| `ServiceDiscovery.FindMicroServiceInstances` | plugin.go:224-233 | like `GetMicroServiceInstances`, but a registry failure comes back wrapped as `FindMicroServiceInstances failed, err: <cause>` |
| `Construction.ServiceUrls` | plugin.go:283-287 | one `http://<addr>/eureka` per address, in address order |
| `Construction.NewClientConfig` | plugin.go:277-291 | DNS lookup of service URLs is off, region `default-region-1` has zone `default-zone-1`, and the service-URL map holds exactly that zone, with the comma-join of the service URLs |
| `Construction.NewEurekaRegistry` | plugin.go:275-299 | a registrator named `eureka` holding the options and that configuration |
| `Construction.NewEurekaDiscovery` | plugin.go:302-326 | a discovery named `eureka` holding the options and that configuration |
| `Construction.ServiceUrlsRecoverable` | plugin.go:289-291 | when no address holds a comma, the service-URL text splits back into one URL per address, in order |
| `Strings.ToLower` | plugin.go:63-64 | same length, and each character is its ASCII lower-case form |
| `Strings.ToLowerIdempotent` | plugin.go:63-64 | lower-casing twice is lower-casing once |
| `Strings.Split` | plugin.go:37 | one more piece than there are separators, and no piece holds the separator |
| `Strings.JoinSplit` | plugin.go:37 | joining the pieces of a split with the separator gives the text back |
| `Strings.FirstIndex` | plugin.go:36-39 | the index of the first occurrence of the character, or the length when there is none |
| `Strings.LastIndex` | plugin.go:47 | the index of the last occurrence of the character, or none when it does not occur |
| `Strings.Join` | plugin.go:290 | no pieces join to the empty text, and the join starts with the first piece |
| `Strings.SplitJoin` | plugin.go:290 | splitting a join at a separator no piece holds gives the pieces back |
| `Strings.Count` | plugin.go:36 | the count is positive exactly when the character occurs |
| `Strconv.ParseUint` | plugin.go:39 | a value comes only from a non-empty all-digit text and fits 64 bits; the empty text is a syntax error, and an all-digit text is never one |
| `Strconv.Atoi` | plugin.go:39 | the result is always within the 64-bit range |
| `Strconv.Itoa` | plugin.go:261 | the canonical decimal digits of the number: `"0"` for zero, no leading zero otherwise, and a leading `-` exactly when it is negative |
| `Strconv.AtoiItoa` | plugin.go:261 | `Atoi` inverts `Itoa` on the whole 64-bit range |
| `Strconv.AtoiWithoutDigits` | plugin.go:39 | text with no digit gives 0 |
| `Strconv.DecimalValueSnoc` | plugin.go:39 | the positional value of a digit string grows by a factor of ten plus the digit when a digit is appended |
| `Strconv.ScanAllDigits` | plugin.go:39 | on digits only, the parser gives the positional decimal value, or a range error exactly when that value exceeds 2^64-1 |
| `Strconv.ScanFinal` | plugin.go:39 | once a prefix fails to parse, the whole text fails the same way |
| `Strconv.AtoiDigits` | plugin.go:39 | digits after an optional sign give their value with that sign, clamped to the 64-bit range; leading zeros and `+` change nothing |
| `Strconv.AtoiInvalid` | plugin.go:39 | a non-digit after the sign that comes before the digits overflow makes the result 0 |
| `Strconv.AtoiShortInvalid` | plugin.go:39 | up to twenty characters after the sign, not all digits, give 0 |
| `Strconv.AtoiPrefixOverflow` | plugin.go:39 | digits that overflow before the first non-digit give `MaxInt64`, or `MinInt64` after a `-`, whatever follows |
| `Strconv.AtoiOverflowBeforeText` | plugin.go:39 | twenty nines followed by `x` give 9223372036854775807 |
| `Strconv.AtoiOverflow` | plugin.go:48 | all-digit text beyond the 64-bit range gives `MaxInt64`, or `MinInt64` after a `-` |
| `Strconv.AtoiTrailingText` | plugin.go:39 | `"80x"` and `"8080/api"`, the port text of `host:8080/api`, give 0 |
| `Strconv.AtoiLeadingZeroAndSign` | plugin.go:48 | `"080"` and `"+80"` give 80, and `"-80"` gives -80 |
| `Strconv.AtoiTwentyNines` | plugin.go:48 | twenty nines, a port `url.Parse` accepts, give 9223372036854775807 |
| `Url.ParseEndpoint` | plugin.go:47-48 | a parsed endpoint has an all-digit port and a host of host characters and colons |
| `Url.ParseFormat` | plugin.go:47-48 | parsing `scheme://host:port/path` gives back the host and port |

## Left out

- The eureka client's HTTP calls (`Api()`, `RegisterInstanceWithVo`, `DeRegisterInstance`, `SendHeartbeat`, `UpdateInstanceStatus`, `UpdateMeta`, `QueryAllInstances`, `GetApplication`, `QueryAllInstanceByAppId`) are foreign. Each is a field of `Records.Api` giving an abstract outcome. The error that `Api()` itself may return is discarded by the source, and it is not modelled.
- Logging through `openlog` only produces output, so it is not modelled.
- `Init` and the `registry.InstallRegistrator` / `InstallServiceDiscovery` calls are host-framework wiring, so they are not modelled.
- `eureka.GetDefaultEurekaClientConfig` and `DefaultClient.Config` are foreign. `Construction.ClientConfig` holds only the four fields the constructors set.
- `registry.GetProtocolList` is go-chassis code and is not part of this model. `Translate.ProtocolList` takes it to give `p + "://" + m[p]` for each protocol `p` of the endpoint map, in Go's map iteration order. That order is unspecified, so the model takes it as the parameter `order`, which `IsKeyOrder` constrains to list each protocol once. The model does not fix which protocol comes first.
- Url.ParseEndpoint: it covers only `scheme://authority[/path]`. The authority is made of letters, digits, `-`, `.`, `_`, `~` and `:`, and the path of printable ASCII other than `?`, `#` and `%`. Every other endpoint gives `None`, and `MsiToInstVo` requires `Some`. The scheme is checked but not returned, because the plugin never reads it; Go's lower-casing of the scheme therefore does not matter. Go's `url.Parse` also accepts many of those endpoints: an endpoint with no `//` gives an empty host and port 0, and Go also handles queries, fragments, user info, bracketed IPv6 hosts and percent-escapes. None of those is modelled.
- Strings.ToLower: it maps ASCII letters only. Go's Unicode case folding is not modelled.
- Strconv.Atoi: it is Go's `ParseInt(s, 10, 64)`, which `Atoi` agrees with on a 64-bit platform. A 32-bit `int` is not modelled.
- The unused `consumerID` and `tags` parameters of the discovery methods are not modelled, because they carry no behaviour.
- `AddDependencies`, `AddSchemas`, `UpdateMicroServiceProperties`, `AutoSync` and both `Close` methods are not modelled. Each only returns nil (or nothing), so it has no behaviour to state.
- Fields of `registry.MicroServiceInstance`, `registry.MicroService` and `eureka.InstanceVo` that `plugin.go` never reads or writes are not part of the records. Records the plugin builds leave them at Go's zero values.
- The model does not distinguish a nil Go slice or map from an empty one: a nil slice is `[]`, and a nil map, such as a record's `Metadata.Map`, is `map[]`.

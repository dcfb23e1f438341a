/** The Docker network set-up of the daemon (environment/docker.go):
    building the driver options and the create request for the configured
    network, creating it when the runtime does not know it, and writing the
    driver the runtime reports back into the shared configuration.

    The Docker API is an oracle: `inspect` answers a network inspection with
    the returned resource together with an optional error (both, as the Go
    client returns them), and `create` answers a create request with an
    optional error. The configuration is one object whose fields the
    `config.Update` closures assign in place. */
module DockerNetwork {
  import opened Support

  /** An error from the Docker client; `notFound` is `client.IsErrNotFound`. */
  datatype ApiError = ApiError(notFound: bool, message: string)

  /** The part of `types.NetworkResource` the daemon reads. */
  datatype NetworkResource = NetworkResource(name: string, driver: string)

  /** What `NetworkInspect` returns: a resource and an error, side by side. */
  datatype InspectReply = InspectReply(resource: NetworkResource, err: Option<ApiError>)

  /** One subnet/gateway pair of the configuration (`Interfaces.V4`, `Interfaces.V6`). */
  datatype NetworkInterface = NetworkInterface(subnet: string, gateway: string)

  /** One entry of `network.IPAM.Config`. */
  datatype IpamConfig = IpamConfig(subnet: string, gateway: string)

  /** The `types.NetworkCreate` request sent to the runtime, with the network name. */
  datatype NetworkCreate = NetworkCreate(
    name: string,
    driver: string,
    enableIpv6: bool,
    internal: bool,
    ipam: seq<IpamConfig>,
    options: map<string, string>)

  /** A snapshot of the `Docker.Network` configuration section. */
  datatype NetworkSettings = NetworkSettings(
    name: string,
    driver: string,
    iface: string,
    isInternal: bool,
    enableIcc: bool,
    ispn: bool,
    v4: NetworkInterface,
    v6: NetworkInterface)

  /** What one reconciliation pass yields: the error it returns, the create
      request it sent (None when create was never called) and the
      configuration it leaves behind. */
  datatype Reconciliation = Reconciliation(
    err: Option<ApiError>,
    request: Option<NetworkCreate>,
    settings: NetworkSettings)

  const BridgeName := "pterodactyl0"
  const Loopback := "127.0.0.1"

  // Option keys submitted to the runtime.
  const EncryptionKey := "encryption"
  const DefaultBridgeKey := "com.docker.network.bridge.default_bridge"
  const EnableIccKey := "com.docker.network.bridge.enable_icc"
  const IpMasqueradeKey := "com.docker.network.bridge.enable_ip_masquerade"
  const HostBindingKey := "com.docker.network.bridge.host_binding_ipv4"
  const BridgeNameKey := "com.docker.network.bridge.name"
  const MtuKey := "com.docker.network.driver.mtu"
  const ParentKey := "parent"

  /** Drivers whose network spans several hosts. */
  predicate MultiHost(driver: string) {
    driver == "overlay" || driver == "weavemesh"
  }

  /** Drivers for which a freshly created network takes the configured IPv4
      gateway as its interface: every driver but host, overlay, weavemesh
      and macvlan. */
  predicate LocallyScoped(driver: string) {
    driver != "host" && driver != "overlay" && driver != "weavemesh" && driver != "macvlan"
  }

  /** The reference option table, one exclusive case per driver. */
  function ExpectedOptions(driver: string, enableIcc: bool, parent: string): (m: map<string, string>)
    ensures driver == "bridge" ==>
      && m.Keys == {EncryptionKey, DefaultBridgeKey, EnableIccKey, IpMasqueradeKey, HostBindingKey, BridgeNameKey, MtuKey}
      && |m| == 7
      && m[EncryptionKey] == "false" && m[DefaultBridgeKey] == "false"
      && m[EnableIccKey] == FormatBool(enableIcc) && m[IpMasqueradeKey] == "true"
      && m[HostBindingKey] == "0.0.0.0" && m[BridgeNameKey] == BridgeName && m[MtuKey] == "1500"
    ensures driver == "overlay" ==> m.Keys == {EncryptionKey, MtuKey} && m[EncryptionKey] == "true" && m[MtuKey] == "9216"
    ensures driver == "macvlan" ==> m.Keys == {ParentKey} && m[ParentKey] == parent
    ensures EncryptionKey in m <==> driver == "bridge" || driver == "overlay"
    ensures m == map[] <==> driver != "bridge" && driver != "overlay" && driver != "macvlan"
  {
    if driver == "bridge" then
      map[EncryptionKey := "false",
          DefaultBridgeKey := "false",
          EnableIccKey := FormatBool(enableIcc),
          IpMasqueradeKey := "true",
          HostBindingKey := "0.0.0.0",
          BridgeNameKey := BridgeName,
          MtuKey := "1500"]
    else if driver == "overlay" then
      map[EncryptionKey := "true", MtuKey := "9216"]
    else if driver == "macvlan" then
      map[ParentKey := parent]
    else
      map[]
  }

  /** The options map of `createDockerNetwork`, filled key by key through
      three independent driver tests. */
  method DriverOptions(driver: string, enableIcc: bool, parent: string) returns (options: map<string, string>)
    ensures options == ExpectedOptions(driver, enableIcc, parent)
  {
    options := map[];
    if driver == "bridge" {
      options := options[EncryptionKey := "false"];
      options := options[DefaultBridgeKey := "false"];
      options := options[EnableIccKey := FormatBool(enableIcc)];
      options := options[IpMasqueradeKey := "true"];
      options := options[HostBindingKey := "0.0.0.0"];
      options := options[BridgeNameKey := BridgeName];
      options := options[MtuKey := "1500"];
    }
    if driver == "overlay" {
      options := options[EncryptionKey := "true"];
      options := options[MtuKey := "9216"];
    }
    if driver == "macvlan" {
      options := options[ParentKey := parent];
    }
  }

  /** The create request `createDockerNetwork` sends for configuration `s`. */
  function CreateRequest(s: NetworkSettings): (r: NetworkCreate)
    ensures r.name == s.name && r.driver == s.driver
    ensures r.enableIpv6 && r.internal == s.isInternal
    ensures |r.ipam| == 2
    ensures r.ipam[0] == IpamConfig(s.v4.subnet, s.v4.gateway)
    ensures r.ipam[1] == IpamConfig(s.v6.subnet, s.v6.gateway)
    ensures r.options == ExpectedOptions(s.driver, s.enableIcc, s.iface)
  {
    NetworkCreate(
      s.name, s.driver, true, s.isInternal,
      [IpamConfig(s.v4.subnet, s.v4.gateway), IpamConfig(s.v6.subnet, s.v6.gateway)],
      ExpectedOptions(s.driver, s.enableIcc, s.iface))
  }

  /** The configuration after a successful create: a locally scoped network
      takes the configured IPv4 gateway as its interface. */
  function AfterCreate(s: NetworkSettings): (r: NetworkSettings)
    ensures LocallyScoped(s.driver) ==> r.iface == s.v4.gateway
    ensures !LocallyScoped(s.driver) ==> r == s
    ensures r.(iface := s.iface) == s
  {
    if LocallyScoped(s.driver) then s.(iface := s.v4.gateway) else s
  }

  /** The invariant the final update establishes between the driver, the
      interface and the multi-host flag. */
  predicate Consistent(s: NetworkSettings) {
    && (s.ispn <==> MultiHost(s.driver))
    && (s.driver == "host" ==> s.iface == Loopback)
    && (MultiHost(s.driver) ==> s.iface == "")
  }

  /** The final `config.Update` of `ConfigureDocker`: record the driver the
      runtime reported and derive the interface and the multi-host flag. */
  function ObservedDriverApplied(s: NetworkSettings, driver: string): (r: NetworkSettings)
    ensures r.driver == driver
    ensures driver == "host" ==> r.iface == Loopback && !r.ispn
    ensures MultiHost(driver) ==> r.iface == "" && r.ispn
    ensures driver != "host" && !MultiHost(driver) ==> r.iface == s.iface && !r.ispn
    ensures Consistent(r)
    ensures r == s.(driver := r.driver, iface := r.iface, ispn := r.ispn)
  {
    if driver == "host" then s.(driver := driver, iface := Loopback, ispn := false)
    else if MultiHost(driver) then s.(driver := driver, iface := "", ispn := true)
    else s.(driver := driver, ispn := false)
  }

  /** Applying the same reported driver a second time changes nothing. */
  lemma ObservedDriverIdempotent(s: NetworkSettings, driver: string)
    ensures ObservedDriverApplied(ObservedDriverApplied(s, driver), driver) == ObservedDriverApplied(s, driver)
  {
  }

  /** One pass of `ConfigureDocker` on configuration `s`. */
  function Reconcile(
    s: NetworkSettings,
    clientErr: Option<ApiError>,
    inspect: string -> InspectReply,
    create: NetworkCreate -> Option<ApiError>): (r: Reconciliation)
    // a client construction error is returned before anything else happens
    ensures clientErr.Some? ==> r == Reconciliation(clientErr, None, s)
    // any failure leaves the configuration untouched
    ensures r.err.Some? ==> r.settings == s
    // inspection errors other than not-found are returned and create is never called
    ensures clientErr.None? && inspect(s.name).err.Some? && !inspect(s.name).err.value.notFound ==>
      r == Reconciliation(inspect(s.name).err, None, s)
    // create is called exactly when the network is not found, with the configured request
    ensures r.request.Some? <==> clientErr.None? && inspect(s.name).err.Some? && inspect(s.name).err.value.notFound
    ensures r.request.Some? ==> r.request.value == CreateRequest(s) && r.err == create(CreateRequest(s))
    // the pass succeeds exactly when the network exists, or was missing and create succeeded
    ensures r.err.None? <==>
      clientErr.None? &&
      (inspect(s.name).err.None? || (inspect(s.name).err.value.notFound && create(CreateRequest(s)).None?))
    // on success the driver is the one in the inspection reply and the rules hold
    ensures r.err.None? ==> r.settings.driver == inspect(s.name).resource.driver && Consistent(r.settings)
    ensures r.err.None? && !MultiHost(r.settings.driver) && r.settings.driver != "host" ==>
      r.settings.iface == (if r.request.Some? && LocallyScoped(s.driver) then s.v4.gateway else s.iface)
    // nothing but the driver, the interface and the multi-host flag changes
    ensures r.settings == s.(driver := r.settings.driver, iface := r.settings.iface, ispn := r.settings.ispn)
  {
    if clientErr.Some? then
      Reconciliation(clientErr, None, s)
    else
      var reply := inspect(s.name);
      if reply.err.Some? && !reply.err.value.notFound then
        Reconciliation(reply.err, None, s)
      else if reply.err.Some? then
        var request := CreateRequest(s);
        var createErr := create(request);
        if createErr.Some? then
          Reconciliation(createErr, Some(request), s)
        else
          Reconciliation(None, Some(request), ObservedDriverApplied(AfterCreate(s), reply.resource.driver))
      else
        Reconciliation(None, None, ObservedDriverApplied(s, reply.resource.driver))
  }

  /** The create path writes the driver that came with the not-found error,
      not the requested one. The Docker client returns an empty resource with
      that error, so a freshly created network is recorded with driver "" and
      multi-host false, even when an overlay network was requested. */
  lemma CreatedNetworkRecordsInspectedDriver(
    s: NetworkSettings,
    inspect: string -> InspectReply,
    create: NetworkCreate -> Option<ApiError>,
    message: string)
    requires inspect(s.name) == InspectReply(NetworkResource("", ""), Some(ApiError(true, message)))
    requires create(CreateRequest(s)) == None
    ensures Reconcile(s, None, inspect, create).err == None
    ensures Reconcile(s, None, inspect, create).settings.driver == ""
    ensures !Reconcile(s, None, inspect, create).settings.ispn
    ensures s.driver == "overlay" ==> Reconcile(s, None, inspect, create).settings == s.(driver := "", ispn := false)
    ensures s.driver == "bridge" ==>
      Reconcile(s, None, inspect, create).settings == s.(driver := "", iface := s.v4.gateway, ispn := false)
  {
  }

  /** The shared `Docker.Network` configuration section; `config.Update`
      closures assign its fields in place. */
  class NetworkConfiguration {
    var name: string
    var driver: string
    var iface: string
    var isInternal: bool
    var enableIcc: bool
    var ispn: bool
    var v4: NetworkInterface
    var v6: NetworkInterface

    constructor (s: NetworkSettings)
      ensures Settings() == s
    {
      name, driver, iface := s.name, s.driver, s.iface;
      isInternal, enableIcc, ispn := s.isInternal, s.enableIcc, s.ispn;
      v4, v6 := s.v4, s.v6;
    }

    /** The current values of the section (what `config.Get()` reads). */
    function Settings(): NetworkSettings
      reads this
    {
      NetworkSettings(name, driver, iface, isInternal, enableIcc, ispn, v4, v6)
    }

    /** The update after a successful create: interface := IPv4 gateway. */
    method UseGatewayAsInterface()
      modifies this`iface
      ensures Settings() == old(Settings()).(iface := old(v4).gateway)
    {
      iface := v4.gateway;
    }

    /** The final update of `ConfigureDocker`. */
    method ApplyObservedDriver(reported: string)
      modifies this`driver, this`iface, this`ispn
      ensures Settings() == ObservedDriverApplied(old(Settings()), reported)
    {
      driver := reported;
      if driver == "host" {
        iface := Loopback;
        ispn := false;
      } else if driver == "overlay" || driver == "weavemesh" {
        iface := "";
        ispn := true;
      } else {
        ispn := false;
      }
    }
  }

  /** `createDockerNetwork`: build the options and the request from the
      current configuration, send it, and on success fix up the interface. */
  method CreateDockerNetwork(cfg: NetworkConfiguration, create: NetworkCreate -> Option<ApiError>)
    returns (err: Option<ApiError>, request: NetworkCreate)
    modifies cfg
    ensures request == CreateRequest(old(cfg.Settings()))
    ensures err == create(request)
    ensures cfg.Settings() == if err.Some? then old(cfg.Settings()) else AfterCreate(old(cfg.Settings()))
  {
    var nw := cfg.Settings();
    var options := DriverOptions(nw.driver, nw.enableIcc, cfg.iface);
    request := NetworkCreate(
      nw.name, nw.driver, true, nw.isInternal,
      [IpamConfig(nw.v4.subnet, nw.v4.gateway), IpamConfig(nw.v6.subnet, nw.v6.gateway)],
      options);
    err := create(request);
    if err.Some? {
      return;
    }
    if nw.driver != "host" && nw.driver != "overlay" && nw.driver != "weavemesh" && nw.driver != "macvlan" {
      cfg.UseGatewayAsInterface();
    }
  }

  /** `ConfigureDocker`: inspect the configured network, create it when it
      is missing, then record the reported driver in the configuration. */
  method ConfigureDocker(
    cfg: NetworkConfiguration,
    clientErr: Option<ApiError>,
    inspect: string -> InspectReply,
    create: NetworkCreate -> Option<ApiError>)
    returns (err: Option<ApiError>, request: Option<NetworkCreate>)
    modifies cfg
    ensures Reconciliation(err, request, cfg.Settings()) == Reconcile(old(cfg.Settings()), clientErr, inspect, create)
  {
    request := None;
    if clientErr.Some? {
      return clientErr, None;
    }
    var nw := cfg.Settings();
    var resource := inspect(nw.name);
    if resource.err.Some? {
      if resource.err.value.notFound {
        var createErr, sent := CreateDockerNetwork(cfg, create);
        request := Some(sent);
        if createErr.Some? {
          return createErr, request;
        }
      } else {
        return resource.err, None;
      }
    }
    cfg.ApplyObservedDriver(resource.resource.driver);
    err := None;
  }
}

/** The identifiers and request data that every router shares. */
module Router {

  datatype Option<+T> = None | Some(value: T)

  datatype InstanceID = InstanceID(instanceName: string, appName: string)

  datatype BackendTarget = BackendTarget(ns: string, service: string)

  datatype BackendPrefix = BackendPrefix(prefix: string, target: BackendTarget)

  datatype Opts = Opts(
    pool: string,
    exposedPort: string,
    domain: string,
    route: string,
    domainSuffix: string,
    domainPrefix: string,
    externalTrafficPolicy: string,
    additionalOpts: map<string, string>,
    headerOpts: seq<string>,
    acme: bool,
    httpOnly: bool,
    acmeCName: bool,
    exposeAllServices: bool,
    gatewayName: string,
    gatewayNamespace: string)

  datatype EnsureOpts = EnsureOpts(
    opts: Opts,
    cnames: seq<string>,
    team: string,
    tags: seq<string>,
    certIssuers: map<string, string>,
    prefixes: seq<BackendPrefix>)

  /** A port of a Kubernetes Service. */
  datatype ServicePort = ServicePort(
    name: string,
    protocol: string,
    appProtocol: Option<string>,
    port: int,
    targetPort: PortTarget,
    nodePort: int)

  /** A target port is given by number or by name. */
  datatype PortTarget = PortNumber(number: int) | PortName(name: string)

  /** The parts of a Kubernetes Service that the routers read. */
  datatype Service = Service(
    ns: string,
    name: string,
    uid: string,
    ports: seq<ServicePort>,
    selector: map<string, string>,
    labels: map<string, string>,
    annotations: map<string, string>)
}

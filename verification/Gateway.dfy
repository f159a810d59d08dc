/**
  The Gateway API reconciler as a specification: the objects it wants, and the writes one Ensure or
  Remove call issues, in order. A call that is cut short by a failing API call has applied a prefix
  of these writes.
 */
module Gateway {
  import opened Router
  import opened Strings
  import opened Options
  import opened Resources

  const HTTP_ONLY_LABEL := "router.tsuru.io/http-only"
  const CNAME_LABEL := "router.tsuru.io/is-cname"
  const CERT_ISSUER_LABEL := "router.tsuru.io/cert-issuer"
  const ISSUER_KEY := "cert-manager.io/issuer"
  const CLUSTER_ISSUER_KEY := "cert-manager.io/cluster-issuer"
  const ISSUER_KIND_KEY := "cert-manager.io/issuer-kind"
  const ISSUER_GROUP_KEY := "cert-manager.io/issuer-group"
  const COMMON_NAME_KEY := "cert-manager.io/common-name"

  // ----- objects -----

  datatype ParentRef = ToGateway(name: string, ns: string) | ToListenerSet(name: string, ns: string, section: string)

  datatype RouteRule = RouteRule(path: Option<string>, service: string, port: int)

  datatype Condition = Condition(kind: string, status: string, reason: string, message: string)

  /** An HTTPRoute; `parents` is the status its controller writes, which an update leaves alone. */
  datatype HTTPRoute = HTTPRoute(
    labels: map<string, string>,
    annotations: map<string, string>,
    parentRefs: seq<ParentRef>,
    hostnames: seq<string>,
    rules: seq<RouteRule>,
    parents: seq<seq<Condition>>)

  datatype Listener = Listener(name: string, hostname: string, port: int, protocol: string, secret: string)

  datatype ListenerSet = ListenerSet(
    labels: map<string, string>,
    annotations: map<string, string>,
    gateway: ParentRef,
    listeners: seq<Listener>)

  /** The HTTPRoutes and ListenerSets of the namespace the router works in. */
  datatype Store = Store(routes: map<string, HTTPRoute>, sets: map<string, ListenerSet>)

  predicate Frozen(r: HTTPRoute) { Lookup(r.annotations, FREEZE_ANNOTATION) == "true" }

  /** The label selector of one router instance. */
  predicate Labelled(labels: map<string, string>, id: InstanceID) {
    && APP_LABEL in labels && labels[APP_LABEL] == id.appName
    && INSTANCE_LABEL in labels && labels[INSTANCE_LABEL] == id.instanceName
  }

  predicate Plain(labels: map<string, string>, id: InstanceID) { Labelled(labels, id) && CNAME_LABEL !in labels }

  predicate OfCName(labels: map<string, string>, id: InstanceID) {
    Labelled(labels, id) && CNAME_LABEL in labels && labels[CNAME_LABEL] == "true"
  }

  // ----- configuration and requests -----

  datatype Config = Config(
    gatewayName: string,
    gatewayNamespace: string,
    domainSuffix: string,
    acmeIssuer: string,
    labels: map<string, string>,
    annotations: map<string, string>,
    optsAsAnnotations: map<string, string>,
    digest: Digest,
    qualified: string -> bool)

  /** One Ensure call once its configuration, backend targets and services are resolved. */
  datatype Request = Request(
    cfg: Config,
    id: InstanceID,
    o: EnsureOpts,
    ns: string,
    targets: map<string, BackendTarget>,
    services: map<BackendTarget, Service>)

  /** The overrides that an Ensure call leaves behind in the router's own fields. */
  function WithGateway(cfg: Config, o: Opts, ns: string): Config {
    cfg.(gatewayName := if o.gatewayName != "" then o.gatewayName else cfg.gatewayName,
         gatewayNamespace := if o.gatewayNamespace != "" then o.gatewayNamespace else ns)
  }

  function WithSuffix(cfg: Config, o: Opts): Config {
    cfg.(domainSuffix := if o.domainSuffix != "" then o.domainSuffix else cfg.domainSuffix)
  }

  // ----- names -----

  function MainName(digest: Digest, id: InstanceID): string {
    HashedName(digest, id, "kube-router-" + id.appName, 253)
  }

  function RouteName(digest: Digest, id: InstanceID, prefix: string): string {
    if prefix == "default" then MainName(digest, id)
    else HashedName(digest, id, "kube-router-" + id.appName + "-" + prefix, 253)
  }

  function CNameRouteName(digest: Digest, id: InstanceID, cname: string): string {
    HashedName(digest, id, "kube-router-" + id.appName + "-" + cname + "-cname", 253)
  }

  function Sanitize(s: string): string { ReplaceAll(ReplaceAll(s, '.', "-"), '*', "wildcard") }

  function SetName(digest: Digest, id: InstanceID, cname: string): string {
    HashedName(digest, id, "kube-router-" + id.appName + "-" + Sanitize(cname), 253)
  }

  function SectionName(cname: string): string { Truncate(Sanitize(cname), 63) }

  function TlsSecretName(id: InstanceID, cname: string): string {
    Truncate(Sanitize(id.appName + "-" + cname + "-tls"), 253)
  }

  // ----- desired objects -----

  function Labels(cfg: Config, base: map<string, string>, id: InstanceID, team: string, tags: seq<string>)
    : map<string, string>
  {
    (base + cfg.labels)[APP_LABEL := id.appName][TEAM_LABEL := team] + TagLabels(tags, cfg.qualified)
  }

  /**
    An option becomes an annotation when it is configured to, or when its name looks like one; a trailing '-' deletes.
   */
  function AnnotationEffect(named: map<string, string>, opt: string, value: string): Effect {
    if opt !in named && '/' !in opt then Skip
    else
      var name := if opt in named then named[opt] else opt;
      if HasSuffix(name, '-') then Erase(name[..|name| - 1]) else Put(name, value)
  }

  function AnnotationRule(named: map<string, string>): Rule {
    (opt, value) => AnnotationEffect(named, opt, value)
  }

  ghost function Annotations(q: Request): map<string, string> {
    Settle(q.cfg.annotations, q.o.opts.additionalOpts, AnnotationRule(q.cfg.optsAsAnnotations))
  }

  function Host(cfg: Config, id: InstanceID, o: Opts, key: string): string {
    var prefix := if key != "default" then key + "." else "";
    if |o.domain| > 0 then prefix + o.domain
    else if o.domainPrefix == "" then prefix + id.appName + "." + cfg.domainSuffix
    else prefix + o.domainPrefix + "." + id.appName + "." + cfg.domainSuffix
  }

  /** The service behind a target; the placeholder is never reached, a missing service stops the call. */
  function ServiceAt(services: map<BackendTarget, Service>, t: BackendTarget): Service {
    if t in services then services[t] else Service("", "", "", [], map[], map[], map[])
  }

  function FirstPort(svc: Service): int {
    if |svc.ports| > 0 then svc.ports[0].port else DEFAULT_SERVICE_PORT
  }

  function TargetAt(q: Request, key: string): BackendTarget {
    if key in q.targets then q.targets[key] else BackendTarget("", "")
  }

  function Path(o: Opts): string { if o.route == "" then "/" else o.route }

  ghost function PrefixRoute(q: Request, key: string): HTTPRoute {
    var t := TargetAt(q, key);
    var svc := ServiceAt(q.services, t);
    HTTPRoute(
      Labels(q.cfg,
             map[INSTANCE_LABEL := q.id.instanceName, BASE_NAMESPACE_LABEL := t.ns, BASE_NAME_LABEL := t.service,
                 HTTP_ONLY_LABEL := if q.o.opts.httpOnly then "true" else "false"],
             q.id, q.o.team, q.o.tags),
      Annotations(q),
      [ToGateway(q.cfg.gatewayName, q.cfg.gatewayNamespace)],
      [Host(q.cfg, q.id, q.o.opts, key)],
      [RouteRule(Some(Path(q.o.opts)), svc.name, FirstPort(svc))],
      [])
  }

  ghost function CNameRoute(q: Request, cname: string, parent: ParentRef): HTTPRoute {
    var svc := ServiceAt(q.services, TargetAt(q, "default"));
    HTTPRoute(
      Labels(q.cfg, map[INSTANCE_LABEL := q.id.instanceName, CNAME_LABEL := "true"], q.id, q.o.team, q.o.tags),
      Annotations(q),
      [parent],
      [cname],
      [RouteRule(None, svc.name, FirstPort(svc))],
      [])
  }

  function CertAnnotations(issuer: string, cname: string): map<string, string> {
    var first := CutAt(issuer, '.');
    var second := if first.Cut? then CutAt(first.after, '.') else NoCut;
    if second.Cut? then
      map[ISSUER_KEY := first.before, ISSUER_KIND_KEY := second.before, ISSUER_GROUP_KEY := second.after,
          COMMON_NAME_KEY := cname]
    else map[CLUSTER_ISSUER_KEY := issuer, COMMON_NAME_KEY := cname]
  }

  function CNameSet(q: Request, cname: string, issuer: string): ListenerSet {
    ListenerSet(
      Labels(q.cfg, map[INSTANCE_LABEL := q.id.instanceName, CERT_ISSUER_LABEL := issuer], q.id, q.o.team, q.o.tags),
      CertAnnotations(issuer, cname),
      ToGateway(q.cfg.gatewayName, q.cfg.gatewayNamespace),
      [Listener(SectionName(cname), cname, 443, "HTTPS", TlsSecretName(q.id, cname))])
  }

  function Issuer(q: Request, cname: string): string {
    var issuer := Lookup(q.o.certIssuers, cname);
    if issuer == "" then q.cfg.acmeIssuer else issuer
  }

  function CNameParent(q: Request, cname: string): ParentRef {
    if q.o.opts.httpOnly then ToGateway(q.cfg.gatewayName, q.cfg.gatewayNamespace)
    else ToListenerSet(SetName(q.cfg.digest, q.id, cname), q.ns, SectionName(cname))
  }

  // ----- writes -----

  datatype Action =
    | PutRoute(name: string, route: HTTPRoute)
    | DropRoute(name: string)
    | PutSet(name: string, ls: ListenerSet)
    | DropSet(name: string)
    | WriteRecord(name: string, cnames: seq<string>)

  /** Create, or replace while keeping annotations the new object does not set; a frozen route is left alone. */
  function Upsert(routes: map<string, HTTPRoute>, name: string, r: HTTPRoute): map<string, HTTPRoute> {
    if name !in routes then routes[name := r]
    else if Frozen(routes[name]) then routes
    else routes[name := Merged(r, routes[name])]
  }

  function Merged(r: HTTPRoute, existing: HTTPRoute): HTTPRoute {
    r.(annotations := existing.annotations + r.annotations, parents := existing.parents)
  }

  /** The annotation that records the CNames, absent for an empty list. */
  function Recording(annotations: map<string, string>, cnames: seq<string>): map<string, string> {
    if |cnames| > 0 then annotations[CNAMES_ANNOTATION := Join(cnames, ',')] else annotations - {CNAMES_ANNOTATION}
  }

  function Apply(st: Store, a: Action): Store {
    match a
    case PutRoute(n, r) => st.(routes := Upsert(st.routes, n, r))
    case DropRoute(n) => st.(routes := st.routes - {n})
    case PutSet(n, ls) => st.(sets := st.sets[n := ls])
    case DropSet(n) => st.(sets := st.sets - {n})
    case WriteRecord(n, cs) =>
      if n !in st.routes then st
      else st.(routes := st.routes[n := st.routes[n].(annotations := Recording(st.routes[n].annotations, cs))])
  }

  function ApplyAll(st: Store, plan: seq<Action>): Store {
    if plan == [] then st else Apply(ApplyAll(st, plan[..|plan| - 1]), plan[|plan| - 1])
  }

  // ----- the plan of Ensure -----

  ghost function PrefixPuts(q: Request, keys: seq<string>): (r: seq<Action>)
    ensures |r| == |keys|
    ensures forall i :: 0 <= i < |keys| ==>
      r[i] == PutRoute(RouteName(q.cfg.digest, q.id, keys[i]), PrefixRoute(q, keys[i]))
  {
    seq(|keys|, i requires 0 <= i < |keys| => PutRoute(RouteName(q.cfg.digest, q.id, keys[i]), PrefixRoute(q, keys[i])))
  }

  function RouteNames(digest: Digest, id: InstanceID, keys: set<string>): set<string> {
    set k | k in keys :: RouteName(digest, id, k)
  }

  function WantedRoutes(q: Request): set<string> { RouteNames(q.cfg.digest, q.id, q.targets.Keys) }

  function PlainRoutes(st: Store, id: InstanceID): set<string> {
    set n | n in st.routes && Plain(st.routes[n].labels, id)
  }

  /** Routes of the id that no prefix asks for and that are not frozen. */
  function Stale(st: Store, id: InstanceID, wanted: set<string>): set<string> {
    set n | n in PlainRoutes(st, id) && n !in wanted && !Frozen(st.routes[n])
  }

  function DropRoutes(names: seq<string>, doomed: set<string>): seq<Action> {
    if names == [] then []
    else
      var n := names[|names| - 1];
      DropRoutes(names[..|names| - 1], doomed) + (if n in doomed then [DropRoute(n)] else [])
  }

  function DropSets(names: seq<string>, doomed: set<string>): seq<Action> {
    if names == [] then []
    else
      var n := names[|names| - 1];
      DropSets(names[..|names| - 1], doomed) + (if n in doomed then [DropSet(n)] else [])
  }

  ghost function Cleanup(q: Request, st: Store): seq<Action> {
    DropRoutes(InOrder(PlainRoutes(st, q.id)), Stale(st, q.id, WantedRoutes(q)))
  }

  /** In TLS mode a CName without an issuer is skipped. */
  ghost function CNamePut(q: Request, cname: string): seq<Action> {
    var put := PutRoute(CNameRouteName(q.cfg.digest, q.id, cname), CNameRoute(q, cname, CNameParent(q, cname)));
    if q.o.opts.httpOnly then [put]
    else if Issuer(q, cname) == "" then []
    else [PutSet(SetName(q.cfg.digest, q.id, cname), CNameSet(q, cname, Issuer(q, cname))), put]
  }

  ghost function CNamePuts(q: Request, cnames: seq<string>): seq<Action> {
    if cnames == [] then [] else CNamePuts(q, cnames[..|cnames| - 1]) + CNamePut(q, cnames[|cnames| - 1])
  }

  function CNameDrops(q: Request, cnames: seq<string>): (r: seq<Action>)
    ensures |r| == |cnames|
    ensures forall i :: 0 <= i < |cnames| ==> r[i] == DropRoute(CNameRouteName(q.cfg.digest, q.id, cnames[i]))
  {
    seq(|cnames|, i requires 0 <= i < |cnames| => DropRoute(CNameRouteName(q.cfg.digest, q.id, cnames[i])))
  }

  function SetsOf(st: Store, id: InstanceID): set<string> {
    set n | n in st.sets && Labelled(st.sets[n].labels, id)
  }

  /** ListenerSets that stay: none in HTTP-only mode, otherwise one per requested CName, issuer or not. */
  function WantedSets(q: Request): set<string> {
    if q.o.opts.httpOnly then {} else set c | c in q.o.cnames :: SetName(q.cfg.digest, q.id, c)
  }

  ghost function SetCleanup(q: Request, st: Store): seq<Action> {
    DropSets(InOrder(SetsOf(st, q.id)), SetsOf(st, q.id) - WantedSets(q))
  }

  /** The CNames recorded on the id's main route. */
  function Recorded(st: Store, main: string): seq<string> {
    if main in st.routes && Lookup(st.routes[main].annotations, CNAMES_ANNOTATION) != "" then
      Split(Lookup(st.routes[main].annotations, CNAMES_ANNOTATION), ',')
    else []
  }

  /** The CName writes, given the list believed to be recorded. */
  ghost function CNamePlan(q: Request, st: Store, existing: seq<string>): seq<Action> {
    var writes := CNamePuts(q, q.o.cnames) + CNameDrops(q, Without(existing, q.o.cnames));
    writes + SetCleanup(q, ApplyAll(st, writes)) + [WriteRecord(MainName(q.cfg.digest, q.id), q.o.cnames)]
  }

  ghost function RoutePlan(q: Request, st: Store): seq<Action> {
    var puts := PrefixPuts(q, InOrder(q.targets.Keys));
    puts + Cleanup(q, ApplyAll(st, puts))
  }

  /** Every write of a complete Ensure, in order. */
  ghost function EnsurePlan(q: Request, st: Store): seq<Action> {
    var before := ApplyAll(st, RoutePlan(q, st));
    var recorded := Recorded(before, MainName(q.cfg.digest, q.id));
    RoutePlan(q, st) + (if q.o.cnames == [] && recorded == [] then [] else CNamePlan(q, before, recorded))
  }

  /**
    The plan when the record cannot be read while CNames are reconciled: the error is swallowed and the list taken as
    empty.
   */
  ghost function BlindPlan(q: Request, st: Store): seq<Action> {
    RoutePlan(q, st) + CNamePlan(q, ApplyAll(st, RoutePlan(q, st)), [])
  }

  /** What the plan holds after the prefix routes: the CName writes, unless there is nothing requested or recorded. */
  ghost function CNamePart(q: Request, before: Store, blind: bool): seq<Action> {
    var recorded := if blind then [] else Recorded(before, MainName(q.cfg.digest, q.id));
    if !blind && q.o.cnames == [] && recorded == [] then [] else CNamePlan(q, before, recorded)
  }

  /** What a call sets out to write; it is blind when the record cannot be read. */
  ghost function Planned(q: Request, st: Store, blind: bool): seq<Action> {
    if blind then BlindPlan(q, st) else EnsurePlan(q, st)
  }

  /**
    What an Ensure that returns without an error has written: everything; everything but the record, whose
    write was swallowed; or, asked for no CNames and unable to read the record, the prefix routes only.
   */
  ghost predicate Ended(q: Request, st: Store, blind: bool, recorded: bool, done: seq<Action>) {
    var plan := Planned(q, st, blind);
    var asks := q.o.cnames != [] || Recorded(ApplyAll(st, RoutePlan(q, st)), MainName(q.cfg.digest, q.id)) != [];
    && (blind ==> asks)
    && (recorded ==> done == plan)
    && (!recorded ==>
         || (asks && plan != [] && done == plan[..|plan| - 1])
         || (!blind && q.o.cnames == [] && done == RoutePlan(q, st)))
  }

  /** The same of its part after the prefix routes. */
  ghost predicate CNamesEnded(q: Request, before: Store, blind: bool, recorded: bool, done: seq<Action>) {
    var plan := CNamePart(q, before, blind);
    var asks := q.o.cnames != [] || Recorded(before, MainName(q.cfg.digest, q.id)) != [];
    && (blind ==> asks)
    && (recorded ==> done == plan)
    && (!recorded ==> (asks && plan != [] && done == plan[..|plan| - 1]) || (!blind && q.o.cnames == [] && done == []))
  }

  /**
    Without a service for the default target, a call puts nothing for CNames without an issuer and stops at
    the first other one, in TLS mode after its ListenerSet.
   */
  ghost function StoppedPuts(q: Request, cnames: seq<string>): seq<Action> {
    if cnames == [] then []
    else
      var put := CNamePut(q, cnames[0]);
      if put == [] then StoppedPuts(q, cnames[1..]) else put[..|put| - 1]
  }

  ghost function Ensured(q: Request, st: Store): Store { ApplyAll(st, EnsurePlan(q, st)) }

  // ----- the plan of Remove -----

  function CNameRoutes(st: Store, id: InstanceID): (r: set<string>)
    ensures r <= st.routes.Keys
  {
    set n | n in st.routes && OfCName(st.routes[n].labels, id)
  }

  ghost function RemoveRoutes(digest: Digest, id: InstanceID, st: Store): seq<Action> {
    DropRoutes(InOrder(PlainRoutes(st, id)), PlainRoutes(st, id)) + [DropRoute(MainName(digest, id))]
  }

  ghost function RemoveCNames(id: InstanceID, st: Store): seq<Action> {
    DropRoutes(InOrder(CNameRoutes(st, id)), CNameRoutes(st, id)) + DropSets(InOrder(SetsOf(st, id)), SetsOf(st, id))
  }

  ghost function RemovePlan(digest: Digest, id: InstanceID, st: Store): seq<Action> {
    RemoveRoutes(digest, id, st) + RemoveCNames(id, ApplyAll(st, RemoveRoutes(digest, id, st)))
  }

  ghost function Removed(digest: Digest, id: InstanceID, st: Store): Store { ApplyAll(st, RemovePlan(digest, id, st)) }
}

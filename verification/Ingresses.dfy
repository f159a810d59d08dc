/**
  The Ingress reconciler as a specification: the desired objects in its certificate modes, the merge with
  what is stored, and the writes one Ensure issues, in order.
 */
module Ingresses {
  import opened Router
  import opened Strings
  import opened Options
  import opened Resources

  const ACME_KEY := "kubernetes.io/tls-acme"
  const CNAME_INGRESS_LABEL := "router.tsuru.io/is-cname-ingress"
  const CLASS_OPTION := "class"
  const CLASS_ANNOTATION := "kubernetes.io/ingress.class"
  const ISSUER_KEY := "cert-manager.io/issuer"
  const CLUSTER_ISSUER_KEY := "cert-manager.io/cluster-issuer"
  const ISSUER_KIND_KEY := "cert-manager.io/issuer-kind"
  const ISSUER_GROUP_KEY := "cert-manager.io/issuer-group"
  const COMMON_NAME_KEY := "cert-manager.io/common-name"

  // ----- objects -----

  datatype Rule = Rule(host: string, path: string, service: string, port: int)

  datatype TLS = TLS(hosts: seq<string>, secret: string)

  datatype Owner = ServiceOwner(service: string, serviceUid: string) | IngressOwner(ingress: string, uid: nat)

  /** An Ingress; its UID is given by the API server when it is created. */
  datatype Ingress = Ingress(
    uid: nat,
    labels: map<string, string>,
    annotations: map<string, string>,
    owner: Owner,
    className: Option<string>,
    defaultBackend: Option<string>,
    rules: seq<Rule>,
    tls: seq<TLS>)

  /** The Ingresses, and the cert-manager Certificates, of a namespace. */
  datatype Store = Store(ingresses: map<string, Ingress>, nextUid: nat, certificates: set<string>)

  predicate Frozen(i: Ingress) { Lookup(i.annotations, FREEZE_ANNOTATION) == "true" }

  const CERT_MANAGER_KEYS := {ISSUER_KEY, CLUSTER_ISSUER_KEY, ISSUER_KIND_KEY, ISSUER_GROUP_KEY}

  predicate Managed(annotations: map<string, string>) {
    exists k :: k in CERT_MANAGER_KEYS && k in annotations
  }

  // ----- configuration and requests -----

  /** What cert-manager says about an issuer name. */
  datatype IssuerData = NamespaceIssuer(name: string) | ClusterIssuer(name: string)
    | ExternalIssuer(name: string, kind: string, group: string) | UnknownIssuer

  datatype Config = Config(
    domainSuffix: string,
    annotationsPrefix: string,
    ingressClass: string,
    useIngressClassName: bool,
    labels: map<string, string>,
    annotations: map<string, string>,
    optsAsAnnotations: map<string, string>,
    digest: Digest,
    qualified: string -> bool,
    issuers: string -> IssuerData)

  /** One Ensure call with its backends resolved; `order` is how its range over the backends goes. */
  datatype Request = Request(
    cfg: Config,
    id: InstanceID,
    o: EnsureOpts,
    targets: map<string, BackendTarget>,
    services: map<BackendTarget, Service>,
    order: seq<string>)

  /** A range over the backends: each key once. */
  predicate OnceEach(order: seq<string>) { forall i, j :: 0 <= i < j < |order| ==> order[i] != order[j] }

  // ----- names -----

  function IngressName(digest: Digest, id: InstanceID): string {
    HashedName(digest, id, "kubernetes-router-" + id.appName + "-ingress", 253)
  }

  /** The app is not part of the name of a CName Ingress. */
  function IngressCName(digest: Digest, id: InstanceID, cname: string): string {
    HashedName(digest, id, "kubernetes-router-cname-" + cname, 253)
  }

  function SecretName(digest: Digest, id: InstanceID, cert: string): string {
    HashedName(digest, id, "kr-" + id.appName + "-" + cert, 253)
  }

  function Main(q: Request): string { IngressName(q.cfg.digest, q.id) }

  // ----- desired objects -----

  function Suffix(cfg: Config, o: Opts): string {
    if cfg.domainSuffix != "" then cfg.domainSuffix else o.domainSuffix
  }

  function VHost(cfg: Config, id: InstanceID, o: Opts, key: string): string {
    var prefix := if key != "default" then key + "." else "";
    if |o.domain| > 0 then prefix + o.domain
    else if o.domainPrefix == "" then prefix + id.appName + "." + Suffix(cfg, o)
    else prefix + o.domainPrefix + "." + id.appName + "." + Suffix(cfg, o)
  }

  function ServiceAt(q: Request, key: string): Service {
    if key in q.targets && q.targets[key] in q.services then q.services[q.targets[key]]
    else Service("", "", "", [], map[], map[], map[])
  }

  function PortOf(svc: Service): int { if |svc.ports| > 0 then svc.ports[0].port else 0 }

  function RuleFor(q: Request, key: string): Rule {
    Rule(VHost(q.cfg, q.id, q.o.opts, key), q.o.opts.route, ServiceAt(q, key).name, PortOf(ServiceAt(q, key)))
  }

  function Rules(q: Request, keys: seq<string>): seq<Rule> { Mapped(key => RuleFor(q, key), keys) }

  function EntryFor(digest: Digest, id: InstanceID, host: string): TLS { TLS([host], SecretName(digest, id, host)) }

  /** One TLS entry per rule, with the secret named after the rule's host. */
  function Fill(digest: Digest, id: InstanceID, rules: seq<Rule>): seq<TLS> {
    Mapped((r: Rule) => EntryFor(digest, id, r.host), rules)
  }

  function ClassName(cfg: Config): Option<string> {
    if cfg.ingressClass != "" && cfg.useIngressClassName then Some(cfg.ingressClass) else None
  }

  function Labels(cfg: Config, base: map<string, string>, id: InstanceID, team: string, tags: seq<string>): map<string,
                  string> {
    (base + cfg.labels)[APP_LABEL := id.appName][TEAM_LABEL := team] + TagLabels(tags, cfg.qualified)
  }

  function AllOptions(cfg: Config, o: Opts): map<string, string> {
    if cfg.ingressClass != "" && !cfg.useIngressClassName then map[CLASS_OPTION := cfg.ingressClass] + o.additionalOpts
    else o.additionalOpts
  }

  function NamedOptions(cfg: Config): map<string, string> {
    map[CLASS_OPTION := CLASS_ANNOTATION] + cfg.optsAsAnnotations
  }

  /** Every option becomes an annotation, prefixed unless it is named or has a '/'; a trailing '-' deletes. */
  function AnnotationEffect(named: map<string, string>, prefix: string, opt: string, value: string): Effect {
    var name :=
      if opt in named then named[opt]
      else if '/' in opt then opt
      else if prefix == "" then opt
      else prefix + "/" + opt;
    if HasSuffix(name, '-') then Erase(name[..|name| - 1]) else Put(name, value)
  }

  function AnnotationRule(named: map<string, string>, prefix: string): Options.Rule {
    (opt, value) => AnnotationEffect(named, prefix, opt, value)
  }

  ghost function Annotations(q: Request): map<string, string> {
    Settle(q.cfg.annotations, AllOptions(q.cfg, q.o.opts), AnnotationRule(NamedOptions(q.cfg), q.cfg.annotationsPrefix))
  }

  function Uncertified(annotations: map<string, string>): map<string, string> { annotations - CERT_MANAGER_KEYS }

  function Recording(annotations: map<string, string>, cnames: seq<string>): map<string, string> {
    if |cnames| > 0 then annotations[CNAMES_ANNOTATION := Join(cnames, ',')] else annotations
  }

  ghost function MainIngress(q: Request): Ingress {
    var t := if "default" in q.targets then q.targets["default"] else BackendTarget("", "");
    var svc := ServiceAt(q, "default");
    var rules := Rules(q, q.order);
    Ingress(0,
      Labels(q.cfg, map[BASE_NAMESPACE_LABEL := t.ns, BASE_NAME_LABEL := t.service], q.id, q.o.team, q.o.tags),
      Recording(if q.o.opts.acme then Annotations(q)[ACME_KEY := "true"] else Uncertified(Annotations(q)), q.o.cnames),
      ServiceOwner(svc.name, svc.uid),
      ClassName(q.cfg), None, rules,
      if q.o.opts.acme then Fill(q.cfg.digest, q.id, rules) else [])
  }

  /** The four certificate modes of a CName Ingress. */
  datatype CertMode = HTTPOnly | Acme | Plain | Issued(issuer: string)

  function ModeOf(q: Request, cname: string): CertMode {
    if q.o.opts.httpOnly then HTTPOnly
    else if q.o.opts.acmeCName then Acme
    else if Lookup(q.o.certIssuers, cname) == "" then Plain
    else Issued(Lookup(q.o.certIssuers, cname))
  }

  function IssuerAnnotations(data: IssuerData): map<string, string> {
    match data
    case NamespaceIssuer(n) => map[ISSUER_KEY := n]
    case ClusterIssuer(n) => map[CLUSTER_ISSUER_KEY := n]
    case ExternalIssuer(n, k, g) => map[ISSUER_KEY := n, ISSUER_KIND_KEY := k, ISSUER_GROUP_KEY := g]
    case UnknownIssuer => map[]
  }

  ghost function CNameAnnotations(q: Request, cname: string): map<string, string> {
    match ModeOf(q, cname)
    case HTTPOnly => Uncertified(Annotations(q))
    case Acme => Annotations(q)[ACME_KEY := "true"]
    case Plain => Uncertified(Annotations(q))
    case Issued(issuer) =>
      Uncertified(Annotations(q))[COMMON_NAME_KEY := cname] + IssuerAnnotations(q.cfg.issuers(issuer))
  }

  ghost function CNameIngress(q: Request, cname: string, parent: nat): Ingress {
    var svc := ServiceAt(q, "default");
    var rules := [Rule(cname, q.o.opts.route, svc.name, PortOf(svc))];
    Ingress(0,
      Labels(q.cfg, map[BASE_NAMESPACE_LABEL := svc.ns, BASE_NAME_LABEL := svc.name, CNAME_INGRESS_LABEL := "true"],
             q.id, q.o.team, q.o.tags),
      CNameAnnotations(q, cname),
      IngressOwner(Main(q), parent),
      ClassName(q.cfg), None, rules,
      if ModeOf(q, cname).Acme? || ModeOf(q, cname).Issued? then Fill(q.cfg.digest, q.id, rules) else [])
  }

  // ----- the merge -----

  /** Whether the desired Ingress is worth a write. Missing keys read as empty values. */
  predicate Changed(e: Ingress, i: Ingress) {
    || e.className != i.className || e.defaultBackend != i.defaultBackend || e.rules != i.rules || e.tls != i.tls
    || e.owner != i.owner
    || Lookup(e.annotations, CNAMES_ANNOTATION) != Lookup(i.annotations, CNAMES_ANNOTATION)
    || (exists k :: k in i.annotations && Lookup(e.annotations, k) != i.annotations[k])
    || (exists k :: k in i.labels && Lookup(e.labels, k) != i.labels[k])
  }

  /** The UID and the default backend are carried over, and TLS is filled in again where it was set by hand. */
  function Merge(digest: Digest, id: InstanceID, e: Ingress, i: Ingress): Ingress {
    i.(uid := e.uid,
       defaultBackend := if e.defaultBackend.Some? then e.defaultBackend else i.defaultBackend,
       tls := if |e.tls| > 0 && !Managed(e.annotations) then Fill(digest, id, i.rules) else i.tls)
  }

  function Stored(digest: Digest, id: InstanceID, e: Ingress, i: Ingress): Ingress {
    if Frozen(e) then e else if Changed(e, i) then Merge(digest, id, e, i) else e
  }

  // ----- the plan of Ensure -----

  datatype Action =
    | PutIngress(name: string, desired: Ingress)
    | DropIngress(name: string)
    | DropCertificate(name: string)

  function Apply(digest: Digest, id: InstanceID, st: Store, a: Action): Store {
    match a
    case PutIngress(n, i) =>
      if n in st.ingresses then st.(ingresses := st.ingresses[n := Stored(digest, id, st.ingresses[n], i)])
      else st.(ingresses := st.ingresses[n := i.(uid := st.nextUid)], nextUid := st.nextUid + 1)
    case DropIngress(n) => st.(ingresses := st.ingresses - {n})
    case DropCertificate(n) => st.(certificates := st.certificates - {n})
  }

  function ApplyAll(digest: Digest, id: InstanceID, st: Store, plan: seq<Action>): Store {
    if plan == [] then st else Apply(digest, id, ApplyAll(digest, id, st, plan[..|plan| - 1]), plan[|plan| - 1])
  }

  function After(q: Request, st: Store, plan: seq<Action>): Store { ApplyAll(q.cfg.digest, q.id, st, plan) }

  /** The list read from a stored main Ingress; a missing annotation reads as one empty name. */
  function RecordOf(i: Ingress): seq<string> { Split(Lookup(i.annotations, CNAMES_ANNOTATION), ',') }

  /** For a CName Ingress that was there and ends up without TLS, a left-over Certificate is deleted. */
  ghost function CNameActs(q: Request, s: Store, cname: string, parent: nat): seq<Action> {
    var n := IngressCName(q.cfg.digest, q.id, cname);
    var i := CNameIngress(q, cname, parent);
    [PutIngress(n, i)] +
    if n in s.ingresses && !Frozen(s.ingresses[n]) && |Stored(q.cfg.digest, q.id, s.ingresses[n], i).tls| == 0
    then [DropCertificate(SecretName(q.cfg.digest, q.id, cname))] else []
  }

  ghost function CNamePlan(q: Request, s: Store, cnames: seq<string>, parent: nat): seq<Action> {
    if cnames == [] then []
    else
      var init := CNamePlan(q, s, cnames[..|cnames| - 1], parent);
      init + CNameActs(q, After(q, s, init), cnames[|cnames| - 1], parent)
  }

  function Drops(q: Request, cnames: seq<string>): (r: seq<Action>)
    ensures |r| == |cnames|
    ensures forall i :: 0 <= i < |cnames| ==> r[i] == DropIngress(IngressCName(q.cfg.digest, q.id, cnames[i]))
  {
    seq(|cnames|, i requires 0 <= i < |cnames| => DropIngress(IngressCName(q.cfg.digest, q.id, cnames[i])))
  }

  /** The CNames read from the main Ingress before it was written. */
  function Existing(q: Request, st: Store): seq<string> {
    if Main(q) in st.ingresses then RecordOf(st.ingresses[Main(q)]) else []
  }

  ghost function MainPut(q: Request, st: Store): Store { After(q, st, [PutIngress(Main(q), MainIngress(q))]) }

  /** The UID of the main Ingress; the placeholder is never used, the main Ingress is there once put. */
  function MainUid(q: Request, st: Store): nat { if Main(q) in st.ingresses then st.ingresses[Main(q)].uid else 0 }

  /** A frozen main Ingress stops everything. */
  ghost function EnsurePlan(q: Request, st: Store): seq<Action> {
    if Main(q) in st.ingresses && Frozen(st.ingresses[Main(q)]) then []
    else
      var s := MainPut(q, st);
      [PutIngress(Main(q), MainIngress(q))] + CNamePlan(q, s, q.o.cnames, MainUid(q, s))
        + Drops(q, Without(Existing(q, st), q.o.cnames))
  }

  ghost function Ensured(q: Request, st: Store): Store { After(q, st, EnsurePlan(q, st)) }

  /** Deleting the main Ingress in the foreground takes everything it owns with it. */
  function Removed(digest: Digest, id: InstanceID, st: Store): Store {
    var n := IngressName(digest, id);
    if n !in st.ingresses then st
    else st.(ingresses :=
      map m | m in st.ingresses && m != n && !OwnedBy(st.ingresses[m], st.ingresses[n].uid) :: st.ingresses[m])
  }

  predicate OwnedBy(i: Ingress, uid: nat) { i.owner.IngressOwner? && i.owner.uid == uid }
}

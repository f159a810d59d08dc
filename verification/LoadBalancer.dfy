/**
  What the load balancer router wants of its Service: ports, labels and annotations, each computed so that
  feeding the result back in, as the API server stored it, gives the same result.
 */
module LoadBalancer {
  import opened Router
  import opened Strings
  import opened Strconv
  import Options
  import opened Resources

  const EXPOSED_PORT := "exposed-port"
  const EXPOSE_ALL_PORTS := "expose-all-ports"
  const ANNOTATION_PREFIX := "svc-annotation-"
  const OPTS_ANNOTATION := "router.tsuru.io/opts"
  const DNS_ANNOTATION := "external-dns.alpha.kubernetes.io/hostname"
  const MANAGED_LABEL := "tsuru.io/router-lb"
  const EXTERNAL_LABEL := "tsuru.io/external-controller"
  const POOL_LABEL := "tsuru.io/app-pool"
  const FREEZE_LABEL := "router.tsuru.io/freeze"

  // ----- ports -----

  /** The exposed port, 80 unless the option gives a number other than 0. */
  function ExposedPort(o: Opts): int {
    var n := Atoi(o.exposedPort);
    if n == 0 then 80 else n
  }

  function ExposesAll(o: Opts): bool {
    IsTrue(Lookup(o.additionalOpts, EXPOSE_ALL_PORTS))
  }

  function FirstPort(exposed: int, base: ServicePort): ServicePort {
    ServicePort(
      if base.name != "" then base.name + "-extra" else "port-" + Decimal(exposed),
      base.protocol, None, Int32(exposed), base.targetPort, 0)
  }

  function DefaultPort(exposed: int): ServicePort {
    ServicePort("port-" + Decimal(exposed), "TCP", None, Int32(exposed), PortNumber(DEFAULT_SERVICE_PORT), 0)
  }

  /** The base ports with another number than the exposed one, without their NodePorts. */
  function OtherPorts(base: seq<ServicePort>, number: int): seq<ServicePort> {
    if base == [] then []
    else
      var p := base[|base| - 1];
      OtherPorts(base[..|base| - 1], number) + (if p.port == number then [] else [p.(nodePort := 0)])
  }

  /** The ports before NodePorts are carried over. */
  function WantedPorts(o: Opts, base: seq<ServicePort>): (r: seq<ServicePort>)
    ensures r != [] && r[0].port == Int32(ExposedPort(o))
  {
    var exposed := ExposedPort(o);
    if base == [] then [DefaultPort(exposed)]
    else [FirstPort(exposed, base[0])] + if ExposesAll(o) then OtherPorts(base, Int32(exposed)) else []
  }

  /** The NodePort of a port number in the Service as it is: the last such port counts. */
  function NodePortOf(existing: seq<ServicePort>, port: int): (r: Option<int>)
    ensures r.None? <==> forall i :: 0 <= i < |existing| ==> existing[i].port != port
  {
    if existing == [] then None
    else if existing[|existing| - 1].port == port then Some(existing[|existing| - 1].nodePort)
    else NodePortOf(existing[..|existing| - 1], port)
  }

  function Carry(existing: seq<ServicePort>, p: ServicePort): ServicePort {
    match NodePortOf(existing, p.port)
    case None => p
    case Some(n) => p.(nodePort := n)
  }

  /** portsForService. */
  function PortsFor(existing: seq<ServicePort>, o: Opts, base: seq<ServicePort>): (r: seq<ServicePort>)
    ensures |r| == |WantedPorts(o, base)|
    ensures forall i :: 0 <= i < |r| ==> r[i] == Carry(existing, WantedPorts(o, base)[i])
  {
    var wanted := WantedPorts(o, base);
    seq(|wanted|, i requires 0 <= i < |wanted| => Carry(existing, wanted[i]))
  }

  ghost predicate DistinctPorts(ports: seq<ServicePort>) {
    forall i, j :: 0 <= i < j < |ports| ==> ports[i].port != ports[j].port
  }

  /** The API server has given the ports NodePorts of its own choice. */
  ghost predicate Allocated(ports: seq<ServicePort>, seen: seq<ServicePort>) {
    |seen| == |ports| && forall i :: 0 <= i < |ports| ==> seen[i] == ports[i].(nodePort := seen[i].nodePort)
  }

  /** The NodePort found for a number is that of its last port. */
  lemma {:induction false} LastPortCounts(ports: seq<ServicePort>, i: nat)
    requires i < |ports| && forall j :: i < j < |ports| ==> ports[j].port != ports[i].port
    ensures NodePortOf(ports, ports[i].port) == Some(ports[i].nodePort)
  {
    var n := |ports| - 1;
    if i < n { LastPortCounts(ports[..n], i); }
  }

  /** Feeding the result back, with the NodePorts the server chose, is the identity. */
  lemma Fixpoint(existing: seq<ServicePort>, o: Opts, base: seq<ServicePort>, seen: seq<ServicePort>)
    requires Allocated(PortsFor(existing, o, base), seen) && DistinctPorts(WantedPorts(o, base))
    ensures PortsFor(seen, o, base) == seen
  {
    hide WantedPorts, NodePortOf;
    var wanted := WantedPorts(o, base);
    forall i | 0 <= i < |seen| ensures Carry(seen, wanted[i]) == seen[i] {
      assert seen[i].port == wanted[i].port;
      forall j | i < j < |seen| ensures seen[j].port != seen[i].port {
        assert seen[j].port == wanted[j].port;
      }
      LastPortCounts(seen, i);
    }
  }

  /** When two ports share a number, the server only has to number them differently to break the fixpoint. */
  lemma SharedNumberBreaks(existing: seq<ServicePort>, o: Opts, base: seq<ServicePort>, i: nat, j: nat)
    returns (seen: seq<ServicePort>)
    requires i < j < |WantedPorts(o, base)| && WantedPorts(o, base)[i].port == WantedPorts(o, base)[j].port
    ensures Allocated(PortsFor(existing, o, base), seen) && PortsFor(seen, o, base) != seen
  {
    hide WantedPorts, NodePortOf;
    var r := PortsFor(existing, o, base);
    seen := seq(|r|, k requires 0 <= k < |r| => r[k].(nodePort := k));
    assert seen[i].port == seen[j].port == WantedPorts(o, base)[i].port;
    assert Carry(seen, WantedPorts(o, base)[i]).nodePort == Carry(seen, WantedPorts(o, base)[j]).nodePort;
    assert seen[i].nodePort != seen[j].nodePort;
  }

  /** The exact condition for the fixpoint, whatever NodePorts the server hands out. */
  lemma FixpointExactly(existing: seq<ServicePort>, o: Opts, base: seq<ServicePort>)
    ensures (forall seen :: Allocated(PortsFor(existing, o, base), seen) ==> PortsFor(seen, o, base) == seen)
       <==> DistinctPorts(WantedPorts(o, base))
  {
    hide WantedPorts, PortsFor, Allocated;
    var wanted := WantedPorts(o, base);
    if DistinctPorts(wanted) {
      forall seen | Allocated(PortsFor(existing, o, base), seen) ensures PortsFor(seen, o, base) == seen {
        Fixpoint(existing, o, base, seen);
      }
    } else {
      var i, j :| 0 <= i < j < |wanted| && wanted[i].port == wanted[j].port;
      var seen := SharedNumberBreaks(existing, o, base, i, j);
    }
  }

  /** Which base ports are exposed as they are, and that nothing else is. */
  lemma {:induction false} OtherPortsExactly(base: seq<ServicePort>, number: int)
    ensures forall i :: 0 <= i < |base| && base[i].port != number ==>
      base[i].(nodePort := 0) in OtherPorts(base, number)
    ensures forall p :: p in OtherPorts(base, number) ==>
      p.port != number && exists i :: 0 <= i < |base| && p == base[i].(nodePort := 0)
  {
    if base != [] {
      var n := |base| - 1;
      OtherPortsExactly(base[..n], number);
      forall p | p in OtherPorts(base, number)
        ensures p.port != number && exists i :: 0 <= i < |base| && p == base[i].(nodePort := 0)
      {
        if p in OtherPorts(base[..n], number) {
          var i :| 0 <= i < n && p == base[..n][i].(nodePort := 0);
          assert base[i] == base[..n][i];
        } else {
          assert p == base[n].(nodePort := 0);
        }
      }
      forall i | 0 <= i < |base| && base[i].port != number ensures base[i].(nodePort := 0) in OtherPorts(base, number) {
        if i < n { assert base[..n][i] == base[i]; }
      }
    }
  }

  /** They come in the order of the base ports. */
  lemma {:induction false} OtherPortsInOrder(a: seq<ServicePort>, b: seq<ServicePort>, number: int)
    ensures OtherPorts(a + b, number) == OtherPorts(a, number) + OtherPorts(b, number)
  {
    if b == [] {
      assert a + b == a;
    } else {
      assert (a + b)[..|a + b| - 1] == a + b[..|b| - 1];
      OtherPortsInOrder(a, b[..|b| - 1], number);
    }
  }

  /** The base ports other than the exposed one have distinct numbers. */
  ghost predicate DistinctOthers(base: seq<ServicePort>, number: int) {
    forall i, j :: 0 <= i < j < |base| && base[i].port != number ==> base[i].port != base[j].port
  }

  /** No port but those numbered number is numbered like p. */
  ghost predicate Unlike(ports: seq<ServicePort>, number: int, p: ServicePort) {
    forall i :: 0 <= i < |ports| && ports[i].port != number ==> ports[i].port != p.port
  }

  lemma DistinctOthersLast(init: seq<ServicePort>, p: ServicePort, number: int)
    ensures DistinctOthers(init + [p], number) <==> DistinctOthers(init, number) && Unlike(init, number, p)
  {
    var base := init + [p];
    assert forall i :: 0 <= i < |init| ==> base[i] == init[i];
    if DistinctOthers(base, number) {
      assert Unlike(init, number, p) by {
        forall i | 0 <= i < |init| && init[i].port != number
          ensures init[i].port != p.port
        {
          assert base[i].port != base[|init|].port;
        }
      }
    }
  }

  lemma UnlikeOthers(base: seq<ServicePort>, number: int, p: ServicePort)
    ensures Unlike(OtherPorts(base, number), number, p) <==> Unlike(base, number, p)
  {
    hide OtherPorts;
    var others := OtherPorts(base, number);
    OtherPortsExactly(base, number);
    if Unlike(others, number, p) {
      forall i | 0 <= i < |base| && base[i].port != number ensures base[i].port != p.port {
        var k :| 0 <= k < |others| && others[k] == base[i].(nodePort := 0);
      }
    }
    if Unlike(base, number, p) {
      forall k | 0 <= k < |others| && others[k].port != number ensures others[k].port != p.port {
        assert others[k] in others;
      }
    }
  }

  lemma SnocDistinct(ports: seq<ServicePort>, p: ServicePort)
    ensures DistinctPorts(ports + [p])
       <==> DistinctPorts(ports) && forall k :: 0 <= k < |ports| ==> ports[k].port != p.port
  {
    var r := ports + [p];
    assert forall k :: 0 <= k < |ports| ==> r[k] == ports[k];
    if DistinctPorts(r) {
      forall k | 0 <= k < |ports| ensures ports[k].port != p.port { assert r[k].port != r[|ports|].port; }
    }
  }

  lemma ConsDistinct(p: ServicePort, ports: seq<ServicePort>)
    requires forall k :: 0 <= k < |ports| ==> ports[k].port != p.port
    ensures DistinctPorts([p] + ports) <==> DistinctPorts(ports)
  {
    var r := [p] + ports;
    assert forall k :: 0 <= k < |ports| ==> r[k + 1] == ports[k];
    if DistinctPorts(r) {
      forall i, j | 0 <= i < j < |ports|
        ensures ports[i].port != ports[j].port
      {
        assert r[i + 1].port != r[j + 1].port;
      }
    }
  }

  lemma OthersNumbered(base: seq<ServicePort>, number: int)
    ensures forall k :: 0 <= k < |OtherPorts(base, number)| ==> OtherPorts(base, number)[k].port != number
  {
    hide OtherPorts;
    OtherPortsExactly(base, number);
    assert forall k :: 0 <= k < |OtherPorts(base, number)| ==> OtherPorts(base, number)[k] in OtherPorts(base, number);
  }

  lemma {:induction false} OthersDistinctExactly(base: seq<ServicePort>, number: int)
    ensures DistinctPorts(OtherPorts(base, number)) <==> DistinctOthers(base, number)
  {
    hide DistinctPorts, DistinctOthers;
    if base == [] {
      assert DistinctPorts([]) by { NoPortsDistinct(number); }
      assert DistinctOthers(base, number) by { NoPortsDistinct(number); }
    } else {
      var n := |base| - 1;
      var init, p := base[..n], base[n];
      assert base == init + [p];
      OthersDistinctExactly(init, number);
      var others := OtherPorts(init, number);
      DistinctOthersLast(init, p, number);
      if p.port == number {
        assert OtherPorts(base, number) == others;
      } else {
        assert OtherPorts(base, number) == others + [p.(nodePort := 0)];
        UnlikeOthers(init, number, p);
        OthersNumbered(init, number);
        SnocDistinct(others, p.(nodePort := 0));
        assert Unlike(others, number, p) <==> forall k :: 0 <= k < |others| ==> others[k].port != p.port;
      }
    }
  }

  lemma NoPortsDistinct(number: int)
    ensures DistinctPorts([]) && DistinctOthers([], number)
  {
  }

  /**
    Port numbers clash exactly when all ports are exposed and the web service repeats a number, say for TCP and for
    UDP.
   */
  lemma DistinctExactly(o: Opts, base: seq<ServicePort>)
    ensures DistinctPorts(WantedPorts(o, base)) <==> !ExposesAll(o) || DistinctOthers(base, Int32(ExposedPort(o)))
  {
    hide ExposesAll, ExposedPort, Int32, Decimal, OtherPorts;
    if base != [] && ExposesAll(o) {
      hide DistinctPorts, DistinctOthers;
      var exposed := ExposedPort(o);
      OthersDistinctExactly(base, Int32(exposed));
      OthersNumbered(base, Int32(exposed));
      ConsDistinct(FirstPort(exposed, base[0]), OtherPorts(base, Int32(exposed)));
    }
  }

  /** The list starts with the exposed port, and covers every base port when all are exposed. */
  lemma PortsCover(existing: seq<ServicePort>, o: Opts, base: seq<ServicePort>)
    ensures var r := PortsFor(existing, o, base);
      && r != [] && r[0].port == Int32(ExposedPort(o))
      && (!ExposesAll(o) ==> |r| == 1)
      && (ExposesAll(o) ==> forall b :: b in base ==> exists i :: 0 <= i < |r| && r[i].port == b.port)
  {
    hide ExposesAll, ExposedPort, FirstPort, Int32, Decimal, DefaultPort, NodePortOf, OtherPorts;
    var r, wanted, number := PortsFor(existing, o, base), WantedPorts(o, base), Int32(ExposedPort(o));
    forall b | ExposesAll(o) && b in base ensures exists i :: 0 <= i < |r| && r[i].port == b.port {
      if b.port == number {
        assert r[0].port == b.port;
      } else {
        OtherPortsExactly(base, number);
        var others := OtherPorts(base, number);
        var k :| 0 <= k < |others| && others[k] == b.(nodePort := 0);
        assert wanted[k + 1] == others[k] && r[k + 1].port == b.port;
      }
    }
  }

  /** n is the exposed port: the number the option gives, or 80 when that is 0 or no number. */
  ghost predicate Exposes(o: Opts, n: int) {
    (Atoi(o.exposedPort) != 0 ==> n == Atoi(o.exposedPort)) && (Atoi(o.exposedPort) == 0 ==> n == 80)
  }

  /** The client asks for all ports. */
  ghost predicate AllAsked(o: Opts) {
    && "expose-all-ports" in o.additionalOpts
    && o.additionalOpts["expose-all-ports"] in {"1", "t", "T", "true", "TRUE", "True"}
  }

  lemma AllAskedMeans(o: Opts)
    ensures AllAsked(o) <==> ExposesAll(o)
  {
    WordsParse(Lookup(o.additionalOpts, EXPOSE_ALL_PORTS));
    hide IsTrue;
  }

  /**
    The first port p of the load balancer: it goes where the first base port goes, under a name made from that
    port's, and without base ports by TCP to 8888.
   */
  ghost predicate FirstPortReads(o: Opts, base: seq<ServicePort>, p: ServicePort) {
    exists n ::
      && Exposes(o, n) && p.port == Int32(n) && p.appProtocol == None
      && (base != [] ==>
           && p.protocol == base[0].protocol && p.targetPort == base[0].targetPort
           && (base[0].name != "" ==> p.name == base[0].name + "-extra")
           && (base[0].name == "" ==> p.name == "port-" + Decimal(n)))
      && (base == [] ==> p.protocol == "TCP" && p.targetPort == PortNumber(8888) && p.name == "port-" + Decimal(n))
  }

  /** Without all ports asked for, it is the only one. */
  lemma FirstPortWritten(existing: seq<ServicePort>, o: Opts, base: seq<ServicePort>)
    ensures var r := PortsFor(existing, o, base);
      && r != [] && FirstPortReads(o, base, r[0])
      && (!AllAsked(o) || base == [] ==> |r| == 1)
  {
    AllAskedMeans(o);
    hide Atoi, Int32, Decimal, ExposesAll, NodePortOf, OtherPorts, AllAsked;
    assert Exposes(o, ExposedPort(o));
  }

  /** Beyond the exposed port there are only base ports, unchanged but for the NodePort. */
  lemma OnlyBasePorts(existing: seq<ServicePort>, o: Opts, base: seq<ServicePort>, k: nat)
    requires 0 < k < |PortsFor(existing, o, base)|
    ensures exists b ::
      && b in base
      && PortsFor(existing, o, base)[k] == b.(nodePort := PortsFor(existing, o, base)[k].nodePort)
  {
    hide ExposesAll, ExposedPort, FirstPort, Int32, Decimal, DefaultPort, NodePortOf, OtherPorts;
    var others := OtherPorts(base, Int32(ExposedPort(o)));
    OtherPortsExactly(base, Int32(ExposedPort(o)));
    var wanted := WantedPorts(o, base);
    assert wanted[k] == others[k - 1] && others[k - 1] in others;
    var i :| 0 <= i < |base| && wanted[k] == base[i].(nodePort := 0);
    assert base[i] in base;
  }

  /** A port number that stays keeps its NodePort, a new one has none. */
  lemma NodePortsKept(existing: seq<ServicePort>, o: Opts, base: seq<ServicePort>, k: nat)
    requires DistinctPorts(existing) && k < |PortsFor(existing, o, base)|
    ensures var p := PortsFor(existing, o, base)[k];
      && (forall e :: e in existing && e.port == p.port ==> p.nodePort == e.nodePort)
      && ((forall e :: e in existing ==> e.port != p.port) ==> p.nodePort == 0)
  {
    hide Int32, Decimal, ExposesAll, ExposedPort;
    var wanted := WantedPorts(o, base);
    var p := PortsFor(existing, o, base)[k];
    assert wanted[k].nodePort == 0 by {
      if k > 0 {
        OtherPortsExactly(base, Int32(ExposedPort(o)));
        assert wanted[k] in OtherPorts(base, Int32(ExposedPort(o)));
      }
    }
    forall e | e in existing && e.port == p.port ensures p.nodePort == e.nodePort {
      var i :| 0 <= i < |existing| && existing[i] == e;
      LastPortCounts(existing, i);
    }
  }

  // ----- labels and annotations -----

  datatype Config = Config(
    optsAsLabels: map<string, string>,
    poolLabels: map<string, map<string, string>>,
    labels: map<string, string>,
    annotations: map<string, string>,
    encode: Opts -> string,
    digest: Digest)

  datatype Request = Request(cfg: Config, id: InstanceID, o: EnsureOpts, target: BackendTarget, web: Service)

  /** The options the router itself documents, besides those that become labels. */
  predicate Registered(cfg: Config, option: string) {
    option == EXPOSED_PORT || option == EXPOSE_ALL_PORTS || option in cfg.optsAsLabels
  }

  function LabelRule(cfg: Config): Options.Rule {
    (option: string, value: string) =>
      if option in cfg.optsAsLabels then Options.Put(cfg.optsAsLabels[option], value) else Options.Skip
  }

  /** Option names cannot always hold a dot, so a prefixed name writes it as a colon. */
  function TargetOf(option: string): string {
    if HasPrefix(option, ANNOTATION_PREFIX) then ReplaceAll(option[|ANNOTATION_PREFIX|..], ':', ".") else option
  }

  function AnnotationEffect(option: string, value: string): Options.Effect {
    var name := TargetOf(option);
    if HasSuffix(name, '-') then Options.Erase(name[..|name| - 1])
    else if value == "" then Options.Erase(name)
    else Options.Put(name, value)
  }

  function AnnotationRule(cfg: Config): Options.Rule {
    (option: string, value: string) => if Registered(cfg, option) then Options.Skip else AnnotationEffect(option, value)
  }

  /** Neither the labels nor the annotations depend on the order the options are visited in. */
  ghost predicate Clear(q: Request) {
    && Options.Unambiguous(q.o.opts.additionalOpts, LabelRule(q.cfg))
    && Options.Unambiguous(q.o.opts.additionalOpts, AnnotationRule(q.cfg))
  }

  function VHost(id: InstanceID, o: Opts): string {
    if o.domain != "" then o.domain
    else if o.domainSuffix == "" then ""
    else if o.domainPrefix == "" then id.appName + "." + o.domainSuffix
    else o.domainPrefix + "." + id.appName + "." + o.domainSuffix
  }

  /** mergeMaps: later maps win. */
  function Merged(entries: seq<map<string, string>>): map<string, string> {
    if entries == [] then map[] else Merged(entries[..|entries| - 1]) + entries[|entries| - 1]
  }

  lemma SumAssociative(a: map<string, string>, b: map<string, string>, c: map<string, string>)
    ensures (a + b) + c == a + (b + c)
  {
  }

  lemma {:induction false} MergedOnto(m: map<string, string>, entries: seq<map<string, string>>)
    ensures Merged([m] + entries) == m + Merged(entries)
  {
    var all := [m] + entries;
    if entries == [] {
      assert all[..0] == [];
      assert map[] + m == m == m + map[];
    } else {
      var init, last := entries[..|entries| - 1], entries[|entries| - 1];
      assert all[..|all| - 1] == [m] + init;
      MergedOnto(m, init);
      SumAssociative(m, Merged(init), last);
    }
  }

  function PoolLabels(q: Request): map<string, string> {
    if q.o.opts.pool in q.cfg.poolLabels then q.cfg.poolLabels[q.o.opts.pool] else map[]
  }

  function StandardLabels(q: Request): map<string, string> {
    var labels :=
      map[APP_LABEL := q.id.appName, MANAGED_LABEL := "true", EXTERNAL_LABEL := "true", POOL_LABEL := q.o.opts.pool];
    if q.o.team != "" then labels[TEAM_LABEL := q.o.team] else labels
  }

  function BaseLabels(q: Request): map<string, string> {
    map[BASE_NAMESPACE_LABEL := q.target.ns, BASE_NAME_LABEL := q.target.service]
  }

  /** What Ensure lays over the labels the Service has. */
  function LabelLayers(q: Request, optsLabels: map<string, string>): seq<map<string, string>> {
    [PoolLabels(q), optsLabels, q.cfg.labels, StandardLabels(q), q.web.labels, BaseLabels(q)]
  }

  function DefaultAnnotations(q: Request): map<string, string> {
    Merged([q.cfg.annotations, map[OPTS_ANNOTATION := q.cfg.encode(q.o.opts)]])
  }

  function WithVHost(q: Request, annotations: map<string, string>): map<string, string> {
    if VHost(q.id, q.o.opts) != "" then annotations[DNS_ANNOTATION := VHost(q.id, q.o.opts)] else annotations
  }

  function LabelsIn(q: Request, order: seq<string>): map<string, string>
    requires forall o :: o in order ==> o in q.o.opts.additionalOpts
  {
    Merged(LabelLayers(q, Options.Run(map[], q.o.opts.additionalOpts, order, LabelRule(q.cfg))))
  }

  function AnnotationsIn(q: Request, order: seq<string>): map<string, string>
    requires forall o :: o in order ==> o in q.o.opts.additionalOpts
  {
    WithVHost(q, Options.Run(DefaultAnnotations(q), q.o.opts.additionalOpts, order, AnnotationRule(q.cfg)))
      + q.web.annotations
  }

  /** The labels and annotations of a request whose options agree. */
  ghost function ClearLabels(q: Request): map<string, string> {
    Merged(LabelLayers(q, Options.Settle(map[], q.o.opts.additionalOpts, LabelRule(q.cfg))))
  }

  ghost function ClearAnnotations(q: Request): map<string, string> {
    WithVHost(q, Options.Settle(DefaultAnnotations(q), q.o.opts.additionalOpts, AnnotationRule(q.cfg)))
      + q.web.annotations
  }

  /** Options that agree leave one possible outcome. */
  lemma OrderFree(q: Request, order: seq<string>)
    requires Clear(q) && Options.Visits(order, q.o.opts.additionalOpts)
    ensures LabelsIn(q, order) == ClearLabels(q) && AnnotationsIn(q, order) == ClearAnnotations(q)
  {
    hide Options.Run, Options.Settle, LabelLayers, WithVHost, DefaultAnnotations, Merged;
    Options.RunIsSettle(map[], q.o.opts.additionalOpts, order, LabelRule(q.cfg));
    Options.RunIsSettle(DefaultAnnotations(q), q.o.opts.additionalOpts, order, AnnotationRule(q.cfg));
  }

  /** The option is about this annotation: its own name, or behind the prefix, with dots for its colons. */
  ghost predicate About(option: string, name: string) {
    if "svc-annotation-" <= option then
      var rest := option[|"svc-annotation-"|..];
      |name| == |rest| && forall i :: 0 <= i < |rest| ==> name[i] == if rest[i] == ':' then '.' else rest[i]
    else name == option
  }

  /** The option is for the router alone, or becomes a label. */
  ghost predicate NoAnnotation(q: Request, option: string) {
    option == "exposed-port" || option == "expose-all-ports" || option in q.cfg.optsAsLabels
  }

  /** The option deletes annotation k: by a trailing dash, or by an empty value. */
  ghost predicate Erases(q: Request, option: string, k: string)
    requires option in q.o.opts.additionalOpts
  {
    !NoAnnotation(q, option)
      && (About(option, k + "-")
          || (q.o.opts.additionalOpts[option] == "" && About(option, k) && !(k != "" && k[|k| - 1] == '-')))
  }

  ghost predicate Sets(q: Request, option: string, k: string)
    requires option in q.o.opts.additionalOpts
  {
    && !NoAnnotation(q, option) && q.o.opts.additionalOpts[option] != ""
    && About(option, k) && !(k != "" && k[|k| - 1] == '-')
  }

  lemma AboutMeans(option: string, name: string)
    ensures About(option, name) <==> name == TargetOf(option)
  {
    if "svc-annotation-" <= option { ReplaceAllEach(option[|"svc-annotation-"|..], ':', '.'); }
  }

  lemma EndsWith(k: string)
    ensures HasSuffix(k, '-') <==> k != "" && k[|k| - 1] == '-'
  {
  }

  lemma EffectMeans(q: Request, option: string, k: string)
    requires option in q.o.opts.additionalOpts
    ensures var v := q.o.opts.additionalOpts[option]; var e := AnnotationRule(q.cfg)(option, v);
      && (Erases(q, option, k) <==> e == Options.Erase(k))
      && (Sets(q, option, k) <==> e == Options.Put(k, v))
      && (e.Put? ==> e.value == v)
  {
    hide About, TargetOf, HasSuffix;
    AboutMeans(option, k);
    AboutMeans(option, k + "-");
    SuffixIs(TargetOf(option), k, '-');
    EndsWith(k);
  }

  /** A host name is asked for. */
  ghost predicate HasHost(o: Opts) { o.domain != "" || o.domainSuffix != "" }

  /** What the options make of one annotation, when they agree. */
  lemma OptionsDecide(q: Request, order: seq<string>, k: string)
    requires Options.Unambiguous(q.o.opts.additionalOpts, AnnotationRule(q.cfg))
    requires Options.Visits(order, q.o.opts.additionalOpts)
    ensures var opts := q.o.opts.additionalOpts; var base := DefaultAnnotations(q);
      var r := Options.Run(base, opts, order, AnnotationRule(q.cfg));
      && (forall o :: o in opts && Erases(q, o, k) ==> k !in r)
      && (forall o :: o in opts && Sets(q, o, k) ==> k in r && r[k] == opts[o])
      && ((forall o :: o in opts ==> !Erases(q, o, k) && !Sets(q, o, k)) ==>
           (k in r <==> k in base) && (k in r ==> r[k] == base[k]))
  {
    hide Options.Run, DefaultAnnotations, AnnotationRule, Erases, Sets;
    var opts, rule := q.o.opts.additionalOpts, AnnotationRule(q.cfg);
    Options.RunAt(DefaultAnnotations(q), opts, order, rule, k);
    forall o | o in opts
      ensures Erases(q, o, k) <==> rule(o, opts[o]) == Options.Erase(k)
      ensures Sets(q, o, k) <==> rule(o, opts[o]) == Options.Put(k, opts[o])
      ensures rule(o, opts[o]).Put? ==> rule(o, opts[o]).value == opts[o]
    {
      EffectMeans(q, o, k);
    }
    forall o | o in opts && (Erases(q, o, k) || Sets(q, o, k))
      ensures Options.EffectOn(opts, rule, k) == rule(o, opts[o])
    {
      var o' :|
        o' in opts && !rule(o', opts[o']).Skip? && rule(o', opts[o']).key == k
          && rule(o', opts[o']) == Options.EffectOn(opts, rule, k);
      assert Options.Clash(rule(o, opts[o]), rule(o', opts[o']));
    }
  }

  /**
    Where each annotation comes from: the web service first, then the host name, then the options, then the defaults.
   */
  ghost predicate AnnotationReads(q: Request, r: map<string, string>, k: string) {
    var opts := q.o.opts.additionalOpts;
    if k in q.web.annotations then k in r && r[k] == q.web.annotations[k]
    else if k == "external-dns.alpha.kubernetes.io/hostname" && HasHost(q.o.opts) then
      k in r && OwnHost(q.o.opts, q.id.appName, q.o.opts.domainSuffix, r[k])
    else
      && (forall o :: o in opts && Erases(q, o, k) ==> k !in r)
      && (forall o :: o in opts && Sets(q, o, k) ==> k in r && r[k] == opts[o])
      && ((forall o :: o in opts ==> !Erases(q, o, k) && !Sets(q, o, k)) ==>
           if k == "router.tsuru.io/opts" then k in r && r[k] == q.cfg.encode(q.o.opts)
           else (k in r <==> k in q.cfg.annotations) && (k in r ==> r[k] == q.cfg.annotations[k]))
  }

  lemma HostMeans(q: Request)
    ensures HasHost(q.o.opts) <==> VHost(q.id, q.o.opts) != ""
    ensures HasHost(q.o.opts) ==> OwnHost(q.o.opts, q.id.appName, q.o.opts.domainSuffix, VHost(q.id, q.o.opts))
  {
    var o := q.o.opts;
    assert o.domainPrefix + "." + (q.id.appName + "." + o.domainSuffix)
        == o.domainPrefix + "." + q.id.appName + "." + o.domainSuffix;
  }

  /** Merging one map more lays it over the others. */
  lemma MergedSnoc(entries: seq<map<string, string>>, last: map<string, string>)
    ensures Merged(entries + [last]) == Merged(entries) + last
  {
    assert (entries + [last])[..|entries|] == entries;
  }

  lemma MergedNothing()
    ensures Merged([]) == map[]
  {
  }

  lemma DefaultsMean(q: Request, k: string)
    ensures var d := DefaultAnnotations(q);
      if k == "router.tsuru.io/opts" then k in d && d[k] == q.cfg.encode(q.o.opts)
      else (k in d <==> k in q.cfg.annotations) && (k in d ==> d[k] == q.cfg.annotations[k])
  {
    hide Merged;
    var configured, options := q.cfg.annotations, map[OPTS_ANNOTATION := q.cfg.encode(q.o.opts)];
    assert [configured] == [] + [configured] && [configured, options] == [configured] + [options];
    MergedNothing();
    MergedSnoc([], configured);
    MergedSnoc([configured], options);
    assert map[] + configured == configured;
  }

  lemma AnnotationSource(q: Request, order: seq<string>, k: string)
    requires Clear(q) && Options.Visits(order, q.o.opts.additionalOpts)
    ensures AnnotationReads(q, AnnotationsIn(q, order), k)
  {
    assert k == DNS_ANNOTATION <==> k == "external-dns.alpha.kubernetes.io/hostname";
    hide Options.Run, DNS_ANNOTATION, DefaultAnnotations, VHost, Erases, Sets, AnnotationRule, Options.Unambiguous,
         HasHost, OwnHost;
    HostMeans(q);
    DefaultsMean(q, k);
    OptionsDecide(q, order, k);
  }

  lemma SixLayers(a: map<string, string>, b: map<string, string>, c: map<string, string>, d: map<string, string>,
                  e: map<string, string>, f: map<string, string>)
    ensures Merged([a, b, c, d, e, f]) == a + b + c + d + e + f
  {
    hide Merged;
    MergedNothing();
    assert [a] == [] + [a] && [a, b] == [a] + [b] && [a, b, c] == [a, b] + [c] && [a, b, c, d] == [a, b, c] + [d];
    assert [a, b, c, d, e] == [a, b, c, d] + [e] && [a, b, c, d, e, f] == [a, b, c, d, e] + [f];
    MergedSnoc([], a);
    MergedSnoc([a], b);
    MergedSnoc([a, b], c);
    MergedSnoc([a, b, c], d);
    MergedSnoc([a, b, c, d], e);
    MergedSnoc([a, b, c, d, e], f);
    assert map[] + a == a;
  }

  /** The option becomes label k. */
  ghost predicate Labels(q: Request, option: string, k: string) {
    option in q.o.opts.additionalOpts && option in q.cfg.optsAsLabels && q.cfg.optsAsLabels[option] == k
  }

  /**
    Where each label comes from: the backend first, then the web service, then the router's own labels, then its
    configuration, then the options, then the pool.
   */
  ghost predicate LabelReads(q: Request, r: map<string, string>, k: string) {
    if k == "router.tsuru.io/base-service-namespace" then k in r && r[k] == q.target.ns
    else if k == "router.tsuru.io/base-service-name" then k in r && r[k] == q.target.service
    else if k in q.web.labels then k in r && r[k] == q.web.labels[k]
    else if k == "tsuru.io/app-name" then k in r && r[k] == q.id.appName
    else if k == "tsuru.io/router-lb" || k == "tsuru.io/external-controller" then k in r && r[k] == "true"
    else if k == "tsuru.io/app-pool" then k in r && r[k] == q.o.opts.pool
    else if k == "tsuru.io/app-team" && q.o.team != "" then k in r && r[k] == q.o.team
    else if k in q.cfg.labels then k in r && r[k] == q.cfg.labels[k]
    else if exists o :: Labels(q, o, k) then
      k in r && forall o :: Labels(q, o, k) ==> r[k] == q.o.opts.additionalOpts[o]
    else if q.o.opts.pool in q.cfg.poolLabels && k in q.cfg.poolLabels[q.o.opts.pool] then
      k in r && r[k] == q.cfg.poolLabels[q.o.opts.pool][k]
    else k !in r
  }

  /** What the options make of one label, when they agree. */
  lemma LabelsDecide(q: Request, order: seq<string>, k: string)
    requires Options.Unambiguous(q.o.opts.additionalOpts, LabelRule(q.cfg))
    requires Options.Visits(order, q.o.opts.additionalOpts)
    ensures var r := Options.Run(map[], q.o.opts.additionalOpts, order, LabelRule(q.cfg));
      && (k in r <==> exists o :: Labels(q, o, k))
      && (forall o :: Labels(q, o, k) ==> r[k] == q.o.opts.additionalOpts[o])
  {
    hide Options.Run, Options.Settle, Options.Unambiguous;
    var opts, rule := q.o.opts.additionalOpts, LabelRule(q.cfg);
    Options.RunIsSettle(map[], opts, order, rule);
    Options.SettleAt(map[], opts, rule, k);
    forall o | o in opts
      ensures Labels(q, o, k) <==> rule(o, opts[o]) == Options.Put(k, opts[o])
      ensures rule(o, opts[o]).Skip? || rule(o, opts[o]) == Options.Put(rule(o, opts[o]).key, opts[o])
    {
    }
    hide LabelRule, Labels;
    if o :| Labels(q, o, k) && o in opts {
      assert rule(o, opts[o]) == Options.Put(k, opts[o]);
    }
  }

  lemma LabelSource(q: Request, order: seq<string>, k: string)
    requires Clear(q) && Options.Visits(order, q.o.opts.additionalOpts)
    ensures LabelReads(q, LabelsIn(q, order), k)
  {
    hide Options.Run, Merged, Options.Unambiguous, LabelRule, Labels, PoolLabels, StandardLabels, BaseLabels;
    var optsLabels := Options.Run(map[], q.o.opts.additionalOpts, order, LabelRule(q.cfg));
    SixLayers(PoolLabels(q), optsLabels, q.cfg.labels, StandardLabels(q), q.web.labels, BaseLabels(q));
    LabelsDecide(q, order, k);
    LayersRead(q, optsLabels, k);
  }

  lemma StandardAt(q: Request, k: string)
    ensures var r := StandardLabels(q);
      if k == "tsuru.io/app-name" then k in r && r[k] == q.id.appName
      else if k == "tsuru.io/router-lb" || k == "tsuru.io/external-controller" then k in r && r[k] == "true"
      else if k == "tsuru.io/app-pool" then k in r && r[k] == q.o.opts.pool
      else if k == "tsuru.io/app-team" && q.o.team != "" then k in r && r[k] == q.o.team
      else k !in r
  {
  }

  lemma BaseAt(q: Request, k: string)
    ensures var r := BaseLabels(q);
      if k == "router.tsuru.io/base-service-namespace" then k in r && r[k] == q.target.ns
      else if k == "router.tsuru.io/base-service-name" then k in r && r[k] == q.target.service
      else k !in r
  {
    assert |"router.tsuru.io/base-service-namespace"| == 38 && |"router.tsuru.io/base-service-name"| == 33;
  }

  lemma LayersRead(q: Request, optsLabels: map<string, string>, k: string)
    requires k in optsLabels <==> exists o :: Labels(q, o, k)
    requires forall o :: Labels(q, o, k) ==> k in optsLabels && optsLabels[k] == q.o.opts.additionalOpts[o]
    ensures var r := PoolLabels(q) + optsLabels + q.cfg.labels + StandardLabels(q) + q.web.labels + BaseLabels(q);
      LabelReads(q, r, k)
  {
    hide Labels, StandardLabels, BaseLabels;
    StandardAt(q, k);
    BaseAt(q, k);
  }

  // ----- the whole Service -----

  /** A Service of type LoadBalancer; rest stands for the parts of its spec the router never looks at. */
  datatype Balancer = Balancer(
    policy: string,
    selector: map<string, string>,
    ports: seq<ServicePort>,
    rest: string,
    labels: map<string, string>,
    annotations: map<string, string>)

  const FRESH := Balancer("", map[], [], "", map[], map[])

  /** isFrozenSvc. */
  predicate Frozen(b: Balancer) { IsTrue(Lookup(b.labels, FREEZE_LABEL)) }

  function PolicyFor(o: Opts, current: string): string {
    if o.externalTrafficPolicy == "Cluster" || o.externalTrafficPolicy == "Local" then o.externalTrafficPolicy
      else current
  }

  /** What Ensure makes of the Service it found, or of a fresh one. */
  function Desired(q: Request, b: Balancer, order: seq<string>): Balancer
    requires forall o :: o in order ==> o in q.o.opts.additionalOpts
  {
    Balancer(
      PolicyFor(q.o.opts, b.policy),
      q.web.selector,
      PortsFor(b.ports, q.o.opts, q.web.ports),
      b.rest,
      b.labels + LabelsIn(q, order),
      AnnotationsIn(q, order))
  }

  /** serviceHasChanges: the spec as a whole, then the annotations and labels the new object sets. */
  ghost predicate Changed(existing: Balancer, b: Balancer) {
    || existing.policy != b.policy || existing.selector != b.selector || existing.ports != b.ports
       || existing.rest != b.rest
    || (exists k :: k in b.annotations && Lookup(existing.annotations, k) != b.annotations[k])
    || (exists k :: k in b.labels && Lookup(existing.labels, k) != b.labels[k])
  }

  /** What a completed Ensure leaves stored. */
  ghost function Settled(q: Request, existing: Option<Balancer>, order: seq<string>): Balancer
    requires forall o :: o in order ==> o in q.o.opts.additionalOpts
  {
    match existing
    case None => Desired(q, FRESH, order)
    case Some(b) => if Frozen(b) || !Changed(b, Desired(q, b, order)) then b else Desired(q, b, order)
  }

  /** The API server stores the Service as written, but numbers its NodePorts and fills in what was left open. */
  ghost predicate ServedAs(b: Balancer, seen: Balancer) {
    && Allocated(b.ports, seen.ports)
    && (b.policy != "" ==> seen.policy == b.policy)
    && seen.selector == b.selector && seen.labels == b.labels && seen.annotations == b.annotations
  }

  lemma DesiredUnchanged(q: Request, b: Balancer, seen: Balancer, order: seq<string>, order': seq<string>)
    requires Clear(q) && Options.Visits(order, q.o.opts.additionalOpts)
    requires Options.Visits(order', q.o.opts.additionalOpts)
    requires DistinctPorts(WantedPorts(q.o.opts, q.web.ports))
    requires exists ports :: b.ports == PortsFor(ports, q.o.opts, q.web.ports)
    requires b.policy == PolicyFor(q.o.opts, b.policy) && b.selector == q.web.selector && ServedAs(b, seen)
    requires forall k :: k in AnnotationsIn(q, order) ==> Lookup(b.annotations, k) == AnnotationsIn(q, order)[k]
    requires forall k :: k in LabelsIn(q, order) ==> Lookup(b.labels, k) == LabelsIn(q, order)[k]
    ensures !Changed(seen, Desired(q, seen, order'))
  {
    hide LabelsIn, AnnotationsIn, PortsFor, WantedPorts, Clear, DistinctPorts, Allocated, Options.Visits, ClearLabels,
         ClearAnnotations;
    OrderFree(q, order);
    OrderFree(q, order');
    var ports :| b.ports == PortsFor(ports, q.o.opts, q.web.ports);
    Fixpoint(ports, q.o.opts, q.web.ports, seen.ports);
  }

  /** A second Ensure of the same request, after the server has numbered the NodePorts, finds nothing to write. */
  lemma SecondEnsureWritesNothing(q: Request, existing: Option<Balancer>, seen: Balancer, order: seq<string>,
                                  order': seq<string>)
    requires Clear(q) && Options.Visits(order, q.o.opts.additionalOpts)
    requires Options.Visits(order', q.o.opts.additionalOpts)
    requires DistinctPorts(WantedPorts(q.o.opts, q.web.ports))
    requires ServedAs(Settled(q, existing, order), seen)
    ensures Settled(q, Some(seen), order') == seen
  {
    assert forall o :: o in order + order' ==> o in q.o.opts.additionalOpts;
    hide LabelsIn, AnnotationsIn, PortsFor, WantedPorts, Clear, DistinctPorts, Allocated, Options.Visits, Frozen, FRESH;
    var b := Settled(q, existing, order);
    if !Frozen(seen) {
      var from := if existing.None? then FRESH else existing.value;
      assert Frozen(b) <==> Frozen(seen) by { SameFreeze(b, seen); }
      var d := Desired(q, from, order);
      assert b == d || !Changed(b, d);
      assert b.ports == PortsFor(from.ports, q.o.opts, q.web.ports);
      DesiredUnchanged(q, b, seen, order, order');
    }
  }

  lemma SameFreeze(a: Balancer, b: Balancer)
    requires a.labels == b.labels
    ensures Frozen(a) <==> Frozen(b)
  {
  }

  /** Frozen is what has the label with one of the words for true. */
  lemma FrozenMeans(b: Balancer)
    ensures Frozen(b) <==> "router.tsuru.io/freeze" in b.labels
                           && b.labels["router.tsuru.io/freeze"] in {"1", "t", "T", "true", "TRUE", "True"}
  {
    WordsParse(Lookup(b.labels, FREEZE_LABEL));
    hide IsTrue;
  }

  /**
    Whatever was stored before, an unfrozen Service ends with the wanted ports, labels and annotations: the first
    port goes where the web service's first port goes, the traffic policy is the one asked for when that is one,
    other labels stay, and other annotations stay only when nothing was written.
   */
  lemma SettledServes(q: Request, existing: Option<Balancer>, order: seq<string>)
    requires Options.Visits(order, q.o.opts.additionalOpts)
    requires existing.Some? ==> !Frozen(existing.value)
    ensures var b := Settled(q, existing, order); var was := if existing.None? then FRESH else existing.value;
      && b.ports == PortsFor(was.ports, q.o.opts, q.web.ports) && b.selector == q.web.selector && b.rest == was.rest
      && (forall k :: k in AnnotationsIn(q, order) ==> Lookup(b.annotations, k) == AnnotationsIn(q, order)[k])
      && (forall k :: k in LabelsIn(q, order) ==> Lookup(b.labels, k) == LabelsIn(q, order)[k])
      && (forall k :: k !in LabelsIn(q, order) ==>
            (k in b.labels <==> k in was.labels) && (k in b.labels ==> b.labels[k] == was.labels[k]))
      && (existing != Some(b) ==> b.annotations == AnnotationsIn(q, order))
      && b.policy == (if q.o.opts.externalTrafficPolicy in {"Cluster", "Local"} then q.o.opts.externalTrafficPolicy
                      else was.policy)
    ensures var ports := Settled(q, existing, order).ports;
      ports != [] && FirstPortReads(q.o.opts, q.web.ports, ports[0])
  {
    hide LabelsIn, AnnotationsIn, PortsFor, Frozen, FirstPortReads, FRESH;
    var was := if existing.None? then FRESH else existing.value;
    var d := Desired(q, was, order);
    assert forall k :: k in LabelsIn(q, order) ==> k in d.labels && d.labels[k] == LabelsIn(q, order)[k];
    FirstPortWritten(was.ports, q.o.opts, q.web.ports);
  }

  lemma SettledPorts(q: Request, existing: Option<Balancer>, order: seq<string>)
    requires Options.Visits(order, q.o.opts.additionalOpts)
    requires existing.Some? ==> !Frozen(existing.value)
    ensures Settled(q, existing, order).ports
         == PortsFor((if existing.None? then FRESH else existing.value).ports, q.o.opts, q.web.ports)
  {
    hide LabelsIn, AnnotationsIn, PortsFor, Frozen, FRESH;
  }

  /** NodePorts that are not given back as they are make a second Ensure write. */
  lemma BreaksSettling(q: Request, b: Balancer, ports: seq<ServicePort>, order: seq<string>)
    requires !Frozen(b) && Allocated(b.ports, ports) && PortsFor(ports, q.o.opts, q.web.ports) != ports
    requires Options.Visits(order, q.o.opts.additionalOpts)
    ensures var seen := b.(ports := ports); ServedAs(b, seen) && Settled(q, Some(seen), order) != seen
  {
    hide LabelsIn, AnnotationsIn, PortsFor, Frozen, FRESH;
    var seen := b.(ports := ports);
    SameFreeze(b, seen);
    assert Desired(q, seen, order).ports != seen.ports;
  }

  /** The exact condition for a second Ensure to write nothing, whatever NodePorts the server hands out. */
  lemma SecondEnsureExactly(q: Request, existing: Option<Balancer>, order: seq<string>, order': seq<string>)
    requires Clear(q) && Options.Visits(order, q.o.opts.additionalOpts)
    requires Options.Visits(order', q.o.opts.additionalOpts)
    requires !Frozen(Settled(q, existing, order)) && (existing.Some? ==> !Frozen(existing.value))
    ensures (forall seen :: ServedAs(Settled(q, existing, order), seen) ==> Settled(q, Some(seen), order') == seen)
       <==> !ExposesAll(q.o.opts) || DistinctOthers(q.web.ports, Int32(ExposedPort(q.o.opts)))
  {
    hide LabelsIn, AnnotationsIn, PortsFor, WantedPorts, Clear, Frozen, ExposesAll, ExposedPort, Int32,
         DistinctOthers, FirstPortReads;
    var o, base := q.o.opts, q.web.ports;
    var was := (if existing.None? then FRESH else existing.value).ports;
    hide FRESH;
    var b := Settled(q, existing, order);
    DistinctExactly(o, base);
    if DistinctPorts(WantedPorts(o, base)) {
      forall seen | ServedAs(b, seen) ensures Settled(q, Some(seen), order') == seen {
        SecondEnsureWritesNothing(q, existing, seen, order, order');
      }
    } else {
      SettledPorts(q, existing, order);
      var wanted := WantedPorts(o, base);
      var i, j :| 0 <= i < j < |wanted| && wanted[i].port == wanted[j].port;
      var ports := SharedNumberBreaks(was, o, base, i, j);
      BreaksSettling(q, b, ports, order');
    }
  }
}

/** What an Istio Ensure writes, in the terms of the request, as it is spelled in the store. */
module IstioObjects {
  import opened Router
  import opened Strings
  import opened Resources
  import opened IstioHosts
  import opened IstioCluster
  import opened IstioRouter

  /** The name of the id's VirtualService. */
  predicate VirtualServiceNamed(q: Request, name: string) {
    Named(q.cfg.digest, q.id, q.id.appName, 63, name)
  }

  /** h is the id's own host: the app under the suffix, and for an instance the instance's name in front of that. */
  ghost predicate OwnHostIs(q: Request, h: string) {
    exists host ::
      && host == q.id.appName + "." + q.cfg.domainSuffix
      && (q.id.instanceName == "" ==> h == host)
      && (q.id.instanceName != "" ==> h == q.id.instanceName + ".instance." + host)
  }

  lemma OwnHostMeans(q: Request, h: string)
    ensures OwnHostIs(q, h) <==> h == GatewayHost(q.cfg, q.id)
  {
    var host := q.id.appName + "." + q.cfg.domainSuffix;
    assert q.id.instanceName + ".instance." + q.id.appName + "." + q.cfg.domainSuffix
        == q.id.instanceName + ".instance." + host;
  }

  /** Annotation k as the editing finds it: an option goes before the configuration, and both before what is stored. */
  ghost predicate Found(q: Request, stored: map<string, string>, k: string, value: string) {
    if k in q.o.opts.additionalOpts then value == q.o.opts.additionalOpts[k]
    else if k in q.cfg.annotations then value == q.cfg.annotations[k]
    else value == Lookup(stored, k)
  }

  /** h is one of the CNames that the record lists. */
  ghost predicate Lists(record: string, h: string) { record != "" && h in Split(record, ',') }

  /**
    The hosts after an Ensure: the id's own host is listed, and so is the service, unless it was recorded as a CName
    and no longer is one.
   */
  lemma OwnHostListedExactly(q: Request, service: Service, st: Store, after: Store, name: string, record: string,
                             h: string)
    requires Ensured(q, service, st, after) && VirtualServiceNamed(q, name)
    requires Found(q, Before(st, name).annotations, "tsuru.io/additional-hosts", record)
    requires Tidy(record) && Nameable(q.o.cnames) && (OwnHostIs(q, h) || h == service.name)
    ensures name in after.virtualServices
    ensures h in after.virtualServices[name].hosts <==> !(Lists(record, h) && h !in q.o.cnames)
  {
    hide GatewayHost, EnsureHosts, Tidy, Nameable, OwnHostIs, Ensured, Found, VirtualServiceNamed, Before;
    OwnHostMeans(q, h);
    HostsAre(q, service, st, after, name, record);
    var s := HostState(Before(st, name).hosts, record);
    TargetKeptExactly(s, GatewayHost(q.cfg, q.id), service.name, q.o.cnames, h);
  }

  /** The hosts and the record are those of the host algebra. */
  lemma HostsAre(q: Request, service: Service, st: Store, after: Store, name: string, record: string)
    requires Ensured(q, service, st, after) && VirtualServiceNamed(q, name)
    requires Found(q, Before(st, name).annotations, "tsuru.io/additional-hosts", record)
    ensures name in after.virtualServices
    ensures var v, s := after.virtualServices[name], HostState(Before(st, name).hosts, record);
      var r := EnsureHosts(s, GatewayHost(q.cfg, q.id), service.name, q.o.cnames);
      v.hosts == r.hosts && Lookup(v.annotations, "tsuru.io/additional-hosts") == r.record
  {
    HashedNameIs(q.cfg.digest, q.id, q.id.appName, 63, name);
    assert name == ResourceName(q.cfg, q.id);
    hide ResourceName, GatewayHost, EnsureHosts, FRESH, FirstDefault, Named, Found, Written, Before, HOSTS_ANNOTATION,
         MetaAnnotations;
    FoundMeans(q, Before(st, name).annotations, record);
    HostsKept(q, FirstDefault(q.o.prefixes).value, service, Before(st, name), after.virtualServices[name]);
  }

  lemma FoundMeans(q: Request, stored: map<string, string>, record: string)
    ensures HOSTS_ANNOTATION == "tsuru.io/additional-hosts"
    ensures Found(q, stored, "tsuru.io/additional-hosts", record) <==>
      record == Lookup(MetaAnnotations(q, stored), HOSTS_ANNOTATION)
  {
  }

  lemma HostsKept(q: Request, target: BackendTarget, service: Service, before: Stored, v: Stored)
    requires Written(q, target, service, before, v)
    ensures HostsOf(v) == WrittenHosts(q, service, before)
  {
  }

  /** The record already lists the requested CNames, and no others. */
  ghost predicate SameList(q: Request, record: string) {
    forall c :: Lists(record, c) <==> c in q.o.cnames
  }

  /** A host that is there for another reason than a CName. */
  ghost predicate Listable(q: Request, service: Service, hosts: seq<string>, h: string) {
    h in hosts || OwnHostIs(q, h) || h == service.name
  }

  /**
    The whole host list, and the record. When the record does not change, hosts are only added; otherwise every
    recorded host goes and the requested CNames come.
   */
  lemma HostsWritten(q: Request, service: Service, st: Store, after: Store, name: string, record: string, h: string)
    requires Ensured(q, service, st, after) && VirtualServiceNamed(q, name)
    requires Found(q, Before(st, name).annotations, "tsuru.io/additional-hosts", record)
    requires Tidy(record) && Nameable(q.o.cnames)
    ensures name in after.virtualServices
    ensures var v, hosts := after.virtualServices[name], Before(st, name).hosts;
      && (SameList(q, record) ==> (h in v.hosts <==> Listable(q, service, hosts, h)))
      && (!SameList(q, record) ==>
           (h in v.hosts <==> h in q.o.cnames || (Listable(q, service, hosts, h) && !Lists(record, h))))
      && (Lists(Lookup(v.annotations, "tsuru.io/additional-hosts"), h) <==> h in q.o.cnames)
  {
    hide GatewayHost, EnsureHosts, Tidy, Nameable, OwnHostIs, Ensured, Found, VirtualServiceNamed, Before, SameList,
         Overlooked, ManagedSet, HostSet, WantedHosts, Lists;
    OwnHostMeans(q, h);
    HostsAre(q, service, st, after, name, record);
    var s, host := HostState(Before(st, name).hosts, record), GatewayHost(q.cfg, q.id);
    EnsureHostsExactly(s, host, service.name, q.o.cnames);
    EnsureManages(s, host, service.name, q.o.cnames);
    var r := EnsureHosts(s, host, service.name, q.o.cnames);
    SetsMean(q, s, host, service.name, r, h);
  }

  /** The host sets, member by member. */
  lemma SetsMean(q: Request, s: HostState, host: string, dst: string, r: HostState, h: string)
    requires ManagedSet(r) == Elements(q.o.cnames)
    requires HostSet(r) == WantedHosts(s, host, dst, q.o.cnames) <==> !Overlooked(s, host, dst, q.o.cnames)
    requires Overlooked(s, host, dst, q.o.cnames) ==> HostSet(r) == HostSet(s) + {host, dst}
    ensures var there := h in s.hosts || h == host || h == dst;
      && (SameList(q, s.record) ==> (h in r.hosts <==> there))
      && (!SameList(q, s.record) ==> (h in r.hosts <==> h in q.o.cnames || (there && !Lists(s.record, h))))
      && (Lists(r.record, h) <==> h in q.o.cnames)
  {
    assert forall x :: (x in ManagedSet(s) <==> Lists(s.record, x)) && (x in ManagedSet(r) <==> Lists(r.record, x));
    assert forall x :: x in Elements(q.o.cnames) <==> x in q.o.cnames;
    assert SameList(q, s.record) <==> ManagedSet(s) == Elements(q.o.cnames);
    assert (h in HostSet(r) <==> h in r.hosts) && (h in HostSet(s) <==> h in s.hosts);
    hide Managed, Lists, SameList, ManagedSet, HostSet;
  }

  /** Label k of the VirtualService: the backend, then the app, then the configuration, then what is stored. */
  ghost predicate LabelReads(q: Request, target: BackendTarget, stored: map<string, string>, now: map<string, string>,
                             k: string)
  {
    if k == "router.tsuru.io/base-service-namespace" then k in now && now[k] == target.ns
    else if k == "router.tsuru.io/base-service-name" then k in now && now[k] == target.service
    else MetaLabelReads(q, stored, now, k)
  }

  ghost predicate MetaLabelReads(q: Request, stored: map<string, string>, now: map<string, string>, k: string) {
    if k == "tsuru.io/app-name" then k in now && now[k] == q.id.appName
    else if k in q.cfg.labels then k in now && now[k] == q.cfg.labels[k]
    else (k in now <==> k in stored) && (k in now ==> now[k] == stored[k])
  }

  ghost predicate AnnotationReads(q: Request, stored: map<string, string>, now: map<string, string>, k: string) {
    if k in q.o.opts.additionalOpts then k in now && now[k] == q.o.opts.additionalOpts[k]
    else if k in q.cfg.annotations then k in now && now[k] == q.cfg.annotations[k]
    else (k in now <==> k in stored) && (k in now ==> now[k] == stored[k])
  }

  /** The first route also reaches the service, by one destination more when it did not; the other routes stay. */
  ghost predicate RouteReads(service: string, before: seq<HTTPRoute>, now: seq<HTTPRoute>) {
    var first := if before == [] then HTTPRoute("", []) else before[0];
    && now != [] && now[1..] == (if before == [] then [] else before[1..]) && now[0].name == first.name
    && (forall h :: Reaches(now[0].route, h) <==> h == service || Reaches(first.route, h))
    && (!Reaches(first.route, service) ==>
         now[0].route == first.route + [RouteDestination(Some(Destination(service, "")), 0)])
  }

  lemma RouteMeans(service: string, before: seq<HTTPRoute>)
    ensures RouteReads(service, before, Routed(before, service))
  {
    hide GoesTo;
    var all := if before == [] then [HTTPRoute("", [])] else before;
    forall h ensures Reaches(RoutedTo(all[0].route, service), h) <==> h == service || Reaches(all[0].route, h) {
      RoutedToReaches(all[0].route, service, h);
    }
    hide Reaches;
    assert Routed(before, service)[1..] == all[1..];
    if RouteIndex(all[0].route, service).Some? { ReachedAt(all[0].route, service); }
  }

  lemma ReachedAt(route: seq<RouteDestination>, dst: string)
    requires RouteIndex(route, dst).Some?
    ensures Reaches(route, dst)
  {
  }

  /** What the VirtualService of a completed Ensure reads, besides its hosts. */
  ghost predicate VirtualServiceReads(q: Request, target: BackendTarget, service: Service, stored: Option<Stored>,
                                      name: string, v: Stored)
  {
    var before := if stored.Some? then stored.value else Stored(map[], map[], ["mesh"], [], []);
    && (forall k :: LabelReads(q, target, before.labels, v.labels, k))
    && (forall k :: k != "tsuru.io/additional-hosts" ==> AnnotationReads(q, before.annotations, v.annotations, k))
    && (forall g :: g in v.gateways <==> g == name || g in before.gateways)
    && RouteReads(service.name, before.http, v.http)
  }

  ghost function StoredAt(st: Store, name: string): Option<Stored> {
    if name in st.virtualServices then Some(st.virtualServices[name]) else None
  }

  lemma VirtualServiceWritten(q: Request, service: Service, st: Store, after: Store, name: string)
    requires Ensured(q, service, st, after) && VirtualServiceNamed(q, name)
    ensures name in after.virtualServices && FirstDefault(q.o.prefixes).Some?
    ensures VirtualServiceReads(q, FirstDefault(q.o.prefixes).value, service, StoredAt(st, name), name,
                                after.virtualServices[name])
    ensures forall n :: n != name ==>
      (n in after.virtualServices <==> n in st.virtualServices)
      && (n in after.virtualServices ==> after.virtualServices[n] == st.virtualServices[n])
  {
    HashedNameIs(q.cfg.digest, q.id, q.id.appName, 63, name);
    assert name == ResourceName(q.cfg, q.id);
    hide ResourceName, FirstDefault, Named;
    WrittenReads(q, FirstDefault(q.o.prefixes).value, service, st, name, after.virtualServices[name]);
  }

  lemma WrittenReads(q: Request, target: BackendTarget, service: Service, st: Store, name: string, v: Stored)
    requires name == ResourceName(q.cfg, q.id) && Written(q, target, service, Before(st, name), v)
    ensures VirtualServiceReads(q, target, service, StoredAt(st, name), name, v)
  {
    hide ResourceName, RouteReads, Added, WrittenHosts, Routed, LabelReads, AnnotationReads, HostsOf, MetaLabels,
         MetaAnnotations, HOSTS_ANNOTATION, BASE_NAMESPACE_LABEL, BASE_NAME_LABEL;
    var before := Before(st, name);
    RouteMeans(service.name, before.http);
    AddedAre(before.gateways, name);
    forall k ensures LabelReads(q, target, before.labels, v.labels, k) { LabelWritten(q, target, before.labels, k); }
    forall k | k != "tsuru.io/additional-hosts" ensures AnnotationReads(q, before.annotations, v.annotations, k) {
      AnnotationWritten(q, before.annotations, HostsOf(v).record, k);
    }
  }

  lemma AddedAre(gateways: seq<string>, name: string)
    ensures forall g :: g in Added(gateways, [name]) <==> g == name || g in gateways
  {
    hide Added;
    AddedIsUnion(gateways, [name]);
    assert forall g :: (g in Added(gateways, [name]) <==> g in Elements(Added(gateways, [name])));
    assert forall g :: (g in gateways <==> g in Elements(gateways));
    assert Elements([name]) == {name};
  }

  lemma AnnotationWritten(q: Request, stored: map<string, string>, record: string, k: string)
    requires k != "tsuru.io/additional-hosts"
    ensures AnnotationReads(q, stored, MetaAnnotations(q, stored), k)
    ensures AnnotationReads(q, stored, MetaAnnotations(q, stored)[HOSTS_ANNOTATION := record], k)
  {
  }

  lemma LabelWritten(q: Request, target: BackendTarget, stored: map<string, string>, k: string)
    ensures LabelReads(q, target, stored,
                       MetaLabels(q, stored)[BASE_NAMESPACE_LABEL := target.ns][BASE_NAME_LABEL := target.service], k)
  {
    assert |"router.tsuru.io/base-service-namespace"| == 38 && |"router.tsuru.io/base-service-name"| == 33;
    assert |"tsuru.io/app-name"| == 17;
  }

  /** The Gateway that a first Ensure creates, under the name of the app; one that is there stays as it is. */
  lemma GatewayWritten(q: Request, service: Service, st: Store, after: Store)
    requires Ensured(q, service, st, after)
    ensures q.id.appName in after.gateways
    ensures q.id.appName in st.gateways ==> after.gateways == st.gateways
    ensures q.id.appName !in st.gateways ==>
      var g := after.gateways[q.id.appName];
      && after.gateways == st.gateways[q.id.appName := g] && g.selector == q.cfg.gatewaySelector
      && (forall k :: MetaLabelReads(q, map[], g.labels, k))
      && (forall k :: AnnotationReads(q, map[], g.annotations, k))
  {
    hide ResourceName, FirstDefault, Written;
  }
}

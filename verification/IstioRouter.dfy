/**
  The Istio router: an Ensure creates the Gateway once and rewrites the VirtualService; a Remove detaches the one from
  the other.
 */
module IstioRouter {
  import opened Router
  import opened Strings
  import Options
  import opened Resources
  import opened IstioHosts
  import opened IstioCluster

  datatype Config = Config(
    domainSuffix: string,
    gatewaySelector: map<string, string>,
    labels: map<string, string>,
    annotations: map<string, string>,
    digest: Digest)

  datatype Request = Request(cfg: Config, id: InstanceID, o: EnsureOpts)

  datatype Outcome = Done | AlreadyExists | NoTarget | NoService | Missing | Stopped

  /** gatewayName and vsName. */
  function ResourceName(cfg: Config, id: InstanceID): string {
    HashedName(cfg.digest, id, id.appName, 63)
  }

  function GatewayHost(cfg: Config, id: InstanceID): string {
    if id.instanceName == "" then id.appName + "." + cfg.domainSuffix
    else id.instanceName + ".instance." + id.appName + "." + cfg.domainSuffix
  }

  function MetaLabels(q: Request, base: map<string, string>): map<string, string> {
    (base + q.cfg.labels)[APP_LABEL := q.id.appName]
  }

  function MetaAnnotations(q: Request, base: map<string, string>): map<string, string> {
    base + q.cfg.annotations + q.o.opts.additionalOpts
  }

  function NewGateway(q: Request): Gateway {
    Gateway(MetaLabels(q, map[]), MetaAnnotations(q, map[]), q.cfg.gatewaySelector)
  }

  const FRESH := Stored(map[], map[], ["mesh"], [], [])

  ghost function WrittenHosts(q: Request, service: Service, before: Stored): HostState {
    var record := Lookup(MetaAnnotations(q, before.annotations), HOSTS_ANNOTATION);
    EnsureHosts(HostState(before.hosts, record), GatewayHost(q.cfg, q.id), service.name, q.o.cnames)
  }

  /** v is what Ensure makes of the VirtualService it found, or of a fresh one. */
  ghost predicate Written(q: Request, target: BackendTarget, service: Service, before: Stored, v: Stored) {
    && v.labels == MetaLabels(q, before.labels)[BASE_NAMESPACE_LABEL := target.ns][BASE_NAME_LABEL := target.service]
    && v.gateways == Added(before.gateways, [ResourceName(q.cfg, q.id)])
    && v.http == Routed(before.http, service.name)
    && HostsOf(v) == WrittenHosts(q, service, before)
    && (v.annotations == MetaAnnotations(q, before.annotations)
        || v.annotations == MetaAnnotations(q, before.annotations)[HOSTS_ANNOTATION := HostsOf(v).record])
  }

  ghost function Before(st: Store, name: string): Stored {
    if name in st.virtualServices then st.virtualServices[name] else FRESH
  }

  function WithGateway(q: Request, st: Store): Store {
    if q.id.appName in st.gateways then st else st.(gateways := st.gateways[q.id.appName := NewGateway(q)])
  }

  /** after is the store a completed Ensure leaves: one Gateway at most is created, one VirtualService is written. */
  ghost predicate Ensured(q: Request, service: Service, st: Store, after: Store) {
    var name := ResourceName(q.cfg, q.id);
    && FirstDefault(q.o.prefixes).Some?
    && after.gateways == WithGateway(q, st).gateways
    && name in after.virtualServices
    && after.virtualServices == st.virtualServices[name := after.virtualServices[name]]
    && Written(q, FirstDefault(q.o.prefixes).value, service, Before(st, name), after.virtualServices[name])
  }

  // ----- whole runs -----

  /** A completed call of some id. */
  datatype Event = Ensuring(q: Request, service: Service) | Removing(cfg: Config, id: InstanceID)

  function Detached(st: Store, cfg: Config, id: InstanceID): map<string, Stored>
    requires ResourceName(cfg, id) in st.virtualServices
  {
    var name := ResourceName(cfg, id);
    var v := st.virtualServices[name];
    st.virtualServices[name := v.(gateways := Without(v.gateways, [name]))]
  }

  ghost predicate Step(e: Event, st: Store, after: Store) {
    match e
    case Ensuring(q, service) => Ensured(q, service, st, after)
    case Removing(cfg, id) =>
      && ResourceName(cfg, id) in st.virtualServices
      && after.virtualServices == Detached(st, cfg, id)
      && after.gateways == st.gateways - {ResourceName(cfg, id)}
  }

  ghost predicate History(stores: seq<Store>, events: seq<Event>) {
    && |stores| == |events| + 1
    && forall i :: 0 <= i < |events| ==> Step(events[i], stores[i], stores[i + 1])
  }

  /** One configuration, whose annotations and options leave the host record alone; distinct ids have distinct names. */
  ghost predicate OneRouter(cfg: Config, id: InstanceID, events: seq<Event>) {
    forall i :: 0 <= i < |events| ==>
      match events[i]
      case Ensuring(q, _) => q.cfg == cfg && RecordLeftAlone(q)
        && (ResourceName(cfg, q.id) == ResourceName(cfg, id) ==> q.id == id)
      case Removing(c, _) => c == cfg
  }

  ghost predicate RecordLeftAlone(q: Request) {
    HOSTS_ANNOTATION !in q.cfg.annotations && HOSTS_ANNOTATION !in q.o.opts.additionalOpts
  }

  /** The Ensure calls of one id, in order. */
  ghost function CallsOf(id: InstanceID, events: seq<Event>): seq<Call> {
    if events == [] then []
    else
      var rest := CallsOf(id, events[..|events| - 1]);
      match events[|events| - 1]
      case Ensuring(q, service) => if q.id == id then rest + [Call(service.name, q.o.cnames)] else rest
      case Removing(_, _) => rest
  }

  /**
    Whatever calls of whatever ids are interleaved, the hosts of an id's VirtualService are those of the
    run of that id's own Ensure calls.
   */
  lemma {:induction false} HostsOfRun(cfg: Config, id: InstanceID, stores: seq<Store>, events: seq<Event>)
    requires History(stores, events) && OneRouter(cfg, id, events)
    ensures HostsOf(Before(stores[|events|], ResourceName(cfg, id)))
         == Run(HostsOf(Before(stores[0], ResourceName(cfg, id))), GatewayHost(cfg, id), CallsOf(id, events))
  {
    hide Step, EnsureHosts, ResourceName, GatewayHost, HostsOf, Before, FRESH, RecordLeftAlone;
    var n := |events|;
    if n > 0 {
      var init, e := events[..n - 1], events[n - 1];
      assert History(stores[..n], init);
      assert OneRouter(cfg, id, init) by { assert forall i :: 0 <= i < n - 1 ==> init[i] == events[i]; }
      HostsOfRun(cfg, id, stores[..n], init);
      assert Step(e, stores[n - 1], stores[n]);
      StepHosts(cfg, id, e, stores[n - 1], stores[n]);
      if e.Ensuring? && e.q.id == id {
        var rest := CallsOf(id, init);
        var c := Call(e.service.name, e.q.o.cnames);
        assert CallsOf(id, events) == rest + [c];
        assert (rest + [c])[..|rest|] == rest;
      }
    }
  }

  lemma StepHosts(cfg: Config, id: InstanceID, e: Event, st: Store, after: Store)
    requires Step(e, st, after) && OneRouter(cfg, id, [e])
    ensures HostsOf(Before(after, ResourceName(cfg, id))) ==
      var was := HostsOf(Before(st, ResourceName(cfg, id)));
      if e.Ensuring? && e.q.id == id then EnsureHosts(was, GatewayHost(cfg, id), e.service.name, e.q.o.cnames) else was
  {
    hide EnsureHosts, ResourceName, GatewayHost, FirstDefault, WithGateway, Routed, Added, Without, MetaLabels,
         HOSTS_ANNOTATION, BASE_NAMESPACE_LABEL, BASE_NAME_LABEL, APP_LABEL;
    assert [e][0] == e;
  }

  /**
    What the host algebra gives for the store: no call of any id ever loses an id a host that is not one of its
    CNames.
   */
  lemma HostNeverLost(cfg: Config, id: InstanceID, stores: seq<Store>, events: seq<Event>, h: string)
    requires History(stores, events) && OneRouter(cfg, id, events)
    requires Tidy(HostsOf(Before(stores[0], ResourceName(cfg, id))).record) && NameableCalls(CallsOf(id, events))
    requires Foreign(HostsOf(Before(stores[0], ResourceName(cfg, id))), CallsOf(id, events), h)
    requires h in Before(stores[0], ResourceName(cfg, id)).hosts
    ensures h in Before(stores[|events|], ResourceName(cfg, id)).hosts
  {
    hide OneRouter, Step, Tidy, Run, ResourceName, GatewayHost, CallsOf, Foreign, Managed, HOSTS_ANNOTATION, FRESH,
         Before, Nameable;
    HostsOfRun(cfg, id, stores, events);
    ForeignHostExactly(HostsOf(Before(stores[0], ResourceName(cfg, id))), GatewayHost(cfg, id), CallsOf(id, events), h);
  }

  // ----- the Gateway's name -----

  /**
    Ensure names the Gateway after the app, Remove deletes the hashed name: they agree only for a short app without an
    instance.
   */
  lemma GatewayNamesAgreeExactly(cfg: Config, id: InstanceID)
    requires NoCollision(cfg.digest, {id.appName, WithInstance(id, id.appName)}, 63)
    ensures ResourceName(cfg, id) == id.appName <==> id.instanceName == "" && |id.appName| <= 63
  {
    if id.instanceName != "" && |id.appName| <= 63 {
      assert |WithInstance(id, id.appName)| > |id.appName|;
    }
  }

  /** So a Remove right after an Ensure deletes the app's Gateway in exactly that case. */
  lemma RemoveAfterEnsureExactly(q: Request, service: Service, st: Store, mid: Store, after: Store)
    requires Step(Ensuring(q, service), st, mid) && Step(Removing(q.cfg, q.id), mid, after)
    requires NoCollision(q.cfg.digest, {q.id.appName, WithInstance(q.id, q.id.appName)}, 63)
    ensures q.id.appName !in after.gateways <==> q.id.instanceName == "" && |q.id.appName| <= 63
    ensures var v := after.virtualServices[ResourceName(q.cfg, q.id)];
      && ResourceName(q.cfg, q.id) !in v.gateways
      && forall g :: g != ResourceName(q.cfg, q.id) ==>
         (g in v.gateways <==> g in Before(st, ResourceName(q.cfg, q.id)).gateways)
  {
    hide Written, ResourceName, NoCollision, FirstDefault, Added;
    GatewayNamesAgreeExactly(q.cfg, q.id);
    var name := ResourceName(q.cfg, q.id);
    var had := Before(st, name).gateways;
    var attached := mid.virtualServices[name].gateways;
    assert attached == Added(had, [name]) by {
      GatewaysWritten(q, FirstDefault(q.o.prefixes).value, service, Before(st, name), mid.virtualServices[name]);
    }
    AddedIsUnion(had, [name]);
    assert forall g :: (g in attached <==> g in Elements(attached)) && (g in had <==> g in Elements(had));
  }

  lemma GatewaysWritten(q: Request, target: BackendTarget, service: Service, before: Stored, v: Stored)
    requires Written(q, target, service, before, v)
    ensures v.gateways == Added(before.gateways, [ResourceName(q.cfg, q.id)])
  {
  }

  class IstioGateway {
    const cluster: Cluster
    const cfg: Config

    constructor (cluster: Cluster, cfg: Config)
      ensures this.cluster == cluster && this.cfg == cfg
    {
      this.cluster, this.cfg := cluster, cfg;
    }

    method UpdateObjectMeta(labels: map<string, string>, annotations: map<string, string>, q: Request)
      returns (newLabels: map<string, string>, newAnnotations: map<string, string>)
      requires q.cfg == cfg
      ensures newLabels == MetaLabels(q, labels) && newAnnotations == MetaAnnotations(q, annotations)
    {
      newLabels := Options.CopyInto(labels, cfg.labels);
      newLabels := newLabels[APP_LABEL := q.id.appName];
      newAnnotations := Options.CopyInto(annotations, cfg.annotations);
      newAnnotations := Options.CopyInto(newAnnotations, q.o.opts.additionalOpts);
    }

    /** The VirtualService found, or a fresh one, edited as Ensure wants it. */
    method Edit(q: Request, target: BackendTarget, service: Service, before: Stored) returns (v: Stored)
      requires q.cfg == cfg
      ensures Written(q, target, service, before, v)
    {
      hide HOSTS_ANNOTATION, APP_LABEL, BASE_NAMESPACE_LABEL, BASE_NAME_LABEL, Added, Routed, IstioHosts.SyncCNames,
           GatewayHost, ResourceName;
      var o := new VirtualService(before);
      o.labels, o.annotations := UpdateObjectMeta(o.labels, o.annotations, q);
      o.Update(ResourceName(cfg, q.id), GatewayHost(cfg, q.id), service.name);
      o.labels := o.labels[BASE_NAMESPACE_LABEL := target.ns];
      o.labels := o.labels[BASE_NAME_LABEL := target.service];
      o.SyncCNames(q.o.cnames);
      v := o.Value();
    }

    method Ensure(id: InstanceID, o: EnsureOpts) returns (r: Outcome)
      modifies cluster
      ensures var q := Request(cfg, id, o); var st := old(cluster.Contents()); var after := cluster.Contents();
        && (r.Done? || r.AlreadyExists? ==>
              FirstDefault(o.prefixes).Some? && FirstDefault(o.prefixes).value in cluster.services
              && Ensured(q, cluster.services[FirstDefault(o.prefixes).value], st, after))
        && (r.AlreadyExists? ==> id.appName in st.gateways) && (r.Done? ==> id.appName !in st.gateways)
        && (r.NoTarget? ==> after == st && FirstDefault(o.prefixes).None?)
        && (r.NoService? ==>
             after == WithGateway(q, st) && FirstDefault(o.prefixes).Some?
               && FirstDefault(o.prefixes).value !in cluster.services)
        && (r.Stopped? ==> (after == st || after == WithGateway(q, st)) && cluster.failures > old(cluster.failures))
        && !r.Missing?
    {
      hide FirstDefault, ResourceName, Written, NewGateway, MetaLabels, MetaAnnotations, FRESH, Ensured;
      var q := Request(cfg, id, o);
      var ok := cluster.Attempt();
      if !ok { return Stopped; }
      var target := GetDefaultBackendTarget(o.prefixes);
      if target.None? { return NoTarget; }
      var labels, annotations := UpdateObjectMeta(map[], map[], q);
      var gateway := Gateway(labels, annotations, cfg.gatewaySelector);
      assert gateway == NewGateway(q) by { NewGatewayIs(q); }
      var created := cluster.CreateGateway(id.appName, gateway);
      if created.Failed? { return Stopped; }
      var name := ResourceName(cfg, id);
      ok := cluster.Attempt();
      if !ok { return Stopped; }
      var found := cluster.GetVirtualService(name);
      if found.Failed? { return Stopped; }
      var before := if found.Found? then found.value else FRESH;
      var service := cluster.GetService(target.value);
      if service.Failed? { return Stopped; }
      if service.NotFound? { return NoService; }
      var v := Edit(q, target.value, service.value, before);
      if found.Found? {
        ok := cluster.UpdateVirtualService(name, v);
      } else {
        ok := cluster.CreateVirtualService(name, v);
      }
      if !ok { return Stopped; }
      AllWritten(q, service.value, old(cluster.Contents()), cluster.Contents(), v);
      r := if created.NotFound? then AlreadyExists else Done;
    }

    lemma AllWritten(q: Request, service: Service, st: Store, after: Store, v: Stored)
      requires FirstDefault(q.o.prefixes).Some?
      requires after == WithGateway(q, st).(virtualServices := st.virtualServices[ResourceName(q.cfg, q.id) := v])
      requires Written(q, FirstDefault(q.o.prefixes).value, service, Before(st, ResourceName(q.cfg, q.id)), v)
      ensures Ensured(q, service, st, after)
    {
      hide FirstDefault, ResourceName, Written, NewGateway, FRESH;
    }

    lemma NewGatewayIs(q: Request)
      ensures NewGateway(q) == Gateway(MetaLabels(q, map[]), MetaAnnotations(q, map[]), q.cfg.gatewaySelector)
    {
    }

    static method Others(gateways: seq<string>, name: string) returns (r: seq<string>)
      ensures r == Without(gateways, [name])
    {
      r := [];
      assert Without([], [name]) == [];
      hide Without;
      for i := 0 to |gateways|
        invariant r == Without(gateways[..i], [name])
      {
        assert gateways[..i + 1] == gateways[..i] + [gateways[i]];
        WithoutLast(gateways[..i], gateways[i], [name]);
        if gateways[i] != name { r := r + [gateways[i]]; }
      }
      assert gateways[..|gateways|] == gateways;
    }

    /**
      The VirtualService stays; a Gateway of another name stays too, and then the call ends in an error after the
      detachment.
     */
    method Remove(id: InstanceID) returns (r: Outcome)
      modifies cluster
      ensures var st := old(cluster.Contents()); var after := cluster.Contents(); var name := ResourceName(cfg, id);
        && (r.Done? ==> Step(Removing(cfg, id), st, after) && name in st.gateways)
        && (r.Missing? && name !in st.virtualServices ==> after == st)
        && (r.Missing? && name in st.virtualServices ==> name !in st.gateways && Step(Removing(cfg, id), st, after))
        && (r.Stopped? ==> cluster.failures > old(cluster.failures))
        && (r.Stopped? ==>
             after == st || (name in st.virtualServices && after == st.(virtualServices := Detached(st, cfg, id))))
        && (r.Done? || r.Missing? || r.Stopped?)
    {
      hide ResourceName, Without;
      var name := ResourceName(cfg, id);
      var ok := cluster.Attempt();
      if !ok { return Stopped; }
      var found := cluster.GetVirtualService(name);
      if found.Failed? { return Stopped; }
      if found.NotFound? { return Missing; }
      ok := cluster.Attempt();
      if !ok { return Stopped; }
      var v := found.value;
      var gateways := Others(v.gateways, name);
      ok := cluster.UpdateVirtualService(name, v.(gateways := gateways));
      if !ok { return Stopped; }
      var missing;
      ok, missing := cluster.DeleteGateway(name);
      if missing {
        assert cluster.gateways == cluster.gateways - {name};
        return Missing;
      }
      r := if ok then Done else Stopped;
    }
  }
}

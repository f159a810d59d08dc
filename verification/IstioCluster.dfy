/** The Istio objects of one namespace, as values in the store and as the VirtualService the router edits in place. */
module IstioCluster {
  import opened Router
  import opened Strings
  import opened Resources
  import opened IstioHosts

  datatype Destination = Destination(host: string, subset: string)

  datatype RouteDestination = RouteDestination(destination: Option<Destination>, weight: int)

  datatype HTTPRoute = HTTPRoute(name: string, route: seq<RouteDestination>)

  /** A VirtualService as stored. */
  datatype Stored = Stored(
    labels: map<string, string>,
    annotations: map<string, string>,
    gateways: seq<string>,
    hosts: seq<string>,
    http: seq<HTTPRoute>)

  datatype Gateway =
    Gateway(labels: map<string, string>, annotations: map<string, string>, selector: map<string, string>)

  datatype Store = Store(gateways: map<string, Gateway>, virtualServices: map<string, Stored>)

  datatype Got<+T> = Found(value: T) | NotFound | Failed

  function HostsOf(v: Stored): HostState {
    HostState(v.hosts, Lookup(v.annotations, HOSTS_ANNOTATION))
  }

  // ----- the route to the web service -----

  /** The first destination that is already the host, if any. */
  function RouteIndex(route: seq<RouteDestination>, dst: string): (r: Option<nat>)
    ensures r.Some? ==>
      r.value < |route| && GoesTo(route[r.value], dst) && forall j :: 0 <= j < r.value ==> !GoesTo(route[j], dst)
    ensures r.None? ==> forall j :: 0 <= j < |route| ==> !GoesTo(route[j], dst)
  {
    if route == [] then None
    else if GoesTo(route[0], dst) then Some(0)
    else
      match RouteIndex(route[1..], dst)
      case None =>
        assert forall j :: 1 <= j < |route| ==> route[j] == route[1..][j - 1];
        None
      case Some(i) =>
        assert forall j :: 1 <= j < |route| ==> route[j] == route[1..][j - 1];
        Some(i + 1)
  }

  predicate GoesTo(d: RouteDestination, dst: string) {
    d.destination.Some? && d.destination.value.host == dst
  }

  function RoutedTo(route: seq<RouteDestination>, dst: string): seq<RouteDestination> {
    match RouteIndex(route, dst)
    case None => route + [RouteDestination(Some(Destination(dst, "")), 0)]
    case Some(i) => route[i := route[i].(destination := Some(Destination(dst, "")))]
  }

  function Routed(http: seq<HTTPRoute>, dst: string): seq<HTTPRoute> {
    var all := if http == [] then [HTTPRoute("", [])] else http;
    all[0 := all[0].(route := RoutedTo(all[0].route, dst))]
  }

  ghost predicate Reaches(route: seq<RouteDestination>, h: string) {
    exists i :: 0 <= i < |route| && GoesTo(route[i], h)
  }

  /**
    Afterwards the first route reaches the destination, still reaches what it reached, and nothing else; doing it
    again changes nothing.
   */
  lemma RoutedToReaches(route: seq<RouteDestination>, dst: string, h: string)
    ensures Reaches(RoutedTo(route, dst), h) <==> h == dst || Reaches(route, h)
    ensures RoutedTo(RoutedTo(route, dst), dst) == RoutedTo(route, dst)
  {
    hide GoesTo;
    var r := RoutedTo(route, dst);
    assert forall d: RouteDestination :: GoesTo(d.(destination := Some(Destination(dst, ""))), h) <==> h == dst by {
      Aimed(dst, h);
    }
    var i := if RouteIndex(route, dst).None? then |route| else RouteIndex(route, dst).value;
    assert r[i].destination == Some(Destination(dst, ""));
    assert forall j :: 0 <= j < |route| && j != i ==> r[j] == route[j];
    assert GoesTo(r[i], h) <==> h == dst by { assert r[i] == r[i].(destination := Some(Destination(dst, ""))); }
    if h == dst { assert GoesTo(r[i], h); }
    if Reaches(route, h) {
      var j :| 0 <= j < |route| && GoesTo(route[j], h);
      if j != i { assert GoesTo(r[j], h); } else { SameTarget(route[j], dst, h); }
    }
    if Reaches(r, h) && h != dst {
      var j :| 0 <= j < |r| && GoesTo(r[j], h);
      assert j != i;
      assert GoesTo(route[j], h);
    }
    assert GoesTo(r[i], dst) by { Aimed(dst, dst); assert r[i] == r[i].(destination := Some(Destination(dst, ""))); }
    assert RouteIndex(r, dst) == Some(i);
  }

  lemma Aimed(dst: string, h: string)
    ensures forall d: RouteDestination :: GoesTo(d.(destination := Some(Destination(dst, ""))), h) <==> h == dst
  {
  }

  lemma SameTarget(d: RouteDestination, a: string, b: string)
    requires GoesTo(d, a) && GoesTo(d, b)
    ensures a == b
  {
  }

  // ----- sets kept as slices -----

  method AddToSet(dst: seq<string>, toAdd: seq<string>) returns (r: seq<string>)
    ensures r == Added(dst, toAdd)
  {
    hide Sort;
    var existing: set<string> := {};
    for i := 0 to |dst|
      invariant existing == Elements(dst[..i])
    {
      ElementsSnoc(dst, i);
      existing := existing + {dst[i]};
    }
    assert dst[..|dst|] == dst;
    assert forall x :: x in existing <==> x in dst;
    hide Elements;
    r := dst;
    for i := 0 to |toAdd|
      invariant r == dst + Without(toAdd[..i], dst)
    {
      assert toAdd[..i + 1][..i] == toAdd[..i];
      if toAdd[i] !in existing { r := r + [toAdd[i]]; }
    }
    assert toAdd[..|toAdd|] == toAdd;
    r := Sort(r);
  }

  /** The result comes out of a map, in any order. */
  method RemoveFromSet(dst: seq<string>, toRemove: seq<string>) returns (r: seq<string>)
    ensures multiset(r) == multiset(Elements(dst) - Elements(toRemove))
  {
    var existing: set<string> := {};
    for i := 0 to |dst|
      invariant existing == Elements(dst[..i])
    {
      ElementsSnoc(dst, i);
      existing := existing + {dst[i]};
    }
    assert dst[..|dst|] == dst;
    for i := 0 to |toRemove|
      invariant existing == Elements(dst) - Elements(toRemove[..i])
    {
      ElementsSnoc(toRemove, i);
      existing := existing - {toRemove[i]};
    }
    assert toRemove[..|toRemove|] == toRemove;
    r := [];
    var pending := existing;
    while pending != {}
      invariant pending <= existing
      invariant multiset(r) == multiset(existing - pending)
      decreases pending
    {
      var h :| h in pending;
      assert existing - (pending - {h}) == (existing - pending) + {h};
      r := r + [h];
      pending := pending - {h};
    }
    assert existing - pending == existing;
  }

  lemma HostsWithAnyOrder(left: seq<string>, hosts: seq<string>, managed: seq<string>, now: seq<string>,
                          now': seq<string>)
    requires multiset(left) == multiset(Elements(hosts) - Elements(managed)) && multiset(now) == multiset(now')
    ensures Added(left, now) == HostsWith(hosts, managed, now')
  {
    hide Added, InOrder;
    AddedReordered(left, InOrder(Elements(hosts) - Elements(managed)), now, now');
  }

  lemma RecordAnyOrder(now: seq<string>, now': seq<string>)
    requires multiset(now) == multiset(now')
    ensures Join(Sort(now), ',') == RecordOf(now')
  {
    hide Sort;
    SortedUnique(Sort(now), Sort(now'));
  }

  /** The object Ensure works on: read from the store, edited, written back. */
  class VirtualService {
    var labels: map<string, string>
    var annotations: map<string, string>
    var gateways: seq<string>
    var hosts: seq<string>
    var http: seq<HTTPRoute>

    constructor (s: Stored)
      ensures Value() == s
    {
      labels, annotations, gateways, hosts, http := s.labels, s.annotations, s.gateways, s.hosts, s.http;
    }

    function Value(): Stored
      reads this
    {
      Stored(labels, annotations, gateways, hosts, http)
    }

    method AddHost(host: string)
      modifies this`hosts, this`annotations
      ensures HostsOf(Value()) == IstioHosts.AddHost(old(HostsOf(Value())), host)
      ensures annotations == old(annotations)[HOSTS_ANNOTATION := HostsOf(Value()).record]
    {
      hide HOSTS_ANNOTATION, Added, HostsWith, RecordOf, Sort;
      var managed := Managed(Lookup(annotations, HOSTS_ANNOTATION));
      var left := RemoveFromSet(hosts, managed);
      var now := AddToSet(managed, [host]);
      HostsWithAnyOrder(left, hosts, managed, now, now);
      RecordAnyOrder(now, now);
      hosts := AddToSet(left, now);
      annotations := annotations[HOSTS_ANNOTATION := Join(Sort(now), ',')];
    }

    method RemoveHost(host: string)
      modifies this`hosts, this`annotations
      ensures HostsOf(Value()) == IstioHosts.RemoveHost(old(HostsOf(Value())), host)
      ensures annotations == old(annotations)[HOSTS_ANNOTATION := HostsOf(Value()).record]
    {
      hide HOSTS_ANNOTATION, Added, HostsWith, RecordOf, Sort, InOrder;
      var managed := Managed(Lookup(annotations, HOSTS_ANNOTATION));
      var left := RemoveFromSet(hosts, managed);
      var now := RemoveFromSet(managed, [host]);
      assert Elements([host]) == {host};
      HostsWithAnyOrder(left, hosts, managed, now, InOrder(Elements(managed) - {host}));
      RecordAnyOrder(now, InOrder(Elements(managed) - {host}));
      hosts := AddToSet(left, now);
      annotations := annotations[HOSTS_ANNOTATION := Join(Sort(now), ',')];
    }

    /** The two CName loops of Ensure. */
    method SyncCNames(cnames: seq<string>)
      modifies this`hosts, this`annotations
      ensures HostsOf(Value()) == IstioHosts.SyncCNames(old(HostsOf(Value())), cnames)
      ensures annotations == old(annotations)
          || annotations == old(annotations)[HOSTS_ANNOTATION := HostsOf(Value()).record]
    {
      hide HOSTS_ANNOTATION, IstioHosts.AddHost, IstioHosts.RemoveHost, Managed, Without, Lookup;
      ghost var start := HostsOf(Value());
      var managed := Managed(Lookup(annotations, HOSTS_ANNOTATION));
      var toAdd, toRemove := DiffCNames(managed, cnames);
      for i := 0 to |toAdd|
        invariant HostsOf(Value()) == AddHosts(start, toAdd[..i])
        invariant annotations == old(annotations)
          || annotations == old(annotations)[HOSTS_ANNOTATION := HostsOf(Value()).record]
      {
        assert toAdd[..i + 1][..i] == toAdd[..i];
        AddHost(toAdd[i]);
      }
      assert toAdd[..|toAdd|] == toAdd;
      for i := 0 to |toRemove|
        invariant HostsOf(Value()) == RemoveHosts(AddHosts(start, toAdd), toRemove[..i])
        invariant annotations == old(annotations)
          || annotations == old(annotations)[HOSTS_ANNOTATION := HostsOf(Value()).record]
      {
        assert toRemove[..i + 1][..i] == toRemove[..i];
        RemoveHost(toRemove[i]);
      }
      assert toRemove[..|toRemove|] == toRemove;
    }

    method Update(gateway: string, gatewayHost: string, dst: string)
      modifies this`gateways, this`hosts, this`http
      ensures gateways == Added(old(gateways), [gateway])
      ensures hosts == Added(Added(old(hosts), [gatewayHost]), [dst])
      ensures http == Routed(old(http), dst)
    {
      hide Added;
      gateways := AddToSet(gateways, [gateway]);
      hosts := AddToSet(hosts, [gatewayHost]);
      hosts := AddToSet(hosts, [dst]);
      if |http| == 0 { http := http + [HTTPRoute("", [])]; }
      ghost var all := http;
      var route := http[0].route;
      var dstIdx := -1;
      for i := 0 to |route|
        invariant dstIdx == -1
        invariant forall j :: 0 <= j < i ==> !GoesTo(route[j], dst)
      {
        if GoesTo(route[i], dst) {
          dstIdx := i;
          break;
        }
      }
      if dstIdx == -1 {
        route := route + [RouteDestination(None, 0)];
        dstIdx := |route| - 1;
      }
      route := route[dstIdx := route[dstIdx].(destination := Some(Destination(dst, "")))];
      http := http[0 := http[0].(route := route)];
      assert route == RoutedTo(all[0].route, dst);
    }
  }

  /** The API server: every call may fail before it takes effect. */
  class Cluster {
    const services: map<BackendTarget, Service>
    var gateways: map<string, Gateway>
    var virtualServices: map<string, Stored>
    /** How many calls have failed. */
    ghost var failures: nat

    constructor (services: map<BackendTarget, Service>, st: Store)
      ensures this.services == services && Contents() == st && failures == 0
    {
      this.services := services;
      gateways, virtualServices := st.gateways, st.virtualServices;
      failures := 0;
    }

    function Contents(): Store
      reads this
    {
      Store(gateways, virtualServices)
    }

    method Attempt() returns (ok: bool)
      modifies this`failures
      ensures failures == old(failures) + (if ok then 0 else 1)
    {
      ok := *;
      if !ok { failures := failures + 1; }
    }

    method GetService(t: BackendTarget) returns (r: Got<Service>)
      modifies this`failures
      ensures failures == old(failures) + (if r.Failed? then 1 else 0)
      ensures r.Found? ==> t in services && r.value == services[t]
      ensures r.NotFound? ==> t !in services
    {
      var ok := Attempt();
      r := if !ok then Failed else if t in services then Found(services[t]) else NotFound;
    }

    method GetVirtualService(name: string) returns (r: Got<Stored>)
      modifies this`failures
      ensures failures == old(failures) + (if r.Failed? then 1 else 0)
      ensures r.Found? ==> name in virtualServices && r.value == virtualServices[name]
      ensures r.NotFound? ==> name !in virtualServices
    {
      var ok := Attempt();
      r := if !ok then Failed else if name in virtualServices then Found(virtualServices[name]) else NotFound;
    }

    method CreateVirtualService(name: string, v: Stored) returns (ok: bool)
      modifies this`virtualServices, this`failures
      ensures ok ==>
        failures == old(failures) && name !in old(virtualServices) && virtualServices == old(virtualServices)[name := v]
      ensures !ok ==> virtualServices == old(virtualServices) && (name in virtualServices || failures > old(failures))
    {
      ok := Attempt();
      if ok && name in virtualServices { return false; }
      if ok { virtualServices := virtualServices[name := v]; }
    }

    method UpdateVirtualService(name: string, v: Stored) returns (ok: bool)
      modifies this`virtualServices, this`failures
      ensures ok ==>
        failures == old(failures) && name in old(virtualServices) && virtualServices == old(virtualServices)[name := v]
      ensures !ok ==> virtualServices == old(virtualServices) && (name !in virtualServices || failures > old(failures))
    {
      ok := Attempt();
      if ok && name !in virtualServices { return false; }
      if ok { virtualServices := virtualServices[name := v]; }
    }

    /** NotFound stands for an object of that name being there already. */
    method CreateGateway(name: string, g: Gateway) returns (r: Got<Gateway>)
      modifies this`gateways, this`failures
      ensures failures == old(failures) + (if r.Failed? then 1 else 0)
      ensures r.Found? <==> !r.Failed? && name !in old(gateways)
      ensures gateways == if r.Found? then old(gateways)[name := g] else old(gateways)
    {
      var ok := Attempt();
      if !ok { return Failed; }
      if name in gateways { return NotFound; }
      gateways := gateways[name := g];
      r := Found(g);
    }

    /** Deleting what is not there is an error. */
    method DeleteGateway(name: string) returns (ok: bool, missing: bool)
      modifies this`gateways, this`failures
      ensures ok || missing <==> failures == old(failures)
      ensures failures >= old(failures)
      ensures ok ==> name in old(gateways) && gateways == old(gateways) - {name}
      ensures !ok ==> gateways == old(gateways)
      ensures missing ==> !ok && name !in old(gateways)
    {
      ok := Attempt();
      missing := ok && name !in gateways;
      if missing { return false, true; }
      if ok { gateways := gateways - {name}; }
    }
  }
}

/** The API server as the Gateway router sees it: one namespace, whose calls may fail before taking effect. */
module GatewayCluster {
  import opened Router
  import opened Strings
  import opened Gateway

  /** A reply to a read: an object, the not-found error, or any other error. */
  datatype Got<+T> = Found(value: T) | NotFound | Failed

  /** A reply to a delete. */
  datatype Deleted = Gone | WasAbsent | NotDeleted

  datatype CNameTerm = AnyRoute | NoCNameLabel | CNameTrue

  /** A label selector: an instance's labels, and what is asked of the CName label. */
  datatype Selector = Selector(id: InstanceID, cname: CNameTerm)

  predicate Matches(s: Selector, labels: map<string, string>) {
    && Labelled(labels, s.id)
    && (s.cname == NoCNameLabel ==> CNAME_LABEL !in labels)
    && (s.cname == CNameTrue ==> CNAME_LABEL in labels && labels[CNAME_LABEL] == "true")
  }

  function Selected(st: Store, s: Selector): set<string> {
    set n | n in st.routes && Matches(s, st.routes[n].labels)
  }

  lemma SelectedIs(st: Store, id: InstanceID)
    ensures Selected(st, Selector(id, NoCNameLabel)) == PlainRoutes(st, id)
    ensures Selected(st, Selector(id, CNameTrue)) == CNameRoutes(st, id)
  {
    hide Labelled, CNAME_LABEL;
  }

  datatype RouteItem = RouteItem(name: string, route: HTTPRoute)

  class Cluster {
    const ns: string
    const services: map<BackendTarget, Service>
    var routes: map<string, HTTPRoute>
    var sets: map<string, ListenerSet>
    /** How many calls have failed. */
    ghost var failures: nat

    constructor (ns: string, services: map<BackendTarget, Service>, st: Store)
      ensures this.ns == ns && this.services == services
      ensures Contents() == st && failures == 0
    {
      this.ns, this.services := ns, services;
      routes, sets, failures := st.routes, st.sets, 0;
    }

    function Contents(): Store
      reads this
    {
      Store(routes, sets)
    }

    /** Whether the next call goes through is up to the environment. */
    method Attempt() returns (ok: bool)
      modifies this`failures
      ensures failures == old(failures) + (if ok then 0 else 1)
    {
      ok := *;
      if !ok { failures := failures + 1; }
    }

    method AppNamespace() returns (ok: bool, name: string)
      modifies this`failures
      ensures failures == old(failures) + (if ok then 0 else 1)
      ensures ok ==> name == ns
    {
      ok := Attempt();
      name := if ok then ns else "";
    }

    method GetService(t: BackendTarget) returns (r: Got<Service>)
      modifies this`failures
      ensures failures == old(failures) + (if r.Failed? then 1 else 0)
      ensures r.Found? ==> t in services && r.value == services[t]
      ensures r.NotFound? ==> t !in services
    {
      var ok := Attempt();
      r := if !ok then Failed else if t in services then Found(services[t]) else NotFound;
    }

    method GetRoute(name: string) returns (r: Got<HTTPRoute>)
      modifies this`failures
      ensures failures == old(failures) + (if r.Failed? then 1 else 0)
      ensures r.Found? ==> name in routes && r.value == routes[name]
      ensures r.NotFound? ==> name !in routes
    {
      var ok := Attempt();
      r := if !ok then Failed else if name in routes then Found(routes[name]) else NotFound;
    }

    method CreateRoute(name: string, route: HTTPRoute) returns (ok: bool)
      modifies this`routes, this`failures
      ensures ok ==> name !in old(routes) && routes == old(routes)[name := route] && failures == old(failures)
      ensures !ok ==> routes == old(routes) && (name in routes || failures > old(failures))
    {
      ok := Attempt();
      if ok && name in routes { return false; }
      if ok { routes := routes[name := route]; }
    }

    /** An update leaves the status to its controller. */
    method UpdateRoute(name: string, route: HTTPRoute) returns (ok: bool)
      modifies this`routes, this`failures
      ensures ok ==> failures == old(failures)
      ensures ok ==> name in old(routes) && routes == old(routes)[name := route.(parents := old(routes)[name].parents)]
      ensures !ok ==> routes == old(routes) && (name !in routes || failures > old(failures))
    {
      ok := Attempt();
      if ok && name !in routes { return false; }
      if ok { routes := routes[name := route.(parents := routes[name].parents)]; }
    }

    method DeleteRoute(name: string) returns (r: Deleted)
      modifies this`routes, this`failures
      ensures failures == old(failures) + (if r.NotDeleted? then 1 else 0)
      ensures routes == if r.NotDeleted? then old(routes) else old(routes) - {name}
    {
      var ok := Attempt();
      if !ok { return NotDeleted; }
      r := if name in routes then Gone else WasAbsent;
      routes := routes - {name};
    }

    /** Objects come back in name order. */
    method ListRoutes(s: Selector) returns (ok: bool, items: seq<RouteItem>)
      modifies this`failures
      ensures failures == old(failures) + (if ok then 0 else 1)
      ensures ok ==> var names := InOrder(Selected(Contents(), s));
        |items| == |names| && forall i :: 0 <= i < |names| ==>
          names[i] in routes && items[i] == RouteItem(names[i], routes[names[i]])
    {
      ok := Attempt();
      items := [];
      if ok {
        var names := SortedKeys(set n | n in routes && Matches(s, routes[n].labels));
        assert (set n | n in routes && Matches(s, routes[n].labels)) == Selected(Contents(), s);
        for i := 0 to |names|
          invariant |items| == i
          invariant forall j :: 0 <= j < i ==> names[j] in routes && items[j] == RouteItem(names[j], routes[names[j]])
        {
          assert names[i] in names;
          items := items + [RouteItem(names[i], routes[names[i]])];
        }
      }
    }

    method GetSet(name: string) returns (r: Got<ListenerSet>)
      modifies this`failures
      ensures failures == old(failures) + (if r.Failed? then 1 else 0)
      ensures r.Found? ==> name in sets && r.value == sets[name]
      ensures r.NotFound? ==> name !in sets
    {
      var ok := Attempt();
      r := if !ok then Failed else if name in sets then Found(sets[name]) else NotFound;
    }

    method CreateSet(name: string, ls: ListenerSet) returns (ok: bool)
      modifies this`sets, this`failures
      ensures ok ==> name !in old(sets) && sets == old(sets)[name := ls] && failures == old(failures)
      ensures !ok ==> sets == old(sets) && (name in sets || failures > old(failures))
    {
      ok := Attempt();
      if ok && name in sets { return false; }
      if ok { sets := sets[name := ls]; }
    }

    method UpdateSet(name: string, ls: ListenerSet) returns (ok: bool)
      modifies this`sets, this`failures
      ensures ok ==> name in old(sets) && sets == old(sets)[name := ls] && failures == old(failures)
      ensures !ok ==> sets == old(sets) && (name !in sets || failures > old(failures))
    {
      ok := Attempt();
      if ok && name !in sets { return false; }
      if ok { sets := sets[name := ls]; }
    }

    method DeleteSet(name: string) returns (r: Deleted)
      modifies this`sets, this`failures
      ensures failures == old(failures) + (if r.NotDeleted? then 1 else 0)
      ensures sets == if r.NotDeleted? then old(sets) else old(sets) - {name}
    {
      var ok := Attempt();
      if !ok { return NotDeleted; }
      r := if name in sets then Gone else WasAbsent;
      sets := sets - {name};
    }

    method ListSets(id: InstanceID) returns (ok: bool, names: seq<string>)
      modifies this`failures
      ensures failures == old(failures) + (if ok then 0 else 1)
      ensures ok ==> names == InOrder(SetsOf(Contents(), id))
    {
      ok := Attempt();
      names := [];
      if ok {
        names := SortedKeys(set n | n in sets && Labelled(sets[n].labels, id));
        assert (set n | n in sets && Labelled(sets[n].labels, id)) == SetsOf(Contents(), id);
      }
    }
  }
}

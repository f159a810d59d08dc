/** What a Gateway router reports: the addresses and the readiness of an instance's routes. */
module GatewayReads {
  import opened Router
  import opened Strings
  import opened Resources
  import opened Gateway
  import opened GatewayPlans
  import opened GatewayFacts
  import opened GatewayEffects

  // ----- hosts -----

  /** Distinct backend keys get distinct hosts. */
  lemma HostsDistinct(cfg: Config, id: InstanceID, o: Opts, k: string, k': string)
    requires Host(cfg, id, o, k) == Host(cfg, id, o, k')
    ensures k == k'
  {
    var rest := Host(cfg, id, o, "default");
    if k != "default" { HostSplits(cfg, id, o, k); }
    if k' != "default" { HostSplits(cfg, id, o, k'); }
    if k != "default" && k' != "default" {
      var dotted := "." + rest;
      assert k + "." + rest == k + dotted && k' + "." + rest == k' + dotted;
      assert (k + dotted)[..|k|] == k && (k' + dotted)[..|k'|] == k';
    }
  }

  lemma HostSplits(cfg: Config, id: InstanceID, o: Opts, k: string)
    requires k != "default"
    ensures Host(cfg, id, o, k) == k + "." + Host(cfg, id, o, "default")
  {
    var prefix := k + ".";
    assert prefix + id.appName + "." + cfg.domainSuffix == prefix + (id.appName + "." + cfg.domainSuffix);
    assert prefix + o.domainPrefix + "." + id.appName + "." + cfg.domainSuffix
        == prefix + (o.domainPrefix + "." + id.appName + "." + cfg.domainSuffix);
  }

  // ----- addresses -----

  function Address(schema: string, host: string): string { schema + "://" + host }

  function Prefixed(schema: string, hosts: seq<string>): seq<string> {
    seq(|hosts|, i requires 0 <= i < |hosts| => Address(schema, hosts[i]))
  }

  function AddressesOf(routes: seq<HTTPRoute>, schema: string): seq<string> {
    if routes == [] then []
    else AddressesOf(routes[..|routes| - 1], schema) + Prefixed(schema, routes[|routes| - 1].hostnames)
  }

  /** The scheme is read off the first route only. */
  function SchemaOf(routes: seq<HTTPRoute>): string {
    if |routes| > 0 && Lookup(routes[0].labels, HTTP_ONLY_LABEL) != "true" then "https" else "http"
  }

  /** An instance's prefix routes in the order they are listed. */
  ghost function Listed(st: Store, id: InstanceID): (r: seq<HTTPRoute>)
    ensures var names := InOrder(PlainRoutes(st, id));
      |r| == |names| && forall i :: 0 <= i < |r| ==> names[i] in st.routes && r[i] == st.routes[names[i]]
  {
    hide Plain, Sorted, Elements;
    var own := PlainRoutes(st, id);
    assert own <= st.routes.Keys;
    hide PlainRoutes;
    var names := InOrder(own);
    assert forall i :: 0 <= i < |names| ==> names[i] in names;
    seq(|names|, i requires 0 <= i < |names| => st.routes[names[i]])
  }

  ghost function Addresses(st: Store, id: InstanceID): seq<string> {
    AddressesOf(Listed(st, id), SchemaOf(Listed(st, id)))
  }

  lemma {:induction false} AddressesAre(routes: seq<HTTPRoute>, schema: string, a: string)
    ensures a in AddressesOf(routes, schema) <==>
      exists i, j :: 0 <= i < |routes| && 0 <= j < |routes[i].hostnames| && a == Address(schema, routes[i].hostnames[j])
  {
    hide Address, Prefixed;
    if routes != [] {
      var n := |routes| - 1;
      AddressesAre(routes[..n], schema, a);
      PrefixedAre(schema, routes[n].hostnames, a);
      assert forall i :: 0 <= i < n ==> routes[..n][i] == routes[i];
    }
  }

  lemma PrefixedAre(schema: string, hosts: seq<string>, a: string)
    ensures a in Prefixed(schema, hosts) <==> exists j :: 0 <= j < |hosts| && a == Address(schema, hosts[j])
  {
    hide Address;
    if j :| 0 <= j < |hosts| && a == Address(schema, hosts[j]) { assert Prefixed(schema, hosts)[j] == a; }
  }

  /** The addresses come in the order of the routes. */
  lemma {:induction false} AddressesInOrder(a: seq<HTTPRoute>, b: seq<HTTPRoute>, schema: string)
    ensures AddressesOf(a + b, schema) == AddressesOf(a, schema) + AddressesOf(b, schema)
  {
    if b == [] {
      assert a + b == a;
    } else {
      assert (a + b)[..|a + b| - 1] == a + b[..|b| - 1];
      AddressesInOrder(a, b[..|b| - 1], schema);
    }
  }

  method CollectAddresses(routes: seq<HTTPRoute>, schema: string) returns (addresses: seq<string>)
    ensures addresses == AddressesOf(routes, schema)
  {
    hide Address;
    addresses := [];
    for i := 0 to |routes|
      invariant addresses == AddressesOf(routes[..i], schema)
    {
      var hosts := routes[i].hostnames;
      for j := 0 to |hosts|
        invariant addresses == AddressesOf(routes[..i], schema) + Prefixed(schema, hosts[..j])
      {
        assert Prefixed(schema, hosts[..j + 1]) == Prefixed(schema, hosts[..j]) + [Address(schema, hosts[j])];
        addresses := addresses + [Address(schema, hosts[j])];
      }
      assert hosts[..|hosts|] == hosts;
      assert routes[..i + 1][..i] == routes[..i];
    }
    assert routes[..|routes|] == routes;
  }

  // ----- the routing table -----

  /** Nothing is frozen under the id's labels or under the names the request wants. */
  predicate Unfrozen(q: Request, st: Store) {
    forall n :: n in st.routes && (n in WantedRoutes(q) || Plain(st.routes[n].labels, q.id)) ==> !Frozen(st.routes[n])
  }

  /** With nothing frozen, the labelled prefix routes are exactly the wanted ones, each as desired. */
  lemma TableRoute(q: Request, st: Store, key: string)
    requires WellFormed(q) && Apart(q, RecordedIn(st, q.cfg.digest, q.id)) && PrefixesDistinct(q) && Unfrozen(q, st)
    requires key in q.targets
    ensures var n, st' := RouteName(q.cfg.digest, q.id, key), Ensured(q, st);
      && n in PlainRoutes(st', q.id)
      && st'.routes[n].hostnames == [Host(q.cfg, q.id, q.o.opts, key)]
      && Lookup(st'.routes[n].labels, HTTP_ONLY_LABEL) == (if q.o.opts.httpOnly then "true" else "false")
      && st'.routes[n].rules
         == [RouteRule(Some(Path(q.o.opts)), ServiceAt(q.services, q.targets[key]).name,
                       FirstPort(ServiceAt(q.services, q.targets[key])))]
  {
    hide Ensured, Clean, Apart, PrefixesDistinct, RecordedIn, Frozen, RouteName, PrefixRoute, Host, Path, Plain,
         ServiceAt, FirstPort, HTTP_ONLY_LABEL;
    EnsurePrefixRoute(q, st, key);
    PrefixRouteShows(q, key);
    assert RouteName(q.cfg.digest, q.id, key) in WantedRoutes(q);
  }

  lemma PrefixRouteShows(q: Request, key: string)
    requires Clean(q) && key in q.targets
    ensures var r, svc := PrefixRoute(q, key), ServiceAt(q.services, q.targets[key]);
      && Plain(r.labels, q.id) && r.hostnames == [Host(q.cfg, q.id, q.o.opts, key)]
      && Lookup(r.labels, HTTP_ONLY_LABEL) == (if q.o.opts.httpOnly then "true" else "false")
      && r.rules == [RouteRule(Some(Path(q.o.opts)), svc.name, FirstPort(svc))]
  {
    hide Labels, Host, Annotations, Path, ServiceAt, FirstPort;
    KeysDiffer();
    LabelsShow(q.cfg, map[INSTANCE_LABEL := q.id.instanceName, BASE_NAMESPACE_LABEL := TargetAt(q, key).ns,
                          BASE_NAME_LABEL := TargetAt(q, key).service,
                          HTTP_ONLY_LABEL := if q.o.opts.httpOnly then "true" else "false"], q.id, q.o.team, q.o.tags);
  }

  lemma TableOnly(q: Request, st: Store, n: string) returns (key: string)
    requires WellFormed(q) && Apart(q, RecordedIn(st, q.cfg.digest, q.id)) && Unfrozen(q, st)
    requires n in PlainRoutes(Ensured(q, st), q.id)
    ensures key in q.targets && n == RouteName(q.cfg.digest, q.id, key)
  {
    hide RouteName, EnsurePlan, Ensured, Clean, Apart, Frozen, Labelled, ApplyAll, Recorded, CNamePlan, RoutePlan;
    EnsureClean(q, st, n);
    if n !in WantedRoutes(q) {
      StaysFrozen(q, st, n);
    }
    key :| key in q.targets && n == RouteName(q.cfg.digest, q.id, key);
  }

  /** A frozen prefix route that is left was frozen, and labelled for the id, before. */
  lemma StaysFrozen(q: Request, st: Store, n: string)
    requires WellFormed(q) && n in PlainRoutes(Ensured(q, st), q.id) && n !in WantedRoutes(q)
    requires Frozen(Ensured(q, st).routes[n])
    ensures n in PlainRoutes(st, q.id) && Frozen(st.routes[n])
  {
    hide RoutePlan, CNamePlan, EnsurePlan, Ensured, WantedRoutes, Frozen, ApplyAll, Clean, Recorded, Main,
         SameButRecord, Labelled;
    EnsureParts(q, st);
    var before, existing, st' := ApplyAll(st, RoutePlan(q, st)), Recorded(st, Main(q)), Ensured(q, st);
    if !(q.o.cnames == [] && existing == []) {
      forall a | a in CNamePlan(q, before, existing) && a.PutRoute?
        ensures CNAME_LABEL in a.route.labels
      {
        CNamePlanActs(q, before, existing, a);
      }
      PlainSurvives(before, CNamePlan(q, before, existing), n);
      SameButRecordFrozen(before.routes[n], st'.routes[n]);
      SameButRecordLabels(before.routes[n], st'.routes[n]);
    }
    NotPut(q, st, n);
  }

  lemma NotPut(q: Request, st: Store, n: string)
    requires WellFormed(q) && n in ApplyAll(st, RoutePlan(q, st)).routes && n !in WantedRoutes(q)
    ensures n in st.routes && ApplyAll(st, RoutePlan(q, st)).routes[n] == st.routes[n]
  {
    hide RoutePlan, ApplyAll, Clean, WantedRoutes, Labelled, Frozen;
    forall a | a in RoutePlan(q, st) && a.PutRoute? ensures a.name != n { RoutePlanActs(q, st, a); }
    forall a | a in RoutePlan(q, st) ensures !a.WriteRecord? { RoutePlanActs(q, st, a); }
    OnlyDropped(st, RoutePlan(q, st), n);
  }

  lemma {:induction false} OnlyDropped(st: Store, plan: seq<Action>, n: string)
    requires forall a :: a in plan ==> !a.WriteRecord? && (a.PutRoute? ==> a.name != n)
    ensures n in ApplyAll(st, plan).routes ==> n in st.routes && ApplyAll(st, plan).routes[n] == st.routes[n]
  {
    if plan != [] {
      assert plan[|plan| - 1] in plan;
      OnlyDropped(st, plan[..|plan| - 1], n);
    }
  }

  /**
    Routing: after an Ensure with nothing frozen in the way, a host belongs to exactly one of the id's
    prefix routes, that of its backend key, which sends it to that key's service.
   */
  lemma RoutingTable(q: Request, st: Store, key: string, n: string)
    requires WellFormed(q) && Apart(q, RecordedIn(st, q.cfg.digest, q.id)) && PrefixesDistinct(q) && Unfrozen(q, st)
    requires key in q.targets && n in PlainRoutes(Ensured(q, st), q.id)
    ensures Host(q.cfg, q.id, q.o.opts, key) in Ensured(q, st).routes[n].hostnames
       <==> n == RouteName(q.cfg.digest, q.id, key)
    ensures n == RouteName(q.cfg.digest, q.id, key) ==>
      |Ensured(q, st).routes[n].rules| == 1
        && Ensured(q, st).routes[n].rules[0].service == ServiceAt(q.services, q.targets[key]).name
  {
    hide Ensured, Clean, Apart, PrefixesDistinct, RecordedIn, Unfrozen, RouteName, Host, Path, ServiceAt, FirstPort,
         PlainRoutes, HTTP_ONLY_LABEL;
    var key' := TableOnly(q, st, n);
    TableRoute(q, st, key');
    TableRoute(q, st, key);
    if Host(q.cfg, q.id, q.o.opts, key) == Host(q.cfg, q.id, q.o.opts, key') {
      HostsDistinct(q.cfg, q.id, q.o.opts, key, key');
    }
  }

  /** The addresses then reported are exactly the hosts of the backend keys, under the scheme the mode asks for. */
  lemma AddressesExact(q: Request, st: Store, a: string)
    requires WellFormed(q) && Apart(q, RecordedIn(st, q.cfg.digest, q.id)) && PrefixesDistinct(q) && Unfrozen(q, st)
    ensures a in Addresses(Ensured(q, st), q.id) <==>
      exists key :: key in q.targets
        && a == Address(if q.o.opts.httpOnly then "http" else "https", Host(q.cfg, q.id, q.o.opts, key))
  {
    hide Ensured, Clean, Apart, PrefixesDistinct, RecordedIn, Unfrozen, Host, Listed, Address, AddressesOf;
    var routes := Listed(Ensured(q, st), q.id);
    var schema := if q.o.opts.httpOnly then "http" else "https";
    SchemaIs(q, st);
    hide SchemaOf, WellFormed;
    AddressesAre(routes, schema, a);
    if i, j :| 0 <= i < |routes| && 0 <= j < |routes[i].hostnames| && a == Address(schema, routes[i].hostnames[j]) {
      var k := ListedKey(q, st, i);
    }
    if key :| key in q.targets && a == Address(schema, Host(q.cfg, q.id, q.o.opts, key)) {
      var i := KeyListed(q, st, key);
      assert routes[i].hostnames[0] == Host(q.cfg, q.id, q.o.opts, key);
    }
  }

  /** The scheme is that of the mode. */
  lemma SchemaIs(q: Request, st: Store)
    requires WellFormed(q) && Apart(q, RecordedIn(st, q.cfg.digest, q.id)) && PrefixesDistinct(q) && Unfrozen(q, st)
    ensures SchemaOf(Listed(Ensured(q, st), q.id)) == if q.o.opts.httpOnly then "http" else "https"
  {
    hide Ensured, Clean, Apart, PrefixesDistinct, RecordedIn, Unfrozen, Host, Listed, HTTP_ONLY_LABEL;
    var first := KeyListed(q, st, "default");
    var k := ListedKey(q, st, 0);
  }

  /** A listed route is that of a backend key. */
  lemma ListedKey(q: Request, st: Store, i: nat) returns (key: string)
    requires WellFormed(q) && Apart(q, RecordedIn(st, q.cfg.digest, q.id)) && PrefixesDistinct(q) && Unfrozen(q, st)
    requires i < |Listed(Ensured(q, st), q.id)|
    ensures key in q.targets
    ensures var r := Listed(Ensured(q, st), q.id)[i];
      && r.hostnames == [Host(q.cfg, q.id, q.o.opts, key)]
      && Lookup(r.labels, HTTP_ONLY_LABEL) == (if q.o.opts.httpOnly then "true" else "false")
  {
    hide Ensured, Clean, Apart, PrefixesDistinct, RecordedIn, Unfrozen, RouteName, Host, Path, ServiceAt, FirstPort,
         PlainRoutes, HTTP_ONLY_LABEL, Listed;
    var names := InOrder(PlainRoutes(Ensured(q, st), q.id));
    assert names[i] in names;
    key := TableOnly(q, st, names[i]);
    TableRoute(q, st, key);
  }

  /** And every backend key has its route listed. */
  lemma KeyListed(q: Request, st: Store, key: string) returns (i: nat)
    requires WellFormed(q) && Apart(q, RecordedIn(st, q.cfg.digest, q.id)) && PrefixesDistinct(q) && Unfrozen(q, st)
    requires key in q.targets
    ensures i < |Listed(Ensured(q, st), q.id)|
    ensures Listed(Ensured(q, st), q.id)[i].hostnames == [Host(q.cfg, q.id, q.o.opts, key)]
  {
    hide Ensured, Clean, Apart, PrefixesDistinct, RecordedIn, Unfrozen, RouteName, Host, Path, ServiceAt, FirstPort,
         PlainRoutes, HTTP_ONLY_LABEL, Listed;
    TableRoute(q, st, key);
    var names := InOrder(PlainRoutes(Ensured(q, st), q.id));
    assert RouteName(q.cfg.digest, q.id, key) in names;
    i :| 0 <= i < |names| && names[i] == RouteName(q.cfg.digest, q.id, key);
  }

  // ----- readiness -----

  /** Decided by a condition, or left to the events of the route. */
  datatype Verdict = Ready | NotReady(detail: string) | Undecided

  predicate Has(conditions: seq<Condition>, kind: string) {
    exists i :: 0 <= i < |conditions| && conditions[i].kind == kind
  }

  lemma HasSnoc(conditions: seq<Condition>, c: Condition, kind: string)
    ensures Has(conditions + [c], kind) <==> Has(conditions, kind) || c.kind == kind
  {
    var all := conditions + [c];
    assert all[|conditions|] == c;
    if Has(conditions, kind) {
      var j :| 0 <= j < |conditions| && conditions[j].kind == kind;
      assert all[j].kind == kind;
    }
  }

  /** A condition that alone makes a route not ready. */
  predicate Bad(c: Condition) { (c.kind == "Accepted" || c.kind == "ResolvedRefs") && c.status != "True" }

  /** The first parent has both kinds of condition, and all of those are true. */
  predicate ReadyRoute(r: HTTPRoute) {
    && |r.parents| > 0
    && Has(r.parents[0], "Accepted") && Has(r.parents[0], "ResolvedRefs")
    && forall i :: 0 <= i < |r.parents[0]| ==> !Bad(r.parents[0][i])
  }

  function ConditionDetail(c: Condition, fallback: string): string {
    if c.message != "" then c.message else if c.reason != "" then c.reason else fallback
  }

  /** The conditions of a parent are read in order; the first bad one decides. */
  method ReadConditions(conditions: seq<Condition>) returns (v: Verdict)
    ensures v.Ready? <==>
      && Has(conditions, "Accepted") && Has(conditions, "ResolvedRefs")
      && forall i :: 0 <= i < |conditions| ==> !Bad(conditions[i])
    ensures v.NotReady? <==> exists i :: 0 <= i < |conditions| && Bad(conditions[i])
    ensures v.NotReady? ==> exists i ::
      && 0 <= i < |conditions| && Bad(conditions[i]) && (forall j :: 0 <= j < i ==> !Bad(conditions[j]))
      && v.detail
         == (if conditions[i].message != "" then conditions[i].message
             else if conditions[i].reason != "" then conditions[i].reason
             else if conditions[i].kind == "Accepted" then "HTTPRoute not accepted by gateway"
             else "HTTPRoute has unresolved backend references")
  {
    var accepted, resolvedRefs := false, false;
    for i := 0 to |conditions|
      invariant accepted <==> Has(conditions[..i], "Accepted")
      invariant resolvedRefs <==> Has(conditions[..i], "ResolvedRefs")
      invariant forall j :: 0 <= j < i ==> !Bad(conditions[j])
    {
      var c := conditions[i];
      assert conditions[..i + 1] == conditions[..i] + [c];
      HasSnoc(conditions[..i], c, "Accepted");
      HasSnoc(conditions[..i], c, "ResolvedRefs");
      if c.kind == "Accepted" {
        if c.status != "True" {
          assert Bad(conditions[i]);
          return NotReady(ConditionDetail(c, "HTTPRoute not accepted by gateway"));
        }
        accepted := true;
      } else if c.kind == "ResolvedRefs" {
        if c.status != "True" {
          assert Bad(conditions[i]);
          return NotReady(ConditionDetail(c, "HTTPRoute has unresolved backend references"));
        }
        resolvedRefs := true;
      }
    }
    assert conditions[..|conditions|] == conditions;
    v := if accepted && resolvedRefs then Ready else Undecided;
  }
}

/**
  The Gateway API router, call by call: its loops over the cluster leave the store after a prefix of the
  planned writes, and after all of them when no call fails.
 */
module GatewayRouter {
  import opened Router
  import opened Strings
  import Options
  import opened Resources
  import opened Gateway
  import opened GatewayPlans
  import opened GatewayFacts
  import opened GatewayCluster
  import opened GatewayReads

  /** How an Ensure call ends; Stopped is any failure after the request was resolved. */
  datatype Outcome = Done | NoNamespace | NoGatewayName | NoTarget | NoService | Stopped

  /** No two options ask for different values of one annotation. */
  ghost predicate Clear(q: Request) {
    Options.Unambiguous(q.o.opts.additionalOpts, AnnotationRule(q.cfg.optsAsAnnotations))
  }

  /** What the prefix phase was given: a service for each resolved target. */
  predicate Resolved(q: Request, backends: map<string, Service>) {
    && backends.Keys == q.targets.Keys
    && forall k :: k in q.targets ==> q.targets[k] in q.services && backends[k] == q.services[q.targets[k]]
  }

  lemma ApplySnoc(st: Store, plan: seq<Action>, a: Action)
    ensures ApplyAll(st, plan + [a]) == Gateway.Apply(ApplyAll(st, plan), a)
  {
    hide Gateway.Apply;
    assert (plan + [a])[..|plan|] == plan;
  }

  lemma DropRoutesSnoc(names: seq<string>, i: nat, doomed: set<string>)
    requires i < |names|
    ensures DropRoutes(names[..i + 1], doomed)
        == DropRoutes(names[..i], doomed) + (if names[i] in doomed then [DropRoute(names[i])] else [])
    ensures DropRoutes(names[..i + 1], doomed) <= DropRoutes(names, doomed)
    decreases |names| - i
  {
    assert names[..i + 1][..i] == names[..i];
    if i + 1 < |names| { DropRoutesSnoc(names, i + 1, doomed); } else { assert names[..i + 1] == names; }
  }

  lemma DropSetsSnoc(names: seq<string>, i: nat, doomed: set<string>)
    requires i < |names|
    ensures DropSets(names[..i + 1], doomed)
        == DropSets(names[..i], doomed) + (if names[i] in doomed then [DropSet(names[i])] else [])
    ensures DropSets(names[..i + 1], doomed) <= DropSets(names, doomed)
    decreases |names| - i
  {
    assert names[..i + 1][..i] == names[..i];
    if i + 1 < |names| { DropSetsSnoc(names, i + 1, doomed); } else { assert names[..i + 1] == names; }
  }

  lemma CNamePutsSnoc(q: Request, cnames: seq<string>, i: nat)
    requires i < |cnames|
    ensures CNamePuts(q, cnames[..i + 1]) == CNamePuts(q, cnames[..i]) + CNamePut(q, cnames[i])
    ensures CNamePuts(q, cnames[..i + 1]) <= CNamePuts(q, cnames)
    decreases |cnames| - i
  {
    hide CNamePut;
    assert cnames[..i + 1][..i] == cnames[..i];
    if i + 1 < |cnames| { CNamePutsSnoc(q, cnames, i + 1); } else { assert cnames[..i + 1] == cnames; }
  }

  lemma PrefixOfSum(d: seq<Action>, p: seq<Action>, r: seq<Action>)
    requires d <= p
    ensures d <= p + r
  {
  }

  lemma SumPrefix(p: seq<Action>, d: seq<Action>, r: seq<Action>)
    requires d <= r
    ensures p + d <= p + r
  {
  }

  class GatewayAPIService {
    const cluster: Cluster
    var gatewayName: string
    var gatewayNamespace: string
    var domainSuffix: string
    const acmeIssuer: string
    const labels: map<string, string>
    const annotations: map<string, string>
    const optsAsAnnotations: map<string, string>
    const digest: Digest
    const qualified: string -> bool

    constructor (cluster: Cluster, cfg: Config)
      ensures this.cluster == cluster && Cfg() == cfg
    {
      this.cluster := cluster;
      gatewayName, gatewayNamespace, domainSuffix := cfg.gatewayName, cfg.gatewayNamespace, cfg.domainSuffix;
      acmeIssuer, labels, annotations := cfg.acmeIssuer, cfg.labels, cfg.annotations;
      optsAsAnnotations, digest, qualified := cfg.optsAsAnnotations, cfg.digest, cfg.qualified;
    }

    function Cfg(): Config
      reads this
    {
      Config(gatewayName, gatewayNamespace, domainSuffix, acmeIssuer, labels, annotations, optsAsAnnotations, digest,
             qualified)
    }

    method BuildLabels(base: map<string, string>, id: InstanceID, team: string, tags: seq<string>)
      returns (r: map<string, string>)
      ensures r == Labels(Cfg(), base, id, team, tags)
    {
      r := Options.CopyInto(map[], base);
      r := Options.CopyInto(r, labels);
      assert r == base + labels;
      r := r[APP_LABEL := id.appName];
      r := r[TEAM_LABEL := team];
      r := AddTagLabels(r, tags, qualified);
    }

    /** One annotation set for every iteration order, when the options agree. */
    method BuildAnnotations(o: Opts) returns (r: map<string, string>)
      ensures exists order :: && Options.Visits(order, o.additionalOpts)
                              && r == Options.Run(annotations, o.additionalOpts, order,
                                                  AnnotationRule(optsAsAnnotations))
      ensures Options.Unambiguous(o.additionalOpts, AnnotationRule(optsAsAnnotations)) ==>
        r == Options.Settle(annotations, o.additionalOpts, AnnotationRule(optsAsAnnotations))
    {
      r := Options.CopyInto(map[], annotations);
      assert map[] + annotations == annotations;
      ghost var order;
      r, order := Options.ApplyOptions(r, o.additionalOpts, AnnotationRule(optsAsAnnotations));
    }

    /** The keys of src that dst does not have. */
    method MergeAnnotations(dst: map<string, string>, src: map<string, string>) returns (r: map<string, string>)
      ensures r == src + dst
    {
      r := dst;
      var pending := src.Keys;
      while pending != {}
        invariant pending <= src.Keys
        invariant forall k :: k in r <==> k in dst || (k in src && k !in pending)
        invariant forall k :: k in r ==> r[k] == (if k in dst then dst[k] else src[k])
        decreases pending
      {
        var k :| k in pending;
        if k !in r { r := r[k := src[k]]; }
        pending := pending - {k};
      }
    }

    method UpsertHTTPRoute(name: string, route: HTTPRoute, existing: Option<HTTPRoute>) returns (ok: bool)
      modifies cluster
      ensures cluster.sets == old(cluster.sets)
      ensures ok ==> cluster.failures == old(cluster.failures)
      ensures ok && existing.None? ==>
        name !in old(cluster.routes) && cluster.routes == old(cluster.routes)[name := route]
      ensures ok && existing.Some? ==> name in old(cluster.routes) && cluster.routes == old(cluster.routes)[name :=
        route.(annotations := existing.value.annotations + route.annotations,
               parents := old(cluster.routes)[name].parents)]
      ensures !ok ==> cluster.routes == old(cluster.routes)
      ensures !ok && existing.Some? == (name in old(cluster.routes)) ==> cluster.failures > old(cluster.failures)
    {
      if existing.None? {
        ok := cluster.CreateRoute(name, route);
      } else {
        var merged := MergeAnnotations(route.annotations, existing.value.annotations);
        ok := cluster.UpdateRoute(name, route.(annotations := merged));
      }
    }

    method BuildPrefixRoute(ghost q: Request, id: InstanceID, o: EnsureOpts, key: string, target: BackendTarget,
                            svc: Service)
      returns (route: HTTPRoute)
      requires q.cfg == Cfg() && q.id == id && q.o == o && target == TargetAt(q, key)
      requires svc == ServiceAt(q.services, target)
      ensures Clear(q) ==> route == PrefixRoute(q, key)
    {
      hide Labels, Host, Clear;
      var ls := BuildLabels(
        map[INSTANCE_LABEL := id.instanceName, BASE_NAMESPACE_LABEL := target.ns, BASE_NAME_LABEL := target.service,
            HTTP_ONLY_LABEL := if o.opts.httpOnly then "true" else "false"],
        id, o.team, o.tags);
      var anns := BuildAnnotations(o.opts);
      var path := o.opts.route;
      if path == "" { path := "/"; }
      route := HTTPRoute(ls, anns,
        [ToGateway(gatewayName, gatewayNamespace)],
        [Host(Cfg(), id, o.opts, key)],
        [RouteRule(Some(path), svc.name, FirstPort(svc))],
        []);
      ClearAnnotations(q, anns);
    }

    method BuildCNameRoute(ghost q: Request, id: InstanceID, o: EnsureOpts, cname: string, svc: Service,
                           parent: ParentRef)
      returns (route: HTTPRoute)
      requires q.cfg == Cfg() && q.id == id && q.o == o && svc == ServiceAt(q.services, TargetAt(q, "default"))
      ensures Clear(q) ==> route == CNameRoute(q, cname, parent)
    {
      hide Labels, Clear;
      var ls := BuildLabels(map[INSTANCE_LABEL := id.instanceName, CNAME_LABEL := "true"], id, o.team, o.tags);
      var anns := BuildAnnotations(o.opts);
      route := HTTPRoute(ls, anns, [parent], [cname], [RouteRule(None, svc.name, FirstPort(svc))], []);
      ClearAnnotations(q, anns);
    }

    /** One turn of the prefix loop: leave a frozen route, otherwise build the desired one and upsert it. */
    method EnsurePrefixHTTPRoute(ghost q: Request, id: InstanceID, o: EnsureOpts, key: string, target: BackendTarget,
                                 svc: Service)
      returns (ok: bool)
      requires q.cfg == Cfg() && q.id == id && q.o == o && target == TargetAt(q, key)
      requires svc == ServiceAt(q.services, target)
      modifies cluster
      ensures ok && Clear(q) ==>
        cluster.Contents()
          == Gateway.Apply(old(cluster.Contents()), PutRoute(RouteName(digest, id, key), PrefixRoute(q, key)))
      ensures !ok ==> cluster.Contents() == old(cluster.Contents())
      ensures if ok then cluster.failures == old(cluster.failures) else cluster.failures > old(cluster.failures)
    {
      hide PrefixRoute, RouteName, Frozen, Clear, TargetAt, ServiceAt;
      var name := RouteName(digest, id, key);
      var got := cluster.GetRoute(name);
      if got.Failed? { return false; }
      if got.Found? && Frozen(got.value) { return true; }
      var route := BuildPrefixRoute(q, id, o, key, target, svc);
      ok := UpsertHTTPRoute(name, route, if got.Found? then Some(got.value) else None);
    }

    method EnsureHTTPRoutes(ghost q: Request, id: InstanceID, o: EnsureOpts, targets: map<string, BackendTarget>,
                            backends: map<string, Service>, prefixes: seq<string>)
      returns (ok: bool, wanted: set<string>, ghost done: seq<Action>)
      requires q == Request(Cfg(), id, o, cluster.ns, targets, cluster.services) && Resolved(q, backends)
      requires prefixes == InOrder(targets.Keys)
      modifies cluster
      ensures done <= PrefixPuts(q, prefixes) && (ok ==> done == PrefixPuts(q, prefixes))
      ensures Clear(q) ==> cluster.Contents() == ApplyAll(old(cluster.Contents()), done)
      ensures ok ==> wanted == WantedRoutes(q) && cluster.failures == old(cluster.failures)
      ensures !ok ==> cluster.failures > old(cluster.failures)
    {
      hide PrefixRoute, RouteName, Clear, ApplyAll, Gateway.Apply, PrefixPuts, RouteNames;
      ghost var st := cluster.Contents();
      wanted, done := {}, [];
      Started(q, st, prefixes);
      for i := 0 to |prefixes|
        invariant done == PrefixPuts(q, prefixes[..i])
        invariant Clear(q) ==> cluster.Contents() == ApplyAll(st, done)
        invariant wanted == RouteNames(digest, id, Elements(prefixes[..i]))
        invariant cluster.failures == old(cluster.failures)
      {
        var key := prefixes[i];
        assert key in prefixes;
        wanted := wanted + {RouteName(digest, id, key)};
        PutsSnoc(q, prefixes, i);
        ok := EnsurePrefixHTTPRoute(q, id, o, key, targets[key], backends[key]);
        if !ok { return; }
        ApplySnoc(st, done, PutRoute(RouteName(digest, id, key), PrefixRoute(q, key)));
        done := done + [PutRoute(RouteName(digest, id, key), PrefixRoute(q, key))];
      }
      assert prefixes[..|prefixes|] == prefixes;
      ok := true;
    }

    lemma Started(q: Request, st: Store, keys: seq<string>)
      ensures ApplyAll(st, []) == st && PrefixPuts(q, keys[..0]) == []
      ensures RouteNames(digest, q.id, Elements(keys[..0])) == {}
    {
      assert keys[..0] == [];
    }

    lemma PutsSnoc(q: Request, keys: seq<string>, i: nat)
      requires i < |keys|
      ensures PrefixPuts(q, keys[..i]) <= PrefixPuts(q, keys)
      ensures PrefixPuts(q, keys[..i + 1])
          == PrefixPuts(q, keys[..i]) + [PutRoute(RouteName(q.cfg.digest, q.id, keys[i]), PrefixRoute(q, keys[i]))]
      ensures RouteNames(q.cfg.digest, q.id, Elements(keys[..i + 1]))
           == RouteNames(q.cfg.digest, q.id, Elements(keys[..i])) + {RouteName(q.cfg.digest, q.id, keys[i])}
    {
      hide PrefixRoute, RouteName;
      assert keys[..i + 1] == keys[..i] + [keys[i]];
      assert Elements(keys[..i + 1]) == Elements(keys[..i]) + {keys[i]};
    }

    lemma ClearAnnotations(q: Request, anns: map<string, string>)
      requires q.cfg.annotations == annotations && q.cfg.optsAsAnnotations == optsAsAnnotations
      requires Options.Unambiguous(q.o.opts.additionalOpts, AnnotationRule(optsAsAnnotations)) ==>
        anns == Options.Settle(annotations, q.o.opts.additionalOpts, AnnotationRule(optsAsAnnotations))
      ensures Clear(q) ==> anns == Annotations(q)
    {
    }

    method CleanupHTTPRoutes(id: InstanceID, wanted: set<string>) returns (ok: bool, ghost done: seq<Action>)
      modifies cluster
      ensures var st := old(cluster.Contents());
        var plan := DropRoutes(InOrder(PlainRoutes(st, id)), Stale(st, id, wanted));
        && done <= plan && (ok ==> done == plan) && cluster.Contents() == ApplyAll(st, done)
      ensures if ok then cluster.failures == old(cluster.failures) else cluster.failures > old(cluster.failures)
    {
      hide Frozen, ApplyAll, Labelled, Matches, Selected, DropRoutes;
      ghost var st := cluster.Contents();
      ghost var names, doomed := InOrder(PlainRoutes(st, id)), Stale(st, id, wanted);
      done := [];
      Nothing(st);
      var items;
      ok, items := cluster.ListRoutes(Selector(id, NoCNameLabel));
      if !ok { return; }
      SelectedIs(st, id);
      forall i | 0 <= i < |names| ensures names[i] in doomed <==> Unwanted(items[i], wanted) {
        assert names[i] in names;
      }
      ok, done := DeleteStale(items, wanted, names, doomed);
    }

    predicate Unwanted(item: RouteItem, wanted: set<string>) {
      item.name !in wanted && !Frozen(item.route) && Lookup(item.route.labels, CNAME_LABEL) != "true"
    }

    method DeleteStale(items: seq<RouteItem>, wanted: set<string>, ghost names: seq<string>, ghost doomed: set<string>)
      returns (ok: bool, ghost done: seq<Action>)
      requires |items| == |names|
      requires forall i :: 0 <= i < |names| ==>
        items[i].name == names[i] && (names[i] in doomed <==> Unwanted(items[i], wanted))
      modifies cluster
      ensures done <= DropRoutes(names, doomed) && (ok ==> done == DropRoutes(names, doomed))
      ensures cluster.Contents() == ApplyAll(old(cluster.Contents()), done)
      ensures if ok then cluster.failures == old(cluster.failures) else cluster.failures > old(cluster.failures)
    {
      hide Unwanted, ApplyAll;
      ghost var st := cluster.Contents();
      done := [];
      Nothing(st);
      for i := 0 to |items|
        invariant done == DropRoutes(names[..i], doomed)
        invariant cluster.Contents() == ApplyAll(st, done)
        invariant cluster.failures == old(cluster.failures)
      {
        DropRoutesSnoc(names, i, doomed);
        if Unwanted(items[i], wanted) {
          var r := cluster.DeleteRoute(items[i].name);
          if r.NotDeleted? { ok := false; return; }
          ApplySnoc(st, done, DropRoute(items[i].name));
          done := done + [DropRoute(items[i].name)];
        }
      }
      assert names[..|names|] == names;
      ok := true;
    }

    lemma Nothing(st: Store)
      ensures ApplyAll(st, []) == st
    {
    }

    /** An unreadable record reads as empty. */
    method GetExistingCNames(id: InstanceID) returns (cnames: seq<string>)
      modifies cluster`failures
      ensures cluster.failures == old(cluster.failures) ==> cnames == Recorded(cluster.Contents(), MainName(digest, id))
      ensures cluster.failures > old(cluster.failures) ==> cnames == [] && cluster.failures == old(cluster.failures) + 1
      ensures cluster.failures >= old(cluster.failures)
    {
      var got := cluster.GetRoute(MainName(digest, id));
      if !got.Found? { return []; }
      var kept := Lookup(got.value.annotations, CNAMES_ANNOTATION);
      if kept == "" { return []; }
      cnames := Split(kept, ',');
    }

    method EnsureListenerSet(ghost q: Request, id: InstanceID, o: EnsureOpts, issuer: string, cname: string)
      returns (ok: bool)
      requires q.cfg == Cfg() && q.id == id && q.o == o
      modifies cluster
      ensures ok ==> cluster.failures == old(cluster.failures)
      ensures ok ==>
        cluster.Contents()
          == Gateway.Apply(old(cluster.Contents()), PutSet(SetName(digest, id, cname), CNameSet(q, cname, issuer)))
      ensures !ok ==> cluster.failures > old(cluster.failures) && cluster.Contents() == old(cluster.Contents())
    {
      hide Labels, SetName, SectionName, TlsSecretName;
      var name := SetName(digest, id, cname);
      var ls := BuildLabels(map[INSTANCE_LABEL := id.instanceName, CERT_ISSUER_LABEL := issuer], id, o.team, o.tags);
      var first := CutAt(issuer, '.');
      var second := if first.Cut? then CutAt(first.after, '.') else NoCut;
      var anns :=
        if second.Cut? then map[ISSUER_KEY := first.before, ISSUER_KIND_KEY := second.before,
                                ISSUER_GROUP_KEY := second.after]
        else map[CLUSTER_ISSUER_KEY := issuer];
      anns := anns[COMMON_NAME_KEY := cname];
      assert anns == CertAnnotations(issuer, cname);
      var listenerSet := ListenerSet(ls, anns, ToGateway(gatewayName, gatewayNamespace),
        [Listener(SectionName(cname), cname, 443, "HTTPS", TlsSecretName(id, cname))]);
      var got := cluster.GetSet(name);
      if got.Failed? { return false; }
      if got.NotFound? {
        ok := cluster.CreateSet(name, listenerSet);
      } else {
        ok := cluster.UpdateSet(name, listenerSet);
      }
    }

    method EnsureCNameHTTPRoute(ghost q: Request, id: InstanceID, o: EnsureOpts, cname: string, target: BackendTarget,
                                parent: ParentRef)
      returns (ok: bool)
      requires q.cfg == Cfg() && q.id == id && q.o == o && q.services == cluster.services
      requires target == TargetAt(q, "default")
      modifies cluster
      ensures ok ==> cluster.failures == old(cluster.failures)
      ensures ok && Clear(q) ==>
        cluster.Contents()
          == Gateway.Apply(old(cluster.Contents()),
                           PutRoute(CNameRouteName(digest, id, cname), CNameRoute(q, cname, parent)))
      ensures !ok ==> cluster.Contents() == old(cluster.Contents())
      ensures !ok && target in cluster.services ==> cluster.failures > old(cluster.failures)
      ensures ok ==> target in cluster.services
      ensures cluster.failures >= old(cluster.failures)
    {
      hide CNameRoute, CNameRouteName, Frozen, Clear, TargetAt;
      var name := CNameRouteName(digest, id, cname);
      var found := cluster.GetService(target);
      if !found.Found? { return false; }
      var route := BuildCNameRoute(q, id, o, cname, found.value, parent);
      var got := cluster.GetRoute(name);
      if got.Failed? { return false; }
      if got.NotFound? {
        ok := cluster.CreateRoute(name, route);
        return;
      }
      if Frozen(got.value) { return true; }
      var merged := MergeAnnotations(route.annotations, got.value.annotations);
      ok := cluster.UpdateRoute(name, route.(annotations := merged));
    }

    method DesiredSets(id: InstanceID, requested: seq<string>) returns (desired: set<string>)
      ensures desired == SetNames(digest, id, Elements(requested))
    {
      hide SetName;
      desired := {};
      for i := 0 to |requested|
        invariant desired == set c | c in requested[..i] :: SetName(digest, id, c)
      {
        assert requested[..i + 1] == requested[..i] + [requested[i]];
        desired := desired + {SetName(digest, id, requested[i])};
      }
      assert requested[..|requested|] == requested;
    }

    method CleanupOrphanedListenerSets(ghost q: Request, id: InstanceID, requested: seq<string>)
      returns (ok: bool, ghost done: seq<Action>)
      requires q.cfg.digest == digest && q.id == id
      requires requested == if q.o.opts.httpOnly then [] else q.o.cnames
      modifies cluster
      ensures var st := old(cluster.Contents());
        done <= SetCleanup(q, st) && (ok ==> done == SetCleanup(q, st)) && cluster.Contents() == ApplyAll(st, done)
      ensures if ok then cluster.failures == old(cluster.failures) else cluster.failures > old(cluster.failures)
    {
      hide ApplyAll, SetsOf, WantedSets, SetCleanup, SetNames, DropSets;
      ghost var st := cluster.Contents();
      CleanupIs(q, st, requested);
      done := [];
      assert ApplyAll(st, []) == st by { Nothing(st); }
      var names;
      ok, names := cluster.ListSets(id);
      if !ok { return; }
      var desired := DesiredSets(id, requested);
      ok, done := DeleteSets(names, desired, SetsOf(st, id) - WantedSets(q));
    }

    /** Deletes the listed ListenerSets that are not to be kept. */
    method DeleteSets(names: seq<string>, keep: set<string>, ghost doomed: set<string>)
      returns (ok: bool, ghost done: seq<Action>)
      requires forall n :: n in names ==> (n in doomed <==> n !in keep)
      modifies cluster
      ensures done <= DropSets(names, doomed) && (ok ==> done == DropSets(names, doomed))
      ensures cluster.Contents() == ApplyAll(old(cluster.Contents()), done)
      ensures if ok then cluster.failures == old(cluster.failures) else cluster.failures > old(cluster.failures)
    {
      hide ApplyAll;
      ghost var st := cluster.Contents();
      done := [];
      Nothing(st);
      for i := 0 to |names|
        invariant done == DropSets(names[..i], doomed)
        invariant cluster.Contents() == ApplyAll(st, done)
        invariant cluster.failures == old(cluster.failures)
      {
        DropSetsSnoc(names, i, doomed);
        assert names[i] in names;
        if names[i] !in keep {
          var r := cluster.DeleteSet(names[i]);
          if r.NotDeleted? { ok := false; return; }
          ApplySnoc(st, done, DropSet(names[i]));
          done := done + [DropSet(names[i])];
        }
      }
      assert names[..|names|] == names;
      ok := true;
    }

    lemma CleanupIs(q: Request, st: Store, requested: seq<string>)
      requires requested == if q.o.opts.httpOnly then [] else q.o.cnames
      ensures SetCleanup(q, st) == DropSets(InOrder(SetsOf(st, q.id)), SetsOf(st, q.id) - WantedSets(q))
      ensures WantedSets(q) == SetNames(q.cfg.digest, q.id, Elements(requested))
    {
      hide SetName;
    }

    /** One turn of the CName loop; without an issuer a TLS CName is skipped. */
    method PutCName(ghost q: Request, id: InstanceID, o: EnsureOpts, target: BackendTarget, cname: string)
      returns (ok: bool, ghost done: seq<Action>)
      requires q == Request(Cfg(), id, o, cluster.ns, q.targets, cluster.services) && target == TargetAt(q, "default")
      modifies cluster
      ensures done <= CNamePut(q, cname) && (ok ==> done == CNamePut(q, cname))
      ensures Clear(q) ==> cluster.Contents() == ApplyAll(old(cluster.Contents()), done)
      ensures ok ==> cluster.failures == old(cluster.failures)
      ensures !ok && target in cluster.services ==> cluster.failures > old(cluster.failures)
      ensures cluster.failures == old(cluster.failures) && target !in cluster.services ==>
        done == StoppedPuts(q, [cname])
      ensures target !in cluster.services && ok ==> CNamePut(q, cname) == []
      ensures !ok ==> CNamePut(q, cname) != []
      ensures cluster.failures >= old(cluster.failures)
    {
      hide CNameSet, CNameRoute, CNameRouteName, SetName, SectionName, Clear, Gateway.Apply;
      ghost var put := PutRoute(CNameRouteName(digest, id, cname), CNameRoute(q, cname, CNameParent(q, cname)));
      done := [];
      if o.opts.httpOnly {
        ok := EnsureCNameHTTPRoute(q, id, o, cname, target, ToGateway(gatewayName, gatewayNamespace));
      } else {
        var issuer := Lookup(o.certIssuers, cname);
        if issuer == "" { issuer := acmeIssuer; }
        if issuer == "" { return true, []; }
        ok := EnsureListenerSet(q, id, o, issuer, cname);
        if !ok { return; }
        done := [PutSet(SetName(digest, id, cname), CNameSet(q, cname, issuer))];
        ok := EnsureCNameHTTPRoute(q, id, o, cname, target,
                                   ToListenerSet(SetName(digest, id, cname), cluster.ns, SectionName(cname)));
      }
      if !ok { return; }
      ApplySnoc(old(cluster.Contents()), done, put);
      done := done + [put];
    }

    /** The CName puts of an Ensure, one CName after another. */
    method PutCNames(ghost q: Request, id: InstanceID, o: EnsureOpts, target: BackendTarget)
      returns (ok: bool, ghost done: seq<Action>)
      requires q == Request(Cfg(), id, o, cluster.ns, q.targets, cluster.services) && target == TargetAt(q, "default")
      modifies cluster
      ensures done <= CNamePuts(q, o.cnames) && (ok ==> done == CNamePuts(q, o.cnames))
      ensures Clear(q) ==> cluster.Contents() == ApplyAll(old(cluster.Contents()), done)
      ensures ok ==> cluster.failures == old(cluster.failures)
      ensures !ok && target in cluster.services ==> cluster.failures > old(cluster.failures)
      ensures cluster.failures == old(cluster.failures) && target !in cluster.services ==>
        done == StoppedPuts(q, o.cnames)
      ensures CNamePuts(q, o.cnames) == [] ==> ok
      ensures cluster.failures >= old(cluster.failures)
    {
      hide CNamePut, Clear, ApplyAll;
      ghost var st := cluster.Contents();
      done := [];
      assert ApplyAll(st, []) == st by { Nothing(st); }
      for i := 0 to |o.cnames|
        invariant done == CNamePuts(q, o.cnames[..i])
        invariant Clear(q) ==> cluster.Contents() == ApplyAll(st, done)
        invariant target !in cluster.services ==>
          done == [] && StoppedPuts(q, o.cnames) == StoppedPuts(q, o.cnames[i..])
        invariant cluster.failures == old(cluster.failures)
      {
        CNamePutsSnoc(q, o.cnames, i);
        ghost var more;
        ok, more := PutCName(q, id, o, target, o.cnames[i]);
        StoppedStep(q, o.cnames, i);
        ApplyConcat(st, done, more);
        done := done + more;
        if !ok {
          PutsSomething(q, o.cnames, i);
          return;
        }
      }
      assert o.cnames[..|o.cnames|] == o.cnames;
      ok := true;
    }

    lemma PutsSomething(q: Request, cnames: seq<string>, i: nat)
      requires i < |cnames| && CNamePut(q, cnames[i]) != []
      ensures CNamePuts(q, cnames) != []
    {
      hide CNamePut;
      CNamePutsAre(q, cnames, CNamePut(q, cnames[i])[0]);
    }

    lemma StoppedStep(q: Request, cnames: seq<string>, i: nat)
      requires i < |cnames|
      ensures CNamePut(q, cnames[i]) == [] ==> StoppedPuts(q, cnames[i..]) == StoppedPuts(q, cnames[i + 1..])
      ensures CNamePut(q, cnames[i]) != [] ==> StoppedPuts(q, cnames[i..]) == StoppedPuts(q, [cnames[i]])
    {
      hide CNamePut;
      assert cnames[i..][0] == cnames[i] && cnames[i..][1..] == cnames[i + 1..];
    }

    method RemoveCNameHTTPRoutes(ghost q: Request, id: InstanceID, cnames: seq<string>)
      returns (ok: bool, ghost done: seq<Action>)
      requires q.cfg.digest == digest && q.id == id
      modifies cluster
      ensures done <= CNameDrops(q, cnames) && (ok ==> done == CNameDrops(q, cnames))
      ensures cluster.Contents() == ApplyAll(old(cluster.Contents()), done)
      ensures if ok then cluster.failures == old(cluster.failures) else cluster.failures > old(cluster.failures)
    {
      hide CNameRouteName;
      done := [];
      for i := 0 to |cnames|
        invariant done == CNameDrops(q, cnames[..i])
        invariant cluster.Contents() == ApplyAll(old(cluster.Contents()), done)
        invariant cluster.failures == old(cluster.failures)
      {
        assert CNameDrops(q, cnames[..i]) <= CNameDrops(q, cnames);
        var r := cluster.DeleteRoute(CNameRouteName(digest, id, cnames[i]));
        if r.NotDeleted? { ok := false; return; }
        ApplySnoc(old(cluster.Contents()), done, DropRoute(CNameRouteName(digest, id, cnames[i])));
        assert CNameDrops(q, cnames[..i + 1]) == done + [DropRoute(CNameRouteName(digest, id, cnames[i]))];
        done := done + [DropRoute(CNameRouteName(digest, id, cnames[i]))];
      }
      assert cnames[..|cnames|] == cnames;
      ok := true;
    }

    /** Everything of the CName plan but its last write; `existing` is what the record was believed to hold. */
    method EnsureCNames(ghost q: Request, id: InstanceID, o: EnsureOpts, target: BackendTarget)
      returns (ok: bool, ghost existing: seq<string>, ghost blind: bool, ghost done: seq<Action>)
      requires q == Request(Cfg(), id, o, cluster.ns, q.targets, cluster.services) && target == TargetAt(q, "default")
      modifies cluster
      ensures existing == (if blind then [] else Recorded(old(cluster.Contents()), Main(q)))
      ensures var st := old(cluster.Contents());
        var plan := CNameWrites(q, existing) + SetCleanup(q, ApplyAll(st, CNameWrites(q, existing)));
        Clear(q) ==> cluster.Contents() == ApplyAll(st, done) && done <= plan && (ok ==> done == plan)
      ensures ok ==> cluster.failures == old(cluster.failures) + if blind then 1 else 0
      ensures blind ==> cluster.failures > old(cluster.failures)
      ensures cluster.failures >= old(cluster.failures)
      ensures !ok && (target in cluster.services || CNamePuts(q, o.cnames) == []) ==>
        cluster.failures > old(cluster.failures)
      ensures !ok && cluster.failures == old(cluster.failures) ==> done == StoppedPuts(q, o.cnames)
    {
      hide ApplyAll, Clear, MainName, Recorded, StoppedPuts, CNamePuts, CNameDrops, SetCleanup, CNameWrites, Without;
      ghost var st := cluster.Contents();
      var recorded := GetExistingCNames(id);
      existing, blind := recorded, cluster.failures > old(cluster.failures);
      CNameWritesParts(q, existing);
      var toAdd, toRemove := DiffCNames(recorded, o.cnames);
      ok, done := PutCNames(q, id, o, target);
      ghost var writes := CNameWrites(q, existing);
      ghost var cleanup := SetCleanup(q, ApplyAll(st, writes));
      PrefixOfSum(done, CNamePuts(q, o.cnames), CNameDrops(q, toRemove));
      PrefixOfSum(done, writes, cleanup);
      if !ok { return; }
      ghost var more;
      ok, more := RemoveCNameHTTPRoutes(q, id, toRemove);
      ApplyConcat(st, done, more);
      SumPrefix(done, more, CNameDrops(q, toRemove));
      done := done + more;
      PrefixOfSum(done, writes, cleanup);
      if !ok { return; }
      ok, more := CleanupOrphanedListenerSets(q, id, if o.opts.httpOnly then [] else o.cnames);
      ApplyConcat(st, done, more);
      if Clear(q) { SumPrefix(done, more, cleanup); }
      done := done + more;
    }

    /** Errors are swallowed: the record is then simply not written. */
    method UpdateCNamesAnnotation(id: InstanceID, cnames: seq<string>) returns (ghost done: bool)
      modifies cluster
      ensures cluster.Contents() ==
        if done then Gateway.Apply(old(cluster.Contents()), WriteRecord(MainName(digest, id), cnames))
          else old(cluster.Contents())
      ensures if done then cluster.failures == old(cluster.failures) else cluster.failures > old(cluster.failures)
    {
      hide MainName;
      var name := MainName(digest, id);
      var got := cluster.GetRoute(name);
      if got.Failed? { return false; }
      if got.NotFound? { return true; }
      var anns := got.value.annotations;
      if |cnames| > 0 {
        anns := anns[CNAMES_ANNOTATION := Join(cnames, ',')];
      } else {
        anns := anns - {CNAMES_ANNOTATION};
      }
      var ok := cluster.UpdateRoute(name, got.value.(annotations := anns));
      done := ok;
    }

    /** The service of every target, looked up in whatever order the targets are ranged over. */
    method ResolveServices(targets: map<string, BackendTarget>) returns (ok: bool, backends: map<string, Service>)
      modifies cluster`failures
      ensures ok ==> backends.Keys == targets.Keys && cluster.failures == old(cluster.failures)
      ensures ok ==>
        forall k :: k in targets ==> targets[k] in cluster.services && backends[k] == cluster.services[targets[k]]
      ensures !ok && (forall k :: k in targets ==> targets[k] in cluster.services) ==>
        cluster.failures > old(cluster.failures)
      ensures cluster.failures >= old(cluster.failures)
    {
      backends := map[];
      var pending := targets.Keys;
      while pending != {}
        invariant pending <= targets.Keys && backends.Keys == targets.Keys - pending
        invariant forall k :: k in backends ==>
          targets[k] in cluster.services && backends[k] == cluster.services[targets[k]]
        invariant cluster.failures == old(cluster.failures)
        decreases pending
      {
        var k :| k in pending;
        var got := cluster.GetService(targets[k]);
        if !got.Found? { return false, backends; }
        backends := backends[k := got.value];
        pending := pending - {k};
      }
      ok := true;
    }

    /** The prefix routes: put those wanted, delete those that are stale. */
    method EnsureRoutes(ghost q: Request, id: InstanceID, o: EnsureOpts, targets: map<string, BackendTarget>,
                        backends: map<string, Service>)
      returns (ok: bool, ghost done: seq<Action>)
      requires q == Request(Cfg(), id, o, cluster.ns, targets, cluster.services) && Resolved(q, backends)
      modifies cluster
      ensures Clear(q) ==> cluster.Contents() == ApplyAll(old(cluster.Contents()), done)
      ensures Clear(q) ==>
        done <= RoutePlan(q, old(cluster.Contents())) && (ok ==> done == RoutePlan(q, old(cluster.Contents())))
      ensures if ok then cluster.failures == old(cluster.failures) else cluster.failures > old(cluster.failures)
    {
      hide ApplyAll, Clear, WantedRoutes, PrefixPuts, Cleanup, RoutePlan, Resolved;
      ghost var st := cluster.Contents();
      var wanted;
      var prefixes := SortedKeys(targets.Keys);
      ok, wanted, done := EnsureHTTPRoutes(q, id, o, targets, backends, prefixes);
      PlanStarts(q, st, done);
      if !ok { return; }
      ghost var more;
      ok, more := CleanupHTTPRoutes(id, wanted);
      ApplyConcat(st, done, more);
      if Clear(q) {
        CleanupIsDrops(q, ApplyAll(st, done));
        CleanupStarts(q, st, done, more);
      }
      done := done + more;
    }

    lemma CleanupIsDrops(q: Request, st: Store)
      ensures Cleanup(q, st) == DropRoutes(InOrder(PlainRoutes(st, q.id)), Stale(st, q.id, WantedRoutes(q)))
    {
    }

    /** The CNames: reconcile them, then write the record. */
    method EnsureCNamesAndRecord(ghost q: Request, id: InstanceID, o: EnsureOpts, target: BackendTarget)
      returns (ok: bool, ghost existing: seq<string>, ghost blind: bool, ghost recorded: bool, ghost done: seq<Action>)
      requires q == Request(Cfg(), id, o, cluster.ns, q.targets, cluster.services) && target == TargetAt(q, "default")
      modifies cluster
      ensures existing == (if blind then [] else Recorded(old(cluster.Contents()), Main(q)))
      ensures Clear(q) ==> cluster.Contents() == ApplyAll(old(cluster.Contents()), done)
      ensures Clear(q) ==> done <= CNamePlan(q, old(cluster.Contents()), existing)
      ensures ok && Clear(q) ==> var plan := CNamePlan(q, old(cluster.Contents()), existing);
        plan != [] && done == if recorded then plan else plan[..|plan| - 1]
      ensures ok && recorded ==> cluster.failures == old(cluster.failures) + if blind then 1 else 0
      ensures ok && !recorded ==> cluster.failures > old(cluster.failures) + if blind then 1 else 0
      ensures blind ==> cluster.failures > old(cluster.failures)
      ensures cluster.failures >= old(cluster.failures)
      ensures !ok && (target in cluster.services || CNamePuts(q, o.cnames) == []) ==>
        cluster.failures > old(cluster.failures)
      ensures !ok && cluster.failures == old(cluster.failures) ==> done == StoppedPuts(q, o.cnames)
    {
      hide ApplyAll, Clear, MainName, Recorded, CNamePlan, CNameWrites, SetCleanup, StoppedPuts, Gateway.Apply;
      ghost var st := cluster.Contents();
      recorded := false;
      ok, existing, blind, done := EnsureCNames(q, id, o, target);
      CNamePlanParts(q, st, existing);
      ghost var record := WriteRecord(Main(q), o.cnames);
      if Clear(q) { PlanInit(CNamePlan(q, st, existing), done); }
      if !ok { return; }
      recorded := UpdateCNamesAnnotation(id, o.cnames);
      if recorded {
        ApplySnoc(st, done, record);
        done := done + [record];
      }
    }

    lemma PlanInit(plan: seq<Action>, done: seq<Action>)
      requires plan != [] && done <= plan[..|plan| - 1]
      ensures done <= plan && (done == plan[..|plan| - 1] ==> done + [plan[|plan| - 1]] == plan)
    {
    }

    /** The CNames, unless none are requested or recorded. */
    method ReconcileCNames(ghost q: Request, id: InstanceID, o: EnsureOpts, target: BackendTarget)
      returns (ok: bool, ghost blind: bool, ghost recorded: bool, ghost done: seq<Action>)
      requires q == Request(Cfg(), id, o, cluster.ns, q.targets, cluster.services) && target == TargetAt(q, "default")
      modifies cluster
      ensures Clear(q) ==> cluster.Contents() == ApplyAll(old(cluster.Contents()), done)
      ensures Clear(q) ==> done <= CNamePart(q, old(cluster.Contents()), blind)
      ensures ok && Clear(q) ==> CNamesEnded(q, old(cluster.Contents()), blind, recorded, done)
      ensures ok && cluster.failures == old(cluster.failures) ==> !blind
      ensures ok && cluster.failures == old(cluster.failures) && Clear(q) ==>
        done == CNamePart(q, old(cluster.Contents()), false)
      ensures ok && blind && cluster.failures == old(cluster.failures) + 1 ==> recorded
      ensures cluster.failures >= old(cluster.failures)
      ensures !ok && (target in cluster.services || CNamePuts(q, o.cnames) == []) ==>
        cluster.failures > old(cluster.failures)
      ensures !ok && cluster.failures == old(cluster.failures) ==> done == StoppedPuts(q, o.cnames)
    {
      hide ApplyAll, Clear, MainName, Recorded, CNamePlan, StoppedPuts;
      blind, recorded, done := false, false, [];
      Nothing(cluster.Contents());
      if |o.cnames| == 0 {
        var existing := GetExistingCNames(id);
        if |existing| == 0 { return true, blind, recorded, done; }
      }
      ghost var existing;
      ok, existing, blind, recorded, done := EnsureCNamesAndRecord(q, id, o, target);
    }

    /** The part of Ensure that writes, once the request is resolved. */
    method EnsureResolved(ghost q: Request, id: InstanceID, o: EnsureOpts, targets: map<string, BackendTarget>,
                          backends: map<string, Service>)
      returns (outcome: Outcome, ghost blind: bool, ghost recorded: bool, ghost done: seq<Action>)
      requires q == Request(Cfg(), id, o, cluster.ns, targets, cluster.services) && Resolved(q, backends)
      modifies cluster
      ensures outcome.Done? || outcome.Stopped?
      ensures outcome.Done? && Clear(q) ==> Ended(q, old(cluster.Contents()), blind, recorded, done)
      ensures outcome.Done? && blind && cluster.failures == old(cluster.failures) + 1 ==> recorded
      ensures Clear(q) ==> cluster.Contents() == ApplyAll(old(cluster.Contents()), done)
      ensures Clear(q) ==> done <= Planned(q, old(cluster.Contents()), blind)
      ensures outcome.Done? && cluster.failures == old(cluster.failures) ==> !blind
      ensures outcome.Done? && cluster.failures == old(cluster.failures) && Clear(q) ==>
        done == EnsurePlan(q, old(cluster.Contents()))
      ensures outcome.Stopped? && ("default" in targets || CNamePuts(q, o.cnames) == []) ==>
        cluster.failures > old(cluster.failures)
      ensures outcome.Stopped? && cluster.failures == old(cluster.failures) && Clear(q) ==>
        done == RoutePlan(q, old(cluster.Contents())) + StoppedPuts(q, o.cnames)
      ensures cluster.failures >= old(cluster.failures)
    {
      hide ApplyAll, Clear, MainName, Recorded, CNamePlan, CNamePart, CNamesEnded, RoutePlan, EnsurePlan, BlindPlan,
           Ended, StoppedPuts;
      ghost var st := cluster.Contents();
      blind, recorded := false, false;
      var ok;
      ok, done := EnsureRoutes(q, id, o, targets, backends);
      PlanParts(q, st, false);
      if Clear(q) { StartsPlan(done, RoutePlan(q, st), CNamePart(q, ApplyAll(st, RoutePlan(q, st)), false)); }
      if !ok { return Stopped, blind, recorded, done; }
      ghost var routes, more := done, [];
      var target := if "default" in targets then targets["default"] else BackendTarget("", "");
      ok, blind, recorded, more := ReconcileCNames(q, id, o, target);
      ApplyConcat(st, routes, more);
      done := routes + more;
      PlanParts(q, st, blind);
      if Clear(q) {
        SumPrefix(routes, more, CNamePart(q, ApplyAll(st, RoutePlan(q, st)), blind));
        if ok { EndedInParts(q, st, blind, recorded, more); }
      }
      outcome := if ok then Done else Stopped;
    }

    lemma StartsPlan(done: seq<Action>, routes: seq<Action>, rest: seq<Action>)
      requires done <= routes
      ensures done <= routes + rest
    {
    }

    lemma PlanParts(q: Request, st: Store, blind: bool)
      ensures Planned(q, st, blind) == RoutePlan(q, st) + CNamePart(q, ApplyAll(st, RoutePlan(q, st)), blind)
      ensures Planned(q, st, false) == EnsurePlan(q, st)
    {
      hide RoutePlan, CNamePlan, Recorded, ApplyAll;
    }

    lemma EndedInParts(q: Request, st: Store, blind: bool, recorded: bool, more: seq<Action>)
      requires CNamesEnded(q, ApplyAll(st, RoutePlan(q, st)), blind, recorded, more)
      ensures Ended(q, st, blind, recorded, RoutePlan(q, st) + more)
    {
      hide RoutePlan, CNamePart, Recorded, ApplyAll, Planned, MainName;
      PlanParts(q, st, blind);
      SumInit(RoutePlan(q, st), CNamePart(q, ApplyAll(st, RoutePlan(q, st)), blind));
    }

    lemma SumInit<T>(p: seq<T>, r: seq<T>)
      ensures p + [] == p
      ensures r != [] ==> p + r != [] && (p + r)[..|p + r| - 1] == p + r[..|r| - 1]
    {
    }

    lemma PlanStarts(q: Request, st: Store, done: seq<Action>)
      requires done <= PrefixPuts(q, InOrder(q.targets.Keys))
      ensures done <= RoutePlan(q, st) && done <= EnsurePlan(q, st)
    {
      hide PrefixPuts, Cleanup, CNamePlan, Recorded, ApplyAll;
    }

    lemma CleanupStarts(q: Request, st: Store, done: seq<Action>, more: seq<Action>)
      requires done == PrefixPuts(q, InOrder(q.targets.Keys)) && more <= Cleanup(q, ApplyAll(st, done))
      ensures done + more <= RoutePlan(q, st) && done + more <= EnsurePlan(q, st)
      ensures more == Cleanup(q, ApplyAll(st, done)) ==> done + more == RoutePlan(q, st)
    {
      hide PrefixPuts, Cleanup, CNamePlan, Recorded, ApplyAll;
    }

    /** What a request needs before anything is written: a gateway name, backend targets, and their services. */
    ghost predicate Resolvable(cfg: Config, o: EnsureOpts, services: map<BackendTarget, Service>) {
      && cfg.gatewayName != ""
      && var found := BackendTargets(o.prefixes, o.opts.exposeAllServices);
         found.Some? && forall k :: k in found.value ==> found.value[k] in services
    }

    method OverrideGateway(o: Opts, ns: string)
      modifies this
      ensures Cfg() == WithGateway(old(Cfg()), o, ns)
    {
      if o.gatewayName != "" { gatewayName := o.gatewayName; }
      if o.gatewayNamespace != "" { gatewayNamespace := o.gatewayNamespace; } else { gatewayNamespace := ns; }
    }

    method OverrideSuffix(o: Opts)
      modifies this
      ensures Cfg() == WithSuffix(old(Cfg()), o)
    {
      if o.domainSuffix != "" { domainSuffix := o.domainSuffix; }
    }

    /** The reads and overrides that open an Ensure; Done means the request is resolved. */
    method Resolve(id: InstanceID, o: EnsureOpts)
      returns (outcome: Outcome, targets: map<string, BackendTarget>, backends: map<string, Service>)
      modifies this, cluster`failures
      ensures !outcome.Stopped? && cluster.failures >= old(cluster.failures)
      ensures outcome.NoNamespace? ==> Cfg() == old(Cfg())
      ensures outcome.NoGatewayName? || outcome.NoTarget? || outcome.NoService? ==>
        Cfg() == WithGateway(old(Cfg()), o.opts, cluster.ns)
      ensures outcome.Done? ==>
        && cluster.failures == old(cluster.failures)
        && Cfg() == WithSuffix(WithGateway(old(Cfg()), o.opts, cluster.ns), o.opts)
        && BackendTargets(o.prefixes, o.opts.exposeAllServices) == Some(targets)
        && Resolved(Request(Cfg(), id, o, cluster.ns, targets, cluster.services), backends)
      ensures cluster.failures == old(cluster.failures) ==>
        (outcome.Done? <==> Resolvable(WithGateway(old(Cfg()), o.opts, cluster.ns), o, cluster.services))
    {
      hide BackendTargets, WithGateway, WithSuffix;
      targets, backends := map[], map[];
      var ok, ns := cluster.AppNamespace();
      if !ok { return NoNamespace, targets, backends; }
      OverrideGateway(o.opts, ns);
      if gatewayName == "" { return NoGatewayName, targets, backends; }
      var found := GetBackendTargets(o.prefixes, o.opts.exposeAllServices);
      if found.None? { return NoTarget, targets, backends; }
      targets := found.value;
      ok, backends := ResolveServices(targets);
      if !ok { return NoService, targets, backends; }
      OverrideSuffix(o.opts);
      outcome := Done;
    }

    lemma Overridden(cfg: Config, o: Opts, ns: string)
      ensures var r := WithGateway(cfg, o, ns);
        && r.gatewayName == (if o.gatewayName != "" then o.gatewayName else cfg.gatewayName)
        && r.gatewayNamespace == (if o.gatewayNamespace != "" then o.gatewayNamespace else ns)
        && WithSuffix(r, o).gatewayName == r.gatewayName && WithSuffix(r, o).gatewayNamespace == r.gatewayNamespace
        && WithSuffix(r, o).domainSuffix == (if o.domainSuffix != "" then o.domainSuffix else cfg.domainSuffix)
    {
    }

    /**
      Ensure. The overrides for the gateway and the domain suffix stick to the router. The writes made are
      a prefix of the plan; all of it when no call fails. Two errors are swallowed: when the record cannot be
      read (`blind`), it is taken as empty, which changes the plan; and it may not get `recorded`. When only
      the read failed, the whole blind plan was made.
     */
    method Ensure(id: InstanceID, o: EnsureOpts)
      returns (outcome: Outcome, ghost q: Request, ghost blind: bool, ghost recorded: bool, ghost done: seq<Action>)
      modifies this, cluster
      ensures outcome.NoNamespace? ==> Cfg() == old(Cfg())
      ensures outcome.NoGatewayName? || outcome.NoTarget? || outcome.NoService? ==>
        Cfg() == WithGateway(old(Cfg()), o.opts, cluster.ns)
      ensures !outcome.NoNamespace? ==>
        && gatewayName == (if o.opts.gatewayName != "" then o.opts.gatewayName else old(gatewayName))
        && gatewayNamespace == (if o.opts.gatewayNamespace != "" then o.opts.gatewayNamespace else cluster.ns)
      ensures outcome.Done? || outcome.Stopped? ==>
        domainSuffix == if o.opts.domainSuffix != "" then o.opts.domainSuffix else old(domainSuffix)
      ensures !outcome.Done? && !outcome.Stopped? ==> cluster.Contents() == old(cluster.Contents())
      ensures outcome.Done? || outcome.Stopped? ==>
        && Cfg() == WithSuffix(WithGateway(old(Cfg()), o.opts, cluster.ns), o.opts)
        && BackendTargets(o.prefixes, o.opts.exposeAllServices).Some?
        && q == Request(Cfg(), id, o, cluster.ns, BackendTargets(o.prefixes, o.opts.exposeAllServices).value,
                        cluster.services)
      ensures (outcome.Done? || outcome.Stopped?) && Clear(q) ==>
        && cluster.Contents() == ApplyAll(old(cluster.Contents()), done)
        && done <= Planned(q, old(cluster.Contents()), blind)
      ensures outcome.Stopped? && cluster.failures == old(cluster.failures) && Clear(q) ==>
        done == RoutePlan(q, old(cluster.Contents())) + StoppedPuts(q, o.cnames)
      ensures outcome.Done? && cluster.failures == old(cluster.failures) ==> !blind
      ensures outcome.Done? && cluster.failures == old(cluster.failures) && Clear(q) ==>
        cluster.Contents() == Ensured(q, old(cluster.Contents()))
      ensures outcome.Done? && Clear(q) ==> Ended(q, old(cluster.Contents()), blind, recorded, done)
      ensures outcome.Done? && blind && cluster.failures == old(cluster.failures) + 1 ==> recorded
      ensures cluster.failures == old(cluster.failures)
           && Resolvable(WithGateway(old(Cfg()), o.opts, cluster.ns), o, cluster.services)
           && ("default" in q.targets || CNamePuts(q, o.cnames) == [])
           ==> outcome.Done?
    {
      hide ApplyAll, Clear, EnsurePlan, BlindPlan, Ended, BackendTargets, Resolved, Resolvable, WithGateway, WithSuffix;
      var targets, backends;
      outcome, targets, backends := Resolve(id, o);
      Overridden(old(Cfg()), o.opts, cluster.ns);
      q, blind, recorded, done := Request(Cfg(), id, o, cluster.ns, targets, cluster.services), false, false, [];
      if outcome != Done { return; }
      outcome, blind, recorded, done := EnsureResolved(q, id, o, targets, backends);
    }

    method RemoveCNameResources(id: InstanceID) returns (ok: bool, ghost done: seq<Action>)
      modifies cluster
      ensures var st := old(cluster.Contents());
        done <= RemoveCNames(id, st) && (ok ==> done == RemoveCNames(id, st))
          && cluster.Contents() == ApplyAll(st, done)
      ensures if ok then cluster.failures == old(cluster.failures) else cluster.failures > old(cluster.failures)
    {
      hide ApplyAll, Labelled, Matches, CNameRoutes, SetsOf, DropRoutes, DropSets, Selected;
      ghost var st := cluster.Contents();
      ghost var names, own := InOrder(CNameRoutes(st, id)), SetsOf(st, id);
      done := [];
      Nothing(st);
      var items;
      ok, items := cluster.ListRoutes(Selector(id, CNameTrue));
      if !ok { return; }
      SelectedIs(st, id);
      assert forall i :: 0 <= i < |names| ==> names[i] in names;
      ok, done := DeleteRoutes(items, names, CNameRoutes(st, id));
      PrefixOfSum(done, DropRoutes(names, CNameRoutes(st, id)), DropSets(InOrder(own), own));
      if !ok { return; }
      SameSets(st, cluster.Contents(), id);
      var sets;
      ok, sets := cluster.ListSets(id);
      if !ok { return; }
      ghost var more;
      ok, more := DeleteSets(sets, {}, own);
      ApplyConcat(st, done, more);
      SumPrefix(done, more, DropSets(InOrder(own), own));
      done := done + more;
    }

    lemma SameSets(st: Store, s1: Store, id: InstanceID)
      requires s1.sets == st.sets
      ensures SetsOf(s1, id) == SetsOf(st, id)
    {
    }

    /** Deletes listed routes one by one; a route that is already gone is not an error. */
    method DeleteRoutes(items: seq<RouteItem>, ghost names: seq<string>, ghost doomed: set<string>)
      returns (ok: bool, ghost done: seq<Action>)
      requires |items| == |names| && forall i :: 0 <= i < |names| ==> items[i].name == names[i] && names[i] in doomed
      modifies cluster
      ensures done <= DropRoutes(names, doomed) && (ok ==> done == DropRoutes(names, doomed))
      ensures cluster.Contents() == ApplyAll(old(cluster.Contents()), done) && cluster.sets == old(cluster.sets)
      ensures if ok then cluster.failures == old(cluster.failures) else cluster.failures > old(cluster.failures)
    {
      hide ApplyAll;
      ghost var st := cluster.Contents();
      done := [];
      Nothing(st);
      for i := 0 to |items|
        invariant done == DropRoutes(names[..i], doomed)
        invariant cluster.Contents() == ApplyAll(st, done) && cluster.sets == old(cluster.sets)
        invariant cluster.failures == old(cluster.failures)
      {
        DropRoutesSnoc(names, i, doomed);
        var r := cluster.DeleteRoute(items[i].name);
        if r.NotDeleted? { ok := false; return; }
        ApplySnoc(st, done, DropRoute(items[i].name));
        done := done + [DropRoute(items[i].name)];
      }
      assert names[..|names|] == names;
      ok := true;
    }

    /** The labelled prefix routes, and the main route even when it is not labelled. */
    method RemoveOwnRoutes(id: InstanceID) returns (ok: bool, ghost done: seq<Action>)
      modifies cluster
      ensures var plan := RemoveRoutes(digest, id, old(cluster.Contents()));
        done <= plan && (ok ==> done == plan) && cluster.Contents() == ApplyAll(old(cluster.Contents()), done)
      ensures if ok then cluster.failures == old(cluster.failures) else cluster.failures > old(cluster.failures)
    {
      hide ApplyAll, Labelled, Matches, PlainRoutes, MainName, Selected, DropRoutes;
      ghost var st := cluster.Contents();
      done := [];
      Nothing(st);
      var items;
      ok, items := cluster.ListRoutes(Selector(id, NoCNameLabel));
      if !ok { return; }
      SelectedIs(st, id);
      ghost var names := InOrder(PlainRoutes(st, id));
      assert forall i :: 0 <= i < |names| ==> names[i] in names;
      ok, done := DeleteRoutes(items, names, PlainRoutes(st, id));
      if !ok { return; }
      var r := cluster.DeleteRoute(MainName(digest, id));
      if r.NotDeleted? { ok := false; return; }
      ApplySnoc(st, done, DropRoute(MainName(digest, id)));
      done := done + [DropRoute(MainName(digest, id))];
    }

    method Remove(id: InstanceID) returns (ok: bool, ghost done: seq<Action>)
      modifies cluster
      ensures var plan := RemovePlan(digest, id, old(cluster.Contents()));
        && done <= plan && cluster.Contents() == ApplyAll(old(cluster.Contents()), done)
        && (ok ==> done == plan && cluster.Contents() == Removed(digest, id, old(cluster.Contents())))
      ensures if ok then cluster.failures == old(cluster.failures) else cluster.failures > old(cluster.failures)
    {
      hide ApplyAll, RemoveRoutes, RemoveCNames;
      ghost var st := cluster.Contents();
      done := [];
      Nothing(st);
      var name;
      ok, name := cluster.AppNamespace();
      if !ok { return; }
      ok, done := RemoveOwnRoutes(id);
      if !ok { return; }
      ghost var more;
      ok, more := RemoveCNameResources(id);
      ApplyConcat(st, done, more);
      done := done + more;
    }

    method GetAddresses(id: InstanceID) returns (ok: bool, addresses: seq<string>)
      modifies cluster`failures
      ensures if ok then cluster.failures == old(cluster.failures) else cluster.failures > old(cluster.failures)
      ensures ok ==> addresses == Addresses(cluster.Contents(), id)
    {
      hide Labelled, Matches, Selected, AddressesOf;
      addresses := [];
      var name;
      ok, name := cluster.AppNamespace();
      if !ok { return; }
      var items;
      ok, items := cluster.ListRoutes(Selector(id, NoCNameLabel));
      if !ok { return; }
      SelectedIs(cluster.Contents(), id);
      var routes := seq(|items|, i requires 0 <= i < |items| => items[i].route);
      assert routes == Listed(cluster.Contents(), id);
      var schema := "http";
      if |items| > 0 && Lookup(items[0].route.labels, HTTP_ONLY_LABEL) != "true" { schema := "https"; }
      assert schema == SchemaOf(routes);
      addresses := CollectAddresses(routes, schema);
    }

    /** The verdict on one route; the detail of an undecided one comes from its events, whose lookup may fail. */
    method HTTPRouteStatus(route: HTTPRoute) returns (ok: bool, v: Verdict)
      modifies cluster`failures
      ensures cluster.failures == old(cluster.failures) + (if ok then 0 else 1)
      ensures ok ==> !v.Undecided? && (v.Ready? <==> ReadyRoute(route))
      ensures !ok ==> !ReadyRoute(route)
    {
      if |route.parents| > 0 {
        v := ReadConditions(route.parents[0]);
        if !v.Undecided? { return true, v; }
      }
      ok := cluster.Attempt();
      var digest: string := *;
      v := NotReady(digest);
    }

    /** Ready means every listed route is; with none listed, the route of the main name decides. */
    predicate AllReady(st: Store, id: InstanceID) {
      if PlainRoutes(st, id) == {} then MainName(digest, id) in st.routes && ReadyRoute(st.routes[MainName(digest, id)])
      else forall n :: n in PlainRoutes(st, id) ==> ReadyRoute(st.routes[n])
    }

    method GetStatus(id: InstanceID) returns (ok: bool, v: Verdict)
      modifies cluster`failures
      ensures if ok then cluster.failures == old(cluster.failures) else cluster.failures > old(cluster.failures)
      ensures ok ==> !v.Undecided? && (v.Ready? <==> AllReady(cluster.Contents(), id))
    {
      hide Labelled, Matches, Selected, ReadyRoute, MainName, PlainRoutes, AllReady;
      v := NotReady("");
      var name;
      ok, name := cluster.AppNamespace();
      if !ok { return; }
      var items;
      ok, items := cluster.ListRoutes(Selector(id, NoCNameLabel));
      if !ok { return; }
      SelectedIs(cluster.Contents(), id);
      ItemsCover(cluster.Contents(), id, items);
      if |items| == 0 {
        ok, v := MainStatus(id);
      } else {
        ok, v := ItemsStatus(items);
      }
    }

    lemma ItemsCover(st: Store, id: InstanceID, items: seq<RouteItem>)
      requires var names := InOrder(PlainRoutes(st, id));
        |items| == |names| && forall i :: 0 <= i < |names| ==>
          names[i] in st.routes && items[i] == RouteItem(names[i], st.routes[names[i]])
      ensures items == [] ==>
        (AllReady(st, id) <==> MainName(digest, id) in st.routes && ReadyRoute(st.routes[MainName(digest, id)]))
      ensures items != [] ==> (AllReady(st, id) <==> forall i :: 0 <= i < |items| ==> ReadyRoute(items[i].route))
    {
      hide ReadyRoute, MainName, Plain;
      var names := InOrder(PlainRoutes(st, id));
      if items == [] {
        assert PlainRoutes(st, id) == Elements(names);
      } else {
        assert names[0] in names;
        forall n | n in PlainRoutes(st, id) ensures exists i :: 0 <= i < |names| && names[i] == n { assert n in names; }
        forall i | 0 <= i < |names| ensures names[i] in PlainRoutes(st, id) { assert names[i] in names; }
      }
    }

    method MainStatus(id: InstanceID) returns (ok: bool, v: Verdict)
      modifies cluster`failures
      ensures if ok then cluster.failures == old(cluster.failures) else cluster.failures > old(cluster.failures)
      ensures ok ==>
        && !v.Undecided?
        && (v.Ready? <==> MainName(digest, id) in cluster.routes && ReadyRoute(cluster.routes[MainName(digest, id)]))
    {
      hide ReadyRoute, MainName;
      v := NotReady("");
      var got := cluster.GetRoute(MainName(digest, id));
      match got {
        case NotFound => return true, NotReady("waiting for deploy");
        case Failed => return false, v;
        case Found(route) => ok, v := HTTPRouteStatus(route);
      }
    }

    method ItemsStatus(items: seq<RouteItem>) returns (ok: bool, v: Verdict)
      modifies cluster`failures
      ensures if ok then cluster.failures == old(cluster.failures) else cluster.failures > old(cluster.failures)
      ensures ok ==> !v.Undecided? && (v.Ready? <==> forall i :: 0 <= i < |items| ==> ReadyRoute(items[i].route))
    {
      hide ReadyRoute;
      for i := 0 to |items|
        invariant forall j :: 0 <= j < i ==> ReadyRoute(items[j].route)
        invariant cluster.failures == old(cluster.failures)
      {
        ok, v := HTTPRouteStatus(items[i].route);
        if !ok || !v.Ready? { return; }
      }
      return true, Ready;
    }
  }
}

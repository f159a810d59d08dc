/**
  What the objects of a Gateway Ensure read, in the terms of the request: names, hosts, labels, annotations,
  references and certificates as they are spelled in the store.
 */
module GatewayObjects {
  import opened Router
  import opened Strings
  import Options
  import opened Resources
  import opened Gateway
  import opened GatewayPlans
  import opened GatewayFacts
  import opened GatewayEffects
  import opened GatewayClosure
  import opened GatewayReads

  // ----- names -----

  /** One part of a name, with dashes for dots and "wildcard" for a star. */
  function Plainly(s: string): string {
    if s == "" then ""
    else (if s[0] == '.' then "-" else if s[0] == '*' then "wildcard" else [s[0]]) + Plainly(s[1..])
  }

  lemma {:induction false} SanitizeIs(s: string)
    ensures Sanitize(s) == Plainly(s)
  {
    if s != "" {
      var head: string := if s[0] == '.' then "-" else [s[0]];
      assert ReplaceAll(s, '.', "-") == head + ReplaceAll(s[1..], '.', "-");
      ReplaceAllConcat(head, ReplaceAll(s[1..], '.', "-"), '*', "wildcard");
      assert head[1..] == "";
      assert ReplaceAll(head, '*', "wildcard") == (if head[0] == '*' then "wildcard" else [head[0]]) + "";
      SanitizeIs(s[1..]);
    }
  }

  /** n is the name of the route of a backend key. */
  predicate RouteNamed(q: Request, key: string, n: string) {
    Named(q.cfg.digest, q.id,
          if key == "default" then "kube-router-" + q.id.appName else "kube-router-" + q.id.appName + "-" + key, 253, n)
  }

  predicate CNameRouteNamed(q: Request, c: string, n: string) {
    Named(q.cfg.digest, q.id, "kube-router-" + q.id.appName + "-" + c + "-cname", 253, n)
  }

  predicate SetNamed(q: Request, c: string, n: string) {
    Named(q.cfg.digest, q.id, "kube-router-" + q.id.appName + "-" + Plainly(c), 253, n)
  }

  lemma NamesAre(q: Request, x: string, n: string)
    ensures RouteNamed(q, x, n) <==> n == RouteName(q.cfg.digest, q.id, x)
    ensures CNameRouteNamed(q, x, n) <==> n == CNameRouteName(q.cfg.digest, q.id, x)
    ensures SetNamed(q, x, n) <==> n == SetName(q.cfg.digest, q.id, x)
  {
    hide Named, HashedName, Sanitize, Plainly;
    HashedNameIs(q.cfg.digest, q.id, "kube-router-" + q.id.appName, 253, n);
    HashedNameIs(q.cfg.digest, q.id, "kube-router-" + q.id.appName + "-" + x, 253, n);
    HashedNameIs(q.cfg.digest, q.id, "kube-router-" + q.id.appName + "-" + x + "-cname", 253, n);
    HashedNameIs(q.cfg.digest, q.id, "kube-router-" + q.id.appName + "-" + Plainly(x), 253, n);
    SanitizeIs(x);
  }

  // ----- hosts -----

  lemma OwnHostMeans(cfg: Config, id: InstanceID, o: Opts, own: string)
    ensures OwnHost(o, id.appName, cfg.domainSuffix, own) <==> own == Host(cfg, id, o, "default")
  {
    assert o.domainPrefix + "." + (id.appName + "." + cfg.domainSuffix)
        == o.domainPrefix + "." + id.appName + "." + cfg.domainSuffix;
    assert "" + o.domain == o.domain && "" + id.appName == id.appName && "" + o.domainPrefix == o.domainPrefix;
  }

  lemma HostMeans(cfg: Config, id: InstanceID, o: Opts, key: string, host: string)
    ensures HostIs(o, id.appName, cfg.domainSuffix, key, host) <==> host == Host(cfg, id, o, key)
  {
    hide Host, OwnHost;
    forall own ensures OwnHost(o, id.appName, cfg.domainSuffix, own) <==> own == Host(cfg, id, o, "default") {
      OwnHostMeans(cfg, id, o, own);
    }
    assert OwnHost(o, id.appName, cfg.domainSuffix, Host(cfg, id, o, "default"));
    if key != "default" { HostSplits(cfg, id, o, key); }
  }

  // ----- annotations -----

  /** The option is about this annotation: the one it is configured to be, or its own name when that has a '/'. */
  predicate About(q: Request, option: string, name: string) {
    if option in q.cfg.optsAsAnnotations then name == q.cfg.optsAsAnnotations[option]
    else '/' in option && name == option
  }

  /** The option sets annotation k. */
  predicate Sets(q: Request, option: string, k: string) {
    option in q.o.opts.additionalOpts && About(q, option, k) && !(k != "" && k[|k| - 1] == '-')
  }

  /** The option takes annotation k away: it is about k with a dash behind it. */
  predicate Unsets(q: Request, option: string, k: string) {
    option in q.o.opts.additionalOpts && About(q, option, k + "-")
  }

  lemma EndsWith(k: string)
    ensures HasSuffix(k, '-') <==> k != "" && k[|k| - 1] == '-'
  {
  }

  lemma EffectMeans(q: Request, option: string, k: string)
    requires option in q.o.opts.additionalOpts
    ensures var v := q.o.opts.additionalOpts[option]; var e := AnnotationEffect(q.cfg.optsAsAnnotations, option, v);
      && (Sets(q, option, k) <==> e == Options.Put(k, v))
      && (Unsets(q, option, k) <==> e == Options.Erase(k))
      && (e.Put? ==> e.value == v)
  {
    var named := q.cfg.optsAsAnnotations;
    var name := if option in named then named[option] else option;
    SuffixIs(name, k, '-');
    assert About(q, option, k) <==> (option in named || '/' in option) && name == k;
    assert About(q, option, k + "-") <==> (option in named || '/' in option) && name == k + "-";
    hide About, HasSuffix;
    assert HasSuffix(k, '-') <==> k != "" && k[|k| - 1] == '-' by { EndsWith(k); }
  }

  /** What the wanted annotations say about k. */
  lemma AnnotationsAt(q: Request, k: string)
    requires Options.Unambiguous(q.o.opts.additionalOpts, AnnotationRule(q.cfg.optsAsAnnotations))
    ensures var r := Annotations(q);
      && (forall o :: Sets(q, o, k) ==> k in r && r[k] == q.o.opts.additionalOpts[o])
      && (forall o :: Unsets(q, o, k) ==> k !in r)
      && ((forall o :: !Sets(q, o, k) && !Unsets(q, o, k)) ==>
           (k in r <==> k in q.cfg.annotations) && (k in r ==> r[k] == q.cfg.annotations[k]))
  {
    hide Options.Settle, Options.Unambiguous, AnnotationEffect, About;
    var opts, rule := q.o.opts.additionalOpts, AnnotationRule(q.cfg.optsAsAnnotations);
    Options.SettleAt(q.cfg.annotations, opts, rule, k);
    forall o | o in opts
      ensures Sets(q, o, k) <==> rule(o, opts[o]) == Options.Put(k, opts[o])
      ensures Unsets(q, o, k) <==> rule(o, opts[o]) == Options.Erase(k)
      ensures rule(o, opts[o]).Put? ==> rule(o, opts[o]).value == opts[o]
    {
      EffectMeans(q, o, k);
    }
    hide Sets, Unsets, AnnotationRule;
    forall o | o in opts && !rule(o, opts[o]).Skip? && rule(o, opts[o]).key == k
      ensures Sets(q, o, k) || Unsets(q, o, k)
    {
    }
  }

  /**
    Annotation k of a stored object that was `had` before: as an option says, or as configured when no option is
    about it; and what is neither set nor configured stays as it was.
   */
  ghost predicate AnnotationReads(q: Request, had: map<string, string>, now: map<string, string>, k: string) {
    && (forall o :: Sets(q, o, k) ==> k in now && now[k] == q.o.opts.additionalOpts[o])
    && ((forall o :: !Sets(q, o, k) && !Unsets(q, o, k)) && k in q.cfg.annotations ==>
         k in now && now[k] == q.cfg.annotations[k])
    && ((forall o :: !Sets(q, o, k)) && ((exists o :: Unsets(q, o, k)) || k !in q.cfg.annotations) ==>
         (k in now <==> k in had) && (k in now ==> now[k] == had[k]))
  }

  ghost function Had(st: Store, n: string): map<string, string> {
    if n in st.routes then st.routes[n].annotations else map[]
  }

  /** An annotation that no put sets stays as it was, and so does the status. */
  lemma {:induction false} ForeignKept(st: Store, plan: seq<Action>, n: string, k: string)
    requires k != CNAMES_ANNOTATION
    requires forall a :: a in plan && RouteAction(a) && a.name == n ==>
      !a.DropRoute? && (a.PutRoute? ==> k !in a.route.annotations)
    ensures var st' := ApplyAll(st, plan);
      && (n in st.routes ==> n in st'.routes && st'.routes[n].parents == st.routes[n].parents)
      && (k in Had(st', n) <==> k in Had(st, n)) && (k in Had(st, n) ==> Had(st', n)[k] == Had(st, n)[k])
  {
    if plan != [] {
      var init, a := plan[..|plan| - 1], plan[|plan| - 1];
      assert a in plan;
      ForeignKept(st, init, n, k);
      hide ApplyAll, CNAMES_ANNOTATION, Frozen;
      assert ApplyAll(st, plan) == Apply(ApplyAll(st, init), a) by { LastStep(st, plan); }
      ForeignStep(ApplyAll(st, init), a, n, k);
    }
  }

  lemma LastStep(st: Store, plan: seq<Action>)
    requires plan != []
    ensures ApplyAll(st, plan) == Apply(ApplyAll(st, plan[..|plan| - 1]), plan[|plan| - 1])
  {
  }

  lemma ForeignStep(st: Store, a: Action, n: string, k: string)
    requires k != CNAMES_ANNOTATION
    requires RouteAction(a) && a.name == n ==> !a.DropRoute? && (a.PutRoute? ==> k !in a.route.annotations)
    ensures var st' := Apply(st, a);
      && (n in st.routes ==> n in st'.routes && st'.routes[n].parents == st.routes[n].parents)
      && (k in Had(st', n) <==> k in Had(st, n)) && (k in Had(st, n) ==> Had(st', n)[k] == Had(st, n)[k])
  {
    hide CNAMES_ANNOTATION, Frozen;
  }

  /** The prefix route of a key is never dropped, and its puts set the wanted annotations. */
  lemma PrefixForeignKept(q: Request, st: Store, key: string, k: string)
    requires WellFormed(q) && Apart(q, RecordedIn(st, q.cfg.digest, q.id)) && key in q.targets
    requires k !in Annotations(q) && k != CNAMES_ANNOTATION
    ensures var n, st' := RouteName(q.cfg.digest, q.id, key), Ensured(q, st);
      && (n in st.routes ==> n in st'.routes && st'.routes[n].parents == st.routes[n].parents)
      && (k in Had(st', n) <==> k in Had(st, n)) && (k in Had(st, n) ==> Had(st', n)[k] == Had(st, n)[k])
  {
    hide RouteName, CNameRouteName, Annotations, ApplyAll, Recorded, RoutePlan, CNamePlan, Had, Labels, Ensured,
         Clean, CNAMES_ANNOTATION;
    var n, before, existing :=
      RouteName(q.cfg.digest, q.id, key), ApplyAll(st, RoutePlan(q, st)), Recorded(st, Main(q));
    EnsureParts(q, st);
    assert n in WantedRoutes(q);
    forall a | a in RoutePlan(q, st) && RouteAction(a) && a.name == n
      ensures !a.DropRoute? && (a.PutRoute? ==> k !in a.route.annotations)
    {
      RoutePlanActs(q, st, a);
      if a.PutRoute? { RoutePuts(q, st, a); }
    }
    ForeignKept(st, RoutePlan(q, st), n, k);
    if !(q.o.cnames == [] && existing == []) {
      forall a | a in CNamePlan(q, before, existing) && RouteAction(a) && a.name == n
        ensures a.WriteRecord?
      {
        CNamePlanTouches(q, before, existing, a);
      }
      ForeignKept(before, CNamePlan(q, before, existing), n, k);
    }
  }

  /** Every put of the prefix phase sets the wanted annotations. */
  lemma RoutePuts(q: Request, st: Store, a: Action)
    requires Clean(q) && a in RoutePlan(q, st) && a.PutRoute?
    ensures a.route.annotations == Annotations(q)
  {
    hide Annotations, Labels, RouteName, ApplyAll;
    var puts := PrefixPuts(q, InOrder(q.targets.Keys));
    if a in puts {
      PrefixPutsAre(q, InOrder(q.targets.Keys), a);
    } else {
      CleanupDrops(q, ApplyAll(st, puts), a);
    }
  }

  /** The CName phase writes CName routes, and the record on the main route. */
  lemma CNamePlanTouches(q: Request, st: Store, existing: seq<string>, a: Action)
    requires Clean(q) && a in CNamePlan(q, st, existing) && RouteAction(a)
    ensures a.WriteRecord? || a.name in CNameNames(q.cfg.digest, q.id, Elements(existing) + Wanted(q))
  {
    hide CNameRoute, CNameRouteName, CNameSet, CNameParent, ApplyAll, Recorded, Issuer;
    CNamePlanActs(q, st, existing, a);
    if a.PutRoute? { PutInWrites(q, st, existing, a); }
  }

  lemma PutInWrites(q: Request, st: Store, existing: seq<string>, a: Action)
    requires Clean(q) && a in CNamePlan(q, st, existing) && a.PutRoute?
    ensures a.name in CNameNames(q.cfg.digest, q.id, Wanted(q))
  {
    hide CNameRoute, CNameRouteName, CNameSet, CNameParent, ApplyAll, Recorded, Issuer, CNameNames, CNamePuts,
         CNameDrops, SetCleanup, CNamePlan, CNameWrites, Issued, Clean;
    CNamePlanParts(q, st, existing);
    SetCleanupEffect(q, ApplyAll(st, CNameWrites(q, existing)));
    var plan := CNamePlan(q, st, existing);
    assert plan == plan[..|plan| - 1] + [plan[|plan| - 1]];
    CNameWritesParts(q, existing);
    var c := PutsAreIssued(q, a);
    IssuedRequested(q, c);
    CNameNamed(q, c);
  }

  lemma CNameNamed(q: Request, c: string)
    requires c in q.o.cnames
    ensures CNameRouteName(q.cfg.digest, q.id, c) in CNameNames(q.cfg.digest, q.id, Wanted(q))
  {
  }

  // ----- prefix routes -----

  /** Nothing is stored under n, or no one has frozen it. */
  predicate NotFrozen(st: Store, n: string) {
    n in st.routes ==> Lookup(st.routes[n].annotations, "router.tsuru.io/freeze") != "true"
  }

  /** The rule sends what it matches to the first port of the service, or to 8888. */
  predicate SendsTo(rule: RouteRule, svc: Service) {
    && rule.service == svc.name
    && (svc.ports != [] ==> rule.port == svc.ports[0].port) && (svc.ports == [] ==> rule.port == 8888)
  }

  /** What the prefix route of a key reads. */
  ghost predicate PrefixRouteReads(q: Request, key: string, r: HTTPRoute)
    requires key in q.targets
  {
    && r.parentRefs == [ToGateway(q.cfg.gatewayName, q.cfg.gatewayNamespace)]
    && |r.hostnames| == 1 && HostIs(q.o.opts, q.id.appName, q.cfg.domainSuffix, key, r.hostnames[0])
    && |r.rules| == 1
    && (q.o.opts.route == "" ==> r.rules[0].path == Some("/"))
    && (q.o.opts.route != "" ==> r.rules[0].path == Some(q.o.opts.route))
    && (q.targets[key] in q.services ==> SendsTo(r.rules[0], q.services[q.targets[key]]))
    && LabelsRead(r.labels,
                  map["router.tsuru.io/instance" := q.id.instanceName,
                      "router.tsuru.io/base-service-namespace" := q.targets[key].ns,
                      "router.tsuru.io/base-service-name" := q.targets[key].service,
                      "router.tsuru.io/http-only" := if q.o.opts.httpOnly then "true" else "false"],
                  q.cfg.labels, q.id, q.o.team, q.o.tags, q.cfg.qualified)
  }

  lemma PrefixRouteMeans(q: Request, key: string, r: HTTPRoute)
    requires key in q.targets && SameSpec(r, PrefixRoute(q, key))
    ensures PrefixRouteReads(q, key, r)
  {
    HostMeans(q.cfg, q.id, q.o.opts, key, Host(q.cfg, q.id, q.o.opts, key));
    LabelsAre(map["router.tsuru.io/instance" := q.id.instanceName,
                  "router.tsuru.io/base-service-namespace" := q.targets[key].ns,
                  "router.tsuru.io/base-service-name" := q.targets[key].service,
                  "router.tsuru.io/http-only" := if q.o.opts.httpOnly then "true" else "false"],
              q.cfg.labels, q.id, q.o.team, q.o.tags, q.cfg.qualified);
    hide HostIs, Host, LabelsRead, Annotations, TagLabels;
  }

  /**
    A complete Ensure leaves under the name of each backend key, unless it is frozen, a route of the gateway for
    the key's host that sends the path to the key's service.
   */
  lemma PrefixRouteWritten(q: Request, st: Store, key: string, n: string)
    requires WellFormed(q) && Apart(q, RecordedIn(st, q.cfg.digest, q.id)) && PrefixesDistinct(q) && key in q.targets
    requires RouteNamed(q, key, n) && NotFrozen(st, n)
    ensures n in Ensured(q, st).routes && PrefixRouteReads(q, key, Ensured(q, st).routes[n])
  {
    hide RouteNamed, Ensured, Clean, Apart, PrefixesDistinct, RecordedIn, RouteName, PrefixRoute, PrefixRouteReads,
         CNameRouteNamed, SetNamed, WantedRoutes, SameSpec;
    NamesAre(q, key, n);
    EnsurePrefixRoute(q, st, key);
    PrefixRouteMeans(q, key, Ensured(q, st).routes[n]);
  }

  /** Its annotations, and the status it had. */
  lemma PrefixAnnotationsWritten(q: Request, st: Store, key: string, n: string, k: string)
    requires WellFormed(q) && Apart(q, RecordedIn(st, q.cfg.digest, q.id)) && PrefixesDistinct(q) && key in q.targets
    requires Options.Unambiguous(q.o.opts.additionalOpts, AnnotationRule(q.cfg.optsAsAnnotations))
    requires RouteNamed(q, key, n) && NotFrozen(st, n) && k != "router.tsuru.io/cnames"
    ensures AnnotationReads(q, Had(st, n), Had(Ensured(q, st), n), k)
    ensures n in st.routes ==> n in Ensured(q, st).routes && Ensured(q, st).routes[n].parents == st.routes[n].parents
  {
    assert k != CNAMES_ANNOTATION;
    hide RouteNamed, Ensured, WellFormed, Apart, PrefixesDistinct, RecordedIn, RouteName, Annotations, AnnotationReads,
         Options.Unambiguous, AnnotationRule, CNameRouteNamed, SetNamed, Had, SameSpec, CNAMES_ANNOTATION;
    NamesAre(q, key, n);
    EnsurePrefixRoute(q, st, key);
    var had, now := Had(st, n), Had(Ensured(q, st), n);
    assert k in Annotations(q) ==> k in now && now[k] == Annotations(q)[k] by {
      CarriesHad(Ensured(q, st), n, PrefixRoute(q, key), k);
    }
    assert k !in Annotations(q) ==> (k in now <==> k in had) && (k in now ==> now[k] == had[k]) by {
      if k !in Annotations(q) { PrefixForeignKept(q, st, key, k); }
    }
    ReadsAsWanted(q, had, now, k);
    FreezeLeft(q);
    PrefixForeignKept(q, st, key, FREEZE_ANNOTATION);
  }

  lemma FreezeLeft(q: Request)
    requires WellFormed(q)
    ensures FREEZE_ANNOTATION !in Annotations(q) && FREEZE_ANNOTATION != CNAMES_ANNOTATION
  {
    hide Annotations;
    AnnotationsLeft(q);
    KeysDiffer();
  }

  lemma CarriesHad(st: Store, n: string, r: HTTPRoute, k: string)
    requires n in st.routes && Carries(st.routes[n], r)
    ensures k in r.annotations ==> k in Had(st, n) && Had(st, n)[k] == r.annotations[k]
  {
  }

  lemma ReadsAsWanted(q: Request, had: map<string, string>, now: map<string, string>, k: string)
    requires Options.Unambiguous(q.o.opts.additionalOpts, AnnotationRule(q.cfg.optsAsAnnotations))
    requires k in Annotations(q) ==> k in now && now[k] == Annotations(q)[k]
    requires k !in Annotations(q) ==> (k in now <==> k in had) && (k in now ==> now[k] == had[k])
    ensures AnnotationReads(q, had, now, k)
  {
    AnnotationsAt(q, k);
    hide Annotations, Sets, Unsets, Options.Unambiguous, AnnotationRule;
  }

  // ----- addresses -----

  /** a is the address of a backend key: the scheme of the mode before the key's host. */
  ghost predicate AddressIs(q: Request, key: string, a: string) {
    exists host ::
      && HostIs(q.o.opts, q.id.appName, q.cfg.domainSuffix, key, host)
      && a == (if q.o.opts.httpOnly then "http://" else "https://") + host
  }

  lemma AddressMeans(q: Request, key: string, a: string)
    ensures AddressIs(q, key, a)
       <==> a == Address(if q.o.opts.httpOnly then "http" else "https", Host(q.cfg, q.id, q.o.opts, key))
  {
    hide Host, HostIs;
    assert "http" + "://" == "http://" && "https" + "://" == "https://";
    forall host
      ensures HostIs(q.o.opts, q.id.appName, q.cfg.domainSuffix, key, host)
         <==> host == Host(q.cfg, q.id, q.o.opts, key)
    {
      HostMeans(q.cfg, q.id, q.o.opts, key, host);
    }
    var own := Host(q.cfg, q.id, q.o.opts, key);
    assert HostIs(q.o.opts, q.id.appName, q.cfg.domainSuffix, key, own);
    assert Address(if q.o.opts.httpOnly then "http" else "https", own)
        == (if q.o.opts.httpOnly then "http://" else "https://") + own;
  }

  /** The addresses reported after an Ensure with nothing frozen are those of the backend keys. */
  lemma AddressesWritten(q: Request, st: Store, a: string)
    requires WellFormed(q) && Apart(q, RecordedIn(st, q.cfg.digest, q.id)) && PrefixesDistinct(q) && Unfrozen(q, st)
    ensures a in Addresses(Ensured(q, st), q.id) <==> exists key :: key in q.targets && AddressIs(q, key, a)
  {
    hide WellFormed, Apart, PrefixesDistinct, Unfrozen, Addresses, Host, AddressIs, Address, RecordedIn, Ensured;
    AddressesExact(q, st, a);
    forall key | key in q.targets
      ensures AddressIs(q, key, a)
         <==> a == Address(if q.o.opts.httpOnly then "http" else "https", Host(q.cfg, q.id, q.o.opts, key))
    {
      AddressMeans(q, key, a);
    }
  }

  // ----- CName routes -----

  /** What names the certificate issuer of a CName: its own issuer, or else the router's. */
  ghost predicate IssuerIs(q: Request, c: string, issuer: string) {
    && (c in q.o.certIssuers && q.o.certIssuers[c] != "" ==> issuer == q.o.certIssuers[c])
    && (c !in q.o.certIssuers || q.o.certIssuers[c] == "" ==> issuer == q.cfg.acmeIssuer)
  }

  lemma IssuerMeans(q: Request, c: string, issuer: string)
    ensures IssuerIs(q, c, issuer) <==> issuer == Issuer(q, c)
  {
  }

  /** The CName gets a route: in TLS mode it needs an issuer. */
  ghost predicate GetsRoute(q: Request, c: string, issuer: string) {
    c in q.o.cnames && IssuerIs(q, c, issuer) && (q.o.opts.httpOnly || issuer != "")
  }

  /** What the route of a CName reads. */
  ghost predicate CNameRouteReads(q: Request, c: string, r: HTTPRoute)
    requires "default" in q.targets
  {
    && r.hostnames == [c]
    && |r.rules| == 1 && r.rules[0].path == None
    && (q.targets["default"] in q.services ==> SendsTo(r.rules[0], q.services[q.targets["default"]]))
    && |r.parentRefs| == 1
    && (q.o.opts.httpOnly ==> r.parentRefs[0] == ToGateway(q.cfg.gatewayName, q.cfg.gatewayNamespace))
    && (!q.o.opts.httpOnly ==>
         && r.parentRefs[0].ToListenerSet? && SetNamed(q, c, r.parentRefs[0].name)
         && r.parentRefs[0].ns == q.ns && r.parentRefs[0].section == Truncate(Plainly(c), 63))
    && LabelsRead(r.labels, map["router.tsuru.io/instance" := q.id.instanceName, "router.tsuru.io/is-cname" := "true"],
                  q.cfg.labels, q.id, q.o.team, q.o.tags, q.cfg.qualified)
  }

  lemma CNameRouteMeans(q: Request, c: string, r: HTTPRoute)
    requires "default" in q.targets && SameSpec(r, CNameRoute(q, c, CNameParent(q, c)))
    ensures CNameRouteReads(q, c, r)
  {
    LabelsAre(map["router.tsuru.io/instance" := q.id.instanceName, "router.tsuru.io/is-cname" := "true"],
              q.cfg.labels, q.id, q.o.team, q.o.tags, q.cfg.qualified);
    NamesAre(q, c, SetName(q.cfg.digest, q.id, c));
    SanitizeIs(c);
    hide LabelsRead, Annotations, TagLabels, SetNamed, SetName, RouteNamed, CNameRouteNamed, Sanitize, Plainly;
  }

  /** A complete Ensure leaves such a route for each requested CName that gets one, unless it is frozen. */
  lemma CNameRouteWritten(q: Request, st: Store, c: string, issuer: string, n: string)
    requires WellFormed(q) && Apart(q, RecordedIn(st, q.cfg.digest, q.id)) && GetsRoute(q, c, issuer)
    requires CNamesDistinct(q.cfg.digest, q.id, RecordedIn(st, q.cfg.digest, q.id) + Wanted(q))
    requires CNameRouteNamed(q, c, n) && NotFrozen(st, n)
    ensures n in Ensured(q, st).routes && CNameRouteReads(q, c, Ensured(q, st).routes[n])
  {
    IssuerMeans(q, c, issuer);
    hide CNameRouteNamed, Ensured, Clean, Apart, CNamesDistinct, RecordedIn, CNameRouteName, CNameRoute, CNameParent,
         CNameRouteReads, RouteNamed, SetNamed, SameSpec;
    NamesAre(q, c, n);
    EnsureCNameRoute(q, st, c);
    CNameRouteMeans(q, c, Ensured(q, st).routes[n]);
  }

  // ----- ListenerSets -----

  /** The issuer is spelled name.kind.group, the first two without a dot. */
  ghost predicate External(issuer: string, name: string, kind: string, group: string) {
    issuer == name + "." + kind + "." + group && '.' !in name && '.' !in kind
  }

  /** What cert-manager reads on the ListenerSet of a CName. */
  ghost predicate CertReads(issuer: string, c: string, annotations: map<string, string>) {
    && (forall n, k, g :: External(issuer, n, k, g) ==>
          annotations == map["cert-manager.io/issuer" := n, "cert-manager.io/issuer-kind" := k,
                             "cert-manager.io/issuer-group" := g, "cert-manager.io/common-name" := c])
    && ((forall n, k, g :: !External(issuer, n, k, g)) ==>
          annotations == map["cert-manager.io/cluster-issuer" := issuer, "cert-manager.io/common-name" := c])
  }

  lemma ExternalMeans(issuer: string, n: string, k: string, g: string)
    ensures External(issuer, n, k, g) <==>
      && CutAt(issuer, '.').Cut? && CutAt(issuer, '.').before == n
      && CutAt(CutAt(issuer, '.').after, '.') == Cut(k, g)
  {
    assert n + "." + k + "." + g == n + "." + (k + "." + g);
    hide CutAt;
    if External(issuer, n, k, g) {
      CutExactly(issuer, n, k + "." + g, '.');
      CutExactly(k + "." + g, k, g, '.');
    } else if CutAt(issuer, '.').Cut? && CutAt(issuer, '.').before == n {
      var rest := CutAt(issuer, '.').after;
      CutExactly(issuer, n, rest, '.');
      CutExactly(rest, k, g, '.');
    }
  }

  lemma CertMeans(issuer: string, c: string)
    ensures CertReads(issuer, c, CertAnnotations(issuer, c))
  {
    hide External, CutAt;
    forall n, k, g ensures External(issuer, n, k, g) <==>
      && CutAt(issuer, '.').Cut? && CutAt(issuer, '.').before == n
      && CutAt(CutAt(issuer, '.').after, '.') == Cut(k, g)
    {
      ExternalMeans(issuer, n, k, g);
    }
    var first := CutAt(issuer, '.');
    if first.Cut? && CutAt(first.after, '.').Cut? {
      var second := CutAt(first.after, '.');
      assert External(issuer, first.before, second.before, second.after);
    }
  }

  /** What the ListenerSet of a CName reads. */
  ghost predicate SetReads(q: Request, c: string, issuer: string, ls: ListenerSet) {
    && ls.gateway == ToGateway(q.cfg.gatewayName, q.cfg.gatewayNamespace)
    && |ls.listeners| == 1 && ls.listeners[0].hostname == c
    && ls.listeners[0].port == 443 && ls.listeners[0].protocol == "HTTPS"
    && ls.listeners[0].name == Truncate(Plainly(c), 63)
    && ls.listeners[0].secret == Truncate(Plainly(q.id.appName + "-" + c + "-tls"), 253)
    && LabelsRead(ls.labels, map["router.tsuru.io/instance" := q.id.instanceName,
                                 "router.tsuru.io/cert-issuer" := issuer],
                  q.cfg.labels, q.id, q.o.team, q.o.tags, q.cfg.qualified)
    && CertReads(issuer, c, ls.annotations)
  }

  lemma SetMeans(q: Request, c: string, issuer: string)
    ensures SetReads(q, c, issuer, CNameSet(q, c, issuer))
  {
    LabelsAre(map["router.tsuru.io/instance" := q.id.instanceName, "router.tsuru.io/cert-issuer" := issuer],
              q.cfg.labels, q.id, q.o.team, q.o.tags, q.cfg.qualified);
    SanitizeIs(c);
    SanitizeIs(q.id.appName + "-" + c + "-tls");
    CertMeans(issuer, c);
    hide LabelsRead, TagLabels, CertReads, CertAnnotations, Sanitize, Plainly;
  }

  /** In TLS mode a complete Ensure leaves such a ListenerSet for each requested CName that has an issuer. */
  lemma SetWritten(q: Request, st: Store, c: string, issuer: string, n: string)
    requires WellFormed(q) && Apart(q, RecordedIn(st, q.cfg.digest, q.id)) && GetsRoute(q, c, issuer)
    requires !q.o.opts.httpOnly && SetsDistinct(q.cfg.digest, q.id, Wanted(q)) && SetNamed(q, c, n)
    ensures n in Ensured(q, st).sets && SetReads(q, c, issuer, Ensured(q, st).sets[n])
  {
    IssuerMeans(q, c, issuer);
    hide CNameRouteNamed, Ensured, Clean, Apart, SetsDistinct, RecordedIn, SetName, CNameSet, SetReads, RouteNamed,
         SetNamed;
    NamesAre(q, c, n);
    EnsureCNameSet(q, st, c);
    SetMeans(q, c, issuer);
  }

  /**
    Which ListenerSets of the id a complete Ensure leaves, when it has CNames to reconcile: none in HTTP-only mode,
    otherwise those named after a requested CName that has an issuer, or that were there.
   */
  lemma SetsLeftExactly(q: Request, st: Store, n: string)
    requires WellFormed(q) && Apart(q, RecordedIn(st, q.cfg.digest, q.id))
    requires q.o.cnames != [] || Recorded(st, Main(q)) != []
    ensures n in SetsOf(Ensured(q, st), q.id) <==>
      !q.o.opts.httpOnly
        && exists c ::
             c in q.o.cnames && SetNamed(q, c, n) && (n in SetsOf(st, q.id) || exists issuer :: GetsRoute(q, c, issuer))
  {
    hide Ensured, Clean, Apart, Recorded, RecordedIn, MainName, SetName, SetNamed, RouteNamed, CNameRouteNamed, SetsOf,
         GetsRoute, Issued;
    forall c ensures SetNamed(q, c, n) <==> n == SetName(q.cfg.digest, q.id, c) { NamesAre(q, c, n); }
    forall c | c in q.o.cnames && !q.o.opts.httpOnly
      ensures Issued(q, c) <==> exists issuer :: GetsRoute(q, c, issuer)
    {
      IssuedMeans(q, c);
    }
    if n in SetsOf(Ensured(q, st), q.id) {
      var c := SetComesFrom(q, st, n);
    }
    if c :|
      && c in q.o.cnames && n == SetName(q.cfg.digest, q.id, c) && !q.o.opts.httpOnly
      && (n in SetsOf(st, q.id) || Issued(q, c)) {
      SetStands(q, st, c);
    }
  }

  lemma IssuedMeans(q: Request, c: string)
    requires c in q.o.cnames
    ensures Issued(q, c) <==> exists issuer :: GetsRoute(q, c, issuer)
  {
    IssuerMeans(q, c, Issuer(q, c));
    if issuer :| GetsRoute(q, c, issuer) { IssuerMeans(q, c, issuer); }
    hide Issuer, IssuerIs;
    if Issued(q, c) { assert GetsRoute(q, c, Issuer(q, c)); }
  }

  /** A ListenerSet that is left was there or is that of a CName with an issuer. */
  lemma SetComesFrom(q: Request, st: Store, n: string) returns (c: string)
    requires WellFormed(q) && Apart(q, RecordedIn(st, q.cfg.digest, q.id))
    requires q.o.cnames != [] || Recorded(st, Main(q)) != []
    requires n in SetsOf(Ensured(q, st), q.id)
    ensures !q.o.opts.httpOnly && c in q.o.cnames && n == SetName(q.cfg.digest, q.id, c)
    ensures n in SetsOf(st, q.id) || Issued(q, c)
  {
    hide RoutePlan, CNameWrites, Ensured, ApplyAll, Clean, Recorded, CNameSet, MainName, SetName, Issued,
         CNameRoute, SameButRecord, CNameParent, Apart, WantedRoutes, Labelled;
    var before, existing := ApplyAll(st, RoutePlan(q, st)), Recorded(st, Main(q));
    EnsureEnd(q, st);
    BeforeAt(q, st, n);
    var writes := CNameWrites(q, existing);
    var s0 := ApplyAll(before, writes);
    assert n in s0.sets && n in WantedSets(q);
    assert DropSet(n) !in writes by { if DropSet(n) in writes { CNameWritesAct(q, existing, DropSet(n)); } }
    SetAfterPuts(before, writes, n);
    if PutSet(n, s0.sets[n]) in writes {
      CNameWritesParts(q, existing);
      c := PutsAreIssued(q, PutSet(n, s0.sets[n]));
      assert c in q.o.cnames by { IssuedRequested(q, c); }
    } else {
      c :| c in q.o.cnames && n == SetName(q.cfg.digest, q.id, c);
    }
  }

  lemma IssuedRequested(q: Request, c: string)
    requires Issued(q, c)
    ensures c in q.o.cnames
  {
  }

  /** With no CName requested or recorded an Ensure leaves all ListenerSets alone. */
  lemma NothingToReconcile(q: Request, st: Store)
    requires WellFormed(q) && q.o.cnames == [] && Recorded(st, Main(q)) == []
    ensures Ensured(q, st).sets == st.sets
  {
    hide RoutePlan, CNamePlan, ApplyAll, Clean, Recorded, MainName, EnsurePlan, Ensured;
    EnsureParts(q, st);
    forall a | a in RoutePlan(q, st) ensures !SetAction(a) { RoutePlanActs(q, st, a); }
    SetsSame(st, RoutePlan(q, st));
  }

  // ----- the record -----

  /** The main route records the requested CNames, or nothing when there are none. */
  lemma RecordSpelled(q: Request, st: Store, n: string)
    requires WellFormed(q) && Apart(q, RecordedIn(st, q.cfg.digest, q.id)) && RouteNamed(q, "default", n)
    ensures n in Ensured(q, st).routes
    ensures var record := Lookup(Ensured(q, st).routes[n].annotations, "router.tsuru.io/cnames");
      if q.o.cnames == [] then record == "" else record != "" && Split(record, ',') == q.o.cnames
  {
    hide RouteNamed, Ensured, Clean, Apart, RecordedIn, CNameRouteNamed, SetNamed, MainName, SetsOf, WantedSets, Split;
    NamesAre(q, "default", n);
    EnsureRecords(q, st);
  }
}

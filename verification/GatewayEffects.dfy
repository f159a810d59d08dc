/** Distinct names, the frame, freeze safety and the exact prefix routes of the Gateway Ensure. */
module GatewayEffects {
  import opened Router
  import opened Strings
  import opened Resources
  import opened Gateway
  import opened GatewayPlans
  import opened GatewayFacts

  // ----- which names share what -----

  ghost predicate PrefixesDistinct(q: Request) {
    forall k, k' ::
      k in q.targets && k' in q.targets && RouteName(q.cfg.digest, q.id, k) == RouteName(q.cfg.digest, q.id, k') ==>
        k == k'
  }

  ghost predicate CNamesDistinct(digest: Digest, id: InstanceID, cnames: set<string>) {
    forall c, c' :: c in cnames && c' in cnames && CNameRouteName(digest, id, c) == CNameRouteName(digest, id, c') ==>
      c == c'
  }

  ghost predicate SetsDistinct(digest: Digest, id: InstanceID, cnames: set<string>) {
    forall c, c' :: c in cnames && c' in cnames && SetName(digest, id, c) == SetName(digest, id, c') ==> c == c'
  }

  function RawRouteName(id: InstanceID, key: string): string {
    WithInstance(id, if key == "default" then "kube-router-" + id.appName else "kube-router-" + id.appName + "-" + key)
  }

  function RawCNameRouteName(id: InstanceID, cname: string): string {
    WithInstance(id, "kube-router-" + id.appName + "-" + cname + "-cname")
  }

  /** Before hashing, the routes of one id have distinct names for distinct prefixes and for distinct CNames. */
  lemma RawNamesDistinct(id: InstanceID, a: string, b: string)
    ensures RawRouteName(id, a) == RawRouteName(id, b) ==> a == b
    ensures RawCNameRouteName(id, a) == RawCNameRouteName(id, b) ==> a == b
  {
    var base := "kube-router-" + id.appName;
    SuffixInjective(id, if a == "default" then base else base + "-" + a,
                    if b == "default" then base else base + "-" + b);
    SuffixInjective(id, base + "-" + a + "-cname", base + "-" + b + "-cname");
    var dash := base + "-";
    if dash + a == dash + b { assert (dash + a)[|dash|..] == a && (dash + b)[|dash|..] == b; }
    if dash + a + "-cname" == dash + b + "-cname" {
      assert (dash + a + "-cname")[|dash|..|dash| + |a|] == a;
      assert (dash + b + "-cname")[|dash|..|dash| + |b|] == b;
    }
  }

  /** Distinctness of the route names of one id needs nothing but a digest without collisions. */
  lemma NamesDistinct(q: Request, cnames: set<string>)
    requires NoCollision(q.cfg.digest,
                         (set k | k in q.targets :: RawRouteName(q.id, k))
                         + (set c | c in cnames :: RawCNameRouteName(q.id, c)), 253)
    ensures PrefixesDistinct(q) && CNamesDistinct(q.cfg.digest, q.id, cnames)
  {
    hide RawRouteName, RawCNameRouteName, Shorten, RouteName, CNameRouteName, NoCollision;
    var names :=
      (set k | k in q.targets :: RawRouteName(q.id, k)) + (set c | c in cnames :: RawCNameRouteName(q.id, c));
    forall a, b | a in q.targets && b in q.targets
      && RouteName(q.cfg.digest, q.id, a) == RouteName(q.cfg.digest, q.id, b)
      ensures a == b
    {
      TwoNamesDistinct(q, names, a, b);
    }
    forall a, b | a in cnames && b in cnames
      && CNameRouteName(q.cfg.digest, q.id, a) == CNameRouteName(q.cfg.digest, q.id, b)
      ensures a == b
    {
      TwoNamesDistinct(q, names, a, b);
    }
  }

  lemma TwoNamesDistinct(q: Request, names: set<string>, a: string, b: string)
    requires NoCollision(q.cfg.digest, names, 253)
    ensures {RawRouteName(q.id, a), RawRouteName(q.id, b)} <= names && a != b ==>
      RouteName(q.cfg.digest, q.id, a) != RouteName(q.cfg.digest, q.id, b)
    ensures {RawCNameRouteName(q.id, a), RawCNameRouteName(q.id, b)} <= names && a != b ==>
      CNameRouteName(q.cfg.digest, q.id, a) != CNameRouteName(q.cfg.digest, q.id, b)
  {
    RawName(q, a);
    RawName(q, b);
    RawNamesDistinct(q.id, a, b);
    hide RawRouteName, RawCNameRouteName, Shorten, RouteName, CNameRouteName;
  }

  lemma RawName(q: Request, x: string)
    ensures RouteName(q.cfg.digest, q.id, x) == Shorten(q.cfg.digest, RawRouteName(q.id, x), 253)
    ensures CNameRouteName(q.cfg.digest, q.id, x) == Shorten(q.cfg.digest, RawCNameRouteName(q.id, x), 253)
  {
  }

  // ----- who is touched -----

  /** The complete plan in its three parts. */
  lemma EnsureParts(q: Request, st: Store)
    requires WellFormed(q)
    ensures var before := ApplyAll(st, RoutePlan(q, st));
      var existing := Recorded(st, Main(q));
      && Recorded(before, Main(q)) == existing && Main(q) in before.routes
      && EnsurePlan(q, st)
         == RoutePlan(q, st) + (if q.o.cnames == [] && existing == [] then [] else CNamePlan(q, before, existing))
      && Ensured(q, st)
         == (if q.o.cnames == [] && existing == [] then before else ApplyAll(before, CNamePlan(q, before, existing)))
  {
    hide RoutePlan, CNamePlan, ApplyAll, Clean, Recorded, MainName;
    RoutePlanKeepsRecord(q, st);
    var before := ApplyAll(st, RoutePlan(q, st));
    ApplyConcat(st, RoutePlan(q, st), CNamePlan(q, before, Recorded(before, Main(q))));
    assert RoutePlan(q, st) + [] == RoutePlan(q, st);
  }

  /**
    The routes an Ensure names, blind or not: prefix routes, CName routes requested or recorded, and stale routes of
    the id.
   */
  lemma EnsureTouches(q: Request, st: Store, blind: bool, a: Action)
    requires WellFormed(q) && a in Planned(q, st, blind) && RouteAction(a)
    ensures a.name in WantedRoutes(q)
         || a.name in CNameNames(q.cfg.digest, q.id, RecordedIn(st, q.cfg.digest, q.id) + Wanted(q))
         || (a.DropRoute? && a.name in st.routes && Plain(st.routes[a.name].labels, q.id) && !Frozen(st.routes[a.name]))
    ensures a.DropRoute? ==>
         a.name in CNameNames(q.cfg.digest, q.id, RecordedIn(st, q.cfg.digest, q.id) - Wanted(q))
         || (a.name in st.routes && Plain(st.routes[a.name].labels, q.id) && !Frozen(st.routes[a.name])
              && a.name !in WantedRoutes(q))
    ensures a.WriteRecord? ==> a.name == Main(q)
  {
    hide RoutePlan, CNamePlan, EnsurePlan, ApplyAll, Clean, Recorded, MainName, Plain, Frozen, OfCName, Labelled,
         RouteName, CNameRouteName;
    EnsureParts(q, st);
    MainIsPut(q, st);
    PlanIsOurs(q, st, a);
    var before := ApplyAll(st, RoutePlan(q, st));
    if a in RoutePlan(q, st) {
      RoutePlanActs(q, st, a);
    } else {
      CNamePlanActs(q, before, if blind then [] else Recorded(st, Main(q)), a);
    }
  }

  /**
    Frame: cut short anywhere, blind or not, an Ensure leaves alone every route that is neither one of the
    names it writes nor a prefix route labelled for its own id.
   */
  lemma EnsureFrame(q: Request, st: Store, blind: bool, k: nat, n: string)
    requires WellFormed(q) && k <= |Planned(q, st, blind)|
    requires n !in WantedRoutes(q)
    requires n !in CNameNames(q.cfg.digest, q.id, RecordedIn(st, q.cfg.digest, q.id) + Wanted(q))
    requires n in st.routes ==> !Plain(st.routes[n].labels, q.id) || Frozen(st.routes[n])
    ensures var st' := ApplyAll(st, Planned(q, st, blind)[..k]);
      (n in st'.routes <==> n in st.routes) && (n in st.routes ==> st'.routes[n] == st.routes[n])
  {
    hide Planned, WantedRoutes, CNameNames, Clean, Plain, Frozen, ApplyAll, RecordedIn, Wanted;
    forall a | a in Planned(q, st, blind)[..k] && RouteAction(a) ensures a.name != n { EnsureTouches(q, st, blind, a); }
    RouteUntouched(st, Planned(q, st, blind)[..k], n);
  }

  /** A ListenerSet named after no requested CName and not labelled for the id is left alone. */
  lemma EnsureSetFrame(q: Request, st: Store, blind: bool, k: nat, n: string)
    requires WellFormed(q) && k <= |Planned(q, st, blind)|
    requires n !in SetNames(q.cfg.digest, q.id, Wanted(q)) && n !in SetsOf(st, q.id)
    ensures var st' := ApplyAll(st, Planned(q, st, blind)[..k]);
      (n in st'.sets <==> n in st.sets) && (n in st.sets ==> st'.sets[n] == st.sets[n])
  {
    hide RoutePlan, CNamePlan, EnsurePlan, CNameWrites, ApplyAll, Clean, Recorded, SetName, Labelled, MainName;
    EnsureParts(q, st);
    var before, existing := ApplyAll(st, RoutePlan(q, st)), if blind then [] else Recorded(st, Main(q));
    forall a | a in RoutePlan(q, st) ensures !SetAction(a) { RoutePlanActs(q, st, a); }
    SetUntouched(st, RoutePlan(q, st), n);
    forall a | a in CNameWrites(q, existing) && SetAction(a) ensures a.name != n { CNameWritesAct(q, existing, a); }
    SetUntouched(before, CNameWrites(q, existing), n);
    forall a | a in Planned(q, st, blind)[..k] && SetAction(a) ensures a.name != n {
      assert a in Planned(q, st, blind);
      if a !in RoutePlan(q, st) { CNamePlanActs(q, before, existing, a); }
    }
    SetUntouched(st, Planned(q, st, blind)[..k], n);
  }

  // ----- freezing -----

  /**
    Freeze safety: cut short anywhere, blind or not, an Ensure neither drops nor changes a frozen route, except that
    it may record the CNames on a frozen main route; only a CName that is recorded but no longer
    requested loses its frozen route.
   */
  lemma FreezeSafety(q: Request, st: Store, blind: bool, k: nat, n: string)
    requires WellFormed(q) && k <= |Planned(q, st, blind)|
    requires n in st.routes && Frozen(st.routes[n])
    requires n !in CNameNames(q.cfg.digest, q.id, RecordedIn(st, q.cfg.digest, q.id) - Wanted(q))
    ensures var st' := ApplyAll(st, Planned(q, st, blind)[..k]);
      && n in st'.routes && Frozen(st'.routes[n]) && SameButRecord(st.routes[n], st'.routes[n])
      && (n != Main(q) ==> st'.routes[n] == st.routes[n])
  {
    hide Planned, WantedRoutes, CNameNames, Clean, Plain, Frozen, ApplyAll, RecordedIn, Wanted, SameButRecord, Main;
    var plan := Planned(q, st, blind)[..k];
    forall a | a in plan && RouteAction(a) && a.name == n ensures (a.WriteRecord? && n == Main(q)) || a.PutRoute? {
      EnsureTouches(q, st, blind, a);
    }
    OnlyRecorded(st, plan, n);
    SameButRecordFrozen(st.routes[n], ApplyAll(st, plan).routes[n]);
    if n != Main(q) { FrozenUnwritten(st, plan, n); }
  }

  lemma {:induction false} FrozenUnwritten(st: Store, plan: seq<Action>, n: string)
    requires n in st.routes && Frozen(st.routes[n])
    requires forall a :: a in plan && RouteAction(a) && a.name == n ==> a.PutRoute?
    ensures n in ApplyAll(st, plan).routes && ApplyAll(st, plan).routes[n] == st.routes[n]
  {
    hide Frozen;
    if plan != [] { FrozenUnwritten(st, plan[..|plan| - 1], n); }
  }

  // ----- exact prefix routes -----

  /** The prefix routes after the prefix puts and the cleanup. */
  lemma RoutePlanRoute(q: Request, st: Store, key: string)
    requires WellFormed(q) && PrefixesDistinct(q) && key in q.targets
    ensures var n, before := RouteName(q.cfg.digest, q.id, key), ApplyAll(st, RoutePlan(q, st));
      && n in before.routes
      && (if n in st.routes && Frozen(st.routes[n]) then before.routes[n] == st.routes[n]
          else Carries(before.routes[n], PrefixRoute(q, key)))
  {
    hide RouteName, PrefixRoute, PrefixPuts, Frozen, Carries, Cleanup, ApplyAll, Clean, PrefixesDistinct;
    var n := RouteName(q.cfg.digest, q.id, key);
    var puts := PrefixPuts(q, InOrder(q.targets.Keys));
    var s := ApplyAll(st, puts);
    PrefixPutsRoute(q, st, key);
    ApplyConcat(st, puts, Cleanup(q, s));
    assert n in WantedRoutes(q);
    forall a | a in Cleanup(q, s) && RouteAction(a) ensures a.name != n {
      CleanupDrops(q, s, a);
    }
    RouteUntouched(s, Cleanup(q, s), n);
  }

  /** The prefix route of a key after the prefix puts. */
  lemma PrefixPutsRoute(q: Request, st: Store, key: string)
    requires PrefixesDistinct(q) && key in q.targets
    ensures var n, s := RouteName(q.cfg.digest, q.id, key), ApplyAll(st, PrefixPuts(q, InOrder(q.targets.Keys)));
      && n in s.routes
      && (if n in st.routes && Frozen(st.routes[n]) then s.routes[n] == st.routes[n]
          else Carries(s.routes[n], PrefixRoute(q, key)))
  {
    hide RouteName, PrefixRoute, Frozen, Carries, ApplyAll;
    var n, puts := RouteName(q.cfg.digest, q.id, key), PrefixPuts(q, InOrder(q.targets.Keys));
    PrefixPutOf(q, key);
    hide PrefixPuts, PrefixesDistinct;
    Present(st, puts, n);
    RouteAfterPuts(st, puts, n);
    if n in st.routes && Frozen(st.routes[n]) { FrozenUnwritten(st, puts, n); }
  }

  /** The prefix puts are puts, and the one under a key's route name is that of the key. */
  lemma PrefixPutOf(q: Request, key: string)
    requires PrefixesDistinct(q) && key in q.targets
    ensures var n, puts := RouteName(q.cfg.digest, q.id, key), PrefixPuts(q, InOrder(q.targets.Keys));
      && (forall a :: a in puts ==> a.PutRoute?)
      && PutRoute(n, PrefixRoute(q, key)) in puts
      && (forall r :: PutRoute(n, r) in puts ==> r == PrefixRoute(q, key))
  {
    hide RouteName, PrefixRoute, PrefixPuts;
    var keys := InOrder(q.targets.Keys);
    var n := RouteName(q.cfg.digest, q.id, key);
    forall a ensures a in PrefixPuts(q, keys) <==> exists k :: k in keys && a == PrefixPut(q, k) {
      PrefixPutsAre(q, keys, a);
    }
    assert PrefixPut(q, key) in PrefixPuts(q, keys);
  }

  /** The put of one prefix route. */
  ghost function PrefixPut(q: Request, key: string): Action {
    PutRoute(RouteName(q.cfg.digest, q.id, key), PrefixRoute(q, key))
  }

  lemma PrefixPutsAre(q: Request, keys: seq<string>, a: Action)
    ensures a in PrefixPuts(q, keys) <==> exists k :: k in keys && a == PrefixPut(q, k)
  {
    hide RouteName, PrefixRoute;
    if a in PrefixPuts(q, keys) {
      var i :| 0 <= i < |keys| && PrefixPuts(q, keys)[i] == a;
      assert keys[i] in keys && a == PrefixPut(q, keys[i]);
    }
    if k :| k in keys && a == PrefixPut(q, k) {
      var i :| 0 <= i < |keys| && keys[i] == k;
      assert PrefixPuts(q, keys)[i] == a;
    }
  }

  lemma CleanupDrops(q: Request, s: Store, a: Action)
    requires a in Cleanup(q, s)
    ensures a.DropRoute? && a.name in Stale(s, q.id, WantedRoutes(q))
    ensures a.name !in WantedRoutes(q)
  {
    hide DropRoutes, Plain, Frozen, WantedRoutes;
    DropRoutesAre(InOrder(PlainRoutes(s, q.id)), Stale(s, q.id, WantedRoutes(q)), a);
  }

  /** After the cleanup no unfrozen prefix route of the id is unwanted. */
  lemma RoutePlanClean(q: Request, st: Store, n: string)
    requires n in PlainRoutes(ApplyAll(st, RoutePlan(q, st)), q.id)
    ensures n in WantedRoutes(q) || Frozen(ApplyAll(st, RoutePlan(q, st)).routes[n])
  {
    hide DropRoutes, Plain, Frozen, WantedRoutes, PrefixPuts, ApplyAll;
    var puts := PrefixPuts(q, InOrder(q.targets.Keys));
    var s := ApplyAll(st, puts);
    ApplyConcat(st, puts, Cleanup(q, s));
    DropRoutesEffect(s, InOrder(PlainRoutes(s, q.id)), Stale(s, q.id, WantedRoutes(q)));
  }

  /** The CName plan changes nothing but the record on a prefix route. */
  lemma CNamePlanSparesPrefix(q: Request, s: Store, existing: seq<string>, n: string)
    requires WellFormed(q) && Apart(q, Elements(existing)) && n in WantedRoutes(q) && n in s.routes
    ensures n in ApplyAll(s, CNamePlan(q, s, existing)).routes
    ensures SameButRecord(s.routes[n], ApplyAll(s, CNamePlan(q, s, existing)).routes[n])
  {
    hide CNamePlan, Clean, WantedRoutes, ApplyAll, SameButRecord, Labelled, OfCName, Frozen, CNameRouteName;
    forall a | a in CNamePlan(q, s, existing) && RouteAction(a) && a.name == n ensures a.WriteRecord? {
      CNamePlanActs(q, s, existing, a);
    }
    OnlyRecorded(s, CNamePlan(q, s, existing), n);
  }

  /** Every wanted prefix route is there: as it was when frozen, otherwise as desired. */
  lemma EnsurePrefixRoute(q: Request, st: Store, key: string)
    requires WellFormed(q) && Apart(q, RecordedIn(st, q.cfg.digest, q.id)) && PrefixesDistinct(q) && key in q.targets
    ensures var n, st' := RouteName(q.cfg.digest, q.id, key), Ensured(q, st);
      && n in st'.routes
      && (if n in st.routes && Frozen(st.routes[n]) then SameButRecord(st.routes[n], st'.routes[n])
          else Carries(st'.routes[n], PrefixRoute(q, key)))
  {
    hide RoutePlan, CNamePlan, EnsurePlan, Ensured, RouteName, PrefixRoute, Frozen, Carries, ApplyAll, Clean, Recorded,
         Apart, PrefixesDistinct, SameButRecord, MainName;
    var n := RouteName(q.cfg.digest, q.id, key);
    EnsureParts(q, st);
    RoutePlanRoute(q, st, key);
    var before, existing := ApplyAll(st, RoutePlan(q, st)), Recorded(st, Main(q));
    SameButRecordRefl(before.routes[n]);
    PrefixPutActs(q, key);
    if !(q.o.cnames == [] && existing == []) {
      CNamePlanSparesPrefix(q, before, existing, n);
      SameButRecordFrozen(before.routes[n], Ensured(q, st).routes[n]);
    }
  }

  /** Nothing else is left of the id's prefix routes, but for frozen ones. */
  lemma EnsureClean(q: Request, st: Store, n: string)
    requires WellFormed(q) && n in PlainRoutes(Ensured(q, st), q.id)
    ensures n in WantedRoutes(q) || Frozen(Ensured(q, st).routes[n])
  {
    hide RoutePlan, CNamePlan, EnsurePlan, Ensured, WantedRoutes, Frozen, ApplyAll, Clean, Recorded, Main,
         SameButRecord, Labelled;
    EnsureParts(q, st);
    var before, existing, st' := ApplyAll(st, RoutePlan(q, st)), Recorded(st, Main(q)), Ensured(q, st);
    if q.o.cnames == [] && existing == [] {
      RoutePlanClean(q, st, n);
    } else {
      forall a | a in CNamePlan(q, before, existing) && a.PutRoute?
        ensures CNAME_LABEL in a.route.labels
      {
        CNamePlanActs(q, before, existing, a);
      }
      PlainSurvives(before, CNamePlan(q, before, existing), n);
      SameButRecordFrozen(before.routes[n], st'.routes[n]);
      SameButRecordLabels(before.routes[n], st'.routes[n]);
      RoutePlanClean(q, st, n);
    }
  }
}

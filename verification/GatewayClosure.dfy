/**
  The CName routes and ListenerSets an Ensure leaves, that they fit together, and the result that a second
  Ensure with the same input changes nothing.
 */
module GatewayClosure {
  import opened Router
  import opened Strings
  import opened Resources
  import opened Gateway
  import opened GatewayPlans
  import opened GatewayFacts
  import opened GatewayEffects

  /** A requested CName that gets a route in this call; in TLS mode that takes an issuer. */
  predicate Issued(q: Request, c: string) {
    c in q.o.cnames && (q.o.opts.httpOnly || Issuer(q, c) != "")
  }

  lemma IssuedPuts(q: Request, c: string)
    requires Issued(q, c)
    ensures PutRoute(CNameRouteName(q.cfg.digest, q.id, c), CNameRoute(q, c, CNameParent(q, c)))
        in CNamePuts(q, q.o.cnames)
    ensures !q.o.opts.httpOnly ==>
      PutSet(SetName(q.cfg.digest, q.id, c), CNameSet(q, c, Issuer(q, c))) in CNamePuts(q, q.o.cnames)
  {
    hide CNameRoute, CNameSet, CNameRouteName, SetName, CNameParent, Issuer;
    var put := PutRoute(CNameRouteName(q.cfg.digest, q.id, c), CNameRoute(q, c, CNameParent(q, c)));
    assert put in CNamePut(q, c);
    CNamePutsAre(q, q.o.cnames, put);
    if !q.o.opts.httpOnly {
      var set' := PutSet(SetName(q.cfg.digest, q.id, c), CNameSet(q, c, Issuer(q, c)));
      assert set' in CNamePut(q, c);
      CNamePutsAre(q, q.o.cnames, set');
    }
  }

  lemma PutsAreIssued(q: Request, a: Action) returns (c: string)
    requires a in CNamePuts(q, q.o.cnames)
    ensures Issued(q, c)
    ensures a.PutRoute? || a.PutSet?
    ensures a.PutRoute? ==> a == PutRoute(CNameRouteName(q.cfg.digest, q.id, c), CNameRoute(q, c, CNameParent(q, c)))
    ensures a.PutSet? ==>
      !q.o.opts.httpOnly && a == PutSet(SetName(q.cfg.digest, q.id, c), CNameSet(q, c, Issuer(q, c)))
  {
    hide CNameRoute, CNameSet, CNameRouteName, SetName, CNameParent, Issuer;
    CNamePutsAre(q, q.o.cnames, a);
    c :| c in q.o.cnames && a in CNamePut(q, c);
  }

  /**
    Away from the prefix routes, what is there after the prefix phase was there before, and frozen routes still are.
   */
  lemma BeforeAt(q: Request, st: Store, n: string)
    requires Clean(q)
    ensures var before := ApplyAll(st, RoutePlan(q, st));
      && (n in before.routes && (n !in WantedRoutes(q) || CNAME_LABEL in before.routes[n].labels) ==>
            n in st.routes && before.routes[n] == st.routes[n])
      && (n in st.routes && Frozen(st.routes[n]) ==> n in before.routes && before.routes[n] == st.routes[n])
      && before.sets == st.sets
  {
    hide ApplyAll, Clean, WantedRoutes, Frozen, Plain, RouteName, PrefixRoute, Cleanup, Carries;
    var puts := PrefixPuts(q, InOrder(q.targets.Keys));
    var s := ApplyAll(st, puts);
    ApplyConcat(st, puts, Cleanup(q, s));
    forall a | a in RoutePlan(q, st)
      ensures !SetAction(a) && (RouteAction(a) && a.name == n && n in st.routes && Frozen(st.routes[n]) ==> a.PutRoute?)
    {
      RoutePlanActs(q, st, a);
    }
    SetsSame(st, RoutePlan(q, st));
    if n in st.routes && Frozen(st.routes[n]) { FrozenUnwritten(st, RoutePlan(q, st), n); }
    var before := ApplyAll(st, RoutePlan(q, st));
    if n in before.routes {
      forall a | a in Cleanup(q, s) ensures a.DropRoute? { CleanupDrops(q, s, a); }
      DropsOnly(s, Cleanup(q, s), n);
      RouteAfterPuts(st, puts, n);
      forall r | PutRoute(n, r) in puts ensures n in WantedRoutes(q) && CNAME_LABEL !in r.labels {
        assert PutRoute(n, r) in RoutePlan(q, st);
        RoutePlanActs(q, st, PutRoute(n, r));
      }
      forall r, r' | Carries(r', r) ensures r'.labels == r.labels { CarriesLabels(r', r); }
    }
  }

  lemma CarriesLabels(r': HTTPRoute, r: HTTPRoute)
    requires Carries(r', r)
    ensures SameSpec(r', r)
  {
  }

  lemma {:induction false} DropsOnly(st: Store, plan: seq<Action>, n: string)
    requires forall a :: a in plan ==> a.DropRoute?
    ensures n in ApplyAll(st, plan).routes ==> n in st.routes && ApplyAll(st, plan).routes[n] == st.routes[n]
  {
    if plan != [] {
      assert plan[|plan| - 1] in plan;
      DropsOnly(st, plan[..|plan| - 1], n);
    }
  }

  lemma {:induction false} SetsSame(st: Store, plan: seq<Action>)
    requires forall a :: a in plan ==> !SetAction(a)
    ensures ApplyAll(st, plan).sets == st.sets
  {
    if plan != [] {
      assert plan[|plan| - 1] in plan;
      SetsSame(st, plan[..|plan| - 1]);
    }
  }

  /** From s0, only unwanted ListenerSets go and only the record on the main route changes. */
  ghost predicate EndsFrom(q: Request, s0: Store, st': Store) {
    && st'.sets == s0.sets - (SetsOf(s0, q.id) - WantedSets(q))
    && st'.routes.Keys == s0.routes.Keys
    && (forall n :: n in s0.routes && n != Main(q) ==> st'.routes[n] == s0.routes[n])
    && (forall n :: n in s0.routes ==> SameButRecord(s0.routes[n], st'.routes[n]))
  }

  /** What the whole Ensure leaves, in terms of the state after the CName writes. */
  lemma EnsureEnd(q: Request, st: Store)
    requires WellFormed(q) && Apart(q, RecordedIn(st, q.cfg.digest, q.id))
    requires q.o.cnames != [] || Recorded(st, Main(q)) != []
    ensures EndsFrom(q, ApplyAll(ApplyAll(st, RoutePlan(q, st)), CNameWrites(q, Recorded(st, Main(q)))), Ensured(q, st))
  {
    hide RoutePlan, CNamePlan, CNameWrites, ApplyAll, Clean, Recorded, Apart, MainName, SetsOf, WantedSets,
         WantedRoutes, SameButRecord, Recording;
    EnsureParts(q, st);
    var before, existing := ApplyAll(st, RoutePlan(q, st)), Recorded(st, Main(q));
    var s0 := ApplyAll(before, CNameWrites(q, existing));
    ApartMain(q, st, RecordedIn(st, q.cfg.digest, q.id));
    var s := BeforeRecord(q, before, existing);
    forall n | n in s0.routes ensures SameButRecord(s0.routes[n], Ensured(q, st).routes[n]) {
      SameButRecordRefl(s0.routes[n]);
      if n == Main(q) {
        OnlyRecorded(s, [WriteRecord(Main(q), q.o.cnames)], n);
        OneStep(s, WriteRecord(Main(q), q.o.cnames));
      }
    }
  }

  lemma OneStep(st: Store, a: Action)
    ensures ApplyAll(st, [a]) == Apply(st, a)
  {
    hide Apply;
    assert [a][..0] == [];
  }

  /** The CName writes at the route of an issued CName. */
  lemma WritesAtIssued(q: Request, st: Store, existing: seq<string>, c: string)
    requires Issued(q, c) && CNamesDistinct(q.cfg.digest, q.id, Elements(existing) + Wanted(q))
    ensures var n, s0 := CNameRouteName(q.cfg.digest, q.id, c), ApplyAll(st, CNameWrites(q, existing));
      && n in s0.routes
      && (if n in st.routes && Frozen(st.routes[n]) then s0.routes[n] == st.routes[n]
          else Carries(s0.routes[n], CNameRoute(q, c, CNameParent(q, c))))
  {
    hide CNameRoute, CNameSet, CNameParent, Issuer, ApplyAll, Frozen, Carries, CNameRouteName;
    var n, puts, gone := CNameRouteName(q.cfg.digest, q.id, c), CNamePuts(q, q.o.cnames), Without(existing, q.o.cnames);
    IssuedPuts(q, c);
    forall a | a in puts
      ensures (a.PutRoute? || a.PutSet?)
      ensures (a.PutRoute? && a.name == n ==> a.route == CNameRoute(q, c, CNameParent(q, c)))
    {
      var c' := PutsAreIssued(q, a);
    }
    var s1 := ApplyAll(st, puts);
    RouteAfterPuts(st, puts, n);
    Present(st, puts, n);
    if n in st.routes && Frozen(st.routes[n]) {
      FrozenUnwritten(st, puts, n);
    }
    ApplyConcat(st, puts, CNameDrops(q, gone));
    CNameDropsEffect(q, s1, gone);
  }

  /** The route of an issued CName: as it was when frozen, otherwise as desired. */
  lemma EnsureCNameRoute(q: Request, st: Store, c: string)
    requires WellFormed(q) && Apart(q, RecordedIn(st, q.cfg.digest, q.id)) && Issued(q, c)
    requires CNamesDistinct(q.cfg.digest, q.id, RecordedIn(st, q.cfg.digest, q.id) + Wanted(q))
    ensures var n, st' := CNameRouteName(q.cfg.digest, q.id, c), Ensured(q, st);
      && n in st'.routes
      && (if n in st.routes && Frozen(st.routes[n]) then st'.routes[n] == st.routes[n]
          else Carries(st'.routes[n], CNameRoute(q, c, CNameParent(q, c))))
  {
    hide RoutePlan, CNameWrites, Ensured, ApplyAll, Clean, Recorded, CNamesDistinct, Carries, Frozen, CNameRoute,
         CNameParent, Issuer, MainName, SameButRecord, CNameRouteName, WantedRoutes, SetsOf, WantedSets;
    var n, before, existing :=
      CNameRouteName(q.cfg.digest, q.id, c), ApplyAll(st, RoutePlan(q, st)), Recorded(st, Main(q));
    EnsureEnd(q, st);
    BeforeAt(q, st, n);
    WritesAtIssued(q, before, existing, c);
    MainIsPut(q, st);
    assert n in CNameNames(q.cfg.digest, q.id, RecordedIn(st, q.cfg.digest, q.id) + Wanted(q));
  }

  /** In TLS mode the ListenerSet of an issued CName is the desired one, when no other CName shares its name. */
  lemma EnsureCNameSet(q: Request, st: Store, c: string)
    requires WellFormed(q) && Apart(q, RecordedIn(st, q.cfg.digest, q.id)) && Issued(q, c) && !q.o.opts.httpOnly
    requires SetsDistinct(q.cfg.digest, q.id, Wanted(q))
    ensures var n, st' := SetName(q.cfg.digest, q.id, c), Ensured(q, st);
      n in st'.sets && st'.sets[n] == CNameSet(q, c, Issuer(q, c))
  {
    hide RoutePlan, CNameWrites, Ensured, ApplyAll, Clean, Recorded, CNameSet, Issuer, MainName, SetName, SetsOf,
         CNameRoute, SameButRecord, CNameParent, Apart, WantedRoutes;
    var n, before, existing := SetName(q.cfg.digest, q.id, c), ApplyAll(st, RoutePlan(q, st)), Recorded(st, Main(q));
    EnsureEnd(q, st);
    IssuedPuts(q, c);
    var writes := CNameWrites(q, existing);
    CNameWritesParts(q, existing);
    assert DropSet(n) !in writes by { if DropSet(n) in writes { CNameWritesAct(q, existing, DropSet(n)); } }
    SetAfterPuts(before, writes, n);
    var s0 := ApplyAll(before, writes);
    assert PutSet(n, s0.sets[n]) in writes;
    assert PutSet(n, s0.sets[n]) in CNamePuts(q, q.o.cnames);
    var c' := PutsAreIssued(q, PutSet(n, s0.sets[n]));
    assert n in WantedSets(q);
  }

  // ----- ListenerSets that stay -----

  /** The CName writes keep the ListenerSet of a requested CName, or put it. */
  lemma SetWritten(q: Request, st: Store, existing: seq<string>, c: string)
    requires Clean(q) && c in q.o.cnames && !q.o.opts.httpOnly
    requires Issued(q, c) || SetName(q.cfg.digest, q.id, c) in SetsOf(st, q.id)
    ensures SetName(q.cfg.digest, q.id, c) in SetsOf(ApplyAll(st, CNameWrites(q, existing)), q.id)
  {
    hide CNameWrites, ApplyAll, CNameSet, Issuer, SetName, Labelled, Issued, Clean;
    var n, writes := SetName(q.cfg.digest, q.id, c), CNameWrites(q, existing);
    assert DropSet(n) !in writes by { if DropSet(n) in writes { CNameWritesAct(q, existing, DropSet(n)); } }
    SetAfterPuts(st, writes, n);
    var s0 := ApplyAll(st, writes);
    if Issued(q, c) { IssuedPuts(q, c); CNameWritesParts(q, existing); }
    assert n in s0.sets;
    if PutSet(n, s0.sets[n]) in writes { CNameWritesAct(q, existing, PutSet(n, s0.sets[n])); }
  }

  /** A ListenerSet of a requested CName that stood, or was put, still stands at the end. */
  lemma SetStands(q: Request, st: Store, c: string)
    requires WellFormed(q) && Apart(q, RecordedIn(st, q.cfg.digest, q.id)) && c in q.o.cnames && !q.o.opts.httpOnly
    requires Issued(q, c) || SetName(q.cfg.digest, q.id, c) in SetsOf(st, q.id)
    ensures SetName(q.cfg.digest, q.id, c) in SetsOf(Ensured(q, st), q.id)
  {
    hide RoutePlan, CNameWrites, Ensured, ApplyAll, Clean, Recorded, MainName, SetName, Labelled, SameButRecord, Apart,
         WantedRoutes, Issued;
    var n, before, existing := SetName(q.cfg.digest, q.id, c), ApplyAll(st, RoutePlan(q, st)), Recorded(st, Main(q));
    EnsureEnd(q, st);
    BeforeAt(q, st, n);
    SetWritten(q, before, existing, c);
    assert n in WantedSets(q);
  }

  /**
    The references are right, not just present: the route of an issued CName points at the one listener
    of the CName's own ListenerSet, which serves that host and asks for a certificate in its name.
   */
  lemma SectionsAgree(q: Request, st: Store, c: string)
    requires WellFormed(q) && Apart(q, RecordedIn(st, q.cfg.digest, q.id)) && Issued(q, c) && !q.o.opts.httpOnly
    requires CNamesDistinct(q.cfg.digest, q.id, RecordedIn(st, q.cfg.digest, q.id) + Wanted(q))
    requires SetsDistinct(q.cfg.digest, q.id, Wanted(q))
    ensures var st', n := Ensured(q, st), CNameRouteName(q.cfg.digest, q.id, c);
      && n in st'.routes
      && (!(n in st.routes && Frozen(st.routes[n])) ==>
           && st'.routes[n].hostnames == [c]
           && |st'.routes[n].parentRefs| == 1 && st'.routes[n].parentRefs[0].ToListenerSet?
           && st'.routes[n].parentRefs[0].ns == q.ns
           && var ls := st'.routes[n].parentRefs[0].name;
              && ls in st'.sets && |st'.sets[ls].listeners| == 1
              && st'.sets[ls].listeners[0].name == st'.routes[n].parentRefs[0].section
              && st'.sets[ls].listeners[0].hostname == c
              && Lookup(st'.sets[ls].annotations, COMMON_NAME_KEY) == c)
  {
    hide Ensured, Clean, Recorded, Apart, CNamesDistinct, SetsDistinct, Frozen, Labels, Annotations, CNameRouteName,
         SetName, SectionName, TlsSecretName, Issuer;
    EnsureCNameRoute(q, st, c);
    EnsureCNameSet(q, st, c);
    CommonName(Issuer(q, c), c);
  }

  lemma CommonName(issuer: string, c: string)
    ensures Lookup(CertAnnotations(issuer, c), COMMON_NAME_KEY) == c
  {
  }

  // ----- idempotence -----

  lemma RoutePlanSettled(q: Request, st: Store, a: Action)
    requires WellFormed(q) && Apart(q, RecordedIn(st, q.cfg.digest, q.id)) && PrefixesDistinct(q)
    requires a in RoutePlan(q, Ensured(q, st))
    ensures Apply(Ensured(q, st), a) == Ensured(q, st)
  {
    hide Ensured, Clean, Recorded, Apart, PrefixesDistinct, Frozen, Carries, PrefixRoute, RouteName, ApplyAll, Plain,
         WantedRoutes, Apply;
    var st' := Ensured(q, st);
    var keys := InOrder(q.targets.Keys);
    if a in PrefixPuts(q, keys) {
      var i :| 0 <= i < |keys| && PrefixPuts(q, keys)[i] == a;
      assert keys[i] in keys;
      EnsurePrefixRoute(q, st, keys[i]);
      var n := RouteName(q.cfg.digest, q.id, keys[i]);
      if n in st.routes && Frozen(st.routes[n]) { SameButRecordFrozen(st.routes[n], st'.routes[n]); }
      CarriedIsNoOp(st', n, PrefixRoute(q, keys[i]));
    } else {
      RoutePlanActs(q, st', a);
      CleanupDrops(q, ApplyAll(st', PrefixPuts(q, keys)), a);
      EnsureClean(q, st, a.name);
    }
  }

  lemma CNamePlanSettled(q: Request, st: Store, a: Action)
    requires WellFormed(q) && Apart(q, RecordedIn(st, q.cfg.digest, q.id)) && q.o.cnames != []
    requires CNamesDistinct(q.cfg.digest, q.id, RecordedIn(st, q.cfg.digest, q.id) + Wanted(q))
    requires SetsDistinct(q.cfg.digest, q.id, Wanted(q))
    requires a in CNameWrites(q, q.o.cnames)
    ensures Apply(Ensured(q, st), a) == Ensured(q, st)
  {
    hide Ensured, Clean, Recorded, Apart, CNamesDistinct, SetsDistinct, Frozen, Carries, CNameRoute, CNameSet,
         CNameRouteName, SetName, CNameParent, Issuer, WantedRoutes;
    var st' := Ensured(q, st);
    assert Without(q.o.cnames, q.o.cnames) == [];
    assert CNameDrops(q, []) == [];
    CNameWritesParts(q, q.o.cnames);
    var c := PutsAreIssued(q, a);
    if a.PutRoute? {
      EnsureCNameRoute(q, st, c);
      CarriedIsNoOp(st', a.name, a.route);
    } else {
      EnsureCNameSet(q, st, c);
      assert st'.sets[a.name := a.ls] == st'.sets;
    }
  }

  /**
    Ensure is idempotent: run again with the same input it changes no route, ListenerSet, label or
    annotation, whatever the store held before the first run.
   */
  lemma EnsureIdempotent(q: Request, st: Store)
    requires WellFormed(q) && Apart(q, RecordedIn(st, q.cfg.digest, q.id)) && PrefixesDistinct(q)
    requires CNamesDistinct(q.cfg.digest, q.id, RecordedIn(st, q.cfg.digest, q.id) + Wanted(q))
    requires SetsDistinct(q.cfg.digest, q.id, Wanted(q))
    ensures Ensured(q, Ensured(q, st)) == Ensured(q, st)
  {
    hide Ensured, RoutePlan, CNamePlan, CNameWrites, SetCleanup, Clean, Recorded, Apart, CNamesDistinct, SetsDistinct,
         PrefixesDistinct, Apply, ApplyAll, MainName, SetsOf, WantedSets;
    var st' := Ensured(q, st);
    EnsureRecords(q, st);
    EnsureParts(q, st');
    forall a | a in RoutePlan(q, st') ensures Apply(st', a) == st' { RoutePlanSettled(q, st, a); }
    NoOps(st', RoutePlan(q, st'));
    if q.o.cnames != [] {
      CNamePlanParts(q, st', q.o.cnames);
      forall a | a in CNameWrites(q, q.o.cnames) ensures Apply(st', a) == st' { CNamePlanSettled(q, st, a); }
      NoOps(st', CNameWrites(q, q.o.cnames));
      SetCleanupEffect(q, st');
      assert SetsOf(st', q.id) - WantedSets(q) == {};
      assert st'.sets - {} == st'.sets;
    }
  }
}

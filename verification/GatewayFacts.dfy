/**
  What one Gateway Ensure or Remove does to the store, complete or cut short after any number of
  writes: who is touched, what is recorded, what is frozen, and that a second Ensure changes nothing.
 */
module GatewayFacts {
  import opened Router
  import opened Strings
  import opened Resources
  import opened Gateway
  import opened GatewayPlans

  /** Neither the configured annotations nor an option name the freeze flag or the CName record. */
  predicate AnnotationsFree(q: Request) {
    && (forall k :: k in {FREEZE_ANNOTATION, CNAMES_ANNOTATION} ==> k !in q.cfg.annotations)
    && forall opt :: opt in q.o.opts.additionalOpts ==>
         var e := AnnotationEffect(q.cfg.optsAsAnnotations, opt, q.o.opts.additionalOpts[opt]);
         e.Put? ==> e.key !in {FREEZE_ANNOTATION, CNAMES_ANNOTATION}
  }

  /** CName lists that survive being joined with commas and split again. */
  predicate Recordable(cnames: seq<string>) { Free(cnames, ',') && cnames != [""] }

  predicate Clean(q: Request) { LabelsFree(q.cfg) && AnnotationsFree(q) && Recordable(q.o.cnames) }

  /** A request with a default prefix, and without the router's own keys among its labels and options. */
  predicate WellFormed(q: Request) { "default" in q.targets && Clean(q) }

  function Main(q: Request): string { MainName(q.cfg.digest, q.id) }

  function Wanted(q: Request): set<string> { Elements(q.o.cnames) }

  function RecordedIn(st: Store, digest: Digest, id: InstanceID): set<string> {
    Elements(Recorded(st, MainName(digest, id)))
  }

  /** The CName routes that may be written or dropped do not share a name with a prefix route. */
  predicate Apart(q: Request, recorded: set<string>) {
    WantedRoutes(q) !! CNameNames(q.cfg.digest, q.id, recorded + Wanted(q))
  }

  /** The main route is none of those CName routes. */
  predicate MainApart(q: Request, recorded: set<string>) {
    Main(q) !in CNameNames(q.cfg.digest, q.id, recorded + Wanted(q))
  }

  /** Every CName route and ListenerSet of the id is named after a CName in the list. */
  predicate Within(st: Store, digest: Digest, id: InstanceID, cnames: set<string>) {
    && CNameRoutes(st, id) <= CNameNames(digest, id, cnames)
    && SetsOf(st, id) <= SetNames(digest, id, cnames)
  }

  // ----- the writes of a plan -----

  /** A write the request can issue, whatever the store holds. */
  predicate Ours(q: Request, a: Action) {
    match a
    case PutRoute(n, r) =>
      && Labelled(r.labels, q.id) && r.annotations.Keys !! {FREEZE_ANNOTATION, CNAMES_ANNOTATION}
      && if CNAME_LABEL in r.labels then OfCName(r.labels, q.id) && n in CNameNames(q.cfg.digest, q.id, Wanted(q))
         else n in WantedRoutes(q)
    case PutSet(n, ls) => Labelled(ls.labels, q.id) && n in SetNames(q.cfg.digest, q.id, Wanted(q))
      && !q.o.opts.httpOnly
    case WriteRecord(n, cs) => n == Main(q) && cs == q.o.cnames
    case _ => true
  }

  lemma AnnotationsLeft(q: Request)
    requires AnnotationsFree(q)
    ensures Annotations(q).Keys !! {FREEZE_ANNOTATION, CNAMES_ANNOTATION}
  {
    hide FREEZE_ANNOTATION, CNAMES_ANNOTATION;
  }

  lemma PrefixPutActs(q: Request, key: string)
    requires Clean(q) && key in q.targets
    ensures Ours(q, PutRoute(RouteName(q.cfg.digest, q.id, key), PrefixRoute(q, key)))
    ensures CNAME_LABEL !in PrefixRoute(q, key).labels
  {
    hide RouteName, Annotations, Labels;
    AnnotationsLeft(q);
    KeysDiffer();
    var base := map[INSTANCE_LABEL := q.id.instanceName, BASE_NAMESPACE_LABEL := TargetAt(q, key).ns,
                    BASE_NAME_LABEL := TargetAt(q, key).service,
                    HTTP_ONLY_LABEL := if q.o.opts.httpOnly then "true" else "false"];
    LabelsShow(q.cfg, base, q.id, q.o.team, q.o.tags);
  }

  lemma DropIsOurs(q: Request, a: Action)
    requires a.DropRoute? || a.DropSet?
    ensures Ours(q, a)
  {
  }

  lemma RoutePlanActs(q: Request, st: Store, a: Action)
    requires Clean(q) && a in RoutePlan(q, st)
    ensures Ours(q, a) && !a.WriteRecord? && !a.PutSet? && !a.DropSet?
    ensures a.PutRoute? ==> CNAME_LABEL !in a.route.labels
    ensures a.DropRoute? ==>
      && a.name !in WantedRoutes(q) && a.name in st.routes
      && Plain(st.routes[a.name].labels, q.id) && !Frozen(st.routes[a.name])
  {
    hide PrefixRoute, RouteName, Frozen, Plain, ApplyAll, DropRoutes;
    var keys := InOrder(q.targets.Keys);
    var puts := PrefixPuts(q, keys);
    if a in puts {
      var i :| 0 <= i < |keys| && puts[i] == a;
      assert keys[i] in keys;
      PrefixPutActs(q, keys[i]);
    } else {
      hide Ours;
      var s := ApplyAll(st, puts);
      DropRoutesAre(InOrder(PlainRoutes(s, q.id)), Stale(s, q.id, WantedRoutes(q)), a);
      assert Ours(q, a) by { DropIsOurs(q, a); }
      forall b | b in puts && RouteAction(b) ensures b.name != a.name {
        var i :| 0 <= i < |keys| && puts[i] == b;
        assert keys[i] in keys;
      }
      RouteUntouched(st, puts, a.name);
    }
  }

  lemma CNamePutActs(q: Request, c: string, a: Action)
    requires Clean(q) && c in q.o.cnames && a in CNamePut(q, c)
    ensures Ours(q, a) && (a.PutRoute? || a.PutSet?) && (a.PutRoute? ==> CNAME_LABEL in a.route.labels)
  {
    hide CNameRouteName, SetName, Annotations, Labels;
    AnnotationsLeft(q);
    KeysDiffer();
    LabelsShow(q.cfg, map[INSTANCE_LABEL := q.id.instanceName, CNAME_LABEL := "true"], q.id, q.o.team, q.o.tags);
    LabelsShow(q.cfg, map[INSTANCE_LABEL := q.id.instanceName, CERT_ISSUER_LABEL := Issuer(q, c)], q.id, q.o.team,
               q.o.tags);
  }

  ghost function CNameWrites(q: Request, existing: seq<string>): seq<Action> {
    CNamePuts(q, q.o.cnames) + CNameDrops(q, Without(existing, q.o.cnames))
  }

  lemma CNameWritesParts(q: Request, existing: seq<string>)
    ensures CNameWrites(q, existing) == CNamePuts(q, q.o.cnames) + CNameDrops(q, Without(existing, q.o.cnames))
  {
  }

  lemma CNameWritesAct(q: Request, existing: seq<string>, a: Action)
    requires Clean(q) && a in CNameWrites(q, existing)
    ensures Ours(q, a) && !a.WriteRecord? && !a.DropSet?
    ensures a.PutRoute? ==> CNAME_LABEL in a.route.labels
    ensures a.DropRoute? ==> a.name in CNameNames(q.cfg.digest, q.id, Elements(existing) - Wanted(q))
  {
    hide Ours, CNamePut, CNameRouteName, Clean;
    if a in CNamePuts(q, q.o.cnames) {
      CNamePutsAre(q, q.o.cnames, a);
      var c :| c in q.o.cnames && a in CNamePut(q, c);
      CNamePutActs(q, c, a);
    } else {
      var i :| 0 <= i < |Without(existing, q.o.cnames)| && CNameDrops(q, Without(existing, q.o.cnames))[i] == a;
      assert Without(existing, q.o.cnames)[i] in Without(existing, q.o.cnames);
      DropIsOurs(q, a);
    }
  }

  lemma CNamePlanActs(q: Request, st: Store, existing: seq<string>, a: Action)
    requires Clean(q) && a in CNamePlan(q, st, existing)
    ensures Ours(q, a)
    ensures a.PutRoute? ==> CNAME_LABEL in a.route.labels
    ensures a.DropRoute? ==> a.name in CNameNames(q.cfg.digest, q.id, Elements(existing) - Wanted(q))
    ensures a.DropSet? ==> a.name !in WantedSets(q) && a.name in SetsOf(ApplyAll(st, CNameWrites(q, existing)), q.id)
  {
    hide CNameWrites, CNameNames, SetsOf, WantedSets, Clean, ApplyAll, DropSets, Labelled;
    var writes := CNameWrites(q, existing);
    var s := ApplyAll(st, writes);
    assert writes == CNamePuts(q, q.o.cnames) + CNameDrops(q, Without(existing, q.o.cnames)) by {
      CNameWritesParts(q, existing);
    }
    if a in writes {
      CNameWritesAct(q, existing, a);
    } else if a in SetCleanup(q, s) {
      DropSetsAre(InOrder(SetsOf(s, q.id)), SetsOf(s, q.id) - WantedSets(q), a);
    }
  }

  // ----- the record -----

  /** Joining and splitting gives the list back exactly for lists without commas other than [""]. */
  lemma RecordReadsBack(annotations: map<string, string>, cnames: seq<string>)
    ensures var kept := Lookup(Recording(annotations, cnames), CNAMES_ANNOTATION);
      (if kept != "" then Split(kept, ',') else []) == cnames <==> Recordable(cnames)
  {
    JoinEmpty(cnames, ',');
    if |cnames| > 0 {
      if Free(cnames, ',') { SplitJoin(cnames, ','); }
      SplitFree(Join(cnames, ','), ',');
    }
  }

  /** A write that cannot change what is recorded on a route. */
  predicate SparesRecord(a: Action, main: string) {
    match a
    case PutRoute(_, r) => CNAMES_ANNOTATION !in r.annotations
    case DropRoute(n) => n != main
    case WriteRecord(n, _) => n != main
    case _ => true
  }

  lemma RecordStep(st: Store, a: Action, main: string)
    requires SparesRecord(a, main)
    ensures Recorded(Apply(st, a), main) == Recorded(st, main)
    ensures main in st.routes ==> main in Apply(st, a).routes
  {
    hide Split;
    KeysDiffer();
    var routes := st.routes;
    if a.PutRoute? && a.name == main && main in routes && !Frozen(routes[main]) {
      assert CNAMES_ANNOTATION in Merged(a.route, routes[main]).annotations
          <==> CNAMES_ANNOTATION in routes[main].annotations;
    }
  }

  lemma {:induction false} RecordKept(st: Store, plan: seq<Action>, main: string)
    requires forall a :: a in plan ==> SparesRecord(a, main)
    ensures Recorded(ApplyAll(st, plan), main) == Recorded(st, main)
    ensures main in st.routes ==> main in ApplyAll(st, plan).routes
  {
    hide Recorded, SparesRecord, Apply;
    if plan != [] {
      RecordKept(st, plan[..|plan| - 1], main);
      RecordStep(ApplyAll(st, plan[..|plan| - 1]), plan[|plan| - 1], main);
    }
  }

  lemma MainIsPut(q: Request, st: Store)
    requires WellFormed(q)
    ensures Main(q) in WantedRoutes(q)
    ensures Main(q) in ApplyAll(st, RoutePlan(q, st)).routes
  {
    hide PrefixRoute, MainName, Cleanup, ApplyAll;
    var keys := InOrder(q.targets.Keys);
    var puts := PrefixPuts(q, keys);
    assert Main(q) == RouteName(q.cfg.digest, q.id, "default");
    var i :| 0 <= i < |keys| && keys[i] == "default";
    assert puts[i] in puts && puts[i] in RoutePlan(q, st);
    if DropRoute(Main(q)) in RoutePlan(q, st) { RoutePlanActs(q, st, DropRoute(Main(q))); }
    Present(st, RoutePlan(q, st), Main(q));
  }

  lemma RoutePlanKeepsRecord(q: Request, st: Store)
    requires WellFormed(q)
    ensures forall a :: a in RoutePlan(q, st) ==> SparesRecord(a, Main(q))
    ensures Recorded(ApplyAll(st, RoutePlan(q, st)), Main(q)) == Recorded(st, Main(q))
    ensures Main(q) in ApplyAll(st, RoutePlan(q, st)).routes
  {
    hide Main, Recorded, RoutePlan, ApplyAll, Clean, WantedRoutes, Labelled;
    MainIsPut(q, st);
    forall a | a in RoutePlan(q, st) ensures SparesRecord(a, Main(q)) { RoutePlanActs(q, st, a); }
    RecordKept(st, RoutePlan(q, st), Main(q));
  }

  // ----- CName routes and ListenerSets stay named after the list -----

  predicate Names(a: Action, digest: Digest, id: InstanceID, cnames: set<string>) {
    && (a.PutRoute? && OfCName(a.route.labels, id) ==> a.name in CNameNames(digest, id, cnames))
    && (a.PutSet? && Labelled(a.ls.labels, id) ==> a.name in SetNames(digest, id, cnames))
  }

  lemma WithinStep(st: Store, a: Action, digest: Digest, id: InstanceID, cnames: set<string>)
    requires Names(a, digest, id, cnames) && Within(st, digest, id, cnames)
    ensures Within(Apply(st, a), digest, id, cnames)
  {
    hide OfCName, Labelled, CNameNames, SetNames, Recording, Frozen;
    var st' := Apply(st, a);
    forall n | n in CNameRoutes(st', id) ensures n in CNameNames(digest, id, cnames) {
      if n in st.routes && st'.routes[n].labels == st.routes[n].labels { assert n in CNameRoutes(st, id); }
    }
    forall n | n in SetsOf(st', id) ensures n in SetNames(digest, id, cnames) {
      if n in st.sets && st'.sets[n] == st.sets[n] { assert n in SetsOf(st, id); }
    }
  }

  lemma {:induction false} WithinKept(st: Store, plan: seq<Action>, digest: Digest, id: InstanceID, cnames: set<string>)
    requires forall a :: a in plan ==> Names(a, digest, id, cnames)
    requires Within(st, digest, id, cnames)
    ensures Within(ApplyAll(st, plan), digest, id, cnames)
  {
    hide Within, Names, Apply;
    if plan != [] {
      WithinKept(st, plan[..|plan| - 1], digest, id, cnames);
      WithinStep(ApplyAll(st, plan[..|plan| - 1]), plan[|plan| - 1], digest, id, cnames);
    }
  }

  lemma OursNames(q: Request, a: Action, id: InstanceID, cnames: set<string>)
    requires Ours(q, a) && (id == q.id ==> Wanted(q) <= cnames)
    ensures Names(a, q.cfg.digest, id, cnames)
  {
    if a.PutRoute? && OfCName(a.route.labels, id) { OneOwner(a.route.labels, id, q.id); }
    if a.PutSet? && Labelled(a.ls.labels, id) { OneOwner(a.ls.labels, id, q.id); }
  }

  /** Everything in a plan, complete or blind, is ours. */
  lemma PlanIsOurs(q: Request, st: Store, a: Action)
    requires WellFormed(q) && (a in EnsurePlan(q, st) || a in BlindPlan(q, st))
    ensures Ours(q, a)
  {
    hide Ours, RoutePlan, CNamePlan, ApplyAll, Clean, Recorded;
    var before := ApplyAll(st, RoutePlan(q, st));
    if a in RoutePlan(q, st) {
      RoutePlanActs(q, st, a);
    } else if a in CNamePlan(q, before, []) {
      CNamePlanActs(q, before, [], a);
    } else {
      CNamePlanActs(q, before, Recorded(before, Main(q)), a);
    }
  }

  /** Names recorded before, or attempted now. */
  ghost predicate Attempting(st: Store, digest: Digest, id: InstanceID, cnames: set<string>) {
    Within(st, digest, id, RecordedIn(st, digest, id) + cnames)
  }

  /** The CName plan is its writes, the ListenerSet cleanup, and the record last of all. */
  lemma CNamePlanParts(q: Request, st: Store, existing: seq<string>)
    ensures var plan, s := CNamePlan(q, st, existing), ApplyAll(st, CNameWrites(q, existing));
      && plan != [] && plan[..|plan| - 1] == CNameWrites(q, existing) + SetCleanup(q, s)
      && plan[|plan| - 1] == WriteRecord(Main(q), q.o.cnames)
      && ApplyAll(st, plan) == Apply(ApplyAll(s, SetCleanup(q, s)), WriteRecord(Main(q), q.o.cnames))
  {
    hide CNamePuts, CNameDrops, SetCleanup, MainName, Apply;
    var s := ApplyAll(st, CNameWrites(q, existing));
    ApplyConcat(st, CNameWrites(q, existing), SetCleanup(q, s));
  }

  /** After the CName writes the routes are those of requested CNames only. */
  lemma AfterCNameWrites(q: Request, st: Store, existing: seq<string>)
    requires Clean(q)
    requires Within(st, q.cfg.digest, q.id, Elements(existing) + Wanted(q))
    ensures var s := ApplyAll(st, CNameWrites(q, existing));
      && CNameRoutes(s, q.id) <= CNameNames(q.cfg.digest, q.id, Wanted(q))
      && SetsOf(s, q.id) <= SetNames(q.cfg.digest, q.id, Elements(existing) + Wanted(q))
  {
    hide CNamePuts, CNameDrops, OfCName, Labelled, Ours, Clean, Names, CNameRouteName, SetName, ApplyAll;
    var puts, gone := CNamePuts(q, q.o.cnames), Without(existing, q.o.cnames);
    var all := Elements(existing) + Wanted(q);
    forall a | a in puts ensures Names(a, q.cfg.digest, q.id, all) {
      assert a in CNameWrites(q, existing);
      CNameWritesAct(q, existing, a);
      OursNames(q, a, q.id, all);
    }
    WithinKept(st, puts, q.cfg.digest, q.id, all);
    ApplyConcat(st, puts, CNameDrops(q, gone));
    CNameDropsEffect(q, ApplyAll(st, puts), gone);
    assert Elements(gone) == Elements(existing) - Wanted(q);
    var s1, s := ApplyAll(st, puts), ApplyAll(st, CNameWrites(q, existing));
    assert SetsOf(s, q.id) == SetsOf(s1, q.id);
    forall n | n in CNameRoutes(s, q.id) ensures n in CNameNames(q.cfg.digest, q.id, Wanted(q)) {
      assert n in CNameRoutes(s1, q.id);
      var c :| c in all && n == CNameRouteName(q.cfg.digest, q.id, c);
      assert c in Elements(gone) || c in Wanted(q);
    }
  }

  lemma SetCleanupEffect(q: Request, s: Store)
    ensures ApplyAll(s, SetCleanup(q, s)) == s.(sets := s.sets - (SetsOf(s, q.id) - WantedSets(q)))
    ensures SetsOf(ApplyAll(s, SetCleanup(q, s)), q.id) == SetsOf(s, q.id) * WantedSets(q)
    ensures forall a :: a in SetCleanup(q, s) ==> a.DropSet?
  {
    hide DropSets, ApplyAll, WantedSets, Labelled;
    forall a | a in SetCleanup(q, s)
      ensures a.DropSet?
    {
      DropSetsAre(InOrder(SetsOf(s, q.id)), SetsOf(s, q.id) - WantedSets(q), a);
    }
    DropSetsEffect(s, InOrder(SetsOf(s, q.id)), SetsOf(s, q.id) - WantedSets(q));
    assert SetsOf(s, q.id) * (SetsOf(s, q.id) - WantedSets(q)) == SetsOf(s, q.id) - WantedSets(q);
  }

  lemma CNameWriteSparesRecord(q: Request, existing: seq<string>, a: Action)
    requires Clean(q) && MainApart(q, Elements(existing)) && a in CNameWrites(q, existing)
    ensures SparesRecord(a, Main(q))
  {
    hide CNameWrites, Clean, Main, WantedRoutes, Labelled, OfCName, CNameRouteName;
    CNameWritesAct(q, existing, a);
  }

  lemma CNameWritesKeepMain(q: Request, st: Store, existing: seq<string>)
    requires Clean(q) && MainApart(q, Elements(existing)) && Main(q) in st.routes
    ensures Main(q) in ApplyAll(st, CNameWrites(q, existing)).routes
  {
    hide CNameWrites, MainApart, Clean, MainName, SparesRecord, ApplyAll;
    forall a | a in CNameWrites(q, existing)
      ensures SparesRecord(a, Main(q))
    {
      CNameWriteSparesRecord(q, existing, a);
    }
    RecordKept(st, CNameWrites(q, existing), Main(q));
  }

  /** Just before the record is written only wanted ListenerSets are left, and the main route is there. */
  lemma BeforeRecord(q: Request, st: Store, existing: seq<string>) returns (s: Store)
    requires Clean(q) && MainApart(q, Elements(existing)) && Main(q) in st.routes
    ensures ApplyAll(st, CNamePlan(q, st, existing)) == Apply(s, WriteRecord(Main(q), q.o.cnames))
    ensures var s0 := ApplyAll(st, CNameWrites(q, existing));
      s == s0.(sets := s0.sets - (SetsOf(s0, q.id) - WantedSets(q)))
    ensures SetsOf(s, q.id) <= WantedSets(q) && Main(q) in s.routes
  {
    hide CNameWrites, CNamePlan, SetCleanup, SetsOf, WantedSets, CNameNames, ApplyAll, Apply, Clean, Main, WantedRoutes;
    CNamePlanParts(q, st, existing);
    var s0 := ApplyAll(st, CNameWrites(q, existing));
    SetCleanupEffect(q, s0);
    s := ApplyAll(s0, SetCleanup(q, s0));
    CNameWritesKeepMain(q, st, existing);
  }

  lemma WithinBeforeRecord(q: Request, st: Store, existing: seq<string>, s: Store)
    requires Clean(q) && Within(st, q.cfg.digest, q.id, Elements(existing) + Wanted(q))
    requires s.routes == ApplyAll(st, CNameWrites(q, existing)).routes && SetsOf(s, q.id) <= WantedSets(q)
    ensures Within(s, q.cfg.digest, q.id, Wanted(q))
  {
    hide CNameWrites, Labelled, OfCName, CNameRouteName, SetName, ApplyAll, Clean;
    AfterCNameWrites(q, st, existing);
    assert CNameRoutes(s, q.id) == CNameRoutes(ApplyAll(st, CNameWrites(q, existing)), q.id);
    assert WantedSets(q) <= SetNames(q.cfg.digest, q.id, Wanted(q));
  }

  lemma RecordWritten(q: Request, s: Store)
    requires Clean(q) && Main(q) in s.routes
    ensures var s' := Apply(s, WriteRecord(Main(q), q.o.cnames));
      && Main(q) in s'.routes && Recorded(s', Main(q)) == q.o.cnames
      && CNameRoutes(s', q.id) == CNameRoutes(s, q.id) && SetsOf(s', q.id) == SetsOf(s, q.id)
      && Apply(s', WriteRecord(Main(q), q.o.cnames)) == s'
  {
    hide MainName, Recording, Labelled, OfCName, CNameNames, SetNames, Split, LabelsFree, AnnotationsFree;
    RecordReadsBack(s.routes[Main(q)].annotations, q.o.cnames);
    RecordingSpares(s.routes[Main(q)].annotations, q.o.cnames);
  }

  /** Whatever the store held, a complete Ensure leaves the requested list recorded on the main route. */
  lemma EnsureRecords(q: Request, st: Store)
    requires WellFormed(q) && Apart(q, RecordedIn(st, q.cfg.digest, q.id))
    ensures Main(q) in Ensured(q, st).routes && Recorded(Ensured(q, st), Main(q)) == q.o.cnames
    ensures q.o.cnames != [] ==>
      SetsOf(Ensured(q, st), q.id) <= WantedSets(q)
        && Apply(Ensured(q, st), WriteRecord(Main(q), q.o.cnames)) == Ensured(q, st)
  {
    hide RoutePlan, CNamePlan, CNameWrites, ApplyAll, Apply, Clean, MainName, CNameNames, WantedRoutes, SetsOf,
         WantedSets;
    var before := ApplyAll(st, RoutePlan(q, st));
    var existing := Recorded(before, Main(q));
    RoutePlanKeepsRecord(q, st);
    ApartMain(q, st, Elements(existing));
    if q.o.cnames == [] && existing == [] {
      assert EnsurePlan(q, st) == RoutePlan(q, st);
    } else {
      ApplyConcat(st, RoutePlan(q, st), CNamePlan(q, before, existing));
      var s := BeforeRecord(q, before, existing);
      RecordWritten(q, s);
    }
  }

  lemma ApartMain(q: Request, st: Store, recorded: set<string>)
    requires WellFormed(q) && Apart(q, recorded)
    ensures MainApart(q, recorded)
  {
    hide WantedRoutes, CNameRouteName, Clean, MainName;
    MainIsPut(q, st);
  }

  /**
    A complete Ensure leaves no CName route or ListenerSet of the id outside the requested list, from
    any store whose leftovers are named after a recorded or a requested CName.
   */
  lemma EnsureExact(q: Request, st: Store)
    requires WellFormed(q) && Apart(q, RecordedIn(st, q.cfg.digest, q.id))
    requires Attempting(st, q.cfg.digest, q.id, Wanted(q))
    ensures RecordedIn(Ensured(q, st), q.cfg.digest, q.id) == Wanted(q)
    ensures Within(Ensured(q, st), q.cfg.digest, q.id, Wanted(q))
  {
    hide RoutePlan, ApplyAll, Clean, MainName, Recorded, Within, Ensured, Apart, MainApart;
    RoutePlanKeepsRecord(q, st);
    ApartMain(q, st, RecordedIn(st, q.cfg.digest, q.id));
    ExactWithMain(q, st);
  }

  /** All that exactness needs is that the main route and its record outlive the prefix phase. */
  lemma ExactWithMain(q: Request, st: Store)
    requires Clean(q) && MainApart(q, RecordedIn(st, q.cfg.digest, q.id))
    requires var before := ApplyAll(st, RoutePlan(q, st));
      Main(q) in before.routes && Recorded(before, Main(q)) == Recorded(st, Main(q))
    requires Attempting(st, q.cfg.digest, q.id, Wanted(q))
    ensures RecordedIn(Ensured(q, st), q.cfg.digest, q.id) == Wanted(q)
    ensures Within(Ensured(q, st), q.cfg.digest, q.id, Wanted(q))
  {
    hide RoutePlan, CNamePlan, CNameWrites, Ours, ApplyAll, Apply, Names, Clean, MainName, CNameNames, SetNames,
         WantedRoutes, SetsOf, CNameRoutes, WantedSets;
    var before := ApplyAll(st, RoutePlan(q, st));
    var existing := Recorded(before, Main(q));
    var all := RecordedIn(st, q.cfg.digest, q.id) + Wanted(q);
    forall a | a in RoutePlan(q, st) ensures Names(a, q.cfg.digest, q.id, all) {
      RoutePlanActs(q, st, a);
      OursNames(q, a, q.id, all);
    }
    WithinKept(st, RoutePlan(q, st), q.cfg.digest, q.id, all);
    if q.o.cnames == [] && existing == [] {
      assert EnsurePlan(q, st) == RoutePlan(q, st);
      assert all == Wanted(q);
    } else {
      ApplyConcat(st, RoutePlan(q, st), CNamePlan(q, before, existing));
      var s := BeforeRecord(q, before, existing);
      WithinBeforeRecord(q, before, existing, s);
      RecordWritten(q, s);
    }
  }

  lemma DropSetSpares(a: Action, main: string)
    requires a.DropSet?
    ensures SparesRecord(a, main)
  {
  }

  /** The CName plan spares the record up to its last write. */
  lemma CNamePlanSparesRecord(q: Request, st: Store, existing: seq<string>)
    requires Clean(q) && MainApart(q, Elements(existing))
    ensures var plan := CNamePlan(q, st, existing);
      forall a :: a in plan[..|plan| - 1] ==> SparesRecord(a, Main(q))
  {
    hide CNamePlan, CNameWrites, SetCleanup, Clean, MainName, MainApart, ApplyAll, SparesRecord;
    CNamePlanParts(q, st, existing);
    var plan := CNamePlan(q, st, existing);
    var s := ApplyAll(st, CNameWrites(q, existing));
    SetCleanupEffect(q, s);
    forall a | a in plan[..|plan| - 1] ensures SparesRecord(a, Main(q)) {
      if a in CNameWrites(q, existing) { CNameWriteSparesRecord(q, existing, a); } else { DropSetSpares(a, Main(q)); }
    }
  }

  /** Every write of an Ensure, blind or not, but its very last spares the record. */
  lemma PlanSparesRecord(q: Request, st: Store, blind: bool, k: nat)
    requires WellFormed(q) && Apart(q, RecordedIn(st, q.cfg.digest, q.id))
    requires k < |Planned(q, st, blind)|
    ensures forall a :: a in Planned(q, st, blind)[..k] ==> SparesRecord(a, Main(q))
  {
    hide RoutePlan, CNamePlan, ApplyAll, Clean, MainName, Recorded, SparesRecord, Apart, MainApart;
    var before := ApplyAll(st, RoutePlan(q, st));
    var existing := if blind then [] else Recorded(before, Main(q));
    RoutePlanKeepsRecord(q, st);
    ApartMain(q, st, RecordedIn(st, q.cfg.digest, q.id));
    if blind { NoneApart(q, RecordedIn(st, q.cfg.digest, q.id)); }
    CNamePlanSparesRecord(q, before, existing);
    var plan, rest := Planned(q, st, blind), CNamePlan(q, before, existing);
    forall a | a in plan[..k] ensures SparesRecord(a, Main(q)) {
      var i :| 0 <= i < k && plan[i] == a;
      if i < |RoutePlan(q, st)| {
        assert a in RoutePlan(q, st);
      } else {
        assert rest[..|rest| - 1][i - |RoutePlan(q, st)|] == a;
      }
    }
  }

  lemma NoneApart(q: Request, recorded: set<string>)
    requires MainApart(q, recorded)
    ensures MainApart(q, Elements([]))
  {
    hide MainName, CNameRouteName;
  }

  /** However many of its writes were made, an Ensure leaves only recorded or attempted names. */
  lemma EnsureCutShort(q: Request, st: Store, k: nat)
    requires WellFormed(q) && Apart(q, RecordedIn(st, q.cfg.digest, q.id))
    requires Attempting(st, q.cfg.digest, q.id, Wanted(q))
    requires k <= |EnsurePlan(q, st)|
    ensures var st' := ApplyAll(st, EnsurePlan(q, st)[..k]);
      && Attempting(st', q.cfg.digest, q.id, Wanted(q))
      && (Recorded(st', Main(q)) == Recorded(st, Main(q)) || Recorded(st', Main(q)) == q.o.cnames)
  {
    hide EnsurePlan, Ours, Names, SparesRecord, ApplyAll, Clean, Within, MainName, Apart, Recorded;
    var plan := EnsurePlan(q, st);
    var all := RecordedIn(st, q.cfg.digest, q.id) + Wanted(q);
    if k == |plan| {
      assert plan[..k] == plan;
      EnsureExact(q, st);
      EnsureRecords(q, st);
      assert Wanted(q) + Wanted(q) == Wanted(q);
    } else {
      PlanSparesRecord(q, st, false, k);
      forall a | a in plan[..k] ensures Names(a, q.cfg.digest, q.id, all) {
        PlanIsOurs(q, st, a);
        OursNames(q, a, q.id, all);
      }
      WithinKept(st, plan[..k], q.cfg.digest, q.id, all);
      RecordKept(st, plan[..k], Main(q));
    }
  }

  /**
    A blind attempt that stops before its last write also leaves only recorded or attempted names, and
    the record as it was.
   */
  lemma BlindCutShort(q: Request, st: Store, k: nat)
    requires WellFormed(q) && Apart(q, RecordedIn(st, q.cfg.digest, q.id))
    requires Attempting(st, q.cfg.digest, q.id, Wanted(q))
    requires k < |BlindPlan(q, st)|
    ensures var st' := ApplyAll(st, BlindPlan(q, st)[..k]);
      Attempting(st', q.cfg.digest, q.id, Wanted(q)) && Recorded(st', Main(q)) == Recorded(st, Main(q))
  {
    hide Ours, Names, SparesRecord, ApplyAll, Clean, Within, MainName, Apart, Recorded, BlindPlan, EnsurePlan;
    var all := RecordedIn(st, q.cfg.digest, q.id) + Wanted(q);
    PlanSparesRecord(q, st, true, k);
    forall a | a in BlindPlan(q, st)[..k] ensures Names(a, q.cfg.digest, q.id, all) {
      PlanIsOurs(q, st, a);
      OursNames(q, a, q.id, all);
    }
    WithinKept(st, BlindPlan(q, st)[..k], q.cfg.digest, q.id, all);
    RecordKept(st, BlindPlan(q, st)[..k], Main(q));
  }
}

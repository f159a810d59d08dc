/**
  The two errors a Gateway Ensure swallows: reading the CName record while CNames are reconciled, and
  writing it in the end. What such a call leaves, and exactly when tracking survives it.
 */
module GatewaySwallowed {
  import opened Router
  import opened Strings
  import opened Resources
  import opened Gateway
  import opened GatewayPlans
  import opened GatewayFacts
  import opened GatewayEffects
  import opened GatewayClosure

  /** The call reconciles CNames at all. */
  predicate Asks(q: Request, st: Store) { q.o.cnames != [] || Recorded(st, Main(q)) != [] }

  /** What the call takes the record to be. */
  function Believed(q: Request, st: Store, blind: bool): seq<string> { if blind then [] else Recorded(st, Main(q)) }

  /** The store once the CNames are reconciled and just before the record is written. */
  ghost function Reconciled(q: Request, st: Store, blind: bool): Store {
    var s := ApplyAll(ApplyAll(st, RoutePlan(q, st)), CNameWrites(q, Believed(q, st, blind)));
    s.(sets := s.sets - (SetsOf(s, q.id) - WantedSets(q)))
  }

  lemma BeforeLast(q: Request, st: Store, existing: seq<string>)
    ensures var plan, s := CNamePlan(q, st, existing), ApplyAll(st, CNameWrites(q, existing));
      && plan != [] && plan == plan[..|plan| - 1] + [WriteRecord(Main(q), q.o.cnames)]
      && ApplyAll(st, plan[..|plan| - 1]) == s.(sets := s.sets - (SetsOf(s, q.id) - WantedSets(q)))
  {
    hide CNameWrites, CNamePlan, SetCleanup, SetsOf, WantedSets, ApplyAll, Apply, MainName;
    CNamePlanParts(q, st, existing);
    var s := ApplyAll(st, CNameWrites(q, existing));
    SetCleanupEffect(q, s);
    ApplyConcat(st, CNameWrites(q, existing), SetCleanup(q, s));
  }

  /** All writes but the last lead to the reconciled store, and the last one is the record. */
  lemma PlannedEnds(q: Request, st: Store, blind: bool)
    requires blind || (WellFormed(q) && Asks(q, st))
    ensures var plan, s := Planned(q, st, blind), Reconciled(q, st, blind);
      && plan != [] && ApplyAll(st, plan[..|plan| - 1]) == s
      && ApplyAll(st, plan) == Apply(s, WriteRecord(Main(q), q.o.cnames))
  {
    hide RoutePlan, CNamePlan, CNameWrites, SetsOf, WantedSets, ApplyAll, Apply, MainName, Clean, Recorded;
    if !blind { EnsureParts(q, st); }
    var routes, before, existing := RoutePlan(q, st), ApplyAll(st, RoutePlan(q, st)), Believed(q, st, blind);
    var plan, rest := Planned(q, st, blind), CNamePlan(q, before, existing);
    assert plan == routes + rest;
    BeforeLast(q, before, existing);
    var record := WriteRecord(Main(q), q.o.cnames);
    assert plan[..|plan| - 1] == routes + rest[..|rest| - 1];
    ApplyConcat(st, routes, rest[..|rest| - 1]);
    ApplyConcat(st, plan[..|plan| - 1], [record]);
    assert plan == plan[..|plan| - 1] + [record];
    OneStep(Reconciled(q, st, blind), record);
  }

  // ----- the reconciled store -----

  lemma ReconciledRecord(q: Request, st: Store, blind: bool)
    requires WellFormed(q) && Apart(q, RecordedIn(st, q.cfg.digest, q.id))
    ensures Recorded(Reconciled(q, st, blind), Main(q)) == Recorded(st, Main(q))
    ensures Main(q) in Reconciled(q, st, blind).routes
  {
    hide RoutePlan, CNameWrites, SetsOf, WantedSets, ApplyAll, MainName, Clean, WantedRoutes, CNameNames, SparesRecord,
         MainApart;
    var existing, before := Believed(q, st, blind), ApplyAll(st, RoutePlan(q, st));
    RoutePlanKeepsRecord(q, st);
    assert MainApart(q, Elements(existing)) by {
      ApartLess(q, RecordedIn(st, q.cfg.digest, q.id), Elements(existing));
      ApartMain(q, st, Elements(existing));
    }
    forall a | a in CNameWrites(q, existing)
      ensures SparesRecord(a, Main(q))
    {
      CNameWriteSparesRecord(q, existing, a);
    }
    RecordKept(before, CNameWrites(q, existing), Main(q));
  }

  lemma ApartLess(q: Request, a: set<string>, b: set<string>)
    requires Apart(q, a) && b <= a
    ensures Apart(q, b)
  {
    hide WantedRoutes, CNameRouteName;
  }

  /** A route no put of an unfrozen desired route froze stays unfrozen. */
  lemma {:induction false} StaysUnfrozen(st: Store, plan: seq<Action>, n: string)
    requires forall a :: a in plan ==> (a.PutRoute? && FREEZE_ANNOTATION !in a.route.annotations) || a.PutSet?
    requires n in st.routes ==> !Frozen(st.routes[n])
    ensures n in ApplyAll(st, plan).routes ==> !Frozen(ApplyAll(st, plan).routes[n])
  {
    if plan != [] {
      assert plan[|plan| - 1] in plan;
      StaysUnfrozen(st, plan[..|plan| - 1], n);
    }
  }

  /** The routes of the reconciled store are those after the puts, less the dropped ones. */
  lemma ReconciledRoutes(q: Request, st: Store, blind: bool)
    ensures var s1 := ApplyAll(ApplyAll(st, RoutePlan(q, st)), CNamePuts(q, q.o.cnames));
      Reconciled(q, st, blind).routes == s1.routes - Dropped(q, st, blind)
  {
    hide RoutePlan, ApplyAll, Recorded, MainName, SetsOf, WantedSets, CNameRouteName, CNamePuts;
    var before, gone := ApplyAll(st, RoutePlan(q, st)), Without(Believed(q, st, blind), q.o.cnames);
    ApplyConcat(before, CNamePuts(q, q.o.cnames), CNameDrops(q, gone));
    CNameDropsEffect(q, ApplyAll(before, CNamePuts(q, q.o.cnames)), gone);
    assert Elements(gone) == if blind then {} else RecordedIn(st, q.cfg.digest, q.id) - Wanted(q);
  }

  /** The names of the CName routes the call drops: nothing is dropped blind. */
  function Dropped(q: Request, st: Store, blind: bool): set<string> {
    CNameNames(q.cfg.digest, q.id, if blind then {} else RecordedIn(st, q.cfg.digest, q.id) - Wanted(q))
  }

  /** Where a CName route of the reconciled store comes from: a put, or the store before. */
  lemma RouteOrigin(q: Request, st: Store, blind: bool, n: string) returns (put: bool, c: string)
    requires Clean(q) && n in CNameRoutes(Reconciled(q, st, blind), q.id)
    ensures var s := Reconciled(q, st, blind);
      && (put ==> Issued(q, c) && n == CNameRouteName(q.cfg.digest, q.id, c)
                  && !(n in st.routes && Frozen(st.routes[n]))
                  && SameSpec(s.routes[n], CNameRoute(q, c, CNameParent(q, c))))
      && (!put ==> n in CNameRoutes(st, q.id) && s.routes[n] == st.routes[n]
                   && (Frozen(st.routes[n]) || forall x :: Issued(q, x) ==> n != CNameRouteName(q.cfg.digest, q.id, x)))
      && n !in Dropped(q, st, blind)
  {
    hide RoutePlan, ApplyAll, Clean, Recorded, MainName, SetsOf, WantedSets, Frozen, Carries, CNameRouteName,
         CNameRoute, CNameParent, Issuer, Labelled, WantedRoutes;
    var before, puts, s := ApplyAll(st, RoutePlan(q, st)), CNamePuts(q, q.o.cnames), Reconciled(q, st, blind);
    var s1 := ApplyAll(before, puts);
    ReconciledRoutes(q, st, blind);
    hide Reconciled;
    forall a | a in puts ensures a.PutRoute? || a.PutSet? { var _ := PutsAreIssued(q, a); }
    RouteAfterPuts(before, puts, n);
    BeforeAt(q, st, n);
    put, c := false, "";
    if n in st.routes && Frozen(st.routes[n]) {
      FrozenUnwritten(before, puts, n);
    } else if r :| PutRoute(n, r) in puts && Carries(s1.routes[n], r) {
      put := true;
      c := PutsAreIssued(q, PutRoute(n, r));
      CarriesLabels(s1.routes[n], r);
    } else {
      forall x | Issued(q, x) ensures n != CNameRouteName(q.cfg.digest, q.id, x) {
        IssuedPuts(q, x);
      }
    }
  }

  /** The route of an issued CName is there, unfrozen, if nothing froze it or drops it. */
  lemma IssuedThere(q: Request, st: Store, blind: bool, c: string)
    requires Clean(q) && Issued(q, c) && Apart(q, RecordedIn(st, q.cfg.digest, q.id))
    requires var n := CNameRouteName(q.cfg.digest, q.id, c);
      && !(n in st.routes && Frozen(st.routes[n]))
      && n !in Dropped(q, st, blind)
    ensures var n, s := CNameRouteName(q.cfg.digest, q.id, c), Reconciled(q, st, blind);
      n in CNameRoutes(s, q.id) && !Frozen(s.routes[n])
  {
    hide RoutePlan, CNamePuts, ApplyAll, Clean, Apart, Recorded, MainName, OfCName, Frozen, CNameRouteName, Issuer;
    ReconciledRoutes(q, st, blind);
    hide Reconciled, Dropped;
    BeforeUnfrozen(q, st, c);
    PutThere(q, ApplyAll(st, RoutePlan(q, st)), c);
  }

  /** The route of an issued CName after the CName puts, if nothing froze it. */
  lemma PutThere(q: Request, s: Store, c: string)
    requires Clean(q) && Issued(q, c)
    requires var n := CNameRouteName(q.cfg.digest, q.id, c); n in s.routes ==> !Frozen(s.routes[n])
    ensures var n, s' := CNameRouteName(q.cfg.digest, q.id, c), ApplyAll(s, CNamePuts(q, q.o.cnames));
      n in s'.routes && OfCName(s'.routes[n].labels, q.id) && !Frozen(s'.routes[n])
  {
    hide ApplyAll, Clean, Frozen, Carries, CNameRouteName, CNameRoute, CNameSet, CNameParent, OfCName, WantedSets,
         Issuer;
    var n, puts := CNameRouteName(q.cfg.digest, q.id, c), CNamePuts(q, q.o.cnames);
    var s' := ApplyAll(s, puts);
    IssuedPuts(q, c);
    hide CNamePuts;
    forall a | a in puts
      ensures (a.PutRoute? && FREEZE_ANNOTATION !in a.route.annotations && OfCName(a.route.labels, q.id)) || a.PutSet?
    {
      PutShows(q, a);
    }
    Present(s, puts, n);
    StaysUnfrozen(s, puts, n);
    RouteAfterPuts(s, puts, n);
    var r :| PutRoute(n, r) in puts && Carries(s'.routes[n], r);
    CarriesLabels(s'.routes[n], r);
  }

  lemma BeforeUnfrozen(q: Request, st: Store, c: string)
    requires Clean(q) && c in q.o.cnames && Apart(q, RecordedIn(st, q.cfg.digest, q.id))
    requires var n := CNameRouteName(q.cfg.digest, q.id, c); !(n in st.routes && Frozen(st.routes[n]))
    ensures var n, s := CNameRouteName(q.cfg.digest, q.id, c), ApplyAll(st, RoutePlan(q, st));
      n in s.routes ==> !Frozen(s.routes[n])
  {
    hide RoutePlan, ApplyAll, Clean, Recorded, MainName, Frozen, CNameRouteName, WantedRoutes;
    assert CNameRouteName(q.cfg.digest, q.id, c)
        in CNameNames(q.cfg.digest, q.id, RecordedIn(st, q.cfg.digest, q.id) + Wanted(q));
    BeforeAt(q, st, CNameRouteName(q.cfg.digest, q.id, c));
  }

  /** A put of the CName plan is a CName route of the id without a freeze flag, or a ListenerSet of the id. */
  lemma PutShows(q: Request, a: Action)
    requires Clean(q) && a in CNamePuts(q, q.o.cnames)
    ensures (a.PutRoute? && FREEZE_ANNOTATION !in a.route.annotations && OfCName(a.route.labels, q.id))
         || (a.PutSet? && Labelled(a.ls.labels, q.id) && a.name in WantedSets(q))
  {
    hide CNameRoute, CNameSet, CNameRouteName, SetName, CNameParent, Issuer, Labelled, Clean, FREEZE_ANNOTATION,
         CNAMES_ANNOTATION;
    var c := PutsAreIssued(q, a);
    assert a in CNameWrites(q, []);
    CNameWritesAct(q, [], a);
  }

  /** A CName route that was there is there still, as frozen or unfrozen as it was, if nothing drops it. */
  lemma RouteStays(q: Request, st: Store, blind: bool, n: string)
    requires Clean(q) && n in CNameRoutes(st, q.id) && n !in WantedRoutes(q)
    requires n !in Dropped(q, st, blind)
    ensures var s := Reconciled(q, st, blind);
      n in CNameRoutes(s, q.id) && (Frozen(s.routes[n]) <==> Frozen(st.routes[n]))
  {
    hide RoutePlan, ApplyAll, Clean, Recorded, MainName, SetsOf, WantedSets, Frozen, Carries, CNameRouteName, Labelled,
         WantedRoutes, Ours;
    var before, puts := ApplyAll(st, RoutePlan(q, st)), CNamePuts(q, q.o.cnames);
    var s1 := ApplyAll(before, puts);
    ReconciledRoutes(q, st, blind);
    hide Reconciled, Dropped;
    assert n in before.routes && before.routes[n] == st.routes[n] by { RoutePlanSpares(q, st, n); }
    forall a | a in puts
      ensures (a.PutRoute? && FREEZE_ANNOTATION !in a.route.annotations && OfCName(a.route.labels, q.id)) || a.PutSet?
    {
      PutShows(q, a);
    }
    Present(before, puts, n);
    if Frozen(st.routes[n]) {
      FrozenUnwritten(before, puts, n);
    } else {
      StaysUnfrozen(before, puts, n);
      RouteAfterPuts(before, puts, n);
      if r :| PutRoute(n, r) in puts && Carries(s1.routes[n], r) { CarriesLabels(s1.routes[n], r); }
    }
  }

  lemma RoutePlanSpares(q: Request, st: Store, n: string)
    requires Clean(q) && n in CNameRoutes(st, q.id) && n !in WantedRoutes(q)
    ensures var s := ApplyAll(st, RoutePlan(q, st)); n in s.routes && s.routes[n] == st.routes[n]
  {
    hide RoutePlan, ApplyAll, Clean, Frozen, Labelled, WantedRoutes, Ours;
    forall a | a in RoutePlan(q, st) && RouteAction(a) ensures a.name != n {
      RoutePlanActs(q, st, a);
      if a.PutRoute? { PrefixPutWanted(q, a); }
    }
    RouteUntouched(st, RoutePlan(q, st), n);
  }

  lemma PrefixPutWanted(q: Request, a: Action)
    requires Ours(q, a) && a.PutRoute? && CNAME_LABEL !in a.route.labels
    ensures a.name in WantedRoutes(q)
  {
  }

  /** The ListenerSets of the reconciled store: wanted ones that were there, and those of issued CNames in TLS mode. */
  lemma ReconciledSets(q: Request, st: Store, blind: bool, n: string)
    requires Clean(q)
    ensures var s := Reconciled(q, st, blind);
      n in SetsOf(s, q.id) <==>
        n in WantedSets(q) && (n in SetsOf(st, q.id) || exists c :: Issued(q, c) && n == SetName(q.cfg.digest, q.id, c))
  {
    hide RoutePlan, CNameWrites, ApplyAll, Clean, Recorded, CNameSet, Issuer, MainName, SetName, Labelled, WantedRoutes,
         SetsOf, CNameParent, CNameRoute;
    var existing, before := Believed(q, st, blind), ApplyAll(st, RoutePlan(q, st));
    var writes := CNameWrites(q, existing);
    var s0 := ApplyAll(before, writes);
    assert before.sets == st.sets by { BeforeAt(q, st, n); }
    SetsAre(q, st, before, s0);
    assert DropSet(n) !in writes by { if DropSet(n) in writes { CNameWritesAct(q, existing, DropSet(n)); } }
    SetAfterPuts(before, writes, n);
    CNameWritesParts(q, existing);
    forall ls | PutSet(n, ls) in writes
      ensures Labelled(ls.labels, q.id) && exists c :: Issued(q, c) && n == SetName(q.cfg.digest, q.id, c)
    {
      CNameWritesAct(q, existing, PutSet(n, ls));
      assert PutSet(n, ls) in CNamePuts(q, q.o.cnames);
      var c := PutsAreIssued(q, PutSet(n, ls));
    }
    if c :| n in WantedSets(q) && Issued(q, c) && n == SetName(q.cfg.digest, q.id, c) { IssuedPuts(q, c); }
  }

  /** Reading off who is in SetsOf. */
  lemma SetsAre(q: Request, st: Store, before: Store, s: Store)
    requires before.sets == st.sets
    ensures SetsOf(before, q.id) == SetsOf(st, q.id)
    ensures forall n :: n in SetsOf(s, q.id) <==> n in s.sets && Labelled(s.sets[n].labels, q.id)
    ensures forall n :: n in SetsOf(st, q.id) <==> n in st.sets && Labelled(st.sets[n].labels, q.id)
    ensures var t := s.(sets := s.sets - (SetsOf(s, q.id) - WantedSets(q)));
      SetsOf(t, q.id) == SetsOf(s, q.id) * WantedSets(q)
  {
    hide WantedSets, Labelled;
  }

  // ----- tracking -----

  /** Every CName object of the id is named after a CName its main route records. */
  predicate Tracking(st: Store, digest: Digest, id: InstanceID) {
    Within(st, digest, id, RecordedIn(st, digest, id))
  }

  predicate FrozenAt(st: Store, n: string) { n in st.routes && Frozen(st.routes[n]) }

  /** Every CName object the call puts is named after a CName that was recorded before. */
  ghost predicate PutsRecorded(q: Request, st: Store) {
    var recorded := RecordedIn(st, q.cfg.digest, q.id);
    forall c :: Issued(q, c) ==>
      && (CNameRouteName(q.cfg.digest, q.id, c) in CNameNames(q.cfg.digest, q.id, recorded)
           || FrozenAt(st, CNameRouteName(q.cfg.digest, q.id, c)))
      && (q.o.opts.httpOnly || SetName(q.cfg.digest, q.id, c) in SetNames(q.cfg.digest, q.id, recorded))
  }

  /** When the record is not written, tracking survives if and only if nothing unrecorded was put. */
  lemma LostRecordTracksExactly(q: Request, st: Store, blind: bool)
    requires WellFormed(q) && Apart(q, RecordedIn(st, q.cfg.digest, q.id)) && Tracking(st, q.cfg.digest, q.id)
    ensures Tracking(Reconciled(q, st, blind), q.cfg.digest, q.id) <==> PutsRecorded(q, st)
  {
    hide Reconciled, Clean, Apart, Recorded, MainName, Labelled, OfCName, CNameRouteName, SetName, Issuer, Frozen,
         CNameRoute, CNameParent, CNameRoutes, SetsOf, SameSpec;
    var digest, id, s, recorded := q.cfg.digest, q.id, Reconciled(q, st, blind), RecordedIn(st, q.cfg.digest, q.id);
    ReconciledRecord(q, st, blind);
    if PutsRecorded(q, st) {
      forall n | n in CNameRoutes(s, id) ensures n in CNameNames(digest, id, recorded) {
        var put, c := RouteOrigin(q, st, blind, n);
      }
      forall n | n in SetsOf(s, id) ensures n in SetNames(digest, id, recorded) { OwnSets(q, st, blind, n); }
    } else {
      var c :| Issued(q, c)
        && !((CNameRouteName(digest, id, c) in CNameNames(digest, id, recorded)
           || FrozenAt(st, CNameRouteName(digest, id, c)))
                                 && (q.o.opts.httpOnly || SetName(digest, id, c) in SetNames(digest, id, recorded)));
      if CNameRouteName(digest, id, c) !in CNameNames(digest, id, recorded)
        && !FrozenAt(st, CNameRouteName(digest, id, c)) {
        assert CNameRouteName(digest, id, c) !in Dropped(q, st, blind) by { DroppedRecorded(q, st, blind); }
        IssuedThere(q, st, blind, c);
      } else {
        ReconciledSets(q, st, blind, SetName(digest, id, c));
        assert SetName(digest, id, c) in SetsOf(s, id);
      }
    }
  }

  lemma OwnSets(q: Request, st: Store, blind: bool, n: string)
    requires WellFormed(q) && Tracking(st, q.cfg.digest, q.id) && PutsRecorded(q, st)
    requires n in SetsOf(Reconciled(q, st, blind), q.id)
    ensures n in SetNames(q.cfg.digest, q.id, RecordedIn(st, q.cfg.digest, q.id))
  {
    hide Reconciled, Clean, Recorded, MainName, Labelled, CNameRouteName, SetName, Issuer, Frozen, CNameRoutes;
    ReconciledSets(q, st, blind, n);
  }

  lemma DroppedRecorded(q: Request, st: Store, blind: bool)
    ensures Dropped(q, st, blind) <= CNameNames(q.cfg.digest, q.id, RecordedIn(st, q.cfg.digest, q.id))
    ensures Dropped(q, st, blind) <= CNameNames(q.cfg.digest, q.id, RecordedIn(st, q.cfg.digest, q.id) + Wanted(q))
  {
    hide CNameRouteName, Recorded, MainName;
  }

  /** The CName routes after a call whose record read was swallowed: those there before, and those put. */
  lemma BlindRoutes(q: Request, st: Store, n: string)
    requires Clean(q) && CNameRoutes(st, q.id) !! WantedRoutes(q)
    ensures n in CNameRoutes(Reconciled(q, st, true), q.id) ==>
      n in CNameRoutes(st, q.id) || n in CNameNames(q.cfg.digest, q.id, Wanted(q))
    ensures n in CNameRoutes(st, q.id) ==> n in CNameRoutes(Reconciled(q, st, true), q.id)
  {
    hide Reconciled, Clean, Recorded, MainName, Labelled, CNameRouteName, Issuer, Frozen, CNameRoute, CNameParent,
         CNameRoutes, SameSpec, WantedRoutes;
    if n in CNameRoutes(Reconciled(q, st, true), q.id) { var put, c := RouteOrigin(q, st, true, n); }
    if n in CNameRoutes(st, q.id) { RouteStays(q, st, true, n); }
  }

  /** The whole blind plan: the requested list is recorded, over the reconciled routes and ListenerSets. */
  lemma BlindEnds(q: Request, st: Store)
    requires WellFormed(q) && Apart(q, RecordedIn(st, q.cfg.digest, q.id))
    ensures var s, s' := Reconciled(q, st, true), ApplyAll(st, BlindPlan(q, st));
      && Recorded(s', Main(q)) == q.o.cnames && Main(q) in s.routes
      && CNameRoutes(s', q.id) == CNameRoutes(s, q.id) && SetsOf(s', q.id) == SetsOf(s, q.id)
      && s' == Apply(s, WriteRecord(Main(q), q.o.cnames))
  {
    hide Reconciled, Clean, Recorded, MainName, CNameRoutes, SetsOf, Apart, BlindPlan, Apply, ApplyAll;
    PlannedEnds(q, st, true);
    ReconciledRecord(q, st, true);
    RecordWritten(q, Reconciled(q, st, true));
  }

  /**
    When the record cannot be read while CNames are reconciled, tracking survives if and only if no CName
    that is recorded but no longer requested has a route.
   */
  lemma BlindTracksExactly(q: Request, st: Store)
    requires WellFormed(q) && Apart(q, RecordedIn(st, q.cfg.digest, q.id)) && Tracking(st, q.cfg.digest, q.id)
    ensures Tracking(ApplyAll(st, BlindPlan(q, st)), q.cfg.digest, q.id)
       <==> CNameRoutes(st, q.id) <= CNameNames(q.cfg.digest, q.id, Wanted(q))
  {
    hide Reconciled, Clean, Recorded, MainName, CNameRoutes, SetsOf, BlindPlan, ApplyAll, CNameRouteName, SetName,
         WantedRoutes, Issuer;
    var digest, id, s, s' := q.cfg.digest, q.id, Reconciled(q, st, true), ApplyAll(st, BlindPlan(q, st));
    BlindEnds(q, st);
    RecordedApart(q, st);
    forall n ensures n in SetsOf(s, id) ==> n in SetNames(digest, id, Wanted(q)) { ReconciledSets(q, st, true, n); }
    forall n ensures n in CNameRoutes(s, id) ==> n in CNameRoutes(st, id) || n in CNameNames(digest, id, Wanted(q))
      ensures n in CNameRoutes(st, id) ==> n in CNameRoutes(s, id)
    {
      BlindRoutes(q, st, n);
    }
  }

  lemma RecordedApart(q: Request, st: Store)
    requires Apart(q, RecordedIn(st, q.cfg.digest, q.id))
    requires CNameRoutes(st, q.id) <= CNameNames(q.cfg.digest, q.id, RecordedIn(st, q.cfg.digest, q.id))
    ensures CNameRoutes(st, q.id) !! WantedRoutes(q)
  {
    hide CNameRoutes, WantedRoutes, CNameRouteName, Recorded, MainName;
    assert CNameNames(q.cfg.digest, q.id, RecordedIn(st, q.cfg.digest, q.id))
        <= CNameNames(q.cfg.digest, q.id, RecordedIn(st, q.cfg.digest, q.id) + Wanted(q));
  }

  // ----- a request for no CNames whose record cannot be read -----

  /** Such a call ends after the prefix routes, and keeps tracking. */
  lemma UnaskedKeeps(q: Request, st: Store)
    requires WellFormed(q) && Tracking(st, q.cfg.digest, q.id)
    ensures Tracking(ApplyAll(st, RoutePlan(q, st)), q.cfg.digest, q.id)
  {
    hide RoutePlan, ApplyAll, Clean, Recorded, MainName, Labelled, WantedRoutes, Frozen, CNameRouteName, SetName;
    var id, before := q.id, ApplyAll(st, RoutePlan(q, st));
    RoutePlanKeepsRecord(q, st);
    forall n
      ensures before.sets == st.sets
      ensures n in CNameRoutes(before, id) ==> n in CNameRoutes(st, id) && before.routes[n] == st.routes[n]
    {
      BeforeAt(q, st, n);
    }
    SetsAre(q, st, before, st);
  }
}

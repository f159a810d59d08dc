/**
  The references from CName routes to ListenerSets: exactly when an Ensure, complete, cut short anywhere or
  with an error swallowed, leaves one that dangles.
 */
module GatewayReferences {
  import opened Router
  import opened Strings
  import opened Resources
  import opened Gateway
  import opened GatewayPlans
  import opened GatewayFacts
  import opened GatewayEffects
  import opened GatewayClosure
  import opened GatewaySwallowed

  /** The unfrozen CName route n of the id refers to the ListenerSet p names. */
  predicate Refers(st: Store, id: InstanceID, n: string, p: ParentRef) {
    n in CNameRoutes(st, id) && !Frozen(st.routes[n]) && p in st.routes[n].parentRefs && p.ToListenerSet?
  }

  /** Every ListenerSet an unfrozen CName route of the id refers to is there and belongs to the id. */
  ghost predicate RefsStand(st: Store, id: InstanceID) {
    forall n, p :: Refers(st, id, n, p) ==> p.name in SetsOf(st, id)
  }

  /** A route the call neither puts nor drops: none of a prefix, of an issued CName, or of one it drops. */
  ghost predicate Unnamed(q: Request, st: Store, blind: bool, n: string) {
    && n !in WantedRoutes(q) && n !in Dropped(q, st, blind)
    && forall c :: Issued(q, c) ==> n != CNameRouteName(q.cfg.digest, q.id, c)
  }

  /** No such route refers to a ListenerSet that the cleanup deletes. */
  ghost predicate StraysStand(q: Request, st: Store, blind: bool) {
    forall n, p :: Refers(st, q.id, n, p) && Unnamed(q, st, blind, n) ==> p.name in WantedSets(q)
  }

  // ----- the plan, cut anywhere -----

  /** The writes of the plan up to the ListenerSet cleanup. */
  ghost function Puts(q: Request, st: Store, blind: bool): seq<Action> {
    RoutePlan(q, st) + CNameWrites(q, Believed(q, st, blind))
  }

  /** The plan is the prefix routes alone, or goes on with the CName writes, the cleanup and the record. */
  lemma PlanSplits(q: Request, st: Store, blind: bool)
    requires WellFormed(q)
    ensures var s := ApplyAll(ApplyAll(st, RoutePlan(q, st)), CNameWrites(q, Believed(q, st, blind)));
      Planned(q, st, blind) == if blind || Asks(q, st)
                               then Puts(q, st, blind) + SetCleanup(q, s) + [WriteRecord(Main(q), q.o.cnames)]
                               else RoutePlan(q, st)
  {
    hide RoutePlan, CNamePlan, CNameWrites, SetCleanup, ApplyAll, Clean, Recorded, MainName;
    EnsureParts(q, st);
    var before, existing := ApplyAll(st, RoutePlan(q, st)), Believed(q, st, blind);
    CNamePlanParts(q, before, existing);
    var rest := CNamePlan(q, before, existing);
    assert rest == rest[..|rest| - 1] + [rest[|rest| - 1]];
  }

  /** When the cleanup has begun, everything was put and dropped before. */
  lemma CleanupIsLate(q: Request, st: Store, blind: bool, k: nat, x: string)
    requires WellFormed(q) && k <= |Planned(q, st, blind)| && DropSet(x) in Planned(q, st, blind)[..k]
    ensures blind || Asks(q, st)
    ensures Puts(q, st, blind) <= Planned(q, st, blind)[..k]
    ensures x !in WantedSets(q)
  {
    hide RoutePlan, CNameWrites, SetCleanup, ApplyAll, Clean, Recorded, MainName, Planned, SetsOf, WantedSets, Ours;
    PlanSplits(q, st, blind);
    var plan, puts := Planned(q, st, blind), Puts(q, st, blind);
    forall a | a in puts ensures !a.DropSet? {
      if a in RoutePlan(q, st) { RoutePlanActs(q, st, a); } else { CNameWritesAct(q, Believed(q, st, blind), a); }
    }
    forall a | a in RoutePlan(q, st) ensures !a.DropSet? { RoutePlanActs(q, st, a); }
    var i :| 0 <= i < k && plan[i] == DropSet(x);
    assert plan[i] in plan;
    assert puts <= plan;
    assert forall j :: 0 <= j < |puts| ==> plan[j] == puts[j];
    var s := ApplyAll(ApplyAll(st, RoutePlan(q, st)), CNameWrites(q, Believed(q, st, blind)));
    assert DropSet(x) in SetCleanup(q, s);
    CleanedUp(q, s, x);
  }

  lemma CleanedUp(q: Request, s: Store, x: string)
    ensures DropSet(x) in SetCleanup(q, s) <==> x in SetsOf(s, q.id) && x !in WantedSets(q)
  {
    hide DropSets, SetsOf, WantedSets;
    DropSetsAre(InOrder(SetsOf(s, q.id)), SetsOf(s, q.id) - WantedSets(q), DropSet(x));
  }

  /** A CName's ListenerSet is put just before its route. */
  lemma {:induction false} SetComesFirst(q: Request, cnames: seq<string>, i: nat) returns (c: string)
    requires i < |CNamePuts(q, cnames)| && CNamePuts(q, cnames)[i].PutRoute?
    ensures c in cnames && (q.o.opts.httpOnly || Issuer(q, c) != "")
    ensures CNamePuts(q, cnames)[i]
        == PutRoute(CNameRouteName(q.cfg.digest, q.id, c), CNameRoute(q, c, CNameParent(q, c)))
    ensures !q.o.opts.httpOnly ==>
      i > 0 && CNamePuts(q, cnames)[i - 1] == PutSet(SetName(q.cfg.digest, q.id, c), CNameSet(q, c, Issuer(q, c)))
  {
    hide CNameRoute, CNameSet, CNameRouteName, SetName, CNameParent, Issuer;
    var init := CNamePuts(q, cnames[..|cnames| - 1]);
    if i < |init| {
      c := SetComesFirst(q, cnames[..|cnames| - 1], i);
    } else {
      c := cnames[|cnames| - 1];
    }
  }

  /** A route a cut-short call put refers only to the ListenerSet of its CName, which the call put before. */
  lemma PutRefers(q: Request, st: Store, blind: bool, k: nat, a: Action, p: ParentRef) returns (c: string)
    requires WellFormed(q) && k <= |Planned(q, st, blind)|
    requires a in Planned(q, st, blind)[..k] && a.PutRoute? && p in a.route.parentRefs && p.ToListenerSet?
    ensures Issued(q, c) && !q.o.opts.httpOnly && a.name == CNameRouteName(q.cfg.digest, q.id, c)
    ensures p.name == SetName(q.cfg.digest, q.id, c) && a.route.parentRefs == [p]
    ensures PutSet(p.name, CNameSet(q, c, Issuer(q, c))) in Planned(q, st, blind)[..k]
  {
    hide RoutePlan, CNamePuts, CNameDrops, SetCleanup, ApplyAll, Clean, Recorded, MainName, Planned, CNameRoute,
         CNameSet, CNameRouteName, SetName, Issuer, Ours;
    var rest := PutsThenRest(q, st, blind);
    var plan, routes, puts := Planned(q, st, blind), RoutePlan(q, st), CNamePuts(q, q.o.cnames);
    var i :| 0 <= i < k && plan[i] == a;
    if i < |routes| {
      assert a in routes;
      PrefixRefersToGateway(q, st, a);
    } else {
      assert puts[i - |routes|] == a;
      c := SetComesFirst(q, q.o.cnames, i - |routes|);
      ParentOf(q, c, CNameParent(q, c));
      assert plan[i - 1] == puts[i - 1 - |routes|];
    }
  }

  lemma PrefixRefersToGateway(q: Request, st: Store, a: Action)
    requires a in RoutePlan(q, st) && a.PutRoute?
    ensures forall p :: p in a.route.parentRefs ==> p.ToGateway?
  {
    hide PrefixRoute, RouteName, ApplyAll, Cleanup;
    var keys := InOrder(q.targets.Keys);
    if a in PrefixPuts(q, keys) {
      var i :| 0 <= i < |keys| && PrefixPuts(q, keys)[i] == a;
      PrefixParent(q, keys[i]);
    } else {
      CleanupDrops(q, ApplyAll(st, PrefixPuts(q, keys)), a);
    }
  }

  lemma PrefixParent(q: Request, key: string)
    ensures forall p :: p in PrefixRoute(q, key).parentRefs ==> p.ToGateway?
  {
    hide Labels, Annotations, Host;
  }

  /** The plan is the prefix routes alone, or goes on with the CName puts, then drops and the record. */
  lemma PutsThenRest(q: Request, st: Store, blind: bool)
    returns (rest: seq<Action>)
    requires WellFormed(q)
    ensures Planned(q, st, blind)
        == RoutePlan(q, st) + (if blind || Asks(q, st) then CNamePuts(q, q.o.cnames) + rest else [])
    ensures forall a :: a in rest ==> !a.PutRoute?
  {
    hide RoutePlan, CNamePuts, CNameDrops, SetCleanup, ApplyAll, Clean, Recorded, MainName, Planned, Asks;
    PlanSplits(q, st, blind);
    var gone := Without(Believed(q, st, blind), q.o.cnames);
    var s := ApplyAll(ApplyAll(st, RoutePlan(q, st)), CNameWrites(q, Believed(q, st, blind)));
    rest := CNameDrops(q, gone) + SetCleanup(q, s) + [WriteRecord(Main(q), q.o.cnames)];
    forall a | a in rest ensures !a.PutRoute? { RestPutsNothing(q, s, gone, a); }
    assert CNameWrites(q, Believed(q, st, blind)) == CNamePuts(q, q.o.cnames) + CNameDrops(q, gone);
  }

  lemma RestPutsNothing(q: Request, s: Store, gone: seq<string>, a: Action)
    requires a in CNameDrops(q, gone) + SetCleanup(q, s) + [WriteRecord(Main(q), q.o.cnames)]
    ensures !a.PutRoute?
  {
    hide CNameDrops, SetCleanup, MainName;
    SetCleanupEffect(q, s);
  }

  lemma ParentOf(q: Request, c: string, p: ParentRef)
    ensures CNameRoute(q, c, p).parentRefs == [p]
  {
    hide Labels, Annotations;
  }

  /** The id's ListenerSets that were there or are put, and are not deleted, are there. */
  lemma SetStays(q: Request, st: Store, blind: bool, k: nat, x: string)
    requires WellFormed(q) && k <= |Planned(q, st, blind)| && DropSet(x) !in Planned(q, st, blind)[..k]
    requires x in SetsOf(st, q.id) || exists ls :: PutSet(x, ls) in Planned(q, st, blind)[..k]
    ensures x in SetsOf(ApplyAll(st, Planned(q, st, blind)[..k]), q.id)
  {
    hide Planned, ApplyAll, Clean, Labelled, SetsOf;
    var plan := Planned(q, st, blind)[..k];
    var s := ApplyAll(st, plan);
    SetAfterPuts(st, plan, x);
    InSets(st, q.id, x);
    InSets(s, q.id, x);
    if PutSet(x, s.sets[x]) in plan { PutLabelled(q, st, blind, x, s.sets[x]); }
  }

  lemma PutLabelled(q: Request, st: Store, blind: bool, x: string, ls: ListenerSet)
    requires WellFormed(q) && PutSet(x, ls) in Planned(q, st, blind)
    ensures Labelled(ls.labels, q.id) && x in WantedSets(q)
  {
    hide EnsurePlan, BlindPlan, Clean, Labelled, SetName;
    PlanIsOurs(q, st, PutSet(x, ls));
  }

  lemma InSets(st: Store, id: InstanceID, x: string)
    ensures x in SetsOf(st, id) <==> x in st.sets && Labelled(st.sets[x].labels, id)
  {
    hide Labelled;
  }

  /** Where an unfrozen route comes from: a put, or the store before, with no put or drop on the way. */
  lemma {:induction false} Origin(st: Store, plan: seq<Action>, n: string) returns (a: Option<Action>)
    requires n in ApplyAll(st, plan).routes && !Frozen(ApplyAll(st, plan).routes[n])
    ensures var r' := ApplyAll(st, plan).routes[n];
      match a
      case Some(put) => put in plan && put.PutRoute? && put.name == n && SameSpec(r', put.route)
      case None =>
        && n in st.routes && SameButRecord(st.routes[n], r') && DropRoute(n) !in plan
        && forall r :: PutRoute(n, r) !in plan
  {
    hide Frozen, SameSpec, SameButRecord;
    if plan == [] {
      SameButRecordRefl(st.routes[n]);
      a := None;
    } else {
      var init, last := plan[..|plan| - 1], plan[|plan| - 1];
      assert plan == init + [last];
      var s := ApplyAll(st, init);
      if last.PutRoute? && last.name == n && (n !in s.routes || !Frozen(s.routes[n])) {
        PutCarries(s, last);
        CarriesLabels(ApplyAll(st, plan).routes[n], last.route);
        a := Some(last);
      } else {
        StepSpares(s, last, n);
        a := Origin(st, init, n);
        if a.Some? {
          SpecTrans(ApplyAll(st, plan).routes[n], s.routes[n], a.value.route);
        } else {
          SameButRecordTrans(st.routes[n], s.routes[n], ApplyAll(st, plan).routes[n]);
        }
      }
    }
  }

  lemma StepSpares(s: Store, a: Action, n: string)
    requires n in Apply(s, a).routes && !Frozen(Apply(s, a).routes[n])
    requires !(a.PutRoute? && a.name == n && (n !in s.routes || !Frozen(s.routes[n])))
    ensures n in s.routes && !Frozen(s.routes[n]) && SameButRecord(s.routes[n], Apply(s, a).routes[n])
    ensures SameSpec(Apply(s, a).routes[n], s.routes[n]) && a != DropRoute(n) && !(a.PutRoute? && a.name == n)
  {
    hide Frozen, Recording;
    if a.WriteRecord? && a.name == n {
      RecordingSpares(s.routes[n].annotations, a.cnames);
      SameButRecordFrozen(s.routes[n], Apply(s, a).routes[n]);
    }
  }

  lemma SpecTrans(a: HTTPRoute, b: HTTPRoute, c: HTTPRoute)
    requires SameSpec(a, b) && SameSpec(b, c)
    ensures SameSpec(a, c)
  {
  }

  // ----- exactly when references stand -----

  /** An unnamed route is left as it was. */
  lemma UnnamedUntouched(q: Request, st: Store, blind: bool, a: Action, n: string)
    requires WellFormed(q) && a in Planned(q, st, blind) && RouteAction(a)
    requires n in CNameRoutes(st, q.id) && Unnamed(q, st, blind, n)
    ensures a.name != n
  {
    hide RoutePlan, CNameWrites, SetCleanup, ApplyAll, Clean, Recorded, MainName, Planned, CNameRouteName, Frozen, Ours,
         WantedRoutes, Asks, Issued, Labelled;
    PlanSplits(q, st, blind);
    MainIsPut(q, st);
    var s := ApplyAll(ApplyAll(st, RoutePlan(q, st)), CNameWrites(q, Believed(q, st, blind)));
    if a in RoutePlan(q, st) {
      RoutePlanActs(q, st, a);
      if a.PutRoute? { PrefixPutWanted(q, a); }
    } else if a in CNameWrites(q, Believed(q, st, blind)) {
      CNameWriteNames(q, st, blind, a);
    } else {
      SetCleanupEffect(q, s);
    }
  }

  lemma CNameWriteNames(q: Request, st: Store, blind: bool, a: Action)
    requires Clean(q) && a in CNameWrites(q, Believed(q, st, blind))
    ensures !a.WriteRecord?
    ensures a.PutRoute? ==> exists c :: Issued(q, c) && a.name == CNameRouteName(q.cfg.digest, q.id, c)
    ensures a.DropRoute? ==> a.name in Dropped(q, st, blind)
  {
    hide Clean, Recorded, MainName, CNameRouteName, Issued, Ours, CNamePuts;
    CNameWritesAct(q, Believed(q, st, blind), a);
    if a.PutRoute? { var c := PutsAreIssued(q, a); }
  }

  /** What the whole plan puts and drops, an unnamed route is none of. */
  lemma NamedByPuts(q: Request, st: Store, blind: bool, n: string)
    requires WellFormed(q) && DropRoute(n) !in Puts(q, st, blind) && forall r :: PutRoute(n, r) !in Puts(q, st, blind)
    ensures Unnamed(q, st, blind, n)
  {
    hide RoutePlan, Clean, Recorded, MainName, CNameRouteName, CNameRoute, CNameSet, CNameParent, Issuer, CNamePuts;
    if n in WantedRoutes(q) { WantedIsPut(q, st, n); }
    forall c | Issued(q, c) ensures n != CNameRouteName(q.cfg.digest, q.id, c) {
      IssuedPuts(q, c);
      assert PutRoute(CNameRouteName(q.cfg.digest, q.id, c), CNameRoute(q, c, CNameParent(q, c))) in Puts(q, st, blind);
    }
    if n in Dropped(q, st, blind) { DroppedIsDropped(q, st, blind, n); }
  }

  lemma WantedIsPut(q: Request, st: Store, n: string)
    requires n in WantedRoutes(q)
    ensures exists r :: PutRoute(n, r) in RoutePlan(q, st)
  {
    hide RouteName, PrefixRoute, Cleanup, ApplyAll;
    var key :| key in q.targets && n == RouteName(q.cfg.digest, q.id, key);
    var keys := InOrder(q.targets.Keys);
    var i :| 0 <= i < |keys| && keys[i] == key;
    assert PrefixPuts(q, keys)[i] == PutRoute(n, PrefixRoute(q, key));
  }

  lemma DroppedIsDropped(q: Request, st: Store, blind: bool, n: string)
    requires n in Dropped(q, st, blind)
    ensures DropRoute(n) in CNameWrites(q, Believed(q, st, blind))
  {
    hide CNameRouteName, Recorded, MainName, CNamePuts;
    var gone := Without(Believed(q, st, blind), q.o.cnames);
    var c :| c in RecordedIn(st, q.cfg.digest, q.id) - Wanted(q) && n == CNameRouteName(q.cfg.digest, q.id, c);
    var i :| 0 <= i < |gone| && gone[i] == c;
    assert CNameDrops(q, gone)[i] == DropRoute(n);
  }

  /** A deleted ListenerSet that is never put is gone. */
  lemma {:induction false} GoneSet(st: Store, plan: seq<Action>, x: string)
    requires DropSet(x) in plan && forall ls :: PutSet(x, ls) !in plan
    ensures x !in ApplyAll(st, plan).sets
  {
    var init, a := plan[..|plan| - 1], plan[|plan| - 1];
    assert plan == init + [a];
    if DropSet(x) in init { GoneSet(st, init, x); }
  }

  /** The reference of an unnamed route to a ListenerSet that is deleted dangles. */
  lemma Dangles(q: Request, st: Store, blind: bool, k: nat, n: string, p: ParentRef)
    requires WellFormed(q) && k <= |Planned(q, st, blind)|
    requires Refers(st, q.id, n, p) && Unnamed(q, st, blind, n) && DropSet(p.name) in Planned(q, st, blind)[..k]
    ensures var s := ApplyAll(st, Planned(q, st, blind)[..k]);
      n in s.routes && s.routes[n] == st.routes[n] && Refers(s, q.id, n, p) && p.name !in s.sets
  {
    hide Planned, Clean, Unnamed, ApplyAll, Frozen, Labelled, Recorded, WantedSets;
    UnnamedStays(q, st, blind, k, n);
    DeletedIsGone(q, st, blind, k, p.name);
  }

  lemma UnnamedStays(q: Request, st: Store, blind: bool, k: nat, n: string)
    requires WellFormed(q) && k <= |Planned(q, st, blind)| && n in CNameRoutes(st, q.id) && Unnamed(q, st, blind, n)
    ensures var s := ApplyAll(st, Planned(q, st, blind)[..k]); n in s.routes && s.routes[n] == st.routes[n]
  {
    hide Planned, Clean, Unnamed, ApplyAll, OfCName;
    var plan := Planned(q, st, blind)[..k];
    forall a | a in plan && RouteAction(a) ensures a.name != n { UnnamedUntouched(q, st, blind, a, n); }
    RouteUntouched(st, plan, n);
  }

  lemma DeletedIsGone(q: Request, st: Store, blind: bool, k: nat, x: string)
    requires WellFormed(q) && k <= |Planned(q, st, blind)| && DropSet(x) in Planned(q, st, blind)[..k]
    ensures x !in ApplyAll(st, Planned(q, st, blind)[..k]).sets
  {
    hide Planned, Clean, ApplyAll, Labelled, WantedSets, Puts;
    CleanupIsLate(q, st, blind, k, x);
    forall ls | PutSet(x, ls) in Planned(q, st, blind) ensures false { PutLabelled(q, st, blind, x, ls); }
    GoneSet(st, Planned(q, st, blind)[..k], x);
  }

  /**
    A reference after the cut: the ListenerSet of an issued CName, put by then, or the reference of an untouched
    route.
   */
  lemma ReferenceOrigin(q: Request, st: Store, blind: bool, k: nat, n: string, p: ParentRef) returns (c: Option<string>)
    requires WellFormed(q) && k <= |Planned(q, st, blind)|
    requires Refers(ApplyAll(st, Planned(q, st, blind)[..k]), q.id, n, p)
    ensures match c
      case Some(c) =>
        && Issued(q, c) && n == CNameRouteName(q.cfg.digest, q.id, c) && p.name == SetName(q.cfg.digest, q.id, c)
        && p.name in SetsOf(ApplyAll(st, Planned(q, st, blind)[..k]), q.id)
      case None =>
        && Refers(st, q.id, n, p) && DropRoute(n) !in Planned(q, st, blind)[..k]
        && forall r :: PutRoute(n, r) !in Planned(q, st, blind)[..k]
  {
    hide Planned, Clean, ApplyAll, Frozen, Labelled, Recorded, CNameSet, SetName, CNameRouteName, Issuer, WantedSets,
         SetsOf;
    var plan := Planned(q, st, blind)[..k];
    var s := ApplyAll(st, plan);
    var a := Origin(st, plan, n);
    if a.Some? {
      var x := PutRefers(q, st, blind, k, a.value, p);
      PutLabelled(q, st, blind, p.name, CNameSet(q, x, Issuer(q, x)));
      if DropSet(p.name) in plan { CleanupIsLate(q, st, blind, k, p.name); }
      SetStays(q, st, blind, k, p.name);
      c := Some(x);
    } else {
      SameButRecordFrozen(st.routes[n], s.routes[n]);
      SameButRecordLabels(st.routes[n], s.routes[n]);
      c := None;
    }
  }

  /**
    References over an Ensure cut short anywhere, blind or not: they all stand afterwards if and only if no
    route that the call leaves alone refers to a ListenerSet that it has deleted by then.
   */
  lemma CutRefsExactly(q: Request, st: Store, blind: bool, k: nat)
    requires WellFormed(q) && RefsStand(st, q.id) && k <= |Planned(q, st, blind)|
    ensures RefsStand(ApplyAll(st, Planned(q, st, blind)[..k]), q.id)
       <==> forall n, p :: Refers(st, q.id, n, p) && Unnamed(q, st, blind, n) ==>
         DropSet(p.name) !in Planned(q, st, blind)[..k]
  {
    hide Planned, Clean, ApplyAll, Unnamed, Refers, Puts, SetsOf, WantedSets;
    var plan := Planned(q, st, blind)[..k];
    var s := ApplyAll(st, plan);
    if forall n, p :: Refers(st, q.id, n, p) && Unnamed(q, st, blind, n) ==> DropSet(p.name) !in plan {
      forall n, p | Refers(s, q.id, n, p) ensures p.name in SetsOf(s, q.id) {
        var c := ReferenceOrigin(q, st, blind, k, n, p);
        if c.None? {
          if DropSet(p.name) in plan {
            CleanupIsLate(q, st, blind, k, p.name);
            assert forall a :: a in Puts(q, st, blind) ==> a in plan;
            NamedByPuts(q, st, blind, n);
          }
          SetStays(q, st, blind, k, p.name);
        }
      }
    }
    forall n, p | Refers(st, q.id, n, p) && Unnamed(q, st, blind, n) && DropSet(p.name) in plan
      ensures Refers(s, q.id, n, p) && p.name !in SetsOf(s, q.id)
    {
      Dangles(q, st, blind, k, n, p);
      InSets(s, q.id, p.name);
    }
  }

  // ----- calls that get to their end -----

  /**
    Of the id's ListenerSets, a call that reconciles CNames and misses at most the record deletes the unwanted ones.
   */
  lemma DeletedInTheEnd(q: Request, st: Store, blind: bool, k: nat, x: string)
    requires WellFormed(q) && (blind || Asks(q, st)) && x in SetsOf(st, q.id)
    requires k <= |Planned(q, st, blind)| <= k + 1
    ensures DropSet(x) in Planned(q, st, blind)[..k] <==> x !in WantedSets(q)
  {
    hide RoutePlan, CNameWrites, SetCleanup, ApplyAll, Clean, Recorded, MainName, Planned, WantedSets, Asks, Labelled;
    PlanSplits(q, st, blind);
    var before := ApplyAll(st, RoutePlan(q, st));
    var s := ApplyAll(before, CNameWrites(q, Believed(q, st, blind)));
    if DropSet(x) in Planned(q, st, blind)[..k] { CleanupIsLate(q, st, blind, k, x); }
    if x !in WantedSets(q) {
      UnwantedStays(q, st, blind, x);
      CleanedUp(q, s, x);
      assert Puts(q, st, blind) + SetCleanup(q, s) <= Planned(q, st, blind)[..k];
      assert DropSet(x) in Puts(q, st, blind) + SetCleanup(q, s);
    }
  }

  lemma UnwantedStays(q: Request, st: Store, blind: bool, x: string)
    requires Clean(q) && x in SetsOf(st, q.id) && x !in WantedSets(q)
    ensures x in SetsOf(ApplyAll(ApplyAll(st, RoutePlan(q, st)), CNameWrites(q, Believed(q, st, blind))), q.id)
  {
    hide RoutePlan, CNameWrites, ApplyAll, Clean, Recorded, MainName, Labelled, SetName, CNameRouteName;
    var before, existing := ApplyAll(st, RoutePlan(q, st)), Believed(q, st, blind);
    BeforeAt(q, st, x);
    forall a | a in CNameWrites(q, existing) && SetAction(a) ensures a.name != x { CNameWritesAct(q, existing, a); }
    SetUntouched(before, CNameWrites(q, existing), x);
  }

  /** The references after such a call stand if and only if no stray route refers to an unwanted ListenerSet. */
  lemma EndRefsExactly(q: Request, st: Store, blind: bool, k: nat)
    requires WellFormed(q) && RefsStand(st, q.id) && (blind || Asks(q, st))
    requires k <= |Planned(q, st, blind)| <= k + 1
    ensures RefsStand(ApplyAll(st, Planned(q, st, blind)[..k]), q.id) <==> StraysStand(q, st, blind)
  {
    hide Planned, Clean, ApplyAll, Unnamed, Refers, SetsOf, WantedSets, Asks;
    CutRefsExactly(q, st, blind, k);
    forall n, p | Refers(st, q.id, n, p)
      ensures DropSet(p.name) in Planned(q, st, blind)[..k] <==> p.name !in WantedSets(q)
    {
      DeletedInTheEnd(q, st, blind, k, p.name);
    }
  }

  /**
    The exact condition for a complete Ensure to leave no dangling reference, if there was none before: no
    route it leaves alone refers to a ListenerSet of the id that is none of the requested CNames'.
   */
  lemma EnsureRefsExactly(q: Request, st: Store)
    requires WellFormed(q) && RefsStand(st, q.id)
    ensures RefsStand(Ensured(q, st), q.id) <==> (Asks(q, st) ==> StraysStand(q, st, false))
  {
    hide RoutePlan, CNameWrites, EnsurePlan, Clean, ApplyAll, RefsStand, StraysStand, Asks, Recorded;
    var plan := Planned(q, st, false);
    assert plan[..|plan|] == plan;
    if Asks(q, st) {
      EndRefsExactly(q, st, false, |plan|);
    } else {
      PlanSplits(q, st, false);
      forall a | a in RoutePlan(q, st) ensures !a.DropSet? { RoutePlanActs(q, st, a); }
      CutRefsExactly(q, st, false, |plan|);
    }
  }

  /** The same for a call whose record write is lost, and for one that could not read the record as well. */
  lemma LostRecordRefsExactly(q: Request, st: Store, blind: bool)
    requires WellFormed(q) && RefsStand(st, q.id) && (blind || Asks(q, st))
    ensures RefsStand(Reconciled(q, st, blind), q.id) <==> StraysStand(q, st, blind)
  {
    hide Planned, Reconciled, Clean, ApplyAll, RefsStand, StraysStand, Asks;
    PlannedEnds(q, st, blind);
    EndRefsExactly(q, st, blind, |Planned(q, st, blind)| - 1);
  }

  // ----- references of recorded CNames -----

  /** Each parent that is a ListenerSet is the one of c, exists, and belongs to the id. */
  predicate ParentStands(st: Store, digest: Digest, id: InstanceID, c: string, r: HTTPRoute) {
    forall p :: p in r.parentRefs && p.ToListenerSet? ==> p.name == SetName(digest, id, c) && p.name in SetsOf(st, id)
  }

  predicate Unfrozen(st: Store, id: InstanceID, n: string) { n in CNameRoutes(st, id) && !Frozen(st.routes[n]) }

  /** The CName route n is that of one of the CNames, and refers to no other ListenerSet than that CName's. */
  ghost predicate StandsFor(st: Store, digest: Digest, id: InstanceID, cnames: set<string>, n: string)
    requires n in st.routes
  {
    exists c :: c in cnames && n == CNameRouteName(digest, id, c) && ParentStands(st, digest, id, c, st.routes[n])
  }

  /** The unfrozen routes of the CNames in the list refer to no other ListenerSets than their own, which stand. */
  ghost predicate OwnRefs(st: Store, digest: Digest, id: InstanceID, cnames: set<string>) {
    forall n :: Unfrozen(st, id, n) && n in CNameNames(digest, id, cnames) ==> StandsFor(st, digest, id, cnames, n)
  }

  ghost predicate NamedIn(st: Store, digest: Digest, id: InstanceID, cnames: set<string>) {
    forall n :: Unfrozen(st, id, n) ==> n in CNameNames(digest, id, cnames)
  }

  /** The inductive form: every unfrozen CName route is that of a recorded CName, and its ListenerSet stands. */
  ghost predicate Closed(st: Store, digest: Digest, id: InstanceID) {
    forall n :: Unfrozen(st, id, n) ==> StandsFor(st, digest, id, RecordedIn(st, digest, id), n)
  }

  lemma ClosedStands(st: Store, digest: Digest, id: InstanceID)
    requires Closed(st, digest, id)
    ensures RefsStand(st, id) && NamedIn(st, digest, id, RecordedIn(st, digest, id))
  {
    hide CNameRoutes, Frozen, CNameRouteName, SetName, SetsOf, Recorded, MainName;
    forall n, p | Refers(st, id, n, p) ensures p.name in SetsOf(st, id) {
      assert Unfrozen(st, id, n);
    }
  }

  /** A closed store has own references for every list whose CName routes are told apart from recorded ones. */
  lemma ClosedOwns(st: Store, digest: Digest, id: InstanceID, cnames: set<string>)
    requires Closed(st, digest, id) && CNamesDistinct(digest, id, RecordedIn(st, digest, id) + cnames)
    ensures OwnRefs(st, digest, id, cnames)
  {
    hide Frozen, CNameRoutes, CNameRouteName, ParentStands, Recorded, MainName;
    forall n | Unfrozen(st, id, n) && n in CNameNames(digest, id, cnames) ensures StandsFor(st, digest, id, cnames, n) {
      var c :| c in RecordedIn(st, digest, id) && n == CNameRouteName(digest, id, c)
        && ParentStands(st, digest, id, c, st.routes[n]);
      var y :| y in cnames && n == CNameRouteName(digest, id, y);
      assert c == y;
    }
  }

  /** Then every call that reads the record leaves the strays' ListenerSets alone. */
  lemma OwnStraysStand(q: Request, st: Store)
    requires NamedIn(st, q.cfg.digest, q.id, RecordedIn(st, q.cfg.digest, q.id) + Wanted(q))
    requires OwnRefs(st, q.cfg.digest, q.id, Wanted(q))
    ensures StraysStand(q, st, false)
  {
    hide CNameRouteName, SetName, SetsOf, Recorded, MainName, CNameRoutes, Frozen, WantedRoutes, Issuer;
    forall n, p | Refers(st, q.id, n, p) && Unnamed(q, st, false, n) ensures p.name in WantedSets(q) {
      assert Unfrozen(st, q.id, n);
      var c :| c in RecordedIn(st, q.cfg.digest, q.id) + Wanted(q) && n == CNameRouteName(q.cfg.digest, q.id, c);
      assert c in RecordedIn(st, q.cfg.digest, q.id) - Wanted(q) || c in Wanted(q);
      assert n in CNameNames(q.cfg.digest, q.id, Wanted(q));
      var y :| y in Wanted(q) && n == CNameRouteName(q.cfg.digest, q.id, y)
        && ParentStands(st, q.cfg.digest, q.id, y, st.routes[n]);
    }
  }

  /** A lost record write breaks no reference, whatever was put. */
  lemma LostRecordKeepsRefs(q: Request, st: Store)
    requires WellFormed(q) && Closed(st, q.cfg.digest, q.id) && Asks(q, st)
    requires CNamesDistinct(q.cfg.digest, q.id, RecordedIn(st, q.cfg.digest, q.id) + Wanted(q))
    ensures RefsStand(Reconciled(q, st, false), q.id)
  {
    hide RefsStand, Closed, NamedIn, OwnRefs, StraysStand, CNamesDistinct, Reconciled, Clean, Asks, Recorded, MainName,
         CNameRouteName;
    ClosedStands(st, q.cfg.digest, q.id);
    ClosedOwns(st, q.cfg.digest, q.id, Wanted(q));
    NamedInMore(st, q.cfg.digest, q.id, RecordedIn(st, q.cfg.digest, q.id),
                RecordedIn(st, q.cfg.digest, q.id) + Wanted(q));
    OwnStraysStand(q, st);
    LostRecordRefsExactly(q, st, false);
  }

  lemma NamedInMore(st: Store, digest: Digest, id: InstanceID, a: set<string>, b: set<string>)
    requires a <= b && NamedIn(st, digest, id, a)
    ensures NamedIn(st, digest, id, b)
  {
    hide Unfrozen, CNameRouteName;
  }

  /** The unfrozen route of a CName that is not requested. */
  predicate Leftover(q: Request, st: Store, n: string) {
    Unfrozen(st, q.id, n) && n !in CNameNames(q.cfg.digest, q.id, Wanted(q))
  }

  /** No unfrozen route of a CName that is not requested refers to a ListenerSet that goes. */
  ghost predicate LeftoversStand(q: Request, st: Store) {
    forall n, p :: Leftover(q, st, n) && Refers(st, q.id, n, p) ==> p.name in WantedSets(q)
  }

  /** In a closed store the strays of a blind call are the leftovers. */
  lemma BlindStrays(q: Request, st: Store)
    requires Apart(q, RecordedIn(st, q.cfg.digest, q.id)) && Closed(st, q.cfg.digest, q.id)
    requires CNamesDistinct(q.cfg.digest, q.id, RecordedIn(st, q.cfg.digest, q.id) + Wanted(q))
    ensures StraysStand(q, st, true) <==> LeftoversStand(q, st)
  {
    hide CNameRouteName, SetName, SetsOf, Recorded, MainName, CNameRoutes, Frozen, WantedRoutes, Issuer, Closed,
         CNamesDistinct;
    ClosedOwns(st, q.cfg.digest, q.id, Wanted(q));
    ClosedStands(st, q.cfg.digest, q.id);
    forall n, p | Refers(st, q.id, n, p) && Leftover(q, st, n) ensures Unnamed(q, st, true, n) {
      var c :| c in RecordedIn(st, q.cfg.digest, q.id) && n == CNameRouteName(q.cfg.digest, q.id, c);
      assert n in CNameNames(q.cfg.digest, q.id, RecordedIn(st, q.cfg.digest, q.id) + Wanted(q));
    }
    forall n, p | Refers(st, q.id, n, p) && Unnamed(q, st, true, n) && !Leftover(q, st, n)
      ensures p.name in WantedSets(q)
    {
      var y :| y in Wanted(q) && n == CNameRouteName(q.cfg.digest, q.id, y)
        && ParentStands(st, q.cfg.digest, q.id, y, st.routes[n]);
    }
  }

  /**
    When the record cannot be read, the references stand afterwards, whether or not the new record is
    written, if and only if no leftover refers to a ListenerSet that goes.
   */
  lemma BlindRefsExactly(q: Request, st: Store)
    requires WellFormed(q) && Apart(q, RecordedIn(st, q.cfg.digest, q.id)) && Closed(st, q.cfg.digest, q.id)
    requires CNamesDistinct(q.cfg.digest, q.id, RecordedIn(st, q.cfg.digest, q.id) + Wanted(q))
    ensures RefsStand(ApplyAll(st, BlindPlan(q, st)), q.id) <==> LeftoversStand(q, st)
    ensures RefsStand(Reconciled(q, st, true), q.id) <==> LeftoversStand(q, st)
  {
    hide RefsStand, Closed, LeftoversStand, StraysStand, CNamesDistinct, Reconciled, BlindPlan, EnsurePlan, ApplyAll,
         Clean, Apart, Recorded;
    ClosedStands(st, q.cfg.digest, q.id);
    BlindStrays(q, st);
    LostRecordRefsExactly(q, st, true);
    var plan := Planned(q, st, true);
    assert plan[..|plan|] == plan;
    EndRefsExactly(q, st, true, |plan|);
  }

  // ----- attempts at one list -----

  /**
    An attempt at a list, in either mode, cut short anywhere, blind or not, keeps the references of the
    routes of that list standing.
   */
  lemma AttemptKeepsOwn(q: Request, st: Store, blind: bool, k: nat)
    requires WellFormed(q) && OwnRefs(st, q.cfg.digest, q.id, Wanted(q)) && k <= |Planned(q, st, blind)|
    ensures OwnRefs(ApplyAll(st, Planned(q, st, blind)[..k]), q.cfg.digest, q.id, Wanted(q))
  {
    hide Planned, Clean, ApplyAll, CNameRouteName, CNameRoutes, Frozen, StandsFor;
    var s := ApplyAll(st, Planned(q, st, blind)[..k]);
    forall n | Unfrozen(s, q.id, n) && n in CNameNames(q.cfg.digest, q.id, Wanted(q))
      ensures StandsFor(s, q.cfg.digest, q.id, Wanted(q), n)
    {
      RouteStandsFor(q, st, blind, k, n);
    }
  }

  lemma RouteStandsFor(q: Request, st: Store, blind: bool, k: nat, n: string)
    requires WellFormed(q) && OwnRefs(st, q.cfg.digest, q.id, Wanted(q)) && k <= |Planned(q, st, blind)|
    requires Unfrozen(ApplyAll(st, Planned(q, st, blind)[..k]), q.id, n)
    requires n in CNameNames(q.cfg.digest, q.id, Wanted(q))
    ensures StandsFor(ApplyAll(st, Planned(q, st, blind)[..k]), q.cfg.digest, q.id, Wanted(q), n)
  {
    hide Planned, Clean, ApplyAll, CNameRouteName, SetsOf, SetName, Frozen, Recorded, Issuer, CNameSet, Labelled;
    var plan, digest := Planned(q, st, blind)[..k], q.cfg.digest;
    var s := ApplyAll(st, plan);
    var a := Origin(st, plan, n);
    if a.Some? {
      var c :| c in Wanted(q) && n == CNameRouteName(digest, q.id, c);
      if p :| p in s.routes[n].parentRefs && p.ToListenerSet? {
        c := PutRefers(q, st, blind, k, a.value, p);
        PutStays(q, st, blind, k, p.name);
      }
      assert ParentStands(s, digest, q.id, c, s.routes[n]);
    } else {
      SameButRecordFrozen(st.routes[n], s.routes[n]);
      SameButRecordLabels(st.routes[n], s.routes[n]);
      assert Unfrozen(st, q.id, n);
      var c :| c in Wanted(q) && n == CNameRouteName(digest, q.id, c)
        && ParentStands(st, digest, q.id, c, st.routes[n]);
      forall p | p in s.routes[n].parentRefs && p.ToListenerSet? ensures p.name in SetsOf(s, q.id) {
        OwnSetStays(q, st, blind, k, c);
      }
      assert ParentStands(s, digest, q.id, c, s.routes[n]);
    }
  }

  /** A ListenerSet a cut-short call put stays. */
  lemma PutStays(q: Request, st: Store, blind: bool, k: nat, x: string)
    requires WellFormed(q) && k <= |Planned(q, st, blind)| && exists ls :: PutSet(x, ls) in Planned(q, st, blind)[..k]
    ensures x in SetsOf(ApplyAll(st, Planned(q, st, blind)[..k]), q.id)
  {
    hide Planned, Clean, ApplyAll, Labelled, WantedSets, SetsOf, Puts;
    var ls :| PutSet(x, ls) in Planned(q, st, blind)[..k];
    PutLabelled(q, st, blind, x, ls);
    if DropSet(x) in Planned(q, st, blind)[..k] { CleanupIsLate(q, st, blind, k, x); }
    SetStays(q, st, blind, k, x);
  }

  /** The ListenerSet of a requested CName whose route was neither put nor dropped stays. */
  lemma OwnSetStays(q: Request, st: Store, blind: bool, k: nat, c: string)
    requires WellFormed(q) && k <= |Planned(q, st, blind)| && c in Wanted(q)
    requires SetName(q.cfg.digest, q.id, c) in SetsOf(st, q.id)
    requires var n, plan := CNameRouteName(q.cfg.digest, q.id, c), Planned(q, st, blind)[..k];
      DropRoute(n) !in plan && forall r :: PutRoute(n, r) !in plan
    ensures SetName(q.cfg.digest, q.id, c) in SetsOf(ApplyAll(st, Planned(q, st, blind)[..k]), q.id)
  {
    hide Planned, Clean, ApplyAll, CNameRouteName, SetName, SetsOf, Puts, WantedRoutes, Dropped;
    var n, x, plan := CNameRouteName(q.cfg.digest, q.id, c), SetName(q.cfg.digest, q.id, c), Planned(q, st, blind)[..k];
    if DropSet(x) in plan {
      CleanupIsLate(q, st, blind, k, x);
      assert forall a :: a in Puts(q, st, blind) ==> a in plan;
      NamedByPuts(q, st, blind, n);
    }
    SetStays(q, st, blind, k, x);
  }

  /** A complete Ensure of the list attempted leaves a closed store. */
  lemma EnsureCloses(q: Request, st: Store)
    requires WellFormed(q) && Apart(q, RecordedIn(st, q.cfg.digest, q.id)) && OwnRefs(st, q.cfg.digest, q.id, Wanted(q))
    requires NamedIn(st, q.cfg.digest, q.id, RecordedIn(st, q.cfg.digest, q.id) + Wanted(q))
    ensures Closed(Ensured(q, st), q.cfg.digest, q.id)
  {
    hide EnsurePlan, Clean, Apart, ApplyAll, CNameRouteName, CNameRoutes, Frozen, StandsFor, Recorded, MainName,
         OwnRefs, NamedIn;
    var plan := Planned(q, st, false);
    assert plan[..|plan|] == plan;
    EnsureRecords(q, st);
    AttemptKeepsOwn(q, st, false, |plan|);
    forall n | Unfrozen(Ensured(q, st), q.id, n) ensures StandsFor(Ensured(q, st), q.cfg.digest, q.id, Wanted(q), n) {
      EnsuredIsWanted(q, st, n);
      OwnRefsAt(Ensured(q, st), q.cfg.digest, q.id, Wanted(q), n);
    }
  }

  lemma OwnRefsAt(st: Store, digest: Digest, id: InstanceID, cnames: set<string>, n: string)
    requires OwnRefs(st, digest, id, cnames) && Unfrozen(st, id, n) && n in CNameNames(digest, id, cnames)
    ensures StandsFor(st, digest, id, cnames, n)
  {
  }

  lemma EnsuredIsWanted(q: Request, st: Store, n: string)
    requires WellFormed(q) && NamedIn(st, q.cfg.digest, q.id, RecordedIn(st, q.cfg.digest, q.id) + Wanted(q))
    requires Unfrozen(Ensured(q, st), q.id, n)
    ensures n in CNameNames(q.cfg.digest, q.id, Wanted(q))
  {
    hide EnsurePlan, Clean, ApplyAll, CNameRouteName, Frozen, Recorded, MainName, SetCleanup, RoutePlan, CNameWrites,
         Ours, Labelled, WantedRoutes;
    var plan, s := EnsurePlan(q, st), Ensured(q, st);
    var a := Origin(st, plan, n);
    if a.Some? {
      PlanIsOurs(q, st, a.value);
      OursIsWanted(q, a.value);
    } else {
      SameButRecordFrozen(st.routes[n], s.routes[n]);
      SameButRecordLabels(st.routes[n], s.routes[n]);
      assert Unfrozen(st, q.id, n);
      var c :| c in RecordedIn(st, q.cfg.digest, q.id) + Wanted(q) && n == CNameRouteName(q.cfg.digest, q.id, c);
      if c !in Wanted(q) {
        assert n in Dropped(q, st, false);
        DroppedIsDropped(q, st, false, n);
        PlanSplits(q, st, false);
      }
    }
  }

  lemma OursIsWanted(q: Request, a: Action)
    requires Ours(q, a) && a.PutRoute? && OfCName(a.route.labels, q.id)
    ensures a.name in CNameNames(q.cfg.digest, q.id, Wanted(q))
  {
    hide CNameRouteName;
  }

  // ----- where references dangle -----

  /** From s to s' the route n stays as it is and the ListenerSet it refers to goes. */
  predicate Breaks(s: Store, s': Store, id: InstanceID, n: string, p: ParentRef) {
    && Refers(s, id, n, p) && p.name in SetsOf(s, id)
    && n in s'.routes && s'.routes[n] == s.routes[n] && p.name !in SetsOf(s', id)
  }

  /**
    A blind call that gets to its end keeps the route of a recorded, no longer requested CName and deletes its
    ListenerSet.
   */
  lemma BlindDangles(q: Request, st: Store, n: string, p: ParentRef)
    requires WellFormed(q) && Apart(q, RecordedIn(st, q.cfg.digest, q.id)) && Closed(st, q.cfg.digest, q.id)
    requires Leftover(q, st, n) && Refers(st, q.id, n, p) && p.name !in WantedSets(q)
    ensures Breaks(st, ApplyAll(st, BlindPlan(q, st)), q.id, n, p)
  {
    hide BlindPlan, Clean, ApplyAll, CNameRouteName, CNameRoutes, Frozen, Recorded, MainName, Closed, WantedSets,
         WantedRoutes, Issuer, Labelled;
    var plan := Planned(q, st, true);
    assert plan[..|plan|] == plan;
    ClosedStands(st, q.cfg.digest, q.id);
    var c :| c in RecordedIn(st, q.cfg.digest, q.id) && n == CNameRouteName(q.cfg.digest, q.id, c);
    assert n in CNameNames(q.cfg.digest, q.id, RecordedIn(st, q.cfg.digest, q.id) + Wanted(q));
    DeletedInTheEnd(q, st, true, |plan|, p.name);
    Dangles(q, st, true, |plan|, n, p);
  }

  /** The request asks for other CNames than c and than those recorded in st, under other names. */
  ghost predicate AnotherList(q: Request, st: Store, c: string) {
    && WellFormed(q) && q.o.cnames != [] && Apart(q, RecordedIn(st, q.cfg.digest, q.id))
    && SetName(q.cfg.digest, q.id, c) !in WantedSets(q) && CNameRouteName(q.cfg.digest, q.id, c) !in WantedRoutes(q)
    && CNameRouteName(q.cfg.digest, q.id, c)
       !in CNameNames(q.cfg.digest, q.id, RecordedIn(st, q.cfg.digest, q.id) + Wanted(q))
  }

  /** Such a request leaves the route of c alone and deletes its ListenerSet. */
  lemma AnotherListBreaks(q: Request, s: Store, c: string, p: ParentRef)
    requires AnotherList(q, s, c) && Refers(s, q.id, CNameRouteName(q.cfg.digest, q.id, c), p)
    requires p.name == SetName(q.cfg.digest, q.id, c) && p.name in SetsOf(s, q.id)
    ensures Breaks(s, Ensured(q, s), q.id, CNameRouteName(q.cfg.digest, q.id, c), p)
  {
    hide Clean, Apart, ApplyAll, EnsurePlan, CNameRouteName, SetName, Frozen, Recorded, MainName, WantedSets,
         WantedRoutes, CNameNames, SetsOf, Labelled;
    var plan := Planned(q, s, false);
    assert plan[..|plan|] == plan;
    EnsureFrame(q, s, false, |plan|, CNameRouteName(q.cfg.digest, q.id, c));
    EnsureRecords(q, s);
  }

  /** The route and the ListenerSet of an issued CName in TLS mode, just before the record is written. */
  lemma JustPut(q: Request, st: Store, c: string)
    requires WellFormed(q) && Apart(q, RecordedIn(st, q.cfg.digest, q.id)) && Issued(q, c) && !q.o.opts.httpOnly
    requires CNamesDistinct(q.cfg.digest, q.id, Wanted(q))
    requires var n := CNameRouteName(q.cfg.digest, q.id, c); !FrozenAt(st, n) && n !in Dropped(q, st, false)
    ensures var s := Reconciled(q, st, false);
      Refers(s, q.id, CNameRouteName(q.cfg.digest, q.id, c), CNameParent(q, c))
        && CNameParent(q, c).name in SetsOf(s, q.id)
  {
    hide Reconciled, Clean, Apart, CNameRouteName, CNameRoutes, SetsOf, SetName, Frozen, Recorded, MainName, Issuer,
         CNameRoute, Dropped;
    IssuedThere(q, st, false, c);
    var put, x := RouteOrigin(q, st, false, CNameRouteName(q.cfg.digest, q.id, c));
    ParentOf(q, c, CNameParent(q, c));
    ReconciledSets(q, st, false, SetName(q.cfg.digest, q.id, c));
  }

  /**
    A reference that a complete Ensure without any error breaks: an earlier call put the route and the
    ListenerSet of a new CName in TLS mode and only the write of its record failed, and this one is for
    another list. The route stays as it is and its ListenerSet is deleted.
   */
  lemma UnrecordedDangles(q: Request, q': Request, st: Store, c: string)
    requires WellFormed(q) && Apart(q, RecordedIn(st, q.cfg.digest, q.id)) && Issued(q, c) && !q.o.opts.httpOnly
    requires CNamesDistinct(q.cfg.digest, q.id, Wanted(q)) && !FrozenAt(st, CNameRouteName(q.cfg.digest, q.id, c))
    requires q'.id == q.id && q'.cfg.digest == q.cfg.digest && AnotherList(q', st, c)
    ensures var s := Reconciled(q, st, false);
      Breaks(s, Ensured(q', s), q.id, CNameRouteName(q.cfg.digest, q.id, c), CNameParent(q, c))
  {
    hide Reconciled, Clean, Apart, Ensured, CNameRouteName, SetName, Recorded, MainName, WantedSets, WantedRoutes,
         Issuer, FrozenAt, Breaks, Refers, SetsOf, CNamesDistinct;
    var n, s := CNameRouteName(q.cfg.digest, q.id, c), Reconciled(q, st, false);
    assert n !in Dropped(q, st, false);
    JustPut(q, st, c);
    ReconciledRecord(q, st, false);
    AnotherListBreaks(q', s, c, CNameParent(q, c));
  }
}

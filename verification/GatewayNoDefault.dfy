/** A Gateway Ensure without a default prefix: its main route may go, and the CName record with it. */
module GatewayNoDefault {
  import opened Router
  import opened Strings
  import opened Resources
  import opened Gateway
  import opened GatewayPlans
  import opened GatewayFacts
  import opened GatewayClosure
  import opened GatewaySwallowed

  /**
    Without a default prefix the main route is cleaned up with its record, and a request for no CNames
    then leaves every CName route of the id behind, recorded nowhere.
   */
  lemma NoDefaultOrphans(q: Request, st: Store, n: string)
    requires Clean(q) && Main(q) !in WantedRoutes(q) && q.o.cnames == []
    requires Main(q) in PlainRoutes(st, q.id) && !Frozen(st.routes[Main(q)])
    requires n in CNameRoutes(st, q.id) && n !in WantedRoutes(q)
    ensures Main(q) !in Ensured(q, st).routes && Recorded(Ensured(q, st), Main(q)) == []
    ensures n in CNameRoutes(Ensured(q, st), q.id)
  {
    hide RoutePlan, ApplyAll, Labelled, WantedRoutes, Clean, Frozen, MainName, CNamePlan;
    RoutePlanAt(q, st, Main(q));
    RoutePlanAt(q, st, n);
    assert RoutePlan(q, st) + [] == RoutePlan(q, st);
    assert EnsurePlan(q, st) == RoutePlan(q, st);
  }

  /** What the prefix puts and the cleanup do to a route no prefix wants. */
  lemma RoutePlanAt(q: Request, st: Store, n: string)
    requires Clean(q) && n in st.routes && n !in WantedRoutes(q)
    ensures var s := ApplyAll(st, RoutePlan(q, st));
      if Plain(st.routes[n].labels, q.id) && !Frozen(st.routes[n]) then n !in s.routes
      else n in s.routes && s.routes[n] == st.routes[n]
  {
    hide PrefixPuts, DropRoutes, ApplyAll, Plain, WantedRoutes, Clean, Frozen, Labelled;
    var keys := InOrder(q.targets.Keys);
    var puts := PrefixPuts(q, keys);
    var s := ApplyAll(st, puts);
    forall a | a in puts && RouteAction(a) ensures a.name != n { PutsPut(q, keys, a); }
    RouteUntouched(st, puts, n);
    ApplyConcat(st, puts, Cleanup(q, s));
    DropRoutesEffect(s, InOrder(PlainRoutes(s, q.id)), Stale(s, q.id, WantedRoutes(q)));
    assert n in PlainRoutes(s, q.id) <==> Plain(st.routes[n].labels, q.id);
  }

  lemma PutsPut(q: Request, keys: seq<string>, a: Action)
    requires a in PrefixPuts(q, keys) && forall k :: k in keys ==> k in q.targets
    ensures a.PutRoute? && a.name in WantedRoutes(q)
  {
    hide PrefixRoute, RouteName;
    var i :| 0 <= i < |keys| && PrefixPuts(q, keys)[i] == a;
    assert keys[i] in keys;
  }

  /** The cleanup spares the main route: it is there, and frozen or not labelled as a prefix route of the id. */
  predicate MainStays(q: Request, st: Store) {
    Main(q) in st.routes && !(Plain(st.routes[Main(q)].labels, q.id) && !Frozen(st.routes[Main(q)]))
  }

  /** There was no CName object of the id that stays. */
  predicate NothingLeft(q: Request, st: Store) {
    && CNameRoutes(st, q.id) == {}
    && if q.o.cnames == [] then SetsOf(st, q.id) == {} else SetsOf(st, q.id) !! WantedSets(q)
  }

  /**
    The exact condition for tracking to survive an Ensure without a default prefix and without a CName that
    gets a route, which would stop it: the main route stays, or there is nothing to track.
   */
  lemma NoDefaultTracksExactly(q: Request, st: Store)
    requires Clean(q) && Main(q) !in WantedRoutes(q) && forall c :: !Issued(q, c)
    requires Apart(q, RecordedIn(st, q.cfg.digest, q.id)) && MainApart(q, RecordedIn(st, q.cfg.digest, q.id))
    requires Tracking(st, q.cfg.digest, q.id)
    ensures Tracking(Ensured(q, st), q.cfg.digest, q.id) <==> MainStays(q, st) || NothingLeft(q, st)
  {
    hide RoutePlan, ApplyAll, Clean, Recorded, MainName, Labelled, WantedRoutes, Apart, MainApart, Within, Ensured,
         Frozen, NothingLeft, CNamePlan;
    if MainStays(q, st) {
      RoutePlanAt(q, st, Main(q));
      SameRecordAt(st, ApplyAll(st, RoutePlan(q, st)), Main(q));
      WithinMoreNames(st, q);
      ExactWithMain(q, st);
    } else {
      MainGoes(q, st);
      if q.o.cnames == [] { NoneRequested(q, st); } else { SomeRequested(q, st); }
    }
  }

  lemma SameRecordAt(st: Store, st': Store, n: string)
    requires n in st.routes && n in st'.routes && st'.routes[n] == st.routes[n]
    ensures Recorded(st', n) == Recorded(st, n)
  {
    hide Split;
  }

  lemma WithinMoreNames(st: Store, q: Request)
    requires Tracking(st, q.cfg.digest, q.id)
    ensures Attempting(st, q.cfg.digest, q.id, Wanted(q))
  {
    hide CNameRouteName, SetName, CNameRoutes, SetsOf, Recorded, MainName;
    var recorded := RecordedIn(st, q.cfg.digest, q.id);
    assert CNameNames(q.cfg.digest, q.id, recorded) <= CNameNames(q.cfg.digest, q.id, recorded + Wanted(q));
    assert SetNames(q.cfg.digest, q.id, recorded) <= SetNames(q.cfg.digest, q.id, recorded + Wanted(q));
  }

  /** The main route is gone after the prefix phase, and the record with it. */
  lemma MainGoes(q: Request, st: Store)
    requires Clean(q) && Main(q) !in WantedRoutes(q) && !MainStays(q, st)
    ensures var before := ApplyAll(st, RoutePlan(q, st)); Main(q) !in before.routes && Recorded(before, Main(q)) == []
  {
    hide RoutePlan, ApplyAll, Clean, MainName, Labelled, WantedRoutes, Frozen, Ours;
    if Main(q) in st.routes {
      RoutePlanAt(q, st, Main(q));
    } else {
      forall a | a in RoutePlan(q, st) && RouteAction(a) ensures a.name != Main(q) {
        RoutePlanActs(q, st, a);
        if a.PutRoute? { PrefixPutWanted(q, a); }
      }
      RouteUntouched(st, RoutePlan(q, st), Main(q));
    }
  }

  lemma Untracked(st: Store, digest: Digest, id: InstanceID)
    requires MainName(digest, id) !in st.routes
    ensures Tracking(st, digest, id) <==> CNameRoutes(st, id) == {} && SetsOf(st, id) == {}
  {
    hide MainName, CNameRouteName, SetName, CNameRoutes, SetsOf;
    assert RecordedIn(st, digest, id) == {};
    assert CNameNames(digest, id, {}) == {} && SetNames(digest, id, {}) == {};
  }

  lemma NoneRequested(q: Request, st: Store)
    requires Clean(q) && q.o.cnames == [] && Apart(q, RecordedIn(st, q.cfg.digest, q.id))
    requires Tracking(st, q.cfg.digest, q.id)
    requires var before := ApplyAll(st, RoutePlan(q, st)); Main(q) !in before.routes && Recorded(before, Main(q)) == []
    ensures Tracking(Ensured(q, st), q.cfg.digest, q.id) <==> NothingLeft(q, st)
  {
    hide RoutePlan, ApplyAll, Clean, Recorded, MainName, Labelled, WantedRoutes, Frozen, CNamePlan, CNameRoutes, SetsOf,
         Issuer;
    var before := ApplyAll(st, RoutePlan(q, st));
    assert RoutePlan(q, st) + [] == RoutePlan(q, st);
    assert Ensured(q, st) == before;
    Untracked(before, q.cfg.digest, q.id);
    RecordedApart(q, st);
    forall n ensures n in CNameRoutes(before, q.id) <==> n in CNameRoutes(st, q.id) { BeforeRoutes(q, st, n); }
    assert SetsOf(before, q.id) == SetsOf(st, q.id) by { BeforeAt(q, st, ""); SetsAre(q, st, before, st); }
  }

  lemma BeforeRoutes(q: Request, st: Store, n: string)
    requires Clean(q) && CNameRoutes(st, q.id) !! WantedRoutes(q)
    ensures n in CNameRoutes(ApplyAll(st, RoutePlan(q, st)), q.id) <==> n in CNameRoutes(st, q.id)
  {
    hide RoutePlan, ApplyAll, Clean, Labelled, WantedRoutes, Frozen;
    BeforeAt(q, st, n);
    if n in CNameRoutes(st, q.id) { RoutePlanSpares(q, st, n); }
  }

  lemma SomeRequested(q: Request, st: Store)
    requires Clean(q) && q.o.cnames != [] && Tracking(st, q.cfg.digest, q.id) && forall c :: !Issued(q, c)
    requires Apart(q, RecordedIn(st, q.cfg.digest, q.id)) && MainApart(q, RecordedIn(st, q.cfg.digest, q.id))
    requires var before := ApplyAll(st, RoutePlan(q, st)); Main(q) !in before.routes && Recorded(before, Main(q)) == []
    ensures Tracking(Ensured(q, st), q.cfg.digest, q.id) <==> NothingLeft(q, st)
  {
    hide RoutePlan, ApplyAll, Clean, Recorded, MainName, Labelled, WantedRoutes, Frozen, CNamePlan, CNameRoutes, SetsOf,
         Issuer, Reconciled, WantedSets, CNameRouteName, SetName, CNameNames, SetNames;
    var digest, id, s := q.cfg.digest, q.id, Reconciled(q, st, true);
    assert EnsurePlan(q, st) == BlindPlan(q, st);
    PlannedEnds(q, st, true);
    MainStaysAway(q, st);
    assert Ensured(q, st) == s;
    Untracked(s, digest, id);
    RecordedApart(q, st);
    if Tracking(s, digest, id) {
      forall n ensures n !in CNameRoutes(st, id) { BlindRoutes(q, st, n); }
      forall n ensures !(n in SetsOf(st, id) && n in WantedSets(q)) { ReconciledSets(q, st, true, n); }
    }
    if NothingLeft(q, st) {
      forall n
        ensures n !in CNameRoutes(s, id)
      {
        if n in CNameRoutes(s, id) { var put, c := RouteOrigin(q, st, true, n); }
      }
      forall n ensures n !in SetsOf(s, id) { ReconciledSets(q, st, true, n); }
    }
  }

  /** No CName put brings the main route back. */
  lemma MainStaysAway(q: Request, st: Store)
    requires MainApart(q, RecordedIn(st, q.cfg.digest, q.id)) && Main(q) !in ApplyAll(st, RoutePlan(q, st)).routes
    ensures Main(q) !in Reconciled(q, st, true).routes
  {
    hide RoutePlan, ApplyAll, Recorded, MainName, CNameRouteName, Reconciled, CNamePuts, Issuer, SetName, CNameRoute,
         CNameParent, CNameSet;
    var before, puts := ApplyAll(st, RoutePlan(q, st)), CNamePuts(q, q.o.cnames);
    ReconciledRoutes(q, st, true);
    forall a | a in puts && RouteAction(a) ensures a.name != Main(q) {
      var c := PutsAreIssued(q, a);
      assert a.name in CNameNames(q.cfg.digest, q.id, RecordedIn(st, q.cfg.digest, q.id) + Wanted(q));
    }
    RouteUntouched(before, puts, Main(q));
  }

  // ----- where the call stops -----

  /** The CName at which the call stops, and what it has put of it. */
  lemma {:induction false} StoppedAt(q: Request, cnames: seq<string>) returns (first: string)
    requires exists c :: c in cnames && CNamePut(q, c) != []
    ensures first in cnames && CNamePut(q, first) != []
    ensures StoppedPuts(q, cnames) == CNamePut(q, first)[..|CNamePut(q, first)| - 1]
  {
    hide CNamePut;
    if CNamePut(q, cnames[0]) == [] { first := StoppedAt(q, cnames[1..]); } else { first := cnames[0]; }
  }

  lemma IssuedIsPut(q: Request, c: string)
    requires c in q.o.cnames
    ensures CNamePut(q, c) != [] <==> Issued(q, c)
    ensures Issued(q, c) ==>
      CNamePut(q, c)[..|CNamePut(q, c)| - 1]
      == if q.o.opts.httpOnly then [] else [PutSet(SetName(q.cfg.digest, q.id, c), CNameSet(q, c, Issuer(q, c)))]
  {
    hide CNameRoute, CNameSet, CNameRouteName, SetName, CNameParent, Issuer;
  }

  /** What such a call leaves of the id's CName objects: in TLS mode one ListenerSet more, and no more routes. */
  lemma StoppedObjects(q: Request, st: Store) returns (first: string)
    requires Clean(q) && (exists c :: Issued(q, c)) && CNameRoutes(st, q.id) !! WantedRoutes(q)
    ensures Issued(q, first)
    ensures var before, s :=
      ApplyAll(st, RoutePlan(q, st)), ApplyAll(st, RoutePlan(q, st) + StoppedPuts(q, q.o.cnames));
      && s.routes == before.routes && CNameRoutes(s, q.id) == CNameRoutes(st, q.id)
      && SetsOf(s, q.id) == SetsOf(st, q.id) + if q.o.opts.httpOnly then {} else {SetName(q.cfg.digest, q.id, first)}
  {
    hide RoutePlan, ApplyAll, Clean, WantedRoutes, CNamePut, StoppedPuts, CNameSet, SetName, Labelled, Issuer;
    var c :| Issued(q, c);
    IssuedIsPut(q, c);
    first := StoppedAt(q, q.o.cnames);
    IssuedIsPut(q, first);
    var before := ApplyAll(st, RoutePlan(q, st));
    ApplyConcat(st, RoutePlan(q, st), StoppedPuts(q, q.o.cnames));
    BeforeAt(q, st, "");
    forall n ensures n in CNameRoutes(before, q.id) <==> n in CNameRoutes(st, q.id) { BeforeRoutes(q, st, n); }
    if q.o.opts.httpOnly {
      NoOps(before, []);
    } else {
      OneStep(before, StoppedPuts(q, q.o.cnames)[0]);
      SetIsLabelled(q, first);
    }
  }

  lemma SetIsLabelled(q: Request, c: string)
    requires Clean(q) && Issued(q, c) && !q.o.opts.httpOnly
    ensures Labelled(CNameSet(q, c, Issuer(q, c)).labels, q.id)
  {
    hide CNameSet, SetName, Labelled, Clean, Issuer, CNameRoute, CNameParent;
    IssuedPuts(q, c);
    CNamePutActs(q, c, PutSet(SetName(q.cfg.digest, q.id, c), CNameSet(q, c, Issuer(q, c))));
  }

  /**
    A CName that gets a route stops the call, since there is no service for it. In TLS mode its ListenerSet is
    there by then: tracking survives if and only if the main route stays and that name was recorded. In
    HTTP-only mode it survives if and only if the main route stays or there was nothing to track.
   */
  lemma NoDefaultStops(q: Request, st: Store) returns (first: string)
    requires Clean(q) && Main(q) !in WantedRoutes(q) && exists c :: Issued(q, c)
    requires Apart(q, RecordedIn(st, q.cfg.digest, q.id)) && Tracking(st, q.cfg.digest, q.id)
    ensures Issued(q, first)
    ensures var s, ls :=
      ApplyAll(st, RoutePlan(q, st) + StoppedPuts(q, q.o.cnames)), SetName(q.cfg.digest, q.id, first);
      && (Main(q) in s.routes <==> MainStays(q, st))
      && (q.o.opts.httpOnly ==>
            (Tracking(s, q.cfg.digest, q.id) <==>
                  MainStays(q, st) || (CNameRoutes(st, q.id) == {} && SetsOf(st, q.id) == {})))
      && (!q.o.opts.httpOnly ==>
            && ls in SetsOf(s, q.id)
            && (Tracking(s, q.cfg.digest, q.id) <==>
                  MainStays(q, st) && ls in SetNames(q.cfg.digest, q.id, RecordedIn(st, q.cfg.digest, q.id))))
  {
    hide RoutePlan, ApplyAll, Clean, WantedRoutes, StoppedPuts, SetName, CNameRouteName, MainName, CNameRoutes, SetsOf,
         Issuer, Recorded, Labelled, Frozen;
    RecordedApart(q, st);
    first := StoppedObjects(q, st);
    var before, s := ApplyAll(st, RoutePlan(q, st)), ApplyAll(st, RoutePlan(q, st) + StoppedPuts(q, q.o.cnames));
    if MainStays(q, st) {
      RoutePlanAt(q, st, Main(q));
      SameRecordAt(st, s, Main(q));
    } else {
      MainGoes(q, st);
      Untracked(s, q.cfg.digest, q.id);
    }
  }
}

/**
  Retrying a Gateway Ensure: attempts that fail at any point converge, and heal the references between CName
  routes and ListenerSets. And where retrying does not help, with the exact condition.
 */
module GatewayRetries {
  import opened Router
  import opened Strings
  import opened Resources
  import opened Gateway
  import opened GatewayPlans
  import opened GatewayFacts
  import opened GatewayEffects
  import opened GatewaySwallowed
  import opened GatewayReferences
  import opened GatewayRuns
  import opened GatewayReferenceRuns

  // ----- retrying -----

  /**
    An attempt at the same CName list, cut short or blind, or anything another instance does. The only
    attempts left out are those the code does not recover from: blind ones that got as far as writing the
    record over that of a dropped CName with a route.
   */
  ghost predicate Retry(w: World, st: Store, id: InstanceID, cnames: set<string>, e: Event) {
    && Admissible(w, e.call)
    && (Actor(e.call) == id ==>
          && e.call.EnsureCall? && Wanted(e.call.q) == cnames
          && (e.Blind? && e.after >= |BlindPlan(e.call.q, st)| ==>
               CNameRoutes(st, id) <= CNameNames(w.digest, id, cnames)))
  }

  lemma RetryStep(w: World, st: Store, id: InstanceID, cnames: set<string>, e: Event)
    requires NamesApart(w) && Orderly(w, st) && id in w.ids && Retry(w, st, id, cnames, e)
    requires Attempting(st, w.digest, id, cnames)
    ensures Attempting(After(w.digest, st, e), w.digest, id, cnames)
  {
    hide EnsurePlan, BlindPlan, ApplyAll, NamesApart, Recorded, Labelled, Within, Apart, Clean, Owned, MainName, After;
    if Actor(e.call) == id {
      var q := e.call.q;
      WorldApart(w, st, q);
      AfterIs(w.digest, st, e);
      if !e.Blind? {
        EnsureCutShort(q, st, Made(Planned(q, st, false), e));
      } else if e.after < |BlindPlan(q, st)| {
        BlindCutShort(q, st, e.after);
      } else {
        assert BlindPlan(q, st)[..|BlindPlan(q, st)|] == BlindPlan(q, st);
        BlindRecorded(q, st);
      }
    } else {
      OthersRecordKept(w, st, e, id);
      WithinAfter(w, st, e, id, RecordedIn(st, w.digest, id) + cnames);
    }
  }

  /** A blind call that writes the record loses nothing when no CName beyond the requested ones has a route. */
  lemma BlindRecorded(q: Request, st: Store)
    requires WellFormed(q) && Apart(q, RecordedIn(st, q.cfg.digest, q.id))
    requires CNameRoutes(st, q.id) <= CNameNames(q.cfg.digest, q.id, Wanted(q))
    ensures Attempting(ApplyAll(st, BlindPlan(q, st)), q.cfg.digest, q.id, Wanted(q))
  {
    hide WantedRoutes, Recorded, Clean, CNameRouteName, SetName, CNameRoutes, SetsOf, BlindPlan, ApplyAll, MainName,
         Reconciled, Issuer;
    BlindEnds(q, st);
    assert Wanted(q) + Wanted(q) == Wanted(q);
    assert CNameNames(q.cfg.digest, q.id, Wanted(q))
        <= CNameNames(q.cfg.digest, q.id, RecordedIn(st, q.cfg.digest, q.id) + Wanted(q));
    var s := Reconciled(q, st, true);
    forall n
      ensures n in SetsOf(s, q.id) ==> n in SetNames(q.cfg.digest, q.id, Wanted(q))
    {
      ReconciledSets(q, st, true, n);
    }
    forall n
      ensures n in CNameRoutes(s, q.id) ==> n in CNameNames(q.cfg.digest, q.id, Wanted(q))
    {
      BlindRoutes(q, st, n);
    }
  }

  ghost predicate AllRetry(w: World, st: Store, id: InstanceID, cnames: set<string>, events: seq<Event>) {
    forall i :: 0 <= i < |events| ==> Retry(w, At(w.digest, st, events, i), id, cnames, events[i])
  }

  lemma {:induction false} RetryRun(w: World, st: Store, id: InstanceID, cnames: set<string>, events: seq<Event>,
                                    n: nat)
    requires NamesApart(w) && Orderly(w, st) && id in w.ids && Attempting(st, w.digest, id, cnames)
    requires AllRetry(w, st, id, cnames, events) && n <= |events|
    ensures var s := At(w.digest, st, events, n); Attempting(s, w.digest, id, cnames) && Orderly(w, s)
  {
    hide NamesApart, Orderly, Attempting, Admissible, After;
    if n == 0 {
      assert events[..0] == [];
    } else {
      RetryRun(w, st, id, cnames, events, n - 1);
      NextAt(w.digest, st, events, n - 1);
      RetryStep(w, At(w.digest, st, events, n - 1), id, cnames, events[n - 1]);
      OrderlyStep(w, At(w.digest, st, events, n - 1), events[n - 1]);
    }
  }

  /**
    Retry convergence: from a tracked store, any number of attempts at a CName list, each cut short at any
    write, also when the record could not be read, and mixed with whatever other instances do, followed by
    one complete Ensure of that list, leave exactly that list recorded and no CName object of the instance
    outside it.
   */
  lemma RetryConverges(w: World, st: Store, q: Request, events: seq<Event>)
    requires NamesApart(w) && Orderly(w, st) && Tracked(w, st) && Admissible(w, EnsureCall(q))
    requires AllRetry(w, st, q.id, Wanted(q), events)
    ensures var st' := Ensured(q, Run(w.digest, st, events));
      RecordedIn(st', w.digest, q.id) == Wanted(q) && Within(st', w.digest, q.id, Wanted(q))
  {
    hide NamesApart, Owned, Retry, Run, Within, RecordedIn, Clean, Apart, Ensured;
    WithinMore(st, w.digest, q.id, RecordedIn(st, w.digest, q.id), RecordedIn(st, w.digest, q.id) + Wanted(q));
    RetryRun(w, st, q.id, Wanted(q), events, |events|);
    assert events[..|events|] == events;
    WorldApart(w, Run(w.digest, st, events), q);
    EnsureExact(q, Run(w.digest, st, events));
  }

  /** The references of the routes of a list stand through attempts at it, blind ones included. */
  lemma {:induction false} RetryOwns(w: World, st: Store, id: InstanceID, cnames: set<string>, events: seq<Event>,
                                     n: nat)
    requires NamesApart(w) && id in w.ids && cnames <= w.cnames && OwnRefs(st, w.digest, id, cnames)
    requires AllRetry(w, st, id, cnames, events) && n <= |events|
    ensures OwnRefs(At(w.digest, st, events, n), w.digest, id, cnames)
  {
    hide NamesApart, OwnRefs, Admissible, After;
    if n == 0 {
      assert events[..0] == [];
    } else {
      RetryOwns(w, st, id, cnames, events, n - 1);
      NextAt(w.digest, st, events, n - 1);
      if Actor(events[n - 1].call) == id {
        OwnAttempt(w, At(w.digest, st, events, n - 1), events[n - 1]);
      } else {
        OthersOwnRefs(w, At(w.digest, st, events, n - 1), events[n - 1], id, cnames);
      }
    }
  }

  lemma OwnAttempt(w: World, st: Store, e: Event)
    requires Admissible(w, e.call) && e.call.EnsureCall? && OwnRefs(st, w.digest, e.call.q.id, Wanted(e.call.q))
    ensures OwnRefs(After(w.digest, st, e), w.digest, e.call.q.id, Wanted(e.call.q))
  {
    hide OwnRefs, Clean, Planned, ApplyAll, After;
    AfterIs(w.digest, st, e);
    AttemptKeepsOwn(e.call.q, st, e.Blind?, Made(Planned(e.call.q, st, e.Blind?), e));
  }

  /**
    And retrying heals the references: after those attempts, and one complete Ensure, every unfrozen CName
    route of the instance is that of a requested CName and refers to no ListenerSet but its own, which is there.
   */
  lemma RetryCloses(w: World, st: Store, q: Request, events: seq<Event>)
    requires NamesApart(w) && CNamesApart(w) && Orderly(w, st) && Tracked(w, st) && AllClosed(w, st)
    requires Admissible(w, EnsureCall(q)) && AllRetry(w, st, q.id, Wanted(q), events)
    ensures var st' := Ensured(q, Run(w.digest, st, events));
      Closed(st', w.digest, q.id) && RefsStand(st', q.id) && RecordedIn(st', w.digest, q.id) == Wanted(q)
  {
    hide NamesApart, CNamesApart, Owned, Retry, Run, Within, RecordedIn, Clean, Apart, Ensured, Closed, OwnRefs,
         NamedIn, RefsStand;
    var s := Run(w.digest, st, events);
    RetryConverges(w, st, q, events);
    OwnCNamesDistinct(w, st, q);
    ClosedOwns(st, w.digest, q.id, Wanted(q));
    RetryOwns(w, st, q.id, Wanted(q), events, |events|);
    WithinMore(st, w.digest, q.id, RecordedIn(st, w.digest, q.id), RecordedIn(st, w.digest, q.id) + Wanted(q));
    RetryRun(w, st, q.id, Wanted(q), events, |events|);
    assert events[..|events|] == events;
    AttemptingIsNamed(s, w.digest, q.id, Wanted(q));
    WorldApart(w, s, q);
    EnsureCloses(q, s);
    ClosedStands(Ensured(q, s), w.digest, q.id);
  }

  // ----- where the simple claims fail -----

  /** A CName route whose name is none of those an Ensure writes outlives the Ensure. */
  lemma Outlives(q: Request, st: Store, n: string)
    requires WellFormed(q) && n in CNameRoutes(st, q.id) && n !in WantedRoutes(q)
    requires n !in CNameNames(q.cfg.digest, q.id, RecordedIn(st, q.cfg.digest, q.id) + Wanted(q))
    ensures n in CNameRoutes(Ensured(q, st), q.id)
  {
    hide EnsurePlan, ApplyAll, Labelled, WantedRoutes, CNameNames, RecordedIn, Clean, Frozen;
    var plan := EnsurePlan(q, st);
    assert plan[..|plan|] == plan;
    EnsureFrame(q, st, false, |plan|, n);
  }

  /**
    The exact condition for a complete Ensure to leave only routes of requested CNames: before it, every
    CName route was named after a recorded or a requested CName.
   */
  lemma ExactIff(q: Request, st: Store)
    requires WellFormed(q) && Apart(q, RecordedIn(st, q.cfg.digest, q.id)) && CNameRoutes(st, q.id) !! WantedRoutes(q)
    requires SetsOf(st, q.id) <= SetNames(q.cfg.digest, q.id, RecordedIn(st, q.cfg.digest, q.id) + Wanted(q))
    ensures CNameRoutes(Ensured(q, st), q.id) <= CNameNames(q.cfg.digest, q.id, Wanted(q))
       <==> CNameRoutes(st, q.id) <= CNameNames(q.cfg.digest, q.id, RecordedIn(st, q.cfg.digest, q.id) + Wanted(q))
  {
    hide Ensured, WantedRoutes, RecordedIn, Clean, CNameRouteName, SetName, CNameRoutes, SetsOf, Apart;
    var all := RecordedIn(st, q.cfg.digest, q.id) + Wanted(q);
    if CNameRoutes(st, q.id) <= CNameNames(q.cfg.digest, q.id, all) {
      EnsureExact(q, st);
    } else {
      var n :| n in CNameRoutes(st, q.id) && n !in CNameNames(q.cfg.digest, q.id, all);
      Outlives(q, st, n);
      assert CNameNames(q.cfg.digest, q.id, Wanted(q)) <= CNameNames(q.cfg.digest, q.id, all);
    }
  }

  /**
    The exact condition for the next complete Ensure to heal a call whose record read was swallowed and which
    wrote the record: no CName that was recorded, and is no longer requested, had a route.
   */
  lemma BlindHealsExactly(q: Request, st: Store)
    requires WellFormed(q) && Apart(q, RecordedIn(st, q.cfg.digest, q.id)) && CNameRoutes(st, q.id) !! WantedRoutes(q)
    ensures var s := ApplyAll(st, BlindPlan(q, st));
      CNameRoutes(Ensured(q, s), q.id) <= CNameNames(q.cfg.digest, q.id, Wanted(q))
      <==> CNameRoutes(st, q.id) <= CNameNames(q.cfg.digest, q.id, Wanted(q))
  {
    hide Ensured, WantedRoutes, Recorded, Clean, CNameRouteName, SetName, CNameRoutes, SetsOf, BlindPlan, ApplyAll,
         MainName, Reconciled, Issuer;
    var s, wanted := ApplyAll(st, BlindPlan(q, st)), CNameNames(q.cfg.digest, q.id, Wanted(q));
    BlindEnds(q, st);
    assert RecordedIn(s, q.cfg.digest, q.id) == Wanted(q) && Wanted(q) + Wanted(q) == Wanted(q);
    forall n
      ensures n in SetsOf(s, q.id) ==> n in SetNames(q.cfg.digest, q.id, Wanted(q))
    {
      ReconciledSets(q, st, true, n);
    }
    forall n ensures n in CNameRoutes(s, q.id) ==> n in CNameRoutes(st, q.id) || n in wanted
      ensures n in CNameRoutes(st, q.id) ==> n in CNameRoutes(s, q.id)
    {
      BlindRoutes(q, st, n);
    }
    assert wanted <= CNameNames(q.cfg.digest, q.id, RecordedIn(st, q.cfg.digest, q.id) + Wanted(q));
    ExactIff(q, s);
  }

  /**
    The swallowed error the same request does not heal: when the record cannot be read while CNames are
    reconciled and the new one is written, every recorded CName that is no longer requested keeps its route,
    drops out of the record, and is not cleaned up by running the same Ensure again.
   */
  lemma BlindReadLeaks(q: Request, st: Store, c: string)
    requires WellFormed(q) && Apart(q, RecordedIn(st, q.cfg.digest, q.id))
    requires c in RecordedIn(st, q.cfg.digest, q.id) && c !in Wanted(q)
    requires CNameRouteName(q.cfg.digest, q.id, c) in CNameRoutes(st, q.id)
    requires CNamesDistinct(q.cfg.digest, q.id, RecordedIn(st, q.cfg.digest, q.id) + Wanted(q))
    ensures var n, s := CNameRouteName(q.cfg.digest, q.id, c), ApplyAll(st, BlindPlan(q, st));
      && Recorded(s, Main(q)) == q.o.cnames && n in CNameRoutes(s, q.id) && n in CNameRoutes(Ensured(q, s), q.id)
  {
    hide RoutePlan, CNamePlan, CNameWrites, ApplyAll, Labelled, WantedRoutes, Clean, Frozen, CNameRouteName, MainName,
         Recorded, Ensured;
    var n, before := CNameRouteName(q.cfg.digest, q.id, c), ApplyAll(st, RoutePlan(q, st));
    var s := ApplyAll(st, BlindPlan(q, st));
    ApplyConcat(st, RoutePlan(q, st), CNamePlan(q, before, []));
    assert n in CNameNames(q.cfg.digest, q.id, RecordedIn(st, q.cfg.digest, q.id) + Wanted(q));
    assert n !in CNameNames(q.cfg.digest, q.id, Wanted(q));
    RoutePlanKeepsRecord(q, st);
    MainIsPut(q, st);
    forall a | a in BlindPlan(q, st) && RouteAction(a) ensures a.name != n {
      if a in RoutePlan(q, st) { RoutePlanActs(q, st, a); } else { BlindCNameActs(q, before, a); }
    }
    RouteUntouched(st, BlindPlan(q, st), n);
    BlindEnds(q, st);
    Outlives(q, s, n);
  }

  lemma BlindCNameActs(q: Request, s: Store, a: Action)
    requires WellFormed(q) && a in CNamePlan(q, s, []) && RouteAction(a)
    ensures a.name in CNameNames(q.cfg.digest, q.id, Wanted(q)) || a.name == Main(q)
  {
    hide CNamePlan, Clean, Labelled, CNameRouteName, MainName, ApplyAll;
    CNamePlanActs(q, s, [], a);
  }
}

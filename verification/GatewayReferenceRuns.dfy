/**
  References from CName routes to ListenerSets over runs of Gateway calls by any instances: exactly when none
  of them ever dangles, and that none does as long as each instance finishes what it began.
 */
module GatewayReferenceRuns {
  import opened Router
  import opened Strings
  import opened Resources
  import opened Gateway
  import opened GatewayPlans
  import opened GatewayFacts
  import opened GatewayEffects
  import opened GatewayClosure
  import opened GatewaySwallowed
  import opened GatewayReferences
  import opened GatewayRuns

  /** Every CName route and ListenerSet of an instance is named after some CName of the world. */
  ghost predicate Named(w: World, st: Store) {
    forall id :: id in w.ids ==> Within(st, w.digest, id, w.cnames)
  }

  ghost predicate AllRefs(w: World, st: Store) { forall id :: id in w.ids ==> RefsStand(st, id) }

  lemma NamedStep(w: World, st: Store, e: Event)
    requires Named(w, st) && Admissible(w, e.call)
    ensures Named(w, After(w.digest, st, e))
  {
    hide After, Within, Clean;
    forall id | id in w.ids ensures Within(After(w.digest, st, e), w.digest, id, w.cnames) {
      WithinAfter(w, st, e, id, w.cnames);
    }
  }

  /** A tracked, orderly store uses names of the world only. */
  lemma TrackedIsNamed(w: World, st: Store)
    requires Orderly(w, st) && Tracked(w, st)
    ensures Named(w, st)
  {
    hide Within, RecordedIn, Owned;
    forall id | id in w.ids ensures Within(st, w.digest, id, w.cnames) {
      WithinMore(st, w.digest, id, RecordedIn(st, w.digest, id), w.cnames);
    }
  }

  // ----- other instances -----

  /** A route that ends up labelled for an instance that made no call kept everything but perhaps a record. */
  lemma {:induction false} Survivor(st: Store, plan: seq<Action>, id: InstanceID, n: string)
    requires forall a :: a in plan && a.PutRoute? ==> !Labelled(a.route.labels, id)
    requires n in ApplyAll(st, plan).routes && Labelled(ApplyAll(st, plan).routes[n].labels, id)
    ensures n in st.routes && SameButRecord(st.routes[n], ApplyAll(st, plan).routes[n])
  {
    hide Frozen, Labelled;
    if plan != [] {
      var init, a := plan[..|plan| - 1], plan[|plan| - 1];
      assert a in plan;
      var s, s' := ApplyAll(st, init), ApplyAll(st, plan);
      if a.WriteRecord? && a.name == n {
        RecordingSpares(s.routes[n].annotations, a.cnames);
        Survivor(st, init, id, n);
        SameButRecordTrans(st.routes[n], s.routes[n], s'.routes[n]);
      } else {
        assert n in s.routes && s'.routes[n] == s.routes[n];
        Survivor(st, init, id, n);
      }
    }
  }

  /** Another instance's call keeps an instance's ListenerSets that are named after its CNames. */
  lemma OthersSetKept(w: World, st: Store, e: Event, id: InstanceID, c: string)
    requires NamesApart(w) && Admissible(w, e.call) && id in w.ids && id != Actor(e.call) && c in w.cnames
    requires SetName(w.digest, id, c) in SetsOf(st, id)
    ensures SetName(w.digest, id, c) in SetsOf(After(w.digest, st, e), id)
  {
    hide Planned, RemovePlan, ApplyAll, SetName, MainName, RouteName, CNameRouteName, Clean;
    var n, plan := SetName(w.digest, id, c), Writes(w.digest, st, e);
    assert n !in SetsOf(st, Actor(e.call)) by {
      if n in SetsOf(st, Actor(e.call)) { OneOwner(st.sets[n].labels, id, Actor(e.call)); }
    }
    if e.call.EnsureCall? {
      var q := e.call.q;
      assert n !in SetNames(q.cfg.digest, q.id, Wanted(q));
      EnsureSetFrame(q, st, e.Blind?, Made(Planned(q, st, e.Blind?), e), n);
      AfterIs(w.digest, st, e);
    } else {
      forall a | a in plan && SetAction(a) ensures a.name != n { RemoveActs(w.digest, e.call.who, st, a); }
      SetUntouched(st, plan, n);
    }
  }

  lemma OthersPutsForeign(w: World, st: Store, e: Event, id: InstanceID, a: Action)
    requires Admissible(w, e.call) && id != Actor(e.call) && a in Writes(w.digest, st, e) && a.PutRoute?
    ensures !Labelled(a.route.labels, id)
  {
    hide EnsurePlan, RemovePlan, Clean, InWorld, Labelled;
    if e.call.EnsureCall? {
      PlanIsOurs(e.call.q, st, a);
      OursLabelled(e.call.q, a);
      if Labelled(a.route.labels, id) { OneOwner(a.route.labels, id, e.call.q.id); }
    } else {
      RemoveActs(w.digest, e.call.who, st, a);
    }
  }

  /** What another instance's call leaves of an instance's unfrozen CName routes. */
  lemma OthersRoute(w: World, st: Store, e: Event, id: InstanceID, n: string)
    requires Admissible(w, e.call) && id != Actor(e.call) && Unfrozen(After(w.digest, st, e), id, n)
    ensures Unfrozen(st, id, n) && After(w.digest, st, e).routes[n].parentRefs == st.routes[n].parentRefs
  {
    hide EnsurePlan, RemovePlan, Writes, ApplyAll, Admissible, Labelled, Frozen, SameButRecord;
    var st', plan := After(w.digest, st, e), Writes(w.digest, st, e);
    forall a | a in plan && a.PutRoute? ensures !Labelled(a.route.labels, id) { OthersPutsForeign(w, st, e, id, a); }
    Survivor(st, plan, id, n);
    SameButRecordFrozen(st.routes[n], st'.routes[n]);
    SameButRecordLabels(st.routes[n], st'.routes[n]);
  }

  /** Another instance's call leaves an instance's references standing. */
  lemma OthersRefs(w: World, st: Store, e: Event, id: InstanceID)
    requires NamesApart(w) && Named(w, st) && Admissible(w, e.call) && id in w.ids && id != Actor(e.call)
    requires RefsStand(st, id)
    ensures RefsStand(After(w.digest, st, e), id)
  {
    hide After, NamesApart, Admissible, SetName, Frozen, CNameRoutes, CNameNames;
    assert Within(st, w.digest, id, w.cnames);
    forall n, p | Refers(After(w.digest, st, e), id, n, p) ensures p.name in SetsOf(After(w.digest, st, e), id) {
      OthersRoute(w, st, e, id, n);
      assert Refers(st, id, n, p);
      var c :| c in w.cnames && p.name == SetName(w.digest, id, c);
      OthersSetKept(w, st, e, id, c);
    }
  }

  /** And the references of its routes to their own ListenerSets. */
  lemma OthersStandsFor(w: World, st: Store, e: Event, id: InstanceID, cnames: set<string>, n: string)
    requires NamesApart(w) && Admissible(w, e.call) && id in w.ids && id != Actor(e.call) && cnames <= w.cnames
    requires Unfrozen(After(w.digest, st, e), id, n) && n in st.routes && StandsFor(st, w.digest, id, cnames, n)
    ensures StandsFor(After(w.digest, st, e), w.digest, id, cnames, n)
  {
    hide After, NamesApart, Admissible, SetName, Frozen, CNameRouteName, SetsOf;
    var st' := After(w.digest, st, e);
    OthersRoute(w, st, e, id, n);
    var c :| c in cnames && n == CNameRouteName(w.digest, id, c) && ParentStands(st, w.digest, id, c, st.routes[n]);
    forall p | p in st'.routes[n].parentRefs && p.ToListenerSet? ensures p.name in SetsOf(st', id) {
      OthersSetKept(w, st, e, id, c);
    }
    assert ParentStands(st', w.digest, id, c, st'.routes[n]);
  }

  lemma OthersOwnRefs(w: World, st: Store, e: Event, id: InstanceID, cnames: set<string>)
    requires NamesApart(w) && Admissible(w, e.call) && id in w.ids && id != Actor(e.call) && cnames <= w.cnames
    requires OwnRefs(st, w.digest, id, cnames)
    ensures OwnRefs(After(w.digest, st, e), w.digest, id, cnames)
  {
    hide After, NamesApart, Admissible, CNameNames, StandsFor, Frozen, CNameRoutes;
    var st' := After(w.digest, st, e);
    forall n | Unfrozen(st', id, n) && n in CNameNames(w.digest, id, cnames)
      ensures StandsFor(st', w.digest, id, cnames, n)
    {
      OthersRoute(w, st, e, id, n);
      OthersStandsFor(w, st, e, id, cnames, n);
    }
  }

  lemma OthersClosed(w: World, st: Store, e: Event, id: InstanceID)
    requires NamesApart(w) && Orderly(w, st) && Admissible(w, e.call) && id in w.ids && id != Actor(e.call)
    requires Closed(st, w.digest, id)
    ensures Closed(After(w.digest, st, e), w.digest, id)
  {
    hide After, NamesApart, Admissible, StandsFor, Frozen, CNameRoutes, RecordedIn, Owned;
    var st' := After(w.digest, st, e);
    OthersRecordKept(w, st, e, id);
    forall n | Unfrozen(st', id, n) ensures StandsFor(st', w.digest, id, RecordedIn(st', w.digest, id), n) {
      OthersRoute(w, st, e, id, n);
      OthersStandsFor(w, st, e, id, RecordedIn(st, w.digest, id), n);
    }
  }

  // ----- the instance's own Remove -----

  lemma {:induction false} GoneRoute(st: Store, plan: seq<Action>, n: string)
    requires DropRoute(n) in plan && forall a :: a in plan ==> a.DropRoute? || a.DropSet?
    ensures n !in ApplyAll(st, plan).routes
  {
    var init, a := plan[..|plan| - 1], plan[|plan| - 1];
    assert plan == init + [a] && a in plan;
    if DropRoute(n) in init { GoneRoute(st, init, n); }
  }

  /** A Remove deletes an instance's CName routes first, and its ListenerSets after them. */
  lemma RemoveSplits(digest: Digest, id: InstanceID, st: Store) returns (first: seq<Action>)
    ensures first <= RemovePlan(digest, id, st)
    ensures forall a :: a in first ==> a.DropRoute?
    ensures forall n :: n in CNameRoutes(st, id) ==> DropRoute(n) in first
  {
    hide RemoveRoutes, ApplyAll, DropRoutes, DropSets, SetsOf, CNameRoutes, PlainRoutes, MainName;
    var routes := RemoveRoutes(digest, id, st);
    var names := CNameRoutes(ApplyAll(st, routes), id);
    first := routes + DropRoutes(InOrder(names), names);
    forall a | a in first ensures a.DropRoute? {
      if a in routes { RemoveRoutesAct(digest, id, st, a); } else { DropRoutesAre(InOrder(names), names, a); }
    }
    forall n | n in CNameRoutes(st, id) ensures DropRoute(n) in first { CNameIsDropped(digest, id, st, n); }
  }

  lemma RoutesGoFirst(digest: Digest, id: InstanceID, st: Store, k: nat, x: string, n: string)
    requires k <= |RemovePlan(digest, id, st)| && DropSet(x) in RemovePlan(digest, id, st)[..k]
    requires n in CNameRoutes(st, id)
    ensures DropRoute(n) in RemovePlan(digest, id, st)[..k]
  {
    hide RemovePlan, CNameRoutes;
    var plan := RemovePlan(digest, id, st);
    var first := RemoveSplits(digest, id, st);
    var i :| 0 <= i < k && plan[i] == DropSet(x);
    forall j | 0 <= j < |first| ensures plan[j].DropRoute? { assert first[j] in first; }
    var j :| 0 <= j < |first| && first[j] == DropRoute(n);
    assert plan[..k][j] == first[j];
  }

  lemma CNameIsDropped(digest: Digest, id: InstanceID, st: Store, n: string)
    requires n in CNameRoutes(st, id)
    ensures var st1 := ApplyAll(st, RemoveRoutes(digest, id, st));
      DropRoute(n) in RemoveRoutes(digest, id, st) + DropRoutes(InOrder(CNameRoutes(st1, id)), CNameRoutes(st1, id))
  {
    hide RemoveRoutes, ApplyAll, DropRoutes, MainName, Labelled;
    var routes := RemoveRoutes(digest, id, st);
    var st1 := ApplyAll(st, routes);
    if DropRoute(n) !in routes {
      forall a | a in routes && RouteAction(a) ensures a.name != n { RemoveRoutesAct(digest, id, st, a); }
      RouteUntouched(st, routes, n);
      DropRoutesAre(InOrder(CNameRoutes(st1, id)), CNameRoutes(st1, id), DropRoute(n));
    }
  }

  /** A Remove, cut short anywhere, leaves no reference dangling. */
  lemma RemoveKeepsRefs(digest: Digest, id: InstanceID, st: Store, k: nat)
    requires RefsStand(st, id) && k <= |RemovePlan(digest, id, st)|
    ensures RefsStand(ApplyAll(st, RemovePlan(digest, id, st)[..k]), id)
  {
    hide RemovePlan, ApplyAll, Frozen, Labelled, MainName;
    var plan := RemovePlan(digest, id, st)[..k];
    var s := ApplyAll(st, plan);
    forall a | a in plan ensures a.DropRoute? || a.DropSet? { RemoveActs(digest, id, st, a); }
    DropsShrink(st, plan);
    forall n, p | Refers(s, id, n, p) ensures p.name in SetsOf(s, id) {
      assert Refers(st, id, n, p);
      if x :| DropSet(x) in plan {
        RoutesGoFirst(digest, id, st, k, x, n);
        GoneRoute(st, plan, n);
      } else {
        SetsSame(st, plan);
      }
    }
  }

  // ----- exactly when no reference dangles -----

  /** No route that a call leaves alone refers to a ListenerSet that the call deletes. */
  ghost predicate KeepsRefs(digest: Digest, st: Store, e: Event) {
    match e.call
    case RemoveCall(_) => true
    case EnsureCall(q) =>
      forall n, p :: Refers(st, q.id, n, p) && Unnamed(q, st, e.Blind?, n) ==> DropSet(p.name) !in Writes(digest, st, e)
  }

  lemma OwnRefsStep(w: World, st: Store, e: Event)
    requires Admissible(w, e.call) && RefsStand(st, Actor(e.call))
    ensures RefsStand(After(w.digest, st, e), Actor(e.call)) <==> KeepsRefs(w.digest, st, e)
  {
    hide Planned, RemovePlan, ApplyAll, RefsStand, Refers, Unnamed, Clean;
    var plan := Plan(w.digest, st, e);
    if e.call.EnsureCall? {
      CutRefsExactly(e.call.q, st, e.Blind?, Made(plan, e));
    } else {
      RemoveKeepsRefs(w.digest, e.call.who, st, Made(plan, e));
    }
  }

  lemma RefsStep(w: World, st: Store, e: Event)
    requires NamesApart(w) && Named(w, st) && AllRefs(w, st) && Admissible(w, e.call)
    ensures AllRefs(w, After(w.digest, st, e)) <==> KeepsRefs(w.digest, st, e)
  {
    hide NamesApart, Named, After, RefsStand, KeepsRefs;
    ActorInWorld(w, e.call);
    OwnRefsStep(w, st, e);
    forall id | id in w.ids && id != Actor(e.call)
      ensures RefsStand(After(w.digest, st, e), id)
    {
      OthersRefs(w, st, e, id);
    }
  }

  ghost predicate AllAdmissible(w: World, events: seq<Event>) { forall e :: e in events ==> Admissible(w, e.call) }

  lemma {:induction false} NamedAt(w: World, st: Store, events: seq<Event>, n: nat)
    requires Named(w, st) && AllAdmissible(w, events) && n <= |events|
    ensures Named(w, At(w.digest, st, events, n))
  {
    hide Named, Admissible, After;
    if n == 0 {
      assert events[..0] == [];
    } else {
      NamedAt(w, st, events, n - 1);
      NextAt(w.digest, st, events, n - 1);
      NamedStep(w, At(w.digest, st, events, n - 1), events[n - 1]);
    }
  }

  lemma {:induction false} RunRefs(w: World, st: Store, events: seq<Event>, n: nat)
    requires NamesApart(w) && Named(w, st) && AllRefs(w, st) && AllAdmissible(w, events) && n <= |events|
    requires forall i :: 0 <= i < n ==> KeepsRefs(w.digest, At(w.digest, st, events, i), events[i])
    ensures AllRefs(w, At(w.digest, st, events, n))
  {
    hide NamesApart, Named, AllRefs, Admissible, KeepsRefs, After;
    if n == 0 {
      assert events[..0] == [];
    } else {
      RunRefs(w, st, events, n - 1);
      NamedAt(w, st, events, n - 1);
      NextAt(w.digest, st, events, n - 1);
      RefsStep(w, At(w.digest, st, events, n - 1), events[n - 1]);
    }
  }

  /**
    Over any run of calls by any instances, complete, cut short anywhere, or with errors swallowed, no
    unfrozen CName route ever refers to a missing ListenerSet if and only if no call deletes a ListenerSet
    that a route it leaves alone refers to.
   */
  lemma RunRefsExactly(w: World, st: Store, events: seq<Event>)
    requires NamesApart(w) && Named(w, st) && AllRefs(w, st) && AllAdmissible(w, events)
    ensures (forall i :: 0 <= i <= |events| ==> AllRefs(w, At(w.digest, st, events, i)))
       <==> (forall i :: 0 <= i < |events| ==> KeepsRefs(w.digest, At(w.digest, st, events, i), events[i]))
  {
    hide NamesApart, Named, AllRefs, Admissible, KeepsRefs, After, At;
    if forall i :: 0 <= i < |events| ==> KeepsRefs(w.digest, At(w.digest, st, events, i), events[i]) {
      forall i | 0 <= i <= |events| ensures AllRefs(w, At(w.digest, st, events, i)) { RunRefs(w, st, events, i); }
    }
    if forall i :: 0 <= i <= |events| ==> AllRefs(w, At(w.digest, st, events, i)) {
      forall i | 0 <= i < |events| ensures KeepsRefs(w.digest, At(w.digest, st, events, i), events[i]) {
        NamedAt(w, st, events, i);
        NextAt(w.digest, st, events, i);
        RefsStep(w, At(w.digest, st, events, i), events[i]);
      }
    }
  }

  // ----- instances that finish what they began -----

  lemma OwnCNamesDistinct(w: World, st: Store, q: Request)
    requires CNamesApart(w) && Orderly(w, st) && Admissible(w, EnsureCall(q))
    ensures CNamesDistinct(q.cfg.digest, q.id, RecordedIn(st, q.cfg.digest, q.id) + Wanted(q))
  {
    hide CNameRouteName, MainName, Recorded, Clean, Owned;
  }

  /** What an instance has begun and not brought to its end: nothing, an Ensure of a list, or a Remove. */
  datatype Aim = Nothing | List(cnames: set<string>) | Removal

  ghost function Begun(events: seq<Event>, id: InstanceID): Aim {
    if events == [] then Nothing
    else
      var e := events[|events| - 1];
      if Actor(e.call) != id then Begun(events[..|events| - 1], id)
      else if e.Whole? then Nothing
      else
        match e.call
        case EnsureCall(q) => List(Wanted(q))
        case RemoveCall(_) => Removal
  }

  /** The call takes up what the instance has begun, or removes it. */
  predicate TakesUp(aim: Aim, call: Call) {
    match aim
    case Nothing => true
    case List(cnames) => call.RemoveCall? || Wanted(call.q) == cnames
    case Removal => call.RemoveCall?
  }

  /**
    Every call that could not make all its writes, be it that it failed or that the record was lost without
    an error, is followed by one with the same CNames, or by a Remove; and every record is read.
   */
  ghost predicate Persistent(w: World, events: seq<Event>) {
    forall i :: 0 <= i < |events| ==>
      && Admissible(w, events[i].call) && !events[i].Blind?
      && TakesUp(Begun(events[..i], Actor(events[i].call)), events[i].call)
  }

  /** What holds of an instance, by what it has begun. */
  ghost predicate Meets(w: World, st: Store, id: InstanceID, aim: Aim) {
    && RefsStand(st, id)
    && match aim
       case Nothing => Tracking(st, w.digest, id) && Closed(st, w.digest, id)
       case List(cnames) => cnames <= w.cnames && Attempting(st, w.digest, id, cnames)
         && OwnRefs(st, w.digest, id, cnames)
       case Removal => true
  }

  /** An instance that has begun nothing, or an Ensure of the list, can begin or go on with it. */
  lemma CanAttempt(w: World, st: Store, q: Request, aim: Aim)
    requires CNamesApart(w) && Orderly(w, st) && Admissible(w, EnsureCall(q)) && Meets(w, st, q.id, aim)
    requires TakesUp(aim, EnsureCall(q))
    ensures Attempting(st, w.digest, q.id, Wanted(q)) && OwnRefs(st, w.digest, q.id, Wanted(q))
  {
    hide RefsStand, Closed, OwnRefs, Within, CNamesApart, Clean, Owned, RecordedIn, CNamesDistinct;
    if aim.Nothing? {
      WithinMore(st, w.digest, q.id, RecordedIn(st, w.digest, q.id), RecordedIn(st, w.digest, q.id) + Wanted(q));
      OwnCNamesDistinct(w, st, q);
      ClosedOwns(st, w.digest, q.id, Wanted(q));
    }
  }

  lemma AttemptingIsNamed(st: Store, digest: Digest, id: InstanceID, cnames: set<string>)
    requires Attempting(st, digest, id, cnames)
    ensures NamedIn(st, digest, id, RecordedIn(st, digest, id) + cnames)
  {
    hide CNameNames, SetNames, RecordedIn, Frozen, CNameRoutes;
  }

  /** An attempt that reads the record, cut short anywhere, leaves every reference of the instance standing. */
  lemma AttemptStands(w: World, st: Store, e: Event)
    requires Admissible(w, e.call) && e.call.EnsureCall? && !e.Blind?
    requires var q := e.call.q;
      RefsStand(st, q.id) && Attempting(st, w.digest, q.id, Wanted(q)) && OwnRefs(st, w.digest, q.id, Wanted(q))
    ensures RefsStand(After(w.digest, st, e), e.call.q.id)
  {
    hide Planned, ApplyAll, RefsStand, NamedIn, OwnRefs, Attempting, Unnamed, Clean, WantedSets;
    var q := e.call.q;
    AttemptingIsNamed(st, w.digest, q.id, Wanted(q));
    OwnStraysStand(q, st);
    forall n, p | Refers(st, q.id, n, p) && Unnamed(q, st, false, n)
      ensures DropSet(p.name) !in Writes(w.digest, st, e)
    {
      if DropSet(p.name) in Writes(w.digest, st, e) {
        CleanupIsLate(q, st, false, Made(Planned(q, st, false), e), p.name);
      }
    }
    CutRefsExactly(q, st, false, Made(Planned(q, st, false), e));
  }

  /** The instance's own Ensure. */
  lemma OwnEnsureMeets(w: World, st: Store, e: Event, aim: Aim)
    requires NamesApart(w) && CNamesApart(w) && Orderly(w, st) && Admissible(w, e.call) && e.call.EnsureCall?
    requires !e.Blind?
    requires Meets(w, st, e.call.q.id, aim) && TakesUp(aim, e.call)
    ensures Meets(w, After(w.digest, st, e), e.call.q.id, if e.Whole? then Nothing else List(Wanted(e.call.q)))
  {
    hide NamesApart, CNamesApart, Planned, ApplyAll, RefsStand, NamedIn, OwnRefs, Within, Clean, Apart, Owned,
         RecordedIn, Closed, After;
    var q := e.call.q;
    CanAttempt(w, st, q, aim);
    AttemptStands(w, st, e);
    WorldApart(w, st, q);
    AfterIs(w.digest, st, e);
    if e.Whole? {
      WholeIsEnsured(w.digest, st, e);
      AttemptingIsNamed(st, w.digest, q.id, Wanted(q));
      EnsureExact(q, st);
      EnsureCloses(q, st);
    } else {
      AttemptKeepsOwn(q, st, false, Made(Planned(q, st, false), e));
      assert Planned(q, st, false) == EnsurePlan(q, st) by { PlannedIs(q, st); }
      EnsureCutShort(q, st, Made(Planned(q, st, false), e));
    }
  }

  lemma PlannedIs(q: Request, st: Store)
    ensures Planned(q, st, false) == EnsurePlan(q, st)
  {
    hide EnsurePlan;
  }

  lemma WholeIsEnsured(digest: Digest, st: Store, e: Event)
    requires e.Whole? && e.call.EnsureCall?
    ensures After(digest, st, e) == Ensured(e.call.q, st)
  {
    hide EnsurePlan, ApplyAll;
    assert EnsurePlan(e.call.q, st)[..|EnsurePlan(e.call.q, st)|] == EnsurePlan(e.call.q, st);
  }

  /** The instance's own Remove. */
  lemma OwnRemoveMeets(w: World, st: Store, e: Event)
    requires e.call.RemoveCall? && RefsStand(st, e.call.who)
    ensures Meets(w, After(w.digest, st, e), e.call.who, if e.Whole? then Nothing else Removal)
  {
    hide RemovePlan, ApplyAll, RefsStand, Within, RecordedIn, SetsOf, CNameRoutes, Frozen;
    RemoveKeepsRefs(w.digest, e.call.who, st, Made(Plan(w.digest, st, e), e));
    if e.Whole? {
      WholeIs(w.digest, st, e);
      RemovedTracks(w.digest, e.call.who, st);
      WithinNone(Removed(w.digest, e.call.who, st), w.digest, e.call.who);
    }
  }

  lemma OthersMeets(w: World, st: Store, e: Event, id: InstanceID, aim: Aim)
    requires NamesApart(w) && Orderly(w, st) && Named(w, st) && Admissible(w, e.call) && id in w.ids
    requires id != Actor(e.call)
    requires Meets(w, st, id, aim)
    ensures Meets(w, After(w.digest, st, e), id, aim)
  {
    hide NamesApart, Orderly, Named, Admissible, RefsStand, OwnRefs, Within, RecordedIn, Closed, After;
    OthersRefs(w, st, e, id);
    OthersRecordKept(w, st, e, id);
    match aim
    case Nothing =>
      WithinAfter(w, st, e, id, RecordedIn(st, w.digest, id));
      OthersClosed(w, st, e, id);
    case List(cnames) =>
      WithinAfter(w, st, e, id, RecordedIn(st, w.digest, id) + cnames);
      OthersOwnRefs(w, st, e, id, cnames);
    case Removal =>
  }

  lemma {:induction false} PersistentMeets(w: World, st: Store, events: seq<Event>, n: nat, id: InstanceID)
    requires NamesApart(w) && CNamesApart(w) && Orderly(w, st) && Tracked(w, st) && AllClosed(w, st)
    requires Persistent(w, events) && n <= |events| && id in w.ids
    ensures Meets(w, At(w.digest, st, events, n), id, Begun(events[..n], id))
  {
    hide NamesApart, CNamesApart, Orderly, Admissible, RefsStand, Within, Closed, After, Meets, TakesUp;
    if n == 0 {
      assert events[..0] == [];
      StartMeets(w, st, id);
    } else {
      var e, s, aim := events[n - 1], At(w.digest, st, events, n - 1), Begun(events[..n - 1], id);
      assert events[..n][..n - 1] == events[..n - 1];
      PersistentMeets(w, st, events, n - 1, id);
      NextAt(w.digest, st, events, n - 1);
      PersistentAt(w, st, events, n - 1);
      if Actor(e.call) != id {
        OthersMeets(w, s, e, id, aim);
      } else if e.call.EnsureCall? {
        OwnEnsureMeets(w, s, e, aim);
      } else {
        MeetsStands(w, s, id, aim);
        OwnRemoveMeets(w, s, e);
      }
    }
  }

  lemma StartMeets(w: World, st: Store, id: InstanceID)
    requires Tracked(w, st) && AllClosed(w, st) && id in w.ids
    ensures Meets(w, st, id, Nothing)
  {
    hide Within, Closed, RefsStand, RecordedIn;
    ClosedStands(st, w.digest, id);
  }

  lemma MeetsStands(w: World, st: Store, id: InstanceID, aim: Aim)
    requires Meets(w, st, id, aim)
    ensures RefsStand(st, id)
  {
  }

  lemma PersistentAt(w: World, st: Store, events: seq<Event>, i: nat)
    requires NamesApart(w) && Orderly(w, st) && Tracked(w, st) && Persistent(w, events) && i <= |events|
    ensures Orderly(w, At(w.digest, st, events, i)) && Named(w, At(w.digest, st, events, i))
  {
    hide NamesApart, Orderly, Tracked, Named, Admissible, TakesUp, Begun, Run;
    forall e | e in events ensures Admissible(w, e.call) { var j :| 0 <= j < |events| && events[j] == e; }
    TrackedIsNamed(w, st);
    NamedAt(w, st, events, i);
    RunOrderly(w, st, events[..i]);
  }

  /**
    No reference ever dangles, not even between the calls of a retry, over any run of any instances in both
    modes, with issuers that come and go and with calls cut short anywhere, as long as every instance takes
    up what it has begun before it asks for other CNames, and no record read is swallowed.
   */
  lemma RunStands(w: World, st: Store, events: seq<Event>, n: nat)
    requires NamesApart(w) && CNamesApart(w) && Orderly(w, st) && Tracked(w, st) && AllClosed(w, st)
    requires Persistent(w, events) && n <= |events|
    ensures AllRefs(w, At(w.digest, st, events, n))
  {
    hide NamesApart, CNamesApart, Orderly, Tracked, AllClosed, RefsStand, Persistent, Meets, At, Begun;
    forall id | id in w.ids ensures RefsStand(At(w.digest, st, events, n), id) {
      PersistentMeets(w, st, events, n, id);
      MeetsStands(w, At(w.digest, st, events, n), id, Begun(events[..n], id));
    }
  }
}

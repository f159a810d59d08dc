/**
  Runs of Ensure and Remove calls by any number of router instances, each call complete, cut short, or with
  an error swallowed on the way: what a Remove leaves, and tracking with the exact condition under which
  it holds.
 */
module GatewayRuns {
  import opened Router
  import opened Strings
  import opened Resources
  import opened Gateway
  import opened GatewayPlans
  import opened GatewayFacts
  import opened GatewayEffects
  import opened GatewayClosure
  import opened GatewaySwallowed
  import opened GatewayReferences

  // ----- Remove -----

  lemma RemoveRoutesEffect(digest: Digest, id: InstanceID, st: Store)
    ensures ApplyAll(st, RemoveRoutes(digest, id, st))
        == st.(routes := st.routes - (PlainRoutes(st, id) + {MainName(digest, id)}))
  {
    hide ApplyAll, DropRoutes, PlainRoutes, MainName;
    var plain, main := PlainRoutes(st, id), MainName(digest, id);
    DropRoutesEffect(st, InOrder(plain), plain);
    ApplyConcat(st, DropRoutes(InOrder(plain), plain), [DropRoute(main)]);
    OneStep(ApplyAll(st, DropRoutes(InOrder(plain), plain)), DropRoute(main));
    assert plain * plain == plain;
    MinusTwice(st.routes, plain, {main});
  }

  lemma RemoveCNamesEffect(id: InstanceID, st: Store)
    ensures ApplyAll(st, RemoveCNames(id, st)) == Store(st.routes - CNameRoutes(st, id), st.sets - SetsOf(st, id))
  {
    hide ApplyAll, DropRoutes, DropSets, CNameRoutes, SetsOf;
    var cnames, sets := CNameRoutes(st, id), SetsOf(st, id);
    DropRoutesEffect(st, InOrder(cnames), cnames);
    ApplyConcat(st, DropRoutes(InOrder(cnames), cnames), DropSets(InOrder(sets), sets));
    DropSetsEffect(ApplyAll(st, DropRoutes(InOrder(cnames), cnames)), InOrder(sets), sets);
    assert cnames * cnames == cnames && sets * sets == sets;
  }

  /** The routes and ListenerSets a complete Remove deletes. */
  lemma RemoveEffect(digest: Digest, id: InstanceID, st: Store)
    ensures Removed(digest, id, st)
         == Store(st.routes - (PlainRoutes(st, id) + {MainName(digest, id)} + CNameRoutes(st, id)),
                  st.sets - SetsOf(st, id))
  {
    hide ApplyAll, RemoveRoutes, RemoveCNames, PlainRoutes, OfCName, Labelled, MainName;
    var gone := PlainRoutes(st, id) + {MainName(digest, id)};
    var st1 := ApplyAll(st, RemoveRoutes(digest, id, st));
    RemoveRoutesEffect(digest, id, st);
    RemoveCNamesEffect(id, st1);
    ApplyConcat(st, RemoveRoutes(digest, id, st), RemoveCNames(id, st1));
    MinusTwice(st.routes, gone, CNameRoutes(st1, id));
    assert gone + CNameRoutes(st1, id) == gone + CNameRoutes(st, id);
  }

  lemma RemoveRoutesAct(digest: Digest, id: InstanceID, st: Store, a: Action)
    requires a in RemoveRoutes(digest, id, st)
    ensures a.DropRoute? && (a.name == MainName(digest, id) || a.name in PlainRoutes(st, id))
  {
    hide DropRoutes, MainName, PlainRoutes;
    DropRoutesAre(InOrder(PlainRoutes(st, id)), PlainRoutes(st, id), a);
  }

  lemma RemoveCNamesAct(id: InstanceID, st: Store, a: Action)
    requires a in RemoveCNames(id, st)
    ensures (a.DropRoute? && a.name in CNameRoutes(st, id)) || (a.DropSet? && a.name in SetsOf(st, id))
  {
    hide DropRoutes, DropSets, CNameRoutes, SetsOf;
    DropRoutesAre(InOrder(CNameRoutes(st, id)), CNameRoutes(st, id), a);
    DropSetsAre(InOrder(SetsOf(st, id)), SetsOf(st, id), a);
  }

  lemma RemoveActs(digest: Digest, id: InstanceID, st: Store, a: Action)
    requires a in RemovePlan(digest, id, st)
    ensures a.DropRoute? || a.DropSet?
    ensures a.DropRoute? ==>
      a.name == MainName(digest, id) || (a.name in st.routes && Labelled(st.routes[a.name].labels, id))
    ensures a.DropSet? ==> a.name in SetsOf(st, id)
  {
    hide ApplyAll, RemoveRoutes, RemoveCNames, Labelled, MainName;
    RemoveRoutesEffect(digest, id, st);
    if a in RemoveRoutes(digest, id, st) {
      RemoveRoutesAct(digest, id, st, a);
    } else {
      RemoveCNamesAct(id, ApplyAll(st, RemoveRoutes(digest, id, st)), a);
    }
  }

  /** A route labelled for the id that Remove does not select: its CName label is there but not "true". */
  predicate Missed(labels: map<string, string>, id: InstanceID) {
    Labelled(labels, id) && CNAME_LABEL in labels && labels[CNAME_LABEL] != "true"
  }

  /**
    Remove is complete without trusting the record: nothing labelled for the id is left if and only if
    every CName label on the id's routes, other than the main route's, is "true".
   */
  lemma RemoveComplete(digest: Digest, id: InstanceID, st: Store)
    ensures var st' := Removed(digest, id, st);
      && SetsOf(st', id) == {}
      && ((forall n :: n in st'.routes ==> !Labelled(st'.routes[n].labels, id)) <==>
          (forall n :: n in st.routes && n != MainName(digest, id) ==> !Missed(st.routes[n].labels, id)))
  {
    hide MainName, Labelled, Removed;
    RemoveEffect(digest, id, st);
    var st' := Removed(digest, id, st);
    forall n
      ensures n in st'.routes && Labelled(st'.routes[n].labels, id)
         <==> n in st.routes && n != MainName(digest, id) && Missed(st.routes[n].labels, id)
    {
      assert n in PlainRoutes(st, id) <==> n in st.routes && Plain(st.routes[n].labels, id);
      assert n in CNameRoutes(st, id) <==> n in st.routes && OfCName(st.routes[n].labels, id);
    }
  }

  /** Remove, cut short anywhere, touches nothing of another id but a route that has this id's main name. */
  lemma RemoveFrame(digest: Digest, id: InstanceID, st: Store, k: nat, n: string)
    requires k <= |RemovePlan(digest, id, st)|
    ensures var st' := ApplyAll(st, RemovePlan(digest, id, st)[..k]);
      && (n in st.routes && n != MainName(digest, id) && !Labelled(st.routes[n].labels, id) ==>
            n in st'.routes && st'.routes[n] == st.routes[n])
      && (n in st.sets && n !in SetsOf(st, id) ==> n in st'.sets && st'.sets[n] == st.sets[n])
      && st'.routes.Keys <= st.routes.Keys && st'.sets.Keys <= st.sets.Keys
  {
    hide RemovePlan, ApplyAll, MainName, Labelled;
    var plan := RemovePlan(digest, id, st)[..k];
    forall a | a in plan ensures a.DropRoute? || a.DropSet? { RemoveActs(digest, id, st, a); }
    if n in st.routes && n != MainName(digest, id) && !Labelled(st.routes[n].labels, id) {
      forall a | a in plan && RouteAction(a) ensures a.name != n { RemoveActs(digest, id, st, a); }
      RouteUntouched(st, plan, n);
    }
    if n in st.sets && n !in SetsOf(st, id) {
      forall a | a in plan && SetAction(a) ensures a.name != n { RemoveActs(digest, id, st, a); }
      SetUntouched(st, plan, n);
    }
    DropsShrink(st, plan);
  }

  lemma {:induction false} DropsShrink(st: Store, plan: seq<Action>)
    requires forall a :: a in plan ==> a.DropRoute? || a.DropSet?
    ensures ApplyAll(st, plan).routes.Keys <= st.routes.Keys && ApplyAll(st, plan).sets.Keys <= st.sets.Keys
    ensures forall n :: n in ApplyAll(st, plan).routes ==> ApplyAll(st, plan).routes[n] == st.routes[n]
    ensures forall n :: n in ApplyAll(st, plan).sets ==> ApplyAll(st, plan).sets[n] == st.sets[n]
  {
    if plan != [] {
      assert plan[|plan| - 1] in plan;
      DropsShrink(st, plan[..|plan| - 1]);
    }
  }

  // ----- runs -----

  datatype Call = EnsureCall(q: Request) | RemoveCall(who: InstanceID)

  /**
    A call that made all its writes, one that made only the first few, or an Ensure that could not read the
    CName record and made the first few writes of the blind plan.
   */
  datatype Event = Whole(call: Call) | Cut(call: Call, after: nat) | Blind(call: Call, after: nat)

  function Actor(c: Call): InstanceID { if c.EnsureCall? then c.q.id else c.who }

  /** What the call sets out to write. */
  ghost function Plan(digest: Digest, st: Store, e: Event): seq<Action> {
    match e.call
    case EnsureCall(q) => Planned(q, st, e.Blind?)
    case RemoveCall(id) => RemovePlan(digest, id, st)
  }

  /** How many of its writes are made. */
  function Made(plan: seq<Action>, e: Event): (k: nat)
    ensures k <= |plan|
  {
    if !e.Whole? && e.after <= |plan| then e.after else |plan|
  }

  ghost function Writes(digest: Digest, st: Store, e: Event): (r: seq<Action>)
    ensures forall a :: a in r ==> a in Plan(digest, st, e)
  {
    var plan := Plan(digest, st, e);
    plan[..Made(plan, e)]
  }

  ghost function After(digest: Digest, st: Store, e: Event): Store { ApplyAll(st, Writes(digest, st, e)) }

  ghost function Run(digest: Digest, st: Store, events: seq<Event>): Store {
    if events == [] then st else After(digest, Run(digest, st, events[..|events| - 1]), events[|events| - 1])
  }

  /** The router instances of a namespace and the prefixes and CNames they use. */
  datatype World = World(digest: Digest, ids: set<InstanceID>, prefixes: set<string>, cnames: set<string>)

  /** Names in use are distinct across instances, and across prefix and CName routes of one instance. */
  ghost predicate NamesApart(w: World) {
    && (forall id, id', p :: id in w.ids && id' in w.ids && id != id' && p in w.prefixes ==>
         RouteName(w.digest, id, p) != MainName(w.digest, id'))
    && (forall id, id' :: id in w.ids && id' in w.ids && id != id' ==>
         MainName(w.digest, id) != MainName(w.digest, id'))
    && (forall id, id', c :: id in w.ids && id' in w.ids && c in w.cnames ==>
         CNameRouteName(w.digest, id, c) != MainName(w.digest, id'))
    && (forall id, p, c :: id in w.ids && p in w.prefixes && c in w.cnames ==>
         RouteName(w.digest, id, p) != CNameRouteName(w.digest, id, c))
    && (forall id, id', c, c' :: id in w.ids && id' in w.ids && id != id' && c in w.cnames && c' in w.cnames ==>
          SetName(w.digest, id, c) != SetName(w.digest, id', c'))
  }

  /** The CName routes of each instance have distinct names for distinct CNames. */
  ghost predicate CNamesApart(w: World) {
    forall id :: id in w.ids ==> CNamesDistinct(w.digest, id, w.cnames)
  }

  predicate InWorld(w: World, q: Request) {
    q.id in w.ids && q.targets.Keys <= w.prefixes && Wanted(q) <= w.cnames
  }

  ghost predicate Admissible(w: World, c: Call) {
    match c
    case EnsureCall(q) => InWorld(w, q) && q.cfg.digest == w.digest && WellFormed(q)
    case RemoveCall(id) => id in w.ids
  }

  /** No main route carries the labels of another instance, and only names of the world are recorded. */
  ghost predicate Orderly(w: World, st: Store) {
    forall id :: id in w.ids ==> Owned(w, st, id) && RecordedIn(st, w.digest, id) <= w.cnames
  }

  ghost predicate Owned(w: World, st: Store, id: InstanceID) {
    MainName(w.digest, id) in st.routes ==>
      forall id' :: id' in w.ids && id' != id ==> !Labelled(st.routes[MainName(w.digest, id)].labels, id')
  }

  /** Every CName route and ListenerSet is named after a CName its instance has recorded. */
  ghost predicate Tracked(w: World, st: Store) {
    forall id :: id in w.ids ==> Within(st, w.digest, id, RecordedIn(st, w.digest, id))
  }

  ghost predicate AllClosed(w: World, st: Store) {
    forall id :: id in w.ids ==> Closed(st, w.digest, id)
  }

  /** An empty namespace meets every starting condition of the theorems about runs. */
  lemma EmptyStart(w: World)
    ensures var none := Store(map[], map[]); Orderly(w, none) && Tracked(w, none) && AllClosed(w, none)
  {
    hide MainName, Labelled, OfCName, Frozen;
  }

  /** An app and instance whose names fit the limit whole. */
  predicate Short(id: InstanceID) { |id.appName| == 1 && |id.instanceName| <= 4 }

  /** How long the names of a one-letter app are, and where they show it. */
  predicate NamesShow(digest: Digest, id: InstanceID) {
    var n := if id.instanceName == "" then 0 else 1 + |id.instanceName|;
    var main, route, cname, ls :=
      MainName(digest, id), RouteName(digest, id, "api"), CNameRouteName(digest, id, "c"), SetName(digest, id, "c");
    && |id.appName| == 1 && |main| == 13 + n && |route| == 17 + n && |cname| == 21 + n && |ls| > 12
    && RouteName(digest, id, "default") == main
    && main[12] == route[12] == cname[12] == ls[12] == id.appName[0]
  }

  lemma ShortNames(digest: Digest, id: InstanceID)
    requires Short(id)
    ensures NamesShow(digest, id)
  {
  }

  lemma TwoAppsApart(digest: Digest, id: InstanceID, id': InstanceID)
    requires NamesShow(digest, id) && NamesShow(digest, id') && (id.appName == id'.appName ==> id == id')
    ensures CNameRouteName(digest, id, "c") != MainName(digest, id')
    ensures CNameRouteName(digest, id, "c") != RouteName(digest, id, "default")
    ensures CNameRouteName(digest, id, "c") != RouteName(digest, id, "api")
    ensures id.appName != id'.appName ==>
      && RouteName(digest, id, "default") != MainName(digest, id')
         && RouteName(digest, id, "api") != MainName(digest, id')
      && MainName(digest, id) != MainName(digest, id') && SetName(digest, id, "c") != SetName(digest, id', "c")
  {
    hide MainName, RouteName, CNameRouteName, SetName;
    if id.appName[0] == id'.appName[0] { assert id.appName == id'.appName; }
  }

  /** Any apps with one-letter names, each with a prefix and a CName, keep their names apart, whatever the digest. */
  lemma ShortAppsApart(w: World)
    requires forall id :: id in w.ids ==> Short(id)
    requires forall id, id' :: id in w.ids && id' in w.ids && id.appName == id'.appName ==> id == id'
    requires w.prefixes == {"default", "api"} && w.cnames == {"c"}
    ensures NamesApart(w) && CNamesApart(w)
  {
    hide MainName, RouteName, CNameRouteName, SetName, Short;
    forall id, id' | id in w.ids && id' in w.ids
      ensures forall p, c :: p in w.prefixes && c in w.cnames ==>
        && CNameRouteName(w.digest, id, c) != MainName(w.digest, id')
           && RouteName(w.digest, id, p) != CNameRouteName(w.digest, id, c)
        && (id != id' ==>
             RouteName(w.digest, id, p) != MainName(w.digest, id') && MainName(w.digest, id) != MainName(w.digest, id')
                          && SetName(w.digest, id, c) != SetName(w.digest, id', c))
    {
      ShortNames(w.digest, id);
      ShortNames(w.digest, id');
      TwoAppsApart(w.digest, id, id');
    }
  }

  lemma WorldApart(w: World, st: Store, q: Request)
    requires NamesApart(w) && Orderly(w, st) && Admissible(w, EnsureCall(q))
    ensures Apart(q, RecordedIn(st, q.cfg.digest, q.id))
    ensures forall id :: id in w.ids && id != q.id ==>
      && MainName(w.digest, id) !in WantedRoutes(q)
      && MainName(w.digest, id) !in CNameNames(q.cfg.digest, q.id, RecordedIn(st, q.cfg.digest, q.id) + Wanted(q))
      && MainName(w.digest, id) != Main(q)
  {
    hide RouteName, MainName, CNameRouteName, SetName, RecordedIn, Clean, Owned;
  }

  /** A call leaves another instance's main route exactly as it was. */
  lemma OthersMainKept(w: World, st: Store, e: Event, id: InstanceID)
    requires NamesApart(w) && Orderly(w, st) && Admissible(w, e.call) && id in w.ids && id != Actor(e.call)
    ensures var n, st' := MainName(w.digest, id), After(w.digest, st, e);
      (n in st'.routes <==> n in st.routes) && (n in st.routes ==> st'.routes[n] == st.routes[n])
  {
    hide EnsurePlan, RemovePlan, ApplyAll, MainName, Clean, NamesApart, Recorded, Labelled, WantedRoutes, CNameNames;
    var n := MainName(w.digest, id);
    assert Owned(w, st, id);
    if e.call.EnsureCall? {
      var q := e.call.q;
      WorldApart(w, st, q);
      forall a | a in Writes(w.digest, st, e) && RouteAction(a)
        ensures a.name != n
      {
        EnsureTouches(q, st, e.Blind?, a);
      }
    } else {
      RemoveOthersMain(w, e.call.who, id);
      forall a | a in Writes(w.digest, st, e) && RouteAction(a)
        ensures a.name != n
      {
        RemoveActs(w.digest, e.call.who, st, a);
      }
    }
    RouteUntouched(st, Writes(w.digest, st, e), n);
  }

  lemma RemoveOthersMain(w: World, id: InstanceID, id': InstanceID)
    requires NamesApart(w) && id in w.ids && id' in w.ids && id != id'
    ensures MainName(w.digest, id) != MainName(w.digest, id')
  {
    hide MainName, RouteName, CNameRouteName, SetName;
  }

  /**
    A call keeps an instance's CName objects within a list they were within, if it requests none of that instance
    outside it.
   */
  lemma WithinAfter(w: World, st: Store, e: Event, id: InstanceID, cnames: set<string>)
    requires Admissible(w, e.call) && Within(st, w.digest, id, cnames)
    requires e.call.EnsureCall? && id == e.call.q.id ==> Wanted(e.call.q) <= cnames
    ensures Within(After(w.digest, st, e), w.digest, id, cnames)
  {
    hide EnsurePlan, RemovePlan, ApplyAll, Within, Clean, InWorld, Names, Ours;
    forall a | a in Writes(w.digest, st, e) ensures Names(a, w.digest, id, cnames) {
      if e.call.EnsureCall? {
        PlanIsOurs(e.call.q, st, a);
        OursNames(e.call.q, a, id, cnames);
      } else {
        RemoveActs(w.digest, e.call.who, st, a);
        DropNames(a, w.digest, id, cnames);
      }
    }
    WithinKept(st, Writes(w.digest, st, e), w.digest, id, cnames);
  }

  lemma DropNames(a: Action, digest: Digest, id: InstanceID, cnames: set<string>)
    requires a.DropRoute? || a.DropSet?
    ensures Names(a, digest, id, cnames)
  {
  }

  lemma LabelsStep(st: Store, a: Action, n: string)
    requires n in Apply(st, a).routes
    ensures (n in st.routes && Apply(st, a).routes[n].labels == st.routes[n].labels)
         || (a.PutRoute? && a.name == n && a.route.labels == Apply(st, a).routes[n].labels)
  {
    hide Frozen, Recording;
  }

  /** The labels of a route after some writes are the old ones or those of a put to its name. */
  lemma {:induction false} LabelsAfter(st: Store, plan: seq<Action>, n: string)
    requires n in ApplyAll(st, plan).routes
    ensures (n in st.routes && ApplyAll(st, plan).routes[n].labels == st.routes[n].labels)
         || exists a :: a in plan && a.PutRoute? && a.name == n && a.route.labels == ApplyAll(st, plan).routes[n].labels
  {
    hide Apply;
    if plan != [] {
      var init, a := plan[..|plan| - 1], plan[|plan| - 1];
      assert a in plan;
      LabelsStep(ApplyAll(st, init), a, n);
      if n in ApplyAll(st, init).routes { LabelsAfter(st, init, n); }
    }
  }

  /** An instance's own call leaves its main route unclaimed by others. */
  lemma OwnMainOwned(w: World, st: Store, e: Event)
    requires Owned(w, st, Actor(e.call)) && Admissible(w, e.call)
    ensures Owned(w, After(w.digest, st, e), Actor(e.call))
  {
    hide EnsurePlan, RemovePlan, ApplyAll, MainName, Clean, Ours, Labelled;
    var id, n, plan, st' :=
      Actor(e.call), MainName(w.digest, Actor(e.call)), Writes(w.digest, st, e), After(w.digest, st, e);
    if n in st'.routes {
      LabelsAfter(st, plan, n);
      if a :| a in plan && a.PutRoute? && a.name == n && a.route.labels == st'.routes[n].labels {
        assert Labelled(a.route.labels, id) by {
          if e.call.EnsureCall? {
            PlanIsOurs(e.call.q, st, a);
            OursLabelled(e.call.q, a);
          } else {
            RemoveActs(w.digest, id, st, a);
          }
        }
        forall id' | id' != id ensures !Labelled(st'.routes[n].labels, id') {
          if Labelled(st'.routes[n].labels, id') { OneOwner(st'.routes[n].labels, id, id'); }
        }
      }
    }
  }

  lemma OursLabelled(q: Request, a: Action)
    requires Ours(q, a) && a.PutRoute?
    ensures Labelled(a.route.labels, q.id)
  {
  }

  lemma SameRecord(st: Store, st': Store, n: string)
    requires (n in st'.routes <==> n in st.routes) && (n in st.routes ==> st'.routes[n] == st.routes[n])
    ensures Recorded(st', n) == Recorded(st, n)
  {
    hide Split;
  }

  lemma WholeIs(digest: Digest, st: Store, e: Event)
    requires Made(Plan(digest, st, e), e) == |Plan(digest, st, e)|
    ensures e.call.EnsureCall? ==> After(digest, st, e) == ApplyAll(st, Planned(e.call.q, st, e.Blind?))
    ensures e.call.RemoveCall? ==> After(digest, st, e) == Removed(digest, e.call.who, st)
  {
    hide EnsurePlan, RemovePlan, BlindPlan, ApplyAll;
    assert Plan(digest, st, e)[..|Plan(digest, st, e)|] == Plan(digest, st, e);
  }

  lemma RemovedTracks(digest: Digest, id: InstanceID, st: Store)
    ensures RecordedIn(Removed(digest, id, st), digest, id) == {}
    ensures CNameRoutes(Removed(digest, id, st), id) == {} && SetsOf(Removed(digest, id, st), id) == {}
    ensures MainName(digest, id) !in Removed(digest, id, st).routes
  {
    hide Removed, MainName, Labelled;
    RemoveEffect(digest, id, st);
  }

  /** An event changes what is recorded for an instance only if it is the instance's own call. */
  lemma OthersRecordKept(w: World, st: Store, e: Event, id: InstanceID)
    requires NamesApart(w) && Orderly(w, st) && Admissible(w, e.call) && id in w.ids && id != Actor(e.call)
    ensures RecordedIn(After(w.digest, st, e), w.digest, id) == RecordedIn(st, w.digest, id)
    ensures Owned(w, After(w.digest, st, e), id)
  {
    hide After, MainName, NamesApart, Recorded, Labelled, Admissible;
    OthersMainKept(w, st, e, id);
    SameRecord(st, After(w.digest, st, e), MainName(w.digest, id));
    assert Owned(w, st, id);
  }

  /** Whatever writes it made, a call leaves the old record, the requested one, or none. */
  lemma RecordAfter(w: World, st: Store, e: Event)
    requires NamesApart(w) && Orderly(w, st) && Admissible(w, e.call)
    ensures RecordedIn(After(w.digest, st, e), w.digest, Actor(e.call)) <= w.cnames
  {
    hide NamesApart, Recorded, Clean, MainName, Apart, After, Owned, EnsurePlan, BlindPlan, RemovePlan;
    if e.call.EnsureCall? {
      WorldApart(w, st, e.call.q);
      CutRecords(e.call.q, st, e.Blind?, Made(Plan(w.digest, st, e), e));
      AfterIs(w.digest, st, e);
    } else {
      DropsRecordLess(w, st, e);
    }
  }

  lemma DropsRecordLess(w: World, st: Store, e: Event)
    requires e.call.RemoveCall?
    ensures RecordedIn(After(w.digest, st, e), w.digest, e.call.who) <= RecordedIn(st, w.digest, e.call.who)
  {
    hide RemovePlan, ApplyAll, MainName, Split;
    forall a | a in Writes(w.digest, st, e)
      ensures a.DropRoute? || a.DropSet?
    {
      RemoveActs(w.digest, e.call.who, st, a);
    }
    DropsShrink(st, Writes(w.digest, st, e));
  }

  lemma AfterIs(digest: Digest, st: Store, e: Event)
    requires e.call.EnsureCall?
    ensures var plan := Planned(e.call.q, st, e.Blind?); After(digest, st, e) == ApplyAll(st, plan[..Made(plan, e)])
  {
    hide Planned, ApplyAll;
  }

  /** Cut short anywhere, blind or not, an Ensure leaves the old record or the requested one. */
  lemma CutRecords(q: Request, st: Store, blind: bool, k: nat)
    requires WellFormed(q) && Apart(q, RecordedIn(st, q.cfg.digest, q.id)) && k <= |Planned(q, st, blind)|
    ensures var st' := ApplyAll(st, Planned(q, st, blind)[..k]);
      Recorded(st', Main(q)) == Recorded(st, Main(q)) || Recorded(st', Main(q)) == q.o.cnames
  {
    hide EnsurePlan, BlindPlan, SparesRecord, ApplyAll, Clean, Apart, Recorded, MainName, Reconciled;
    var plan := Planned(q, st, blind);
    if k == |plan| {
      assert plan[..k] == plan;
      if blind { BlindEnds(q, st); } else { EnsureRecords(q, st); }
    } else {
      PlanSparesRecord(q, st, blind, k);
      RecordKept(st, plan[..k], Main(q));
    }
  }

  /** Any event keeps the namespace orderly. */
  lemma OrderlyStep(w: World, st: Store, e: Event)
    requires NamesApart(w) && Orderly(w, st) && Admissible(w, e.call)
    ensures Orderly(w, After(w.digest, st, e))
  {
    hide After, MainName, NamesApart, Recorded, Labelled, Owned, Admissible;
    var st' := After(w.digest, st, e);
    forall id | id in w.ids ensures Owned(w, st', id) && RecordedIn(st', w.digest, id) <= w.cnames {
      if id == Actor(e.call) {
        OwnMainOwned(w, st, e);
        RecordAfter(w, st, e);
      } else {
        OthersRecordKept(w, st, e, id);
      }
    }
  }

  lemma {:induction false} RunOrderly(w: World, st: Store, events: seq<Event>)
    requires NamesApart(w) && Orderly(w, st) && forall e :: e in events ==> Admissible(w, e.call)
    ensures Orderly(w, Run(w.digest, st, events))
  {
    hide NamesApart, Orderly, Admissible, After;
    if events != [] {
      var init, e := events[..|events| - 1], events[|events| - 1];
      assert e in events && forall x :: x in init ==> x in events;
      RunOrderly(w, st, init);
      OrderlyStep(w, Run(w.digest, st, init), e);
    }
  }

  // ----- calls that return without an error -----

  /**
    The call returns without an error: a Remove that made all its writes; an Ensure that made all of them,
    all but the record, or, asked for no CNames and unable to read the record, only those of the prefix routes.
   */
  ghost predicate Returns(st: Store, e: Event) {
    match e.call
    case RemoveCall(_) => e.Whole?
    case EnsureCall(q) =>
      || e.Whole?
      || (Asks(q, st) && e.after + 1 >= |Planned(q, st, e.Blind?)|)
      || (e.Cut? && q.o.cnames == [] && e.after == |RoutePlan(q, st)|)
  }

  /** The last write, that of the record, was made. */
  ghost predicate Complete(st: Store, e: Event)
    requires e.call.EnsureCall?
  {
    e.Whole? || e.after >= |Planned(e.call.q, st, e.Blind?)|
  }

  /** The exact condition for a returning call to leave its instance tracked. */
  ghost predicate KeepsTracking(st: Store, e: Event) {
    match e.call
    case RemoveCall(_) => true
    case EnsureCall(q) =>
      if !Complete(st, e) then PutsRecorded(q, st)
      else e.Blind? ==> CNameRoutes(st, q.id) <= CNameNames(q.cfg.digest, q.id, Wanted(q))
  }

  /** However an Ensure of the router ends without an error, it is such an event. */
  lemma EndedReturns(q: Request, st: Store, blind: bool, recorded: bool, done: seq<Action>) returns (e: Event)
    requires WellFormed(q) && Ended(q, st, blind, recorded, done)
    ensures e.call == EnsureCall(q) && e.Blind? == blind && Returns(st, e) && Writes(q.cfg.digest, st, e) == done
  {
    hide RoutePlan, CNamePlan, BlindPlan, EnsurePlan, ApplyAll, Clean, Recorded, MainName;
    var call, plan := EnsureCall(q), Planned(q, st, blind);
    RoutePlanKeepsRecord(q, st);
    StartsWithRoutes(q, st);
    assert plan[..|plan|] == plan;
    if recorded {
      e := if blind then Blind(call, |plan|) else Whole(call);
    } else if !blind && q.o.cnames == [] && done == RoutePlan(q, st) {
      e := Event.Cut(call, |RoutePlan(q, st)|);
    } else {
      e := if blind then Blind(call, |plan| - 1) else Event.Cut(call, |plan| - 1);
    }
  }

  /** And one that stops at an error is a cut or a blind event. */
  lemma StoppedIsEvent(q: Request, st: Store, blind: bool, done: seq<Action>) returns (e: Event)
    requires done <= Planned(q, st, blind)
    ensures e.call == EnsureCall(q) && e.Blind? == blind && Writes(q.cfg.digest, st, e) == done
  {
    hide RoutePlan, CNamePlan, BlindPlan, EnsurePlan;
    e := if blind then Blind(EnsureCall(q), |done|) else Event.Cut(EnsureCall(q), |done|);
  }

  /** What a returning Ensure leaves, by how it ended. */
  lemma EndsOf(digest: Digest, st: Store, e: Event)
    requires e.call.EnsureCall? && Returns(st, e) && WellFormed(e.call.q)
    ensures var q, st' := e.call.q, After(digest, st, e);
      && (Complete(st, e) ==> st' == ApplyAll(st, Planned(q, st, e.Blind?)))
      && (!Complete(st, e) && !(e.Cut? && q.o.cnames == [] && e.after == |RoutePlan(q, st)|) ==>
           st' == Reconciled(q, st, e.Blind?))
      && (!Complete(st, e) && e.Cut? && q.o.cnames == [] && e.after == |RoutePlan(q, st)| ==>
           st' == ApplyAll(st, RoutePlan(q, st)))
  {
    hide RoutePlan, CNamePlan, Planned, ApplyAll, Clean, Recorded, MainName, Reconciled, Asks;
    var q := e.call.q;
    var plan := Planned(q, st, e.Blind?);
    AfterIs(digest, st, e);
    if Complete(st, e) {
      assert plan[..|plan|] == plan;
    } else if e.Cut? && q.o.cnames == [] && e.after == |RoutePlan(q, st)| {
      StartsWithRoutes(q, st);
      assert plan[..e.after] == RoutePlan(q, st);
    } else {
      PlannedEnds(q, st, e.Blind?);
    }
  }

  lemma StartsWithRoutes(q: Request, st: Store)
    ensures RoutePlan(q, st) <= EnsurePlan(q, st) && Planned(q, st, false) == EnsurePlan(q, st)
  {
    hide RoutePlan, CNamePlan, ApplyAll, Recorded, MainName;
  }

  /** The instance's own returning Ensure keeps tracking exactly under its condition. */
  lemma OwnTracking(w: World, st: Store, e: Event)
    requires NamesApart(w) && Orderly(w, st) && Tracked(w, st) && Admissible(w, e.call) && e.call.EnsureCall?
    requires Returns(st, e)
    ensures Tracking(After(w.digest, st, e), w.digest, Actor(e.call)) <==> KeepsTracking(st, e)
  {
    hide After, MainName, NamesApart, Recorded, Labelled, Within, Apart, Clean, Owned, EnsurePlan, BlindPlan, RoutePlan,
         ApplyAll, Reconciled, CNameRoutes, CNameNames, PutsRecorded, Asks;
    var q := e.call.q;
    WorldApart(w, st, q);
    EndsOf(w.digest, st, e);
    assert Tracking(st, w.digest, q.id);
    if !Complete(st, e) {
      LostRecordTracksExactly(q, st, e.Blind?);
      if e.Cut? && q.o.cnames == [] && e.after == |RoutePlan(q, st)| {
        UnaskedKeeps(q, st);
        NothingPut(q, st);
      }
    } else if e.Blind? {
      BlindTracksExactly(q, st);
    } else {
      WithinMore(st, w.digest, q.id, RecordedIn(st, w.digest, q.id), RecordedIn(st, w.digest, q.id) + Wanted(q));
      EnsureExact(q, st);
    }
  }

  lemma NothingPut(q: Request, st: Store)
    requires q.o.cnames == []
    ensures PutsRecorded(q, st)
  {
    hide Issuer, CNameRouteName, SetName, Recorded, MainName, Frozen;
  }

  /** One step of a run of returning calls. */
  lemma TrackedStep(w: World, st: Store, e: Event)
    requires NamesApart(w) && Orderly(w, st) && Tracked(w, st) && Admissible(w, e.call) && Returns(st, e)
    ensures Tracked(w, After(w.digest, st, e)) <==> KeepsTracking(st, e)
  {
    hide After, MainName, NamesApart, Recorded, Labelled, Within, Orderly, Plan, KeepsTracking;
    var st' := After(w.digest, st, e);
    forall id | id in w.ids && id != Actor(e.call) ensures Tracking(st', w.digest, id) {
      OthersRecordKept(w, st, e, id);
      WithinAfter(w, st, e, id, RecordedIn(st, w.digest, id));
    }
    ActorInWorld(w, e.call);
    if e.call.EnsureCall? {
      OwnTracking(w, st, e);
    } else {
      WholeIs(w.digest, st, e);
      RemovedTracks(w.digest, e.call.who, st);
      WithinNone(st', w.digest, e.call.who);
      assert KeepsTracking(st, e) by { RemovesKeep(st, e); }
    }
  }

  lemma RemovesKeep(st: Store, e: Event)
    requires e.call.RemoveCall?
    ensures KeepsTracking(st, e)
  {
  }

  lemma ActorInWorld(w: World, c: Call)
    requires Admissible(w, c)
    ensures Actor(c) in w.ids
  {
    hide Clean;
  }

  /** The state in which event i of a run takes place. */
  ghost function At(digest: Digest, st: Store, events: seq<Event>, i: nat): Store
    requires i <= |events|
  {
    Run(digest, st, events[..i])
  }

  /** Every event is an admissible call that returns without an error. */
  ghost predicate AllReturn(w: World, st: Store, events: seq<Event>) {
    forall i :: 0 <= i < |events| ==> Admissible(w, events[i].call) && Returns(At(w.digest, st, events, i), events[i])
  }

  lemma NextAt(digest: Digest, st: Store, events: seq<Event>, i: nat)
    requires i < |events|
    ensures At(digest, st, events, i + 1) == After(digest, At(digest, st, events, i), events[i])
  {
    hide After;
    assert events[..i + 1][..i] == events[..i];
  }

  lemma OrderlyAt(w: World, st: Store, events: seq<Event>, i: nat)
    requires NamesApart(w) && Orderly(w, st) && AllReturn(w, st, events) && i <= |events|
    ensures Orderly(w, At(w.digest, st, events, i))
  {
    hide NamesApart, Orderly, Admissible, Returns;
    forall e | e in events[..i] ensures Admissible(w, e.call) { var j :| 0 <= j < i && events[j] == e; }
    RunOrderly(w, st, events[..i]);
  }

  lemma WithinMore(st: Store, digest: Digest, id: InstanceID, a: set<string>, b: set<string>)
    requires a <= b && Within(st, digest, id, a)
    ensures Within(st, digest, id, b)
  {
    hide CNameRouteName, SetName, OfCName, Labelled;
    assert CNameNames(digest, id, a) <= CNameNames(digest, id, b);
    assert SetNames(digest, id, a) <= SetNames(digest, id, b);
  }

  lemma WithinNone(st: Store, digest: Digest, id: InstanceID)
    requires CNameRoutes(st, id) == {} && SetsOf(st, id) == {}
    ensures Within(st, digest, id, {})
  {
  }

  /**
    Tracking: over any run of calls by any instances that return without an error, as long as each meets its
    condition, every CName route and ListenerSet is named after a CName recorded on its instance's main
    route. A call that swallows nothing meets it always.
   */
  lemma {:induction false} RunTracked(w: World, st: Store, events: seq<Event>, n: nat)
    requires NamesApart(w) && Orderly(w, st) && Tracked(w, st) && AllReturn(w, st, events) && n <= |events|
    requires forall i :: 0 <= i < n ==> KeepsTracking(At(w.digest, st, events, i), events[i])
    ensures Tracked(w, At(w.digest, st, events, n))
  {
    hide NamesApart, Orderly, Tracked, Admissible, Returns, KeepsTracking, After;
    if n == 0 {
      assert events[..0] == [];
    } else {
      RunTracked(w, st, events, n - 1);
      OrderlyAt(w, st, events, n - 1);
      NextAt(w.digest, st, events, n - 1);
      TrackedStep(w, At(w.digest, st, events, n - 1), events[n - 1]);
    }
  }

  /** And the conditions are exact: the run stays tracked throughout if and only if each call meets its own. */
  lemma RunTrackedExactly(w: World, st: Store, events: seq<Event>)
    requires NamesApart(w) && Orderly(w, st) && Tracked(w, st) && AllReturn(w, st, events)
    ensures (forall i :: 0 <= i <= |events| ==> Tracked(w, At(w.digest, st, events, i)))
       <==> (forall i :: 0 <= i < |events| ==> KeepsTracking(At(w.digest, st, events, i), events[i]))
  {
    hide NamesApart, Orderly, Tracked, Admissible, Returns, KeepsTracking, After, At;
    if forall i :: 0 <= i < |events| ==> KeepsTracking(At(w.digest, st, events, i), events[i]) {
      forall i | 0 <= i <= |events| ensures Tracked(w, At(w.digest, st, events, i)) { RunTracked(w, st, events, i); }
    }
    if forall i :: 0 <= i <= |events| ==> Tracked(w, At(w.digest, st, events, i)) {
      forall i | 0 <= i < |events| ensures KeepsTracking(At(w.digest, st, events, i), events[i]) {
        OrderlyAt(w, st, events, i);
        NextAt(w.digest, st, events, i);
        TrackedStep(w, At(w.digest, st, events, i), events[i]);
      }
    }
  }
}

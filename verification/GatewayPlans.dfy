/** How the writes of a Gateway plan act on the store: the lemmas the main results are built from. */
module GatewayPlans {
  import opened Router
  import opened Strings
  import opened Resources
  import opened Gateway

  // ----- plans in general -----

  lemma {:induction false} ApplyConcat(st: Store, p: seq<Action>, q: seq<Action>)
    ensures ApplyAll(st, p + q) == ApplyAll(ApplyAll(st, p), q)
  {
    if q == [] {
      assert p + q == p;
    } else {
      assert (p + q)[..|p + q| - 1] == p + q[..|q| - 1];
      ApplyConcat(st, p, q[..|q| - 1]);
    }
  }

  /** The names of routes an action may write. */
  predicate RouteAction(a: Action) { a.PutRoute? || a.DropRoute? || a.WriteRecord? }

  predicate SetAction(a: Action) { a.PutSet? || a.DropSet? }

  /** A route no action names is left as it was. */
  lemma {:induction false} RouteUntouched(st: Store, plan: seq<Action>, n: string)
    requires forall a :: a in plan && RouteAction(a) ==> a.name != n
    ensures n in ApplyAll(st, plan).routes <==> n in st.routes
    ensures n in st.routes ==> ApplyAll(st, plan).routes[n] == st.routes[n]
  {
    if plan != [] { RouteUntouched(st, plan[..|plan| - 1], n); }
  }

  lemma {:induction false} SetUntouched(st: Store, plan: seq<Action>, n: string)
    requires forall a :: a in plan && SetAction(a) ==> a.name != n
    ensures n in ApplyAll(st, plan).sets <==> n in st.sets
    ensures n in st.sets ==> ApplyAll(st, plan).sets[n] == st.sets[n]
  {
    if plan != [] { SetUntouched(st, plan[..|plan| - 1], n); }
  }

  /** A set that some action puts and no action drops is there afterwards, with what a put gave it. */
  lemma {:induction false} SetAfterPuts(st: Store, plan: seq<Action>, n: string)
    requires DropSet(n) !in plan
    ensures n in st.sets ==> n in ApplyAll(st, plan).sets
    ensures forall ls :: PutSet(n, ls) in plan ==> n in ApplyAll(st, plan).sets
    ensures n in ApplyAll(st, plan).sets ==>
      (n in st.sets && ApplyAll(st, plan).sets[n] == st.sets[n] && forall ls :: PutSet(n, ls) !in plan)
      || PutSet(n, ApplyAll(st, plan).sets[n]) in plan
  {
    if plan != [] {
      var init := plan[..|plan| - 1];
      assert plan == init + [plan[|plan| - 1]];
      SetAfterPuts(st, init, n);
    }
  }

  /** A route that is there or is put, and is not dropped, is there in the end. */
  lemma {:induction false} Present(st: Store, plan: seq<Action>, n: string)
    requires DropRoute(n) !in plan
    ensures n in st.routes ==> n in ApplyAll(st, plan).routes
    ensures forall r :: PutRoute(n, r) in plan ==> n in ApplyAll(st, plan).routes
  {
    hide Frozen, Recording, Merged;
    if plan != [] {
      assert plan == plan[..|plan| - 1] + [plan[|plan| - 1]];
      Present(st, plan[..|plan| - 1], n);
    }
  }

  /** Everything but annotations and status. */
  predicate SameSpec(r: HTTPRoute, r': HTTPRoute) {
    r.labels == r'.labels && r.parentRefs == r'.parentRefs && r.hostnames == r'.hostnames && r.rules == r'.rules
  }

  /** r' has the spec of r and all its annotations. */
  predicate Carries(r': HTTPRoute, r: HTTPRoute) {
    SameSpec(r', r) && forall k :: k in r.annotations ==> k in r'.annotations && r'.annotations[k] == r.annotations[k]
  }

  /** Nothing but the CName record may differ. */
  predicate SameButRecord(r: HTTPRoute, r': HTTPRoute) {
    r' == r.(annotations := r'.annotations)
      && r'.annotations - {CNAMES_ANNOTATION} == r.annotations - {CNAMES_ANNOTATION}
  }

  lemma SameButRecordFrozen(r: HTTPRoute, r': HTTPRoute)
    requires SameButRecord(r, r')
    ensures Frozen(r) <==> Frozen(r')
    ensures forall x :: Carries(r, x) && CNAMES_ANNOTATION !in x.annotations ==> Carries(r', x)
  {
    KeysDiffer();
    assert forall k :: k != CNAMES_ANNOTATION ==>
      (k in r.annotations <==> k in r.annotations - {CNAMES_ANNOTATION})
        && (k in r'.annotations <==> k in r'.annotations - {CNAMES_ANNOTATION});
    assert forall k :: k in r.annotations && k != CNAMES_ANNOTATION ==>
      r.annotations[k] == (r.annotations - {CNAMES_ANNOTATION})[k];
    assert forall k :: k in r'.annotations && k != CNAMES_ANNOTATION ==>
      r'.annotations[k] == (r'.annotations - {CNAMES_ANNOTATION})[k];
  }

  lemma SameButRecordRefl(r: HTTPRoute)
    ensures SameButRecord(r, r)
  {
  }

  lemma SameButRecordLabels(r: HTTPRoute, r': HTTPRoute)
    requires SameButRecord(r, r')
    ensures r.labels == r'.labels && r.parentRefs == r'.parentRefs && SameSpec(r, r')
  {
  }

  lemma SameButRecordTrans(a: HTTPRoute, b: HTTPRoute, c: HTTPRoute)
    requires SameButRecord(a, b) && SameButRecord(b, c)
    ensures SameButRecord(a, c)
  {
  }

  /** A route that is only recorded on, or put while frozen, keeps everything but the record. */
  lemma {:induction false} OnlyRecorded(st: Store, plan: seq<Action>, n: string)
    requires n in st.routes
    requires forall a :: a in plan && RouteAction(a) && a.name == n ==>
      a.WriteRecord? || (a.PutRoute? && Frozen(st.routes[n]))
    ensures n in ApplyAll(st, plan).routes && SameButRecord(st.routes[n], ApplyAll(st, plan).routes[n])
  {
    hide Frozen;
    if plan != [] {
      var init, a := plan[..|plan| - 1], plan[|plan| - 1];
      OnlyRecorded(st, init, n);
      var r := ApplyAll(st, init).routes[n];
      SameButRecordFrozen(st.routes[n], r);
      if a.WriteRecord? && a.name == n {
        assert SameButRecord(r, Apply(ApplyAll(st, init), a).routes[n]) by { RecordingSpares(r.annotations, a.cnames); }
        SameButRecordTrans(st.routes[n], r, Apply(ApplyAll(st, init), a).routes[n]);
      }
    }
  }

  lemma RecordingSpares(annotations: map<string, string>, cnames: seq<string>)
    ensures Recording(annotations, cnames) - {CNAMES_ANNOTATION} == annotations - {CNAMES_ANNOTATION}
    ensures Recording(Recording(annotations, cnames), cnames) == Recording(annotations, cnames)
  {
    hide Join;
  }

  /** When only CName routes are put, a route left without the CName label was there and keeps all but the record. */
  lemma {:induction false} PlainSurvives(st: Store, plan: seq<Action>, n: string)
    requires forall a :: a in plan && a.PutRoute? ==> CNAME_LABEL in a.route.labels
    requires n in ApplyAll(st, plan).routes && CNAME_LABEL !in ApplyAll(st, plan).routes[n].labels
    ensures n in st.routes && SameButRecord(st.routes[n], ApplyAll(st, plan).routes[n])
  {
    hide Frozen;
    if plan != [] {
      var init, a := plan[..|plan| - 1], plan[|plan| - 1];
      var s, s' := ApplyAll(st, init), ApplyAll(st, plan);
      if a.WriteRecord? && a.name == n {
        RecordingSpares(s.routes[n].annotations, a.cnames);
        PlainSurvives(st, init, n);
        SameButRecordTrans(st.routes[n], s.routes[n], s'.routes[n]);
      } else {
        assert n in s.routes && s'.routes[n] == s.routes[n];
        PlainSurvives(st, init, n);
      }
    }
  }

  /** Writes that change nothing, one by one, change nothing together. */
  lemma {:induction false} NoOps(st: Store, plan: seq<Action>)
    requires forall a :: a in plan ==> Apply(st, a) == st
    ensures ApplyAll(st, plan) == st
  {
    hide Apply;
    if plan != [] { NoOps(st, plan[..|plan| - 1]); }
  }

  /** After a list of puts a route is as before, or carries the spec of a put to its name. */
  lemma {:induction false} RouteAfterPuts(st: Store, plan: seq<Action>, n: string)
    requires forall a :: a in plan ==> a.PutRoute? || a.PutSet?
    ensures n in ApplyAll(st, plan).routes ==> var r' := ApplyAll(st, plan).routes[n];
      (n in st.routes && r' == st.routes[n] && (Frozen(r') || forall r :: PutRoute(n, r) !in plan))
      || exists r :: PutRoute(n, r) in plan && Carries(r', r)
  {
    hide Frozen, Carries;
    if plan != [] {
      var init, a := plan[..|plan| - 1], plan[|plan| - 1];
      assert plan == init + [a];
      RouteAfterPuts(st, init, n);
      var s, s' := ApplyAll(st, init), ApplyAll(st, plan);
      if a.PutRoute? && a.name == n && (n !in s.routes || !Frozen(s.routes[n])) {
        assert PutRoute(n, a.route) in plan;
        assert Carries(s'.routes[n], a.route) by { PutCarries(s, a); }
      } else if n in s'.routes {
        assert s'.routes[n] == s.routes[n];
        if r :| PutRoute(n, r) in init && Carries(s.routes[n], r) {
          assert PutRoute(n, r) in plan;
        }
      }
    }
  }

  lemma PutCarries(st: Store, a: Action)
    requires a.PutRoute? && (a.name !in st.routes || !Frozen(st.routes[a.name]))
    ensures a.name in Apply(st, a).routes && Carries(Apply(st, a).routes[a.name], a.route)
  {
  }

  /** Putting a route that the stored one already carries changes nothing. */
  lemma CarriedIsNoOp(st: Store, n: string, r: HTTPRoute)
    requires n in st.routes && (Frozen(st.routes[n]) || Carries(st.routes[n], r))
    ensures Apply(st, PutRoute(n, r)) == st
  {
    hide Frozen;
    if !Frozen(st.routes[n]) {
      var e := st.routes[n];
      assert e.annotations + r.annotations == e.annotations;
      assert Merged(r, e) == e;
      assert st.routes[n := e] == st.routes;
    }
  }

  lemma {:induction false} DropRoutesAre(names: seq<string>, doomed: set<string>, a: Action)
    ensures a in DropRoutes(names, doomed) <==> a.DropRoute? && a.name in names && a.name in doomed
  {
    if names != [] {
      assert names == names[..|names| - 1] + [names[|names| - 1]];
      DropRoutesAre(names[..|names| - 1], doomed, a);
    }
  }

  lemma {:induction false} DropSetsAre(names: seq<string>, doomed: set<string>, a: Action)
    ensures a in DropSets(names, doomed) <==> a.DropSet? && a.name in names && a.name in doomed
  {
    if names != [] {
      assert names == names[..|names| - 1] + [names[|names| - 1]];
      DropSetsAre(names[..|names| - 1], doomed, a);
    }
  }

  lemma ElementsSnoc(names: seq<string>)
    requires names != []
    ensures Elements(names) == Elements(names[..|names| - 1]) + {names[|names| - 1]}
  {
    assert names == names[..|names| - 1] + [names[|names| - 1]];
  }

  lemma MinusTwice<T>(m: map<string, T>, a: set<string>, b: set<string>)
    ensures m - a - b == m - (a + b)
  {
  }

  lemma DoomedSnoc(names: seq<string>, doomed: set<string>)
    requires names != []
    ensures Elements(names) * doomed
         == Elements(names[..|names| - 1]) * doomed
           + (if names[|names| - 1] in doomed then {names[|names| - 1]} else {})
  {
    ElementsSnoc(names);
  }

  lemma {:induction false} DropRoutesEffect(st: Store, names: seq<string>, doomed: set<string>)
    ensures ApplyAll(st, DropRoutes(names, doomed)) == st.(routes := st.routes - (Elements(names) * doomed))
  {
    if names == [] {
      assert Elements(names) * doomed == {};
    } else {
      var init, n := names[..|names| - 1], names[|names| - 1];
      DropRoutesEffect(st, init, doomed);
      DoomedSnoc(names, doomed);
      hide Elements;
      var last := if n in doomed then [DropRoute(n)] else [];
      ApplyConcat(st, DropRoutes(init, doomed), last);
      MinusTwice(st.routes, Elements(init) * doomed, if n in doomed then {n} else {});
      assert ApplyAll(ApplyAll(st, DropRoutes(init, doomed)), last).routes
          == st.routes - (Elements(init) * doomed) - (if n in doomed then {n} else {});
    }
  }

  lemma {:induction false} DropSetsEffect(st: Store, names: seq<string>, doomed: set<string>)
    ensures ApplyAll(st, DropSets(names, doomed)) == st.(sets := st.sets - (Elements(names) * doomed))
  {
    if names == [] {
      assert Elements(names) * doomed == {};
    } else {
      var init, n := names[..|names| - 1], names[|names| - 1];
      DropSetsEffect(st, init, doomed);
      DoomedSnoc(names, doomed);
      hide Elements;
      var last := if n in doomed then [DropSet(n)] else [];
      ApplyConcat(st, DropSets(init, doomed), last);
      MinusTwice(st.sets, Elements(init) * doomed, if n in doomed then {n} else {});
      assert ApplyAll(ApplyAll(st, DropSets(init, doomed)), last).sets
          == st.sets - (Elements(init) * doomed) - (if n in doomed then {n} else {});
    }
  }

  /** The names of the CName routes of some CNames. */
  function CNameNames(digest: Digest, id: InstanceID, cnames: set<string>): set<string> {
    set c | c in cnames :: CNameRouteName(digest, id, c)
  }

  function SetNames(digest: Digest, id: InstanceID, cnames: set<string>): set<string> {
    set c | c in cnames :: SetName(digest, id, c)
  }

  lemma CNameNamesSnoc(digest: Digest, id: InstanceID, cnames: seq<string>)
    requires cnames != []
    ensures CNameNames(digest, id, Elements(cnames))
         == CNameNames(digest, id, Elements(cnames[..|cnames| - 1]))
           + {CNameRouteName(digest, id, cnames[|cnames| - 1])}
  {
    hide CNameRouteName;
    ElementsSnoc(cnames);
  }

  lemma {:induction false} CNameDropsEffect(q: Request, st: Store, cnames: seq<string>)
    ensures ApplyAll(st, CNameDrops(q, cnames))
        == st.(routes := st.routes - CNameNames(q.cfg.digest, q.id, Elements(cnames)))
  {
    hide CNameRouteName;
    if cnames == [] {
      assert CNameDrops(q, cnames) == [];
    } else {
      var init := cnames[..|cnames| - 1];
      CNameDropsEffect(q, st, init);
      CNameNamesSnoc(q.cfg.digest, q.id, cnames);
      hide CNameNames;
      assert CNameDrops(q, cnames)[..|cnames| - 1] == CNameDrops(q, init);
      assert ApplyAll(st, CNameDrops(q, cnames)).routes == st.routes - CNameNames(q.cfg.digest, q.id, Elements(cnames));
    }
  }

  /** What the CName puts are made of. */
  lemma {:induction false} CNamePutsAre(q: Request, cnames: seq<string>, a: Action)
    ensures a in CNamePuts(q, cnames) <==> exists c :: c in cnames && a in CNamePut(q, c)
  {
    if cnames != [] {
      var init, c := cnames[..|cnames| - 1], cnames[|cnames| - 1];
      assert cnames == init + [c];
      CNamePutsAre(q, init, a);
    }
  }

  // ----- labels -----

  lemma KeysDiffer()
    ensures |{APP_LABEL, TEAM_LABEL, INSTANCE_LABEL, CNAME_LABEL, HTTP_ONLY_LABEL, CERT_ISSUER_LABEL,
              BASE_NAMESPACE_LABEL, BASE_NAME_LABEL}| == 8
    ensures forall k :: k in {APP_LABEL, TEAM_LABEL, INSTANCE_LABEL, CNAME_LABEL, HTTP_ONLY_LABEL} ==>
      !HasPrefix(k, CUSTOM_TAG_PREFIX)
    ensures FREEZE_ANNOTATION != CNAMES_ANNOTATION
  {
    assert |APP_LABEL| == |TEAM_LABEL| == 17 && APP_LABEL[13] == 'n' && TEAM_LABEL[13] == 't';
    assert |INSTANCE_LABEL| == |CNAME_LABEL| == 24 && INSTANCE_LABEL[17] == 'n' && CNAME_LABEL[17] == 's';
    assert |HTTP_ONLY_LABEL| == 25 && |CERT_ISSUER_LABEL| == 27 && |BASE_NAMESPACE_LABEL| == 38;
    assert |BASE_NAME_LABEL| == 33;
    assert CUSTOM_TAG_PREFIX[0] == 't' && CUSTOM_TAG_PREFIX[9] == 'c' && APP_LABEL[9] == TEAM_LABEL[9] == 'a';
    assert FREEZE_ANNOTATION[16] == 'f' && CNAMES_ANNOTATION[16] == 'c';
  }

  /** The configured labels leave the router's selector labels alone. */
  predicate LabelsFree(cfg: Config) {
    INSTANCE_LABEL !in cfg.labels && CNAME_LABEL !in cfg.labels && HTTP_ONLY_LABEL !in cfg.labels
  }

  /** What the selectors see of the labels a router writes. */
  lemma LabelsShow(cfg: Config, base: map<string, string>, id: InstanceID, team: string, tags: seq<string>)
    requires LabelsFree(cfg) && INSTANCE_LABEL in base && base[INSTANCE_LABEL] == id.instanceName
    ensures var l := Labels(cfg, base, id, team, tags);
      && Labelled(l, id)
      && (CNAME_LABEL in l <==> CNAME_LABEL in base) && (CNAME_LABEL in base ==> l[CNAME_LABEL] == base[CNAME_LABEL])
      && (HTTP_ONLY_LABEL in base ==> HTTP_ONLY_LABEL in l && l[HTTP_ONLY_LABEL] == base[HTTP_ONLY_LABEL])
  {
    KeysDiffer();
  }

  lemma OneOwner(labels: map<string, string>, id: InstanceID, id': InstanceID)
    requires Labelled(labels, id) && Labelled(labels, id')
    ensures id == id'
  {
  }
}

/**
  Runs of completed Ingress calls by several router instances, the routing table, and where a retry does not recover.
 */
module IngressRuns {
  import opened Router
  import opened Strings
  import opened Resources
  import opened Ingresses
  import opened IngressMerge
  import opened IngressFacts

  datatype Call = EnsureCall(q: Request) | RemoveCall(who: InstanceID)

  /** The instances of a namespace, and the CNames each of them uses. */
  datatype World = World(digest: Digest, cnames: map<InstanceID, set<string>>)

  function NamesIn(w: World, id: InstanceID): set<string> {
    if id in w.cnames then set c | c in w.cnames[id] :: IngressCName(w.digest, id, c) else {}
  }

  /**
    An instance's main Ingress and CName Ingresses share no name with those of another instance, and none of
    them has the name of the empty CName, which every instance reads from a missing record and may delete.
    Instances that differ in the app only share that name.
   */
  ghost predicate NamesApart(w: World) {
    && (forall id, id' :: id in w.cnames && id' in w.cnames && id != id' ==>
         IngressName(w.digest, id) != IngressName(w.digest, id'))
    && (forall id, id' :: id in w.cnames && id' in w.cnames ==> IngressName(w.digest, id) !in NamesIn(w, id'))
    && (forall id, id' :: id in w.cnames && id' in w.cnames && id != id' ==> NamesIn(w, id) !! NamesIn(w, id'))
    && (forall id, id' :: id in w.cnames && id' in w.cnames ==>
         NoName(w, id) != IngressName(w.digest, id') && NoName(w, id) !in NamesIn(w, id'))
  }

  /** The Ingress name of the empty CName. */
  function NoName(w: World, id: InstanceID): string { IngressCName(w.digest, id, "") }

  function Actor(c: Call): InstanceID { if c.EnsureCall? then c.q.id else c.who }

  ghost function After(w: World, st: Store, c: Call): Store {
    match c
    case EnsureCall(q) => Ensured(q, st)
    case RemoveCall(id) => Removed(w.digest, id, st)
  }

  ghost function Run(w: World, st: Store, calls: seq<Call>): Store {
    if calls == [] then st else After(w, Run(w, st, calls[..|calls| - 1]), calls[|calls| - 1])
  }

  /** The names recorded on an instance's main Ingress; a missing record reads as the empty name. */
  function RecordedIn(w: World, st: Store, id: InstanceID): set<string> {
    var n := IngressName(w.digest, id);
    if n in st.ingresses then Elements(RecordOf(st.ingresses[n])) else {}
  }

  /** Requests of a world: free annotations, a recordable list of the instance's own CNames, distinct names. */
  ghost predicate Admissible(w: World, c: Call) {
    match c
    case EnsureCall(q) =>
      && q.cfg.digest == w.digest && q.id in w.cnames
      && Wanted(q) <= w.cnames[q.id] && Free(q.o.cnames, ',')
      && q.order != [] && AnnotationsFree(q) && CNamesDistinct(q, w.cnames[q.id])
    case RemoveCall(id) => id in w.cnames
  }

  /** What an instance's main Ingress owns is named after recorded CNames, and those are the instance's own. */
  ghost predicate Exact(w: World, st: Store, id: InstanceID) {
    var n := IngressName(w.digest, id);
    n in st.ingresses && id in w.cnames ==>
      && RecordedIn(w, st, id) <= w.cnames[id] + {""}
      && st.ingresses[n].owner.ServiceOwner?
      && Owned(st, st.ingresses[n].uid) <= set c | c in RecordedIn(w, st, id) * w.cnames[id] ::
         IngressCName(w.digest, id, c)
  }

  ghost predicate AllExact(w: World, st: Store) {
    UidsSound(st) && forall id :: id in w.cnames ==> Exact(w, st, id)
  }

  /** A namespace without Ingresses meets the starting condition of the theorems about runs. */
  lemma EmptyStart(w: World, st: Store)
    requires st.ingresses == map[]
    ensures AllExact(w, st)
  {
    hide IngressName;
  }

  // ----- a world of many apps -----

  /** How long the names of a one-letter app and of a one-letter CName are, and where they show it. */
  predicate NamesShow(digest: Digest, id: InstanceID, c: string) {
    var n := if id.instanceName == "" then 0 else 1 + |id.instanceName|;
    var main, cname, none := IngressName(digest, id), IngressCName(digest, id, c), IngressCName(digest, id, "");
    && |id.appName| == 1 && |c| == 1 && |main| == 27 + n && |cname| == 25 + n && |none| == 24 + n
    && main[18] == id.appName[0] && cname[24] == c[0]
  }

  lemma ShortNames(digest: Digest, id: InstanceID, c: string)
    requires |id.appName| == 1 && |id.instanceName| <= 4 && |c| == 1
    ensures NamesShow(digest, id, c)
  {
    var main := "kubernetes-router-" + id.appName + "-ingress";
    assert main[18] == id.appName[0] && |main| == 27;
    var cname := "kubernetes-router-cname-" + c;
    assert cname[24] == c[0] && |cname| == 25;
    assert |"kubernetes-router-cname-" + ""| == 24;
  }

  /** The world of any one-letter apps of one instance name, each with the CName called like the app. */
  predicate OneLetterApps(w: World, instance: string) {
    && |instance| <= 4
    && forall id :: id in w.cnames ==> id.instanceName == instance && |id.appName| == 1 && w.cnames[id] == {id.appName}
  }

  /** Apps that share their instance name keep their names apart, whatever the digest. */
  lemma SameInstanceApart(w: World, instance: string)
    requires OneLetterApps(w, instance)
    ensures NamesApart(w)
  {
    hide IngressName, IngressCName;
    forall id | id in w.cnames
      ensures NamesShow(w.digest, id, id.appName) && NamesIn(w, id) == {IngressCName(w.digest, id, id.appName)}
    {
      ShortNames(w.digest, id, id.appName);
    }
    forall id, id' | id in w.cnames && id' in w.cnames && id.appName[0] == id'.appName[0] ensures id == id' {
      assert id.appName == id'.appName;
    }
  }

  /** A request with an empty configuration for one backend and one CName. */
  function BareRequest(digest: Digest, id: InstanceID, cname: string): Request {
    var o := Opts("", "", "", "", "", "", "", map[], [], false, false, false, false, "", "");
    Request(
      Config("", "", "", false, map[], map[], map[], digest, _ => true, _ => UnknownIssuer),
      id, EnsureOpts(o, [cname], "", [], map[], []),
      map["default" := BackendTarget("", "")], map[], ["default"])
  }

  /** In such a world every app can call Ensure: the theorems about runs are not about a single app. */
  lemma EveryAppEnsures(w: World, instance: string, id: InstanceID)
    requires OneLetterApps(w, instance) && id in w.cnames && ',' !in id.appName
    ensures Admissible(w, EnsureCall(BareRequest(w.digest, id, id.appName)))
  {
    hide IngressCName, FREEZE_ANNOTATION, CNAMES_ANNOTATION;
  }

  /** For one, two apps without an instance name that both call Ensure. */
  lemma TwoApps(digest: Digest) returns (w: World, q: Request, q': Request)
    ensures NamesApart(w) && Admissible(w, EnsureCall(q)) && Admissible(w, EnsureCall(q'))
    ensures q.id != q'.id && q.id.instanceName == q'.id.instanceName == ""
  {
    hide NamesApart, Admissible;
    var a, b := InstanceID("", "a"), InstanceID("", "b");
    w := World(digest, map[a := {"a"}, b := {"b"}]);
    q, q' := BareRequest(digest, a, "a"), BareRequest(digest, b, "b");
    SameInstanceApart(w, "");
    EveryAppEnsures(w, "", a);
    EveryAppEnsures(w, "", b);
  }

  lemma WorldFits(w: World, st: Store, q: Request)
    requires NamesApart(w) && Admissible(w, EnsureCall(q)) && Exact(w, st, q.id)
    ensures WellFormed(q, Elements(Existing(q, st)))
    ensures Tracked(q, st)
    ensures CNameNames(q, Wanted(q) + Elements(Existing(q, st))) <= NamesIn(w, q.id) + {NoName(w, q.id)}
  {
    hide IngressName, IngressCName, AnnotationsFree, RecordOf;
    assert Wanted(q) + Elements(Existing(q, st)) <= w.cnames[q.id] + {""};
    assert forall c :: c in w.cnames[q.id] ==> IngressCName(w.digest, q.id, c) in NamesIn(w, q.id);
    assert forall c :: c in w.cnames[q.id] + {""} ==>
      c in w.cnames[q.id] || IngressCName(w.digest, q.id, c) == NoName(w, q.id);
  }

  // ----- UIDs -----

  lemma UidsApply(q: Request, st: Store, a: Action)
    requires UidsSound(st)
    requires a.PutIngress? && a.desired.owner.IngressOwner? ==> a.desired.owner.uid < st.nextUid
    ensures var st' := Apply(q.cfg.digest, q.id, st, a); UidsSound(st') && st'.nextUid >= st.nextUid
  {
    hide Frozen, Changed, Fill;
  }

  lemma {:induction false} UidsKept(q: Request, st: Store, plan: seq<Action>)
    requires UidsSound(st)
    requires forall a :: a in plan && a.PutIngress? && a.desired.owner.IngressOwner? ==>
      a.desired.owner.uid < st.nextUid
    ensures UidsSound(Ingresses.After(q, st, plan)) && Ingresses.After(q, st, plan).nextUid >= st.nextUid
  {
    hide UidsSound, Apply;
    if plan != [] {
      assert plan[|plan| - 1] in plan;
      UidsKept(q, st, plan[..|plan| - 1]);
      UidsApply(q, Ingresses.After(q, st, plan[..|plan| - 1]), plan[|plan| - 1]);
    }
  }

  lemma EnsureUids(q: Request, st: Store)
    requires UidsSound(st) && WellFormed(q, Elements(Existing(q, st)))
    ensures UidsSound(Ensured(q, st))
  {
    hide MainIngress, CNameIngress, CNamePlan, Drops, IngressName, IngressCName, ApplyAll, UidsSound, Frozen, Without,
         RecordOf, CNamesDistinct;
    if Main(q) in st.ingresses && Frozen(st.ingresses[Main(q)]) {
      FrozenMainStops(q, st);
    } else {
      var s := MainPut(q, st);
      MainShows(q);
      OneStep(q, st, PutIngress(Main(q), MainIngress(q)));
      UidsApply(q, st, PutIngress(Main(q), MainIngress(q)));
      MainUidGiven(q, s);
      EnsureParts(q, st);
      var rest := CNamePlan(q, s, q.o.cnames, MainUid(q, s)) + Drops(q, Without(Existing(q, st), q.o.cnames));
      forall a | a in rest && a.PutIngress? && a.desired.owner.IngressOwner? ensures a.desired.owner.uid < s.nextUid {
        if a in CNamePlan(q, s, q.o.cnames, MainUid(q, s)) {
          CNamePlanActs(q, s, q.o.cnames, MainUid(q, s), a);
          var c :| c in q.o.cnames
            && a == PutIngress(IngressCName(q.cfg.digest, q.id, c), CNameIngress(q, c, MainUid(q, s)));
          CNameShows(q, c, MainUid(q, s));
        } else {
          DropsAre(q, Without(Existing(q, st), q.o.cnames), a);
        }
      }
      UidsKept(q, s, rest);
      ApplyConcat(q, st, [PutIngress(Main(q), MainIngress(q))], rest);
      assert EnsurePlan(q, st) == [PutIngress(Main(q), MainIngress(q))] + rest;
    }
  }

  lemma MainUidGiven(q: Request, s: Store)
    requires UidsSound(s) && Main(q) in s.ingresses
    ensures MainUid(q, s) < s.nextUid
  {
    hide IngressName;
  }

  lemma DropsAre(q: Request, cnames: seq<string>, a: Action)
    requires a in Drops(q, cnames)
    ensures a.DropIngress?
  {
    hide IngressCName;
  }

  lemma RemoveUids(digest: Digest, id: InstanceID, st: Store)
    requires UidsSound(st)
    ensures UidsSound(Removed(digest, id, st))
  {
    hide IngressName;
  }

  // ----- steps -----

  lemma OwnStep(w: World, st: Store, call: Call)
    requires NamesApart(w) && AllExact(w, st) && Admissible(w, call)
    ensures Exact(w, After(w, st, call), Actor(call)) && UidsSound(After(w, st, call))
  {
    hide NamesApart, UidsSound, Ensured, Removed, IngressName, IngressCName, AnnotationsFree, CNamesDistinct, Frozen,
         Stored, RecordOf;
    if call.EnsureCall? {
      var q := call.q;
      WorldFits(w, st, q);
      EnsureUids(q, st);
      if Main(q) in st.ingresses && Frozen(st.ingresses[Main(q)]) {
        FrozenMainStops(q, st);
      } else {
        EnsureMain(q, st);
        EnsureExact(q, st);
        RecordedExactly(w, st, q);
      }
    } else {
      RemoveUids(w.digest, call.who, st);
      MainGone(w.digest, call.who, st);
    }
  }

  lemma MainGone(digest: Digest, id: InstanceID, st: Store)
    ensures IngressName(digest, id) !in Removed(digest, id, st).ingresses
  {
    hide IngressName;
  }

  lemma RecordedExactly(w: World, st: Store, q: Request)
    requires q.cfg.digest == w.digest && WellFormed(q, Elements(Existing(q, st)))
    requires !(Main(q) in st.ingresses && Frozen(st.ingresses[Main(q)]))
    requires Free(q.o.cnames, ',')
    ensures RecordedIn(w, Ensured(q, st), q.id) == if q.o.cnames == [] then {""} else Wanted(q)
  {
    hide WellFormed, Ensured, IngressName, Frozen;
    EnsureMain(q, st);
    if q.o.cnames != [] { SplitJoin(q.o.cnames, ','); } else { assert Join(q.o.cnames, ',') == ""; }
  }

  /** Another instance's Ensure keeps an instance exact. */
  lemma OthersEnsure(w: World, st: Store, q: Request, id: InstanceID)
    requires NamesApart(w) && AllExact(w, st) && Admissible(w, EnsureCall(q)) && id in w.cnames && id != q.id
    ensures Exact(w, Ensured(q, st), id)
  {
    hide UidsSound, Ensured, MainIngress, CNameIngress, IngressName, IngressCName, AnnotationsFree, CNamesDistinct,
         Frozen, Stored, RecordOf;
    var n, st' := IngressName(w.digest, id), Ensured(q, st);
    WorldFits(w, st, q);
    assert n !in NamesIn(w, q.id) && n != NoName(w, q.id);
    EnsureFrame(q, st, n);
    if n in st.ingresses {
      forall m | m in Owned(st', st.ingresses[n].uid) ensures m in Owned(st, st.ingresses[n].uid) {
        if m == Main(q) || m in CNameNames(q, Wanted(q) + Elements(Existing(q, st))) {
          OwnNamesNotOwned(w, st, q, id, m);
        } else {
          EnsureFrame(q, st, m);
        }
      }
    }
  }

  /** What an Ensure leaves under its own names is not owned by another instance's main Ingress, unless it was. */
  lemma OwnNamesNotOwned(w: World, st: Store, q: Request, id: InstanceID, m: string)
    requires NamesApart(w) && AllExact(w, st) && Admissible(w, EnsureCall(q)) && id in w.cnames && id != q.id
    requires m == Main(q) || m in CNameNames(q, Wanted(q) + Elements(Existing(q, st)))
    requires IngressName(w.digest, id) in st.ingresses
    requires m in Owned(Ensured(q, st), st.ingresses[IngressName(w.digest, id)].uid)
    ensures m in Owned(st, st.ingresses[IngressName(w.digest, id)].uid)
  {
    hide Ensured, MainIngress, CNameIngress, IngressName, IngressCName, AnnotationsFree, Frozen, Stored, RecordOf,
         CNamesDistinct;
    WorldFits(w, st, q);
    if Main(q) in st.ingresses && Frozen(st.ingresses[Main(q)]) {
      FrozenMainStops(q, st);
    } else {
      EnsureMain(q, st);
      var n := IngressName(w.digest, id);
      assert st.ingresses[n].uid != MainUid(q, Ensured(q, st)) by { DifferentUids(w, st, q, id); }
      if m != Main(q) {
        if c :| c in q.o.cnames && m == IngressCName(w.digest, q.id, c) {
          EnsureCName(q, st, c);
        } else {
          DroppedGone(q, st, m);
        }
      }
    }
  }

  lemma DifferentUids(w: World, st: Store, q: Request, id: InstanceID)
    requires NamesApart(w) && UidsSound(st) && id in w.cnames && q.id in w.cnames && id != q.id
    requires q.cfg.digest == w.digest
    requires IngressName(w.digest, id) in st.ingresses
    ensures st.ingresses[IngressName(w.digest, id)].uid
        != (if Main(q) in st.ingresses then st.ingresses[Main(q)].uid else st.nextUid)
  {
    hide IngressName, NamesIn;
  }

  /** A CName that is recorded and not requested has no Ingress afterwards. */
  lemma DroppedGone(q: Request, st: Store, m: string)
    requires WellFormed(q, Elements(Existing(q, st))) && !(Main(q) in st.ingresses && Frozen(st.ingresses[Main(q)]))
    requires m in CNameNames(q, Wanted(q) + Elements(Existing(q, st))) && m !in CNameNames(q, Wanted(q))
    ensures m !in Ensured(q, st).ingresses
  {
    hide CNamePlan, Ensured, MainPut, MainIngress, IngressName, IngressCName, Stored, Frozen, RecordOf, AnnotationsFree,
         CNamesDistinct;
    EnsureParts(q, st);
    var gone := Without(Existing(q, st), q.o.cnames);
    var c :| c in Wanted(q) + Elements(Existing(q, st)) && m == IngressCName(q.cfg.digest, q.id, c);
    assert c in Elements(gone) || c in Wanted(q);
  }

  lemma OthersRemove(w: World, st: Store, id': InstanceID, id: InstanceID)
    requires NamesApart(w) && AllExact(w, st) && id in w.cnames && id' in w.cnames && id != id'
    ensures Exact(w, Removed(w.digest, id', st), id)
  {
    hide IngressName, IngressCName, RecordOf, NamesIn;
    var n := IngressName(w.digest, id);
    if n in st.ingresses {
      assert Owned(Removed(w.digest, id', st), st.ingresses[n].uid) <= Owned(st, st.ingresses[n].uid);
    }
  }

  lemma Step(w: World, st: Store, call: Call)
    requires NamesApart(w) && AllExact(w, st) && Admissible(w, call)
    ensures AllExact(w, After(w, st, call))
  {
    hide NamesApart, Exact, Ensured, Removed, Admissible;
    OwnStep(w, st, call);
    forall id | id in w.cnames ensures Exact(w, After(w, st, call), id) {
      if id != Actor(call) {
        if call.EnsureCall? {
          OthersEnsure(w, st, call.q, id);
        } else {
          RemoverInWorld(w, call);
          OthersRemove(w, st, call.who, id);
        }
      }
    }
  }

  lemma RemoverInWorld(w: World, call: Call)
    requires Admissible(w, call) && call.RemoveCall?
    ensures call.who in w.cnames
  {
  }

  /**
    Exactness over runs: after any completed Ensure and Remove calls by any instances, what a main Ingress
    owns is named after the CNames recorded on it.
   */
  lemma {:induction false} RunExact(w: World, st: Store, calls: seq<Call>)
    requires NamesApart(w) && AllExact(w, st) && forall c :: c in calls ==> Admissible(w, c)
    ensures AllExact(w, Run(w, st, calls))
  {
    hide NamesApart, AllExact, Admissible, After;
    if calls != [] {
      assert calls[|calls| - 1] in calls;
      RunExact(w, st, calls[..|calls| - 1]);
      Step(w, Run(w, st, calls[..|calls| - 1]), calls[|calls| - 1]);
    }
  }

  /**
    After any run, a further Ensure that the main Ingress does not freeze leaves exactly its own CName
    Ingresses, and a Remove after that leaves none of them but frozen ones owned elsewhere.
   */
  lemma ExactAfterRun(w: World, st: Store, calls: seq<Call>, q: Request)
    requires NamesApart(w) && AllExact(w, st) && (forall c :: c in calls ==> Admissible(w, c))
    requires Admissible(w, EnsureCall(q))
    requires var s := Run(w, st, calls); !(Main(q) in s.ingresses && Frozen(s.ingresses[Main(q)]))
    ensures var s := Run(w, st, calls); var s' := Ensured(q, s);
      && Owned(s', MainUid(q, s')) <= CNameNames(q, Wanted(q))
      && (forall c :: c in q.o.cnames ==> IngressCName(q.cfg.digest, q.id, c) in s'.ingresses)
      && (forall c ::
            c in q.o.cnames && IngressCName(q.cfg.digest, q.id, c) in Removed(q.cfg.digest, q.id, s').ingresses ==>
              && IngressCName(q.cfg.digest, q.id, c) in s.ingresses
              && Frozen(s.ingresses[IngressCName(q.cfg.digest, q.id, c)]))
  {
    hide NamesApart, Ensured, Removed, Run, IngressName, IngressCName, Frozen, RecordOf, CNamesDistinct,
         AnnotationsFree, Stored, CNameIngress;
    RunExact(w, st, calls);
    var s := Run(w, st, calls);
    assert Exact(w, s, q.id);
    WorldFits(w, s, q);
    EnsureExact(q, s);
    forall c | c in q.o.cnames
      ensures IngressCName(q.cfg.digest, q.id, c) in Ensured(q, s).ingresses
      ensures IngressCName(q.cfg.digest, q.id, c) in Removed(q.cfg.digest, q.id, Ensured(q, s)).ingresses ==>
        IngressCName(q.cfg.digest, q.id, c) in s.ingresses && Frozen(s.ingresses[IngressCName(q.cfg.digest, q.id, c)])
    {
      EnsureCName(q, s, c);
      EnsureThenRemove(q, s, c);
    }
  }

  // ----- where a retry does not recover -----

  /** A plan that puts nothing under a name leaves it unless it drops it. */
  lemma {:induction false} OnlyDrops(q: Request, st: Store, plan: seq<Action>, n: string)
    requires forall a :: a in plan && a.PutIngress? ==> a.name != n
    ensures var s := Ingresses.After(q, st, plan);
      && (n in s.ingresses <==> n in st.ingresses && DropIngress(n) !in plan)
      && (n in s.ingresses ==> s.ingresses[n] == st.ingresses[n])
  {
    hide Stored;
    if plan != [] {
      var init, a := plan[..|plan| - 1], plan[|plan| - 1];
      assert plan == init + [a];
      OnlyDrops(q, st, init, n);
    }
  }

  /** Once the first write is made, the main Ingress and its record are what they are in the end. */
  lemma RecordOnce(q: Request, st: Store, k: nat)
    requires WellFormed(q, Elements(Existing(q, st))) && Main(q) in st.ingresses && !Frozen(st.ingresses[Main(q)])
    requires 1 <= k <= |EnsurePlan(q, st)|
    ensures var s := Ingresses.After(q, st, EnsurePlan(q, st)[..k]);
      && Main(q) in s.ingresses && Lookup(s.ingresses[Main(q)].annotations, CNAMES_ANNOTATION) == Join(q.o.cnames, ',')
  {
    hide MainIngress, CNamePlan, IngressName, IngressCName, Stored, Frozen, AnnotationsFree, Join, Drops, MainPut,
         RecordOf, CNamesDistinct;
    var plan, put := EnsurePlan(q, st), PutIngress(Main(q), MainIngress(q));
    assert plan[0] == put && plan[..k] == [put] + plan[1..k];
    OneStep(q, st, put);
    MainShows(q);
    PutLeaves(q.cfg.digest, q.id, st.ingresses[Main(q)], MainIngress(q));
    ApplyConcat(q, st, [put], plan[1..k]);
    forall a | a in plan[1..k] ensures !Writes(a, Main(q)) {
      RestActs(q, st, a);
    }
    Untouched(q, Ingresses.After(q, st, [put]), plan[1..k], Main(q));
  }

  /**
    The record is rewritten before stale CNames are removed. So when an Ensure stops at any point after its
    first write, the Ingress of a recorded, no longer requested CName outlives the retry, unchanged, if and
    only if the first attempt had not yet deleted it.
   */
  lemma RetryLeaksExactly(q: Request, st: Store, k: nat, c: string)
    requires Main(q) in st.ingresses && !Frozen(st.ingresses[Main(q)]) && Free(q.o.cnames, ',') && c != ""
    requires c in Existing(q, st) && c !in q.o.cnames && IngressCName(q.cfg.digest, q.id, c) in st.ingresses
    requires WellFormed(q, Elements(Existing(q, st)) + {""}) && 1 <= k <= |EnsurePlan(q, st)|
    ensures var s, n := Ingresses.After(q, st, EnsurePlan(q, st)[..k]), IngressCName(q.cfg.digest, q.id, c);
      && (n in Ensured(q, s).ingresses <==> DropIngress(n) !in EnsurePlan(q, st)[..k])
      && (n in Ensured(q, s).ingresses ==> Ensured(q, s).ingresses[n] == st.ingresses[n])
  {
    hide MainIngress, CNameIngress, EnsurePlan, IngressName, IngressCName, Stored, Frozen, AnnotationsFree, Join,
         Ensured, MainPut;
    var n, plan := IngressCName(q.cfg.digest, q.id, c), EnsurePlan(q, st);
    var s := Ingresses.After(q, st, plan[..k]);
    WellFormedLess(q, Elements(Existing(q, st)));
    RecordOnce(q, st, k);
    if q.o.cnames != [] {
      SplitJoin(q.o.cnames, ',');
    } else {
      assert Join(q.o.cnames, ',') == "" by { JoinEmpty(q.o.cnames, ','); }
    }
    assert Elements(Existing(q, s)) <= Wanted(q) + {""};
    assert n != Main(q) && n !in CNameNames(q, Wanted(q) + Elements(Existing(q, s)));
    EnsureFrame(q, s, n);
    forall a | a in plan[..k] && a.PutIngress? ensures a.name != n { EnsureActs(q, st, a); }
    OnlyDrops(q, st, plan[..k], n);
  }

  // ----- the routing table -----

  lemma VHostSplits(cfg: Config, id: InstanceID, o: Opts, k: string)
    requires k != "default"
    ensures VHost(cfg, id, o, k) == k + "." + VHost(cfg, id, o, "default")
  {
    var prefix, suffix := k + ".", Suffix(cfg, o);
    assert prefix + id.appName + "." + suffix == prefix + (id.appName + "." + suffix);
    assert prefix + o.domainPrefix + "." + id.appName + "." + suffix
        == prefix + (o.domainPrefix + "." + id.appName + "." + suffix);
  }

  lemma VHostsDistinct(cfg: Config, id: InstanceID, o: Opts, k: string, k': string)
    requires VHost(cfg, id, o, k) == VHost(cfg, id, o, k')
    ensures k == k'
  {
    hide Suffix;
    var rest := VHost(cfg, id, o, "default");
    if k != "default" { VHostSplits(cfg, id, o, k); }
    if k' != "default" { VHostSplits(cfg, id, o, k'); }
    if k != "default" && k' != "default" {
      var dotted := "." + rest;
      assert k + "." + rest == k + dotted && k' + "." + rest == k' + dotted;
      assert (k + dotted)[..|k|] == k && (k' + dotted)[..|k'|] == k';
    }
  }

  /** The main Ingress has one rule for each backend, which sends its host to its service, and no other rule. */
  lemma RoutingTable(q: Request, key: string) returns (i: nat)
    requires OnceEach(q.order) && key in q.order
    ensures var rules, host := MainIngress(q).rules, VHost(q.cfg, q.id, q.o.opts, key);
      && |rules| == |q.order| && i < |rules|
      && (forall j :: 0 <= j < |rules| ==> (rules[j].host == host <==> j == i))
      && rules[i].service == ServiceAt(q, key).name && rules[i].port == PortOf(ServiceAt(q, key))
  {
    hide Labels, Annotations, Fill, VHost, Join;
    i :| 0 <= i < |q.order| && q.order[i] == key;
    forall j | 0 <= j < |q.order| && VHost(q.cfg, q.id, q.o.opts, q.order[j]) == VHost(q.cfg, q.id, q.o.opts, key)
      ensures j == i
    {
      VHostsDistinct(q.cfg, q.id, q.o.opts, q.order[j], key);
    }
  }
}

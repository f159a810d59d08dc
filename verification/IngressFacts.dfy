/**
  What one complete Ingress Ensure or Remove does to the store: the record, the CName Ingresses and their
  owner, and that a second Ensure leaves every Ingress as it is.
 */
module IngressFacts {
  import opened Router
  import opened Strings
  import opened Resources
  import opened Ingresses
  import opened IngressMerge

  // ----- plans in general -----

  lemma {:induction false} ApplyConcat(q: Request, st: Store, p: seq<Action>, r: seq<Action>)
    ensures After(q, st, p + r) == After(q, After(q, st, p), r)
  {
    hide Apply;
    if r == [] {
      assert p + r == p;
    } else {
      assert (p + r)[..|p + r| - 1] == p + r[..|r| - 1];
      ApplyConcat(q, st, p, r[..|r| - 1]);
    }
  }

  lemma OneStep(q: Request, st: Store, a: Action)
    ensures After(q, st, [a]) == Apply(q.cfg.digest, q.id, st, a)
  {
    hide Apply;
    assert [a][..|[a]| - 1] == [];
    assert ApplyAll(q.cfg.digest, q.id, st, []) == st;
  }

  predicate Writes(a: Action, n: string) { (a.PutIngress? || a.DropIngress?) && a.name == n }

  lemma {:induction false} Untouched(q: Request, st: Store, plan: seq<Action>, n: string)
    requires forall a :: a in plan ==> !Writes(a, n)
    ensures n in After(q, st, plan).ingresses <==> n in st.ingresses
    ensures n in st.ingresses ==> After(q, st, plan).ingresses[n] == st.ingresses[n]
  {
    hide Stored;
    if plan != [] {
      assert plan[|plan| - 1] in plan;
      Untouched(q, st, plan[..|plan| - 1], n);
    }
  }

  lemma {:induction false} DropsEffect(q: Request, st: Store, cnames: seq<string>)
    ensures After(q, st, Drops(q, cnames)) == st.(ingresses := st.ingresses - CNameNames(q, Elements(cnames)))
  {
    hide IngressCName;
    if cnames == [] {
      assert Drops(q, cnames) == [];
      assert st.ingresses - {} == st.ingresses;
    } else {
      var init, c := cnames[..|cnames| - 1], cnames[|cnames| - 1];
      DropsEffect(q, st, init);
      assert Drops(q, cnames)[..|cnames| - 1] == Drops(q, init);
      assert cnames == init + [c];
      assert CNameNames(q, Elements(cnames)) == CNameNames(q, Elements(init)) + {IngressCName(q.cfg.digest, q.id, c)};
      assert After(q, st, Drops(q, cnames)).ingresses == st.ingresses - CNameNames(q, Elements(cnames));
    }
  }

  function CNameNames(q: Request, cnames: set<string>): set<string> {
    set c | c in cnames :: IngressCName(q.cfg.digest, q.id, c)
  }

  function Wanted(q: Request): set<string> { Elements(q.o.cnames) }

  // ----- well-formed requests -----

  /** Neither the configured annotations nor an option name the freeze flag or the CName record. */
  predicate AnnotationsFree(q: Request) {
    && (forall k :: k in {FREEZE_ANNOTATION, CNAMES_ANNOTATION} ==> k !in q.cfg.annotations)
    && var opts := AllOptions(q.cfg, q.o.opts);
       forall opt :: opt in opts ==>
         var e := AnnotationEffect(NamedOptions(q.cfg), q.cfg.annotationsPrefix, opt, opts[opt]);
         e.Put? ==> e.key !in {FREEZE_ANNOTATION, CNAMES_ANNOTATION}
  }

  lemma AnnotationsLeft(q: Request)
    requires AnnotationsFree(q)
    ensures Annotations(q).Keys !! {FREEZE_ANNOTATION, CNAMES_ANNOTATION}
  {
    hide FREEZE_ANNOTATION, CNAMES_ANNOTATION, AllOptions, NamedOptions;
  }

  /** A default backend, free annotations, and names that keep the main Ingress and the CName Ingresses apart. */
  ghost predicate WellFormed(q: Request, recorded: set<string>) {
    && q.order != [] && AnnotationsFree(q)
    && Main(q) !in CNameNames(q, Wanted(q) + recorded)
    && CNamesDistinct(q, Wanted(q) + recorded)
  }

  ghost predicate CNamesDistinct(q: Request, cnames: set<string>) {
    forall c, c' ::
      c in cnames && c' in cnames && IngressCName(q.cfg.digest, q.id, c) == IngressCName(q.cfg.digest, q.id, c') ==>
        c == c'
  }

  /** Before hashing, the CName Ingresses of one id have distinct names; a digest without collisions keeps them so. */
  lemma NamesDistinct(q: Request, cnames: set<string>)
    requires NoCollision(q.cfg.digest, set c | c in cnames :: WithInstance(q.id, "kubernetes-router-cname-" + c), 253)
    ensures CNamesDistinct(q, cnames)
  {
    hide Shorten, WithInstance;
    var dash := "kubernetes-router-cname-";
    forall c, c' | c in cnames && c' in cnames
      && IngressCName(q.cfg.digest, q.id, c) == IngressCName(q.cfg.digest, q.id, c')
      ensures c == c'
    {
      SuffixInjective(q.id, dash + c, dash + c');
      assert (dash + c)[|dash|..] == c && (dash + c')[|dash|..] == c';
    }
  }

  lemma MainShows(q: Request)
    requires AnnotationsFree(q)
    ensures !Frozen(MainIngress(q)) && Lookup(MainIngress(q).annotations, CNAMES_ANNOTATION) == Join(q.o.cnames, ',')
    ensures MainIngress(q).owner.ServiceOwner?
  {
    hide Labels, Annotations, RuleFor, Fill, Join, CERT_MANAGER_KEYS, FREEZE_ANNOTATION, CNAMES_ANNOTATION, ACME_KEY;
    KeysDiffer();
    AnnotationsLeft(q);
    JoinEmpty(q.o.cnames, ',');
  }

  lemma CNameShows(q: Request, c: string, parent: nat)
    requires AnnotationsFree(q)
    ensures !Frozen(CNameIngress(q, c, parent)) && CNameIngress(q, c, parent).owner == IngressOwner(Main(q), parent)
  {
    hide Labels, Annotations, Fill, CERT_MANAGER_KEYS, FREEZE_ANNOTATION, CNAMES_ANNOTATION, ACME_KEY, COMMON_NAME_KEY;
    KeysDiffer();
    AnnotationsLeft(q);
    IssuerKeys(q, c);
  }

  lemma IssuerKeys(q: Request, c: string)
    ensures ModeOf(q, c).Issued? ==> FREEZE_ANNOTATION !in IssuerAnnotations(q.cfg.issuers(ModeOf(q, c).issuer))
  {
    hide FREEZE_ANNOTATION, ISSUER_KEY, CLUSTER_ISSUER_KEY, ISSUER_KIND_KEY, ISSUER_GROUP_KEY;
    KeysDiffer();
  }

  // ----- the CName plan -----

  lemma {:induction false} CNamePlanActs(q: Request, s: Store, cnames: seq<string>, parent: nat, a: Action)
    requires a in CNamePlan(q, s, cnames, parent)
    ensures !a.DropIngress?
    ensures a.PutIngress? ==>
      exists c :: c in cnames && a == PutIngress(IngressCName(q.cfg.digest, q.id, c), CNameIngress(q, c, parent))
  {
    hide CNameIngress, IngressCName, SecretName, ApplyAll, Stored, Frozen;
    var init, c := cnames[..|cnames| - 1], cnames[|cnames| - 1];
    assert cnames == init + [c];
    if a in CNamePlan(q, s, init, parent) {
      CNamePlanActs(q, s, init, parent, a);
    } else {
      assert a.PutIngress? ==> a == PutIngress(IngressCName(q.cfg.digest, q.id, c), CNameIngress(q, c, parent));
    }
  }

  /** The CName Ingress of c: created, merged into the stored one, or left alone when frozen. */
  lemma {:induction false} CNamePlanAt(q: Request, s: Store, cnames: seq<string>, parent: nat, c: string)
    requires c in cnames && CNamesDistinct(q, Elements(cnames)) && AnnotationsFree(q)
    ensures var n, s' := IngressCName(q.cfg.digest, q.id, c), After(q, s, CNamePlan(q, s, cnames, parent));
      && n in s'.ingresses
      && (if n in s.ingresses then s'.ingresses[n]
           == Stored(q.cfg.digest, q.id, s.ingresses[n], CNameIngress(q, c, parent))
          else exists u :: s'.ingresses[n] == CNameIngress(q, c, parent).(uid := u))
  {
    hide CNameIngress, IngressCName, Stored, Apply, CNameActs, AnnotationsFree;
    var n, init, last := IngressCName(q.cfg.digest, q.id, c), cnames[..|cnames| - 1], cnames[|cnames| - 1];
    assert cnames == init + [last];
    var s1 := After(q, s, CNamePlan(q, s, init, parent));
    ApplyConcat(q, s, CNamePlan(q, s, init, parent), CNameActs(q, s1, last, parent));
    ActsAt(q, s1, last, parent, n);
    if c in init { CNamePlanAt(q, s, init, parent, c); } else {
      forall a | a in CNamePlan(q, s, init, parent) ensures !Writes(a, n) { CNamePlanActs(q, s, init, parent, a); }
      Untouched(q, s, CNamePlan(q, s, init, parent), n);
    }
    if last == c && c in init {
      CNameFits(q, c, parent);
      if n in s.ingresses {
        StoredTwice(q.cfg.digest, q.id, s.ingresses[n], CNameIngress(q, c, parent));
      } else {
        CreatedSettled(q.cfg.digest, q.id, CNameIngress(q, c, parent), s1.ingresses[n].uid);
      }
    }
  }

  /** One CName's actions write its own Ingress only. */
  lemma ActsAt(q: Request, s: Store, c: string, parent: nat, n: string)
    ensures var s' := After(q, s, CNameActs(q, s, c, parent)); var own := IngressCName(q.cfg.digest, q.id, c);
      && (n != own ==>
           (n in s'.ingresses <==> n in s.ingresses) && (n in s.ingresses ==> s'.ingresses[n] == s.ingresses[n]))
      && own in s'.ingresses
      && (own in s.ingresses ==>
           s'.ingresses[own] == Stored(q.cfg.digest, q.id, s.ingresses[own], CNameIngress(q, c, parent)))
      && (own !in s.ingresses ==> s'.ingresses[own] == CNameIngress(q, c, parent).(uid := s.nextUid))
  {
    hide CNameIngress, IngressCName, Stored, SecretName, Frozen;
    var own := IngressCName(q.cfg.digest, q.id, c);
    var put := PutIngress(own, CNameIngress(q, c, parent));
    var acts := CNameActs(q, s, c, parent);
    var s1 := Apply(q.cfg.digest, q.id, s, put);
    OneStep(q, s, put);
    if |acts| == 2 {
      assert acts[..1] == [put];
      assert After(q, s, acts).ingresses == s1.ingresses;
    } else {
      assert acts == [put];
    }
  }

  // ----- Ensure in parts -----

  lemma EnsureParts(q: Request, st: Store)
    requires WellFormed(q, Elements(Existing(q, st))) && !(Main(q) in st.ingresses && Frozen(st.ingresses[Main(q)]))
    ensures var s, st' := MainPut(q, st), Ensured(q, st); var gone := Without(Existing(q, st), q.o.cnames);
      && st'.ingresses
         == After(q, s, CNamePlan(q, s, q.o.cnames, MainUid(q, s))).ingresses - CNameNames(q, Elements(gone))
      && Main(q) in s.ingresses && Main(q) in st'.ingresses && st'.ingresses[Main(q)] == s.ingresses[Main(q)]
      && (if Main(q) in st.ingresses then s.ingresses[Main(q)]
           == Stored(q.cfg.digest, q.id, st.ingresses[Main(q)], MainIngress(q))
          else s.ingresses[Main(q)] == MainIngress(q).(uid := st.nextUid))
      && (forall n :: n != Main(q) ==>
           (n in s.ingresses <==> n in st.ingresses) && (n in st.ingresses ==> s.ingresses[n] == st.ingresses[n]))
  {
    hide CNamePlan, Drops, MainIngress, Stored, Frozen, IngressName, IngressCName, CNamesDistinct, AnnotationsFree;
    var s := MainPut(q, st);
    var put := PutIngress(Main(q), MainIngress(q));
    var cnames, gone := CNamePlan(q, s, q.o.cnames, MainUid(q, s)), Without(Existing(q, st), q.o.cnames);
    OneStep(q, st, put);
    ApplyConcat(q, st, [put], cnames);
    ApplyConcat(q, st, [put] + cnames, Drops(q, gone));
    DropsEffect(q, After(q, s, cnames), gone);
    forall a | a in cnames ensures !Writes(a, Main(q)) { CNamePlanActs(q, s, q.o.cnames, MainUid(q, s), a); }
    Untouched(q, s, cnames, Main(q));
  }

  /** The main Ingress after Ensure: unfrozen, with the requested record, and with the UID it had if it was there. */
  lemma EnsureMain(q: Request, st: Store)
    requires WellFormed(q, Elements(Existing(q, st))) && !(Main(q) in st.ingresses && Frozen(st.ingresses[Main(q)]))
    ensures var st' := Ensured(q, st);
      && Main(q) in st'.ingresses && !Frozen(st'.ingresses[Main(q)])
      && Lookup(st'.ingresses[Main(q)].annotations, CNAMES_ANNOTATION) == Join(q.o.cnames, ',')
      && MainUid(q, st') == MainUid(q, MainPut(q, st))
      && MainUid(q, st') == (if Main(q) in st.ingresses then st.ingresses[Main(q)].uid else st.nextUid)
      && st'.ingresses[Main(q)].owner.ServiceOwner?
  {
    hide CNamePlan, Ensured, MainPut, MainIngress, Stored, Frozen, IngressName, CNameNames, CNamesDistinct,
         AnnotationsFree, Join;
    EnsureParts(q, st);
    MainShows(q);
    if Main(q) in st.ingresses {
      PutLeaves(q.cfg.digest, q.id, st.ingresses[Main(q)], MainIngress(q));
    } else {
      SameButUid(MainIngress(q), st.nextUid);
    }
  }

  lemma SameButUid(i: Ingress, uid: nat)
    ensures Frozen(i.(uid := uid)) <==> Frozen(i)
  {
  }

  /** The stored record reads back as the requested list, for lists that survive joining. */
  lemma RecordReadsBack(q: Request, st: Store)
    requires WellFormed(q, Elements(Existing(q, st))) && !(Main(q) in st.ingresses && Frozen(st.ingresses[Main(q)]))
    requires q.o.cnames != []
    ensures Existing(q, Ensured(q, st)) == q.o.cnames <==> Free(q.o.cnames, ',')
  {
    hide Ensured, WellFormed, Frozen, MainPut;
    EnsureMain(q, st);
    if Free(q.o.cnames, ',') { SplitJoin(q.o.cnames, ','); }
    SplitFree(Join(q.o.cnames, ','), ',');
  }

  // ----- ownership -----

  /** The Ingresses a UID owns. */
  function Owned(st: Store, uid: nat): set<string> {
    set n | n in st.ingresses && OwnedBy(st.ingresses[n], uid)
  }

  /** Each requested CName has an Ingress, owned by the main one unless it is frozen and kept as it was. */
  lemma EnsureCName(q: Request, st: Store, c: string)
    requires WellFormed(q, Elements(Existing(q, st))) && !(Main(q) in st.ingresses && Frozen(st.ingresses[Main(q)]))
    requires c in q.o.cnames
    ensures var n, st' := IngressCName(q.cfg.digest, q.id, c), Ensured(q, st); var parent := MainUid(q, st');
      && n in st'.ingresses
      && (n in st.ingresses ==>
           st'.ingresses[n] == Stored(q.cfg.digest, q.id, st.ingresses[n], CNameIngress(q, c, parent)))
      && (n !in st.ingresses ==> exists u :: st'.ingresses[n] == CNameIngress(q, c, parent).(uid := u))
      && (if n in st.ingresses && Frozen(st.ingresses[n]) then st'.ingresses[n] == st.ingresses[n]
          else st'.ingresses[n].owner == IngressOwner(Main(q), parent) && !Frozen(st'.ingresses[n]))
  {
    hide CNamePlan, Ensured, MainPut, MainIngress, CNameIngress, IngressName, IngressCName, AnnotationsFree, Join, Fill,
         Changed, Merge;
    var n, s, gone := IngressCName(q.cfg.digest, q.id, c), MainPut(q, st), Without(Existing(q, st), q.o.cnames);
    EnsureParts(q, st);
    EnsureMain(q, st);
    CNamePlanAt(q, s, q.o.cnames, MainUid(q, s), c);
    var parent := MainUid(q, s);
    CNameShows(q, c, parent);
    assert n != Main(q);
    if n in st.ingresses {
      if !Frozen(st.ingresses[n]) { PutLeaves(q.cfg.digest, q.id, st.ingresses[n], CNameIngress(q, c, parent)); }
    } else {
      var u :| Ensured(q, st).ingresses[n] == CNameIngress(q, c, parent).(uid := u);
      SameButUid(CNameIngress(q, c, parent), u);
    }
  }

  /** UIDs are given out once, and nothing is owned by a UID not yet given out. */
  predicate UidsSound(st: Store) {
    && (forall n :: n in st.ingresses ==> st.ingresses[n].uid < st.nextUid)
    && (forall n, m :: n in st.ingresses && m in st.ingresses && st.ingresses[n].uid == st.ingresses[m].uid ==> n == m)
    && (forall n :: n in st.ingresses && st.ingresses[n].owner.IngressOwner? ==> st.ingresses[n].owner.uid < st.nextUid)
  }

  /** What the main Ingress owns is named after a recorded CName. */
  predicate Tracked(q: Request, st: Store) {
    Main(q) in st.ingresses ==>
      Owned(st, st.ingresses[Main(q)].uid) <= CNameNames(q, Elements(RecordOf(st.ingresses[Main(q)])))
  }

  /** An Ingress named after no requested CName is not owned by the main one afterwards. */
  lemma StrangerNotOwned(q: Request, st: Store, n: string)
    requires WellFormed(q, Elements(Existing(q, st))) && !(Main(q) in st.ingresses && Frozen(st.ingresses[Main(q)]))
    requires UidsSound(st) && Tracked(q, st) && n !in CNameNames(q, Wanted(q))
    ensures n !in Owned(Ensured(q, st), MainUid(q, Ensured(q, st)))
  {
    hide CNamePlan, Ensured, MainPut, MainIngress, CNameIngress, IngressName, IngressCName, Stored, Frozen,
         CNamesDistinct, RecordOf;
    var st', s, gone := Ensured(q, st), MainPut(q, st), Without(Existing(q, st), q.o.cnames);
    EnsureParts(q, st);
    EnsureMain(q, st);
    forall a | a in CNamePlan(q, s, q.o.cnames, MainUid(q, s)) && n != Main(q) ensures !Writes(a, n) {
      CNamePlanActs(q, s, q.o.cnames, MainUid(q, s), a);
    }
    if n != Main(q) {
      Untouched(q, s, CNamePlan(q, s, q.o.cnames, MainUid(q, s)), n);
      assert Elements(gone) == Elements(Existing(q, st)) - Wanted(q);
      assert n in CNameNames(q, Elements(Existing(q, st))) ==> n in CNameNames(q, Elements(gone));
    }
  }

  /**
    Exactness: after an Ensure that the main Ingress does not freeze, also when its write was skipped, the
    Ingresses the main one owns are all named after requested CNames, and every requested CName has one,
    owned by the main Ingress unless frozen.
   */
  lemma EnsureExact(q: Request, st: Store)
    requires WellFormed(q, Elements(Existing(q, st))) && !(Main(q) in st.ingresses && Frozen(st.ingresses[Main(q)]))
    requires UidsSound(st) && Tracked(q, st)
    ensures var st' := Ensured(q, st); var uid := MainUid(q, st');
      && Owned(st', uid) <= CNameNames(q, Wanted(q))
      && forall c :: c in q.o.cnames ==> var n := IngressCName(q.cfg.digest, q.id, c);
           n in Owned(st', uid)
             || (n in st'.ingresses && n in st.ingresses && Frozen(st.ingresses[n])
                  && st'.ingresses[n] == st.ingresses[n])
  {
    hide CNamePlan, Ensured, MainPut, MainIngress, CNameIngress, IngressName, IngressCName, Stored, Frozen,
         CNamesDistinct, RecordOf;
    var st', s, gone := Ensured(q, st), MainPut(q, st), Without(Existing(q, st), q.o.cnames);
    EnsureParts(q, st);
    EnsureMain(q, st);
    var uid := MainUid(q, st');
    forall n | n in Owned(st', uid) ensures n in CNameNames(q, Wanted(q)) {
      if n !in CNameNames(q, Wanted(q)) { StrangerNotOwned(q, st, n); }
    }
    forall c | c in q.o.cnames
      ensures var n := IngressCName(q.cfg.digest, q.id, c);
        n in Owned(st', uid)
          || (n in st'.ingresses && n in st.ingresses && Frozen(st.ingresses[n]) && st'.ingresses[n] == st.ingresses[n])
    {
      EnsureCName(q, st, c);
    }
  }

  /** A frozen main Ingress makes the whole Ensure a no-op. */
  lemma FrozenMainStops(q: Request, st: Store)
    requires Main(q) in st.ingresses && Frozen(st.ingresses[Main(q)])
    ensures Ensured(q, st) == st
  {
  }

  /** Frame: an Ensure touches its main Ingress and the CName Ingresses requested or recorded, nothing else. */
  lemma EnsureFrame(q: Request, st: Store, n: string)
    requires n != Main(q) && n !in CNameNames(q, Wanted(q) + Elements(Existing(q, st)))
    ensures var st' := Ensured(q, st);
      (n in st'.ingresses <==> n in st.ingresses) && (n in st.ingresses ==> st'.ingresses[n] == st.ingresses[n])
  {
    hide CNamePlan, MainPut, MainIngress, CNameIngress, IngressName, IngressCName, Frozen, RecordOf, ApplyAll;
    forall a | a in EnsurePlan(q, st) ensures !Writes(a, n) { EnsureActs(q, st, a); }
    Untouched(q, st, EnsurePlan(q, st), n);
  }

  lemma EnsureActs(q: Request, st: Store, a: Action)
    requires a in EnsurePlan(q, st)
    ensures a.PutIngress? ==>
      || a == PutIngress(Main(q), MainIngress(q))
      || exists c ::
         && c in q.o.cnames
         && a == PutIngress(IngressCName(q.cfg.digest, q.id, c), CNameIngress(q, c, MainUid(q, MainPut(q, st))))
    ensures a.DropIngress? ==>
      exists c :: c in Elements(Existing(q, st)) && c !in q.o.cnames && a.name == IngressCName(q.cfg.digest, q.id, c)
  {
    hide CNamePlan, MainPut, MainIngress, CNameIngress, IngressName, IngressCName, Frozen, RecordOf;
    var s, gone := MainPut(q, st), Without(Existing(q, st), q.o.cnames);
    if a in CNamePlan(q, s, q.o.cnames, MainUid(q, s)) {
      CNamePlanActs(q, s, q.o.cnames, MainUid(q, s), a);
    } else if a in Drops(q, gone) {
      var i :| 0 <= i < |gone| && Drops(q, gone)[i] == a;
      assert gone[i] in gone;
    }
  }

  /** After the first write no other is to the main Ingress. */
  lemma RestActs(q: Request, st: Store, a: Action)
    requires WellFormed(q, Elements(Existing(q, st))) && !(Main(q) in st.ingresses && Frozen(st.ingresses[Main(q)]))
    requires a in EnsurePlan(q, st)[1..]
    ensures !Writes(a, Main(q))
  {
    hide MainIngress, CNameIngress, IngressName, IngressCName, Frozen, MainPut, Existing, MainUid, CNamePlan, Drops;
    forall c | c in Wanted(q) + Elements(Existing(q, st)) ensures IngressCName(q.cfg.digest, q.id, c) != Main(q) {
      CNameIsNotMain(q, Elements(Existing(q, st)), c);
    }
    RestIs(q, st);
    hide WellFormed, EnsurePlan;
    var s, gone := MainPut(q, st), Without(Existing(q, st), q.o.cnames);
    if a in CNamePlan(q, s, q.o.cnames, MainUid(q, s)) {
      CNamePlanActs(q, s, q.o.cnames, MainUid(q, s), a);
    } else {
      DropOf(q, gone, a);
    }
  }

  /** The plan after its first write. */
  lemma RestIs(q: Request, st: Store)
    requires !(Main(q) in st.ingresses && Frozen(st.ingresses[Main(q)]))
    ensures var s := MainPut(q, st);
      && |EnsurePlan(q, st)| > 0
      && EnsurePlan(q, st)[1..]
         == CNamePlan(q, s, q.o.cnames, MainUid(q, s)) + Drops(q, Without(Existing(q, st), q.o.cnames))
  {
    hide MainIngress, IngressName, Frozen, MainPut, Existing, MainUid, CNamePlan, Drops, Without;
    var s := MainPut(q, st);
    SumTail(PutIngress(Main(q), MainIngress(q)), CNamePlan(q, s, q.o.cnames, MainUid(q, s)),
            Drops(q, Without(Existing(q, st), q.o.cnames)));
  }

  lemma SumTail<T>(x: T, p: seq<T>, r: seq<T>)
    ensures ([x] + p + r)[1..] == p + r
  {
  }

  lemma CNameIsNotMain(q: Request, recorded: set<string>, c: string)
    requires WellFormed(q, recorded) && c in Wanted(q) + recorded
    ensures IngressCName(q.cfg.digest, q.id, c) != Main(q)
  {
    hide IngressCName, IngressName, AnnotationsFree, CNamesDistinct;
  }

  lemma DropOf(q: Request, gone: seq<string>, a: Action)
    requires a in Drops(q, gone)
    ensures exists c :: c in gone && a == DropIngress(IngressCName(q.cfg.digest, q.id, c))
  {
    hide IngressCName;
    var i :| 0 <= i < |gone| && Drops(q, gone)[i] == a;
    assert gone[i] in gone;
  }

  /** Removing an instance deletes its main Ingress with everything it owns, and nothing else. */
  lemma RemoveExact(digest: Digest, id: InstanceID, st: Store)
    requires IngressName(digest, id) in st.ingresses
    ensures var n := IngressName(digest, id); var uid := st.ingresses[n].uid;
      && Owned(Removed(digest, id, st), uid) == {}
         && Removed(digest, id, st).ingresses.Keys == st.ingresses.Keys - {n} - Owned(st, uid)
      && forall m :: m in Removed(digest, id, st).ingresses ==> Removed(digest, id, st).ingresses[m] == st.ingresses[m]
  {
    hide IngressName;
  }

  /** Ensure and then Remove leave a requested CName's Ingress only if it is frozen and belongs to something else. */
  lemma EnsureThenRemove(q: Request, st: Store, c: string)
    requires WellFormed(q, Elements(Existing(q, st))) && !(Main(q) in st.ingresses && Frozen(st.ingresses[Main(q)]))
    requires c in q.o.cnames
    ensures var n, st' := IngressCName(q.cfg.digest, q.id, c), Ensured(q, st);
      n in Removed(q.cfg.digest, q.id, st').ingresses ==>
        n in st.ingresses && Frozen(st.ingresses[n]) && !OwnedBy(st.ingresses[n], MainUid(q, st'))
  {
    hide Ensured, IngressName, IngressCName, Stored, CNameIngress, Frozen, CNamesDistinct, MainPut, RecordOf;
    EnsureMain(q, st);
    EnsureCName(q, st, c);
    RemoveExact(q.cfg.digest, q.id, Ensured(q, st));
  }

  // ----- the re-run fixpoint -----

  /** Puts of what is already settled and drops of what is not there leave every Ingress alone. */
  lemma {:induction false} Settled(q: Request, st: Store, plan: seq<Action>)
    requires forall a :: a in plan && a.PutIngress? ==>
      a.name in st.ingresses && Stored(q.cfg.digest, q.id, st.ingresses[a.name], a.desired) == st.ingresses[a.name]
    requires forall a :: a in plan && a.DropIngress? ==> a.name !in st.ingresses
    ensures After(q, st, plan).ingresses == st.ingresses && After(q, st, plan).nextUid == st.nextUid
  {
    hide Stored;
    if plan != [] {
      assert plan[|plan| - 1] in plan;
      Settled(q, st, plan[..|plan| - 1]);
      var a := plan[|plan| - 1];
      if a.PutIngress? { assert st.ingresses[a.name := st.ingresses[a.name]] == st.ingresses; }
      if a.DropIngress? { assert st.ingresses - {a.name} == st.ingresses; }
    }
  }

  /** What a second Ensure would drop: only the Ingress of the empty CName, read from a missing record. */
  lemma SecondDrops(q: Request, st: Store, c: string)
    requires WellFormed(q, Elements(Existing(q, st))) && !(Main(q) in st.ingresses && Frozen(st.ingresses[Main(q)]))
    requires Free(q.o.cnames, ',') && c in Existing(q, Ensured(q, st)) && c !in q.o.cnames
    ensures c == ""
  {
    hide Ensured, WellFormed, Frozen, MainPut;
    EnsureMain(q, st);
    if q.o.cnames != [] { SplitJoin(q.o.cnames, ','); } else { assert Join(q.o.cnames, ',') == ""; }
  }

  /**
    The re-run fixpoint: a second Ensure with the same input and the same range order leaves every Ingress
    as the first one did, in all certificate modes, whether or not the first one wrote.
   */
  lemma EnsureTwice(q: Request, st: Store)
    requires WellFormed(q, Elements(Existing(q, st)) + {""}) && Free(q.o.cnames, ',')
    requires "" in q.o.cnames || IngressCName(q.cfg.digest, q.id, "") !in st.ingresses
    ensures Ensured(q, Ensured(q, st)).ingresses == Ensured(q, st).ingresses
  {
    hide Ensured, MainPut, MainIngress, CNameIngress, IngressName, IngressCName, Stored, Frozen, RecordOf,
         AnnotationsFree, ApplyAll, EnsurePlan;
    var st' := Ensured(q, st);
    if Main(q) in st.ingresses && Frozen(st.ingresses[Main(q)]) {
      FrozenMainStops(q, st);
    } else {
      WellFormedLess(q, Elements(Existing(q, st)));
      EnsureMain(q, st);
      forall a | a in EnsurePlan(q, st') && a.PutIngress?
        ensures a.name in st'.ingresses
        ensures Stored(q.cfg.digest, q.id, st'.ingresses[a.name], a.desired) == st'.ingresses[a.name]
      {
        PutSettled(q, st, a);
      }
      forall a | a in EnsurePlan(q, st') && a.DropIngress? ensures a.name !in st'.ingresses {
        EnsureActs(q, st', a);
        var c :| c in Elements(Existing(q, st')) && c !in q.o.cnames && a.name == IngressCName(q.cfg.digest, q.id, c);
        SecondDrops(q, st, c);
        EmptyCNameStaysAway(q, st);
      }
      Settled(q, st', EnsurePlan(q, st'));
      assert Ensured(q, st') == After(q, st', EnsurePlan(q, st')) by { EnsuredIs(q, st'); }
    }
  }

  lemma EnsuredIs(q: Request, st: Store)
    ensures Ensured(q, st) == After(q, st, EnsurePlan(q, st))
  {
  }

  lemma WellFormedLess(q: Request, recorded: set<string>)
    requires WellFormed(q, recorded + {""})
    ensures WellFormed(q, recorded)
  {
    hide IngressCName, IngressName, AnnotationsFree;
  }

  lemma EmptyCNameStaysAway(q: Request, st: Store)
    requires WellFormed(q, Elements(Existing(q, st)) + {""})
    requires !(Main(q) in st.ingresses && Frozen(st.ingresses[Main(q)]))
    requires "" !in q.o.cnames && IngressCName(q.cfg.digest, q.id, "") !in st.ingresses
    ensures IngressCName(q.cfg.digest, q.id, "") !in Ensured(q, st).ingresses
  {
    hide Ensured, MainPut, CNamePlan, MainIngress, CNameIngress, IngressName, IngressCName, Stored, Frozen, RecordOf,
         AnnotationsFree;
    WellFormedLess(q, Elements(Existing(q, st)));
    EnsureParts(q, st);
    var n, s := IngressCName(q.cfg.digest, q.id, ""), MainPut(q, st);
    assert n != Main(q);
    forall a | a in CNamePlan(q, s, q.o.cnames, MainUid(q, s))
      ensures !Writes(a, n)
    {
      CNamePlanActs(q, s, q.o.cnames, MainUid(q, s), a);
    }
    Untouched(q, s, CNamePlan(q, s, q.o.cnames, MainUid(q, s)), n);
  }

  /** Every Ingress an Ensure put is settled for the next one. */
  lemma PutSettled(q: Request, st: Store, a: Action)
    requires WellFormed(q, Elements(Existing(q, st))) && !(Main(q) in st.ingresses && Frozen(st.ingresses[Main(q)]))
    requires a in EnsurePlan(q, Ensured(q, st)) && a.PutIngress?
    ensures var st' := Ensured(q, st);
      a.name in st'.ingresses && Stored(q.cfg.digest, q.id, st'.ingresses[a.name], a.desired) == st'.ingresses[a.name]
  {
    hide Ensured, EnsurePlan, MainIngress, CNameIngress, IngressName, IngressCName, Stored, Frozen, RecordOf,
         AnnotationsFree, Apply, CNamesDistinct;
    var st' := Ensured(q, st);
    EnsureParts(q, st);
    EnsureMain(q, st);
    EnsureActs(q, st', a);
    MainFits(q);
    if a == PutIngress(Main(q), MainIngress(q)) {
      if Main(q) in st.ingresses {
        StoredTwice(q.cfg.digest, q.id, st.ingresses[Main(q)], MainIngress(q));
      } else {
        CreatedSettled(q.cfg.digest, q.id, MainIngress(q), st.nextUid);
      }
    } else {
      SameUid(q, st');
      var c :| c in q.o.cnames
        && a == PutIngress(IngressCName(q.cfg.digest, q.id, c), CNameIngress(q, c, MainUid(q, st')));
      CNameSettled(q, st, c);
    }
  }

  /** The CName Ingress an Ensure put is settled. */
  lemma CNameSettled(q: Request, st: Store, c: string)
    requires WellFormed(q, Elements(Existing(q, st))) && !(Main(q) in st.ingresses && Frozen(st.ingresses[Main(q)]))
    requires c in q.o.cnames
    ensures var n, st' := IngressCName(q.cfg.digest, q.id, c), Ensured(q, st);
      n in st'.ingresses
        && Stored(q.cfg.digest, q.id, st'.ingresses[n], CNameIngress(q, c, MainUid(q, st'))) == st'.ingresses[n]
  {
    hide Ensured, CNameIngress, IngressName, IngressCName, Stored, Frozen, RecordOf, AnnotationsFree, CNamesDistinct;
    var n, st' := IngressCName(q.cfg.digest, q.id, c), Ensured(q, st);
    var parent := MainUid(q, st');
    EnsureCName(q, st, c);
    CNameFits(q, c, parent);
    if n in st.ingresses {
      StoredTwice(q.cfg.digest, q.id, st.ingresses[n], CNameIngress(q, c, parent));
    } else {
      var u :| st'.ingresses[n] == CNameIngress(q, c, parent).(uid := u);
      CreatedSettled(q.cfg.digest, q.id, CNameIngress(q, c, parent), u);
    }
  }

  /** Putting the main Ingress again keeps its UID. */
  lemma SameUid(q: Request, st: Store)
    requires Main(q) in st.ingresses
    ensures MainUid(q, MainPut(q, st)) == st.ingresses[Main(q)].uid
  {
    hide MainIngress, IngressName, Frozen, Changed, Fill;
    OneStep(q, st, PutIngress(Main(q), MainIngress(q)));
  }
}

/** Which left-over Certificates of cert-manager an Ingress Ensure deletes. */
module IngressLeftovers {
  import opened Router
  import opened Strings
  import opened Resources
  import opened Ingresses
  import opened IngressMerge
  import opened IngressFacts
  import opened IngressObjects

  /** At store s the turn of CName c deletes its Certificate. */
  ghost predicate Cleans(q: Request, s: Store, c: string, parent: nat) {
    var n := IngressCName(q.cfg.digest, q.id, c);
    && n in s.ingresses && !Frozen(s.ingresses[n])
    && Stored(q.cfg.digest, q.id, s.ingresses[n], CNameIngress(q, c, parent)).tls == []
  }

  /** The store when the CName at position i has its turn. */
  ghost function Turn(q: Request, s: Store, cnames: seq<string>, parent: nat, i: nat): Store
    requires i <= |cnames|
  {
    After(q, s, CNamePlan(q, s, cnames[..i], parent))
  }

  lemma ActsCertificates(q: Request, s: Store, c: string, parent: nat)
    ensures After(q, s, CNameActs(q, s, c, parent)).certificates
         == if Cleans(q, s, c, parent) then s.certificates - {SecretName(q.cfg.digest, q.id, c)} else s.certificates
  {
    hide CNameIngress, IngressCName, SecretName, Stored, Frozen;
    var put := PutIngress(IngressCName(q.cfg.digest, q.id, c), CNameIngress(q, c, parent));
    var acts := CNameActs(q, s, c, parent);
    OneStep(q, s, put);
    if |acts| == 2 { assert acts[..1] == [put]; } else { assert acts == [put]; }
  }

  /** The turn at position i deletes Certificate x. */
  ghost predicate Deletes(q: Request, s: Store, cnames: seq<string>, parent: nat, x: string, i: nat)
    requires i < |cnames|
  {
    x == SecretName(q.cfg.digest, q.id, cnames[i]) && Cleans(q, Turn(q, s, cnames, parent, i), cnames[i], parent)
  }

  lemma {:induction false} PlanCertificates(q: Request, s: Store, cnames: seq<string>, parent: nat, x: string)
    ensures x in After(q, s, CNamePlan(q, s, cnames, parent)).certificates <==>
      x in s.certificates && forall i :: 0 <= i < |cnames| ==> !Deletes(q, s, cnames, parent, x, i)
  {
    hide CNameActs, ApplyAll, SecretName, Cleans;
    if cnames == [] {
      assert After(q, s, []) == s by { NothingDone(q, s); }
    } else {
      var n := |cnames| - 1;
      var init, plan := cnames[..n], CNamePlan(q, s, cnames[..n], parent);
      PlanCertificates(q, s, init, parent, x);
      ApplyConcat(q, s, plan, CNameActs(q, After(q, s, plan), cnames[n], parent));
      ActsCertificates(q, After(q, s, plan), cnames[n], parent);
      forall i | 0 <= i < n ensures Deletes(q, s, cnames, parent, x, i) <==> Deletes(q, s, init, parent, x, i) {
        assert cnames[..i] == init[..i];
      }
      assert Deletes(q, s, cnames, parent, x, n) <==>
        x == SecretName(q.cfg.digest, q.id, cnames[n]) && Cleans(q, After(q, s, plan), cnames[n], parent);
    }
  }

  lemma NothingDone(q: Request, s: Store)
    ensures After(q, s, []) == s
  {
  }

  /** What the turn sees of the CName's Ingress, in terms of the stores before and after the whole plan. */
  lemma CleansExactly(q: Request, s: Store, cnames: seq<string>, parent: nat, i: nat)
    requires i < |cnames| && CNamesDistinct(q, Elements(cnames)) && AnnotationsFree(q)
    ensures var n, after := IngressCName(q.cfg.digest, q.id, cnames[i]), After(q, s, CNamePlan(q, s, cnames, parent));
      && n in after.ingresses
      && (Cleans(q, Turn(q, s, cnames, parent, i), cnames[i], parent) <==>
            && (if n in s.ingresses then !Frozen(s.ingresses[n]) else cnames[i] in cnames[..i])
            && after.ingresses[n].tls == [])
  {
    hide CNameIngress, IngressCName, Stored, Frozen, AnnotationsFree, CNamePlan, ApplyAll;
    var c, init := cnames[i], cnames[..i];
    var n, desired := IngressCName(q.cfg.digest, q.id, c), CNameIngress(q, c, parent);
    CNamePlanAt(q, s, cnames, parent, c);
    CNameShows(q, c, parent);
    CNameFits(q, c, parent);
    if c in init {
      assert CNamesDistinct(q, Elements(init));
      CNamePlanAt(q, s, init, parent, c);
      var seen := Turn(q, s, cnames, parent, i).ingresses[n];
      if n in s.ingresses {
        StoredTwice(q.cfg.digest, q.id, s.ingresses[n], desired);
        StoredFreeze(q, s.ingresses[n], desired);
      } else {
        CreatedSettled(q.cfg.digest, q.id, desired, seen.uid);
        SameButUid(desired, seen.uid);
      }
    } else {
      forall a | a in CNamePlan(q, s, init, parent) ensures !Writes(a, n) { CNamePlanActs(q, s, init, parent, a); }
      Untouched(q, s, CNamePlan(q, s, init, parent), n);
    }
  }

  lemma StoredFreeze(q: Request, e: Ingress, i: Ingress)
    requires !Frozen(i)
    ensures Frozen(Stored(q.cfg.digest, q.id, e, i)) <==> Frozen(e)
  {
    hide Changed, Merge;
    if !Frozen(e) { PutLeaves(q.cfg.digest, q.id, e, i); }
  }

  /**
    Certificate x is that of the CName at position i, whose Ingress was there, unfrozen, when it had its turn, and
    has no TLS afterwards.
   */
  ghost predicate LeftOver(q: Request, st: Store, after: Store, x: string, i: int) {
    && 0 <= i < |q.o.cnames| && SecretNamed(q, q.o.cnames[i], x)
    && exists n ::
         && CNameNamed(q, q.o.cnames[i], n) && NotFrozen(st, n)
         && (n in st.ingresses || q.o.cnames[i] in q.o.cnames[..i])
         && n in after.ingresses && after.ingresses[n].tls == []
  }

  /** A complete Ensure deletes the left-over Certificates, and no other. */
  lemma CertificatesLeftExactly(q: Request, st: Store, m: string, x: string)
    requires WellFormed(q, Elements(Existing(q, st))) && MainNamed(q, m) && NotFrozen(st, m)
    ensures x in Ensured(q, st).certificates <==>
      x in st.certificates && !exists i :: LeftOver(q, st, Ensured(q, st), x, i)
  {
    MainThawed(q, st, m);
    hide IngressCName, SecretName, Ensured, Existing, MainPut, CNamePlan, Deletes, MainNamed, NotFrozen, IngressName,
         Frozen, After, MainUid, Main, SecretNamed, CNameNamed, LeftOver;
    EnsureCertificates(q, st);
    PlanCertificates(q, MainPut(q, st), q.o.cnames, MainUid(q, MainPut(q, st)), x);
    forall i | 0 <= i < |q.o.cnames|
      ensures Deletes(q, MainPut(q, st), q.o.cnames, MainUid(q, MainPut(q, st)), x, i)
         <==> LeftOver(q, st, Ensured(q, st), x, i)
    {
      DeletesExactly(q, st, x, i);
    }
    forall i | LeftOver(q, st, Ensured(q, st), x, i) ensures 0 <= i < |q.o.cnames| {
      LeftOverInRange(q, st, Ensured(q, st), x, i);
    }
  }

  lemma LeftOverInRange(q: Request, st: Store, after: Store, x: string, i: int)
    requires LeftOver(q, st, after, x, i)
    ensures 0 <= i < |q.o.cnames|
  {
  }

  lemma MainThawed(q: Request, st: Store, m: string)
    requires MainNamed(q, m) && NotFrozen(st, m)
    ensures m == Main(q) && !(Main(q) in st.ingresses && Frozen(st.ingresses[Main(q)]))
  {
    NamesAre(q, "", m);
    hide MainNamed, IngressName;
  }

  /** Only the CName turns touch Certificates. */
  lemma EnsureCertificates(q: Request, st: Store)
    requires !(Main(q) in st.ingresses && Frozen(st.ingresses[Main(q)]))
    ensures var s := MainPut(q, st);
      && s.certificates == st.certificates
      && Ensured(q, st).certificates == After(q, s, CNamePlan(q, s, q.o.cnames, MainUid(q, s))).certificates
  {
    hide CNamePlan, Drops, MainIngress, Stored, Frozen, IngressName, IngressCName;
    var s := MainPut(q, st);
    var put := PutIngress(Main(q), MainIngress(q));
    var cnames, gone := CNamePlan(q, s, q.o.cnames, MainUid(q, s)), Without(Existing(q, st), q.o.cnames);
    OneStep(q, st, put);
    ApplyConcat(q, st, [put], cnames);
    ApplyConcat(q, st, [put] + cnames, Drops(q, gone));
    DropsEffect(q, After(q, s, cnames), gone);
  }

  /** The Ingress of a requested CName before its turn and after the last one is that of the whole Ensure. */
  lemma SameThroughout(q: Request, st: Store, c: string)
    requires WellFormed(q, Elements(Existing(q, st))) && !(Main(q) in st.ingresses && Frozen(st.ingresses[Main(q)]))
    requires c in q.o.cnames
    ensures var s, n := MainPut(q, st), IngressCName(q.cfg.digest, q.id, c);
      var end := After(q, s, CNamePlan(q, s, q.o.cnames, MainUid(q, s)));
      && (n in s.ingresses <==> n in st.ingresses) && (n in s.ingresses ==> s.ingresses[n] == st.ingresses[n])
      && (n in end.ingresses ==> n in Ensured(q, st).ingresses && Ensured(q, st).ingresses[n] == end.ingresses[n])
  {
    KeptName(q, st, c);
    hide IngressName, IngressCName, Ensured, MainPut, CNamePlan, WellFormed, Existing, Without, Frozen, CNameNames;
    EnsureParts(q, st);
  }

  lemma DeletesExactly(q: Request, st: Store, x: string, i: nat)
    requires WellFormed(q, Elements(Existing(q, st))) && !(Main(q) in st.ingresses && Frozen(st.ingresses[Main(q)]))
    requires i < |q.o.cnames|
    ensures Deletes(q, MainPut(q, st), q.o.cnames, MainUid(q, MainPut(q, st)), x, i)
       <==> LeftOver(q, st, Ensured(q, st), x, i)
  {
    assert AnnotationsFree(q);
    hide IngressName, IngressCName, SecretName, Ensured, MainPut, CNamePlan, AnnotationsFree, Existing, Frozen,
         MainUid, Main, CNamesDistinct, After, LeftOver, Turn, Cleans;
    SameThroughout(q, st, q.o.cnames[i]);
    FewerDistinct(q, Elements(Existing(q, st)));
    CleansExactly(q, MainPut(q, st), q.o.cnames, MainUid(q, MainPut(q, st)), i);
    LeftOverMeans(q, st, Ensured(q, st), x, i);
  }

  lemma LeftOverMeans(q: Request, st: Store, after: Store, x: string, i: nat)
    requires i < |q.o.cnames|
    ensures var c, n := q.o.cnames[i], IngressCName(q.cfg.digest, q.id, q.o.cnames[i]);
      LeftOver(q, st, after, x, i) <==>
        && x == SecretName(q.cfg.digest, q.id, c)
        && (n in st.ingresses ==> !Frozen(st.ingresses[n])) && (n in st.ingresses || c in q.o.cnames[..i])
        && n in after.ingresses && after.ingresses[n].tls == []
  {
    var c := q.o.cnames[i];
    var own := IngressCName(q.cfg.digest, q.id, c);
    hide IngressCName, SecretName, SecretNamed, CNameNamed, Frozen, NotFrozen;
    forall n ensures CNameNamed(q, c, n) <==> n == own { NamesAre(q, c, n); }
    NamesAre(q, c, x);
    FrozenMeans(st, own);
    assert CNameNamed(q, c, own);
  }

  lemma FewerDistinct(q: Request, recorded: set<string>)
    requires CNamesDistinct(q, Wanted(q) + recorded)
    ensures CNamesDistinct(q, Elements(q.o.cnames))
  {
    hide IngressCName;
  }

  lemma FrozenMeans(st: Store, n: string)
    ensures NotFrozen(st, n) <==> (n in st.ingresses ==> !Frozen(st.ingresses[n]))
  {
  }

  /** The Ingress of a requested CName is not among those dropped. */
  lemma KeptName(q: Request, st: Store, c: string)
    requires WellFormed(q, Elements(Existing(q, st))) && c in q.o.cnames
    ensures IngressCName(q.cfg.digest, q.id, c) !in CNameNames(q, Elements(Without(Existing(q, st), q.o.cnames)))
    ensures IngressCName(q.cfg.digest, q.id, c) != Main(q)
  {
    hide IngressCName, IngressName, Existing, AnnotationsFree, Without;
    assert IngressCName(q.cfg.digest, q.id, c) in CNameNames(q, Wanted(q) + Elements(Existing(q, st)));
  }
}

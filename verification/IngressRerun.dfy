/** A second Ingress Ensure whose range over the backends goes another way than that of the first. */
module IngressRerun {
  import opened Router
  import opened Strings
  import opened Resources
  import opened Ingresses
  import opened IngressMerge
  import opened IngressFacts

  /** The same Ingresses but for the order of rules and TLS entries. */
  ghost predicate SameIngresses(a: map<string, Ingress>, b: map<string, Ingress>) {
    a.Keys == b.Keys && forall n :: n in a ==> SameContent(a[n], b[n])
  }

  /** The same request, ranged over in another order. */
  ghost predicate Reordered(q: Request, q': Request) {
    q' == q.(order := q'.order) && q'.order != []
  }

  /** What a re-run needs: a request whose names are apart, and no Ingress under the name of the empty CName. */
  ghost predicate Rerunnable(q: Request, st: Store) {
    && WellFormed(q, Elements(Existing(q, st)) + {""}) && Free(q.o.cnames, ',')
    && ("" in q.o.cnames || IngressCName(q.cfg.digest, q.id, "") !in st.ingresses)
  }

  lemma SameCName(q: Request, q': Request, c: string, parent: nat)
    requires q' == q.(order := q'.order)
    ensures CNameIngress(q', c, parent) == CNameIngress(q, c, parent)
  {
    hide Labels, IssuerAnnotations, Uncertified, Fill, Annotations;
    SameAnnotations(q, q');
  }

  /** The first Ensure leaves a store in which the reordered request is well formed. */
  lemma StillWellFormed(q: Request, q': Request, st: Store)
    requires Rerunnable(q, st) && Reordered(q, q') && !(Main(q) in st.ingresses && Frozen(st.ingresses[Main(q)]))
    ensures var st' := Ensured(q, st);
      && WellFormed(q, Elements(Existing(q, st)))
      && Existing(q', st') == Existing(q, st') && Elements(Existing(q', st')) <= Wanted(q) + {""}
      && WellFormed(q', Elements(Existing(q', st')))
      && Main(q) in st'.ingresses && !Frozen(st'.ingresses[Main(q)])
  {
    hide Ensured, IngressName, IngressCName, Frozen, AnnotationsFree, Join, MainPut;
    WellFormedLess(q, Elements(Existing(q, st)));
    EnsureMain(q, st);
    if q.o.cnames != [] {
      SplitJoin(q.o.cnames, ',');
    } else {
      assert Join(q.o.cnames, ',') == "" by { JoinEmpty(q.o.cnames, ','); }
    }
    assert AnnotationsFree(q') by { SameFree(q, q'); }
  }

  lemma SameFree(q: Request, q': Request)
    requires q' == q.(order := q'.order) && AnnotationsFree(q)
    ensures AnnotationsFree(q')
  {
  }

  /** Whatever the second order, only the main Ingress can change: it is put once more. */
  lemma OnlyMainChanges(q: Request, q': Request, st: Store)
    requires Rerunnable(q, st) && Reordered(q, q') && !(Main(q) in st.ingresses && Frozen(st.ingresses[Main(q)]))
    ensures var st' := Ensured(q, st);
      && Main(q) in st'.ingresses
      && Ensured(q', st').ingresses
         == st'.ingresses[Main(q) := Stored(q.cfg.digest, q.id, st'.ingresses[Main(q)], MainIngress(q'))]
  {
    hide Ensured, MainPut, MainIngress, CNameIngress, IngressName, IngressCName, Stored, Frozen, RecordOf,
         AnnotationsFree, ApplyAll, EnsurePlan, WellFormed, CNamesDistinct;
    var st' := Ensured(q, st);
    var plan, put := EnsurePlan(q', st'), PutIngress(Main(q), MainIngress(q'));
    StillWellFormed(q, q', st);
    var s1 := After(q', st', [put]);
    OneStep(q', st', put);
    SameUid(q', st');
    StartsWithMain(q', st');
    forall a | a in plan[1..] ensures !Writes(a, Main(q)) { RestActs(q', st', a); }
    forall a | a in plan[1..] && a.PutIngress?
      ensures a.name in s1.ingresses
      ensures Stored(q.cfg.digest, q.id, s1.ingresses[a.name], a.desired) == s1.ingresses[a.name]
    {
      EnsureActs(q', st', a);
      var c :| c in q'.o.cnames
        && a == PutIngress(IngressCName(q.cfg.digest, q.id, c), CNameIngress(q', c, MainUid(q', MainPut(q', st'))));
      CNameSettled(q, st, c);
      SameCName(q, q', c, MainUid(q, st'));
    }
    forall a | a in plan[1..] && a.DropIngress? ensures a.name !in s1.ingresses {
      EnsureActs(q', st', a);
      EmptyCNameStaysAway(q, st);
    }
    ApplyConcat(q', st', [put], plan[1..]);
    EnsuredIs(q', st');
    Settled(q', s1, plan[1..]);
  }

  lemma StartsWithMain(q: Request, st: Store)
    requires !(Main(q) in st.ingresses && Frozen(st.ingresses[Main(q)]))
    ensures var plan := EnsurePlan(q, st); plan != [] && plan == [PutIngress(Main(q), MainIngress(q))] + plan[1..]
  {
    hide MainIngress, CNamePlan, Drops, IngressName, Frozen;
  }

  /** Ranges over the same keys, each once, differ in nothing but the order. */
  lemma SameKeys(order: seq<string>, order': seq<string>)
    requires OnceEach(order) && OnceEach(order') && forall k :: k in order <==> k in order'
    ensures multiset(order) == multiset(order')
  {
    forall k ensures multiset(order)[k] == multiset(order')[k] {
      CountOnce(order, k);
      CountOnce(order', k);
    }
  }

  lemma {:induction false} CountOnce(order: seq<string>, k: string)
    requires OnceEach(order)
    ensures multiset(order)[k] == if k in order then 1 else 0
  {
    if order != [] {
      var init, last := order[..|order| - 1], order[|order| - 1];
      assert order == init + [last];
      CountOnce(init, k);
    }
  }

  /**
    The content of the main Ingress stays: it is new, frozen, written by the first run, not written by the
    second, or has no annotation or label beyond the desired ones to lose.
   */
  ghost predicate ContentStays(q: Request, q': Request, st: Store) {
    Main(q) in st.ingresses ==>
      var e, i, i' := st.ingresses[Main(q)], MainIngress(q), MainIngress(q');
      Frozen(e) || Changed(e, i) || !Changed(e, i') || (e.annotations == i.annotations && e.labels == i.labels)
  }

  /**
    The re-run fixpoint for every pair of range orders, in all certificate modes: the second Ensure leaves
    the content of every Ingress, up to the order of rules and TLS entries, if and only if the content of
    the main one stays.
   */
  lemma EnsureTwiceExactly(q: Request, q': Request, st: Store)
    requires Rerunnable(q, st) && Reordered(q, q')
    requires OnceEach(q.order) && OnceEach(q'.order) && forall k :: k in q.order <==> k in q'.order
    ensures SameIngresses(Ensured(q', Ensured(q, st)).ingresses, Ensured(q, st).ingresses) <==> ContentStays(q, q', st)
  {
    hide Ensured, MainIngress, IngressName, IngressCName, Stored, Frozen, Changed, Rerunnable, SameContent, OnceEach;
    var st' := Ensured(q, st);
    forall n | n in st'.ingresses
      ensures SameContent(st'.ingresses[n], st'.ingresses[n])
    {
      SameContentRefl(st'.ingresses[n]);
    }
    if Main(q) in st.ingresses && Frozen(st.ingresses[Main(q)]) {
      FrozenMainStops(q, st);
      FrozenMainStops(q', st);
    } else {
      OnlyMainChanges(q, q', st);
      MainContent(q, q', st);
      var m := Stored(q.cfg.digest, q.id, st'.ingresses[Main(q)], MainIngress(q'));
      assert SameIngresses(Ensured(q', st').ingresses, st'.ingresses) <==> SameContent(m, st'.ingresses[Main(q)]);
    }
  }

  lemma SameContentRefl(i: Ingress)
    ensures SameContent(i, i)
  {
  }

  lemma MainContent(q: Request, q': Request, st: Store)
    requires Rerunnable(q, st) && Reordered(q, q') && !(Main(q) in st.ingresses && Frozen(st.ingresses[Main(q)]))
    requires OnceEach(q.order) && OnceEach(q'.order) && forall k :: k in q.order <==> k in q'.order
    ensures var st' := Ensured(q, st);
      && Main(q) in st'.ingresses
      && (SameContent(Stored(q.cfg.digest, q.id, st'.ingresses[Main(q)], MainIngress(q')), st'.ingresses[Main(q)]) <==>
            ContentStays(q, q', st))
  {
    hide Ensured, MainIngress, IngressName, IngressCName, Stored, Frozen, Changed, SameContent, AnnotationsFree,
         CNamePlan, MainPut, RecordOf, CNamesDistinct, OnceEach, TlsFits;
    var i, i' := MainIngress(q), MainIngress(q');
    WellFormedLess(q, Elements(Existing(q, st)));
    EnsureParts(q, st);
    SameKeys(q.order, q'.order);
    MainReordered(q, q'.order);
    MainShows(q);
    MainFits(q);
    MainFits(q');
    if Main(q) in st.ingresses {
      ReorderedExactly(q.cfg.digest, q.id, st.ingresses[Main(q)], i, i');
    } else {
      CreatedReordered(q.cfg.digest, q.id, i, i', st.nextUid);
    }
  }
}

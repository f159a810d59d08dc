/**
  A certificate added to an Ingress outlives whole runs, as long as its own instance keeps the host and stays clear of
  cert-manager.
 */
module IngressCertificates {
  import opened Router
  import opened Strings
  import opened Resources
  import opened Ingresses
  import opened IngressMerge
  import opened IngressFacts
  import opened IngressRuns

  /** The Ingress named n holds the host's certificate and is not cert-manager's. */
  ghost predicate Holds(digest: Digest, id: InstanceID, st: Store, n: string, host: string) {
    n in st.ingresses && HasEntry(digest, id, st.ingresses[n], host) && !Managed(st.ingresses[n].annotations)
  }

  /**
    The request still serves the host from the Ingress named n, without cert-manager: the main one, or the host's own
    as a CName.
   */
  ghost predicate Keeps(q: Request, n: string, host: string) {
    if n == Main(q) then Serves(MainIngress(q), host) && !Managed(MainIngress(q).annotations)
    else host in q.o.cnames && n == IngressCName(q.cfg.digest, q.id, host) && !Managed(CNameAnnotations(q, host))
  }

  lemma {:induction false} PlanHolds(q: Request, st: Store, plan: seq<Action>, n: string, host: string)
    requires Holds(q.cfg.digest, q.id, st, n, host)
    requires forall a :: a in plan && a.PutIngress? && a.name == n ==>
      Serves(a.desired, host) && !Managed(a.desired.annotations)
    requires forall a :: a in plan && a.DropIngress? ==> a.name != n
    ensures Holds(q.cfg.digest, q.id, Ingresses.After(q, st, plan), n, host)
  {
    hide Stored, Managed, Serves, HasEntry;
    if plan != [] {
      var init, a := plan[..|plan| - 1], plan[|plan| - 1];
      assert a in plan;
      PlanHolds(q, st, init, n, host);
      if a.PutIngress? && a.name == n {
        EntryKept(q.cfg.digest, q.id, Ingresses.After(q, st, init).ingresses[n], a.desired, host);
      }
    }
  }

  /** One Ensure of the instance itself. */
  lemma EnsureHolds(q: Request, st: Store, n: string, host: string)
    requires WellFormed(q, Elements(Existing(q, st))) && Keeps(q, n, host) && Holds(q.cfg.digest, q.id, st, n, host)
    ensures Holds(q.cfg.digest, q.id, Ensured(q, st), n, host)
  {
    hide EnsurePlan, MainIngress, CNameIngress, CNameAnnotations, IngressName, IngressCName, Managed, Holds, RecordOf,
         ApplyAll, MainPut;
    var plan := EnsurePlan(q, st);
    forall a | a in plan && a.PutIngress? && a.name == n
      ensures Serves(a.desired, host) && !Managed(a.desired.annotations)
    {
      EnsureActs(q, st, a);
      if a != PutIngress(Main(q), MainIngress(q)) {
        var c :| c in q.o.cnames
          && a == PutIngress(IngressCName(q.cfg.digest, q.id, c), CNameIngress(q, c, MainUid(q, MainPut(q, st))));
        CNameServes(q, c, MainUid(q, MainPut(q, st)));
      }
    }
    forall a | a in plan && a.DropIngress? ensures a.name != n {
      EnsureActs(q, st, a);
    }
    PlanHolds(q, st, plan, n, host);
  }

  lemma CNameServes(q: Request, c: string, parent: nat)
    ensures Serves(CNameIngress(q, c, parent), c) && CNameIngress(q, c, parent).annotations == CNameAnnotations(q, c)
  {
    hide CNameAnnotations, Labels, ServiceAt, Fill;
    assert CNameIngress(q, c, parent).rules[0].host == c;
  }

  /** Calls of another instance do not come near it. */
  lemma OthersHold(w: World, st: Store, call: Call, id: InstanceID, n: string, host: string)
    requires NamesApart(w) && AllExact(w, st) && Admissible(w, call) && Actor(call) != id && id in w.cnames
    requires n == IngressName(w.digest, id) || n in NamesIn(w, id)
    requires Holds(w.digest, id, st, n, host)
    ensures Holds(w.digest, id, IngressRuns.After(w, st, call), n, host)
  {
    hide MainIngress, CNameIngress, IngressName, IngressCName, Managed, HasEntry, Ensured, RecordOf, AnnotationsFree,
         CNamesDistinct;
    if call.EnsureCall? {
      WorldFits(w, st, call.q);
      assert n !in NamesIn(w, call.q.id) && n != NoName(w, call.q.id);
      EnsureFrame(call.q, st, n);
    } else {
      RemoverInWorld(w, call);
      var m := IngressName(w.digest, call.who);
      if m in st.ingresses {
        assert Exact(w, st, call.who);
        assert n !in Owned(st, st.ingresses[m].uid);
      }
    }
  }

  /**
    The certificate life cycle: over any run of completed calls by any instances, a host keeps its TLS
    entry and secret name if every Ensure of its own instance keeps serving the host from that Ingress
    and never puts cert-manager's annotations on it.
   */
  lemma {:induction false} CertificateSurvivesRuns(w: World, st: Store, calls: seq<Call>, id: InstanceID, n: string,
                                                   host: string)
    requires NamesApart(w) && AllExact(w, st) && id in w.cnames
    requires n == IngressName(w.digest, id) || n in NamesIn(w, id)
    requires forall c :: c in calls ==> Admissible(w, c) && (Actor(c) == id ==> c.EnsureCall? && Keeps(c.q, n, host))
    requires Holds(w.digest, id, st, n, host)
    ensures Holds(w.digest, id, Run(w, st, calls), n, host)
  {
    hide NamesApart, AllExact, NamesIn, IngressName, Holds, Keeps, Ensured, Removed;
    if calls != [] {
      var init, c := calls[..|calls| - 1], calls[|calls| - 1];
      assert c in calls;
      CertificateSurvivesRuns(w, st, init, id, n, host);
      RunExact(w, st, init);
      var s := Run(w, st, init);
      if Actor(c) == id {
        assert Exact(w, s, id) by { ExactAt(w, s, id); }
        WorldFits(w, s, c.q);
        EnsureHolds(c.q, s, n, host);
      } else {
        OthersHold(w, s, c, id, n, host);
      }
    }
  }

  lemma ExactAt(w: World, st: Store, id: InstanceID)
    requires AllExact(w, st) && id in w.cnames
    ensures Exact(w, st, id)
  {
  }
}

/**
  The Ingress router, call by call: an Ensure leaves the store after a prefix of the planned writes, and
  after all of them when no call fails; certificates are added to and removed from the TLS lists.
 */
module IngressRouter {
  import opened Router
  import opened Strings
  import Options
  import opened Resources
  import opened Ingresses
  import opened IngressMerge
  import opened IngressFacts
  import opened IngressCluster
  import opened Certificates

  datatype Outcome = Done | NoTarget | NoService | Stopped | Panicked

  /** How a certificate call ends: done, refused, an error, or an index out of range. */
  datatype CertOutcome = Installed | Refused | CertError | OutOfBounds

  /** No two options ask for different values of one annotation. */
  ghost predicate Clear(q: Request) {
    Options.Unambiguous(AllOptions(q.cfg, q.o.opts), AnnotationRule(NamedOptions(q.cfg), q.cfg.annotationsPrefix))
  }

  /** The CName asks for an issuer cert-manager does not know. */
  predicate Unissued(q: Request, c: string) {
    ModeOf(q, c).Issued? && q.cfg.issuers(ModeOf(q, c).issuer).UnknownIssuer?
  }

  /** Every backend has a service with a port, and there is a default one. */
  ghost predicate Buildable(targets: map<string, BackendTarget>, services: map<BackendTarget, Service>) {
    "default" in targets && forall k :: k in targets ==> targets[k] in services && |services[targets[k]].ports| > 0
  }

  lemma ApplySnoc(q: Request, st: Store, plan: seq<Action>, a: Action)
    ensures After(q, st, plan + [a]) == Ingresses.Apply(q.cfg.digest, q.id, After(q, st, plan), a)
  {
    hide Ingresses.Apply;
    assert (plan + [a])[..|plan|] == plan;
  }

  lemma Nothing(q: Request, st: Store)
    ensures After(q, st, []) == st
  {
  }

  lemma CNamePlanSnoc(q: Request, s: Store, cnames: seq<string>, parent: nat, i: nat)
    requires i < |cnames|
    ensures var done := CNamePlan(q, s, cnames[..i], parent);
      && CNamePlan(q, s, cnames[..i + 1], parent) == done + CNameActs(q, After(q, s, done), cnames[i], parent)
      && CNamePlan(q, s, cnames[..i + 1], parent) <= CNamePlan(q, s, cnames, parent)
    decreases |cnames| - i
  {
    hide CNameActs, ApplyAll;
    assert cnames[..i + 1][..i] == cnames[..i];
    if i + 1 < |cnames| { CNamePlanSnoc(q, s, cnames, parent, i + 1); } else { assert cnames[..i + 1] == cnames; }
  }

  /** reflect.DeepEqual on the spec and the owner, then the annotations and labels the new object sets. */
  method IngressHasChanges(e: Ingress, i: Ingress) returns (changed: bool)
    ensures changed <==> Changed(e, i)
    ensures changed <==>
      || e.className != i.className || e.defaultBackend != i.defaultBackend || e.rules != i.rules || e.tls != i.tls
      || e.owner != i.owner
      || Lookup(e.annotations, "router.tsuru.io/cnames") != Lookup(i.annotations, "router.tsuru.io/cnames")
      || (exists k :: k in i.annotations && Lookup(e.annotations, k) != i.annotations[k])
      || (exists k :: k in i.labels && Lookup(e.labels, k) != i.labels[k])
  {
    if e.className != i.className || e.defaultBackend != i.defaultBackend || e.rules != i.rules || e.tls != i.tls {
      return true;
    }
    if e.owner != i.owner { return true; }
    if Lookup(e.annotations, CNAMES_ANNOTATION) != Lookup(i.annotations, CNAMES_ANNOTATION) { return true; }
    var differs := Options.Differs(e.annotations, i.annotations);
    if differs { return true; }
    changed := Options.Differs(e.labels, i.labels);
  }

  const CERT_MANAGER_LIST := [ISSUER_KEY, CLUSTER_ISSUER_KEY, ISSUER_KIND_KEY, ISSUER_GROUP_KEY]

  lemma CertManagerKeys()
    ensures CERT_MANAGER_KEYS == Elements(CERT_MANAGER_LIST)
  {
    hide ISSUER_KEY, CLUSTER_ISSUER_KEY, ISSUER_KIND_KEY, ISSUER_GROUP_KEY;
  }

  method IsManagedByCertManager(annotations: map<string, string>) returns (r: bool)
    ensures r <==> Managed(annotations)
    ensures r <==>
      || "cert-manager.io/issuer" in annotations || "cert-manager.io/cluster-issuer" in annotations
      || "cert-manager.io/issuer-kind" in annotations || "cert-manager.io/issuer-group" in annotations
  {
    assert Managed(annotations) <==>
      || ISSUER_KEY in annotations || CLUSTER_ISSUER_KEY in annotations
      || ISSUER_KIND_KEY in annotations || ISSUER_GROUP_KEY in annotations;
    CertManagerKeys();
    hide CERT_MANAGER_KEYS, CERT_MANAGER_LIST;
    var keys := CERT_MANAGER_LIST;
    for i := 0 to |keys|
      invariant forall j :: 0 <= j < i ==> keys[j] !in annotations
    {
      if keys[i] in annotations {
        assert keys[i] in Elements(keys);
        return true;
      }
    }
    r := false;
  }

  method CleanupCertManagerAnnotations(annotations: map<string, string>) returns (r: map<string, string>)
    ensures r == Uncertified(annotations)
  {
    CertManagerKeys();
    hide CERT_MANAGER_KEYS, CERT_MANAGER_LIST;
    var keys := CERT_MANAGER_LIST;
    r := annotations;
    for i := 0 to |keys|
      invariant r == annotations - Elements(keys[..i])
    {
      assert keys[..i + 1] == keys[..i] + [keys[i]];
      assert Elements(keys[..i + 1]) == Elements(keys[..i]) + {keys[i]};
      r := r - {keys[i]};
    }
    assert keys[..|keys|] == keys;
  }

  class IngressService {
    const cluster: Cluster
    const cfg: Config

    constructor (cluster: Cluster, cfg: Config)
      ensures this.cluster == cluster && this.cfg == cfg
    {
      this.cluster, this.cfg := cluster, cfg;
    }

    method FillIngressMeta(base: map<string, string>, o: Opts, id: InstanceID, team: string, tags: seq<string>)
      returns (labels: map<string, string>, annotations: map<string, string>)
      ensures labels == Labels(cfg, base, id, team, tags)
      ensures Options.Unambiguous(AllOptions(cfg, o), AnnotationRule(NamedOptions(cfg), cfg.annotationsPrefix)) ==>
        annotations
          == Options.Settle(cfg.annotations, AllOptions(cfg, o),
                            AnnotationRule(NamedOptions(cfg), cfg.annotationsPrefix))
    {
      labels := Options.CopyInto(base, cfg.labels);
      labels := labels[APP_LABEL := id.appName];
      labels := labels[TEAM_LABEL := team];
      annotations := Options.CopyInto(map[], cfg.annotations);
      assert map[] + cfg.annotations == cfg.annotations;
      var opts := o.additionalOpts;
      if cfg.ingressClass != "" && !cfg.useIngressClassName {
        opts := Options.CopyInto(map[CLASS_OPTION := cfg.ingressClass], o.additionalOpts);
      }
      var named := Options.CopyInto(map[CLASS_OPTION := CLASS_ANNOTATION], cfg.optsAsAnnotations);
      ghost var order;
      annotations, order := Options.ApplyOptions(annotations, opts, AnnotationRule(named, cfg.annotationsPrefix));
      labels := AddTagLabels(labels, tags, cfg.qualified);
    }

    method FillIngressTLS(id: InstanceID, rules: seq<Rule>) returns (tls: seq<TLS>)
      ensures tls == Fill(cfg.digest, id, rules)
    {
      hide SecretName;
      tls := [];
      for i := 0 to |rules|
        invariant |tls| == i && forall j :: 0 <= j < i ==> tls[j] == EntryFor(cfg.digest, id, rules[j].host)
      {
        tls := tls + [TLS([rules[i].host], SecretName(cfg.digest, id, rules[i].host))];
      }
    }

    /** The rules in whatever order Go ranges over the backends; a backend without ports is a run-time panic. */
    method BuildRules(id: InstanceID, o: Opts, backends: map<string, Service>)
      returns (ok: bool, rules: seq<Rule>, ghost order: seq<string>)
      ensures ok <==> forall k :: k in backends ==> |backends[k].ports| > 0
      ensures ok ==> OnceEach(order) && (forall k :: k in order <==> k in backends) && |rules| == |order|
      ensures ok ==> forall i :: 0 <= i < |order| ==>
        rules[i] == Rule(VHost(cfg, id, o, order[i]), o.route, backends[order[i]].name, PortOf(backends[order[i]]))
    {
      hide VHost;
      rules, order := [], [];
      var pending := backends.Keys;
      while pending != {}
        invariant pending <= backends.Keys
        invariant OnceEach(order) && forall k :: k in order <==> k in backends && k !in pending
        invariant forall k :: k in order ==> |backends[k].ports| > 0
        invariant |rules| == |order|
        invariant forall i :: 0 <= i < |order| ==>
          order[i] in backends
            && rules[i]
               == Rule(VHost(cfg, id, o, order[i]), o.route, backends[order[i]].name, PortOf(backends[order[i]]))
        decreases pending
      {
        var k :| k in pending;
        var svc := backends[k];
        if |svc.ports| == 0 { return false, rules, order; }
        rules := rules + [Rule(VHost(cfg, id, o, k), o.route, svc.name, svc.ports[0].port)];
        order := order + [k];
        pending := pending - {k};
      }
      ok := true;
    }

    method MergeIngressAndUpdate(name: string, i: Ingress, e: Ingress, id: InstanceID)
      returns (ok: bool, merged: Ingress)
      modifies cluster
      ensures merged == Merge(cfg.digest, id, e, i)
      ensures ok ==> cluster.failures == old(cluster.failures) && name in old(cluster.ingresses)
      ensures ok ==> cluster.Contents() == old(cluster.Contents()).(ingresses := old(cluster.ingresses)[name := merged])
      ensures !ok ==>
        && cluster.Contents() == old(cluster.Contents())
        && (name !in cluster.ingresses || cluster.failures > old(cluster.failures))
      ensures cluster.secrets == old(cluster.secrets)
    {
      hide Fill;
      merged := i.(uid := e.uid);
      if e.defaultBackend.Some? { merged := merged.(defaultBackend := e.defaultBackend); }
      var managed := IsManagedByCertManager(e.annotations);
      if |e.tls| > 0 && !managed {
        var tls := FillIngressTLS(id, i.rules);
        merged := merged.(tls := tls);
      }
      ok := cluster.UpdateIngress(name, merged);
    }

    /** Create the Ingress, or write it over the stored one when something changed. */
    method PutIngressObject(id: InstanceID, name: string, i: Ingress, got: Got<Ingress>)
      returns (ok: bool, stored: Ingress, isNew: bool)
      requires !got.Failed? && !(got.Found? && Frozen(got.value))
      requires got.Found? ==> name in cluster.ingresses && cluster.ingresses[name] == got.value
      requires got.NotFound? ==> name !in cluster.ingresses
      modifies cluster
      ensures ok ==>
        cluster.failures == old(cluster.failures) && name in cluster.ingresses && stored == cluster.ingresses[name]
      ensures ok ==>
        cluster.Contents() == Ingresses.Apply(cfg.digest, id, old(cluster.Contents()), Ingresses.PutIngress(name, i))
      ensures isNew == got.NotFound?
      ensures !ok ==> cluster.Contents() == old(cluster.Contents()) && cluster.failures > old(cluster.failures)
    {
      hide Changed, Merge, Frozen;
      isNew := got.NotFound?;
      if isNew {
        ok, stored := cluster.CreateIngress(name, i);
        return;
      }
      var changed := IngressHasChanges(got.value, i);
      if changed {
        ok, stored := MergeIngressAndUpdate(name, i, got.value, id);
      } else {
        ok, stored := true, got.value;
        assert cluster.ingresses[name := got.value] == cluster.ingresses;
      }
    }

    method BuildMain(ghost q: Request, id: InstanceID, o: EnsureOpts, target: BackendTarget, svc: Service,
                     rules: seq<Rule>)
      returns (i: Ingress)
      requires q.cfg == cfg && q.id == id && q.o == o && "default" in q.targets && target == q.targets["default"]
      requires svc == ServiceAt(q, "default")
      requires rules == Rules(q, q.order)
      ensures Clear(q) ==> i == MainIngress(q)
    {
      hide Labels, Fill, Rules, Clear, ServiceAt;
      var labels, annotations :=
        FillIngressMeta(map[BASE_NAMESPACE_LABEL := target.ns, BASE_NAME_LABEL := target.service], o.opts, id, o.team,
                        o.tags);
      ClearAnnotations(q, annotations);
      var tls: seq<TLS> := [];
      if o.opts.acme {
        tls := FillIngressTLS(id, rules);
        annotations := annotations[ACME_KEY := "true"];
      } else {
        annotations := CleanupCertManagerAnnotations(annotations);
      }
      if |o.cnames| > 0 { annotations := annotations[CNAMES_ANNOTATION := Join(o.cnames, ',')]; }
      i := Ingress(0, labels, annotations, ServiceOwner(svc.name, svc.uid), ClassName(cfg), None, rules, tls);
    }

    lemma ClearAnnotations(q: Request, annotations: map<string, string>)
      requires q.cfg == cfg
      requires
        Options.Unambiguous(AllOptions(cfg, q.o.opts), AnnotationRule(NamedOptions(cfg), cfg.annotationsPrefix)) ==>
        annotations
          == Options.Settle(cfg.annotations, AllOptions(cfg, q.o.opts),
                            AnnotationRule(NamedOptions(cfg), cfg.annotationsPrefix))
      ensures Clear(q) ==> annotations == Annotations(q)
    {
      hide AllOptions, NamedOptions;
    }

    /** The four certificate modes; an unknown issuer is an error. */
    method CertifyCName(ghost q: Request, id: InstanceID, o: EnsureOpts, cname: string,
                        annotations: map<string, string>, rules: seq<Rule>)
      returns (ok: bool, r: map<string, string>, tls: seq<TLS>)
      requires q.cfg == cfg && q.id == id && q.o == o
      ensures ok <==> !Unissued(q, cname)
      ensures ok && annotations == Annotations(q) ==> r == CNameAnnotations(q, cname)
      ensures ok ==>
        tls == if ModeOf(q, cname).Acme? || ModeOf(q, cname).Issued? then Fill(cfg.digest, id, rules) else []
    {
      hide Fill, Annotations, Uncertified, IssuerAnnotations, COMMON_NAME_KEY, ISSUER_KEY, CLUSTER_ISSUER_KEY,
           ISSUER_KIND_KEY, ISSUER_GROUP_KEY, CERT_MANAGER_KEYS, ACME_KEY;
      ok, r, tls := true, annotations, [];
      if o.opts.httpOnly {
        r := CleanupCertManagerAnnotations(r);
      } else if o.opts.acmeCName {
        tls := FillIngressTLS(id, rules);
        r := r[ACME_KEY := "true"];
      } else if Lookup(o.certIssuers, cname) == "" {
        r := CleanupCertManagerAnnotations(r);
      } else {
        var issuer := Lookup(o.certIssuers, cname);
        tls := FillIngressTLS(id, rules);
        r := r[CLUSTER_ISSUER_KEY := issuer];
        var data := cfg.issuers(issuer);
        if data.UnknownIssuer? { return false, r, tls; }
        CleanedAnyway(r, annotations);
        r := CleanupCertManagerAnnotations(r);
        r := AddIssuer(r, cname, data);
      }
    }

    method AddIssuer(annotations: map<string, string>, cname: string, data: IssuerData) returns (r: map<string, string>)
      requires !data.UnknownIssuer?
      ensures r == annotations[COMMON_NAME_KEY := cname] + IssuerAnnotations(data)
    {
      hide COMMON_NAME_KEY, ISSUER_KEY, CLUSTER_ISSUER_KEY, ISSUER_KIND_KEY, ISSUER_GROUP_KEY;
      r := annotations[COMMON_NAME_KEY := cname];
      match data {
        case NamespaceIssuer(n) => r := r[ISSUER_KEY := n];
        case ClusterIssuer(n) => r := r[CLUSTER_ISSUER_KEY := n];
        case ExternalIssuer(n, k, g) =>
          r := r[ISSUER_KEY := n];
          r := r[ISSUER_KIND_KEY := k];
          r := r[ISSUER_GROUP_KEY := g];
      }
    }

    lemma CleanedAnyway(r: map<string, string>, annotations: map<string, string>)
      requires r.Keys == annotations.Keys + {CLUSTER_ISSUER_KEY}
      requires forall k :: k in annotations && k != CLUSTER_ISSUER_KEY ==> r[k] == annotations[k]
      ensures Uncertified(r) == Uncertified(annotations)
    {
      hide ISSUER_KEY, CLUSTER_ISSUER_KEY, ISSUER_KIND_KEY, ISSUER_GROUP_KEY;
    }

    method BuildCName(ghost q: Request, id: InstanceID, o: EnsureOpts, cname: string, svc: Service, parent: nat)
      returns (ok: bool, i: Ingress)
      requires q.cfg == cfg && q.id == id && q.o == o && svc == ServiceAt(q, "default") && |svc.ports| > 0
      ensures ok <==> !Unissued(q, cname)
      ensures ok && Clear(q) ==> i == CNameIngress(q, cname, parent)
    {
      hide Labels, Fill, Clear, ServiceAt, ModeOf, CNameAnnotations, IngressName, Unissued;
      var labels, annotations := FillIngressMeta(
        map[BASE_NAMESPACE_LABEL := svc.ns, BASE_NAME_LABEL := svc.name, CNAME_INGRESS_LABEL := "true"],
        o.opts, id, o.team, o.tags);
      ClearAnnotations(q, annotations);
      var rules := [Rule(cname, o.opts.route, svc.name, svc.ports[0].port)];
      var tls;
      ok, annotations, tls := CertifyCName(q, id, o, cname, annotations, rules);
      i := Ingress(0, labels, annotations, IngressOwner(IngressName(cfg.digest, id), parent), ClassName(cfg), None,
                   rules, tls);
    }

    method EnsureCNameBackend(ghost q: Request, id: InstanceID, o: EnsureOpts, cname: string, svc: Service, parent: nat)
      returns (ok: bool, ghost done: seq<Action>)
      requires q.cfg == cfg && q.id == id && q.o == o && svc == ServiceAt(q, "default") && |svc.ports| > 0
      modifies cluster
      ensures Clear(q) ==> var plan := CNameActs(q, old(cluster.Contents()), cname, parent);
        done <= plan && (ok ==> done == plan) && cluster.Contents() == After(q, old(cluster.Contents()), done)
      ensures ok ==> cluster.failures == old(cluster.failures)
      ensures !ok ==> cluster.failures > old(cluster.failures) || Unissued(q, cname)
      ensures cluster.failures >= old(cluster.failures)
    {
      hide CNameIngress, IngressCName, SecretName, Clear, ServiceAt, Unissued, Ingresses.Apply, Changed, Merge;
      ghost var st := cluster.Contents();
      done := [];
      Nothing(q, st);
      var name := IngressCName(cfg.digest, id, cname);
      var got := cluster.GetIngress(name);
      if got.Failed? { return false, done; }
      if got.Found? && Frozen(got.value) {
        done := [Ingresses.PutIngress(name, CNameIngress(q, cname, parent))];
        FrozenPut(q, st, name, CNameIngress(q, cname, parent));
        return true, done;
      }
      var i;
      ok, i := BuildCName(q, id, o, cname, svc, parent);
      if !ok { return; }
      var stored, isNew;
      ok, stored, isNew := PutIngressObject(id, name, i, got);
      if !ok { return; }
      done := [Ingresses.PutIngress(name, i)];
      OneStep(q, st, Ingresses.PutIngress(name, i));
      if !isNew { PutStores(q, st, name, i); }
      if isNew || |stored.tls| > 0 { return; }
      ok := cluster.DeleteCertificate(SecretName(cfg.digest, id, cname));
      if !ok { return; }
      ApplySnoc(q, st, done, Ingresses.DropCertificate(SecretName(cfg.digest, id, cname)));
      CertificateDropped(q, After(q, st, done), SecretName(cfg.digest, id, cname));
      done := done + [Ingresses.DropCertificate(SecretName(cfg.digest, id, cname))];
    }

    lemma FrozenPut(q: Request, st: Store, name: string, i: Ingress)
      requires name in st.ingresses && Frozen(st.ingresses[name])
      ensures After(q, st, [Ingresses.PutIngress(name, i)]) == st
    {
      OneStep(q, st, Ingresses.PutIngress(name, i));
      assert st.ingresses[name := st.ingresses[name]] == st.ingresses;
    }

    lemma PutStores(q: Request, st: Store, name: string, i: Ingress)
      requires name in st.ingresses
      ensures var s := Ingresses.Apply(q.cfg.digest, q.id, st, Ingresses.PutIngress(name, i));
        name in s.ingresses && s.ingresses[name] == Stored(q.cfg.digest, q.id, st.ingresses[name], i)
    {
      hide Stored;
    }

    lemma CertificateDropped(q: Request, st: Store, n: string)
      ensures Ingresses.Apply(q.cfg.digest, q.id, st, Ingresses.DropCertificate(n))
          == st.(certificates := st.certificates - {n})
    {
    }

    method EnsureCNames(ghost q: Request, id: InstanceID, o: EnsureOpts, svc: Service, parent: nat)
      returns (ok: bool, ghost done: seq<Action>)
      requires q.cfg == cfg && q.id == id && q.o == o && svc == ServiceAt(q, "default") && |svc.ports| > 0
      modifies cluster
      ensures Clear(q) ==> var plan := CNamePlan(q, old(cluster.Contents()), o.cnames, parent);
        done <= plan && (ok ==> done == plan) && cluster.Contents() == After(q, old(cluster.Contents()), done)
      ensures ok ==> cluster.failures == old(cluster.failures)
      ensures !ok ==> cluster.failures > old(cluster.failures) || exists c :: c in o.cnames && Unissued(q, c)
      ensures cluster.failures >= old(cluster.failures)
    {
      hide Clear, ServiceAt, Unissued, ApplyAll, CNameActs;
      ghost var st := cluster.Contents();
      done := [];
      Nothing(q, st);
      for k := 0 to |o.cnames|
        invariant Clear(q) ==>
          done == CNamePlan(q, st, o.cnames[..k], parent) && cluster.Contents() == After(q, st, done)
        invariant cluster.failures == old(cluster.failures)
      {
        ghost var more;
        ok, more := EnsureCNameBackend(q, id, o, o.cnames[k], svc, parent);
        CNamePlanSnoc(q, st, o.cnames, parent, k);
        ApplyConcat(q, st, done, more);
        done := done + more;
        if !ok { return; }
      }
      assert o.cnames[..|o.cnames|] == o.cnames;
      ok := true;
    }

    method RemoveCNameBackends(ghost q: Request, id: InstanceID, cnames: seq<string>)
      returns (ok: bool, ghost done: seq<Action>)
      requires q.cfg == cfg && q.id == id
      modifies cluster
      ensures done <= Drops(q, cnames) && (ok ==> done == Drops(q, cnames))
      ensures cluster.Contents() == After(q, old(cluster.Contents()), done)
      ensures if ok then cluster.failures == old(cluster.failures) else cluster.failures > old(cluster.failures)
    {
      hide IngressCName, ApplyAll, Stored;
      ghost var st := cluster.Contents();
      done := [];
      Nothing(q, st);
      for k := 0 to |cnames|
        invariant done == Drops(q, cnames[..k])
        invariant cluster.Contents() == After(q, st, done)
        invariant cluster.failures == old(cluster.failures)
      {
        assert Drops(q, cnames[..k]) <= Drops(q, cnames);
        ok := cluster.DeleteIngress(IngressCName(cfg.digest, id, cnames[k]));
        if !ok { return; }
        ApplySnoc(q, st, done, DropIngress(IngressCName(cfg.digest, id, cnames[k])));
        assert Drops(q, cnames[..k + 1]) == done + [DropIngress(IngressCName(cfg.digest, id, cnames[k]))];
        done := done + [DropIngress(IngressCName(cfg.digest, id, cnames[k]))];
      }
      assert cnames[..|cnames|] == cnames;
      ok := true;
    }

    method ResolveServices(targets: map<string, BackendTarget>) returns (ok: bool, backends: map<string, Service>)
      modifies cluster`failures
      ensures ok ==> backends.Keys == targets.Keys && cluster.failures == old(cluster.failures)
      ensures ok ==>
        forall k :: k in targets ==> targets[k] in cluster.services && backends[k] == cluster.services[targets[k]]
      ensures !ok && (forall k :: k in targets ==> targets[k] in cluster.services) ==>
        cluster.failures > old(cluster.failures)
      ensures cluster.failures >= old(cluster.failures)
    {
      backends := map[];
      var pending := targets.Keys;
      while pending != {}
        invariant pending <= targets.Keys && backends.Keys == targets.Keys - pending
        invariant forall k :: k in backends ==>
          targets[k] in cluster.services && backends[k] == cluster.services[targets[k]]
        invariant cluster.failures == old(cluster.failures)
        decreases pending
      {
        var k :| k in pending;
        var got := cluster.GetService(targets[k]);
        if !got.Found? { return false, backends; }
        backends := backends[k := got.value];
        pending := pending - {k};
      }
      ok := true;
    }

    /** The writes of an Ensure whose main Ingress is not frozen. */
    method EnsureAll(ghost q: Request, id: InstanceID, o: EnsureOpts, main: Ingress, got: Got<Ingress>, svc: Service)
      returns (ok: bool, ghost done: seq<Action>)
      requires q.cfg == cfg && q.id == id && q.o == o && svc == ServiceAt(q, "default") && |svc.ports| > 0
      requires Clear(q) ==> main == MainIngress(q)
      requires !got.Failed? && !(got.Found? && Frozen(got.value))
      requires got.Found? ==> Main(q) in cluster.ingresses && cluster.ingresses[Main(q)] == got.value
      requires got.NotFound? ==> Main(q) !in cluster.ingresses
      modifies cluster
      ensures Clear(q) ==> var plan := EnsurePlan(q, old(cluster.Contents()));
        done <= plan && (ok ==> done == plan) && cluster.Contents() == After(q, old(cluster.Contents()), done)
      ensures ok ==> cluster.failures == old(cluster.failures)
      ensures !ok ==> cluster.failures > old(cluster.failures) || exists c :: c in o.cnames && Unissued(q, c)
      ensures cluster.failures >= old(cluster.failures)
    {
      hide Clear, ServiceAt, Unissued, ApplyAll, CNamePlan, Drops, MainIngress, IngressName, Without, Frozen,
           Ingresses.Apply, Split;
      ghost var st := cluster.Contents();
      done := [];
      Nothing(q, st);
      var stored, isNew;
      ghost var put := Ingresses.PutIngress(Main(q), main);
      ok, stored, isNew := PutIngressObject(id, IngressName(cfg.digest, id), main, got);
      if Clear(q) { PlanParts(q, st); }
      if !ok { return; }
      OneStep(q, st, put);
      done := [put];
      var existing: seq<string> := [];
      if got.Found? { existing := Split(Lookup(got.value.annotations, CNAMES_ANNOTATION), ','); }
      var toAdd, toRemove := DiffCNames(existing, o.cnames);
      ghost var s, more := cluster.Contents(), [];
      ok, more := EnsureCNames(q, id, o, svc, stored.uid);
      ApplyConcat(q, st, done, more);
      done := done + more;
      if !ok { return; }
      ok, more := RemoveCNameBackends(q, id, toRemove);
      ApplyConcat(q, st, done, more);
      done := done + more;
    }

    lemma PlanParts(q: Request, st: Store)
      requires !(Main(q) in st.ingresses && Frozen(st.ingresses[Main(q)]))
      ensures var s := After(q, st, [Ingresses.PutIngress(Main(q), MainIngress(q))]);
        EnsurePlan(q, st)
          == [Ingresses.PutIngress(Main(q), MainIngress(q))] + CNamePlan(q, s, q.o.cnames, MainUid(q, s))
            + Drops(q, Without(Existing(q, st), q.o.cnames))
    {
      hide CNamePlan, Drops, MainIngress, IngressName, ApplyAll;
    }

    /** The services and rules of a request; a missing default backend or port is a run-time panic. */
    method ResolveBackends(id: InstanceID, o: EnsureOpts)
      returns (outcome: Outcome, targets: map<string, BackendTarget>, svc: Service, rules: seq<Rule>,
               ghost order: seq<string>)
      modifies cluster`failures
      ensures !outcome.Stopped? && cluster.failures >= old(cluster.failures)
      ensures outcome.NoTarget? || BackendTargets(o.prefixes, o.opts.exposeAllServices) == Some(targets)
      ensures outcome.Done? ==> cluster.failures == old(cluster.failures) && Buildable(targets, cluster.services)
      ensures outcome.Done? ==> var q := Request(cfg, id, o, targets, cluster.services, order);
        && OnceEach(order) && (forall k :: k in order <==> k in targets)
        && rules == Rules(q, order) && svc == ServiceAt(q, "default") && |svc.ports| > 0
      ensures outcome.Panicked? ==> !Buildable(targets, cluster.services)
      ensures cluster.failures == old(cluster.failures) && outcome.NoService? ==> !Buildable(targets, cluster.services)
    {
      hide BackendTargets, Rules, ServiceAt;
      targets, svc, rules, order := map[], Service("", "", "", [], map[], map[], map[]), [], [];
      var found := GetBackendTargets(o.prefixes, o.opts.exposeAllServices);
      if found.None? { outcome := NoTarget; return; }
      targets := found.value;
      var ok, backends := ResolveServices(targets);
      if !ok { outcome := NoService; return; }
      if "default" !in backends { outcome := Panicked; return; }
      svc := backends["default"];
      ok, rules, order := BuildRules(id, o.opts, backends);
      if !ok { outcome := Panicked; return; }
      RulesAre(Request(cfg, id, o, targets, cluster.services, order), backends, rules);
      outcome := Done;
    }

    /** Ensure. A frozen main Ingress ends the call at once. */
    method Ensure(id: InstanceID, o: EnsureOpts) returns (outcome: Outcome, ghost q: Request, ghost done: seq<Action>)
      modifies cluster
      ensures outcome.NoTarget? || outcome.NoService? || outcome.Panicked? ==>
        cluster.Contents() == old(cluster.Contents())
      ensures q.cfg == cfg && q.id == id && q.o == o
      ensures (outcome.Done? || outcome.Stopped?) && Clear(q) ==>
        done <= EnsurePlan(q, old(cluster.Contents())) && cluster.Contents() == After(q, old(cluster.Contents()), done)
      ensures outcome.Done? ==> cluster.failures == old(cluster.failures)
      ensures outcome.Done? && Clear(q) ==> cluster.Contents() == Ensured(q, old(cluster.Contents()))
      ensures outcome.Done? && !(Main(q) in old(cluster.ingresses) && Frozen(old(cluster.ingresses)[Main(q)])) ==>
        && BackendTargets(o.prefixes, o.opts.exposeAllServices) == Some(q.targets) && q.services == cluster.services
        && OnceEach(q.order) && (forall k :: k in q.order <==> k in q.targets) && Buildable(q.targets, q.services)
      ensures outcome.Done? && Main(q) in old(cluster.ingresses) && Frozen(old(cluster.ingresses)[Main(q)]) ==>
        done == [] && cluster.Contents() == old(cluster.Contents())
      ensures cluster.failures == old(cluster.failures) && outcome.Stopped? ==>
        exists c :: c in o.cnames && Unissued(q, c)
      ensures outcome.Panicked? ==> !Buildable(q.targets, cluster.services)
      ensures cluster.failures == old(cluster.failures) && outcome.NoService? ==>
        !Buildable(q.targets, cluster.services)
    {
      hide Clear, ServiceAt, Unissued, ApplyAll, MainIngress, EnsurePlan, BackendTargets, Rules, Frozen, IngressName;
      ghost var st := cluster.Contents();
      q, done := Request(cfg, id, o, map[], cluster.services, []), [];
      Nothing(q, st);
      EmptyPrefix(q, st);
      var got := cluster.GetIngress(IngressName(cfg.digest, id));
      if got.Failed? { outcome := Stopped; return; }
      if got.Found? && Frozen(got.value) {
        FrozenPlan(q, st);
        outcome := Done;
        return;
      }
      var targets, svc, rules;
      ghost var order;
      outcome, targets, svc, rules, order := ResolveBackends(id, o);
      q := Request(cfg, id, o, targets, cluster.services, order);
      if outcome != Done { return; }
      var main := BuildMain(q, id, o, targets["default"], svc, rules);
      var ok;
      ok, done := EnsureAll(q, id, o, main, got, svc);
      outcome := if ok then Done else Stopped;
    }

    lemma EmptyPrefix(q: Request, st: Store)
      ensures [] <= EnsurePlan(q, st)
    {
      hide EnsurePlan;
    }

    lemma FrozenPlan(q: Request, st: Store)
      requires Main(q) in st.ingresses && Frozen(st.ingresses[Main(q)])
      ensures EnsurePlan(q, st) == [] && Ensured(q, st) == st
    {
    }

    lemma RulesAre(q: Request, backends: map<string, Service>, rules: seq<Rule>)
      requires q.cfg == cfg && backends.Keys == q.targets.Keys
      requires forall k :: k in q.targets ==> q.targets[k] in q.services && backends[k] == q.services[q.targets[k]]
      requires (forall k :: k in q.order <==> k in backends) && |rules| == |q.order|
      requires forall i :: 0 <= i < |q.order| ==>
        rules[i]
          == Rule(VHost(cfg, q.id, q.o.opts, q.order[i]), q.o.opts.route, backends[q.order[i]].name,
                  PortOf(backends[q.order[i]]))
      ensures rules == Rules(q, q.order)
      ensures "default" in backends ==> backends["default"] == ServiceAt(q, "default")
    {
      hide VHost;
    }

    method Remove(id: InstanceID) returns (ok: bool)
      modifies cluster
      ensures if ok then cluster.failures == old(cluster.failures) else cluster.failures > old(cluster.failures)
      ensures cluster.Contents() == if ok then Removed(cfg.digest, id, old(cluster.Contents()))
          else old(cluster.Contents())
    {
      hide IngressName;
      ok := cluster.DeleteIngressForeground(IngressName(cfg.digest, id));
    }

    /** The CName's own Ingress when it exists for this app, otherwise the main one. */
    ghost function Target(id: InstanceID, cert: string, ingresses: map<string, Ingress>): string {
      var n := IngressCName(cfg.digest, id, cert);
      if n in ingresses && Lookup(ingresses[n].labels, "tsuru.io/app-name") == id.appName then n
      else IngressName(cfg.digest, id)
    }

    method TargetIngress(id: InstanceID, cert: string) returns (ok: bool, name: string, i: Ingress)
      modifies cluster`failures
      ensures ok ==> cluster.failures == old(cluster.failures)
      ensures ok ==>
        name == Target(id, cert, cluster.ingresses) && name in cluster.ingresses && i == cluster.ingresses[name]
      ensures ok ==> var n := IngressCName(cfg.digest, id, cert);
        var own := n in cluster.ingresses && Lookup(cluster.ingresses[n].labels, "tsuru.io/app-name") == id.appName;
        (own ==> name == n) && (!own ==> name == IngressName(cfg.digest, id))
      ensures !ok ==>
        cluster.failures > old(cluster.failures) || Target(id, cert, cluster.ingresses) !in cluster.ingresses
      ensures cluster.failures >= old(cluster.failures)
    {
      assert APP_LABEL == "tsuru.io/app-name";
      hide IngressName, IngressCName, APP_LABEL;
      name, i := IngressCName(cfg.digest, id, cert), Ingress(0, map[], map[], ServiceOwner("", ""), None, None, [], []);
      var got := cluster.GetIngress(name);
      if got.Failed? { return false, name, i; }
      if got.Found? && Lookup(got.value.labels, APP_LABEL) == id.appName { return true, name, got.value; }
      name := IngressName(cfg.digest, id);
      got := cluster.GetIngress(name);
      if !got.Found? { return false, name, i; }
      return true, name, got.value;
    }

    method FindHost(rules: seq<Rule>, host: string) returns (found: bool)
      ensures found <==> exists k :: 0 <= k < |rules| && rules[k].host == host
    {
      for k := 0 to |rules|
        invariant forall j :: 0 <= j < k ==> rules[j].host != host
      {
        if rules[k].host == host { return true; }
      }
      found := false;
    }

    /**
      Certificates are refused for Ingresses that cert-manager or ACME manages, and for hosts the Ingress does not
      serve.
     */
    ghost predicate Accepts(i: Ingress, host: string) {
      && !Managed(i.annotations) && Lookup(i.annotations, "kubernetes.io/tls-acme") != "true"
      && exists k :: 0 <= k < |i.rules| && i.rules[k].host == host
    }

    method AddCertificate(id: InstanceID, cert: string, certificate: string, key: string) returns (outcome: CertOutcome)
      modifies cluster
      ensures outcome != OutOfBounds
      ensures outcome == Installed ==> cluster.failures == old(cluster.failures)
      ensures outcome == Installed ==>
        var n := Target(id, cert, old(cluster.ingresses)); var secret := SecretName(cfg.digest, id, cert);
        && n in old(cluster.ingresses) && Accepts(old(cluster.ingresses)[n], cert)
        && cluster.ingresses
           == old(cluster.ingresses)[
                n := old(cluster.ingresses)[n].(tls := Added(old(cluster.ingresses)[n].tls, cert, secret))]
        && cluster.secrets == old(cluster.secrets)[secret := Secret(id.appName, cert, certificate, key)]
        && HasEntry(cfg.digest, id, cluster.ingresses[n], cert) && !Managed(cluster.ingresses[n].annotations)
      ensures outcome != Installed ==> cluster.ingresses == old(cluster.ingresses)
      ensures outcome == Refused ==> cluster.secrets == old(cluster.secrets)
      ensures cluster.failures == old(cluster.failures) ==>
        var n := Target(id, cert, old(cluster.ingresses));
        && (outcome == Installed <==> n in old(cluster.ingresses) && Accepts(old(cluster.ingresses)[n], cert))
        && (outcome == Refused <==> n in old(cluster.ingresses) && !Accepts(old(cluster.ingresses)[n], cert))
    {
      assert ACME_KEY == "kubernetes.io/tls-acme";
      hide SecretName, Target, ACME_KEY;
      var ok, name, i := TargetIngress(id, cert);
      if !ok { return CertError; }
      var managed := IsManagedByCertManager(i.annotations);
      if managed { return Refused; }
      var found := FindHost(i.rules, cert);
      if !found { return Refused; }
      if Lookup(i.annotations, ACME_KEY) == "true" { return Refused; }
      var secret := SecretName(cfg.digest, id, cert);
      ok := cluster.PutSecret(secret, Secret(id.appName, cert, certificate, key));
      if !ok { return CertError; }
      var tls := AddEntry(i.tls, cert, secret);
      ok := cluster.UpdateIngress(name, i.(tls := tls));
      if !ok { return CertError; }
      outcome := Installed;
    }

    method RemoveCertificate(id: InstanceID, cert: string) returns (outcome: CertOutcome)
      modifies cluster
      ensures outcome == Installed ==>
        var n := Target(id, cert, old(cluster.ingresses)); var secret := SecretName(cfg.digest, id, cert);
        && n in old(cluster.ingresses) && InBounds(old(cluster.ingresses)[n].tls, cert)
        && cluster.ingresses
           == old(cluster.ingresses)[
                n := old(cluster.ingresses)[n].(tls := WithoutLast(old(cluster.ingresses)[n].tls, cert))]
        && secret in old(cluster.secrets) && cluster.secrets == old(cluster.secrets) - {secret}
      ensures outcome == Refused || outcome == OutOfBounds ==>
        cluster.ingresses == old(cluster.ingresses) && cluster.secrets == old(cluster.secrets)
      ensures cluster.failures == old(cluster.failures) ==>
        var n := Target(id, cert, old(cluster.ingresses));
        n in old(cluster.ingresses) ==> var i := old(cluster.ingresses)[n];
          && (outcome == Refused <==>
                Managed(i.annotations) || Lookup(i.annotations, "kubernetes.io/tls-acme") == "true")
          && (outcome == OutOfBounds <==> outcome != Refused && !InBounds(i.tls, cert))
          && (outcome == Installed <==>
                && outcome != Refused && outcome != OutOfBounds
                && SecretName(cfg.digest, id, cert) in old(cluster.secrets))
    {
      assert ACME_KEY == "kubernetes.io/tls-acme";
      hide SecretName, Target, ACME_KEY, InBounds;
      var ok, name, i := TargetIngress(id, cert);
      if !ok { return CertError; }
      if Lookup(i.annotations, ACME_KEY) == "true" { return Refused; }
      var managed := IsManagedByCertManager(i.annotations);
      if managed { return Refused; }
      var cut := RemoveEntries(i.tls, cert);
      if cut.Panic? { return OutOfBounds; }
      ok := cluster.UpdateIngress(name, i.(tls := cut.tls));
      if !ok { return CertError; }
      ok := cluster.DeleteSecret(SecretName(cfg.digest, id, cert));
      if !ok { return CertError; }
      outcome := Installed;
    }
  }
}

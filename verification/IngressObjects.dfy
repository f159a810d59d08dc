/**
  What the Ingresses of an Ensure read, in the terms of the request: names, hosts, labels, annotations, issuers
  and TLS entries as they are spelled in the store. An Ingress that already reads as wanted is not written.
 */
module IngressObjects {
  import opened Router
  import opened Strings
  import Options
  import opened Resources
  import opened Ingresses
  import opened IngressMerge
  import opened IngressFacts
  import opened IngressRuns

  // ----- names and hosts -----

  predicate MainNamed(q: Request, n: string) {
    Named(q.cfg.digest, q.id, "kubernetes-router-" + q.id.appName + "-ingress", 253, n)
  }

  predicate CNameNamed(q: Request, c: string, n: string) {
    Named(q.cfg.digest, q.id, "kubernetes-router-cname-" + c, 253, n)
  }

  predicate SecretNamed(q: Request, host: string, n: string) {
    Named(q.cfg.digest, q.id, "kr-" + q.id.appName + "-" + host, 253, n)
  }

  lemma NamesAre(q: Request, x: string, n: string)
    ensures MainNamed(q, n) <==> n == Main(q)
    ensures CNameNamed(q, x, n) <==> n == IngressCName(q.cfg.digest, q.id, x)
    ensures SecretNamed(q, x, n) <==> n == SecretName(q.cfg.digest, q.id, x)
  {
    hide Named, HashedName;
    HashedNameIs(q.cfg.digest, q.id, "kubernetes-router-" + q.id.appName + "-ingress", 253, n);
    HashedNameIs(q.cfg.digest, q.id, "kubernetes-router-cname-" + x, 253, n);
    HashedNameIs(q.cfg.digest, q.id, "kr-" + q.id.appName + "-" + x, 253, n);
  }

  /** The suffix is the router's own, or else the one asked for. */
  ghost predicate SuffixOf(q: Request, suffix: string) {
    suffix == if q.cfg.domainSuffix == "" then q.o.opts.domainSuffix else q.cfg.domainSuffix
  }

  lemma OwnHostMeans(q: Request, suffix: string, own: string)
    requires SuffixOf(q, suffix)
    ensures OwnHost(q.o.opts, q.id.appName, suffix, own) <==> own == VHost(q.cfg, q.id, q.o.opts, "default")
  {
    var o := q.o.opts;
    assert o.domainPrefix + "." + (q.id.appName + "." + suffix) == o.domainPrefix + "." + q.id.appName + "." + suffix;
    assert "" + o.domain == o.domain && "" + q.id.appName == q.id.appName && "" + o.domainPrefix == o.domainPrefix;
  }

  lemma VHostMeans(q: Request, suffix: string, key: string, host: string)
    requires SuffixOf(q, suffix)
    ensures HostIs(q.o.opts, q.id.appName, suffix, key, host) <==> host == VHost(q.cfg, q.id, q.o.opts, key)
  {
    hide VHost, OwnHost, SuffixOf;
    forall own
      ensures OwnHost(q.o.opts, q.id.appName, suffix, own) <==> own == VHost(q.cfg, q.id, q.o.opts, "default")
    {
      OwnHostMeans(q, suffix, own);
    }
    assert OwnHost(q.o.opts, q.id.appName, suffix, VHost(q.cfg, q.id, q.o.opts, "default"));
    if key != "default" { VHostSplits(q.cfg, q.id, q.o.opts, key); }
  }

  // ----- options as annotations -----

  /** The request has this option: as given, or "class" from the router's own class when that is an annotation. */
  ghost predicate Given(q: Request, option: string, value: string) {
    if option in q.o.opts.additionalOpts then value == q.o.opts.additionalOpts[option]
    else option == "class" && q.cfg.ingressClass != "" && !q.cfg.useIngressClassName && value == q.cfg.ingressClass
  }

  /** The option is about this annotation: by its configured name, by its own with a '/', or behind the prefix. */
  ghost predicate About(q: Request, option: string, name: string) {
    if option in q.cfg.optsAsAnnotations then name == q.cfg.optsAsAnnotations[option]
    else if option == "class" then name == "kubernetes.io/ingress.class"
    else if '/' in option || q.cfg.annotationsPrefix == "" then name == option
    else name == q.cfg.annotationsPrefix + "/" + option
  }

  ghost predicate Sets(q: Request, option: string, k: string, value: string) {
    Given(q, option, value) && About(q, option, k) && !(k != "" && k[|k| - 1] == '-')
  }

  /** The option takes annotation k away: it is about k with a dash behind it. */
  ghost predicate Unsets(q: Request, option: string, k: string) {
    (exists value :: Given(q, option, value)) && About(q, option, k + "-")
  }

  /** No two options ask for different values of one annotation. */
  ghost predicate Agreeing(q: Request) {
    Options.Unambiguous(AllOptions(q.cfg, q.o.opts), AnnotationRule(NamedOptions(q.cfg), q.cfg.annotationsPrefix))
  }

  lemma GivenExactly(q: Request, option: string, value: string)
    ensures Given(q, option, value) <==>
      option in AllOptions(q.cfg, q.o.opts) && AllOptions(q.cfg, q.o.opts)[option] == value
  {
  }

  lemma AboutExactly(q: Request, option: string, name: string)
    ensures About(q, option, name) <==>
      name == if option in NamedOptions(q.cfg) then NamedOptions(q.cfg)[option]
        else if '/' in option then option
        else if q.cfg.annotationsPrefix == "" then option
        else q.cfg.annotationsPrefix + "/" + option
  {
  }

  lemma EndsWith(k: string)
    ensures HasSuffix(k, '-') <==> k != "" && k[|k| - 1] == '-'
  {
  }

  lemma EffectMeans(q: Request, option: string, k: string)
    requires option in AllOptions(q.cfg, q.o.opts)
    ensures var v := AllOptions(q.cfg, q.o.opts)[option];
      var e := AnnotationEffect(NamedOptions(q.cfg), q.cfg.annotationsPrefix, option, v);
      && (Sets(q, option, k, v) <==> e == Options.Put(k, v))
      && (Unsets(q, option, k) <==> e == Options.Erase(k))
      && (e.Put? ==> e.value == v) && !e.Skip?
  {
    var named, prefix := NamedOptions(q.cfg), q.cfg.annotationsPrefix;
    var v := AllOptions(q.cfg, q.o.opts)[option];
    var name := if option in named then named[option] else if '/' in option then option
      else if prefix == "" then option else prefix + "/" + option;
    assert AnnotationEffect(named, prefix, option, v)
        == if HasSuffix(name, '-') then Options.Erase(name[..|name| - 1]) else Options.Put(name, v);
    GivenExactly(q, option, v);
    assert About(q, option, k) <==> k == name by { AboutExactly(q, option, k); }
    assert About(q, option, k + "-") <==> k + "-" == name by { AboutExactly(q, option, k + "-"); }
    hide About, HasSuffix, AnnotationEffect, NamedOptions, AllOptions, Given;
    SuffixIs(name, k, '-');
    EndsWith(k);
  }

  /** k reads v; it is there, unless v is empty and nothing was written. */
  ghost predicate Reads(annotations: map<string, string>, kept: bool, k: string, v: string) {
    Lookup(annotations, k) == v && (!kept ==> k in annotations)
  }

  /** k is not there, unless it was and nothing was written. */
  ghost predicate Lacks(annotations: map<string, string>, kept: bool, k: string) {
    k in annotations ==> kept
  }

  /** What the options and the configuration make of annotation k. */
  ghost predicate OptionReads(q: Request, annotations: map<string, string>, kept: bool, k: string) {
    && (forall o, v :: Sets(q, o, k, v) ==> Reads(annotations, kept, k, v))
    && ((exists o :: Unsets(q, o, k)) ==> Lacks(annotations, kept, k))
    && ((forall o, v :: !Sets(q, o, k, v)) && (forall o :: !Unsets(q, o, k)) ==>
         if k in q.cfg.annotations then Reads(annotations, kept, k, q.cfg.annotations[k])
         else Lacks(annotations, kept, k))
  }

  /** The effects on k are those of the options that set it or take it away. */
  lemma EffectsMean(q: Request, k: string)
    ensures var opts, rule := AllOptions(q.cfg, q.o.opts), AnnotationRule(NamedOptions(q.cfg), q.cfg.annotationsPrefix);
      && (forall o, v :: Sets(q, o, k, v) <==> o in opts && v == opts[o] && rule(o, opts[o]) == Options.Put(k, v))
      && (forall o :: Unsets(q, o, k) <==> o in opts && rule(o, opts[o]) == Options.Erase(k))
      && (forall o :: o in opts ==>
            !rule(o, opts[o]).Skip? && (rule(o, opts[o]).Put? ==> rule(o, opts[o]).value == opts[o]))
  {
    hide AnnotationEffect, About, AllOptions, NamedOptions, Given;
    var opts, rule := AllOptions(q.cfg, q.o.opts), AnnotationRule(NamedOptions(q.cfg), q.cfg.annotationsPrefix);
    forall o, v ensures Given(q, o, v) <==> o in opts && v == opts[o] { GivenExactly(q, o, v); }
    forall o | o in opts
      ensures Sets(q, o, k, opts[o]) <==> rule(o, opts[o]) == Options.Put(k, opts[o])
      ensures Unsets(q, o, k) <==> rule(o, opts[o]) == Options.Erase(k)
      ensures !rule(o, opts[o]).Skip? && (rule(o, opts[o]).Put? ==> rule(o, opts[o]).value == opts[o])
    {
      EffectMeans(q, o, k);
    }
  }

  lemma OptionsRead(q: Request, k: string)
    requires Agreeing(q)
    ensures OptionReads(q, Annotations(q), false, k)
  {
    hide Options.Settle, Options.Unambiguous, AnnotationRule, AllOptions, NamedOptions, Sets, Unsets;
    var opts, rule := AllOptions(q.cfg, q.o.opts), AnnotationRule(NamedOptions(q.cfg), q.cfg.annotationsPrefix);
    Options.SettleAt(q.cfg.annotations, opts, rule, k);
    EffectsMean(q, k);
    forall o | o in opts && rule(o, opts[o]).key == k
      ensures Sets(q, o, k, opts[o]) || Unsets(q, o, k)
    {
      assert rule(o, opts[o]) == Options.Put(k, opts[o]) || rule(o, opts[o]) == Options.Erase(k);
    }
  }

  // ----- what a put leaves -----

  /** Nothing is stored under n, or no one has frozen it. */
  predicate NotFrozen(st: Store, n: string) {
    n in st.ingresses ==> Lookup(st.ingresses[n].annotations, "router.tsuru.io/freeze") != "true"
  }

  /** r was there before and was not written. */
  predicate Kept(st: Store, n: string, r: Ingress) { n in st.ingresses && r == st.ingresses[n] }

  /** TLS was set on the Ingress by hand: it has entries, and no annotation of cert-manager. */
  predicate SetByHand(st: Store, n: string) {
    && n in st.ingresses && st.ingresses[n].tls != []
    && "cert-manager.io/issuer" !in st.ingresses[n].annotations
    && "cert-manager.io/cluster-issuer" !in st.ingresses[n].annotations
    && "cert-manager.io/issuer-kind" !in st.ingresses[n].annotations
    && "cert-manager.io/issuer-group" !in st.ingresses[n].annotations
  }

  /** One TLS entry for each rule: its host, with the host's own secret. */
  ghost predicate EntryPerRule(q: Request, r: Ingress) {
    && |r.tls| == |r.rules|
    && forall i :: 0 <= i < |r.tls| ==>
         r.tls[i].hosts == [r.rules[i].host] && SecretNamed(q, r.rules[i].host, r.tls[i].secret)
  }

  /** r is what a put of i leaves under n. */
  ghost predicate Left(q: Request, st: Store, n: string, i: Ingress, r: Ingress) {
    && r.rules == i.rules && r.className == i.className && r.owner == i.owner
    && (n in st.ingresses ==> r.uid == st.ingresses[n].uid && r.defaultBackend == st.ingresses[n].defaultBackend)
    && (n !in st.ingresses ==> r.defaultBackend == None)
    && (Kept(st, n, r) || (r.labels == i.labels && r.annotations == i.annotations))
    && (forall k :: k in i.labels ==> Lookup(r.labels, k) == i.labels[k])
    && (forall k :: k in i.annotations ==> Lookup(r.annotations, k) == i.annotations[k])
    && Lookup(r.annotations, CNAMES_ANNOTATION) == Lookup(i.annotations, CNAMES_ANNOTATION)
    && (if i.tls != [] || SetByHand(st, n) then EntryPerRule(q, r) else r.tls == [])
  }

  lemma FilledPerRule(q: Request, r: Ingress)
    requires r.tls == Fill(q.cfg.digest, q.id, r.rules)
    ensures EntryPerRule(q, r)
  {
    hide SecretNamed, SecretName;
    forall i | 0 <= i < |r.tls|
      ensures r.tls[i].hosts == [r.rules[i].host] && SecretNamed(q, r.rules[i].host, r.tls[i].secret)
    {
      assert r.tls[i] == EntryFor(q.cfg.digest, q.id, r.rules[i].host);
      NamesAre(q, r.rules[i].host, r.tls[i].secret);
    }
  }

  lemma ByHandMeans(st: Store, n: string)
    ensures SetByHand(st, n) <==>
      n in st.ingresses && st.ingresses[n].tls != [] && !Managed(st.ingresses[n].annotations)
  {
  }

  lemma PutLeft(q: Request, st: Store, n: string, i: Ingress, r: Ingress)
    requires TlsFits(q.cfg.digest, q.id, i) && NotFrozen(st, n)
    requires if n in st.ingresses then r == Stored(q.cfg.digest, q.id, st.ingresses[n], i)
      else exists u :: r == i.(uid := u)
    ensures Left(q, st, n, i, r)
  {
    hide Fill, EntryPerRule, SetByHand, Managed, CNAMES_ANNOTATION;
    ByHandMeans(st, n);
    if r.tls == Fill(q.cfg.digest, q.id, r.rules) { FilledPerRule(q, r); }
    assert |Fill(q.cfg.digest, q.id, i.rules)| > 0 by { FillLength(q.cfg.digest, q.id, i.rules); }
  }

  /** The labels of a stored Ingress: as wanted; when it was written, those and no others. */
  ghost predicate LabelsLeft(q: Request, labels: map<string, string>, kept: bool, own: map<string, string>) {
    exists wanted: map<string, string> ::
      && LabelsRead(wanted, own, q.cfg.labels, q.id, q.o.team, q.o.tags, q.cfg.qualified)
      && (forall k :: k in wanted ==> Lookup(labels, k) == wanted[k])
      && (!kept ==> labels == wanted)
  }

  // ----- the services behind a request -----

  /** Every backend has a service with a port, and there is a default one. */
  ghost predicate Served(q: Request) {
    && "default" in q.targets && (forall k :: k in q.order ==> k in q.targets)
    && forall k :: k in q.targets ==> q.targets[k] in q.services && q.services[q.targets[k]].ports != []
  }

  function ServiceOf(q: Request, key: string): Service
    requires key in q.targets && q.targets[key] in q.services
  {
    q.services[q.targets[key]]
  }

  ghost predicate SendsTo(rule: Rule, q: Request, svc: Service)
    requires svc.ports != []
  {
    rule.path == q.o.opts.route && rule.service == svc.name && rule.port == svc.ports[0].port
  }

  /** The class by name, when the router has one and names it so. */
  ghost predicate ClassReads(q: Request, className: Option<string>) {
    className == if q.cfg.useIngressClassName && q.cfg.ingressClass != "" then Some(q.cfg.ingressClass) else None
  }

  // ----- certificates -----

  /** What decides about the certificate of a CName. */
  ghost predicate HasIssuer(q: Request, c: string) {
    !q.o.opts.httpOnly && !q.o.opts.acmeCName && c in q.o.certIssuers && q.o.certIssuers[c] != ""
  }

  ghost predicate NoManager(annotations: map<string, string>, kept: bool) {
    && Lacks(annotations, kept, "cert-manager.io/issuer") && Lacks(annotations, kept, "cert-manager.io/cluster-issuer")
    && Lacks(annotations, kept, "cert-manager.io/issuer-kind")
    && Lacks(annotations, kept, "cert-manager.io/issuer-group")
  }

  /** The annotations of cert-manager for an issuer: which of the four there are, and what each reads. */
  ghost predicate IssuerReads(data: IssuerData, annotations: map<string, string>, kept: bool) {
    match data
    case NamespaceIssuer(name) =>
      && Reads(annotations, kept, "cert-manager.io/issuer", name)
      && Lacks(annotations, kept, "cert-manager.io/cluster-issuer")
      && Lacks(annotations, kept, "cert-manager.io/issuer-kind")
      && Lacks(annotations, kept, "cert-manager.io/issuer-group")
    case ClusterIssuer(name) =>
      && Reads(annotations, kept, "cert-manager.io/cluster-issuer", name)
      && Lacks(annotations, kept, "cert-manager.io/issuer")
      && Lacks(annotations, kept, "cert-manager.io/issuer-kind")
      && Lacks(annotations, kept, "cert-manager.io/issuer-group")
    case ExternalIssuer(name, kind, group) =>
      && Reads(annotations, kept, "cert-manager.io/issuer", name)
      && Reads(annotations, kept, "cert-manager.io/issuer-kind", kind)
      && Reads(annotations, kept, "cert-manager.io/issuer-group", group)
      && Lacks(annotations, kept, "cert-manager.io/cluster-issuer")
    case UnknownIssuer => true
  }

  /** The certificate annotations of a CName's Ingress, in each of the four modes. */
  ghost predicate CertificateReads(q: Request, c: string, annotations: map<string, string>, kept: bool) {
    if HasIssuer(q, c) then
      && Reads(annotations, kept, "cert-manager.io/common-name", c)
      && IssuerReads(q.cfg.issuers(q.o.certIssuers[c]), annotations, kept)
    else if q.o.opts.acmeCName && !q.o.opts.httpOnly then Reads(annotations, kept, "kubernetes.io/tls-acme", "true")
    else NoManager(annotations, kept)
  }

  /** The annotations that the certificate mode decides, and no option. */
  ghost predicate ModeDecides(q: Request, c: string, k: string) {
    if HasIssuer(q, c) then
      k in {"cert-manager.io/issuer", "cert-manager.io/cluster-issuer", "cert-manager.io/issuer-kind",
            "cert-manager.io/issuer-group", "cert-manager.io/common-name"}
    else if q.o.opts.acmeCName && !q.o.opts.httpOnly then k == "kubernetes.io/tls-acme"
    else k in {"cert-manager.io/issuer", "cert-manager.io/cluster-issuer", "cert-manager.io/issuer-kind",
               "cert-manager.io/issuer-group"}
  }

  lemma KeysSpelled()
    ensures ISSUER_KEY == "cert-manager.io/issuer" && CLUSTER_ISSUER_KEY == "cert-manager.io/cluster-issuer"
    ensures ISSUER_KIND_KEY == "cert-manager.io/issuer-kind" && ISSUER_GROUP_KEY == "cert-manager.io/issuer-group"
    ensures COMMON_NAME_KEY == "cert-manager.io/common-name" && ACME_KEY == "kubernetes.io/tls-acme"
    ensures |{ISSUER_KEY, CLUSTER_ISSUER_KEY, ISSUER_KIND_KEY, ISSUER_GROUP_KEY, COMMON_NAME_KEY}| == 5
  {
    assert |ISSUER_KEY| == 22 && |CLUSTER_ISSUER_KEY| == 30 && |ISSUER_GROUP_KEY| == 28;
    assert |ISSUER_KIND_KEY| == 27 && |COMMON_NAME_KEY| == 27;
    assert ISSUER_KIND_KEY[16] == 'i' && COMMON_NAME_KEY[16] == 'c';
  }

  lemma IssuerWanted(data: IssuerData, base: map<string, string>, c: string)
    requires !data.UnknownIssuer?
    ensures var wanted := Uncertified(base)[COMMON_NAME_KEY := c] + IssuerAnnotations(data);
      && Reads(wanted, false, "cert-manager.io/common-name", c) && IssuerReads(data, wanted, false)
      && forall k :: k !in CERT_MANAGER_KEYS && k != COMMON_NAME_KEY ==>
           (k in wanted <==> k in base) && (k in wanted ==> wanted[k] == base[k])
  {
    KeysSpelled();
    hide ISSUER_KEY, CLUSTER_ISSUER_KEY, ISSUER_KIND_KEY, ISSUER_GROUP_KEY, COMMON_NAME_KEY, ACME_KEY;
  }

  lemma CertificateWanted(q: Request, c: string)
    requires HasIssuer(q, c) ==> !q.cfg.issuers(q.o.certIssuers[c]).UnknownIssuer?
    ensures CertificateReads(q, c, CNameAnnotations(q, c), false)
    ensures forall k :: !ModeDecides(q, c, k) ==>
      (k in CNameAnnotations(q, c) <==> k in Annotations(q))
      && (k in CNameAnnotations(q, c) ==> CNameAnnotations(q, c)[k] == Annotations(q)[k])
  {
    KeysSpelled();
    hide Annotations, ISSUER_KEY, CLUSTER_ISSUER_KEY, ISSUER_KIND_KEY, ISSUER_GROUP_KEY, COMMON_NAME_KEY, ACME_KEY;
    if HasIssuer(q, c) {
      IssuerWanted(q.cfg.issuers(q.o.certIssuers[c]), Annotations(q), c);
      hide IssuerReads, IssuerAnnotations, Uncertified;
    }
  }

  /** What holds of the wanted annotations holds of what a put leaves. */
  lemma CertificateLeft(q: Request, c: string, wanted: map<string, string>, now: map<string, string>, kept: bool)
    requires CertificateReads(q, c, wanted, false)
    requires forall k :: k in wanted ==> Lookup(now, k) == wanted[k]
    requires kept || now == wanted
    ensures CertificateReads(q, c, now, kept)
  {
    hide HasIssuer;
  }

  lemma OptionLeft(q: Request, wanted: map<string, string>, now: map<string, string>, kept: bool, k: string)
    requires OptionReads(q, wanted, false, k)
    requires k in wanted ==> Lookup(now, k) == wanted[k]
    requires kept || now == wanted
    ensures OptionReads(q, now, kept, k)
  {
    hide Sets, Unsets;
  }

  // ----- the Ingress of a CName -----

  ghost predicate CNameReads(q: Request, c: string, owner: Owner, r: Ingress, kept: bool, byHand: bool)
    requires Served(q)
  {
    && |r.rules| == 1 && r.rules[0].host == c && SendsTo(r.rules[0], q, ServiceOf(q, "default"))
    && ClassReads(q, r.className) && r.owner == owner
    && CertificateReads(q, c, r.annotations, kept)
    && (if HasIssuer(q, c) || (q.o.opts.acmeCName && !q.o.opts.httpOnly) || byHand
        then |r.tls| == 1 && r.tls[0].hosts == [c] && SecretNamed(q, c, r.tls[0].secret) else r.tls == [])
    && LabelsLeft(q, r.labels, kept,
                  map["router.tsuru.io/base-service-namespace" := ServiceOf(q, "default").ns,
                      "router.tsuru.io/base-service-name" := ServiceOf(q, "default").name,
                      "router.tsuru.io/is-cname-ingress" := "true"])
  }

  lemma CNameLabels(q: Request, c: string, parent: nat)
    requires Served(q)
    ensures LabelsRead(CNameIngress(q, c, parent).labels,
                       map["router.tsuru.io/base-service-namespace" := ServiceOf(q, "default").ns,
                           "router.tsuru.io/base-service-name" := ServiceOf(q, "default").name,
                           "router.tsuru.io/is-cname-ingress" := "true"],
                       q.cfg.labels, q.id, q.o.team, q.o.tags, q.cfg.qualified)
  {
    LabelsAre(map["router.tsuru.io/base-service-namespace" := ServiceOf(q, "default").ns,
                  "router.tsuru.io/base-service-name" := ServiceOf(q, "default").name,
                  "router.tsuru.io/is-cname-ingress" := "true"],
              q.cfg.labels, q.id, q.o.team, q.o.tags, q.cfg.qualified);
    hide LabelsRead, TagLabels, CNameAnnotations, Fill;
  }

  lemma CNameSpec(q: Request, c: string, parent: nat)
    requires Served(q)
    ensures var i := CNameIngress(q, c, parent);
      && |i.rules| == 1 && i.rules[0].host == c && SendsTo(i.rules[0], q, ServiceOf(q, "default"))
      && ClassReads(q, i.className) && i.owner == IngressOwner(Main(q), parent)
      && i.annotations == CNameAnnotations(q, c)
      && (i.tls != [] <==> HasIssuer(q, c) || (q.o.opts.acmeCName && !q.o.opts.httpOnly))
  {
    hide Labels, CNameAnnotations, SecretName, IngressName;
  }

  /**
    The Ingress of a requested CName after a complete Ensure, unless someone froze it: its host, service and owner,
    its TLS entry, its labels, and exactly the certificate annotations of its mode and issuer.
   */
  lemma CNameWritten(q: Request, st: Store, c: string, m: string, n: string)
    requires WellFormed(q, Elements(Existing(q, st))) && Served(q) && c in q.o.cnames
    requires MainNamed(q, m) && NotFrozen(st, m) && CNameNamed(q, c, n) && NotFrozen(st, n)
    requires HasIssuer(q, c) ==> !q.cfg.issuers(q.o.certIssuers[c]).UnknownIssuer?
    ensures var after := Ensured(q, st).ingresses;
      && m in after && n in after
      && CNameReads(q, c, IngressOwner(m, after[m].uid), after[n], Kept(st, n, after[n]), SetByHand(st, n))
  {
    hide Ensured, WellFormed, MainNamed, CNameNamed, CNameIngress, CNameReads, CNameAnnotations, Left, Served,
         HasIssuer, SecretNamed, SetByHand, Stored, IngressName, IngressCName, Existing, TlsFits;
    NamesAre(q, c, m);
    NamesAre(q, c, n);
    EnsureMain(q, st);
    EnsureCName(q, st, c);
    var parent := MainUid(q, Ensured(q, st));
    CNameFits(q, c, parent);
    PutLeft(q, st, n, CNameIngress(q, c, parent), Ensured(q, st).ingresses[n]);
    CNameFromLeft(q, st, c, n, parent, Ensured(q, st).ingresses[n]);
  }

  lemma CNameFromLeft(q: Request, st: Store, c: string, n: string, parent: nat, r: Ingress)
    requires Served(q) && Left(q, st, n, CNameIngress(q, c, parent), r)
    requires HasIssuer(q, c) ==> !q.cfg.issuers(q.o.certIssuers[c]).UnknownIssuer?
    ensures CNameReads(q, c, IngressOwner(Main(q), parent), r, Kept(st, n, r), SetByHand(st, n))
  {
    hide CNameIngress, CNameAnnotations, HasIssuer, SecretNamed, SetByHand, IngressName, CertificateReads, LabelsRead,
         SendsTo, ClassReads, CNAMES_ANNOTATION;
    var i := CNameIngress(q, c, parent);
    CNameSpec(q, c, parent);
    CNameLabels(q, c, parent);
    CertificateWanted(q, c);
    CertificateLeft(q, c, i.annotations, r.annotations, Kept(st, n, r));
  }

  /** Its other annotations come from the options and the configuration. */
  lemma CNameOptionsWritten(q: Request, st: Store, c: string, m: string, n: string, k: string)
    requires WellFormed(q, Elements(Existing(q, st))) && Agreeing(q) && c in q.o.cnames
    requires MainNamed(q, m) && NotFrozen(st, m) && CNameNamed(q, c, n) && NotFrozen(st, n)
    requires HasIssuer(q, c) ==> !q.cfg.issuers(q.o.certIssuers[c]).UnknownIssuer?
    requires !ModeDecides(q, c, k)
    ensures n in Ensured(q, st).ingresses
    ensures var r := Ensured(q, st).ingresses[n]; OptionReads(q, r.annotations, Kept(st, n, r), k)
  {
    hide Ensured, WellFormed, MainNamed, CNameNamed, CNameReads, CNameAnnotations, Left, HasIssuer, Annotations,
         SecretNamed, SetByHand, Stored, IngressName, IngressCName, Existing, TlsFits, OptionReads, Agreeing,
         ModeDecides, CertificateReads, CNameIngress;
    NamesAre(q, c, m);
    NamesAre(q, c, n);
    EnsureCName(q, st, c);
    var parent := MainUid(q, Ensured(q, st));
    var i, r := CNameIngress(q, c, parent), Ensured(q, st).ingresses[n];
    CNameFits(q, c, parent);
    PutLeft(q, st, n, i, r);
    OptionsRead(q, k);
    CertificateWanted(q, c);
    assert OptionReads(q, CNameAnnotations(q, c), false, k) by {
      SameAt(q, Annotations(q), CNameAnnotations(q, c), k);
    }
    assert i.annotations == CNameAnnotations(q, c) by { CNameServesAnnotations(q, c, parent); }
    LeftAnnotations(q, st, n, i, r);
    OptionLeft(q, i.annotations, r.annotations, Kept(st, n, r), k);
  }

  lemma CNameServesAnnotations(q: Request, c: string, parent: nat)
    ensures CNameIngress(q, c, parent).annotations == CNameAnnotations(q, c)
  {
  }

  lemma LeftAnnotations(q: Request, st: Store, n: string, i: Ingress, r: Ingress)
    requires Left(q, st, n, i, r)
    ensures forall k :: k in i.annotations ==> Lookup(r.annotations, k) == i.annotations[k]
    ensures Kept(st, n, r) || r.annotations == i.annotations
  {
  }

  lemma SameAt(q: Request, a: map<string, string>, b: map<string, string>, k: string)
    requires OptionReads(q, a, false, k) && (k in a <==> k in b) && (k in a ==> a[k] == b[k])
    ensures OptionReads(q, b, false, k)
  {
    hide Sets, Unsets;
  }

  // ----- the main Ingress -----

  ghost predicate MainReads(q: Request, suffix: string, r: Ingress, kept: bool, byHand: bool)
    requires Served(q)
  {
    && |r.rules| == |q.order|
    && (forall i :: 0 <= i < |q.order| ==>
         && HostIs(q.o.opts, q.id.appName, suffix, q.order[i], r.rules[i].host)
         && SendsTo(r.rules[i], q, ServiceOf(q, q.order[i])))
    && ClassReads(q, r.className)
    && r.owner == ServiceOwner(ServiceOf(q, "default").name, ServiceOf(q, "default").uid)
    && Lookup(r.annotations, "router.tsuru.io/cnames") == Join(q.o.cnames, ',')
    && (if q.o.opts.acme then Reads(r.annotations, kept, "kubernetes.io/tls-acme", "true")
        else NoManager(r.annotations, kept))
    && (if q.o.opts.acme || byHand then EntryPerRule(q, r) else r.tls == [])
    && LabelsLeft(q, r.labels, kept,
                  map["router.tsuru.io/base-service-namespace" := q.targets["default"].ns,
                      "router.tsuru.io/base-service-name" := q.targets["default"].service])
  }

  lemma MainLabels(q: Request)
    requires Served(q)
    ensures LabelsRead(MainIngress(q).labels,
                       map["router.tsuru.io/base-service-namespace" := q.targets["default"].ns,
                           "router.tsuru.io/base-service-name" := q.targets["default"].service],
                       q.cfg.labels, q.id, q.o.team, q.o.tags, q.cfg.qualified)
  {
    LabelsAre(map["router.tsuru.io/base-service-namespace" := q.targets["default"].ns,
                  "router.tsuru.io/base-service-name" := q.targets["default"].service],
              q.cfg.labels, q.id, q.o.team, q.o.tags, q.cfg.qualified);
    hide LabelsRead, TagLabels, Annotations, Rules, Fill, Recording;
  }

  lemma MainSpec(q: Request, suffix: string)
    requires Served(q) && SuffixOf(q, suffix) && q.order != []
    ensures var i := MainIngress(q);
      && |i.rules| == |q.order|
      && (forall j :: 0 <= j < |q.order| ==>
           && HostIs(q.o.opts, q.id.appName, suffix, q.order[j], i.rules[j].host)
           && SendsTo(i.rules[j], q, ServiceOf(q, q.order[j])))
      && ClassReads(q, i.className)
      && i.owner == ServiceOwner(ServiceOf(q, "default").name, ServiceOf(q, "default").uid)
      && (i.tls != [] <==> q.o.opts.acme)
  {
    hide Labels, Annotations, SecretName, Recording, VHost, HostIs;
    forall j | 0 <= j < |q.order|
      ensures HostIs(q.o.opts, q.id.appName, suffix, q.order[j], MainIngress(q).rules[j].host)
    {
      assert q.order[j] in q.order;
      VHostMeans(q, suffix, q.order[j], VHost(q.cfg, q.id, q.o.opts, q.order[j]));
    }
  }

  /** The annotations that the main Ingress has for other reasons than an option. */
  ghost predicate MainDecides(q: Request, k: string) {
    || k == "router.tsuru.io/cnames"
    || (if q.o.opts.acme then k == "kubernetes.io/tls-acme"
        else k in {"cert-manager.io/issuer", "cert-manager.io/cluster-issuer", "cert-manager.io/issuer-kind",
                   "cert-manager.io/issuer-group"})
  }

  lemma MainAnnotations(q: Request)
    ensures var wanted := MainIngress(q).annotations;
      && (if q.o.opts.acme then Reads(wanted, false, "kubernetes.io/tls-acme", "true") else NoManager(wanted, false))
      && (forall k :: !MainDecides(q, k) ==>
           (k in wanted <==> k in Annotations(q)) && (k in wanted ==> wanted[k] == Annotations(q)[k]))
  {
    KeysSpelled();
    IngressMerge.KeysDiffer();
    hide Annotations, Rules, Fill, Labels, Join, ISSUER_KEY, CLUSTER_ISSUER_KEY, ISSUER_KIND_KEY, ISSUER_GROUP_KEY,
         COMMON_NAME_KEY, ACME_KEY;
  }

  /** The main Ingress after a complete Ensure, unless someone froze it. */
  lemma MainWritten(q: Request, st: Store, suffix: string, m: string)
    requires WellFormed(q, Elements(Existing(q, st))) && Served(q) && SuffixOf(q, suffix)
    requires MainNamed(q, m) && NotFrozen(st, m)
    ensures var after := Ensured(q, st).ingresses;
      m in after && MainReads(q, suffix, after[m], Kept(st, m, after[m]), SetByHand(st, m))
  {
    assert q.order != [];
    hide Ensured, WellFormed, MainNamed, MainIngress, MainReads, Left, Served, MainPut, CNamePlan,
         SecretNamed, SetByHand, Stored, IngressName, IngressCName, Existing, TlsFits, Join, SuffixOf;
    NamesAre(q, "", m);
    EnsureParts(q, st);
    EnsureMain(q, st);
    MainFits(q);
    PutLeft(q, st, m, MainIngress(q), Ensured(q, st).ingresses[m]);
    MainFromLeft(q, st, suffix, m, Ensured(q, st).ingresses[m]);
  }

  lemma MainFromLeft(q: Request, st: Store, suffix: string, m: string, r: Ingress)
    requires Served(q) && SuffixOf(q, suffix) && q.order != [] && Left(q, st, m, MainIngress(q), r)
    requires Lookup(r.annotations, CNAMES_ANNOTATION) == Join(q.o.cnames, ',')
    ensures MainReads(q, suffix, r, Kept(st, m, r), SetByHand(st, m))
  {
    hide MainIngress, SecretNamed, SetByHand, LabelsRead, SendsTo, ClassReads, HostIs, Join, EntryPerRule, SuffixOf;
    MainSpec(q, suffix);
    MainLabels(q);
    MainAnnotations(q);
  }

  /** Its other annotations come from the options and the configuration. */
  lemma MainOptionsWritten(q: Request, st: Store, m: string, k: string)
    requires WellFormed(q, Elements(Existing(q, st))) && Agreeing(q) && !MainDecides(q, k)
    requires MainNamed(q, m) && NotFrozen(st, m)
    ensures m in Ensured(q, st).ingresses
    ensures var r := Ensured(q, st).ingresses[m]; OptionReads(q, r.annotations, Kept(st, m, r), k)
  {
    assert q.order != [];
    hide Ensured, WellFormed, MainNamed, MainIngress, Left, MainPut, CNamePlan, Annotations, OptionReads, Agreeing,
         SecretNamed, SetByHand, Stored, IngressName, IngressCName, Existing, TlsFits, MainDecides, NoManager;
    NamesAre(q, "", m);
    EnsureParts(q, st);
    MainFits(q);
    var i, r := MainIngress(q), Ensured(q, st).ingresses[m];
    PutLeft(q, st, m, i, r);
    OptionsRead(q, k);
    MainAnnotations(q);
    SameAt(q, Annotations(q), i.annotations, k);
    LeftAnnotations(q, st, m, i, r);
    OptionLeft(q, i.annotations, r.annotations, Kept(st, m, r), k);
  }
}

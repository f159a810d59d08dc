/** The merge of a desired Ingress with the stored one: settling, rule order, ownership and TLS entries. */
module IngressMerge {
  import opened Router
  import opened Strings
  import opened Resources
  import opened Ingresses

  /** A desired Ingress has TLS for all its rules, or none and no cert-manager annotation. */
  predicate TlsFits(digest: Digest, id: InstanceID, i: Ingress) {
    && |i.rules| > 0 && i.defaultBackend.None?
    && (i.tls == Fill(digest, id, i.rules) || (i.tls == [] && !Managed(i.annotations)))
  }

  lemma KeysDiffer()
    ensures CNAMES_ANNOTATION !in CERT_MANAGER_KEYS && COMMON_NAME_KEY !in CERT_MANAGER_KEYS
    ensures CNAMES_ANNOTATION != ACME_KEY
    ensures FREEZE_ANNOTATION != CNAMES_ANNOTATION && FREEZE_ANNOTATION != ACME_KEY
    ensures FREEZE_ANNOTATION != COMMON_NAME_KEY
    ensures FREEZE_ANNOTATION !in CERT_MANAGER_KEYS && CNAMES_ANNOTATION != COMMON_NAME_KEY
  {
    assert CNAMES_ANNOTATION[0] == 'r' && FREEZE_ANNOTATION[0] == 'r' && ACME_KEY[0] == 'k'
        && COMMON_NAME_KEY[0] == 'c';
    assert ISSUER_KEY[0] == 'c' && CLUSTER_ISSUER_KEY[0] == 'c' && ISSUER_KIND_KEY[0] == 'c';
    assert ISSUER_GROUP_KEY[0] == 'c';
    assert |COMMON_NAME_KEY| == 27 && |ISSUER_KEY| == 22 && |CLUSTER_ISSUER_KEY| == 30 && |ISSUER_GROUP_KEY| == 28;
    assert |ISSUER_KIND_KEY| == 27 && ISSUER_KIND_KEY[16] == 'i' && COMMON_NAME_KEY[16] == 'c';
    assert FREEZE_ANNOTATION[16] == 'f' && CNAMES_ANNOTATION[16] == 'c';
  }

  lemma UncertifiedIsUnmanaged(annotations: map<string, string>)
    ensures !Managed(Uncertified(annotations))
  {
    hide CERT_MANAGER_KEYS;
  }

  lemma MainFits(q: Request)
    requires q.order != []
    ensures TlsFits(q.cfg.digest, q.id, MainIngress(q))
  {
    hide Labels, Annotations, RuleFor, SecretName, Join, CERT_MANAGER_KEYS;
    KeysDiffer();
    UncertifiedIsUnmanaged(Annotations(q));
  }

  lemma CNameFits(q: Request, c: string, parent: nat)
    ensures TlsFits(q.cfg.digest, q.id, CNameIngress(q, c, parent))
  {
    hide Labels, Annotations, SecretName, CERT_MANAGER_KEYS, IssuerAnnotations;
    UncertifiedIsUnmanaged(Annotations(q));
  }

  // ----- settling -----

  /** What a write stores is not worth another write of the same object. */
  lemma MergedIsUnchanged(digest: Digest, id: InstanceID, e: Ingress, i: Ingress)
    requires TlsFits(digest, id, i)
    ensures var m := Merge(digest, id, e, i); Changed(m, i) ==> Merge(digest, id, m, i) == m
  {
    hide SecretName, CERT_MANAGER_KEYS;
  }

  /** Put twice is put once, from any stored Ingress, in every certificate mode, write skipped or not. */
  lemma StoredTwice(digest: Digest, id: InstanceID, e: Ingress, i: Ingress)
    requires TlsFits(digest, id, i)
    ensures Stored(digest, id, Stored(digest, id, e, i), i) == Stored(digest, id, e, i)
  {
    hide Changed, Merge, Frozen, Fill;
    MergedIsUnchanged(digest, id, e, i);
  }

  lemma CreatedSettled(digest: Digest, id: InstanceID, i: Ingress, uid: nat)
    ensures Stored(digest, id, i.(uid := uid), i) == i.(uid := uid)
  {
    hide Frozen, Merge;
  }

  // ----- rule order -----

  /** Equal but for the order of rules and TLS entries. */
  ghost predicate SameContent(a: Ingress, b: Ingress) {
    && b == a.(rules := b.rules, tls := b.tls)
    && multiset(a.rules) == multiset(b.rules) && multiset(a.tls) == multiset(b.tls)
  }

  lemma FillReordered(digest: Digest, id: InstanceID, r: seq<Rule>, r': seq<Rule>)
    requires multiset(r) == multiset(r')
    ensures multiset(Fill(digest, id, r)) == multiset(Fill(digest, id, r'))
  {
    MappedReordered((x: Rule) => EntryFor(digest, id, x.host), r, r');
  }

  /** Two range orders over the same backends want the same main Ingress but for the order. */
  lemma MainReordered(q: Request, order: seq<string>)
    requires multiset(order) == multiset(q.order)
    ensures SameContent(MainIngress(q), MainIngress(q.(order := order)))
  {
    hide Labels, Annotations, RuleFor, Fill, Join, CERT_MANAGER_KEYS;
    var q' := q.(order := order);
    assert MainIngress(q') == MainIngress(q).(rules := MainIngress(q').rules, tls := MainIngress(q').tls) by {
      assert Annotations(q') == Annotations(q) by { SameAnnotations(q, q'); }
    }
    RulesReordered(q, q');
    FillReordered(q.cfg.digest, q.id, MainIngress(q).rules, MainIngress(q').rules);
  }

  lemma SameAnnotations(q: Request, q': Request)
    requires q' == q.(order := q'.order)
    ensures Annotations(q') == Annotations(q)
  {
  }

  lemma SameRule(q: Request, q': Request, key: string)
    requires q' == q.(order := q'.order)
    ensures RuleFor(q', key) == RuleFor(q, key)
  {
  }

  lemma RulesReordered(q: Request, q': Request)
    requires q' == q.(order := q'.order) && multiset(q'.order) == multiset(q.order)
    ensures multiset(Rules(q, q.order)) == multiset(Rules(q', q'.order))
  {
    hide RuleFor;
    MappedReordered(key => RuleFor(q, key), q.order, q'.order);
    forall key ensures RuleFor(q', key) == RuleFor(q, key) { SameRule(q, q', key); }
    assert Rules(q', q'.order) == Mapped(key => RuleFor(q, key), q'.order);
  }

  /**
    When the second run ranges over the backends in another order, the content is the same but for the
    order if and only if the first run wrote, or the second does not, or there was no annotation or label
    beyond the desired ones to lose.
   */
  lemma ReorderedExactly(digest: Digest, id: InstanceID, e: Ingress, i: Ingress, i': Ingress)
    requires TlsFits(digest, id, i) && TlsFits(digest, id, i') && SameContent(i, i') && !Frozen(e) && !Frozen(i)
    ensures SameContent(Stored(digest, id, Stored(digest, id, e, i), i'), Stored(digest, id, e, i))
       <==> Changed(e, i) || !Changed(e, i') || (e.annotations == i.annotations && e.labels == i.labels)
  {
    hide SecretName, Fill, CERT_MANAGER_KEYS;
    if Changed(e, i) {
      hide Changed;
      FilledAlike(digest, id, i, i');
    } else {
      hide Merge;
      assert Stored(digest, id, e, i) == e;
      if Changed(e, i') {
        MergedAlike(digest, id, e, i, i');
      }
    }
  }

  lemma FilledAlike(digest: Digest, id: InstanceID, i: Ingress, i': Ingress)
    requires TlsFits(digest, id, i) && TlsFits(digest, id, i') && SameContent(i, i')
    ensures multiset(Fill(digest, id, i.rules)) == multiset(Fill(digest, id, i'.rules))
    ensures |Fill(digest, id, i.rules)| == |Fill(digest, id, i'.rules)| == |i.rules| == |i'.rules|
  {
    hide SecretName, Fill, CERT_MANAGER_KEYS;
    FillReordered(digest, id, i.rules, i'.rules);
    assert |i.rules| == |multiset(i.rules)| == |multiset(i'.rules)| == |i'.rules|;
    FillLength(digest, id, i.rules);
    FillLength(digest, id, i'.rules);
  }

  /** A write over an Ingress that i would not have changed. */
  lemma MergedAlike(digest: Digest, id: InstanceID, e: Ingress, i: Ingress, i': Ingress)
    requires TlsFits(digest, id, i) && TlsFits(digest, id, i') && SameContent(i, i') && !Changed(e, i)
    ensures SameContent(Merge(digest, id, e, i'), e) <==> e.annotations == i.annotations && e.labels == i.labels
  {
    hide SecretName, Fill, CERT_MANAGER_KEYS;
    FilledAlike(digest, id, i, i');
  }

  /** A created Ingress keeps its content when the second run ranges in another order. */
  lemma CreatedReordered(digest: Digest, id: InstanceID, i: Ingress, i': Ingress, uid: nat)
    requires TlsFits(digest, id, i) && TlsFits(digest, id, i') && SameContent(i, i')
    ensures SameContent(Stored(digest, id, i.(uid := uid), i'), i.(uid := uid))
  {
    hide SecretName, Fill, CERT_MANAGER_KEYS, Changed;
    FillReordered(digest, id, i.rules, i'.rules);
    assert |i.tls| == |multiset(i.tls)| == |multiset(i'.tls)| == |i'.tls|;
    FillLength(digest, id, i.rules);
    FillLength(digest, id, i'.rules);
    assert |i.rules| == |multiset(i.rules)| == |multiset(i'.rules)| == |i'.rules|;
  }

  lemma FillLength(digest: Digest, id: InstanceID, rules: seq<Rule>)
    ensures |Fill(digest, id, rules)| == |rules|
  {
  }

  // ----- what a put leaves -----

  /** Ownership, record and freeze flag of an unfrozen Ingress after a put: written, or found equal already. */
  lemma PutLeaves(digest: Digest, id: InstanceID, e: Ingress, i: Ingress)
    requires !Frozen(e)
    ensures var s := Stored(digest, id, e, i);
      && s.uid == e.uid && s.owner == i.owner
      && Lookup(s.annotations, CNAMES_ANNOTATION) == Lookup(i.annotations, CNAMES_ANNOTATION)
      && (!Frozen(i) ==> !Frozen(s))
  {
    hide Fill, CERT_MANAGER_KEYS;
  }

  // ----- certificates -----

  /** The host's own TLS entry, with its own secret, is there. */
  ghost predicate HasEntry(digest: Digest, id: InstanceID, i: Ingress, host: string) {
    EntryFor(digest, id, host) in i.tls
  }

  predicate Serves(i: Ingress, host: string) {
    exists k :: 0 <= k < |i.rules| && i.rules[k].host == host
  }

  /** A put keeps a host's certificate as long as it keeps the host and cert-manager stays out. */
  lemma EntryKept(digest: Digest, id: InstanceID, e: Ingress, i: Ingress, host: string)
    requires HasEntry(digest, id, e, host) && !Managed(e.annotations) && Serves(i, host) && !Managed(i.annotations)
    ensures HasEntry(digest, id, Stored(digest, id, e, i), host) && !Managed(Stored(digest, id, e, i).annotations)
  {
    hide SecretName, CERT_MANAGER_KEYS;
    var k :| 0 <= k < |i.rules| && i.rules[k].host == host;
    assert Fill(digest, id, i.rules)[k] == EntryFor(digest, id, host);
  }

  /** The exact condition for one put: the entry is kept unless a write drops the host or TLS altogether. */
  lemma EntryKeptIff(digest: Digest, id: InstanceID, e: Ingress, i: Ingress, host: string)
    requires HasEntry(digest, id, e, host) && TlsFits(digest, id, i) && !Frozen(e)
    ensures HasEntry(digest, id, Stored(digest, id, e, i), host) <==>
      !Changed(e, i) || (Has(i, digest, id, host) && (!Managed(e.annotations) || i.tls != []))
  {
    hide SecretName, CERT_MANAGER_KEYS;
    assert |Fill(digest, id, i.rules)| == |i.rules|;
  }

  /** Some rule's filled-in entry is the host's. */
  ghost predicate Has(i: Ingress, digest: Digest, id: InstanceID, host: string) {
    EntryFor(digest, id, host) in Fill(digest, id, i.rules)
  }
}

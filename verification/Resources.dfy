/** What all routers take from the base service: resource names, backend targets and the CName difference. */
module Resources {
  import opened Router
  import opened Strings

  const APP_LABEL := "tsuru.io/app-name"
  const TEAM_LABEL := "tsuru.io/app-team"
  const INSTANCE_LABEL := "router.tsuru.io/instance"
  const BASE_NAMESPACE_LABEL := "router.tsuru.io/base-service-namespace"
  const BASE_NAME_LABEL := "router.tsuru.io/base-service-name"
  const CUSTOM_TAG_PREFIX := "tsuru.io/custom-tag-"
  const FREEZE_ANNOTATION := "router.tsuru.io/freeze"
  const CNAMES_ANNOTATION := "router.tsuru.io/cnames"
  const DEFAULT_SERVICE_PORT := 8888

  // ----- names -----

  /** The hexadecimal SHA-256 digest of a name, kept abstract. */
  type Digest = string -> string

  function WithInstance(id: InstanceID, name: string): string {
    if id.instanceName != "" then name + "-" + id.instanceName else name
  }

  function Shorten(digest: Digest, name: string, limit: nat): (r: string)
    requires limit >= 17
    ensures |r| <= limit
    ensures |name| <= limit ==> r == name
  {
    if |name| <= limit then name else name[..limit - 17] + "-" + Truncate(digest(name), 16)
  }

  function HashedName(digest: Digest, id: InstanceID, name: string, limit: nat): string
    requires limit >= 17
  {
    Shorten(digest, WithInstance(id, name), limit)
  }

  /**
    name is the resource name made of base: with the instance name behind it, and when that is too long, cut
    and with the start of its digest behind it.
   */
  predicate Named(digest: Digest, id: InstanceID, base: string, limit: nat, name: string)
    requires limit >= 17
  {
    var full := base + (if id.instanceName == "" then "" else "-" + id.instanceName);
    if |full| <= limit then name == full
    else |name| <= limit && name == full[..limit - 17] + "-" + Truncate(digest(full), 16)
  }

  lemma HashedNameIs(digest: Digest, id: InstanceID, base: string, limit: nat, name: string)
    requires limit >= 17
    ensures Named(digest, id, base, limit, name) <==> name == HashedName(digest, id, base, limit)
  {
    var full := base + (if id.instanceName == "" then "" else "-" + id.instanceName);
    assert base + "-" + id.instanceName == base + ("-" + id.instanceName);
    assert base + "" == base;
    assert full == WithInstance(id, base);
  }

  /** Truncation and hashing keep these names apart. */
  ghost predicate NoCollision(digest: Digest, names: set<string>, limit: nat)
    requires limit >= 17
  {
    forall a, b :: a in names && b in names && Shorten(digest, a, limit) == Shorten(digest, b, limit) ==> a == b
  }

  /**
    When two names are shortened to one: equal names, long names that agree on what is kept of them and on
    the start of their digests, or a short name that is spelled like a shortened one.
   */
  lemma ShortenCollidesExactly(digest: Digest, a: string, b: string, limit: nat)
    requires limit >= 17 && |a| <= |b|
    ensures Shorten(digest, a, limit) == Shorten(digest, b, limit) <==>
      || a == b
      || (|a| > limit && a[..limit - 17] == b[..limit - 17] && Truncate(digest(a), 16) == Truncate(digest(b), 16))
      || (|a| <= limit < |b| && a == b[..limit - 17] + "-" + Truncate(digest(b), 16))
  {
    if |a| > limit {
      var ra, rb := Shorten(digest, a, limit), Shorten(digest, b, limit);
      assert ra[..limit - 17] == a[..limit - 17] && ra[limit - 16..] == Truncate(digest(a), 16);
      assert rb[..limit - 17] == b[..limit - 17] && rb[limit - 16..] == Truncate(digest(b), 16);
    }
  }

  /** For one id, the instance suffix keeps distinct base names distinct. */
  lemma SuffixInjective(id: InstanceID, a: string, b: string)
    ensures WithInstance(id, a) == WithInstance(id, b) ==> a == b
  {
    if id.instanceName != "" && WithInstance(id, a) == WithInstance(id, b) {
      var suffix := "-" + id.instanceName;
      assert a + "-" + id.instanceName == a + suffix && b + "-" + id.instanceName == b + suffix;
      assert (a + suffix)[..|a|] == a && (b + suffix)[..|b|] == b;
    }
  }

  // ----- hosts -----

  /** own is the app's own host: the domain asked for, or the app under the suffix, behind a domain prefix if any. */
  ghost predicate OwnHost(o: Opts, appName: string, suffix: string, own: string) {
    && (o.domain != "" ==> own == o.domain)
    && (o.domain == "" && o.domainPrefix == "" ==> own == appName + "." + suffix)
    && (o.domain == "" && o.domainPrefix != "" ==> own == o.domainPrefix + "." + (appName + "." + suffix))
  }

  /** host is that of a backend key: the app's own for "default", otherwise the key, a dot and the app's own. */
  ghost predicate HostIs(o: Opts, appName: string, suffix: string, key: string, host: string) {
    exists own :: OwnHost(o, appName, suffix, own) && host == if key == "default" then own else key + "." + own
  }

  // ----- backend targets -----

  /** The map key a prefix is filed under. */
  function KeyOf(prefix: string): string {
    if prefix == "" then "default" else ReplaceAll(prefix, '_', "-")
  }

  /** An empty prefix is filed under "default", any other one under itself with dashes for its underscores. */
  predicate FiledUnder(prefix: string, key: string) {
    if prefix == "" then key == "default"
    else |key| == |prefix| && forall i :: 0 <= i < |key| ==> key[i] == if prefix[i] == '_' then '-' else prefix[i]
  }

  lemma KeyIsFiledUnder(prefix: string, key: string)
    ensures FiledUnder(prefix, key) <==> key == KeyOf(prefix)
  {
    ReplaceAllEach(prefix, '_', '-');
  }

  function AllBackends(prefixes: seq<BackendPrefix>): map<string, BackendTarget> {
    if prefixes == [] then map[]
    else
      var p := prefixes[|prefixes| - 1];
      AllBackends(prefixes[..|prefixes| - 1])[KeyOf(p.prefix) := p.target]
  }

  /** Prefix i is the last one filed under key. */
  ghost predicate LastUnder(prefixes: seq<BackendPrefix>, key: string, i: int) {
    && 0 <= i < |prefixes| && FiledUnder(prefixes[i].prefix, key)
    && forall j :: i < j < |prefixes| ==> !FiledUnder(prefixes[j].prefix, key)
  }

  /** Each key holds the target of the last prefix filed under it. */
  lemma {:induction false} LastPrefixWins(prefixes: seq<BackendPrefix>, key: string, i: int)
    requires LastUnder(prefixes, key, i)
    ensures key in AllBackends(prefixes) && AllBackends(prefixes)[key] == prefixes[i].target
  {
    hide FiledUnder, KeyOf;
    var n := |prefixes| - 1;
    KeyIsFiledUnder(prefixes[n].prefix, key);
    if i < n {
      assert !FiledUnder(prefixes[n].prefix, key);
      LastPrefixWins(prefixes[..n], key, i);
    }
  }

  /** Only the keys of listed prefixes appear. */
  lemma {:induction false} OnlyListedKeys(prefixes: seq<BackendPrefix>, key: string)
    requires key in AllBackends(prefixes)
    ensures exists i :: LastUnder(prefixes, key, i)
  {
    hide FiledUnder, KeyOf;
    var n := |prefixes| - 1;
    KeyIsFiledUnder(prefixes[n].prefix, key);
    if FiledUnder(prefixes[n].prefix, key) {
      assert LastUnder(prefixes, key, n);
    } else {
      OnlyListedKeys(prefixes[..n], key);
      var i :| LastUnder(prefixes[..n], key, i);
      assert LastUnder(prefixes, key, i) by {
        forall j | i < j < |prefixes| ensures !FiledUnder(prefixes[j].prefix, key) {
          if j < n { assert prefixes[..n][j] == prefixes[j]; }
        }
      }
    }
  }

  method AddAllBackends(prefixes: seq<BackendPrefix>) returns (targets: map<string, BackendTarget>)
    ensures targets == AllBackends(prefixes)
  {
    targets := map[];
    for i := 0 to |prefixes|
      invariant targets == AllBackends(prefixes[..i])
    {
      assert prefixes[..i + 1][..i] == prefixes[..i];
      if prefixes[i].prefix == "" {
        targets := targets["default" := prefixes[i].target];
        continue;
      }
      targets := targets[ReplaceAll(prefixes[i].prefix, '_', "-") := prefixes[i].target];
    }
    assert prefixes[..|prefixes|] == prefixes;
  }

  function FirstDefault(prefixes: seq<BackendPrefix>): (r: Option<BackendTarget>)
    ensures r.None? <==> forall i :: 0 <= i < |prefixes| ==> prefixes[i].prefix != ""
    ensures r.Some? ==> exists i ::
      && 0 <= i < |prefixes| && prefixes[i].prefix == "" && prefixes[i].target == r.value
      && forall j :: 0 <= j < i ==> prefixes[j].prefix != ""
  {
    if prefixes == [] then None
    else if prefixes[0].prefix == "" then Some(prefixes[0].target)
    else
      var r := FirstDefault(prefixes[1..]);
      assert forall i :: 1 <= i < |prefixes| ==> prefixes[i] == prefixes[1..][i - 1];
      r
  }

  method GetDefaultBackendTarget(prefixes: seq<BackendPrefix>) returns (r: Option<BackendTarget>)
    ensures r == FirstDefault(prefixes)
  {
    for i := 0 to |prefixes|
      invariant FirstDefault(prefixes) == FirstDefault(prefixes[i..])
    {
      if prefixes[i].prefix == "" { return Some(prefixes[i].target); }
      assert prefixes[i..][1..] == prefixes[i + 1..];
    }
    return None;
  }

  /** None stands for ErrNoBackendTarget. */
  function BackendTargets(prefixes: seq<BackendPrefix>, all: bool): (r: Option<map<string, BackendTarget>>)
    ensures r.Some? ==> r.value != map[]
    ensures r.Some? && !all ==> "default" in r.value
  {
    if all then
      if prefixes == [] then None
      else
        assert KeyOf(prefixes[|prefixes| - 1].prefix) in AllBackends(prefixes);
        Some(AllBackends(prefixes))
    else
      match FirstDefault(prefixes)
      case None => None
      case Some(t) =>
        assert "default" in map["default" := t];
        Some(map["default" := t])
  }

  /**
    The targets without reference to how they are collected: with all of them asked for, each key that some
    prefix is filed under, with the target of the last one; otherwise "default" alone, with the first default.
   */
  lemma BackendTargetsExactly(prefixes: seq<BackendPrefix>, key: string, i: int)
    ensures BackendTargets(prefixes, true).None? <==> prefixes == []
    ensures prefixes != [] ==>
      (key in BackendTargets(prefixes, true).value <==> exists j :: LastUnder(prefixes, key, j))
    ensures LastUnder(prefixes, key, i) ==> BackendTargets(prefixes, true).value[key] == prefixes[i].target
    ensures BackendTargets(prefixes, false).None? <==> forall j :: 0 <= j < |prefixes| ==> prefixes[j].prefix != ""
    ensures 0 <= i < |prefixes| && prefixes[i].prefix == "" && (forall j :: 0 <= j < i ==> prefixes[j].prefix != "") ==>
      BackendTargets(prefixes, false) == Some(map["default" := prefixes[i].target])
  {
    hide KeyOf, FiledUnder;
    if key in AllBackends(prefixes) { OnlyListedKeys(prefixes, key); }
    if j :| LastUnder(prefixes, key, j) { LastPrefixWins(prefixes, key, j); }
    if LastUnder(prefixes, key, i) { LastPrefixWins(prefixes, key, i); }
  }

  method GetBackendTargets(prefixes: seq<BackendPrefix>, all: bool) returns (r: Option<map<string, BackendTarget>>)
    ensures r == BackendTargets(prefixes, all)
  {
    var targets: map<string, BackendTarget> := map[];
    if all {
      targets := AddAllBackends(prefixes);
    } else {
      var base := GetDefaultBackendTarget(prefixes);
      if base.None? { return None; }
      targets := targets["default" := base.value];
    }
    assert prefixes != [] && all ==> KeyOf(prefixes[|prefixes| - 1].prefix) in targets;
    if |targets| <= 0 { return None; }
    return Some(targets);
  }

  // ----- CName lists -----

  /** The members of xs that are not in ys, in order and with repetitions. */
  function Without(xs: seq<string>, ys: seq<string>): (r: seq<string>)
    ensures forall x :: x in r <==> x in xs && x !in ys
    ensures (forall x :: x in xs ==> x in ys) ==> r == []
  {
    if xs == [] then []
    else
      var x := xs[|xs| - 1];
      Without(xs[..|xs| - 1], ys) + (if x in ys then [] else [x])
  }

  method DiffCNames(existing: seq<string>, expected: seq<string>) returns (toAdd: seq<string>, toRemove: seq<string>)
    ensures toAdd == Without(expected, existing)
    ensures toRemove == Without(existing, expected)
  {
    var mapExisting, mapExpected: set<string> := {}, {};
    toAdd, toRemove := [], [];
    for i := 0 to |existing|
      invariant forall x :: x in mapExisting <==> x in existing[..i]
    {
      mapExisting := mapExisting + {existing[i]};
    }
    for i := 0 to |expected|
      invariant forall x :: x in mapExpected <==> x in expected[..i]
      invariant toAdd == Without(expected[..i], existing)
    {
      assert expected[..i + 1][..i] == expected[..i];
      mapExpected := mapExpected + {expected[i]};
      if expected[i] !in mapExisting { toAdd := toAdd + [expected[i]]; }
    }
    assert expected[..|expected|] == expected;
    for i := 0 to |existing|
      invariant toRemove == Without(existing[..i], expected)
    {
      assert existing[..i + 1][..i] == existing[..i];
      if existing[i] !in mapExpected { toRemove := toRemove + [existing[i]]; }
    }
    assert existing[..|existing|] == existing;
  }

  // ----- tags -----

  /** The labels asked for by KEY=VALUE tags; malformed tags, empty keys and invalid label names are ignored. */
  function TagLabels(tags: seq<string>, qualified: string -> bool): (r: map<string, string>)
    ensures forall k :: k in r ==> HasPrefix(k, CUSTOM_TAG_PREFIX)
  {
    if tags == [] then map[]
    else
      var init := TagLabels(tags[..|tags| - 1], qualified);
      match CutAt(tags[|tags| - 1], '=')
      case NoCut => init
      case Cut(key, value) =>
        if key == "" || !qualified(CUSTOM_TAG_PREFIX + key) then init
        else init[CUSTOM_TAG_PREFIX + key := value]
  }

  method AddTagLabels(labels: map<string, string>, tags: seq<string>, qualified: string -> bool)
    returns (r: map<string, string>)
    ensures r == labels + TagLabels(tags, qualified)
  {
    hide CUSTOM_TAG_PREFIX, CutAt, HasPrefix;
    r := labels;
    for i := 0 to |tags|
      invariant r == labels + TagLabels(tags[..i], qualified)
    {
      assert tags[..i + 1][..i] == tags[..i];
      var parts := CutAt(tags[i], '=');
      if parts.NoCut? { continue; }
      if parts.before == "" { continue; }
      var name := CUSTOM_TAG_PREFIX + parts.before;
      if !qualified(name) { continue; }
      r := r[name := parts.after];
    }
    assert tags[..|tags|] == tags;
  }

  /** The tag asks for the label with this value. */
  ghost predicate TagSets(tag: string, name: string, value: string) {
    exists key :: key != "" && '=' !in key && name == "tsuru.io/custom-tag-" + key && tag == key + "=" + value
  }

  /** Tag i is the last one to ask for the label. */
  ghost predicate LastTag(tags: seq<string>, name: string, value: string, i: int) {
    && 0 <= i < |tags| && TagSets(tags[i], name, value)
    && forall j, v :: i < j < |tags| ==> !TagSets(tags[j], name, v)
  }

  lemma TagSetsExactly(tag: string, name: string, value: string)
    ensures TagSets(tag, name, value) <==>
      var cut := CutAt(tag, '=');
      cut.Cut? && cut.before != "" && name == CUSTOM_TAG_PREFIX + cut.before && value == cut.after
  {
    var cut := CutAt(tag, '=');
    if key :| key != "" && '=' !in key && name == "tsuru.io/custom-tag-" + key && tag == key + "=" + value {
      assert tag[|key|] == '=';
      CutIs(key, value, '=');
    }
  }

  /** What one tag more adds. */
  lemma TagStep(init: seq<string>, tag: string, qualified: string -> bool, name: string)
    ensures var was, r := TagLabels(init, qualified), TagLabels(init + [tag], qualified);
      && (forall v :: TagSets(tag, name, v) && qualified(name) ==> name in r && r[name] == v)
      && (!qualified(name) || (forall v :: !TagSets(tag, name, v)) ==>
           (name in r <==> name in was) && (name in r ==> r[name] == was[name]))
  {
    var tags, cut := init + [tag], CutAt(tag, '=');
    assert tags[..|tags| - 1] == init && tags[|tags| - 1] == tag;
    hide CutAt, CUSTOM_TAG_PREFIX, TagSets, HasPrefix;
    forall v ensures TagSets(tag, name, v) <==>
      cut.Cut? && cut.before != "" && name == CUSTOM_TAG_PREFIX + cut.before && v == cut.after
    {
      TagSetsExactly(tag, name, v);
    }
    if cut.Cut? {
      assert TagSets(tag, name, cut.after) <==> cut.before != "" && name == CUSTOM_TAG_PREFIX + cut.before;
    }
  }

  /** Some tag asks for the label. */
  ghost predicate Tagged(tags: seq<string>, name: string) {
    exists i, v :: 0 <= i < |tags| && TagSets(tags[i], name, v)
  }

  lemma TaggedSnoc(init: seq<string>, tag: string, name: string)
    ensures Tagged(init + [tag], name) <==> Tagged(init, name) || exists v :: TagSets(tag, name, v)
    ensures forall v :: TagSets(tag, name, v) ==> LastTag(init + [tag], name, v, |init|)
    ensures (forall v :: !TagSets(tag, name, v)) ==>
      forall i, v :: LastTag(init, name, v, i) ==> LastTag(init + [tag], name, v, i)
  {
    hide TagSets;
    var all := init + [tag];
    assert forall i :: 0 <= i < |init| ==> all[i] == init[i];
    assert all[|init|] == tag;
  }

  /** A label is there when some tag asks for it and its name is valid, and has the value of the last such tag. */
  lemma {:induction false} TagLabelsExactly(tags: seq<string>, qualified: string -> bool, name: string)
    ensures var r := TagLabels(tags, qualified);
      && (name in r <==> qualified(name) && Tagged(tags, name))
      && (name in r ==> exists i :: LastTag(tags, name, r[name], i))
  {
    if tags != [] {
      var n := |tags| - 1;
      var init, tag := tags[..n], tags[n];
      assert tags == init + [tag];
      TagLabelsExactly(init, qualified, name);
      TagStep(init, tag, qualified, name);
      TaggedSnoc(init, tag, name);
      hide TagLabels, TagSets, Tagged, LastTag;
      if v :| TagSets(tag, name, v) {
        assert LastTag(tags, name, v, n);
      }
    }
  }

  // ----- labels -----

  /**
    What label k of an object reads: the app and its team under their own names, then the last valid tag that
    asks for it, then what the router is configured with, then what the object itself brings.
   */
  ghost predicate LabelReads(labels: map<string, string>, own: map<string, string>, configured: map<string, string>,
                             id: InstanceID, team: string, tags: seq<string>, qualified: string -> bool, k: string)
  {
    if k == "tsuru.io/app-name" then k in labels && labels[k] == id.appName
    else if k == "tsuru.io/app-team" then k in labels && labels[k] == team
    else if qualified(k) && Tagged(tags, k) then
      k in labels && exists i :: LastTag(tags, k, labels[k], i)
    else if k in configured then k in labels && labels[k] == configured[k]
    else if k in own then k in labels && labels[k] == own[k]
    else k !in labels
  }

  ghost predicate LabelsRead(labels: map<string, string>, own: map<string, string>, configured: map<string, string>,
                             id: InstanceID, team: string, tags: seq<string>, qualified: string -> bool)
  {
    forall k :: LabelReads(labels, own, configured, id, team, tags, qualified, k)
  }

  lemma LabelsAre(own: map<string, string>, configured: map<string, string>, id: InstanceID, team: string,
                  tags: seq<string>, qualified: string -> bool)
    ensures LabelsRead((own + configured)[APP_LABEL := id.appName][TEAM_LABEL := team] + TagLabels(tags, qualified),
                       own, configured, id, team, tags, qualified)
  {
    hide LabelReads, TagLabels;
    var labels := (own + configured)[APP_LABEL := id.appName][TEAM_LABEL := team] + TagLabels(tags, qualified);
    forall k ensures LabelReads(labels, own, configured, id, team, tags, qualified, k) {
      LabelIs(own, configured, id, team, tags, qualified, k);
    }
  }

  lemma LabelIs(own: map<string, string>, configured: map<string, string>, id: InstanceID, team: string,
                tags: seq<string>, qualified: string -> bool, k: string)
    ensures LabelReads((own + configured)[APP_LABEL := id.appName][TEAM_LABEL := team] + TagLabels(tags, qualified),
                       own, configured, id, team, tags, qualified, k)
  {
    hide TagLabels, Tagged, LastTag;
    TagLabelsExactly(tags, qualified, k);
    assert !HasPrefix("tsuru.io/app-name", CUSTOM_TAG_PREFIX) && !HasPrefix("tsuru.io/app-team", CUSTOM_TAG_PREFIX) by {
      assert CUSTOM_TAG_PREFIX[9] == 'c' && "tsuru.io/app-name"[9] == 'a' && "tsuru.io/app-team"[9] == 'a';
    }
    assert "tsuru.io/app-name"[13] == 'n' && "tsuru.io/app-team"[13] == 't';
    var asked := TagLabels(tags, qualified);
    if k in asked { assert HasPrefix(k, CUSTOM_TAG_PREFIX); }
    if k == APP_LABEL {
    } else if k == TEAM_LABEL {
    } else if k in asked {
      var labels := (own + configured)[APP_LABEL := id.appName][TEAM_LABEL := team] + asked;
      var i :| LastTag(tags, k, asked[k], i);
      assert LastTag(tags, k, labels[k], i);
    } else if k in configured {
    }
  }
}

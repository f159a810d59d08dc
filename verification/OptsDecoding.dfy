/**
  Decoding the options of a request: headers fill in what the JSON body leaves out, then one range over
  the merged map sets the fields.
 */
module OptsDecoding {
  import opened Strings
  import opened Strconv
  import Options
  import Router

  const POOL := "tsuru.io/app-pool"
  const EXPOSED_PORT := "exposed-port"
  const DOMAIN := "domain"
  const DOMAIN_SUFFIX := "domain-suffix"
  const DOMAIN_PREFIX := "domain-prefix"
  const ROUTE := "route"
  const EXTERNAL_TRAFFIC_POLICY := "external-traffic-policy"
  const HTTP_ONLY := "http-only"
  const ACME := "tls-acme"
  const ACME_CNAME := "tls-acme-cname"
  const ALL_PREFIXES := "all-prefixes"

  /** The field an option name stands for. */
  datatype Field =
    | Pool | ExposedPort | Domain | DomainSuffix | DomainPrefix | Route | ExternalTrafficPolicy
    | HttpOnly | Acme | AcmeCName | AllPrefixes
    | Additional

  function FieldOf(key: string): Field {
    if key == POOL then Pool
    else if key == EXPOSED_PORT then ExposedPort
    else if key == DOMAIN then Domain
    else if key == DOMAIN_SUFFIX then DomainSuffix
    else if key == DOMAIN_PREFIX then DomainPrefix
    else if key == ROUTE then Route
    else if key == EXTERNAL_TRAFFIC_POLICY then ExternalTrafficPolicy
    else if key == HTTP_ONLY then HttpOnly
    else if key == ACME then Acme
    else if key == ACME_CNAME then AcmeCName
    else if key == ALL_PREFIXES then AllPrefixes
    else Additional
  }

  function NameOf(f: Field): string
    requires !f.Additional?
  {
    match f
    case Pool => POOL
    case ExposedPort => EXPOSED_PORT
    case Domain => DOMAIN
    case DomainSuffix => DOMAIN_SUFFIX
    case DomainPrefix => DOMAIN_PREFIX
    case Route => ROUTE
    case ExternalTrafficPolicy => EXTERNAL_TRAFFIC_POLICY
    case HttpOnly => HTTP_ONLY
    case Acme => ACME
    case AcmeCName => ACME_CNAME
    case AllPrefixes => ALL_PREFIXES
  }

  /** Each field has one name, and each name one field. */
  lemma NamesMatch(f: Field, key: string)
    requires !f.Additional?
    ensures FieldOf(key) == f <==> key == NameOf(f)
  {
    FieldNames();
  }

  lemma FieldNames()
    ensures FieldOf(POOL).Pool? && FieldOf(EXPOSED_PORT).ExposedPort? && FieldOf(DOMAIN).Domain?
    ensures FieldOf(DOMAIN_SUFFIX).DomainSuffix? && FieldOf(DOMAIN_PREFIX).DomainPrefix? && FieldOf(ROUTE).Route?
    ensures FieldOf(EXTERNAL_TRAFFIC_POLICY).ExternalTrafficPolicy? && FieldOf(HTTP_ONLY).HttpOnly?
    ensures FieldOf(ACME).Acme? && FieldOf(ACME_CNAME).AcmeCName? && FieldOf(ALL_PREFIXES).AllPrefixes?
  {
  }

  predicate IsFlag(f: Field) { f.HttpOnly? || f.Acme? || f.AcmeCName? || f.AllPrefixes? }

  /** A JSON value, as far as the decoder looks at it. */
  datatype Json = Text(text: string) | NotText

  type Fields = map<string, Json>

  /** The JSON body: not JSON or not an object, the literal null, or an object. */
  datatype Body = Malformed | Null | Object(fields: Fields)

  /** How decoding ends: an error is a body that does not parse or a flag that is no boolean. */
  datatype Outcome = Fine | Error | Panicked

  // ----- headers -----

  function HeaderKey(header: string): string {
    match CutAt(header, '=') case NoCut => header case Cut(key, _) => key
  }

  function HeaderValue(header: string): string {
    match CutAt(header, '=') case NoCut => "" case Cut(_, value) => value
  }

  /** A header is a key and a value with '=' between them, or a key alone, which stands for an empty value. */
  lemma HeaderMeans(key: string, value: string)
    requires '=' !in key
    ensures HeaderKey(key + "=" + value) == key && HeaderValue(key + "=" + value) == value
    ensures HeaderKey(key) == key && HeaderValue(key) == ""
  {
    CutIs(key, value, '=');
  }

  function WithHeaders(m: Fields, headers: seq<string>): Fields {
    if headers == [] then m
    else
      var done := WithHeaders(m, headers[..|headers| - 1]);
      var h := headers[|headers| - 1];
      if HeaderKey(h) in done then done else done[HeaderKey(h) := Text(HeaderValue(h))]
  }

  /** Header i is the first one for this key. */
  ghost predicate FirstFor(headers: seq<string>, key: string, i: int) {
    0 <= i < |headers| && HeaderKey(headers[i]) == key && forall j :: 0 <= j < i ==> HeaderKey(headers[j]) != key
  }

  /** The body beats the headers, and the first header for a key beats the later ones. */
  lemma {:induction false} HeaderPriority(m: Fields, headers: seq<string>, key: string)
    ensures var r := WithHeaders(m, headers);
      && (key in m ==> key in r && r[key] == m[key])
      && (key !in m && key in r ==> exists i :: FirstFor(headers, key, i) && r[key] == Text(HeaderValue(headers[i])))
      && (key !in m && key !in r ==> forall i :: 0 <= i < |headers| ==> HeaderKey(headers[i]) != key)
  {
    hide HeaderKey, HeaderValue;
    if headers != [] {
      var n := |headers| - 1;
      var init, h := headers[..n], headers[n];
      assert forall i :: 0 <= i < n ==> init[i] == headers[i];
      HeaderPriority(m, init, key);
      var done, r := WithHeaders(m, init), WithHeaders(m, headers);
      if key !in m && key in r {
        if key in done {
          var i :| FirstFor(init, key, i) && done[key] == Text(HeaderValue(init[i]));
          assert FirstFor(headers, key, i);
        } else {
          assert FirstFor(headers, key, n);
        }
      }
    }
  }

  // ----- fields -----

  predicate Has(m: Fields, key: string) { key in m && m[key].Text? }

  function TextOr(m: Fields, f: Field, default: string): string
    requires !f.Additional?
  {
    if Has(m, NameOf(f)) then m[NameOf(f)].text else default
  }

  function FlagOr(m: Fields, f: Field, default: bool): bool
    requires !f.Additional?
  {
    if Has(m, NameOf(f)) then IsTrue(m[NameOf(f)].text) else default
  }

  /** The free-form options in the map. */
  function FreeForm(m: Fields): map<string, string> {
    map k | k in m && m[k].Text? && FieldOf(k).Additional? :: m[k].text
  }

  /**
    The order-free meaning of the merged map: each known key sets its own field, all other texts are kept as they are.
   */
  function Decoded(o: Router.Opts, m: Fields): Router.Opts {
    o.(pool := TextOr(m, Pool, o.pool),
       exposedPort := TextOr(m, ExposedPort, o.exposedPort),
       domain := TextOr(m, Domain, o.domain),
       domainSuffix := TextOr(m, DomainSuffix, o.domainSuffix),
       domainPrefix := TextOr(m, DomainPrefix, o.domainPrefix),
       route := TextOr(m, Route, o.route),
       externalTrafficPolicy := TextOr(m, ExternalTrafficPolicy, o.externalTrafficPolicy),
       httpOnly := FlagOr(m, HttpOnly, o.httpOnly),
       acme := FlagOr(m, Acme, o.acme),
       acmeCName := FlagOr(m, AcmeCName, o.acmeCName),
       exposeAllServices := FlagOr(m, AllPrefixes, o.exposeAllServices),
       additionalOpts := o.additionalOpts + FreeForm(m))
  }

  // ----- the returned error -----

  predicate GoodFlag(m: Fields, key: string) { IsFlag(FieldOf(key)) && Has(m, key) && ParseBool(m[key].text).Some? }

  predicate BadFlag(m: Fields, key: string) { IsFlag(FieldOf(key)) && Has(m, key) && ParseBool(m[key].text).None? }

  /** Which entries make the error and which clear it. */
  lemma FlagsByName(m: Fields, key: string)
    ensures BadFlag(m, key) <==>
      && FlagName(key) && key in m && m[key].Text?
      && m[key].text !in {"1", "t", "T", "true", "TRUE", "True", "0", "f", "F", "false", "FALSE", "False"}
    ensures GoodFlag(m, key) <==>
      && FlagName(key) && key in m && m[key].Text?
      && m[key].text in {"1", "t", "T", "true", "TRUE", "True", "0", "f", "F", "false", "FALSE", "False"}
  {
    NamesWritten(key);
    hide FieldOf;
    if Has(m, key) { WordsParse(m[key].text); }
  }

  /** An order in which the range statement may visit the map. */
  ghost predicate Visits(order: seq<string>, m: Fields) {
    && (forall k :: k in order <==> k in m)
    && (forall i, j :: 0 <= i < j < |order| ==> order[i] != order[j])
  }

  /** The error variable after the keys in order: the last flag visited decides. */
  ghost predicate ErrorAfter(m: Fields, order: seq<string>) {
    if order == [] then false
    else
      var k := order[|order| - 1];
      if BadFlag(m, k) then true else if GoodFlag(m, k) then false else ErrorAfter(m, order[..|order| - 1])
  }

  /** An error means some flag is bad, and no error means some is good or none is bad. */
  lemma {:induction false} ErrorMeans(m: Fields, order: seq<string>)
    ensures ErrorAfter(m, order) ==> exists k :: k in order && BadFlag(m, k)
    ensures !ErrorAfter(m, order) && (exists k :: k in order && BadFlag(m, k)) ==>
      exists k :: k in order && GoodFlag(m, k)
  {
    hide BadFlag, GoodFlag;
    if order != [] {
      var n := |order| - 1;
      assert order == order[..n] + [order[n]];
      ErrorMeans(m, order[..n]);
    }
  }

  /**
    Whether decoding reports an error depends on the visiting order exactly when one flag is a boolean and another is
    not.
   */
  lemma ErrorOrderFreeExactly(m: Fields)
    ensures (forall p, q :: Visits(p, m) && Visits(q, m) ==> ErrorAfter(m, p) == ErrorAfter(m, q))
       <==> !((exists k :: GoodFlag(m, k)) && (exists k :: BadFlag(m, k)))
  {
    hide ErrorAfter, GoodFlag, BadFlag, Visits;
    if (exists k :: GoodFlag(m, k)) && (exists k :: BadFlag(m, k)) {
      var good :| GoodFlag(m, good);
      var bad :| BadFlag(m, bad);
      var p := EndingWith(m, good);
      var q := EndingWith(m, bad);
      OneOrOther(m, bad);
    } else {
      forall p, q | Visits(p, m) && Visits(q, m) ensures ErrorAfter(m, p) == ErrorAfter(m, q) {
        ErrorSettled(m, p);
        ErrorSettled(m, q);
      }
    }
  }

  lemma OneOrOther(m: Fields, k: string)
    requires BadFlag(m, k)
    ensures !GoodFlag(m, k)
  {
  }

  lemma EndingWith(m: Fields, k: string) returns (order: seq<string>)
    requires GoodFlag(m, k) || BadFlag(m, k)
    ensures Visits(order, m) && (ErrorAfter(m, order) <==> !GoodFlag(m, k))
  {
    order := Options.Last(Options.SomeOrder(m.Keys), k);
  }

  lemma ErrorSettled(m: Fields, order: seq<string>)
    requires Visits(order, m) && !((exists k :: GoodFlag(m, k)) && (exists k :: BadFlag(m, k)))
    ensures ErrorAfter(m, order) <==> exists k :: BadFlag(m, k)
  {
    ErrorMeans(m, order);
    hide ErrorAfter, GoodFlag, IsFlag, FieldOf;
    if exists k :: BadFlag(m, k) {
      var k :| BadFlag(m, k);
      assert k in order;
    }
  }

  // ----- the decoder -----

  function AssignText(o: Router.Opts, f: Field, v: string): Router.Opts {
    match f
    case Pool => o.(pool := v)
    case ExposedPort => o.(exposedPort := v)
    case Domain => o.(domain := v)
    case DomainSuffix => o.(domainSuffix := v)
    case DomainPrefix => o.(domainPrefix := v)
    case Route => o.(route := v)
    case ExternalTrafficPolicy => o.(externalTrafficPolicy := v)
    case _ => o
  }

  function AssignFlag(o: Router.Opts, f: Field, b: bool): Router.Opts {
    match f
    case HttpOnly => o.(httpOnly := b)
    case Acme => o.(acme := b)
    case AcmeCName => o.(acmeCName := b)
    case AllPrefixes => o.(exposeAllServices := b)
    case _ => o
  }

  // ----- the options by name -----

  /** A text field after decoding: what the option of that name says, or what it was. */
  ghost predicate TextIs(m: Fields, name: string, was: string, now: string) {
    now == if name in m && m[name].Text? then m[name].text else was
  }

  /** A flag after decoding: whether the option of that name says yes, or what it was. */
  ghost predicate FlagIs(m: Fields, name: string, was: bool, now: bool) {
    now == if name in m && m[name].Text? then m[name].text in {"1", "t", "T", "true", "TRUE", "True"} else was
  }

  ghost predicate KnownName(name: string) {
    name in {"tsuru.io/app-pool", "exposed-port", "domain", "domain-suffix", "domain-prefix", "route",
             "external-traffic-policy"}
      || FlagName(name)
  }

  ghost predicate FlagName(name: string) {
    name in {"http-only", "tls-acme", "tls-acme-cname", "all-prefixes"}
  }

  /** The additional options after decoding: every text under another name comes on top of what was there. */
  ghost predicate AdditionalAre(m: Fields, was: map<string, string>, now: map<string, string>) {
    forall k ::
      if k in m && m[k].Text? && !KnownName(k) then k in now && now[k] == m[k].text
      else (k in now <==> k in was) && (k in now ==> now[k] == was[k])
  }

  /** r is what a receiver o becomes when the options in m are taken in: field by field, with their written names. */
  ghost predicate TakesIn(o: Router.Opts, m: Fields, r: Router.Opts) {
    && TextIs(m, "tsuru.io/app-pool", o.pool, r.pool)
    && TextIs(m, "exposed-port", o.exposedPort, r.exposedPort)
    && TextIs(m, "domain", o.domain, r.domain)
    && TextIs(m, "domain-suffix", o.domainSuffix, r.domainSuffix)
    && TextIs(m, "domain-prefix", o.domainPrefix, r.domainPrefix)
    && TextIs(m, "route", o.route, r.route)
    && TextIs(m, "external-traffic-policy", o.externalTrafficPolicy, r.externalTrafficPolicy)
    && FlagIs(m, "http-only", o.httpOnly, r.httpOnly)
    && FlagIs(m, "tls-acme", o.acme, r.acme)
    && FlagIs(m, "tls-acme-cname", o.acmeCName, r.acmeCName)
    && FlagIs(m, "all-prefixes", o.exposeAllServices, r.exposeAllServices)
    && AdditionalAre(m, o.additionalOpts, r.additionalOpts)
    && r.headerOpts == o.headerOpts && r.gatewayName == o.gatewayName && r.gatewayNamespace == o.gatewayNamespace
  }

  /** Each written name stands for its own field, and any other name for none. */
  lemma NamesWritten(key: string)
    ensures FieldOf(key).Pool? <==> key == "tsuru.io/app-pool"
    ensures FieldOf(key).ExposedPort? <==> key == "exposed-port"
    ensures FieldOf(key).Domain? <==> key == "domain"
    ensures FieldOf(key).DomainSuffix? <==> key == "domain-suffix"
    ensures FieldOf(key).DomainPrefix? <==> key == "domain-prefix"
    ensures FieldOf(key).Route? <==> key == "route"
    ensures FieldOf(key).ExternalTrafficPolicy? <==> key == "external-traffic-policy"
    ensures FieldOf(key).HttpOnly? <==> key == "http-only"
    ensures FieldOf(key).Acme? <==> key == "tls-acme"
    ensures FieldOf(key).AcmeCName? <==> key == "tls-acme-cname"
    ensures FieldOf(key).AllPrefixes? <==> key == "all-prefixes"
    ensures FieldOf(key).Additional? <==> !KnownName(key)
    ensures IsFlag(FieldOf(key)) <==> FlagName(key)
  {
    FieldNames();
  }

  lemma NamesSpelled()
    ensures NameOf(Pool) == "tsuru.io/app-pool" && NameOf(ExposedPort) == "exposed-port" && NameOf(Domain) == "domain"
    ensures NameOf(DomainSuffix) == "domain-suffix" && NameOf(DomainPrefix) == "domain-prefix"
    ensures NameOf(Route) == "route" && NameOf(ExternalTrafficPolicy) == "external-traffic-policy"
    ensures NameOf(HttpOnly) == "http-only" && NameOf(Acme) == "tls-acme" && NameOf(AcmeCName) == "tls-acme-cname"
    ensures NameOf(AllPrefixes) == "all-prefixes"
  {
  }

  lemma TextWritten(m: Fields, f: Field, name: string, was: string)
    requires !f.Additional? && name == NameOf(f)
    ensures TextIs(m, name, was, TextOr(m, f, was))
  {
  }

  lemma FlagWritten(m: Fields, f: Field, name: string, was: bool)
    requires !f.Additional? && name == NameOf(f)
    ensures FlagIs(m, name, was, FlagOr(m, f, was))
  {
    if Has(m, name) { WordsParse(m[name].text); }
  }

  lemma AdditionalWritten(m: Fields, was: map<string, string>)
    ensures AdditionalAre(m, was, was + FreeForm(m))
  {
    forall k ensures FieldOf(k).Additional? <==> !KnownName(k) { NamesWritten(k); }
    hide FieldOf, KnownName;
  }

  /**
    What decoding means for the client: a text under each of the eleven names becomes, or parses to, the value
    of exactly its own field, a text under any other name is an additional option, and nothing else changes.
   */
  lemma DecodedByName(o: Router.Opts, m: Fields)
    ensures TakesIn(o, m, Decoded(o, m))
  {
    NamesSpelled();
    hide NameOf, POOL, EXPOSED_PORT, DOMAIN, DOMAIN_SUFFIX, DOMAIN_PREFIX, ROUTE, EXTERNAL_TRAFFIC_POLICY, HTTP_ONLY,
         ACME, ACME_CNAME, ALL_PREFIXES, TextIs, FlagIs, AdditionalAre, TextOr, FlagOr, FreeForm;
    TextWritten(m, Pool, "tsuru.io/app-pool", o.pool);
    TextWritten(m, ExposedPort, "exposed-port", o.exposedPort);
    TextWritten(m, Domain, "domain", o.domain);
    TextWritten(m, DomainSuffix, "domain-suffix", o.domainSuffix);
    TextWritten(m, DomainPrefix, "domain-prefix", o.domainPrefix);
    TextWritten(m, Route, "route", o.route);
    TextWritten(m, ExternalTrafficPolicy, "external-traffic-policy", o.externalTrafficPolicy);
    FlagWritten(m, HttpOnly, "http-only", o.httpOnly);
    FlagWritten(m, Acme, "tls-acme", o.acme);
    FlagWritten(m, AcmeCName, "tls-acme-cname", o.acmeCName);
    FlagWritten(m, AllPrefixes, "all-prefixes", o.exposeAllServices);
    AdditionalWritten(m, o.additionalOpts);
  }

  /** What the switch does with one entry. */
  function Assign(o: Router.Opts, k: string, v: string): (r: Router.Opts)
    ensures r.headerOpts == o.headerOpts
  {
    if FieldOf(k).Additional? then o.(additionalOpts := o.additionalOpts[k := v])
    else if IsFlag(FieldOf(k)) then AssignFlag(o, FieldOf(k), IsTrue(v))
    else AssignText(o, FieldOf(k), v)
  }

  lemma TextStep(done: Fields, k: string, v: Json, f: Field, t: string)
    requires k !in done && !f.Additional?
    ensures TextOr(done[k := v], f, t) == if v.Text? && FieldOf(k) == f then v.text else TextOr(done, f, t)
  {
    NamesMatch(f, k);
    hide FieldOf, NameOf;
  }

  lemma FlagStep(done: Fields, k: string, v: Json, f: Field, b: bool)
    requires k !in done && !f.Additional?
    ensures FlagOr(done[k := v], f, b) == if v.Text? && FieldOf(k) == f then IsTrue(v.text) else FlagOr(done, f, b)
  {
    NamesMatch(f, k);
    hide FieldOf, NameOf, IsTrue;
  }

  lemma FreeFormStep(base: map<string, string>, done: Fields, k: string, v: Json)
    requires k !in done
    ensures base + FreeForm(done[k := v]) ==
      if v.Text? && FieldOf(k).Additional? then (base + FreeForm(done))[k := v.text] else base + FreeForm(done)
  {
    hide FieldOf;
    assert FreeForm(done[k := v])
        == if v.Text? && FieldOf(k).Additional? then FreeForm(done)[k := v.text] else FreeForm(done);
  }

  function TextAt(o: Router.Opts, f: Field): string {
    match f
    case Pool => o.pool
    case ExposedPort => o.exposedPort
    case Domain => o.domain
    case DomainSuffix => o.domainSuffix
    case DomainPrefix => o.domainPrefix
    case Route => o.route
    case ExternalTrafficPolicy => o.externalTrafficPolicy
    case _ => ""
  }

  function FlagAt(o: Router.Opts, f: Field): bool {
    match f
    case HttpOnly => o.httpOnly
    case Acme => o.acme
    case AcmeCName => o.acmeCName
    case AllPrefixes => o.exposeAllServices
    case _ => false
  }

  predicate IsText(f: Field) { !IsFlag(f) && !f.Additional? }

  /** The fields decoding never touches. */
  predicate SameRest(a: Router.Opts, b: Router.Opts) {
    a.headerOpts == b.headerOpts && a.gatewayName == b.gatewayName && a.gatewayNamespace == b.gatewayNamespace
  }

  lemma SameOpts(a: Router.Opts, b: Router.Opts)
    requires SameRest(a, b) && a.additionalOpts == b.additionalOpts
    requires forall f :: TextAt(a, f) == TextAt(b, f) && FlagAt(a, f) == FlagAt(b, f)
    ensures a == b
  {
    assert TextAt(a, Pool) == TextAt(b, Pool) && TextAt(a, ExposedPort) == TextAt(b, ExposedPort);
    assert TextAt(a, Domain) == TextAt(b, Domain);
    assert TextAt(a, DomainSuffix) == TextAt(b, DomainSuffix) && TextAt(a, DomainPrefix) == TextAt(b, DomainPrefix);
    assert TextAt(a, Route) == TextAt(b, Route) && TextAt(a, ExternalTrafficPolicy) == TextAt(b, ExternalTrafficPolicy);
    assert FlagAt(a, HttpOnly) == FlagAt(b, HttpOnly) && FlagAt(a, Acme) == FlagAt(b, Acme);
    assert FlagAt(a, AcmeCName) == FlagAt(b, AcmeCName) && FlagAt(a, AllPrefixes) == FlagAt(b, AllPrefixes);
  }

  lemma DecodedAt(o: Router.Opts, m: Fields, f: Field)
    ensures TextAt(Decoded(o, m), f) == if IsText(f) then TextOr(m, f, TextAt(o, f)) else ""
    ensures FlagAt(Decoded(o, m), f) == if IsFlag(f) then FlagOr(m, f, FlagAt(o, f)) else false
  {
    hide TextOr, FlagOr, FreeForm;
  }

  lemma DecodedRest(o: Router.Opts, m: Fields)
    ensures SameRest(Decoded(o, m), o) && Decoded(o, m).additionalOpts == o.additionalOpts + FreeForm(m)
  {
    hide TextOr, FlagOr, FreeForm;
  }

  lemma TextAssigned(o: Router.Opts, g: Field, v: string, f: Field)
    requires IsText(g)
    ensures TextAt(AssignText(o, g, v), f) == if g == f then v else TextAt(o, f)
    ensures FlagAt(AssignText(o, g, v), f) == FlagAt(o, f)
    ensures SameRest(AssignText(o, g, v), o) && AssignText(o, g, v).additionalOpts == o.additionalOpts
  {
  }

  lemma FlagAssigned(o: Router.Opts, g: Field, b: bool, f: Field)
    requires IsFlag(g)
    ensures FlagAt(AssignFlag(o, g, b), f) == if g == f then b else FlagAt(o, f)
    ensures TextAt(AssignFlag(o, g, b), f) == TextAt(o, f)
    ensures SameRest(AssignFlag(o, g, b), o) && AssignFlag(o, g, b).additionalOpts == o.additionalOpts
  {
  }

  lemma AssignAt(o: Router.Opts, k: string, v: string, f: Field)
    ensures var r := Assign(o, k, v);
      && TextAt(r, f) == (if IsText(f) && FieldOf(k) == f then v else TextAt(o, f))
      && FlagAt(r, f) == (if IsFlag(f) && FieldOf(k) == f then IsTrue(v) else FlagAt(o, f))
      && SameRest(r, o)
      && r.additionalOpts == if FieldOf(k).Additional? then o.additionalOpts[k := v] else o.additionalOpts
  {
    hide FieldOf, IsTrue, AssignText, AssignFlag;
    var g := FieldOf(k);
    if g.Additional? {
    } else if IsFlag(g) {
      FlagAssigned(o, g, IsTrue(v), f);
    } else {
      TextAssigned(o, g, v, f);
    }
  }

  /** Taking in one more entry is one assignment, whatever was taken in before. */
  lemma DecodedStep(o: Router.Opts, done: Fields, k: string, v: Json)
    requires k !in done
    ensures Decoded(o, done[k := v]) == if v.Text? then Assign(Decoded(o, done), k, v.text) else Decoded(o, done)
  {
    hide Decoded, Assign, TextOr, FlagOr, FieldOf, TextAt, FlagAt, IsTrue, FreeForm, SameRest;
    var now, was := Decoded(o, done[k := v]), Decoded(o, done);
    var result := if v.Text? then Assign(was, k, v.text) else was;
    FreeFormStep(o.additionalOpts, done, k, v);
    DecodedRest(o, done[k := v]);
    DecodedRest(o, done);
    if v.Text? { AssignAt(was, k, v.text, Pool); }
    assert SameRest(now, result) by { RestSame(now, o, was, result); }
    forall f ensures TextAt(now, f) == TextAt(result, f) && FlagAt(now, f) == FlagAt(result, f) {
      DecodedAt(o, done[k := v], f);
      DecodedAt(o, done, f);
      if v.Text? { AssignAt(was, k, v.text, f); }
      if IsText(f) { TextStep(done, k, v, f, TextAt(o, f)); }
      if IsFlag(f) { FlagStep(done, k, v, f, FlagAt(o, f)); }
    }
    SameOpts(now, result);
  }

  lemma RestSame(a: Router.Opts, b: Router.Opts, c: Router.Opts, d: Router.Opts)
    requires SameRest(a, b) && SameRest(c, b) && (c == d || SameRest(d, c))
    ensures SameRest(a, d)
  {
  }

  /** The receiver of UnmarshalJSON. */
  class Opts {
    var pool: string
    var exposedPort: string
    var domain: string
    var route: string
    var domainSuffix: string
    var domainPrefix: string
    var externalTrafficPolicy: string
    var additionalOpts: map<string, string>
    var headerOpts: seq<string>
    var acme: bool
    var httpOnly: bool
    var acmeCName: bool
    var exposeAllServices: bool
    var gatewayName: string
    var gatewayNamespace: string

    constructor (o: Router.Opts)
      ensures Value() == o
    {
      pool, exposedPort, domain, route := o.pool, o.exposedPort, o.domain, o.route;
      domainSuffix, domainPrefix, externalTrafficPolicy := o.domainSuffix, o.domainPrefix, o.externalTrafficPolicy;
      additionalOpts, headerOpts := o.additionalOpts, o.headerOpts;
      acme, httpOnly, acmeCName, exposeAllServices := o.acme, o.httpOnly, o.acmeCName, o.exposeAllServices;
      gatewayName, gatewayNamespace := o.gatewayName, o.gatewayNamespace;
    }

    function Value(): Router.Opts
      reads this
    {
      Router.Opts(pool, exposedPort, domain, route, domainSuffix, domainPrefix, externalTrafficPolicy, additionalOpts,
                  headerOpts, acme, httpOnly, acmeCName, exposeAllServices, gatewayName, gatewayNamespace)
    }

    method SetText(f: Field, v: string)
      modifies this
      ensures Value() == AssignText(old(Value()), f, v)
    {
      match f
      case Pool => pool := v;
      case ExposedPort => exposedPort := v;
      case Domain => domain := v;
      case DomainSuffix => domainSuffix := v;
      case DomainPrefix => domainPrefix := v;
      case Route => route := v;
      case ExternalTrafficPolicy => externalTrafficPolicy := v;
      case _ =>
    }

    /** A flag that does not parse is false, and leaves the error behind. */
    method SetFlag(f: Field, v: string) returns (err: bool)
      requires IsFlag(f)
      modifies this
      ensures Value() == AssignFlag(old(Value()), f, IsTrue(v)) && err == ParseBool(v).None?
    {
      var b := ParseBool(v);
      hide ParseBool;
      err := b.None?;
      match f
      case HttpOnly => httpOnly := b == Router.Some(true);
      case Acme => acme := b == Router.Some(true);
      case AcmeCName => acmeCName := b == Router.Some(true);
      case AllPrefixes => exposeAllServices := b == Router.Some(true);
    }

    /** One entry taken in alone. */
    lemma OneEntry(o: Router.Opts, k: string, v: string)
      ensures TakesIn(o, map[k := Text(v)], Assign(o, k, v))
    {
      hide Decoded, Assign, TakesIn;
      NothingDecoded(o);
      DecodedStep(o, map[], k, Text(v));
      assert map[][k := Text(v)] == map[k := Text(v)];
      DecodedByName(o, map[k := Text(v)]);
    }

    /** One turn of the switch. */
    method Set(k: string, v: string, failed: bool) returns (err: bool)
      modifies this
      ensures Value() == Assign(old(Value()), k, v)
      ensures TakesIn(old(Value()), map[k := Text(v)], Value())
      ensures err == if IsFlag(FieldOf(k)) then ParseBool(v).None? else failed
      ensures err == if FlagName(k)
          then v !in {"1", "t", "T", "true", "TRUE", "True", "0", "f", "F", "false", "FALSE", "False"} else failed
    {
      OneEntry(Value(), k, v);
      NamesWritten(k);
      WordsParse(v);
      hide FieldOf, ParseBool, IsTrue, AssignText, AssignFlag, TakesIn, FlagName;
      err := failed;
      var f := FieldOf(k);
      if f.Additional? {
        additionalOpts := additionalOpts[k := v];
      } else if IsFlag(f) {
        err := SetFlag(f, v);
      } else {
        SetText(f, v);
      }
    }

    /** The fields do not depend on the order of the range; whether an error is reported may. */
    method UnmarshalJSON(body: Body) returns (r: Outcome, ghost order: seq<string>)
      modifies this
      ensures (r.Panicked? <==> body.Null? && headerOpts != []) && headerOpts == old(headerOpts)
      ensures body.Malformed? ==> r.Error? && Value() == old(Value())
      ensures !body.Malformed? && !r.Panicked? ==>
        var m := WithHeaders(if body.Null? then map[] else body.fields, headerOpts);
        && Visits(order, m) && Value() == Decoded(old(Value()), m) && TakesIn(old(Value()), m, Value())
        && (r.Error? <==> ErrorAfter(m, order))
    {
      hide Decoded, FieldOf, Assign, WithHeaders, ParseBool, TakesIn;
      order := [];
      if body.Malformed? { return Error, []; }
      if body.Null? && headerOpts != [] { return Panicked, []; }
      var m := MergeHeaders(if body.Null? then map[] else body.fields);
      var err := false;
      var pending := m.Keys;
      NothingDecoded(Value());
      assert m - pending == map[];
      while pending != {}
        invariant pending <= m.Keys
        invariant headerOpts == old(headerOpts)
        invariant forall k :: k in order <==> k in m && k !in pending
        invariant forall i, j :: 0 <= i < j < |order| ==> order[i] != order[j]
        invariant Value() == Decoded(old(Value()), m - pending)
        invariant err == ErrorAfter(m, order)
        decreases pending
      {
        var k :| k in pending;
        DecodedStep(old(Value()), m - pending, k, m[k]);
        assert (m - pending)[k := m[k]] == m - (pending - {k});
        ErrorStep(m, order, k);
        pending, order := pending - {k}, order + [k];
        if m[k].NotText? { continue; }
        err := Set(k, m[k].text, err);
      }
      assert m - {} == m;
      DecodedByName(old(Value()), m);
      r := if err then Error else Fine;
    }

    lemma NothingDecoded(o: Router.Opts)
      ensures Decoded(o, map[]) == o
    {
      assert o.additionalOpts + FreeForm(map[]) == o.additionalOpts;
    }

    lemma ErrorStep(m: Fields, order: seq<string>, k: string)
      requires k in m
      ensures ErrorAfter(m, order + [k]) ==
        if m[k].Text? && IsFlag(FieldOf(k)) then ParseBool(m[k].text).None? else ErrorAfter(m, order)
    {
      hide FieldOf, ParseBool;
      assert (order + [k])[..|order|] == order;
    }

    method MergeHeaders(fields: Fields) returns (m: Fields)
      ensures m == WithHeaders(fields, headerOpts)
    {
      hide CutAt;
      m := fields;
      for i := 0 to |headerOpts|
        invariant m == WithHeaders(fields, headerOpts[..i])
      {
        assert headerOpts[..i + 1][..i] == headerOpts[..i];
        var parts := CutAt(headerOpts[i], '=');
        var key := if parts.NoCut? then headerOpts[i] else parts.before;
        if key in m { continue; }
        var value := "";
        if parts.Cut? { value := parts.after; }
        m := m[key := Text(value)];
      }
      assert headerOpts[..|headerOpts|] == headerOpts;
    }
  }
}

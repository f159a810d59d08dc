/**
  How the routers turn a Go map of free-form options into labels and annotations.

  Go ranges over a map in an order that differs from one call to the next, so the result is
  only well defined when no two options disagree about the same target key.
 */
module Options {
  import opened Strings

  /** What one option does to the map being built. */
  datatype Effect = Skip | Put(key: string, value: string) | Erase(key: string)

  /** A router's rule for an option name and its value. */
  type Rule = (string, string) -> Effect

  function Act(m: map<string, string>, e: Effect): map<string, string> {
    match e
    case Skip => m
    case Put(k, v) => m[k := v]
    case Erase(k) => m - {k}
  }

  /** The options applied one by one, in the given iteration order. */
  function Run(base: map<string, string>, opts: map<string, string>, order: seq<string>, rule: Rule): map<string,
               string>
    requires forall o :: o in order ==> o in opts
  {
    if order == [] then base
    else
      var o := order[|order| - 1];
      Act(Run(base, opts, order[..|order| - 1], rule), rule(o, opts[o]))
  }

  /** An order in which one range statement may visit the options. */
  ghost predicate Visits(order: seq<string>, opts: map<string, string>) {
    && (forall o :: o in order <==> o in opts)
    && (forall i, j :: 0 <= i < j < |order| ==> order[i] != order[j])
  }

  /** No two options ask for different things at the same key. */
  ghost predicate Unambiguous(opts: map<string, string>, rule: Rule) {
    forall a, b :: a in opts && b in opts && Clash(rule(a, opts[a]), rule(b, opts[b])) ==>
      rule(a, opts[a]) == rule(b, opts[b])
  }

  /** Both effects are about the same key. */
  predicate Clash(x: Effect, y: Effect) {
    !x.Skip? && !y.Skip? && x.key == y.key
  }

  /** Some option asks to set or erase k. */
  ghost predicate Touched(opts: map<string, string>, rule: Rule, k: string) {
    exists o :: o in opts && !rule(o, opts[o]).Skip? && rule(o, opts[o]).key == k
  }

  /** The effect of the options on key k, when they agree about it. */
  ghost function EffectOn(opts: map<string, string>, rule: Rule, k: string): (e: Effect)
    requires Touched(opts, rule, k)
    ensures !e.Skip? && e.key == k
  {
    var o :| o in opts && !rule(o, opts[o]).Skip? && rule(o, opts[o]).key == k;
    rule(o, opts[o])
  }

  ghost function PutKeys(opts: map<string, string>, rule: Rule): set<string> {
    set o | o in opts && rule(o, opts[o]).Put? :: rule(o, opts[o]).key
  }

  /**
    The order-free meaning of the options: each key asked for gets what was asked, the others keep their base value.
   */
  ghost function Settle(base: map<string, string>, opts: map<string, string>, rule: Rule): (r: map<string, string>)
    ensures forall k :: k in r ==> k in base || k in PutKeys(opts, rule)
  {
    map k | k in base.Keys + PutKeys(opts, rule) && (Touched(opts, rule, k) ==> EffectOn(opts, rule, k).Put?) ::
      if Touched(opts, rule, k) then EffectOn(opts, rule, k).value else base[k]
  }

  /** What Run does at one key, for an order that lists each option once. */
  lemma {:induction false} RunAt(base: map<string, string>, opts: map<string, string>, order: seq<string>, rule: Rule,
                                 k: string)
    requires forall o :: o in order ==> o in opts
    requires Unambiguous(opts, rule)
    ensures var r := Run(base, opts, order, rule);
      if exists o :: o in order && !rule(o, opts[o]).Skip? && rule(o, opts[o]).key == k then
        Touched(opts, rule, k) &&
        var e := EffectOn(opts, rule, k);
        (e.Put? ==> k in r && r[k] == e.value) && (e.Erase? ==> k !in r)
      else (k in r <==> k in base) && (k in r ==> r[k] == base[k])
  {
    if order != [] {
      var init, o := order[..|order| - 1], order[|order| - 1];
      assert order == init + [o];
      assert o in opts;
      RunAt(base, opts, init, rule, k);
      var e := rule(o, opts[o]);
      if !e.Skip? && e.key == k {
        assert Touched(opts, rule, k);
        var o' :|
          o' in opts && !rule(o', opts[o']).Skip? && rule(o', opts[o']).key == k
            && rule(o', opts[o']) == EffectOn(opts, rule, k);
        assert Clash(e, rule(o', opts[o']));
      }
    }
  }

  /** The same at one key, for an order that visits every option. */
  lemma RunIsSettleAt(base: map<string, string>, opts: map<string, string>, order: seq<string>, rule: Rule, k: string)
    requires Visits(order, opts) && Unambiguous(opts, rule)
    ensures var r, s := Run(base, opts, order, rule), Settle(base, opts, rule);
      (k in r <==> k in s) && (k in r ==> r[k] == s[k])
  {
    RunAt(base, opts, order, rule, k);
    hide Run, Unambiguous;
    if Touched(opts, rule, k) {
      var o :| o in opts && !rule(o, opts[o]).Skip? && rule(o, opts[o]).key == k;
      assert o in order;
    } else {
      assert k !in PutKeys(opts, rule);
    }
  }

  /** Options that agree give one result, whatever order the map is ranged over in. */
  lemma RunIsSettle(base: map<string, string>, opts: map<string, string>, order: seq<string>, rule: Rule)
    requires Visits(order, opts) && Unambiguous(opts, rule)
    ensures Run(base, opts, order, rule) == Settle(base, opts, rule)
  {
    assert forall o :: o in order ==> o in opts;
    hide Run, Settle, Visits, Unambiguous, PutKeys;
    var r, s := Run(base, opts, order, rule), Settle(base, opts, rule);
    forall k ensures (k in r <==> k in s) && (k in r ==> r[k] == s[k]) {
      RunIsSettleAt(base, opts, order, rule, k);
    }
    SameMap(r, s);
  }

  lemma SameMap(r: map<string, string>, s: map<string, string>)
    requires forall k :: (k in r <==> k in s) && (k in r ==> r[k] == s[k])
    ensures r == s
  {
  }

  /** The settled map at one key: what some option does there, or what it was. */
  lemma SettleAt(base: map<string, string>, opts: map<string, string>, rule: Rule, k: string)
    requires Unambiguous(opts, rule)
    ensures var r := Settle(base, opts, rule);
      && (forall o :: o in opts && rule(o, opts[o]) == Erase(k) ==> k !in r)
      && (forall o, v :: o in opts && rule(o, opts[o]) == Put(k, v) ==> k in r && r[k] == v)
      && ((forall o :: o in opts ==> rule(o, opts[o]).Skip? || rule(o, opts[o]).key != k) ==>
           (k in r <==> k in base) && (k in r ==> r[k] == base[k]))
  {
    hide Run, Settle;
    var order := SomeOrder(opts.Keys);
    RunIsSettle(base, opts, order, rule);
    RunAt(base, opts, order, rule, k);
    if Touched(opts, rule, k) {
      var o :| o in opts && rule(o, opts[o]) == EffectOn(opts, rule, k);
      assert o in order;
      forall o' | o' in opts && !rule(o', opts[o']).Skip? && rule(o', opts[o']).key == k
        ensures rule(o', opts[o']) == rule(o, opts[o])
      {
        assert Clash(rule(o, opts[o]), rule(o', opts[o']));
      }
    }
  }

  /** Moves one option to the end of an order. */
  ghost function Last(order: seq<string>, o: string): (r: seq<string>)
    requires o in order
    requires forall i, j :: 0 <= i < j < |order| ==> order[i] != order[j]
    ensures |r| == |order| && r[|r| - 1] == o
    ensures forall x :: x in r <==> x in order
    ensures forall i, j :: 0 <= i < j < |r| ==> r[i] != r[j]
  {
    var i :| 0 <= i < |order| && order[i] == o;
    var r := order[..i] + order[i + 1..] + [o];
    assert order == order[..i] + [o] + order[i + 1..];
    r
  }

  /** The option visited last decides its key. */
  lemma LastDecides(base: map<string, string>, opts: map<string, string>, order: seq<string>, rule: Rule)
    requires Visits(order, opts) && order != []
    ensures var e := rule(order[|order| - 1], opts[order[|order| - 1]]); var r := Run(base, opts, order, rule);
      (e.Put? ==> e.key in r && r[e.key] == e.value) && (e.Erase? ==> e.key !in r)
  {
  }

  lemma DisagreementShows(base: map<string, string>, opts: map<string, string>, rule: Rule, a: string, b: string)
    returns (p: seq<string>, q: seq<string>)
    requires a in opts && b in opts && Clash(rule(a, opts[a]), rule(b, opts[b])) && rule(a, opts[a]) != rule(b, opts[b])
    ensures Visits(p, opts) && Visits(q, opts)
    ensures Run(base, opts, p, rule) != Run(base, opts, q, rule)
  {
    var order := SomeOrder(opts.Keys);
    p, q := Last(order, a), Last(order, b);
    LastDecides(base, opts, p, rule);
    LastDecides(base, opts, q, rule);
  }

  /**
    The exact condition: every pair of iteration orders gives the same result if and only if no two
    options disagree about a key.
   */
  lemma OrderIndependentExactly(base: map<string, string>, opts: map<string, string>, rule: Rule)
    ensures (forall p, q :: Visits(p, opts) && Visits(q, opts) ==> Run(base, opts, p, rule) == Run(base, opts, q, rule))
       <==> Unambiguous(opts, rule)
  {
    if Unambiguous(opts, rule) {
      forall p, q | Visits(p, opts) && Visits(q, opts) ensures Run(base, opts, p, rule) == Run(base, opts, q, rule) {
        RunIsSettle(base, opts, p, rule);
        RunIsSettle(base, opts, q, rule);
      }
    } else {
      var a, b :|
        a in opts && b in opts && Clash(rule(a, opts[a]), rule(b, opts[b])) && rule(a, opts[a]) != rule(b, opts[b]);
      var p, q := DisagreementShows(base, opts, rule, a, b);
    }
  }

  ghost function SomeOrder(s: set<string>): (r: seq<string>)
    ensures forall o :: o in r <==> o in s
    ensures forall i, j :: 0 <= i < j < |r| ==> r[i] != r[j]
  {
    if s == {} then [] else var x :| x in s; SomeOrder(s - {x}) + [x]
  }

  /** One option more is applied last. */
  lemma RunSnoc(base: map<string, string>, opts: map<string, string>, order: seq<string>, o: string, rule: Rule)
    requires o in opts && forall x :: x in order ==> x in opts
    ensures Run(base, opts, order + [o], rule) == Act(Run(base, opts, order, rule), rule(o, opts[o]))
  {
    assert (order + [o])[..|order|] == order;
  }

  /** The range loop itself, in whatever order Go picks. */
  method ApplyOptions(base: map<string, string>, opts: map<string, string>, rule: Rule)
    returns (r: map<string, string>, ghost order: seq<string>)
    ensures Visits(order, opts) && r == Run(base, opts, order, rule)
    ensures Unambiguous(opts, rule) ==> r == Settle(base, opts, rule)
  {
    r, order := base, [];
    assert r == Run(base, opts, order, rule);
    hide Run, Act, Settle, Clash;
    var pending := opts.Keys;
    while pending != {}
      invariant pending <= opts.Keys
      invariant forall o :: o in order <==> o in opts && o !in pending
      invariant forall i, j :: 0 <= i < j < |order| ==> order[i] != order[j]
      invariant r == Run(base, opts, order, rule)
      decreases pending
    {
      var o :| o in pending;
      RunSnoc(base, opts, order, o, rule);
      r := Act(r, rule(o, opts[o]));
      order := order + [o];
      pending := pending - {o};
    }
    if Unambiguous(opts, rule) { RunIsSettle(base, opts, order, rule); }
  }

  /** A plain map copy, for k, v := range src { dst[k] = v }, gives the same map in every order. */
  method CopyInto(dst: map<string, string>, src: map<string, string>) returns (r: map<string, string>)
    ensures r == dst + src
  {
    r := dst;
    var pending := src.Keys;
    while pending != {}
      invariant pending <= src.Keys
      invariant forall k :: k in r <==> k in dst || (k in src && k !in pending)
      invariant forall k :: k in r ==> r[k] == (if k in src && k !in pending then src[k] else dst[k])
      decreases pending
    {
      var k :| k in pending;
      r := r[k := src[k]];
      pending := pending - {k};
    }
  }

  /** Whether some wanted entry reads differently in what is there; a missing entry reads as empty. */
  method Differs(have: map<string, string>, want: map<string, string>) returns (r: bool)
    ensures r <==> exists k :: k in want && Lookup(have, k) != want[k]
  {
    var pending := want.Keys;
    while pending != {}
      invariant pending <= want.Keys
      invariant forall k :: k in want && k !in pending ==> Lookup(have, k) == want[k]
      decreases pending
    {
      var k :| k in pending;
      if Lookup(have, k) != want[k] { return true; }
      pending := pending - {k};
    }
    r := false;
  }
}

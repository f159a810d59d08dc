/** The string operations of Go's standard library that the routers rely on. */
module Strings {

  /** A Go map read: a missing key yields the empty string. */
  function Lookup(m: map<string, string>, k: string): string {
    if k in m then m[k] else ""
  }

  /** strings.Split with a one-character separator: never empty. */
  function Split(s: string, sep: char): (parts: seq<string>)
    ensures |parts| >= 1
  {
    if s == "" then [""]
    else
      var rest := Split(s[1..], sep);
      if s[0] == sep then [""] + rest else [[s[0]] + rest[0]] + rest[1..]
  }

  /** strings.Join with a one-character separator. */
  function Join(parts: seq<string>, sep: char): string {
    if |parts| == 0 then ""
    else if |parts| == 1 then parts[0]
    else parts[0] + [sep] + Join(parts[1..], sep)
  }

  /** No name contains the separator. */
  predicate Free(parts: seq<string>, sep: char) {
    forall i :: 0 <= i < |parts| ==> sep !in parts[i]
  }

  lemma {:induction false} SplitHead(p: string, t: string, sep: char)
    requires sep !in p
    ensures Split(p + [sep] + t, sep) == [p] + Split(t, sep)
    ensures Split(p, sep) == [p]
  {
    var s := p + [sep] + t;
    if p == "" {
      assert s[1..] == t;
    } else {
      assert s[1..] == p[1..] + [sep] + t;
      SplitHead(p[1..], t, sep);
      assert [p[0]] + p[1..] == p;
      assert ([p[1..]] + Split(t, sep))[1..] == Split(t, sep);
    }
  }

  lemma {:induction false} SplitJoin(parts: seq<string>, sep: char)
    requires |parts| > 0 && Free(parts, sep)
    ensures Split(Join(parts, sep), sep) == parts
  {
    if |parts| == 1 {
      SplitHead(parts[0], "", sep);
    } else {
      SplitJoin(parts[1..], sep);
      SplitHead(parts[0], Join(parts[1..], sep), sep);
    }
  }

  lemma {:induction false} SplitFree(s: string, sep: char)
    ensures Free(Split(s, sep), sep)
  {
    if s != "" {
      SplitFree(s[1..], sep);
      var rest := Split(s[1..], sep);
      assert forall i :: 1 <= i < |rest| ==> rest[1..][i - 1] == rest[i];
    }
  }

  lemma {:induction false} JoinEmpty(parts: seq<string>, sep: char)
    ensures Join(parts, sep) == "" <==> (parts == [] || parts == [""])
  {
    if |parts| > 1 {
      assert sep in Join(parts, sep);
    }
  }

  /** Joining one name more appends it behind a separator. */
  lemma {:induction false} JoinSnoc(parts: seq<string>, last: string, sep: char)
    requires parts != []
    ensures Join(parts + [last], sep) == Join(parts, sep) + [sep] + last
  {
    var all := parts + [last];
    if |parts| == 1 {
      assert all[1..] == [last];
    } else {
      assert all[1..] == parts[1..] + [last];
      JoinSnoc(parts[1..], last, sep);
    }
  }

  /** strings.ReplaceAll for a one-character pattern. */
  function ReplaceAll(s: string, c: char, with: string): string {
    if s == "" then "" else (if s[0] == c then with else [s[0]]) + ReplaceAll(s[1..], c, with)
  }

  /** With one character for another, the length stays and each character is replaced on its own. */
  lemma {:induction false} ReplaceAllEach(s: string, c: char, d: char)
    ensures var r := ReplaceAll(s, c, [d]);
      |r| == |s| && forall i :: 0 <= i < |s| ==> r[i] == if s[i] == c then d else s[i]
  {
    if s != "" { ReplaceAllEach(s[1..], c, d); }
  }

  lemma {:induction false} ReplaceAllConcat(s: string, t: string, c: char, with: string)
    ensures ReplaceAll(s + t, c, with) == ReplaceAll(s, c, with) + ReplaceAll(t, c, with)
  {
    if s == "" {
      assert s + t == t;
    } else {
      assert (s + t)[1..] == s[1..] + t;
      ReplaceAllConcat(s[1..], t, c, with);
    }
  }

  /** s[:n] when s is longer than n. */
  function Truncate(s: string, n: nat): (r: string)
    ensures r <= s && |r| == if |s| > n then n else |s|
  {
    if |s| > n then s[..n] else s
  }

  predicate HasSuffix(s: string, c: char) { |s| > 0 && s[|s| - 1] == c }

  lemma SuffixIs(s: string, t: string, c: char)
    ensures s == t + [c] <==> HasSuffix(s, c) && s[..|s| - 1] == t
  {
    if HasSuffix(s, c) { assert s == s[..|s| - 1] + [c]; }
    assert (t + [c])[..|t|] == t;
  }

  predicate HasPrefix(s: string, p: string) { p <= s }

  /** The parts of strings.SplitN(s, sep, 2) when sep occurs in s. */
  datatype Cut = NoCut | Cut(before: string, after: string)

  function CutAt(s: string, sep: char): (r: Cut)
    ensures r.NoCut? <==> sep !in s
    ensures r.Cut? ==> s == r.before + [sep] + r.after && sep !in r.before
  {
    if s == "" then NoCut
    else if s[0] == sep then Cut("", s[1..])
    else
      match CutAt(s[1..], sep)
      case NoCut => NoCut
      case Cut(b, a) => Cut([s[0]] + b, a)
  }

  lemma {:induction false} CutIs(before: string, after: string, sep: char)
    requires sep !in before
    ensures CutAt(before + [sep] + after, sep) == Cut(before, after)
  {
    var s := before + [sep] + after;
    if before == "" {
      assert s[1..] == after;
    } else {
      assert s[1..] == before[1..] + [sep] + after;
      CutIs(before[1..], after, sep);
      assert [before[0]] + before[1..] == before;
    }
  }

  /** The cut is at the first separator. */
  lemma CutExactly(s: string, before: string, after: string, sep: char)
    ensures CutAt(s, sep) == Cut(before, after) <==> s == before + [sep] + after && sep !in before
  {
    if s == before + [sep] + after && sep !in before { CutIs(before, after, sep); }
  }

  // ----- lists built element by element -----

  function Mapped<A, B>(f: A -> B, s: seq<A>): (r: seq<B>)
    ensures |r| == |s| && forall i :: 0 <= i < |s| ==> r[i] == f(s[i])
  {
    seq(|s|, i requires 0 <= i < |s| => f(s[i]))
  }

  lemma TakenOut<A>(t: seq<A>, i: nat)
    requires i < |t|
    ensures multiset(t[..i] + t[i + 1..]) == multiset(t) - multiset{t[i]}
  {
    assert t == t[..i] + [t[i]] + t[i + 1..];
  }

  lemma MappedTakenOut<A, B>(f: A -> B, t: seq<A>, i: nat)
    requires i < |t|
    ensures multiset(Mapped(f, t)) == multiset(Mapped(f, t[..i] + t[i + 1..])) + multiset{f(t[i])}
  {
    var m := Mapped(f, t);
    TakenOut(m, i);
    assert m[..i] + m[i + 1..] == Mapped(f, t[..i] + t[i + 1..]);
    assert m[i] in multiset(m);
  }

  lemma FoundIn<A>(s: seq<A>, t: seq<A>) returns (i: nat)
    requires s != [] && multiset(s) == multiset(t)
    ensures i < |t| && t[i] == s[0]
    ensures multiset(s[..0] + s[1..]) == multiset(t[..i] + t[i + 1..])
  {
    assert s[0] in multiset(t);
    i :| 0 <= i < |t| && t[i] == s[0];
    TakenOut(s, 0);
    TakenOut(t, i);
  }

  lemma NoneLeft<A>(t: seq<A>)
    requires multiset([]) == multiset(t)
    ensures t == []
  {
    assert |multiset(t)| == |t|;
  }

  /** Reordering the input only reorders the output. */
  lemma {:induction false} MappedReordered<A, B>(f: A -> B, s: seq<A>, t: seq<A>)
    requires multiset(s) == multiset(t)
    ensures multiset(Mapped(f, s)) == multiset(Mapped(f, t))
  {
    hide Mapped;
    if s == [] {
      NoneLeft(t);
    } else {
      var i := FoundIn(s, t);
      MappedTakenOut(f, s, 0);
      MappedTakenOut(f, t, i);
      MappedReordered(f, s[..0] + s[1..], t[..i] + t[i + 1..]);
    }
  }

  // ----- sort.Strings -----

  predicate Leq(a: string, b: string) {
    a == "" || (b != "" && (a[0] < b[0] || (a[0] == b[0] && Leq(a[1..], b[1..]))))
  }

  lemma {:induction false} LeqTotal(a: string, b: string)
    ensures Leq(a, b) || Leq(b, a)
  {
    if a != "" && b != "" && a[0] == b[0] { LeqTotal(a[1..], b[1..]); }
  }

  lemma {:induction false} LeqTrans(a: string, b: string, c: string)
    requires Leq(a, b) && Leq(b, c)
    ensures Leq(a, c)
  {
    if a != "" && b != "" && c != "" && a[0] == b[0] == c[0] { LeqTrans(a[1..], b[1..], c[1..]); }
  }

  lemma {:induction false} LeqAntisym(a: string, b: string)
    requires Leq(a, b) && Leq(b, a)
    ensures a == b
  {
    if a != "" && b != "" {
      LeqAntisym(a[1..], b[1..]);
      assert a == [a[0]] + a[1..] && b == [b[0]] + b[1..];
    }
  }

  /** The strings differ first at position k, where a is the smaller one. */
  predicate SmallerAt(a: string, b: string, k: nat) {
    k < |a| && k < |b| && a[..k] == b[..k] && a[k] < b[k]
  }

  /** The order is lexicographic: a prefix first, otherwise the smaller character where the strings first differ. */
  lemma {:induction false} LeqExactly(a: string, b: string)
    ensures Leq(a, b) <==> a <= b || exists k :: SmallerAt(a, b, k)
  {
    if a != "" && b != "" {
      forall k: nat | SmallerAt(a, b, k) && k > 0 ensures a[0] == b[0] {
        assert a[..k][0] == a[0] && b[..k][0] == b[0];
      }
      if a[0] == b[0] {
        LeqExactly(a[1..], b[1..]);
        assert a == [a[0]] + a[1..] && b == [b[0]] + b[1..];
        if k: nat :| SmallerAt(a[1..], b[1..], k) {
          assert a[..k + 1] == [a[0]] + a[1..][..k] && b[..k + 1] == [b[0]] + b[1..][..k];
          assert SmallerAt(a, b, k + 1);
        }
        if k: nat :| SmallerAt(a, b, k) {
          assert k > 0;
          assert a[1..][..k - 1] == a[..k][1..] && b[1..][..k - 1] == b[..k][1..];
          assert SmallerAt(a[1..], b[1..], k - 1);
        }
      } else if a[0] < b[0] {
        assert SmallerAt(a, b, 0);
      }
    }
  }

  ghost predicate Sorted(s: seq<string>) {
    forall i, j :: 0 <= i < j < |s| ==> Leq(s[i], s[j])
  }

  function Insert(x: string, s: seq<string>): (r: seq<string>)
    ensures multiset(r) == multiset(s) + multiset{x}
  {
    if s == [] then [x]
    else if Leq(x, s[0]) then [x] + s
    else
      assert s == [s[0]] + s[1..];
      [s[0]] + Insert(x, s[1..])
  }

  lemma HeadIsLeast(s: seq<string>, x: string)
    requires Sorted(s) && x in multiset(s)
    ensures x == s[0] || Leq(s[0], x)
  {
    hide Leq;
    var i :| 0 <= i < |s| && s[i] == x;
  }

  lemma ConsSorted(x: string, s: seq<string>)
    requires Sorted(s) && forall y :: y in s ==> Leq(x, y)
    ensures Sorted([x] + s)
  {
    hide Leq;
  }

  lemma {:induction false} InsertSorted(x: string, s: seq<string>)
    requires Sorted(s)
    ensures Sorted(Insert(x, s))
  {
    hide Leq;
    if s != [] {
      LeqTotal(x, s[0]);
      if Leq(x, s[0]) {
        forall y | y in s ensures Leq(x, y) {
          HeadIsLeast(s, y);
          if y != s[0] { LeqTrans(x, s[0], y); }
        }
        ConsSorted(x, s);
      } else {
        InsertSorted(x, s[1..]);
        forall y | y in Insert(x, s[1..]) ensures Leq(s[0], y) {
          assert y in multiset(Insert(x, s[1..]));
        }
        ConsSorted(s[0], Insert(x, s[1..]));
      }
    }
  }

  function Sort(s: seq<string>): (r: seq<string>)
    ensures Sorted(r) && multiset(r) == multiset(s)
  {
    if s == [] then [] else
      assert s == [s[0]] + s[1..];
      InsertSorted(s[0], Sort(s[1..]));
      Insert(s[0], Sort(s[1..]))
  }

  lemma TailMultiset(s: seq<string>)
    requires s != []
    ensures multiset(s[1..]) == multiset(s) - multiset{s[0]}
  {
    assert s == [s[0]] + s[1..];
  }

  /** A sorted list is determined by its elements and their multiplicities. */
  lemma {:induction false} SortedUnique(a: seq<string>, b: seq<string>)
    requires Sorted(a) && Sorted(b) && multiset(a) == multiset(b)
    ensures a == b
  {
    hide Leq;
    assert |multiset(a)| == |a| && |multiset(b)| == |b|;
    if a != [] {
      HeadIsLeast(a, b[0]);
      HeadIsLeast(b, a[0]);
      if a[0] != b[0] { LeqAntisym(a[0], b[0]); }
      TailMultiset(a);
      TailMultiset(b);
      SortedUnique(a[1..], b[1..]);
      assert a == [a[0]] + a[1..] && b == [b[0]] + b[1..];
    }
  }

  function Elements(s: seq<string>): set<string> { set x | x in s }

  lemma ElementsSnoc(s: seq<string>, i: nat)
    requires i < |s|
    ensures Elements(s[..i + 1]) == Elements(s[..i]) + {s[i]}
  {
    assert s[..i + 1] == s[..i] + [s[i]];
  }

  lemma SameElements(r: seq<string>, s: set<string>)
    requires multiset(r) == multiset(s)
    ensures Elements(r) == s
    ensures forall x :: x in r <==> x in s
  {
    assert forall x :: x in r <==> x in multiset(r);
  }

  ghost function Enumerate(s: set<string>): (r: seq<string>)
    ensures multiset(r) == multiset(s)
  {
    if s == {} then [] else
      var x :| x in s;
      assert multiset(s) == multiset(s - {x}) + multiset{x};
      Enumerate(s - {x}) + [x]
  }

  /** The names of a finite set in the order sort.Strings and the API server give them. */
  ghost function InOrder(s: set<string>): (r: seq<string>)
    ensures Sorted(r) && multiset(r) == multiset(s)
    ensures Elements(r) == s
    ensures forall x :: x in r <==> x in s
  {
    var r := Sort(Enumerate(s));
    SameElements(r, s);
    r
  }

  /** Ranging over a Go map and sorting the keys gives the same list for every iteration order. */
  method SortedKeys(s: set<string>) returns (r: seq<string>)
    ensures r == InOrder(s)
  {
    var pending, keys := s, [];
    while pending != {}
      invariant pending <= s
      invariant multiset(keys) == multiset(s - pending)
      decreases pending
    {
      var k :| k in pending;
      assert s - (pending - {k}) == (s - pending) + {k};
      keys := keys + [k];
      pending := pending - {k};
    }
    assert s - pending == s;
    r := Sort(keys);
    SortedUnique(r, InOrder(s));
  }
}

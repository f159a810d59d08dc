/**
  The host lists of the Istio router: a VirtualService lists hosts, and an annotation remembers which of
  them are the CNames the router manages.
 */
module IstioHosts {
  import opened Strings
  import opened Resources

  const HOSTS_ANNOTATION := "tsuru.io/additional-hosts"

  // ----- sets kept as lists -----

  /** No element occurs twice. */
  ghost predicate Distinct(s: seq<string>) {
    forall x :: x in s ==> multiset(s)[x] == 1
  }

  /** The list addToSet returns: what is not there yet is appended as given, then everything is sorted. */
  function Added(dst: seq<string>, toAdd: seq<string>): (r: seq<string>)
    ensures Sorted(r)
  {
    Sort(dst + Without(toAdd, dst))
  }

  lemma CountOfLast(s: seq<string>, y: string, x: string)
    ensures multiset(s + [y])[x] == multiset(s)[x] + (if x == y then 1 else 0)
  {
  }

  lemma WithoutLast(init: seq<string>, last: string, ys: seq<string>)
    ensures Without(init + [last], ys) == if last in ys then Without(init, ys) else Without(init, ys) + [last]
  {
    assert (init + [last])[..|init|] == init;
  }

  lemma {:induction false} WithoutCounts(xs: seq<string>, ys: seq<string>, x: string)
    ensures multiset(Without(xs, ys))[x] == if x in ys then 0 else multiset(xs)[x]
  {
    hide Without;
    if xs != [] {
      var init, last := xs[..|xs| - 1], xs[|xs| - 1];
      assert xs == init + [last];
      WithoutCounts(init, ys, x);
      WithoutLast(init, last, ys);
      CountOfLast(init, last, x);
      CountOfLast(Without(init, ys), last, x);
    }
  }

  lemma AddedCounts(dst: seq<string>, toAdd: seq<string>, x: string)
    ensures multiset(Added(dst, toAdd))[x] == if x in dst then multiset(dst)[x] else multiset(toAdd)[x]
  {
    hide Without, Sorted;
    WithoutCounts(toAdd, dst, x);
  }

  /** addToSet is a union, and keeps lists free of repetitions. */
  lemma AddedIsUnion(dst: seq<string>, toAdd: seq<string>)
    ensures Elements(Added(dst, toAdd)) == Elements(dst) + Elements(toAdd)
    ensures Distinct(dst) && Distinct(toAdd) ==> Distinct(Added(dst, toAdd))
  {
    hide Added;
    var r := Added(dst, toAdd);
    forall x ensures multiset(r)[x] == if x in dst then multiset(dst)[x] else multiset(toAdd)[x] {
      AddedCounts(dst, toAdd, x);
    }
    forall x ensures x in r <==> x in dst || x in toAdd {
      assert (x in r <==> multiset(r)[x] > 0) && (x in dst <==> multiset(dst)[x] > 0);
      assert (x in toAdd <==> multiset(toAdd)[x] > 0);
    }
  }

  /** The order of the two lists does not matter to addToSet. */
  lemma AddedReordered(d: seq<string>, d': seq<string>, t: seq<string>, t': seq<string>)
    requires multiset(d) == multiset(d') && multiset(t) == multiset(t')
    ensures Added(d, t) == Added(d', t')
  {
    hide Added;
    forall x ensures multiset(Added(d, t))[x] == multiset(Added(d', t'))[x] {
      AddedCounts(d, t, x);
      AddedCounts(d', t', x);
      assert x in d <==> x in multiset(d);
      assert x in d' <==> x in multiset(d');
    }
    SortedUnique(Added(d, t), Added(d', t'));
  }

  lemma InOrderDistinct(s: set<string>)
    ensures Distinct(InOrder(s))
  {
    hide InOrder;
  }

  lemma SortKeeps(s: seq<string>)
    ensures Elements(Sort(s)) == Elements(s)
    ensures Distinct(s) ==> Distinct(Sort(s))
  {
    hide Sort;
    assert forall x :: x in s <==> x in multiset(s);
    assert forall x :: x in Sort(s) <==> x in multiset(Sort(s));
  }

  // ----- the record of managed hosts -----

  /** hostsFromAnnotation. */
  function Managed(record: string): seq<string> {
    if record == "" then [] else Split(record, ',')
  }

  function RecordOf(hosts: seq<string>): string {
    Join(Sort(hosts), ',')
  }

  /** Names that a comma-joined annotation can hold. */
  predicate Nameable(names: seq<string>) {
    "" !in names && Free(names, ',')
  }

  /** A record as the router itself writes it: no empty name and no repetition. */
  ghost predicate Tidy(record: string) {
    "" !in Managed(record) && Distinct(Managed(record))
  }

  lemma FreeSame(a: seq<string>, b: seq<string>)
    requires multiset(a) == multiset(b) && Nameable(a)
    ensures Nameable(b)
  {
    forall x | x in b ensures x != "" && ',' !in x {
      assert x in multiset(b) && x in multiset(a);
      assert x in a;
    }
  }

  /** What is recorded is read back, in order. */
  lemma ReadsBack(hosts: seq<string>)
    requires Nameable(hosts)
    ensures Managed(RecordOf(hosts)) == Sort(hosts)
    ensures Distinct(hosts) ==> Tidy(RecordOf(hosts))
  {
    hide Sort, Join, Split;
    FreeSame(hosts, Sort(hosts));
    SortKeeps(hosts);
    var parts := Sort(hosts);
    JoinEmpty(parts, ',');
    assert "" !in parts;
    if parts != [] { SplitJoin(parts, ','); }
  }

  lemma ManagedNameable(record: string)
    requires Tidy(record)
    ensures Nameable(Managed(record))
  {
    SplitFree(record, ',');
  }

  // ----- taking managed hosts out and putting the new ones in -----

  datatype HostState = HostState(hosts: seq<string>, record: string)

  /** hosts once the managed ones are taken out and the names in now are put in. */
  ghost function HostsWith(hosts: seq<string>, managed: seq<string>, now: seq<string>): (r: seq<string>)
    ensures Sorted(r)
  {
    Added(InOrder(Elements(hosts) - Elements(managed)), now)
  }

  lemma HostsWithMeans(hosts: seq<string>, managed: seq<string>, now: seq<string>)
    ensures Elements(HostsWith(hosts, managed, now)) == Elements(hosts) - Elements(managed) + Elements(now)
    ensures Distinct(now) ==> Distinct(HostsWith(hosts, managed, now))
  {
    hide InOrder, Added;
    var left := Elements(hosts) - Elements(managed);
    InOrderDistinct(left);
    AddedIsUnion(InOrder(left), now);
  }

  /** vsAddHost. */
  ghost function AddHost(s: HostState, host: string): HostState {
    var managed := Managed(s.record);
    var now := Added(managed, [host]);
    HostState(HostsWith(s.hosts, managed, now), RecordOf(now))
  }

  /** vsRemoveHost. */
  ghost function RemoveHost(s: HostState, host: string): HostState {
    var managed := Managed(s.record);
    var now := InOrder(Elements(managed) - {host});
    HostState(HostsWith(s.hosts, managed, now), RecordOf(now))
  }

  ghost function AddHosts(s: HostState, names: seq<string>): HostState {
    if names == [] then s else AddHost(AddHosts(s, names[..|names| - 1]), names[|names| - 1])
  }

  ghost function RemoveHosts(s: HostState, names: seq<string>): HostState {
    if names == [] then s else RemoveHost(RemoveHosts(s, names[..|names| - 1]), names[|names| - 1])
  }

  /** The CName part of Ensure. */
  ghost function SyncCNames(s: HostState, cnames: seq<string>): HostState {
    var managed := Managed(s.record);
    RemoveHosts(AddHosts(s, Without(cnames, managed)), Without(managed, cnames))
  }

  /** Everything Ensure does to the hosts: the gateway host, the destination, then the CNames. */
  ghost function EnsureHosts(s: HostState, gatewayHost: string, dst: string, cnames: seq<string>): HostState {
    SyncCNames(s.(hosts := Added(Added(s.hosts, [gatewayHost]), [dst])), cnames)
  }

  /** The managed hosts, the other hosts, and whether the list has repetitions, of a state. */
  ghost function ManagedSet(s: HostState): set<string> { Elements(Managed(s.record)) }
  ghost function HostSet(s: HostState): set<string> { Elements(s.hosts) }

  lemma AddHostMeans(s: HostState, host: string)
    requires Tidy(s.record) && Nameable([host])
    ensures var r := AddHost(s, host);
      && Tidy(r.record) && ManagedSet(r) == ManagedSet(s) + {host}
      && HostSet(r) == HostSet(s) + ManagedSet(s) + {host}
      && Sorted(r.hosts) && Distinct(r.hosts)
  {
    hide Added, HostsWith, RecordOf, Managed, Sort;
    var managed := Managed(s.record);
    var now := Added(managed, [host]);
    assert Distinct(managed) by { assert Tidy(s.record); }
    ManagedNameable(s.record);
    AddedIsUnion(managed, [host]);
    assert Elements([host]) == {host};
    HostsWithMeans(s.hosts, managed, now);
    assert Nameable(now) by {
      forall x | x in now ensures x != "" && ',' !in x { assert x in Elements(now); assert x in managed || x == host; }
    }
    ReadsBack(now);
    SortKeeps(now);
  }

  lemma RemoveHostMeans(s: HostState, host: string)
    requires Tidy(s.record)
    ensures var r := RemoveHost(s, host);
      && Tidy(r.record) && ManagedSet(r) == ManagedSet(s) - {host}
      && HostSet(r) == HostSet(s) - ManagedSet(s) + (ManagedSet(s) - {host})
      && Sorted(r.hosts) && Distinct(r.hosts)
  {
    hide InOrder, HostsWith, RecordOf, Managed, Sort;
    var managed := Managed(s.record);
    var now := InOrder(Elements(managed) - {host});
    ManagedNameable(s.record);
    InOrderDistinct(Elements(managed) - {host});
    HostsWithMeans(s.hosts, managed, now);
    assert Nameable(now) by {
      forall x | x in now ensures x != "" && ',' !in x { assert x in managed; }
    }
    ReadsBack(now);
    SortKeeps(now);
  }

  lemma {:induction false} AddHostsMeans(s: HostState, names: seq<string>)
    requires Tidy(s.record) && Nameable(names)
    ensures var r := AddHosts(s, names);
      && Tidy(r.record) && ManagedSet(r) == ManagedSet(s) + Elements(names)
      && (names == [] ==> r == s)
      && (names != [] ==>
           HostSet(r) == HostSet(s) + ManagedSet(s) + Elements(names) && Sorted(r.hosts) && Distinct(r.hosts))
  {
    hide AddHost, Tidy, Sorted, Distinct, Free, ManagedSet, HostSet;
    if names != [] {
      var init, last := names[..|names| - 1], names[|names| - 1];
      assert Nameable(init) && Nameable([last]) by { NameableParts(names); }
      AddHostsMeans(s, init);
      AddHostMeans(AddHosts(s, init), last);
      assert names == init + [last];
      assert Elements(names) == Elements(init) + {last};
      if init == [] { assert Elements(init) == {}; }
    }
  }

  lemma NameableParts(names: seq<string>)
    requires Nameable(names) && names != []
    ensures Nameable(names[..|names| - 1]) && Nameable([names[|names| - 1]])
  {
  }

  lemma {:induction false} RemoveHostsMeans(s: HostState, names: seq<string>)
    requires Tidy(s.record)
    ensures var r := RemoveHosts(s, names);
      && Tidy(r.record) && ManagedSet(r) == ManagedSet(s) - Elements(names)
      && (names == [] ==> r == s)
      && (names != [] ==>
           HostSet(r) == HostSet(s) - ManagedSet(s) + (ManagedSet(s) - Elements(names)) && Sorted(r.hosts)
             && Distinct(r.hosts))
  {
    hide RemoveHost, Tidy, Sorted, Distinct, ManagedSet, HostSet;
    if names != [] {
      var init, last := names[..|names| - 1], names[|names| - 1];
      RemoveHostsMeans(s, init);
      RemoveHostMeans(RemoveHosts(s, init), last);
      assert names == init + [last];
      assert Elements(names) == Elements(init) + {last};
      if init == [] { assert Elements(init) == {}; }
    }
  }

  // ----- the host algebra -----

  /** The hosts an Ensure should leave: what was managed goes, what is requested comes, the rest stays. */
  ghost function WantedHosts(s: HostState, gatewayHost: string, dst: string, cnames: seq<string>): set<string> {
    HostSet(s) + {gatewayHost, dst} - ManagedSet(s) + Elements(cnames)
  }

  /** The one case the code misses: nothing to add or remove, while a managed host is absent from the list. */
  ghost predicate Overlooked(s: HostState, gatewayHost: string, dst: string, cnames: seq<string>) {
    ManagedSet(s) == Elements(cnames) && !(Elements(cnames) <= HostSet(s) + {gatewayHost, dst})
  }

  lemma SyncMeans(s: HostState, cnames: seq<string>)
    requires Tidy(s.record) && Nameable(cnames)
    ensures var r := SyncCNames(s, cnames);
      && Tidy(r.record) && ManagedSet(r) == Elements(cnames)
      && (ManagedSet(s) == Elements(cnames) ==> r == s)
      && (ManagedSet(s) != Elements(cnames) ==>
           HostSet(r) == HostSet(s) - ManagedSet(s) + Elements(cnames) && Sorted(r.hosts) && Distinct(r.hosts))
  {
    hide AddHosts, RemoveHosts, Tidy, Sorted, Distinct, HostSet, Managed, Without;
    var managed := Managed(s.record);
    var toAdd, toRemove := Without(cnames, managed), Without(managed, cnames);
    assert Nameable(toAdd) by { forall x | x in toAdd ensures x != "" && ',' !in x { assert x in cnames; } }
    AddHostsMeans(s, toAdd);
    RemoveHostsMeans(AddHosts(s, toAdd), toRemove);
    assert Elements(toAdd) == Elements(cnames) - Elements(managed);
    assert Elements(toRemove) == Elements(managed) - Elements(cnames);
    if ManagedSet(s) == Elements(cnames) {
      assert forall x :: x in managed <==> x in Elements(managed);
      assert forall x :: x in cnames <==> x in Elements(cnames);
    } else {
      var x :| x in Elements(toAdd) + Elements(toRemove);
    }
  }

  lemma WithTargets(s: HostState, gatewayHost: string, dst: string)
    ensures var r := s.(hosts := Added(Added(s.hosts, [gatewayHost]), [dst]));
      && HostSet(r) == HostSet(s) + {gatewayHost, dst} && Sorted(r.hosts)
      && (Distinct(s.hosts) ==> Distinct(r.hosts))
  {
    hide Added;
    var mid := Added(s.hosts, [gatewayHost]);
    AddedIsUnion(s.hosts, [gatewayHost]);
    AddedIsUnion(mid, [dst]);
    assert Elements([gatewayHost]) == {gatewayHost} && Elements([dst]) == {dst};
  }

  /** The managed set always becomes the requested one, and the list is sorted and free of repetitions. */
  lemma EnsureManages(s: HostState, gatewayHost: string, dst: string, cnames: seq<string>)
    requires Tidy(s.record) && Nameable(cnames)
    ensures var r := EnsureHosts(s, gatewayHost, dst, cnames);
      Tidy(r.record) && ManagedSet(r) == Elements(cnames) && Sorted(r.hosts)
        && (Distinct(s.hosts) ==> Distinct(r.hosts))
  {
    hide SyncCNames, Tidy, Sorted, Distinct, Added, ManagedSet, HostSet;
    WithTargets(s, gatewayHost, dst);
    var s1 := s.(hosts := Added(Added(s.hosts, [gatewayHost]), [dst]));
    assert ManagedSet(s1) == ManagedSet(s) by { SameRecord(s, s1); }
    SyncMeans(s1, cnames);
  }

  lemma SameRecord(s: HostState, t: HostState)
    requires s.record == t.record
    ensures ManagedSet(s) == ManagedSet(t)
  {
  }

  /** The hosts are exactly the wanted ones, except in the overlooked case. */
  lemma EnsureHostsExactly(s: HostState, gatewayHost: string, dst: string, cnames: seq<string>)
    requires Tidy(s.record) && Nameable(cnames)
    ensures HostSet(EnsureHosts(s, gatewayHost, dst, cnames)) == WantedHosts(s, gatewayHost, dst, cnames)
       <==> !Overlooked(s, gatewayHost, dst, cnames)
    ensures Overlooked(s, gatewayHost, dst, cnames) ==>
      HostSet(EnsureHosts(s, gatewayHost, dst, cnames)) == HostSet(s) + {gatewayHost, dst}
  {
    hide SyncCNames, Tidy, Sorted, Distinct, Added, ManagedSet, HostSet;
    WithTargets(s, gatewayHost, dst);
    var s1 := s.(hosts := Added(Added(s.hosts, [gatewayHost]), [dst]));
    SameRecord(s, s1);
    SyncMeans(s1, cnames);
  }

  /** The gateway host or the destination is lost in exactly one case: it was a CName and no longer is. */
  lemma TargetKeptExactly(s: HostState, gatewayHost: string, dst: string, cnames: seq<string>, h: string)
    requires Tidy(s.record) && Nameable(cnames) && (h == gatewayHost || h == dst)
    ensures h in EnsureHosts(s, gatewayHost, dst, cnames).hosts <==> !(h in Managed(s.record) && h !in cnames)
  {
    hide EnsureHosts, Tidy, Managed;
    var r := EnsureHosts(s, gatewayHost, dst, cnames);
    EnsureHostsExactly(s, gatewayHost, dst, cnames);
    assert h in r.hosts <==> h in HostSet(r);
    assert h in Managed(s.record) <==> h in ManagedSet(s);
    assert h in cnames <==> h in Elements(cnames);
  }

  // ----- whole runs -----

  /** One Ensure of an id: the web service it resolved to and the CNames asked for. */
  datatype Call = Call(dst: string, cnames: seq<string>)

  ghost function Run(s: HostState, gatewayHost: string, calls: seq<Call>): HostState {
    if calls == [] then s
    else
      var c := calls[|calls| - 1];
      EnsureHosts(Run(s, gatewayHost, calls[..|calls| - 1]), gatewayHost, c.dst, c.cnames)
  }

  ghost predicate NameableCalls(calls: seq<Call>) {
    forall i :: 0 <= i < |calls| ==> Nameable(calls[i].cnames)
  }

  /** What every state of a run satisfies: the record is tidy and names only listed hosts, without repetitions. */
  ghost predicate Consistent(s: HostState) {
    Tidy(s.record) && ManagedSet(s) <= HostSet(s) && Distinct(s.hosts)
  }

  lemma FreshConsistent()
    ensures Consistent(HostState([], ""))
  {
  }

  /** A consistent state is never the overlooked case, so each Ensure of a run leaves exactly the wanted hosts. */
  lemma EnsureKeepsConsistent(s: HostState, gatewayHost: string, dst: string, cnames: seq<string>)
    requires Consistent(s) && Nameable(cnames)
    ensures Consistent(EnsureHosts(s, gatewayHost, dst, cnames))
    ensures HostSet(EnsureHosts(s, gatewayHost, dst, cnames)) == WantedHosts(s, gatewayHost, dst, cnames)
  {
    hide EnsureHosts, Tidy, Sorted, Distinct, ManagedSet, HostSet;
    EnsureManages(s, gatewayHost, dst, cnames);
    EnsureHostsExactly(s, gatewayHost, dst, cnames);
  }

  lemma {:induction false} RunConsistent(s: HostState, gatewayHost: string, calls: seq<Call>)
    requires Consistent(s) && NameableCalls(calls)
    ensures Consistent(Run(s, gatewayHost, calls))
    ensures calls != [] ==> ManagedSet(Run(s, gatewayHost, calls)) == Elements(calls[|calls| - 1].cnames)
  {
    hide EnsureHosts, Consistent, ManagedSet, Nameable;
    if calls != [] {
      var init, c := calls[..|calls| - 1], calls[|calls| - 1];
      RunConsistent(s, gatewayHost, init);
      var mid := Run(s, gatewayHost, init);
      EnsureKeepsConsistent(mid, gatewayHost, c.dst, c.cnames);
      assert Tidy(mid.record) by { ConsistentTidy(mid); }
      EnsureManages(mid, gatewayHost, c.dst, c.cnames);
    }
  }

  lemma ConsistentTidy(s: HostState)
    requires Consistent(s)
    ensures Tidy(s.record)
  {
  }

  /** A host that no call of the run requests and that was not managed at the start. */
  ghost predicate Foreign(s: HostState, calls: seq<Call>, h: string) {
    h !in Managed(s.record) && forall i :: 0 <= i < |calls| ==> h !in calls[i].cnames
  }

  /**
    Over any run, a host that is never a CName is never lost, and appears only when it is the gateway
    host or the destination of some call.
   */
  lemma {:induction false} ForeignHostExactly(s: HostState, gatewayHost: string, calls: seq<Call>, h: string)
    requires Tidy(s.record) && NameableCalls(calls) && Foreign(s, calls, h)
    ensures Tidy(Run(s, gatewayHost, calls).record) && h !in Managed(Run(s, gatewayHost, calls).record)
    ensures h in Run(s, gatewayHost, calls).hosts <==>
      h in s.hosts || (calls != [] && h == gatewayHost) || (exists i :: 0 <= i < |calls| && calls[i].dst == h)
  {
    hide EnsureHosts, Tidy, Managed, Nameable;
    if calls != [] {
      var n := |calls| - 1;
      var init, c := calls[..n], calls[n];
      assert forall i :: 0 <= i < n ==> calls[i] == init[i];
      ForeignHostExactly(s, gatewayHost, init, h);
      var mid := Run(s, gatewayHost, init);
      EnsureManages(mid, gatewayHost, c.dst, c.cnames);
      var r := EnsureHosts(mid, gatewayHost, c.dst, c.cnames);
      ForeignStep(mid, gatewayHost, c.dst, c.cnames, h);
      assert h in Managed(r.record) <==> h in ManagedSet(r);
    }
  }

  lemma ForeignStep(s: HostState, gatewayHost: string, dst: string, cnames: seq<string>, h: string)
    requires Tidy(s.record) && Nameable(cnames) && h !in Managed(s.record) && h !in cnames
    ensures h in EnsureHosts(s, gatewayHost, dst, cnames).hosts <==> h in s.hosts || h == gatewayHost || h == dst
  {
    hide EnsureHosts, Tidy, Managed, Nameable;
    var r := EnsureHosts(s, gatewayHost, dst, cnames);
    EnsureHostsExactly(s, gatewayHost, dst, cnames);
    assert h in r.hosts <==> h in HostSet(r);
    assert h in s.hosts <==> h in HostSet(s);
    assert h !in ManagedSet(s) && h !in Elements(cnames);
  }

  /** A CName that is dropped while it is also the gateway host or the destination. */
  ghost predicate DropsTarget(s: HostState, gatewayHost: string, dst: string, cnames: seq<string>) {
    exists h :: h in {gatewayHost, dst} && h in Managed(s.record) && h !in cnames
  }

  /** Repeating an Ensure changes nothing, unless the first one dropped the gateway host or the destination. */
  lemma EnsureTwiceExactly(s: HostState, gatewayHost: string, dst: string, cnames: seq<string>)
    requires Tidy(s.record) && Nameable(cnames)
    ensures var once := EnsureHosts(s, gatewayHost, dst, cnames);
      EnsureHosts(once, gatewayHost, dst, cnames) == once <==> !DropsTarget(s, gatewayHost, dst, cnames)
  {
    hide EnsureHosts, Tidy, Managed, Nameable;
    var once := EnsureHosts(s, gatewayHost, dst, cnames);
    EnsureManages(s, gatewayHost, dst, cnames);
    if DropsTarget(s, gatewayHost, dst, cnames) {
      var h :| h in {gatewayHost, dst} && h in Managed(s.record) && h !in cnames;
      TargetKeptExactly(s, gatewayHost, dst, cnames, h);
      TargetKeptExactly(once, gatewayHost, dst, cnames, h);
      assert h in Managed(once.record) <==> h in ManagedSet(once);
    } else {
      TargetKeptExactly(s, gatewayHost, dst, cnames, gatewayHost);
      TargetKeptExactly(s, gatewayHost, dst, cnames, dst);
      Settled(once, gatewayHost, dst, cnames);
    }
  }

  lemma Settled(s: HostState, gatewayHost: string, dst: string, cnames: seq<string>)
    requires Tidy(s.record) && Nameable(cnames) && Sorted(s.hosts)
    requires gatewayHost in s.hosts && dst in s.hosts && ManagedSet(s) == Elements(cnames)
    ensures EnsureHosts(s, gatewayHost, dst, cnames) == s
  {
    hide SyncCNames, Tidy, Sorted, Managed, Added, ManagedSet, Nameable;
    AlreadyThere(s.hosts, gatewayHost);
    AlreadyThere(s.hosts, dst);
    SyncMeans(s, cnames);
  }

  lemma AlreadyThere(hosts: seq<string>, h: string)
    requires Sorted(hosts) && h in hosts
    ensures Added(hosts, [h]) == hosts
  {
    hide Sort;
    assert Without([h], hosts) == [];
    assert hosts + [] == hosts;
    SortedUnique(Sort(hosts), hosts);
  }
}

/** How AddCertificate and RemoveCertificate edit the TLS list of an Ingress. */
module Certificates {
  import opened Ingresses

  /** The first entry with the secret is given the host; without one, an entry is appended. */
  function Added(tls: seq<TLS>, host: string, secret: string): (r: seq<TLS>)
    ensures TLS([host], secret) in r
  {
    if tls == [] then [TLS([host], secret)]
    else if tls[0].secret == secret then
      assert tls[0 := TLS([host], secret)][0] == TLS([host], secret);
      tls[0 := TLS([host], secret)]
    else [tls[0]] + Added(tls[1..], host, secret)
  }

  lemma {:induction false} AddedLast(tls: seq<TLS>, host: string, secret: string)
    requires forall i :: 0 <= i < |tls| ==> tls[i].secret != secret
    ensures Added(tls, host, secret) == tls + [TLS([host], secret)]
  {
    if tls != [] {
      AddedLast(tls[1..], host, secret);
      assert tls == [tls[0]] + tls[1..];
    }
  }

  lemma {:induction false} AddedAt(tls: seq<TLS>, host: string, secret: string, k: nat)
    requires k < |tls| && tls[k].secret == secret && forall j :: 0 <= j < k ==> tls[j].secret != secret
    ensures Added(tls, host, secret) == tls[k := TLS([host], secret)]
  {
    if k > 0 {
      AddedAt(tls[1..], host, secret, k - 1);
      assert tls[k := TLS([host], secret)] == [tls[0]] + tls[1..][k - 1 := TLS([host], secret)];
    }
  }

  /** The loop of AddCertificate over the TLS list. */
  method AddEntry(tls: seq<TLS>, host: string, secret: string) returns (r: seq<TLS>)
    ensures r == Added(tls, host, secret)
  {
    for i := 0 to |tls|
      invariant forall j :: 0 <= j < i ==> tls[j].secret != secret
    {
      if tls[i].secret == secret {
        AddedAt(tls, host, secret, i);
        return tls[i := TLS([host], secret)];
      }
    }
    AddedLast(tls, host, secret);
    r := tls + [TLS([host], secret)];
  }

  /** RemoveCertificate's loop indexes the list it cuts, so it can run off the end. */
  datatype Removal = Left(tls: seq<TLS>) | Panic

  /** The loop stays in bounds exactly when only the last entry names the host, and names it once at most. */
  ghost predicate InBounds(tls: seq<TLS>, host: string) {
    && (forall j :: 0 <= j < |tls| - 1 ==> host !in tls[j].hosts)
    && (|tls| > 0 ==> multiset(tls[|tls| - 1].hosts)[host] <= 1)
  }

  function WithoutLast(tls: seq<TLS>, host: string): seq<TLS> {
    if |tls| > 0 && host in tls[|tls| - 1].hosts then tls[..|tls| - 1] else tls
  }

  /** The loop of RemoveCertificate: its bounds are fixed at the start, its list shrinks on the way. */
  method RemoveEntries(tls: seq<TLS>, host: string) returns (r: Removal)
    ensures r.Left? <==> InBounds(tls, host)
    ensures r.Left? ==> r.tls == WithoutLast(tls, host)
  {
    var current := tls;
    var n := |tls|;
    for k := 0 to n
      invariant |current| <= n
      invariant |current| == n ==> current == tls && forall j :: 0 <= j < k ==> host !in tls[j].hosts
      invariant |current| < n ==> exists j :: 0 <= j < k && host in tls[j].hosts
      invariant |current| < n && k == n ==> InBounds(tls, host) && host in tls[n - 1].hosts && current == tls[..n - 1]
    {
      if k >= |current| { return Panic; }
      ghost var whole := |current| == n;
      var hosts := current[k].hosts;
      var next;
      next := CutHosts(current, k, host);
      if next.Panic? {
        assert !InBounds(tls, host);
        return Panic;
      }
      if whole && host in hosts { assert host in tls[k].hosts; }
      current := next.tls;
    }
    r := Left(current);
  }

  /** The inner loop: one cut at k for every mention of the host in the entry that was at k. */
  method CutHosts(tls: seq<TLS>, k: nat, host: string) returns (r: Removal)
    requires k < |tls|
    ensures host !in tls[k].hosts ==> r == Left(tls)
    ensures host in tls[k].hosts && r.Left? ==> |r.tls| < |tls|
    ensures k == |tls| - 1 ==> (r.Panic? <==> multiset(tls[k].hosts)[host] > 1)
    ensures k == |tls| - 1 && r.Left? && host in tls[k].hosts ==> r.tls == tls[..k]
    ensures r.Panic? ==> host in tls[k].hosts
  {
    var current, hosts := tls, tls[k].hosts;
    for i := 0 to |hosts|
      invariant |current| + multiset(hosts[..i])[host] == |tls|
      invariant multiset(hosts[..i])[host] == 0 ==> current == tls
      invariant k == |tls| - 1 && multiset(hosts[..i])[host] == 1 ==> current == tls[..k]
      invariant |current| >= k
    {
      Mentions(hosts, i, host);
      if hosts[i] == host {
        if k + 1 > |current| { return Panic; }
        current := current[..k] + current[k + 1..];
      }
    }
    assert hosts[..|hosts|] == hosts;
    r := Left(current);
  }

  lemma Mentions(hosts: seq<string>, i: nat, host: string)
    requires i < |hosts|
    ensures multiset(hosts[..i + 1])[host] == multiset(hosts[..i])[host] + (if hosts[i] == host then 1 else 0)
    ensures multiset(hosts)[host] >= multiset(hosts[..i + 1])[host]
  {
    assert hosts[..i + 1] == hosts[..i] + [hosts[i]];
    assert hosts == hosts[..i + 1] + hosts[i + 1..];
  }

  /** The host and its secret are new to the list. */
  predicate New(tls: seq<TLS>, host: string, secret: string) {
    forall j :: 0 <= j < |tls| ==> host !in tls[j].hosts && tls[j].secret != secret
  }

  /** Adding a certificate for a new host and removing it right away restores the list, in bounds. */
  lemma AddThenRemove(tls: seq<TLS>, host: string, secret: string)
    requires New(tls, host, secret)
    ensures InBounds(Added(tls, host, secret), host) && WithoutLast(Added(tls, host, secret), host) == tls
  {
    AddedLast(tls, host, secret);
    var r := tls + [TLS([host], secret)];
    assert r[|r| - 1].hosts == [host];
  }

  /** Adding anything after the host's entry makes its removal run off the end. */
  lemma RemoveAfterAnotherPanics(tls: seq<TLS>, host: string, secret: string, other: string, secret': string)
    requires New(tls, host, secret) && New(Added(tls, host, secret), other, secret')
    ensures !InBounds(Added(Added(tls, host, secret), other, secret'), host)
  {
    AddedLast(tls, host, secret);
    AddedLast(Added(tls, host, secret), other, secret');
    var r := tls + [TLS([host], secret)] + [TLS([other], secret')];
    assert r[|tls|].hosts == [host];
  }
}

/** The load balancer router, call by call, against an API server that numbers NodePorts as it likes. */
module LoadBalancerRouter {
  import opened Router
  import opened Strings
  import opened Strconv
  import Options
  import opened Resources
  import opened LoadBalancer

  datatype Got<+T> = Found(value: T) | NotFound | Failed

  datatype Outcome = Created | Updated | Unchanged | Frozen | NoTarget | NoService | Stopped

  class Cluster {
    const services: map<BackendTarget, Service>
    var balancers: map<string, Balancer>
    /** How many calls have failed. */
    ghost var failures: nat

    constructor (services: map<BackendTarget, Service>, balancers: map<string, Balancer>)
      ensures this.services == services && this.balancers == balancers && failures == 0
    {
      this.services, this.balancers, failures := services, balancers, 0;
    }

    method Attempt() returns (ok: bool)
      modifies this`failures
      ensures failures == old(failures) + (if ok then 0 else 1)
    {
      ok := *;
      if !ok { failures := failures + 1; }
    }

    method GetService(t: BackendTarget) returns (r: Got<Service>)
      modifies this`failures
      ensures failures == old(failures) + (if r.Failed? then 1 else 0)
      ensures r.Found? ==> t in services && r.value == services[t]
      ensures r.NotFound? ==> t !in services
    {
      var ok := Attempt();
      r := if !ok then Failed else if t in services then Found(services[t]) else NotFound;
    }

    method GetBalancer(name: string) returns (r: Got<Balancer>)
      modifies this`failures
      ensures failures == old(failures) + (if r.Failed? then 1 else 0)
      ensures r.Found? ==> name in balancers && r.value == balancers[name]
      ensures r.NotFound? ==> name !in balancers
    {
      var ok := Attempt();
      r := if !ok then Failed else if name in balancers then Found(balancers[name]) else NotFound;
    }

    /** The server numbers the ports and fills in what was left open. */
    method Admit(b: Balancer) returns (seen: Balancer)
      ensures ServedAs(b, seen)
    {
      var ports := b.ports;
      for i := 0 to |ports|
        invariant Allocated(b.ports, ports)
      {
        var n: int := *;
        ports := ports[i := ports[i].(nodePort := n)];
      }
      var rest: string := *;
      var policy: string := *;
      seen := b.(ports := ports, rest := rest, policy := if b.policy != "" then b.policy else policy);
    }

    method Create(name: string, b: Balancer) returns (ok: bool)
      modifies this`balancers, this`failures
      ensures ok ==> failures == old(failures) && name !in old(balancers)
      ensures ok ==>
        name in balancers && ServedAs(b, balancers[name]) && balancers == old(balancers)[name := balancers[name]]
      ensures !ok ==> balancers == old(balancers) && (name in balancers || failures > old(failures))
    {
      ok := Attempt();
      if ok && name in balancers { return false; }
      if ok {
        var seen := Admit(b);
        balancers := balancers[name := seen];
      }
    }

    method Update(name: string, b: Balancer) returns (ok: bool)
      modifies this`balancers, this`failures
      ensures ok ==> failures == old(failures) && name in old(balancers)
      ensures ok ==>
        name in balancers && ServedAs(b, balancers[name]) && balancers == old(balancers)[name := balancers[name]]
      ensures !ok ==> balancers == old(balancers) && (name !in balancers || failures > old(failures))
    {
      ok := Attempt();
      if ok && name !in balancers { return false; }
      if ok {
        var seen := Admit(b);
        balancers := balancers[name := seen];
      }
    }

    /** Deleting what is not there is not an error to the router. */
    method Delete(name: string) returns (ok: bool)
      modifies this`balancers, this`failures
      ensures failures == old(failures) + (if ok then 0 else 1)
      ensures balancers == if ok then old(balancers) - {name} else old(balancers)
    {
      ok := Attempt();
      if ok { balancers := balancers - {name}; }
    }
  }

  method PortsForService(existing: seq<ServicePort>, o: Opts, base: seq<ServicePort>) returns (wanted: seq<ServicePort>)
    ensures wanted == PortsFor(existing, o, base)
  {
    hide Decimal, Int32, FirstPort, DefaultPort, EXPOSE_ALL_PORTS, Lookup, IsTrue, OtherPorts;
    var additional := Atoi(o.exposedPort);
    if additional == 0 { additional := 80; }
    assert additional == ExposedPort(o);
    hide Atoi;
    var existingPorts := PortMap(existing);
    var all := IsTrue(Lookup(o.additionalOpts, EXPOSE_ALL_PORTS));
    wanted := FillPorts(base, additional, all);
    if |wanted| == 0 { wanted := [DefaultPort(additional)]; }
    assert wanted == WantedPorts(o, base);
    hide WantedPorts, ExposedPort, ExposesAll;
    wanted := CarryNodePorts(existing, existingPorts, wanted);
  }

  /** The loop that carries over the NodePorts of port numbers the Service has already. */
  method CarryNodePorts(ghost existing: seq<ServicePort>, existingPorts: map<int, int>, before: seq<ServicePort>)
    returns (wanted: seq<ServicePort>)
    requires forall n ::
      && (n in existingPorts <==> NodePortOf(existing, n).Some?)
      && (n in existingPorts ==> NodePortOf(existing, n) == Some(existingPorts[n]))
    ensures |wanted| == |before| && forall j :: 0 <= j < |wanted| ==> wanted[j] == Carry(existing, before[j])
  {
    hide NodePortOf;
    wanted := before;
    for i := 0 to |wanted|
      invariant |wanted| == |before|
      invariant forall j :: 0 <= j < i ==> wanted[j] == Carry(existing, before[j])
      invariant forall j :: i <= j < |wanted| ==> wanted[j] == before[j]
    {
      if wanted[i].port in existingPorts {
        wanted := wanted[i := wanted[i].(nodePort := existingPorts[wanted[i].port])];
      }
    }
  }

  method PortMap(existing: seq<ServicePort>) returns (r: map<int, int>)
    ensures forall n ::
      && (n in r <==> NodePortOf(existing, n).Some?)
      && (n in r ==> NodePortOf(existing, n) == Some(r[n]))
  {
    r := map[];
    for i := 0 to |existing|
      invariant forall n ::
        && (n in r <==> NodePortOf(existing[..i], n).Some?)
        && (n in r ==> NodePortOf(existing[..i], n) == Some(r[n]))
    {
      assert existing[..i + 1][..i] == existing[..i];
      r := r[existing[i].port := existing[i].nodePort];
    }
    assert existing[..|existing|] == existing;
  }

  /**
    The loop over the base ports: the first one brings in the exposed port, and ends the loop unless all are exposed.
   */
  method FillPorts(base: seq<ServicePort>, additional: int, all: bool) returns (wanted: seq<ServicePort>)
    ensures wanted == if base == [] then []
        else [FirstPort(additional, base[0])] + if all then OtherPorts(base, Int32(additional)) else []
  {
    hide Decimal, Int32, FirstPort;
    wanted := [];
    var i := 0;
    while i < |base|
      invariant 0 <= i <= |base|
      invariant i == 0 ==> wanted == []
      invariant i > 0 ==> all && wanted == [FirstPort(additional, base[0])] + OtherPorts(base[..i], Int32(additional))
    {
      assert base[..i + 1][..i] == base[..i];
      assert base[..0] == [];
      if |wanted| == 0 { wanted := wanted + [FirstPort(additional, base[i])]; }
      if !all { break; }
      if base[i].port != Int32(additional) { wanted := wanted + [base[i].(nodePort := 0)]; }
      i := i + 1;
    }
    assert base[..|base|] == base;
  }

  method MergeMaps(entries: seq<map<string, string>>) returns (r: map<string, string>)
    ensures r == Merged(entries)
  {
    r := map[];
    for i := 0 to |entries|
      invariant r == Merged(entries[..i])
    {
      assert entries[..i + 1][..i] == entries[..i];
      r := Options.CopyInto(r, entries[i]);
    }
    assert entries[..|entries|] == entries;
  }

  method ServiceHasChanges(existing: Balancer, b: Balancer) returns (r: bool)
    ensures r <==> Changed(existing, b)
    ensures r <==>
      || existing.policy != b.policy || existing.selector != b.selector || existing.ports != b.ports
      || existing.rest != b.rest
      || (exists k :: k in b.annotations && Lookup(existing.annotations, k) != b.annotations[k])
      || (exists k :: k in b.labels && Lookup(existing.labels, k) != b.labels[k])
  {
    if existing.policy != b.policy || existing.selector != b.selector || existing.ports != b.ports
      || existing.rest != b.rest {
      return true;
    }
    var differs := Options.Differs(existing.annotations, b.annotations);
    if differs { return true; }
    r := Options.Differs(existing.labels, b.labels);
  }

  class LBService {
    const cluster: Cluster
    const cfg: Config

    constructor (cluster: Cluster, cfg: Config)
      ensures this.cluster == cluster && this.cfg == cfg
    {
      this.cluster, this.cfg := cluster, cfg;
    }

    function ServiceName(id: InstanceID): (name: string)
      ensures Named(cfg.digest, id, id.appName + "-router-lb", 63, name)
    {
      var name := HashedName(cfg.digest, id, id.appName + "-router-lb", 63);
      HashedNameIs(cfg.digest, id, id.appName + "-router-lb", 63, name);
      name
    }

    /** The range over the options: some become labels, some annotations, some are for the router alone. */
    method ApplyOptions(base: map<string, string>, opts: map<string, string>)
      returns (optsLabels: map<string, string>, annotations: map<string, string>, ghost order: seq<string>)
      ensures Options.Visits(order, opts)
      ensures optsLabels == Options.Run(map[], opts, order, LabelRule(cfg))
      ensures annotations == Options.Run(base, opts, order, AnnotationRule(cfg))
      ensures Options.Unambiguous(opts, LabelRule(cfg)) ==> optsLabels == Options.Settle(map[], opts, LabelRule(cfg))
      ensures Options.Unambiguous(opts, AnnotationRule(cfg)) ==>
        annotations == Options.Settle(base, opts, AnnotationRule(cfg))
    {
      optsLabels, annotations, order := map[], base, [];
      assert optsLabels == Options.Run(map[], opts, [], LabelRule(cfg));
      assert annotations == Options.Run(base, opts, [], AnnotationRule(cfg));
      hide Registered, AnnotationEffect, Options.Run;
      var pending := opts.Keys;
      while pending != {}
        invariant pending <= opts.Keys
        invariant forall o :: o in order <==> o in opts && o !in pending
        invariant forall i, j :: 0 <= i < j < |order| ==> order[i] != order[j]
        invariant optsLabels == Options.Run(map[], opts, order, LabelRule(cfg))
        invariant annotations == Options.Run(base, opts, order, AnnotationRule(cfg))
        decreases pending
      {
        var o :| o in pending;
        pending := pending - {o};
        Options.RunSnoc(map[], opts, order, o, LabelRule(cfg));
        Options.RunSnoc(base, opts, order, o, AnnotationRule(cfg));
        order := order + [o];
        if o in cfg.optsAsLabels {
          optsLabels := optsLabels[cfg.optsAsLabels[o] := opts[o]];
          continue;
        }
        if Registered(cfg, o) { continue; }
        annotations := Annotate(annotations, o, opts[o]);
      }
      hide Options.Settle, Options.Unambiguous, LabelRule, AnnotationRule;
      if Options.Unambiguous(opts, LabelRule(cfg)) { Options.RunIsSettle(map[], opts, order, LabelRule(cfg)); }
      if Options.Unambiguous(opts, AnnotationRule(cfg)) { Options.RunIsSettle(base, opts, order, AnnotationRule(cfg)); }
    }

    method Annotate(annotations: map<string, string>, option: string, value: string) returns (r: map<string, string>)
      ensures r == Options.Act(annotations, AnnotationEffect(option, value))
    {
      hide ANNOTATION_PREFIX;
      var name := option;
      if HasPrefix(name, ANNOTATION_PREFIX) { name := ReplaceAll(name[|ANNOTATION_PREFIX|..], ':', "."); }
      if HasSuffix(name, '-') {
        r := annotations - {name[..|name| - 1]};
      } else if value == "" {
        r := annotations - {name};
      } else {
        r := annotations[name := value];
      }
    }

    method FillLabelsAndAnnotations(q: Request, current: map<string, string>)
      returns (labels: map<string, string>, annotations: map<string, string>, ghost order: seq<string>)
      requires q.cfg == cfg
      ensures Options.Visits(order, q.o.opts.additionalOpts)
      ensures labels == current + LabelsIn(q, order) && annotations == AnnotationsIn(q, order)
      ensures Clear(q) ==> labels == current + ClearLabels(q) && annotations == ClearAnnotations(q)
    {
      hide Merged, Options.Settle, Options.Unambiguous, LabelRule, AnnotationRule, OPTS_ANNOTATION, DNS_ANNOTATION,
           Options.Run, VHost, StandardLabels, BaseLabels, PoolLabels;
      annotations := MergeMaps([cfg.annotations, map[OPTS_ANNOTATION := cfg.encode(q.o.opts)]]);
      var optsLabels;
      optsLabels, annotations, order := ApplyOptions(annotations, q.o.opts.additionalOpts);
      var vhost := VHost(q.id, q.o.opts);
      if vhost != "" { annotations := annotations[DNS_ANNOTATION := vhost]; }
      var layers := LabelLayers(q, optsLabels);
      labels := MergeMaps([current] + layers);
      MergedOnto(current, layers);
      annotations := Options.CopyInto(annotations, q.web.annotations);
    }

    /** Everything of the Service that Ensure computes. */
    method Build(q: Request, b: Balancer) returns (r: Balancer, ghost order: seq<string>)
      requires q.cfg == cfg
      ensures Options.Visits(order, q.o.opts.additionalOpts) && r == Desired(q, b, order)
    {
      hide PortsFor, LabelsIn, AnnotationsIn;
      var labels, annotations;
      labels, annotations, order := FillLabelsAndAnnotations(q, b.labels);
      var ports := PortsForService(b.ports, q.o.opts, q.web.ports);
      r := Balancer(PolicyFor(q.o.opts, b.policy), q.web.selector, ports, b.rest, labels, annotations);
    }

    method Ensure(id: InstanceID, o: EnsureOpts) returns (r: Outcome, ghost order: seq<string>)
      modifies cluster
      ensures var name := ServiceName(id); var st := old(cluster.balancers); var after := cluster.balancers;
        && (r.Created? || r.Updated? || r.Unchanged? ==>
              && Options.Visits(order, o.opts.additionalOpts)
              && FirstDefault(o.prefixes).Some? && FirstDefault(o.prefixes).value in cluster.services && name in after
              && var target := FirstDefault(o.prefixes).value;
                 var settled :=
                   Settled(Request(cfg, id, o, target, cluster.services[target]), Current(st, name), order);
                 && ServedAs(settled, after[name]) && after == st[name := after[name]]
                    && (r.Unchanged? ==> after == st && settled == st[name])
                 && (r.Updated? ==> name in st && settled != st[name]))
        && (r.Created? ==> name !in st) && (r.Unchanged? || r.Updated? ==> name in st && !LoadBalancer.Frozen(st[name]))
        && (r.Frozen? ==> after == st && name in st && LoadBalancer.Frozen(st[name]))
        && (r.NoTarget? ==> after == st && FirstDefault(o.prefixes).None?)
        && (r.NoService? ==>
             after == st && FirstDefault(o.prefixes).Some? && FirstDefault(o.prefixes).value !in cluster.services)
        && (r.Stopped? ==> after == st && cluster.failures > old(cluster.failures))
    {
      hide Desired, LoadBalancer.Frozen, FRESH, FirstDefault, Options.Visits, Allocated, ServiceName;
      order := [];
      assert !LoadBalancer.Frozen(FRESH) by { FreshThawed(); }
      var ok := cluster.Attempt();
      if !ok { return Stopped, []; }
      var name := ServiceName(id);
      var found := cluster.GetBalancer(name);
      if found.Failed? { return Stopped, []; }
      var b := if found.Found? then found.value else FRESH;
      if LoadBalancer.Frozen(b) { return Outcome.Frozen, []; }
      var target := GetDefaultBackendTarget(o.prefixes);
      if target.None? { return NoTarget, []; }
      var web := cluster.GetService(target.value);
      if web.Failed? { return Stopped, []; }
      if web.NotFound? { return NoService, []; }
      var q := Request(cfg, id, o, target.value, web.value);
      assert forall s: seq<string> ::
        Options.Visits(s, o.opts.additionalOpts) ==> forall x :: x in s ==> x in o.opts.additionalOpts by {
        VisitsListed(o.opts.additionalOpts);
      }
      var wanted;
      wanted, order := Build(q, b);
      if found.NotFound? {
        ok := cluster.Create(name, wanted);
        r := if ok then Created else Stopped;
        return;
      }
      var changed := ServiceHasChanges(b, wanted);
      if changed {
        ok := cluster.Update(name, wanted);
        ChangedDiffers(b, wanted);
        r := if ok then Updated else Stopped;
        return;
      }
      assert ServedAs(b, b) by { ServedAsIs(b); }
      r := Unchanged;
    }

    static ghost function Current(st: map<string, Balancer>, name: string): Option<Balancer> {
      if name in st then Some(st[name]) else None
    }

    lemma FreshThawed()
      ensures !LoadBalancer.Frozen(FRESH)
    {
    }

    lemma VisitsListed(opts: map<string, string>)
      ensures forall s: seq<string> :: Options.Visits(s, opts) ==> forall x :: x in s ==> x in opts
    {
    }

    lemma ServedAsIs(b: Balancer)
      ensures ServedAs(b, b)
    {
    }

    lemma ChangedDiffers(a: Balancer, b: Balancer)
      requires Changed(a, b)
      ensures a != b
    {
    }

    method Remove(id: InstanceID) returns (ok: bool)
      modifies cluster
      ensures cluster.balancers == if ok then old(cluster.balancers) - {ServiceName(id)} else old(cluster.balancers)
      ensures ok <==> cluster.failures == old(cluster.failures)
    {
      hide ServiceName;
      var found := cluster.GetBalancer(ServiceName(id));
      if found.Failed? { return false; }
      if found.NotFound? {
        assert cluster.balancers - {ServiceName(id)} == cluster.balancers;
        return true;
      }
      ok := cluster.Attempt();
      if !ok { return false; }
      ok := cluster.Delete(ServiceName(id));
    }
  }
}

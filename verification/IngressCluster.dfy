/** The API server as the Ingress router sees it: one namespace, whose calls may fail before taking effect. */
module IngressCluster {
  import opened Router
  import opened Ingresses

  datatype Got<+T> = Found(value: T) | NotFound | Failed

  /** A TLS secret, with the app and the domain it is labelled for. */
  datatype Secret = Secret(app: string, domain: string, certificate: string, key: string)

  class Cluster {
    const services: map<BackendTarget, Service>
    var ingresses: map<string, Ingress>
    var nextUid: nat
    var certificates: set<string>
    var secrets: map<string, Secret>
    /** How many calls have failed. */
    ghost var failures: nat

    constructor (services: map<BackendTarget, Service>, st: Store)
      ensures this.services == services && Contents() == st && secrets == map[] && failures == 0
    {
      this.services := services;
      ingresses, nextUid, certificates := st.ingresses, st.nextUid, st.certificates;
      secrets, failures := map[], 0;
    }

    function Contents(): Store
      reads this
    {
      Store(ingresses, nextUid, certificates)
    }

    /** Whether the next call goes through is up to the environment. */
    method Attempt() returns (ok: bool)
      modifies this`failures
      ensures failures == old(failures) + (if ok then 0 else 1)
    {
      ok := *;
      if !ok { failures := failures + 1; }
    }

    method GetService(t: BackendTarget) returns (r: Got<Service>)
      modifies this`failures
      ensures failures == old(failures) + (if r.Failed? then 1 else 0)
      ensures r.Found? ==> t in services && r.value == services[t]
      ensures r.NotFound? ==> t !in services
    {
      var ok := Attempt();
      r := if !ok then Failed else if t in services then Found(services[t]) else NotFound;
    }

    method GetIngress(name: string) returns (r: Got<Ingress>)
      modifies this`failures
      ensures failures == old(failures) + (if r.Failed? then 1 else 0)
      ensures r.Found? ==> name in ingresses && r.value == ingresses[name]
      ensures r.NotFound? ==> name !in ingresses
    {
      var ok := Attempt();
      r := if !ok then Failed else if name in ingresses then Found(ingresses[name]) else NotFound;
    }

    /** A created Ingress is given the next UID. */
    method CreateIngress(name: string, i: Ingress) returns (ok: bool, created: Ingress)
      modifies this`ingresses, this`nextUid, this`failures
      ensures ok ==> failures == old(failures) && name !in old(ingresses) && created == i.(uid := old(nextUid))
      ensures ok ==> ingresses == old(ingresses)[name := created] && nextUid == old(nextUid) + 1
      ensures !ok ==>
        ingresses == old(ingresses) && nextUid == old(nextUid) && (name in ingresses || failures > old(failures))
    {
      created := i.(uid := nextUid);
      ok := Attempt();
      if ok && name in ingresses { return false, created; }
      if ok { ingresses, nextUid := ingresses[name := created], nextUid + 1; }
    }

    method UpdateIngress(name: string, i: Ingress) returns (ok: bool)
      modifies this`ingresses, this`failures
      ensures ok ==> failures == old(failures) && name in old(ingresses) && ingresses == old(ingresses)[name := i]
      ensures !ok ==> ingresses == old(ingresses) && (name !in ingresses || failures > old(failures))
    {
      ok := Attempt();
      if ok && name !in ingresses { return false; }
      if ok { ingresses := ingresses[name := i]; }
    }

    /** Deleting what is not there is not an error to the router. */
    method DeleteIngress(name: string) returns (ok: bool)
      modifies this`ingresses, this`failures
      ensures failures == old(failures) + (if ok then 0 else 1)
      ensures ingresses == if ok then old(ingresses) - {name} else old(ingresses)
    {
      ok := Attempt();
      if ok { ingresses := ingresses - {name}; }
    }

    /** Foreground deletion: what the Ingress owns is collected with it. */
    method DeleteIngressForeground(name: string) returns (ok: bool)
      modifies this`ingresses, this`failures
      ensures failures == old(failures) + (if ok then 0 else 1)
      ensures ingresses ==
        if ok && name in old(ingresses) then
          map m | m in old(ingresses) && m != name
            && !OwnedBy(old(ingresses)[m], old(ingresses)[name].uid) :: old(ingresses)[m]
        else old(ingresses)
    {
      ok := Attempt();
      if ok && name in ingresses {
        ingresses := map m | m in ingresses && m != name && !OwnedBy(ingresses[m], ingresses[name].uid) :: ingresses[m];
      }
    }

    method DeleteCertificate(name: string) returns (ok: bool)
      modifies this`certificates, this`failures
      ensures failures == old(failures) + (if ok then 0 else 1)
      ensures certificates == if ok then old(certificates) - {name} else old(certificates)
    {
      ok := Attempt();
      if ok { certificates := certificates - {name}; }
    }

    /** Create, or replace when it exists already. */
    method PutSecret(name: string, s: Secret) returns (ok: bool)
      modifies this`secrets, this`failures
      ensures failures == old(failures) + (if ok then 0 else 1)
      ensures secrets == if ok then old(secrets)[name := s] else old(secrets)
    {
      ok := Attempt();
      if ok && name in secrets { ok := Attempt(); }
      if ok { secrets := secrets[name := s]; }
    }

    /** Deleting a secret that is not there is an error. */
    method DeleteSecret(name: string) returns (ok: bool)
      modifies this`secrets, this`failures
      ensures ok <==> name in old(secrets) && failures == old(failures)
      ensures secrets == if ok then old(secrets) - {name} else old(secrets)
      ensures failures >= old(failures)
    {
      ok := Attempt();
      if ok && name !in secrets { return false; }
      if ok { secrets := secrets - {name}; }
    }
  }
}

# Verification of the Kubernetes router

The router is a reconciler. One `Ensure(id, opts)` call reads the cluster, computes the objects an app should
have, writes them, deletes the stale ones, and stores its own bookkeeping (the list of CNames) in an annotation
on one of those objects. Any API call on the way can fail. This project models the four routers (Gateway API,
Ingress, Istio, load balancer) and the decoding of request options, and proves what holds after one call, after
a call that was cut short, and over whole runs of calls by many router instances.

## How the model is built

- **Specification and program.** For each router, one set of modules defines the desired objects and the list of
  writes (*plan*) of one call as functions of the store, and another holds classes whose methods keep the
  program's loops, branches and order of API calls. The methods are proved to make a prefix of the plan when a
  call fails, and the whole plan when none does. The theorems are about the plans, so they hold for the methods.
- **The API server.** A `Cluster` class holds mutable maps from names to objects. Each of its methods may fail
  before it takes effect; the ghost field `failures` counts how often that happened, so a contract can say what
  a call without failures guarantees. `LoadBalancerRouter.Cluster` also numbers NodePorts as it likes.
- **Written objects.** The plans put objects that specification functions compute. What these objects read is stated
  a second time, over the store after a complete `Ensure`, with every name spelled out and without those functions
  (`GatewayObjects`, `IngressObjects`, `IstioObjects`, `LoadBalancer.SettledServes`), and so is what a decoded option
  does (`OptsDecoding.TakesIn`).
- **Map iteration.** A Go `range` over a map is a loop that picks any remaining key. Where the result could
  depend on the order, a theorem says exactly when it does.
- **Names.** SHA-256 is an arbitrary function, and distinctness of shortened names is an explicit hypothesis
  (`NoCollision`, `NamesApart`). Distinctness before shortening is proved where it holds. The theorems about
  runs start from any store that satisfies their invariant; the empty one does (`GatewayRuns.EmptyStart`,
  `IngressRuns.EmptyStart`, `IstioHosts.FreshConsistent`). `GatewayRuns.ShortAppsApart`, `IngressRuns.SameInstanceApart`
  and `IngressRuns.EveryAppEnsures` give worlds of many apps, with or without an instance name, that meet the hypotheses.

| file | contents |
|---|---|
| `Strings`, `Strconv` | the string functions of Go's library that the code uses |
| `Options` | options ranged over in any order: what they mean, and when the order matters |
| `Router`, `Resources` | shared data, resource names, backend targets, CName difference, tag labels |
| `OptsDecoding` | `Opts.UnmarshalJSON` |
| `Gateway`, `GatewayPlans` | Gateway API objects, plans, and what lists of writes do |
| `GatewayFacts`, `GatewayEffects`, `GatewayClosure` | what one Gateway `Ensure` does, complete or cut short |
| `GatewaySwallowed`, `GatewayNoDefault` | what an `Ensure` leaves that swallowed an error, or has no default prefix |
| `GatewayReferences` | when references from CName routes to ListenerSets stand after an `Ensure` |
| `GatewayRuns`, `GatewayReferenceRuns`, `GatewayRetries` | runs of calls: tracking, references, retries |
| `GatewayReads` | addresses and readiness |
| `GatewayObjects` | what the stored routes and ListenerSets read: names, hosts, labels, annotations, references, certificates |
| `GatewayCluster`, `GatewayRouter` | the API server and the Gateway router |
| `Ingresses`, `IngressMerge`, `IngressFacts` | Ingress objects, the merge, and what one Ingress `Ensure` does |
| `IngressObjects`, `IngressLeftovers` | what the stored Ingresses read; which Certificates go |
| `IngressRerun` | a second `Ensure` that ranges over the backends in another order |
| `IngressRuns`, `IngressCertificates`, `Certificates` | runs, certificates over runs, TLS list editing |
| `IngressCluster`, `IngressRouter` | the API server and the Ingress router |
| `IstioHosts`, `IstioCluster`, `IstioRouter` | the managed host sets, the VirtualService object, the Istio router |
| `IstioObjects` | what the stored VirtualService and Gateway read |
| `LoadBalancer`, `LoadBalancerRouter` | ports, labels and annotations; the load balancer router |

## Where the code does not do what one would expect

Each of these is a theorem about the code as it is, in most cases with the exact condition.

- Gateway: an error while the CName record is read inside `ensureCNames` is swallowed (a *blind* call). The route
  of a CName that was recorded and is no longer requested then stays, while its ListenerSet is deleted, so it may
  refer to one that is gone (`GatewayReferences.BlindDangles`). If the call stops before it writes the new record,
  retrying the same list heals the names (`GatewayRetries.RetryConverges`) and the references
  (`GatewayRetries.RetryCloses`). If it writes the record, the next complete `Ensure` heals it if and only if no
  such route was there (`GatewayRetries.BlindHealsExactly`).
- Gateway: an error while the record is written is swallowed too. That breaks no reference by itself
  (`GatewayReferences.LostRecordKeepsRefs`), but objects of CNames that are not recorded yet are then untracked
  (`GatewaySwallowed.LostRecordTracksExactly`). A complete `Ensure` of another list, with no error at all, leaves
  their routes and deletes their ListenerSets (`GatewayReferences.UnrecordedDangles`). So a reference is safe exactly
  as long as no call deletes a ListenerSet that a route it leaves alone refers to
  (`GatewayReferenceRuns.RunRefsExactly`), as when every instance finishes what it began before it asks for other
  CNames (`GatewayReferenceRuns.RunStands`).
- Gateway: without a default prefix the main route goes, and the CName record with it, unless the route is frozen
  or not labelled for the instance (`GatewayNoDefault.NoDefaultTracksExactly`). A CName that gets a route then
  stops the call, in TLS mode with its ListenerSet left behind (`GatewayNoDefault.NoDefaultStops`).
- Gateway: `Remove` misses a route whose CName label is there but is not `"true"` (`GatewayRuns.RemoveComplete`).
- Ingress: the record is rewritten before stale CNames are removed, so a retry does not remove what the first
  attempt had not removed yet (`IngressRuns.RetryLeaksExactly`).
- Ingress: rules come out of a map, and the diff compares them in order. A re-run can therefore write where
  nothing changed and lose foreign annotations (`IngressRerun.EnsureTwiceExactly`).
- Ingress: `RemoveCertificate` cuts the list it is indexing (`Certificates.RemoveEntries`,
  `Certificates.RemoveAfterAnotherPanics`).
- Istio: the Gateway is created under the app name and deleted under the hashed name
  (`IstioRouter.GatewayNamesAgreeExactly`); a CName equal to the app's own host takes that host with it when it
  is dropped (`IstioHosts.TargetKeptExactly`). A repeated `Ensure` makes all its writes and still ends in
  `ErrIngressAlreadyExists` (`IstioRouter.IstioGateway.Ensure`).
- Load balancer: the ports are no fixpoint when the web service repeats a port number, as for TCP and UDP, and
  all ports are exposed (`LoadBalancer.SecondEnsureExactly`).
- Options: whether decoding reports a bad flag can depend on the map order (`OptsDecoding.ErrorOrderFreeExactly`),
  and a body of `null` with header options is a write to a nil map (`OptsDecoding.Opts.UnmarshalJSON`).

## Model

| member | source | states |
|---|---|---|
| Strings.SplitJoin | kubernetes/gatewayapi.go:1062-1066 | splitting a joined list of comma-free names gives the list back |
| Strings.SortedKeys | kubernetes/gatewayapi.go:150-154 | collecting the keys of a map in any order and sorting them gives one list |
| Strings.LeqExactly | kubernetes/gatewayapi.go:150-154 | the order is lexicographic: a prefix first, otherwise the smaller character at the first difference |
| Strings.JoinSnoc | kubernetes/gatewayapi.go:1097-1099 | a name joined on is appended behind a separator |
| Strings.MappedReordered | kubernetes/ingress.go:287-314 | a list built element by element from reordered input is only reordered |
| Strconv.AtoiDecimal | kubernetes/loadbalancer.go:337-360 | every 64-bit integer is read back from its printed form, which has no sign but a minus and no leading zero |
| Strconv.AtoiExactly | kubernetes/loadbalancer.go:337-340 | what the parsed port is for every string: the nearest 64-bit integer for a number, otherwise 0 unless 64 bits overflow first |
| Strconv.Int32 | kubernetes/loadbalancer.go:365-373 | the conversion keeps the low 32 bits |
| Options.RunAt | kubernetes/gatewayapi.go:594-608 | agreeing options decide each key they name, and leave every other key as it was |
| Options.RunIsSettle | kubernetes/ingress.go:849-864 | when no two options disagree about a key, every iteration order gives the same map |
| Options.OrderIndependentExactly | kubernetes/loadbalancer.go:263-287 | all iteration orders agree if and only if no two options disagree about a key, deletions included |
| Options.SettleAt | kubernetes/gatewayapi.go:594-608 | the order-free result at one key: what an option sets or erases there, or what it was |
| Options.ApplyOptions | kubernetes/gatewayapi.go:595-608 | the range loop visits each option once, in some order, and yields the order-free result when options agree |
| Options.CopyInto | kubernetes/istiogateway.go:60-69 | a map copied into another overrides it, in every order |
| Options.Differs | kubernetes/ingress.go:1011-1035 | true exactly when some wanted entry reads differently, a missing one reading as empty |
| Resources.ShortenCollidesExactly | kubernetes/service.go:286-293 | exactly when two names become one: equal, both long with the same kept part and digest start, or one spelled like the other shortened |
| Resources.HashedNameIs | kubernetes/service.go:282-294 | a resource name is the base, a dash and the instance, and when that is too long its start, a dash and 16 digits of its digest |
| Resources.SuffixInjective | kubernetes/service.go:283-285 | for one instance the suffix keeps distinct base names distinct |
| Resources.KeyIsFiledUnder | kubernetes/service.go:248-259 | an empty prefix is filed under "default", any other one under itself, character by character, with dashes for underscores |
| Resources.LastPrefixWins | kubernetes/service.go:248-259 | each backend key holds the target of the last prefix filed under it |
| Resources.OnlyListedKeys | kubernetes/service.go:248-259 | there is a backend key only for a listed prefix |
| Resources.AddAllBackends | kubernetes/service.go:248-259 | the loop builds exactly that map |
| Resources.FirstDefault | kubernetes/service.go:238-246 | the first prefix without a name, or none when there is none |
| Resources.GetDefaultBackendTarget | kubernetes/service.go:238-246 | the search loop returns the first default prefix, or an error |
| Resources.BackendTargetsExactly | kubernetes/service.go:262-280 | every key a prefix is filed under, with the last such prefix, when all are exposed; the first default one alone when not; an error exactly when there is none |
| Resources.GetBackendTargets | kubernetes/service.go:262-280 | one default target, or all of them, or an error |
| Resources.DiffCNames | kubernetes/istiogateway.go:317-339 | what is expected and not there, and what is there and not expected, in order |
| Resources.AddTagLabels | kubernetes/gatewayapi.go:626-641 | well-formed tags with valid names are added over the labels, in order |
| Resources.TagLabelsExactly | kubernetes/gatewayapi.go:626-641 | a tag label is there exactly when its name is valid and some KEY=VALUE tag asks for it; the last such tag gives the value |
| Resources.LabelsAre | kubernetes/gatewayapi.go:613-643 | where each label comes from: app and team, the tags, the configuration, the object itself, in this order |
| OptsDecoding.HeaderPriority | router/service.go:163-177 | the body beats the headers, and the first header for a key beats later ones |
| OptsDecoding.HeaderMeans | router/service.go:163-177 | a header is cut at its first "=", and without one it stands for an empty value |
| OptsDecoding.DecodedStep | router/service.go:183-226 | taking in one entry changes its own field only, so the fields do not depend on the map order |
| OptsDecoding.DecodedByName | router/service.go:183-226 | for every receiver and merged map, a text under each of the eleven written option names becomes, or parses to, the value of exactly its own field; a text under any other name is an additional option; nothing else changes |
| OptsDecoding.FlagsByName | router/service.go:203-222 | which entries set the error and which clear it: texts under the four flag names that are no boolean word, and that are one |
| OptsDecoding.ErrorOrderFreeExactly | router/service.go:203-228 | the reported error depends on the order exactly when one flag parses and another does not |
| OptsDecoding.Opts.Set | router/service.go:188-225 | the switch takes in one entry as its written name says, and nothing else; a flag that is no boolean word is false and sets the error, one that is clears it |
| OptsDecoding.Opts.MergeHeaders | router/service.go:163-177 | the header loop fills in only keys that are missing |
| OptsDecoding.Opts.UnmarshalJSON | router/service.go:156-229 | the receiver ends with the order-free fields, each decided by the option of its own written name; the error is that of the last flag visited; null with headers panics |
| GatewayFacts.RecordReadsBack | kubernetes/gatewayapi.go:1056-1105 | the recorded list reads back as written exactly when it is comma-free and not a single empty name |
| GatewayFacts.EnsureRecords | kubernetes/gatewayapi.go:168-177 | after a complete Ensure the main route is there and records the requested CNames, whatever the store held |
| GatewayFacts.EnsureExact | kubernetes/gatewayapi.go:673-781 | if every CName object belonged to a recorded or requested CName, after a complete Ensure each belongs to a requested one |
| GatewayFacts.EnsureCutShort | kubernetes/gatewayapi.go:156-177 | cut short after any write, only recorded or attempted names are left, and the record is the old or the new one |
| GatewayFacts.BlindCutShort | kubernetes/gatewayapi.go:1056-1061 | the same for a call that could not read the record, before it writes the new one |
| GatewayEffects.NamesDistinct | kubernetes/gatewayapi.go:66-75 | without digest collisions, route names of one instance are distinct for distinct prefixes and for distinct CNames |
| GatewayEffects.EnsureFrame | kubernetes/gatewayapi.go:286-304 | cut short anywhere, blind or not, an Ensure leaves alone every route it does not name, unless that is an unfrozen prefix route labelled for its own instance |
| GatewayEffects.EnsureSetFrame | kubernetes/gatewayapi.go:976-1011 | cut short anywhere, blind or not, an Ensure leaves alone every ListenerSet it does not name and that is not labelled for its own instance |
| GatewayEffects.FreezeSafety | kubernetes/gatewayapi.go:293-301 | a frozen route is never dropped or changed but for the record on the main one, unless its CName was dropped; also in a blind call |
| GatewayEffects.EnsurePrefixRoute | kubernetes/gatewayapi.go:306-384 | every wanted prefix route ends as desired, or as it was when frozen |
| GatewayEffects.EnsureClean | kubernetes/gatewayapi.go:286-304 | no prefix route is left beyond the wanted and the frozen ones |
| GatewayClosure.EnsureCNameRoute | kubernetes/gatewayapi.go:878-963 | the route of an issued CName ends as desired, or as it was when frozen |
| GatewayClosure.EnsureCNameSet | kubernetes/gatewayapi.go:786-862 | in TLS mode the ListenerSet of an issued CName is the desired one |
| GatewayClosure.SetStands | kubernetes/gatewayapi.go:995-1008 | the ListenerSet of a requested CName that was there or is put is still there at the end, issuer or not |
| GatewayReferences.CutRefsExactly | kubernetes/gatewayapi.go:686-780 | over an Ensure cut short anywhere, blind or not, all references from unfrozen CName routes to ListenerSets stand if and only if no route it leaves alone refers to one it has deleted by then |
| GatewayReferences.EnsureRefsExactly | kubernetes/gatewayapi.go:686-780 | after a complete Ensure they stand, if they did before, if and only if no route it leaves alone refers to an unwanted ListenerSet of the instance |
| GatewayReferences.AttemptKeepsOwn | kubernetes/gatewayapi.go:686-780 | an attempt at a list, in either mode, cut short anywhere, blind or not, keeps the references of the routes of that list standing |
| GatewayReferences.EnsureCloses | kubernetes/gatewayapi.go:686-780 | a complete Ensure of the list attempted leaves each unfrozen CName route that of a recorded CName, with its own ListenerSet there |
| GatewayReferences.LostRecordKeepsRefs | kubernetes/gatewayapi.go:1087-1105 | a lost record write breaks no reference, whatever was put |
| GatewayReferences.BlindRefsExactly | kubernetes/gatewayapi.go:1056-1061 | when the record is not read, references stand afterwards, whether or not it is written, if and only if no leftover route refers to a ListenerSet that goes |
| GatewayReferences.BlindDangles | kubernetes/gatewayapi.go:995-1008 | the failing input: the leftover route stays as it was and the ListenerSet it refers to is deleted |
| GatewayReferences.UnrecordedDangles | kubernetes/gatewayapi.go:995-1008 | a failing input without any error in the call: after a lost record, an Ensure of another list keeps the unrecorded route and deletes its ListenerSet |
| GatewayClosure.SectionsAgree | kubernetes/gatewayapi.go:737-749 | a CName's route names the single listener of its ListenerSet, which serves that host and asks for its certificate |
| GatewayClosure.EnsureIdempotent | kubernetes/gatewayapi.go:92-180 | a second Ensure with the same input changes nothing in the store |
| GatewaySwallowed.LostRecordTracksExactly | kubernetes/gatewayapi.go:1087-1105 | when the record is not written, all CName objects stay tracked if and only if only recorded CNames were put |
| GatewaySwallowed.BlindTracksExactly | kubernetes/gatewayapi.go:1056-1061 | when the record is not read but written, they stay tracked if and only if no recorded, unrequested CName has a route |
| GatewayNoDefault.NoDefaultOrphans | kubernetes/gatewayapi.go:168-177 | without a default prefix, a request for no CNames leaves all CName routes behind, unrecorded |
| GatewayNoDefault.NoDefaultTracksExactly | kubernetes/gatewayapi.go:168-177 | without a default prefix, and with no CName that gets a route, tracking survives if and only if the main route stays or there is nothing to track |
| GatewayNoDefault.NoDefaultStops | kubernetes/gatewayapi.go:888-894 | a CName that gets a route stops such a call; in TLS mode its ListenerSet is there by then, tracked if and only if the main route stays and its name was recorded |
| GatewayRuns.RemoveEffect | kubernetes/gatewayapi.go:387-432 | exactly which routes and ListenerSets a complete Remove deletes |
| GatewayRuns.RemoveComplete | kubernetes/gatewayapi.go:1013-1053 | no ListenerSet of the instance is left, and no route if and only if its routes' CName labels, the main one's aside, are all "true" |
| GatewayRuns.RemoveFrame | kubernetes/gatewayapi.go:387-432 | cut short anywhere, a Remove keeps everything not labelled for the instance, but for a route under its main name |
| GatewayRuns.EndedReturns | kubernetes/gatewayapi.go:92-180 | however the Ensure method ends without an error, it made the writes of an event the theorems about runs admit |
| GatewayRuns.StoppedIsEvent | kubernetes/gatewayapi.go:92-180 | however it ends with one, it made the writes of a cut-short event |
| GatewayRuns.RunTracked | kubernetes/gatewayapi.go:976-1105 | over any run of calls that return without an error, read or write swallowed or not, every CName object is named after a recorded CName, as long as each call meets its condition |
| GatewayRuns.RunTrackedExactly | kubernetes/gatewayapi.go:976-1105 | that holds all along the run if and only if each call meets its condition |
| GatewayReferenceRuns.RemoveKeepsRefs | kubernetes/gatewayapi.go:1013-1053 | a Remove, cut short anywhere, leaves no reference dangling |
| GatewayReferenceRuns.RunRefsExactly | kubernetes/gatewayapi.go:686-780 | over any run of calls, complete, failed anywhere or with errors swallowed, no reference ever dangles if and only if no call deletes a ListenerSet that a route it leaves alone refers to |
| GatewayReferenceRuns.RunStands | kubernetes/gatewayapi.go:686-780 | no reference ever dangles, not even between the calls of a retry, through failures, lost records, mode switches and vanishing issuers, as long as each instance takes up what it began before it asks for other CNames and no record read is swallowed |
| GatewayRetries.RetryConverges | kubernetes/gatewayapi.go:156-177 | any number of cut-short attempts at a list, blind ones included, then one complete Ensure of it, leave exactly that list |
| GatewayRetries.RetryCloses | kubernetes/gatewayapi.go:686-780 | and leave every unfrozen CName route that of a requested CName, referring to no ListenerSet but its own, which is there |
| GatewayRetries.ExactIff | kubernetes/gatewayapi.go:673-781 | only requested CNames keep routes if and only if each route was recorded or requested before |
| GatewayRetries.BlindHealsExactly | kubernetes/gatewayapi.go:1056-1061 | after a blind call that wrote the record, the next complete Ensure leaves only requested CNames if and only if no other CName had a route before |
| GatewayRetries.BlindReadLeaks | kubernetes/gatewayapi.go:1056-1061 | the failing input: each dropped CName's route outlives the blind call and the next Ensure |
| GatewayReads.HostsDistinct | kubernetes/gatewayapi.go:190-202 | distinct backend keys have distinct hosts |
| GatewayReads.RoutingTable | kubernetes/gatewayapi.go:306-384 | with nothing frozen, a backend's host belongs to exactly one route, which goes to that backend's service |
| GatewayReads.AddressesExact | kubernetes/gatewayapi.go:435-467 | with nothing frozen, the addresses after an Ensure are exactly those of the backends, under the scheme of the mode; GatewayObjects.AddressesWritten spells them out |
| GatewayReads.AddressesInOrder | kubernetes/gatewayapi.go:459-464 | the addresses come in the order of the routes |
| GatewayReads.CollectAddresses | kubernetes/gatewayapi.go:459-464 | the loop lists every host name of every route under the scheme |
| GatewayReads.ReadConditions | kubernetes/gatewayapi.go:530-547 | ready exactly when both kinds of condition are there and none is untrue; the first bad one gives the detail |
| GatewayObjects.PrefixRouteWritten | kubernetes/gatewayapi.go:306-372 | the stored route of each backend key: under its name, for the gateway in force, one hostname (the domain, or the app under the suffix, behind the domain prefix; a key in front), the path or "/", the first port of the service or 8888, and the source of every label |
| GatewayObjects.PrefixAnnotationsWritten | kubernetes/gatewayapi.go:587-611 | the source of every annotation of that route: an option, the configuration, or what was there; its status stays |
| GatewayObjects.AddressesWritten | kubernetes/gatewayapi.go:454-464 | the addresses reported are "http://" or "https://" before the host of each backend key, and no others |
| GatewayObjects.CNameRouteWritten | kubernetes/gatewayapi.go:888-942 | the stored route of each CName that gets one: host, service and port, labels, and its parent by name, namespace and section |
| GatewayObjects.SetWritten | kubernetes/gatewayapi.go:796-838 | the stored ListenerSet of a CName: gateway, one HTTPS listener on 443 for the host with its secret, labels, and the certificate annotations |
| GatewayObjects.CertMeans | kubernetes/gatewayapi.go:1111-1130 | an issuer spelled name.kind.group gives issuer, kind and group in their own annotations, any other a cluster issuer; the common name is the CName |
| GatewayObjects.SetsLeftExactly | kubernetes/gatewayapi.go:976-1011 | the ListenerSets left: none in HTTP-only mode, otherwise those named after a requested CName that has an issuer or had one |
| GatewayObjects.NothingToReconcile | kubernetes/gatewayapi.go:168-177 | with no CName requested or recorded all ListenerSets are left alone |
| GatewayObjects.RecordSpelled | kubernetes/gatewayapi.go:1087-1105 | the main route records the requested CNames under router.tsuru.io/cnames, or nothing |
| GatewayRouter.GatewayAPIService.BuildLabels | kubernetes/gatewayapi.go:613-643 | base, configured, app and tag labels, later ones winning |
| GatewayRouter.GatewayAPIService.BuildAnnotations | kubernetes/gatewayapi.go:587-611 | the configured annotations with the options applied in some order, and in any order when they agree |
| GatewayRouter.GatewayAPIService.MergeAnnotations | kubernetes/gatewayapi.go:236-249 | existing annotations are kept where the new object sets none |
| GatewayRouter.GatewayAPIService.UpsertHTTPRoute | kubernetes/gatewayapi.go:270-284 | the route is created, or replaced with its annotations merged; on an error nothing changes |
| GatewayRouter.GatewayAPIService.EnsureHTTPRoutes | kubernetes/gatewayapi.go:308-384 | the prefix routes are put in order, each as GatewayObjects.PrefixRouteWritten reads it; a failure leaves a prefix of the puts |
| GatewayRouter.GatewayAPIService.CleanupHTTPRoutes | kubernetes/gatewayapi.go:286-304 | the stale routes are deleted in listing order; a failure leaves a prefix of the deletions |
| GatewayRouter.GatewayAPIService.GetExistingCNames | kubernetes/gatewayapi.go:1056-1067 | the recorded list, or nothing when the read fails |
| GatewayRouter.GatewayAPIService.EnsureListenerSet | kubernetes/gatewayapi.go:786-862 | the ListenerSet is created or replaced by the desired one |
| GatewayRouter.GatewayAPIService.EnsureCNameHTTPRoute | kubernetes/gatewayapi.go:878-963 | the CName route is created, merged, or left alone when frozen |
| GatewayRouter.GatewayAPIService.CleanupOrphanedListenerSets | kubernetes/gatewayapi.go:976-1011 | the instance's ListenerSets outside the requested names are deleted |
| GatewayRouter.GatewayAPIService.EnsureCNames | kubernetes/gatewayapi.go:673-781 | puts, drops and ListenerSet cleanup in this order, up to the first failure |
| GatewayRouter.GatewayAPIService.UpdateCNamesAnnotation | kubernetes/gatewayapi.go:1087-1105 | the record is written on the main route, frozen or not, or silently not written on an error |
| GatewayRouter.GatewayAPIService.Ensure | kubernetes/gatewayapi.go:92-180 | the writes are a prefix of the plan, all of it without failures, and without an error all but the record when a read or write was swallowed; without a default service it stops at the first CName that gets a route; gateway name, gateway namespace and domain suffix given with the request stick to the router |
| GatewayRouter.GatewayAPIService.RemoveCNameResources | kubernetes/gatewayapi.go:1014-1053 | the labelled CName routes and all ListenerSets are deleted, up to the first failure |
| GatewayRouter.GatewayAPIService.Remove | kubernetes/gatewayapi.go:387-432 | the deletions are a prefix of the plan, and all of it on success |
| GatewayRouter.GatewayAPIService.GetAddresses | kubernetes/gatewayapi.go:435-467 | the addresses of the store as it is, or an error exactly when a call fails |
| GatewayRouter.GatewayAPIService.HTTPRouteStatus | kubernetes/gatewayapi.go:524-555 | ready exactly when the first parent's conditions say so |
| GatewayRouter.GatewayAPIService.GetStatus | kubernetes/gatewayapi.go:470-512 | ready if and only if every labelled route is, or the main route when none is labelled |
| IngressMerge.StoredTwice | kubernetes/ingress.go:269-285 | putting the same Ingress twice is putting it once, in all certificate modes, written or skipped |
| IngressMerge.CreatedSettled | kubernetes/ingress.go:207-221 | a created Ingress is settled: putting it again changes nothing |
| IngressMerge.MainReordered | kubernetes/ingress.go:287-327 | another iteration order over the backends wants the same content but for the order of rules |
| IngressMerge.ReorderedExactly | kubernetes/ingress.go:990-1041 | exactly when putting a stored Ingress again, in another order, keeps the content |
| IngressMerge.CreatedReordered | kubernetes/ingress.go:207-221 | a created Ingress keeps its content when it is put again in another order |
| IngressMerge.PutLeaves | kubernetes/ingress.go:990-1009 | owner and record of an unfrozen Ingress are the desired ones whether or not it was written |
| IngressMerge.EntryKept | kubernetes/ingress.go:276-278 | a put that keeps the host, without cert-manager, keeps the host's TLS entry |
| IngressMerge.EntryKeptIff | kubernetes/ingress.go:269-285 | the exact condition for one put to keep a TLS entry |
| IngressFacts.NamesDistinct | kubernetes/ingress.go:608-610 | CName Ingresses of one instance have distinct names without digest collisions |
| IngressFacts.EnsureMain | kubernetes/ingress.go:194-221 | the main Ingress ends with the requested record and the UID it had, written or not |
| IngressFacts.RecordReadsBack | kubernetes/ingress.go:203-227 | the stored record reads back as a non-empty requested list exactly when that is comma-free |
| IngressFacts.EnsureCName | kubernetes/ingress.go:346-425 | each requested CName has an Ingress, owned by the main one's UID unless it is frozen |
| IngressFacts.EnsureExact | kubernetes/ingress.go:229-264 | the Ingresses the main one owns are exactly those of requested CNames, frozen ones aside |
| IngressFacts.EnsureFrame | kubernetes/ingress.go:229-264 | an Ensure touches its main Ingress and those of requested or recorded CNames only |
| IngressFacts.EnsureThenRemove | kubernetes/ingress.go:382-388 | what an Ensure made for its CNames goes with the next Remove, frozen foreign Ingresses aside |
| IngressFacts.EnsureTwice | kubernetes/ingress.go:104-267 | a second Ensure in the same order leaves every Ingress as the first one did |
| IngressRerun.OnlyMainChanges | kubernetes/ingress.go:104-267 | a second Ensure in any order leaves every Ingress but the main one as it was, and puts that one once more |
| IngressRerun.EnsureTwiceExactly | kubernetes/ingress.go:287-314 | for every two range orders, it leaves the content of all Ingresses if and only if the main one is new, frozen, just written, not written again, or without foreign annotations and labels |
| IngressRuns.TwoApps | kubernetes/ingress.go:604-610 | two apps without an instance name, whose CName Ingress names do not tell them apart, can both call Ensure in these runs |
| IngressRuns.RunExact | kubernetes/ingress.go:203-264 | over any run of completed calls, what a main Ingress owns is named after its recorded CNames |
| IngressRuns.ExactAfterRun | kubernetes/ingress.go:203-264 | after any run, one more Ensure leaves exactly its own CName Ingresses, and a Remove none of them but frozen ones |
| IngressRuns.RetryLeaksExactly | kubernetes/ingress.go:207-264 | an Ensure cut short anywhere after its first write: a dropped CName's Ingress outlives the retry, unchanged, if and only if the first attempt had not deleted it |
| IngressRuns.VHostsDistinct | kubernetes/ingress.go:163-176 | distinct backend keys have distinct hosts |
| IngressRuns.RoutingTable | kubernetes/ingress.go:287-327 | each backend has exactly one rule with its host, and that rule goes to the backend's service and port |
| IngressCertificates.EnsureHolds | kubernetes/ingress.go:194-221 | an Ensure that keeps serving the host without cert-manager keeps its TLS entry and secret name |
| IngressCertificates.CertificateSurvivesRuns | kubernetes/ingress.go:269-285 | a host's TLS entry survives any run in which its own instance keeps the host and stays clear of cert-manager |
| IngressObjects.CNameWritten | kubernetes/ingress.go:346-480 | the stored Ingress of a requested CName: host, path, service, owner, class, TLS entry and labels, and exactly which of the annotations of cert-manager are there and what each reads, for a namespace issuer, a cluster issuer, an external one, none, ACME and HTTP-only |
| IngressObjects.CNameOptionsWritten | kubernetes/ingress.go:844-864 | its other annotations: set or taken away by an option under its annotation name, or configured |
| IngressObjects.MainWritten | kubernetes/ingress.go:159-221 | the stored main Ingress: one rule for each backend with its host (the domain, or the app under the suffix, behind the domain prefix; a key in front), service and first port; owner, class, record, ACME, TLS entries and labels |
| IngressObjects.MainOptionsWritten | kubernetes/ingress.go:844-864 | its other annotations: set or taken away by an option, or configured |
| IngressObjects.PutLeft | kubernetes/ingress.go:269-285 | what a put leaves of an unfrozen Ingress, created, written or not: UID and default backend as they were, everything wanted, and nothing else unless nothing was written; TLS set by hand is filled in again |
| IngressLeftovers.CertificatesLeftExactly | kubernetes/ingress.go:407-424 | a Certificate is deleted if and only if it is that of a requested CName whose Ingress was there, unfrozen, and ends without TLS |
| Certificates.AddEntry | kubernetes/ingress.go:698-715 | the entry with the secret gets the host, or a new entry is appended |
| Certificates.RemoveEntries | kubernetes/ingress.go:793-799 | the loop stays in bounds exactly when only the last entry names the host, once; it then cuts that entry |
| Certificates.CutHosts | kubernetes/ingress.go:794-798 | the inner loop cuts once per mention, and at the last entry panics exactly on a second mention |
| Certificates.AddThenRemove | kubernetes/ingress.go:698-799 | adding a new host and removing it at once restores the list, in bounds |
| Certificates.RemoveAfterAnotherPanics | kubernetes/ingress.go:793-799 | adding another host in between makes the removal run off the end |
| IngressRouter.IngressHasChanges | kubernetes/ingress.go:990-1041 | changed exactly when spec, owner or record differ, or a wanted annotation or label reads differently |
| IngressRouter.IsManagedByCertManager | kubernetes/ingress.go:1050-1057 | true exactly when one of the four cert-manager annotations is there |
| IngressRouter.CleanupCertManagerAnnotations | kubernetes/ingress.go:482-486 | those four annotations go, the others stay |
| IngressRouter.IngressService.FillIngressMeta | kubernetes/ingress.go:826-886 | the labels, and the order-free annotations when the options agree |
| IngressRouter.IngressService.FillIngressTLS | kubernetes/ingress.go:977-988 | one TLS entry per rule, with the host's own secret |
| IngressRouter.IngressService.BuildRules | kubernetes/ingress.go:287-314 | one rule per backend, each once, in some order; a backend without ports is a panic |
| IngressRouter.IngressService.MergeIngressAndUpdate | kubernetes/ingress.go:269-285 | the merged Ingress is stored, or nothing changes |
| IngressRouter.IngressService.PutIngressObject | kubernetes/ingress.go:207-221 | create, write over, or skip, as the diff says |
| IngressRouter.IngressService.CertifyCName | kubernetes/ingress.go:395-480 | annotations and TLS of the four certificate modes, as IngressObjects.CNameWritten reads them; an unknown issuer is an error |
| IngressRouter.IngressService.EnsureCNameBackend | kubernetes/ingress.go:346-425 | the CName Ingress is put unless frozen, and a left-over Certificate deleted when it ends without TLS |
| IngressRouter.IngressService.RemoveCNameBackends | kubernetes/ingress.go:249-264 | the dropped CNames' Ingresses are deleted in order, up to the first failure |
| IngressRouter.IngressService.ResolveBackends | kubernetes/ingress.go:139-176 | the services and rules of the request, or the error or panic that ends it |
| IngressRouter.IngressService.Ensure | kubernetes/ingress.go:106-267 | the writes are a prefix of the plan, and all of it without failures, for a range over each backend once, so the store then reads as in IngressObjects; a frozen main Ingress makes the call a no-op |
| IngressRouter.IngressService.Remove | kubernetes/ingress.go:506-521 | the main Ingress and what it owns are gone, or nothing changed |
| IngressRouter.IngressService.TargetIngress | kubernetes/ingress.go:720-739 | the CName's Ingress when it is the app's, otherwise the main one |
| IngressRouter.IngressService.AddCertificate | kubernetes/ingress.go:624-718 | installed exactly when the target serves the host and is free of cert-manager and ACME; entry and secret are then there |
| IngressRouter.IngressService.RemoveCertificate | kubernetes/ingress.go:768-806 | refused, out of bounds or done, exactly when the target is managed, its list is unfit, or neither |
| IstioHosts.AddedIsUnion | kubernetes/istiogateway.go:99-111 | addToSet is a union that keeps lists without repetitions so |
| IstioHosts.AddedReordered | kubernetes/istiogateway.go:99-126 | the order in which removeFromSet returns hosts does not matter to addToSet |
| IstioHosts.ReadsBack | kubernetes/istiogateway.go:128-153 | the managed hosts are read back from the annotation as recorded, sorted |
| IstioHosts.AddHostMeans | kubernetes/istiogateway.go:137-144 | the host joins both sets, and every managed host is listed |
| IstioHosts.RemoveHostMeans | kubernetes/istiogateway.go:146-153 | the host leaves both sets, and every other managed host is listed |
| IstioHosts.EnsureManages | kubernetes/istiogateway.go:255-262 | the managed set becomes the requested one; hosts are sorted and stay without repetitions |
| IstioHosts.EnsureHostsExactly | kubernetes/istiogateway.go:251-262 | hosts are ((V + gateway, destination) - managed) + CNames, unless a managed host was missing and nothing changed |
| IstioHosts.TargetKeptExactly | kubernetes/istiogateway.go:157-158 | the gateway host or the destination is lost exactly when it was a CName and no longer is |
| IstioHosts.RunConsistent | kubernetes/istiogateway.go:255-262 | over any run the record names only listed hosts, so each Ensure leaves exactly the wanted ones |
| IstioHosts.ForeignHostExactly | kubernetes/istiogateway.go:99-178 | over any run, a host that is never a CName is listed exactly when it was or is a gateway host or destination |
| IstioHosts.EnsureTwiceExactly | kubernetes/istiogateway.go:251-262 | a second Ensure changes nothing exactly when the first did not drop the gateway host or the destination |
| IstioCluster.RoutedToReaches | kubernetes/istiogateway.go:160-177 | the first route then reaches the destination, and otherwise what it reached; doing it again changes nothing |
| IstioCluster.AddToSet | kubernetes/istiogateway.go:99-111 | the sorted union, appending what is missing as given |
| IstioCluster.RemoveFromSet | kubernetes/istiogateway.go:113-126 | the difference as a list without repetitions, in any order |
| IstioCluster.VirtualService.AddHost | kubernetes/istiogateway.go:137-144 | hosts and annotation change as specified, nothing else does |
| IstioCluster.VirtualService.RemoveHost | kubernetes/istiogateway.go:146-153 | hosts and annotation change as specified, nothing else does |
| IstioCluster.VirtualService.SyncCNames | kubernetes/istiogateway.go:255-262 | the two CName loops, additions before removals |
| IstioCluster.VirtualService.Update | kubernetes/istiogateway.go:155-178 | gateway, hosts and destination are added in place |
| IstioRouter.HostsOfRun | kubernetes/istiogateway.go:181-277 | whatever calls are interleaved, an instance's hosts are those of the run of its own Ensure calls |
| IstioRouter.HostNeverLost | kubernetes/istiogateway.go:181-277 | no run of calls by any instances loses a host that was never a CName |
| IstioRouter.GatewayNamesAgreeExactly | kubernetes/istiogateway.go:38-40 | the created and the deleted Gateway name agree exactly for a short app name without an instance |
| IstioRouter.RemoveAfterEnsureExactly | kubernetes/istiogateway.go:290-315 | a Remove after an Ensure deletes the app's Gateway in exactly that case, and detaches no other gateway |
| IstioObjects.OwnHostListedExactly | kubernetes/istiogateway.go:46-51 | after an Ensure the VirtualService lists the app under the suffix, or the instance, ".instance." and that host, and the service, unless that was recorded as a CName and no longer is one |
| IstioObjects.HostsWritten | kubernetes/istiogateway.go:155-262 | the whole host list of the stored VirtualService, and the CNames in its tsuru.io/additional-hosts |
| IstioObjects.VirtualServiceWritten | kubernetes/istiogateway.go:53-70 | the source of each of its labels and annotations, its gateways ("mesh" and its own when new), and the route to the service |
| IstioObjects.GatewayWritten | kubernetes/istiogateway.go:194-220 | the Gateway created under the name of the app: selector, labels and annotations; one that is there stays |
| IstioRouter.IstioGateway.UpdateObjectMeta | kubernetes/istiogateway.go:53-70 | configured labels, the app label, configured annotations and options are laid over what is there |
| IstioRouter.IstioGateway.Ensure | kubernetes/istiogateway.go:181-277 | one Gateway at most is created, one VirtualService is written, both as IstioObjects reads them, or the failure left neither or the Gateway |
| IstioRouter.IstioGateway.Remove | kubernetes/istiogateway.go:290-315 | the VirtualService is detached, the Gateway of the hashed name deleted, a missing one reported |
| LoadBalancer.Fixpoint | kubernetes/loadbalancer.go:336-398 | the ports fed back with the server's NodePorts are returned unchanged when numbers are distinct |
| LoadBalancer.FixpointExactly | kubernetes/loadbalancer.go:336-398 | that holds for every NodePort assignment if and only if port numbers are distinct |
| LoadBalancer.DistinctExactly | kubernetes/loadbalancer.go:354-379 | numbers are distinct exactly when not all ports are exposed or the other base ports are distinct |
| LoadBalancer.PortsCover | kubernetes/loadbalancer.go:354-388 | the list starts with the exposed port and covers every base port when all are exposed |
| LoadBalancer.FirstPortWritten | kubernetes/loadbalancer.go:354-388 | the first port has the protocol and target port of the first base port and a name made from its name, or from the exposed number; without base ports it is TCP to 8888; it is the only one unless all are asked for |
| LoadBalancer.OtherPortsInOrder | kubernetes/loadbalancer.go:373-378 | the other ports come in the order of the base ports |
| LoadBalancer.OnlyBasePorts | kubernetes/loadbalancer.go:373-378 | beyond the exposed port there are only base ports, unchanged but for the NodePort |
| LoadBalancer.NodePortsKept | kubernetes/loadbalancer.go:390-395 | a port number that stays keeps its NodePort, a new one has none |
| LoadBalancer.OrderFree | kubernetes/loadbalancer.go:263-287 | labels and annotations are the order-free ones for every iteration order when options agree |
| LoadBalancer.AnnotationSource | kubernetes/loadbalancer.go:253-324 | each annotation comes from the web service, the host name, an option under its own or its prefixed name (set or deleted), the options annotation or the configuration, in this order |
| LoadBalancer.LabelSource | kubernetes/loadbalancer.go:304-332 | each label comes from the backend, the web service, the standard labels, the configuration, an option or the pool, in this order |
| LoadBalancer.FrozenMeans | kubernetes/service.go:331-338 | a Service is frozen when its freeze label is one of the words for true |
| LoadBalancer.SettledServes | kubernetes/loadbalancer.go:221-250 | whatever was stored, an unfrozen Service ends with the wanted ports, the first going to the first target port of the web service, and with its selector, labels, annotations and the traffic policy asked for |
| LoadBalancer.SecondEnsureWritesNothing | kubernetes/loadbalancer.go:238-250 | a second Ensure after the server numbered the NodePorts writes nothing when port numbers are distinct |
| LoadBalancer.SecondEnsureExactly | kubernetes/loadbalancer.go:170-251 | it writes nothing for every NodePort assignment if and only if they are |
| LoadBalancerRouter.PortsForService | kubernetes/loadbalancer.go:336-398 | the three loops compute the specified ports, which FirstPortWritten, PortsCover, OnlyBasePorts and NodePortsKept describe |
| LoadBalancerRouter.MergeMaps | kubernetes/loadbalancer.go:439-447 | later maps win |
| LoadBalancerRouter.ServiceHasChanges | kubernetes/loadbalancer.go:400-437 | changed exactly when the spec differs or a wanted annotation or label reads differently |
| LoadBalancerRouter.LBService.ServiceName | kubernetes/loadbalancer.go:155-157 | the name is made of the app and "-router-lb", within 63 characters |
| LoadBalancerRouter.LBService.ApplyOptions | kubernetes/loadbalancer.go:263-287 | one range over the options builds labels and annotations, in some order |
| LoadBalancerRouter.LBService.FillLabelsAndAnnotations | kubernetes/loadbalancer.go:253-334 | the labels over those the Service has, and the annotations in place of them |
| LoadBalancerRouter.LBService.Ensure | kubernetes/loadbalancer.go:170-251 | created, updated, unchanged or frozen, with the specified Service stored, which SettledServes describes; on an error nothing changes |
| LoadBalancerRouter.LBService.Remove | kubernetes/loadbalancer.go:58-79 | the Service is gone, or a call failed and nothing changed |

## Left out

- Namespaces: each store is one namespace, and the lookup of an app's namespace is a call that can fail.
- Clients, contexts, tracing, logging and resource versions: an API call succeeds or fails without effect; calls
  of one router are sequential.
- SHA-256, JSON encoding and Kubernetes name validation are arbitrary functions; lengths count characters, and
  the names the code shortens are ASCII.
- A nil map or slice is not told apart from an empty one, except for the JSON body `null`.
- The order in which the API server lists objects is taken to be by name.
- cert-manager's issuer lookup is an oracle that names an issuer, a cluster issuer, an external issuer or none.
- Status details drawn from events (`getStatusForRuntimeObject`), `SupportedOptions`, `GetCertificate`, the
  addresses and status of Ingresses and load balancers, `OptsFromAnnotations`: they would add only easy members.
- The one server of an Istio Gateway (port 80, HTTP2, all hosts) is the same for every Gateway and is not part of the model.
- The HTTP API, flags, backend and cluster selection, observability.
- IngressFacts.EnsureTwice: is for one iteration order over the backends (IngressRerun.EnsureTwiceExactly is for any two), and the Ingress of the empty CName is assumed absent, because a missing annotation is split into one empty name.
- GatewayRouter.GatewayAPIService.Ensure: describes the store only for options that do not disagree about an annotation, because otherwise the result depends on Go's map order (Options.OrderIndependentExactly).
- IngressRouter.IngressService.Ensure: describes the store only for options that do not disagree about an annotation, for the same reason.
- IstioHosts.EnsureHostsExactly: is for records and CName lists without empty names, repetitions in the record, or commas, because the annotation cannot hold others.
- LoadBalancer.SecondEnsureWritesNothing: the server may change NodePorts, unset policies and spec parts the router never reads, and nothing else.

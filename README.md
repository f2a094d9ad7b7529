# servicekeel, modelled in Dafny

servicekeel makes services of one Kubernetes cluster reachable from another.
The core works as follows:

- A small DNS server hands each imported service a private address from a
  configured range. It answers A queries for those names and resolves aliases
  and search suffixes.
- A static controller starts one frpc process per port of every configured
  service. For each port of an imported service it first maps the service name
  in the DNS server, and removes that mapping again if the process does not
  start.
- A reconciling controller watches FRPServer resources. On every cycle it
  brings its recorded endpoints, their frpc clients and their DNS mappings in
  line with the active connections it is told to watch.
- The configuration loader validates the service lists and derives names from
  them. It also reads the search domains of resolv.conf.

The model consists of these modules:

- `Text` holds the pieces of Go's string handling the core relies on: the
  trailing-dot normalisation, decimal formatting and `strings.Fields`.
- `Ipv4` holds four-byte addresses and their dotted-decimal printing.
- `Resolver` holds the DNS server's tables as a value, with allocation,
  removal, aliases and resolution as functions.
- `Query` holds the reply to a DNS message.
- `DnsServer` holds the server as a class whose methods update the tables in
  place and are proved against `Resolver` and `Query`.
- `Config` and `ResolvConf` hold the configuration checks and the
  resolv.conf scan.
- `FrpClient` holds the frpc wrapper: validation, the command line, and
  start and stop.
- `StaticController` holds the static controller.
- `ReconcileController` holds the reconciling controller.

Collaborators the core calls but does not implement are parameters of the
operations that call them:

- launching and killing frpc;
- the cluster's list call;
- the proxy-name parser;
- the FRP client factory;
- the cluster-client constructor.

The DNS server's address range enters as its already-masked network address.

## Model

| member | source | states |
|---|---|---|
| Text.EnsureDot | internal/dns/server.go:70-73 | the normalised name ends with a dot, grows by at most one character, and a name that already ends with a dot is kept as it is |
| Text.SameKey | internal/dns/server.go:70-73 | two names give the same key exactly when they are equal or differ only by the missing trailing dot |
| Text.NatToStringRoundTrip | internal/config/loader.go:145 | the decimal text of a number is all digits and reads back as the number |
| Text.NatToStringInjective | internal/config/loader.go:145 | distinct numbers print differently |
| Text.IntToStringInjective | internal/config/loader.go:145-148 | distinct integers, negative ones included, print differently |
| Text.Fields | internal/config/resolve.go:24 | every field strings.Fields returns is a non-empty run without white space |
| Text.FieldsOfJoinWords | internal/config/resolve.go:24 | splitting words joined by single spaces gives the words back |
| Ipv4.StringInjective | internal/dns/server.go:55-66 | two addresses print the same exactly when they are equal, so the used-address set keyed by the printed form tracks addresses faithfully |
| Resolver.FreeFrom | internal/dns/server.go:55-66 | the scan's answer is the first candidate from k on whose printed form is unused; it is None exactly when every remaining candidate is used |
| Resolver.Allocate | internal/dns/server.go:69-86 | on success the normalised name maps to the returned address; on failure nothing changes; aliases and search suffixes are untouched |
| Resolver.AllocateKeepsConsistent | internal/dns/server.go:69-86 | adding a mapping keeps the invariant: names are dot-terminated, addresses lie in the range and are distinct, and the used set is exactly the set of mapped addresses |
| Resolver.AllocateIdempotent | internal/dns/server.go:71-74 | adding a name twice returns the first address and changes nothing |
| Resolver.AllocateLowestFree | internal/dns/server.go:55-66 | a new name gets the first address of the range, in scan order, that no name holds |
| Resolver.AllocateFailsIffFull | internal/dns/server.go:76-79 | adding a new name fails exactly when all 256 addresses of the range are held |
| Resolver.FirstAllocation | internal/dns/server.go:55-66 | on an empty server the first name gets the network address itself |
| Resolver.SecondAllocation | internal/dns/server.go:55-66 | a second, different name gets the next address |
| Resolver.Release | internal/dns/server.go:103-122 | the name is unmapped afterwards; on success no alias points at it; the search suffixes are untouched |
| Resolver.ReleaseKeepsConsistent | internal/dns/server.go:103-122 | removing a mapping keeps the invariant |
| Resolver.ReleaseEffect | internal/dns/server.go:103-122 | removing a mapped name returns its address and frees it; every other mapping stays, and exactly the aliases pointing elsewhere stay |
| Resolver.ReleaseUnmapped | internal/dns/server.go:106-109 | removing an unmapped name reports "no mapping for" the normalised name and changes nothing |
| Resolver.AllocateReleaseRoundTrip | internal/dns/server.go:69-122 | removing a name right after it was freshly added restores the tables, provided no alias pointed at it |
| Resolver.FreedAddressReused | internal/dns/server.go:55-66 | a freed address is handed out again to the next new name when every lower candidate is still in use |
| Resolver.WithAliases | internal/dns/server.go:89-100 | each normalised alias points at the normalised name; other aliases, the mappings and the used set are untouched |
| Resolver.AliasResolves | internal/dns/server.go:89-100 | a new alias of a mapped name resolves to that name's address |
| Resolver.JoinDomain | internal/dns/server.go:299-307 | the joined name ends with a dot |
| Resolver.JoinDomainParts | internal/dns/server.go:299-307 | the joined name is the normalised name followed by the normalised suffix |
| Resolver.JoinDomainNoMerge | internal/dns/server.go:299-307 | for a name and a suffix without trailing dots the result is exactly the name, a dot, the suffix and a dot, so shared labels are never merged |
| Resolver.JoinDomainNormalised | internal/dns/server.go:299-307 | joining depends only on the normalised name and suffix |
| Resolver.ResolveNoneIff | internal/dns/server.go:239-272 | a query goes unanswered exactly when it is not mapped, is not an alias of a mapped name, and no search suffix yields a mapped name |
| Resolver.ResolveFirstSearchWins | internal/dns/server.go:255-269 | among the search suffixes, the first in list order that yields a mapped name decides the answer |
| Resolver.ResolveSound | internal/dns/server.go:239-272 | every answer is an address that some name holds, inside the range |
| Resolver.UndottedQueryMisses | internal/dns/server.go:241-244 | a query name without the trailing dot is never matched exactly and goes unanswered without search suffixes |
| Query.AnswersSound | internal/dns/server.go:181-203 | every record in the answer section answers one of the questions |
| Query.AnswersComplete | internal/dns/server.go:181-203 | every question that has a record contributes it to the answer section |
| Query.AnswersEmptyIff | internal/dns/server.go:214-228 | the answer section is empty exactly when no question has a record |
| Query.HasQueryType | internal/dns/server.go:275-282 | true exactly when some question has the type |
| Query.Respond | internal/dns/server.go:168-235 | the reply carries the request id and the answers, is authoritative exactly when there is an answer, and its code is Success exactly when there is an answer or the request asks for AAAA and not for A, Name Error otherwise |
| Query.AaaaOnlySucceeds | internal/dns/server.go:214-220 | a request that asks for AAAA and not for A gets an empty, non-authoritative Success reply |
| Query.OtherTypesNameError | internal/dns/server.go:214-225 | a request with neither A nor AAAA questions gets Name Error |
| Query.ResolvedQuestionSucceeds | internal/dns/server.go:181-203 | one resolved A question makes the reply an authoritative Success carrying its record |
| Query.UnansweredAQuestionNameError | internal/dns/server.go:214-225 | with no answer, any A question makes the reply Name Error, even beside an AAAA question |
| DnsServer.Server.constructor | internal/dns/server.go:32-45 | a new server has empty tables and satisfies the invariant |
| DnsServer.Server.GetIP | internal/dns/server.go:48-52 | the printed address is at least seven characters long |
| DnsServer.Server.GetIPWraps | internal/dns/server.go:48-52 | only the index modulo 256 matters: index idx + 256 gives the same address as idx, and -1 the same as 255 |
| DnsServer.Server.GetIPIsCandidate | internal/dns/server.go:48-52 | on a range whose network address ends in .0, GetIP(i) is the allocator's i-th candidate, and distinct indices give distinct addresses |
| DnsServer.Server.GetUnusedIP | internal/dns/server.go:55-66 | the method returns the first free candidate and marks it used, and nothing else changes |
| DnsServer.Server.AddMapping | internal/dns/server.go:69-86 | the new tables and the result are those of Resolver.Allocate, and the invariant is kept |
| DnsServer.Server.AddMappingAlias | internal/dns/server.go:89-100 | the new tables are those of Resolver.WithAliases, and the invariant is kept |
| DnsServer.Server.RemoveMapping | internal/dns/server.go:103-122 | the new tables and the result are those of Resolver.Release, including the sweep over the alias table in any order; the invariant is kept |
| DnsServer.Server.SetSearchDomains | internal/dns/server.go:125-129 | the suffix list is replaced and nothing else changes |
| DnsServer.Server.ResolveQuery | internal/dns/server.go:239-272 | the answer is Resolver.Resolve of the tables |
| DnsServer.Server.HandleRequest | internal/dns/server.go:168-235 | the reply is Query.Respond of the tables and the request |
| Config.PortError | internal/config/loader.go:140-152 | a port raises an error exactly when it fails one of the four checks |
| Config.ValidateServicesNoneIff | internal/config/loader.go:131-156 | a list passes exactly when every service has a name and every port passes |
| Config.ValidateServicesFirstViolation | internal/config/loader.go:131-156 | the error reported is the first violation in service-then-port order |
| Config.PortNumberMessages | internal/config/loader.go:144-152 | out-of-range numbers are reported with their decimal value, and the protocol check is case-sensitive |
| Config.QualifiedNames | internal/config/loader.go:163-172 | one name per service, in order, each being name.namespace.cluster |
| Config.ConvertToServiceNames | internal/config/loader.go:159-175 | the names of the exported services, then those of the imported ones |
| Config.QualifiedNameInjective | internal/config/loader.go:164 | services whose name and namespace hold no dot get the same name only if name, namespace and cluster agree |
| Config.QualifiedNameAmbiguous | internal/config/loader.go:164 | with dots inside the fields, two different services share a name |
| ResolvConf.LineDomains | internal/config/resolve.go:21-28 | a line that does not start with "search" contributes nothing |
| ResolvConf.ParseResolvConf | internal/config/resolve.go:11-36 | the open error and the scanner error come back with their prefixes; otherwise the result is every line's contribution in file order |
| ResolvConf.SearchLikeLine | internal/config/resolve.go:22-26 | a line made of words joined by single spaces, the first starting with "search", contributes the words after the first |
| ResolvConf.SearchKeywordAlone | internal/config/resolve.go:25 | a line holding only the keyword contributes nothing |
| ResolvConf.IndentedLineIgnored | internal/config/resolve.go:22 | an indented search line is ignored |
| ResolvConf.SearchDomainsAppend | internal/config/resolve.go:20-29 | later search lines add to the domains of earlier ones instead of replacing them |
| FrpClient.ProxyNameFlag | internal/controller/client.go:20-26 | every accepted command line names the proxy with -n: the given name, or, when it is empty, the service name and the mapped address joined by "-" |
| FrpClient.BuildArgs | internal/controller/client.go:27-100 | the settings are accepted exactly when the common fields, a known type and that type's fields are present; an accepted command line starts with "stcp" and is made of flag and value pairs |
| FrpClient.ImportedArgs | internal/controller/client.go:46-58 | a visitor command line uses the proxy name for both -n and --server-name and carries the secret |
| FrpClient.ImportedBinding | internal/controller/client.go:49-58 | a visitor binds the mapped address and the service port, and reaches frps at the listen address |
| FrpClient.ExportedArgs | internal/controller/client.go:66-74 | a server command line carries the name, the secret, the local port and the listen address, and no bind address |
| FrpClient.RelayArgs | internal/controller/client.go:83-97 | a relay command line carries the name, both servers, the secret and the listen address |
| FrpClient.CommonChecksFirst | internal/controller/client.go:27-35 | the listen address, the secret and the port are checked in that order, before the type |
| FrpClient.NewFRPClient | internal/controller/client.go:20-103 | validation errors are returned unchanged; otherwise a new client keeps the name as given and the built arguments, with no process |
| FrpClient.Client.Start | internal/controller/client.go:105-115 | the process handle is recorded only on success; a failure is reported with the prefix and the client's name |
| FrpClient.Client.Stop | internal/controller/client.go:117-123 | a client never started returns no error; otherwise the kill's outcome |
| StaticController.ServiceNameShared | internal/controller/controller.go:154-156 | all ports of a service share one DNS name, which is the loader's name with ".svc" inserted and never that name itself |
| StaticController.EndpointNameInjective | internal/controller/controller.go:158-160 | within a service, endpoint names differ exactly when port names differ |
| StaticController.ExportedAcceptable | internal/controller/controller.go:59-71 | the client factory never rejects an exported endpoint, so that error branch is unreachable |
| StaticController.ImportedAcceptable | internal/controller/controller.go:98-112 | the client factory never rejects an imported endpoint, so that error branch is unreachable |
| StaticController.LaunchClient | internal/controller/controller.go:68-75 | a launch failure yields no client and the doubly prefixed message; a success yields a fresh client named after the proxy, running the arguments built from the proxy name and the endpoint, and holding the process |
| StaticController.RunAppend | internal/controller/controller.go:52-123 | running two job lists in a row is running the first and, unless it failed, the second from where it stopped |
| StaticController.RunStopsAtError | internal/controller/controller.go:69-74 | Start is fail-fast: the jobs after a failed one leave no trace |
| StaticController.ExportedJobsNoMapping | internal/controller/controller.go:52-81 | exported services touch neither the DNS tables nor the imported endpoints |
| StaticController.StepEffect | internal/controller/controller.go:77-79 | a successful port counts one endpoint and records it under its endpoint name; endpoints are never dropped |
| StaticController.RunSucceeds | internal/controller/controller.go:45-126 | a run without error records every port's endpoint and adds one to the gauge per port |
| StaticController.RunKeepsKeys | internal/controller/controller.go:45-126 | endpoints are only ever added |
| StaticController.ExportStepRecords | internal/controller/controller.go:59-78 | an exported endpoint is recorded with the fixed listen address and secret, the decimal port and no mapped address |
| StaticController.ImportStepRecords | internal/controller/controller.go:91-120 | an imported endpoint records the address AddMapping gave its service |
| StaticController.ImportRollback | internal/controller/controller.go:114-116 | when a fresh mapping's client fails to start, the DNS tables return to what they were |
| StaticController.ImportRollbackDropsShared | internal/controller/controller.go:114-116 | when a later port of a service fails to start, the mapping that earlier ports still use is removed |
| StaticController.SharedServiceAddress | internal/controller/controller.go:87-103 | two ports of one imported service record the same mapped address |
| StaticController.Controller.constructor | internal/controller/controller.go:33-42 | the endpoint tables and the gauge start empty, so every recorded endpoint trivially has its started client |
| StaticController.Controller.StartExported | internal/controller/controller.go:53-80 | one exported port has the effect of ExportStep; on success the exported client table gains, under the proxy name, a fresh client holding the launched process and running the arguments built from that name and the endpoint, and no other entry changes; on failure neither client table changes |
| StaticController.Controller.StartImported | internal/controller/controller.go:85-122 | one imported port has the effect of ImportStep, including the rollback, and the DNS invariant is kept; on success the imported client table gains, under the proxy name, a fresh started client running the arguments built from that name and the endpoint, and no other entry changes; on failure neither client table changes |
| StaticController.Controller.LaunchImported | internal/controller/controller.go:98-121 | once the service is mapped, starting the client has the effect of ImportLaunch, including the rollback of the mapping; on success the imported client table gains only the fresh started client under the proxy name, on failure it is unchanged |
| StaticController.Controller.ExportService | internal/controller/controller.go:53-80 | the port loop of one exported service equals the fold of its steps; every exported client is either the one recorded before under the same key or a fresh one, every recorded client is started and runs the arguments built from its key and endpoint, and the imported clients are untouched |
| StaticController.Controller.ImportService | internal/controller/controller.go:85-122 | the port loop of one imported service equals the fold of its steps; every imported client is either the one recorded before under the same key or a fresh one, every recorded client is started and runs the arguments built from its key and endpoint, and the exported clients are untouched |
| StaticController.Controller.ExportAll | internal/controller/controller.go:52-81 | the loop over the exported services equals the fail-fast fold over all their ports; every exported client is either the one recorded before under the same key or a fresh one, every recorded client is started and runs the arguments built from its key and endpoint, and the imported clients are untouched |
| StaticController.Controller.ImportAll | internal/controller/controller.go:84-123 | the loop over the imported services equals the fail-fast fold over all their ports; every imported client is either the one recorded before under the same key or a fresh one, every recorded client is started and runs the arguments built from its key and endpoint, and the exported clients are untouched |
| StaticController.Controller.Start | internal/controller/controller.go:45-126 | the new state and the error equal the fail-fast fold over the exported services' ports, then the imported ones; the DNS invariant is kept; every recorded client is either the one recorded before under its key or a fresh one, and every recorded client is started and runs the arguments built from its key and endpoint |
| ReconcileController.Collect | internal/controller/frps_controller.go:239-275 | every desired endpoint is keyed by its own proxy name, names a watched service the parser reported, and has no mapped address and no client |
| ReconcileController.CollectKeys | internal/controller/frps_controller.go:252-272 | a proxy name is desired exactly when some connection carrying it parses to a watched service |
| ReconcileController.CollectLastWins | internal/controller/frps_controller.go:264-272 | the last admitted connection with a proxy name decides its record |
| ReconcileController.ServerDefaults | internal/controller/frps_controller.go:242-250 | the address falls back to the bind address, and an unset port becomes 7000 |
| ReconcileController.AdmitConnection | internal/controller/frps_controller.go:252-273 | one connection updates the map exactly as the admission rule says: recorded under its proxy name when it parses to a watched service, skipped otherwise |
| ReconcileController.CollectItem | internal/controller/frps_controller.go:240-274 | one resource's connections, in order, extend the desired map built so far |
| ReconcileController.Reconciler.FetchDesired | internal/controller/frps_controller.go:230-276 | a list error is returned as it is; otherwise the result is the desired endpoints of all resources' connections in list order |
| ReconcileController.RemoveFoldEffect | internal/controller/frps_controller.go:153-170 | removal keeps exactly the recorded endpoints that are desired or not yet visited, untouched, and stops the client of each one it drops |
| ReconcileController.AddFoldEffect | internal/controller/frps_controller.go:173-202 | addition keeps every recorded endpoint as it was and records only visited, desired endpoints whose client was built and started |
| ReconcileController.CycleEffect | internal/controller/frps_controller.go:153-202 | after a cycle every recorded endpoint is desired and has a client; endpoints both recorded and desired are kept unchanged; new ones were started |
| ReconcileController.MappingFailureNoop | internal/controller/frps_controller.go:176-180 | when AddMapping fails, the RemoveMapping that follows finds nothing and the state is unchanged |
| ReconcileController.FactoryFailureKeepsMapping | internal/controller/frps_controller.go:186-190 | a client-factory failure skips the endpoint but leaves its service mapped |
| ReconcileController.StartFailureUnmaps | internal/controller/frps_controller.go:191-195 | a start failure skips the endpoint and removes its service's mapping |
| ReconcileController.StartedRecorded | internal/controller/frps_controller.go:184-200 | a started endpoint is recorded with the address its service is mapped to |
| ReconcileController.SharedServiceUnmapped | internal/controller/frps_controller.go:153-170 | dropping one endpoint unmaps the service that another recorded endpoint still uses |
| ReconcileController.Reconciler.constructor | internal/controller/frps_controller.go:86-98 | a new controller watches the given names, records no endpoint, uses the default interval and satisfies the invariant |
| ReconcileController.Reconciler.RemoveEndpoint | internal/controller/frps_controller.go:154-169 | dropping one recorded endpoint has the effect of RemoveStep: its client is stopped, its service unmapped, and the record forgotten |
| ReconcileController.Reconciler.RemoveStale | internal/controller/frps_controller.go:153-170 | the removal loop visits every recorded key once, in some order, and its effect is the removal fold over that order |
| ReconcileController.Reconciler.MapEndpoint | internal/controller/frps_controller.go:174-201 | adding one endpoint has the effect of AddEndpoint: map the service, then build and start the client, with each failure handled as the source does |
| ReconcileController.Reconciler.LaunchEndpoint | internal/controller/frps_controller.go:184-200 | once the service is mapped, building and starting the client has the effect of AddLaunch |
| ReconcileController.Reconciler.AddMissing | internal/controller/frps_controller.go:173-202 | the addition loop visits every desired key once, in some order, and its effect is the addition fold over that order |
| ReconcileController.Reconciler.Reconcile | internal/controller/frps_controller.go:141-206 | on a list error the method counts the error and changes nothing else; otherwise the recorded endpoints become a subset of the desired ones, kept ones are unchanged, the gauge is their number, and the requeue interval is returned |
| ReconcileController.Reconciler.Start | internal/controller/frps_controller.go:111-126 | only the first call, across all controllers, launches the loop |
| ReconcileController.NewFRPSServer | internal/controller/frps_controller.go:82-108 | an empty service list is refused first and a cluster-client failure next; otherwise the watched set is the given names, no endpoint is recorded and the interval is the default |

## Left out

- Sockets, the DNS server's Start and Stop, and message encoding are not
  modelled. Header fields of the reply other than the id are not modelled
  either. The reply is a value.
- Parsing of the address range is not modelled. The server takes the masked
  network address.
- Locks, goroutines and races are not modelled: every method runs alone.
- The reconcile ticker loop is not modelled. `Reconciler.Start` models only
  the `sync.Once`.
- The Prometheus metrics are integer fields. The endpoint gauge is one field.
  Reconcile's own increment of the error counter is modelled. The second
  increment, which the ticker loop makes for the same error, is not.
- Process launching and killing (`exec.Command`), the Kubernetes list call,
  `kubefrp.ParseServiceName` and the cluster-client constructor are
  parameters of the operations that use them, as described above.
- Logging is not modelled. An error that the source only logs has no effect
  in the model, such as a failed Stop or RemoveMapping during Reconcile.
- Go map iteration order is not modelled. The loops over maps visit the keys
  in an arbitrary order, which is returned as a ghost value and proved to
  enumerate the keys.
- DnsServer.Server.AddMappingAlias: the source's error result is always nil,
  so the model does not return it.
- DnsServer.Server.HandleRequest: requires at least one question. With no
  answer, the source reads the first question for its log line.
- Query.Respond: requires at least one question, for the same reason.
- The static controller and the client wrapper each declare `EndpointInfo`
  with different fields from the reconciling controller's version. The
  controller package declares `EndpointInfo`, `NewFRPSServer` and the
  endpoint gauge twice, so it does not build as a whole. Each file is
  modelled against its own types.
- The static controller keeps each endpoint's FRP client in a map beside the
  endpoint table, under the same key, instead of as a field of the record.
  The invariant Controller.ClientsRecorded ties the two: each key's client
  is started, carries the key as its name and runs the arguments built
  from the key and the recorded endpoint. When a later port yields a proxy
  name already recorded, its client replaces the earlier one in the table,
  as the Go map assignment does, so the loops promise only that each client
  is the one recorded before under its key or a fresh one.
- The reconciling controller records the client as a handle number.
- StaticController.Controller.Start: the "failed to create FRP client"
  branches are not part of the steps. ExportedAcceptable and
  ImportedAcceptable prove them unreachable.
- ReconcileController.Reconciler.RemoveStale: within one removal, the order
  of Stop and RemoveMapping is not recorded. Only the stopped handles are
  kept.
- `GetEndpoint`, `GetAllEndpoints`, `GetImportedEndpoint`,
  `GetExportedEndpoint` and the other plain accessors only read a field and
  are not modelled.
- The functional options and the default client factory are parameters.
- StaticController.Controller.Start: the process launcher is a function of
  the proxy name, so when a proxy name repeats within one Start both launches
  share one outcome and one handle; each Go `exec` call is independent.
- The interval is a number of seconds, not a `time.Duration`.
- Loading the configuration files, environment variables, `router/`,
  `frps_router.go` and the command entry points are not part of this model.

/** The static-configuration controller of internal/controller/controller.go:
    Start walks the exported services, then the imported ones, port by port,
    creating and starting one frpc process per port and, for imported
    services, a DNS mapping first. Launching frpc is an outcome the caller
    supplies per proxy name; the endpoint gauge is a field. */
module StaticController {
  import opened Results
  import opened Text
  import opened Ipv4
  import opened Resolver
  import opened DnsServer
  import opened FrpClient
  import opened Config

  /** The listen address and secret every endpoint of Start is given. */
  const FrpListen := "/tmp/frp.sock"
  const SecretKey := "servicekeel-secret-key"

  /** ServiceName: "name.namespace.svc.cluster"; the port plays no part. */
  function ServiceName(svc: ServiceConfig, port: Port): string {
    svc.name + "." + svc.namespace + ".svc." + svc.cluster
  }

  /** EndpointName: the service name, a colon, the port's name. */
  function EndpointName(svc: ServiceConfig, port: Port): string {
    ServiceName(svc, port) + ":" + port.name
  }

  /** All ports of a service share one DNS name, and it is the name
      ConvertToServiceNames would give with ".svc" inserted, never that name
      itself. */
  lemma ServiceNameShared(svc: ServiceConfig, p: Port, q: Port)
    ensures ServiceName(svc, p) == ServiceName(svc, q)
    ensures |ServiceName(svc, p)| == |QualifiedName(svc)| + 4
    ensures ServiceName(svc, p) != QualifiedName(svc)
  {
  }

  /** Within one service, endpoint names differ exactly when port names do. */
  lemma EndpointNameInjective(svc: ServiceConfig, p: Port, q: Port)
    ensures EndpointName(svc, p) == EndpointName(svc, q) <==> p.name == q.name
  {
    var pre := ServiceName(svc, p) + ":";
    if EndpointName(svc, p) == EndpointName(svc, q) {
      assert EndpointName(svc, p) == pre + p.name && EndpointName(svc, q) == pre + q.name;
      assert p.name == (pre + p.name)[|pre|..];
      assert q.name == (pre + q.name)[|pre|..];
    }
  }

  /** The endpoint recorded for an exported port. */
  function ExportedEndpoint(svc: ServiceConfig, port: Port): EndpointInfo {
    EndpointInfo(Exported, FrpListen, SecretKey, ServiceName(svc, port),
                 IntToString(port.port), port.protocol, "", "", "")
  }

  /** The endpoint recorded for an imported port mapped to ip. */
  function ImportedEndpoint(svc: ServiceConfig, port: Port, ip: IPv4): EndpointInfo {
    EndpointInfo(Imported, FrpListen, SecretKey, ServiceName(svc, port),
                 IntToString(port.port), port.protocol, ip.String(), "", "")
  }

  /** NewFRPClient never rejects the endpoints Start builds, so the
      "failed to create FRP client" branches of Start are unreachable. */
  lemma ExportedAcceptable(svc: ServiceConfig, port: Port)
    ensures Acceptable(ExportedEndpoint(svc, port))
    ensures BuildArgs(EndpointName(svc, port), ExportedEndpoint(svc, port)).Ok?
  {
  }

  lemma ImportedAcceptable(svc: ServiceConfig, port: Port, ip: IPv4)
    ensures Acceptable(ImportedEndpoint(svc, port, ip))
    ensures BuildArgs(EndpointName(svc, port), ImportedEndpoint(svc, port, ip)).Ok?
  {
  }

  /** NewFRPClient followed by the client's Start, for settings that
      NewFRPClient accepts. */
  method LaunchClient(proxy: string, ep: EndpointInfo, spawn: Result<nat>) returns (client: Option<Client>, err: Option<string>)
    requires Acceptable(ep)
    ensures spawn.Err? ==> client.None? && err == Some(StartFailure(proxy, spawn.error))
    ensures spawn.Ok? ==> client.Some? && err.None? && fresh(client.value) && client.value.cmd == Some(spawn.value)
    ensures spawn.Ok? ==> client.value.name == proxy && Ok(client.value.args) == BuildArgs(proxy, ep)
  {
    var made := NewFRPClient(proxy, ep);
    if made.Err? {
      assert false;
    }
    var c := made.value;
    var started := c.Start(spawn);
    if started.Some? {
      return None, Some("failed to start FRP client " + proxy + ": " + started.value);
    }
    return Some(c), None;
  }

  /** c is a started client named key whose arguments are those built from
      key and ep. */
  predicate RunsEndpoint(c: Client, key: string, ep: EndpointInfo)
    reads c
  {
    c.cmd.Some? && c.name == key && BuildArgs(key, ep) == Ok(c.args)
  }

  /** One unit of Start's work: a port of a service, and which list the
      service came from. */
  datatype Job = Job(svc: ServiceConfig, port: Port, imported: bool)

  function PortJobs(svc: ServiceConfig, imported: bool): (r: seq<Job>)
    ensures |r| == |svc.ports|
    ensures forall j :: 0 <= j < |r| ==> r[j] == Job(svc, svc.ports[j], imported)
  {
    seq(|svc.ports|, j requires 0 <= j < |svc.ports| => Job(svc, svc.ports[j], imported))
  }

  /** The jobs of a service list: every port of every service, in order. */
  function Jobs(svcs: seq<ServiceConfig>, imported: bool): seq<Job> {
    if svcs == [] then [] else PortJobs(svcs[0], imported) + Jobs(svcs[1..], imported)
  }

  /** What Start leaves behind: the resolver's tables, the two endpoint
      tables (process handles not included) and the gauge. */
  datatype Snapshot = Snapshot(tables: Tables, exported: map<string, EndpointInfo>,
                               imported: map<string, EndpointInfo>, gauge: int)

  /** The message Start returns when frpc does not start: its own prefix on
      top of the one the client's Start already put there. */
  function StartFailure(proxy: string, e: string): string {
    "failed to start FRP client " + proxy + ": " + ("failed to start FRP client " + proxy + ": " + e)
  }

  /** One exported port: start its client, record the endpoint and count
      it. No DNS mapping is made. Building the client cannot fail here
      (ExportedAcceptable), so that error path is not part of the step. */
  function ExportStep(s: Snapshot, svc: ServiceConfig, port: Port, launch: string -> Result<nat>): (Snapshot, Option<string>) {
    var proxy := EndpointName(svc, port);
    match launch(proxy)
    case Err(e) => (s, Some(StartFailure(proxy, e)))
    case Ok(_) => (s.(exported := s.exported[proxy := ExportedEndpoint(svc, port)], gauge := s.gauge + 1), None)
  }

  /** One imported port: map the service name first, then start the client;
      a failure removes the service's mapping again. Building the client
      cannot fail here (ImportedAcceptable). */
  function ImportStep(base: IPv4, s: Snapshot, svc: ServiceConfig, port: Port, launch: string -> Result<nat>): (Snapshot, Option<string>) {
    ImportOutcome(s, svc, port, launch, Allocate(base, s.tables, ServiceName(svc, port)))
  }

  /** The rest of an imported step once AddMapping has produced the tables
      and the result in alloc. */
  function ImportOutcome(s: Snapshot, svc: ServiceConfig, port: Port, launch: string -> Result<nat>,
                         alloc: (Tables, Result<IPv4>)): (Snapshot, Option<string>) {
    var service := ServiceName(svc, port);
    match alloc.1
    case Err(e) => (s.(tables := Release(alloc.0, service).0), Some("failed to add DNS mapping " + service + ": " + e))
    case Ok(ip) => ImportLaunch(s.(tables := alloc.0), svc, port, launch, ip)
  }

  /** The step after the service was mapped to ip: start the client, and
      on failure remove the mapping again. */
  function ImportLaunch(s: Snapshot, svc: ServiceConfig, port: Port, launch: string -> Result<nat>, ip: IPv4): (Snapshot, Option<string>) {
    var proxy := EndpointName(svc, port);
    match launch(proxy)
    case Err(e) => (s.(tables := Release(s.tables, ServiceName(svc, port)).0), Some(StartFailure(proxy, e)))
    case Ok(_) => (s.(imported := s.imported[proxy := ImportedEndpoint(svc, port, ip)], gauge := s.gauge + 1), None)
  }

  function Step(base: IPv4, launch: string -> Result<nat>, s: Snapshot, job: Job): (Snapshot, Option<string>) {
    if job.imported then ImportStep(base, s, job.svc, job.port, launch)
    else ExportStep(s, job.svc, job.port, launch)
  }

  /** Start's step for the network base of its DNS server and the launch
      outcomes, as a function value for Run. */
  function StepFn(base: IPv4, launch: string -> Result<nat>): (Snapshot, Job) -> (Snapshot, Option<string>) {
    (s, job) => Step(base, launch, s, job)
  }

  /** The jobs in order, stopping at the first error. */
  function Run(step: (Snapshot, Job) -> (Snapshot, Option<string>), s: Snapshot, jobs: seq<Job>): (Snapshot, Option<string>)
    decreases |jobs|
  {
    if jobs == [] then (s, None)
    else
      var (s1, e1) := step(s, jobs[0]);
      if e1.Some? then (s1, e1) else Run(step, s1, jobs[1..])
  }

  /** Start's whole effect: exported services' jobs, then imported ones. */
  function StartAll(base: IPv4, launch: string -> Result<nat>, s: Snapshot,
                    exported: seq<ServiceConfig>, imported: seq<ServiceConfig>): (Snapshot, Option<string>)
  {
    Run(StepFn(base, launch), s, Jobs(exported, false) + Jobs(imported, true))
  }

  lemma RunCons(step: (Snapshot, Job) -> (Snapshot, Option<string>), s: Snapshot, job: Job, rest: seq<Job>)
    ensures Run(step, s, [job] + rest)
         == (var (s1, e1) := step(s, job);
             if e1.Some? then (s1, e1) else Run(step, s1, rest))
  {
    assert ([job] + rest)[0] == job && ([job] + rest)[1..] == rest;
  }

  /** Running from position j is one step and, unless it failed, the rest. */
  lemma RunStep(step: (Snapshot, Job) -> (Snapshot, Option<string>), s: Snapshot, jobs: seq<Job>, j: nat,
                s1: Snapshot, e1: Option<string>)
    requires j < |jobs| && step(s, jobs[j]) == (s1, e1)
    ensures Run(step, s, jobs[j..]) == if e1.Some? then (s1, e1) else Run(step, s1, jobs[j + 1..])
  {
    assert jobs[j..] == [jobs[j]] + jobs[j + 1..];
    RunCons(step, s, jobs[j], jobs[j + 1..]);
  }

  lemma ExportJob(base: IPv4, launch: string -> Result<nat>, s: Snapshot, svc: ServiceConfig, port: Port)
    ensures StepFn(base, launch)(s, Job(svc, port, false)) == ExportStep(s, svc, port, launch)
  {
  }

  lemma ImportJob(base: IPv4, launch: string -> Result<nat>, s: Snapshot, svc: ServiceConfig, port: Port)
    ensures StepFn(base, launch)(s, Job(svc, port, true)) == ImportStep(base, s, svc, port, launch)
  {
  }

  /** Running two job lists one after the other is running the first and,
      when it did not fail, the second from where it left off. */
  lemma {:induction false} RunAppend(step: (Snapshot, Job) -> (Snapshot, Option<string>), s: Snapshot, a: seq<Job>, b: seq<Job>)
    ensures Run(step, s, a + b)
         == (var (s1, e1) := Run(step, s, a);
             if e1.Some? then (s1, e1) else Run(step, s1, b))
    decreases |a|
  {
    if a == [] {
      assert a + b == b;
    } else {
      assert a + b == [a[0]] + (a[1..] + b);
      RunCons(step, s, a[0], a[1..] + b);
      var (s1, e1) := step(s, a[0]);
      if e1.None? {
        RunAppend(step, s1, a[1..], b);
      }
    }
  }

  /** Start is fail-fast: once a job fails, the jobs after it are never
      run and leave no trace. */
  lemma RunStopsAtError(step: (Snapshot, Job) -> (Snapshot, Option<string>), s: Snapshot, jobs: seq<Job>, more: seq<Job>)
    requires Run(step, s, jobs).1.Some?
    ensures Run(step, s, jobs + more) == Run(step, s, jobs)
  {
    RunAppend(step, s, jobs, more);
  }

  lemma {:induction false} JobsFlag(svcs: seq<ServiceConfig>, imported: bool)
    ensures forall i :: 0 <= i < |Jobs(svcs, imported)| ==> Jobs(svcs, imported)[i].imported == imported
  {
    if svcs != [] {
      JobsFlag(svcs[1..], imported);
    }
  }

  /** Exported jobs touch neither the resolver nor the imported table. */
  lemma ExportedJobsNoMapping(base: IPv4, launch: string -> Result<nat>, s: Snapshot, svcs: seq<ServiceConfig>)
    ensures Run(StepFn(base, launch), s, Jobs(svcs, false)).0.tables == s.tables
    ensures Run(StepFn(base, launch), s, Jobs(svcs, false)).0.imported == s.imported
  {
    JobsFlag(svcs, false);
    ExportedRunNoMapping(base, launch, s, Jobs(svcs, false));
  }

  lemma {:induction false} ExportedRunNoMapping(base: IPv4, launch: string -> Result<nat>, s: Snapshot, jobs: seq<Job>)
    requires forall i :: 0 <= i < |jobs| ==> !jobs[i].imported
    ensures Run(StepFn(base, launch), s, jobs).0.tables == s.tables
    ensures Run(StepFn(base, launch), s, jobs).0.imported == s.imported
    decreases |jobs|
  {
    if jobs != [] {
      var (s1, e1) := Step(base, launch, s, jobs[0]);
      if e1.None? {
        ExportedRunNoMapping(base, launch, s1, jobs[1..]);
      }
    }
  }

  /** One successful step counts one endpoint and records it under its
      endpoint name in the table of its kind; endpoints are never dropped. */
  lemma StepEffect(base: IPv4, launch: string -> Result<nat>, s: Snapshot, job: Job)
    ensures var (s1, e1) := Step(base, launch, s, job);
            && s.exported.Keys <= s1.exported.Keys && s.imported.Keys <= s1.imported.Keys
            && (e1.None? ==> s1.gauge == s.gauge + 1)
            && (e1.None? && !job.imported ==> EndpointName(job.svc, job.port) in s1.exported)
            && (e1.None? && job.imported ==> EndpointName(job.svc, job.port) in s1.imported)
  {
  }

  /** A successful run records every job's endpoint under its endpoint name
      and counts one gauge increment per job. */
  lemma {:induction false} RunSucceeds(base: IPv4, launch: string -> Result<nat>, s: Snapshot, jobs: seq<Job>)
    requires Run(StepFn(base, launch), s, jobs).1.None?
    ensures Run(StepFn(base, launch), s, jobs).0.gauge == s.gauge + |jobs|
    ensures forall i :: 0 <= i < |jobs| && !jobs[i].imported ==>
              EndpointName(jobs[i].svc, jobs[i].port) in Run(StepFn(base, launch), s, jobs).0.exported
    ensures forall i :: 0 <= i < |jobs| && jobs[i].imported ==>
              EndpointName(jobs[i].svc, jobs[i].port) in Run(StepFn(base, launch), s, jobs).0.imported
    decreases |jobs|
  {
    if jobs != [] {
      var (s1, e1) := Step(base, launch, s, jobs[0]);
      StepEffect(base, launch, s, jobs[0]);
      RunSucceeds(base, launch, s1, jobs[1..]);
      RunKeepsKeys(base, launch, s1, jobs[1..]);
      forall i | 1 <= i < |jobs|
        ensures jobs[i] == jobs[1..][i - 1]
      {
      }
    }
  }

  /** Endpoints are only ever added. */
  lemma {:induction false} RunKeepsKeys(base: IPv4, launch: string -> Result<nat>, s: Snapshot, jobs: seq<Job>)
    ensures s.exported.Keys <= Run(StepFn(base, launch), s, jobs).0.exported.Keys
    ensures s.imported.Keys <= Run(StepFn(base, launch), s, jobs).0.imported.Keys
    decreases |jobs|
  {
    if jobs != [] {
      var (s1, e1) := Step(base, launch, s, jobs[0]);
      StepEffect(base, launch, s, jobs[0]);
      if e1.None? {
        RunKeepsKeys(base, launch, s1, jobs[1..]);
      }
    }
  }

  /** An exported endpoint is recorded with the exported type, the fixed
      listen address and secret, the port number in decimal and no mapped
      address. */
  lemma ExportStepRecords(s: Snapshot, svc: ServiceConfig, port: Port, launch: string -> Result<nat>)
    requires launch(EndpointName(svc, port)).Ok?
    ensures var (s1, e1) := ExportStep(s, svc, port, launch);
            && e1 == None && s1.tables == s.tables
            && s1.exported[EndpointName(svc, port)]
               == EndpointInfo(Exported, FrpListen, SecretKey, ServiceName(svc, port), IntToString(port.port), port.protocol, "", "", "")
  {
  }

  /** An imported endpoint records the address AddMapping gave the service. */
  lemma ImportStepRecords(base: IPv4, s: Snapshot, svc: ServiceConfig, port: Port, launch: string -> Result<nat>)
    requires Allocate(base, s.tables, ServiceName(svc, port)).1.Ok?
    requires launch(EndpointName(svc, port)).Ok?
    ensures var (s1, e1) := ImportStep(base, s, svc, port, launch);
            var (t1, r) := Allocate(base, s.tables, ServiceName(svc, port));
            && e1 == None && s1.tables == t1
            && s1.imported[EndpointName(svc, port)].mappedIP == r.value.String()
            && s1.imported[EndpointName(svc, port)].endpointType == Imported
  {
  }

  /** A failed start rolls the fresh mapping back: the tables are as before
      the step when the service had no mapping and no alias pointing at it. */
  lemma ImportRollback(base: IPv4, s: Snapshot, svc: ServiceConfig, port: Port, launch: string -> Result<nat>)
    requires EnsureDot(ServiceName(svc, port)) !in s.tables.mappings
    requires forall a :: a in s.tables.aliases ==> s.tables.aliases[a] != EnsureDot(ServiceName(svc, port))
    requires launch(EndpointName(svc, port)).Err?
    ensures ImportStep(base, s, svc, port, launch).0 == s
    ensures ImportStep(base, s, svc, port, launch).1.Some?
  {
    AllocateReleaseRoundTrip(base, s.tables, ServiceName(svc, port));
  }

  /** As written, a failed start on a second port of a service removes the
      mapping the first port's endpoint still uses. */
  lemma ImportRollbackDropsShared(base: IPv4, s: Snapshot, svc: ServiceConfig, port: Port, launch: string -> Result<nat>)
    requires EnsureDot(ServiceName(svc, port)) in s.tables.mappings
    requires launch(EndpointName(svc, port)).Err?
    ensures EnsureDot(ServiceName(svc, port)) !in ImportStep(base, s, svc, port, launch).0.tables.mappings
    ensures ImportStep(base, s, svc, port, launch).0.imported == s.imported
  {
  }

  /** Two ports of one imported service get the same mapped address. */
  lemma SharedServiceAddress(base: IPv4, s: Snapshot, svc: ServiceConfig, p: Port, q: Port, launch: string -> Result<nat>)
    requires Allocate(base, s.tables, ServiceName(svc, p)).1.Ok?
    requires launch(EndpointName(svc, p)).Ok? && launch(EndpointName(svc, q)).Ok?
    ensures var s1 := ImportStep(base, s, svc, p, launch).0;
            var s2 := ImportStep(base, s1, svc, q, launch).0;
            && s2.imported[EndpointName(svc, q)].mappedIP == s1.imported[EndpointName(svc, p)].mappedIP
  {
    ImportStepRecords(base, s, svc, p, launch);
    var s1 := ImportStep(base, s, svc, p, launch).0;
    AllocateIdempotent(base, s.tables, ServiceName(svc, p));
    ServiceNameShared(svc, p, q);
    ImportStepRecords(base, s1, svc, q, launch);
  }

  /** Controller: the configuration's two service lists, the DNS server, the
      two endpoint tables keyed by endpoint name, the FRPClient of each
      recorded endpoint under the same key, and the endpoint gauge. */
  class Controller {
    const exportedServices: seq<ServiceConfig>
    const importedServices: seq<ServiceConfig>
    const dns: Server
    var exportedEndpoints: map<string, EndpointInfo>
    var importedEndpoints: map<string, EndpointInfo>
    var exportedClients: map<string, Client>
    var importedClients: map<string, Client>
    var gauge: int

    function Snap(): Snapshot
      reads this, dns
    {
      Snapshot(dns.State(), exportedEndpoints, importedEndpoints, gauge)
    }

    /** Every recorded endpoint has its client and every client an endpoint;
        each recorded client is started, named after its key and runs the
        arguments built from its key and endpoint. */
    predicate ClientsRecorded()
      reads this, exportedClients.Values, importedClients.Values
    {
      && exportedClients.Keys == exportedEndpoints.Keys
      && importedClients.Keys == importedEndpoints.Keys
      && (forall k :: k in exportedClients ==> RunsEndpoint(exportedClients[k], k, exportedEndpoints[k]))
      && (forall k :: k in importedClients ==> RunsEndpoint(importedClients[k], k, importedEndpoints[k]))
    }

    /** NewController: empty endpoint tables. */
    constructor(exported: seq<ServiceConfig>, imported: seq<ServiceConfig>, server: Server)
      ensures exportedServices == exported && importedServices == imported && dns == server
      ensures exportedEndpoints == map[] && importedEndpoints == map[] && gauge == 0
      ensures ClientsRecorded()
    {
      exportedServices := exported;
      importedServices := imported;
      dns := server;
      exportedEndpoints := map[];
      importedEndpoints := map[];
      exportedClients := map[];
      importedClients := map[];
      gauge := 0;
    }

    /** The body of Start's exported loop for one port. */
    method StartExported(svc: ServiceConfig, port: Port, launch: string -> Result<nat>) returns (err: Option<string>)
      requires ClientsRecorded()
      modifies this
      ensures (Snap(), err) == ExportStep(old(Snap()), svc, port, launch)
      ensures ClientsRecorded()
      ensures importedClients == old(importedClients)
      ensures err.Some? ==> exportedClients == old(exportedClients)
      ensures err.None? ==> (var proxy := EndpointName(svc, port);
        && proxy in exportedClients && fresh(exportedClients[proxy])
        && launch(proxy).Ok? && exportedClients[proxy].cmd == Some(launch(proxy).value)
        && exportedClients == old(exportedClients)[proxy := exportedClients[proxy]])
    {
      var proxy := EndpointName(svc, port);
      var ep := ExportedEndpoint(svc, port);
      ExportedAcceptable(svc, port);
      var client;
      client, err := LaunchClient(proxy, ep, launch(proxy));
      if err.Some? {
        return;
      }
      RecordExported(proxy, ep, client.value);
      return None;
    }

    /** Records a started client and its endpoint under proxy in the
        exported table and counts it. */
    method RecordExported(proxy: string, ep: EndpointInfo, c: Client)
      requires ClientsRecorded() && RunsEndpoint(c, proxy, ep)
      modifies this
      ensures ClientsRecorded()
      ensures exportedEndpoints == old(exportedEndpoints)[proxy := ep] && exportedClients == old(exportedClients)[proxy := c]
      ensures importedEndpoints == old(importedEndpoints) && importedClients == old(importedClients)
      ensures gauge == old(gauge) + 1
    {
      exportedEndpoints := exportedEndpoints[proxy := ep];
      exportedClients := exportedClients[proxy := c];
      gauge := gauge + 1;
    }

    /** The same for the imported table. */
    method RecordImported(proxy: string, ep: EndpointInfo, c: Client)
      requires ClientsRecorded() && RunsEndpoint(c, proxy, ep)
      modifies this
      ensures ClientsRecorded()
      ensures importedEndpoints == old(importedEndpoints)[proxy := ep] && importedClients == old(importedClients)[proxy := c]
      ensures exportedEndpoints == old(exportedEndpoints) && exportedClients == old(exportedClients)
      ensures gauge == old(gauge) + 1
    {
      importedEndpoints := importedEndpoints[proxy := ep];
      importedClients := importedClients[proxy := c];
      gauge := gauge + 1;
    }

    /** The body of Start's imported loop for one port. */
    method StartImported(svc: ServiceConfig, port: Port, launch: string -> Result<nat>) returns (err: Option<string>)
      requires dns.Valid() && ClientsRecorded()
      modifies this, dns
      ensures dns.Valid() && ClientsRecorded()
      ensures (Snap(), err) == ImportStep(dns.base, old(Snap()), svc, port, launch)
      ensures exportedClients == old(exportedClients)
      ensures err.Some? ==> importedClients == old(importedClients)
      ensures err.None? ==> (var proxy := EndpointName(svc, port);
        && proxy in importedClients && fresh(importedClients[proxy])
        && launch(proxy).Ok? && importedClients[proxy].cmd == Some(launch(proxy).value)
        && importedClients == old(importedClients)[proxy := importedClients[proxy]])
    {
      var service := ServiceName(svc, port);
      var mapped := dns.AddMapping(service);
      if mapped.Err? {
        var _ := dns.RemoveMapping(service);
        return Some("failed to add DNS mapping " + service + ": " + mapped.error);
      }
      err := LaunchImported(svc, port, mapped.value, launch);
    }

    /** The rest of that body once the service is mapped to ip. */
    method LaunchImported(svc: ServiceConfig, port: Port, ip: IPv4, launch: string -> Result<nat>) returns (err: Option<string>)
      requires dns.Valid() && ClientsRecorded()
      modifies this, dns
      ensures dns.Valid() && ClientsRecorded()
      ensures (Snap(), err) == ImportLaunch(old(Snap()), svc, port, launch, ip)
      ensures exportedClients == old(exportedClients)
      ensures err.Some? ==> importedClients == old(importedClients)
      ensures err.None? ==> (var proxy := EndpointName(svc, port);
        && proxy in importedClients && fresh(importedClients[proxy])
        && launch(proxy).Ok? && importedClients[proxy].cmd == Some(launch(proxy).value)
        && importedClients == old(importedClients)[proxy := importedClients[proxy]])
    {
      var proxy := EndpointName(svc, port);
      var ep := ImportedEndpoint(svc, port, ip);
      ImportedAcceptable(svc, port, ip);
      var client;
      client, err := LaunchClient(proxy, ep, launch(proxy));
      if err.Some? {
        var _ := dns.RemoveMapping(ServiceName(svc, port));
        return;
      }
      RecordImported(proxy, ep, client.value);
    }

    /** Start's inner loop over the ports of one exported service. */
    method ExportService(svc: ServiceConfig, launch: string -> Result<nat>) returns (err: Option<string>)
      requires dns.Valid() && ClientsRecorded()
      modifies this, dns
      ensures dns.Valid() && ClientsRecorded()
      ensures (Snap(), err) == Run(StepFn(dns.base, launch), old(Snap()), PortJobs(svc, false))
      ensures forall k :: k in exportedClients ==> fresh(exportedClients[k]) || (k in old(exportedClients) && exportedClients[k] == old(exportedClients[k]))
      ensures importedClients == old(importedClients)
    {
      ghost var step := StepFn(dns.base, launch);
      ghost var s0 := Snap();
      ghost var jobs := PortJobs(svc, false);
      assert jobs[0..] == jobs;
      var j := 0;
      while j < |svc.ports|
        invariant 0 <= j <= |svc.ports|
        invariant dns.Valid() && ClientsRecorded()
        invariant forall k :: k in exportedClients ==> fresh(exportedClients[k]) || (k in old(exportedClients) && exportedClients[k] == old(exportedClients[k]))
        invariant importedClients == old(importedClients)
        invariant Run(step, s0, jobs) == Run(step, Snap(), jobs[j..])
      {
        ghost var prev := Snap();
        err := StartExported(svc, svc.ports[j], launch);
        ExportJob(dns.base, launch, prev, svc, svc.ports[j]);
        RunStep(step, prev, jobs, j, Snap(), err);
        if err.Some? {
          return;
        }
        j := j + 1;
      }
      assert jobs[j..] == [];
      return None;
    }

    /** Start's inner loop over the ports of one imported service. */
    method ImportService(svc: ServiceConfig, launch: string -> Result<nat>) returns (err: Option<string>)
      requires dns.Valid() && ClientsRecorded()
      modifies this, dns
      ensures dns.Valid() && ClientsRecorded()
      ensures (Snap(), err) == Run(StepFn(dns.base, launch), old(Snap()), PortJobs(svc, true))
      ensures forall k :: k in importedClients ==> fresh(importedClients[k]) || (k in old(importedClients) && importedClients[k] == old(importedClients[k]))
      ensures exportedClients == old(exportedClients)
    {
      ghost var step := StepFn(dns.base, launch);
      ghost var s0 := Snap();
      ghost var jobs := PortJobs(svc, true);
      assert jobs[0..] == jobs;
      var j := 0;
      while j < |svc.ports|
        invariant 0 <= j <= |svc.ports|
        invariant dns.Valid() && ClientsRecorded()
        invariant forall k :: k in importedClients ==> fresh(importedClients[k]) || (k in old(importedClients) && importedClients[k] == old(importedClients[k]))
        invariant exportedClients == old(exportedClients)
        invariant Run(step, s0, jobs) == Run(step, Snap(), jobs[j..])
      {
        ghost var prev := Snap();
        err := StartImported(svc, svc.ports[j], launch);
        ImportJob(dns.base, launch, prev, svc, svc.ports[j]);
        RunStep(step, prev, jobs, j, Snap(), err);
        if err.Some? {
          return;
        }
        j := j + 1;
      }
      assert jobs[j..] == [];
      return None;
    }

    /** Start's loop over the exported services. */
    method ExportAll(services: seq<ServiceConfig>, launch: string -> Result<nat>) returns (err: Option<string>)
      requires dns.Valid() && ClientsRecorded()
      modifies this, dns
      ensures dns.Valid() && ClientsRecorded()
      ensures (Snap(), err) == Run(StepFn(dns.base, launch), old(Snap()), Jobs(services, false))
      ensures forall k :: k in exportedClients ==> fresh(exportedClients[k]) || (k in old(exportedClients) && exportedClients[k] == old(exportedClients[k]))
      ensures importedClients == old(importedClients)
    {
      ghost var step := StepFn(dns.base, launch);
      ghost var s0 := Snap();
      assert services[0..] == services;
      var i := 0;
      while i < |services|
        invariant 0 <= i <= |services|
        invariant dns.Valid() && ClientsRecorded()
        invariant forall k :: k in exportedClients ==> fresh(exportedClients[k]) || (k in old(exportedClients) && exportedClients[k] == old(exportedClients[k]))
        invariant importedClients == old(importedClients)
        invariant Run(step, s0, Jobs(services, false)) == Run(step, Snap(), Jobs(services[i..], false))
      {
        assert services[i..][1..] == services[i + 1..];
        RunAppend(step, Snap(), PortJobs(services[i], false), Jobs(services[i + 1..], false));
        err := ExportService(services[i], launch);
        if err.Some? {
          return;
        }
        i := i + 1;
      }
      return None;
    }

    /** Start's loop over the imported services. */
    method ImportAll(services: seq<ServiceConfig>, launch: string -> Result<nat>) returns (err: Option<string>)
      requires dns.Valid() && ClientsRecorded()
      modifies this, dns
      ensures dns.Valid() && ClientsRecorded()
      ensures (Snap(), err) == Run(StepFn(dns.base, launch), old(Snap()), Jobs(services, true))
      ensures forall k :: k in importedClients ==> fresh(importedClients[k]) || (k in old(importedClients) && importedClients[k] == old(importedClients[k]))
      ensures exportedClients == old(exportedClients)
    {
      ghost var step := StepFn(dns.base, launch);
      ghost var s0 := Snap();
      assert services[0..] == services;
      var i := 0;
      while i < |services|
        invariant 0 <= i <= |services|
        invariant dns.Valid() && ClientsRecorded()
        invariant forall k :: k in importedClients ==> fresh(importedClients[k]) || (k in old(importedClients) && importedClients[k] == old(importedClients[k]))
        invariant exportedClients == old(exportedClients)
        invariant Run(step, s0, Jobs(services, true)) == Run(step, Snap(), Jobs(services[i..], true))
      {
        assert services[i..][1..] == services[i + 1..];
        RunAppend(step, Snap(), PortJobs(services[i], true), Jobs(services[i + 1..], true));
        err := ImportService(services[i], launch);
        if err.Some? {
          return;
        }
        i := i + 1;
      }
      return None;
    }

    /** Start: every port of every exported service, then every port of
        every imported service, returning at the first error; endpoints
        recorded before it stay recorded. */
    method Start(launch: string -> Result<nat>) returns (err: Option<string>)
      requires dns.Valid() && ClientsRecorded()
      modifies this, dns
      ensures dns.Valid() && ClientsRecorded()
      ensures (Snap(), err) == StartAll(dns.base, launch, old(Snap()), exportedServices, importedServices)
      ensures forall k :: k in exportedClients ==> fresh(exportedClients[k]) || (k in old(exportedClients) && exportedClients[k] == old(exportedClients[k]))
      ensures forall k :: k in importedClients ==> fresh(importedClients[k]) || (k in old(importedClients) && importedClients[k] == old(importedClients[k]))
    {
      RunAppend(StepFn(dns.base, launch), Snap(), Jobs(exportedServices, false), Jobs(importedServices, true));
      err := ExportAll(exportedServices, launch);
      if err.Some? {
        return;
      }
      err := ImportAll(importedServices, launch);
    }
  }
}

/** The FRPServer watcher of internal/controller/frps_controller.go: the
    desired endpoints gathered from the FRPServer resources, and the
    reconciliation that brings the recorded endpoints, their FRP clients
    and the DNS mappings in line with them. The cluster list call, the
    proxy-name parser, the FRP client factory and the clients' Start and
    Stop are collaborators: their outcomes are parameters. */
module ReconcileController {
  import opened Results
  import opened Text
  import opened Ipv4
  import opened Resolver
  import opened DnsServer

  /** defaultInterval (in seconds) and defaultServerPort. */
  const DefaultInterval := 10
  const DefaultServerPort := 7000

  /** EndpointInfo of internal/controller/interface.go. The FRP client is
      the handle the factory returned, None while unset. */
  datatype EndpointInfo = EndpointInfo(
    frpServerAddr: string,
    frpServerPort: string,
    frpSecretKey: string,
    serviceName: string,
    servicePort: string,
    serviceProtocol: string,
    mappedIP: string,
    client: Option<nat>,
    proxyName: string)

  /** The parts of an FRPServer resource the controller reads: the status
      address, the spec's bind address and port, and the active
      connections with their proxy names and secret keys. */
  datatype Connection = Connection(proxyName: string, secretKey: string)
  datatype FrpServer = FrpServer(internetAddr: string, bindAddr: string, bindPort: int, connections: seq<Connection>)

  /** What the proxy-name parser reports about a proxy. */
  datatype ServiceInfo = ServiceInfo(name: string, protocol: string, port: string)

  /** The frps address of a resource: the status address, else the bind address. */
  function ServerAddr(item: FrpServer): string {
    if item.internetAddr != "" then item.internetAddr else item.bindAddr
  }

  /** The frps port of a resource: the bind port, 7000 when it is unset. */
  function ServerPort(item: FrpServer): int {
    if item.bindPort == 0 then DefaultServerPort else item.bindPort
  }

  /** The record getAllEndpoints builds for a connection of a resource. */
  function Entry(item: FrpServer, conn: Connection, info: ServiceInfo): EndpointInfo {
    EndpointInfo(ServerAddr(item), IntToString(ServerPort(item)), conn.secretKey,
                 info.name, info.port, info.protocol, "", None, conn.proxyName)
  }

  /** A connection is kept when its proxy name parses to a watched service. */
  predicate Admitted(conn: Connection, parse: string -> Result<ServiceInfo>, watched: set<string>) {
    parse(conn.proxyName).Ok? && parse(conn.proxyName).value.name in watched
  }

  /** The connections of all resources in list order, each with its resource. */
  function Pairs(items: seq<FrpServer>): seq<(FrpServer, Connection)> {
    if items == [] then []
    else Pairs(items[..|items| - 1]) + ItemPairs(items[|items| - 1])
  }

  function ItemPairs(item: FrpServer): (r: seq<(FrpServer, Connection)>)
    ensures |r| == |item.connections|
    ensures forall j :: 0 <= j < |r| ==> r[j] == (item, item.connections[j])
  {
    seq(|item.connections|, j requires 0 <= j < |item.connections| => (item, item.connections[j]))
  }

  lemma PairsSnoc(items: seq<FrpServer>, i: nat)
    requires i < |items|
    ensures Pairs(items[..i + 1]) == Pairs(items[..i]) + ItemPairs(items[i])
  {
    assert items[..i + 1][..i] == items[..i];
  }

  /** One connection's effect on the map being built. */
  function Admit(m: map<string, EndpointInfo>, pair: (FrpServer, Connection),
                 parse: string -> Result<ServiceInfo>, watched: set<string>): map<string, EndpointInfo> {
    var (item, conn) := pair;
    match parse(conn.proxyName)
    case Err(_) => m
    case Ok(info) => if info.name in watched then m[conn.proxyName := Entry(item, conn, info)] else m
  }

  /** The desired endpoints: the connections in order, each admitted one
      written under its proxy name. Every record is keyed by its own proxy
      name, names a watched service the parser reported, and carries no
      mapped address and no client. */
  function Collect(pairs: seq<(FrpServer, Connection)>, parse: string -> Result<ServiceInfo>, watched: set<string>): (m: map<string, EndpointInfo>)
    ensures forall k :: k in m ==> && m[k].proxyName == k
                                   && parse(k).Ok? && parse(k).value.name == m[k].serviceName
                                   && m[k].serviceName in watched
                                   && m[k].mappedIP == "" && m[k].client == None
  {
    if pairs == [] then map[]
    else Admit(Collect(pairs[..|pairs| - 1], parse, watched), pairs[|pairs| - 1], parse, watched)
  }

  lemma CollectSnoc(pairs: seq<(FrpServer, Connection)>, pair: (FrpServer, Connection),
                    parse: string -> Result<ServiceInfo>, watched: set<string>)
    ensures Collect(pairs + [pair], parse, watched) == Admit(Collect(pairs, parse, watched), pair, parse, watched)
  {
    assert (pairs + [pair])[..|pairs|] == pairs;
  }

  /** A proxy name is desired exactly when some connection carrying it is admitted. */
  lemma {:induction false} CollectKeys(pairs: seq<(FrpServer, Connection)>, parse: string -> Result<ServiceInfo>, watched: set<string>, k: string)
    ensures k in Collect(pairs, parse, watched) <==>
            exists i :: 0 <= i < |pairs| && pairs[i].1.proxyName == k && Admitted(pairs[i].1, parse, watched)
  {
    if pairs != [] {
      var init := pairs[..|pairs| - 1];
      CollectKeys(init, parse, watched, k);
      if k in Collect(pairs, parse, watched) && k !in Collect(init, parse, watched) {
        assert pairs[|pairs| - 1].1.proxyName == k;
      }
      if i :| 0 <= i < |pairs| && pairs[i].1.proxyName == k && Admitted(pairs[i].1, parse, watched) {
        if i < |pairs| - 1 {
          assert init[i] == pairs[i];
        }
      }
    }
  }

  /** The last admitted connection carrying a proxy name decides its record. */
  lemma {:induction false} CollectLastWins(pairs: seq<(FrpServer, Connection)>, parse: string -> Result<ServiceInfo>, watched: set<string>, i: nat)
    requires i < |pairs| && Admitted(pairs[i].1, parse, watched)
    requires forall j :: i < j < |pairs| && pairs[j].1.proxyName == pairs[i].1.proxyName ==> !Admitted(pairs[j].1, parse, watched)
    ensures var k := pairs[i].1.proxyName;
            k in Collect(pairs, parse, watched)
            && Collect(pairs, parse, watched)[k] == Entry(pairs[i].0, pairs[i].1, parse(k).value)
  {
    var init := pairs[..|pairs| - 1];
    if i < |pairs| - 1 {
      CollectLastWins(init, parse, watched, i);
    }
  }

  /** The address falls back to the bind address and an unset port to 7000. */
  lemma ServerDefaults(item: FrpServer)
    ensures item.internetAddr == "" ==> ServerAddr(item) == item.bindAddr
    ensures item.internetAddr != "" ==> ServerAddr(item) == item.internetAddr
    ensures item.bindPort == 0 ==> IntToString(ServerPort(item)) == "7000"
    ensures item.bindPort != 0 ==> IntToString(ServerPort(item)) == IntToString(item.bindPort)
  {
    assert NatToString(7000) == NatToString(700) + ['0'];
    assert NatToString(700) == NatToString(70) + ['0'];
    assert NatToString(70) == NatToString(7) + ['0'];
  }

  /** The body of getAllEndpoints's outer loop: one resource's connections
      added, in order, to the map built so far. */
  method CollectItem(ghost before: seq<(FrpServer, Connection)>, found: map<string, EndpointInfo>, item: FrpServer,
                     parse: string -> Result<ServiceInfo>, watched: set<string>) returns (m: map<string, EndpointInfo>)
    requires found == Collect(before, parse, watched)
    ensures m == Collect(before + ItemPairs(item), parse, watched)
  {
    var addr := item.internetAddr;
    if addr == "" {
      addr := item.bindAddr;
    }
    var port := item.bindPort;
    if port == 0 {
      port := DefaultServerPort;
    }
    assert addr == ServerAddr(item) && port == ServerPort(item);
    assert before + ItemPairs(item)[..0] == before;
    m := found;
    var j := 0;
    while j < |item.connections|
      invariant 0 <= j <= |item.connections|
      invariant m == Collect(before + ItemPairs(item)[..j], parse, watched)
    {
      CollectItemStep(before, item, j, parse, watched);
      m := AdmitConnection(m, item, item.connections[j], addr, port, parse, watched);
      j := j + 1;
    }
    assert ItemPairs(item)[..j] == ItemPairs(item);
  }

  /** The body of getAllEndpoints's inner loop: one connection, with the
      resource's address and port already worked out. */
  method AdmitConnection(m: map<string, EndpointInfo>, item: FrpServer, conn: Connection, addr: string, port: int,
                         parse: string -> Result<ServiceInfo>, watched: set<string>) returns (m': map<string, EndpointInfo>)
    requires addr == ServerAddr(item) && port == ServerPort(item)
    ensures m' == Admit(m, (item, conn), parse, watched)
  {
    m' := m;
    var info := parse(conn.proxyName);
    if info.Ok? && info.value.name in watched {
      m' := m[conn.proxyName := EndpointInfo(addr, IntToString(port), conn.secretKey, info.value.name,
                                             info.value.port, info.value.protocol, "", None, conn.proxyName)];
    }
  }

  /** The next connection of a resource is admitted on top of the map
      built from the connections before it. */
  lemma CollectItemStep(before: seq<(FrpServer, Connection)>, item: FrpServer, j: nat,
                        parse: string -> Result<ServiceInfo>, watched: set<string>)
    requires j < |item.connections|
    ensures Collect(before + ItemPairs(item)[..j + 1], parse, watched)
         == Admit(Collect(before + ItemPairs(item)[..j], parse, watched), (item, item.connections[j]), parse, watched)
  {
    assert before + ItemPairs(item)[..j + 1] == (before + ItemPairs(item)[..j]) + [(item, item.connections[j])];
    CollectSnoc(before + ItemPairs(item)[..j], (item, item.connections[j]), parse, watched);
  }

  /** The recorded endpoints, the DNS tables and the handles stopped so far. */
  datatype Pool = Pool(tables: Tables, endpoints: map<string, EndpointInfo>, stopped: seq<nat>)

  /** Every recorded endpoint has a client, so stopping it is defined. */
  predicate AllStarted(m: map<string, EndpointInfo>) {
    forall k :: k in m ==> m[k].client.Some?
  }

  function Stops(client: Option<nat>): seq<nat> {
    if client.Some? then [client.value] else []
  }

  /** Dropping a recorded endpoint: stop its client, remove its service's
      DNS mapping (an error is only logged), forget it. */
  function RemoveStep(p: Pool, key: string): Pool {
    if key !in p.endpoints then p
    else
      var ep := p.endpoints[key];
      Pool(Release(p.tables, ep.serviceName).0, p.endpoints - {key}, p.stopped + Stops(ep.client))
  }

  /** The removal loop: the recorded keys in the order visited, each one
      not desired dropped. */
  function RemoveFold(p: Pool, desired: set<string>, order: seq<string>): Pool {
    if order == [] then p
    else
      var q := RemoveFold(p, desired, order[..|order| - 1]);
      var key := order[|order| - 1];
      if key in desired then q else RemoveStep(q, key)
  }

  /** Adding a desired endpoint that is not recorded: map its service, then
      build and start its client. */
  function AddStep(base: IPv4, p: Pool, desired: map<string, EndpointInfo>, key: string,
                   build: (string, EndpointInfo) -> Result<nat>, start: nat -> Option<string>): Pool {
    if key in p.endpoints || key !in desired then p
    else AddEndpoint(base, p, key, desired[key], build, start)
  }

  function AddEndpoint(base: IPv4, p: Pool, key: string, ep: EndpointInfo,
                       build: (string, EndpointInfo) -> Result<nat>, start: nat -> Option<string>): Pool {
    AddOutcome(p, key, ep, build, start, Allocate(base, p.tables, ep.serviceName))
  }

  /** After AddMapping produced alloc: on failure remove the mapping (there
      is none) and skip the endpoint; else go on with the mapped address. */
  function AddOutcome(p: Pool, key: string, ep: EndpointInfo, build: (string, EndpointInfo) -> Result<nat>,
                      start: nat -> Option<string>, alloc: (Tables, Result<IPv4>)): Pool {
    match alloc.1
    case Err(_) => p.(tables := Release(alloc.0, ep.serviceName).0)
    case Ok(ip) => AddLaunch(p.(tables := alloc.0), key, ep.(mappedIP := ip.String()), build, start)
  }

  /** A factory failure skips the endpoint and keeps the mapping; a start
      failure removes the mapping; a started client is recorded with the
      endpoint. */
  function AddLaunch(p: Pool, key: string, ep: EndpointInfo, build: (string, EndpointInfo) -> Result<nat>,
                     start: nat -> Option<string>): Pool {
    match build(ep.proxyName, ep)
    case Err(_) => p
    case Ok(h) =>
      if start(h).Some? then p.(tables := Release(p.tables, ep.serviceName).0)
      else p.(endpoints := p.endpoints[key := ep.(client := Some(h))])
  }

  /** The addition loop: the desired keys in the order visited. */
  function AddFold(base: IPv4, p: Pool, desired: map<string, EndpointInfo>, order: seq<string>,
                   build: (string, EndpointInfo) -> Result<nat>, start: nat -> Option<string>): Pool {
    if order == [] then p
    else AddStep(base, AddFold(base, p, desired, order[..|order| - 1], build, start), desired, order[|order| - 1], build, start)
  }

  /** rec is ep as recorded after its client h was built from ep with the
      mapped address filled in, and started without error. */
  predicate Started(ep: EndpointInfo, rec: EndpointInfo, build: (string, EndpointInfo) -> Result<nat>, start: nat -> Option<string>) {
    && rec.client.Some?
    && rec == ep.(mappedIP := rec.mappedIP, client := rec.client)
    && build(ep.proxyName, ep.(mappedIP := rec.mappedIP)) == Ok(rec.client.value)
    && start(rec.client.value).None?
  }

  /** order visits each key of keys exactly once. */
  ghost predicate Enumerates(order: seq<string>, keys: set<string>) {
    |order| == |keys| && forall k :: k in keys <==> k in order
  }

  /** Removal keeps exactly the recorded keys that are desired or not yet
      visited, with their records untouched, and stops the client of every
      endpoint it drops. */
  lemma {:induction false} RemoveFoldEffect(p: Pool, desired: set<string>, order: seq<string>)
    ensures var r := RemoveFold(p, desired, order);
            && (forall k :: k in r.endpoints <==> k in p.endpoints && (k in desired || k !in order))
            && (forall k :: k in r.endpoints ==> r.endpoints[k] == p.endpoints[k])
            && p.stopped <= r.stopped
            && (forall k :: k in p.endpoints && k !in desired && k in order && p.endpoints[k].client.Some? ==>
                  p.endpoints[k].client.value in r.stopped[|p.stopped|..])
  {
    if order != [] {
      var init := order[..|order| - 1];
      var key := order[|order| - 1];
      assert order == init + [key];
      RemoveFoldEffect(p, desired, init);
      var q := RemoveFold(p, desired, init);
      var r := RemoveFold(p, desired, order);
      assert r.stopped[|p.stopped|..] == q.stopped[|p.stopped|..] + r.stopped[|q.stopped|..];
      forall k | k in p.endpoints && k !in desired && k in order && p.endpoints[k].client.Some?
        ensures p.endpoints[k].client.value in r.stopped[|p.stopped|..]
      {
        if k !in init {
          assert k == key;
        }
      }
    }
  }

  lemma AddStepEffect(base: IPv4, p: Pool, desired: map<string, EndpointInfo>, key: string,
                      build: (string, EndpointInfo) -> Result<nat>, start: nat -> Option<string>)
    ensures var r := AddStep(base, p, desired, key, build, start);
            && r.stopped == p.stopped
            && (forall k :: k in p.endpoints ==> k in r.endpoints && r.endpoints[k] == p.endpoints[k])
            && (forall k :: k in r.endpoints && k !in p.endpoints ==>
                  k == key && k in desired && Started(desired[k], r.endpoints[k], build, start))
  {
    if key !in p.endpoints && key in desired {
      var ep := desired[key];
      var alloc := Allocate(base, p.tables, ep.serviceName);
      if alloc.1.Ok? {
        assert AddStep(base, p, desired, key, build, start)
            == AddLaunch(p.(tables := alloc.0), key, ep.(mappedIP := alloc.1.value.String()), build, start);
      } else {
        assert AddStep(base, p, desired, key, build, start).endpoints == p.endpoints;
      }
    }
  }

  /** Addition keeps every recorded endpoint as it was and records only
      desired keys it visited whose clients started. */
  lemma {:induction false} AddFoldEffect(base: IPv4, p: Pool, desired: map<string, EndpointInfo>, order: seq<string>,
                                         build: (string, EndpointInfo) -> Result<nat>, start: nat -> Option<string>)
    ensures var r := AddFold(base, p, desired, order, build, start);
            && r.stopped == p.stopped
            && (forall k :: k in p.endpoints ==> k in r.endpoints && r.endpoints[k] == p.endpoints[k])
            && (forall k :: k in r.endpoints && k !in p.endpoints ==>
                  k in desired && k in order && Started(desired[k], r.endpoints[k], build, start))
  {
    if order != [] {
      var init := order[..|order| - 1];
      var key := order[|order| - 1];
      assert order == init + [key];
      AddFoldEffect(base, p, desired, init, build, start);
      AddStepEffect(base, AddFold(base, p, desired, init, build, start), desired, key, build, start);
    }
  }

  /** A whole cycle: once every recorded key has been visited, the recorded
      keys are desired ones; endpoints recorded and desired keep their
      records and clients; new ones are recorded only with a started
      client; and every recorded endpoint still has a client. */
  lemma CycleEffect(base: IPv4, p: Pool, desired: map<string, EndpointInfo>, removed: seq<string>, added: seq<string>,
                    build: (string, EndpointInfo) -> Result<nat>, start: nat -> Option<string>)
    requires forall k :: k in p.endpoints ==> k in removed
    requires AllStarted(p.endpoints)
    ensures var r := AddFold(base, RemoveFold(p, desired.Keys, removed), desired, added, build, start);
            && r.endpoints.Keys <= desired.Keys
            && (forall k :: k in p.endpoints && k in desired ==> k in r.endpoints && r.endpoints[k] == p.endpoints[k])
            && (forall k :: k in r.endpoints && k !in p.endpoints ==> Started(desired[k], r.endpoints[k], build, start))
            && AllStarted(r.endpoints)
  {
    var q := RemoveFold(p, desired.Keys, removed);
    RemoveFoldEffect(p, desired.Keys, removed);
    AddFoldEffect(base, q, desired, added, build, start);
  }

  /** AddMapping fails only for an unmapped name, so the RemoveMapping that
      follows finds nothing and the tables are unchanged. */
  lemma MappingFailureNoop(base: IPv4, p: Pool, key: string, ep: EndpointInfo,
                           build: (string, EndpointInfo) -> Result<nat>, start: nat -> Option<string>)
    requires Allocate(base, p.tables, ep.serviceName).1.Err?
    ensures AddEndpoint(base, p, key, ep, build, start) == p
  {
    assert EnsureDot(ep.serviceName) !in p.tables.mappings;
  }

  /** A factory failure skips the endpoint but leaves the service mapped. */
  lemma FactoryFailureKeepsMapping(base: IPv4, p: Pool, key: string, ep: EndpointInfo,
                                   build: (string, EndpointInfo) -> Result<nat>, start: nat -> Option<string>)
    requires key !in p.endpoints
    requires Allocate(base, p.tables, ep.serviceName).1.Ok?
    requires var ip := Allocate(base, p.tables, ep.serviceName).1.value;
             build(ep.proxyName, ep.(mappedIP := ip.String())).Err?
    ensures var r := AddEndpoint(base, p, key, ep, build, start);
            && key !in r.endpoints
            && EnsureDot(ep.serviceName) in r.tables.mappings
            && r.tables.mappings[EnsureDot(ep.serviceName)] == Allocate(base, p.tables, ep.serviceName).1.value
  {
  }

  /** A start failure skips the endpoint and removes its service's mapping. */
  lemma StartFailureUnmaps(base: IPv4, p: Pool, key: string, ep: EndpointInfo,
                           build: (string, EndpointInfo) -> Result<nat>, start: nat -> Option<string>)
    requires key !in p.endpoints
    requires Allocate(base, p.tables, ep.serviceName).1.Ok?
    requires var ip := Allocate(base, p.tables, ep.serviceName).1.value;
             var b := build(ep.proxyName, ep.(mappedIP := ip.String()));
             b.Ok? && start(b.value).Some?
    ensures var r := AddEndpoint(base, p, key, ep, build, start);
            key !in r.endpoints && EnsureDot(ep.serviceName) !in r.tables.mappings
  {
  }

  /** A started endpoint is recorded with the address its service is mapped to. */
  lemma StartedRecorded(base: IPv4, p: Pool, key: string, ep: EndpointInfo,
                        build: (string, EndpointInfo) -> Result<nat>, start: nat -> Option<string>)
    requires Allocate(base, p.tables, ep.serviceName).1.Ok?
    requires var ip := Allocate(base, p.tables, ep.serviceName).1.value;
             var b := build(ep.proxyName, ep.(mappedIP := ip.String()));
             b.Ok? && start(b.value).None?
    ensures var r := AddEndpoint(base, p, key, ep, build, start);
            var ip := Allocate(base, p.tables, ep.serviceName).1.value;
            && key in r.endpoints && r.endpoints[key].mappedIP == ip.String()
            && EnsureDot(ep.serviceName) in r.tables.mappings
            && r.tables.mappings[EnsureDot(ep.serviceName)] == ip
  {
  }

  /** Mappings are per service and endpoints per proxy: dropping one
      endpoint unmaps the service another recorded endpoint still uses. */
  lemma SharedServiceUnmapped(p: Pool, gone: string, kept: string)
    requires gone in p.endpoints && kept in p.endpoints && gone != kept
    requires p.endpoints[gone].serviceName == p.endpoints[kept].serviceName
    ensures var r := RemoveStep(p, gone);
            kept in r.endpoints && EnsureDot(p.endpoints[kept].serviceName) !in r.tables.mappings
  {
  }

  /** sync.Once: whether its function has run. */
  class Once {
    var done: bool

    constructor()
      ensures !done
    {
      done := false;
    }
  }

  /** FRPSServerController: the watched service names, the DNS server, the
      endpoints recorded by proxy name, the handles stopped so far, and the
      endpoint gauge and reconcile error counter. */
  class Reconciler {
    const mappedServices: set<string>
    const interval: int
    const dns: Server
    var endpoints: map<string, EndpointInfo>
    ghost var stopped: seq<nat>
    var gauge: int
    var reconcileErrors: nat

    ghost function Snap(): Pool
      reads this, dns
    {
      Pool(dns.State(), endpoints, stopped)
    }

    ghost predicate Valid()
      reads this, dns
    {
      dns.Valid() && AllStarted(endpoints)
    }

    constructor(watched: set<string>, server: Server)
      requires server.Valid()
      ensures mappedServices == watched && interval == DefaultInterval && dns == server
      ensures endpoints == map[] && stopped == [] && gauge == 0 && reconcileErrors == 0
      ensures Valid()
    {
      mappedServices := watched;
      interval := DefaultInterval;
      dns := server;
      endpoints := map[];
      stopped := [];
      gauge := 0;
      reconcileErrors := 0;
    }

    /** Start: launch the reconcile loop through the package-wide Once; the
        result says whether this call launched it. The loop itself is not
        modelled. */
    method Start(once: Once) returns (launched: bool)
      modifies once
      ensures launched == !old(once.done) && once.done
    {
      launched := !once.done;
      once.done := true;
    }

    /** The unexported getAllEndpoints (not the exported accessor of the
        same name): the list call's error, or the desired endpoints. */
    method FetchDesired(list: Result<seq<FrpServer>>, parse: string -> Result<ServiceInfo>) returns (r: Result<map<string, EndpointInfo>>)
      ensures list.Err? ==> r == Err(list.error)
      ensures list.Ok? ==> r == Ok(Collect(Pairs(list.value), parse, mappedServices))
    {
      if list.Err? {
        return Err(list.error);
      }
      var items := list.value;
      var found: map<string, EndpointInfo> := map[];
      var i := 0;
      while i < |items|
        invariant 0 <= i <= |items|
        invariant found == Collect(Pairs(items[..i]), parse, mappedServices)
      {
        PairsSnoc(items, i);
        found := CollectItem(Pairs(items[..i]), found, items[i], parse, mappedServices);
        i := i + 1;
      }
      assert items[..i] == items;
      return Ok(found);
    }

    /** The removal loop's body for a recorded key that is not desired. */
    method RemoveEndpoint(key: string)
      requires Valid() && key in endpoints
      modifies this, dns
      ensures Valid()
      ensures Snap() == RemoveStep(old(Snap()), key)
      ensures gauge == old(gauge) && reconcileErrors == old(reconcileErrors)
    {
      var ep := endpoints[key];
      stopped := stopped + [ep.client.value];
      var _ := dns.RemoveMapping(ep.serviceName);
      endpoints := endpoints - {key};
    }

    /** Reconcile's first loop: every recorded key, in some order. */
    method RemoveStale(desired: set<string>) returns (ghost order: seq<string>)
      requires Valid()
      modifies this, dns
      ensures Valid()
      ensures Enumerates(order, old(endpoints).Keys)
      ensures Snap() == RemoveFold(old(Snap()), desired, order)
      ensures gauge == old(gauge) && reconcileErrors == old(reconcileErrors)
    {
      ghost var p0 := Snap();
      var pending := endpoints.Keys;
      order := [];
      while pending != {}
        invariant Valid()
        invariant Snap() == RemoveFold(p0, desired, order)
        invariant |order| + |pending| == |p0.endpoints.Keys|
        invariant forall k :: k in p0.endpoints <==> k in pending || k in order
        invariant forall k :: k in pending ==> k !in order && k in endpoints && endpoints[k] == p0.endpoints[k]
        invariant gauge == old(gauge) && reconcileErrors == old(reconcileErrors)
        decreases pending
      {
        var key :| key in pending;
        RemoveFoldEffect(p0, desired, order);
        assert (order + [key])[..|order|] == order;
        if key !in desired {
          RemoveEndpoint(key);
        }
        order := order + [key];
        pending := pending - {key};
      }
    }

    /** The addition loop's body for a desired key that is not recorded:
        AddMapping, then the client. */
    method MapEndpoint(key: string, ep: EndpointInfo, build: (string, EndpointInfo) -> Result<nat>, start: nat -> Option<string>)
      requires Valid()
      modifies this, dns
      ensures Valid()
      ensures Snap() == AddEndpoint(dns.base, old(Snap()), key, ep, build, start)
      ensures gauge == old(gauge) && reconcileErrors == old(reconcileErrors)
    {
      var mapped := dns.AddMapping(ep.serviceName);
      if mapped.Err? {
        var _ := dns.RemoveMapping(ep.serviceName);
        return;
      }
      LaunchEndpoint(key, ep.(mappedIP := mapped.value.String()), build, start);
    }

    /** The rest of that body: build the client and start it. */
    method LaunchEndpoint(key: string, ep: EndpointInfo, build: (string, EndpointInfo) -> Result<nat>, start: nat -> Option<string>)
      requires Valid()
      modifies this, dns
      ensures Valid()
      ensures Snap() == AddLaunch(old(Snap()), key, ep, build, start)
      ensures gauge == old(gauge) && reconcileErrors == old(reconcileErrors)
    {
      var client := build(ep.proxyName, ep);
      if client.Err? {
        return;
      }
      var failed := start(client.value);
      if failed.Some? {
        var _ := dns.RemoveMapping(ep.serviceName);
        return;
      }
      endpoints := endpoints[key := ep.(client := Some(client.value))];
    }

    /** Reconcile's second loop: every desired key, in some order. */
    method AddMissing(desired: map<string, EndpointInfo>, build: (string, EndpointInfo) -> Result<nat>, start: nat -> Option<string>)
      returns (ghost order: seq<string>)
      requires Valid()
      modifies this, dns
      ensures Valid()
      ensures Enumerates(order, desired.Keys)
      ensures Snap() == AddFold(dns.base, old(Snap()), desired, order, build, start)
      ensures gauge == old(gauge) && reconcileErrors == old(reconcileErrors)
    {
      ghost var p0 := Snap();
      var pending := desired.Keys;
      order := [];
      while pending != {}
        invariant Valid()
        invariant Snap() == AddFold(dns.base, p0, desired, order, build, start)
        invariant |order| + |pending| == |desired.Keys|
        invariant forall k :: k in desired <==> k in pending || k in order
        invariant forall k :: k in pending ==> k !in order
        invariant gauge == old(gauge) && reconcileErrors == old(reconcileErrors)
        decreases pending
      {
        var key :| key in pending;
        assert (order + [key])[..|order|] == order;
        if key !in endpoints {
          MapEndpoint(key, desired[key], build, start);
        }
        order := order + [key];
        pending := pending - {key};
      }
    }

    /** Reconcile: fetch the desired endpoints; on failure count the error
        and change nothing else; otherwise drop what is no longer desired,
        add what is missing, and set the gauge. */
    method Reconcile(list: Result<seq<FrpServer>>, parse: string -> Result<ServiceInfo>,
                     build: (string, EndpointInfo) -> Result<nat>, start: nat -> Option<string>)
      returns (requeueAfter: int, err: Option<string>, ghost removed: seq<string>, ghost added: seq<string>)
      requires Valid()
      modifies this, dns
      ensures Valid() && requeueAfter == interval
      ensures list.Err? ==> && err == Some(list.error) && Snap() == old(Snap())
                            && gauge == old(gauge) && reconcileErrors == old(reconcileErrors) + 1
      ensures list.Ok? ==>
                var desired := Collect(Pairs(list.value), parse, mappedServices);
                && err == None && reconcileErrors == old(reconcileErrors)
                && Enumerates(removed, old(endpoints).Keys) && Enumerates(added, desired.Keys)
                && Snap() == AddFold(dns.base, RemoveFold(old(Snap()), desired.Keys, removed), desired, added, build, start)
                && endpoints.Keys <= desired.Keys
                && (forall k :: k in old(endpoints) && k in desired ==> k in endpoints && endpoints[k] == old(endpoints)[k])
                && gauge == |endpoints|
    {
      var fetched := FetchDesired(list, parse);
      if fetched.Err? {
        reconcileErrors := reconcileErrors + 1;
        return interval, Some(fetched.error), [], [];
      }
      var desired := fetched.value;
      ghost var p0 := Snap();
      removed := RemoveStale(desired.Keys);
      added := AddMissing(desired, build, start);
      CycleEffect(dns.base, p0, desired, removed, added, build, start);
      gauge := |endpoints|;
      return interval, None, removed, added;
    }
  }

  /** NewFRPSServer: an empty service list is refused before the cluster
      client is made; clientErr is the outcome of making it. */
  method NewFRPSServer(services: seq<string>, server: Server, clientErr: Option<string>) returns (r: Result<Reconciler>)
    requires server.Valid()
    ensures |services| == 0 ==> r == Err("services is empty")
    ensures |services| > 0 && clientErr.Some? ==> r == Err("failed to create client: " + clientErr.value)
    ensures |services| > 0 && clientErr.None? ==>
              && r.Ok? && fresh(r.value) && r.value.Valid() && r.value.dns == server
              && r.value.mappedServices == (set s | s in services)
              && r.value.endpoints == map[] && r.value.interval == DefaultInterval
  {
    if |services| == 0 {
      return Err("services is empty");
    }
    var watched: set<string> := {};
    var i := 0;
    while i < |services|
      invariant 0 <= i <= |services|
      invariant watched == set s | s in services[..i]
    {
      assert services[..i + 1] == services[..i] + [services[i]];
      watched := watched + {services[i]};
      i := i + 1;
    }
    assert services[..i] == services;
    var c := new Reconciler(watched, server);
    if clientErr.Some? {
      return Err("failed to create client: " + clientErr.value);
    }
    return Ok(c);
  }
}

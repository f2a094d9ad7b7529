/** The service lists of internal/config/types.go, the checks that
    validateServices in internal/config/loader.go applies to them, and the
    DNS names ConvertToServiceNames builds from them. */
module Config {
  import opened Results
  import opened Text

  /** Port of internal/config/types.go; the numbers are Go ints. */
  datatype Port = Port(name: string, port: int, targetPort: int, protocol: string)

  /** ServiceConfig of internal/config/types.go. */
  datatype ServiceConfig = ServiceConfig(name: string, namespace: string, cluster: string, ports: seq<Port>)

  predicate InPortRange(n: int) {
    0 < n <= 65535
  }

  /** A port that passes all four checks; the protocol is compared
      case-sensitively. */
  predicate PortValid(p: Port) {
    && p.name != ""
    && InPortRange(p.port)
    && InPortRange(p.targetPort)
    && (p.protocol == "TCP" || p.protocol == "UDP")
  }

  /** A service that passes validation: a name and valid ports. The
      namespace and cluster are never looked at. */
  predicate ServiceValid(s: ServiceConfig) {
    s.name != "" && forall j :: 0 <= j < |s.ports| ==> PortValid(s.ports[j])
  }

  /** The error one port raises: the checks in order, the first that fails. */
  function PortError(p: Port): (r: Option<string>)
    ensures r.None? <==> PortValid(p)
  {
    if p.name == "" then Some("port name cannot be empty")
    else if !InPortRange(p.port) then Some("invalid port number: " + IntToString(p.port))
    else if !InPortRange(p.targetPort) then Some("invalid target port number: " + IntToString(p.targetPort))
    else if p.protocol != "TCP" && p.protocol != "UDP" then Some("invalid protocol type: " + p.protocol)
    else None
  }

  /** The error of the first port, from index j on, that raises one. */
  function PortsError(ports: seq<Port>, j: nat): Option<string>
    decreases |ports| - j
  {
    if j >= |ports| then None
    else if PortError(ports[j]).Some? then PortError(ports[j])
    else PortsError(ports, j + 1)
  }

  /** The error one service raises: its name first, then its ports in order. */
  function ServiceError(s: ServiceConfig): Option<string> {
    if s.name == "" then Some("service name cannot be empty")
    else PortsError(s.ports, 0)
  }

  /** The error of the first service, from index i on, that raises one. */
  function ServicesError(services: seq<ServiceConfig>, i: nat): Option<string>
    decreases |services| - i
  {
    if i >= |services| then None
    else if ServiceError(services[i]).Some? then ServiceError(services[i])
    else ServicesError(services, i + 1)
  }

  /** validateServices: None for a list that passes, else the first
      violation's message. */
  function ValidateServices(services: seq<ServiceConfig>): Option<string> {
    ServicesError(services, 0)
  }

  lemma {:induction false} PortsErrorNoneIff(ports: seq<Port>, j: nat)
    ensures PortsError(ports, j).None? <==> forall k :: j <= k < |ports| ==> PortValid(ports[k])
    decreases |ports| - j
  {
    if j < |ports| {
      PortsErrorNoneIff(ports, j + 1);
    }
  }

  lemma ServiceErrorNoneIff(s: ServiceConfig)
    ensures ServiceError(s).None? <==> ServiceValid(s)
  {
    PortsErrorNoneIff(s.ports, 0);
  }

  lemma {:induction false} ServicesErrorNoneIff(services: seq<ServiceConfig>, i: nat)
    ensures ServicesError(services, i).None? <==> forall k :: i <= k < |services| ==> ServiceValid(services[k])
    decreases |services| - i
  {
    if i < |services| {
      ServiceErrorNoneIff(services[i]);
      ServicesErrorNoneIff(services, i + 1);
    }
  }

  /** A list passes exactly when every service passes; in particular the
      empty list and services without ports pass. */
  lemma ValidateServicesNoneIff(services: seq<ServiceConfig>)
    ensures ValidateServices(services).None? <==> forall k :: 0 <= k < |services| ==> ServiceValid(services[k])
  {
    ServicesErrorNoneIff(services, 0);
  }

  /** The index, from j on, of the first port that raises an error. */
  lemma {:induction false} PortsErrorIsFirst(ports: seq<Port>, j: nat) returns (k: nat)
    requires PortsError(ports, j).Some?
    ensures j <= k < |ports| && !PortValid(ports[k])
    ensures forall m :: j <= m < k ==> PortValid(ports[m])
    ensures PortsError(ports, j) == PortError(ports[k])
    decreases |ports| - j
  {
    if PortError(ports[j]).Some? {
      k := j;
    } else {
      k := PortsErrorIsFirst(ports, j + 1);
    }
  }

  /** The index, from i on, of the first service that raises an error. */
  lemma {:induction false} ServicesErrorIsFirst(services: seq<ServiceConfig>, i: nat) returns (k: nat)
    requires ServicesError(services, i).Some?
    ensures i <= k < |services| && !ServiceValid(services[k])
    ensures forall m :: i <= m < k ==> ServiceValid(services[m])
    ensures ServicesError(services, i) == ServiceError(services[k])
    decreases |services| - i
  {
    ServiceErrorNoneIff(services[i]);
    if ServiceError(services[i]).Some? {
      k := i;
    } else {
      k := ServicesErrorIsFirst(services, i + 1);
    }
  }

  /** The message reported is the first violation in service-then-port
      order: every earlier service passes, and the offending service has
      either an empty name or a first failing port whose message it is. */
  lemma ValidateServicesFirstViolation(services: seq<ServiceConfig>) returns (k: nat)
    requires ValidateServices(services).Some?
    ensures k < |services| && forall m :: 0 <= m < k ==> ServiceValid(services[m])
    ensures services[k].name == "" ==> ValidateServices(services) == Some("service name cannot be empty")
    ensures services[k].name != "" ==>
              exists j :: && 0 <= j < |services[k].ports|
                          && (forall m :: 0 <= m < j ==> PortValid(services[k].ports[m]))
                          && ValidateServices(services) == PortError(services[k].ports[j])
  {
    k := ServicesErrorIsFirst(services, 0);
    if services[k].name != "" {
      var j := PortsErrorIsFirst(services[k].ports, 0);
      assert ValidateServices(services) == PortError(services[k].ports[j]);
    }
  }

  /** Out-of-range numbers are reported with their decimal value, so a bad
      service port and a bad target port give different messages. */
  lemma PortNumberMessages(p: Port)
    requires p.name != ""
    ensures !InPortRange(p.port) ==> PortError(p) == Some("invalid port number: " + IntToString(p.port))
    ensures InPortRange(p.port) && !InPortRange(p.targetPort) ==>
              PortError(p) == Some("invalid target port number: " + IntToString(p.targetPort))
    ensures InPortRange(p.port) && InPortRange(p.targetPort) && p.protocol == "tcp" ==>
              PortError(p) == Some("invalid protocol type: " + p.protocol)
  {
    assert "tcp"[0] != "TCP"[0] && "tcp"[0] != "UDP"[0];
  }

  /** The name ConvertToServiceNames gives a service: name, namespace and
      cluster joined by dots, without the "svc" label. */
  function QualifiedName(s: ServiceConfig): string {
    s.name + "." + s.namespace + "." + s.cluster
  }

  /** The names of a list of services, in list order. */
  function QualifiedNames(services: seq<ServiceConfig>): (r: seq<string>)
    ensures |r| == |services|
    ensures forall i :: 0 <= i < |services| ==> r[i] == QualifiedName(services[i])
  {
    if services == [] then []
    else QualifiedNames(services[..|services| - 1]) + [QualifiedName(services[|services| - 1])]
  }

  /** ConvertToServiceNames: one name per exported service, then one per
      imported service. */
  method ConvertToServiceNames(exported: seq<ServiceConfig>, imported: seq<ServiceConfig>) returns (names: seq<string>)
    ensures names == QualifiedNames(exported) + QualifiedNames(imported)
    ensures |names| == |exported| + |imported|
  {
    names := [];
    var i := 0;
    while i < |exported|
      invariant 0 <= i <= |exported|
      invariant names == QualifiedNames(exported[..i])
    {
      assert exported[..i + 1][..i] == exported[..i];
      names := names + [QualifiedName(exported[i])];
      i := i + 1;
    }
    assert exported[..i] == exported;
    var j := 0;
    while j < |imported|
      invariant 0 <= j <= |imported|
      invariant names == QualifiedNames(exported) + QualifiedNames(imported[..j])
    {
      assert imported[..j + 1][..j] == imported[..j];
      names := names + [QualifiedName(imported[j])];
      j := j + 1;
    }
    assert imported[..j] == imported;
  }

  predicate NoDot(s: string) {
    forall i :: 0 <= i < |s| ==> s[i] != '.'
  }

  /** In head + "." + rest with a dot-free head, the first dot follows the head. */
  lemma FirstDot(x: string, r: string)
    requires NoDot(x)
    ensures (x + "." + r)[|x|] == '.'
    ensures forall i :: 0 <= i < |x| ==> (x + "." + r)[i] != '.'
  {
  }

  /** A dot-free head is recovered from head + "." + rest. */
  lemma SplitAtDot(x: string, y: string, r1: string, r2: string)
    requires NoDot(x) && NoDot(y)
    requires x + "." + r1 == y + "." + r2
    ensures x == y && r1 == r2
  {
    var s := x + "." + r1;
    FirstDot(x, r1);
    FirstDot(y, r2);
    assert |x| == |y|;
    assert x == s[..|x|] && y == s[..|y|];
    assert r1 == s[|x| + 1..] && r2 == s[|y| + 1..];
  }

  /** Services whose name and namespace hold no dot get distinct names
      unless they agree on name, namespace and cluster. */
  lemma QualifiedNameInjective(s: ServiceConfig, t: ServiceConfig)
    requires NoDot(s.name) && NoDot(s.namespace) && NoDot(t.name) && NoDot(t.namespace)
    requires QualifiedName(s) == QualifiedName(t)
    ensures s.name == t.name && s.namespace == t.namespace && s.cluster == t.cluster
  {
    assert QualifiedName(s) == s.name + "." + (s.namespace + "." + s.cluster);
    assert QualifiedName(t) == t.name + "." + (t.namespace + "." + t.cluster);
    SplitAtDot(s.name, t.name, s.namespace + "." + s.cluster, t.namespace + "." + t.cluster);
    SplitAtDot(s.namespace, t.namespace, s.cluster, t.cluster);
  }

  /** With dots inside the fields the name is ambiguous: service "a.b" in
      namespace "c" and service "a" in namespace "b.c" share a name. */
  lemma QualifiedNameAmbiguous()
    ensures QualifiedName(ServiceConfig("a.b", "c", "x", [])) == QualifiedName(ServiceConfig("a", "b.c", "x", []))
  {
  }
}

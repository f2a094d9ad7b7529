/** The frpc process wrapper of internal/controller/client.go: validation of
    an endpoint's settings, the command line built for each endpoint type,
    and the start/stop state of the process handle. The process itself is
    not modelled: starting and killing it are outcomes the caller supplies. */
module FrpClient {
  import opened Results

  /** The EndpointType values of internal/controller/types.go. */
  const Imported := "imported"
  const Exported := "exported"
  const Relay := "relay"

  /** EndpointInfo of internal/controller/types.go; unset fields are "" as
      Go's zero value. The FRPClient pointer is kept beside the record by
      its owner (see StaticController.Controller). */
  datatype EndpointInfo = EndpointInfo(
    endpointType: string,
    frpServerListen: string,
    frpSecretKey: string,
    serviceName: string,
    servicePort: string,
    serviceProtocol: string,
    mappedIP: string,
    sourceServer: string,
    targetServer: string)

  /** The proxy name put on the command line: the given name, or the
      service name and mapped address joined by "-" when it is empty. */
  function EffectiveName(name: string, info: EndpointInfo): (r: string)
    ensures name != "" ==> r == name
    ensures name == "" ==> r == info.serviceName + "-" + info.mappedIP
  {
    if name == "" then info.serviceName + "-" + info.mappedIP else name
  }

  /** The settings NewFRPClient accepts: listen address, secret key and
      service port present, a known type, and the fields that type needs. */
  predicate Acceptable(info: EndpointInfo) {
    && info.frpServerListen != "" && info.frpSecretKey != "" && info.servicePort != ""
    && (|| (info.endpointType == Imported && info.mappedIP != "")
        || info.endpointType == Exported
        || (info.endpointType == Relay && info.sourceServer != "" && info.targetServer != ""))
  }

  /** NewFRPClient's validation and argument vector: the three common
      fields are checked first, in order, then the type and its fields. */
  function BuildArgs(name: string, info: EndpointInfo): (r: Result<seq<string>>)
    ensures r.Ok? <==> Acceptable(info)
    ensures r.Ok? ==> |r.value| >= 10 && |r.value| % 2 == 0 && r.value[0] == "stcp"
  {
    var n := EffectiveName(name, info);
    if info.frpServerListen == "" then Err("FrpServerListen is empty")
    else if info.frpSecretKey == "" then Err("FrpSecretKey is empty")
    else if info.servicePort == "" then Err("ServicePort is empty")
    else if info.endpointType == Imported then
      if info.mappedIP == "" then Err("MappedIP is empty")
      else Ok(["stcp", "visitor",
               "-n", n,
               "--server-name", n,
               "--sk", info.frpSecretKey,
               "--bind-addr", info.mappedIP,
               "--bind-port", info.servicePort,
               "--server-listen", info.frpServerListen])
    else if info.endpointType == Exported then
      Ok(["stcp", "server",
          "-n", n,
          "--sk", info.frpSecretKey,
          "--local-port", info.servicePort,
          "--server-listen", info.frpServerListen])
    else if info.endpointType == Relay then
      if info.sourceServer == "" then Err("SourceServer is empty")
      else if info.targetServer == "" then Err("TargetServer is empty")
      else Ok(["stcp", "relay",
               "-n", n,
               "--source-server", info.sourceServer,
               "--target-server", info.targetServer,
               "--sk", info.frpSecretKey,
               "--server-listen", info.frpServerListen])
    else Err("invalid endpoint type: " + info.endpointType)
  }

  /** How frpc reads its command line after the two mode words: flag and
      value pairs; the value of the first pair carrying flag. */
  function FlagValue(args: seq<string>, flag: string): Option<string> {
    FlagValueFrom(args, flag, 2)
  }

  function FlagValueFrom(args: seq<string>, flag: string, i: nat): (r: Option<string>)
    decreases |args| - i
  {
    if i + 1 >= |args| then None
    else if args[i] == flag then Some(args[i + 1])
    else FlagValueFrom(args, flag, i + 2)
  }

  /** The pair at position i is found when no earlier pair carries the flag. */
  lemma {:induction false} FlagAt(args: seq<string>, flag: string, k: nat, i: nat)
    requires 2 <= k <= i && (i - k) % 2 == 0 && i + 1 < |args| && args[i] == flag
    requires forall j :: k <= j < i && (j - k) % 2 == 0 ==> args[j] != flag
    ensures FlagValueFrom(args, flag, k) == Some(args[i + 1])
    decreases i - k
  {
    if k < i {
      FlagAt(args, flag, k + 2, i);
    }
  }

  /** No pair carries the flag. */
  lemma {:induction false} FlagAbsent(args: seq<string>, flag: string, k: nat)
    requires k >= 2
    requires forall j :: k <= j < |args| && (j - k) % 2 == 0 ==> args[j] != flag
    ensures FlagValueFrom(args, flag, k) == None
    decreases |args| - k
  {
    if k + 1 < |args| {
      FlagAbsent(args, flag, k + 2);
    }
  }

  /** Every accepted endpoint's command line names the proxy: the given name,
      or, when it is empty, the service name and mapped address joined by
      "-". */
  lemma ProxyNameFlag(name: string, info: EndpointInfo)
    requires Acceptable(info)
    ensures name != "" ==> FlagValue(BuildArgs(name, info).value, "-n") == Some(name)
    ensures name == "" ==> FlagValue(BuildArgs(name, info).value, "-n") == Some(info.serviceName + "-" + info.mappedIP)
  {
    FlagAt(BuildArgs(name, info).value, "-n", 2, 2);
  }

  /** A visitor command line names the proxy, asks for the server proxy of
      the same name, and carries the secret. */
  lemma ImportedArgs(name: string, info: EndpointInfo)
    requires Acceptable(info) && info.endpointType == Imported
    ensures var args := BuildArgs(name, info).value;
            && |args| == 14 && args[1] == "visitor"
            && FlagValue(args, "-n") == Some(EffectiveName(name, info))
            && FlagValue(args, "--server-name") == Some(EffectiveName(name, info))
            && FlagValue(args, "--sk") == Some(info.frpSecretKey)
  {
    var args := BuildArgs(name, info).value;
    FlagAt(args, "-n", 2, 2);
    FlagAt(args, "--server-name", 2, 4);
    FlagAt(args, "--sk", 2, 6);
  }

  /** ... and binds the mapped address and the service port locally,
      reaching frps at the listen address. */
  lemma ImportedBinding(name: string, info: EndpointInfo)
    requires Acceptable(info) && info.endpointType == Imported
    ensures var args := BuildArgs(name, info).value;
            && FlagValue(args, "--bind-addr") == Some(info.mappedIP)
            && FlagValue(args, "--bind-port") == Some(info.servicePort)
            && FlagValue(args, "--server-listen") == Some(info.frpServerListen)
  {
    var args := BuildArgs(name, info).value;
    FlagAt(args, "--bind-addr", 2, 8);
    FlagAt(args, "--bind-port", 2, 10);
    FlagAt(args, "--server-listen", 2, 12);
  }

  /** A server command line carries the proxy name, the secret, the local
      port and the listen address, and no mapped address. */
  lemma ExportedArgs(name: string, info: EndpointInfo)
    requires Acceptable(info) && info.endpointType == Exported
    ensures var args := BuildArgs(name, info).value;
            && |args| == 10 && args[1] == "server"
            && FlagValue(args, "-n") == Some(EffectiveName(name, info))
            && FlagValue(args, "--sk") == Some(info.frpSecretKey)
            && FlagValue(args, "--local-port") == Some(info.servicePort)
            && FlagValue(args, "--server-listen") == Some(info.frpServerListen)
            && FlagValue(args, "--bind-addr") == None
  {
    var args := BuildArgs(name, info).value;
    FlagAt(args, "-n", 2, 2);
    FlagAt(args, "--sk", 2, 4);
    FlagAt(args, "--local-port", 2, 6);
    FlagAt(args, "--server-listen", 2, 8);
    FlagAbsent(args, "--bind-addr", 2);
  }

  /** A relay command line carries the proxy name, both servers, the secret
      and the listen address. */
  lemma RelayArgs(name: string, info: EndpointInfo)
    requires Acceptable(info) && info.endpointType == Relay
    ensures var args := BuildArgs(name, info).value;
            && |args| == 12 && args[1] == "relay"
            && FlagValue(args, "-n") == Some(EffectiveName(name, info))
            && FlagValue(args, "--source-server") == Some(info.sourceServer)
            && FlagValue(args, "--target-server") == Some(info.targetServer)
            && FlagValue(args, "--sk") == Some(info.frpSecretKey)
            && FlagValue(args, "--server-listen") == Some(info.frpServerListen)
  {
    var args := BuildArgs(name, info).value;
    FlagAt(args, "-n", 2, 2);
    FlagAt(args, "--source-server", 2, 4);
    FlagAt(args, "--target-server", 2, 6);
    FlagAt(args, "--sk", 2, 8);
    FlagAt(args, "--server-listen", 2, 10);
  }

  /** The common fields are checked before the type is looked at: a
      missing listen address is reported even for an unknown type. */
  lemma CommonChecksFirst(name: string, info: EndpointInfo)
    ensures info.frpServerListen == "" ==> BuildArgs(name, info) == Err("FrpServerListen is empty")
    ensures info.frpServerListen != "" && info.frpSecretKey == "" ==> BuildArgs(name, info) == Err("FrpSecretKey is empty")
    ensures info.frpServerListen != "" && info.frpSecretKey != "" && info.servicePort == "" ==>
              BuildArgs(name, info) == Err("ServicePort is empty")
  {
  }

  /** FRPClient: the name it was given, its argument vector, and the
      process handle once started. */
  class Client {
    const name: string
    const args: seq<string>
    var cmd: Option<nat>

    constructor(name: string, args: seq<string>)
      ensures this.name == name && this.args == args && cmd == None
    {
      this.name := name;
      this.args := args;
      cmd := None;
    }

    /** Start: spawn is the outcome of launching frpc with the arguments,
        a process id or the launcher's error. The handle is recorded only
        on success. */
    method Start(spawn: Result<nat>) returns (err: Option<string>)
      modifies this
      ensures spawn.Ok? ==> cmd == Some(spawn.value) && err == None
      ensures spawn.Err? ==> cmd == old(cmd) && err == Some("failed to start FRP client " + name + ": " + spawn.error)
    {
      if spawn.Err? {
        return Some("failed to start FRP client " + name + ": " + spawn.error);
      }
      cmd := Some(spawn.value);
      return None;
    }

    /** Stop: kill is the outcome of killing the process. A client that was
        never started returns no error and does nothing. */
    method Stop(kill: Option<string>) returns (err: Option<string>)
      ensures cmd.None? ==> err == None
      ensures cmd.Some? ==> err == kill
    {
      if cmd.Some? {
        return kill;
      }
      return None;
    }
  }

  /** NewFRPClient: the client keeps the name as given, even when it is
      empty, and starts without a process. */
  method NewFRPClient(name: string, info: EndpointInfo) returns (r: Result<Client>)
    ensures BuildArgs(name, info).Err? ==> r == Err(BuildArgs(name, info).error)
    ensures BuildArgs(name, info).Ok? ==>
              && r.Ok? && fresh(r.value) && r.value.name == name
              && r.value.args == BuildArgs(name, info).value && r.value.cmd == None
  {
    var built := BuildArgs(name, info);
    if built.Err? {
      return Err(built.error);
    }
    var c := new Client(name, built.value);
    return Ok(c);
  }
}

// The selection rules of `Plugin` and `ActivePlugin` (naghelp/plugin.py):
// which host parameters a plugin describes and requires, which ports it
// uses, its logger level and how a plugin name is resolved.  The required
// field check ends the plugin with a fast CRITICAL response.
module Plugin {
  import opened Results
  import opened Text
  import opened Response
  import opened ResponseOutput
  import opened ResponseObject
  import opened HostData

  // ---------------------------------------------------------------- parameter lists

  /** `cmd_params`, `forced_params` or `required_params`: a comma-separated
      text or a list. */
  datatype ParamList = Text(text: string) | Names(names: seq<string>)

  /** The names of a list, a text split at commas. */
  function NamesOf(p: ParamList): seq<string>
  {
    match p
    case Text(s) => Split(s, ',')
    case Names(l) => l
  }

  predicate IsLetter(c: char) { 'a' <= c <= 'z' || 'A' <= c <= 'Z' }

  function UpperChar(c: char): char
  {
    if 'a' <= c <= 'z' then (c as int - 32) as char else c
  }

  /** One character of `str.title()`: a letter after a letter in lower
      case, another letter in upper case, anything else as it is. */
  function TitleChar(c: char, afterLetter: bool): (r: char)
    ensures IsLetter(r) == IsLetter(c)
  {
    if !IsLetter(c) then c else if afterLetter then LowerChar(c) else UpperChar(c)
  }

  /** `str.title()` on the rest of a text, `afterLetter` telling whether
      the character before it is a letter. */
  function TitleFrom(s: string, afterLetter: bool): (r: string)
    ensures |r| == |s|
    ensures forall k :: 0 <= k < |s| ==>
              r[k] == TitleChar(s[k], if k == 0 then afterLetter else IsLetter(s[k - 1]))
  {
    if s == [] then ""
    else
      var rest := TitleFrom(s[1..], IsLetter(s[0]));
      assert forall k :: 1 <= k < |s| ==> s[1..][k - 1] == s[k];
      [TitleChar(s[0], afterLetter)] + rest
  }

  /** `k.title()`: the first letter of each run of letters in upper case,
      the others in lower case. */
  function Title(s: string): (r: string)
    ensures |r| == |s|
    ensures forall k :: 0 <= k < |s| ==> r[k] == TitleChar(s[k], k > 0 && IsLetter(s[k - 1]))
  {
    TitleFrom(s, false)
  }

  lemma TitleCharIdempotent(c: char, afterLetter: bool)
    ensures TitleChar(TitleChar(c, afterLetter), afterLetter) == TitleChar(c, afterLetter)
  {
  }

  /** A title stays as it is. */
  lemma TitleIdempotent(s: string)
    ensures Title(Title(s)) == Title(s)
  {
    var t := Title(s);
    forall k | 0 <= k < |s|
      ensures Title(t)[k] == t[k]
    {
      if k > 0 {
        assert t[k - 1] == TitleChar(s[k - 1], k - 1 > 0 && IsLetter(s[k - 2]));
      }
      TitleCharIdempotent(s[k], k > 0 && IsLetter(s[k - 1]));
    }
  }

  /** `get_plugin_host_params_desc()` with the description table given: one
      entry per non-empty name of `cmd_params` or `forced_params`, described
      by the table, else by the name's title. */
  function ParamsDesc(table: map<string, string>, cmd: ParamList, forced: ParamList): (r: map<string, string>)
    ensures forall k :: k in r <==> k != "" && (k in NamesOf(cmd) || k in NamesOf(forced))
    ensures forall k :: k in r && k in table ==> r[k] == table[k]
    ensures forall k :: k in r && k !in table ==> r[k] == Title(k)
  {
    var keys := (set k | k in NamesOf(cmd)) + (set k | k in NamesOf(forced));
    map k | k in keys && k != "" :: if k in table then table[k] else Title(k)
  }

  /** Names outside the table are described by their title, and the empty
      name is left out. */
  lemma ParamsDescExample()
    ensures ParamsDesc(map["ip" := "Host IP address"], Names(["ip", "port", ""]), Names(["ip"]))
            == map["ip" := "Host IP address", "port" := "Port"]
  {
    var r := ParamsDesc(map["ip" := "Host IP address"], Names(["ip", "port", ""]), Names(["ip"]));
    TitlePort();
    assert "ip" != "port";
    assert "ip" in NamesOf(Names(["ip", "port", ""])) && "port" in NamesOf(Names(["ip", "port", ""]));
    assert r.Keys == {"ip", "port"};
  }

  lemma TitlePort()
    ensures Title("port") == "Port"
  {
    var p := "port";
    forall k | 0 <= k < |p|
      ensures Title(p)[k] == "Port"[k]
    {
      assert Title(p)[k] == TitleChar(p[k], k > 0 && IsLetter(p[k - 1]));
    }
  }

  /** `get_plugin_host_params_tab()`: the descriptions of the usual host
      parameters. */
  const HostParamsTab: map<string, string> := map[
    "name" := "Hostname",
    "ip" := "Host IP address",
    "subtype" := "Plugin subtype (usually host model)",
    "user" := "User",
    "passwd" := "Password",
    "console_ip" := "Console or controller IP address",
    "snmpversion" := "SNMP protocal version (1,2 or 3)",
    "community" := "SNMP community",
    "community_alt" := "SNMP community for other device",
    "authpp" := "SNMP authentification passphrase",
    "authproto" := "SNMP authentification protocal (md5 or sha)",
    "privpp" := "SNMP privacy passphrase",
    "privproto" := "SNMP privacy protocal (des or aes)",
    "protocol" := "ssh or telnet",
    "port" := "Port number",
    "collect_cmd_timeout" := "Maximum time allowed for one collect command",
    "collect_all_timeout" := "Maximum time allowed for the whole collect process",
    "maxwarn" := "Gauge max value for a warning status",
    "maxcrit" := "Gauge max value for a critical status",
    "minwarn" := "Gauge min value for a warning status",
    "mincrit" := "Gauge min value for a critical status",
    "options" := "Additionnal options"
  ]

  /** The class attributes' defaults: no command parameter, and the
      parameters every plugin accepts. */
  const DefaultCmdParams := Text("")
  const DefaultForcedParams := Text("name,ip,collect_cmd_timeout,collect_all_timeout")

  // ---------------------------------------------------------------- required fields

  /** The list without its repeated names, in order of first occurrence. */
  function Dedup(l: seq<string>): (r: seq<string>)
    ensures forall f :: f in r <==> f in l
    ensures forall i, j :: 0 <= i < j < |r| ==> r[i] != r[j]
  {
    if l == [] then []
    else
      var rest := Dedup(l[..|l| - 1]);
      if l[|l| - 1] in rest then rest else rest + [l[|l| - 1]]
  }

  /** The fields `check_host_required_fields` checks: `required_params`, or
      `cmd_params` when it is `None`, with `ip` added when `name` is not
      there (the source then makes a set, whose order is not modelled). */
  function RequiredFields(required: Option<ParamList>, cmd: ParamList): (r: seq<string>)
    ensures var given := NamesOf(if required.Some? then required.value else cmd);
            var listed := if (if required.Some? then required.value else cmd) == Text("") then [] else given;
            forall f :: f in r <==> f in listed || (f == "ip" && "name" !in listed)
    ensures "name" in r || "ip" in r
  {
    var req := if required.Some? then required.value else cmd;
    var l := if req == Text("") then [] else NamesOf(req);
    if "name" in l then l else Dedup(l + ["ip"])
  }

  /** A plugin that declares no parameter requires the host's `ip`. */
  lemma DefaultRequiresIp()
    ensures RequiredFields(None, DefaultCmdParams) == ["ip"]
  {
    assert Dedup([] + ["ip"]) == ["ip"] by {
      assert ([] + ["ip"])[..0] == [];
    }
  }

  /** The first field with no true value on the host. */
  function FirstMissing(fields: seq<string>, items: map<string, Value>): (r: Option<string>)
    ensures r.None? <==> forall i :: 0 <= i < |fields| ==> Truthy(DictGetOr(items, fields[i]))
    ensures r.Some? ==> exists i :: 0 <= i < |fields| && fields[i] == r.value && !Truthy(DictGetOr(items, r.value))
                                    && forall j :: 0 <= j < i ==> Truthy(DictGetOr(items, fields[j]))
  {
    if fields == [] then None
    else if !Truthy(DictGetOr(items, fields[0])) then Some(fields[0])
    else
      var r := FirstMissing(fields[1..], items);
      assert forall i :: 1 <= i < |fields| ==> fields[1..][i - 1] == fields[i];
      assert r.Some? ==> exists i :: 0 <= i < |fields| && fields[i] == r.value && !Truthy(DictGetOr(items, r.value))
                                     && forall j :: 0 <= j < i ==> Truthy(DictGetOr(items, fields[j])) by {
        if r.Some? {
          var i :| 0 <= i < |fields[1..]| && fields[1..][i] == r.value && !Truthy(DictGetOr(items, r.value))
                   && forall j :: 0 <= j < i ==> Truthy(DictGetOr(items, fields[1..][j]));
          assert fields[i + 1] == r.value;
        }
      }
      r
  }

  /** `host.get(f)`: `NoAttr` when missing. */
  function DictGetOr(items: map<string, Value>, f: string): Value
  {
    if f in items then items[f] else NoAttr
  }

  function MissingText(f: string): string { "Missing \"" + f + "\" parameter" }

  function RequiredText(fields: seq<string>): string { "Required fields are : " + Join(fields, ",") }

  /** The response after the field settings of `fast_response(level,
      synopsis, msg, sublevel)`, whose plugin information text is `info`. */
  function FastOn(s: Snapshot, level: Level, synopsis: string, msg: string, sublevel: int, info: string): Snapshot
  {
    EndOn(BeginOn(SynopsisOn(s.(level := Some(level), sublevel := sublevel), synopsis), msg), info)
  }

  /** A fast response goes out with the level it was given. */
  lemma FastResponseExit(s: Snapshot, level: Level, synopsis: string, msg: string, sublevel: int, info: string)
    requires synopsis != ""
    ensures var f := FastOn(s, level, synopsis, msg, sublevel, info);
            && SendOutput(f, NotALevel, "", "", None, false).Ok?
            && SendOutput(f, NotALevel, "", "", None, false).value.1 == ExitCode(level)
            && SendOn(f, NotALevel, "", "", None).0.sublevel == sublevel
  {
    var f := FastOn(s, level, synopsis, msg, sublevel, info);
    var f1 := SendOn(f, NotALevel, "", "", None).0;
    assert f1 == f;
    OutputFails(f1, None);
    assert Synopsis(f1) == synopsis;
    SendExitCode(f, NotALevel, "", "", None, false);
    assert SentLevel(f) == level;
  }

  // ---------------------------------------------------------------- ports

  /** `tcp_ports` or `udp_ports`: a comma-separated text or a list. */
  datatype Ports = PortText(text: string) | PortList(ports: seq<Value>)

  predicate PortsEmpty(p: Ports)
  {
    (p.PortText? && p.text == "") || (p.PortList? && p.ports == [])
  }

  /** `get_udp_ports()`: the host's port when it has one and no tcp port is
      declared, else `udp_ports`. */
  function UdpPorts(port: Value, tcp: Ports, udp: Ports): (r: Ports)
    ensures Truthy(port) && PortsEmpty(tcp) ==> r == PortList([port])
    ensures !(Truthy(port) && PortsEmpty(tcp)) ==> r == udp
  {
    if Truthy(port) && PortsEmpty(tcp) then PortList([port]) else udp
  }

  /** `name in cmd_params`: a substring test on a text, a membership test on
      a list. */
  predicate Mentions(cmd: ParamList, name: string)
  {
    match cmd
    case Text(s) => Contains(s, name)
    case Names(l) => name in l
  }

  const ServiceNotFound := "service/proto not found"

  /** `get_tcp_ports()`, with `socket.getservbyname` given as the table
      `services`: the host's port when it has one and no udp port is
      declared, else the service port of the host's protocol when
      `protocol` is a command parameter, else `tcp_ports`. */
  function TcpPorts(port: Value, protocol: Value, cmd: ParamList, services: map<string, int>, tcp: Ports,
                    udp: Ports): (r: Result<Ports, string>)
    ensures Truthy(port) && PortsEmpty(udp) ==> r == Ok(PortList([port]))
    ensures !(Truthy(port) && PortsEmpty(udp)) && Truthy(protocol) && Mentions(cmd, "protocol") ==>
              (r.Ok? <==> ValueText(protocol) in services)
              && (r.Ok? ==> r.value == PortList([Int(services[ValueText(protocol)])]))
    ensures !(Truthy(port) && PortsEmpty(udp)) && !(Truthy(protocol) && Mentions(cmd, "protocol")) ==>
              r == Ok(tcp)
    ensures r.Err? ==> r.error == ServiceNotFound
  {
    if Truthy(port) && PortsEmpty(udp) then Ok(PortList([port]))
    else if Truthy(protocol) && Mentions(cmd, "protocol") then
      var name := ValueText(protocol);
      if name in services then Ok(PortList([Int(services[name])])) else Err(ServiceNotFound)
    else Ok(tcp)
  }

  /** With a port on the host, exactly one of the two protocols uses it
      when a single one declares no port. */
  lemma PortGoesToOneProtocol(port: Value, protocol: Value, cmd: ParamList, services: map<string, int>,
                              tcp: Ports, udp: Ports)
    requires Truthy(port) && PortsEmpty(tcp) != PortsEmpty(udp)
    ensures (UdpPorts(port, tcp, udp) == PortList([port])) == PortsEmpty(tcp)
    ensures (TcpPorts(port, protocol, cmd, services, tcp, udp) == Ok(PortList([port]))) ==
            (PortsEmpty(udp) || (!(Truthy(protocol) && Mentions(cmd, "protocol")) && tcp == PortList([port]))
             || (Truthy(protocol) && Mentions(cmd, "protocol") && ValueText(protocol) in services
                 && PortList([Int(services[ValueText(protocol)])]) == PortList([port])))
  {
  }

  /** `'protocol' in 'user,protocol'` holds on a text. */
  lemma MentionsText()
    ensures Mentions(Text("user,protocol"), "protocol")
  {
    assert OccursAt("user,protocol", "protocol", 5);
  }

  // ---------------------------------------------------------------- logger and names

  const DEBUG := 10
  const INFO := 20
  const ERROR := 40

  /** `get_logger_level()`: DEBUG with `-d`, else INFO with `-v`, else ERROR. */
  function LoggerLevel(debug: bool, verbose: bool): (r: int)
    ensures r == DEBUG <==> debug
    ensures r == INFO <==> !debug && verbose
    ensures r == ERROR <==> !debug && !verbose
  {
    if debug then DEBUG else if verbose then INFO else ERROR
  }

  /** How `get_plugin_class` looks a plugin up: by its lower-cased name, or
      by module and class for a dotted name. */
  datatype PluginRef = ByName(name: string) | Dotted(moduleName: string, className: string)

  /** The index of the last `.` of `s`, or `|s|` when there is none. */
  function LastDot(s: string): (i: nat)
    ensures i <= |s|
    ensures i < |s| ==> s[i] == '.' && '.' !in s[i + 1..]
    ensures i == |s| ==> '.' !in s
  {
    if s == [] then 0
    else if s[|s| - 1] == '.' then |s| - 1
    else
      var j := LastDot(s[..|s| - 1]);
      if j == |s| - 1 then
        assert s == s[..|s| - 1] + [s[|s| - 1]];
        |s|
      else
        assert s[j + 1..] == s[..|s| - 1][j + 1..] + [s[|s| - 1]];
        j
  }

  /** `plugin_name.rsplit('.', 1)`, then `get_plugin`'s lower-casing for an
      undotted name. */
  function ResolveName(name: string): (r: PluginRef)
    ensures '.' !in name ==> r == ByName(Lower(name))
    ensures '.' in name ==> r.Dotted? && name == r.moduleName + "." + r.className && '.' !in r.className
  {
    var i := LastDot(name);
    if i == |name| then ByName(Lower(name))
    else
      assert name == name[..i] + "." + name[i + 1..];
      Dotted(name[..i], name[i + 1..])
  }

  // ---------------------------------------------------------------- the plugin

  /** The parts of an `ActivePlugin` the checks use: its response, its host
      and its class attributes. */
  class ActivePlugin {
    const response: PluginResponse
    const host: Host
    const cmdParams: ParamList
    const requiredParams: Option<ParamList>

    constructor(response: PluginResponse, host: Host, cmdParams: ParamList, requiredParams: Option<ParamList>)
      ensures this.response == response && this.host == host
      ensures this.cmdParams == cmdParams && this.requiredParams == requiredParams
    {
      this.response := response;
      this.host := host;
      this.cmdParams := cmdParams;
      this.requiredParams := requiredParams;
    }

    /** `fast_response(level, synopsis, msg, sublevel)` up to the text sent
      and the exit code; `info` is `get_plugin_informations()`. */
    method FastResponse(level: Level, synopsis: string, msg: string, sublevel: int, info: string)
      returns (sent: Result<(string, nat), string>)
      modifies response
      ensures response.State() == SendOn(FastOn(old(response.State()), level, synopsis, msg, sublevel, info),
                                         NotALevel, "", "", None).0
      ensures sent == SendOutput(FastOn(old(response.State()), level, synopsis, msg, sublevel, info),
                                 NotALevel, "", "", None, false)
    {
      response.level := Some(level);
      response.sublevel := sublevel;
      response.SetSynopsis(synopsis);
      response.AddBegin(msg);
      response.AddEnd(info);
      sent := response.Send(NotALevel, "", "", None, false);
    }

    /** `check_host_required_fields()`: a fast CRITICAL response with
      sublevel 3 naming the first required field with no true value, or
      nothing when every field has one. */
    method CheckHostRequiredFields(info: string) returns (sent: Option<Result<(string, nat), string>>)
      modifies response
      ensures var fields := RequiredFields(requiredParams, cmdParams);
              var missing := FirstMissing(fields, host.items);
              && (sent.None? <==> missing.None?)
              && (missing.None? ==> response.State() == old(response.State()))
              && (missing.Some? ==>
                    var f := FastOn(old(response.State()), CRITICAL, MissingText(missing.value), RequiredText(fields), 3, info);
                    response.State() == SendOn(f, NotALevel, "", "", None).0
                    && sent == Some(SendOutput(f, NotALevel, "", "", None, false)))
    {
      var fields := RequiredFields(requiredParams, cmdParams);
      var missing := MissingField(fields);
      if missing.None? {
        return None;
      }
      var r := FastResponse(CRITICAL, MissingText(missing.value), RequiredText(fields), 3, info);
      sent := Some(r);
    }

    /** The loop of `check_host_required_fields`: the first field whose
        value on the host is not true. */
    method MissingField(fields: seq<string>) returns (missing: Option<string>)
      ensures missing == FirstMissing(fields, host.items)
    {
      var i := 0;
      while i < |fields|
        invariant 0 <= i <= |fields|
        invariant forall j :: 0 <= j < i ==> Truthy(DictGetOr(host.items, fields[j]))
      {
        if !Truthy(host.Get(fields[i], NoAttr)) {
          FirstMissingAt(fields, host.items, i);
          return Some(fields[i]);
        }
        i := i + 1;
      }
      missing := None;
    }
  }

  /** The first field with no true value is the one the loop stops at. */
  lemma {:induction false} FirstMissingAt(fields: seq<string>, items: map<string, Value>, i: nat)
    requires i < |fields| && !Truthy(DictGetOr(items, fields[i]))
    requires forall j :: 0 <= j < i ==> Truthy(DictGetOr(items, fields[j]))
    decreases i
    ensures FirstMissing(fields, items) == Some(fields[i])
  {
    if i > 0 {
      assert forall j :: 0 <= j < i - 1 ==> fields[1..][j] == fields[j + 1];
      FirstMissingAt(fields[1..], items, i - 1);
    }
  }

  /** A failed required-field check ends the plugin with the CRITICAL exit
      code and sublevel 3. */
  lemma RequiredFieldsExit(s: Snapshot, fields: seq<string>, f: string, info: string)
    ensures var fs := FastOn(s, CRITICAL, MissingText(f), RequiredText(fields), 3, info);
            && SendOutput(fs, NotALevel, "", "", None, false).Ok?
            && SendOutput(fs, NotALevel, "", "", None, false).value.1 == 2
            && SendOn(fs, NotALevel, "", "", None).0.sublevel == 3
  {
    FastResponseExit(s, CRITICAL, MissingText(f), RequiredText(fields), 3, info);
  }
}

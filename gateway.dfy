/**
  The outbound side: how `send_iota_command` puts together the request that
  asks the IoT Agent to deliver a command to a device. The HTTP call itself
  is a parameter (`post`), whose boolean answer says whether the agent
  accepted the command.
 */
module Gateway {
  import opened Wrappers
  import opened Json
  import Text

  /** Address of the IoT Agent's administration/command interface. */
  const IotaHost: string := "iot-agent"
  const IotaAdminPort: nat := 4041
  /** API key the device was provisioned with. */
  const ApiKey: string := "YOUR_API_KEY"
  /** Tenant headers. */
  const FiwareService: string := "openiot"
  const FiwareServicePath: string := "/"

  /** A command for one device: `{name: value}` sent to `device`. */
  datatype Command = Command(device: string, name: string, value: string)

  /** Everything `requests.post` is given, apart from the timeout. */
  datatype Request = Request(
    url: string,
    headers: map<string, string>,
    params: map<string, string>,
    payload: Value)

  /** What a command URL addresses. */
  datatype Target = Target(host: string, port: nat, device: string, command: string)

  /** The f-string that names the command endpoint of one device. */
  function CommandUrl(host: string, port: nat, device: string, command: string): string
  {
    "http://" + host + ":" + Text.Decimal(port) + "/iot/devices/" + device + "/commands/" + command
  }

  /** Reads host, port, device and command back out of a command URL. */
  function ParseCommandUrl(url: string): Option<Target>
  {
    var parts := Text.Split(url, '/');
    if |parts| == 8 && parts[0] == "http:" && parts[1] == ""
       && parts[3] == "iot" && parts[4] == "devices" && parts[6] == "commands"
    then
      match Text.Cut(parts[2], ':')
      case Some((host, port)) =>
        if port != [] && Text.AllDigits(port) && (|port| == 1 || port[0] != '0')
        then Some(Target(host, Text.ValueOf(port), parts[5], parts[7]))
        else None
      case None => None
    else None
  }

  /** The slash-separated pieces of a command URL. */
  function UrlPieces(host: string, port: nat, device: string, command: string): seq<string>
  {
    ["http:", "", host + ":" + Text.Decimal(port), "iot", "devices", device, "commands", command]
  }

  /** Regrouping the joined pieces around the URL's fixed parts. */
  lemma Regroup(p0: string, p1: string, p2: string, p3: string, p4: string,
                p5: string, p6: string, p7: string, sep: char)
    ensures p0 + [sep] + p1 + [sep] + p2 + [sep] + p3 + [sep] + p4 + [sep] + p5 + [sep] + p6 + [sep] + p7
         == (p0 + [sep] + p1 + [sep]) + p2 + ([sep] + p3 + [sep] + p4 + [sep]) + p5 + ([sep] + p6 + [sep]) + p7
  {
  }

  lemma FixedParts()
    ensures "http:" + ['/'] + "" + ['/'] == "http://"
    ensures ['/'] + "iot" + ['/'] + "devices" + ['/'] == "/iot/devices/"
    ensures ['/'] + "commands" + ['/'] == "/commands/"
  {
  }

  /** The URL's pieces for any spelling of the port. */
  lemma UrlJoin(host: string, digits: string, device: string, command: string)
    ensures "http://" + host + ":" + digits + "/iot/devices/" + device + "/commands/" + command
         == Text.Join(["http:", "", host + ":" + digits, "iot", "devices", device, "commands", command], '/')
  {
    var authority := host + ":" + digits;
    var p := ["http:", "", authority, "iot", "devices", device, "commands", command];
    Text.JoinEight(p, '/');
    Regroup("http:", "", authority, "iot", "devices", device, "commands", command, '/');
    FixedParts();
    assert "http://" + host + ":" + digits == "http://" + authority;
  }

  lemma CommandUrlPieces(host: string, port: nat, device: string, command: string)
    ensures CommandUrl(host, port, device, command) == Text.Join(UrlPieces(host, port, device, command), '/')
  {
    UrlJoin(host, Text.Decimal(port), device, command);
  }

  /** The command URL names exactly the host, port, device and command it was
      built from, provided the pieces cannot be confused with the URL's own
      separators. */
  lemma {:induction false} ParseCommandUrlRoundTrip(host: string, port: nat, device: string, command: string)
    requires ':' !in host && '/' !in host && '/' !in device && '/' !in command
    ensures ParseCommandUrl(CommandUrl(host, port, device, command)) == Some(Target(host, port, device, command))
  {
    var digits := Text.Decimal(port);
    var parts := UrlPieces(host, port, device, command);
    assert '/' !in digits && ':' !in digits by {
      assert forall i :: 0 <= i < |digits| ==> Text.IsDigit(digits[i]);
    }
    assert '/' !in parts[2];
    CommandUrlPieces(host, port, device, command);
    Text.SplitJoin(parts, '/');
    Text.CutAt(host, digits, ':');
    Text.ValueOfDecimal(port);
  }

  /** Conversely, every URL the parser accepts is the command URL of what it
      reads: a parsed URL has exactly one spelling. */
  lemma {:induction false} ParseCommandUrlExact(url: string)
    ensures ParseCommandUrl(url).Some? ==>
      var t := ParseCommandUrl(url).value;
      url == CommandUrl(t.host, t.port, t.device, t.command)
  {
    if ParseCommandUrl(url).Some? {
      var t := ParseCommandUrl(url).value;
      var parts := Text.Split(url, '/');
      var (host, digits) := Text.Cut(parts[2], ':').value;
      Text.DecimalOfValue(digits);
      assert parts == UrlPieces(t.host, t.port, t.device, t.command);
      Text.JoinSplit(url, '/');
      CommandUrlPieces(t.host, t.port, t.device, t.command);
    }
  }

  /** The headers of a command request: JSON content and the two tenant
      headers. */
  function CommandHeaders(): (headers: map<string, string>)
    ensures headers.Keys == {"Content-Type", "fiware-service", "fiware-servicepath"}
    ensures headers["Content-Type"] == "application/json"
    ensures headers["fiware-service"] == FiwareService
    ensures headers["fiware-servicepath"] == FiwareServicePath
  {
    map["Content-Type" := "application/json",
        "fiware-service" := FiwareService,
        "fiware-servicepath" := FiwareServicePath]
  }

  /** The query parameters of a command request: the API key and the device. */
  function CommandParams(device: string): (params: map<string, string>)
    ensures params.Keys == {"k", "i"} && params["k"] == ApiKey && params["i"] == device
  {
    map["k" := ApiKey, "i" := device]
  }

  /** The body of a command request: the one-entry object `{name: value}`. */
  function CommandPayload(name: string, value: string): (payload: Value)
    ensures payload.Obj? && payload.fields.Keys == {name} && payload.fields[name] == Str(value)
  {
    Obj(map[name := Str(value)])
  }

  /** The request `send_iota_command(device_id, command_name, command_value)`
      hands to the HTTP client. */
  function BuildRequest(c: Command): (r: Request)
    ensures '/' !in c.device && '/' !in c.name ==>
      ParseCommandUrl(r.url) == Some(Target(IotaHost, IotaAdminPort, c.device, c.name))
    ensures r.headers == CommandHeaders()
    ensures r.params == CommandParams(c.device)
    ensures r.payload == CommandPayload(c.name, c.value)
  {
    var url := CommandUrl(IotaHost, IotaAdminPort, c.device, c.name);
    assert '/' !in c.device && '/' !in c.name ==>
      ParseCommandUrl(url) == Some(Target(IotaHost, IotaAdminPort, c.device, c.name)) by {
      if '/' !in c.device && '/' !in c.name {
        ParseCommandUrlRoundTrip(IotaHost, IotaAdminPort, c.device, c.name);
      }
    }
    Request(url, CommandHeaders(), CommandParams(c.device), CommandPayload(c.name, c.value))
  }

  /** `send_iota_command`: one POST of the built request; true when the agent
      answered with a success status, false on any transport or status
      failure. */
  function Send(post: Request -> bool, c: Command): (accepted: bool)
    ensures accepted == post(BuildRequest(c))
  {
    post(BuildRequest(c))
  }
}

/**
  The tool handlers of internal/mcp/mcp.go: how the arguments of the
  generate_ca, generate_server_certificate and generate_client_certificate
  calls become certificate configurations, how the comma-separated DNS
  name and IP address arguments are split and trimmed, and how an issuance
  error is wrapped.
 */
module Mcp {
  import opened Results
  import opened GoStrings
  import opened X509
  import opened Certificate

  // ---------------------------------------------------------------------
  // Arguments
  // ---------------------------------------------------------------------

  /** A tool-call argument as the handlers read it: a string, an integer
      placed by a Go caller, a JSON number (decoded as a float64), or a
      value of some other kind. */
  datatype ArgValue = Text(text: string) | Integer(n: Int64) | Number(x: real) | OtherValue

  type Arguments = map<string, ArgValue>

  /** `req.GetString(key, default)`: the string argument, else `default`. */
  function GetString(args: Arguments, key: string, default: string): (value: string) {
    if key in args && args[key].Text? then args[key].text else default
  }

  /** `req.GetInt(key, default)` of mcp-go: an integer as it is, a number
      truncated toward zero, a string that `strconv.Atoi` accepts as its
      value; a missing argument, any other string and any other kind give
      `default`. */
  function GetInt(args: Arguments, key: string, default: Int64): (value: Int64)
    ensures key !in args ==> value == default
    ensures key in args ==> match args[key]
      case Integer(n) => value == n
      case Number(x) => value == TruncateToInt64(x)
      case Text(t) => value == (if Atoi(t).Some? then Atoi(t).value else default)
      case OtherValue => value == default
  {
    if key !in args then default
    else match args[key]
      case Integer(n) => n
      case Number(x) => TruncateToInt64(x)
      case Text(t) => (match Atoi(t) case Some(n) => n case None => default)
      case OtherValue => default
  }

  /** A JSON number for the expiry is truncated toward zero: 30 and 30.9
      both give 30 days, and -30.9 gives -30. */
  lemma ExpiryFromNumber(args: Arguments)
    ensures GetInt(args["expiryDays" := Number(30.0)], "expiryDays", 365) == 30
    ensures GetInt(args["expiryDays" := Number(30.9)], "expiryDays", 365) == 30
    ensures GetInt(args["expiryDays" := Number(-30.9)], "expiryDays", 365) == -30
  {
  }

  /** A string for the expiry counts when it is a decimal integer: "30"
      gives 30 days, and "30 days" gives the default. */
  lemma ExpiryFromText(args: Arguments)
    ensures GetInt(args["expiryDays" := Text("30")], "expiryDays", 365) == 30
    ensures GetInt(args["expiryDays" := Text("30 days")], "expiryDays", 365) == 365
  {
    AtoiThirty();
    AtoiThirtyDays();
  }

  lemma AtoiThirty()
    ensures Atoi("30") == Some(30)
  {
    assert Decimal(30) == "30" by {
      assert Decimal(3) == "3";
    }
    AtoiDecimal(30);
  }

  lemma AtoiThirtyDays()
    ensures Atoi("30 days") == None
  {
    assert !IsDigit("30 days"[2]);
    AtoiRejects("30 days");
  }

  const DefaultExpiryDays: Int64 := 365

  // ---------------------------------------------------------------------
  // Comma-separated lists
  // ---------------------------------------------------------------------

  /** The list a comma-separated argument denotes: nothing (a nil slice)
      for the empty string, otherwise one entry per comma-separated
      segment, in order, each with its surrounding white space trimmed. */
  function CommaList(text: string): (list: seq<string>)
    ensures text == "" <==> list == []
    ensures text != "" ==> |list| == |SplitOn(text, ',')| == CountOf(text, ',') + 1
    ensures forall i :: 0 <= i < |list| ==> list[i] == TrimSpace(SplitOn(text, ',')[i])
  {
    if text == "" then []
    else
      var segments := SplitOn(text, ',');
      SplitCount(text, ',');
      seq(|segments|, i requires 0 <= i < |segments| => TrimSpace(segments[i]))
  }

  /** The split-then-trim of lines 176-182 (and 184-190): `strings.Split`
      into a fresh slice, whose elements are then overwritten in place by
      their `strings.TrimSpace`. */
  method SplitAndTrim(text: string) returns (list: seq<string>)
    ensures list == CommaList(text)
  {
    list := [];
    if text != "" {
      var segments := SplitOn(text, ',');
      var names := new string[|segments|](i requires 0 <= i < |segments| => segments[i]);
      for i := 0 to names.Length
        invariant forall k :: 0 <= k < i ==> names[k] == TrimSpace(segments[k])
        invariant forall k :: i <= k < names.Length ==> names[k] == segments[k]
      {
        names[i] := TrimSpace(names[i]);
      }
      list := names[..];
    }
  }

  /** Every entry comes from the text: the untrimmed segments joined with
      commas give the text back, no entry contains a comma, and each entry
      is its segment minus white space at the ends only. */
  lemma CommaListEntries(text: string)
    requires text != ""
    ensures var segments := SplitOn(text, ',');
      && Join(segments, ',') == text
      && |CommaList(text)| == |segments|
      && forall i :: 0 <= i < |segments| ==>
           && ',' !in CommaList(text)[i]
           && CommaList(text)[i] == TrimSpace(segments[i])
           && (CommaList(text)[i] == [] || (!IsSpace(CommaList(text)[i][0]) && !IsSpace(CommaList(text)[i][|CommaList(text)[i]| - 1])))
  {
    var segments := SplitOn(text, ',');
    JoinSplit(text, ',');
    SplitPiecesFree(text, ',');
    forall i | 0 <= i < |segments|
      ensures ',' !in CommaList(text)[i]
      ensures CommaList(text)[i] == [] || (!IsSpace(CommaList(text)[i][0]) && !IsSpace(CommaList(text)[i][|CommaList(text)[i]| - 1]))
    {
      TrimmedNoComma(segments[i]);
    }
  }

  lemma TrimmedNoComma(segment: string)
    requires ',' !in segment
    ensures var t := TrimSpace(segment);
      && ',' !in t
      && (t == [] || (!IsSpace(t[0]) && !IsSpace(t[|t| - 1])))
  {
    TrimSpaceSpec(segment);
  }

  /** Empty segments are kept, neither filtered nor merged. */
  lemma CommaListKeepsEmptySegments()
    ensures CommaList("a,,b") == ["a", "", "b"]
  {
    assert SplitOn("", ',') == [""];
    assert "b"[1..] == "" && ['b'] + "" == "b";
    assert SplitOn("b", ',') == ["b"];
    assert ",b"[1..] == "b";
    assert SplitOn(",b", ',') == ["", "b"];
    assert ",,b"[1..] == ",b";
    assert SplitOn(",,b", ',') == ["", "", "b"];
    assert "a,,b"[1..] == ",,b";
    assert ['a'] + "" == "a";
    assert ["", "", "b"][1..] == ["", "b"];
    assert SplitOn("a,,b", ',') == ["a", "", "b"];
    assert TrimSpace("a") == "a" && TrimSpace("") == "" && TrimSpace("b") == "b";
  }

  /** A blank argument gives one empty entry, not an empty list. */
  lemma CommaListOfBlank()
    ensures CommaList(" ") == [""]
  {
    assert TrimLeft(" ") == TrimLeft("");
  }

  // ---------------------------------------------------------------------
  // Configurations built by the handlers
  // ---------------------------------------------------------------------

  function CAConfigOf(args: Arguments): CAConfig {
    CAConfig(
      organization := GetString(args, "organization", ""),
      commonName := GetString(args, "commonName", ""),
      country := GetString(args, "country", ""),
      locality := GetString(args, "locality", ""),
      expiryDays := GetInt(args, "expiryDays", DefaultExpiryDays))
  }

  function CertConfigOf(args: Arguments, isClient: bool, dnsNames: seq<string>, ipAddresses: seq<string>): CertConfig {
    CertConfig(
      organization := GetString(args, "organization", ""),
      commonName := GetString(args, "commonName", ""),
      country := GetString(args, "country", ""),
      locality := GetString(args, "locality", ""),
      expiryDays := GetInt(args, "expiryDays", DefaultExpiryDays),
      isClient := isClient,
      dnsNames := dnsNames,
      ipAddresses := ipAddresses)
  }

  /** The configuration of generate_server_certificate. */
  function ServerConfigOf(args: Arguments): CertConfig {
    CertConfigOf(args, false,
      CommaList(GetString(args, "dnsNames", "")),
      CommaList(GetString(args, "ipAddresses", "")))
  }

  /** The configuration of generate_client_certificate. */
  function ClientConfigOf(args: Arguments): CertConfig {
    CertConfigOf(args, true, [], [])
  }

  /** The CA configuration takes each identity field from the argument of
      that name, "" when it is missing, and the expiry from "expiryDays" as
      `GetInt` reads it, 365 days when it is missing. */
  lemma CAConfigFromArguments(args: Arguments)
    ensures var c := CAConfigOf(args);
      && c.organization == (if "organization" in args && args["organization"].Text? then args["organization"].text else "")
      && c.commonName == (if "commonName" in args && args["commonName"].Text? then args["commonName"].text else "")
      && c.country == (if "country" in args && args["country"].Text? then args["country"].text else "")
      && c.locality == (if "locality" in args && args["locality"].Text? then args["locality"].text else "")
      && c.expiryDays == GetInt(args, "expiryDays", 365)
      && ("expiryDays" !in args ==> c.expiryDays == 365)
  {
  }

  /** The server configuration is a server one carrying the parsed lists,
      and the same identity fields and expiry as a CA configuration built
      from the same arguments. */
  lemma ServerConfigFromArguments(args: Arguments)
    ensures var s := ServerConfigOf(args); var ca := CAConfigOf(args);
      && !s.isClient
      && s.dnsNames == CommaList(GetString(args, "dnsNames", ""))
      && s.ipAddresses == CommaList(GetString(args, "ipAddresses", ""))
      && ("dnsNames" !in args ==> s.dnsNames == [])
      && ("ipAddresses" !in args ==> s.ipAddresses == [])
      && s.organization == ca.organization && s.commonName == ca.commonName
      && s.country == ca.country && s.locality == ca.locality
      && s.expiryDays == ca.expiryDays
  {
  }

  /** The client configuration is a client one with no DNS names and no IP
      addresses, whatever the arguments, and the same identity fields and
      expiry as a CA configuration built from the same arguments. */
  lemma ClientConfigFromArguments(args: Arguments)
    ensures var c := ClientConfigOf(args); var ca := CAConfigOf(args);
      && c.isClient && c.dnsNames == [] && c.ipAddresses == []
      && c.organization == ca.organization && c.commonName == ca.commonName
      && c.country == ca.country && c.locality == ca.locality
      && c.expiryDays == ca.expiryDays
  {
  }

  /** What reaches the certificate: a server certificate's SAN DNS entries
      are exactly the parsed dnsNames argument, a client certificate gets
      none, and neither gets IP addresses. */
  lemma HandlerSubjectAltNames(args: Arguments, serial: nat, now: Time)
    ensures LeafTemplate(ServerConfigOf(args), serial, now).dnsNames == CommaList(GetString(args, "dnsNames", ""))
    ensures LeafTemplate(ClientConfigOf(args), serial, now).dnsNames == []
    ensures LeafTemplate(ServerConfigOf(args), serial, now).ipAddresses == []
  {
  }

  // ---------------------------------------------------------------------
  // Handlers
  // ---------------------------------------------------------------------

  /** An issuance error wrapped with the handler's context. */
  datatype ToolError = ToolError(context: string, cause: IssueError) {
    function Message(): string {
      context + ": " + cause.Message()
    }
  }

  const CAContext: string := "failed to generate CA"
  const ServerContext: string := "failed to generate server certificate"
  const ClientContext: string := "failed to generate client certificate"

  /** A handler's result: the bundle its text output is formatted from, or
      the wrapped error and no tool result. */
  function ToolOutcome(outcome: Result<CertBundle, IssueError>, context: string): (r: Result<CertBundle, ToolError>)
    ensures r.Ok? <==> outcome.Ok?
    ensures r.Ok? ==> r.value == outcome.value
    ensures r.Err? ==>
      && r.error.cause == outcome.error
      && r.error.Message() == context + ": " + outcome.error.Message()
  {
    match outcome
    case Ok(bundle) => Ok(bundle)
    case Err(e) => Err(ToolError(context, e))
  }

  /** handleGenerateCA. */
  method HandleGenerateCA(args: Arguments, lib: Library, rng: Entropy, now: Time)
    returns (result: Result<CertBundle, ToolError>)
    requires SerialInRange(rng)
    ensures result == ToolOutcome(CAOutcome(CAConfigOf(args), lib, rng, now), CAContext)
  {
    var org := GetString(args, "organization", "");
    var cn := GetString(args, "commonName", "");
    var country := GetString(args, "country", "");
    var locality := GetString(args, "locality", "");
    var expiryDays := GetInt(args, "expiryDays", DefaultExpiryDays);

    var config := CAConfig(org, cn, country, locality, expiryDays);

    var bundle, _ := GenerateCA(config, lib, rng, now);
    if bundle.Err? {
      return Err(ToolError(CAContext, bundle.error));
    }
    result := Ok(bundle.value);
  }

  /** handleGenerateServerCert. */
  method HandleGenerateServerCert(args: Arguments, lib: Library, rng: Entropy, now: Time)
    returns (result: Result<CertBundle, ToolError>)
    requires SerialInRange(rng)
    ensures result == ToolOutcome(
      LeafOutcome(ServerConfigOf(args),
        Utf8Bytes(GetString(args, "caCert", "")), Utf8Bytes(GetString(args, "caKey", "")),
        lib, rng, now),
      ServerContext)
  {
    var caCert := GetString(args, "caCert", "");
    var caKey := GetString(args, "caKey", "");
    var org := GetString(args, "organization", "");
    var cn := GetString(args, "commonName", "");
    var country := GetString(args, "country", "");
    var locality := GetString(args, "locality", "");
    var expiryDays := GetInt(args, "expiryDays", DefaultExpiryDays);
    var dnsNamesStr := GetString(args, "dnsNames", "");
    var ipAddressesStr := GetString(args, "ipAddresses", "");

    var dnsNames := SplitAndTrim(dnsNamesStr);
    var ipAddresses := SplitAndTrim(ipAddressesStr);

    var config := CertConfig(org, cn, country, locality, expiryDays, false, dnsNames, ipAddresses);

    var bundle, _ := GenerateCert(config, Utf8Bytes(caCert), Utf8Bytes(caKey), lib, rng, now);
    if bundle.Err? {
      return Err(ToolError(ServerContext, bundle.error));
    }
    result := Ok(bundle.value);
  }

  /** handleGenerateClientCert. */
  method HandleGenerateClientCert(args: Arguments, lib: Library, rng: Entropy, now: Time)
    returns (result: Result<CertBundle, ToolError>)
    requires SerialInRange(rng)
    ensures result == ToolOutcome(
      LeafOutcome(ClientConfigOf(args),
        Utf8Bytes(GetString(args, "caCert", "")), Utf8Bytes(GetString(args, "caKey", "")),
        lib, rng, now),
      ClientContext)
  {
    var caCert := GetString(args, "caCert", "");
    var caKey := GetString(args, "caKey", "");
    var org := GetString(args, "organization", "");
    var cn := GetString(args, "commonName", "");
    var country := GetString(args, "country", "");
    var locality := GetString(args, "locality", "");
    var expiryDays := GetInt(args, "expiryDays", DefaultExpiryDays);

    var config := CertConfig(org, cn, country, locality, expiryDays, true, [], []);

    var bundle, _ := GenerateCert(config, Utf8Bytes(caCert), Utf8Bytes(caKey), lib, rng, now);
    if bundle.Err? {
      return Err(ToolError(ClientContext, bundle.error));
    }
    result := Ok(bundle.value);
  }
}

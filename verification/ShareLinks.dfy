/** VLESS and VMess share links: printed from a panel's inbound, and read back by the
    outbound import. Absent strings are held as "". */
module ShareLinks {
  import opened Options
  import opened JsonValues
  import opened Texts
  import opened PanelFields
  import P = PercentCoding
  import opened Urls

  // ---- values of a panel ----

  /** An object, also when it is serialized in a string; anything else is empty. */
  function XuiObject(parse: Parser, v: Option<Json>): Json {
    match v
    case Some(Obj(_)) => v.value
    case Some(Str(s)) => if parse(s).Some? && parse(s).value.Obj? then parse(s).value else Obj([])
    case _ => Obj([])
  }

  function StringValue(v: Option<Json>): string {
    if v.Some? && v.value.Str? then Trim(v.value.s) else ""
  }

  function TrimmedTexts(items: seq<Json>): seq<string> {
    if items == [] then []
    else
      var text := Trim(JsonText(items[0]));
      (if text == "" then [] else [text]) + TrimmedTexts(items[1..])
  }

  function StringList(v: Option<Json>): seq<string> {
    if v.Some? && v.value.Arr? then TrimmedTexts(v.value.items)
    else if StringValue(v) != "" then [StringValue(v)] else []
  }

  function First(list: seq<string>): string {
    if list == [] then "" else list[0]
  }

  function Or(a: string, b: string): string {
    if a != "" then a else b
  }

  function FirstHeaderValue(v: Option<Json>): string {
    if v.Some? && v.value.Arr? then
      if v.value.items == [] then "" else StringValue(Some(v.value.items[0]))
    else StringValue(v)
  }

  function Either(v: Json, a: string, b: string): Option<Json> {
    if Truthy(Get(v, a)) then Get(v, a) else Get(v, b)
  }

  function LowerText(s: string): string {
    if s == "" then "" else [Lower(s[0])] + LowerText(s[1..])
  }

  function Word(v: Option<Json>, default: string): string {
    LowerText(Trim(if Truthy(v) then Text(v) else default))
  }

  // ---- what a link says about transport and TLS ----

  datatype Transport = Transport(
    network: string, headerType: string, host: string, path: string, serviceName: string, authority: string, mode: string)

  function TcpTransport(parse: Parser, stream: Json): Transport {
    var settings := XuiObject(parse, Either(stream, "tcpSettings", "rawSettings"));
    var header := XuiObject(parse, Get(settings, "header"));
    var request := XuiObject(parse, Get(header, "request"));
    var headers := XuiObject(parse, Get(request, "headers"));
    Transport("tcp", Or(StringValue(Get(header, "type")), "none"), FirstHeaderValue(Get(headers, "Host")),
              First(StringList(Get(request, "path"))), "", "", "")
  }

  function WsTransport(parse: Parser, stream: Json): Transport {
    var settings := XuiObject(parse, Get(stream, "wsSettings"));
    var headers := XuiObject(parse, Get(settings, "headers"));
    Transport("ws", "", Or(StringValue(Get(settings, "host")), FirstHeaderValue(Get(headers, "Host"))),
              Or(StringValue(Get(settings, "path")), "/"), "", "", "")
  }

  function GrpcTransport(parse: Parser, stream: Json): Transport {
    var settings := XuiObject(parse, Get(stream, "grpcSettings"));
    var serviceName := StringValue(Get(settings, "serviceName"));
    Transport("grpc", "", "", serviceName, serviceName, StringValue(Get(settings, "authority")),
              if Get(settings, "multiMode") == Some(Bool(true)) then "multi" else "")
  }

  /** TCP, WebSocket and gRPC; other transports are not part of this model. */
  function ShareTransport(parse: Parser, stream: Json): Option<Transport> {
    var raw := Word(Get(stream, "network"), "tcp");
    if raw == "tcp" || raw == "raw" then Some(TcpTransport(parse, stream))
    else if raw == "ws" then Some(WsTransport(parse, stream))
    else if raw == "grpc" then Some(GrpcTransport(parse, stream))
    else None
  }

  datatype Tls = Tls(
    security: string, serverName: string, fingerprint: string, alpn: string,
    publicKey: string, shortId: string, verify: string, spiderX: string, insecure: bool)

  function Commas(list: seq<string>): string {
    if list == [] then "" else list[0] + (if |list| == 1 then "" else "," + Commas(list[1..]))
  }

  /** `derive` is the public key of an X25519 private key, where it is one. */
  function RealityTls(parse: Parser, derive: string -> Option<string>, stream: Json): Option<Tls> {
    var reality := XuiObject(parse, Get(stream, "realitySettings"));
    var nested := XuiObject(parse, Get(reality, "settings"));
    var privateKey := Or(StringValue(Get(reality, "privateKey")), StringValue(Get(nested, "privateKey")));
    var derived := if privateKey == "" || derive(privateKey).None? then "" else derive(privateKey).value;
    var publicKey := Or(Or(StringValue(Get(reality, "publicKey")), StringValue(Get(nested, "publicKey"))), derived);
    var serverName := RealityName(reality, nested);
    if publicKey == "" || serverName == "" then None
    else
      Some(Tls("reality", serverName,
               Or(Or(StringValue(Get(reality, "fingerprint")), StringValue(Get(nested, "fingerprint"))), "chrome"),
               Commas(StringList(Get(reality, "alpn"))), publicKey,
               Or(StringValue(Get(nested, "shortId")),
                  Or(First(StringList(Get(reality, "shortIds"))), First(StringList(Get(nested, "shortIds"))))),
               Or(StringValue(Get(nested, "mldsa65Verify")), StringValue(Get(reality, "mldsa65Verify"))),
               Or(Or(StringValue(Get(reality, "spiderX")), StringValue(Get(nested, "spiderX"))), "/"), false))
  }

  function RealityName(reality: Json, nested: Json): string {
    Or(Or(StringValue(Get(reality, "serverName")), StringValue(Get(nested, "serverName"))),
       Or(First(StringList(Get(reality, "serverNames"))), First(StringList(Get(nested, "serverNames")))))
  }

  function PlainTls(parse: Parser, stream: Json): Tls {
    var tls := XuiObject(parse, Get(stream, "tlsSettings"));
    var nested := XuiObject(parse, Get(tls, "settings"));
    var yes := Some(Bool(true));
    Tls("tls", Or(StringValue(Get(tls, "serverName")), StringValue(Get(nested, "serverName"))),
        Or(StringValue(Get(nested, "fingerprint")), StringValue(Get(tls, "fingerprint"))),
        Commas(StringList(Get(tls, "alpn"))), "", "", "", "",
        Get(nested, "allowInsecure") == yes || Get(tls, "allowInsecure") == yes || Get(tls, "insecure") == yes)
  }

  /** `None` where the printer throws: Reality without a key or a server name. */
  function ShareTls(parse: Parser, derive: string -> Option<string>, stream: Json): Option<Tls> {
    var security := Or(Word(Get(stream, "security"), "none"), "none");
    if security == "reality" then RealityTls(parse, derive, stream)
    else if security == "tls" then Some(PlainTls(parse, stream))
    else Some(Tls("none", "", "", "", "", "", "", "", false))
  }

  /** The serialized `finalmask`, where there is anything in it. */
  function FinalMask(parse: Parser, stringify: Printer, stream: Json): string {
    var mask := XuiObject(parse, Get(stream, "finalmask"));
    if NonEmptyList(Get(mask, "tcp")) || NonEmptyList(Get(mask, "udp"))
       || XuiObject(parse, Get(mask, "quicParams")) != Obj([]) then stringify(mask) else ""
  }

  predicate NonEmptyList(v: Option<Json>) {
    v.Some? && v.value.Arr? && v.value.items != []
  }

  // ---- VLESS ----

  /** The names of a query in the order they are set, and their values. */
  const NAMES: seq<string> := [
    "type", "headerType", "host", "path", "serviceName", "authority", "mode",
    "security", "sni", "fp", "alpn", "pbk", "sid", "pqv", "spx", "allowInsecure",
    "fm", "encryption", "flow"]

  function Values(t: Transport, tls: Tls, mask: string, encryption: string, flow: string): seq<string> {
    [t.network, if t.headerType == "none" then "" else t.headerType, t.host, t.path, t.serviceName, t.authority, t.mode,
     tls.security, tls.serverName, tls.fingerprint, tls.alpn, tls.publicKey, tls.shortId, tls.verify, tls.spiderX,
     if tls.insecure then "1" else "", mask, encryption, flow]
  }

  /** An absent value sets nothing. */
  function Present(names: seq<string>, values: seq<string>): Params
    requires |names| == |values|
  {
    if names == [] then []
    else (if values[0] == "" then [] else [(names[0], values[0])]) + Present(names[1..], values[1..])
  }

  function RawSecurity(stream: Json): string {
    var v := Get(stream, "security");
    if Truthy(v) then Text(v) else "none"
  }

  function UserId(client: Json): string {
    Or(StringValue(Get(client, "id")), StringValue(Get(client, "uuid")))
  }

  function Encryption(inbound: Json): string {
    Or(StringValue(Get(inbound, "encryption")), "none")
  }

  /** The flow a client may use: over plain TCP with TLS or Reality only. */
  function Flow(client: Json, t: Transport, stream: Json): string {
    if t.network == "tcp" && (RawSecurity(stream) == "tls" || RawSecurity(stream) == "reality")
    then StringValue(Get(client, "flow")) else ""
  }

  function VlessLink(host: string, port: nat, name: string, inbound: Json, stream: Json, client: Json,
                     t: Transport, tls: Tls, mask: string): Option<string> {
    if UserId(client) == "" then None
    else
      var params := Present(NAMES, Values(t, tls, mask, Encryption(inbound), Flow(client, t, stream)));
      Some(PrintLink("vless", UserId(client), host, port, params, name))
  }

  // ---- the reader ----

  datatype Imported = Imported(
    address: string, port: Option<nat>, id: string, encryption: string, flow: string, network: string, security: string,
    path: string, host: string, serviceName: string, serverName: string,
    publicKey: string, shortId: string, name: string)

  /** `searchParams.get(name) || ""`: the first value under the name. */
  function Param(params: Params, name: string): string {
    if params == [] then "" else if params[0].0 == name then params[0].1 else Param(params[1..], name)
  }

  /** The name an imported outbound is listed under. */
  function Truncated(name: string): string {
    if |name| > 120 then name[..120] else name
  }

  function Read(address: string, port: nat, id: string, name: string, params: Params): Imported {
    var network, security := Or(Param(params, "type"), "tcp"), Or(Param(params, "security"), "none");
    var path, host, sni := Param(params, "path"), Param(params, "host"), Param(params, "sni");
    Imported(
      address, Some(port), id, Or(Param(params, "encryption"), "none"), Param(params, "flow"), network, security,
      if network == "ws" then Or(path, "/") else "",
      if network == "ws" then host else "",
      if network == "grpc" then Or(Param(params, "serviceName"), path) else "",
      if security == "tls" then Or(sni, Or(host, address)) else if security == "reality" then sni else "",
      if security == "reality" then Param(params, "pbk") else "",
      if security == "reality" then Param(params, "sid") else "",
      Truncated(name))
  }

  function ParseVless(input: string): Option<Imported> {
    if ParseUrl(input).None? then None else ReadUrl(ParseUrl(input).value)
  }

  function ReadUrl(u: Url): Option<Imported> {
    if P.Decode(u.hash).None? || P.Decode(u.username).None? then None
    else
      var name := Or(P.Decode(u.hash).value, "vless-" + u.hostname);
      var port := if u.port == "" then Some(1080) else ParseDecimal(u.port);
      var id := P.Decode(u.username).value;
      if port.None? || !(0 < port.value <= 65535) || id == "" then None
      else Some(Read(u.hostname, port.value, id, name, u.params))
  }

  // ---- VLESS round trip ----

  /** Enough of a name to tell it from the others. */
  function Code(s: string): (int, int, int, int) {
    if s == "" then (0, 0, 0, 0) else (|s|, s[0] as int, s[|s| / 2] as int, s[|s| - 1] as int)
  }

  lemma NamesDiffer(i: nat, j: nat)
    requires i < j < |NAMES|
    ensures NAMES[i] != NAMES[j]
  {
    assert Code(NAMES[i]) != Code(NAMES[j]);
  }

  predicate Different(names: seq<string>) {
    forall i, j :: 0 <= i < j < |names| ==> names[i] != names[j]
  }

  /** Every value is found under its name, and an absent one nowhere. */
  lemma {:induction false} ParamPresent(names: seq<string>, values: seq<string>, i: nat)
    requires |names| == |values| && Different(names) && i < |names|
    ensures Param(Present(names, values), names[i]) == values[i]
  {
    var params, rest := Present(names, values), Present(names[1..], values[1..]);
    if i > 0 {
      ParamPresent(names[1..], values[1..], i - 1);
    } else {
      NotAmong(names[1..], values[1..], names[0]);
    }
    assert values[0] != "" ==> params[0] == (names[0], values[0]) && params[1..] == rest;
    assert values[0] == "" ==> params == rest;
  }

  lemma {:induction false} NotAmong(names: seq<string>, values: seq<string>, q: string)
    requires |names| == |values| && q !in names
    ensures Param(Present(names, values), q) == ""
  {
    if names != [] {
      NotAmong(names[1..], values[1..], q);
      var params, rest := Present(names, values), Present(names[1..], values[1..]);
      assert values[0] != "" ==> params[0] == (names[0], values[0]) && params[1..] == rest;
      assert values[0] == "" ==> params == rest;
    }
  }

  /** What the reader finds in a printed query. */
  lemma QueryTransport(values: seq<string>)
    requires |values| == |NAMES|
    ensures
      var params := Present(NAMES, values);
      && Param(params, "type") == values[0] && Param(params, "host") == values[2] && Param(params, "path") == values[3]
      && Param(params, "serviceName") == values[4]
  {
    TransportNames();
    ValueAt(values, 0, "type");
    ValueAt(values, 2, "host");
    ValueAt(values, 3, "path");
    ValueAt(values, 4, "serviceName");
  }

  lemma QueryTls(values: seq<string>)
    requires |values| == |NAMES|
    ensures
      var params := Present(NAMES, values);
      Param(params, "security") == values[7] && Param(params, "sni") == values[8]
  {
    TlsNames();
    ValueAt(values, 7, "security");
    ValueAt(values, 8, "sni");
  }

  lemma QueryReality(values: seq<string>)
    requires |values| == |NAMES|
    ensures
      var params := Present(NAMES, values);
      Param(params, "pbk") == values[11] && Param(params, "sid") == values[12]
  {
    TlsNames();
    ValueAt(values, 11, "pbk");
    ValueAt(values, 12, "sid");
  }

  lemma QueryUser(values: seq<string>)
    requires |values| == |NAMES|
    ensures
      var params := Present(NAMES, values);
      Param(params, "encryption") == values[17] && Param(params, "flow") == values[18]
  {
    UserNames();
    ValueAt(values, 17, "encryption");
    ValueAt(values, 18, "flow");
  }

  lemma ValueAt(values: seq<string>, i: nat, name: string)
    requires |values| == |NAMES| && i < |NAMES| && NAMES[i] == name
    ensures Param(Present(NAMES, values), name) == values[i]
  {
    AllNamesDiffer();
    ParamPresent(NAMES, values, i);
  }

  lemma TransportNames()
    ensures |NAMES| > 4 && NAMES[0] == "type" && NAMES[2] == "host" && NAMES[3] == "path" && NAMES[4] == "serviceName"
  {
  }

  lemma UserNames()
    ensures |NAMES| > 18 && NAMES[17] == "encryption" && NAMES[18] == "flow"
  {
  }

  lemma TlsNames()
    ensures |NAMES| > 12 && NAMES[7] == "security" && NAMES[8] == "sni" && NAMES[11] == "pbk" && NAMES[12] == "sid"
  {
  }

  lemma AllNamesDiffer()
    ensures Different(NAMES)
  {
    forall j, k | 0 <= j < k < |NAMES|
      ensures NAMES[j] != NAMES[k]
    {
      NamesDiffer(j, k);
    }
  }

  /** The import reads from a printed VLESS link the address, port, user and
      transport it was printed from, the TLS server name where one is set, and for
      Reality also the key and the short id. */
  lemma VlessRoundTrip(host: string, port: nat, name: string, inbound: Json, stream: Json, client: Json,
                       t: Transport, tls: Tls, mask: string)
    requires GoodHost(host) && 0 < port <= 65535 && name != ""
    requires t.network != "" && tls.security != "" && (t.network == "ws" ==> t.path != "")
    requires UserId(client) != ""
    ensures
      var link := VlessLink(host, port, name, inbound, stream, client, t, tls, mask);
      && link.Some? && ReadsAs(ParseVless(link.value), host, port, UserId(client), name, t, tls)
      && ParseVless(link.value).value.encryption == Encryption(inbound)
      && ParseVless(link.value).value.flow == Flow(client, t, stream)
  {
    var params := Present(NAMES, Values(t, tls, mask, Encryption(inbound), Flow(client, t, stream)));
    LinkIsRead(UserId(client), host, port, params, name);
    ReadsBack(host, port, UserId(client), name, t, tls, mask, Encryption(inbound), Flow(client, t, stream));
  }

  lemma LinkIsRead(id: string, host: string, port: nat, params: Params, name: string)
    requires GoodHost(host) && 0 < port <= 65535 && name != "" && id != ""
    ensures ParseVless(PrintLink("vless", id, host, port, params, name)) == Some(Read(host, port, id, name, params))
  {
    LinkRoundTrip("vless", id, host, port, params, name);
    ComponentRoundTrip(id);
    ComponentRoundTrip(name);
    DecimalRoundTrip(port);
    UrlIsRead(Url(EncodeComponent(id), host, Decimal(port), params, EncodeComponent(name)), id, port, name);
  }

  lemma ComponentRoundTrip(s: string)
    ensures P.Decode(EncodeComponent(s)) == Some(s)
  {
    P.DecodeEncode(s, COMPONENT_SAFE);
  }

  lemma UrlIsRead(u: Url, id: string, port: nat, name: string)
    requires P.Decode(u.username) == Some(id) && P.Decode(u.hash) == Some(name) && ParseDecimal(u.port) == Some(port)
    requires 0 < port <= 65535 && name != "" && id != ""
    ensures ReadUrl(u) == Some(Read(u.hostname, port, id, name, u.params))
  {
  }

  lemma ReadsBack(host: string, port: nat, id: string, name: string, t: Transport, tls: Tls, mask: string,
                  encryption: string, flow: string)
    requires t.network != "" && tls.security != "" && (t.network == "ws" ==> t.path != "") && encryption != ""
    ensures
      var i := Read(host, port, id, name, Present(NAMES, Values(t, tls, mask, encryption, flow)));
      i.encryption == encryption && i.flow == flow && SameTransport(i, t, tls)
  {
    var values := Values(t, tls, mask, encryption, flow);
    QueryTransport(values);
    QueryTls(values);
    QueryReality(values);
    QueryUser(values);
  }

  predicate SameTransport(i: Imported, t: Transport, tls: Tls) {
    && i.network == t.network && i.security == tls.security
    && (t.network == "ws" ==> i.path == t.path && i.host == t.host)
    && (t.network == "grpc" ==> i.serviceName == Or(t.serviceName, t.path))
    && (tls.security == "tls" && tls.serverName != "" ==> i.serverName == tls.serverName)
    && (tls.security == "reality" ==>
          i.serverName == tls.serverName && i.publicKey == tls.publicKey && i.shortId == tls.shortId)
  }

  // ---- what the printer guarantees ----

  /** Without surrounding space. */
  predicate Clean(s: string) {
    s == "" || (!IsSpace(s[0]) && !IsSpace(s[|s| - 1]))
  }

  lemma TrimIsClean(s: string)
    ensures Clean(Trim(s))
    ensures Clean(s) ==> Trim(s) == s
  {
  }

  lemma ValuesAreClean(v: Option<Json>)
    ensures Clean(StringValue(v)) && Clean(FirstHeaderValue(v)) && Clean(First(StringList(v)))
  {
    TrimIsClean(if v.Some? && v.value.Str? then v.value.s else "");
    if v.Some? && v.value.Arr? && v.value.items != [] {
      var first := v.value.items[0];
      TrimIsClean(if first.Str? then first.s else "");
    }
    if v.Some? && v.value.Arr? {
      ListIsClean(v.value.items);
    }
  }

  lemma {:induction false} ListIsClean(items: seq<Json>)
    ensures forall text <- TrimmedTexts(items) :: Clean(text) && text != ""
  {
    if items != [] {
      TrimIsClean(JsonText(items[0]));
      ListIsClean(items[1..]);
    }
  }

  lemma OrIsClean(a: string, b: string)
    requires Clean(a) && Clean(b)
    ensures Clean(Or(a, b))
  {
  }

  lemma LiteralsAreClean()
    ensures Clean("") && Clean("/") && Clean("tcp") && Clean("ws") && Clean("grpc")
  {
    TrimIsClean("");
  }

  ghost predicate CleanTransport(t: Transport) {
    && t.network != "" && Clean(t.network) && Clean(t.host) && Clean(t.path) && Clean(t.serviceName)
    && (t.network == "ws" ==> t.path != "")
    && (t.network == "grpc" ==> t.path == t.serviceName)
  }

  lemma TcpIsClean(parse: Parser, stream: Json)
    ensures CleanTransport(TcpTransport(parse, stream))
  {
    var settings := XuiObject(parse, Either(stream, "tcpSettings", "rawSettings"));
    var header := XuiObject(parse, Get(settings, "header"));
    var request := XuiObject(parse, Get(header, "request"));
    var headers := XuiObject(parse, Get(request, "headers"));
    ValuesAreClean(Get(headers, "Host"));
    ValuesAreClean(Get(request, "path"));
    LiteralsAreClean();
  }

  lemma WsIsClean(parse: Parser, stream: Json)
    ensures CleanTransport(WsTransport(parse, stream))
  {
    var settings := XuiObject(parse, Get(stream, "wsSettings"));
    var headers := XuiObject(parse, Get(settings, "headers"));
    ValuesAreClean(Get(settings, "host"));
    ValuesAreClean(Get(headers, "Host"));
    ValuesAreClean(Get(settings, "path"));
    LiteralsAreClean();
    OrIsClean(StringValue(Get(settings, "host")), FirstHeaderValue(Get(headers, "Host")));
    OrIsClean(StringValue(Get(settings, "path")), "/");
  }

  lemma TransportIsClean(parse: Parser, stream: Json)
    ensures ShareTransport(parse, stream).Some? ==> CleanTransport(ShareTransport(parse, stream).value)
  {
    TcpIsClean(parse, stream);
    WsIsClean(parse, stream);
    LiteralsAreClean();
    ValuesAreClean(Get(XuiObject(parse, Get(stream, "grpcSettings")), "serviceName"));
  }

  lemma TlsIsClean(parse: Parser, derive: string -> Option<string>, stream: Json)
    ensures
      var tls := ShareTls(parse, derive, stream);
      tls.Some? ==> tls.value.security != "" && Clean(tls.value.serverName)
  {
    var plain := XuiObject(parse, Get(stream, "tlsSettings"));
    var inner := XuiObject(parse, Get(plain, "settings"));
    ValuesAreClean(Get(plain, "serverName"));
    ValuesAreClean(Get(inner, "serverName"));
    OrIsClean(StringValue(Get(plain, "serverName")), StringValue(Get(inner, "serverName")));
    var reality := XuiObject(parse, Get(stream, "realitySettings"));
    RealityNameIsClean(reality, XuiObject(parse, Get(reality, "settings")));
    LiteralsAreClean();
  }

  lemma RealityNameIsClean(reality: Json, nested: Json)
    ensures Clean(RealityName(reality, nested))
  {
    ValuesAreClean(Get(reality, "serverName"));
    ValuesAreClean(Get(nested, "serverName"));
    ValuesAreClean(Get(reality, "serverNames"));
    ValuesAreClean(Get(nested, "serverNames"));
    var a, b := StringValue(Get(reality, "serverName")), StringValue(Get(nested, "serverName"));
    var c, d := First(StringList(Get(reality, "serverNames"))), First(StringList(Get(nested, "serverNames")));
    OrIsClean(a, b);
    OrIsClean(c, d);
    OrIsClean(Or(a, b), Or(c, d));
  }

  // ---- whole VLESS links ----

  function DisplayName(name: string): string {
    Or(Trim(name), "3x-ui")
  }

  /** `buildLocalShareLink` for VLESS; `None` where it throws. */
  function ShareVless(parse: Parser, stringify: Printer, derive: string -> Option<string>, host: string, port: nat,
                      displayName: string, inbound: Json, stream: Json, client: Json): Option<string> {
    var t, tls := ShareTransport(parse, stream), ShareTls(parse, derive, stream);
    if t.None? || tls.None? then None
    else VlessLink(host, port, DisplayName(displayName), inbound, stream, client, t.value, tls.value, FinalMask(parse, stringify, stream))
  }

  /** What an imported link has in common with what it was printed from. */
  ghost predicate ReadsAs(i: Option<Imported>, address: string, port: nat, id: string, name: string, t: Transport, tls: Tls) {
    && i.Some? && i.value.address == address && i.value.port == Some(port) && i.value.id == id && i.value.name == Truncated(name)
    && SameTransport(i.value, t, tls)
  }

  /** Where the settings are there, the link is printed from them and read back. */
  lemma PartsRoundTrip(host: string, port: nat, displayName: string, inbound: Json, stream: Json, client: Json,
                       t: Transport, tls: Tls, mask: string)
    requires GoodHost(host) && 0 < port <= 65535 && CleanTransport(t) && tls.security != ""
    ensures
      var link := VlessLink(host, port, DisplayName(displayName), inbound, stream, client, t, tls, mask);
      && (link.Some? <==> UserId(client) != "")
      && (link.Some? ==>
            && ReadsAs(ParseVless(link.value), host, port, UserId(client), DisplayName(displayName), t, tls)
            && ParseVless(link.value).value.encryption == Encryption(inbound)
            && ParseVless(link.value).value.flow == Flow(client, t, stream))
  {
    if UserId(client) != "" {
      VlessRoundTrip(host, port, DisplayName(displayName), inbound, stream, client, t, tls, mask);
    }
  }

  lemma VlessLinkRoundTrip(parse: Parser, stringify: Printer, derive: string -> Option<string>, host: string, port: nat,
                            displayName: string, inbound: Json, stream: Json, client: Json)
    requires GoodHost(host) && 0 < port <= 65535
    ensures
      var t, tls := ShareTransport(parse, stream), ShareTls(parse, derive, stream);
      var link := ShareVless(parse, stringify, derive, host, port, displayName, inbound, stream, client);
      t.Some? && tls.Some? && UserId(client) != "" ==>
        link.Some? && ReadsAs(ParseVless(link.value), host, port, UserId(client), DisplayName(displayName), t.value, tls.value)
  {
    var t, tls := ShareTransport(parse, stream), ShareTls(parse, derive, stream);
    if t.Some? && tls.Some? && UserId(client) != "" {
      TransportIsClean(parse, stream);
      TlsIsClean(parse, derive, stream);
      var mask := FinalMask(parse, stringify, stream);
      assert ShareVless(parse, stringify, derive, host, port, displayName, inbound, stream, client)
          == VlessLink(host, port, DisplayName(displayName), inbound, stream, client, t.value, tls.value, mask);
      VlessRoundTrip(host, port, DisplayName(displayName), inbound, stream, client, t.value, tls.value, mask);
    }
  }

  /** A VLESS link is printed exactly for a client with an id and a complete TLS or
      Reality configuration, and the import reads it back. */
  lemma ShareVlessRoundTrip(parse: Parser, stringify: Printer, derive: string -> Option<string>, host: string, port: nat,
                            displayName: string, inbound: Json, stream: Json, client: Json)
    requires GoodHost(host) && 0 < port <= 65535
    ensures
      var link := ShareVless(parse, stringify, derive, host, port, displayName, inbound, stream, client);
      var t, tls := ShareTransport(parse, stream), ShareTls(parse, derive, stream);
      && (link.Some? <==> t.Some? && tls.Some? && UserId(client) != "")
      && (link.Some? ==>
            ReadsAs(ParseVless(link.value), host, port, UserId(client), DisplayName(displayName), t.value, tls.value))
  {
    VlessLinkRoundTrip(parse, stringify, derive, host, port, displayName, inbound, stream, client);
  }

  /** The import also reads the encryption of the inbound and the flow of the client. */
  lemma ShareVlessUser(parse: Parser, stringify: Printer, derive: string -> Option<string>, host: string, port: nat,
                       displayName: string, inbound: Json, stream: Json, client: Json)
    requires GoodHost(host) && 0 < port <= 65535
    ensures
      var link := ShareVless(parse, stringify, derive, host, port, displayName, inbound, stream, client);
      link.Some? ==>
        && ParseVless(link.value).Some? && ShareTransport(parse, stream).Some?
        && ParseVless(link.value).value.encryption == Encryption(inbound)
        && ParseVless(link.value).value.flow == Flow(client, ShareTransport(parse, stream).value, stream)
  {
    var t, tls := ShareTransport(parse, stream), ShareTls(parse, derive, stream);
    TransportIsClean(parse, stream);
    TlsIsClean(parse, derive, stream);
    if t.Some? && tls.Some? {
      PartsRoundTrip(host, port, displayName, inbound, stream, client, t.value, tls.value, FinalMask(parse, stringify, stream));
    }
  }

  // ---- VMess ----

  const VMESS_NAMES: seq<string> := [
    "v", "ps", "add", "port", "id", "aid", "scy", "net", "type", "host", "path", "tls", "sni", "alpn", "fp",
    "authority", "mode", "fm"]

  /** How many of the names are there even with an empty value. */
  const VMESS_ALWAYS := 15

  function Unbracketed(host: string): string {
    if |host| >= 2 && host[0] == '[' && host[|host| - 1] == ']' then host[1..|host| - 1] else host
  }

  function AlterId(client: Json): string {
    var a, b := Get(client, "alterId"), Get(client, "alterID");
    if a.Some? && !a.value.Null? then Text(a) else if b.Some? && !b.value.Null? then Text(b) else "0"
  }

  /** The `tls` field of a VMess configuration: the security as it stands, where it
      reads "tls" in any case. */
  function TlsField(stream: Json): string {
    if LowerText(RawSecurity(stream)) == "tls" then "tls" else ""
  }

  /** The strings of a VMess user: name, address, port, id, alterId, cipher. */
  datatype VmessUser = VmessUser(name: string, address: string, port: string, id: string, aid: string, cipher: string)

  function UserOf(host: string, port: nat, displayName: string, client: Json): VmessUser {
    VmessUser(DisplayName(displayName), Unbracketed(host), Decimal(port), UserId(client), AlterId(client),
              Or(StringValue(Get(client, "security")), "auto"))
  }

  function VmessValues(u: VmessUser, t: Transport, tls: Tls, tlsField: string, mask: string): seq<string> {
    ["2", u.name, u.address, u.port, u.id, u.aid, u.cipher, t.network,
     if t.network == "grpc" then Or(t.mode, "none") else Or(t.headerType, "none"),
     t.host, t.path, tlsField, tls.serverName, tls.alpn, tls.fingerprint, t.authority, t.mode, mask]
  }

  /** The fields of the configuration: the first `always` of them in any case. */
  function Fields(names: seq<string>, values: seq<string>, always: nat): seq<Field>
    requires |names| == |values|
  {
    if names == [] then []
    else
      (if always == 0 && values[0] == "" then [] else [Field(names[0], Str(values[0]))])
      + Fields(names[1..], values[1..], if always == 0 then 0 else always - 1)
  }

  type Coder = string -> string

  function VmessLink(stringify: Printer, base64: Coder, u: VmessUser, t: Transport, tls: Tls, tlsField: string, mask: string): string {
    "vmess://" + base64(stringify(Obj(Fields(VMESS_NAMES, VmessValues(u, t, tls, tlsField, mask), VMESS_ALWAYS))))
  }

  /** `vmess://` links over a base64 encoder; `None` where the printer throws. */
  function ShareVmess(parse: Parser, stringify: Printer, derive: string -> Option<string>, base64: Coder, host: string, port: nat,
                      displayName: string, stream: Json, client: Json): Option<string> {
    var t, tls := ShareTransport(parse, stream), ShareTls(parse, derive, stream);
    if UserId(client) == "" || LowerText(RawSecurity(stream)) == "reality" || t.None? || tls.None? then None
    else
      Some(VmessLink(stringify, base64, UserOf(host, port, displayName, client), t.value, tls.value, TlsField(stream),
                     FinalMask(parse, stringify, stream)))
  }

  // ---- the VMess reader ----

  function FromUrlSafe(s: string): string {
    if s == "" then "" else [if s[0] == '-' then '+' else if s[0] == '_' then '/' else s[0]] + FromUrlSafe(s[1..])
  }

  function NormalizeBase64(s: string): string {
    FromUrlSafe(s) + (match |s| % 4 case 0 => "" case 1 => "===" case 2 => "==" case _ => "=")
  }

  function PortOf(v: Option<Json>): Option<nat> {
    match v
    case Some(Str(s)) => ParseDecimal(Trim(s))
    case Some(Num(s)) => ParseDecimal(s)
    case _ => None
  }

  function ReadVmess(v: Json): Imported {
    var network := Or(StringValue(Get(v, "net")), "tcp");
    var host, path, add := StringValue(Get(v, "host")), StringValue(Get(v, "path")), StringValue(Get(v, "add"));
    var security := Or(StringValue(Get(v, "tls")), "none");
    Imported(
      add, PortOf(Get(v, "port")), StringValue(Get(v, "id")), Or(StringValue(Get(v, "scy")), "auto"), "", network, security,
      if network == "ws" then Or(path, "/") else "",
      if network == "ws" then host else "",
      if network == "grpc" then path else "",
      if security == "tls" then Or(StringValue(Get(v, "sni")), Or(host, add)) else "",
      "", "", Truncated(Or(StringValue(Get(v, "ps")), "vmess-" + Or(add, "outbound"))))
  }

  function ParseVmess(parse: Parser, unbase64: Coder, input: string): Option<Imported> {
    var raw := if |input| >= 8 && LowerText(input[..8]) == "vmess://" then input[8..] else input;
    var config := parse(unbase64(NormalizeBase64(raw)));
    if config.None? || config.value.Null? then None else Some(ReadVmess(config.value))
  }

  // ---- VMess round trip ----

  /** Base64 as far as it is used: decoding the normalized encoding gives the text. */
  ghost predicate Base64Law(base64: Coder, unbase64: Coder) {
    forall s :: unbase64(NormalizeBase64(base64(s))) == s
  }

  lemma VmessNamesDiffer()
    ensures Different(VMESS_NAMES)
  {
    forall i, j | 0 <= i < j < |VMESS_NAMES|
      ensures VMESS_NAMES[i] != VMESS_NAMES[j]
    {
      assert Code(VMESS_NAMES[i]) != Code(VMESS_NAMES[j]);
    }
  }

  lemma {:induction false} FieldsHold(names: seq<string>, values: seq<string>, always: nat, i: nat)
    requires |names| == |values| && Different(names) && i < |names|
    ensures i < always ==> Lookup(Fields(names, values, always), names[i]) == Some(Str(values[i]))
  {
    var fields, rest := Fields(names, values, always), Fields(names[1..], values[1..], if always == 0 then 0 else always - 1);
    if i > 0 && always > 0 {
      FieldsHold(names[1..], values[1..], always - 1, i - 1);
      assert fields[0] == Field(names[0], Str(values[0])) && fields[1..] == rest;
    }
  }

  /** A name that does not start with a digit is no array index. */
  predicate Worded(name: string) {
    name != "" && !('0' <= name[0] <= '9')
  }

  lemma {:induction false} DecimalHead(n: nat)
    ensures '0' <= Decimal(n)[0] <= '9'
  {
    if n >= 10 {
      DecimalHead(n / 10);
      assert Decimal(n)[0] == Decimal(n / 10)[0];
    }
  }

  lemma WordedIsNoIndex(key: string, name: string)
    requires Worded(name)
    ensures Precedes(key, name)
  {
    forall n: nat
      ensures !IsIndex(name, n)
    {
      DecimalHead(n);
    }
  }

  lemma {:induction false} FieldsAreProper(parse: Parser, names: seq<string>, values: seq<string>, always: nat)
    requires |names| == |values| && Different(names) && forall n <- names :: Worded(n)
    ensures ProperFields(parse, Fields(names, values, always))
    ensures PrintedFields(Fields(names, values, always)) == Fields(names, values, always)
    ensures forall f <- Fields(names, values, always) :: f.key in names
    ensures forall q :: q !in names ==> Lookup(Fields(names, values, always), q).None?
  {
    if names != [] {
      var fields, rest := Fields(names, values, always), Fields(names[1..], values[1..], if always == 0 then 0 else always - 1);
      FieldsAreProper(parse, names[1..], values[1..], if always == 0 then 0 else always - 1);
      assert names == [names[0]] + names[1..];
      if always == 0 && values[0] == "" {
        assert fields == rest;
      } else {
        assert fields[0] == Field(names[0], Str(values[0])) && fields[1..] == rest;
        forall f | f in rest
          ensures Precedes(names[0], f.key)
        {
          WordedIsNoIndex(names[0], f.key);
        }
        FiniteFields(fields);
      }
    }
  }

  lemma ConfigNames()
    ensures |VMESS_NAMES| == 18
    ensures VMESS_NAMES[1] == "ps" && VMESS_NAMES[2] == "add" && VMESS_NAMES[3] == "port" && VMESS_NAMES[4] == "id"
    ensures VMESS_NAMES[6] == "scy"
    ensures VMESS_NAMES[7] == "net" && VMESS_NAMES[9] == "host" && VMESS_NAMES[10] == "path"
    ensures VMESS_NAMES[11] == "tls" && VMESS_NAMES[12] == "sni"
  {
  }

  /** What the reader finds in a printed configuration. */
  lemma ConfigUser(values: seq<string>)
    requires |values| == |VMESS_NAMES|
    ensures
      var v := Obj(Fields(VMESS_NAMES, values, VMESS_ALWAYS));
      && Get(v, "ps") == Some(Str(values[1])) && Get(v, "add") == Some(Str(values[2]))
      && Get(v, "port") == Some(Str(values[3])) && Get(v, "id") == Some(Str(values[4])) && Get(v, "scy") == Some(Str(values[6]))
  {
    ConfigNames();
    ConfigAt(values, 6, "scy");
    ConfigAt(values, 1, "ps");
    ConfigAt(values, 2, "add");
    ConfigAt(values, 3, "port");
    ConfigAt(values, 4, "id");
  }

  lemma ConfigTransport(values: seq<string>)
    requires |values| == |VMESS_NAMES|
    ensures
      var v := Obj(Fields(VMESS_NAMES, values, VMESS_ALWAYS));
      && Get(v, "net") == Some(Str(values[7])) && Get(v, "host") == Some(Str(values[9])) && Get(v, "path") == Some(Str(values[10]))
  {
    ConfigNames();
    ConfigAt(values, 7, "net");
    ConfigAt(values, 9, "host");
    ConfigAt(values, 10, "path");
  }

  lemma ConfigTls(values: seq<string>)
    requires |values| == |VMESS_NAMES|
    ensures
      var v := Obj(Fields(VMESS_NAMES, values, VMESS_ALWAYS));
      && Get(v, "tls") == Some(Str(values[11])) && Get(v, "sni") == Some(Str(values[12]))
  {
    ConfigNames();
    ConfigAt(values, 11, "tls");
    ConfigAt(values, 12, "sni");
  }

  lemma ConfigIsProper(parse: Parser, values: seq<string>)
    requires |values| == |VMESS_NAMES|
    ensures
      var v := Obj(Fields(VMESS_NAMES, values, VMESS_ALWAYS));
      Proper(parse, v) && Finite(v)
  {
    VmessNamesDiffer();
    FieldsAreProper(parse, VMESS_NAMES, values, VMESS_ALWAYS);
  }

  lemma ConfigAt(values: seq<string>, i: nat, name: string)
    requires |values| == |VMESS_NAMES| && i < VMESS_ALWAYS && VMESS_NAMES[i] == name
    ensures Get(Obj(Fields(VMESS_NAMES, values, VMESS_ALWAYS)), name) == Some(Str(values[i]))
  {
    VmessNamesDiffer();
    FieldsHold(VMESS_NAMES, values, VMESS_ALWAYS, i);
  }

  lemma NoSpaceIsClean(s: string)
    requires forall c <- s :: !IsSpace(c)
    ensures Clean(s)
  {
    if s != "" {
      assert s[0] in s && s[|s| - 1] in s;
    }
  }

  lemma NumberIsClean(n: nat)
    ensures Clean(Decimal(n))
  {
    DecimalRoundTrip(n);
    NoSpaceIsClean(Decimal(n));
  }

  /** The values the reader trims are printed without surrounding space. */
  ghost predicate CleanValues(values: seq<string>)
    requires |values| == |VMESS_NAMES|
  {
    && Clean(values[1]) && Clean(values[2]) && Clean(values[3]) && Clean(values[4]) && Clean(values[6]) && Clean(values[7])
    && Clean(values[9]) && Clean(values[10]) && Clean(values[11]) && Clean(values[12])
  }

  lemma ConfigIsRead(values: seq<string>, port: nat)
    requires |values| == |VMESS_NAMES| && CleanValues(values)
    requires values[1] != "" && values[3] == Decimal(port) && values[7] != "" && (values[7] == "ws" ==> values[10] != "")
    ensures
      var i := ReadVmess(Obj(Fields(VMESS_NAMES, values, VMESS_ALWAYS)));
      && i.name == Truncated(values[1]) && i.address == values[2] && i.port == Some(port) && i.id == values[4] && i.network == values[7]
      && i.encryption == Or(values[6], "auto")
      && (i.network == "ws" ==> i.path == values[10] && i.host == values[9])
      && (i.network == "grpc" ==> i.serviceName == values[10])
      && i.security == Or(values[11], "none")
      && (i.security == "tls" ==> i.serverName == Or(values[12], Or(values[9], values[2])))
      && (i.security != "tls" ==> i.serverName == "")
  {
    ConfigUser(values);
    ConfigTransport(values);
    ConfigTls(values);
    DecimalRoundTrip(port);
    TrimIsClean(values[1]);
    TrimIsClean(values[2]);
    TrimIsClean(values[3]);
    TrimIsClean(values[4]);
    TrimIsClean(values[6]);
    TrimIsClean(values[7]);
    TrimIsClean(values[9]);
    TrimIsClean(values[10]);
    TrimIsClean(values[11]);
    TrimIsClean(values[12]);
  }

  ghost predicate CleanUser(u: VmessUser) {
    u.name != "" && Clean(u.name) && Clean(u.address) && Clean(u.port) && Clean(u.id) && Clean(u.cipher) && u.cipher != ""
  }

  lemma UserIsClean(host: string, port: nat, displayName: string, client: Json)
    requires GoodHost(host)
    ensures CleanUser(UserOf(host, port, displayName, client))
  {
    NameIsClean(displayName);
    IdIsClean(client);
    CipherIsClean(client);
    HostIsClean(host);
    NumberIsClean(port);
  }

  lemma NameIsClean(displayName: string)
    ensures Clean(DisplayName(displayName)) && DisplayName(displayName) != ""
  {
    TrimIsClean(displayName);
    NoSpaceIsClean("3x-ui");
  }

  lemma CipherIsClean(client: Json)
    ensures Clean(Or(StringValue(Get(client, "security")), "auto")) && Or(StringValue(Get(client, "security")), "auto") != ""
  {
    ValuesAreClean(Get(client, "security"));
    NoSpaceIsClean("auto");
  }

  lemma IdIsClean(client: Json)
    ensures Clean(UserId(client))
  {
    ValuesAreClean(Get(client, "id"));
    ValuesAreClean(Get(client, "uuid"));
    OrIsClean(StringValue(Get(client, "id")), StringValue(Get(client, "uuid")));
  }

  lemma HostIsClean(host: string)
    requires GoodHost(host)
    ensures Clean(Unbracketed(host))
  {
    forall c | c in Unbracketed(host)
      ensures !IsSpace(c)
    {
      assert c in host;
      assert ' ' < c <= '~';
    }
    NoSpaceIsClean(Unbracketed(host));
  }

  lemma VmessLinkRoundTrip(parse: Parser, stringify: Printer, derive: string -> Option<string>, base64: Coder, unbase64: Coder,
                            host: string, port: nat, displayName: string, stream: Json, client: Json)
    requires JsonLaws(parse, stringify) && Base64Law(base64, unbase64) && GoodHost(host)
    ensures
      var link := ShareVmess(parse, stringify, derive, base64, host, port, displayName, stream, client);
      link.Some? ==>
        && ParseVmess(parse, unbase64, link.value).Some?
        && var i := ParseVmess(parse, unbase64, link.value).value;
        && i.address == Unbracketed(host) && i.port == Some(port) && i.id == UserId(client) && i.name == Truncated(DisplayName(displayName))
        && i.encryption == Or(StringValue(Get(client, "security")), "auto")
        && SameVmess(i, ShareTransport(parse, stream).value, ShareTls(parse, derive, stream).value, LowerText(RawSecurity(stream)) == "tls")
  {
    var t, tls := ShareTransport(parse, stream), ShareTls(parse, derive, stream);
    if ShareVmess(parse, stringify, derive, base64, host, port, displayName, stream, client).Some? {
      TransportIsClean(parse, stream);
      TlsIsClean(parse, derive, stream);
      UserIsClean(host, port, displayName, client);
      VmessRoundTrip(parse, stringify, base64, unbase64, UserOf(host, port, displayName, client), port, t.value, tls.value,
                     TlsField(stream), FinalMask(parse, stringify, stream));
    }
  }

  lemma VmessRoundTrip(parse: Parser, stringify: Printer, base64: Coder, unbase64: Coder, u: VmessUser, port: nat,
                       t: Transport, tls: Tls, tlsField: string, mask: string)
    requires JsonLaws(parse, stringify) && Base64Law(base64, unbase64)
    requires CleanUser(u) && u.port == Decimal(port) && CleanTransport(t) && Clean(tls.serverName)
    requires tlsField == "tls" || tlsField == ""
    ensures
      var i := ParseVmess(parse, unbase64, VmessLink(stringify, base64, u, t, tls, tlsField, mask));
      && i.Some?
      && i.value.address == u.address && i.value.port == Some(port) && i.value.id == u.id && i.value.name == Truncated(u.name)
      && i.value.encryption == u.cipher
      && SameVmess(i.value, t, tls, tlsField == "tls")
  {
    var v := Obj(Fields(VMESS_NAMES, VmessValues(u, t, tls, tlsField, mask), VMESS_ALWAYS));
    VmessConfigIsRead(u, port, t, tls, tlsField, mask, v);
    ConfigIsProper(parse, VmessValues(u, t, tls, tlsField, mask));
    VmessIsRead(parse, stringify, base64, unbase64, v);
  }

  lemma VmessConfigIsRead(u: VmessUser, port: nat, t: Transport, tls: Tls, tlsField: string, mask: string, v: Json)
    requires CleanUser(u) && u.port == Decimal(port) && CleanTransport(t) && Clean(tls.serverName)
    requires tlsField == "tls" || tlsField == ""
    requires v == Obj(Fields(VMESS_NAMES, VmessValues(u, t, tls, tlsField, mask), VMESS_ALWAYS))
    ensures
      var i := ReadVmess(v);
      && i.address == u.address && i.port == Some(port) && i.id == u.id && i.name == Truncated(u.name) && i.encryption == u.cipher
      && SameVmess(i, t, tls, tlsField == "tls")
  {
    VmessValuesAre(u, t, tls, tlsField, mask, VmessValues(u, t, tls, tlsField, mask));
    ConfigIsRead(VmessValues(u, t, tls, tlsField, mask), port);
  }

  lemma VmessValuesAre(u: VmessUser, t: Transport, tls: Tls, tlsField: string, mask: string, values: seq<string>)
    requires values == VmessValues(u, t, tls, tlsField, mask)
    requires CleanUser(u) && CleanTransport(t) && Clean(tls.serverName) && (tlsField == "tls" || tlsField == "")
    ensures |values| == |VMESS_NAMES| && CleanValues(values)
    ensures values[1] == u.name && values[2] == u.address && values[3] == u.port && values[4] == u.id && values[7] == t.network
    ensures values[6] == u.cipher
    ensures values[11] == tlsField && values[12] == tls.serverName && (t.network == "ws" ==> values[9] == t.host)
    ensures (t.network == "ws" ==> values[10] == t.path) && (t.network == "grpc" ==> values[10] == t.serviceName)
  {
    VmessUserValues(u, t, tls, tlsField, mask);
    VmessLinkValues(u, t, tls, tlsField, mask);
    NoSpaceIsClean("tls");
    NoSpaceIsClean("");
  }

  lemma VmessUserValues(u: VmessUser, t: Transport, tls: Tls, tlsField: string, mask: string)
    ensures
      var values := VmessValues(u, t, tls, tlsField, mask);
      && |values| == |VMESS_NAMES|
      && values[1] == u.name && values[2] == u.address && values[3] == u.port && values[4] == u.id && values[7] == t.network
      && values[6] == u.cipher
  {
  }

  lemma VmessLinkValues(u: VmessUser, t: Transport, tls: Tls, tlsField: string, mask: string)
    ensures
      var values := VmessValues(u, t, tls, tlsField, mask);
      values[9] == t.host && values[10] == t.path && values[11] == tlsField && values[12] == tls.serverName
  {
  }

  predicate SameVmess(i: Imported, t: Transport, tls: Tls, secure: bool) {
    && i.network == t.network
    && (t.network == "ws" ==> i.path == t.path && i.host == t.host)
    && (t.network == "grpc" ==> i.serviceName == t.serviceName)
    && (tls.serverName != "" ==> (i.serverName == tls.serverName <==> secure))
  }

  lemma VmessIsRead(parse: Parser, stringify: Printer, base64: Coder, unbase64: Coder, v: Json)
    requires JsonLaws(parse, stringify) && Base64Law(base64, unbase64) && v.Obj? && Proper(parse, v) && Finite(v)
    ensures ParseVmess(parse, unbase64, "vmess://" + base64(stringify(v))) == Some(ReadVmess(v))
  {
    var input := "vmess://" + base64(stringify(v));
    assert input[..8] == "vmess://" && input[8..] == base64(stringify(v));
    PrefixLowers();
  }

  lemma PrefixLowers()
    ensures LowerText("vmess://") == "vmess://"
  {
    var s := "vmess://";
    LowerStays(s);
  }

  lemma {:induction false} LowerStays(s: string)
    requires forall c <- s :: !('A' <= c <= 'Z')
    ensures LowerText(s) == s
  {
    if s != "" {
      assert s[0] in s && forall c <- s[1..] :: c in s;
      LowerStays(s[1..]);
      assert s == [s[0]] + s[1..];
    }
  }

  /** The import reads from a printed VMess link the address without brackets, port,
      user and transport it was printed from. It reads the TLS server name exactly
      when the security is "tls" as it stands, in any case but without space. */
  lemma ShareVmessRoundTrip(parse: Parser, stringify: Printer, derive: string -> Option<string>, base64: Coder, unbase64: Coder,
                            host: string, port: nat, displayName: string, stream: Json, client: Json)
    requires JsonLaws(parse, stringify) && Base64Law(base64, unbase64) && GoodHost(host)
    ensures
      var link := ShareVmess(parse, stringify, derive, base64, host, port, displayName, stream, client);
      var t, tls := ShareTransport(parse, stream), ShareTls(parse, derive, stream);
      link.Some? ==>
        && t.Some? && tls.Some? && ParseVmess(parse, unbase64, link.value).Some?
        && var i := ParseVmess(parse, unbase64, link.value).value;
        && i.address == Unbracketed(host) && i.port == Some(port) && i.id == UserId(client)
        && i.name == Truncated(DisplayName(displayName))
        && i.encryption == Or(StringValue(Get(client, "security")), "auto")
        && SameVmess(i, t.value, tls.value, LowerText(RawSecurity(stream)) == "tls")
  {
    VmessLinkRoundTrip(parse, stringify, derive, base64, unbase64, host, port, displayName, stream, client);
  }

  // ---- a VMess link that loses its server name ----

  /** TLS with a server name, and a space on either side of the security. */
  function SpacedStream(): Json {
    Obj([Field("security", Str(" tls ")), Field("tlsSettings", Obj([Field("serverName", Str("a"))]))])
  }

  lemma SpacedFields()
    ensures Get(SpacedStream(), "security") == Some(Str(" tls ")) && Get(SpacedStream(), "network") == None
    ensures Get(SpacedStream(), "tlsSettings") == Some(Obj([Field("serverName", Str("a"))]))
    ensures Get(Obj([Field("serverName", Str("a"))]), "serverName") == Some(Str("a"))
  {
    var fields, rest := SpacedStream().fields, [Field("tlsSettings", Obj([Field("serverName", Str("a"))]))];
    assert fields[1..] == rest && rest[1..] == [];
    assert |"security"| == 8 && |"network"| == 7 && |"tlsSettings"| == 11;
    assert Lookup(rest, "network") == None;
  }

  lemma TrimmedTls()
    ensures Trim(" tls ") == "tls" && Trim("tcp") == "tcp" && Trim("a") == "a"
  {
    assert " tls "[1..] == "tls " && "tls "[..3] == "tls";
    assert IsSpace(' ') && !IsSpace('t') && !IsSpace('s') && !IsSpace('p') && !IsSpace('a');
    assert Trim("tls ") == Trim("tls");
  }

  lemma {:induction false} LowerLength(s: string)
    ensures |LowerText(s)| == |s|
  {
    if s != "" {
      LowerLength(s[1..]);
    }
  }

  lemma SpacedTransport(parse: Parser)
    ensures ShareTransport(parse, SpacedStream()).Some?
  {
    SpacedFields();
    TrimmedTls();
    LowerStays("tcp");
    assert Word(None, "tcp") == "tcp";
  }

  lemma SpacedSecurity()
    ensures Word(Get(SpacedStream(), "security"), "none") == "tls"
    ensures LowerText(RawSecurity(SpacedStream())) !in {"tls", "reality"}
  {
    SpacedFields();
    TrimmedTls();
    LowerStays("tls");
    LowerLength(" tls ");
    assert RawSecurity(SpacedStream()) == " tls ";
    assert |" tls "| == 5 && |"tls"| == 3 && |"reality"| == 7;
  }

  lemma SpacedTls(parse: Parser, derive: string -> Option<string>)
    ensures ShareTls(parse, derive, SpacedStream()).Some? && ShareTls(parse, derive, SpacedStream()).value.serverName == "a"
  {
    SpacedSecurity();
    SpacedFields();
    TrimmedTls();
    assert |"reality"| == 7 && |"tls"| == 3;
    assert ShareTls(parse, derive, SpacedStream()) == Some(PlainTls(parse, SpacedStream()));
  }

  lemma LinkIsPrinted(parse: Parser, stringify: Printer, derive: string -> Option<string>, base64: Coder,
                      host: string, port: nat, displayName: string, stream: Json, client: Json)
    ensures ShareVmess(parse, stringify, derive, base64, host, port, displayName, stream, client).Some? <==>
              UserId(client) != "" && LowerText(RawSecurity(stream)) != "reality"
              && ShareTransport(parse, stream).Some? && ShareTls(parse, derive, stream).Some?
  {
  }

  lemma NameIsLost(parse: Parser, stringify: Printer, derive: string -> Option<string>, base64: Coder, unbase64: Coder,
                   host: string, port: nat, displayName: string, stream: Json, client: Json)
    requires JsonLaws(parse, stringify) && Base64Law(base64, unbase64) && GoodHost(host)
    ensures
      var link := ShareVmess(parse, stringify, derive, base64, host, port, displayName, stream, client);
      link.Some? && LowerText(RawSecurity(stream)) != "tls" ==>
        && ParseVmess(parse, unbase64, link.value).Some? && ShareTls(parse, derive, stream).Some?
        && var name := ShareTls(parse, derive, stream).value.serverName;
        && (name != "" ==> ParseVmess(parse, unbase64, link.value).value.serverName != name)
  {
    ShareVmessRoundTrip(parse, stringify, derive, base64, unbase64, host, port, displayName, stream, client);
  }

  /** The link of such an inbound is read without its server name. */
  lemma SpacedSecurityExample(parse: Parser, stringify: Printer, derive: string -> Option<string>, base64: Coder, unbase64: Coder,
                              host: string, port: nat, displayName: string, client: Json)
    requires JsonLaws(parse, stringify) && Base64Law(base64, unbase64) && GoodHost(host) && UserId(client) != ""
    ensures
      var link := ShareVmess(parse, stringify, derive, base64, host, port, displayName, SpacedStream(), client);
      && link.Some? && ParseVmess(parse, unbase64, link.value).Some?
      && ShareTls(parse, derive, SpacedStream()).value.serverName == "a"
      && ParseVmess(parse, unbase64, link.value).value.serverName != "a"
  {
    SpacedTransport(parse);
    SpacedTls(parse, derive);
    SpacedSecurity();
    LinkIsPrinted(parse, stringify, derive, base64, host, port, displayName, SpacedStream(), client);
    NameIsLost(parse, stringify, derive, base64, unbase64, host, port, displayName, SpacedStream(), client);
  }
}

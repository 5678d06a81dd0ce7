/** What a share link carries, over the JSON of the inbound it is printed from. */
module SharedSettings {
  import opened Options
  import opened JsonValues
  import opened Texts
  import opened PanelFields
  import opened Urls
  import opened ShareLinks

  // ---- reading a panel's JSON ----

  /** The object a property holds, as it stands or serialized in a string; anything
      else counts as an empty one. */
  ghost predicate Opens(parse: Parser, v: Option<Json>, o: Json) {
    match v
    case Some(Obj(fields)) => o == Obj(fields)
    case Some(Str(s)) =>
      if parse(s).Some? && parse(s).value.Obj? then o == parse(s).value else o == Obj([])
    case _ => o == Obj([])
  }

  /** Where a value may be set: a string, a header that may be a list, or a list of
      which the first entry with any text counts. */
  datatype Source =
    | Plain(o: Json, key: string)
    | Header(o: Json, key: string)
    | Listed(o: Json, key: string)

  predicate TextIs(v: Json, text: string) {
    v.Str? && Trim(v.s) == text
  }

  /** The source sets the value, which is not empty. */
  ghost predicate Sets(source: Source, value: string) {
    && value != ""
    && var v := Get(source.o, source.key);
    && v.Some?
    && match source
       case Plain(_, _) => TextIs(v.value, value)
       case Header(_, _) =>
         TextIs(v.value, value) || (v.value.Arr? && v.value.items != [] && TextIs(v.value.items[0], value))
       case Listed(_, _) =>
         TextIs(v.value, value) || (v.value.Arr? && FirstText(v.value.items, value))
  }

  /** The first entry with any text has this one. */
  ghost predicate FirstText(items: seq<Json>, text: string) {
    exists i :: FirstTextAt(items, text, i)
  }

  ghost predicate Silent(source: Source) {
    forall value :: !Sets(source, value)
  }

  /** The value of the first source that sets one, else the default. */
  ghost predicate Chosen(sources: seq<Source>, default: string, value: string) {
    || (exists i :: 0 <= i < |sources| && Sets(sources[i], value) && forall j :: 0 <= j < i ==> Silent(sources[j]))
    || ((forall i :: 0 <= i < |sources| ==> Silent(sources[i])) && value == default)
  }

  /** ASCII letters in lower case. */
  ghost predicate Lowered(text: string, lower: string) {
    && |lower| == |text|
    && forall i :: 0 <= i < |text| ==>
         lower[i] == if 'A' <= text[i] <= 'Z' then (text[i] as int + 32) as char else text[i]
  }

  /** The property's text without outer white space, in lower case. */
  ghost predicate WordIs(v: Option<Json>, default: string, word: string) {
    if Truthy(v) then Lowered(Trim(JsonText(v.value)), word) else word == default
  }

  // ---- the functions of the printer, read this way ----

  lemma OpensIs(parse: Parser, v: Option<Json>, o: Json)
    ensures Opens(parse, v, o) <==> o == XuiObject(parse, v)
  {
  }

  function Found(source: Source): string {
    var v := Get(source.o, source.key);
    match source
    case Plain(_, _) => StringValue(v)
    case Header(_, _) => FirstHeaderValue(v)
    case Listed(_, _) => First(StringList(v))
  }

  ghost predicate FirstTextAt(items: seq<Json>, text: string, i: int) {
    && 0 <= i < |items| && Trim(JsonText(items[i])) == text != ""
    && forall j :: 0 <= j < i ==> Trim(JsonText(items[j])) == ""
  }

  lemma NextText(items: seq<Json>, text: string, i: int)
    requires items != [] && Trim(JsonText(items[0])) == ""
    ensures FirstTextAt(items[1..], text, i) <==> i >= 0 && FirstTextAt(items, text, i + 1)
  {
    assert forall j :: 0 <= j < |items| - 1 ==> items[1..][j] == items[j + 1];
    if FirstTextAt(items[1..], text, i) {
      forall j | 0 <= j < i + 1
        ensures Trim(JsonText(items[j])) == ""
      {
        assert j > 0 ==> items[j] == items[1..][j - 1];
      }
    }
    if i >= 0 && FirstTextAt(items, text, i + 1) {
      forall j | 0 <= j < i
        ensures Trim(JsonText(items[1..][j])) == ""
      {
        assert items[1..][j] == items[j + 1];
      }
    }
  }

  lemma {:induction false} FirstTextIs(items: seq<Json>, text: string)
    ensures FirstText(items, text) <==> text != "" && First(TrimmedTexts(items)) == text
  {
    if items != [] {
      if Trim(JsonText(items[0])) != "" {
        assert FirstTextAt(items, Trim(JsonText(items[0])), 0);
      } else {
        FirstTextIs(items[1..], text);
        forall i
          ensures FirstTextAt(items[1..], text, i) <==> i >= 0 && FirstTextAt(items, text, i + 1)
        {
          NextText(items, text, i);
        }
        if i :| FirstTextAt(items, text, i) {
          assert FirstTextAt(items[1..], text, i - 1);
        }
      }
    }
  }

  lemma SetsIs(source: Source, value: string)
    ensures Sets(source, value) <==> value != "" && Found(source) == value
  {
    var v := Get(source.o, source.key);
    if v.Some? && v.value.Arr? {
      FirstTextIs(v.value.items, value);
    }
  }

  lemma SilentIs(source: Source)
    ensures Silent(source) <==> Found(source) == ""
  {
    SetsIs(source, Found(source));
    forall value
      ensures Sets(source, value) <==> value != "" && Found(source) == value
    {
      SetsIs(source, value);
    }
  }

  function FirstOf(sources: seq<Source>, default: string): string {
    if sources == [] then default else Or(Found(sources[0]), FirstOf(sources[1..], default))
  }

  lemma {:induction false} ChosenIs(sources: seq<Source>, default: string)
    ensures Chosen(sources, default, FirstOf(sources, default))
  {
    if sources != [] {
      var rest, value := sources[1..], FirstOf(sources, default);
      ChosenIs(rest, default);
      SilentIs(sources[0]);
      SetsIs(sources[0], value);
      if Silent(sources[0]) {
        if i :| 0 <= i < |rest| && Sets(rest[i], value) && forall j :: 0 <= j < i ==> Silent(rest[j]) {
          assert sources[i + 1] == rest[i] && forall j :: 0 < j < i + 1 ==> sources[j] == rest[j - 1];
        } else {
          assert forall i :: 0 < i < |sources| ==> sources[i] == rest[i - 1];
        }
      } else {
        assert Sets(sources[0], value);
      }
    }
  }

  lemma {:induction false} LoweredIs(text: string, lower: string)
    ensures Lowered(text, lower) <==> lower == LowerText(text)
  {
    LowerLength(text);
    if text != "" {
      LoweredIs(text[1..], LowerText(text[1..]));
      assert LowerText(text)[1..] == LowerText(text[1..]);
      assert forall i :: 0 < i < |text| ==> text[i] == text[1..][i - 1] && LowerText(text)[i] == LowerText(text[1..])[i - 1];
    }
    if Lowered(text, lower) {
      assert Lowered(text, LowerText(text));
      assert lower == LowerText(text);
    }
  }

  lemma WordIsIt(v: Option<Json>, default: string, word: string)
    requires LowerText(Trim(default)) == default
    ensures WordIs(v, default, word) <==> word == Word(v, default)
  {
    if Truthy(v) {
      LoweredIs(Trim(JsonText(v.value)), word);
    }
  }

  // ---- what the stream says ----

  /** The objects of a stream that a link is printed from. */
  datatype Opened = Opened(
    header: Json, request: Json, requestHeaders: Json, ws: Json, wsHeaders: Json, grpc: Json,
    tls: Json, tlsInner: Json, reality: Json, realityInner: Json)

  ghost predicate OpensAll(parse: Parser, stream: Json, s: Opened) {
    && (exists tcp ::
          && Opens(parse, if Truthy(Get(stream, "tcpSettings")) then Get(stream, "tcpSettings") else Get(stream, "rawSettings"), tcp)
          && Opens(parse, Get(tcp, "header"), s.header))
    && Opens(parse, Get(s.header, "request"), s.request) && Opens(parse, Get(s.request, "headers"), s.requestHeaders)
    && Opens(parse, Get(stream, "wsSettings"), s.ws) && Opens(parse, Get(s.ws, "headers"), s.wsHeaders)
    && Opens(parse, Get(stream, "grpcSettings"), s.grpc)
    && Opens(parse, Get(stream, "tlsSettings"), s.tls) && Opens(parse, Get(s.tls, "settings"), s.tlsInner)
    && Opens(parse, Get(stream, "realitySettings"), s.reality) && Opens(parse, Get(s.reality, "settings"), s.realityInner)
  }

  /** The network of a stream, as far as the model goes. */
  ghost predicate NetworkIs(stream: Json, network: string) {
    var v := Get(stream, "network");
    || (network == "tcp" && (WordIs(v, "tcp", "tcp") || WordIs(v, "tcp", "raw")))
    || (network == "ws" && WordIs(v, "tcp", "ws"))
    || (network == "grpc" && WordIs(v, "tcp", "grpc"))
  }

  ghost predicate SecurityIs(stream: Json, security: string) {
    var v := Get(stream, "security");
    || ((security == "tls" || security == "reality") && WordIs(v, "none", security))
    || (security == "none" && !WordIs(v, "none", "tls") && !WordIs(v, "none", "reality"))
  }

  /** The public key, or the one derived from the private key. */
  ghost predicate KeyIs(derive: string -> Option<string>, s: Opened, key: string) {
    exists private ::
      && Chosen([Plain(s.reality, "privateKey"), Plain(s.realityInner, "privateKey")], "", private)
      && Chosen([Plain(s.reality, "publicKey"), Plain(s.realityInner, "publicKey")], Derived(derive, private), key)
  }

  function Derived(derive: string -> Option<string>, private: string): string {
    if private == "" || derive(private).None? then "" else derive(private).value
  }

  ghost predicate RealityNameIs(s: Opened, name: string) {
    Chosen([Plain(s.reality, "serverName"), Plain(s.realityInner, "serverName"),
            Listed(s.reality, "serverNames"), Listed(s.realityInner, "serverNames")], "", name)
  }

  ghost predicate UserIs(client: Json, id: string) {
    Chosen([Plain(client, "id"), Plain(client, "uuid")], "", id)
  }

  // ---- what the printer takes from it ----

  ghost predicate TransportFrom(stream: Json, s: Opened, t: Transport) {
    && NetworkIs(stream, t.network)
    && (t.network == "tcp" ==>
          && Chosen([Plain(s.header, "type")], "none", t.headerType)
          && Chosen([Header(s.requestHeaders, "Host")], "", t.host) && Chosen([Listed(s.request, "path")], "", t.path))
    && (t.network == "ws" ==>
          && Chosen([Plain(s.ws, "path")], "/", t.path)
          && Chosen([Plain(s.ws, "host"), Header(s.wsHeaders, "Host")], "", t.host))
    && (t.network == "grpc" ==>
          && Chosen([Plain(s.grpc, "serviceName")], "", t.serviceName) && t.path == t.serviceName
          && Chosen([Plain(s.grpc, "authority")], "", t.authority)
          && t.mode == if Get(s.grpc, "multiMode") == Some(Bool(true)) then "multi" else "")
  }

  ghost predicate TlsFrom(derive: string -> Option<string>, stream: Json, s: Opened, tls: Tls) {
    && SecurityIs(stream, tls.security)
    && (tls.security == "tls" ==>
          && Chosen([Plain(s.tls, "serverName"), Plain(s.tlsInner, "serverName")], "", tls.serverName)
          && Chosen([Plain(s.tlsInner, "fingerprint"), Plain(s.tls, "fingerprint")], "", tls.fingerprint)
          && tls.insecure == (Some(Bool(true)) in [Get(s.tlsInner, "allowInsecure"), Get(s.tls, "allowInsecure"), Get(s.tls, "insecure")]))
    && (tls.security == "reality" ==>
          && KeyIs(derive, s, tls.publicKey) && tls.publicKey != "" && RealityNameIs(s, tls.serverName) && tls.serverName != ""
          && Chosen([Plain(s.realityInner, "shortId"), Listed(s.reality, "shortIds"), Listed(s.realityInner, "shortIds")], "", tls.shortId)
          && Chosen([Plain(s.reality, "fingerprint"), Plain(s.realityInner, "fingerprint")], "chrome", tls.fingerprint)
          && Chosen([Plain(s.realityInner, "mldsa65Verify"), Plain(s.reality, "mldsa65Verify")], "", tls.verify)
          && Chosen([Plain(s.reality, "spiderX"), Plain(s.realityInner, "spiderX")], "/", tls.spiderX))
    && (tls.security == "none" ==> tls == Tls("none", "", "", "", "", "", "", "", false))
  }

  lemma OneIs(a: Source, default: string)
    ensures Chosen([a], default, Or(Found(a), default))
  {
    ChosenIs([a], default);
    assert [a][1..] == [];
    assert FirstOf([a], default) == Or(Found(a), FirstOf([], default));
  }

  lemma TwoAre(a: Source, b: Source, default: string)
    ensures Chosen([a, b], default, Or(Found(a), Or(Found(b), default)))
  {
    ChosenIs([a, b], default);
    assert [a, b][1..] == [b] && [b][1..] == [];
    assert FirstOf([b], default) == Or(Found(b), FirstOf([], default));
  }

  lemma ThreeAre(a: Source, b: Source, c: Source, default: string)
    ensures Chosen([a, b, c], default, Or(Found(a), Or(Found(b), Or(Found(c), default))))
  {
    ChosenIs([a, b, c], default);
    assert [a, b, c][1..] == [b, c] && [b, c][1..] == [c] && [c][1..] == [];
    assert FirstOf([c], default) == Or(Found(c), FirstOf([], default));
    assert FirstOf([b, c], default) == Or(Found(b), FirstOf([c], default));
  }

  lemma FourAre(a: Source, b: Source, c: Source, d: Source, default: string)
    ensures Chosen([a, b, c, d], default, Or(Found(a), Or(Found(b), Or(Found(c), Or(Found(d), default)))))
  {
    ChosenIs([a, b, c, d], default);
    assert [a, b, c, d][1..] == [b, c, d] && [b, c, d][1..] == [c, d] && [c, d][1..] == [d] && [d][1..] == [];
    assert FirstOf([d], default) == Or(Found(d), FirstOf([], default));
    assert FirstOf([c, d], default) == Or(Found(c), FirstOf([d], default));
    assert FirstOf([b, c, d], default) == Or(Found(b), FirstOf([c, d], default));
  }

  lemma PlainWords()
    ensures LowerText(Trim("tcp")) == "tcp" && LowerText(Trim("none")) == "none"
  {
    NoSpaceIsClean("tcp");
    NoSpaceIsClean("none");
    TrimIsClean("tcp");
    TrimIsClean("none");
    LowerStays("tcp");
    LowerStays("none");
  }

  lemma NetworksAre(stream: Json, network: string)
    ensures
      var raw := Word(Get(stream, "network"), "tcp");
      NetworkIs(stream, network) <==>
        (network == "tcp" && (raw == "tcp" || raw == "raw")) || (network == "ws" && raw == "ws") || (network == "grpc" && raw == "grpc")
  {
    PlainWords();
    WordIsIt(Get(stream, "network"), "tcp", "tcp");
    WordIsIt(Get(stream, "network"), "tcp", "raw");
    WordIsIt(Get(stream, "network"), "tcp", "ws");
    WordIsIt(Get(stream, "network"), "tcp", "grpc");
  }

  lemma SecuritiesAre(stream: Json)
    ensures
      var word := Word(Get(stream, "security"), "none");
      && (WordIs(Get(stream, "security"), "none", "tls") <==> word == "tls")
      && (WordIs(Get(stream, "security"), "none", "reality") <==> word == "reality")
  {
    PlainWords();
    WordIsIt(Get(stream, "security"), "none", "tls");
    WordIsIt(Get(stream, "security"), "none", "reality");
  }

  lemma TcpFrom(parse: Parser, stream: Json, s: Opened)
    requires OpensAll(parse, stream, s)
    ensures
      var t := TcpTransport(parse, stream);
      && Chosen([Plain(s.header, "type")], "none", t.headerType)
      && Chosen([Header(s.requestHeaders, "Host")], "", t.host) && Chosen([Listed(s.request, "path")], "", t.path)
  {
    var settings := XuiObject(parse, Either(stream, "tcpSettings", "rawSettings"));
    OpensIs(parse, Either(stream, "tcpSettings", "rawSettings"), settings);
    var tcp :|
      && Opens(parse, if Truthy(Get(stream, "tcpSettings")) then Get(stream, "tcpSettings") else Get(stream, "rawSettings"), tcp)
      && Opens(parse, Get(tcp, "header"), s.header);
    OpensIs(parse, Either(stream, "tcpSettings", "rawSettings"), tcp);
    OpensIs(parse, Get(tcp, "header"), s.header);
    OpensIs(parse, Get(s.header, "request"), s.request);
    OpensIs(parse, Get(s.request, "headers"), s.requestHeaders);
    OneIs(Plain(s.header, "type"), "none");
    OneIs(Header(s.requestHeaders, "Host"), "");
    OneIs(Listed(s.request, "path"), "");
  }

  lemma WsFrom(parse: Parser, stream: Json, s: Opened)
    requires OpensAll(parse, stream, s)
    ensures
      var t := WsTransport(parse, stream);
      && Chosen([Plain(s.ws, "path")], "/", t.path)
      && Chosen([Plain(s.ws, "host"), Header(s.wsHeaders, "Host")], "", t.host)
  {
    OpensIs(parse, Get(stream, "wsSettings"), s.ws);
    OpensIs(parse, Get(s.ws, "headers"), s.wsHeaders);
    OneIs(Plain(s.ws, "path"), "/");
    TwoAre(Plain(s.ws, "host"), Header(s.wsHeaders, "Host"), "");
  }

  lemma GrpcFrom(parse: Parser, stream: Json, s: Opened)
    requires OpensAll(parse, stream, s)
    ensures
      var t := GrpcTransport(parse, stream);
      && Chosen([Plain(s.grpc, "serviceName")], "", t.serviceName) && t.path == t.serviceName
      && Chosen([Plain(s.grpc, "authority")], "", t.authority)
      && t.mode == if Get(s.grpc, "multiMode") == Some(Bool(true)) then "multi" else ""
  {
    OpensIs(parse, Get(stream, "grpcSettings"), s.grpc);
    OneIs(Plain(s.grpc, "serviceName"), "");
    OneIs(Plain(s.grpc, "authority"), "");
  }

  /** The transport is there exactly for a known network, and is what the stream says. */
  lemma TransportMeans(parse: Parser, stream: Json, s: Opened)
    requires OpensAll(parse, stream, s)
    ensures
      var t := ShareTransport(parse, stream);
      && (t.Some? <==> exists network :: NetworkIs(stream, network))
      && (t.Some? ==> TransportFrom(stream, s, t.value))
  {
    NetworksAre(stream, "tcp");
    NetworksAre(stream, "ws");
    NetworksAre(stream, "grpc");
    TcpFrom(parse, stream, s);
    WsFrom(parse, stream, s);
    GrpcFrom(parse, stream, s);
    if network :| NetworkIs(stream, network) {
      NetworksAre(stream, network);
    }
  }

  lemma PlainTlsFrom(parse: Parser, stream: Json, s: Opened)
    requires OpensAll(parse, stream, s)
    ensures
      var tls := PlainTls(parse, stream);
      && Chosen([Plain(s.tls, "serverName"), Plain(s.tlsInner, "serverName")], "", tls.serverName)
      && Chosen([Plain(s.tlsInner, "fingerprint"), Plain(s.tls, "fingerprint")], "", tls.fingerprint)
      && tls.insecure == (Some(Bool(true)) in [Get(s.tlsInner, "allowInsecure"), Get(s.tls, "allowInsecure"), Get(s.tls, "insecure")])
  {
    OpensIs(parse, Get(stream, "tlsSettings"), s.tls);
    OpensIs(parse, Get(s.tls, "settings"), s.tlsInner);
    TwoAre(Plain(s.tls, "serverName"), Plain(s.tlsInner, "serverName"), "");
    TwoAre(Plain(s.tlsInner, "fingerprint"), Plain(s.tls, "fingerprint"), "");
  }

  function RealityKey(derive: string -> Option<string>, s: Opened): string {
    var private := Or(Found(Plain(s.reality, "privateKey")), Found(Plain(s.realityInner, "privateKey")));
    Or(Or(Found(Plain(s.reality, "publicKey")), Found(Plain(s.realityInner, "publicKey"))), Derived(derive, private))
  }

  lemma KeyFrom(derive: string -> Option<string>, s: Opened)
    ensures KeyIs(derive, s, RealityKey(derive, s))
  {
    var private := Or(Found(Plain(s.reality, "privateKey")), Found(Plain(s.realityInner, "privateKey")));
    TwoAre(Plain(s.reality, "privateKey"), Plain(s.realityInner, "privateKey"), "");
    TwoAre(Plain(s.reality, "publicKey"), Plain(s.realityInner, "publicKey"), Derived(derive, private));
  }

  lemma NameFrom(s: Opened)
    ensures RealityNameIs(s, RealityName(s.reality, s.realityInner))
  {
    FourAre(Plain(s.reality, "serverName"), Plain(s.realityInner, "serverName"),
            Listed(s.reality, "serverNames"), Listed(s.realityInner, "serverNames"), "");
  }

  lemma RealityFrom(parse: Parser, derive: string -> Option<string>, stream: Json, s: Opened)
    requires OpensAll(parse, stream, s)
    ensures
      var tls := RealityTls(parse, derive, stream);
      && (tls.Some? <==> RealityKey(derive, s) != "" && RealityName(s.reality, s.realityInner) != "")
      && (tls.Some? ==>
            && tls.value.security == "reality" && tls.value.publicKey == RealityKey(derive, s)
            && tls.value.serverName == RealityName(s.reality, s.realityInner))
  {
    OpensIs(parse, Get(stream, "realitySettings"), s.reality);
    OpensIs(parse, Get(s.reality, "settings"), s.realityInner);
  }

  lemma RealityRest(parse: Parser, derive: string -> Option<string>, stream: Json, s: Opened)
    requires OpensAll(parse, stream, s) && RealityTls(parse, derive, stream).Some?
    ensures
      var tls := RealityTls(parse, derive, stream).value;
      && Chosen([Plain(s.realityInner, "shortId"), Listed(s.reality, "shortIds"), Listed(s.realityInner, "shortIds")], "", tls.shortId)
      && Chosen([Plain(s.reality, "fingerprint"), Plain(s.realityInner, "fingerprint")], "chrome", tls.fingerprint)
      && Chosen([Plain(s.realityInner, "mldsa65Verify"), Plain(s.reality, "mldsa65Verify")], "", tls.verify)
      && Chosen([Plain(s.reality, "spiderX"), Plain(s.realityInner, "spiderX")], "/", tls.spiderX)
  {
    OpensIs(parse, Get(stream, "realitySettings"), s.reality);
    OpensIs(parse, Get(s.reality, "settings"), s.realityInner);
    ThreeAre(Plain(s.realityInner, "shortId"), Listed(s.reality, "shortIds"), Listed(s.realityInner, "shortIds"), "");
    TwoAre(Plain(s.reality, "fingerprint"), Plain(s.realityInner, "fingerprint"), "chrome");
    TwoAre(Plain(s.realityInner, "mldsa65Verify"), Plain(s.reality, "mldsa65Verify"), "");
    TwoAre(Plain(s.reality, "spiderX"), Plain(s.realityInner, "spiderX"), "/");
  }

  /** The TLS settings are missing exactly for a Reality stream without a key or a
      name, and are what the stream says. */
  lemma TlsMeans(parse: Parser, derive: string -> Option<string>, stream: Json, s: Opened)
    requires OpensAll(parse, stream, s)
    ensures
      var tls := ShareTls(parse, derive, stream);
      && (tls.None? <==> WordIs(Get(stream, "security"), "none", "reality") && (KeyIs(derive, s, "") || RealityNameIs(s, "")))
      && (tls.Some? ==> TlsFrom(derive, stream, s, tls.value))
  {
    SecuritiesAre(stream);
    PlainTlsFrom(parse, stream, s);
    RealityFrom(parse, derive, stream, s);
    if RealityTls(parse, derive, stream).Some? {
      RealityRest(parse, derive, stream, s);
    }
    KeyFrom(derive, s);
    NameFrom(s);
    KeyIsOne(derive, s, "", RealityKey(derive, s));
    OnlyOneChosen([Plain(s.reality, "serverName"), Plain(s.realityInner, "serverName"),
                   Listed(s.reality, "serverNames"), Listed(s.realityInner, "serverNames")], "", "", RealityName(s.reality, s.realityInner));
  }

  lemma OnlyOneChosen(sources: seq<Source>, default: string, a: string, b: string)
    ensures Chosen(sources, default, a) && Chosen(sources, default, b) ==> a == b
  {
    forall i, value | 0 <= i < |sources|
      ensures Sets(sources[i], value) <==> value != "" && Found(sources[i]) == value
    {
      SetsIs(sources[i], value);
    }
  }

  lemma KeyIsOne(derive: string -> Option<string>, s: Opened, a: string, b: string)
    ensures KeyIs(derive, s, a) && KeyIs(derive, s, b) ==> a == b
  {
    if KeyIs(derive, s, a) && KeyIs(derive, s, b) {
      var sources := [Plain(s.reality, "privateKey"), Plain(s.realityInner, "privateKey")];
      var keys := [Plain(s.reality, "publicKey"), Plain(s.realityInner, "publicKey")];
      var p :| Chosen(sources, "", p) && Chosen(keys, Derived(derive, p), a);
      var q :| Chosen(sources, "", q) && Chosen(keys, Derived(derive, q), b);
      OnlyOneChosen(sources, "", p, q);
      OnlyOneChosen(keys, Derived(derive, p), a, b);
    }
  }

  // ---- links ----

  /** What the import reads of the transport and TLS of a stream. */
  ghost predicate ImportedFrom(derive: string -> Option<string>, stream: Json, s: Opened, i: Imported) {
    && NetworkIs(stream, i.network) && SecurityIs(stream, i.security)
    && (i.network == "ws" ==>
          && Chosen([Plain(s.ws, "path")], "/", i.path)
          && Chosen([Plain(s.ws, "host"), Header(s.wsHeaders, "Host")], "", i.host))
    && (i.network == "grpc" ==> Chosen([Plain(s.grpc, "serviceName")], "", i.serviceName))
    && (i.security == "tls" ==>
          forall name :: name != "" && Chosen([Plain(s.tls, "serverName"), Plain(s.tlsInner, "serverName")], "", name) ==>
            i.serverName == name)
    && (i.security == "reality" ==>
          && KeyIs(derive, s, i.publicKey) && RealityNameIs(s, i.serverName)
          && Chosen([Plain(s.realityInner, "shortId"), Listed(s.reality, "shortIds"), Listed(s.realityInner, "shortIds")], "", i.shortId))
  }

  lemma UserMeans(client: Json)
    ensures forall id :: UserIs(client, id) <==> id == UserId(client)
  {
    var sources := [Plain(client, "id"), Plain(client, "uuid")];
    TwoAre(sources[0], sources[1], "");
    forall id
      ensures UserIs(client, id) <==> id == UserId(client)
    {
      OnlyOneChosen(sources, "", id, UserId(client));
    }
  }

  lemma SameIsFrom(derive: string -> Option<string>, stream: Json, s: Opened, t: Transport, tls: Tls, i: Imported)
    requires TransportFrom(stream, s, t) && TlsFrom(derive, stream, s, tls) && SameTransport(i, t, tls)
    ensures ImportedFrom(derive, stream, s, i)
  {
    var sources := [Plain(s.tls, "serverName"), Plain(s.tlsInner, "serverName")];
    forall name | tls.security == "tls" && name != "" && Chosen(sources, "", name)
      ensures i.serverName == name
    {
      OnlyOneChosen(sources, "", name, tls.serverName);
    }
  }

  /** A VLESS link is printed exactly for a client with an id, a network the model
      knows, and with Reality a key and a name; the import reads from it the address,
      user, path, host, service, server name, key and short id the inbound's JSON
      sets. */
  lemma VlessMeans(parse: Parser, stringify: Printer, derive: string -> Option<string>, host: string, port: nat,
                   displayName: string, inbound: Json, stream: Json, client: Json, s: Opened)
    requires GoodHost(host) && 0 < port <= 65535 && OpensAll(parse, stream, s)
    ensures
      var link := ShareVless(parse, stringify, derive, host, port, displayName, inbound, stream, client);
      && (link.Some? <==>
            && !UserIs(client, "") && (exists network :: NetworkIs(stream, network))
            && (WordIs(Get(stream, "security"), "none", "reality") ==> !KeyIs(derive, s, "") && !RealityNameIs(s, "")))
      && (link.Some? ==>
            && ParseVless(link.value).Some?
            && var i := ParseVless(link.value).value;
            && i.address == host && i.port == Some(port) && UserIs(client, i.id)
            && Chosen([Plain(inbound, "encryption")], "none", i.encryption)
            && ImportedFrom(derive, stream, s, i))
  {
    ShareVlessRoundTrip(parse, stringify, derive, host, port, displayName, inbound, stream, client);
    TransportMeans(parse, stream, s);
    TlsMeans(parse, derive, stream, s);
    UserMeans(client);
    ShareVlessUser(parse, stringify, derive, host, port, displayName, inbound, stream, client);
    OneIs(Plain(inbound, "encryption"), "none");
    var link := ShareVless(parse, stringify, derive, host, port, displayName, inbound, stream, client);
    if link.Some? {
      SameIsFrom(derive, stream, s, ShareTransport(parse, stream).value, ShareTls(parse, derive, stream).value, ParseVless(link.value).value);
    }
  }

  /** The same for a VMess link, which knows no Reality and carries the server name
      when the security is "tls" without outer space. */
  lemma VmessMeans(parse: Parser, stringify: Printer, derive: string -> Option<string>, base64: Coder, unbase64: Coder,
                   host: string, port: nat, displayName: string, stream: Json, client: Json, s: Opened)
    requires JsonLaws(parse, stringify) && Base64Law(base64, unbase64) && GoodHost(host) && OpensAll(parse, stream, s)
    ensures
      var link := ShareVmess(parse, stringify, derive, base64, host, port, displayName, stream, client);
      link.Some? ==>
        && ParseVmess(parse, unbase64, link.value).Some?
        && var i := ParseVmess(parse, unbase64, link.value).value;
        && i.port == Some(port) && UserIs(client, i.id) && i.id != "" && NetworkIs(stream, i.network)
        && Chosen([Plain(client, "security")], "auto", i.encryption)
        && (i.network == "ws" ==>
              && Chosen([Plain(s.ws, "path")], "/", i.path)
              && Chosen([Plain(s.ws, "host"), Header(s.wsHeaders, "Host")], "", i.host))
        && (i.network == "grpc" ==> Chosen([Plain(s.grpc, "serviceName")], "", i.serviceName))
        && (WordIs(Get(stream, "security"), "none", "tls") ==>
              forall name :: name != "" && Chosen([Plain(s.tls, "serverName"), Plain(s.tlsInner, "serverName")], "", name) ==>
                (i.serverName == name <==> TextLowered(Get(stream, "security"), "tls")))
    ensures
      ShareVmess(parse, stringify, derive, base64, host, port, displayName, stream, client).Some? <==>
        && !UserIs(client, "") && (exists network :: NetworkIs(stream, network))
        && !TextLowered(Get(stream, "security"), "reality")
        && (WordIs(Get(stream, "security"), "none", "reality") ==> !KeyIs(derive, s, "") && !RealityNameIs(s, ""))
  {
    ShareVmessRoundTrip(parse, stringify, derive, base64, unbase64, host, port, displayName, stream, client);
    LinkIsPrinted(parse, stringify, derive, base64, host, port, displayName, stream, client);
    TransportMeans(parse, stream, s);
    TlsMeans(parse, derive, stream, s);
    UserMeans(client);
    OneIs(Plain(client, "security"), "auto");
    RawIs(stream);
    var sources := [Plain(s.tls, "serverName"), Plain(s.tlsInner, "serverName")];
    if ShareTls(parse, derive, stream).Some? {
      forall name | name != "" && Chosen(sources, "", name)
        ensures ShareTls(parse, derive, stream).value.security == "tls" ==> ShareTls(parse, derive, stream).value.serverName == name
      {
        OnlyOneChosen(sources, "", name, ShareTls(parse, derive, stream).value.serverName);
      }
    }
  }

  /** The property's text as it stands, in lower case. */
  ghost predicate TextLowered(v: Option<Json>, word: string) {
    Truthy(v) && Lowered(JsonText(v.value), word)
  }

  lemma RawIs(stream: Json)
    ensures TextLowered(Get(stream, "security"), "tls") <==> LowerText(RawSecurity(stream)) == "tls"
    ensures TextLowered(Get(stream, "security"), "reality") <==> LowerText(RawSecurity(stream)) == "reality"
    ensures WordIs(Get(stream, "security"), "none", "tls") ==> SecurityIs(stream, "tls") && !SecurityIs(stream, "none") && !SecurityIs(stream, "reality")
  {
    SecuritiesAre(stream);
    LowerStays("none");
    if Truthy(Get(stream, "security")) {
      LoweredIs(JsonText(Get(stream, "security").value), "tls");
      LoweredIs(JsonText(Get(stream, "security").value), "reality");
    }
  }

  // ---- the whole query of a VLESS link ----

  ghost predicate QueryTransportFrom(stream: Json, s: Opened, params: Params) {
    var network := Param(params, "type");
    && NetworkIs(stream, network)
    && (network == "tcp" ==>
          && Chosen([Header(s.requestHeaders, "Host")], "", Param(params, "host"))
          && Chosen([Listed(s.request, "path")], "", Param(params, "path"))
          && exists kind :: Chosen([Plain(s.header, "type")], "none", kind) && Param(params, "headerType") == if kind == "none" then "" else kind)
    && (network == "ws" ==>
          && Chosen([Plain(s.ws, "path")], "/", Param(params, "path"))
          && Chosen([Plain(s.ws, "host"), Header(s.wsHeaders, "Host")], "", Param(params, "host")))
    && (network == "grpc" ==>
          && Chosen([Plain(s.grpc, "serviceName")], "", Param(params, "serviceName"))
          && Param(params, "path") == Param(params, "serviceName")
          && Chosen([Plain(s.grpc, "authority")], "", Param(params, "authority"))
          && Param(params, "mode") == if Get(s.grpc, "multiMode") == Some(Bool(true)) then "multi" else "")
  }

  ghost predicate QueryTlsFrom(derive: string -> Option<string>, stream: Json, s: Opened, params: Params) {
    var security := Param(params, "security");
    && SecurityIs(stream, security)
    && (security == "tls" ==>
          && Chosen([Plain(s.tls, "serverName"), Plain(s.tlsInner, "serverName")], "", Param(params, "sni"))
          && Chosen([Plain(s.tlsInner, "fingerprint"), Plain(s.tls, "fingerprint")], "", Param(params, "fp"))
          && Param(params, "allowInsecure") ==
               if Some(Bool(true)) in [Get(s.tlsInner, "allowInsecure"), Get(s.tls, "allowInsecure"), Get(s.tls, "insecure")] then "1" else "")
    && (security == "reality" ==>
          && KeyIs(derive, s, Param(params, "pbk")) && RealityNameIs(s, Param(params, "sni"))
          && Chosen([Plain(s.realityInner, "shortId"), Listed(s.reality, "shortIds"), Listed(s.realityInner, "shortIds")], "", Param(params, "sid"))
          && Chosen([Plain(s.reality, "fingerprint"), Plain(s.realityInner, "fingerprint")], "chrome", Param(params, "fp"))
          && Chosen([Plain(s.realityInner, "mldsa65Verify"), Plain(s.reality, "mldsa65Verify")], "", Param(params, "pqv"))
          && Chosen([Plain(s.reality, "spiderX"), Plain(s.realityInner, "spiderX")], "/", Param(params, "spx")))
  }

  ghost predicate QueryUserFrom(inbound: Json, stream: Json, client: Json, params: Params) {
    && Chosen([Plain(inbound, "encryption")], "none", Param(params, "encryption"))
    && (if Param(params, "type") == "tcp" && (PlainText(Get(stream, "security"), "tls") || PlainText(Get(stream, "security"), "reality"))
        then Chosen([Plain(client, "flow")], "", Param(params, "flow")) else Param(params, "flow") == "")
  }

  predicate PlainText(v: Option<Json>, text: string) {
    Truthy(v) && JsonText(v.value) == text
  }

  lemma MoreNames()
    ensures |NAMES| > 15 && NAMES[1] == "headerType" && NAMES[5] == "authority" && NAMES[6] == "mode"
    ensures NAMES[9] == "fp" && NAMES[13] == "pqv" && NAMES[14] == "spx" && NAMES[15] == "allowInsecure"
  {
  }

  lemma MoreOfQuery(values: seq<string>)
    requires |values| == |NAMES|
    ensures
      var params := Present(NAMES, values);
      && Param(params, "headerType") == values[1] && Param(params, "authority") == values[5] && Param(params, "mode") == values[6]
      && Param(params, "fp") == values[9] && Param(params, "pqv") == values[13] && Param(params, "spx") == values[14]
      && Param(params, "allowInsecure") == values[15]
  {
    MoreNames();
    ValueAt(values, 1, "headerType");
    ValueAt(values, 5, "authority");
    ValueAt(values, 6, "mode");
    ValueAt(values, 9, "fp");
    ValueAt(values, 13, "pqv");
    ValueAt(values, 14, "spx");
    ValueAt(values, 15, "allowInsecure");
  }

  lemma QueryOfTransport(stream: Json, s: Opened, t: Transport, tls: Tls, mask: string, encryption: string, flow: string)
    requires TransportFrom(stream, s, t)
    ensures
      var params := Present(NAMES, Values(t, tls, mask, encryption, flow));
      Param(params, "type") == t.network && QueryTransportFrom(stream, s, params)
  {
    var values := Values(t, tls, mask, encryption, flow);
    QueryTransport(values);
    MoreOfQuery(values);
  }

  lemma QueryOfTls(derive: string -> Option<string>, stream: Json, s: Opened, t: Transport, tls: Tls, mask: string,
                   encryption: string, flow: string)
    requires TlsFrom(derive, stream, s, tls)
    ensures QueryTlsFrom(derive, stream, s, Present(NAMES, Values(t, tls, mask, encryption, flow)))
  {
    var values := Values(t, tls, mask, encryption, flow);
    QueryTls(values);
    QueryReality(values);
    MoreOfQuery(values);
  }

  lemma QueryOfUser(inbound: Json, stream: Json, client: Json, t: Transport, tls: Tls, mask: string)
    ensures QueryUserFrom(inbound, stream, client, Present(NAMES, Values(t, tls, mask, Encryption(inbound), Flow(client, t, stream))))
  {
    var values := Values(t, tls, mask, Encryption(inbound), Flow(client, t, stream));
    QueryTransport(values);
    QueryUser(values);
    OneIs(Plain(inbound, "encryption"), "none");
    OneIs(Plain(client, "flow"), "");
    RawTexts(stream);
  }

  lemma RawTexts(stream: Json)
    ensures PlainText(Get(stream, "security"), "tls") <==> RawSecurity(stream) == "tls"
    ensures PlainText(Get(stream, "security"), "reality") <==> RawSecurity(stream) == "reality"
  {
    assert |"none"| == 4 && |"tls"| == 3 && |"reality"| == 7;
  }

  ghost predicate QueryFrom(derive: string -> Option<string>, inbound: Json, stream: Json, client: Json, s: Opened, params: Params) {
    QueryTransportFrom(stream, s, params) && QueryTlsFrom(derive, stream, s, params) && QueryUserFrom(inbound, stream, client, params)
  }

  lemma QueryOfParts(derive: string -> Option<string>, inbound: Json, stream: Json, client: Json, s: Opened,
                     t: Transport, tls: Tls, mask: string)
    requires TransportFrom(stream, s, t) && TlsFrom(derive, stream, s, tls)
    ensures QueryFrom(derive, inbound, stream, client, s, Present(NAMES, Values(t, tls, mask, Encryption(inbound), Flow(client, t, stream))))
  {
    QueryOfTransport(stream, s, t, tls, mask, Encryption(inbound), Flow(client, t, stream));
    QueryOfTls(derive, stream, s, t, tls, mask, Encryption(inbound), Flow(client, t, stream));
    QueryOfUser(inbound, stream, client, t, tls, mask);
  }

  lemma PrintedParams(host: string, port: nat, name: string, inbound: Json, stream: Json, client: Json,
                      t: Transport, tls: Tls, mask: string)
    requires GoodHost(host)
    ensures
      var link := VlessLink(host, port, name, inbound, stream, client, t, tls, mask);
      link.Some? ==>
        && ParseUrl(link.value).Some? && ParseUrl(link.value).value.hostname == host
        && ParseUrl(link.value).value.params == Present(NAMES, Values(t, tls, mask, Encryption(inbound), Flow(client, t, stream)))
  {
    LinkRoundTrip("vless", UserId(client), host, port,
                  Present(NAMES, Values(t, tls, mask, Encryption(inbound), Flow(client, t, stream))), name);
  }

  lemma QueryOfLink(derive: string -> Option<string>, host: string, port: nat, name: string, inbound: Json, stream: Json, client: Json,
                    s: Opened, t: Transport, tls: Tls, mask: string)
    requires GoodHost(host) && TransportFrom(stream, s, t) && TlsFrom(derive, stream, s, tls)
    ensures
      var link := VlessLink(host, port, name, inbound, stream, client, t, tls, mask);
      link.Some? ==>
        && ParseUrl(link.value).Some? && ParseUrl(link.value).value.hostname == host
        && QueryFrom(derive, inbound, stream, client, s, ParseUrl(link.value).value.params)
  {
    PrintedParams(host, port, name, inbound, stream, client, t, tls, mask);
    QueryOfParts(derive, inbound, stream, client, s, t, tls, mask);
  }

  /** The query of a printed VLESS link holds what the inbound's JSON sets. */
  lemma QueryMeans(parse: Parser, stringify: Printer, derive: string -> Option<string>, host: string, port: nat,
                   displayName: string, inbound: Json, stream: Json, client: Json, s: Opened)
    requires GoodHost(host) && OpensAll(parse, stream, s)
    ensures
      var link := ShareVless(parse, stringify, derive, host, port, displayName, inbound, stream, client);
      link.Some? ==>
        && ParseUrl(link.value).Some? && ParseUrl(link.value).value.hostname == host
        && QueryFrom(derive, inbound, stream, client, s, ParseUrl(link.value).value.params)
  {
    var t, tls := ShareTransport(parse, stream), ShareTls(parse, derive, stream);
    if t.Some? && tls.Some? {
      TransportMeans(parse, stream, s);
      TlsMeans(parse, derive, stream, s);
      QueryOfLink(derive, host, port, DisplayName(displayName), inbound, stream, client, s, t.value, tls.value, FinalMask(parse, stringify, stream));
    }
  }
}

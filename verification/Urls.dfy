/** Query strings and links of the form scheme://user@host:port?query#fragment, as
    the URL standard prints and reads them. */
module Urls {
  import opened Options
  import opened PercentCoding
  import opened Texts

  // ---- splitting ----

  /** The parts before and after the first occurrence of a character. */
  function Split(s: string, c: char): Option<(string, string)> {
    if s == "" then None
    else if s[0] == c then Some(("", s[1..]))
    else
      var rest := Split(s[1..], c);
      if rest.None? then None else Some(([s[0]] + rest.value.0, rest.value.1))
  }

  lemma {:induction false} SplitFirst(a: string, c: char, b: string)
    requires c !in a
    ensures Split(a + [c] + b, c) == Some((a, b))
  {
    var s := a + [c] + b;
    if a == "" {
      assert s[1..] == b;
    } else {
      assert s[1..] == a[1..] + [c] + b;
      SplitFirst(a[1..], c, b);
      assert a == [a[0]] + a[1..];
    }
  }

  lemma {:induction false} SplitNone(s: string, c: char)
    requires c !in s
    ensures Split(s, c) == None
  {
    if s != "" {
      SplitNone(s[1..], c);
    }
  }

  /** The parts before and after the last occurrence of a character. */
  function SplitLast(s: string, c: char): Option<(string, string)> {
    if s == "" then None
    else if s[|s| - 1] == c then Some((s[..|s| - 1], ""))
    else
      var rest := SplitLast(s[..|s| - 1], c);
      if rest.None? then None else Some((rest.value.0, rest.value.1 + [s[|s| - 1]]))
  }

  lemma {:induction false} SplitAtLast(a: string, c: char, b: string)
    requires c !in b
    ensures SplitLast(a + [c] + b, c) == Some((a, b))
    decreases |b|
  {
    var s := a + [c] + b;
    if b == "" {
      assert s[..|s| - 1] == a;
    } else {
      var k := |b| - 1;
      assert s[..|s| - 1] == a + [c] + b[..k];
      SplitAtLast(a, c, b[..k]);
      assert b == b[..k] + [b[k]];
    }
  }

  // ---- components ----

  predicate Alphanumeric(c: char) {
    'a' <= c <= 'z' || 'A' <= c <= 'Z' || '0' <= c <= '9'
  }

  const COMPONENT_SAFE: Safe := c => Alphanumeric(c) || c in "-_.!~*'()"

  const FORM_SAFE: Safe := c => Alphanumeric(c) || c in "*-._"

  const FORM_OR_SPACE: Safe := c => Alphanumeric(c) || c in "*-._ "

  function EncodeComponent(s: string): string {
    Encode(s, COMPONENT_SAFE)
  }

  // ---- form encoding ----

  function PlusForSpace(s: string): string {
    if s == "" then "" else [if s[0] == ' ' then '+' else s[0]] + PlusForSpace(s[1..])
  }

  function SpaceForPlus(s: string): string {
    if s == "" then "" else [if s[0] == '+' then ' ' else s[0]] + SpaceForPlus(s[1..])
  }

  function FormEncode(s: string): string {
    PlusForSpace(Encode(s, FORM_OR_SPACE))
  }

  /** A name or value of a query; malformed escapes are kept as they stand. */
  function FormDecode(s: string): string {
    var decoded := Decode(SpaceForPlus(s));
    if decoded.Some? then decoded.value else s
  }

  lemma {:induction false} PlusRoundTrip(s: string)
    requires '+' !in s
    ensures SpaceForPlus(PlusForSpace(s)) == s
  {
    if s != "" {
      PlusRoundTrip(s[1..]);
      assert PlusForSpace(s)[1..] == PlusForSpace(s[1..]);
      assert s == [s[0]] + s[1..];
    }
  }

  lemma {:induction false} PlusChars(s: string, c: char)
    requires c in PlusForSpace(s)
    ensures c == '+' || c in s
  {
    if s != "" && c in PlusForSpace(s[1..]) {
      PlusChars(s[1..], c);
    }
  }

  lemma FormRoundTrip(s: string)
    ensures FormDecode(FormEncode(s)) == s
    ensures forall c <- FormEncode(s) :: FORM_SAFE(c) || c == '+' || c == '%'
  {
    var encoded := Encode(s, FORM_OR_SPACE);
    if '+' in encoded {
      EncodedChars(s, FORM_OR_SPACE, '+');
    }
    PlusRoundTrip(encoded);
    DecodeEncode(s, FORM_OR_SPACE);
    forall c | c in FormEncode(s)
      ensures FORM_SAFE(c) || c == '+' || c == '%'
    {
      PlusChars(encoded, c);
      if c != '+' {
        EncodedChars(s, FORM_OR_SPACE, c);
        NoSpaceLeft(encoded, c);
      }
    }
  }

  lemma {:induction false} NoSpaceLeft(s: string, c: char)
    requires c in PlusForSpace(s)
    ensures c != ' '
  {
    if s != "" && c in PlusForSpace(s[1..]) {
      NoSpaceLeft(s[1..], c);
    }
  }

  // ---- queries ----

  type Params = seq<(string, string)>

  function PrintPair(p: (string, string)): string {
    FormEncode(p.0) + "=" + FormEncode(p.1)
  }

  function PrintQuery(params: Params): string {
    if params == [] then ""
    else if |params| == 1 then PrintPair(params[0])
    else PrintPair(params[0]) + "&" + PrintQuery(params[1..])
  }

  function ParsePair(s: string): (string, string) {
    var parts := Split(s, '=');
    if parts.None? then (FormDecode(s), "") else (FormDecode(parts.value.0), FormDecode(parts.value.1))
  }

  function ParseQuery(s: string): Params
    decreases |s|
  {
    if s == "" then []
    else
      var parts := Split(s, '&');
      if parts.None? then [ParsePair(s)]
      else
        SplitShortens(s, '&');
        (if parts.value.0 == "" then [] else [ParsePair(parts.value.0)]) + ParseQuery(parts.value.1)
  }

  lemma {:induction false} SplitShortens(s: string, c: char)
    ensures Split(s, c).Some? ==> |Split(s, c).value.0| + |Split(s, c).value.1| + 1 == |s|
  {
    if s != "" && s[0] != c {
      SplitShortens(s[1..], c);
    }
  }

  lemma PairRoundTrip(p: (string, string))
    ensures ParsePair(PrintPair(p)) == p
    ensures PrintPair(p) != "" && '&' !in PrintPair(p) && '#' !in PrintPair(p)
  {
    FormRoundTrip(p.0);
    FormRoundTrip(p.1);
    assert '=' !in FormEncode(p.0) by {
      assert !FORM_SAFE('=');
    }
    SplitFirst(FormEncode(p.0), '=', FormEncode(p.1));
    assert !FORM_SAFE('&') && !FORM_SAFE('#');
  }

  /** Reading a printed query gives the same names and values in the same order. */
  lemma {:induction false} QueryRoundTrip(params: Params)
    ensures ParseQuery(PrintQuery(params)) == params
    ensures '#' !in PrintQuery(params)
  {
    if params != [] {
      PairRoundTrip(params[0]);
      var first := PrintPair(params[0]);
      if |params| == 1 {
        SplitNone(first, '&');
        assert params == [params[0]];
      } else {
        QueryRoundTrip(params[1..]);
        SplitFirst(first, '&', PrintQuery(params[1..]));
        assert params == [params[0]] + params[1..];
      }
    }
  }

  // ---- numbers ----

  function ParseDecimal(s: string): Option<nat> {
    if s == "" || !('0' <= s[|s| - 1] <= '9') then None
    else
      var digit := s[|s| - 1] as int - '0' as int;
      if |s| == 1 then Some(digit)
      else
        var rest := ParseDecimal(s[..|s| - 1]);
        if rest.None? then None else Some(rest.value * 10 + digit)
  }

  lemma {:induction false} DecimalRoundTrip(n: nat)
    ensures ParseDecimal(Decimal(n)) == Some(n)
    ensures forall c <- Decimal(n) :: '0' <= c <= '9'
  {
    if n >= 10 {
      DecimalRoundTrip(n / 10);
      var s := Decimal(n);
      assert s[..|s| - 1] == Decimal(n / 10) && s[|s| - 1] == Digit(n % 10);
    }
  }

  // ---- links ----

  datatype Url = Url(username: string, hostname: string, port: string, params: Params, hash: string)

  /** A host that the URL standard leaves as it stands: a name or an IPv4 address, or
      a compressed IPv6 address in brackets. */
  predicate GoodHost(h: string) {
    && h != "" && (forall c <- h :: c !in "/?#@" && c !in "<>\\^|" && ' ' < c <= '~')
    && if h[0] == '[' then h[|h| - 1] == ']' && ']' !in h[..|h| - 1] else ':' !in h && '[' !in h && ']' !in h
  }

  function PrintLink(scheme: string, id: string, host: string, port: nat, params: Params, name: string): string {
    scheme + "://" + PrintBody(id, host, port, params, name)
  }

  function PrintBody(id: string, host: string, port: nat, params: Params, name: string): string {
    EncodeComponent(id) + "@" + host + ":" + Decimal(port) + "?" + PrintQuery(params) + "#" + EncodeComponent(name)
  }

  function Before(s: string, c: char): (string, string) {
    var parts := Split(s, c);
    if parts.Some? then parts.value else (s, "")
  }

  /** Host and port: a colon inside brackets belongs to the host. */
  function SplitPort(s: string): Option<(string, string)> {
    if s == "" then None
    else if s[0] == '[' then
      var parts := Split(s, ']');
      if parts.None? then None
      else
        var host, rest := parts.value.0 + "]", parts.value.1;
        if rest == "" then Some((host, "")) else if rest[0] == ':' then Some((host, rest[1..])) else None
    else Some(Before(s, ':'))
  }

  function ParseUrl(input: string): Option<Url> {
    var scheme := Split(input, ':');
    if scheme.None? || !("//" <= scheme.value.1) then None
    else
      var (front, hash) := Before(scheme.value.1[2..], '#');
      var (before, query) := Before(front, '?');
      var address := ParseAuthority(Before(before, '/').0);
      if address.None? then None
      else Some(Url(address.value.0, address.value.1, address.value.2, ParseQuery(query), hash))
  }

  /** User name, host and port of an authority. */
  function ParseAuthority(authority: string): Option<(string, string, string)> {
    var login := SplitLast(authority, '@');
    var username := if login.Some? then Before(login.value.0, ':').0 else "";
    var address := SplitPort(if login.Some? then login.value.1 else authority);
    if address.None? || address.value.0 == "" || (address.value.1 != "" && ParseDecimal(address.value.1).None?) then None
    else Some((username, address.value.0, address.value.1))
  }

  lemma ComponentChars(s: string)
    ensures forall c <- EncodeComponent(s) :: COMPONENT_SAFE(c) || c == '%'
    ensures forall c <- EncodeComponent(s) :: c !in ":/?#@"
  {
    forall c | c in EncodeComponent(s)
      ensures COMPONENT_SAFE(c) || c == '%'
    {
      EncodedChars(s, COMPONENT_SAFE, c);
    }
    assert forall c :: c in ":/?#@" ==> !COMPONENT_SAFE(c);
  }

  lemma PortRoundTrip(host: string, port: nat)
    requires GoodHost(host)
    ensures SplitPort(host + ":" + Decimal(port)) == Some((host, Decimal(port)))
  {
    var s := host + ":" + Decimal(port);
    if host[0] == '[' {
      var k := |host| - 1;
      assert s == host[..k] + [']'] + (":" + Decimal(port));
      SplitFirst(host[..k], ']', ":" + Decimal(port));
      assert host == host[..k] + "]";
    } else {
      SplitFirst(host, ':', Decimal(port));
    }
  }

  /** A link reads back as it was printed. */
  lemma LinkRoundTrip(scheme: string, id: string, host: string, port: nat, params: Params, name: string)
    requires ':' !in scheme && GoodHost(host)
    ensures ParseUrl(PrintLink(scheme, id, host, port, params, name))
            == Some(Url(EncodeComponent(id), host, Decimal(port), params, EncodeComponent(name)))
  {
    var body := PrintBody(id, host, port, params, name);
    assert PrintLink(scheme, id, host, port, params, name) == scheme + [':'] + ("//" + body);
    SplitFirst(scheme, ':', "//" + body);
    assert ("//" + body)[2..] == body;
    BodySplits(id, host, port, params, name);
    AuthorityRoundTrip(id, host, port);
    QueryRoundTrip(params);
  }

  function PrintAuthority(id: string, host: string, port: nat): string {
    EncodeComponent(id) + "@" + host + ":" + Decimal(port)
  }

  lemma BodySplits(id: string, host: string, port: nat, params: Params, name: string)
    requires GoodHost(host)
    ensures
      var authority := PrintAuthority(id, host, port);
      var front := authority + "?" + PrintQuery(params);
      && Before(PrintBody(id, host, port, params, name), '#') == (front, EncodeComponent(name))
      && Before(front, '?') == (authority, PrintQuery(params))
      && Before(authority, '/') == (authority, "")
  {
    var authority := PrintAuthority(id, host, port);
    var front := authority + "?" + PrintQuery(params);
    assert PrintBody(id, host, port, params, name) == front + ['#'] + EncodeComponent(name);
    AuthorityChars(id, host, port);
    QueryRoundTrip(params);
    assert '#' !in front;
    SplitFirst(front, '#', EncodeComponent(name));
    assert front == authority + ['?'] + PrintQuery(params);
    SplitFirst(authority, '?', PrintQuery(params));
    SplitNone(authority, '/');
  }

  lemma AuthorityRoundTrip(id: string, host: string, port: nat)
    requires GoodHost(host)
    ensures ParseAuthority(PrintAuthority(id, host, port)) == Some((EncodeComponent(id), host, Decimal(port)))
  {
    var user, address := EncodeComponent(id), host + ":" + Decimal(port);
    HostPortChars(host, port);
    SplitAtLast(user, '@', address);
    assert PrintAuthority(id, host, port) == user + ['@'] + address;
    ComponentChars(id);
    SplitNone(user, ':');
    PortRoundTrip(host, port);
    DecimalRoundTrip(port);
  }

  lemma HostPortChars(host: string, port: nat)
    requires GoodHost(host)
    ensures forall c <- host + ":" + Decimal(port) :: c !in "/?#@"
  {
    DecimalRoundTrip(port);
  }

  lemma AuthorityChars(id: string, host: string, port: nat)
    requires GoodHost(host)
    ensures forall c <- PrintAuthority(id, host, port) :: c !in "/?#"
  {
    ComponentChars(id);
    HostPortChars(host, port);
    assert "/?#@" == "/?#" + "@" && ":/?#@" == ":" + "/?#@";
    assert PrintAuthority(id, host, port) == EncodeComponent(id) + "@" + (host + ":" + Decimal(port));
    forall c | c in PrintAuthority(id, host, port)
      ensures c !in "/?#"
    {
      assert c in EncodeComponent(id) || c == '@' || c in host + ":" + Decimal(port);
    }
  }
}

/**
 * The SSRF gate `ScrapingService.validate_url` and its helper
 * `_is_private_host`: a URL is accepted only if its scheme is `http` or
 * `https`, it names a host, and none of the addresses that host resolves to
 * is private, loopback, link-local, reserved, multicast or unspecified.
 *
 * The URL split follows Python's `urllib.parse.urlsplit` (scheme as in
 * section 3.1 of RFC 3986, authority after `//` as in section 3.2). DNS
 * (`socket.getaddrinfo`) and the address parser (`ipaddress.ip_address`) are
 * foreign and enter as the parameters `resolve` and `parse`.
 */
module UrlGate {
  import opened Wrappers
  import opened Text
  import opened PyValues
  import opened IpClass

  const SchemeMessage := "URLは http/https のみ対応しています。"
  const HostnameMessage := "URLのホスト名が不正です。"
  const BlockedMessage := "指定のホストは許可されていません。"
  const InvalidIpv6Message := "Invalid IPv6 URL"

  /** `ipaddress.ip_address(text)`: the parsed address, or `None` where it raises `ValueError`. */
  type Parser = string -> Option<IpAddress>

  /** The `ValueError` that `ipaddress.ip_address` raises for text that is not an address. */
  function NotAnAddress(text: string): Exc {
    Exc(ValueError, Repr(Str(text)) + " does not appear to be an IPv4 or IPv6 address")
  }

  datatype Family = AF_INET | AF_INET6

  /**
   * What `socket.getaddrinfo(host, None, family)` does: return entries whose
   * address texts (`info[4][0]`) are `addrs`, raise `socket.gaierror`, or
   * raise some other exception.
   */
  datatype Answer = Addresses(addrs: seq<string>) | GaiError | Failure(exc: Exc)

  type Resolver = (string, Family) -> Answer

  /** One call of `getaddrinfo`. */
  datatype Lookup = Lookup(host: string, family: Family)

  // ---- urlsplit ----

  /** The characters `urlsplit` strips from the front of a URL (C0 controls and space). */
  predicate IsC0OrSpace(c: char) {
    c <= ' '
  }

  /** `url.lstrip(_WHATWG_C0_CONTROL_OR_SPACE)`. */
  function LStripC0(s: string): string {
    if |s| > 0 && IsC0OrSpace(s[0]) then LStripC0(s[1..]) else s
  }

  /** The stripped text is the suffix of `s` left after its leading controls and spaces. */
  lemma {:induction false} LStripC0Suffix(s: string)
    ensures |LStripC0(s)| <= |s| && LStripC0(s) == s[|s| - |LStripC0(s)|..]
    ensures forall i :: 0 <= i < |s| - |LStripC0(s)| ==> IsC0OrSpace(s[i])
    ensures LStripC0(s) == [] || !IsC0OrSpace(LStripC0(s)[0])
    decreases |s|
  {
    if |s| > 0 && IsC0OrSpace(s[0]) {
      LStripC0Suffix(s[1..]);
      assert s[1..][|s| - 1 - |LStripC0(s)|..] == s[|s| - |LStripC0(s)|..];
    }
  }

  predicate IsUnsafe(c: char) {
    c == '\t' || c == '\r' || c == '\n'
  }

  /** Removing every tab, carriage return and line feed, as `urlsplit` does before splitting. */
  function RemoveUnsafe(s: string): string {
    if |s| == 0 then ""
    else if IsUnsafe(s[0]) then RemoveUnsafe(s[1..])
    else [s[0]] + RemoveUnsafe(s[1..])
  }

  /** What remains has no tab or line break, and a text without them is left as it is. */
  lemma {:induction false} RemoveUnsafeSpec(s: string)
    ensures forall i :: 0 <= i < |RemoveUnsafe(s)| ==> !IsUnsafe(RemoveUnsafe(s)[i])
    ensures (forall i :: 0 <= i < |s| ==> !IsUnsafe(s[i])) ==> RemoveUnsafe(s) == s
    decreases |s|
  {
    if |s| > 0 {
      RemoveUnsafeSpec(s[1..]);
    }
  }

  predicate IsAsciiAlpha(c: char) {
    'a' <= c <= 'z' || 'A' <= c <= 'Z'
  }

  predicate IsSchemeChar(c: char) {
    IsAsciiAlpha(c) || '0' <= c <= '9' || c == '+' || c == '-' || c == '.'
  }

  /** A valid scheme: a letter followed by letters, digits, `+`, `-` and `.`. */
  predicate IsSchemeText(t: string) {
    t != [] && IsAsciiAlpha(t[0]) && forall k :: 0 <= k < |t| ==> IsSchemeChar(t[k])
  }

  /**
   * The scheme and the rest of the URL. A scheme is present when the text
   * before the first `:` is a valid scheme; it is lowered. Otherwise the
   * scheme is empty and nothing is cut.
   */
  function SplitScheme(u: string): (r: (string, string))
    ensures r.0 == "" ==> r.1 == u
    ensures r.0 != "" ==> exists i :: 0 < i < |u| && u[i] == ':' && ':' !in u[..i] && r.0 == AsciiLower(u[..i]) && r.1 == u[i + 1..]
  {
    match IndexOf(u, ":")
    case Some(i) =>
      if IsSchemeText(u[..i]) then
        assert u[i..i + 1] == ":";
        forall k | 0 <= k < i
          ensures u[k] != ':'
        {
          OccursAtChar(u, ':', k);
        }
        (AsciiLower(u[..i]), u[i + 1..])
      else ("", u)
    case None => ("", u)
  }

  predicate IsNetlocEnd(c: char) {
    c == '/' || c == '?' || c == '#'
  }

  /** `_splitnetloc(rest, 2)`: the authority is `rest[2..e]`, ended by the first `/`, `?` or `#`. */
  function NetlocEnd(rest: string, from: nat): (e: nat)
    requires from <= |rest|
    ensures from <= e <= |rest|
    ensures forall k :: from <= k < e ==> !IsNetlocEnd(rest[k])
    ensures e < |rest| ==> IsNetlocEnd(rest[e])
    decreases |rest| - from
  {
    if from == |rest| || IsNetlocEnd(rest[from]) then from else NetlocEnd(rest, from + 1)
  }

  datatype UrlParts = UrlParts(scheme: string, netloc: string)

  /** `netloc.rpartition('@')[2]`: the text after the last `@`. */
  function AfterLastAt(netloc: string): string {
    var parts := SplitChar(netloc, '@');
    parts[|parts| - 1]
  }

  predicate IsHexDigit(c: char) {
    '0' <= c <= '9' || 'a' <= c <= 'f' || 'A' <= c <= 'F'
  }

  /** `re.match(r"\Av[a-fA-F0-9]+\..+\Z", h)`. */
  predicate IsIpvFuture(h: string) {
    exists k :: 2 <= k < |h| - 1 && h[k] == '.' && h[0] == 'v'
      && (forall i :: 1 <= i < k ==> IsHexDigit(h[i]))
      && (forall i :: k < i < |h| ==> h[i] != '\n')
  }

  /** `_check_bracketed_host`: a bracketed host must be an IPvFuture literal or an IPv6 address. */
  function CheckBracketedHost(h: string, parse: Parser): Option<Exc> {
    if "v" <= h then
      if IsIpvFuture(h) then None else Some(Exc(ValueError, "IPvFuture address is invalid"))
    else
      match parse(h)
      case None => Some(NotAnAddress(h))
      case Some(V4(_)) => Some(Exc(ValueError, "An IPv4 address cannot be in brackets"))
      case Some(V6(_)) => None
  }

  /** `_check_bracketed_netloc`: nothing may stand before `[` or between `]` and the port's `:`. */
  function CheckBracketedNetloc(netloc: string, parse: Parser): Option<Exc> {
    var hostAndPort := AfterLastAt(netloc);
    var (before, bracket, bracketed) := Partition(hostAndPort, "[");
    if bracket then
      if before != "" then Some(Exc(ValueError, InvalidIpv6Message))
      else
        var (h, _, port) := Partition(bracketed, "]");
        if port != "" && !(":" <= port) then Some(Exc(ValueError, InvalidIpv6Message))
        else CheckBracketedHost(h, parse)
    else CheckBracketedHost(Partition(hostAndPort, ":").0, parse)
  }

  /** The authority of what follows the scheme: the text after a leading `//`, or empty without one. */
  function NetlocOf(rest: string): (r: string)
    ensures forall i :: 0 <= i < |r| ==> !IsNetlocEnd(r[i])
  {
    if |rest| >= 2 && rest[..2] == "//" then rest[2..NetlocEnd(rest, 2)] else ""
  }

  /** The text `urlsplit` splits: leading controls and spaces stripped, tabs and line breaks removed. */
  function Cleaned(url: string): string {
    RemoveUnsafe(LStripC0(url))
  }

  /** `urlsplit(url)`, as far as the gate reads it: the scheme and the authority, or the `ValueError` it raises. */
  function UrlSplit(url: string, parse: Parser): (r: Result<UrlParts, Exc>)
    ensures r.Err? ==> r.error.cls == ValueError
    ensures r.Ok? ==> forall i :: 0 <= i < |r.value.netloc| ==> !IsNetlocEnd(r.value.netloc[i])
    ensures r.Ok? ==> (Contains(r.value.netloc, "[") <==> Contains(r.value.netloc, "]"))
  {
    var (scheme, rest) := SplitScheme(Cleaned(url));
    var netloc := NetlocOf(rest);
    var open := Contains(netloc, "[");
    var close := Contains(netloc, "]");
    if open != close then Err(Exc(ValueError, InvalidIpv6Message))
    else if open then
      match CheckBracketedNetloc(netloc, parse)
      case Some(e) => Err(e)
      case None => Ok(UrlParts(scheme, netloc))
    else Ok(UrlParts(scheme, netloc))
  }

  /**
   * `parsed.hostname`: the host inside the authority (after the last `@`,
   * inside brackets or before the port's `:`), lowered up to any `%` zone,
   * or `None` when it is empty.
   */
  function Hostname(netloc: string): (r: Option<string>)
    ensures r.Some? ==> r.value != ""
    ensures r.Some? ==> '@' !in r.value
  {
    var hostinfo := AfterLastAt(netloc);
    var (_, bracket, bracketed) := Partition(hostinfo, "[");
    var h := if bracket then Partition(bracketed, "]").0 else Partition(hostinfo, ":").0;
    assert '@' !in h;
    if h == "" then None
    else
      var (name, percent, zone) := Partition(h, "%");
      assert '@' !in AsciiLower(name);
      Some(AsciiLower(name) + (if percent then "%" else "") + zone)
  }

  /**
   * The syntactic half of `validate_url`, in the source's order: the split's
   * own error, then the scheme check, then the host check. On success it
   * gives the host to resolve.
   */
  function SyntaxCheck(url: string, parse: Parser): (r: Result<string, Exc>)
    ensures r.Err? ==> r.error.cls == ValueError
    ensures r.Ok? <==>
      && UrlSplit(url, parse).Ok?
      && UrlSplit(url, parse).value.scheme in {"http", "https"}
      && Hostname(UrlSplit(url, parse).value.netloc).Some?
    ensures r.Ok? ==> r.value != "" && '@' !in r.value
  {
    match UrlSplit(url, parse)
    case Err(e) => Err(e)
    case Ok(parts) =>
      if parts.scheme != "http" && parts.scheme != "https" then Err(Exc(ValueError, SchemeMessage))
      else
        match Hostname(parts.netloc)
        case None => Err(Exc(ValueError, HostnameMessage))
        case Some(h) => Ok(h)
  }

  /** Removing tabs and line breaks distributes over concatenation. */
  lemma {:induction false} RemoveUnsafeAppend(a: string, b: string)
    ensures RemoveUnsafe(a + b) == RemoveUnsafe(a) + RemoveUnsafe(b)
    decreases |a|
  {
    if |a| > 0 {
      assert (a + b)[1..] == a[1..] + b;
      RemoveUnsafeAppend(a[1..], b);
    } else {
      assert a + b == b;
    }
  }

  /** Removing characters adds none. */
  lemma {:induction false} RemoveUnsafeAddsNothing(s: string, c: char)
    requires c !in s
    ensures c !in RemoveUnsafe(s)
    decreases |s|
  {
    if |s| > 0 {
      assert c !in s[1..];
      RemoveUnsafeAddsNothing(s[1..], c);
    }
  }

  /** A character the URL lacks is missing from the text `urlsplit` works on. */
  lemma CleanedLacks(url: string, c: char)
    requires c !in url
    ensures c !in Cleaned(url)
  {
    var t := LStripC0(url);
    LStripC0Suffix(url);
    RemoveUnsafeAddsNothing(t, c);
  }

  /** A URL that starts with a visible character and has no tab or line break is split as written. */
  lemma CleanedUnchanged(url: string)
    requires url != [] && !IsC0OrSpace(url[0])
    requires forall i :: 0 <= i < |url| ==> !IsUnsafe(url[i])
    ensures Cleaned(url) == url
  {
    RemoveUnsafeSpec(url);
  }

  /** A scheme is cut at the first `:` when everything before it is a valid scheme. */
  lemma SchemeCut(scheme: string, rest: string)
    requires IsSchemeText(scheme)
    ensures SplitScheme(scheme + ":" + rest) == (AsciiLower(scheme), rest)
  {
    var u := scheme + ":" + rest;
    assert ':' !in scheme by {
      assert forall i :: 0 <= i < |scheme| ==> scheme[i] != ':';
    }
    IndexOfChar(scheme, ':', rest);
    assert u[..|scheme|] == scheme && u[|scheme| + 1..] == rest;
  }

  /** Facts about the two accepted schemes. */
  lemma WebScheme(scheme: string)
    requires scheme == "http" || scheme == "https"
    ensures IsSchemeText(scheme) && scheme[0] == 'h'
    ensures forall i :: 0 <= i < |scheme| ==> !IsUnsafe(scheme[i])
    ensures AsciiLower(scheme) == scheme
  {
    LowerLetters(scheme);
  }

  /** A word of lower-case ASCII letters is scheme text, safe, and already lower-case. */
  lemma LowerLetters(word: string)
    requires word != [] && forall i :: 0 <= i < |word| ==> 'a' <= word[i] <= 'z'
    ensures IsSchemeText(word)
    ensures forall i :: 0 <= i < |word| ==> !IsUnsafe(word[i])
    ensures AsciiLower(word) == word
  {
    AsciiLowerUnchanged(word);
  }

  /** The authority is exactly `auth` when it contains no delimiter and `tail` starts with one or is empty. */
  lemma NetlocIs(auth: string, tail: string)
    requires forall i :: 0 <= i < |auth| ==> !IsNetlocEnd(auth[i])
    requires tail == [] || IsNetlocEnd(tail[0])
    ensures NetlocOf("//" + auth + tail) == auth
  {
    var rest := "//" + auth + tail;
    assert rest[..2] == "//";
    assert forall k :: 2 <= k < 2 + |auth| ==> rest[k] == auth[k - 2];
    if 2 + |auth| < |rest| {
      assert rest[2 + |auth|] == tail[0];
    }
    assert NetlocEnd(rest, 2) == 2 + |auth|;
    assert rest[2..2 + |auth|] == auth;
  }

  /** Without brackets in the authority, the split cannot fail. */
  lemma SplitWithoutBrackets(url: string, parse: Parser)
    requires '[' !in NetlocOf(SplitScheme(Cleaned(url)).1) && ']' !in NetlocOf(SplitScheme(Cleaned(url)).1)
    ensures UrlSplit(url, parse) == Ok(UrlParts(SplitScheme(Cleaned(url)).0, NetlocOf(SplitScheme(Cleaned(url)).1)))
  {
    var netloc := NetlocOf(SplitScheme(Cleaned(url)).1);
    NotContainsChar(netloc, '[');
    NotContainsChar(netloc, ']');
  }

  /** The authority is part of the text it was cut from. */
  lemma NetlocLacks(rest: string, c: char)
    requires c !in rest
    ensures c !in NetlocOf(rest)
  {
  }

  /** Once the scheme is cut off, an authority without brackets gives the split without error. */
  lemma SplitAfterScheme(url: string, scheme: string, rest: string, parse: Parser)
    requires SplitScheme(Cleaned(url)) == (scheme, rest)
    requires '[' !in NetlocOf(rest) && ']' !in NetlocOf(rest)
    ensures UrlSplit(url, parse) == Ok(UrlParts(scheme, NetlocOf(rest)))
  {
    SplitWithoutBrackets(url, parse);
  }

  /** A character a host name may carry in this model's plain form: lower-case letters, digits, `-` and `.`. */
  predicate IsPlainHostChar(c: char) {
    'a' <= c <= 'z' || '0' <= c <= '9' || c == '-' || c == '.'
  }

  /** An optional port: empty, or `:` followed by digits. */
  predicate IsPortSuffix(port: string) {
    port == [] || (port[0] == ':' && forall i :: 1 <= i < |port| ==> '0' <= port[i] <= '9')
  }

  /** The host name of an authority `host[:port]` whose host is a plain name is that name. */
  lemma PlainHostname(host: string, port: string)
    requires host != [] && forall i :: 0 <= i < |host| ==> IsPlainHostChar(host[i])
    requires IsPortSuffix(port)
    ensures Hostname(host + port) == Some(host)
  {
    var auth := host + port;
    assert forall c :: c in auth && (c == '@' || c == '[') ==> false by {
      forall i | 0 <= i < |auth|
        ensures auth[i] != '@' && auth[i] != '['
      {
        if i >= |host| {
          assert auth[i] == port[i - |host|];
        }
      }
    }
    assert ':' !in host && '%' !in host by {
      assert forall i :: 0 <= i < |host| ==> host[i] != ':' && host[i] != '%';
    }
    SplitCharNoSep(auth, '@');
    assert AfterLastAt(auth) == auth;
    PartitionAbsent(auth, '[');
    if port == [] {
      assert auth == host;
      PartitionAbsent(auth, ':');
    } else {
      assert port == [':'] + port[1..];
      assert auth == host + [':'] + port[1..];
      PartitionChar(host, ':', port[1..]);
    }
    assert Partition(auth, ":").0 == host;
    PartitionAbsent(host, '%');
    AsciiLowerUnchanged(host);
    assert Partition(AfterLastAt(auth), "[") == (auth, false, "");
    assert Partition(host, "%") == (host, false, "");
    assert AsciiLower(host) + "" + "" == host;
  }

  /** The text of `scheme://auth tail` in the shape the split reads it. */
  lemma WebUrlShape(scheme: string, auth: string, tail: string)
    requires scheme == "http" || scheme == "https"
    requires forall i :: 0 <= i < |auth| ==> !IsUnsafe(auth[i])
    requires forall i :: 0 <= i < |tail| ==> !IsUnsafe(tail[i])
    ensures Cleaned(scheme + "://" + auth + tail) == scheme + ":" + ("//" + auth + tail)
    ensures SplitScheme(scheme + ":" + ("//" + auth + tail)) == (scheme, "//" + auth + tail)
  {
    var url := scheme + "://" + auth + tail;
    assert url == scheme + ":" + ("//" + auth + tail);
    WebScheme(scheme);
    assert forall i :: 0 <= i < |url| ==> !IsUnsafe(url[i]) by {
      forall i | 0 <= i < |url|
        ensures !IsUnsafe(url[i])
      {
        if i < |scheme| {
          assert url[i] == scheme[i];
        } else if i < |scheme| + 3 {
        } else if i < |scheme| + 3 + |auth| {
          assert url[i] == auth[i - |scheme| - 3];
        } else {
          assert url[i] == tail[i - |scheme| - 3 - |auth|];
        }
      }
    }
    CleanedUnchanged(url);
    SchemeCut(scheme, "//" + auth + tail);
  }

  /** An authority `host[:port]` with a plain host holds no delimiter, bracket, tab or line break. */
  lemma PlainAuthority(host: string, port: string)
    requires forall i :: 0 <= i < |host| ==> IsPlainHostChar(host[i])
    requires IsPortSuffix(port)
    ensures forall i :: 0 <= i < |host + port| ==> !IsNetlocEnd((host + port)[i]) && !IsUnsafe((host + port)[i])
    ensures '[' !in host + port && ']' !in host + port
  {
    var auth := host + port;
    forall i | 0 <= i < |auth|
      ensures IsPlainHostChar(auth[i]) || auth[i] == ':'
    {
      if i >= |host| {
        assert auth[i] == port[i - |host|];
      }
    }
  }

  /** A URL `scheme://host[:port]tail` with a plain host splits into the scheme and `host[:port]`. */
  lemma PlainUrlSplit(scheme: string, host: string, port: string, tail: string, parse: Parser)
    requires scheme == "http" || scheme == "https"
    requires host != [] && forall i :: 0 <= i < |host| ==> IsPlainHostChar(host[i])
    requires IsPortSuffix(port)
    requires tail == [] || IsNetlocEnd(tail[0])
    requires forall i :: 0 <= i < |tail| ==> !IsUnsafe(tail[i])
    ensures UrlSplit(scheme + "://" + host + port + tail, parse) == Ok(UrlParts(scheme, host + port))
  {
    var auth := host + port;
    var url := scheme + "://" + host + port + tail;
    assert url == scheme + "://" + auth + tail;
    PlainAuthority(host, port);
    WebUrlShape(scheme, auth, tail);
    NetlocIs(auth, tail);
    SplitWithoutBrackets(url, parse);
  }

  /** Whenever the split succeeds with a scheme other than `http` and `https`, that is the error, whatever the host. */
  lemma SchemeCheckedFirst(url: string, parse: Parser)
    requires UrlSplit(url, parse).Ok?
    requires UrlSplit(url, parse).value.scheme != "http" && UrlSplit(url, parse).value.scheme != "https"
    ensures SyntaxCheck(url, parse) == Err(Exc(ValueError, SchemeMessage))
  {
  }

  /**
   * A URL `http://host[:port][/...]` (or `https`) whose host is a plain name
   * passes every syntactic check of `validate_url`, and the host to resolve
   * is that name.
   */
  lemma PlainUrlPassesSyntax(scheme: string, host: string, port: string, tail: string, parse: Parser)
    requires scheme == "http" || scheme == "https"
    requires host != [] && forall i :: 0 <= i < |host| ==> IsPlainHostChar(host[i])
    requires IsPortSuffix(port)
    requires tail == [] || IsNetlocEnd(tail[0])
    requires forall i :: 0 <= i < |tail| ==> !IsUnsafe(tail[i])
    ensures SyntaxCheck(scheme + "://" + host + port + tail, parse) == Ok(host)
  {
    PlainUrlSplit(scheme, host, port, tail, parse);
    PlainHostname(host, port);
  }

  /** A URL `scheme://` followed by a path, query, fragment or nothing splits with an empty authority. */
  lemma EmptyHostSplit(scheme: string, tail: string, parse: Parser)
    requires scheme == "http" || scheme == "https"
    requires tail == [] || IsNetlocEnd(tail[0])
    requires forall i :: 0 <= i < |tail| ==> !IsUnsafe(tail[i])
    ensures UrlSplit(scheme + "://" + tail, parse) == Ok(UrlParts(scheme, ""))
  {
    var url := scheme + "://" + tail;
    assert url == scheme + "://" + "" + tail;
    WebUrlShape(scheme, "", tail);
    NetlocIs("", tail);
    SplitAfterScheme(url, scheme, "//" + tail, parse);
  }

  /** A URL with `http` or `https` and an empty authority is refused for its host name. */
  lemma EmptyHostRefused(scheme: string, tail: string, parse: Parser)
    requires scheme == "http" || scheme == "https"
    requires tail == [] || IsNetlocEnd(tail[0])
    requires forall i :: 0 <= i < |tail| ==> !IsUnsafe(tail[i])
    ensures SyntaxCheck(scheme + "://" + tail, parse) == Err(Exc(ValueError, HostnameMessage))
  {
    EmptyHostSplit(scheme, tail, parse);
    EmptyHostname();
  }

  /** An empty authority has no host name. */
  lemma EmptyHostname()
    ensures Hostname("") == None
  {
    SplitCharNoSep("", '@');
    PartitionAbsent("", '[');
    PartitionAbsent("", ':');
  }

  /** Before a valid scheme, cleaning only touches what follows the `:`. */
  lemma CleanedAfterScheme(scheme: string, rest: string)
    requires IsSchemeText(scheme)
    ensures Cleaned(scheme + ":" + rest) == scheme + ":" + RemoveUnsafe(rest)
  {
    var url := scheme + ":" + rest;
    assert url[0] == scheme[0];
    assert LStripC0(url) == url;
    assert forall i :: 0 <= i < |scheme + ":"| ==> !IsUnsafe((scheme + ":")[i]) by {
      forall i | 0 <= i < |scheme + ":"|
        ensures !IsUnsafe((scheme + ":")[i])
      {
        if i < |scheme| {
          assert (scheme + ":")[i] == scheme[i];
        }
      }
    }
    RemoveUnsafeAppend(scheme + ":", rest);
    RemoveUnsafeSpec(scheme + ":");
  }

  /** A URL with a valid scheme and no brackets splits without error, and its scheme is the lowered one. */
  lemma SchemeUrlSplit(scheme: string, rest: string, parse: Parser)
    requires IsSchemeText(scheme)
    requires '[' !in rest && ']' !in rest
    ensures UrlSplit(scheme + ":" + rest, parse).Ok?
    ensures UrlSplit(scheme + ":" + rest, parse).value.scheme == AsciiLower(scheme)
  {
    var clean := RemoveUnsafe(rest);
    CleanedAfterScheme(scheme, rest);
    SchemeCut(scheme, clean);
    RemoveUnsafeAddsNothing(rest, '[');
    RemoveUnsafeAddsNothing(rest, ']');
    NetlocLacks(clean, '[');
    NetlocLacks(clean, ']');
    SplitAfterScheme(scheme + ":" + rest, AsciiLower(scheme), clean, parse);
  }

  /**
   * Any scheme other than `http` and `https`, compared after lowering, is
   * refused, and this check comes before the host is looked at.
   */
  lemma OtherSchemeRefused(scheme: string, rest: string, parse: Parser)
    requires IsSchemeText(scheme)
    requires AsciiLower(scheme) != "http" && AsciiLower(scheme) != "https"
    requires '[' !in rest && ']' !in rest
    ensures SyntaxCheck(scheme + ":" + rest, parse) == Err(Exc(ValueError, SchemeMessage))
  {
    SchemeUrlSplit(scheme, rest, parse);
    SchemeCheckedFirst(scheme + ":" + rest, parse);
  }

  /** A URL without any `:` has no scheme and is refused for it. */
  lemma SchemelessRefused(url: string, parse: Parser)
    requires ':' !in url && '[' !in url && ']' !in url
    ensures SyntaxCheck(url, parse) == Err(Exc(ValueError, SchemeMessage))
  {
    var u := Cleaned(url);
    CleanedLacks(url, ':');
    CleanedLacks(url, '[');
    CleanedLacks(url, ']');
    NotContainsChar(u, ':');
    NetlocLacks(u, '[');
    NetlocLacks(u, ']');
    SplitAfterScheme(url, "", u, parse);
    SchemeCheckedFirst(url, parse);
  }

  // ---- _is_private_host ----

  const Families: seq<Family> := [AF_INET, AF_INET6]

  function AnswerSet(a: Answer): set<string> {
    match a
    case Addresses(xs) => set x | x in xs
    case _ => {}
  }

  /** The union of the addresses found for the families `fams`, a `gaierror` counting as none. */
  function AddressesOf(host: string, resolve: Resolver, fams: seq<Family>): set<string> {
    if fams == [] then {}
    else AddressesOf(host, resolve, fams[..|fams| - 1]) + AnswerSet(resolve(host, fams[|fams| - 1]))
  }

  /**
   * The address set `_is_private_host` collects: the IPv4 answers united
   * with the IPv6 answers, or the first exception other than `gaierror`.
   */
  function Gathered(host: string, resolve: Resolver): (r: Result<set<string>, Exc>)
    ensures r.Err? <==> resolve(host, AF_INET).Failure? || resolve(host, AF_INET6).Failure?
    ensures r.Err? && resolve(host, AF_INET).Failure? ==> r.error == resolve(host, AF_INET).exc
    ensures r.Ok? ==> forall a :: a in r.value <==>
      || (resolve(host, AF_INET).Addresses? && a in resolve(host, AF_INET).addrs)
      || (resolve(host, AF_INET6).Addresses? && a in resolve(host, AF_INET6).addrs)
  {
    var a4 := resolve(host, AF_INET);
    if a4.Failure? then Err(a4.exc)
    else
      var a6 := resolve(host, AF_INET6);
      if a6.Failure? then Err(a6.exc)
      else Ok(AnswerSet(a4) + AnswerSet(a6))
  }

  /** The `getaddrinfo` calls made, in order: IPv6 is not asked once IPv4 raised. */
  function LookupsMade(host: string, resolve: Resolver): seq<Lookup> {
    if resolve(host, AF_INET).Failure? then [Lookup(host, AF_INET)]
    else [Lookup(host, AF_INET), Lookup(host, AF_INET6)]
  }

  /** `addr.split('%')[0]`: the address text without its zone (section 11 of RFC 4007). */
  function StripZone(a: string): string {
    SplitChar(a, '%')[0]
  }

  /** The address parses and falls in a blocked category. */
  predicate Refuses(parse: Parser, a: string) {
    match parse(StripZone(a))
    case Some(ip) => IsBlocked(ip)
    case None => false
  }

  predicate Unparsable(parse: Parser, a: string) {
    parse(StripZone(a)).None?
  }

  predicate AllAccepted(addrs: set<string>, parse: Parser) {
    forall a :: a in addrs ==> !Unparsable(parse, a) && !Refuses(parse, a)
  }

  /**
   * What the scan over the collected set may answer. The set is visited in
   * an unspecified order and the scan stops at the first refused or
   * unparsable address.
   */
  predicate ScanOutcome(addrs: set<string>, parse: Parser, r: Result<bool, Exc>) {
    match r
    case Ok(true) => exists a :: a in addrs && Refuses(parse, a)
    case Ok(false) => AllAccepted(addrs, parse)
    case Err(e) => exists a :: a in addrs && Unparsable(parse, a) && e == NotAnAddress(StripZone(a))
  }

  /**
   * `_is_private_host(host)`: collects the addresses of both families into a
   * set, then reports whether any of them is blocked.
   */
  method IsPrivateHost(host: string, resolve: Resolver, parse: Parser) returns (r: Result<bool, Exc>, lookups: seq<Lookup>)
    ensures lookups == LookupsMade(host, resolve)
    ensures Gathered(host, resolve).Err? ==> r == Err(Gathered(host, resolve).error)
    ensures Gathered(host, resolve).Ok? ==> ScanOutcome(Gathered(host, resolve).value, parse, r)
  {
    var addrs: set<string> := {};
    lookups := [];
    for i := 0 to |Families|
      invariant lookups == seq(i, k requires 0 <= k < i => Lookup(host, Families[k]))
      invariant forall k :: 0 <= k < i ==> !resolve(host, Families[k]).Failure?
      invariant addrs == AddressesOf(host, resolve, Families[..i])
    {
      var family := Families[i];
      lookups := lookups + [Lookup(host, family)];
      assert Families[..i + 1][..i] == Families[..i];
      match resolve(host, family)
      case Failure(e) =>
        r := Err(e);
        return;
      case GaiError =>
      case Addresses(infos) =>
        for j := 0 to |infos|
          invariant addrs == AddressesOf(host, resolve, Families[..i]) + set x | x in infos[..j]
        {
          assert infos[..j + 1] == infos[..j] + [infos[j]];
          addrs := addrs + {infos[j]};
        }
        assert infos[..|infos|] == infos;
    }
    assert addrs == Gathered(host, resolve).value by {
      assert Families[..2] == [AF_INET, AF_INET6];
      assert Families[..2][..1] == [AF_INET];
      assert Families[..1][..0] == [];
    }
    var pending := addrs;
    while pending != {}
      invariant pending <= addrs
      invariant forall a :: a in addrs - pending ==> !Unparsable(parse, a) && !Refuses(parse, a)
      decreases pending
    {
      var a :| a in pending;
      match parse(StripZone(a))
      case None =>
        r := Err(NotAnAddress(StripZone(a)));
        return;
      case Some(ip) =>
        if IsBlocked(ip) {
          r := Ok(true);
          return;
        }
      pending := pending - {a};
    }
    r := Ok(false);
  }

  /**
   * The answers `validate_url` may give once the host is known: accept when
   * every address parses and none is blocked, refuse with the host message
   * when some address is blocked, or pass on the parser's error for an
   * address it rejects.
   */
  predicate GateVerdict(addrs: set<string>, parse: Parser, r: Result<(), Exc>) {
    || (r == Ok(()) && AllAccepted(addrs, parse))
    || (r == Err(Exc(ValueError, BlockedMessage)) && exists a :: a in addrs && Refuses(parse, a))
    || (exists a :: a in addrs && Unparsable(parse, a) && r == Err(NotAnAddress(StripZone(a))))
  }

  /** A host that resolves to no address at all is accepted. */
  lemma NoAddressesAccepted(parse: Parser, r: Result<(), Exc>)
    ensures GateVerdict({}, parse, r) <==> r == Ok(())
  {
  }

  /** When every address parses, the verdict is fixed: refuse exactly when some address is blocked. */
  lemma VerdictWhenAllParse(addrs: set<string>, parse: Parser, r: Result<(), Exc>)
    requires forall a :: a in addrs ==> !Unparsable(parse, a)
    ensures GateVerdict(addrs, parse, r) <==>
      r == (if exists a :: a in addrs && Refuses(parse, a) then Err(Exc(ValueError, BlockedMessage)) else Ok(()))
  {
  }

  /** One blocked address is enough for the host never to be accepted, whatever the other addresses are. */
  lemma BlockedAddressNeverAccepted(addrs: set<string>, parse: Parser, a: string, r: Result<(), Exc>)
    requires a in addrs && Refuses(parse, a)
    ensures GateVerdict(addrs, parse, r) ==> r.Err?
  {
  }

  /** An address text without a zone is parsed as it is. */
  lemma StripZoneWithout(x: string)
    requires '%' !in x
    ensures StripZone(x) == x
  {
    SplitCharNoSep(x, '%');
  }

  /** The zone after the first `%` is dropped before parsing. */
  lemma StripZoneWith(x: string, zone: string)
    requires '%' !in x
    ensures StripZone(x + "%" + zone) == x
  {
    SplitCharPrefix(x, zone, '%');
  }

  /** A link-local IPv6 address is refused even when it carries a zone such as `%eth0`. */
  lemma ZonedLinkLocalRefused(parse: Parser, x: string, zone: string, n: V6Bits)
    requires '%' !in x && parse(x) == Some(V6(n)) && InBlock(n, V6LinkLocal)
    ensures Refuses(parse, x + "%" + zone)
  {
    StripZoneWith(x, zone);
    V6LinkLocalBlocked(n);
  }

  /**
   * A resolver failure other than `gaierror` for IPv4 is passed on, and
   * IPv6 is then not asked.
   */
  lemma ResolverFailurePassedOn(host: string, resolve: Resolver)
    requires resolve(host, AF_INET).Failure?
    ensures Gathered(host, resolve) == Err(resolve(host, AF_INET).exc)
    ensures LookupsMade(host, resolve) == [Lookup(host, AF_INET)]
  {
  }

  /** A `gaierror` for one family only drops that family's addresses. */
  lemma GaiErrorTolerated(host: string, resolve: Resolver, addrs: seq<string>)
    requires resolve(host, AF_INET) == GaiError && resolve(host, AF_INET6) == Addresses(addrs)
    ensures Gathered(host, resolve) == Ok(set a | a in addrs)
    ensures LookupsMade(host, resolve) == [Lookup(host, AF_INET), Lookup(host, AF_INET6)]
  {
    assert {} + (set a | a in addrs) == set a | a in addrs;
  }

  /**
   * A host with a single zone-free address, found for IPv4 while IPv6 has
   * none: the verdict is fixed by that address's category alone.
   */
  lemma SingleAddressHost(host: string, resolve: Resolver, parse: Parser, x: string, ip: IpAddress, r: Result<(), Exc>)
    requires resolve(host, AF_INET) == Addresses([x])
    requires resolve(host, AF_INET6) == GaiError || resolve(host, AF_INET6) == Addresses([])
    requires '%' !in x && parse(x) == Some(ip)
    ensures Gathered(host, resolve) == Ok({x})
    ensures GateVerdict({x}, parse, r) <==> r == (if IsBlocked(ip) then Err(Exc(ValueError, BlockedMessage)) else Ok(()))
  {
    assert AnswerSet(resolve(host, AF_INET)) == {x};
    assert AnswerSet(resolve(host, AF_INET6)) == {};
    assert {x} + {} == {x};
    StripZoneWithout(x);
    VerdictWhenAllParse({x}, parse, r);
  }

  /** A host whose only address is `127.0.0.1` is refused, and refusal is the only verdict. */
  lemma LoopbackHostRefused(host: string, resolve: Resolver, parse: Parser, r: Result<(), Exc>)
    requires resolve(host, AF_INET) == Addresses(["127.0.0.1"]) && resolve(host, AF_INET6) == GaiError
    requires parse("127.0.0.1") == Some(V4(0x7f00_0001))
    ensures Gathered(host, resolve) == Ok({"127.0.0.1"})
    ensures GateVerdict({"127.0.0.1"}, parse, r) <==> r == Err(Exc(ValueError, BlockedMessage))
  {
    V4LoopbackBlocked(0x7f00_0001);
    SingleAddressHost(host, resolve, parse, "127.0.0.1", V4(0x7f00_0001), r);
  }

  /** A host whose only address is `93.184.216.34` is accepted, and acceptance is the only verdict. */
  lemma PublicHostAccepted(host: string, resolve: Resolver, parse: Parser, r: Result<(), Exc>)
    requires resolve(host, AF_INET) == Addresses(["93.184.216.34"]) && resolve(host, AF_INET6) == Addresses([])
    requires parse("93.184.216.34") == Some(V4(0x5db8_d822))
    ensures Gathered(host, resolve) == Ok({"93.184.216.34"})
    ensures GateVerdict({"93.184.216.34"}, parse, r) <==> r == Ok(())
  {
    PublicV4Accepted();
    SingleAddressHost(host, resolve, parse, "93.184.216.34", V4(0x5db8_d822), r);
  }

  /** An answer the parser rejects makes the gate raise the parser's `ValueError`. */
  lemma UnparsableAddressRaises(host: string, a: string, parse: Parser, r: Result<(), Exc>)
    requires Unparsable(parse, a)
    ensures GateVerdict({a}, parse, r) <==> r == Err(NotAnAddress(StripZone(a)))
  {
  }

  /**
   * `validate_url(url)`: `Ok(())` where the source returns normally and
   * `Err(e)` where it raises `e`, together with the DNS lookups it made.
   */
  method ValidateUrl(url: string, resolve: Resolver, parse: Parser) returns (r: Result<(), Exc>, lookups: seq<Lookup>)
    ensures SyntaxCheck(url, parse).Err? ==> r == Err(SyntaxCheck(url, parse).error) && lookups == []
    ensures SyntaxCheck(url, parse).Ok? ==>
      var host := SyntaxCheck(url, parse).value;
      && lookups == LookupsMade(host, resolve)
      && (Gathered(host, resolve).Err? ==> r == Err(Gathered(host, resolve).error))
      && (Gathered(host, resolve).Ok? ==> GateVerdict(Gathered(host, resolve).value, parse, r))
  {
    match SyntaxCheck(url, parse)
    case Err(e) =>
      r, lookups := Err(e), [];
    case Ok(host) =>
      var privateHost;
      privateHost, lookups := IsPrivateHost(host, resolve, parse);
      match privateHost
      case Err(e) => r := Err(e);
      case Ok(true) => r := Err(Exc(ValueError, BlockedMessage));
      case Ok(false) => r := Ok(());
  }
}

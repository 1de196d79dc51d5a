/** The URL of the redirect back to the client (handlers_oauth.go, handlers_callback.go; net/url underneath).
  *
  * The server takes scheme, host and path of the registered redirect URI and puts them together again with a new query;
  * user info, fragment and the original spelling of escapes are not kept.
  */
module RedirectUrl {
  import opened Common
  import RedirectQuery

  /** A parsed web URL; host and path are decoded. */
  datatype Url = Url(scheme: Bytes, host: Bytes, path: Bytes, rawQuery: Bytes)

  // ----- Percent-encoding of hosts and paths -----

  /** A zone is what follows the escaped "%" in a bracketed host, as in "[fe80::1%25en0]". */
  datatype Part = Host | Zone | Path

  /** The byte may stand for itself. */
  predicate Keeps(part: Part, c: Byte) {
    || RedirectQuery.IsUnreserved(c)
    || c == '$' || c == '&' || c == '+' || c == ',' || c == ':' || c == ';' || c == '='
    || if part.Path? then c == '/' || c == '@'
       else c == '!' || '\'' <= c <= '*' || c == '<' || c == '>' || c == '"' || c == '[' || c == ']'
  }

  predicate IsASCII(c: Byte) {
    c as int < 128
  }

  /** The byte may be written as an escape. */
  predicate MayBeEscaped(part: Part, c: Byte) {
    match part
    case Path => true
    case Host => c == '%' || !IsASCII(c)
    case Zone => c == '%' || c == ' ' || Keeps(Zone, c)
  }

  /** The byte may be written as it is. */
  predicate MayBeLiteral(part: Part, c: Byte) {
    part.Path? || Keeps(part, c) || !IsASCII(c)
  }

  predicate MayOccur(part: Part, c: Byte) {
    MayBeEscaped(part, c) || MayBeLiteral(part, c)
  }

  function EscapeByte(part: Part, c: Byte): Bytes {
    if Keeps(part, c) then [c] else ['%', RedirectQuery.HexDigit(c as int / 16), RedirectQuery.HexDigit(c as int % 16)]
  }

  function Escape(part: Part, s: Bytes): Bytes {
    if s == [] then [] else EscapeByte(part, s[0]) + Escape(part, s[1..])
  }

  function Unescape(part: Part, s: Bytes): Option<Bytes> {
    if s == [] then Some([])
    else if s[0] == '%' then
      if |s| < 3 || RedirectQuery.HexValue(s[1]).None? || RedirectQuery.HexValue(s[2]).None? then None
      else
        var c := (RedirectQuery.HexValue(s[1]).value * 16 + RedirectQuery.HexValue(s[2]).value) as char;
        var rest := Unescape(part, s[3..]);
        if !MayBeEscaped(part, c) || rest.None? then None else Some([c] + rest.value)
    else
      var rest := Unescape(part, s[1..]);
      if !MayBeLiteral(part, s[0]) || rest.None? then None else Some([s[0]] + rest.value)
  }

  // ----- Reading -----

  predicate IsControl(c: Byte) {
    c as int < 32 || c as int == 127
  }

  predicate IsSchemeNamed(s: Bytes, name: Bytes) {
    && |s| > |name| && s[|name|] == ':'
    && forall i | 0 <= i < |name| :: s[i] == name[i] || s[i] as int + 32 == name[i] as int
  }

  /** The scheme, in lower case, if it is one the server accepts. */
  function WebScheme(s: Bytes): (r: Option<Bytes>)
    ensures r.Some? ==> (r.value == "http" || r.value == "https") && |r.value| < |s|
  {
    if IsSchemeNamed(s, "http") then Some("http") else if IsSchemeNamed(s, "https") then Some("https") else None
  }

  function FirstSlash(s: Bytes): (n: nat)
    ensures n <= |s| && '/' !in s[..n] && (n < |s| ==> s[n] == '/')
  {
    if s == [] || s[0] == '/' then 0 else 1 + FirstSlash(s[1..])
  }

  /** Where the last `c` is, or -1. */
  function LastIndex(s: Bytes, c: Byte): (i: int)
    ensures -1 <= i < |s| && (c !in s <==> i == -1)
  {
    if c !in s then -1 else 1 + LastIndex(s[1..], c)
  }

  predicate IsNumber(s: Bytes) {
    forall c | c in s :: '0' <= c <= '9'
  }

  /** If there is a port it is a number, or left empty. */
  predicate HasGoodPort(host: Bytes) {
    ':' in host ==> IsNumber(host[LastIndex(host, ':') + 1..])
  }

  predicate IsPort(s: Bytes) {
    s == "" || (s[0] == ':' && IsNumber(s[1..]))
  }

  /** Where the first "%25" is, or the length. */
  function ZoneStart(s: Bytes): (n: nat)
    ensures n <= |s|
  {
    if |s| < 3 then |s| else if s[..3] == "%25" then 0 else 1 + ZoneStart(s[1..])
  }

  /** A host with a port, if there is one.  Outside brackets escapes stand for neither colons nor digits, so it makes no
    * difference there that the port is checked after decoding. */
  function ReadHost(raw: Bytes): Option<Bytes> {
    if "[" <= raw then ReadLiteral(raw)
    else
      var host := Unescape(Host, raw);
      if host.Some? && HasGoodPort(host.value) then host else None
  }

  function ReadLiteral(raw: Bytes): Option<Bytes> {
    var end := LastIndex(raw, ']');
    if end < 0 || !IsPort(raw[end + 1..]) then None
    else
      var n := ZoneStart(raw[..end]);
      var address, zone := Unescape(Host, raw[..n]), Unescape(Zone, raw[n..end]);
      if address.None? || zone.None? then None else Some(address.value + zone.value + raw[end..])
  }

  predicate IsUserInfo(s: Bytes) {
    Unescape(Path, s).Some? && forall c | c in s ::
      RedirectQuery.IsUnreserved(c) || c == '!' || '$' <= c <= ',' || c == ':' || c == ';' || c == '=' || c == '@'
  }

  /** The host in "user@host:port". */
  function ReadAuthority(s: Bytes): Option<Bytes> {
    var at := LastIndex(s, '@');
    if at >= 0 && !IsUserInfo(s[..at]) then None else ReadHost(s[at + 1..])
  }

  /** Reads what comes between the scheme and the query. */
  function ReadPlace(s: Bytes): Option<(Bytes, Bytes)> {
    if !("/" <= s) then Some(([], []))
    else if !("//" <= s) then
      var path := Unescape(Path, s);
      if path.Some? then Some(([], path.value)) else None
    else
      var rest := s[2..];
      var n := FirstSlash(rest);
      var host, path := ReadAuthority(rest[..n]), Unescape(Path, rest[n..]);
      if host.Some? && path.Some? then Some((host.value, path.value)) else None
  }

  /** url.Parse, for URLs whose scheme is http or https; None for all others. */
  function Read(raw: Bytes): Option<Url> {
    var (url, fragment) := RedirectQuery.Cut(raw, '#');
    var scheme := WebScheme(url);
    if (exists c | c in url :: IsControl(c)) || Unescape(Path, fragment).None? || scheme.None? then None
    else ReadAfterScheme(scheme.value, url[|scheme.value| + 1..])
  }

  function ReadAfterScheme(scheme: Bytes, s: Bytes): Option<Url> {
    var (place, query) := RedirectQuery.Cut(s, '?');
    var p := ReadPlace(place);
    if p.Some? then Some(Url(scheme, p.value.0, p.value.1, query)) else None
  }

  // ----- Printing -----

  function PrintPlace(host: Bytes, path: Bytes): Bytes {
    (if host == "" && path == "" then [] else "//") + Escape(Host, host)
    + (if path != "" && path[0] != '/' && host != "" then "/" else []) + Escape(Path, path)
  }

  /** The String method of a URL with just these fields. */
  function Print(u: Url): Bytes {
    u.scheme + ":" + PrintPlace(u.host, u.path) + (if u.rawQuery == "" then [] else ['?'] + u.rawQuery)
  }

  // ----- Reading inverts printing -----

  ghost predicate IsName(host: Bytes) {
    !("[" <= host) && (forall c | c in host :: MayOccur(Host, c)) && HasGoodPort(host)
  }

  /** The parts of a bracketed host: up to the zone, the zone with its "%", and the port with its colon. */
  ghost predicate IsLiteral(address: Bytes, zone: Bytes, port: Bytes) {
    && "[" <= address && '%' !in address && (forall c | c in address :: MayOccur(Host, c))
    && (zone == "" || zone[0] == '%') && (forall c | c in zone :: MayOccur(Zone, c))
    && IsPort(port)
  }

  function LiteralOf(address: Bytes, zone: Bytes, port: Bytes): Bytes {
    address + zone + ("]" + port)
  }

  ghost predicate IsHost(host: Bytes) {
    IsName(host) || exists a, z, p :: IsLiteral(a, z, p) && host == LiteralOf(a, z, p)
  }

  /** Printing escapes what is not ASCII, and in a zone such an escape is not read. */
  predicate HasReadableZone(host: Bytes) {
    "[" <= host ==> forall i, j | 0 <= i < j < |host| && host[i] == '%' :: IsASCII(host[j])
  }

  ghost predicate IsPath(path: Bytes) {
    path == "" || path[0] == '/'
  }

  ghost predicate IsReadable(u: Url) {
    (u.scheme == "http" || u.scheme == "https") && IsHost(u.host) && IsPath(u.path)
  }

  lemma {:induction false} UnescapedMayOccur(part: Part, s: Bytes)
    ensures Unescape(part, s).Some? ==> forall c | c in Unescape(part, s).value :: MayOccur(part, c)
  {
    if s != [] {
      UnescapedMayOccur(part, if s[0] == '%' && |s| >= 3 then s[3..] else s[1..]);
    }
  }

  lemma FirstByteStays(part: Part, s: Bytes)
    requires Unescape(part, s).Some? && s != []
    ensures var r := Unescape(part, s).value;
            && r != [] && (s[0] != '%' ==> r[0] == s[0]) && (part.Host? && s[0] == '%' ==> r[0] != '[')
            && ("%25" <= s ==> r[0] == '%')
  {
  }

  lemma NoZoneHere(s: Bytes)
    requires s != [] && !("%25" <= s)
    ensures ZoneStart(s) == 1 + ZoneStart(s[1..])
  {
    assert |s| >= 3 ==> s[..3] != "%25";
  }

  lemma NoZoneInEscape(s: Bytes)
    requires |s| >= 3 && !("%25" <= s) && s[1] != '%' && s[2] != '%'
    ensures ZoneStart(s) == 3 + ZoneStart(s[3..])
  {
    hide ZoneStart;
    NoZoneHere(s);
    NoZoneHere(s[1..]);
    NoZoneHere(s[2..]);
    assert s[1..][1..] == s[2..] && s[2..][1..] == s[3..];
  }

  lemma PlainByteUnescapes(s: Bytes)
    requires s != [] && s[0] != '%' && Unescape(Host, s).Some?
    ensures Unescape(Host, s[1..]).Some? && Unescape(Host, s).value == [s[0]] + Unescape(Host, s[1..]).value
  {
  }

  lemma EscapeUnescapes(s: Bytes)
    requires s != [] && s[0] == '%' && Unescape(Host, s).Some?
    ensures |s| >= 3 && Unescape(Host, s[3..]).Some?
    ensures RedirectQuery.HexValue(s[1]).Some? && RedirectQuery.HexValue(s[2]).Some?
    ensures var c := (RedirectQuery.HexValue(s[1]).value * 16 + RedirectQuery.HexValue(s[2]).value) as char;
            Unescape(Host, s).value == [c] + Unescape(Host, s[3..]).value
  {
    hide MayBeEscaped, RedirectQuery.HexValue;
  }

  lemma OnlyThatEscapeIsPercent(s: Bytes)
    requires |s| >= 3 && s[0] == '%' && !("%25" <= s)
    requires RedirectQuery.HexValue(s[1]).Some? && RedirectQuery.HexValue(s[2]).Some?
    ensures s[1] != '%' && s[2] != '%'
    ensures RedirectQuery.HexValue(s[1]).value * 16 + RedirectQuery.HexValue(s[2]).value != '%' as int
  {
    assert s[..3] == [s[0], s[1], s[2]];
  }

  lemma {:induction false} ZoneStartIsZone(s: Bytes)
    ensures ZoneStart(s) < |s| ==> "%25" <= s[ZoneStart(s)..]
  {
    if s != [] && !("%25" <= s) {
      NoZoneHere(s);
      ZoneStartIsZone(s[1..]);
    }
  }

  lemma {:induction false} PrefixHasNoZone(s: Bytes)
    ensures !("%25" <= s[..ZoneStart(s)])
  {
    assert ZoneStart(s) >= 3 ==> s[..ZoneStart(s)][..3] == s[..3];
  }

  /** Before the first "%25" no escape stands for "%". */
  lemma {:induction false} AddressHasNoPercent(s: Bytes)
    ensures var t := s[..ZoneStart(s)];
            Unescape(Host, t).Some? ==> '%' !in Unescape(Host, t).value
  {
    hide Unescape, ZoneStart;
    var n := ZoneStart(s);
    var t := s[..n];
    PrefixHasNoZone(s);
    if t == [] {
      NothingUnescapes(Host);
    } else if Unescape(Host, t).Some? {
      ZoneIsElsewhere(s);
      if t[0] == '%' {
        EscapeUnescapes(t);
        OnlyThatEscapeIsPercent(t);
        NoZoneInEscape(s);
        AddressHasNoPercent(s[3..]);
        assert t[3..] == s[3..][..n - 3];
      } else {
        PlainByteUnescapes(t);
        NoZoneHere(s);
        AddressHasNoPercent(s[1..]);
        assert t[1..] == s[1..][..n - 1];
      }
    }
  }

  lemma ZoneIsElsewhere(s: Bytes)
    requires ZoneStart(s) > 0
    ensures !("%25" <= s)
  {
    assert |s| >= 3 ==> s[..3] == [s[0], s[1], s[2]];
  }

  lemma ReadHostIsHost(raw: Bytes)
    requires ReadHost(raw).Some?
    ensures IsHost(ReadHost(raw).value)
  {
    hide Unescape, MayOccur, ZoneStart;
    if "[" <= raw {
      var end := LastIndex(raw, ']');
      LiteralIsRead(raw, end);
    } else {
      UnescapedMayOccur(Host, raw);
      NameIsRead(raw);
    }
  }

  lemma NameIsRead(raw: Bytes)
    requires !("[" <= raw) && Unescape(Host, raw).Some?
    ensures !("[" <= Unescape(Host, raw).value)
  {
    if raw != [] {
      FirstByteStays(Host, raw);
    }
  }

  lemma LastIndexIsIt(s: Bytes, c: Byte)
    requires c in s
    ensures s[LastIndex(s, c)] == c
  {
  }

  lemma LiteralIsRead(raw: Bytes, end: nat)
    requires "[" <= raw && end == LastIndex(raw, ']') && ReadLiteral(raw).Some?
    ensures exists a, z, p :: IsLiteral(a, z, p) && ReadLiteral(raw).value == LiteralOf(a, z, p)
  {
    hide Unescape, MayOccur, LastIndex, MayBeEscaped, MayBeLiteral, Keeps, ZoneStart;
    var s := raw[..end];
    var n := ZoneStart(s);
    assert s[..n] == raw[..n] && s[n..] == raw[n..end];
    var a, z, p := Unescape(Host, raw[..n]).value, Unescape(Zone, raw[n..end]).value, raw[end + 1..];
    AddressHasNoPercent(s);
    ZoneStartIsZone(s);
    UnescapedMayOccur(Host, raw[..n]);
    UnescapedMayOccur(Zone, raw[n..end]);
    LastIndexIsIt(raw, ']');
    BracketComesFirst(s);
    FirstByteStays(Host, raw[..n]);
    if n < end {
      FirstByteStays(Zone, raw[n..end]);
    } else {
      NothingUnescapes(Zone);
    }
    assert raw[end..] == "]" + p;
    assert IsLiteral(a, z, p);
  }

  lemma BracketComesFirst(s: Bytes)
    requires s != [] && s[0] == '['
    ensures ZoneStart(s) > 0
  {
  }

  lemma NothingUnescapes(part: Part)
    ensures Unescape(part, []) == Some([])
  {
  }

  lemma PlaceIsReadable(s: Bytes)
    requires ReadPlace(s).Some?
    ensures IsHost(ReadPlace(s).value.0) && IsPath(ReadPlace(s).value.1)
  {
    hide IsHost, Unescape, ReadHost, IsUserInfo, LastIndex, FirstSlash;
    NowhereIsAHost();
    if "//" <= s {
      var rest := s[2..];
      var n := FirstSlash(rest);
      var authority := rest[..n];
      ReadHostIsHost(authority[LastIndex(authority, '@') + 1..]);
      PathIsRead(rest[n..]);
    } else if "/" <= s {
      PathIsRead(s);
    }
  }

  lemma NowhereIsAHost()
    ensures IsHost([])
  {
    assert IsName([]);
  }

  lemma PathIsRead(s: Bytes)
    requires (s == [] || s[0] == '/') && Unescape(Path, s).Some?
    ensures IsPath(Unescape(Path, s).value)
  {
    if s != [] {
      FirstByteStays(Path, s);
    }
  }

  lemma EscapedByteReadsBack(part: Part, c: Byte, rest: Bytes)
    requires MayOccur(part, c)
    ensures Unescape(part, EscapeByte(part, c) + rest) ==
            if (part.Zone? && !IsASCII(c)) || Unescape(part, rest).None? then None
            else Some([c] + Unescape(part, rest).value)
  {
    var e := EscapeByte(part, c);
    assert (e + rest)[|e|..] == rest;
    if !Keeps(part, c) {
      RedirectQuery.HexRoundTrip(c as int / 16);
      RedirectQuery.HexRoundTrip(c as int % 16);
    }
  }

  /** Unescaping inverts escaping except for bytes outside ASCII in a zone. */
  lemma {:induction false} UnescapeInvertsEscape(part: Part, s: Bytes)
    requires forall c | c in s :: MayOccur(part, c)
    ensures Unescape(part, Escape(part, s)) ==
            if part.Zone? && (exists c | c in s :: !IsASCII(c)) then None else Some(s)
  {
    hide MayOccur, EscapeByte;
    if s == [] {
      NothingUnescapes(part);
    } else {
      hide Unescape;
      UnescapeInvertsEscape(part, s[1..]);
      EscapedByteReadsBack(part, s[0], Escape(part, s[1..]));
      assert s == [s[0]] + s[1..];
    }
  }

  lemma {:induction false} EscapeSplits(part: Part, s: Bytes, t: Bytes)
    ensures Escape(part, s + t) == Escape(part, s) + Escape(part, t)
  {
    hide EscapeByte;
    if s == [] {
      assert s + t == t;
    } else {
      EscapeSplits(part, s[1..], t);
      assert (s + t)[1..] == s[1..] + t;
    }
  }

  lemma {:induction false} KeptStays(part: Part, s: Bytes)
    requires forall c | c in s :: Keeps(part, c)
    ensures Escape(part, s) == s
  {
    if s != [] {
      KeptStays(part, s[1..]);
      assert s == [s[0]] + s[1..];
    }
  }

  lemma {:induction false} ZonesEscapeLikeHosts(s: Bytes)
    ensures Escape(Zone, s) == Escape(Host, s)
  {
    if s != [] {
      ZonesEscapeLikeHosts(s[1..]);
    }
  }

  lemma {:induction false} LastIndexIsLast(s: Bytes, c: Byte, t: Bytes)
    requires c !in t
    ensures LastIndex(s + ([c] + t), c) == |s|
  {
    var r := s + ([c] + t);
    if s == [] {
      assert r[1..] == t && r[0] == c;
    } else {
      LastIndexIsLast(s[1..], c, t);
      assert r[1..] == s[1..] + ([c] + t);
      assert c in r by {
        assert r[|s|] == c;
      }
    }
  }

  /** An escaped address is not mistaken for the beginning of a zone. */
  lemma {:induction false} ZoneStartsAfter(a: Bytes, e: Bytes)
    requires '%' !in a && (forall c | c in a :: MayOccur(Host, c))
    requires e == [] || "%25" <= e
    ensures ZoneStart(Escape(Host, a) + e) == |Escape(Host, a)|
  {
    if a != [] {
      var rest := Escape(Host, a[1..]) + e;
      ZoneStartsAfter(a[1..], e);
      assert Escape(Host, a) + e == EscapeByte(Host, a[0]) + rest;
      ByteIsNoZone(a[0], rest);
    } else {
      assert [] + e == e;
    }
  }

  lemma ByteIsNoZone(c: Byte, rest: Bytes)
    requires MayOccur(Host, c) && c != '%'
    ensures ZoneStart(EscapeByte(Host, c) + rest) == |EscapeByte(Host, c)| + ZoneStart(rest)
  {
    hide ZoneStart;
    var e := EscapeByte(Host, c);
    var s := e + rest;
    assert s[|e|..] == rest;
    if Keeps(Host, c) {
      assert s[0] != "%25"[0];
      NoZoneHere(s);
    } else {
      assert RedirectQuery.HexDigit(c as int / 16) != '2';
      assert s[1] == e[1] && s[2] == e[2];
      NoZoneInEscape(s);
    }
  }

  lemma EscapedZoneStartsWell(zone: Bytes)
    requires zone != [] && zone[0] == '%'
    ensures "%25" <= Escape(Host, zone)
  {
    assert EscapeByte(Host, '%') == "%25";
  }

  lemma PortIsKept(port: Bytes)
    requires IsPort(port)
    ensures Escape(Host, "]" + port) == "]" + port && ']' !in port
    ensures forall c | c in port :: c != '%' && IsASCII(c)
  {
    assert forall c | c in port :: c == ':' || c in port[1..];
    KeptStays(Host, "]" + port);
  }

  lemma LiteralPrintsAs(a: Bytes, z: Bytes, p: Bytes)
    requires IsLiteral(a, z, p)
    ensures Escape(Host, LiteralOf(a, z, p)) == Escape(Host, a) + Escape(Host, z) + ("]" + p)
    ensures ']' !in p && IsPort(p) && "[" <= Escape(Host, a)
  {
    EscapeSplits(Host, a + z, "]" + p);
    EscapeSplits(Host, a, z);
    PortIsKept(p);
    assert Escape(Host, a)[0] == '[';
  }

  lemma LiteralRoundTrip(a: Bytes, z: Bytes, p: Bytes)
    requires IsLiteral(a, z, p)
    ensures ReadHost(Escape(Host, LiteralOf(a, z, p))) ==
            if exists c | c in z :: !IsASCII(c) then None else Some(LiteralOf(a, z, p))
  {
    hide Escape, Unescape, ZoneStart, MayOccur, LastIndex, IsPort, Keeps, IsASCII;
    var ea, ez, tail := Escape(Host, a), Escape(Host, z), "]" + p;
    var e := ea + ez + tail;
    LiteralPrintsAs(a, z, p);
    LiteralPartsRead(a, z, p);
    LastIndexIsLast(ea + ez, ']', p);
    var end := |ea + ez|;
    assert e[..end] == ea + ez && e[end + 1..] == p && e[end..] == tail;
    assert e[..|ea|] == ea && e[|ea|..end] == ez;
    assert "[" <= e;
  }

  lemma LiteralPartsRead(a: Bytes, z: Bytes, p: Bytes)
    requires IsLiteral(a, z, p)
    ensures ZoneStart(Escape(Host, a) + Escape(Host, z)) == |Escape(Host, a)|
    ensures Unescape(Host, Escape(Host, a)) == Some(a)
    ensures Unescape(Zone, Escape(Host, z)) == if exists c | c in z :: !IsASCII(c) then None else Some(z)
  {
    hide Escape, Unescape, ZoneStart, MayOccur, IsPort, Keeps;
    if z == [] {
      NothingEscapes(Host);
    } else {
      EscapedZoneStartsWell(z);
    }
    ZoneStartsAfter(a, Escape(Host, z));
    UnescapeInvertsEscape(Host, a);
    UnescapeInvertsEscape(Zone, z);
    ZonesEscapeLikeHosts(z);
  }

  lemma NothingEscapes(part: Part)
    ensures Escape(part, []) == []
  {
  }

  /** A printed host reads back exactly if its zone, if it has one, is ASCII. */
  lemma HostRoundTrip(host: Bytes)
    requires IsHost(host)
    ensures ReadHost(Escape(Host, host)) == if HasReadableZone(host) then Some(host) else None
  {
    if IsName(host) {
      NameRoundTrip(host);
    } else {
      var a, z, p :| IsLiteral(a, z, p) && host == LiteralOf(a, z, p);
      LiteralRoundTrip(a, z, p);
      ZoneIsWhatFollows(a, z, p);
    }
  }

  lemma NameRoundTrip(host: Bytes)
    requires IsName(host)
    ensures ReadHost(Escape(Host, host)) == Some(host)
  {
    UnescapeInvertsEscape(Host, host);
    assert !("[" <= Escape(Host, host));
  }

  lemma ZoneIsWhatFollows(a: Bytes, z: Bytes, p: Bytes)
    requires IsLiteral(a, z, p)
    ensures HasReadableZone(LiteralOf(a, z, p)) <==> forall c | c in z :: IsASCII(c)
  {
    hide MayOccur, IsPort, IsASCII, HasReadableZone;
    if z != [] && !(forall j | 0 <= j < |z| :: IsASCII(z[j])) {
      var j :| 0 <= j < |z| && !IsASCII(z[j]);
      LostByteCounts(a, z, p, j);
    }
    if forall c | c in z :: IsASCII(c) {
      NothingElseCounts(a, z, p);
    }
  }

  lemma LostByteCounts(a: Bytes, z: Bytes, p: Bytes, j: nat)
    requires "[" <= a && j < |z| && z[0] == '%' && !IsASCII(z[j])
    ensures !HasReadableZone(LiteralOf(a, z, p))
  {
    var h := LiteralOf(a, z, p);
    assert h[|a|] == '%' && h[|a| + j] == z[j];
    assert "[" <= h;
  }

  lemma NothingElseCounts(a: Bytes, z: Bytes, p: Bytes)
    requires '%' !in a && IsPort(p) && forall c | c in z :: IsASCII(c)
    ensures HasReadableZone(LiteralOf(a, z, p))
  {
    hide IsPort, IsASCII;
    var h, rest := LiteralOf(a, z, p), z + ("]" + p);
    assert h == a + rest;
    TailIsASCII(z, p);
    forall i, j | 0 <= i < j < |h| && h[i] == '%'
      ensures IsASCII(h[j])
    {
      PercentIsInTail(a, rest, i);
      assert h[j] == rest[j - |a|];
    }
  }

  lemma PercentIsInTail(a: Bytes, rest: Bytes, i: nat)
    requires '%' !in a && i < |a + rest| && (a + rest)[i] == '%'
    ensures i >= |a|
  {
  }

  lemma TailIsASCII(z: Bytes, p: Bytes)
    requires IsPort(p) && forall c | c in z :: IsASCII(c)
    ensures forall c | c in z + ("]" + p) :: IsASCII(c)
  {
    hide Escape;
    PortIsKept(p);
    assert forall c | c in z + ("]" + p) :: c in z || c == ']' || c in p;
  }

  predicate IsPlain(c: Byte) {
    !IsControl(c) && c != '#' && c != '?'
  }

  lemma EscapedByteIsPlain(part: Part, c: Byte)
    ensures forall d | d in EscapeByte(part, c) :: IsPlain(d) && (!part.Path? ==> d != '/' && d != '@')
  {
  }

  /** Escaped text keeps clear of what structures a URL. */
  lemma {:induction false} EscapedIsPlain(part: Part, s: Bytes)
    ensures forall c | c in Escape(part, s) :: IsPlain(c) && (!part.Path? ==> c != '/' && c != '@')
  {
    hide IsPlain, EscapeByte;
    if s != [] {
      EscapedByteIsPlain(part, s[0]);
      EscapedIsPlain(part, s[1..]);
    }
  }

  lemma {:induction false} FirstSlashIsFirst(a: Bytes, b: Bytes)
    requires '/' !in a && (b == [] || b[0] == '/')
    ensures FirstSlash(a + b) == |a|
  {
    if a == [] {
      assert a + b == b;
    } else {
      FirstSlashIsFirst(a[1..], b);
      assert (a + b)[1..] == a[1..] + b;
    }
  }

  lemma EscapedPathKeepsItsSlash(path: Bytes)
    requires path != "" && path[0] == '/'
    ensures Escape(Path, path) != [] && Escape(Path, path)[0] == '/'
  {
  }

  lemma PlaceRoundTrip(host: Bytes, path: Bytes)
    requires IsHost(host) && IsPath(path)
    ensures ReadPlace(PrintPlace(host, path)) == if HasReadableZone(host) then Some((host, path)) else None
  {
    hide IsHost, IsUserInfo, Escape, Unescape, IsPlain, FirstSlash, Keeps, ReadHost, HasReadableZone;
    var h, p := Escape(Host, host), Escape(Path, path);
    HostRoundTrip(host);
    UnescapeInvertsEscape(Path, path);
    if host != "" || path != "" {
      PlacePrintsAs(host, path);
      var s := PrintPlace(host, path);
      assert s[2..] == h + p;
      EscapedIsPlain(Host, host);
      FirstSlashIsFirst(h, p);
      assert (h + p)[..|h|] == h && (h + p)[|h|..] == p;
      assert h[0..] == h;
    } else {
      NowherePrintsAsNothing();
      NowhereHasNoZone();
    }
  }

  lemma NowhereHasNoZone()
    ensures HasReadableZone([])
  {
  }

  lemma NowherePrintsAsNothing()
    ensures PrintPlace([], []) == []
  {
  }

  lemma PlacePrintsAs(host: Bytes, path: Bytes)
    requires (host != "" || path != "") && IsPath(path)
    ensures PrintPlace(host, path) == "//" + (Escape(Host, host) + Escape(Path, path))
    ensures "/" <= PrintPlace(host, path) && "//" <= PrintPlace(host, path)
    ensures Escape(Path, path) == [] || Escape(Path, path)[0] == '/'
  {
    assert PrintPlace(host, path) == "//" + (Escape(Host, host) + Escape(Path, path));
    if path != "" {
      EscapedPathKeepsItsSlash(path);
    }
  }

  /** A query that can stand in a URL. */
  predicate IsQuery(q: Bytes) {
    q != "" && forall c | c in q :: !IsControl(c) && c != '#'
  }

  lemma PlaceIsPlain(host: Bytes, path: Bytes)
    ensures forall c | c in PrintPlace(host, path) :: IsPlain(c)
  {
    hide Escape;
    EscapedIsPlain(Host, host);
    EscapedIsPlain(Path, path);
  }

  lemma SchemeReadsBack(u: Url)
    requires u.scheme == "http" || u.scheme == "https"
    ensures WebScheme(Print(u)) == Some(u.scheme)
    ensures forall c | c in u.scheme + ":" :: IsPlain(c)
    ensures |u.scheme| + 1 <= |Print(u)|
    ensures u.rawQuery != "" ==> Print(u)[|u.scheme| + 1..] == PrintPlace(u.host, u.path) + ['?'] + u.rawQuery
  {
    hide PrintPlace;
    var head := u.scheme + ":";
    var rest := PrintPlace(u.host, u.path) + if u.rawQuery == "" then [] else ['?'] + u.rawQuery;
    assert Print(u) == head + rest;
    assert Print(u)[..|head|] == head && Print(u)[|head|..] == rest;
    assert Print(u)[|u.scheme|] == ':' && Print(u)[4] == head[4];
    forall i | 0 <= i < |u.scheme|
      ensures Print(u)[i] == u.scheme[i]
    {
    }
  }

  lemma PrintedIsClean(u: Url)
    requires (u.scheme == "http" || u.scheme == "https") && IsQuery(u.rawQuery)
    ensures forall c | c in Print(u) :: !IsControl(c) && c != '#'
  {
    hide PrintPlace, WebScheme, IsControl;
    SchemeReadsBack(u);
    PlaceIsPlain(u.host, u.path);
    QuestionMarkIsNoControl();
  }

  lemma QuestionMarkIsNoControl()
    ensures !IsControl('?')
  {
  }

  lemma PrintedReadsBack(u: Url)
    requires IsReadable(u) && IsQuery(u.rawQuery)
    ensures Read(Print(u)) == if HasReadableZone(u.host) then Some(u) else None
  {
    hide PrintPlace, ReadPlace, Print, WebScheme, IsControl, IsPlain, Unescape;
    var raw, place := Print(u), PrintPlace(u.host, u.path);
    PrintedIsClean(u);
    SchemeReadsBack(u);
    PlaceIsPlain(u.host, u.path);
    PlaceRoundTrip(u.host, u.path);
    RedirectQuery.CutWithoutSeparator(raw, '#');
    PlainHasNoQuestionMark(place);
    RedirectQuery.CutAtSeparator(place, '?', u.rawQuery);
    NothingUnescapes(Path);
  }

  lemma PlainHasNoQuestionMark(s: Bytes)
    requires forall c | c in s :: IsPlain(c)
    ensures '?' !in s
  {
  }

  lemma {:induction false} EscapedQueryIsClean(s: Bytes)
    ensures forall c | c in RedirectQuery.Escape(s) :: !IsControl(c) && c != '#'
  {
    if s != [] {
      EscapedQueryIsClean(s[1..]);
    }
  }

  lemma {:induction false} PrintedPairsAreAQuery(ps: seq<RedirectQuery.Pair>)
    requires ps != []
    ensures IsQuery(RedirectQuery.PrintPairs(ps))
  {
    EscapedQueryIsClean(ps[0].0);
    EscapedQueryIsClean(ps[0].1);
    if |ps| > 1 {
      PrintedPairsAreAQuery(ps[1..]);
    }
  }

  /** The URL the server sends the browser to, parameters printed in the order of `keys`. */
  function Redirect(u: Url, code: Bytes, state: Bytes, keys: seq<Bytes>): Bytes
    requires forall k | k in keys :: k in RedirectQuery.RedirectParams(u.rawQuery, code, state)
  {
    Print(u.(rawQuery := RedirectQuery.Encode(RedirectQuery.RedirectParams(u.rawQuery, code, state), keys)))
  }

  /** Whatever redirect URI the client gave: reading the URL it is sent back to returns the scheme, the host and the
    * decoded path of that URI, and its parameters with `code` replaced and `state` replaced exactly when the request
    * had one, unless its host has a zone that is not ASCII; then what is printed is no URL. */
  lemma RedirectReadsBack(uri: Bytes, code: Bytes, state: Bytes, keys: seq<Bytes>)
    requires Read(uri).Some?
    requires RedirectQuery.IsOrderOf(keys, RedirectQuery.RedirectParams(Read(uri).value.rawQuery, code, state))
    ensures var u := Read(uri).value;
            var r := Read(Redirect(u, code, state, keys));
            && (r.Some? <==> HasReadableZone(u.host))
            && (r.Some? ==> r.value.scheme == u.scheme && r.value.host == u.host && r.value.path == u.path)
            && (r.Some? ==>
                  && RedirectQuery.ParseQuery(r.value.rawQuery) == RedirectQuery.RedirectParams(u.rawQuery, code, state)
                  && RedirectQuery.IsSentBack(u.rawQuery, code, state, r.value.rawQuery))
  {
    hide Read, HasReadableZone, RedirectQuery.IsSentBack, IsHost;
    var u := Read(uri).value;
    ReadIsReadable(uri);
    var params := RedirectQuery.RedirectParams(u.rawQuery, code, state);
    assert "code" in keys;
    RedirectQuery.ParamsAreThere(u.rawQuery, code, state, keys);
    PrintedPairsAreAQuery(RedirectQuery.Flatten(params, keys));
    PrintedReadsBack(u.(rawQuery := RedirectQuery.Encode(params, keys)));
    RedirectQuery.RedirectQueryRoundTrip(u.rawQuery, code, state, keys);
  }

  lemma RawByteUnescapes(c: Byte)
    requires !IsASCII(c)
    ensures Unescape(Zone, [c]) == Some([c])
  {
    var s: Bytes := [c];
    NothingUnescapes(Zone);
    assert s[1..] == [] && s[0] == c && MayBeLiteral(Zone, c);
    assert Unescape(Zone, s[1..]) == Some([]);
    assert [s[0]] + [] == s;
  }

  lemma ZoneUnescapes(c: Byte)
    requires !IsASCII(c)
    ensures Unescape(Zone, "%25" + [c]) == Some("%" + [c])
  {
    var s: Bytes := "%25" + [c];
    RawByteUnescapes(c);
    assert s[3..] == [c];
  }

  lemma LoopbackUnescapes()
    ensures Unescape(Host, "[::") == Some("[::") && Escape(Host, "[::") == "[::"
  {
    KeptStays(Host, "[::");
    UnescapeInvertsEscape(Host, "[::");
  }

  lemma LiteralWithZone(c: Byte)
    requires !IsASCII(c)
    ensures ReadHost("[::" + ("%25" + [c]) + ("]" + [])) == Some("[::%" + [c] + "]")
  {
    hide Unescape, LastIndex, ZoneStart, Escape, Keeps, MayOccur;
    var front, zone, tail: Bytes := "[::", "%25" + [c], "]" + [];
    var raw: Bytes := front + zone + tail;
    LoopbackUnescapes();
    LastIndexIsLast(front + zone, ']', []);
    assert raw[..|front + zone|] == front + zone;
    assert raw[..3] == front && raw[3..7] == zone && raw[7..] == tail && raw[8..] == [];
    ZoneStartsInLiteral(zone);
    ZoneUnescapes(c);
    assert "[::%" + [c] + "]" == front + ("%" + [c]) + tail;
  }

  lemma ZoneStartsInLiteral(zone: Bytes)
    requires "%25" <= zone
    ensures ZoneStart("[::" + zone) == 3
  {
    LoopbackUnescapes();
    ZoneStartsAfter("[::", zone);
  }

  lemma PlaceWithoutPath(host: Bytes, raw: Bytes)
    requires '/' !in raw && '@' !in raw && ReadHost(raw) == Some(host)
    ensures ReadPlace("//" + raw) == Some((host, []))
  {
    hide ReadHost, FirstSlash, LastIndex, IsUserInfo;
    var s: Bytes := "//" + raw;
    NothingUnescapes(Path);
    FirstSlashIsFirst(raw, []);
    assert raw + [] == raw && s[2..] == raw && raw[..|raw|] == raw && raw[|raw|..] == [] && raw[0..] == raw;
  }

  lemma PlainURLIsRead(place: Bytes)
    requires forall c | c in place :: IsPlain(c)
    requires ReadPlace(place).Some?
    ensures Read("http:" + place) == Some(Url("http", ReadPlace(place).value.0, ReadPlace(place).value.1, []))
  {
    hide ReadPlace, RedirectQuery.Cut, Unescape;
    var uri: Bytes := "http:" + place;
    assert uri[5..] == place;
    assert forall c | c in uri :: IsPlain(c);
    RedirectQuery.CutWithoutSeparator(uri, '#');
    RedirectQuery.CutWithoutSeparator(place, '?');
    NothingUnescapes(Path);
  }

  /** Such redirect URIs exist: they are read, but what is printed for them is not. */
  lemma SomeZonesAreLost(c: Byte)
    requires !IsASCII(c)
    ensures var host: Bytes := "[::%" + [c] + "]";
            && !HasReadableZone(host)
            && Read("http:" + ("//" + ("[::" + ("%25" + [c]) + ("]" + [])))) == Some(Url("http", host, [], []))
  {
    hide ReadHost, ReadPlace, Read;
    var host: Bytes := "[::%" + [c] + "]";
    assert host[3] == '%' && host[4] == c;
    var raw: Bytes := "[::" + ("%25" + [c]) + ("]" + []);
    LiteralWithZone(c);
    PlaceWithoutPath(host, raw);
    PlainURLIsRead("//" + raw);
  }

  lemma ReadIsReadable(raw: Bytes)
    requires Read(raw).Some?
    ensures IsReadable(Read(raw).value)
  {
    hide ReadAfterScheme, RedirectQuery.Cut, Unescape, IsControl, IsHost, WebScheme;
    var url := RedirectQuery.Cut(raw, '#').0;
    var scheme := WebScheme(url).value;
    RestIsReadable(scheme, url[|scheme| + 1..]);
  }

  lemma RestIsReadable(scheme: Bytes, s: Bytes)
    requires (scheme == "http" || scheme == "https") && ReadAfterScheme(scheme, s).Some?
    ensures IsReadable(ReadAfterScheme(scheme, s).value)
  {
    hide ReadPlace, RedirectQuery.Cut, IsHost;
    PlaceIsReadable(RedirectQuery.Cut(s, '?').0);
  }

  // ----- Whatever way the client wrote its URI -----

  /** The bytes that stand for themselves in a host, and in a path, besides letters and digits. */
  lemma KeptBytes(c: Byte)
    ensures Keeps(Host, c) <==> IsLetterOrDigit(c) || c in "-._~!$&'()*+,;=:[]<>\""
    ensures Keeps(Path, c) <==> IsLetterOrDigit(c) || c in "-._~$&+,/:;=@"
    ensures Keeps(Zone, c) <==> Keeps(Host, c)
  {
  }

  predicate IsLetterOrDigit(c: Byte) {
    'a' <= c <= 'z' || 'A' <= c <= 'Z' || '0' <= c <= '9'
  }

  /** The text is one of the ways to write s: each byte as it is or as an escape in either case, where it may be so. */
  predicate Writes(part: Part, text: Bytes, s: Bytes)
    decreases |s|
  {
    if s == [] then text == []
    else
      var c := s[0];
      || (text != [] && text[0] == c && c != '%' && MayBeLiteral(part, c) && Writes(part, text[1..], s[1..]))
      || (|text| >= 3 && text[0] == '%' && MayBeEscaped(part, c)
          && RedirectQuery.IsHexDigit(text[1], c as int / 16) && RedirectQuery.IsHexDigit(text[2], c as int % 16)
          && Writes(part, text[3..], s[1..]))
  }

  lemma EscapeIsSplit(part: Part, text: Bytes, s: Bytes)
    requires |text| >= 3 && text[0] == '%' && s != []
    ensures Unescape(part, text) == Some(s) <==>
              && RedirectQuery.HexValue(text[1]) == Some(s[0] as int / 16)
              && RedirectQuery.HexValue(text[2]) == Some(s[0] as int % 16)
              && MayBeEscaped(part, s[0]) && Unescape(part, text[3..]) == Some(s[1..])
  {
    hide MayBeEscaped, MayBeLiteral;
    RedirectQuery.HexValuesAreDigits(text[1]);
    RedirectQuery.HexValuesAreDigits(text[2]);
    hide RedirectQuery.HexValue;
    assert s == [s[0]] + s[1..];
  }

  lemma ByteIsSplit(part: Part, text: Bytes, s: Bytes)
    requires text != [] && text[0] != '%' && s != []
    ensures Unescape(part, text) == Some(s) <==>
              s[0] == text[0] && MayBeLiteral(part, s[0]) && Unescape(part, text[1..]) == Some(s[1..])
  {
    hide MayBeEscaped, MayBeLiteral;
    assert s == [s[0]] + s[1..];
  }

  /** Unescaping reads exactly the ways to write a host, a zone or a path. */
  lemma {:induction false} UnescapeReadsWhatWrites(part: Part, text: Bytes, s: Bytes)
    ensures Unescape(part, text) == Some(s) <==> Writes(part, text, s)
    decreases |s|
  {
    hide MayBeEscaped, MayBeLiteral, RedirectQuery.HexValue, RedirectQuery.IsHexDigit;
    if text != [] && s != [] {
      var c := s[0];
      if text[0] == '%' {
        if |text| >= 3 {
          RedirectQuery.HexValueIsDigit(text[1], c as int / 16);
          RedirectQuery.HexValueIsDigit(text[2], c as int % 16);
          UnescapeReadsWhatWrites(part, text[3..], s[1..]);
          EscapeIsSplit(part, text, s);
        }
      } else {
        UnescapeReadsWhatWrites(part, text[1..], s[1..]);
        ByteIsSplit(part, text, s);
      }
    }
  }

  /** A scheme as it may be spelled. */
  predicate Spells(text: Bytes, scheme: Bytes) {
    && |text| == |scheme|
    && forall i | 0 <= i < |text| :: text[i] == scheme[i] || text[i] as int + 32 == scheme[i] as int
  }

  /** A host name or dotted address, with a port if `port` is not empty. */
  ghost predicate IsPlainAuthority(name: Bytes, port: Bytes) {
    (forall c | c in name :: IsLetterOrDigit(c) || c == '-' || c == '.') && IsPort(port)
  }

  lemma PlainAuthorityIsKept(name: Bytes, port: Bytes)
    requires IsPlainAuthority(name, port)
    ensures forall c | c in name + port :: Keeps(Host, c) && IsPlain(c) && c != '[' && c != '/' && c != '@'
  {
    assert forall c | c in port :: c == ':' || c in port[1..];
    forall c | c in name + port
      ensures Keeps(Host, c) && IsPlain(c) && c != '[' && c != '/' && c != '@'
    {
      assert c in name || c in port;
    }
  }

  lemma PlainAuthorityIsRead(name: Bytes, port: Bytes)
    requires IsPlainAuthority(name, port)
    ensures ReadAuthority(name + port) == Some(name + port)
    ensures forall c | c in name + port :: IsPlain(c) && c != '/' && c != '@'
  {
    hide Unescape, Keeps, IsPlain, HasGoodPort, LastIndex, IsUserInfo, Escape, IsPlainAuthority;
    var s := name + port;
    PlainAuthorityIsKept(name, port);
    KeptStays(Host, s);
    UnescapeInvertsEscape(Host, s);
    PlainPortIsGood(name, port);
    assert '@' !in s && '[' !in s && s[0..] == s;
    assert s != [] ==> s[0] in s;
    assert ReadHost(s) == Some(s);
  }

  lemma PlainPortIsGood(name: Bytes, port: Bytes)
    requires IsPlainAuthority(name, port)
    ensures HasGoodPort(name + port)
  {
    var s := name + port;
    if port != "" {
      assert s == name + ([':'] + port[1..]);
      LastIndexIsLast(name, ':', port[1..]);
      assert s[|name| + 1..] == port[1..];
    } else {
      assert s == name;
    }
  }

  /** Any http or https URL of a named host is read as what it says: the scheme however it is capitalised, the host with
    * its port, the path with its escapes resolved, the query as it stands, and without the fragment. */
  lemma WrittenURLIsRead(spelled: Bytes, scheme: Bytes, name: Bytes, port: Bytes, text: Bytes, path: Bytes,
                         query: Bytes,
                         fragment: Bytes)
    requires (scheme == "http" || scheme == "https") && Spells(spelled, scheme)
    requires IsPlainAuthority(name, port) && (text == "" || text[0] == '/') && Writes(Path, text, path)
    requires (forall c | c in text :: IsPlain(c)) && (forall c | c in query :: !IsControl(c) && c != '#')
    requires Unescape(Path, fragment).Some?
    ensures Read(spelled + ":" + ("//" + (name + port + text)) + (['?'] + query) + (['#'] + fragment))
         == Some(Url(scheme, name + port, path, query))
  {
    hide Writes, ReadPlace, WebScheme, Unescape, IsControl, IsPlain, IsPlainAuthority, Read, ReadAfterScheme, Spells;
    var place: Bytes := "//" + (name + port + text);
    var rest: Bytes := place + (['?'] + query);
    var url: Bytes := spelled + ":" + place + (['?'] + query);
    PlainAuthorityIsRead(name, port);
    PlaceReads(name + port, text, path);
    SpelledSchemeIsRead(spelled, scheme, rest);
    URLIsClean(spelled, scheme, name + port, text, query);
    PlainHasNoQuestionMark(place);
    PlaceAndQueryAreRead(scheme, place, query);
    assert url == spelled + ":" + rest;
    SchemeAndFragmentAreCut(scheme, url, rest, fragment);
  }

  lemma PlaceAndQueryAreRead(scheme: Bytes, place: Bytes, query: Bytes)
    requires '?' !in place && ReadPlace(place).Some?
    ensures ReadAfterScheme(scheme, place + (['?'] + query))
         == Some(Url(scheme, ReadPlace(place).value.0, ReadPlace(place).value.1, query))
  {
    hide ReadPlace, RedirectQuery.Cut;
    RedirectQuery.CutAtSeparator(place, '?', query);
    assert place + (['?'] + query) == place + ['?'] + query;
  }

  lemma SchemeAndFragmentAreCut(scheme: Bytes, url: Bytes, rest: Bytes, fragment: Bytes)
    requires WebScheme(url) == Some(scheme) && url[|scheme| + 1..] == rest && Unescape(Path, fragment).Some?
    requires forall c | c in url :: !IsControl(c) && c != '#'
    ensures Read(url + (['#'] + fragment)) == ReadAfterScheme(scheme, rest)
  {
    hide ReadAfterScheme, WebScheme, Unescape, IsControl, RedirectQuery.Cut;
    RedirectQuery.CutAtSeparator(url, '#', fragment);
    assert url + (['#'] + fragment) == url + ['#'] + fragment;
  }

  lemma PlaceReads(authority: Bytes, text: Bytes, path: Bytes)
    requires ReadAuthority(authority) == Some(authority) && '/' !in authority
    requires (text == "" || text[0] == '/') && Writes(Path, text, path)
    ensures ReadPlace("//" + (authority + text)) == Some((authority, path))
  {
    hide ReadAuthority, Writes, Unescape, FirstSlash;
    var s: Bytes := "//" + (authority + text);
    UnescapeReadsWhatWrites(Path, text, path);
    FirstSlashIsFirst(authority, text);
    assert s[2..] == authority + text;
    assert (authority + text)[..|authority|] == authority && (authority + text)[|authority|..] == text;
  }

  lemma SpelledSchemeIsRead(spelled: Bytes, scheme: Bytes, rest: Bytes)
    requires (scheme == "http" || scheme == "https") && Spells(spelled, scheme)
    ensures WebScheme(spelled + ":" + rest) == Some(scheme)
    ensures (spelled + ":" + rest)[|scheme| + 1..] == rest
    ensures forall c | c in spelled + ":" :: IsPlain(c)
  {
    var s := spelled + ":" + rest;
    assert forall i | 0 <= i < |spelled| :: s[i] == spelled[i];
    assert s[|spelled|] == ':';
    if scheme == "https" {
      assert s[4] == spelled[4];
    }
  }

  lemma URLIsClean(spelled: Bytes, scheme: Bytes, authority: Bytes, text: Bytes, query: Bytes)
    requires (scheme == "http" || scheme == "https") && Spells(spelled, scheme)
    requires (forall c | c in authority :: IsPlain(c)) && (forall c | c in text :: IsPlain(c))
    requires forall c | c in query :: !IsControl(c) && c != '#'
    ensures var url := spelled + ":" + ("//" + (authority + text)) + (['?'] + query);
            forall c | c in url :: !IsControl(c) && c != '#'
    ensures forall c | c in "//" + (authority + text) :: IsPlain(c)
  {
    SpelledSchemeIsRead(spelled, scheme, []);
  }
}

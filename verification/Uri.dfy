/**
 KORD URIs (pkg/uri/uri.go), over the parts of Go 1.9's net/url they go through;
 characters stand for bytes.
 */
module Uri {
  import opened Values
  import opened Hex

  type ByteString = s: string | forall i :: 0 <= i < |s| ==> s[i] as int < 256

  /** Functions a URI rests on; validUser tells which user information before an
      '@' net/url accepts. */
  datatype Env = Env(keccak: string -> Digest32, junk: string -> Bytes, validUser: string -> bool)

  datatype URI = URI(id: Address, path: ByteString)

  // --------------------------------------------------------- percent-encoding

  /** net/url's shouldEscape for a path: section 3.3 of RFC 3986, with '/', ';'
      and ',' let through. */
  predicate ShouldEscape(c: char) {
    !('A' <= c <= 'Z' || 'a' <= c <= 'z' || '0' <= c <= '9' || c in "-_.~$&+,/:;=@")
  }

  /** Characters of an escaped path. */
  predicate PathChar(c: char) {
    c as int < 256 && c != '#' && c != '?'
  }

  function CapitalDigit(n: nat): (c: char)
    requires n < 16
    ensures HexValue(c) == Some(n) && PathChar(c)
  {
    if n < 10 then (n + '0' as int) as char else (n - 10 + 'A' as int) as char
  }

  function EscapeChar(c: char): (s: ByteString)
    requires c as int < 256
    ensures s != "" && forall i :: 0 <= i < |s| ==> PathChar(s[i])
  {
    if ShouldEscape(c) then ['%', CapitalDigit(c as int / 16), CapitalDigit(c as int % 16)] else [c]
  }

  function Escape(s: ByteString): (r: ByteString)
    ensures forall i :: 0 <= i < |r| ==> PathChar(r[i])
  {
    if s == "" then "" else EscapeChar(s[0]) + Escape(s[1..])
  }

  function UnescapeChar(hi: char, lo: char): (c: char)
    requires HexValue(hi).Some? && HexValue(lo).Some?
    ensures c as int < 256
  {
    (HexValue(hi).value * 16 + HexValue(lo).value) as char
  }

  predicate StartsEscape(s: string) {
    |s| >= 3 && s[0] == '%' && HexValue(s[1]).Some? && HexValue(s[2]).Some?
  }

  /** net/url's unescape, without an error, for a path or a fragment. */
  function Unescape(s: ByteString): (r: Option<ByteString>)
  {
    if s == "" then Some("")
    else if s[0] != '%' then
      (match Unescape(s[1..]) case Some(t) => Some([s[0]] + t) case None => None)
    else if !StartsEscape(s) then None
    else
      match Unescape(s[3..]) case Some(t) => Some([UnescapeChar(s[1], s[2])] + t) case None => None
  }

  const CAPITALS := "ABCDEFGHIJKLMNOPQRSTUVWXYZ"
  const SMALLS := "abcdefghijklmnopqrstuvwxyz"
  const PLAIN := CAPITALS + SMALLS + "0123456789" + "-_.~$&+,/:;=@"

  /** Each byte of a path stands for itself, or as '%' and its two digits. */
  lemma EscapeByte(c: char)
    requires c as int < 256
    ensures EscapeChar(c) ==
      if c in PLAIN then [c] else ['%', "0123456789ABCDEF"[c as int / 16], "0123456789ABCDEF"[c as int % 16]]
  {
    hide PathChar;
    InRange(c, CAPITALS, 'A');
    InRange(c, SMALLS, 'a');
    InRange(c, "0123456789", '0');
    CapitalDigits(c as int / 16);
    CapitalDigits(c as int % 16);
  }

  /** The characters of a run of consecutive ones. */
  lemma InRange(c: char, run: string, first: char)
    requires |run| < 128 && first as int < 128
    requires forall i :: 0 <= i < |run| ==> run[i] as int == first as int + i
    ensures c in run <==> first as int <= c as int < first as int + |run|
  {
    if first as int <= c as int < first as int + |run| {
      assert run[c as int - first as int] == c;
    }
  }

  lemma CapitalDigits(n: nat)
    requires n < 16
    ensures CapitalDigit(n) == "0123456789ABCDEF"[n]
  {
  }

  lemma {:induction false} UnescapeEscape(s: ByteString)
    ensures Unescape(Escape(s)) == Some(s)
  {
    if s != "" {
      UnescapeEscape(s[1..]);
      UnescapeMore(s[0], Escape(s[1..]));
      assert s == [s[0]] + s[1..];
    }
  }

  /** Unescaping takes one escaped character at a time. */
  lemma UnescapeMore(c: char, rest: ByteString)
    requires c as int < 256
    ensures Unescape(EscapeChar(c) + rest) ==
      match Unescape(rest) case Some(t) => Some([c] + t) case None => None
  {
    var e := EscapeChar(c);
    assert (e + rest)[|e|..] == rest;
    if ShouldEscape(c) {
      assert c as int / 16 * 16 + c as int % 16 == c as int;
      assert StartsEscape(e + rest) && UnescapeChar(e[1], e[2]) == c;
    }
  }

  /** Escapes only where they are needed, in capitals. */
  predicate MinimalEscapes(s: ByteString) {
    if s == "" then true
    else if s[0] != '%' then !ShouldEscape(s[0]) && MinimalEscapes(s[1..])
    else
      && StartsEscape(s) && ShouldEscape(UnescapeChar(s[1], s[2]))
      && !('a' <= s[1] <= 'f') && !('a' <= s[2] <= 'f') && MinimalEscapes(s[3..])
  }

  /** The texts escaping gives are those with minimal escapes. */
  lemma {:induction false} EscapeUnescape(s: ByteString)
    ensures MinimalEscapes(s) <==> Unescape(s).Some? && Escape(Unescape(s).value) == s
  {
    if s == "" {
    } else if s[0] != '%' {
      EscapeUnescape(s[1..]);
      if Unescape(s[1..]).Some? { EscapeMore(s[0], s[..1], Unescape(s[1..]).value, s[1..]); }
      assert s == s[..1] + s[1..];
    } else if StartsEscape(s) {
      EscapeUnescape(s[3..]);
      CapitalsOnly(s[1]);
      CapitalsOnly(s[2]);
      if Unescape(s[3..]).Some? { EscapeMore(UnescapeChar(s[1], s[2]), s[..3], Unescape(s[3..]).value, s[3..]); }
      assert s == s[..3] + s[3..];
    }
  }

  /** Escaping [c] + t gives first + rest exactly when it does so part by part. */
  lemma EscapeMore(c: char, first: string, t: ByteString, rest: string)
    requires c as int < 256 && ((first == [c] && c != '%') || (|first| == 3 && first[0] == '%'))
    ensures Escape([c] + t) == first + rest <==> EscapeChar(c) == first && Escape(t) == rest
  {
    assert ([c] + t)[1..] == t;
    var e := EscapeChar(c);
    if e + Escape(t) == first + rest {
      assert e[0] == (e + Escape(t))[0] == (first + rest)[0] == first[0];
      assert |e| == |first|;
      assert (e + Escape(t))[..|e|] == e && (first + rest)[..|e|] == first;
      assert (e + Escape(t))[|e|..] == Escape(t) && (first + rest)[|e|..] == rest;
    }
  }

  lemma CapitalsOnly(c: char)
    requires HexValue(c).Some?
    ensures CapitalDigit(HexValue(c).value) == c <==> !('a' <= c <= 'f')
  {
  }

  // ------------------------------------------------------------------ parsing

  /** The place of the first c, or the end. */
  function Index(s: string, c: char): (i: nat)
    ensures i <= |s| && (i < |s| ==> s[i] == c) && forall j :: 0 <= j < i ==> s[j] != c
  {
    if s == "" || s[0] == c then 0 else 1 + Index(s[1..], c)
  }

  lemma IndexIs(s: string, c: char, i: nat)
    requires i <= |s| && (i < |s| ==> s[i] == c) && forall j :: 0 <= j < i ==> s[j] != c
    ensures Index(s, c) == i
  {
  }

  /** One past the last c, or 0. */
  function AfterLast(s: string, c: char): (i: nat)
    ensures i <= |s| && (i > 0 ==> s[i - 1] == c) && forall j :: i <= j < |s| ==> s[j] != c
  {
    if s == "" then 0 else if s[|s| - 1] == c then |s| else AfterLast(s[..|s| - 1], c)
  }

  /** net/url's getscheme: the place of the colon that ends a scheme. */
  function SchemeEnd(s: string, i: nat): (k: Option<nat>)
    requires i <= |s|
    ensures k.Some? ==> i <= k.value < |s| && s[k.value] == ':'
    decreases |s| - i
  {
    if i == |s| then None
    else if 'a' <= s[i] <= 'z' || 'A' <= s[i] <= 'Z' then SchemeEnd(s, i + 1)
    else if '0' <= s[i] <= '9' || s[i] == '+' || s[i] == '-' || s[i] == '.' then
      if i == 0 then None else SchemeEnd(s, i + 1)
    else if s[i] == ':' && i > 0 then Some(i)
    else None
  }

  function Lower(s: string): string {
    seq(|s|, i requires 0 <= i < |s| => if 'A' <= s[i] <= 'Z' then (s[i] as int + 32) as char else s[i])
  }

  /** Characters net/url lets stand in a host. */
  predicate HostChar(c: char) {
    c as int >= 128 || 'A' <= c <= 'Z' || 'a' <= c <= 'z' || '0' <= c <= '9' || c in "-_.~!$&'()*+,;=:[]<>\""
  }

  /** net/url's unescape for a host: only '%' itself and bytes from 128 on may be
      escaped. */
  function UnescapeHost(s: ByteString): (r: Option<ByteString>)
    ensures (forall i :: 0 <= i < |s| ==> HostChar(s[i]) && s[i] != '%') ==> r == Some(s)
  {
    if s == "" then Some("")
    else if s[0] != '%' then
      if !HostChar(s[0]) then None
      else (match UnescapeHost(s[1..]) case Some(t) => assert s == [s[0]] + s[1..]; Some([s[0]] + t) case None => None)
    else if !StartsEscape(s) || (HexValue(s[1]).value < 8 && s[..3] != "%25") then None
    else
      match UnescapeHost(s[3..]) case Some(t) => Some([UnescapeChar(s[1], s[2])] + t) case None => None
  }

  /** net/url's parseHost. A host in brackets keeps them, if it is accepted, and
      is no address then either. */
  function ParseHost(s: ByteString): Option<ByteString> {
    if s != "" && s[0] == '[' then None else UnescapeHost(s)
  }

  /** The user, if any, the host and the path of what follows "//". */
  function Split(a: ByteString): (Option<ByteString>, ByteString, ByteString) {
    var slash := Index(a, '/');
    var authority: ByteString := a[..slash];
    var at := AfterLast(authority, '@');
    (if at > 0 then Some(authority[..at - 1]) else None, authority[at..], a[slash..])
  }

  function ParseAuthority(env: Env, a: ByteString): Option<URI> {
    var (user, text, path) := Split(a);
    var host := ParseHost(text);
    if user.Some? && !env.validUser(user.value) then None
    else if host.None? || !IsHexAddress(host.value) || Unescape(path).None? then None
    else Some(URI(HexToAddress(env.junk, host.value), Unescape(path).value))
  }

  /** What follows the scheme; without "//" there is no host. */
  function ParseRest(env: Env, rest: ByteString): Option<URI> {
    if "//" <= rest then ParseAuthority(env, rest[2..]) else None
  }

  /** What is before the first c, and what is behind it, if there is one. */
  function Cut(s: ByteString, c: char): (ByteString, Option<ByteString>) {
    var i := Index(s, c);
    (s[..i], if i < |s| then Some(s[i + 1..]) else None)
  }

  function CutScheme(u: ByteString): Option<(ByteString, ByteString)> {
    var k := SchemeEnd(u, 0);
    if k.None? then None else Some((u[..k.value], u[k.value + 1..]))
  }

  /** A text without a fragment. */
  function ParseUrl(env: Env, u: ByteString): Option<URI> {
    match CutScheme(u)
    case None => None
    case Some((scheme, tail)) => if Lower(scheme) == "kord" then ParseRest(env, Cut(tail, '?').0) else None
  }

  /** Parse, without its errors. */
  function Parse(env: Env, s: ByteString): Option<URI> {
    var (u, fragment) := Cut(s, '#');
    if fragment.Some? && Unescape(fragment.value).None? then None else ParseUrl(env, u)
  }

  // ----------------------------------------------------------------- printing

  const PREFIX := "kord://"

  /** URL.EscapedPath, after the slash URL.String puts before a relative path. */
  function PrintPath(path: ByteString): string {
    (if path != "" && path[0] != '/' then "/" else "") + if path == "*" then "*" else Escape(path)
  }

  /** String; the letters and digits of the host are not escaped. */
  function Print(env: Env, u: URI): string {
    PREFIX + AddressHex(env.keccak, u.id) + PrintPath(u.path)
  }

  /** The URI with its path made absolute. */
  function Rooted(u: URI): URI {
    if u.path != "" && u.path[0] != '/' then u.(path := "/" + u.path) else u
  }

  // ------------------------------------------------------------ what is accepted

  /** A text taken apart. */
  datatype Parts = Parts(
    scheme: ByteString, user: Option<ByteString>, host: ByteString, path: ByteString,
    query: Option<ByteString>, fragment: Option<ByteString>)

  /** An optional part, behind the character that announces it. */
  function Behind(mark: char, part: Option<ByteString>): (s: ByteString)
    requires mark as int < 256
  {
    if part.Some? then [mark] + part.value else ""
  }

  function UserAt(user: Option<ByteString>): (s: ByteString) {
    if user.Some? then user.value + "@" else ""
  }

  function Authority(p: Parts): (s: ByteString) {
    UserAt(p.user) + p.host + p.path
  }

  function Tail(p: Parts): (s: ByteString) {
    "//" + Authority(p) + Behind('?', p.query)
  }

  function Url(p: Parts): (s: ByteString) {
    p.scheme + ":" + Tail(p)
  }

  function Compose(p: Parts): (s: ByteString) {
    Url(p) + Behind('#', p.fragment)
  }

  predicate IsKord(scheme: string) {
    |scheme| == 4 && scheme[0] in "kK" && scheme[1] in "oO" && scheme[2] in "rR" && scheme[3] in "dD"
  }

  /** The parts of a text that is accepted. */
  predicate WellFormed(env: Env, p: Parts) {
    && IsKord(p.scheme) && IsHexAddress(p.host)
    && (p.user.Some? ==>
          env.validUser(p.user.value) && '/' !in p.user.value && '?' !in p.user.value && '#' !in p.user.value)
    && (p.path != "" ==> p.path[0] == '/') && '?' !in p.path && '#' !in p.path && Unescape(p.path).Some?
    && (p.query.Some? ==> '#' !in p.query.value)
    && (p.fragment.Some? ==> Unescape(p.fragment.value).Some?)
  }

  lemma CutIs(s: ByteString, c: char, front: ByteString, part: Option<ByteString>)
    requires c as int < 256 && s == front + Behind(c, part) && c !in front
    ensures Cut(s, c) == (front, part)
  {
    CutAt(s, c, front, part);
    hide Index, Behind;
  }

  lemma CutAt(s: ByteString, c: char, front: ByteString, part: Option<ByteString>)
    requires c as int < 256 && s == front + Behind(c, part) && c !in front
    ensures Index(s, c) == |front| && s[..|front|] == front
    ensures if part.Some? then |front| < |s| && s[|front| + 1..] == part.value else |s| == |front|
  {
    if part.Some? {
      Joint(front, c, part.value);
    }
    hide Behind, Index;
    IndexIs(s, c, |front|);
  }

  lemma Joint(front: string, c: char, rest: string)
    ensures var s := front + ([c] + rest);
      |front| < |s| && s[..|front|] == front && s[|front|] == c && s[|front| + 1..] == rest
      && forall j :: 0 <= j < |front| ==> s[j] == front[j]
  {
  }

  lemma CutJoins(s: ByteString, c: char)
    requires c as int < 256
    ensures s == Cut(s, c).0 + Behind(c, Cut(s, c).1) && c !in Cut(s, c).0
  {
  }

  lemma SchemeIs(u: ByteString, scheme: ByteString, tail: ByteString)
    requires IsKord(scheme) && u == scheme + ":" + tail
    ensures CutScheme(u) == Some((scheme, tail)) && Lower(scheme) == "kord"
  {
    assert u[..4] == scheme && u[5..] == tail;
    assert u[0] == scheme[0] && u[1] == scheme[1] && u[2] == scheme[2] && u[3] == scheme[3];
    assert SchemeEnd(u, 4) == Some(4);
    assert SchemeEnd(u, 2) == SchemeEnd(u, 3) == Some(4);
    assert SchemeEnd(u, 0) == Some(4);
    hide SchemeEnd;
  }

  lemma HostChars(host: string)
    requires IsHexAddress(host)
    ensures forall i :: 0 <= i < |host| ==>
      PathChar(host[i]) && HostChar(host[i]) && host[i] != '/' && host[i] != '@' && host[i] != '%' && host[i] != '['
  {
    hide HexValue, HostChar;
    forall i | 0 <= i < |host|
      ensures PathChar(host[i]) && HostChar(host[i])
      ensures host[i] != '/' && host[i] != '@' && host[i] != '%' && host[i] != '['
    {
      HexHost(host, i);
      HexChar(host[i]);
    }
  }

  lemma HostReads(host: ByteString)
    requires IsHexAddress(host)
    ensures ParseHost(host) == Some(host)
    ensures '/' !in host && '@' !in host && '?' !in host && '#' !in host
  {
    HostChars(host);
    hide HexValue, HostChar, UnescapeHost, IsHexAddress;
  }

  /** The characters of an address: digits, and the prefix. */
  lemma HexHost(host: string, i: nat)
    requires IsHexAddress(host) && i < |host|
    ensures HexValue(host[i]).Some? || host[i] == 'x' || host[i] == 'X'
  {
    Zero();
    hide HexValue;
    if HasPrefix(host) {
      if i >= 2 { assert HexValue(host[2..][i - 2]).Some?; }
    }
  }

  lemma LastIs(s: string, c: char, i: nat)
    requires i <= |s| && (i > 0 ==> s[i - 1] == c) && forall j :: i <= j < |s| ==> s[j] != c
    ensures AfterLast(s, c) == i
  {
  }

  lemma PathAfter(authority: ByteString, path: ByteString)
    requires '/' !in authority && (path != "" ==> path[0] == '/')
    ensures var a: ByteString := authority + path;
      Index(a, '/') == |authority| && a[..|authority|] == authority && a[|authority|..] == path
  {
    var a: ByteString := authority + path;
    IndexIs(a, '/', |authority|);
  }

  lemma HostAfter(user: Option<ByteString>, host: ByteString)
    requires '@' !in host
    ensures var authority: ByteString := UserAt(user) + host;
      && AfterLast(authority, '@') == |UserAt(user)| && authority[|UserAt(user)|..] == host
      && (user.Some? ==> authority[..|UserAt(user)| - 1] == user.value)
  {
    var authority: ByteString := UserAt(user) + host;
    LastIs(authority, '@', |UserAt(user)|);
  }

  lemma UserHost(user: Option<ByteString>, host: ByteString)
    requires '/' !in host && (user.Some? ==> '/' !in user.value)
    ensures forall i :: 0 <= i < |UserAt(user)| ==> UserAt(user)[i] as int < 256
    ensures '/' !in UserAt(user) + host
  {
  }

  lemma SplitsInto(a: ByteString, user: Option<ByteString>, host: ByteString, path: ByteString)
    requires a == UserAt(user) + host + path && (path != "" ==> path[0] == '/')
    requires '/' !in host && '@' !in host && (user.Some? ==> '/' !in user.value)
    ensures Split(a) == (user, host, path)
  {
    UserHost(user, host);
    HostAfter(user, host);
    PathAfter(UserAt(user) + host, path);
    hide Index, AfterLast;
  }

  lemma AuthorityReads(env: Env, user: Option<ByteString>, host: ByteString, path: ByteString, a: ByteString)
    requires IsHexAddress(host) && (path != "" ==> path[0] == '/') && (user.Some? ==> '/' !in user.value)
    requires a == UserAt(user) + host + path
    ensures ParseAuthority(env, a) ==
      if (user.Some? && !env.validUser(user.value)) || Unescape(path).None? then None
      else Some(URI(HexToAddress(env.junk, host), Unescape(path).value))
  {
    HostReads(host);
    hide Split, IsHexAddress, ParseHost;
    SplitsInto(a, user, host, path);
    hide UserAt, Unescape, HexToAddress;
  }

  lemma SlashesRead(env: Env, a: ByteString)
    ensures ParseRest(env, "//" + a) == ParseAuthority(env, a)
  {
    var rest: ByteString := "//" + a;
    assert "//" <= rest && rest[2..] == a;
  }

  lemma UrlReads(env: Env, p: Parts)
    requires IsKord(p.scheme) && '?' !in "//" + Authority(p)
    ensures ParseUrl(env, Url(p)) == ParseAuthority(env, Authority(p))
  {
    hide IsKord, Cut, CutScheme, Lower, ParseRest, ParseAuthority, Behind, Authority;
    SchemeIs(Url(p), p.scheme, Tail(p));
    CutIs(Tail(p), '?', "//" + Authority(p), p.query);
    hide Tail, Url;
    SlashesRead(env, Authority(p));
  }

  /** A text of well-formed parts is accepted, and means its host and path. */
  lemma ComposedReads(env: Env, p: Parts)
    requires WellFormed(env, p)
    ensures Parse(env, Compose(p)) == Some(URI(HexToAddress(env.junk, p.host), Unescape(p.path).value))
  {
    Lacking(p);
    AuthorityReads(env, p.user, p.host, p.path, Authority(p));
    UrlReads(env, p);
    CutIs(Compose(p), '#', Url(p), p.fragment);
    hide IsHexAddress, IsKord, HexToAddress, Unescape, Cut, ParseUrl, ParseAuthority, Behind, Authority, Url, Compose;
  }

  lemma Lacking(p: Parts)
    requires IsKord(p.scheme) && IsHexAddress(p.host)
    requires p.user.Some? ==> '?' !in p.user.value && '#' !in p.user.value
    requires '?' !in p.path && '#' !in p.path && (p.query.Some? ==> '#' !in p.query.value)
    ensures '?' !in "//" + Authority(p) && '#' !in Url(p)
  {
    HostReads(p.host);
    hide IsHexAddress;
    assert '?' !in Authority(p) && '#' !in Authority(p);
    hide Authority;
    assert '#' !in Tail(p);
  }

  /** A host that unescapes to an address is written as it is. */
  lemma {:induction false} HostIsPlain(s: ByteString)
    requires UnescapeHost(s).Some?
    requires forall i :: 0 <= i < |UnescapeHost(s).value| ==>
      HexValue(UnescapeHost(s).value[i]).Some? || UnescapeHost(s).value[i] in "xX"
    ensures UnescapeHost(s) == Some(s)
  {
    if s != "" {
      var h := UnescapeHost(s).value;
      if s[0] != '%' {
        var t := UnescapeHost(s[1..]).value;
        assert h == [s[0]] + t;
        forall i | 0 <= i < |t| ensures HexValue(t[i]).Some? || t[i] in "xX" { assert t[i] == h[i + 1]; }
        HostIsPlain(s[1..]);
        assert s == [s[0]] + s[1..];
      } else {
        assert h[0] == UnescapeChar(s[1], s[2]);
        EscapesNoDigit(s[1], s[2], s[..3]);
        assert false;
      }
    }
  }

  lemma EscapesNoDigit(hi: char, lo: char, e: string)
    requires HexValue(hi).Some? && HexValue(lo).Some? && e == ['%', hi, lo]
    requires HexValue(hi).value >= 8 || e == "%25"
    ensures HexValue(UnescapeChar(hi, lo)).None? && UnescapeChar(hi, lo) !in "xX"
  {
    if e == "%25" { assert hi == e[1] == '2' && lo == e[2] == '5'; }
  }

  lemma SchemeTaken(u: ByteString)
    requires CutScheme(u).Some? && Lower(CutScheme(u).value.0) == "kord"
    ensures var (scheme, tail) := CutScheme(u).value; IsKord(scheme) && u == scheme + ":" + tail
  {
    var s := CutScheme(u).value.0;
    assert |Lower(s)| == |s|;
    forall i | 0 <= i < 4 ensures s[i] == "kord"[i] || s[i] == "KORD"[i] {
      assert Lower(s)[i] == "kord"[i];
      LowerChar(s[i], "kord"[i], "KORD"[i]);
    }
  }

  lemma LowerChar(c: char, small: char, capital: char)
    requires 'a' <= small <= 'z' && capital as int + 32 == small as int
    requires (if 'A' <= c <= 'Z' then (c as int + 32) as char else c) == small
    ensures c == small || c == capital
  {
  }

  lemma AuthorityTaken(env: Env, a: ByteString)
    requires ParseAuthority(env, a).Some?
    ensures var (user, host, path) := Split(a);
      && (user.Some? ==> env.validUser(user.value) && '/' !in user.value)
      && IsHexAddress(host) && Unescape(path).Some? && (path != "" ==> path[0] == '/')
      && a == UserAt(user) + host + path
  {
    HostTaken(Split(a).1);
    hide IsHexAddress, Unescape, ParseHost, HexToAddress;
    PutTogether(a);
    hide Split, UserAt;
  }

  lemma PutTogether(a: ByteString)
    ensures var (user, host, path) := Split(a);
      a == UserAt(user) + host + path && (path != "" ==> path[0] == '/') && (user.Some? ==> '/' !in user.value)
  {
    var authority: ByteString := a[..Index(a, '/')];
    var at := AfterLast(authority, '@');
    hide Index, AfterLast;
    UserTaken(authority, at, Split(a).0);
  }

  lemma UserTaken(authority: ByteString, at: nat, user: Option<ByteString>)
    requires at <= |authority| && (at > 0 ==> authority[at - 1] == '@') && (user.Some? <==> at > 0)
    requires user.Some? ==> user.value == authority[..at - 1]
    ensures authority == UserAt(user) + authority[at..]
  {
  }

  lemma SlashesTaken(env: Env, rest: ByteString)
    requires ParseRest(env, rest).Some?
    ensures ParseAuthority(env, rest[2..]).Some? && rest == "//" + rest[2..]
  {
    hide ParseAuthority;
  }

  /** An accepted text is one of well-formed parts. */
  lemma PartsTaken(env: Env, s: ByteString) returns (p: Parts)
    requires Parse(env, s).Some?
    ensures WellFormed(env, p) && Compose(p) == s
  {
    hide IsHexAddress, IsKord, Unescape, Cut, CutScheme, Lower, ParseRest, ParseAuthority, Split, Behind, UserAt;
    var (u, fragment) := Cut(s, '#');
    var (scheme, tail) := CutScheme(u).value;
    var (rest, query) := Cut(tail, '?');
    CutJoins(s, '#');
    SchemeTaken(u);
    CutJoins(tail, '?');
    SlashesTaken(env, rest);
    AuthorityTaken(env, rest[2..]);
    var (user, host, path) := Split(rest[2..]);
    p := Parts(scheme, user, host, path, query, fragment);
    assert rest[2..] == Authority(p);
    PartsLack(p);
  }

  lemma PartsLack(p: Parts)
    requires '#' !in Url(p) && '?' !in "//" + Authority(p)
    ensures '#' !in p.path && '?' !in p.path
    ensures p.user.Some? ==> '#' !in p.user.value && '?' !in p.user.value
    ensures p.query.Some? ==> '#' !in p.query.value
  {
    assert forall c :: c in Tail(p) ==> c in Url(p);
    assert forall c :: c in Authority(p) || c in Behind('?', p.query) ==> c in Tail(p);
    assert forall c :: c in p.path || c in UserAt(p.user) ==> c in Authority(p);
    assert p.user.Some? ==> forall c :: c in p.user.value ==> c in UserAt(p.user);
  }

  lemma HostTaken(host: ByteString)
    requires ParseHost(host).Some? && IsHexAddress(ParseHost(host).value)
    ensures ParseHost(host) == Some(host)
  {
    var h := ParseHost(host).value;
    hide HexValue, IsHexAddress;
    forall i | 0 <= i < |h| ensures HexValue(h[i]).Some? || h[i] in "xX" { HexHost(h, i); }
    HostIsPlain(host);
  }

  /** The texts Parse accepts are exactly those made of well-formed parts: the
      scheme in any case, perhaps a user, an address, an absolute path or none,
      and perhaps a query and a fragment; it returns the address and the path. */
  lemma ParseExactly(env: Env, s: ByteString, u: URI)
    ensures Parse(env, s) == Some(u) <==>
      exists p :: WellFormed(env, p) && Compose(p) == s
        && u == URI(HexToAddress(env.junk, p.host), Unescape(p.path).value)
  {
    if Parse(env, s) == Some(u) {
      var p := PartsTaken(env, s);
      ComposedReads(env, p);
    }
    hide Parse, Compose, WellFormed, Unescape, HexToAddress;
    forall p | WellFormed(env, p) && Compose(p) == s
      ensures Parse(env, s) == Some(URI(HexToAddress(env.junk, p.host), Unescape(p.path).value))
    {
      ComposedReads(env, p);
    }
  }

  // ------------------------------------------------------- parsing what is printed

  /** Reading the shape that printing gives. */
  lemma ParseShape(env: Env, host: ByteString, path: ByteString)
    requires IsHexAddress(host) && Unescape(path).Some?
    requires (path != "" ==> path[0] == '/') && forall i :: 0 <= i < |path| ==> PathChar(path[i])
    ensures forall i :: 0 <= i < |PREFIX + host + path| ==> (PREFIX + host + path)[i] as int < 256
    ensures Parse(env, PREFIX + host + path) == Some(URI(HexToAddress(env.junk, host), Unescape(path).value))
  {
    var p := Parts("kord", None, host, path, None, None);
    PlainFits(env, p);
    PlainParts(p);
    ComposedReads(env, p);
    hide *;
  }

  lemma PlainFits(env: Env, p: Parts)
    requires p.scheme == "kord" && p.user == p.query == p.fragment == None && IsHexAddress(p.host)
    requires (p.path != "" ==> p.path[0] == '/') && Unescape(p.path).Some?
    requires forall i :: 0 <= i < |p.path| ==> PathChar(p.path[i])
    ensures WellFormed(env, p)
  {
    hide IsHexAddress, Unescape;
  }

  lemma PlainParts(p: Parts)
    requires p.scheme == "kord" && p.user == p.query == p.fragment == None
    ensures Compose(p) == PREFIX + p.host + p.path
  {
  }

  lemma HexChar(c: char)
    requires HexValue(c).Some? || c == 'x' || c == 'X'
    ensures PathChar(c) && HostChar(c) && c != '/' && c != '@' && c != '%' && c != '['
  {
  }

  lemma Zero()
    ensures HexValue('0').Some?
  {
  }

  /** What is printed for a path reads as the path, made absolute. */
  lemma PathReads(path: ByteString)
    ensures var p := PrintPath(path);
      && (p != "" ==> p[0] == '/') && (forall i :: 0 <= i < |p| ==> PathChar(p[i]))
      && Unescape(p) == Some(if path != "" && path[0] != '/' then "/" + path else path)
  {
    hide Escape, Unescape, EscapeChar;
    UnescapeEscape(path);
    if path == "*" {
      Empty();
      Plain('*', "");
      assert ['*'] + "" == path;
      Plain('/', path);
      assert ['/'] + path == PrintPath(path);
    } else {
      StartsAlike(path);
      Plain('/', Escape(path));
      assert PrintPath(path) == if path != "" && path[0] != '/' then ['/'] + Escape(path) else Escape(path);
    }
  }

  lemma StartsAlike(path: ByteString)
    ensures Escape(path) == "" <==> path == ""
    ensures path != "" && path[0] == '/' ==> Escape(path)[0] == '/'
  {
  }

  lemma Empty()
    ensures Unescape("") == Some("")
  {
  }

  lemma Plain(c: char, rest: ByteString)
    requires PathChar(c) && c != '%'
    ensures Unescape([c] + rest) == match Unescape(rest) case Some(t) => Some([c] + t) case None => None
  {
    assert ([c] + rest)[1..] == rest;
  }

  /** Paths print byte by byte, but for a lone '*', which stays. */
  lemma PathsSpelled(path: ByteString, c: char)
    requires c as int < 256
    ensures PrintPath("*") == "/*"
    ensures PrintPath("/" + path) == "/" + Escape(path)
    ensures Escape([c] + path) ==
      (if c in PLAIN then [c] else ['%', "0123456789ABCDEF"[c as int / 16], "0123456789ABCDEF"[c as int % 16]])
      + Escape(path)
  {
    EscapeByte(c);
    EscapeByte('/');
    assert ([c] + path)[1..] == path && ("/" + path)[1..] == path;
    hide EscapeChar;
  }

  /** Reading back a printed URI gives the URI with its path made absolute. */
  lemma ParsePrint(env: Env, u: URI)
    ensures forall i :: 0 <= i < |Print(env, u)| ==> Print(env, u)[i] as int < 256
    ensures Parse(env, Print(env, u)) == Some(Rooted(u))
  {
    hide AddressHex, PrintPath, IsHexAddress, HexToAddress, Unescape, Parse, HasPrefix;
    var host, path := AddressHex(env.keccak, u.id), PrintPath(u.path);
    AddressRoundTrip(env.keccak, env.junk, u.id);
    PathReads(u.path);
    HostChars(host);
    ParseShape(env, host, path);
  }

  // ------------------------------------------------------------ canonical form

  lemma ParsedIsRooted(env: Env, s: ByteString)
    requires Parse(env, s).Some?
    ensures Rooted(Parse(env, s).value) == Parse(env, s).value
  {
    hide Index, SchemeEnd, Lower, AfterLast, ParseHost, IsHexAddress, HexToAddress;
  }

  /** Reading what is printed for an accepted text gives the same URI, and
      printing after reading is idempotent. */
  lemma CanonicalForm(env: Env, s: ByteString)
    requires Parse(env, s).Some?
    ensures var u := Parse(env, s).value;
      && (forall i :: 0 <= i < |Print(env, u)| ==> Print(env, u)[i] as int < 256)
      && Parse(env, Print(env, u)) == Some(u)
      && Print(env, Parse(env, Print(env, u)).value) == Print(env, u)
  {
    ParsedIsRooted(env, s);
    ParsePrint(env, Parse(env, s).value);
  }

  /** A canonical text: the prefix, the address with its EIP-55 capitals, and
      nothing or an absolute path with minimal escapes; no user, query or fragment. */
  predicate Canonical(env: Env, s: ByteString) {
    && |s| >= 49 && s[..7] == PREFIX
    && AddressHex(env.keccak, HexToAddress(env.junk, s[7..49])) == s[7..49]
    && (|s| > 49 ==> s[49] == '/') && MinimalEscapes(s[49..])
  }

  lemma CanonicalReads(env: Env, s: ByteString)
    requires Canonical(env, s)
    ensures Parse(env, s).Some? && Print(env, Parse(env, s).value) == s
  {
    hide AddressHex, MinimalEscapes, HexToAddress, Parse, Print;
    assert s == s[..7] + s[7..49] + s[49..];
    CanonicalParts(env, s[7..49], s[49..]);
  }

  lemma CanonicalParts(env: Env, host: ByteString, path: ByteString)
    requires |host| == 42 && AddressHex(env.keccak, HexToAddress(env.junk, host)) == host
    requires MinimalEscapes(path) && (path != "" ==> path[0] == '/')
    ensures forall i :: 0 <= i < |PREFIX + host + path| ==> (PREFIX + host + path)[i] as int < 256
    ensures var u := Parse(env, PREFIX + host + path); u.Some? && Print(env, u.value) == PREFIX + host + path
  {
    hide AddressHex, MinimalEscapes, Unescape, Escape, IsHexAddress, HexToAddress, Parse, PrintPath, HasPrefix;
    AddressRoundTrip(env.keccak, env.junk, HexToAddress(env.junk, host));
    MinimalPath(path);
    ParseShape(env, host, path);
  }

  lemma MinimalPath(path: ByteString)
    requires MinimalEscapes(path) && (path != "" ==> path[0] == '/')
    ensures Unescape(path).Some? && PrintPath(Unescape(path).value) == path
    ensures forall i :: 0 <= i < |path| ==> PathChar(path[i])
  {
    EscapeUnescape(path);
    UnescapedStart(path);
    hide MinimalEscapes, Unescape, Escape;
  }

  lemma UnescapedStart(path: ByteString)
    requires Unescape(path).Some? && (path != "" ==> path[0] == '/')
    ensures var p := Unescape(path).value; (p == "" <==> path == "") && (p != "" ==> p[0] == '/')
  {
  }

  lemma PrintedIsCanonical(env: Env, u: URI)
    requires Rooted(u) == u
    ensures forall i :: 0 <= i < |Print(env, u)| ==> Print(env, u)[i] as int < 256
    ensures Canonical(env, Print(env, u)) && "kord://" <= Print(env, u)
  {
    ParsePrint(env, u);
    AddressRoundTrip(env.keccak, env.junk, u.id);
    UnescapeEscape(u.path);
    EscapeUnescape(Escape(u.path));
    StartsAlike(u.path);
    hide AddressHex, MinimalEscapes, Unescape, Escape, IsHexAddress, HexToAddress, Parse;
    var s := Print(env, u);
    assert s[..7] == PREFIX && s[7..49] == AddressHex(env.keccak, u.id) && s[49..] == Escape(u.path);
  }

  /** Deploying a dapp with one text writes it under the printed URI, and
      set-root with another looks up the text itself: it finds the dapp exactly
      when its text is canonical and means the same URI. */
  lemma SetRootFinds(env: Env, deployed: ByteString, asked: ByteString)
    requires Parse(env, deployed).Some?
    ensures asked == Print(env, Parse(env, deployed).value) <==>
      Canonical(env, asked) && Parse(env, asked) == Parse(env, deployed)
  {
    var u := Parse(env, deployed).value;
    ParsedIsRooted(env, deployed);
    ParsePrint(env, u);
    PrintedIsCanonical(env, u);
    hide Parse, Print, Canonical, Rooted;
    if Canonical(env, asked) { CanonicalReads(env, asked); }
  }

  /** An accepted text whose dapp set-root does not find: a printed URI with an
      empty fragment. */
  lemma EmptyFragmentLost(env: Env, u: URI)
    ensures var s := Print(env, u) + "#";
      && (forall i :: 0 <= i < |s| ==> s[i] as int < 256)
      && Parse(env, s) == Some(Rooted(u)) && !Canonical(env, s)
      && s != Print(env, Rooted(u))
  {
    ParsePrint(env, u);
    NoHash(env, u);
    hide Print, Canonical, Parse, Rooted;
    var s: ByteString := Print(env, u) + "#";
    FragmentDropped(env, Print(env, u));
    NoHash(env, Rooted(u));
    assert s[|s| - 1] == '#';
    HashNotCanonical(env, s, |s| - 1);
  }

  lemma FragmentDropped(env: Env, p: ByteString)
    requires forall i :: 0 <= i < |p| ==> p[i] != '#'
    ensures Parse(env, p + "#") == Parse(env, p)
  {
    var s: ByteString := p + "#";
    IndexIs(p, '#', |p|);
    IndexIs(s, '#', |p|);
    assert s[..|p|] == p == p[..|p|] && s[|p| + 1..] == "";
    Empty();
    hide ParseRest, SchemeEnd, Lower, Unescape, Index;
  }

  lemma HashNotCanonical(env: Env, s: ByteString, i: nat)
    requires 49 <= i < |s| && s[i] == '#'
    ensures !Canonical(env, s)
  {
    EscapeUnescape(s[49..]);
    hide MinimalEscapes, Unescape, Escape, AddressHex, HexToAddress;
    assert s[49..][i - 49] == '#';
  }

  lemma NoHash(env: Env, u: URI)
    ensures forall i :: 0 <= i < |Print(env, u)| ==> Print(env, u)[i] != '#'
    ensures |Print(env, u)| >= 49
  {
    var host, path := AddressHex(env.keccak, u.id), PrintPath(u.path);
    AddressRoundTrip(env.keccak, env.junk, u.id);
    PathReads(u.path);
    hide AddressHex, PrintPath, IsHexAddress, HexToAddress, Unescape, Parse, HasPrefix;
    HostChars(host);
  }
}

/** Parsing, comparing and printing the origin of a URL, without a URL library. */
module Origin {
  import opened Wrappers

  /** Scheme, host and port. */
  datatype Triple = Triple(scheme: string, host: string, port: nat)

  // ---------------------------------------------------------------- searching

  predicate IsSeparator(s: string, i: nat) {
    i + 3 <= |s| && s[i] == ':' && s[i + 1] == '/' && s[i + 2] == '/'
  }

  /** The first "://" at or after `from`. */
  function FindSeparator(s: string, from: nat): (r: Option<nat>)
    ensures r.Some? ==> from <= r.value && IsSeparator(s, r.value)
    ensures forall j | from <= j < (if r.Some? then r.value else |s|) :: !IsSeparator(s, j)
    decreases |s| - from
  {
    if from + 3 > |s| then None
    else if IsSeparator(s, from) then Some(from)
    else FindSeparator(s, from + 1)
  }

  predicate IsTerminator(c: char) {
    c == '/' || c == '?' || c == '#'
  }

  /** Where the authority ends: at the first '/', '?' or '#', or at the end. */
  function AuthorityEnd(rest: string): (n: nat)
    ensures n <= |rest|
    ensures n < |rest| ==> IsTerminator(rest[n])
    ensures forall j | 0 <= j < n :: !IsTerminator(rest[j])
  {
    if rest == [] || IsTerminator(rest[0]) then 0 else 1 + AuthorityEnd(rest[1..])
  }

  /** The last occurrence of `c`. */
  function FindLast(s: string, c: char): (r: Option<nat>)
    ensures r.Some? ==> r.value < |s| && s[r.value] == c
    ensures forall j | (if r.Some? then r.value + 1 else 0) <= j < |s| :: s[j] != c
  {
    if s == [] then None
    else if s[|s| - 1] == c then Some(|s| - 1)
    else FindLast(s[..|s| - 1], c)
  }

  // ---------------------------------------------------------------- letters and numbers

  function LowerChar(c: char): char {
    if 'A' <= c <= 'Z' then (c as int + 32) as char else c
  }

  function Lower(s: string): (t: string)
    ensures |t| == |s| && forall i | 0 <= i < |s| :: t[i] == LowerChar(s[i])
  {
    seq(|s|, i requires 0 <= i < |s| => LowerChar(s[i]))
  }

  predicate IsDigit(c: char) {
    '0' <= c <= '9'
  }

  predicate AllDigits(s: string) {
    forall i | 0 <= i < |s| :: IsDigit(s[i])
  }

  function Value(s: string): nat
    requires AllDigits(s)
  {
    if s == [] then 0 else 10 * Value(s[..|s| - 1]) + (s[|s| - 1] as int - '0' as int)
  }

  /** `str::parse::<u16>`: an optional plus sign, then at least one digit, at most 65535. */
  function ParseU16(s: string): Option<nat> {
    var digits := if |s| > 0 && s[0] == '+' then s[1..] else s;
    if digits == [] || !AllDigits(digits) || Value(digits) > 65535 then None else Some(Value(digits))
  }

  function Decimal(n: nat): string {
    var digit := ('0' as int + n % 10) as char;
    if n < 10 then [digit] else Decimal(n / 10) + [digit]
  }

  // ---------------------------------------------------------------- parsing

  function DefaultPort(scheme: string): Option<nat> {
    if scheme == "http" || scheme == "ws" then Some(80)
    else if scheme == "https" || scheme == "wss" then Some(443)
    else None
  }

  /** Credentials end at the last '@'. */
  function WithoutCredentials(authority: string): (hostPort: string)
    ensures '@' !in hostPort
    ensures forall c | c in hostPort :: c in authority
  {
    match FindLast(authority, '@')
    case Some(at) => authority[at + 1..]
    case None => authority
  }

  /** Host and explicit port; a last colon not followed by a port belongs to the host. */
  function SplitPort(hostPort: string): (string, Option<nat>) {
    match FindLast(hostPort, ':')
    case Some(colon) =>
      var port := ParseU16(hostPort[colon + 1..]);
      if port.Some? then (Lower(hostPort[..colon]), port) else (Lower(hostPort), None)
    case None => (Lower(hostPort), None)
  }

  function OriginOf(scheme: string, authority: string): Option<Triple> {
    var hostPort := WithoutCredentials(authority);
    if hostPort == [] then None else
      var (host, explicitPort) := SplitPort(hostPort);
      var port := if explicitPort.Some? then explicitPort else DefaultPort(scheme);
      if port.Some? then Some(Triple(scheme, host, port.value)) else None
  }

  function ParseOrigin(s: string): Option<Triple> {
    match FindSeparator(s, 0)
    case None => None
    case Some(end) =>
      var rest := s[end + 3..];
      OriginOf(Lower(s[..end]), rest[..AuthorityEnd(rest)])
  }

  predicate OriginMatches(endpoint: string, uploadUrl: string) {
    var a, b := ParseOrigin(endpoint), ParseOrigin(uploadUrl);
    a.Some? && b.Some? && a == b
  }

  function Print(o: Triple): string {
    o.scheme + "://" + o.host + ":" + Decimal(o.port)
  }

  /** The log form of an upload URL: the origin and nothing else. */
  function RedactUploadUrl(url: string): string {
    match ParseOrigin(url)
    case Some(o) => Print(o) + "/<upload-url-redacted>"
    case None => "<invalid-upload-url-redacted>"
  }

  // ---------------------------------------------------------------- printing and parsing back

  /** What every parsed origin looks like. The host may be empty or contain colons. */
  ghost predicate Canonical(o: Triple) {
    && (forall i | 0 <= i < |o.scheme| :: !IsSeparator(o.scheme + "://", i))
    && (forall c | c in o.host :: !IsTerminator(c) && c != '@')
    && Lower(o.scheme) == o.scheme
    && Lower(o.host) == o.host
    && o.port <= 65535
  }

  lemma {:induction false} DecimalParses(n: nat)
    ensures Decimal(n) != [] && AllDigits(Decimal(n)) && Value(Decimal(n)) == n
  {
    var digit := ('0' as int + n % 10) as char;
    if n >= 10 {
      DecimalParses(n / 10);
      assert Decimal(n)[..|Decimal(n)| - 1] == Decimal(n / 10);
    }
  }

  lemma LowerIdempotent(s: string)
    ensures Lower(Lower(s)) == Lower(s)
  {
  }

  /** Lower-casing moves no character in or out of the separators. */
  lemma LowerKeepsMarks(s: string)
    ensures forall i | 0 <= i < |s| :: (IsTerminator(s[i]) <==> IsTerminator(Lower(s)[i]))
                                      && (s[i] == '@' <==> Lower(s)[i] == '@')
                                      && (s[i] == ':' <==> Lower(s)[i] == ':')
                                      && (s[i] == '/' <==> Lower(s)[i] == '/')
  {
  }

  lemma FindLastAt(s: string, c: char, k: nat)
    requires k < |s| && s[k] == c && forall j | k < j < |s| :: s[j] != c
    ensures FindLast(s, c) == Some(k)
  {
  }

  lemma FindLastAbsent(s: string, c: char)
    requires c !in s
    ensures FindLast(s, c) == None
  {
  }

  lemma NoMarks(digits: string)
    requires AllDigits(digits)
    ensures forall c | c in digits :: IsDigit(c) && !IsTerminator(c) && c != '@' && c != ':' && c != '+'
  {
  }

  lemma PrintedAuthority(scheme: string, host: string, port: nat, authority: string)
    requires forall c | c in host :: !IsTerminator(c) && c != '@'
    requires Lower(host) == host && port <= 65535
    requires authority == host + ":" + Decimal(port)
    ensures OriginOf(scheme, authority) == Some(Triple(scheme, host, port))
    ensures forall c | c in authority :: !IsTerminator(c)
  {
    var digits := Decimal(port);
    DecimalParses(port);
    NoMarks(digits);
    FindLastAbsent(authority, '@');
    FindLastAt(authority, ':', |host|);
    assert authority[|host| + 1..] == digits && authority[..|host|] == host;
    assert ParseU16(digits) == Some(port);
    assert SplitPort(authority) == (host, Some(port));
  }

  /** Every canonical origin is read back from its printed form, whatever follows it. */
  lemma {:induction false} ParsePrint(o: Triple, tail: string)
    requires Canonical(o)
    requires tail == [] || IsTerminator(tail[0])
    ensures ParseOrigin(Print(o) + tail) == Some(o)
  {
    var authority := o.host + ":" + Decimal(o.port);
    PrintedAuthority(o.scheme, o.host, o.port, authority);
    PrintAssembles(o, tail);
    AuthoritySplits(authority, tail);
    ParseAssembled(o.scheme, authority + tail);
  }

  lemma PrintAssembles(o: Triple, tail: string)
    ensures Print(o) + tail == Assemble(o.scheme, o.host + ":" + Decimal(o.port) + tail)
  {
  }

  lemma ParseAssembled(scheme: string, rest: string)
    requires forall i | 0 <= i < |scheme| :: !IsSeparator(scheme + "://", i)
    ensures ParseOrigin(Assemble(scheme, rest)) == OriginOf(Lower(scheme), rest[..AuthorityEnd(rest)])
  {
    SeparatorAt(scheme, rest);
  }

  ghost function Assemble(scheme: string, rest: string): string {
    scheme + "://" + rest
  }

  /** A separator-free scheme is found again in front of any text. */
  lemma SeparatorAt(scheme: string, rest: string)
    requires forall i | 0 <= i < |scheme| :: !IsSeparator(scheme + "://", i)
    ensures FindSeparator(Assemble(scheme, rest), 0) == Some(|scheme|)
    ensures Assemble(scheme, rest)[..|scheme|] == scheme && Assemble(scheme, rest)[|scheme| + 3..] == rest
  {
    var s := Assemble(scheme, rest);
    assert IsSeparator(s, |scheme|);
    forall i | 0 <= i < |scheme| ensures !IsSeparator(s, i) {
      assert !IsSeparator(scheme + "://", i);
      assert forall k | 0 <= k < |scheme| + 3 :: s[k] == (scheme + "://")[k];
    }
    FirstSeparator(s, |scheme|);
  }

  lemma FirstSeparator(s: string, n: nat)
    requires IsSeparator(s, n) && forall i | 0 <= i < n :: !IsSeparator(s, i)
    ensures FindSeparator(s, 0) == Some(n)
  {
  }

  lemma AuthoritySplits(authority: string, tail: string)
    requires forall c | c in authority :: !IsTerminator(c)
    requires tail == [] || IsTerminator(tail[0])
    ensures AuthorityEnd(authority + tail) == |authority|
    ensures (authority + tail)[..|authority|] == authority
  {
    var rest := authority + tail;
    assert forall j | 0 <= j < |authority| :: rest[j] == authority[j];
    assert tail != [] ==> rest[|authority|] == tail[0];
  }

  lemma {:induction false} ParsedIsCanonical(s: string)
    requires ParseOrigin(s).Some?
    ensures Canonical(ParseOrigin(s).value)
  {
    var end := FindSeparator(s, 0).value;
    var scheme := s[..end];
    LowerIdempotent(scheme);
    SchemeHasNoSeparator(s);
    var rest := s[end + 3..];
    OriginOfIsCanonical(Lower(scheme), rest[..AuthorityEnd(rest)]);
  }

  lemma SchemeHasNoSeparator(s: string)
    requires FindSeparator(s, 0).Some?
    ensures var scheme := Lower(s[..FindSeparator(s, 0).value]);
            forall i | 0 <= i < |scheme| :: !IsSeparator(scheme + "://", i)
  {
    var end := FindSeparator(s, 0).value;
    var scheme := Lower(s[..end]);
    LowerKeepsMarks(s[..end]);
    var printed := scheme + "://";
    forall i | 0 <= i < end ensures !IsSeparator(printed, i) {
      assert !IsSeparator(s, i);
      assert forall k | 0 <= k < end :: s[k] == s[..end][k] && printed[k] == scheme[k];
    }
  }

  lemma OriginOfIsCanonical(scheme: string, authority: string)
    requires forall i | 0 <= i < |scheme| :: !IsSeparator(scheme + "://", i)
    requires Lower(scheme) == scheme
    requires forall c | c in authority :: !IsTerminator(c)
    requires OriginOf(scheme, authority).Some?
    ensures Canonical(OriginOf(scheme, authority).value)
  {
    var hostPort := WithoutCredentials(authority);
    LowerIsClean(hostPort);
    match FindLast(hostPort, ':')
    case Some(colon) =>
      assert forall c | c in hostPort[..colon] :: c in hostPort;
      LowerIsClean(hostPort[..colon]);
    case None =>
  }

  lemma LowerIsClean(host: string)
    requires forall c | c in host :: !IsTerminator(c) && c != '@'
    ensures Lower(Lower(host)) == Lower(host)
    ensures forall c | c in Lower(host) :: !IsTerminator(c) && c != '@'
  {
    LowerKeepsMarks(host);
  }

  /** The printable origins are exactly the origins of URLs. */
  lemma CanonicalIffParsed(o: Triple)
    ensures Canonical(o) <==> exists s :: ParseOrigin(s) == Some(o)
  {
    if Canonical(o) {
      ParsePrint(o, []);
    }
    if s :| ParseOrigin(s) == Some(o) {
      ParsedIsCanonical(s);
    }
  }

  /** Redaction keeps the origin: the log form parses to the same triple. */
  lemma RedactionKeepsOrigin(url: string)
    requires ParseOrigin(url).Some?
    ensures ParseOrigin(RedactUploadUrl(url)) == ParseOrigin(url)
  {
    ParsedIsCanonical(url);
    ParsePrint(ParseOrigin(url).value, "/<upload-url-redacted>");
  }

  /** Two URLs have matching origins exactly when both parse and log alike. */
  lemma MatchIffSameRedaction(a: string, b: string)
    ensures OriginMatches(a, b) <==>
            ParseOrigin(a).Some? && ParseOrigin(b).Some? && RedactUploadUrl(a) == RedactUploadUrl(b)
  {
    if ParseOrigin(a).Some? && ParseOrigin(b).Some? {
      RedactionKeepsOrigin(a);
      RedactionKeepsOrigin(b);
    }
  }

  lemma TailAfterAssembled(scheme: string, rest: string, tail: string)
    requires forall i | 0 <= i < |scheme| :: !IsSeparator(scheme + "://", i)
    requires forall c | c in rest :: !IsTerminator(c)
    requires tail == [] || IsTerminator(tail[0])
    ensures ParseOrigin(Assemble(scheme, rest + tail)) == ParseOrigin(Assemble(scheme, rest))
  {
    ParseAssembled(scheme, rest + tail);
    ParseAssembled(scheme, rest);
    AuthoritySplits(rest, tail);
    assert rest + [] == rest;
    AuthoritySplits(rest, []);
  }

  /** A path, query or fragment behind a bare origin changes nothing, parsable or not. */
  lemma {:induction false} TailKeepsOrigin(origin: string, tail: string)
    requires FindSeparator(origin, 0).Some?
    requires forall j | FindSeparator(origin, 0).value + 3 <= j < |origin| :: !IsTerminator(origin[j])
    requires tail == [] || IsTerminator(tail[0])
    ensures ParseOrigin(origin + tail) == ParseOrigin(origin)
  {
    var n := FindSeparator(origin, 0).value;
    NoSeparatorBefore(origin, n);
    SplitsAtSeparator(origin, n, tail);
    TailAfterAssembled(origin[..n], origin[n + 3..], tail);
  }

  lemma {:induction false} SplitsAtSeparator(origin: string, n: nat, tail: string)
    requires IsSeparator(origin, n) && forall j | n + 3 <= j < |origin| :: !IsTerminator(origin[j])
    ensures origin == Assemble(origin[..n], origin[n + 3..])
    ensures origin + tail == Assemble(origin[..n], origin[n + 3..] + tail)
    ensures forall c | c in origin[n + 3..] :: !IsTerminator(c)
  {
    assert origin[n..n + 3] == "://";
    assert origin == origin[..n] + origin[n..n + 3] + origin[n + 3..];
  }

  lemma NoSeparatorBefore(s: string, n: nat)
    requires IsSeparator(s, n) && forall i | 0 <= i < n :: !IsSeparator(s, i)
    ensures forall i | 0 <= i < n :: !IsSeparator(s[..n] + "://", i)
  {
    assert s[..n] + "://" == s[..n + 3];
    forall i | 0 <= i < n ensures !IsSeparator(s[..n] + "://", i) {
      assert !IsSeparator(s, i);
    }
  }

  // ---------------------------------------------------------------- what is parsed, written out

  /** Characters that neither end an authority nor divide it. */
  predicate IsPlain(s: string) {
    forall c | c in s :: c !in {'/', '?', '#', '@', ':'}
  }

  lemma PlainHost(scheme: string, host: string)
    requires IsPlain(host) && host != []
    ensures OriginOf(scheme, host) == match DefaultPort(scheme)
                                      case Some(port) => Some(Triple(scheme, Lower(host), port))
                                      case None => None
  {
    FindLastAbsent(host, '@');
    FindLastAbsent(host, ':');
  }

  /** Without a port "http" and "ws" mean port 80, "https" and "wss" port 443, in any case of
      letters, and other schemes have no origin. What follows the host does not matter. */
  lemma DefaultPorts(scheme: string, host: string, tail: string)
    requires IsPlain(scheme) && IsPlain(host) && host != [] && (tail == [] || tail[0] in {'/', '?', '#'})
    ensures ParseOrigin(scheme + "://" + host + tail) ==
            if Lower(scheme) in {"http", "ws"} then Some(Triple(Lower(scheme), Lower(host), 80))
            else if Lower(scheme) in {"https", "wss"} then Some(Triple(Lower(scheme), Lower(host), 443))
            else None
  {
    AuthorityDecides(scheme, host, tail);
    PlainHost(Lower(scheme), host);
  }

  lemma PlainScheme(scheme: string)
    requires IsPlain(scheme)
    ensures forall i | 0 <= i < |scheme| :: !IsSeparator(scheme + "://", i)
  {
    forall i | 0 <= i < |scheme| ensures !IsSeparator(scheme + "://", i) {
      assert (scheme + "://")[i] == scheme[i] && scheme[i] in scheme;
    }
  }

  /** A port that is written stands, with a plus sign or without, the host loses its capitals,
      and what follows does not matter. */
  lemma WrittenPort(scheme: string, host: string, text: string, port: nat, tail: string)
    requires IsPlain(scheme) && IsPlain(host) && port <= 65535 && (tail == [] || tail[0] in {'/', '?', '#'})
    requires text == Decimal(port) || text == "+" + Decimal(port)
    ensures ParseOrigin(scheme + "://" + (host + ":" + text) + tail) == Some(Triple(Lower(scheme), Lower(host), port))
  {
    HostAndPort(Lower(scheme), host, text, port);
    AuthorityDecides(scheme, host + ":" + text, tail);
  }

  /** Credentials do not matter. */
  lemma CredentialsAreDropped(scheme: string, credentials: string, bare: string, tail: string)
    requires IsPlain(scheme) && (tail == [] || tail[0] in {'/', '?', '#'}) && '@' !in bare
    requires forall c | c in credentials || c in bare :: !IsTerminator(c)
    ensures ParseOrigin(scheme + "://" + (credentials + "@" + bare) + tail) ==
            ParseOrigin(scheme + "://" + bare + tail)
  {
    CredentialsGo(Lower(scheme), credentials, bare);
    AuthorityDecides(scheme, bare, tail);
    AuthorityDecides(scheme, credentials + "@" + bare, tail);
  }

  lemma AuthorityDecides(scheme: string, authority: string, tail: string)
    requires IsPlain(scheme) && (tail == [] || tail[0] in {'/', '?', '#'})
    requires forall c | c in authority :: !IsTerminator(c)
    ensures ParseOrigin(scheme + "://" + authority + tail) == OriginOf(Lower(scheme), authority)
  {
    PlainScheme(scheme);
    assert scheme + "://" + authority + tail == Assemble(scheme, authority + tail);
    ParseAssembled(scheme, authority + tail);
    AuthoritySplits(authority, tail);
  }

  lemma CredentialsGo(scheme: string, credentials: string, bare: string)
    requires '@' !in bare
    ensures OriginOf(scheme, credentials + "@" + bare) == OriginOf(scheme, bare)
  {
    var full := credentials + "@" + bare;
    FindLastAt(full, '@', |credentials|);
    assert full[|credentials| + 1..] == bare;
    FindLastAbsent(bare, '@');
  }

  lemma HostAndPort(scheme: string, host: string, text: string, port: nat)
    requires IsPlain(host) && port <= 65535 && (text == Decimal(port) || text == "+" + Decimal(port))
    ensures OriginOf(scheme, host + ":" + text) == Some(Triple(scheme, Lower(host), port))
    ensures forall c | c in host + ":" + text :: !IsTerminator(c) && c != '@'
  {
    PortIsRead(text, port);
    NoMarkIn(host, text);
    FindLastAbsent(host + ":" + text, '@');
    SplitsPort(host, text, port);
  }

  lemma PortIsRead(text: string, port: nat)
    requires port <= 65535 && (text == Decimal(port) || text == "+" + Decimal(port))
    ensures ParseU16(text) == Some(port)
    ensures forall c | c in text :: !IsTerminator(c) && c != '@' && c != ':'
  {
    DecimalParses(port);
    NoMarks(Decimal(port));
    if text == "+" + Decimal(port) {
      assert text[1..] == Decimal(port);
    }
  }

  lemma SplitsPort(host: string, text: string, port: nat)
    requires ':' !in text && ParseU16(text) == Some(port)
    ensures SplitPort(host + ":" + text) == (Lower(host), Some(port))
  {
    LastColon(host, text);
    assert (host + ":" + text)[..|host|] == host;
  }

  lemma {:induction false} NoMarkIn(host: string, text: string)
    requires IsPlain(host) && forall c | c in text :: !IsTerminator(c) && c != '@'
    ensures forall c | c in host + ":" + text :: !IsTerminator(c) && c != '@'
  {
    forall c | c in host + ":" + text ensures c in host || c == ':' || c in text {
    }
  }

  /** Letters lose their case, and nothing else changes. */
  lemma LowersLetters(i: nat, c: char)
    ensures i < 26 ==> LowerChar("ABCDEFGHIJKLMNOPQRSTUVWXYZ"[i]) == "abcdefghijklmnopqrstuvwxyz"[i]
    ensures c !in "ABCDEFGHIJKLMNOPQRSTUVWXYZ" ==> LowerChar(c) == c
  {
    var upper, lower := "ABCDEFGHIJKLMNOPQRSTUVWXYZ", "abcdefghijklmnopqrstuvwxyz";
    assert forall k | 0 <= k < 26 :: upper[k] as int == 'A' as int + k && lower[k] as int == 'a' as int + k;
    if 'A' <= c <= 'Z' {
      assert upper[c as int - 'A' as int] == c;
    }
  }

  /** A last colon that no number follows belongs to the host. */
  lemma ColonOfHost(scheme: string, host: string, text: string, tail: string)
    requires IsPlain(scheme) && IsPlain(host) && IsPlain(text) && (tail == [] || tail[0] in {'/', '?', '#'})
    requires Lower(scheme) == "http"
    requires text == [] || (text[0] != '+' && exists c | c in text :: !('0' <= c <= '9'))
    ensures ParseOrigin(scheme + "://" + (host + ":" + text) + tail) ==
            Some(Triple("http", Lower(host + ":" + text), 80))
  {
    HostWithColon(host, text);
    AuthorityDecides(scheme, host + ":" + text, tail);
  }

  lemma HostWithColon(host: string, text: string)
    requires IsPlain(host) && IsPlain(text)
    requires text == [] || (text[0] != '+' && exists c | c in text :: !('0' <= c <= '9'))
    ensures OriginOf("http", host + ":" + text) == Some(Triple("http", Lower(host + ":" + text), 80))
    ensures forall c | c in host + ":" + text :: !IsTerminator(c)
  {
    NoMarkIn(host, text);
    FindLastAbsent(host + ":" + text, '@');
    SplitsNoPort(host, text);
  }

  lemma SplitsNoPort(host: string, text: string)
    requires ':' !in text
    requires text == [] || (text[0] != '+' && exists c | c in text :: !('0' <= c <= '9'))
    ensures SplitPort(host + ":" + text) == (Lower(host + ":" + text), None)
  {
    LastColon(host, text);
    NotAPort(text);
  }

  lemma {:induction false} LastColon(host: string, text: string)
    requires ':' !in text
    ensures FindLast(host + ":" + text, ':') == Some(|host|) && (host + ":" + text)[|host| + 1..] == text
  {
    Behind(host + ":", text);
    FindLastAt(host + ":" + text, ':', |host|);
  }

  lemma {:induction false} Behind(front: string, text: string)
    requires ':' !in text
    ensures (front + text)[|front|..] == text
    ensures forall j | |front| <= j < |front + text| :: (front + text)[j] != ':'
  {
    forall j | |front| <= j < |front + text| ensures (front + text)[j] != ':' {
      assert (front + text)[j] == text[j - |front|];
    }
  }

  lemma NotAPort(text: string)
    requires text == [] || (text[0] != '+' && exists c | c in text :: !('0' <= c <= '9'))
    ensures ParseU16(text) == None
  {
    if text != [] {
      var c :| c in text && !('0' <= c <= '9');
      var i :| 0 <= i < |text| && text[i] == c;
      assert !AllDigits(text);
    }
  }
}

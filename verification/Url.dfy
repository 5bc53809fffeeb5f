/**
 Printing and parsing endpoints: "scheme://host:port/path".
 */
module Url {
  import opened Wrappers

  // ---------------------------------------------------------------- protocols

  datatype Proto = Unkown | Tcp | Ssl | Udp | Http | Https | Zk

  const NAMES: seq<string> := ["unkown", "tcp", "ssl", "udp", "http", "https", "zk"]

  const PROTOS: seq<Proto> := [Unkown, Tcp, Ssl, Udp, Http, Https, Zk]

  function Name(p: Proto): string {
    match p
    case Unkown => "unkown"
    case Tcp => "tcp"
    case Ssl => "ssl"
    case Udp => "udp"
    case Http => "http"
    case Https => "https"
    case Zk => "zk"
  }

  // strcmp sees a string up to its first NUL.
  function CStr(s: string): string { if s == "" || s[0] == '\0' then "" else [s[0]] + CStr(s[1..]) }

  // The protocol of that name, or Unkown.
  function ProtoOf(s: string): Proto {
    var c := CStr(s);
    if c == "tcp" then Tcp else if c == "ssl" then Ssl else if c == "udp" then Udp
    else if c == "http" then Http else if c == "https" then Https else if c == "zk" then Zk else Unkown
  }

  // str2proto: a search of the table.
  method Str2Proto(s: string) returns (p: Proto)
    ensures p == ProtoOf(s)
    ensures Name(p) == CStr(s) || (p == Unkown && forall i :: 0 <= i < |NAMES| ==> NAMES[i] != CStr(s))
  {
    var i := 0;
    while i < |NAMES|
      invariant i <= |NAMES|
      invariant forall j :: 0 <= j < i ==> NAMES[j] != CStr(s)
    {
      if CStr(s) == NAMES[i] {
        return PROTOS[i];
      }
      i := i + 1;
    }
    assert forall j :: 0 <= j < 7 ==> NAMES[j] != CStr(s);
    assert NAMES[1] == "tcp" && NAMES[2] == "ssl" && NAMES[3] == "udp" && NAMES[4] == "http" && NAMES[5] == "https"
           && NAMES[6] == "zk";
    p := Unkown;
  }

  lemma NameParses(p: Proto)
    ensures ProtoOf(Name(p)) == p
    ensures forall i :: 0 <= i < |Name(p)| ==> Name(p)[i] != ':' && Name(p)[i] != '/'
  {
    CStrOfText(Name(p));
  }

  lemma {:induction false} CStrOfText(s: string)
    requires forall i :: 0 <= i < |s| ==> s[i] != '\0'
    ensures CStr(s) == s
  {
    if s != "" {
      CStrOfText(s[1..]);
    }
  }

  // ---------------------------------------------------------------- decimal numbers

  predicate IsDigit(c: char) { '0' <= c <= '9' }

  predicate Digits(s: string) { forall i :: 0 <= i < |s| ==> IsDigit(s[i]) }

  function Digit(n: nat): char
    requires n < 10
  {
    '0' + n as char
  }

  // std::to_string
  function Decimal(n: nat): string {
    if n < 10 then [Digit(n)] else Decimal(n / 10) + [Digit(n % 10)]
  }

  // atoi, on digits
  function Atoi(s: string): nat
    requires Digits(s)
  {
    if s == "" then 0 else Atoi(s[..|s| - 1]) * 10 + (s[|s| - 1] as nat - '0' as nat)
  }

  lemma {:induction false} AtoiOfDecimal(n: nat)
    ensures Digits(Decimal(n)) && Decimal(n) != "" && Atoi(Decimal(n)) == n
  {
    if n < 10 {
      assert Decimal(n)[..0] == "";
    } else {
      AtoiOfDecimal(n / 10);
      assert Decimal(n)[..|Decimal(n)| - 1] == Decimal(n / 10);
    }
  }

  // No leading zeros are printed.
  lemma {:induction false} NoLeadingZero(n: nat)
    ensures Decimal(n) != "" && (Decimal(n)[0] == '0' <==> n == 0) && (n == 0 ==> |Decimal(n)| == 1)
  {
    if n >= 10 {
      NoLeadingZero(n / 10);
    }
  }

  function Zeros(k: nat): string { seq(k, i => '0') }

  // Every string of digits is a printed number behind some zeros, and is read as that number.
  lemma {:induction false} AtoiReads(s: string) returns (k: nat)
    requires Digits(s) && s != ""
    ensures s == Zeros(k) + Decimal(Atoi(s))
  {
    var t, d := s[..|s| - 1], s[|s| - 1] as nat - '0' as nat;
    assert s == t + [Digit(d)];
    if t == "" {
      k := 0;
      assert Atoi(s) == d;
    } else {
      k := AtoiReads(t);
      if Atoi(t) == 0 {
        assert t == Zeros(k + 1);
        k := k + 1;
      } else {
        assert Decimal(Atoi(s)) == Decimal(Atoi(t)) + [Digit(d)];
      }
    }
  }

  // ---------------------------------------------------------------- what the pattern matches

  // The captures of ((.*)://)?([^:/]+)(:(\d+))?(/.*)?
  datatype Match = Match(scheme: Option<string>, host: string, port: Option<string>, path: string)

  predicate IsHost(s: string) { s != "" && forall i :: 0 <= i < |s| ==> s[i] != ':' && s[i] != '/' }

  predicate IsPath(s: string) { s == "" || s[0] == '/' }

  function SchemeText(scheme: Option<string>): string {
    if scheme.Some? then scheme.value + "://" else ""
  }

  function PortText(port: Option<string>): string { if port.Some? then ":" + port.value else "" }

  function Text(m: Match): string { SchemeText(m.scheme) + (m.host + PortText(m.port) + m.path) }

  // One of the ways in which the pattern can match.
  predicate Matches(url: string, m: Match) {
    && url == Text(m) && IsHost(m.host) && IsPath(m.path)
    && (m.port.Some? ==> m.port.value != "" && Digits(m.port.value))
  }

  // Which way is taken: an optional group is matched if it can be, and .* takes as much as it can.
  predicate Preferred(m: Match, other: Match) {
    other.scheme.Some? ==> m.scheme.Some? && |other.scheme.value| <= |m.scheme.value|
  }

  // ---------------------------------------------------------------- and how it is found

  // The longest prefix of s without ':' and '/'.
  function HostLength(s: string): (n: nat)
    ensures n <= |s|
    ensures forall i :: 0 <= i < n ==> s[i] != ':' && s[i] != '/'
    ensures n < |s| ==> s[n] == ':' || s[n] == '/'
  {
    if s == "" || s[0] == ':' || s[0] == '/' then 0 else 1 + HostLength(s[1..])
  }

  function DigitLength(s: string): (n: nat)
    ensures n <= |s| && Digits(s[..n]) && (n < |s| ==> !IsDigit(s[n]))
  {
    if s == "" || !IsDigit(s[0]) then 0
    else
      var n := DigitLength(s[1..]);
      assert s[..n + 1] == [s[0]] + s[1..][..n];
      1 + n
  }

  // What may follow the host: a port, and a path.
  function MatchTail(t: string): Option<(Option<string>, string)> {
    if IsPath(t) then Some((None, t))
    else if t[0] != ':' then None
    else
      var d := DigitLength(t[1..]);
      if d > 0 && IsPath(t[1..][d..]) then Some((Some(t[1..][..d]), t[1..][d..])) else None
  }

  // host, port and path
  function MatchRest(s: string): Option<Match> {
    var h := HostLength(s);
    var tail := MatchTail(s[h..]);
    if h > 0 && tail.Some? then Some(Match(None, s[..h], tail.value.0, tail.value.1)) else None
  }

  predicate SeparatorAt(s: string, i: nat) { i + 3 <= |s| && s[i..i + 3] == "://" }

  predicate FeasibleAt(s: string, i: nat) { SeparatorAt(s, i) && MatchRest(s[i + 3..]).Some? }

  // Backtracking: tries the separators below n from the last to the first, then the absence of one.
  function Search(url: string, n: nat): Option<Match>
    requires n <= |url|
  {
    if n == 0 then MatchRest(url)
    else if FeasibleAt(url, n - 1) then Some(MatchRest(url[n + 2..]).value.(scheme := Some(url[..n - 1])))
    else Search(url, n - 1)
  }

  function RegexMatch(url: string): Option<Match> { Search(url, |url|) }

  predicate TailOk(port: Option<string>, path: string) {
    IsPath(path) && (port.Some? ==> port.value != "" && Digits(port.value))
  }

  lemma TailSound(t: string)
    requires MatchTail(t).Some?
    ensures var (port, path) := MatchTail(t).value; TailOk(port, path) && t == PortText(port) + path
  {
    if !IsPath(t) {
      var u := t[1..];
      assert u == u[..DigitLength(u)] + u[DigitLength(u)..];
      assert t == ":" + u;
    }
  }

  lemma TailComplete(port: Option<string>, path: string)
    requires TailOk(port, path)
    ensures MatchTail(PortText(port) + path) == Some((port, path))
  {
    var t := PortText(port) + path;
    if port.Some? {
      var u := port.value + path;
      assert t[1..] == u;
      DigitLengthIs(port.value, path);
      assert u[..|port.value|] == port.value && u[|port.value|..] == path;
    } else {
      assert t == path;
    }
  }

  // The three parts of the rest can be told apart in one way only.
  lemma RestIsUnique(s: string, m: Match)
    requires m.scheme == None
    ensures Matches(s, m) <==> MatchRest(s) == Some(m)
  {
    if Matches(s, m) {
      RestComplete(m);
      TextOfRest(m);
    } else if MatchRest(s) == Some(m) {
      RestSound(s);
    }
  }

  lemma TextOfRest(m: Match)
    ensures Text(m.(scheme := None)) == m.host + (PortText(m.port) + m.path)
    ensures Text(m) == SchemeText(m.scheme) + Text(m.(scheme := None))
  {
    assert m.host + PortText(m.port) + m.path == m.host + (PortText(m.port) + m.path);
  }

  lemma RestSound(s: string)
    requires MatchRest(s).Some?
    ensures MatchRest(s).value.scheme == None && Matches(s, MatchRest(s).value)
  {
    var h, m := HostLength(s), MatchRest(s).value;
    TailSound(s[h..]);
    Concat3(s, s[..h], PortText(m.port), m.path);
  }

  lemma Concat3(s: string, x: string, y: string, z: string)
    requires |x| <= |s| && s[..|x|] == x && s[|x|..] == y + z
    ensures s == "" + (x + y + z)
  {
    assert s == x + (y + z);
  }

  lemma RestComplete(m: Match)
    requires IsHost(m.host) && TailOk(m.port, m.path)
    ensures MatchRest(m.host + (PortText(m.port) + m.path)) == Some(m.(scheme := None))
  {
    var tail := PortText(m.port) + m.path;
    var s := m.host + tail;
    HostLengthIs(m.host, tail);
    TailComplete(m.port, m.path);
    assert s[..|m.host|] == m.host && s[|m.host|..] == tail;
  }

  lemma {:induction false} HostLengthIs(host: string, rest: string)
    requires forall i :: 0 <= i < |host| ==> host[i] != ':' && host[i] != '/'
    requires rest == "" || rest[0] == ':' || rest[0] == '/'
    ensures HostLength(host + rest) == |host|
  {
    if host == "" {
      assert host + rest == rest;
    } else {
      assert (host + rest)[1..] == host[1..] + rest;
      HostLengthIs(host[1..], rest);
    }
  }

  lemma {:induction false} DigitLengthIs(digits: string, rest: string)
    requires Digits(digits) && (rest == "" || !IsDigit(rest[0]))
    ensures DigitLength(digits + rest) == |digits|
  {
    if digits == "" {
      assert digits + rest == rest;
    } else {
      assert (digits + rest)[1..] == digits[1..] + rest;
      DigitLengthIs(digits[1..], rest);
    }
  }

  // ---------------------------------------------------------------- greed and backtracking

  // A match with a scheme has a feasible separator behind the scheme, and the other way round.
  lemma SchemeIsFeasible(url: string, m: Match)
    requires Matches(url, m) && m.scheme.Some?
    ensures FeasibleAt(url, |m.scheme.value|) && url[..|m.scheme.value|] == m.scheme.value
    ensures MatchRest(url[|m.scheme.value| + 3..]) == Some(m.(scheme := None))
  {
    var n := |m.scheme.value|;
    TextOfRest(m);
    RestComplete(m);
    assert url == m.scheme.value + "://" + Text(m.(scheme := None));
    assert url[n..n + 3] == "://";
    assert url[n + 3..] == Text(m.(scheme := None));
  }

  lemma FeasibleMatches(url: string, i: nat)
    requires FeasibleAt(url, i)
    ensures Matches(url, MatchRest(url[i + 3..]).value.(scheme := Some(url[..i])))
  {
    var m := MatchRest(url[i + 3..]).value;
    RestSound(url[i + 3..]);
    TextOfRest(m.(scheme := Some(url[..i])));
    CutInThree(url, i);
  }

  lemma CutInThree(url: string, i: nat)
    requires SeparatorAt(url, i)
    ensures url == url[..i] + "://" + url[i + 3..]
  {
    assert url == url[..i] + url[i..i + 3] + url[i + 3..];
  }

  lemma {:induction false} SearchSound(url: string, n: nat)
    requires n <= |url| && Search(url, n).Some?
    ensures Matches(url, Search(url, n).value)
  {
    if n == 0 {
      RestSound(url);
    } else if FeasibleAt(url, n - 1) {
      FeasibleMatches(url, n - 1);
    } else {
      SearchSound(url, n - 1);
    }
  }

  // The search finds the last feasible separator, and without one what there is without a scheme.
  lemma {:induction false} SearchFinds(url: string, n: nat, i: nat)
    requires i < n <= |url| && FeasibleAt(url, i)
    ensures Search(url, n).Some? && Search(url, n).value.scheme.Some?
    ensures i <= |Search(url, n).value.scheme.value|
  {
    if !FeasibleAt(url, n - 1) {
      SearchFinds(url, n - 1, i);
    }
  }

  lemma {:induction false} SearchFallsBack(url: string, n: nat)
    requires n <= |url| && forall i :: 0 <= i < n ==> !FeasibleAt(url, i)
    ensures Search(url, n) == MatchRest(url)
  {
    if n > 0 {
      assert !FeasibleAt(url, n - 1);
      SearchFallsBack(url, n - 1);
    }
  }

  // A match is found if there is one, and it is the preferred one: every other match has a shorter
  // scheme, or none.
  lemma FindsPreferred(url: string, m: Match)
    requires Matches(url, m)
    ensures RegexMatch(url).Some? && Matches(url, RegexMatch(url).value)
    ensures Preferred(RegexMatch(url).value, m)
    ensures Preferred(m, RegexMatch(url).value) ==> m == RegexMatch(url).value
  {
    if m.scheme.Some? {
      SchemeIsFeasible(url, m);
      SearchFinds(url, |url|, |m.scheme.value|);
    } else {
      RestIsUnique(url, m);
      if i :| 0 <= i < |url| && FeasibleAt(url, i) {
        SearchFinds(url, |url|, i);
      } else {
        SearchFallsBack(url, |url|);
      }
    }
    SearchSound(url, |url|);
    var found := RegexMatch(url).value;
    if Preferred(m, found) {
      SameScheme(url, m, found);
    }
  }

  lemma SameScheme(url: string, m: Match, n: Match)
    requires Matches(url, m) && Matches(url, n) && Preferred(m, n) && Preferred(n, m)
    ensures m == n
  {
    if m.scheme.Some? {
      SchemeIsFeasible(url, m);
      SchemeIsFeasible(url, n);
      assert m.(scheme := None) == n.(scheme := None);
    } else {
      RestIsUnique(url, m);
      RestIsUnique(url, n);
    }
  }

  // ---------------------------------------------------------------- endpoints

  // The address is represented by its text.
  datatype Endpoint = Endpoint(proto: Proto, host: string, port: nat, path: string)

  datatype Parsed = Ok(endpoint: Endpoint) | UrlError | DnsError

  function Scheme(p: Proto): Option<string> { if p == Unkown then None else Some(Name(p)) }

  // endpoint::to_string
  function Print(e: Endpoint): string {
    SchemeText(Scheme(e.proto)) + (e.host + (":" + Decimal(e.port)) + e.path)
  }

  function PortOf(m: Match): nat {
    if m.port.Some? && Digits(m.port.value) then Atoi(m.port.value) % 0x1_0000 else 0
  }

  // endpoint::from_string; `resolve` gives the text of the address a host name or address stands for,
  // if there is one.  The port is cut to 16 bits.
  function Parse(url: string, resolve: string -> Option<string>): Parsed {
    if url == "" then UrlError
    else
      var r := RegexMatch(url);
      if r.None? then UrlError
      else
        var m := r.value;
        var address := resolve(m.host);
        if address.None? then DnsError
        else Ok(Endpoint(SchemeProto(m.scheme), address.value, PortOf(m), m.path))
  }

  // What is printed: no scheme for an unknown protocol, the name and "://" for any other, then host, port and
  // path.
  lemma PrintMeans(e: Endpoint)
    ensures e.proto == Unkown ==> Print(e) == e.host + ":" + Decimal(e.port) + e.path
    ensures e.proto != Unkown ==> Print(e) == Name(e.proto) + "://" + e.host + ":" + Decimal(e.port) + e.path
    ensures Decimal(e.port)[0] == '0' ==> e.port == 0 && |Decimal(e.port)| == 1
  {
    NoLeadingZero(e.port);
  }

  // Exactly what does not match is refused as not being a URL.
  lemma RefusesExactly(url: string, resolve: string -> Option<string>)
    ensures Parse(url, resolve) == UrlError <==> forall m :: !Matches(url, m)
  {
    if RegexMatch(url).Some? {
      SearchSound(url, |url|);
      NotEmpty(url, RegexMatch(url).value);
    } else {
      forall m ensures !Matches(url, m) {
        if Matches(url, m) {
          FindsPreferred(url, m);
        }
      }
    }
  }

  lemma NotEmpty(url: string, m: Match)
    requires Matches(url, m)
    ensures url != ""
  {
    assert |url| >= |m.host|;
  }

  // What is made of the match that is preferred to all others: the host is resolved, and unless that fails it
  // gives the address; the port is the number read, cut to 16 bits, or 0; the protocol is the one of that name,
  // if there is one.
  lemma ParseMeans(url: string, resolve: string -> Option<string>, m: Match)
    requires Matches(url, m) && forall other :: Matches(url, other) ==> Preferred(m, other)
    ensures Parse(url, resolve) == DnsError <==> resolve(m.host).None?
    ensures resolve(m.host).Some? ==>
              Parse(url, resolve).Ok? && MadeOf(Parse(url, resolve).endpoint, m, resolve(m.host).value)
  {
    FindsPreferred(url, m);
    SearchSound(url, |url|);
    assert RegexMatch(url) == Some(m);
    NotEmpty(url, m);
    if resolve(m.host).Some? {
      ParseIs(url, resolve, m);
      if m.port.Some? {
        var k := AtoiReads(m.port.value);
        assert PortReads(m.port.value, k, Atoi(m.port.value));
      }
      if m.scheme.Some? {
        ProtoIsNamed(m.scheme.value);
      }
    }
  }

  ghost predicate MadeOf(e: Endpoint, m: Match, address: string) {
    && e.host == address && e.path == m.path
    && (m.port.None? ==> e.port == 0)
    && (m.port.Some? ==> exists k: nat, n: nat :: PortReads(m.port.value, k, n) && e.port == n % 0x1_0000)
    && (m.scheme.None? ==> e.proto == Unkown)
    && (m.scheme.Some? ==> Named(e.proto, CStr(m.scheme.value)))
  }

  // The digits are k zeros and the number n.
  predicate PortReads(digits: string, k: nat, n: nat) { digits == Zeros(k) + Decimal(n) }

  // The protocol of that name, or Unkown if there is none.
  ghost predicate Named(p: Proto, name: string) {
    Name(p) == name || (p == Unkown && forall q :: Name(q) != name)
  }

  lemma ProtoIsNamed(s: string)
    ensures Named(ProtoOf(s), CStr(s))
  {
  }

  // Something in the path that reads like another URL.
  predicate HidesUrl(path: string) { exists i :: 0 <= i < |path| && FeasibleAt(path, i) }

  // The match the printed endpoint should give.
  function Meant(e: Endpoint): Match { Match(Scheme(e.proto), e.host, Some(Decimal(e.port)), e.path) }

  // Parsing undoes printing exactly if the path is empty or begins with '/', and hides no URL.
  lemma RoundTripExactly(e: Endpoint, resolve: string -> Option<string>)
    requires IsHost(e.host) && e.port < 0x1_0000 && resolve(e.host) == Some(e.host)
    ensures Parse(Print(e), resolve) == Ok(e) <==> IsPath(e.path) && !HidesUrl(e.path)
  {
    if !IsPath(e.path) {
      ParsedPath(Print(e), resolve);
    } else if HidesUrl(e.path) {
      HiddenUrlWins(e);
    } else {
      RoundTrip(e, resolve);
    }
  }

  lemma RoundTrip(e: Endpoint, resolve: string -> Option<string>)
    requires IsHost(e.host) && e.port < 0x1_0000 && resolve(e.host) == Some(e.host)
    requires IsPath(e.path) && !HidesUrl(e.path)
    ensures Parse(Print(e), resolve) == Ok(e)
  {
    MeantMatches(e);
    FindsPreferred(Print(e), Meant(e));
    NothingBetter(e, RegexMatch(Print(e)).value);
    ParseIs(Print(e), resolve, Meant(e));
    AtoiOfDecimal(e.port);
    SchemeParses(e.proto);
  }

  function SchemeProto(scheme: Option<string>): Proto { ProtoOf(if scheme.Some? then scheme.value else "") }

  lemma SchemeParses(p: Proto)
    ensures SchemeProto(Scheme(p)) == p
  {
    NameParses(p);
  }

  lemma ParseIs(url: string, resolve: string -> Option<string>, m: Match)
    requires RegexMatch(url) == Some(m) && resolve(m.host).Some?
    ensures Parse(url, resolve) == Ok(Endpoint(SchemeProto(m.scheme), resolve(m.host).value, PortOf(m), m.path))
  {
    SearchSound(url, |url|);
    TextOfRest(m);
  }

  lemma MeantMatches(e: Endpoint)
    requires IsHost(e.host) && IsPath(e.path)
    ensures Matches(Print(e), Meant(e))
  {
    AtoiOfDecimal(e.port);
    assert Print(e) == Text(Meant(e));
  }

  // Whatever is parsed has a path that is empty or begins with '/'.
  lemma ParsedPath(url: string, resolve: string -> Option<string>)
    ensures Parse(url, resolve).Ok? ==> IsPath(Parse(url, resolve).endpoint.path)
  {
    if RegexMatch(url).Some? {
      SearchSound(url, |url|);
    }
  }

  // The printed endpoint without its path.
  function Front(e: Endpoint): string { SchemeText(Scheme(e.proto)) + (e.host + (":" + Decimal(e.port))) }

  lemma PrintSplits(e: Endpoint)
    ensures Print(e) == Front(e) + e.path
  {
  }

  // A separator that lies in the second of two strings is feasible in both or in neither.
  lemma FeasibleShifts(x: string, y: string, i: nat)
    ensures FeasibleAt(x + y, |x| + i) <==> FeasibleAt(y, i)
  {
    if i + 3 <= |y| {
      assert (x + y)[|x| + i..|x| + i + 3] == y[i..i + 3];
      assert (x + y)[|x| + i + 3..] == y[i + 3..];
    }
  }

  // A URL hidden in the path is found before the right one, and leaves less for the path.
  lemma HiddenUrlWins(e: Endpoint)
    requires HidesUrl(e.path)
    ensures RegexMatch(Print(e)).Some? && |RegexMatch(Print(e)).value.path| < |e.path|
  {
    var i :| 0 <= i < |e.path| && FeasibleAt(e.path, i);
    FeasibleShifts(Front(e), e.path, i);
    PrintSplits(e);
    SearchFinds(Print(e), |Print(e)|, |Front(e)| + i);
    SearchSound(Print(e), |Print(e)|);
    PathFits(Print(e), RegexMatch(Print(e)).value);
  }

  lemma PathFits(url: string, m: Match)
    requires Matches(url, m) && m.scheme.Some?
    ensures |url| >= |m.scheme.value| + 3 + |m.path|
  {
    assert |SchemeText(m.scheme)| == |m.scheme.value| + 3;
  }

  // Without one, no other match has a longer scheme.
  lemma NothingBetter(e: Endpoint, m: Match)
    requires IsHost(e.host) && IsPath(e.path) && !HidesUrl(e.path)
    requires Matches(Print(e), m) && Preferred(m, Meant(e))
    requires Preferred(Meant(e), m) ==> Meant(e) == m
    ensures m == Meant(e)
  {
    if m.scheme.Some? && !Preferred(Meant(e), m) {
      var i := |m.scheme.value|;
      SchemeIsFeasible(Print(e), m);
      NoSeparatorInFront(e, i);
      PrintSplits(e);
      FeasibleShifts(Front(e), e.path, i - |Front(e)|);
    }
  }

  // In front of the path no ':' is followed by '/', except behind the scheme.
  lemma NoSeparatorInFront(e: Endpoint, i: nat)
    requires IsHost(e.host) && IsPath(e.path) && SeparatorAt(Print(e), i)
    requires Scheme(e.proto).Some? ==> i > |Scheme(e.proto).value|
    ensures i >= |Front(e)|
  {
    PrintSplits(e);
    assert Print(e)[i] == Print(e)[i..i + 3][0] && Print(e)[i + 1] == Print(e)[i..i + 3][1];
    if i < |Front(e)| {
      FrontColons(e, i);
    }
  }

  lemma FrontColons(e: Endpoint, i: nat)
    requires IsHost(e.host) && IsPath(e.path) && i < |Front(e)|
    requires Scheme(e.proto).Some? ==> i > |Scheme(e.proto).value|
    ensures Print(e)[i] != ':' || Print(e)[i + 1] != '/'
  {
    var s, h, d := |SchemeText(Scheme(e.proto))|, |e.host|, Decimal(e.port);
    AtoiOfDecimal(e.port);
    PrintSplits(e);
    if i < s {
      assert Print(e)[i] == "://"[i - s + 3];
    } else if i < s + h {
      assert Print(e)[i] == e.host[i - s];
    } else if i == s + h {
      assert Print(e)[i + 1] == d[0];
    } else {
      assert Print(e)[i] == d[i - s - h - 1];
    }
  }

  // For one, "tcp://1.2.3.4:80/a://b" is not taken apart as it was put together.
  lemma HiddenUrlExample(resolve: string -> Option<string>)
    requires resolve("1.2.3.4") == Some("1.2.3.4")
    ensures var e := Endpoint(Tcp, "1.2.3.4", 80, "/a://b"); Parse(Print(e), resolve) != Ok(e)
  {
    var e := Endpoint(Tcp, "1.2.3.4", 80, "/a://b");
    assert e.path[2..5] == "://" && e.path[5..] == "b";
    assert HostLength("b") == 1 && "b"[1..] == "";
    assert FeasibleAt(e.path, 2);
    RoundTripExactly(e, resolve);
  }
}

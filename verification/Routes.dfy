// Routes: a token names its pod "team-<team>-<challenge>" or gives an address;
// the gateway expands bare names to cluster-local addresses and reads the two
// ids back. Strings are sequences of characters.
module Routes {
  import opened Wrappers

  datatype Ids = Ids(team: int, challenge: int)

  const MAX_INT: int := 0x7FFF_FFFF_FFFF_FFFF
  const CLUSTER: string := ".svc.cluster.local:3333"

  // ---- the string functions used ----

  function IndexByte(s: string, c: char): (i: int)
    ensures -1 <= i < |s|
    ensures i >= 0 ==> s[i] == c && forall j :: 0 <= j < i ==> s[j] != c
    ensures i < 0 <==> c !in s
  {
    if s == "" then -1
    else if s[0] == c then 0
    else
      var i := IndexByte(s[1..], c);
      assert forall j :: 0 < j < |s| ==> s[j] == s[1..][j - 1];
      if i < 0 then -1 else i + 1
  }

  function LastIndexByte(s: string, c: char): (i: int)
    ensures -1 <= i < |s|
    ensures i >= 0 ==> s[i] == c && forall j :: i < j < |s| ==> s[j] != c
    ensures i < 0 <==> c !in s
  {
    if s == "" then -1
    else if s[|s| - 1] == c then |s| - 1
    else LastIndexByte(s[..|s| - 1], c)
  }

  // White space as Unicode has it.
  predicate IsSpace(c: char) {
    var n := c as int;
    9 <= n <= 13 || n == 0x20 || n == 0x85 || n == 0xA0 || n == 0x1680 || 0x2000 <= n <= 0x200A ||
    n == 0x2028 || n == 0x2029 || n == 0x202F || n == 0x205F || n == 0x3000
  }

  // Where the text starts and ends between the surrounding white space.
  function TextStart(s: string): (n: nat)
    ensures n <= |s| && forall i :: 0 <= i < n ==> IsSpace(s[i])
    ensures n < |s| ==> !IsSpace(s[n])
  {
    if s == "" || !IsSpace(s[0]) then 0
    else
      var n := TextStart(s[1..]);
      assert forall i :: 0 < i < n + 1 ==> s[i] == s[1..][i - 1];
      n + 1
  }

  function TextEnd(s: string): (n: nat)
    ensures n <= |s| && forall i :: n <= i < |s| ==> IsSpace(s[i])
    ensures n > 0 ==> !IsSpace(s[n - 1])
  {
    if s == "" || !IsSpace(s[|s| - 1]) then |s| else TextEnd(s[..|s| - 1])
  }

  function TrimLeft(s: string): string {
    s[TextStart(s)..]
  }

  function TrimRight(s: string): string {
    s[..TextEnd(s)]
  }

  function TrimSpace(s: string): string {
    TrimRight(TrimLeft(s))
  }

  function TrimSuffix(s: string, suffix: string): string {
    var n := |s| - |suffix|;
    if n >= 0 && s[n..] == suffix then s[..n] else s
  }

  function Split(s: string, c: char): (parts: seq<string>)
    ensures parts != []
    decreases s
  {
    var i := IndexByte(s, c);
    if i < 0 then [s] else [s[..i]] + Split(s[i + 1..], c)
  }

  function Join(parts: seq<string>, c: char): string {
    if parts == [] then ""
    else if |parts| == 1 then parts[0]
    else parts[0] + [c] + Join(parts[1..], c)
  }

  // Splitting cuts at every separator and loses nothing.
  lemma {:induction false} SplitJoin(s: string, c: char)
    ensures Join(Split(s, c), c) == s
    ensures forall k :: 0 <= k < |Split(s, c)| ==> c !in Split(s, c)[k]
    decreases s
  {
    var i := IndexByte(s, c);
    if i >= 0 {
      SplitJoin(s[i + 1..], c);
      Cut(s, i);
      assert c !in s[..i];
      var rest := Split(s[i + 1..], c);
      assert ([s[..i]] + rest)[1..] == rest;
    }
  }

  // ---- decimal numbers ----

  predicate IsDigit(c: char) {
    '0' <= c <= '9'
  }

  predicate Digits(s: string) {
    s != "" && forall i :: 0 <= i < |s| ==> IsDigit(s[i])
  }

  function Value(s: string): (v: nat)
    requires forall i :: 0 <= i < |s| ==> IsDigit(s[i])
  {
    if s == "" then 0
    else
      assert IsDigit(s[|s| - 1]);
      10 * Value(s[..|s| - 1]) + (s[|s| - 1] as int - '0' as int)
  }

  // A sign, then digits only, in the range of a 64-bit int.
  function Atoi(s: string): (r: Option<int>)
    ensures r.Some? ==> -MAX_INT - 1 <= r.value <= MAX_INT
  {
    var signed := s != "" && (s[0] == '+' || s[0] == '-');
    var digits := if signed then s[1..] else s;
    if !Digits(digits) then None
    else
      var v: int := if signed && s[0] == '-' then 0 - Value(digits) else Value(digits);
      if -MAX_INT - 1 <= v <= MAX_INT then Some(v) else None
  }

  function Decimal(n: nat): (s: string)
    ensures Digits(s)
  {
    var last := [('0' as int + n % 10) as char];
    if n < 10 then last else Decimal(n / 10) + last
  }

  lemma {:induction false} DecimalValue(n: nat)
    ensures Value(Decimal(n)) == n
  {
    if n >= 10 {
      DecimalValue(n / 10);
      assert Decimal(n)[..|Decimal(n)| - 1] == Decimal(n / 10);
    }
  }

  lemma AtoiDecimal(n: nat)
    requires n <= MAX_INT
    ensures Atoi(Decimal(n)) == Some(n)
  {
    DecimalValue(n);
    assert IsDigit(Decimal(n)[0]);
  }

  // ---- the gateway's two functions ----

  predicate Bare(route: string) {
    route != "" && ':' !in route && '.' !in route && '/' !in route
  }

  function ExpandRoute(route: string): string {
    if Bare(route) then route + "-svc." + route + CLUSTER else route
  }

  // The host of a host:port address; None when it is not one.
  function SplitHost(address: string): Option<string> {
    var i := LastIndexByte(address, ':');
    if i < 0 then None
    else if address[0] == '[' then
      var end := IndexByte(address, ']');
      if end < 0 || end + 1 != i || '[' in address[1..] || ']' in address[end + 1..] then None
      else Some(address[1..end])
    else if ':' in address[..i] || '[' in address || ']' in address then None
    else Some(address[..i])
  }

  function StripPort(name: string): string {
    var host := SplitHost(name);
    var i := LastIndexByte(name, ':');
    if host.Some? then host.value else if i > 0 then name[..i] else name
  }

  function FirstLabel(name: string): string {
    var i := IndexByte(name, '.');
    if i > 0 then name[..i] else name
  }

  function ParseParts(parts: seq<string>): Option<Ids> {
    if |parts| < 3 || parts[0] != "team" then None
    else
      var t, c := Atoi(parts[1]), Atoi(parts[2]);
      if t.Some? && c.Some? then Some(Ids(t.value, c.value)) else None
  }

  function ParseName(name: string): Option<Ids> {
    ParseParts(Split(name, '-'))
  }

  function ParseTeamChallengeFromRoute(routeOrHost: string): Option<Ids> {
    var name := TrimSpace(routeOrHost);
    if name == "" then None
    else ParseName(TrimSuffix(FirstLabel(StripPort(name)), "-svc"))
  }

  // ---- pieces of strings ----

  lemma Pieces(a: string, b: string)
    ensures (a + b)[..|a|] == a && (a + b)[|a|..] == b
  {
  }

  lemma Rejoin(s: string, n: nat)
    requires n <= |s|
    ensures s == s[..n] + s[n..]
  {
  }

  lemma Cut(s: string, i: nat)
    requires i < |s|
    ensures s == s[..i] + [s[i]] + s[i + 1..]
  {
  }

  lemma FirstAt(a: string, c: char, b: string)
    requires c !in a
    ensures IndexByte(a + [c] + b, c) == |a|
  {
    assert (a + [c] + b)[|a|] == c;
  }

  lemma LastAt(a: string, c: char, b: string)
    requires c !in b
    ensures LastIndexByte(a + [c] + b, c) == |a|
  {
    assert (a + [c] + b)[|a|] == c;
  }

  // ---- splitting a longer name ----

  lemma SplitFirst(head: string, rest: string, c: char)
    requires c !in head
    ensures Split(head + [c] + rest, c) == [head] + Split(rest, c)
  {
    FirstAt(head, c, rest);
    Pieces(head + [c], rest);
    Pieces(head, [c]);
    assert (head + [c] + rest)[..|head|] == head;
  }

  lemma {:induction false} SplitExtended(s: string, tail: string, c: char)
    requires c !in tail
    ensures var parts := Split(s, c);
      Split(s + tail, c) == parts[..|parts| - 1] + [parts[|parts| - 1] + tail]
    decreases s
  {
    var i := IndexByte(s, c);
    if i >= 0 {
      var head, rest := s[..i], s[i + 1..];
      SplitExtended(rest, tail, c);
      SplitFirst(head, rest + tail, c);
      Cut(s, i);
      Assoc(head + [c], rest, tail);
    }
  }

  lemma SplitWhole(s: string, c: char)
    requires c !in s
    ensures Split(s, c) == [s]
  {
  }

  lemma {:induction false} SplitOneMore(s: string, tail: string, c: char)
    requires c !in tail
    ensures Split(s + ([c] + tail), c) == Split(s, c) + [tail]
    decreases s
  {
    var i := IndexByte(s, c);
    SplitWhole(tail, c);
    if i < 0 {
      SplitWhole(s, c);
      SplitFirst(s, tail, c);
      Assoc(s, [c], tail);
    } else {
      var head, rest := s[..i], s[i + 1..];
      var more := [c] + tail;
      SplitOneMore(rest, tail, c);
      SplitFirst(head, rest, c);
      SplitFirst(head, rest + more, c);
      Cut(s, i);
      Assoc(head + [c], rest, more);
      Assoc([head], Split(rest, c), [tail]);
    }
  }

  // ---- what expansion does to the parser ----

  lemma ExpandIsIdempotent(route: string)
    ensures ExpandRoute(ExpandRoute(route)) == ExpandRoute(route)
  {
    if Bare(route) {
      assert ExpandRoute(route)[|route| + 4] == '.';
    }
  }

  lemma PartAfterIds(parts: seq<string>)
    ensures ParseParts(parts + ["svc"]) == ParseParts(parts)
  {
    assert !IsDigit("svc"[0]);
    assert Atoi("svc") == None;
  }

  // A trailing "-svc" never decides whether, or as what, a name parses.
  lemma SuffixIsIgnored(name: string)
    ensures ParseName(TrimSuffix(name, "-svc")) == ParseName(name)
  {
    var short := TrimSuffix(name, "-svc");
    if short != name {
      assert name == short + "-svc" && "-svc" == ['-'] + "svc";
      SplitOneMore(short, "svc", '-');
      PartAfterIds(Split(short, '-'));
    }
  }

  lemma TrimLeftExtended(s: string, tail: string)
    requires tail != "" && !IsSpace(tail[0])
    ensures TrimLeft(s + tail) == TrimLeft(s) + tail
  {
    var n, m := TextStart(s), TextStart(s + tail);
    assert (s + tail)[|s|] == tail[0];
    assert m <= |s|;
    assert forall i :: 0 <= i < |s| ==> (s + tail)[i] == s[i];
    assert m == n;
    Pieces(s[..n], s[n..]);
    assert (s + tail)[n..] == s[n..] + tail;
  }

  lemma StripPortOf(host: string, port: string)
    requires host != "" && host[|host| - 1] != ']' && ':' !in port
    requires ':' !in host
    ensures StripPort(host + ":" + port) == host
  {
    var address := host + ":" + port;
    LastAt(host, ':', port);
    Pieces(host + ":", port);
    Pieces(host, ":");
    assert address[..|host|] == host;
    assert address[|host| - 1] == host[|host| - 1];
  }

  lemma FirstLabelOf(first: string, rest: string)
    requires first != "" && '.' !in first
    ensures FirstLabel(first + "." + rest) == first
  {
    FirstAt(first, '.', rest);
    Pieces(first + ".", rest);
    Pieces(first, ".");
    assert (first + "." + rest)[..|first|] == first;
  }

  const DOMAIN: string := ".svc.cluster.local"

  function HostOf(left: string, route: string): string {
    left + "-svc" + "." + (route + DOMAIN)
  }

  lemma HostIsPlain(left: string, route: string)
    requires ':' !in left && '.' !in left && ':' !in route
    ensures var host := HostOf(left, route);
      host != "" && ':' !in host && host[|host| - 1] == 'l'
    ensures '.' !in left + "-svc"
  {
    assert ':' !in route + DOMAIN;
    assert ':' !in left + "-svc";
    assert ':' !in left + "-svc" + ".";
  }

  lemma TrimsToAddress(route: string)
    requires Bare(route)
    ensures TrimSpace(ExpandRoute(route)) == HostOf(TrimLeft(route), route) + ":" + "3333"
  {
    var left := TrimLeft(route);
    var tail := "-svc." + route + CLUSTER;
    Assoc(route + "-svc.", route, CLUSTER);
    Assoc(route, "-svc.", route + CLUSTER);
    Assoc("-svc.", route, CLUSTER);
    TrimLeftExtended(route, tail);
    assert (left + tail)[|left + tail| - 1] == '3';
    AddressOf(left, route);
  }

  lemma ExpandedName(route: string)
    requires Bare(route)
    ensures var name := TrimSpace(ExpandRoute(route));
      name != "" && FirstLabel(StripPort(name)) == TrimLeft(route) + "-svc"
  {
    var left := TrimLeft(route);
    TrimsToAddress(route);
    HostIsPlain(left, route);
    StripPortOf(HostOf(left, route), "3333");
    FirstLabelOf(left + "-svc", route + DOMAIN);
  }

  lemma AddressOf(left: string, route: string)
    ensures left + ("-svc." + route + CLUSTER) == HostOf(left, route) + ":" + "3333"
  {
    assert CLUSTER == DOMAIN + ":3333";
  }

  lemma ParseOfBare(route: string)
    requires Bare(route)
    ensures ParseTeamChallengeFromRoute(route) == ParseName(TrimSpace(route))
  {
    var name := TrimSpace(route);
    assert ':' !in name && '.' !in name;
    assert StripPort(name) == name && FirstLabel(name) == name;
    if name == "" {
      SplitWhole(name, '-');
    } else {
      SuffixIsIgnored(name);
    }
  }

  lemma ParseOfExpanded(route: string)
    requires Bare(route)
    ensures ParseTeamChallengeFromRoute(ExpandRoute(route)) == ParseName(TrimLeft(route))
  {
    var left := TrimLeft(route);
    ExpandedName(route);
    Pieces(left, "-svc");
    assert TrimSuffix(left + "-svc", "-svc") == left;
  }

  // What the two parses of a bare route come down to.
  lemma ParsesOfBare(route: string)
    requires Bare(route)
    ensures ParseTeamChallengeFromRoute(route) == ParseName(TrimSpace(route))
    ensures ParseTeamChallengeFromRoute(ExpandRoute(route)) == ParseName(TrimLeft(route))
  {
    ParseOfBare(route);
    ParseOfExpanded(route);
  }

  // The text is "team-<number>-<number>" with white space behind it. That, and
  // nothing else, makes the parses of a bare route differ.
  predicate SpaceAfterChallenge(route: string) {
    var parts := Split(TrimSpace(route), '-');
    route != "" && IsSpace(route[|route| - 1]) &&
    |parts| == 3 && parts[0] == "team" && Atoi(parts[1]).Some? && Atoi(parts[2]).Some?
  }

  function Trailing(route: string): string {
    TrimLeft(route)[TextEnd(TrimLeft(route))..]
  }

  lemma TrailingSpaces(route: string)
    ensures TrimLeft(route) == TrimSpace(route) + Trailing(route)
    ensures forall i :: 0 <= i < |Trailing(route)| ==> IsSpace(Trailing(route)[i])
    ensures TrimSpace(route) != "" ==> (Trailing(route) != "" <==> IsSpace(route[|route| - 1]))
  {
    var left := TrimLeft(route);
    Rejoin(left, TextEnd(left));
    if left != "" {
      assert left[|left| - 1] == route[|route| - 1];
    }
  }

  lemma ExpandedParsesAlikeIff(route: string)
    ensures ParseTeamChallengeFromRoute(ExpandRoute(route)) == ParseTeamChallengeFromRoute(route)
      <==> !(Bare(route) && SpaceAfterChallenge(route))
  {
    if Bare(route) {
      ParsesOfBare(route);
      TrailingSpaces(route);
      SpacesAfterName(TrimSpace(route), Trailing(route));
    }
  }

  lemma SpacesAfterName(name: string, spaces: string)
    requires forall i :: 0 <= i < |spaces| ==> IsSpace(spaces[i])
    ensures ParseName(name + spaces) == ParseName(name)
      <==> !(spaces != "" && ParseName(name).Some? && |Split(name, '-')| == 3)
    ensures spaces != "" && |Split(name, '-')| == 3 ==> ParseName(name + spaces) == None
  {
    var parts := Split(name, '-');
    SplitExtended(name, spaces, '-');
    if spaces == "" {
      assert name + spaces == name;
    } else {
      SpacesAfterParts(parts, spaces);
    }
  }

  lemma SpacesAfterParts(parts: seq<string>, spaces: string)
    requires parts != [] && spaces != "" && IsSpace(spaces[|spaces| - 1])
    ensures var parts' := parts[..|parts| - 1] + [parts[|parts| - 1] + spaces];
      (ParseParts(parts') == ParseParts(parts) <==> !(ParseParts(parts).Some? && |parts| == 3)) &&
      (|parts| == 3 ==> ParseParts(parts') == None)
  {
    if |parts| == 3 {
      NoNumberEndsInSpace(parts[2], spaces);
    }
  }

  lemma NoNumberEndsInSpace(s: string, spaces: string)
    requires spaces != "" && IsSpace(spaces[|spaces| - 1])
    ensures Atoi(s + spaces) == None
  {
    var all := s + spaces;
    assert all[|all| - 1] == spaces[|spaces| - 1];
    assert !IsDigit(all[|all| - 1]);
  }

  // The second attempt, on the expanded host, never finds ids the first did not.
  lemma SecondAttemptIsIdle(route: string)
    requires ParseTeamChallengeFromRoute(route).None?
    ensures ParseTeamChallengeFromRoute(ExpandRoute(route)).None?
  {
    if Bare(route) {
      ParseOfBare(route);
    }
    ExpandedParsesAlikeIff(route);
  }

  predicate Plain(s: string) {
    forall i :: 0 <= i < |s| ==> IsDigit(s[i]) || s[i] == '-' || 'a' <= s[i] <= 'z'
  }

  lemma PlainConcat(a: string, b: string)
    requires Plain(a) && Plain(b)
    ensures Plain(a + b)
  {
  }

  lemma PlainIsBare(s: string)
    requires s != "" && Plain(s)
    ensures Bare(s) && TrimLeft(s) == s && TrimSpace(s) == s
  {
    assert !IsSpace(s[0]) && !IsSpace(s[|s| - 1]);
  }

  lemma ParsesNumbers(t: string, c: string)
    requires Digits(t) && Digits(c)
    ensures Split("team" + ['-'] + (t + ['-'] + c), '-') == ["team", t, c]
  {
    SplitFirst("team", t + ['-'] + c, '-');
    SplitFirst(t, c, '-');
    SplitWhole(c, '-');
    assert ["team"] + ([t] + [c]) == ["team", t, c];
  }

  lemma WrittenOut(t: string, c: string)
    ensures "team-" + t + "-" + c == "team" + ['-'] + (t + ['-'] + c)
  {
    Assoc("team-", t + "-", c);
    Assoc("team-", t, "-");
    assert "team" + ['-'] == "team-" && "-" == ['-'];
  }

  function RouteOf(team: nat, challenge: nat): string {
    "team-" + Decimal(team) + "-" + Decimal(challenge)
  }

  lemma RouteOfParses(team: nat, challenge: nat)
    requires team <= MAX_INT && challenge <= MAX_INT
    ensures RouteOf(team, challenge) != "" && Plain(RouteOf(team, challenge))
    ensures |Split(RouteOf(team, challenge), '-')| == 3
    ensures ParseName(RouteOf(team, challenge)) == Some(Ids(team, challenge))
  {
    var t, c := Decimal(team), Decimal(challenge);
    PlainConcat("team-", t);
    PlainConcat("team-" + t, "-");
    PlainConcat("team-" + t + "-", c);
    WrittenOut(t, c);
    ParsesNumbers(t, c);
    AtoiDecimal(team);
    AtoiDecimal(challenge);
  }

  // Any two ids survive being written into a route and expanded.
  lemma RouteRoundTrip(team: nat, challenge: nat)
    requires team <= MAX_INT && challenge <= MAX_INT
    ensures ParseTeamChallengeFromRoute(RouteOf(team, challenge)) == Some(Ids(team, challenge))
    ensures ParseTeamChallengeFromRoute(ExpandRoute(RouteOf(team, challenge))) == Some(Ids(team, challenge))
  {
    var route := RouteOf(team, challenge);
    RouteOfParses(team, challenge);
    PlainIsBare(route);
    ParsesOfBare(route);
  }

  predicate Spaces(s: string) {
    s != "" && forall i :: 0 <= i < |s| ==> IsSpace(s[i])
  }

  // With white space behind it only the bare route still parses.
  lemma SpaceShows(team: nat, challenge: nat, spaces: string)
    requires team <= MAX_INT && challenge <= MAX_INT && Spaces(spaces)
    ensures ParseTeamChallengeFromRoute(RouteOf(team, challenge) + spaces) == Some(Ids(team, challenge))
    ensures ParseTeamChallengeFromRoute(ExpandRoute(RouteOf(team, challenge) + spaces)) == None
  {
    var name := RouteOf(team, challenge);
    RouteOfParses(team, challenge);
    TrimsToName(name, spaces);
    ParsesOfBare(name + spaces);
    SpacesAfterName(name, spaces);
  }

  lemma TrimsToName(name: string, spaces: string)
    requires name != "" && Plain(name) && Spaces(spaces)
    ensures Bare(name + spaces) && TrimLeft(name + spaces) == name + spaces && TrimSpace(name + spaces) == name
  {
    PlainIsBare(name);
    Pieces(name, spaces);
    SpacedIsBare(name, spaces);
    TextEndsAt(name, spaces);
    assert (name + spaces)[0] == name[0] && TextStart(name + spaces) == 0;
    assert TrimLeft(name + spaces) == name + spaces;
  }

  lemma SpacedIsBare(name: string, spaces: string)
    requires Bare(name) && Spaces(spaces)
    ensures Bare(name + spaces)
  {
  }

  lemma TextEndsAt(name: string, spaces: string)
    requires name != "" && !IsSpace(name[|name| - 1]) && Spaces(spaces)
    ensures TextEnd(name + spaces) == |name|
  {
    var route := name + spaces;
    assert forall i :: |name| <= i < |route| ==> route[i] == spaces[i - |name|];
    assert route[|name| - 1] == name[|name| - 1];
  }

  // ---- numbers and addresses in general ----

  // Signs are read, and what does not fit 64 bits is refused.
  lemma AtoiOfDecimal(n: nat)
    ensures Atoi(Decimal(n)) == if n <= MAX_INT then Some(n) else None
    ensures Atoi("+" + Decimal(n)) == if n <= MAX_INT then Some(n) else None
    ensures Atoi("-" + Decimal(n)) == if n <= MAX_INT + 1 then Some(0 - n) else None
  {
    DecimalValue(n);
    assert IsDigit(Decimal(n)[0]);
    FirstOf('+', Decimal(n), "");
    FirstOf('-', Decimal(n), "");
    assert ("+" + Decimal(n))[1..] == Decimal(n) && ("-" + Decimal(n))[1..] == Decimal(n);
  }

  lemma TrimsNothing(s: string)
    requires s != "" && !IsSpace(s[0]) && !IsSpace(s[|s| - 1])
    ensures TrimSpace(s) == s
  {
    assert TextStart(s) == 0 && TrimLeft(s) == s && TextEnd(s) == |s|;
  }

  lemma EndsOf(name: string, rest: string, port: string)
    requires name != ""
    ensures var address := name + "." + rest + ":" + port;
      address[0] == name[0] && address[|address| - 1] == (if port == "" then ':' else port[|port| - 1])
  {
  }

  lemma LacksColon(name: string, rest: string)
    requires ':' !in name && ':' !in rest
    ensures ':' !in name + "." + rest
    ensures (name + "." + rest)[|name + "." + rest| - 1] == if rest == "" then '.' else rest[|rest| - 1]
  {
    assert ':' !in name + ".";
  }

  // Of an address only the first label of the host counts.
  lemma HostAndPortAreIgnored(name: string, rest: string, port: string)
    requires name != "" && Plain(name) && ':' !in rest && ':' !in port
    requires rest != "" ==> rest[|rest| - 1] != ']'
    requires port != "" ==> !IsSpace(port[|port| - 1])
    ensures ParseTeamChallengeFromRoute(name + "." + rest + ":" + port) == ParseName(name)
  {
    var host := name + "." + rest;
    PlainIsBare(name);
    EndsOf(name, rest, port);
    TrimsNothing(host + ":" + port);
    LacksColon(name, rest);
    StripPortOf(host, port);
    FirstLabelOf(name, rest);
    SuffixIsIgnored(name);
  }

  // The service names of a cluster, with any domain and port, give their ids.
  lemma ServiceNameParses(team: nat, challenge: nat, rest: string, port: string)
    requires team <= MAX_INT && challenge <= MAX_INT && ':' !in rest && ':' !in port
    requires rest != "" ==> rest[|rest| - 1] != ']'
    requires port != "" ==> !IsSpace(port[|port| - 1])
    ensures ParseTeamChallengeFromRoute(RouteOf(team, challenge) + "-svc" + "." + rest + ":" + port)
         == Some(Ids(team, challenge))
  {
    var name := RouteOf(team, challenge) + "-svc";
    RouteOfParses(team, challenge);
    PlainConcat(RouteOf(team, challenge), "-svc");
    HostAndPortAreIgnored(name, rest, port);
    SuffixParses(RouteOf(team, challenge));
  }

  lemma SuffixParses(name: string)
    ensures ParseName(name + "-svc") == ParseName(name)
  {
    Pieces(name, "-svc");
    assert TrimSuffix(name + "-svc", "-svc") == name;
    SuffixIsIgnored(name + "-svc");
  }

  // A host in brackets, as for an IPv6 address, is taken out of them.
  lemma BracketsAreRemoved(name: string, port: string)
    requires name != "" && Plain(name)
    requires ':' !in port && '[' !in port && ']' !in port && (port != "" ==> !IsSpace(port[|port| - 1]))
    ensures ParseTeamChallengeFromRoute("[" + name + "]" + ":" + port) == ParseName(name)
  {
    var host := "[" + name + "]";
    var address := host + ":" + port;
    assert address[0] == '[' && address[|address| - 1] == (if port == "" then ':' else port[|port| - 1]);
    TrimsNothing(address);
    SplitsBracketed(name, port);
    PlainIsBare(name);
    assert FirstLabel(name) == name;
    SuffixIsIgnored(name);
  }

  lemma SplitsBracketed(name: string, port: string)
    requires Plain(name) && ':' !in port && '[' !in port && ']' !in port
    ensures SplitHost("[" + name + "]" + ":" + port) == Some(name)
  {
    var address := "[" + name + "]" + ":" + port;
    LastAt("[" + name + "]", ':', port);
    InBrackets(name, ":" + port);
    Assoc("[" + name + "]", ":", port);
    assert '[' !in name + ("]" + (":" + port));
  }

  lemma InBrackets(name: string, rest: string)
    requires ']' !in name
    ensures var address := "[" + name + "]" + rest;
      IndexByte(address, ']') == |name| + 1 && address[0] == '[' &&
      address[1..|name| + 1] == name && address[|name| + 2..] == rest && address[1..] == name + ("]" + rest)
  {
    assert ']' !in "[" + name;
    FirstAt("[" + name, ']', rest);
    Pieces("[" + name + "]", rest);
  }
}

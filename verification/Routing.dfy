/**
 From a path to a handler, a route label and a name: the protected-path gate, bearer authentication, route
 normalisation and the mux of the control-plane API (internal/controlplaneapi/handler.go, lines 104-162,
 259-308 and 445-504). Strings are Go strings, one char a byte.
 */
module Routing {
  import opened Wrappers

  const HEALTH := "/healthz"
  const READINESS := "/readyz"
  const API_V1 := "/api/v1"
  const MANAGED_SERVICES := "/api/v1/managed-services"
  const ITEM_PREFIX := "/api/v1/managed-services/"
  const ITEM_TEMPLATE := "/api/v1/managed-services/{name}"
  const UNKNOWN := "unknown"

  const ROUTES := {HEALTH, READINESS, API_V1, MANAGED_SERVICES, ITEM_TEMPLATE, UNKNOWN}

  // ----- Strings

  function TrimPrefix(s: string, prefix: string): string {
    if prefix <= s then s[|prefix|..] else s
  }

  function Lower(c: char): char {
    if 'A' <= c <= 'Z' then c - 'A' + 'a' else c
  }

  predicate EqualFold(a: string, b: string) {
    |a| == |b| && forall i | 0 <= i < |a| :: Lower(a[i]) == Lower(b[i])
  }

  predicate ContainsAny(s: string, chars: string) { exists i | 0 <= i < |s| :: s[i] in chars }

  datatype Halves = Halves(before: string, after: string, found: bool)

  /** strings.Cut at the first space. */
  function CutSpace(s: string): Halves {
    if s == "" then Halves("", "", false)
    else if s[0] == ' ' then Halves("", s[1..], true)
    else
      var rest := CutSpace(s[1..]);
      if rest.found then Halves([s[0]] + rest.before, rest.after, true) else Halves(s, "", false)
  }

  lemma {:induction false} CutSpaceJoins(s: string)
    ensures var h := CutSpace(s);
      && (h.found ==> s == h.before + " " + h.after)
      && (h.found <==> ' ' in s)
      && ' ' !in h.before
  {
    if s != "" && s[0] != ' ' {
      CutSpaceJoins(s[1..]);
      assert s == [s[0]] + s[1..];
    } else if s != "" {
      assert s == "" + " " + s[1..];
    }
  }

  lemma {:induction false} CutSpaceOf(a: string, b: string)
    requires ' ' !in a
    ensures CutSpace(a + " " + b) == Halves(a, b, true)
  {
    if a == "" {
      assert a + " " + b == " " + b;
    } else {
      assert (a + " " + b)[1..] == a[1..] + " " + b;
      CutSpaceOf(a[1..], b);
    }
  }

  // ----- Names (section 2.1 of RFC 1123)

  predicate LabelEdge(c: char) { 'a' <= c <= 'z' || '0' <= c <= '9' }

  predicate DnsLabel(s: string) {
    && 1 <= |s| <= 63
    && LabelEdge(s[0]) && LabelEdge(s[|s| - 1])
    && forall i | 0 <= i < |s| :: LabelEdge(s[i]) || s[i] == '-'
  }

  predicate ValidManagedServiceName(name: string) { name != "" && DnsLabel(name) }

  const ALPHABET := "abcdefghijklmnopqrstuvwxyz"
  const DIGITS := "0123456789"

  lemma AlphabetAt(c: char)
    ensures c in ALPHABET <==> 'a' <= c <= 'z'
  {
    var s := ALPHABET;
    assert |s| == 26 && forall i | 0 <= i < 26 :: s[i] as int == 'a' as int + i;
    if 'a' <= c <= 'z' { assert s[c as int - 'a' as int] == c; }
  }

  lemma DigitsAt(c: char)
    ensures c in DIGITS <==> '0' <= c <= '9'
  {
    var s := DIGITS;
    assert |s| == 10 && forall i | 0 <= i < 10 :: s[i] as int == '0' as int + i;
    if '0' <= c <= '9' { assert s[c as int - '0' as int] == c; }
  }

  predicate AlphaNumeric(c: char) { c in ALPHABET || c in DIGITS }

  lemma EdgeIff(c: char)
    ensures LabelEdge(c) <==> AlphaNumeric(c)
  {
    AlphabetAt(c);
    DigitsAt(c);
  }

  /** The language of names: one to 63 lower-case letters, digits and dashes, with no dash at either end. */
  lemma NameLanguage(s: string)
    ensures ValidManagedServiceName(s) <==>
      && 1 <= |s| <= 63 && s[0] != '-' && s[|s| - 1] != '-'
      && forall i | 0 <= i < |s| :: AlphaNumeric(s[i]) || s[i] == '-'
  {
    forall i | 0 <= i < |s| ensures LabelEdge(s[i]) <==> AlphaNumeric(s[i]) { EdgeIff(s[i]); }
  }

  // ----- The gate

  predicate IsProtectedPath(path: string) { path == API_V1 || API_V1 + "/" <= path }

  /** The hashes are equal if and only if the credentials are. */
  predicate Authenticated(values: seq<string>, token: string) {
    && |values| == 1
    && var h := CutSpace(values[0]);
       h.found && EqualFold(h.before, "Bearer") && h.after != "" && !ContainsAny(h.after, " \t\r\n") && h.after == token
  }

  /** The six letters, each in either case. */
  predicate IsBearer(scheme: string) {
    && |scheme| == 6
    && (scheme[0] == 'b' || scheme[0] == 'B') && (scheme[1] == 'e' || scheme[1] == 'E')
    && (scheme[2] == 'a' || scheme[2] == 'A') && (scheme[3] == 'r' || scheme[3] == 'R')
    && (scheme[4] == 'e' || scheme[4] == 'E') && (scheme[5] == 'r' || scheme[5] == 'R')
  }

  /** Every casing of the scheme passes, and nothing else. */
  lemma BearerCasings(scheme: string)
    ensures EqualFold(scheme, "Bearer") <==> IsBearer(scheme)
  {
    var b := "Bearer";
    assert b[0] == 'B' && b[1] == 'e' && b[2] == 'a' && b[3] == 'r' && b[4] == 'e' && b[5] == 'r';
    if EqualFold(scheme, b) {
      assert Lower(scheme[0]) == Lower(b[0]) && Lower(scheme[1]) == Lower(b[1]) && Lower(scheme[2]) == Lower(b[2]);
      assert Lower(scheme[3]) == Lower(b[3]) && Lower(scheme[4]) == Lower(b[4]) && Lower(scheme[5]) == Lower(b[5]);
    }
  }

  /** A token without a space, a tab or a line break in it. */
  predicate Unbroken(token: string) {
    token != "" && ' ' !in token && '\t' !in token && '\r' !in token && '\n' !in token
  }

  lemma UnbrokenIff(token: string)
    ensures Unbroken(token) <==> token != "" && !ContainsAny(token, " \t\r\n")
  {
    var blanks := " \t\r\n";
    assert blanks[0] == ' ' && blanks[1] == '\t' && blanks[2] == '\r' && blanks[3] == '\n';
    if !Unbroken(token) && token != "" {
      var i :| 0 <= i < |token| && (token[i] == ' ' || token[i] == '\t' || token[i] == '\r' || token[i] == '\n');
      assert token[i] in blanks;
    }
  }

  /** Exactly one header passes: the scheme in any case, one space, and the token. */
  lemma AuthenticatedIff(values: seq<string>, token: string)
    ensures Authenticated(values, token) <==>
      Unbroken(token) && exists scheme: string :: IsBearer(scheme) && values == [scheme + " " + token]
  {
    UnbrokenIff(token);
    if Authenticated(values, token) {
      CutSpaceJoins(values[0]);
      var scheme := CutSpace(values[0]).before;
      BearerCasings(scheme);
      assert values == [scheme + " " + token];
    }
    if exists scheme: string :: IsBearer(scheme) && values == [scheme + " " + token] {
      var scheme: string :| IsBearer(scheme) && values == [scheme + " " + token];
      BearerCasings(scheme);
      CutSpaceOf(scheme, token);
    }
  }

  // ----- Route labels

  function NormalizeRoute(path: string): string {
    if path in {HEALTH, READINESS, API_V1, MANAGED_SERVICES} then path
    else
      var name := TrimPrefix(path, ITEM_PREFIX);
      if name != path && name != "" && '/' !in name then ITEM_TEMPLATE else UNKNOWN
  }

  /** safeRoute of the telemetry middleware (internal/telemetry/http.go, lines 190-202). */
  function SafeRoute(route: string): string {
    if route == "" || |route| > 128 then UNKNOWN
    else if exists i | 0 <= i < |route| :: route[i] as int <= 0x20 || route[i] as int >= 0x7f then UNKNOWN
    else route
  }

  /** Every path gets one of six labels, and the label survives the middleware. */
  lemma RouteLabels(path: string)
    ensures NormalizeRoute(path) in ROUTES && SafeRoute(NormalizeRoute(path)) == NormalizeRoute(path)
  {
    var r := NormalizeRoute(path);
    assert r in ROUTES;
    forall i | 0 <= i < |r| ensures 0x20 < r[i] as int < 0x7f {
      if r == HEALTH {
        assert 0x20 < HEALTH[i] as int < 0x7f;
      }
    }
  }

  /** Each of the four exact paths keeps its own label; every other path is an item or unknown. */
  lemma ExactLabels(path: string)
    ensures path == "/healthz" || path == "/readyz" || path == "/api/v1" || path == "/api/v1/managed-services" ==>
              SafeRoute(NormalizeRoute(path)) == path
    ensures path != "/healthz" && path != "/readyz" && path != "/api/v1" && path != "/api/v1/managed-services" ==>
              SafeRoute(NormalizeRoute(path)) in {"/api/v1/managed-services/{name}", "unknown"}
  {
    RouteLabels(path);
  }

  // ----- The mux

  datatype Handler = Health | Readiness | Identity | Collection | Item | NotFound

  /** The longest pattern that matches: a pattern that ends in a slash matches every path below it. */
  function Match(path: string): Handler {
    if path == HEALTH then Health
    else if path == READINESS then Readiness
    else if path == API_V1 then Identity
    else if path == MANAGED_SERVICES then Collection
    else if ITEM_PREFIX <= path then Item
    else NotFound
  }

  function PatternOf(h: Handler): string {
    match h
    case Health => HEALTH
    case Readiness => READINESS
    case Identity => API_V1
    case Collection => MANAGED_SERVICES
    case Item => ITEM_PREFIX
    case NotFound => "/"
  }

  /** ServeMux: a pattern that ends in a slash matches every path it starts, any other pattern itself only. */
  predicate Matches(pattern: string, path: string) {
    path == pattern || (pattern != "" && pattern[|pattern| - 1] == '/' && pattern <= path)
  }

  /** The handler's pattern matches, and none that matches is longer; every rooted path has a handler. */
  lemma MatchLongest(path: string, h: Handler)
    requires path != "" && path[0] == '/'
    ensures Matches(PatternOf(Match(path)), path)
    ensures Matches(PatternOf(h), path) ==> |PatternOf(h)| <= |PatternOf(Match(path))|
  {
    assert |HEALTH| == 8 && |READINESS| == 7 && |API_V1| == 7 && |MANAGED_SERVICES| == 24 && |ITEM_PREFIX| == 25;
    assert HEALTH[7] == 'z' && READINESS[6] == 'z' && API_V1[6] == '1' && MANAGED_SERVICES[23] == 's' && ITEM_PREFIX[24] == '/';
    if ITEM_PREFIX <= path { assert path[24] == '/'; }
  }

  /** Whatever the versioned API serves is behind the gate. */
  lemma ServedIsProtected(path: string)
    ensures Match(path) in {Identity, Collection, Item} ==> IsProtectedPath(path)
  {
    assert API_V1 + "/" <= MANAGED_SERVICES && API_V1 + "/" <= ITEM_PREFIX;
  }

  /** The item label is given to exactly the paths of one non-empty segment below the collection. */
  lemma ItemLabelIff(path: string)
    ensures NormalizeRoute(path) == ITEM_TEMPLATE
            <==> exists name: string :: name != "" && '/' !in name && path == ITEM_PREFIX + name
  {
    assert |HEALTH| == 8 && |READINESS| == 7 && |API_V1| == 7 && |MANAGED_SERVICES| == 24;
    assert |ITEM_PREFIX| == 25 && |ITEM_TEMPLATE| == 31 && |UNKNOWN| == 7;
    var rest := TrimPrefix(path, ITEM_PREFIX);
    if rest != path { assert path == ITEM_PREFIX + rest; }
    if exists name: string :: name != "" && '/' !in name && path == ITEM_PREFIX + name {
      var name: string :| name != "" && '/' !in name && path == ITEM_PREFIX + name;
      assert ITEM_PREFIX <= path && rest == name;
    }
  }

  // ----- Redirects

  /** The parts of a path between its slashes. */
  function Segments(s: string): (r: seq<string>)
    ensures r != []
  {
    if s == "" then [""]
    else
      var rest := Segments(s[1..]);
      if s[0] == '/' then [""] + rest else [[s[0]] + rest[0]] + rest[1..]
  }

  /** path.Clean on a rooted path: no empty segment, no ".", and ".." takes away the segment before it. */
  function Resolve(segments: seq<string>): seq<string> {
    if segments == [] then []
    else
      var before, last := Resolve(segments[..|segments| - 1]), segments[|segments| - 1];
      if last == "" || last == "." then before
      else if last == ".." then if before == [] then [] else before[..|before| - 1]
      else before + [last]
  }

  function Joined(segments: seq<string>): string {
    if segments == [] then "" else Joined(segments[..|segments| - 1]) + "/" + segments[|segments| - 1]
  }

  /** The mux's cleanPath: rooted, resolved, and with the trailing slash it came with. */
  function CleanPath(path: string): string {
    var joined := Joined(Resolve(Segments(path)));
    if joined == "" then "/"
    else if path != "" && path[|path| - 1] == '/' then joined + "/"
    else joined
  }

  /** The mux answers with a redirect instead of running a handler; it leaves CONNECT requests alone. */
  predicate Redirected(verb: string, path: string) { verb != "CONNECT" && CleanPath(path) != path }

  lemma {:induction false} SegmentsOfName(name: string)
    requires '/' !in name
    ensures Segments(name) == [name]
  {
    if name != "" {
      assert name[0] in name && name == [name[0]] + name[1..];
      SegmentsOfName(name[1..]);
    }
  }

  lemma {:induction false} SegmentsMore(s: string, name: string)
    requires '/' !in name
    ensures Segments(s + "/" + name) == Segments(s) + [name]
  {
    var t := s + "/" + name;
    if s == "" {
      assert t == "/" + name && t[1..] == name;
      SegmentsOfName(name);
    } else {
      assert t[1..] == s[1..] + "/" + name;
      SegmentsMore(s[1..], name);
    }
  }

  /** A segment that cleaning keeps. */
  predicate Plain(name: string) { name != "" && name != "." && name != ".." && '/' !in name }

  lemma {:induction false} ResolvePlain(segments: seq<string>)
    requires forall name | name in segments :: Plain(name)
    ensures Resolve([""] + segments) == segments
  {
    if segments == [] {
      assert [""][..0] == [];
    } else {
      var n := |segments| - 1;
      var all := [""] + segments;
      assert all[..n + 1] == [""] + segments[..n] && all[n + 1] == segments[n];
      assert segments[n] in segments;
      ResolvePlain(segments[..n]);
      assert Resolve(all) == Resolve(all[..n + 1]) + [segments[n]];
      assert segments == segments[..n] + [segments[n]];
    }
  }

  lemma {:induction false} JoinedSegments(segments: seq<string>)
    requires forall name | name in segments :: Plain(name)
    ensures Segments(Joined(segments)) == [""] + segments
    decreases |segments|
  {
    if segments != [] {
      var n := |segments| - 1;
      assert segments[n] in segments;
      JoinedSegments(segments[..n]);
      SegmentsMore(Joined(segments[..n]), segments[n]);
      assert [""] + segments[..n] + [segments[n]] == [""] + segments;
    }
  }

  /** A path of plain segments is clean. */
  lemma PlainClean(segments: seq<string>)
    requires segments != [] && forall name | name in segments :: Plain(name)
    ensures CleanPath(Joined(segments)) == Joined(segments)
  {
    JoinedSegments(segments);
    ResolvePlain(segments);
    var joined, last := Joined(segments), segments[|segments| - 1];
    assert last in segments;
    assert joined[|joined| - 1] == last[|last| - 1];
  }

  lemma Joined3(a: string, b: string, c: string)
    ensures Joined([a, b, c]) == "/" + a + "/" + b + "/" + c
  {
    assert [a, b, c][..2] == [a, b] && [a, b][..1] == [a] && [a][..0] == [];
    assert Joined([a]) == "/" + a;
    assert Joined([a, b]) == "/" + a + "/" + b;
  }

  lemma BasePath(base: seq<string>)
    requires base == ["api", "v1", "managed-services"]
    ensures Joined(base) == MANAGED_SERVICES && forall name | name in base :: Plain(name)
  {
    var a, b, c := base[0], base[1], base[2];
    Joined3(a, b, c);
    assert |a| == 3 && |b| == 2 && |c| == 16 && c[0] == 'm';
    assert "/" + a + "/" + b + "/" + c == MANAGED_SERVICES;
  }

  /** The collection and its items are never redirected. */
  lemma CollectionClean(verb: string, path: string)
    requires path == MANAGED_SERVICES
    ensures !Redirected(verb, path)
  {
    var base := ["api", "v1", "managed-services"];
    BasePath(base);
    PlainClean(base);
  }

  lemma ItemClean(verb: string, path: string, name: string)
    requires DnsLabel(name) && path == ITEM_PREFIX + name
    ensures !Redirected(verb, path)
  {
    var base := ["api", "v1", "managed-services"];
    var segments := base + [name];
    BasePath(base);
    assert Plain(name);
    assert segments[..|segments| - 1] == base;
    assert Joined(segments) == Joined(base) + "/" + name;
    assert MANAGED_SERVICES + "/" == ITEM_PREFIX;
    PlainClean(segments);
  }

  // ----- Exactly which paths are redirected

  lemma {:induction false} SegmentsHaveNoSlash(s: string)
    ensures forall i | 0 <= i < |Segments(s)| :: '/' !in Segments(s)[i]
  {
    if s != "" {
      var rest := Segments(s[1..]);
      SegmentsHaveNoSlash(s[1..]);
      if s[0] != '/' { assert '/' !in [s[0]] + rest[0]; }
    }
  }

  lemma {:induction false} ResolvedIsPlain(segments: seq<string>)
    requires forall i | 0 <= i < |segments| :: '/' !in segments[i]
    ensures forall i | 0 <= i < |Resolve(segments)| :: Plain(Resolve(segments)[i])
  {
    if segments != [] { ResolvedIsPlain(segments[..|segments| - 1]); }
  }

  /** Rooted, with no empty, "." or ".." segment, and a trailing slash or none. */
  ghost predicate IsClean(path: string) {
    path == "/" || exists segments: seq<string> :: IsPathOf(path, segments)
  }

  ghost predicate IsPathOf(path: string, segments: seq<string>) {
    && segments != [] && (forall i | 0 <= i < |segments| :: Plain(segments[i]))
    && (path == Joined(segments) || path == Joined(segments) + "/")
  }

  lemma {:induction false} JoinedEnds(segments: seq<string>)
    requires segments != [] && Plain(segments[|segments| - 1])
    ensures Joined(segments) != "" && Joined(segments)[|Joined(segments)| - 1] != '/'
  {
    var last := segments[|segments| - 1];
    assert Joined(segments)[|Joined(segments)| - 1] == last[|last| - 1];
  }

  lemma ResolveTrailing(segments: seq<string>)
    ensures Resolve(segments + [""]) == Resolve(segments)
  {
    assert (segments + [""])[..|segments|] == segments;
  }

  lemma PathOfIsClean(path: string, segments: seq<string>)
    requires IsPathOf(path, segments)
    ensures CleanPath(path) == path
  {
    JoinedEnds(segments);
    if path == Joined(segments) {
      PlainClean(segments);
    } else {
      JoinedSegments(segments);
      ResolvePlain(segments);
      SegmentsMore(Joined(segments), "");
      assert path == Joined(segments) + "/" + "";
      ResolveTrailing([""] + segments);
    }
  }

  lemma CleanIsPathOf(path: string)
    requires CleanPath(path) == path && path != "/"
    ensures IsPathOf(path, Resolve(Segments(path)))
  {
    SegmentsHaveNoSlash(path);
    ResolvedIsPlain(Segments(path));
  }

  /** The mux redirects exactly the paths that are not clean, CONNECT requests apart. */
  lemma RedirectedIff(verb: string, path: string)
    ensures Redirected(verb, path) <==> verb != "CONNECT" && !IsClean(path)
  {
    if path == "/" {
      RootClean(path);
    } else {
      if CleanPath(path) == path { CleanIsPathOf(path); }
      if exists segments: seq<string> :: IsPathOf(path, segments) {
        var segments: seq<string> :| IsPathOf(path, segments);
        PathOfIsClean(path, segments);
      }
    }
  }

  lemma RootClean(path: string)
    requires path == "/"
    ensures CleanPath(path) == path
  {
    SegmentsMore("", "");
    assert path == "" + "/" + "";
    var segments := Segments(path);
    assert segments == [""] + [""];
    ResolveTrailing([""]);
    ResolveTrailing([]);
    assert [] + [""] == [""];
    assert Resolve(segments) == [];
  }
}

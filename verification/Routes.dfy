// What the actions of a batch response contain, and where following them leads: the URL of an action,
// read by the router, names the repository and the object the action was made for.

module Routes {
  import opened Prelude
  import opened Domain
  import opened BatchApi

  /** The parameters of `/:owner/:repo/info/lfs/objects/:oid`. */
  datatype Route = Route(owner: string, name: string, oid: string)

  /** Where the query or the fragment begins (section 3 of RFC 3986), or the end. */
  function QueryAt(s: string): (i: nat)
    ensures i <= |s| && (i < |s| ==> s[i] == '?' || s[i] == '#')
    ensures forall j :: 0 <= j < i ==> s[j] != '?' && s[j] != '#'
  {
    if s == "" || s[0] == '?' || s[0] == '#' then 0 else 1 + QueryAt(s[1..])
  }

  /** What precedes it. */
  function UntilQuery(s: string): string {
    s[..QueryAt(s)]
  }

  /** The path of `scheme://authority/path?query#fragment`. */
  function PathOf(url: string): string {
    var i := IndexOf(url, ':');
    if i + 3 > |url| || url[i..i + 3] != "://" then ""
    else
      var rest := UntilQuery(url[i + 3..]);
      rest[IndexOf(rest, '/')..]
  }

  function HexValue(c: char): (v: nat)
    ensures v < 16
  {
    if '0' <= c <= '9' then (c - '0') as nat
    else if 'a' <= c <= 'f' then (c - 'a') as nat + 10
    else if 'A' <= c <= 'F' then (c - 'A') as nat + 10 else 0
  }

  /** Percent-decoding of one path segment (section 2.1 of RFC 3986). */
  function Unescape(s: string): Option<string> {
    if s == "" then Some("")
    else if s[0] != '%' then
      var rest := Unescape(s[1..]);
      if rest.Some? then Some([s[0]] + rest.value) else None
    else if |s| < 3 || !IsHexDigit(s[1]) || !IsHexDigit(s[2]) then None
    else
      var rest := Unescape(s[3..]);
      if rest.Some? then Some([(HexValue(s[1]) * 16 + HexValue(s[2])) as char] + rest.value) else None
  }

  /** Where the server takes a request for this URL. */
  function RouteOf(url: string): Option<Route> {
    var pieces := Split(PathOf(url), '/');
    if |pieces| != 7 || pieces[0] != "" || pieces[3..6] != ["info", "lfs", "objects"] then None
    else
      var owner, name, oid := Unescape(pieces[1]), Unescape(pieces[2]), Unescape(pieces[6]);
      if owner.Some? && name.Some? && oid.Some? then Some(Route(owner.value, name.value, oid.value)) else None
  }

  /** Text that means itself inside the path of a URL. */
  predicate Plain(s: string) {
    '?' !in s && '#' !in s && '%' !in s
  }

  predicate NoQuery(s: string) {
    '?' !in s && '#' !in s
  }

  // ---------- reading a URL piece by piece ----------

  lemma QueryCuts(s: string, t: string)
    ensures UntilQuery(s + t) == if NoQuery(s) then s + UntilQuery(t) else UntilQuery(s)
    ensures UntilQuery(s) <= s && NoQuery(UntilQuery(s))
  {
    hide QueryAt;
    var i := QueryAt(s + t);
    if NoQuery(s) {
      assert i >= |s| && i - |s| <= |t|;
      assert forall j :: 0 <= j < |t| ==> (s + t)[|s| + j] == t[j];
      assert i == |s| + QueryAt(t);
      assert (s + t)[..i] == s + t[..QueryAt(t)];
    } else {
      assert forall j :: 0 <= j < |s| ==> (s + t)[j] == s[j];
      assert i == QueryAt(s);
      assert (s + t)[..i] == s[..i];
    }
  }

  lemma SplitFirst(p: string, rest: string)
    requires '/' !in p
    ensures Split(p + "/" + rest, '/') == [p] + Split(rest, '/')
    ensures Split(p, '/') == [p]
  {
    IndexOfPrefix(p, '/', rest);
    var s := p + ['/'] + rest;
    assert s == p + "/" + rest && s[..|p|] == p && s[|p| + 1..] == rest;
    assert IndexOf(p, '/') == |p| && p[..|p|] == p;
  }

  /** Percent-decoding leaves a segment alone exactly when it has no percent sign. */
  lemma {:induction false} UnescapeKeeps(s: string)
    ensures Unescape(s).Some? ==> |Unescape(s).value| <= |s|
    ensures '%' !in s ==> Unescape(s) == Some(s)
    ensures '%' in s ==> Unescape(s).None? || |Unescape(s).value| < |s|
  {
    if s == "" {
    } else if s[0] != '%' {
      UnescapeKeeps(s[1..]);
      assert s == [s[0]] + s[1..];
    } else if |s| >= 3 {
      UnescapeKeeps(s[3..]);
    }
  }

  /** The path of a URL with this scheme and authority. */
  lemma PathFollowsHost(scheme: string, host: string, path: string)
    requires ':' !in scheme && '/' !in host && NoQuery(host) && path != "" && path[0] == '/'
    ensures PathOf(scheme + "://" + host + path) == UntilQuery(path)
  {
    hide QueryAt, UntilQuery;
    var url := scheme + "://" + host + path;
    var rest := host + UntilQuery(path);
    assert url == scheme + [':'] + ("//" + host + path);
    IndexOfPrefix(scheme, ':', "//" + host + path);
    AfterScheme(scheme, host + path);
    assert url == scheme + "://" + (host + path);
    QueryCuts(host, path);
    PathBegins(host, path);
  }

  lemma AfterScheme(scheme: string, rest: string)
    ensures var url := scheme + "://" + rest;
      url[|scheme|..|scheme| + 3] == "://" && url[|scheme| + 3..] == rest
  {
  }

  lemma PathBegins(host: string, path: string)
    requires '/' !in host && path != "" && path[0] == '/'
    ensures var rest := host + UntilQuery(path); rest[IndexOf(rest, '/')..] == UntilQuery(path)
  {
    hide QueryAt;
    var tail := UntilQuery(path);
    assert tail == ['/'] + tail[1..];
    IndexOfPrefix(host, '/', tail[1..]);
    assert host + tail == host + ['/'] + tail[1..];
  }

  function Join(pieces: seq<string>): string
    requires pieces != []
  {
    if |pieces| == 1 then pieces[0] else pieces[0] + "/" + Join(pieces[1..])
  }

  lemma {:induction false} SplitJoin(pieces: seq<string>)
    requires pieces != [] && forall i :: 0 <= i < |pieces| ==> '/' !in pieces[i]
    ensures Split(Join(pieces), '/') == pieces
    decreases |pieces|
  {
    hide Split;
    if |pieces| == 1 {
      SplitFirst(pieces[0], "");
    } else {
      SplitJoin(pieces[1..]);
      SplitFirst(pieces[0], Join(pieces[1..]));
    }
  }

  /** The pieces of an object's path. */
  lemma PathSplits(owner: string, name: string, oid: OID)
    requires '/' !in owner && '/' !in name
    ensures Split("/" + owner + "/" + name + "/info/lfs/objects/" + oid, '/') ==
            ["", owner, name, "info", "lfs", "objects", oid]
  {
    hide Split;
    var path := ["", owner, name, "info", "lfs", "objects", oid];
    PathJoins(owner, name, oid);
    SplitJoin(path);
  }

  lemma TailJoins(oid: string)
    ensures Join(["info", "lfs", "objects", oid]) == "info/lfs/objects/" + oid
  {
    var objects := ["objects", oid];
    var lfs := ["lfs", "objects", oid];
    var info := ["info", "lfs", "objects", oid];
    assert objects[1..] == [oid] && lfs[1..] == objects && info[1..] == lfs;
    assert Join(objects) == "objects/" + oid;
    assert Join(lfs) == "lfs/" + ("objects/" + oid);
    assert Join(info) == "info/" + ("lfs/" + ("objects/" + oid));
  }

  lemma PathJoins(owner: string, name: string, oid: string)
    ensures Join(["", owner, name, "info", "lfs", "objects", oid]) ==
            "/" + owner + "/" + name + "/info/lfs/objects/" + oid
  {
    var info := ["info", "lfs", "objects", oid];
    var repo := [name, "info", "lfs", "objects", oid];
    var full := [owner, name, "info", "lfs", "objects", oid];
    var path := ["", owner, name, "info", "lfs", "objects", oid];
    assert repo[1..] == info && full[1..] == repo && path[1..] == full;
    TailJoins(oid);
    var tail := "info/lfs/objects/" + oid;
    assert Join(repo) == name + "/" + tail;
    assert Join(full) == owner + "/" + (name + "/" + tail);
    assert Join(path) == "/" + (owner + "/" + (name + "/" + tail));
    Associates("/" + owner + "/", name, tail);
  }

  lemma Associates(a: string, b: string, tail: string)
    ensures a + (b + "/" + tail) == a + b + ("/" + tail)
  {
  }

  /** What is left of a path that a question mark or a hash cuts short. */
  lemma CutPath(owner: string, name: string, rest: string)
    requires !(NoQuery(owner) && NoQuery(name))
    ensures UntilQuery("/" + owner + "/" + name + rest) ==
            if NoQuery(owner) then "/" + owner + "/" + UntilQuery(name) else "/" + UntilQuery(owner)
  {
    hide UntilQuery, NoQuery;
    var a := "/" + owner;
    var b := a + "/";
    var c := b + name;
    CutAfter("/", owner);
    CutAfter(a, "/");
    CutAfter(b, name);
    QueryCuts(c, rest);
  }

  lemma CutAfter(s: string, t: string)
    ensures NoQuery(s) ==> UntilQuery(s + t) == s + UntilQuery(t)
    ensures !NoQuery(s) ==> UntilQuery(s + t) == UntilQuery(s)
    ensures NoQuery(s + t) <==> NoQuery(s) && NoQuery(t)
    ensures NoQuery("/")
  {
    hide UntilQuery;
    QueryCuts(s, t);
  }

  /** A path of one or two names has too few pieces to be an object's. */
  lemma FewPieces(a: string, b: string)
    requires '/' !in a && '/' !in b
    ensures Split("/" + a, '/') == ["", a]
    ensures Split("/" + a + "/" + b, '/') == ["", a, b]
  {
    hide Split;
    SplitFirst(a, "");
    SplitFirst(b, "");
    SplitFirst(a, b);
    SplitFirst("", a);
    SplitFirst("", a + "/" + b);
    assert "" + "/" + a == "/" + a && "" + "/" + (a + "/" + b) == "/" + a + "/" + b;
  }

  lemma CutPathHasNoRoute(owner: string, name: string, rest: string)
    requires '/' !in owner && '/' !in name && !(NoQuery(owner) && NoQuery(name))
    ensures |Split(UntilQuery("/" + owner + "/" + name + rest), '/')| <= 3
  {
    hide Split, UntilQuery, NoQuery;
    CutPath(owner, name, rest);
    QueryCuts(owner, "");
    QueryCuts(name, "");
    if NoQuery(owner) {
      FewPieces(owner, UntilQuery(name));
    } else {
      FewPieces(UntilQuery(owner), "");
    }
  }

  // ---------- actions ----------

  /** The base URL the handler makes of the request: a scheme and a host, perhaps with one slash. */
  predicate BaseOf(c: CallContext, scheme: string, host: string) {
    ':' !in scheme && host != "" && '/' !in host && NoQuery(host) &&
    (c.baseURL == scheme + "://" + host || c.baseURL == scheme + "://" + host + "/")
  }

  /** A slash at the end of the base is not doubled. */
  lemma URLOfAction(c: CallContext, scheme: string, host: string, oid: string)
    requires BaseOf(c, scheme, host)
    ensures NewAction(c, oid).href ==
            scheme + "://" + host + ("/" + c.owner + "/" + c.repo + "/info/lfs/objects/" + oid)
  {
    var base := scheme + "://" + host;
    var path := "/" + c.owner + "/" + c.repo + "/info/lfs/objects/" + oid;
    assert base[|base| - 1] == host[|host| - 1] != '/';
    assert (base + "/")[..|base|] == base;
    assert ActionURL(c, oid) == base + path;
  }

  /** The URL of an action leads back to its repository and its object, exactly when neither part of the
      repository's name contains a character that a URL reads as something else. */
  lemma ActionLeadsBackExactlyWhenPlain(c: CallContext, scheme: string, host: string, oid: OID)
    requires BaseOf(c, scheme, host) && '/' !in c.owner && '/' !in c.repo
    ensures RouteOf(NewAction(c, oid).href) == Some(Route(c.owner, c.repo, oid)) <==> Plain(c.owner) && Plain(c.repo)
  {
    hide NewAction, UntilQuery, Split, Unescape;
    var rest := "/info/lfs/objects/" + oid;
    var path := "/" + c.owner + "/" + c.repo + rest;
    assert path == "/" + c.owner + "/" + c.repo + "/info/lfs/objects/" + oid;
    URLOfAction(c, scheme, host, oid);
    PathFollowsHost(scheme, host, path);
    if NoQuery(c.owner) && NoQuery(c.repo) {
      NothingIsCut(c.owner, c.repo, oid);
      PathSplits(c.owner, c.repo, oid);
      UnescapeKeeps(c.owner);
      UnescapeKeeps(c.repo);
      UnescapeKeeps(oid);
    } else {
      CutPathHasNoRoute(c.owner, c.repo, rest);
    }
  }

  /** A repository whose name has a hash in it: a client that follows the action's URL asks for less
      than the path, and the server knows no such route. */
  lemma HashesCutTheRoute(oid: OID)
    ensures RouteOf(NewAction(CallContext("https://host", "owner", "c#", ""), oid).href) != Some(Route("owner", "c#",
            oid))
  {
    var c := CallContext("https://host", "owner", "c#", "");
    assert BaseOf(c, "https", "host");
    ActionLeadsBackExactlyWhenPlain(c, "https", "host", oid);
  }

  lemma NothingIsCut(owner: string, name: string, oid: OID)
    requires NoQuery(owner) && NoQuery(name)
    ensures var path := "/" + owner + "/" + name + "/info/lfs/objects/" + oid; UntilQuery(path) == path
  {
    hide NoQuery, UntilQuery;
    var a := "/" + owner;
    var b := a + "/";
    var c := b + name;
    var d := c + "/info/lfs/objects/";
    Uncut("/", owner);
    Uncut(a, "/");
    Uncut(b, name);
    Uncut(c, "/info/lfs/objects/");
    Uncut(d, oid);
    QueryCuts(d + oid, "");
    assert (d + oid) + "" == d + oid;
    assert UntilQuery("") == "" by { QueryCuts("", ""); }
  }

  lemma Uncut(s: string, t: string)
    requires NoQuery(s) || s == "/"
    requires NoQuery(t) || t == "/" || t == "/info/lfs/objects/" || ValidOID(t)
    ensures NoQuery(s + t)
  {
  }

  /** What an action for an object contains: a URL that leads back, the caller's Authorization header
      if there was one and nothing else, and a lifetime of 15 minutes. */
  predicate LeadsBack(c: CallContext, oid: string, a: Action) {
    && RouteOf(a.href) == Some(Route(c.owner, c.repo, oid))
    && ("Authorization" in a.header <==> c.authHeader != "") && a.header.Keys <= {"Authorization"}
    && (c.authHeader != "" ==> a.header["Authorization"] == c.authHeader)
    && a.expiresIn == 15 * 60
  }

  /** Where a batch request comes in: at a repository whose name a URL can carry as it is. */
  ghost predicate PlainContext(c: CallContext) {
    '/' !in c.owner && '/' !in c.repo && Plain(c.owner) && Plain(c.repo) &&
    exists scheme, host :: BaseOf(c, scheme, host)
  }

  lemma ActionsLeadBack(c: CallContext, oid: OID)
    requires PlainContext(c)
    ensures LeadsBack(c, oid, NewAction(c, oid))
  {
    hide ActionURL, RouteOf;
    var scheme, host :| BaseOf(c, scheme, host);
    ActionLeadsBackExactlyWhenPlain(c, scheme, host, oid);
  }
}

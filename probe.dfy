/**
 * `StackController._http_ok`: split a `http://host:port/path` URL the way the launcher does,
 * send one GET there (an oracle here) and call the service reachable on any 2xx, 3xx or 4xx
 * status, the classes of section 15 of RFC 9110 that show a live server answering.
 */
module Probe {
  import opened Wrappers
  import opened Text

  /** Where the probe sends its GET. */
  datatype HttpTarget = HttpTarget(host: string, port: int, path: string)

  /** The reachability predicate: a response in the 2xx to 4xx classes; redirects and client errors count. */
  predicate Reachable(status: int) {
    200 <= status < 500
  }

  /** What follows the first "//" (`url.split("//", 1)[1]`), `None` where there is none. */
  function AfterScheme(url: string): Option<string> {
    match Find(url, "//")
    case None => None
    case Some(i) => Some(url[i + 2..])
  }

  /** Everything up to the first "/" (`rest.split("/", 1)[0]`). */
  function HostPortOf(rest: string): string {
    match Find(rest, "/")
    case None => rest
    case Some(j) => rest[..j]
  }

  /** `host, port = hostPort.split(":")` followed by `int(port)`; `None` where either raises. */
  function SplitHostPort(hostPort: string): Option<(string, int)> {
    match Find(hostPort, ":")
    case None => None
    case Some(c) =>
      var portText := hostPort[c + 1..];
      if ':' in portText then None
      else
        match ParseIntLiteral(portText)
        case None => None
        case Some(port) => Some((hostPort[..c], port))
  }

  /** `url.split(hostPort, 1)[1] or "/"`: what follows the first occurrence of `hostPort`. */
  function PathAfter(url: string, hostPort: string): Option<string> {
    match Find(url, hostPort)
    case None => None
    case Some(k) =>
      var path := url[k + |hostPort|..];
      Some(if path == "" then "/" else path)
  }

  /**
   * The target `_http_ok` derives from `url`, or `None` where its string handling raises:
   * no "//" in the URL, not exactly one ":" in the host-and-port part, or a port `int` rejects.
   * The path is whatever follows the first occurrence of host-and-port in the URL, "/" if nothing does.
   */
  function SplitUrl(url: string): (r: Option<HttpTarget>)
    ensures r.Some? ==> Find(url, "//").Some? && r.value.path != ""
  {
    match AfterScheme(url)
    case None => None
    case Some(rest) =>
      var hostPort := HostPortOf(rest);
      match SplitHostPort(hostPort)
      case None => None
      case Some(hp) =>
        match PathAfter(url, hostPort)
        case None => None
        case Some(path) => Some(HttpTarget(hp.0, hp.1, path))
  }

  /**
   * `_http_ok(url)`: `respond` is the status the server at a target answers a GET with,
   * `None` when connecting or reading the response raises.
   */
  predicate HttpOk(url: string, respond: HttpTarget -> Option<int>)
    ensures HttpOk(url, respond) ==> exists k :: OccursAt(url, "//", k)
  {
    match SplitUrl(url)
    case None => false
    case Some(t) => respond(t).Some? && Reachable(respond(t).value)
  }

  /** A host name the URL split can carry: no ":" and no "/". */
  predicate PlainHost(host: string) {
    ':' !in host && '/' !in host
  }

  /** The URL the launcher builds from a host, a port and a path ("" or starting with "/"). */
  function HttpUrl(host: string, port: int, path: string): string {
    "http://" + host + ":" + IntToString(port) + path
  }

  /** The host-and-port part cannot start inside "http://": its ':' would have to meet the scheme's. */
  lemma HostPortNotBeforeSeven(host: string, digits: string, path: string, k: nat)
    requires PlainHost(host) && |digits| > 0 && (IsDigit(digits[0]) || digits[0] == '-') && k < 7
    ensures !OccursAt("http://" + host + ":" + digits + path, host + ":" + digits, k)
  {
    var hp := host + ":" + digits;
    var url := "http://" + hp + path;
    assert url == "http://" + host + ":" + digits + path;
    var c := |host|;
    if k + |hp| <= |url| {
      assert url[k..k + |hp|][c] == url[k + c];
      assert url[k..k + |hp|][c + 1] == url[k + c + 1];
      if k + c < 7 {
        assert url[k + c] != ':' || url[k + c + 1] != hp[c + 1];
      } else {
        assert url[k + c] == host[k + c - 7];
      }
    }
  }

  /** The host-and-port part occurs in a built URL first right after "http://". */
  lemma {:induction false} HostPortFirstAtSeven(host: string, port: int, path: string)
    requires PlainHost(host)
    ensures Find(HttpUrl(host, port, path), host + ":" + IntToString(port)) == Some(7)
  {
    var digits := IntToString(port);
    var hp := host + ":" + digits;
    var url := HttpUrl(host, port, path);
    forall k | 0 <= k < 7 ensures !OccursAt(url, hp, k) {
      HostPortNotBeforeSeven(host, digits, path, k);
    }
    assert url == "http://" + hp + path;
    assert url[7..7 + |hp|] == hp;
    FindIs(url, hp, 7);
  }

  /** The first "//" of a built URL is the scheme's. */
  lemma SchemeSeparator(rest: string)
    ensures Find("http://" + rest, "//") == Some(5)
    ensures ("http://" + rest)[7..] == rest
  {
    var url := "http://" + rest;
    forall k | 0 <= k < 5 ensures !OccursAt(url, "//", k) {
      assert url[k] == "http:"[k];
    }
    assert url[5..7] == "//";
    FindIs(url, "//", 5);
  }

  /** The host-and-port part ends where the path's leading "/" starts. */
  lemma HostPortEnd(hp: string, path: string)
    requires '/' !in hp
    requires path == "" || path[0] == '/'
    ensures HostPortOf(hp + path) == hp
  {
    var rest := hp + path;
    forall k | 0 <= k < |hp| ensures !OccursAt(rest, "/", k) {
      assert rest[k] == hp[k];
      assert rest[k..k + 1] == [rest[k]];
    }
    if path == "" {
      assert rest == hp;
    } else {
      assert rest[|hp|..|hp| + 1] == "/";
      FindIs(rest, "/", |hp|);
      assert rest[..|hp|] == hp;
    }
  }

  /** The single ":" of `host:digits` sits right after the host. */
  lemma ColonSplit(host: string, digits: string)
    requires ':' !in host && ':' !in digits
    ensures Find(host + ":" + digits, ":") == Some(|host|)
    ensures (host + ":" + digits)[..|host|] == host && (host + ":" + digits)[|host| + 1..] == digits
    ensures SplitHostPort(host + ":" + digits) == match ParseIntLiteral(digits)
                                                  case None => None
                                                  case Some(port) => Some((host, port))
  {
    var hp := host + ":" + digits;
    forall k | 0 <= k < |host| ensures !OccursAt(hp, ":", k) {
      assert hp[k] == host[k];
      assert hp[k..k + 1] == [hp[k]];
    }
    assert hp[|host|..|host| + 1] == ":";
    FindIs(hp, ":", |host|);
  }

  /** The host-and-port part of a built URL: no "/" in it. */
  lemma HostPortHasNoSlash(host: string, port: int)
    requires PlainHost(host)
    ensures '/' !in host + ":" + IntToString(port)
    ensures ':' !in IntToString(port)
  {
    var digits := IntToString(port);
    var hp := host + ":" + digits;
    forall k | 0 <= k < |digits| ensures digits[k] != ':' && digits[k] != '/' { }
    forall k | 0 <= k < |hp| ensures hp[k] != '/' {
      if k < |host| { assert hp[k] in host; } else if k > |host| { assert hp[k] == digits[k - |host| - 1]; }
    }
  }

  /** The path of a built URL is what follows its host-and-port part. */
  lemma PathOfBuiltUrl(host: string, port: int, path: string)
    requires PlainHost(host)
    ensures PathAfter(HttpUrl(host, port, path), host + ":" + IntToString(port)) ==
              Some(if path == "" then "/" else path)
  {
    var hp := host + ":" + IntToString(port);
    HostPortFirstAtSeven(host, port, path);
    assert HttpUrl(host, port, path)[7 + |hp|..] == path;
  }

  /** The URL split recovers host, port and path from a URL the launcher built. */
  lemma {:induction false} SplitUrlRoundTrip(host: string, port: int, path: string)
    requires PlainHost(host)
    requires path == "" || path[0] == '/'
    ensures SplitUrl(HttpUrl(host, port, path)) == Some(HttpTarget(host, port, if path == "" then "/" else path))
  {
    var digits := IntToString(port);
    var hp := host + ":" + digits;
    var url := HttpUrl(host, port, path);
    assert url == "http://" + (hp + path);
    SchemeSeparator(hp + path);
    HostPortHasNoSlash(host, port);
    HostPortEnd(hp, path);
    IntToStringRoundTrip(port);
    ColonSplit(host, digits);
    PathOfBuiltUrl(host, port, path);
  }

  /** Probing a URL the launcher built asks the server at exactly that host, port and path. */
  lemma HttpOkOnBuiltUrl(host: string, port: int, path: string, respond: HttpTarget -> Option<int>)
    requires PlainHost(host)
    requires path == "" || path[0] == '/'
    ensures var t := HttpTarget(host, port, if path == "" then "/" else path);
            HttpOk(HttpUrl(host, port, path), respond) <==> respond(t).Some? && Reachable(respond(t).value)
  {
    SplitUrlRoundTrip(host, port, path);
  }

  /** A one-character pattern occurs nowhere before `i` exactly when the character does not. */
  lemma NoCharBefore(s: string, c: char, i: nat)
    requires i <= |s| && forall k :: 0 <= k < i ==> !OccursAt(s, [c], k)
    ensures c !in s[..i]
  {
    forall k | 0 <= k < i ensures s[..i][k] != c {
      assert !OccursAt(s, [c], k);
      assert s[k..k + 1] == [s[k]];
    }
  }

  /** The part up to the first "/" has no "/" in it. */
  lemma HostPortHasNoSlashAt(rest: string)
    ensures '/' !in HostPortOf(rest)
  {
    var f := Find(rest, "/");
    if f.Some? {
      NoCharBefore(rest, '/', f.value);
    } else {
      NoCharBefore(rest, '/', |rest|);
      assert rest[..|rest|] == rest;
    }
  }

  /** The host the URL split yields is always one the launcher could build a URL from. */
  lemma SplitUrlHostIsPlain(url: string)
    ensures SplitUrl(url).Some? ==> PlainHost(SplitUrl(url).value.host)
  {
    if SplitUrl(url).Some? {
      var hostPort := HostPortOf(AfterScheme(url).value);
      HostPortHasNoSlashAt(AfterScheme(url).value);
      var c := Find(hostPort, ":").value;
      NoCharBefore(hostPort, ':', c);
      assert SplitUrl(url).value.host == hostPort[..c];
      assert forall x :: x in hostPort[..c] ==> x in hostPort;
    }
  }
}

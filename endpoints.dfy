/** The addresses the sly-app component talks to: the base URL with its
    trailing slash stripped, the POST request URLs, and the WebSocket URL.
    All string operations follow JavaScript's `String.prototype.replace`. */
module Endpoints {
  import opened JsValue

  predicate StartsWith(s: string, p: string) {
    |p| <= |s| && s[..|p|] == p
  }

  predicate EndsWith(s: string, p: string) {
    |p| <= |s| && s[|s| - |p|..] == p
  }

  /** `p` occurs in `s` starting at index `i`. */
  predicate OccursAt(s: string, p: string, i: nat) {
    i + |p| <= |s| && s[i..i + |p|] == p
  }

  /** `i` is where `replace` with the string pattern `p` finds `p` in `s`:
      an occurrence with none before it. */
  ghost predicate FirstOccurrence(s: string, p: string, i: nat) {
    OccursAt(s, p, i) && forall j: nat :: j < i ==> !OccursAt(s, p, j)
  }

  /** The first-match search that `String.prototype.replace` performs for a
      string pattern, starting at `k`; `None` when there is no match. */
  function IndexOfFrom(s: string, p: string, k: nat): (r: Option<nat>)
    requires k <= |s|
    decreases |s| - k
    ensures r.Some? ==> k <= r.value && OccursAt(s, p, r.value)
    ensures r.Some? ==> forall j: nat :: k <= j < r.value ==> !OccursAt(s, p, j)
    ensures r.None? ==> forall j: nat :: k <= j ==> !OccursAt(s, p, j)
  {
    if OccursAt(s, p, k) then Some(k)
    else if k == |s| then None
    else IndexOfFrom(s, p, k + 1)
  }

  /** `s.replace(p, "")` with a string pattern: either nothing is removed
      or exactly one copy of `p` is (see `RemoveFirstSpec`). */
  function RemoveFirst(s: string, p: string): (r: string)
    ensures r == s || |r| == |s| - |p|
  {
    match IndexOfFrom(s, p, 0)
    case None => s
    case Some(i) => s[..i] + s[i + |p|..]
  }

  /** The FIRST occurrence of `p` is removed, wherever it is in `s`;
      without one, `s` is returned unchanged. */
  lemma RemoveFirstSpec(s: string, p: string)
    ensures (forall j: nat :: !OccursAt(s, p, j)) ==> RemoveFirst(s, p) == s
    ensures forall i: nat :: FirstOccurrence(s, p, i) ==> RemoveFirst(s, p) == s[..i] + s[i + |p|..]
  {
    match IndexOfFrom(s, p, 0)
    case None =>
    case Some(i) =>
      assert FirstOccurrence(s, p, i);
      FirstOccurrenceUnique(s, p, i);
  }

  lemma FirstOccurrenceUnique(s: string, p: string, i: nat)
    requires FirstOccurrence(s, p, i)
    ensures forall i': nat :: FirstOccurrence(s, p, i') ==> i' == i
  {
  }

  /** `s.replace(/\/$/, '')`: without the `m` flag `$` matches only at the
      very end, so at most one final `/` is removed. */
  function StripTrailingSlash(s: string): (r: string)
    ensures EndsWith(s, "/") ==> r + "/" == s
    ensures !EndsWith(s, "/") ==> r == s
  {
    if |s| > 0 && s[|s| - 1] == '/' then s[..|s| - 1] else s
  }

  /** Only one slash goes: a base ending in `//` keeps one, so stripping
      twice differs from stripping once. */
  lemma StripTrailingSlashNotIdempotent()
    ensures StripTrailingSlash("a//") == "a/"
    ensures StripTrailingSlash(StripTrailingSlash("a//")) == "a"
  {
    assert EndsWith("a//", "/");
    assert "a/" + "/" == "a//";
    assert EndsWith("a/", "/");
    assert "a" + "/" == "a/";
  }

  /** The result ends with a slash exactly when the input ended with two. */
  lemma StripTrailingSlashKeepsSecondSlash(s: string)
    ensures EndsWith(StripTrailingSlash(s), "/") <==> EndsWith(s, "//")
  {
    var r := StripTrailingSlash(s);
    EndsWithSlashes(s);
    EndsWithSlashes(r);
    if |s| > 0 && s[|s| - 1] == '/' {
      assert r == s[..|s| - 1];
      assert |r| > 0 ==> r[|r| - 1] == s[|s| - 2];
    } else {
      assert r == s;
    }
  }

  /** Ending with one or two slashes, character by character. */
  lemma EndsWithSlashes(s: string)
    ensures EndsWith(s, "/") <==> |s| > 0 && s[|s| - 1] == '/'
    ensures EndsWith(s, "//") <==> |s| > 1 && s[|s| - 2] == '/' && s[|s| - 1] == '/'
  {
    if |s| > 0 && s[|s| - 1] == '/' {
      assert s[|s| - 1..] == "/";
    }
    if |s| > 1 && s[|s| - 2] == '/' && s[|s| - 1] == '/' {
      assert s[|s| - 2..] == "//";
    }
    if EndsWith(s, "//") {
      assert s[|s| - 2..][0] == s[|s| - 2];
    }
  }

  /** The URL of `fetch(`${formattedUrl}${path}`)`. */
  function RequestUrl(baseUrl: string, path: string): (r: string)
    ensures EndsWith(r, path)
    ensures StartsWith(r, StripTrailingSlash(baseUrl))
    ensures |r| == |StripTrailingSlash(baseUrl)| + |path|
  {
    StripTrailingSlash(baseUrl) + path
  }

  /** One trailing slash on the base changes no request URL... */
  lemma RequestUrlIgnoresOneTrailingSlash(base: string, path: string)
    requires !EndsWith(base, "/")
    ensures RequestUrl(base + "/", path) == RequestUrl(base, path) == base + path
  {
    assert EndsWith(base + "/", "/");
    assert (base + "/")[..|base|] == base;
  }

  /** ...but with a base ending in `//` only the last slash goes, and a
      path starting with `/` then leaves a double slash where they meet. */
  lemma RequestUrlKeepsSecondSlash(base: string, path: string)
    requires EndsWith(base, "//") && StartsWith(path, "/")
    ensures RequestUrl(base, path) == base[..|base| - 1] + path
    ensures OccursAt(RequestUrl(base, path), "//", |base| - 2)
  {
    EndsWithSlashes(base);
    var r := RequestUrl(base, path);
    var f := StripTrailingSlash(base);
    assert f == base[..|base| - 1];
    assert r[|base| - 2] == base[|base| - 2] == '/';
    assert r[|base| - 1] == path[0] == '/';
    assert r[|base| - 2..|base|] == "//";
  }

  /** The startup requests of a base URL with one trailing slash. */
  lemma StartupRequestUrls()
    ensures RequestUrl("http://host:8000/", "/sly-app-state") == "http://host:8000/sly-app-state"
    ensures RequestUrl("http://host:8000/", "/sly-app-data") == "http://host:8000/sly-app-data"
  {
    ExampleRequestLiterals();
    RequestUrlIgnoresOneTrailingSlash("http://host:8000", "/sly-app-state");
    RequestUrlIgnoresOneTrailingSlash("http://host:8000", "/sly-app-data");
  }

  const WsPath: string := "/sly-app-ws"

  /** `ws` or `wss`, chosen by the page's protocol (`document.location.protocol`). */
  function WsScheme(pageProtocol: string): (r: string)
    ensures r == "ws" || r == "wss"
    ensures r == "wss" <==> pageProtocol == "https:"
  {
    if pageProtocol == "https:" then "wss" else "ws"
  }

  /** The host part of the WebSocket URL: the base URL with the first
      `http://` removed, then the first `https://`, then one trailing `/`. */
  function WsHost(baseUrl: string): (r: string)
    ensures |r| <= |baseUrl|
  {
    StripTrailingSlash(RemoveFirst(RemoveFirst(baseUrl, "http://"), "https://"))
  }

  /** The address `created` opens its WebSocket on (see `WsUrlShape`);
      it is at most `wss://` and `/sly-app-ws` longer than the base. */
  function WsUrl(pageProtocol: string, baseUrl: string): (r: string)
    ensures |r| <= |baseUrl| + 17
  {
    WsScheme(pageProtocol) + "://" + WsHost(baseUrl) + WsPath
  }

  /** The scheme is `wss` exactly on an `https:` page and `ws` on any other,
      whatever the base URL's own scheme; the path is always `/sly-app-ws`
      and the host part sits between the two. */
  lemma WsUrlShape(pageProtocol: string, baseUrl: string)
    ensures pageProtocol == "https:" <==> StartsWith(WsUrl(pageProtocol, baseUrl), "wss://")
    ensures pageProtocol != "https:" <==> StartsWith(WsUrl(pageProtocol, baseUrl), "ws://")
    ensures EndsWith(WsUrl(pageProtocol, baseUrl), WsPath)
    ensures StartsWith(WsUrl(pageProtocol, baseUrl), WsScheme(pageProtocol) + "://" + WsHost(baseUrl))
  {
    WsAddressShape(pageProtocol, WsHost(baseUrl));
  }

  /** Helper for `WsUrlShape`, over any host string. */
  lemma WsAddressShape(pageProtocol: string, host: string)
    ensures var r := WsScheme(pageProtocol) + "://" + host + WsPath;
      && (pageProtocol == "https:" <==> StartsWith(r, "wss://"))
      && (pageProtocol != "https:" <==> StartsWith(r, "ws://"))
      && EndsWith(r, WsPath)
      && StartsWith(r, WsScheme(pageProtocol) + "://" + host)
  {
    var prefix := WsScheme(pageProtocol) + "://" + host;
    var r := prefix + WsPath;
    assert r[|r| - |WsPath|..] == WsPath;
    assert r[..|prefix|] == prefix;
    if pageProtocol == "https:" {
      assert r[..6] == "wss://";
      assert r[2] == 's';
    } else {
      assert r[..5] == "ws://";
      assert r[2] == ':';
    }
  }

  /** An occurrence fixes the characters it covers. */
  lemma OccursAtChar(s: string, p: string, i: nat, k: nat)
    requires OccursAt(s, p, i) && k < |p|
    ensures s[i + k] == p[k]
  {
    assert s[i..i + |p|][k] == s[i + k];
  }

  /** Moving one occurrence test across a concatenation. */
  lemma OccursAtShift(a: string, b: string, p: string, k: nat)
    ensures OccursAt(a + b, p, |a| + k) <==> OccursAt(b, p, k)
  {
    if |a| + k + |p| <= |a + b| {
      assert (a + b)[|a| + k..|a| + k + |p|] == b[k..k + |p|];
    }
  }

  /** Removing the first occurrence of a prefix takes the prefix off. */
  lemma RemoveFirstPrefix(p: string, t: string)
    ensures RemoveFirst(p + t, p) == t
  {
    var s := p + t;
    assert s[0..|p|] == p;
    assert FirstOccurrence(s, p, 0);
    RemoveFirstSpec(s, p);
    assert s[|p|..] == t;
  }

  /** No occurrence of `p` in `prefix + t` other than inside `t`, when `t`
      has none and none straddles the junction. */
  lemma NoOccurrenceInConcat(prefix: string, t: string, p: string)
    requires forall j: nat :: j < |prefix| ==> !OccursAt(prefix + t, p, j)
    requires forall j: nat :: !OccursAt(t, p, j)
    ensures forall j: nat :: !OccursAt(prefix + t, p, j)
  {
    forall j: nat | j >= |prefix|
      ensures !OccursAt(prefix + t, p, j)
    {
      OccursAtShift(prefix, t, p, j - |prefix|);
    }
  }

  /** A base `http://HOST` whose host part has no further scheme in it
      gives the WebSocket host `HOST` without its trailing slash. */
  lemma WsHostOfHttpBase(host: string)
    requires forall j: nat :: !OccursAt(host, "https://", j)
    ensures WsHost("http://" + host) == StripTrailingSlash(host)
  {
    RemoveFirstPrefix("http://", host);
  }

  /** The same for a base `https://HOST`: the `http://` search finds nothing,
      since `https://` itself does not contain `http://`. */
  lemma WsHostOfHttpsBase(host: string)
    requires forall j: nat :: !OccursAt(host, "http://", j)
    ensures WsHost("https://" + host) == StripTrailingSlash(host)
  {
    var s := "https://" + host;
    forall j: nat | j < 8
      ensures !OccursAt(s, "http://", j)
    {
      if OccursAt(s, "http://", j) {
        OccursAtChar(s, "http://", j, 0);
        OccursAtChar(s, "http://", j, 4);
      }
    }
    NoOccurrenceInConcat("https://", host, "http://");
    RemoveFirstSpec(s, "http://");
    RemoveFirstPrefix("https://", host);
  }

  /** Helper: the host of the examples below contains no scheme. */
  lemma ExampleHostHasNoScheme()
    ensures forall j: nat :: !OccursAt("host:8000/", "https://", j)
    ensures forall j: nat :: !OccursAt("host:8000/", "http://", j)
    ensures StripTrailingSlash("host:8000/") == "host:8000"
  {
    var h := "host:8000/";
    forall j: nat
      ensures !OccursAt(h, "https://", j) && !OccursAt(h, "http://", j)
    {
      if OccursAt(h, "https://", j) {
        OccursAtChar(h, "https://", j, 0);
        OccursAtChar(h, "https://", j, 1);
      }
      if OccursAt(h, "http://", j) {
        OccursAtChar(h, "http://", j, 0);
        OccursAtChar(h, "http://", j, 1);
      }
    }
    assert EndsWith(h, "/");
  }

  /** Helper: the string-literal facts the request examples rest on. */
  lemma ExampleRequestLiterals()
    ensures !EndsWith("http://host:8000", "/")
    ensures "http://host:8000" + "/" == "http://host:8000/"
    ensures "http://host:8000" + "/sly-app-state" == "http://host:8000/sly-app-state"
    ensures "http://host:8000" + "/sly-app-data" == "http://host:8000/sly-app-data"
  {
    EndsWithSlashes("http://host:8000");
  }

  /** Helper: the string-literal facts the WebSocket examples rest on. */
  lemma ExampleBaseLiterals()
    ensures "http://" + "host:8000/" == "http://host:8000/"
    ensures "https://" + "host:8000/" == "https://host:8000/"
  {
  }

  /** Helper: the example addresses, assembled from their parts. */
  lemma ExampleAddressLiterals()
    ensures WsScheme("http:") + "://" + "host:8000" + WsPath == "ws://host:8000/sly-app-ws"
    ensures WsScheme("https:") + "://" + "host:8000" + WsPath == "wss://host:8000/sly-app-ws"
  {
    assert WsScheme("http:") == "ws";
  }

  /** The WebSocket URL is the scheme, `://`, the host and the path. */
  lemma WsUrlOfHost(pageProtocol: string, baseUrl: string, host: string)
    requires WsHost(baseUrl) == host
    ensures WsUrl(pageProtocol, baseUrl) == WsScheme(pageProtocol) + "://" + host + WsPath
  {
  }

  /** The page protocol alone picks the scheme: an `http://` base behind an
      `https:` page yields a `wss://` address, and an `https://` base behind
      an `http:` page a `ws://` one. */
  lemma WsUrlExamples()
    ensures WsUrl("http:", "http://host:8000/") == "ws://host:8000/sly-app-ws"
    ensures WsUrl("https:", "http://host:8000/") == "wss://host:8000/sly-app-ws"
    ensures WsUrl("http:", "https://host:8000/") == "ws://host:8000/sly-app-ws"
  {
    ExampleBaseLiterals();
    ExampleAddressLiterals();
    ExampleHostHasNoScheme();
    WsHostOfHttpBase("host:8000/");
    WsHostOfHttpsBase("host:8000/");
    WsUrlOfHost("http:", "http://host:8000/", "host:8000");
    WsUrlOfHost("https:", "http://host:8000/", "host:8000");
    WsUrlOfHost("http:", "https://host:8000/", "host:8000");
  }

  /** `replace` is not anchored: an `http://` later in the base URL is the
      one removed when the base has no `http://` prefix. */
  lemma RemoveFirstIsNotAnchored()
    ensures RemoveFirst("x/?u=http://y", "http://") == "x/?u=y"
  {
    var s := "x/?u=http://y";
    assert OccursAt(s, "http://", 5);
    forall j: nat | j < 5
      ensures !OccursAt(s, "http://", j)
    {
      if OccursAt(s, "http://", j) {
        OccursAtChar(s, "http://", j, 0);
      }
    }
    assert FirstOccurrence(s, "http://", 5);
    RemoveFirstSpec(s, "http://");
    assert s[..5] + s[12..] == "x/?u=y";
  }
}

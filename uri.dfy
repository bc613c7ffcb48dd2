/** `base_url` and `endpoint_path`: the split of an endpoint URL into the
    `scheme://host` part a connection is opened on and the path requested on it.
    Ruby's `URI()` is modelled only for the shape `scheme://host/path`. */
module Uri {
  import opened Wrappers

  /** The three parts of a URL of the modelled shape. */
  datatype Parts = Parts(scheme: string, host: string, path: string)

  predicate IsSchemeChar(c: char) {
    'a' <= c <= 'z'
  }

  predicate IsHostChar(c: char) {
    ('a' <= c <= 'z') || ('0' <= c <= '9') || c == '.' || c == '-'
  }

  /** A path character: anything but the delimiters of a query, a fragment,
      a port or user information. */
  predicate IsPathChar(c: char) {
    IsHostChar(c) || c == '/' || c == '_' || c == '~'
  }

  predicate IsScheme(s: string) {
    s != [] && forall i :: 0 <= i < |s| ==> IsSchemeChar(s[i])
  }

  /** A host name without port or user information. */
  predicate IsHost(s: string) {
    s != [] && forall i :: 0 <= i < |s| ==> IsHostChar(s[i])
  }

  /** A path, possibly empty, without query or fragment. */
  predicate IsPath(s: string) {
    (s == [] || s[0] == '/') && forall i :: 0 <= i < |s| ==> IsPathChar(s[i])
  }

  /** `scheme://host/path` with a lower-case scheme. */
  predicate Simple(p: Parts) {
    IsScheme(p.scheme) && IsHost(p.host) && IsPath(p.path)
  }

  function Compose(p: Parts): string {
    p.scheme + "://" + p.host + p.path
  }

  /** The index of the first `c` in `s`, or `|s|` when there is none. */
  function IndexOf(s: string, c: char): (i: nat)
    ensures i <= |s|
    ensures i < |s| ==> s[i] == c
    ensures forall j :: 0 <= j < i ==> s[j] != c
  {
    if s == [] then 0 else if s[0] == c then 0 else 1 + IndexOf(s[1..], c)
  }

  /** Ruby's `URI()` for the modelled shape: the scheme ends at the first `:`,
      `//` follows, the host runs up to the next `/`, the path is the rest.
      `None` for any URL outside the modelled shape. */
  function Parse(url: string): (r: Option<Parts>)
    ensures r.Some? ==> Simple(r.value) && Compose(r.value) == url
  {
    var i := IndexOf(url, ':');
    if i + 3 <= |url| && url[i..i + 3] == "://" then
      var rest := url[i + 3..];
      var j := IndexOf(rest, '/');
      var p := Parts(url[..i], rest[..j], rest[j..]);
      if Simple(p) then
        assert rest[..j] + rest[j..] == rest;
        assert url[..i] + url[i..i + 3] == url[..i + 3];
        assert Compose(p) == url[..i] + url[i..i + 3] + url[i + 3..];
        Some(p)
      else None
    else None
  }

  /** `base_url`: `"#{uri.scheme}://#{uri.host}"`. */
  function BaseUrl(url: string): (r: Option<string>)
    ensures r.Some? <==> Parse(url).Some?
    ensures r.Some? ==> r.value <= url
    ensures r.Some? ==> var p := Parse(url).value; |r.value| == |p.scheme| + 3 + |p.host| && '/' !in r.value[|p.scheme| + 3..]
  {
    match Parse(url)
    case Some(p) => Some(p.scheme + "://" + p.host)
    case None => None
  }

  /** `endpoint_path`: `uri.path`. */
  function EndpointPath(url: string): (r: Option<string>)
    ensures r.Some? <==> Parse(url).Some?
    ensures r.Some? ==> IsPath(r.value) && |r.value| <= |url| && r.value == url[|url| - |r.value|..]
  {
    match Parse(url)
    case Some(p) => Some(p.path)
    case None => None
  }

  /** The first `c` of `a + b` lies in `b` when `a` has none. */
  lemma {:induction false} IndexOfAppend(a: string, b: string, c: char)
    requires forall k :: 0 <= k < |a| ==> a[k] != c
    ensures IndexOf(a + b, c) == |a| + IndexOf(b, c)
  {
    if a == [] {
      assert a + b == b;
    } else {
      assert (a + b)[0] == a[0];
      assert (a + b)[1..] == a[1..] + b;
      IndexOfAppend(a[1..], b, c);
    }
  }

  /** Parsing a composed URL gives back its parts. */
  lemma ParseCompose(p: Parts)
    requires Simple(p)
    ensures Parse(Compose(p)) == Some(p)
  {
    var url := Compose(p);
    var rest := p.host + p.path;
    assert url == p.scheme + ("://" + rest);
    IndexOfAppend(p.scheme, "://" + rest, ':');
    var i := IndexOf(url, ':');
    assert i == |p.scheme|;
    assert url[i..i + 3] == "://";
    assert url[i + 3..] == rest;
    IndexOfAppend(p.host, p.path, '/');
    var j := IndexOf(rest, '/');
    assert j == |p.host|;
    assert rest[..j] == p.host && rest[j..] == p.path;
    assert url[..i] == p.scheme;
  }

  /** For every URL of the modelled shape, `base_url(u) + endpoint_path(u) == u`,
      and the base part is `scheme://host`, which holds no path. */
  lemma SplitRoundTrip(url: string)
    requires Parse(url).Some?
    ensures BaseUrl(url).Some? && EndpointPath(url).Some?
    ensures BaseUrl(url).value + EndpointPath(url).value == url
    ensures '/' !in Parse(url).value.host
    ensures BaseUrl(url).value == Parse(url).value.scheme + "://" + Parse(url).value.host
  {
    var p := Parse(url).value;
    assert Compose(p) == (p.scheme + "://" + p.host) + p.path;
    assert forall k :: 0 <= k < |p.host| ==> IsHostChar(p.host[k]);
  }

  /** Splitting a composed URL gives its `scheme://host` and its path. */
  lemma SplitCompose(p: Parts)
    requires Simple(p)
    ensures BaseUrl(Compose(p)) == Some(p.scheme + "://" + p.host)
    ensures EndpointPath(Compose(p)) == Some(p.path)
  {
    ParseCompose(p);
  }
}

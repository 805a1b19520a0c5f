/**
 * A reader for absolute https URLs of the form
 *   https://<host>/<path>?<key>=<value>&<key>=<value>...
 * It is the independent reference against which the links built by the
 * magic-link service are checked: a property such as "exactly one
 * login_token parameter" is stated as what this reader finds in the link.
 * Nothing is percent-decoded, matching a service that inserts its values
 * verbatim.
 */
module UrlReader {
  import opened Wrappers

  /** One query parameter: the text before the first '=' and the text after it. */
  datatype Param = Param(key: string, value: string)

  /** What the reader finds in a URL: the host, the path (with its leading '/') and the query parameters in order. */
  datatype Url = Url(host: string, path: string, query: seq<Param>)

  const Scheme: string := "https://"

  /**
   * Cuts s at the first occurrence of c: the text before it and the text after it.
   * When c does not occur, the whole of s comes before and nothing after.
   */
  function CutAt(s: string, c: char): (r: (string, string))
    ensures c !in s ==> r == (s, "")
    ensures c in s ==> s == r.0 + [c] + r.1 && c !in r.0
    decreases |s|
  {
    if |s| == 0 then ("", "")
    else if s[0] == c then ("", s[1..])
    else
      var (before, after) := CutAt(s[1..], c);
      assert s == [s[0]] + s[1..];
      ([s[0]] + before, after)
  }

  /** Cutting a + [c] + b at c gives back a and b whenever c does not occur in a. */
  lemma {:induction false} CutAtJoin(a: string, c: char, b: string)
    requires c !in a
    ensures CutAt(a + [c] + b, c) == (a, b)
    decreases |a|
  {
    var s := a + [c] + b;
    if |a| == 0 {
      assert s == [c] + b;
      assert s[1..] == b;
    } else {
      assert s[0] == a[0] && s[0] != c;
      assert s[1..] == a[1..] + [c] + b;
      CutAtJoin(a[1..], c, b);
      assert [a[0]] + a[1..] == a;
    }
  }

  /** The pieces of s between the occurrences of c, in order; never empty. */
  function Split(s: string, c: char): (parts: seq<string>)
    ensures |parts| >= 1
    ensures c !in s ==> parts == [s]
    decreases |s|
  {
    if c !in s then [s]
    else
      var (before, after) := CutAt(s, c);
      [before] + Split(after, c)
  }

  /** Splitting a + [c] + b at c yields a followed by the pieces of b, whenever c does not occur in a. */
  lemma SplitJoin(a: string, c: char, b: string)
    requires c !in a
    ensures Split(a + [c] + b, c) == [a] + Split(b, c)
  {
    CutAtJoin(a, c, b);
    assert c in a + [c] + b by { assert (a + [c] + b)[|a|] == c; }
  }

  /** Reads one query parameter "key=value"; a parameter with no '=' has an empty value. */
  function ReadParam(p: string): (r: Param)
    ensures '=' !in p ==> r == Param(p, "")
    ensures '=' in p ==> p == r.key + "=" + r.value && '=' !in r.key
  {
    var (key, value) := CutAt(p, '=');
    Param(key, value)
  }

  function ReadParams(ps: seq<string>): (r: seq<Param>)
    ensures |r| == |ps|
  {
    if ps == [] then [] else [ReadParam(ps[0])] + ReadParams(ps[1..])
  }

  /** Reads a query string (the text after '?'); the empty query has no parameters. */
  function ReadQuery(q: string): seq<Param>
  {
    if q == "" then [] else ReadParams(Split(q, '&'))
  }

  /**
   * Reads an https URL: the host runs up to the first '/', a fragment starts
   * at the first '#' after it, the path runs up to the first '?' before the
   * fragment, and the query is what lies between that '?' and the fragment.
   * A URL with no path reads as path "/". Anything not starting with
   * "https://" is rejected.
   */
  function ParseHttpsUrl(s: string): (r: Option<Url>)
    ensures r.Some? <==> Scheme <= s
  {
    if !(Scheme <= s) then None
    else
      var (host, afterHost) := CutAt(s[|Scheme|..], '/');
      var (beforeFragment, _) := CutAt(afterHost, '#');
      var (path, query) := CutAt(beforeFragment, '?');
      Some(Url(host, "/" + path, ReadQuery(query)))
  }

  /** Reading the parameter written as key + "=" + value gives back key and value, for any key without '='. */
  lemma ReadParamJoin(key: string, value: string)
    requires '=' !in key
    ensures ReadParam(key + "=" + value) == Param(key, value)
  {
    assert key + "=" + value == key + ['='] + value;
    CutAtJoin(key, '=', value);
  }

  /**
   * Reading the URL written as https://host + path + "?" + query gives
   * back host, path and the parameters of query, for a host without '/'
   * and a path that starts with '/', with no '?' in the path and no '#' in
   * path or query.
   */
  lemma ParseHttpsUrlJoin(host: string, path: string, query: string)
    requires '/' !in host
    requires |path| >= 1 && path[0] == '/' && '?' !in path && '#' !in path && '#' !in query
    ensures ParseHttpsUrl(Scheme + host + path + "?" + query) == Some(Url(host, path, ReadQuery(query)))
  {
    var s := Scheme + host + path + "?" + query;
    var rest := path[1..] + "?" + query;
    AfterSchemeCut(host, path, "?" + query);
    assert s == Scheme + host + path + ("?" + query);
    assert host + path + ("?" + query) == s[|Scheme|..];
    assert path[1..] + ("?" + query) == rest;
    assert CutAt(s[|Scheme|..], '/') == (host, rest);
    assert '#' !in rest by { assert '#' !in path[1..]; }
    assert CutAt(rest, '#') == (rest, "");
    PathCut(path, query);
    assert CutAt(rest, '?') == (path[1..], query);
  }

  /**
   * A fragment ends the query: reading https://host + path + "?" + query +
   * "#" + fragment gives the parameters of query alone, under the same
   * conditions on host, path and query.
   */
  lemma ParseHttpsUrlFragment(host: string, path: string, query: string, fragment: string)
    requires '/' !in host
    requires |path| >= 1 && path[0] == '/' && '?' !in path && '#' !in path && '#' !in query
    ensures ParseHttpsUrl(Scheme + host + path + "?" + query + "#" + fragment)
      == Some(Url(host, path, ReadQuery(query)))
  {
    var s := Scheme + host + path + "?" + query + "#" + fragment;
    var tail := "?" + query + "#" + fragment;
    var rest := path[1..] + "?" + query;
    AfterSchemeCut(host, path, tail);
    assert s == Scheme + host + path + tail;
    assert host + path + tail == s[|Scheme|..];
    assert path[1..] + tail == rest + ['#'] + fragment;
    assert CutAt(s[|Scheme|..], '/') == (host, rest + ['#'] + fragment);
    assert '#' !in rest by { assert '#' !in path[1..]; }
    CutAtJoin(rest, '#', fragment);
    PathCut(path, query);
    assert CutAt(rest, '?') == (path[1..], query);
  }

  /** What follows the scheme, and its cut at the first '/', for a host without '/' and a path from '/'. */
  lemma AfterSchemeCut(host: string, path: string, tail: string)
    requires '/' !in host
    requires |path| >= 1 && path[0] == '/'
    ensures Scheme <= Scheme + host + path + tail
    ensures (Scheme + host + path + tail)[|Scheme|..] == host + path + tail
    ensures CutAt(host + path + tail, '/') == (host, path[1..] + tail)
  {
    var s := Scheme + host + path + tail;
    assert s == Scheme + (host + path + tail);
    assert host + path + tail == host + ['/'] + (path[1..] + tail) by {
      assert path == ['/'] + path[1..];
    }
    CutAtJoin(host, '/', path[1..] + tail);
  }

  lemma PathCut(path: string, query: string)
    requires |path| >= 1 && path[0] == '/' && '?' !in path
    ensures "/" + path[1..] == path
    ensures CutAt(path[1..] + "?" + query, '?') == (path[1..], query)
  {
    assert path == ['/'] + path[1..];
    assert '?' !in path[1..];
    assert path[1..] + "?" + query == path[1..] + ['?'] + query;
    CutAtJoin(path[1..], '?', query);
  }

  /** Reading an https URL with no '?' gives its host, its path and no parameters. */
  lemma ParseHttpsUrlNoQuery(host: string, path: string)
    requires '/' !in host
    requires |path| >= 1 && path[0] == '/' && '?' !in path && '#' !in path
    ensures ParseHttpsUrl(Scheme + host + path) == Some(Url(host, path, []))
  {
    AfterSchemeCut(host, path, "");
    assert Scheme + host + path + "" == Scheme + host + path;
    assert host + path + "" == host + path;
    assert path[1..] + "" == path[1..];
    assert '?' !in path[1..] && '#' !in path[1..];
    assert "/" + path[1..] == path;
  }

  /** The values of the parameters named key, in the order they occur. */
  function ValuesOf(ps: seq<Param>, key: string): (values: seq<string>)
  {
    if ps == [] then []
    else (if ps[0].key == key then [ps[0].value] else []) + ValuesOf(ps[1..], key)
  }

  /** The values written as a query, parameter after parameter, joined with '&'. */
  function WriteQuery(ps: seq<Param>): (query: string)
  {
    if ps == [] then ""
    else if |ps| == 1 then ps[0].key + "=" + ps[0].value
    else ps[0].key + "=" + ps[0].value + "&" + WriteQuery(ps[1..])
  }

  /**
   * Parameters that can be written into a query and read back: no key holds
   * '=' or '&', no value holds '&', and neither holds '#'.
   */
  predicate ParamsWellFormed(ps: seq<Param>)
  {
    forall i :: 0 <= i < |ps| ==>
      '=' !in ps[i].key && '&' !in ps[i].key && '&' !in ps[i].value && '#' !in ps[i].key && '#' !in ps[i].value
  }

  /** A query written from parameters without '#' has no '#'. */
  lemma {:induction false} WriteQueryNoFragment(ps: seq<Param>)
    requires forall i :: 0 <= i < |ps| ==> '#' !in ps[i].key && '#' !in ps[i].value
    ensures '#' !in WriteQuery(ps)
    decreases |ps|
  {
    if |ps| > 1 {
      WriteQueryNoFragment(ps[1..]);
    }
  }

  /** Writing a query and reading it back gives the parameters written. */
  lemma {:induction false} ReadWriteQuery(ps: seq<Param>)
    requires ParamsWellFormed(ps)
    ensures ReadQuery(WriteQuery(ps)) == ps
  {
    if ps != [] {
      ReadWriteParams(ps);
      var q := WriteQuery(ps);
      assert q[|ps[0].key|] == '=';
    }
  }

  lemma {:induction false} ReadWriteParams(ps: seq<Param>)
    requires ParamsWellFormed(ps)
    requires ps != []
    ensures ReadParams(Split(WriteQuery(ps), '&')) == ps
    decreases |ps|
  {
    var p := ps[0].key + "=" + ps[0].value;
    assert '&' !in p;
    ReadParamJoin(ps[0].key, ps[0].value);
    if |ps| == 1 {
      assert Split(p, '&') == [p];
    } else {
      SplitJoin(p, '&', WriteQuery(ps[1..]));
      assert WriteQuery(ps) == p + ['&'] + WriteQuery(ps[1..]);
      ReadWriteParams(ps[1..]);
      assert Split(WriteQuery(ps), '&') == [p] + Split(WriteQuery(ps[1..]), '&');
      assert ReadParams(Split(WriteQuery(ps), '&'))[1..] == ReadParams(Split(WriteQuery(ps[1..]), '&'));
    }
  }

  /** An https URL as text: the query, when there is one, follows a '?'. */
  function WriteUrl(u: Url): (text: string)
  {
    Scheme + u.host + u.path + (if u.query == [] then "" else "?" + WriteQuery(u.query))
  }

  /** A URL that reads back as itself: a host without '/', a path from '/' without '?' or '#', well-formed parameters. */
  predicate UrlWellFormed(u: Url)
  {
    && '/' !in u.host
    && |u.path| >= 1 && u.path[0] == '/' && '?' !in u.path && '#' !in u.path
    && ParamsWellFormed(u.query)
  }

  /** Reading a written URL gives back that URL. */
  lemma WriteUrlRoundTrip(u: Url)
    requires UrlWellFormed(u)
    ensures ParseHttpsUrl(WriteUrl(u)) == Some(u)
  {
    if u.query == [] {
      assert WriteUrl(u) == Scheme + u.host + u.path;
      ParseHttpsUrlNoQuery(u.host, u.path);
    } else {
      assert WriteUrl(u) == Scheme + u.host + u.path + "?" + WriteQuery(u.query);
      WriteQueryNoFragment(u.query);
      ParseHttpsUrlJoin(u.host, u.path, WriteQuery(u.query));
      ReadWriteQuery(u.query);
    }
  }

  /** Any text equal to a written well-formed URL reads as that URL. */
  lemma ReadsAs(s: string, u: Url)
    requires UrlWellFormed(u) && s == WriteUrl(u)
    ensures ParseHttpsUrl(s) == Some(u)
  {
    WriteUrlRoundTrip(u);
  }

  lemma ValuesOfCons(p: Param, ps: seq<Param>, key: string)
    ensures ValuesOf([p] + ps, key) == (if p.key == key then [p.value] else []) + ValuesOf(ps, key)
  {
    assert ([p] + ps)[1..] == ps;
  }
}

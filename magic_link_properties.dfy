/**
 * Properties of the magic links and of the effects of the wrappers:
 * the exact forms of the links, what a URL reader finds in them, and which
 * effects a wrapper call has, in which order, on success and on failure.
 */
module MagicLinkProperties {
  import opened Wrappers
  import opened UrlReader
  import opened MagicLink

  // ---------------------------------------------------------------- exact forms

  /** The multistream link is the content-hub article with the token, whatever the source. */
  lemma MultistreamLinkExact(host: string, token: string, source: Option<string>)
    ensures DashboardLink(host, token, MultistreamSubPage, source)
      == "https://" + host + ContentHubPath + "?login_token=" + token
    ensures DashboardLink(host, token, MultistreamSubPage, source) == DashboardLink(host, token, MultistreamSubPage, None)
  {
  }

  /** Any other subPage gives the dashboard link, the subPage and a truthy source inserted verbatim. */
  lemma GenericLinkExact(host: string, token: string, subPage: string, source: Option<string>)
    requires subPage != MultistreamSubPage
    ensures Truthy(source) ==>
      DashboardLink(host, token, subPage, source)
        == "https://" + host + DashboardPath + "?login_token=" + token + "&r=" + subPage + "&refl=" + source.value
    ensures !Truthy(source) ==>
      DashboardLink(host, token, subPage, source)
        == "https://" + host + DashboardPath + "?login_token=" + token + "&r=" + subPage
  {
  }

  // ---------------------------------------------------------------- the links as URLs

  /** A host as the host resolver supplies it: a bare domain, so none of '/', '?' and '#' occur in it. */
  predicate BareHost(host: string)
  {
    '/' !in host && '?' !in host && '#' !in host
  }

  /** The parameters of a dashboard link: the token, the subPage as r, and a truthy source as refl. */
  function DashboardParams(token: string, subPage: string, source: Option<string>): (params: seq<Param>)
  {
    [Param("login_token", token), Param("r", subPage)] + (if Truthy(source) then [Param("refl", source.value)] else [])
  }

  /** The token request URL is the login-token endpoint of the host, with no query. */
  lemma TokenRequestUrlReads(host: string)
    requires BareHost(host)
    ensures TokenRequestUrl(host) == WriteUrl(Url(host, TokenPath, []))
    ensures ParseHttpsUrl(TokenRequestUrl(host)) == Some(Url(host, TokenPath, []))
  {
    WriteUrlRoundTrip(Url(host, TokenPath, []));
  }

  /** The multistream link is the content-hub URL whose only parameter is the token. */
  lemma MultistreamLinkShape(host: string, token: string, source: Option<string>)
    ensures DashboardLink(host, token, MultistreamSubPage, source)
      == WriteUrl(Url(host, ContentHubPath, [Param("login_token", token)]))
  {
    assert "?login_token=" == "?" + "login_token" + "=";
  }

  /** A dashboard link is the dashboard URL with the token, r and, for a truthy source, refl. */
  lemma GenericLinkShape(host: string, token: string, subPage: string, source: Option<string>)
    requires subPage != MultistreamSubPage
    ensures DashboardLink(host, token, subPage, source)
      == WriteUrl(Url(host, DashboardPath, DashboardParams(token, subPage, source)))
  {
    var base := "https://" + host + DashboardPath;
    var ps := DashboardParams(token, subPage, source);
    var tokenParam := "login_token" + "=" + token;
    var rParam := "r" + "=" + subPage;
    assert WriteUrl(Url(host, DashboardPath, ps)) == base + "?" + WriteQuery(ps);
    assert "?login_token=" == "?" + "login_token=" && "login_token=" == "login_token" + "=";
    assert "&r=" == "&" + "r=" && "r=" == "r" + "=";
    if Truthy(source) {
      var v := source.value;
      assert ps == [Param("login_token", token), Param("r", subPage), Param("refl", v)];
      assert ps[1..][1..] == [Param("refl", v)];
      assert "&refl=" == "&" + "refl=" && "refl=" == "refl" + "=";
      assert WriteQuery(ps[1..]) == rParam + "&" + ("refl" + "=" + v);
      assert WriteQuery(ps) == tokenParam + "&" + WriteQuery(ps[1..]);
      assert DashboardLink(host, token, subPage, source)
        == base + "?login_token=" + token + "&r=" + subPage + "&refl=" + v;
      Regroup(base, "?", "login_token=", token, "&", "r=", subPage, "refl=", v);
    } else {
      assert ps == [Param("login_token", token), Param("r", subPage)];
      assert ps[1..] == [Param("r", subPage)];
      assert WriteQuery(ps) == tokenParam + "&" + rParam;
      assert DashboardLink(host, token, subPage, source) == base + "?login_token=" + token + "&r=" + subPage;
      Regroup(base, "?", "login_token=", token, "&", "r=", subPage, "", "");
    }
  }

  /** Regrouping of the pieces of a dashboard link. */
  lemma Regroup(base: string, q: string, k: string, token: string, amp: string, r: string, subPage: string, f: string, v: string)
    ensures base + (q + k) + token + (amp + r) + subPage + (amp + f) + v
      == base + q + (k + token + amp + (r + subPage + amp + (f + v)))
    ensures base + (q + k) + token + (amp + r) + subPage == base + q + (k + token + amp + (r + subPage))
  {
  }

  /** Read back, the multistream link carries the token as its only parameter: no r and no refl. */
  lemma MultistreamLinkReads(host: string, token: string, subPage: string, source: Option<string>)
    requires BareHost(host) && '&' !in token && '#' !in token
    requires subPage == MultistreamSubPage
    ensures ParseHttpsUrl(DashboardLink(host, token, subPage, source))
      == Some(Url(host, ContentHubPath, [Param("login_token", token)]))
  {
    var u := Url(host, ContentHubPath, [Param("login_token", token)]);
    ContentHubUrlWellFormed(host, token);
    MultistreamLinkShape(host, token, source);
    ReadsAs(DashboardLink(host, token, subPage, source), u);
  }

  lemma ContentHubUrlWellFormed(host: string, token: string)
    requires BareHost(host) && '&' !in token && '#' !in token
    ensures UrlWellFormed(Url(host, ContentHubPath, [Param("login_token", token)]))
  {
    PathsPlain();
    var ps := [Param("login_token", token)];
    assert ParamsWellFormed(ps) by {
      assert '=' !in "login_token" && '&' !in "login_token" && '#' !in "login_token";
    }
  }

  /** The fixed paths start with '/' and hold neither '?' nor '#'. */
  lemma PathsPlain()
    ensures ContentHubPath[0] == '/' && '?' !in ContentHubPath && '#' !in ContentHubPath
    ensures DashboardPath[0] == '/' && '?' !in DashboardPath && '#' !in DashboardPath
  {
    assert ContentHubPath[0] == '/';
    assert '?' !in ContentHubPath;
    assert '#' !in ContentHubPath;
  }

  /**
   * Read back, any other link goes to the dashboard and carries, in this
   * order, the token, the subPage as r, and the source as refl exactly when
   * the source is truthy.
   */
  lemma GenericLinkReads(host: string, token: string, subPage: string, source: Option<string>)
    requires BareHost(host) && '&' !in token && '&' !in subPage && '#' !in token && '#' !in subPage
    requires source.Some? ==> '&' !in source.value && '#' !in source.value
    requires subPage != MultistreamSubPage
    ensures ParseHttpsUrl(DashboardLink(host, token, subPage, source))
      == Some(Url(host, DashboardPath, DashboardParams(token, subPage, source)))
  {
    var u := Url(host, DashboardPath, DashboardParams(token, subPage, source));
    DashboardUrlWellFormed(host, token, subPage, source);
    GenericLinkShape(host, token, subPage, source);
    ReadsAs(DashboardLink(host, token, subPage, source), u);
  }

  /** The parameter values of a dashboard link: one token, one r, and a refl only for a truthy source. */
  lemma DashboardParamValues(token: string, subPage: string, source: Option<string>)
    ensures ValuesOf(DashboardParams(token, subPage, source), "login_token") == [token]
    ensures ValuesOf(DashboardParams(token, subPage, source), "r") == [subPage]
    ensures ValuesOf(DashboardParams(token, subPage, source), "refl") == (if Truthy(source) then [source.value] else [])
  {
    var refl := if Truthy(source) then [Param("refl", source.value)] else [];
    assert DashboardParams(token, subPage, source) == [Param("login_token", token)] + ([Param("r", subPage)] + refl);
    assert "login_token" != "r" && "login_token" != "refl" && "r" != "refl" by {
      assert |"login_token"| == 11 && |"r"| == 1 && |"refl"| == 4;
    }
    forall key | key in {"login_token", "r", "refl"}
      ensures ValuesOf(DashboardParams(token, subPage, source), key)
        == (if key == "login_token" then [token] else [])
           + (if key == "r" then [subPage] else [])
           + ValuesOf(refl, key)
    {
      ValuesOfCons(Param("login_token", token), [Param("r", subPage)] + refl, key);
      ValuesOfCons(Param("r", subPage), refl, key);
    }
    if Truthy(source) {
      ValuesOfCons(Param("refl", source.value), [], "login_token");
      ValuesOfCons(Param("refl", source.value), [], "r");
      ValuesOfCons(Param("refl", source.value), [], "refl");
      assert [Param("refl", source.value)] + [] == refl;
    }
  }

  /** The parameter values of the multistream link: one token, no r and no refl. */
  lemma ContentHubParamValues(token: string)
    ensures ValuesOf([Param("login_token", token)], "login_token") == [token]
    ensures ValuesOf([Param("login_token", token)], "r") == []
    ensures ValuesOf([Param("login_token", token)], "refl") == []
  {
    assert [Param("login_token", token)][1..] == [];
  }

  lemma DashboardUrlWellFormed(host: string, token: string, subPage: string, source: Option<string>)
    requires BareHost(host) && '&' !in token && '&' !in subPage && '#' !in token && '#' !in subPage
    requires source.Some? ==> '&' !in source.value && '#' !in source.value
    ensures UrlWellFormed(Url(host, DashboardPath, DashboardParams(token, subPage, source)))
  {
    PathsPlain();
    var ps := DashboardParams(token, subPage, source);
    assert '=' !in "login_token" && '&' !in "login_token" && '#' !in "login_token";
    assert '=' !in "refl" && '&' !in "refl" && '#' !in "refl";
    if Truthy(source) {
      assert ps == [Param("login_token", token), Param("r", subPage), Param("refl", source.value)];
    } else {
      assert ps == [Param("login_token", token), Param("r", subPage)];
    }
  }

  /**
   * Every link has exactly one login_token parameter, the token; a dashboard
   * link has exactly one r parameter, the subPage, and a refl parameter only
   * for a truthy source; the multistream link has neither r nor refl.
   */
  lemma LinkParameters(host: string, token: string, subPage: string, source: Option<string>)
    requires BareHost(host) && '&' !in token && '&' !in subPage && '#' !in token && '#' !in subPage
    requires source.Some? ==> '&' !in source.value && '#' !in source.value
    ensures ParseHttpsUrl(DashboardLink(host, token, subPage, source)).Some?
    ensures var query := ParseHttpsUrl(DashboardLink(host, token, subPage, source)).value.query;
      && ValuesOf(query, "login_token") == [token]
      && (subPage == MultistreamSubPage ==> ValuesOf(query, "r") == [] && ValuesOf(query, "refl") == [])
      && (subPage != MultistreamSubPage ==>
            ValuesOf(query, "r") == [subPage]
            && ValuesOf(query, "refl") == (if Truthy(source) then [source.value] else []))
  {
    if subPage == MultistreamSubPage {
      MultistreamLinkReads(host, token, subPage, source);
      ContentHubParamValues(token);
    } else {
      GenericLinkReads(host, token, subPage, source);
      DashboardParamValues(token, subPage, source);
    }
  }

  // ---------------------------------------------------------------- scenarios

  /** The default subPage and no source: the link ends in an empty r parameter. */
  lemma DefaultLinkExample()
    ensures DashboardLink("streamlabs.com", "abc123")
      == "https://streamlabs.com" + "/slobs/magic/dashboard" + "?login_token=abc123" + "&r="
  {
  }

  lemma PrimeLinkExample()
    ensures DashboardLink("streamlabs.com", "abc123", PrimeSubPage, Some("menu"))
      == "https://streamlabs.com" + "/slobs/magic/dashboard" + "?login_token=abc123" + "&r=prime&refl=menu"
  {
  }

  /** An empty source is falsy: no refl parameter, not even an empty one. */
  lemma EmptySourceExample()
    ensures DashboardLink("streamlabs.com", "abc123", PrimeSubPage, Some(""))
      == DashboardLink("streamlabs.com", "abc123", PrimeSubPage, None)
  {
  }

  lemma MultistreamLinkExample()
    ensures ParseHttpsUrl(DashboardLink("streamlabs.com", "abc123", MultistreamSubPage, Some("menu")))
      == Some(Url("streamlabs.com", ContentHubPath, [Param("login_token", "abc123")]))
  {
    MultistreamLinkReads("streamlabs.com", "abc123", MultistreamSubPage, Some("menu"));
  }

  /**
   * The source is inserted without encoding: a source of the form
   * before&key=value reads back as a refl parameter holding only before,
   * followed by a parameter of its own, key=value.
   */
  lemma SourceIsNotEncoded(host: string, token: string, subPage: string, before: string, key: string, value: string)
    requires BareHost(host) && '&' !in token && '&' !in subPage && subPage != MultistreamSubPage
    requires '#' !in token && '#' !in subPage
    requires '&' !in before && '&' !in key && '=' !in key && '&' !in value
    requires '#' !in before && '#' !in key && '#' !in value
    ensures ParseHttpsUrl(DashboardLink(host, token, subPage, Some(before + "&" + key + "=" + value)))
      == Some(Url(host, DashboardPath,
                  [Param("login_token", token), Param("r", subPage), Param("refl", before), Param(key, value)]))
  {
    var source := Some(before + "&" + key + "=" + value);
    var ps := [Param("login_token", token), Param("r", subPage), Param("refl", before), Param(key, value)];
    var u := Url(host, DashboardPath, ps);
    InjectedQuery(token, subPage, before, key, value);
    GenericLinkShape(host, token, subPage, source);
    assert WriteUrl(Url(host, DashboardPath, DashboardParams(token, subPage, source))) == WriteUrl(u);
    InjectedUrlWellFormed(host, token, subPage, before, key, value);
    ReadsAs(DashboardLink(host, token, subPage, source), u);
  }

  /** The query written from the parameters of such a link equals the query written from the four parameters read back. */
  lemma InjectedQuery(token: string, subPage: string, before: string, key: string, value: string)
    ensures WriteQuery(DashboardParams(token, subPage, Some(before + "&" + key + "=" + value)))
         == WriteQuery([Param("login_token", token), Param("r", subPage), Param("refl", before), Param(key, value)])
  {
    var source := before + "&" + key + "=" + value;
    var three := DashboardParams(token, subPage, Some(source));
    var four := [Param("login_token", token), Param("r", subPage), Param("refl", before), Param(key, value)];
    assert three == [Param("login_token", token), Param("r", subPage), Param("refl", source)];
    assert three[1..][1..] == [Param("refl", source)];
    assert four[1..][1..][1..] == [Param(key, value)];
    var tail3 := WriteQuery(three[1..][1..]);
    var tail4 := WriteQuery(four[1..][1..]);
    assert tail3 == "refl" + "=" + source;
    assert WriteQuery(four[1..][1..][1..]) == key + "=" + value;
    assert tail4 == "refl" + "=" + before + "&" + (key + "=" + value);
    assert tail3 == tail4;
    assert WriteQuery(three[1..]) == WriteQuery(four[1..]);
    assert WriteQuery(three) == WriteQuery(four);
  }

  lemma InjectedUrlWellFormed(host: string, token: string, subPage: string, before: string, key: string, value: string)
    requires BareHost(host) && '&' !in token && '&' !in subPage && '#' !in token && '#' !in subPage
    requires '&' !in before && '&' !in key && '=' !in key && '&' !in value
    requires '#' !in before && '#' !in key && '#' !in value
    ensures UrlWellFormed(Url(host, DashboardPath,
                              [Param("login_token", token), Param("r", subPage), Param("refl", before), Param(key, value)]))
  {
  }

  /** For instance, the referral tag "menu&r=x" gives the prime link a second r parameter. */
  lemma SourceIsNotEncodedExample()
    ensures ParseHttpsUrl(DashboardLink("streamlabs.com", "abc123", PrimeSubPage, Some("menu&r=x"))).value.query
      == [Param("login_token", "abc123"), Param("r", "prime"), Param("refl", "menu"), Param("r", "x")]
  {
    assert "menu&r=x" == "menu" + "&" + "r" + "=" + "x";
    SourceIsNotEncoded("streamlabs.com", "abc123", PrimeSubPage, "menu", "r", "x");
  }

  /**
   * The subPage is not encoded either: a '#' in it starts the fragment, so
   * the link reads back with r holding only what precedes the '#' and with
   * no refl parameter, whatever the source.
   */
  lemma SubPageFragment(host: string, token: string, before: string, after: string, source: Option<string>)
    requires BareHost(host) && '&' !in token && '#' !in token && '&' !in before && '#' !in before
    ensures ParseHttpsUrl(DashboardLink(host, token, before + "#" + after, source))
      == Some(Url(host, DashboardPath, [Param("login_token", token), Param("r", before)]))
  {
    var ps := [Param("login_token", token), Param("r", before)];
    SubPageFragmentShape(host, token, before, after, source);
    assert '#' !in WriteQuery(ps) by {
      WriteQueryNoFragment(ps);
    }
    assert ParamsWellFormed(ps) by {
      assert '=' !in "login_token" && '&' !in "login_token" && '#' !in "login_token";
    }
    PathsPlain();
    ParseHttpsUrlFragment(host, DashboardPath, WriteQuery(ps), after + SourceString(source));
    ReadWriteQuery(ps);
  }

  /** Such a link is the dashboard URL with the token and r=before, followed by the fragment '#' + after + the suffix. */
  lemma SubPageFragmentShape(host: string, token: string, before: string, after: string, source: Option<string>)
    ensures DashboardLink(host, token, before + "#" + after, source)
      == Scheme + host + DashboardPath + "?" + WriteQuery([Param("login_token", token), Param("r", before)])
         + "#" + (after + SourceString(source))
  {
    var subPage := before + "#" + after;
    assert subPage != MultistreamSubPage by {
      assert subPage[|before|] == '#';
      assert '#' !in MultistreamSubPage;
    }
    var ps := [Param("login_token", token), Param("r", before)];
    assert ps[1..] == [Param("r", before)];
    assert WriteQuery(ps[1..]) == "r" + "=" + before;
    assert WriteQuery(ps) == "login_token" + "=" + token + "&" + ("r" + "=" + before);
    assert "?login_token=" == "?" + "login_token=" && "login_token=" == "login_token" + "=";
    assert "&r=" == "&" + "r=" && "r=" == "r" + "=";
    var base := "https://" + host + DashboardPath;
    assert DashboardLink(host, token, subPage, source)
      == base + "?login_token=" + token + "&r=" + (before + "#" + after) + SourceString(source);
    RegroupFragment(base, "?", "login_token=", token, "&", "r=", before, after, SourceString(source));
  }

  /** Regrouping of the pieces of a dashboard link whose subPage holds a '#'. */
  lemma RegroupFragment(base: string, q: string, k: string, token: string, amp: string, r: string,
                        before: string, after: string, tail: string)
    ensures base + (q + k) + token + (amp + r) + (before + "#" + after) + tail
      == base + q + (k + token + amp + (r + before)) + "#" + (after + tail)
  {
  }

  /** For instance, subPage "a#b" with source "menu" reads back as r=a and no refl. */
  lemma SubPageFragmentExample()
    ensures ParseHttpsUrl(DashboardLink("streamlabs.com", "abc123", "a#b", Some("menu"))).value.query
      == [Param("login_token", "abc123"), Param("r", "a")]
  {
    assert "a#b" == "a" + "#" + "b";
    SubPageFragment("streamlabs.com", "abc123", "a", "b", Some("menu"));
  }

  // ---------------------------------------------------------------- effects

  /** The URLs handed to the browser, in order. */
  function Opens(log: seq<Effect>): (entries: seq<string>)
  {
    if log == [] then []
    else (if log[0].Opened? then [log[0].url] else []) + Opens(log[1..])
  }

  /** The usage events recorded, in order. */
  function Records(log: seq<Effect>): (entries: seq<string>)
  {
    if log == [] then []
    else (if log[0].Recorded? then [log[0].event] else []) + Records(log[1..])
  }

  /** The token requests issued, in order. */
  function Requests(log: seq<Effect>): (entries: seq<string>)
  {
    if log == [] then []
    else (if log[0].TokenRequested? then [log[0].url] else []) + Requests(log[1..])
  }

  /** The opens, records and requests of two logs in sequence are those of the first followed by those of the second. */
  lemma {:induction false} ProjectionsAppend(a: seq<Effect>, b: seq<Effect>)
    ensures Opens(a + b) == Opens(a) + Opens(b)
    ensures Records(a + b) == Records(a) + Records(b)
    ensures Requests(a + b) == Requests(a) + Requests(b)
  {
    if a == [] {
      assert a + b == b;
    } else {
      assert (a + b)[0] == a[0];
      assert (a + b)[1..] == a[1..] + b;
      ProjectionsAppend(a[1..], b);
    }
  }

  /** The opens, records and requests of a single effect. */
  lemma ProjectionsOne(e: Effect)
    ensures Opens([e]) == (if e.Opened? then [e.url] else [])
    ensures Records([e]) == (if e.Recorded? then [e.event] else [])
    ensures Requests([e]) == (if e.TokenRequested? then [e.url] else [])
  {
    assert [e][1..] == [];
  }

  /** Every wrapper call issues exactly one token request, to the token endpoint, before anything else. */
  lemma OneTokenRequestPerCall(host: string, apiToken: string, reply: FetchOutcome, subPage: string,
                               source: Option<string>, usage: Option<string>)
    ensures var log := OpenEffects(host, apiToken, reply, subPage, source, usage);
      log[0] == TokenRequested(TokenRequestUrl(host), apiToken) && Requests(log) == [TokenRequestUrl(host)]
  {
    if reply.Failure? {
      FetchFailureIsSilent(host, apiToken, reply, subPage, source, usage);
    } else {
      FetchSuccessOpensOnce(host, apiToken, reply, subPage, source, usage);
    }
  }

  /** A failed token request is silent: only the error line follows it, nothing is opened and nothing recorded. */
  lemma FetchFailureIsSilent(host: string, apiToken: string, reply: FetchOutcome, subPage: string,
                             source: Option<string>, usage: Option<string>)
    requires reply.Failure?
    ensures var log := OpenEffects(host, apiToken, reply, subPage, source, usage);
      && log == [TokenRequested(TokenRequestUrl(host), apiToken), ErrorLogged(reply.error)]
      && Opens(log) == [] && Records(log) == [] && Requests(log) == [TokenRequestUrl(host)]
  {
    var request := TokenRequested(TokenRequestUrl(host), apiToken);
    var failure := ErrorLogged(reply.error);
    assert OpenEffects(host, apiToken, reply, subPage, source, usage) == [request] + [failure];
    ProjectionsAppend([request], [failure]);
    ProjectionsOne(request);
    ProjectionsOne(failure);
  }

  /**
   * A successful token request opens the link built from its token exactly
   * once, and then records the wrapper's usage event, if it has one, exactly once.
   */
  lemma FetchSuccessOpensOnce(host: string, apiToken: string, reply: FetchOutcome, subPage: string,
                              source: Option<string>, usage: Option<string>)
    requires reply.Success?
    ensures var log := OpenEffects(host, apiToken, reply, subPage, source, usage);
      var link := DashboardLink(host, reply.value.loginToken, subPage, source);
      && log == [TokenRequested(TokenRequestUrl(host), apiToken), Opened(link)]
                + (if usage.Some? then [Recorded(usage.value)] else [])
      && Opens(log) == [link]
      && Records(log) == (if usage.Some? then [usage.value] else [])
      && Requests(log) == [TokenRequestUrl(host)]
  {
    var request := TokenRequested(TokenRequestUrl(host), apiToken);
    var open := Opened(DashboardLink(host, reply.value.loginToken, subPage, source));
    var record: seq<Effect> := if usage.Some? then [Recorded(usage.value)] else [];
    assert OpenEffects(host, apiToken, reply, subPage, source, usage) == [request] + ([open] + record);
    ProjectionsAppend([request], [open] + record);
    ProjectionsAppend([open], record);
    ProjectionsOne(request);
    ProjectionsOne(open);
    if usage.Some? {
      ProjectionsOne(Recorded(usage.value));
    }
  }

  /**
   * The four wrappers on a successful fetch: each opens its own destination;
   * linkToPrime and openWidgetThemesMagicLink record nothing, the other two
   * record the event named after them after the open.
   */
  lemma WrapperEffects(host: string, apiToken: string, reply: FetchOutcome, refl: string)
    requires reply.Success?
    ensures var token := reply.value.loginToken;
      var request := TokenRequested(TokenRequestUrl(host), apiToken);
      && OpenEffects(host, apiToken, reply, PrimeSubPage, Some(refl), None)
           == [request, Opened(DashboardLink(host, token, "prime", Some(refl)))]
      && OpenEffects(host, apiToken, reply, WidgetThemesSubPage, None, None)
           == [request, Opened(DashboardLink(host, token, "widgetthemes"))]
      && OpenEffects(host, apiToken, reply, DonationSettingsSubPage, None, Some(DonationSettingsEvent))
           == [request, Opened(DashboardLink(host, token, "settings/donation-settings")), Recorded("openDonationSettings")]
      && OpenEffects(host, apiToken, reply, AdvancedTestingSubPage, None, Some(AdvancedAlertTestingEvent))
           == [request, Opened(DashboardLink(host, token, "advancedtesting")), Recorded("openAdvancedAlertTesting")]
  {
  }

  /**
   * Two wrapper calls in a row, each with its own subPage, source and usage
   * event, issue two token requests, whatever their replies: no token is cached.
   */
  lemma TwoCallsRequestTwice(host: string, apiToken: string, first: FetchOutcome, second: FetchOutcome,
                             subPage1: string, source1: Option<string>, usage1: Option<string>,
                             subPage2: string, source2: Option<string>, usage2: Option<string>)
    ensures Requests(OpenEffects(host, apiToken, first, subPage1, source1, usage1)
                     + OpenEffects(host, apiToken, second, subPage2, source2, usage2))
      == [TokenRequestUrl(host), TokenRequestUrl(host)]
  {
    ProjectionsAppend(OpenEffects(host, apiToken, first, subPage1, source1, usage1),
                      OpenEffects(host, apiToken, second, subPage2, source2, usage2));
    OneTokenRequestPerCall(host, apiToken, first, subPage1, source1, usage1);
    OneTokenRequestPerCall(host, apiToken, second, subPage2, source2, usage2);
  }

  /**
   * When both of two wrapper calls in a row succeed, they open two links, each
   * built from its own arguments and the token of its own reply: no token is reused.
   */
  lemma TwoCallsOpenOwnTokens(host: string, apiToken: string, first: FetchOutcome, second: FetchOutcome,
                              subPage1: string, source1: Option<string>, usage1: Option<string>,
                              subPage2: string, source2: Option<string>, usage2: Option<string>)
    requires first.Success? && second.Success?
    ensures Opens(OpenEffects(host, apiToken, first, subPage1, source1, usage1)
                  + OpenEffects(host, apiToken, second, subPage2, source2, usage2))
      == [DashboardLink(host, first.value.loginToken, subPage1, source1),
          DashboardLink(host, second.value.loginToken, subPage2, source2)]
  {
    ProjectionsAppend(OpenEffects(host, apiToken, first, subPage1, source1, usage1),
                      OpenEffects(host, apiToken, second, subPage2, source2, usage2));
    FetchSuccessOpensOnce(host, apiToken, first, subPage1, source1, usage1);
    FetchSuccessOpensOnce(host, apiToken, second, subPage2, source2, usage2);
  }
}

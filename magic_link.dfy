/**
 * The magic-link service: it trades the signed-in user's API token for a
 * short-lived login token and builds a dashboard URL that carries it.
 *
 * The link builders are functions. The service object is a class whose
 * only state is the log of effects it has caused, in order: token
 * requests, browser opens, usage records and error log lines. The
 * outcome of each token request is a parameter of the call that issues it,
 * so every call issues exactly one request and gets exactly one reply.
 */
module MagicLink {
  import opened Wrappers

  /** The subPage that is routed to the content-hub article instead of the dashboard. */
  const MultistreamSubPage: string := "multistream"
  /** "/content-hub/post/how-to-multistream-the-ultimate-guide-to-multistreaming", written in short pieces the verifier can read. */
  const ContentHubPath: string := "/content-hub/post/" + "how-to-multistream-" + "the-ultimate-guide-" + "to-multistreaming"
  const DashboardPath: string := "/slobs/magic/dashboard"
  const TokenPath: string := "/api/v5/slobs/login/token"

  /** The subPage literals the four wrappers pass. */
  const PrimeSubPage: string := "prime"
  const WidgetThemesSubPage: string := "widgetthemes"
  const DonationSettingsSubPage: string := "settings/donation-settings"
  const AdvancedTestingSubPage: string := "advancedtesting"

  /** The usage events recorded by two of the wrappers, named after them. */
  const DonationSettingsEvent: string := "openDonationSettings"
  const AdvancedAlertTestingEvent: string := "openAdvancedAlertTesting"

  /** The body of a successful token request; expiresAt is carried but never read. */
  datatype LoginTokenResponse = LoginTokenResponse(loginToken: string, expiresAt: int)

  /** The ways a token request can fail. */
  datatype FetchError = NetworkError | AuthError | ParseError

  /** What one token request resolves to. */
  type FetchOutcome = Result<LoginTokenResponse, FetchError>

  /** Whether an optional string is truthy in TypeScript: present and non-empty. */
  predicate Truthy(source: Option<string>)
  {
    source.Some? && source.value != ""
  }

  /** The referral suffix of a dashboard link. */
  function SourceString(source: Option<string>): (r: string)
    ensures r == "" <==> !Truthy(source)
    ensures r != "" ==> |r| > 6 && r[..6] == "&refl=" && r[6..] == source.value
  {
    if Truthy(source) then "&refl=" + source.value else ""
  }

  /** The URL of the token request, under the given host. */
  function TokenRequestUrl(host: string): (r: string)
    ensures |r| > 8 + |host| && r[..8 + |host|] == "https://" + host
  {
    "https://" + host + TokenPath
  }

  /**
   * The magic link for subPage, embedding token, under the given host.
   * The multistream destination is a content-hub article that carries only
   * the token; every other subPage goes to the dashboard with the subPage
   * as the r parameter and the referral source, if truthy, as refl.
   */
  function DashboardLink(host: string, token: string, subPage: string := "", source: Option<string> := None): (link: string)
  {
    var sourceString := SourceString(source);
    if subPage == MultistreamSubPage then
      // the content-hub article stands in until multistream settings exist on the dashboard
      "https://" + host + ContentHubPath + "?login_token=" + token
    else
      "https://" + host + DashboardPath + "?login_token=" + token + "&r=" + subPage + sourceString
  }

  /** One observable effect of the service. */
  datatype Effect =
    | TokenRequested(url: string, credential: string)  // the token request, authorised with the user's API token
    | Opened(url: string)                              // the link handed to the system browser
    | Recorded(event: string)                          // a feature-usage event
    | ErrorLogged(error: FetchError)                   // the diagnostic line written when a link cannot be built

  /** What getDashboardMagicLink returns for the reply to its token request. */
  function LinkFromReply(host: string, reply: FetchOutcome, subPage: string, source: Option<string>): (r: Result<string, FetchError>)
    ensures r.Failure? <==> reply.Failure?
    ensures reply.Failure? ==> r.error == reply.error
  {
    match reply
    case Success(response) => Success(DashboardLink(host, response.loginToken, subPage, source))
    case Failure(e) => Failure(e)
  }

  /**
   * The effects of one best-effort wrapper call: the token request; then,
   * on failure, only the error line; on success, the browser open of the
   * link and, for the wrappers that have one, the usage event.
   */
  function OpenEffects(host: string, apiToken: string, reply: FetchOutcome, subPage: string,
                       source: Option<string>, usage: Option<string>): (log: seq<Effect>)
    ensures |log| >= 2 && log[0] == TokenRequested(TokenRequestUrl(host), apiToken)
  {
    [TokenRequested(TokenRequestUrl(host), apiToken)] +
    match LinkFromReply(host, reply, subPage, source)
    case Failure(e) => [ErrorLogged(e)]
    case Success(link) => [Opened(link)] + (if usage.Some? then [Recorded(usage.value)] else [])
  }

  class MagicLinkService {
    /** The service's host name (a bare domain). */
    const host: string
    /** The signed-in user's API token, the credential of every token request. */
    const apiToken: string
    /** Everything the service has done so far, oldest first. */
    var effects: seq<Effect>

    constructor (host: string, apiToken: string)
      ensures this.host == host && this.apiToken == apiToken
      ensures effects == []
    {
      this.host := host;
      this.apiToken := apiToken;
      effects := [];
    }

    /** Issues one token request; reply is what it resolves to. */
    method FetchNewToken(reply: FetchOutcome) returns (r: FetchOutcome)
      modifies this
      ensures effects == old(effects) + [TokenRequested(TokenRequestUrl(host), apiToken)]
      ensures r == reply
    {
      effects := effects + [TokenRequested(TokenRequestUrl(host), apiToken)];
      r := reply;
    }

    /** Fetches a fresh token and builds the link for subPage; a failed fetch is passed on unchanged. */
    method GetDashboardMagicLink(reply: FetchOutcome, subPage: string := "", source: Option<string> := None)
      returns (r: Result<string, FetchError>)
      modifies this
      ensures effects == old(effects) + [TokenRequested(TokenRequestUrl(host), apiToken)]
      ensures r.Success? <==> reply.Success?
      ensures reply.Success? ==> r.value == DashboardLink(host, reply.value.loginToken, subPage, source)
      ensures reply.Failure? ==> r.error == reply.error
    {
      var response := FetchNewToken(reply);
      match response
      case Failure(e) =>
        r := Failure(e);
      case Success(body) =>
        var token := body.loginToken;
        r := Success(DashboardLink(host, token, subPage, source));
    }

    /**
     * The try/catch shared by the four wrappers: build the link, open it,
     * record usage if the wrapper records any; on failure write the error
     * line and return normally.
     */
    method OpenBestEffort(reply: FetchOutcome, subPage: string, source: Option<string>, usage: Option<string>)
      modifies this
      ensures effects == old(effects) + OpenEffects(host, apiToken, reply, subPage, source, usage)
    {
      var link := GetDashboardMagicLink(reply, subPage, source);
      match link
      case Failure(e) =>
        effects := effects + [ErrorLogged(e)];
      case Success(url) =>
        effects := effects + [Opened(url)];
        if usage.Some? {
          effects := effects + [Recorded(usage.value)];
        }
    }

    /** Opens the prime onboarding page, with refl as the referral tag. */
    method LinkToPrime(refl: string, reply: FetchOutcome)
      modifies this
      ensures effects == old(effects) + OpenEffects(host, apiToken, reply, PrimeSubPage, Some(refl), None)
    {
      OpenBestEffort(reply, PrimeSubPage, Some(refl), None);
    }

    method OpenWidgetThemesMagicLink(reply: FetchOutcome)
      modifies this
      ensures effects == old(effects) + OpenEffects(host, apiToken, reply, WidgetThemesSubPage, None, None)
    {
      OpenBestEffort(reply, WidgetThemesSubPage, None, None);
    }

    method OpenDonationSettings(reply: FetchOutcome)
      modifies this
      ensures effects == old(effects) +
        OpenEffects(host, apiToken, reply, DonationSettingsSubPage, None, Some(DonationSettingsEvent))
    {
      OpenBestEffort(reply, DonationSettingsSubPage, None, Some(DonationSettingsEvent));
    }

    method OpenAdvancedAlertTesting(reply: FetchOutcome)
      modifies this
      ensures effects == old(effects) +
        OpenEffects(host, apiToken, reply, AdvancedTestingSubPage, None, Some(AdvancedAlertTestingEvent))
    {
      OpenBestEffort(reply, AdvancedTestingSubPage, None, Some(AdvancedAlertTestingEvent));
    }
  }
}

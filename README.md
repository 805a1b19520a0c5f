# Magic links

A model of the magic-link service of the Streamlabs desktop client
(`app/services/magic-link.ts`). The service trades the signed-in user's API
token for a short-lived login token at `/api/v5/slobs/login/token`. It then
builds a dashboard URL that carries the token. Four wrappers open such a
link in the system browser, and two of them also record a feature-usage
event. When the token request fails, the wrappers swallow the error: they
log it and return normally, and nothing is opened or recorded.

The model has three parts:

- `MagicLink` (`magic_link.dfy`) models the service.
  - The link builders are functions: `SourceString`, `TokenRequestUrl` and `DashboardLink`.
  - `DashboardLink` takes Dafny default parameters that mirror the source's defaults (`subPage := ""`, `source := None`).
  - The service is the class `MagicLinkService`. Its only state is `effects`, the ordered log of what the service has done: `TokenRequested(url, credential)`, `Opened(url)`, `Recorded(event)` and `ErrorLogged(error)`.
  - Each call that fetches a token takes a `reply: FetchOutcome` parameter. It is what that call's single token request resolves to: `Success(LoginTokenResponse)` or `Failure(NetworkError | AuthError | ParseError)`.
  - `OpenEffects` is the specification of one wrapper call's effects. The four wrapper methods are proved to append exactly `OpenEffects(...)` for their own fixed `subPage` literal, source and usage event.
- `UrlReader` (`url_reader.dfy`) is an independent reader of https URLs. It splits the host at the first `/`, drops a fragment from the first `#` on, splits the path at the first `?`, the query at `&` and each parameter at its first `=`. Its reference writer is `WriteUrl`, and `WriteUrlRoundTrip` proves that reading a written well-formed URL gives that URL back. Statements such as "exactly one `login_token` parameter" are stated as what this reader finds in a link. The reader does not percent-decode and does not turn `+` into a space, so a value it finds, such as `refl` = source, is the raw text in the link: for a source like `a+b` or `50%25` a server that decodes the query sees a different value.
- `MagicLinkProperties` (`magic_link_properties.dfy`) holds the lemmas. They cover the exact text of each link, what the reader finds in it, the example links, and which effects a wrapper call has and in what order.

The source inserts `subPage` and `source` verbatim, with no URL encoding
(`magic-link.ts:22` for the source, `magic-link.ts:28-30` for the subPage),
and the model does the same. `SourceIsNotEncodedExample` shows the
consequence: a source such as `menu&r=x` gives the link a second `r`
parameter. `SubPageFragmentExample` shows that a `#` in the subPage ends the
query, so the rest of the subPage and the referral suffix become a fragment.

## Model

| member | source | states |
|---|---|---|
| `MagicLink.Truthy` | app/services/magic-link.ts:22 | JavaScript truthiness of the optional source string: present and non-empty. Its meaning is stated by `SourceString` and `EmptySourceExample`. |
| `MagicLink.DashboardLink` | app/services/magic-link.ts:22-30 | Builds the link. Its contract is stated by the lemmas of `MagicLinkProperties`: `MultistreamLinkExact`, `GenericLinkExact`, the reading lemmas and the examples. |
| `MagicLink.SourceString` | app/services/magic-link.ts:22 | The referral suffix is empty exactly when the source is absent or empty (falsy). Otherwise it is `&refl=` followed by the source. It is never a bare `&refl=`. |
| `MagicLink.TokenRequestUrl` | app/services/magic-link.ts:35-38 | The token request URL starts with `https://` and the host. |
| `MagicLink.LinkFromReply` | app/services/magic-link.ts:20-31 | A link is produced exactly when the token request succeeds. A failed request's error is passed on unchanged. |
| `MagicLink.OpenEffects` | app/services/magic-link.ts:47-83 | Every wrapper call starts with the token request, authorised with the user's API token, and has at least one more effect. |
| `MagicLink.MagicLinkService.constructor` | app/services/magic-link.ts:15-18 | A new service has the given host and API token and an empty effect log. |
| `MagicLink.MagicLinkService.FetchNewToken` | app/services/magic-link.ts:33-41 | Issues exactly one request, to the token URL, with the user's API token as credential. It returns that request's reply. |
| `MagicLink.MagicLinkService.GetDashboardMagicLink` | app/services/magic-link.ts:20-31 | Issues exactly one token request. On success it returns `DashboardLink` built from the reply's `login_token`. On failure it returns the same error and builds no URL. |
| `MagicLink.MagicLinkService.OpenBestEffort` | app/services/magic-link.ts:48-53 | The try/catch shared by the wrappers. It appends exactly `OpenEffects`: the request, then either the error line or the open followed by the optional usage record. |
| `MagicLink.MagicLinkService.LinkToPrime` | app/services/magic-link.ts:47-54 | Appends the effects of opening subPage `prime` with `refl` as the source and no usage event. |
| `MagicLink.MagicLinkService.OpenWidgetThemesMagicLink` | app/services/magic-link.ts:56-63 | Appends the effects of opening subPage `widgetthemes` with no source and no usage event. |
| `MagicLink.MagicLinkService.OpenDonationSettings` | app/services/magic-link.ts:65-73 | Appends the effects of opening `settings/donation-settings`, then recording `openDonationSettings`. |
| `MagicLink.MagicLinkService.OpenAdvancedAlertTesting` | app/services/magic-link.ts:75-83 | Appends the effects of opening `advancedtesting`, then recording `openAdvancedAlertTesting`. |
| `MagicLinkProperties.MultistreamLinkExact` | app/services/magic-link.ts:23-26 | For `multistream` the link is exactly `https://` + host + the content-hub article path + `?login_token=` + token. It is the same for every source. |
| `MagicLinkProperties.GenericLinkExact` | app/services/magic-link.ts:22-30 | For any other subPage the link is exactly the dashboard URL with `login_token`, then `r=` + subPage, then `&refl=` + source only when the source is truthy. Values are inserted verbatim. |
| `MagicLinkProperties.TokenRequestUrlReads` | app/services/magic-link.ts:35-38 | The token request URL is exactly `https://` + host + `/api/v5/slobs/login/token`. Read back, it is that host and path with no query. |
| `MagicLinkProperties.MultistreamLinkShape` | app/services/magic-link.ts:23-26 | The multistream link is the URL written from the host, the content-hub path and the single parameter `login_token`. |
| `MagicLinkProperties.GenericLinkShape` | app/services/magic-link.ts:22-30 | Any other link is the URL written from the host, the dashboard path and the parameters `login_token`, `r` and, for a truthy source, `refl`. |
| `MagicLinkProperties.MultistreamLinkReads` | app/services/magic-link.ts:23-26 | Read back, the multistream link has the content-hub path, and its only parameter is the token. It has no `r` and no `refl`. |
| `MagicLinkProperties.GenericLinkReads` | app/services/magic-link.ts:22-30 | Read back, any other link has the dashboard path and the parameters `login_token`=token, `r`=subPage and, exactly for a truthy source, `refl`=source, in that order. |
| `MagicLinkProperties.LinkParameters` | app/services/magic-link.ts:20-30 | Every link has exactly one `login_token` value, the token. A dashboard link has exactly one `r` value (the subPage) and one `refl` only when the source is truthy. The multistream link has neither. |
| `MagicLinkProperties.DefaultLinkExample` | app/services/magic-link.ts:20-30 | With the default subPage and no source, host `streamlabs.com` and token `abc123` give `https://streamlabs.com/slobs/magic/dashboard?login_token=abc123&r=`. |
| `MagicLinkProperties.PrimeLinkExample` | app/services/magic-link.ts:20-30 | Subpage `prime` with source `menu` ends in `&r=prime&refl=menu`. |
| `MagicLinkProperties.EmptySourceExample` | app/services/magic-link.ts:22 | An empty source gives the same link as no source. |
| `MagicLinkProperties.MultistreamLinkExample` | app/services/magic-link.ts:23-26 | The multistream link for source `menu` reads back with `login_token=abc123` as its only parameter. |
| `MagicLinkProperties.SourceIsNotEncoded` | app/services/magic-link.ts:22-30 | A source `before&key=value` is not encoded. It reads back as `refl=before` followed by a separate parameter `key=value`. |
| `MagicLinkProperties.SourceIsNotEncodedExample` | app/services/magic-link.ts:22-30 | The prime link with source `menu&r=x` reads back with two `r` parameters: `prime` and `x`. |
| `MagicLinkProperties.SubPageFragment` | app/services/magic-link.ts:28-30 | A subPage `before#after` is not encoded. Read back, the link has `r=before` only, and the referral parameter is lost in the fragment. |
| `MagicLinkProperties.SubPageFragmentExample` | app/services/magic-link.ts:28-30 | SubPage `a#b` with source `menu` reads back as `login_token=abc123` and `r=a`, with no `refl`. |
| `MagicLinkProperties.OneTokenRequestPerCall` | app/services/magic-link.ts:21 | Every wrapper call issues exactly one token request, to the token URL, as its first effect. |
| `MagicLinkProperties.FetchFailureIsSilent` | app/services/magic-link.ts:48-53 | On a failed token request the only effects are the request and the error line. Nothing is opened and nothing is recorded. |
| `MagicLinkProperties.FetchSuccessOpensOnce` | app/services/magic-link.ts:65-73 | On success the link built from the reply's token is opened exactly once. It is followed by exactly one record of the wrapper's usage event, if it has one, and nothing else is recorded. |
| `MagicLinkProperties.WrapperEffects` | app/services/magic-link.ts:47-83 | On success: `linkToPrime` and `openWidgetThemesMagicLink` open their link and record nothing. `openDonationSettings` and `openAdvancedAlertTesting` open their link and then record the event named after them. |
| `MagicLinkProperties.TwoCallsRequestTwice` | app/services/magic-link.ts:20-21 | Two wrapper calls in a row, each with its own subPage, source and usage event, issue two token requests, one each, whatever the replies are. |
| `MagicLinkProperties.TwoCallsOpenOwnTokens` | app/services/magic-link.ts:20-21 | For two wrapper calls with their own arguments, when both requests succeed, each opened link is built from its own arguments and carries the token of its own reply, so no token is reused. |

## Left out

- HTTP I/O (`jfetch`, `Request`, `authorizedHeaders`, `util/requests`) is not part of this model. Each call's token request is an entry in the effect log carrying the URL and the API token the header is built from. What the request resolves to is the call's `reply` parameter.
- A response body whose `login_token` is missing is not modelled. The source would interpolate `undefined` into the link. The model treats a malformed body as the `ParseError` failure.
- `remote.shell.openExternal`, `recordFeatureUsage` and `console.error` are entries in the effect log. The promise that `openExternal` returns is not awaited in the source, so a rejection of it is outside the try/catch and is not modelled.
- `async`/`await`, dependency injection (`@Inject`) and concurrent calls are not modelled. Each call is one sequential method, and concurrent calls share no state other than the log.
- The host and the API token are constants of the service object, fixed by the constructor. The source reads `hostsService.streamlabs` once for the request and again for the link, and reads `userService.apiToken` again on every token request, so a host that changed while a request was in flight, or a user who signed in again between two calls and so sends a different credential, is not modelled.
- `expires_at` is carried in `LoginTokenResponse` and never read, as in the source. No expiry is enforced.
- `subPage ?? ''` is the identity on the string-typed `subPage`. A `null` subPage, which the types exclude, is not modelled.
- `test/regular/obs-importer.ts` is UI automation of a running application. It is not part of this model.
- `MagicLink.DashboardLink`: its contract is stated by the lemmas of `MagicLinkProperties` rather than by its own `ensures`.
- `MagicLinkProperties.LinkParameters`: the "exactly one `login_token` and one `r` parameter" guarantee is proved only for a bare host and for a token, subPage and source without `&` or `#`. The source inserts these values unencoded, and `SourceIsNotEncoded` and `SubPageFragment` show the guarantee failing otherwise.
- `MagicLinkProperties.GenericLinkReads`: holds under the same conditions as `LinkParameters` (no `&` and no `#` in the token, subPage and source), for the same reason.
- `MagicLinkProperties.MultistreamLinkReads`: holds for a bare host and a token without `&` or `#`, for the same reason.
- `MagicLink.MagicLinkService.OpenBestEffort`: an exception thrown synchronously by `openExternal` or `recordFeatureUsage` is not modelled. Both calls are treated as never throwing. The source's try/catch would catch such an exception and log the error after the open, giving the request, `Opened`, then `ErrorLogged`, a sequence the model cannot produce.

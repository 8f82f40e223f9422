# dong-code core, modelled in Dafny

This project models the decision logic at the core of the dong-code CLI. Dong-code is a fork of the Gemini CLI that adds Qwen OAuth and OpenAI-compatible back ends. The model covers these parts:

- **Quota and throttling classification** (`quota.dfy`). The Pro-quota, generic-quota, Qwen-quota and Qwen-throttling classifiers work over an error value of unknown shape.
- **System-prompt selection** (`prompts.dfy`):
  - the `GEMINI_SYSTEM_MD` override;
  - template mappings chosen by base URL and model;
  - placeholder substitution;
  - the `GEMINI_WRITE_SYSTEM_MD` export;
  - the user-memory suffix.
- **Custom themes** (`theme.dfy`):
  - validation of a custom theme (required fields, recommended fields, colours, name);
  - the highlight.js colour map a `Theme` builds;
  - the mappings `createCustomTheme` derives.
- **Choosing a content generator** (`content_generator.dfy`). The auth type and the environment decide the configuration, and the factory accepts or rejects it.
- **Qwen OAuth2** (`oauth.dfy`):
  - the form encoding and type guards;
  - token validity and refresh on the `QwenOAuth2Client` class;
  - device-token polling;
  - the device-authorization polling loop with its slow-down schedule, cancellation and timeout;
  - the messages `getQwenOAuthClient` fails with.
- **The Qwen content generator** (`qwen_generator.dfy`):
  - endpoint normalisation;
  - authentication-error detection;
  - the token cache, with a single in-flight refresh;
  - one forced refresh and retry when a request fails with an authentication error;
  - restoring the client's API key and base URL after each call.
- **The Gemini client** (`client.dfy`):
  - the history fraction search;
  - chat compression (where to cut the history and how it is rebuilt);
  - the session turn bound and turn numbering of `sendMessageStream`;
  - the flash-model fallback and its Qwen branch;
  - embedding validation.

Shared pieces:

- `wrappers.dfy` holds `Option` and `Result`.
- `text.dfy` holds the JavaScript string operations the source relies on:
  - `includes`, `startsWith` and `endsWith`;
  - `indexOf`;
  - ASCII `toLowerCase` and `trim`;
  - `join` and `split`.

Effects are inputs to the model. An effect is anything the source obtains from outside: the clock, HTTP responses, environment variables, files, the cancellation flag, or the result of a call into code that is not modelled. Where the source mutates an object, the model is a class whose fields the methods update. The methods of `QwenOAuth2Client` and of the Qwen `Generator` are proved equal to a state-transition function, and the properties are proved as lemmas about that function. The methods of `GeminiClient` state their effect on each field directly in their postconditions.

## Model

| member | source | states |
|---|---|---|
| Text.IndexOf | packages/core/src/core/prompts.ts:106-113 | the first occurrence of a substring, and no earlier one |
| Text.Trim | packages/cli/dist/src/ui/themes/theme.js:362-365 | `trim` returns an infix that neither starts nor ends with white space, with only white space outside it; it is empty exactly for an all-space string |
| Text.ContainsLower | packages/core/dist/src/utils/quotaErrorDetection.js:67-72 | a substring of a message, lower-cased, is a substring of the lower-cased message |
| Text.SplitJoin | packages/core/dist/src/qwen/qwenOAuth2.js:61-65 | splitting a join on a separator that occurs in no piece gives the pieces back |
| QuotaErrorDetection.StatusCode | packages/core/dist/src/utils/quotaErrorDetection.js:94-100 | `status \|\| code`: the status when it is set and non-zero, the code otherwise; undefined for anything but an object |
| QuotaErrorDetection.ProQuotaOnDispatchedShapes | packages/core/dist/src/utils/quotaErrorDetection.js:19-36 | on the three dispatched shapes, a Pro-quota error is one whose message holds both Pro markers |
| QuotaErrorDetection.StructuredTakesPrecedence | packages/core/dist/src/utils/quotaErrorDetection.js:6-18 | an object with both a `message` and an inner `error` is classified by `message` alone, by all three quota classifiers |
| QuotaErrorDetection.ProImpliesGeneric | packages/core/dist/src/utils/quotaErrorDetection.js:19-64 | on string, structured and API errors, every Pro-quota error is a generic quota error |
| QuotaErrorDetection.GaxiosProIsNotGeneric | packages/core/dist/src/utils/quotaErrorDetection.js:37-64 | a Gaxios error whose response data holds the Pro message is a Pro-quota error but not a generic one |
| QuotaErrorDetection.GenericImpliesQwen | packages/core/dist/src/utils/quotaErrorDetection.js:53-83 | every generic quota error is a Qwen quota error |
| QuotaErrorDetection.QwenQuotaSimplified | packages/core/dist/src/utils/quotaErrorDetection.js:67-72 | the Qwen quota test is "insufficient_quota" or both "quota" and "exceeded"; the "free allocated quota exceeded" alternative adds nothing |
| QuotaErrorDetection.QwenQuotaCaseInsensitive | packages/core/dist/src/utils/quotaErrorDetection.js:67-72 | the Qwen quota test does not depend on letter case |
| QuotaErrorDetection.InsufficientQuotaExample | packages/core/dist/src/utils/quotaErrorDetection.js:65-83 | the string "insufficient_quota" is a Qwen quota error |
| QuotaErrorDetection.FreeAllocatedExample | packages/core/dist/src/utils/quotaErrorDetection.js:65-83 | the string "Free allocated QUOTA EXCEEDED" is a Qwen quota error, whatever its letter case |
| QuotaErrorDetection.UpperQuotaExceeded | packages/core/dist/src/utils/quotaErrorDetection.js:65-83 | a message holding "QUOTA" and "EXCEEDED" in capitals passes the lower-casing Qwen quota test |
| QuotaErrorDetection.ThrottlingOnString | packages/core/dist/src/utils/quotaErrorDetection.js:102-105 | a plain string is a throttling error exactly when it contains "throttling" (case-sensitive), because a string has no status |
| QuotaErrorDetection.ThrottlingOnStructured | packages/core/dist/src/utils/quotaErrorDetection.js:106-108 | a structured error is a throttling error exactly when `status \|\| code` is 429 and its message holds a throttling keyword |
| QuotaErrorDetection.ThrottlingExample | packages/core/dist/src/utils/quotaErrorDetection.js:84-113 | "rate limit" with status 429 is throttling; with status 500 it is not |
| QuotaErrorDetection.ProQuotaExample | packages/core/dist/src/utils/quotaErrorDetection.js:19-29 | the Gemini 2.5 Pro quota message is a Pro-quota error |
| QuotaErrorDetection.UnrecognisedIsNothing | packages/core/dist/src/utils/quotaErrorDetection.js:51-52 | a value of no recognised shape satisfies none of the four classifiers |
| Prompts.NormalizeUrl | packages/core/src/core/prompts.ts:34-36 | removes exactly one trailing slash, and only when there is one |
| Prompts.NormalizeRemovesOneSlash | packages/core/src/core/prompts.ts:34-36 | `u/` normalises to `u`; `u//` normalises to `u/` |
| Prompts.UrlMatchesIff | packages/core/src/core/prompts.ts:41-44 | `urlMatches` holds exactly when some URL normalises to the normalised target |
| Prompts.UrlMatchesIgnoresTrailingSlash | packages/core/src/core/prompts.ts:41-44 | adding one trailing slash to the target does not change the match |
| Prompts.FindMapping | packages/core/src/core/prompts.ts:76-100 | the first mapping whose conditions match, and none before it; None when no mapping matches |
| Prompts.EmptyMappingNeverMatches | packages/core/src/core/prompts.ts:76-100 | a mapping with neither base URLs nor model names is never selected |
| Prompts.BothListsNeedBoth | packages/core/src/core/prompts.ts:78-86 | a mapping with both lists needs both the URL and the model to match |
| Prompts.ReplaceFirst | packages/core/src/core/prompts.ts:102-117 | string `replace`: the text is unchanged without an occurrence; otherwise the first occurrence is replaced |
| Prompts.ReplaceFirstLeavesLaterOccurrences | packages/core/src/core/prompts.ts:106-113 | only the first occurrence of a placeholder is substituted |
| Prompts.SandboxSubstitution | packages/core/src/core/prompts.ts:106-113 | a template with one sandbox placeholder and no git placeholder gets SANDBOX, or "" when unset, in its place |
| Prompts.MemorySuffix | packages/core/src/core/prompts.ts:245-250 | the suffix is empty exactly for absent or blank memory; otherwise it is the separator followed by the trimmed memory |
| Prompts.MemorySuffixBlank | packages/core/src/core/prompts.ts:245-250 | an all-space memory adds nothing |
| Prompts.FlagSpellings | packages/core/src/core/prompts.ts:52-67 | "0", "FALSE", "" and unset switch the override off; "1" and "True" select the default file; "~" and "~/x" are expanded |
| Prompts.GetCoreSystemPrompt | packages/core/src/core/prompts.ts:46-251 | fails, naming the path, exactly when the override is on and its file is missing; a non-empty matched template is returned with placeholders substituted; otherwise the base prompt plus the memory suffix; writes the base prompt to the path the write flag names |
| Themes.FirstFlagged | packages/cli/dist/src/ui/themes/theme.js:284-299 | the first field in list order that a test flags, and none before it |
| Themes.Flagged | packages/cli/dist/src/ui/themes/theme.js:300-317 | a field is in the result exactly when it is in the list and flagged |
| Themes.FlaggedInOrder | packages/cli/dist/src/ui/themes/theme.js:300-317 | the result is the list read at the increasing indices of its flagged fields: each flagged field once, in list order |
| Themes.IsValidThemeName | packages/cli/dist/src/ui/themes/theme.js:362-365 | a valid name has a non-space character; within 50 characters that is also sufficient |
| Themes.ValidThemeNameIff | packages/cli/dist/src/ui/themes/theme.js:362-365 | a name is valid exactly when its visible part (starting and ending with a non-space, only white space outside) exists and has at most 50 characters, whatever the name's length |
| Themes.ScanFields | packages/cli/dist/src/ui/themes/theme.js:284-299 | the early-returning loop over required or colour fields finds the first flagged field |
| Themes.CollectFields | packages/cli/dist/src/ui/themes/theme.js:300-317 | the pushing loop collects every missing recommended field, in order |
| Themes.ValidateCustomTheme | packages/cli/dist/src/ui/themes/theme.js:282-356 | the verdict: a missing required field first, then a bad colour, then an invalid name, else valid with a warning listing the missing recommended fields |
| Themes.FirstMissingReported | packages/cli/dist/src/ui/themes/theme.js:284-299 | the first falsy required field is the one the error names |
| Themes.FirstBadColorReported | packages/cli/dist/src/ui/themes/theme.js:319-342 | with required fields present, the first ill-formed colour is reported with its value |
| Themes.NameCheckedLast | packages/cli/dist/src/ui/themes/theme.js:344-355 | once fields and colours pass, validity is the name check, and a valid theme carries the recommended-field warning |
| Themes.MissingRecommended | packages/cli/dist/src/ui/themes/theme.js:300-317 | the missing recommended fields are DiffAdded and DiffRemoved, whichever are falsy, in that order |
| Themes.BothDiffColorsMissingWarn | packages/cli/dist/src/ui/themes/theme.js:300-317 | both absent gives the warning "Missing field(s) DiffAdded, DiffRemoved" |
| Themes.NoDiffColorMissingNoWarning | packages/cli/dist/src/ui/themes/theme.js:350-355 | with both diff colours set there is no warning |
| Themes.BlankNameRejected | packages/cli/dist/src/ui/themes/theme.js:344-349 | a non-empty all-space name passes the required check but is rejected as an invalid theme name |
| Themes.LongNameRejected | packages/cli/dist/src/ui/themes/theme.js:362-365 | a 51-character name without spaces is invalid |
| Themes.ColorMap | packages/cli/dist/src/ui/themes/theme.js:109-130 | every entry of the colour map comes from a highlight key whose style colour resolves to that entry |
| Themes.Theme.BuildColorMap | packages/cli/dist/src/ui/themes/theme.js:109-130 | the loop over the raw mappings builds exactly the colour map |
| Themes.Theme.constructor | packages/cli/dist/src/ui/themes/theme.js:76-86 | a theme keeps name, type and colours, builds the colour map, and takes the resolved `hljs` colour as default, or "" |
| Themes.CreateCustomTheme | packages/cli/dist/src/ui/themes/theme.js:137-276 | a fresh custom theme named after the theme's Name, with the colour map of the derived mappings |
| Themes.CustomThemeColors | packages/cli/dist/src/ui/themes/theme.js:137-276 | keywords take the AccentBlue colour exactly when it is set and resolves |
| Themes.EmphasisOmitted | packages/cli/dist/src/ui/themes/theme.js:137-276 | emphasis has no colour and never enters the map |
| Themes.CustomDefaultColor | packages/cli/dist/src/ui/themes/theme.js:82-85 | a custom theme's default colour is its resolved Foreground, or "" |
| ContentGenerator.CreateContentGeneratorConfig | packages/core/dist/src/core/contentGenerator.js:19-67 | the early-returning branches build the configuration the per-auth-type table gives |
| ContentGenerator.CreateContentGenerator | packages/core/dist/src/core/contentGenerator.js:68-115 | only OpenAI, Qwen and unknown auth types are rejected; a Google client never receives "" as its API key |
| ContentGenerator.ConfigKeepsSettings | packages/core/dist/src/core/contentGenerator.js:19-36 | every configuration keeps the auth type and settings; its model is the configured one, or the default, except for OpenAI with a key |
| ContentGenerator.GoogleLoginHasNoKey | packages/core/dist/src/core/contentGenerator.js:37-40 | Google login and Cloud Shell carry no key, and the factory gives a Code Assist generator |
| ContentGenerator.VertexNeedsKeyOrProject | packages/core/dist/src/core/contentGenerator.js:41-52 | Vertex AI is on exactly with a Google key or with both a project and a location; Gemini is marked off exactly with a Gemini key |
| ContentGenerator.OpenAIKeyRequired | packages/core/dist/src/core/contentGenerator.js:53-58 | OpenAI is rejected exactly when its key is unset or empty; otherwise it uses OPENAI_MODEL or the default |
| ContentGenerator.QwenConfigAccepted | packages/core/dist/src/core/contentGenerator.js:59-65 | a Qwen configuration always carries the marker key; the factory fails only when the OAuth client fails |
| ContentGenerator.QwenWrongKeyRejected | packages/core/dist/src/core/contentGenerator.js:97-113 | a Qwen configuration with another key is rejected as invalid |
| ContentGenerator.UnsupportedAuthType | packages/core/dist/src/core/contentGenerator.js:114 | the factory answers Unsupported, naming the auth type, exactly for an absent auth type or an `Other` one |
| ContentGenerator.ParseAuthType | packages/core/dist/src/core/contentGenerator.js:10-18 | an auth-type string maps to the member whose value it is, and prints back as itself; it is `Other` exactly when it is none of the six values |
| ContentGenerator.UnsupportedAuthText | packages/core/dist/src/core/contentGenerator.js:114 | a configured auth-type string is unsupported exactly when it is none of the six values |
| ContentGenerator.GeminiWithoutKeyNotRejected | packages/core/dist/src/core/contentGenerator.js:79-87 | Gemini without a key still reaches the Google client, with no key |
| QwenOAuth2.UrlEncodedRoundTrip | packages/core/dist/src/qwen/qwenOAuth2.js:61-65 | the form body splits back into the encoded keys and values, in order |
| QwenOAuth2.DecimalText | packages/core/dist/src/qwen/qwenOAuth2.js:222 | a number prints as its decimal digits: they denote the number, with no leading zero |
| QwenOAuth2.QwenOAuth2Client.constructor | packages/core/dist/src/qwen/qwenOAuth2.js:99 | a new client has empty credentials |
| QwenOAuth2.QwenOAuth2Client.SetCredentials | packages/core/dist/src/qwen/qwenOAuth2.js:104-106 | replaces the credentials |
| QwenOAuth2.QwenOAuth2Client.RefreshAccessToken | packages/core/dist/src/qwen/qwenOAuth2.js:198-244 | the result and the new credentials are those of the refresh outcome |
| QwenOAuth2.QwenOAuth2Client.GetAccessToken | packages/core/dist/src/qwen/qwenOAuth2.js:110-120 | the cached token, or the outcome of a refresh |
| QwenOAuth2.TokenValidity | packages/core/dist/src/qwen/qwenOAuth2.js:245-251 | a token is valid exactly while more than 30 seconds remain before a non-zero expiry |
| QwenOAuth2.ValidTokenNotRefreshed | packages/core/dist/src/qwen/qwenOAuth2.js:110-114 | a valid cached token is returned without a refresh |
| QwenOAuth2.InvalidTokenRefreshes | packages/core/dist/src/qwen/qwenOAuth2.js:115-120 | otherwise, with a refresh token, the refresh's new access token is returned or its error thrown, and the refresh's credentials kept; without a refresh token the answer is no token |
| QwenOAuth2.RefreshNeedsRefreshToken | packages/core/dist/src/qwen/qwenOAuth2.js:199-201 | refreshing without a refresh token fails and changes nothing |
| QwenOAuth2.RefreshMerge | packages/core/dist/src/qwen/qwenOAuth2.js:232-240 | a successful refresh stores the new access token, keeps the old refresh token unless a new one came, sets the expiry, and is valid when more than 30 s long |
| QwenOAuth2.FailedRefreshKeepsCredentials | packages/core/dist/src/qwen/qwenOAuth2.js:198-231 | a failed refresh leaves the credentials unchanged |
| QwenOAuth2.ExpiredRefreshMapsToInvalidCache | packages/core/dist/src/qwen/qwenOAuth2.js:218-221 | status 400 gives the expired-refresh message, and `getQwenOAuthClient` turns it into the invalid-cache error |
| QwenOAuth2.FlowDecidesWithoutCache | packages/core/dist/src/qwen/qwenOAuth2.js:289-311 | without cached credentials, only a successful device flow gives a client |
| QwenOAuth2.PollDeviceToken | packages/core/dist/src/qwen/qwenOAuth2.js:150-197 | a 400 `authorization_pending` or 429 `slow_down` becomes a pending response (with slow-down exactly for 429); other failures raise; success returns the body |
| QwenOAuth2.MaxAttempts | packages/core/dist/src/qwen/qwenOAuth2.js:369-370 | the attempt count is the expiry in seconds divided by two, rounded up; zero for an expired code |
| QwenOAuth2.SlowDownSchedule | packages/core/dist/src/qwen/qwenOAuth2.js:408-414 | slow-down multiplies the 2 s interval by 1.5 up to the 10 s cap: 3000, 4500, 6750, 10000 |
| QwenOAuth2.StepStaysReachable | packages/core/dist/src/qwen/qwenOAuth2.js:372-481 | one poll keeps the interval, and every wait, on the slow-down schedule |
| QwenOAuth2.WaitsReachable | packages/core/dist/src/qwen/qwenOAuth2.js:368-487 | every wait of the polling loop is an interval of the schedule |
| QwenOAuth2.WaitsBounded | packages/core/dist/src/qwen/qwenOAuth2.js:369-372 | the loop waits at most once per remaining attempt |
| QwenOAuth2.StepShape | packages/core/dist/src/qwen/qwenOAuth2.js:372-481 | one attempt waits at most once and never ends in a timeout; a cancellation before the poll stops it, and an attempt that continues after a cancellation did not wait |
| QwenOAuth2.CancelledAfterWait | packages/core/dist/src/qwen/qwenOAuth2.js:439-479 | a cancellation after a pending poll's wait, or before the catch block's wait, ends the flow as cancelled; only a 401 or 429 error takes precedence |
| QwenOAuth2.TimeoutMeansNoCancel | packages/core/dist/src/qwen/qwenOAuth2.js:483-487 | a timeout means no attempt was cancelled before its poll |
| QwenOAuth2.SuccessSetsCredentials | packages/core/dist/src/qwen/qwenOAuth2.js:384-403 | the flow succeeds exactly when it obtained credentials, and these hold an access token |
| QwenOAuth2.ExpiredCodeTimesOut | packages/core/dist/src/qwen/qwenOAuth2.js:369-372 | a device code with no lifetime times out without polling |
| QwenOAuth2.CancelledBeforeFirstPoll | packages/core/dist/src/qwen/qwenOAuth2.js:372-376 | a cancellation before the first poll ends the flow as cancelled |
| QwenOAuth2.StatusStopsPolling | packages/core/dist/src/qwen/qwenOAuth2.js:458-472 | a 401 poll error ends the flow with an error; a 429 one ends it as rate-limited |
| QwenOAuth2.MissingDeviceCodeFails | packages/core/dist/src/qwen/qwenOAuth2.js:329-332 | a device authorization without a device code fails at once |
| QwenOAuth2.Attempt | packages/core/dist/src/qwen/qwenOAuth2.js:372-481 | one iteration of the polling loop, with its try/catch, computes the step function |
| QwenOAuth2.AuthWithQwenDeviceFlow | packages/core/dist/src/qwen/qwenOAuth2.js:312-498 | the loop's result and waits are those of the device-flow function, and the client's credentials are set exactly on success |
| QwenContentGenerator.Endpoint | packages/core/dist/src/qwen/qwenContentGenerator.js:29-39 | the endpoint always starts with "http" and ends with "/v1": the default when unset; a URL with a protocol is kept, gaining `/v1` when it lacks it; a bare host gains `https://`, and `/v1` unless the result already ends with it |
| QwenContentGenerator.EndpointIdempotent | packages/core/dist/src/qwen/qwenContentGenerator.js:29-39 | normalising an endpoint twice changes nothing |
| QwenContentGenerator.EndpointOfBareHost | packages/core/dist/src/qwen/qwenContentGenerator.js:29-39 | a bare host gets a protocol and a `/v1` suffix |
| QwenContentGenerator.EndpointOfBareHostWithSuffix | packages/core/dist/src/qwen/qwenContentGenerator.js:29-39 | a bare host already ending in `/v1` only gains the protocol |
| QwenContentGenerator.EndpointOfUrlWithoutSuffix | packages/core/dist/src/qwen/qwenContentGenerator.js:29-39 | `https://custom-endpoint.com` keeps its protocol and gains `/v1` |
| QwenContentGenerator.EndpointOfCompleteUrl | packages/core/dist/src/qwen/qwenContentGenerator.js:29-39 | a complete URL is kept as it is |
| QwenContentGenerator.AuthErrorByCode | packages/core/dist/src/qwen/qwenContentGenerator.js:246-266 | `status \|\| code` of 400, 401 or 403 is an authentication error: a status of 400, 401 or 403, or with no (or zero) status a code of 400, 401 or 403; a falsy value never is |
| QwenContentGenerator.AuthErrorIgnoresCase | packages/core/dist/src/qwen/qwenContentGenerator.js:246-266 | the authentication test does not depend on letter case |
| QwenContentGenerator.ExpiredTokenIsAuthError | packages/core/dist/src/qwen/qwenContentGenerator.js:246-266 | "Token has expired" is an authentication error |
| QwenContentGenerator.RateLimitIsNotAuthError | packages/core/dist/src/qwen/qwenContentGenerator.js:246-266 | "Rate limit exceeded" with status 429 or 500 is not an authentication error |
| QwenContentGenerator.Generator.constructor | packages/core/dist/src/qwen/qwenContentGenerator.js:16-25 | starts with no token, no endpoint, no refresh in flight, and the DashScope default base URL |
| QwenContentGenerator.Generator.ClearToken | packages/core/dist/src/qwen/qwenContentGenerator.js:276-280 | forgets the token, the endpoint and the refresh in flight |
| QwenContentGenerator.Generator.PerformTokenRefresh | packages/core/dist/src/qwen/qwenContentGenerator.js:221-242 | the outcome and the new token state are those of the refresh step |
| QwenContentGenerator.Generator.RefreshToken | packages/core/dist/src/qwen/qwenContentGenerator.js:211-220 | a forced refresh, whose in-flight flag is cleared afterwards |
| QwenContentGenerator.Generator.GetValidToken | packages/core/dist/src/qwen/qwenContentGenerator.js:178-207 | waits for a refresh in flight, else uses the client's token, else refreshes |
| QwenContentGenerator.Generator.GetTokenWithRetry | packages/core/dist/src/qwen/qwenContentGenerator.js:165-173 | the valid-token step, with failures surfaced |
| QwenContentGenerator.Generator.CallWithToken | packages/core/dist/src/qwen/qwenContentGenerator.js:129-161 | the API call sees the token and endpoint; the key and base URL are restored afterwards, except after a successful stream |
| QwenContentGenerator.Generator.WithValidToken | packages/core/dist/src/qwen/qwenContentGenerator.js:50-89 | result, tokens used and new state are those of the retry specification, with the restore rules |
| QwenContentGenerator.Generator.GenerateContent | packages/core/dist/src/qwen/qwenContentGenerator.js:50-66 | a non-streaming call always restores the key and base URL |
| QwenContentGenerator.Generator.GenerateContentStream | packages/core/dist/src/qwen/qwenContentGenerator.js:70-89 | a stream restores them only on failure; on success the client keeps the token used last |
| QwenContentGenerator.SingleCallWithoutAuthError | packages/core/dist/src/qwen/qwenContentGenerator.js:129-143 | a call that succeeds, or fails without an authentication error, is made once and returned as it is |
| QwenContentGenerator.RetryOnceOnAuthError | packages/core/dist/src/qwen/qwenContentGenerator.js:129-143 | an authentication error forces one refresh; the retry with the new token is made exactly when the refresh succeeds; no refresh stays in flight |
| QwenContentGenerator.AtMostTwoCalls | packages/core/dist/src/qwen/qwenContentGenerator.js:129-161 | at most two calls; none when no token can be obtained |
| QwenContentGenerator.TokenFailureSurfaces | packages/core/dist/src/qwen/qwenContentGenerator.js:165-173 | a token failure surfaces as the re-authenticate error, with no call made |
| QwenContentGenerator.SuppressedErrorsAreRetried | packages/core/dist/src/qwen/qwenContentGenerator.js:43-46 | when a refresh would succeed, a failed call is retried exactly when its error is one whose logging is suppressed |
| QwenContentGenerator.RefreshUpdatesToken | packages/core/dist/src/qwen/qwenContentGenerator.js:221-242 | a refresh succeeds exactly on a reply with a non-empty access token and no error; it then stores that token, and the resource URL when one came; a failed refresh changes nothing |
| QwenContentGenerator.RefreshPromiseCleared | packages/core/dist/src/qwen/qwenContentGenerator.js:211-242 | no refresh stays in flight after a refresh or a token request |
| QwenContentGenerator.CachedTokenUsed | packages/core/dist/src/qwen/qwenContentGenerator.js:178-207 | with no refresh in flight, a usable token from the client is returned and cached, with its resource URL, without a refresh |
| Client.SumPrefixStep | packages/core/dist/src/core/client.js:38-48 | the running character count grows by the current entry |
| Client.FirstReachingLeast | packages/core/dist/src/core/client.js:38-48 | the index found is the first whose running count reaches the target |
| Client.FindIndexAfterFraction | packages/core/dist/src/core/client.js:34-49 | throws exactly for a fraction outside (0, 1); otherwise the index after the first prefix holding that fraction of the characters |
| Client.IndexInsideHistory | packages/core/dist/src/core/client.js:38-48 | for a non-empty history that index is inside it |
| Client.TurnStartSpec | packages/core/dist/src/core/client.js:516-520 | the cut advances past model turns and function responses only, and stops at a user turn or the end |
| Client.CompressionCut | packages/core/dist/src/core/client.js:514-522 | the cut lies inside the history |
| Client.CompressionKeepsTail | packages/core/dist/src/core/client.js:514-542 | the cut is at or after the 70% point, starts at a user message that is not a function response, and the rebuilt history is the four new entries followed by the kept tail |
| Client.GeminiClient.constructor | packages/core/dist/src/core/client.js:73-81 | a new client has no history, no turns, and the session id as its last prompt id |
| Client.GeminiClient.TryCompressChat | packages/core/dist/src/core/client.js:494-556 | leaves the history alone unless compression applies; otherwise rebuilds it from the kept tail; reports token counts exactly when the new count is known |
| Client.GeminiClient.SendMessageStream | packages/core/dist/src/core/client.js:247-370 | records the prompt id, numbers the turns consecutively, runs at most `min(turns, 100)` turns, and stops at once past the session limit |
| Client.GeminiClient.HandleFlashFallback | packages/core/dist/src/core/client.js:561-638 | switches to the fallback model only for Google login, with a different model, when the handler accepts; Qwen errors are classified and answered with nothing |
| Client.ClientAuthIsGeneratorAuth | packages/core/dist/src/core/client.js:600-638 | every authentication error the client recognises is one the Qwen generator retries, but not the converse |
| Client.FirstEmpty | packages/core/dist/src/core/client.js:484-491 | the first embedding with no values, and none before it |
| Client.GenerateEmbedding | packages/core/dist/src/core/client.js:470-493 | no texts give no vectors; no embeddings, a count mismatch or an empty embedding are errors; otherwise one vector per text |
| Client.EmbeddingSucceeds | packages/core/dist/src/core/client.js:470-493 | one non-empty vector per text is returned as it is |

## Left out

- JavaScript's full `toLowerCase` and `trim` are Unicode-aware. `Text.Lower` folds ASCII letters only, and `Text.Trim` strips ASCII white space only.
- `String.prototype.replace` expands `$` patterns in the replacement. `Prompts.ReplaceFirst` inserts the replacement literally.
- The following effects are parameters:
  - network access (`fetch`), files, environment variables, `os.homedir` and `path.resolve`;
  - the clock, the browser launch and the console.
  - Paths are the symbolic `PathSpec` rather than resolved strings.
- Prompt text is a parameter. This covers the built-in system prompt and the compression prompt, neither of which is reproduced.
- `DEFAULT_GEMINI_MODEL` and `DEFAULT_GEMINI_FLASH_MODEL` are parameters. They are defined in models.js, which is not part of this model.
- PKCE verifier and challenge generation, and the device-authorization request itself, are not modelled. The request's response is an input.
- Timers are not modelled. A wait in the polling loop is recorded as the interval requested, not as elapsed time.
- Event emission, telemetry and logging are left out. That covers the device-authorization events and `console.debug`/`console.error`.
- Loading, saving and clearing the Qwen credential cache are left out:
  - whether cached credentials loaded, and the outcome of their refresh, are inputs to `QwenOAuth2.GetQwenOAuthClient`;
  - a failure to write the cache during the device flow is not modelled.
- QwenOAuth2.PollDeviceToken: the error raised for a non-pending failure is an input, both its text and its `status` (the HTTP status the source attaches to it). The text embeds a response body the model does not parse.
- QwenOAuth2.RefreshMerge: `expires_in` is an integer. A missing `expires_in` gives NaN in JavaScript, which is modelled as no expiry.
- Concurrency is not modelled. A refresh already in flight in the Qwen generator is an input, so the single-flight sharing of one promise by several callers is not modelled.
- Client.GeminiClient.TryCompressChat: several things are inputs or omitted:
  - the length of `JSON.stringify` of each message is an input function;
  - the token limit, both token counts, the summary text and the function-response test are inputs;
  - the 0.7 threshold is the exact ratio 7/10;
  - the curated-history choice is not modelled;
  - the chat objects are not modelled.
- Client.GeminiClient.SendMessageStream keeps the turn bound and numbering only:
  - compression, the token-limit check, IDE context, loop detection, the next-speaker check and streamed events are all abstracted into one `continues` test per turn;
  - a negative `turns` argument is not modelled.
- Client.GeminiClient.HandleFlashFallback: the handler's reply is an input. `handleQwenOAuthError` is modelled inside it by its classification and its null result; its logging is not modelled.
- `generateJson`, `generateContent`, `startChat`, `getChat` and the other chat plumbing of client.js are not modelled. They delegate to the chat object and the retry helper, neither of which is part of this model.
- The OpenAI content generator and the Code Assist generator are represented only by the factory's choice.
- `countTokens` and `embedContent` of the Qwen generator run through the same `WithValidToken` as `generateContent`, so they are not modelled separately.
- `getInkColor` and the colour-name tables that resolve a theme colour are not modelled. Colour resolution and colour validity are input functions.
- Client.GeminiClient.TryCompressChat: a failure of the summary request is not modelled. In the source, the chat has already been given only the part to compress, so a throwing request would leave it holding that part.
- QwenContentGenerator.WithValidTokenSpec: the API is a function of the token and the endpoint. A retry with the same token and endpoint therefore repeats the first outcome, whereas a real second request may behave differently.

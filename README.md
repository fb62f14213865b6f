# kay-cli session and credential core, in Dafny

This project models the credential and argument handling of the `kay`
command-line client, and proves properties of that model:

- **Session-aware HTTP client** (`ApiClient`, `RefreshCell`).
  - `apiFetch` with its recovery protocol on 401/403, keyed on the error
    code `TOKEN_MISSING`, `TOKEN_EXPIRED`, `TOKEN_INVALID` or another code.
  - The single retry and the `session_id` query rewrite (`UrlQuery`).
  - `initSession`, and `refreshSession` with its process-wide in-flight
    refresh cell. The cell is a field of a `Gateway` object, with
    operations that start, join and settle it.
- **The two local stores** (`Storage`, `SessionManager`, `ConfigManager`).
  - `session.json` with required-field validation, owner-only mode and the
    expiry check.
  - `config.json` as one string-keyed map, read and rewritten whole.
- **The two credential holders**, each a class with a mutable
  `credentials` field.
  - `AuthClient` has its own refresh-then-retry-once on 401.
  - `JiraClient` chooses a Basic or a Bearer header and validates stored
    credentials.
- **The command registry and argument parser** (`CommandRegistry`).
- **The service commands** (`Services`, `Connect`, `Disconnect`, `Connections`).
  - Service validation and display names.
  - The connect request bodies and the session id the backend returns.
  - The `shouldPoll` rule and the bounded authorization poll.
  - The guard chain of `disconnect`.
  - The rows and JSON entries of `connections`.

The network is a `Network` object (`Http`). It hands out a fixed script of
replies, the `served`-th reply to the `served`-th `fetch`, and keeps a ghost
log of every request made. Contracts name replies by their position in the
script, so a property can speak of "the reply to the poll's first status
request".
Counting the log's business requests (`ApiCalls`) and POSTs (`Posts`) states
the retry bound and "nothing is sent". The disk is one `Disk` object whose
fields are the two files. The current time and the date parser are
parameters. The prompt answers, the email and the password are inputs.

Where the code and its stated design disagree, the model follows the code
and records the difference under "## Findings". There are three such places:
an unparsable expiry counts as not expired; the refresh cell is not cleared
on one path; and the browser flow's poll calls the global `fetch` with a
relative URL. The corrected behaviour is the one the rest of the model uses:
in particular `Connect.ConnectThroughBrowser` polls through `apiFetch`, as
the credentials flow does.

## Model

| member | source | states |
|---|---|---|
| SessionManager.Encode | src/core/sessionManager.ts:35-44 | the written document has the three required keys, and `session_id` exactly when it is defined |
| SessionManager.Decode | src/core/sessionManager.ts:15-33 | null for an absent or unparsable file; a record exactly when all three required fields are non-empty strings; the record's fields are the stored ones; never a partial record |
| SessionManager.LoadSession | src/core/sessionManager.ts:15-33 | what `loadSession` returns is always complete |
| SessionManager.SaveLoadRoundTrip | src/core/sessionManager.ts:35-44 | saving a record and loading it gives the record back when it is complete, and null otherwise |
| SessionManager.SaveSession | src/core/sessionManager.ts:35-44 | the file holds the record with mode 0o600, the config file is untouched, and the next load is the round trip |
| SessionManager.ClearSession | src/core/sessionManager.ts:46-50 | afterwards there is no file, whatever the state before, and `loadSession` returns null |
| SessionManager.UnparsableExpiryTrusted | src/core/sessionManager.ts:52-61 | as written, a non-empty expiry that does not parse counts as not expired |
| SessionManager.IsSessionExpiredAsWritten | src/core/sessionManager.ts:52-61 | as written: expired for a null session or an empty expiry; otherwise expired iff the expiry parses and now >= expiry |
| SessionManager.IsSessionExpired | src/core/sessionManager.ts:52-61 | expired for a null session or an empty expiry; otherwise expired iff the expiry does not parse or now >= expiry |
| SessionManager.ExpiryReadingsAgreeOnParsable | src/core/sessionManager.ts:57-60 | the fail-safe and as-written readings differ exactly on a non-empty, unparsable expiry |
| ConfigManager.Parse | src/core/configManager.ts:9-12 | a missing file is the empty map; a malformed file is an error that propagates; otherwise the stored map |
| ConfigManager.Load | src/core/configManager.ts:9-12 | `load()` fails iff config.json is malformed; a missing file loads as `{}`; otherwise the stored object |
| ConfigManager.Get | src/core/configManager.ts:19-22 | fails iff the file is malformed; otherwise the stored value or undefined |
| ConfigManager.Save | src/core/configManager.ts:14-17 | `load()` after `save(m)` returns `m`; the session file is untouched |
| ConfigManager.Set | src/core/configManager.ts:24-28 | fails without writing iff the file is malformed; otherwise `get(k)` is `v` and every other key is unchanged |
| ConfigManager.Delete | src/core/configManager.ts:30-34 | fails without writing iff the file is malformed; otherwise `k` is absent and every other key is unchanged |
| UrlQuery.Delete | src/core/apiClient.ts:182 | no pair with the key is left; every other pair is kept (a pair is in the result iff it is in the input and has another key); a query without the key is unchanged |
| UrlQuery.DeleteLength | src/core/apiClient.ts:182 | the query shrinks by exactly the number of pairs with the key |
| UrlQuery.DeleteConcat | src/core/apiClient.ts:182 | deleting distributes over concatenation, so the remaining pairs keep their order and repetitions |
| UrlQuery.Set | src/core/apiClient.ts:179 | `searchParams.set`: the key occurs exactly once, with the new value; the pairs before its first occurrence are unchanged, that occurrence takes the new value in place, and the later pairs stay in order without the key; an absent key is appended; other pairs are kept |
| UrlQuery.SetThenDelete | src/core/apiClient.ts:170-185 | deleting after setting leaves what deleting alone leaves |
| UrlQuery.DeleteAppend | src/core/apiClient.ts:179-182 | appending a pair with the key and then deleting the key leaves what deleting alone leaves |
| ApiClient.BuildHeaders | src/core/apiClient.ts:117-126 | the JSON content type unless the caller overrides it, the caller's headers, and `Bearer <token>` exactly when the stored session has an access token |
| ApiClient.CodeValue | src/core/apiClient.ts:144-151 | `body.code`, else `body.error`, else `""`, on truthiness |
| ApiClient.Classify | src/core/apiClient.ts:151-153 | each of the three codes iff the code value equals its name exactly; no code or error is unrecognised |
| ApiClient.FailureMessage | src/core/apiClient.ts:276-278 | `body.message`, else `body.error`, else "Authorization failed." |
| ApiClient.MapSession | src/core/apiClient.ts:34-39 | `session_token` is preferred over `token`; missing fields become `""`; `session_id` is taken as is |
| ApiClient.RewriteSessionParam | src/core/apiClient.ts:170-185 | a path without a `session_id` parameter is unchanged; with one, the first occurrence is replaced in place by the new id and later occurrences are dropped, or every occurrence is deleted when there is no id; other pairs and the path name are kept |
| ApiClient.ConfigSessionId | src/core/apiClient.ts:173-179 | a config session id is used iff it is truthy |
| ApiClient.AfterRetry | src/core/apiClient.ts:129-142 | the retry's reply: a network failure or a non-401/403 response is passed on as is; a 401/403 is "failed after retry" |
| ApiClient.Reloaded | src/core/apiClient.ts:160 | `loadSession()` right after saving a record gives the record when it is complete and null otherwise |
| ApiClient.MissingRetryId | src/core/apiClient.ts:173-179 | the id the `TOKEN_MISSING` branch rewrites the path with is the new record's id whenever that is truthy |
| ApiClient.MissingPlan | src/core/apiClient.ts:154-204 | `TOKEN_MISSING` retries iff the init reply is ok JSON, is persisted and reloads as a complete record (and, for a path with `session_id`, the config can be read); otherwise it fails with the generic init error or the init status error |
| ApiClient.ExpiredPlan | src/core/apiClient.ts:206-242 | `TOKEN_EXPIRED` retries iff a refresh runs, its reply is persisted and the record reloads complete, and then keeps the path; it fails with "session expired" iff no refresh runs or its reply is not persisted; the only other failure is "refresh failed" |
| ApiClient.UnrecognizedPlan | src/core/apiClient.ts:250-278 | another code retries iff init is allowed and its reply is persisted; otherwise it fails with `message`, `error` or "Authorization failed." |
| ApiClient.Planned | src/core/apiClient.ts:151-279 | `TOKEN_INVALID` always gives up with "invalid session"; a retry always follows an ok JSON reply |
| ApiClient.MissingTokenRetryCarriesNewToken | src/core/apiClient.ts:154-204 | a request rejected with `TOKEN_MISSING` whose init reply carries `session_token` "abc" is retried at the same path with `Authorization: Bearer abc`, and the retry's reply gives the result |
| ApiClient.Gateway.Persist | src/core/apiClient.ts:41-45 | saves the record with mode 0o600; mirrors a truthy session id into the config; fails iff that write meets a malformed config |
| ApiClient.Gateway.InitSession | src/core/apiClient.ts:19-48 | one POST /session/init; a non-ok status fails with that status; an ok JSON reply is mapped and persisted; the session id lands in the config |
| ApiClient.Gateway.BeginRefresh | src/core/apiClient.ts:50-68 | a caller that finds the cell set joins the held operation, with no new fetch; otherwise a new operation starts; without a refresh token it settles to false with no fetch and leaves the cell empty; with one, exactly one refresh request is sent |
| ApiClient.Gateway.BeginRefreshAsWritten | src/core/apiClient.ts:55-98 | as written, the no-token path leaves the cell holding its settled false |
| ApiClient.Gateway.SettleRefresh | src/core/apiClient.ts:70-95 | true iff the reply was ok JSON and was persisted; never throws; the cell is empty afterwards |
| ApiClient.Gateway.RefreshSession | src/core/apiClient.ts:50-99 | a joined call sends nothing and gets the operation's result; a fresh call without a session is false with no fetch; with one it sends one refresh and is true iff the reply was ok and persisted; the cell is empty afterwards |
| ApiClient.Gateway.RefreshSessionAsWritten | src/core/apiClient.ts:50-99 | as written, a call that finds a settled cell returns its false with no request |
| ApiClient.Gateway.RecoverMissing | src/core/apiClient.ts:154-204 | one init request and no business request; the outcome is `MissingPlan` of the init reply and the config before it; giving up leaves no session; a retry has the init reply's record stored |
| ApiClient.Gateway.RecoverExpired | src/core/apiClient.ts:206-242 | no business request and at most one refresh request; the outcome is `ExpiredPlan` of the cell, the stored session, the config and the next reply; giving up leaves no session; a retry has the refreshed record stored |
| ApiClient.Gateway.RecoverUnrecognized | src/core/apiClient.ts:250-278 | one init request exactly when init is allowed, else none; the outcome is `UnrecognizedPlan`; giving up leaves no session; a retry has the reloaded init record stored |
| ApiClient.Gateway.ApiFetch | src/core/apiClient.ts:107-283 | the first request carries the stored token; at most two business requests per top-level call; a non-401/403 response or a network failure is returned unchanged with no other request and no store change; a 401/403 on the retry clears the session and throws "failed after retry"; `TOKEN_INVALID` fails at once with no further request; every authentication failure leaves no session; a returned response never has status 401/403 (what a first-attempt 401/403 leads to is stated on `Recover`) |
| ApiClient.Gateway.ChooseRecovery | src/core/apiClient.ts:151-279 | the outcome is `Planned` of the classified code and the state before it; exactly `Fetches` requests are made, none of them business requests; giving up leaves no session; a retry has `RetrySession` stored |
| ApiClient.Gateway.Recover | src/core/apiClient.ts:135-280 | `TOKEN_INVALID` sends nothing more; a recovery that gives up makes no business request and fails with its error; otherwise the request after the recovery's own is the retry, at the recovery's path with headers built from the recovered session, and the result is `AfterRetry` of that request's reply |
| ApiClient.Gateway.FinalAttempt | src/core/apiClient.ts:107-142 | the retry (`retryCount + 1`): exactly one request, at the path with the stored token; its reply decides via `AfterRetry`; a failure other than the network leaves no session |
| RefreshCell.ConcurrentRefresh | src/core/apiClient.ts:50-99 | any number of callers that discover an expiry before the refresh settles share one refresh request and all see the same result; the cell is empty afterwards |
| RefreshCell.StaleCellAsWritten | src/core/apiClient.ts:55-98 | as written, a refresh without a refresh token makes a later refresh return false with no request, although a session was saved in between |
| RefreshCell.CellClearedOnEveryExit | src/core/apiClient.ts:93-95 | with the cell cleared on every exit, the same sequence makes the second refresh send the stored refresh token |
| AuthClient.CredentialsFrom | src/modules/auth/authClient.ts:16-31 | credentials exactly when all four config keys are set, taken from those keys |
| AuthClient.SavedSessionReloads | src/modules/auth/authClient.ts:140-157 | four saved values are what a new client reads back, when all are non-empty |
| AuthClient.AuthHeaders | src/modules/auth/authClient.ts:95-101 | the caller's headers with `Authorization: Bearer <token>` and `Accept: application/json` set last |
| AuthClient.Refreshed | src/modules/auth/authClient.ts:76-80 | only the token pair changes; session id and account are kept |
| AuthClient.Client.constructor | src/modules/auth/authClient.ts:16-31 | the client holds the credentials read from the loaded config |
| AuthClient.Client.GetSessionId | src/modules/auth/authClient.ts:33-38 | the in-memory session id when it is set, otherwise the config value (an unreadable config throws) |
| AuthClient.Client.RefreshToken | src/modules/auth/authClient.ts:54-89 | false with no request when unauthenticated; otherwise one refresh request; false on a rejected fetch, a non-ok status or a body that is not JSON; on success only the token pair changes, and exactly `token` and `refresh_token` are written |
| AuthClient.Client.MakeAuthenticatedRequest | src/modules/auth/authClient.ts:91-123 | throws before any request when unauthenticated; only a 401 triggers a refresh; a failed refresh throws; after a refresh the request is sent once more with the new token and that response is returned as is; at most three requests, two of them the request itself |
| AuthClient.Client.UpdateSessionId | src/modules/auth/authClient.ts:125-138 | writes `session_id` and nothing else; creates credentials with empty tokens when there were none, so the client is authenticated |
| AuthClient.Client.SaveSession | src/modules/auth/authClient.ts:140-157 | all four in-memory fields are set and all four config keys written; a new client reads them back |
| AuthClient.Create | src/modules/auth/authClient.ts:16-31 | a config file that does not parse makes the constructor throw; otherwise a client with the config's credentials |
| CommandRegistry.AddKey | src/core/commandRegistry.ts:15-18 | a new key goes last and a present key keeps its place, so the key order has no repeats |
| CommandRegistry.ValuesOf | src/core/commandRegistry.ts:28 | the table's values in key order |
| CommandRegistry.FirstOfEachNameSpec | src/core/commandRegistry.ts:25-35 | the listing names each name of the values exactly once and lists only those values |
| CommandRegistry.FirstOfEachNameKeepsFirst | src/core/commandRegistry.ts:25-35 | each listed command is the first of its name in map order |
| CommandRegistry.ListingCoversTable | src/core/commandRegistry.ts:25-35 | every registered command's name is listed, and only registered commands are listed |
| CommandRegistry.StripDashes | src/core/commandRegistry.ts:49 | the argument with all its leading dashes removed |
| CommandRegistry.ScanCollectsPositionals | src/core/commandRegistry.ts:45-60 | the scan collects exactly the positional arguments, in order: every argument that is neither a flag nor a flag's consumed value |
| CommandRegistry.ScanOptionKeys | src/core/commandRegistry.ts:45-53 | the scan's option keys are the initial keys plus every flag name from the current index on |
| CommandRegistry.ScanKeepsUnnamed | src/core/commandRegistry.ts:45-53 | a key that no later flag names keeps the value it had |
| CommandRegistry.ScanCollectsOptions | src/core/commandRegistry.ts:45-56 | the last flag of each name decides its value: the next argument when non-empty and undashed, else `true` |
| CommandRegistry.Registry.GetCommand | src/core/commandRegistry.ts:21-23 | a command exactly for a registered key, filed under its name or its alias |
| CommandRegistry.Registry.Register | src/core/commandRegistry.ts:14-19 | the command is retrievable by its name and by a non-empty alias; a present key is overwritten in place; other keys are unchanged |
| CommandRegistry.Registry.GetAllCommands | src/core/commandRegistry.ts:25-35 | the first command of each name in key order: no name twice, every registered command's name present, only registered commands; an alias adds no duplicate |
| CommandRegistry.Registry.ParseArgs | src/core/commandRegistry.ts:37-67 | `argv[0..1]` are ignored; `command` is the first positional argument (undefined when there is none) and `args` is the rest, in order; the options are keyed by each flag without dashes, with the last flag's value |
| JiraClient.Decode | src/modules/auth/jiraClient.ts:22-31 | stored credentials are accepted exactly when `baseUrl` is set and either `accessToken`, or both `email` and `apiToken`, are set |
| JiraClient.Encode | src/modules/auth/jiraClient.ts:144 | the stored object always has `baseUrl`; undefined fields are left out |
| JiraClient.EncodeRoundTrip | src/modules/auth/jiraClient.ts:128-160 | stored credentials read back as they were written |
| JiraClient.SavedCredentialsReload | src/modules/auth/jiraClient.ts:22-31 | a client built after a save holds the saved credentials exactly when the constructor accepts them |
| JiraClient.AuthHeader | src/modules/auth/jiraClient.ts:33-51 | "Not authenticated" with no credentials; Basic when `authType` is basic and email and API token are set; else Bearer when there is an access token; else "Invalid credentials" |
| JiraClient.AcceptedCredentialsAuthorize | src/modules/auth/jiraClient.ts:22-51 | accepted credentials yield no header exactly when they have no access token and are not Basic |
| JiraClient.ExpiresAt | src/modules/auth/jiraClient.ts:134 | an expiry exactly when `expiresIn` is truthy, at now + 1000 * expiresIn |
| JiraClient.Client.constructor | src/modules/auth/jiraClient.ts:22-31 | the client holds the stored credentials the constructor accepts |
| JiraClient.Client.IsAuthenticated | src/modules/auth/jiraClient.ts:167-169 | a client without credentials has no header ("Not authenticated") and no base URL |
| JiraClient.Client.GetBaseUrl | src/modules/auth/jiraClient.ts:171-173 | the base URL when there are credentials with a non-empty one, else null |
| JiraClient.Client.Store | src/modules/auth/jiraClient.ts:144 | the object is written under `jira` and nothing else changes; a new client reads it back when acceptable |
| JiraClient.Client.SaveCredentials | src/modules/auth/jiraClient.ts:128-145 | OAuth credentials, with an expiry only for a truthy `expiresIn`, are held and persisted under `jira`; the header is Bearer |
| JiraClient.Client.SaveCredentialsWithBasicAuth | src/modules/auth/jiraClient.ts:147-160 | Basic credentials with no access token are held and persisted under `jira`; the header is Basic |
| JiraClient.Client.ClearCredentials | src/modules/auth/jiraClient.ts:162-173 | not authenticated, no base URL, and `jira` removed with every other key unchanged |
| JiraClient.Client.GetMyself | src/modules/auth/jiraClient.ts:97-126 | throws before any request without a usable header; otherwise one GET; 401 asks to re-authenticate, another non-ok status reports it, an ok reply gives its body |
| JiraClient.Create | src/modules/auth/jiraClient.ts:22-31 | a config file that does not parse makes the constructor throw; otherwise a client with the decoded credentials |
| Services.ValuesDistinct | src/modules/auth/types.ts:56-61 | the four enum values are distinct |
| Services.SupportedIsEveryServiceOnce | src/modules/auth/commands/connect.ts:27-32 | `SUPPORTED_SERVICES` lists every service exactly once |
| Services.DisplayName | src/modules/auth/commands/connect.ts:14-22 | the fixed, non-empty label of each service |
| Services.DisplayNamesDistinct | src/modules/auth/commands/connect.ts:14-22 | no two services share a label |
| Services.Lower | src/modules/auth/commands/connect.ts:41 | lower-cases each character of the text |
| Services.Named | src/modules/auth/commands/connect.ts:42-44 | finds the service whose value is the text, when there is one |
| Services.ServiceFlag | src/modules/auth/commands/connect.ts:219 | the `-s` flag when truthy, else `--service` |
| Services.ValidateService | src/modules/auth/commands/connect.ts:34-51 | null for a missing, empty or valueless flag; a result exactly when the lower-cased text is a service's value, and that service is supported (the copy in `disconnect.ts` at lines 30-47 is identical) |
| Services.ValidateIgnoresCase | src/modules/auth/commands/connect.ts:41-50 | a spelling selects a service exactly when it lower-cases to that service's value |
| Services.Capitalized | src/modules/auth/commands/connect.ts:392 | the value with its first letter upper-cased |
| Services.CapitalizedIsDisplayName | src/modules/auth/commands/connect.ts:392 | for every service but KYG Trade it equals the display name |
| Services.StoredSessionId | src/modules/auth/commands/connect.ts:234-235 | the stored session id exactly when it is truthy |
| Services.EntryOf | src/modules/auth/commands/connect.ts:244-245 | the lookup throws exactly when `connections` is undefined or null; otherwise the service's entry, which is missing when there is none |
| Services.Reading | src/modules/auth/commands/connect.ts:241-247 | a reading exactly for an ok JSON reply with a `connections` object; connected iff `connected === true` |
| Services.CheckConnected | src/modules/auth/commands/connect.ts:236-263 | one status request for the session; every error is swallowed; a plain reply is read by `Reading`, with exactly one request sent and neither file changed (`disconnect.ts` makes the same check at lines 76-104) |
| Connect.ConnectBody | src/modules/auth/commands/connect.ts:275 | `session_id` is in the body exactly when a session id is stored, with that value, and nothing else is |
| Connect.CredentialsBody | src/modules/auth/commands/connect.ts:95-100 | email and password, plus `session_id` exactly when one is stored |
| Connect.RefusalMessage | src/modules/auth/commands/connect.ts:112-118 | `error`, else `message`, else "Failed to connect: <status> <text>"; a body that is not JSON counts as `{}` |
| Connect.KeepSessionId | src/modules/auth/commands/connect.ts:293-296 | a truthy session id in the reply is written to the config, with the other keys unchanged; fails only on a malformed config |
| Connect.StatusStep | src/modules/auth/commands/connect.ts:161-196 | "completed" ends the poll and "pending" continues it, each iff that is the status; status 400 is its own error; another non-ok status, a body that is not JSON or any other status is an error |
| Connect.StepOf | src/modules/auth/commands/connect.ts:157-196 | the step a status reply gives when `apiFetch` passes it through: a rejected fetch stops the poll with the network error; a delivered response is read by `StatusStep` |
| Connect.UnsettledIsPlain | src/modules/auth/commands/connect.ts:161-189 | a reply that leaves the poll pending or ends it authorised is an ok response that `apiFetch` passes through |
| Connect.FirstSettledStep | src/modules/auth/commands/connect.ts:154-207 | when the replies to the first `j` checks are pending and the next one is passed through and is not, the run has exactly `j + 1` steps, its last is that reply's step, and the poll ends in success, that step's error, or neither |
| Connect.AllPendingTimesOut | src/modules/auth/commands/connect.ts:154-207 | 150 pending replies in a row make a run of exactly 150 steps that times out |
| Connect.CheckStatus | src/modules/auth/commands/connect.ts:157-159 | one `apiFetch` of the state's status path, one or two business requests and no POST; a reply that `apiFetch` passes through gives `StepOf` that reply, with exactly one request and the config untouched |
| Connect.AwaitAuthorization | src/modules/auth/commands/connect.ts:154-207 | at most 150 checks, every step but the last pending and the loop stopping at the first other step; between one and two business requests per check and no POST; the first request is the status path; while the replies are passed through, step `i` is `StepOf` the `i`-th reply and nothing else is sent or stored |
| Connect.PollAuthorization | src/modules/auth/commands/connect.ts:154-207 | the run of `AwaitAuthorization`, tied to the script's replies from the first check on while they need no recovery (so `FirstSettledStep` and `AllPendingTimesOut` decide it); a stopped run reports its error and 150 pending checks time out; a completed run keeps the session id, and fails only when a truthy id meets a malformed config; at least one business request per check |
| Connect.Caught | src/modules/auth/commands/connect.ts:371-383 | an error whose message names "fetch failed" or "ECONNREFUSED" becomes "cannot connect"; any other is rethrown |
| Connect.RawFetch | src/modules/auth/commands/connect.ts:332-334 | `fetch` of a relative URL rejects before sending; an absolute one sends one request |
| Connect.PollRaw | src/modules/auth/commands/connect.ts:328-389 | the as-written loop stops at its first attempt on a relative URL, with nothing sent and the config unchanged |
| Connect.PollAsWritten | src/modules/auth/commands/connect.ts:328-389 | the browser flow's poll as written ends in the URL error and sends nothing |
| Connect.Accepted | src/modules/auth/commands/connect.ts:121-185 | a truthy session id that meets a malformed config stops it with nothing sent; without an authorization URL and state the credentials connect with nothing more sent; otherwise the poll from the next reply decides, and a completed poll connects |
| Connect.ConnectWithCredentials | src/modules/auth/commands/connect.ts:53-212 | the credentials are posted with the stored session id; a refusal reports its message; the reply's session id is kept; without an authorization URL the credentials alone connect with one request; with one, the poll from the reply after the post decides, and a completed poll connects |
| Connect.BrowserAccepted | src/modules/auth/commands/connect.ts:294-389 | after an accepted initiate reply: a truthy session id that meets a malformed config stops it; a missing URL or state is an error; the poll runs iff `shouldPoll`, and without it the reply connects; a poll reports its run's error through `Caught`, and a rejected first status fetch is "cannot connect" |
| Connect.ConnectThroughBrowser | src/modules/auth/commands/connect.ts:273-394 | the body carries the session id exactly when one is stored; a non-ok reply fails to initiate; a missing URL or state is an error; the poll runs iff `!hadSessionId \|\| session_reset === true`, through `apiFetch`; without a poll the accepted reply connects; with one, the replies after the initiate reply decide, a completed poll connects and a rejected first status fetch is "cannot connect"; the returned session id is kept |
| Connect.ConnectService | src/modules/auth/commands/connect.ts:266-394 | never "already connected"; the first request is the credentials post for KYG Trade and the initiate post otherwise; accepted credentials without a URL connect; a first browser connection connects when the first status reply is "completed" and times out after 150 "pending" ones |
| Connect.ConnectCommand | src/modules/auth/commands/connect.ts:214-399 | an unreadable config ends it; already connected iff the status reads connected, and then no POST is made; with no stored session the first request is the connect, without a session id; a first KYG Trade connection whose credentials are accepted outright connects; a first browser connection connects when the first status reply is "completed" and fails with a timeout after 150 "pending" ones; a success names the service's display name |
| Disconnect.Finish | src/modules/auth/commands/disconnect.ts:126-151 | a non-ok reply fails with its status; an ok JSON reply disconnects, with `data.message` or "<display name> disconnected successfully." |
| Disconnect.DisconnectCommand | src/modules/auth/commands/disconnect.ts:49-156 | no session id: nothing sent; a status reading of "not connected" ends it; status-check errors are swallowed; no POST unless confirmed; once confirmed with a session stored and no "not connected" reading, the disconnect request is made and `Finish` of its result is the outcome; while the replies need no recovery, the reading is `Reading` of the first reply, the result is the second, and the second request is the disconnect with the stored session id and token |
| Connections.UserOf | src/modules/auth/commands/connections.ts:118 | the user of a connection exactly when `conn.user` is truthy |
| Connections.FormatUserInfo | src/modules/auth/commands/connections.ts:34-44 | "-" with no user; the name, then "(email)" when the email is present and differs from the name, joined by one space; "-" when neither part applies |
| Connections.SameNameAndEmailShownOnce | src/modules/auth/commands/connections.ts:41 | a name equal to the email is shown once |
| Connections.NoSessionRows | src/modules/auth/commands/connections.ts:60-66 | one row per supported service, in order, each not connected with "-" |
| Connections.Rows | src/modules/auth/commands/connections.ts:112-120 | one row per supported service, in order: display name, `connected === true`, formatted user; none when the lookup throws |
| Connections.Entries | src/modules/auth/commands/connections.ts:93-103 | one JSON entry per supported service, in order, with its flag, user and metadata |
| Connections.MissingEntryNotConnected | src/modules/auth/commands/connections.ts:113-120 | a service the backend does not list is not connected, in both forms |
| Connections.Listed | src/modules/auth/commands/connections.ts:80-106 | a non-ok reply fails with its status; otherwise JSON entries when requested, else the table |
| Connections.ConnectionsCommand | src/modules/auth/commands/connections.ts:46-133 | with no session every service is listed not connected and nothing is sent; otherwise one status request for the session, listed by `Listed` |

## Left out

- Real I/O is left out: the file system, `fetch` itself, the browser, prompts, spinners, colours, console output, the sleeps between polls and `process.exit`. They are replaced by the `Disk` and `Network` objects, scripted replies, and outcome datatypes.
- JavaScript promise concurrency is left out. The refresh cell's start, join and settle are sequential steps of one caller.
- `Buffer` base64 in the Jira Basic header is left out: the header keeps the user and password as a datatype.
- `URL` parsing is left out. A path is its name plus its query as a list of pairs, and text is interpolated into it without percent-encoding.
- `Date` parsing is a parameter, and times are integer milliseconds.
- JSON values have no arrays and no fractional numbers.
  - A document that is not an object counts as unparsable (session file) or malformed (config file).
  - A non-string value where the source casts `as string` reads as absent.
- `exchangeCodeForToken` and `getCredentials` in `jiraClient.ts` are left out. The first is a network token exchange outside this core; the second returns the field as is.
- `ConnectWithCredentials`: the email prompt's validation and `trim()` are left out. The email is an input, taken to be already trimmed.
- `ConnectCommand`, `DisconnectCommand`: the usage message and exit for a missing or unknown service flag are left out. These commands take the service `ValidateService` returned.
- `Services.Lower`: `toLowerCase` is modelled for ASCII letters only.
- `Connect.Caught`: a JSON syntax error always counts as not naming an unreachable backend. V8 quotes the start of the unparsable text in its message, so a reply body that begins with "fetch failed" would be caught in the code.
- `Connect.RawFetch`: how an absolute URL is parsed is not modelled; the caller's pathname is relative in every use.
- `ApiClient.Gateway.ApiFetch`: callers' request options other than headers and a JSON body are not modelled, because no caller passes any.
- `ApiClient.Gateway.ApiFetch`: a 401/403 reply whose body is the JSON text `null` makes `body.code` at `apiClient.ts:151` throw a `TypeError`, which escapes `apiFetch`. A response body here is either an object or not JSON, so the model reads that body as `{}` and picks the unrecognised-code branch.
- `ApiClient.RewriteSessionParam`: the code tests `path.includes("session_id=")` (`apiClient.ts:171`, `:227`, `:259`), a substring test on the whole path; the model tests for a query parameter named exactly `session_id`. They differ on a path such as `?my_session_id=1`, where the code appends a `session_id` parameter and the model leaves the path unchanged, and on a bare `?session_id` with no `=`.
- `AuthClient.Refreshed`: a refresh reply without `token` or `refresh_token` gives the field `undefined` in the code, so the next request is sent with `Bearer undefined` and `ConfigManager.set` drops the key from `config.json`. The model stores `""` for a missing field (`authClient.ts:76-83`).
- `AuthClient.Client.IsAuthenticated` has no contract of its own: it is `credentials !== null`, and what it means is stated by the constructor (the credentials read from the config), by `MakeAuthenticatedRequest` (no credentials: it throws before any request) and by `UpdateSessionId` (the client is authenticated afterwards).
- `Connect.PollAuthorization`: the steps are tied to the script's replies only while every reply so far needs no recovery. After a 401/403 inside a status check, the run's bounds and its report still hold, but the model does not say which later reply each step reads.
- Response bodies have no JSON arrays, strings, numbers or `null` at the top level; such a body counts as not JSON.
- The source files `oauthServer.ts`, `pkce.ts`, `markdown.ts`, `table.ts`, `logger.ts`, `index.ts` and `moduleLoader.ts` are not part of this model. Neither are the rendering commands (`ask`, `health`, `doctor`, `status`, `whoami`, `logout`, `reauth`, `login`).
- The exported singletons `authClient` and the module-level `refreshPromise` are one object each. Operations take that object as a parameter.

## Findings

| source | as written | input that shows it | evidently intended | confidence | as-written member | corrected member |
|---|---|---|---|---|---|---|
| src/core/sessionManager.ts:57-60 | `new Date(expires_at)` of unparsable text is an Invalid Date; `now >= Invalid Date` is false, so the session counts as not expired | a session with `expires_at` = "soon" | an unparsable expiry counts as expired, failing toward re-authentication | high; not executed | SessionManager.UnparsableExpiryTrusted | SessionManager.IsSessionExpired |
| src/core/apiClient.ts:55-96 | with no refresh token the async body returns before its first `await`, so its `finally` empties the cell before line 55 stores the settled promise; the cell keeps `false` for the life of the process | `refreshSession()` with no session file, then `saveSession(s)`, then `refreshSession()` again: the second returns false with no request | the cell is empty after every exit, so the second call refreshes with the saved token | high; not executed | RefreshCell.StaleCellAsWritten | RefreshCell.CellClearedOnEveryExit |
| src/modules/auth/commands/connect.ts:332-334 | the browser flow's poll calls the global `fetch` with the relative URL `/auth/status/<state>`; Node's `fetch` rejects it with "Failed to parse URL from …" before sending, and the `catch` rethrows that | `connect -s jira` with no stored session, the backend answering with an authorization URL and state | poll through `apiFetch`, as the credentials flow does at line 157 | high; not executed | Connect.PollAsWritten | Connect.PollAuthorization |

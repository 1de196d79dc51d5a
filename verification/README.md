# A verified model of the Kite MCP OAuth server

The repository is the authorization server in front of a Model Context Protocol server: it registers clients, sends
people to Kite (a broker) to log in, hands out single-use authorization codes under PKCE, turns them into signed access
tokens, and keeps browser sessions and a fifteen-minute admin elevation beside that (RFC 6749 section 4.1, RFC 7636
section 4.6). This project models its stores, its token issuer, its handlers and the codecs that carry state through
redirects, and proves what every run of them keeps.

## How it is put together

- `AuthCodeStore.dfy`, `ClientStore.dfy`, `JwtManager.dfy`: the stateful objects as classes that work on their fields in
  place. Each method is proved against a function of the old state (`Apply`, `Save`, `Accepts`); theorems about whole
  histories of calls are about folds of those functions.
- `Persistence.dfy`: writes to the clients' database while they are under way. A mutation takes its snapshot under the lock and
  writes it after the lock is released, so writes may land in another order than the mutations.
- `Base64Url.dfy`, `BrowserTarget.dfy`, `RedirectQuery.dfy`, `RedirectUrl.dfy`: the codecs, on byte strings.
- `Protocol.dfy`: the server as a state machine. An event is one access to a shared store with the work on local data that
  follows it in the same request; `Legal` says what evidence an event needs, and any events of other requests may come
  between the gathering of the evidence and its use. A restart is an event as well: codes are gone, clients come back from
  the database as far as writes landed there, and the keys may be others; cookies, tokens and signed states live on.
- `Invariants.dfy`: the inductive invariant and what is never forgotten. `Theorems.dfy`: provenance, single use, session
  and elevation bounds, completeness, identity, conservation over all legal runs, and the runs in which a bound fails.
- `Restarts.dfy`: what a restart brings back, and key rotation by restarts.
- `Handler.dfy`: the HTTP handlers as methods, branch by branch. Between two store accesses a handler calls `Others`, which
  lets an arbitrary legal run of other requests happen. Every handler is proved to append legal events only, so the
  theorems hold of the handlers in any interleaving. The constructor `Restarted` continues an earlier record. The field
  `trace` is bookkeeping of the model.
- `Outcomes.dfy`, `LoginOutcomes.dfy`: what each endpoint answers, case by case, in the terms of the request and the stores
  alone, and what the theorems give to a caller.
- `Journeys.dfy`: what several requests of one client come to: registering and authenticating, a first and a later login.

Moments are nanoseconds. What comes from outside (Kite, the registry, the user store, the clock, random values, whether a
write to the database succeeds, whether a CSRF check passes) is a parameter or an arbitrary choice.

What is taken for granted: random values are new; a token that checks out under one of the server's keys was minted by the
server before the request that brings it arrived; a signed OAuth state that verifies is one the server signed.

## Results that differ from the comments in the code

- `ValidateToken` (jwt.go:87-88) is said to accept a token that has at least one of the audiences asked for. It requires
  the first one, and the loop over the further ones never changes the verdict (jwt_test.go:224-230 agrees with the code).
- `RequireAdminMFA` (handlers_admin_mfa.go:17-23) is said to need enrolment as well as the cookie. Once the cookie is valid,
  enrolment is not looked at (217-223).
- The 7 days of a session and the 15 minutes of an elevation rest on no client being called `dashboard` or `admin-mfa`:
  unknown client ids are registered on sight (handlers_oauth.go:53-54), and a token's audience is its client id.
  `SessionsAreCookies` and `ElevationIsRecent` give the exact conditions, for all runs. With the name `admin-mfa` there is
  a run in which the gate opens though no second factor was ever passed (`GateOpensWithoutSecondFactor`); with the name
  `dashboard` a single login keeps a session up for ever (`SessionsUnderThatNameNeverEnd`).
- The comment on the elevation audience (handlers_admin_mfa.go:35-37) says such a token cannot be used on the protected
  resource. `RequireAuth` turns away the audience `dashboard` only (middleware.go:63), so it lets every unexpired elevation
  token pass (`BearersAreGrantsAndElevations`).
- A dynamically registered client is not safe from the registration on sight either: once its id has left memory, by an
  eviction or a restart that cannot read the database, any request that names it makes it a Kite client with that
  request's redirect URI and no secret (`LostClientIsRegisteredOnSight`, exact condition in
  `DynamicUnlessRegisteredOnSight`).
- Writes for one client may land in the wrong order, both accepted, since they are made after the lock is released
  (stores.go:339-346). A restart then takes a validated redirect URI away again (`ReorderedWritesLoseAURI`).
- `LoadFromDB` does not apply the cap on clients, and eviction leaves the evicted client's row in the database: a reload
  brings back every client that ever was (`ReloadRestoresEveryClient`).
- `evictOldest` uses the empty string for "none found yet". A client with that id is never evicted, and exactly if it is
  older than all others no oldest client is. The handlers never create such a client; a database row could.
- A redirect URI whose bracketed host has a zone with bytes outside ASCII is accepted, but the URL printed for it is none
  that can be parsed (`RedirectReadsBack`, `SomeZonesAreLost`).

## Model

| member | source | states |
|---|---|---|
| AuthCodes.AuthCodeStore.Generate | stores.go:56-70 | A code is handed out exactly if fewer than 10000 are pending; then the store gains exactly that code, good for ten minutes from now whatever expiry the caller's entry had. |
| AuthCodes.AuthCodeStore.Consume | stores.go:73-83 | The entry comes back exactly if it is pending and not past its expiry; the code is gone either way, and no other code is touched. |
| AuthCodes.AuthCodeStore.Cleanup | stores.go:89-107 | Whatever order the map is visited in, exactly the expired codes go. |
| AuthCodes.PendingHasOrigin | stores.go:56-83 | A pending code was stored by some call that found room, has that call's entry and expiry, and was not presented since. |
| AuthCodes.UnpresentedStays | stores.go:56-107 | A stored code that nobody presents is there, unchanged, for ten minutes, through any other calls and ticks. |
| AuthCodes.ConsumeIsDecidedByHistory | stores.go:73-83 | A presentation at t succeeds if and only if an earlier call returned that code, t is within ten minutes of it, and it was not presented in between; sweeper ticks do not matter. |
| AuthCodes.SweepsAreInvisible | stores.go:89-107 | As long as there is room anyway, every history answers every presentation exactly like the history without its ticks. |
| AuthCodes.CodesAreConserved | stores.go:52-107 | Codes issued are the disjoint union of codes pending, redeemed, and discarded as expired. |
| AuthCodes.PendingIsCapped | stores.go:25 | No history leaves more than 10000 codes pending. |
| AuthCodes.NoCodeOutstaysFifteenMinutes | stores.go:89-107 | While ticks come at most five minutes apart, a code still pending was issued at most fifteen minutes ago. |
| AuthCodes.FullStoreRecovers | stores.go:61-107 | Fifteen minutes on, none of the codes that filled the store is left. |
| Clients.ClientStore.EvictOldest | stores.go:194-206 | In any visiting order at most one client goes, never one with the empty id; a client none is older than goes if and only if no client with the empty id is older than all others. |
| Clients.ClientStore.Register | stores.go:209-239 | The client is stored under the given id with the given secret, URIs and name, and its row written column by column if the backend accepts it; at the cap an oldest client makes room, under the exact condition of EvictOldest. |
| Clients.ClientStore.RegisterKiteClient | stores.go:274-302 | Does nothing for a known id; otherwise stores a Kite client without a secret, with the same eviction and write-through. |
| Clients.ClientStore.AddRedirectURI | stores.go:314-347 | Appends a URI exactly if the client is known, has fewer than ten and does not have it, and then writes the row. |
| Clients.ClientStore.ValidateRedirectURI | stores.go:257-270 | True exactly if the client is known and the URI is in its list. |
| Clients.ClientStore.LoadFromDB | stores.go:167-191 | On success memory is overlaid with what the rows stand for, in whatever order they are listed; on failure nothing changes. |
| Clients.LoadingRestores | stores.go:178-190 | The order in which the backend lists its rows has no influence on what is loaded. |
| Clients.LiveClientsAreTheNewest | stores.go:194-229 | Refinement to a bounded queue: with strictly increasing creation times the live clients are exactly the 10000 created last, for every visiting order. |
| Clients.ClientSurvivesLaterCreations | stores.go:216-229 | A client outlives the next 9999 creations. |
| Clients.KiteURIListsAreSmallAndDistinct | stores.go:314-331 | In every history a Kite client has one to ten redirect URIs without duplicates. |
| Clients.LiveClientsOnlyGainURIs | stores.go:314-331 | While a client stays live its list only grows at the end and nothing else about it changes. |
| Clients.ReloadRestoresEveryClient | stores.go:167-191 | After any history of saved calls a reload gives, for every id ever live, the record it had when it was last live, and no other ids. |
| Clients.ReloadAgreesWithMemory | stores.go:231-236 | On every live client a reload agrees with memory. |
| Clients.SavedRowsNeverVanish | stores.go:296-301 | The set of saved ids never shrinks, evictions included. |
| Jwts.JWTManager.SetPreviousSecret | jwt.go:48-54 | From then on a token passes if and only if it would pass with the current key alone or, unless the slot was cleared, with the previous key alone. |
| Jwts.JWTManager.GenerateToken | jwt.go:57-70 | A token for that subject which passes exactly for the one client as audience, and exactly until the configured lifetime, cut to whole seconds, is over. |
| Jwts.JWTManager.GenerateTokenWithExpiry | jwt.go:73-86 | The same with a lifetime of the caller's. |
| Jwts.JWTManager.ValidateToken | jwt.go:98-138 | Accepts exactly if the token is signed with the current or a non-empty previous key, is unexpired, and has the first audience asked for; a rejection reports the primary key's error. |
| Jwts.GracefulRotationRejectsNothing | jwt.go:15-28 | If key changes keep the longest token lifetime apart, no unexpired token ever issued is rejected, across any number of rotations and clears. |
| Jwts.HastyRotationRejects | jwt.go:22-28 | That spacing cannot be shortened: two rotations closer than a token's lifetime reject a token that is still good. |
| Base64Url.DecodeInvertsEncode | handlers_oauth.go:116-117 | Decoding inverts encoding for every byte string, padded and raw (RFC 4648 section 5). |
| Base64Url.EncodingIsInjective | handlers_oauth.go:376-378 | Comparing encoded challenges compares SHA-256 digests. |
| Base64Url.DigitsAreTheAlphabet | handlers_oauth.go:377 | Digit n is entry n of the URL-safe alphabet (RFC 4648 section 5). |
| Base64Url.OnlyTheAlphabetIsRead | handlers_browser.go:32 | A byte is read as digit n if and only if it is that entry. |
| Base64Url.EncodingLength | handlers_oauth.go:377 | Raw encoding has no padding and the least length; padded encoding fills up groups of four. |
| Base64Url.AppendixBChallenge | handlers_oauth.go:376-377 | The digest of RFC 7636 appendix B is sent as the challenge given there. |
| Base64Url.EncodingHasNoSeparators | handlers_browser.go:90-93 | No encoding contains the signer's separators. |
| BrowserTarget.SplitFindsTheSeparator | handlers_browser.go:33-36 | Cutting at the first `::` returns email and redirect if the email splits cleanly, and a strictly shorter email otherwise. |
| BrowserTarget.TargetRoundTrip | handlers_browser.go:86-93 | Reading a printed target returns email and redirect if and only if the email has no `::` and does not end in `:`, and survives the local-path check if and only if the redirect is a local path. |
| BrowserTarget.FormatsAreDisjoint | handlers_browser.go:31-40 | Every printed target takes the base64 branch and every path starting with `/` the legacy branch. |
| BrowserTarget.PayloadsWithoutSeparator | handlers_browser.go:32-36 | A payload that decodes but has no `::` is for nobody and for the default page. |
| RedirectQuery.UnescapeInvertsEscape | handlers_oauth.go:172-181 | Percent-decoding a query component inverts encoding it. |
| RedirectQuery.UnescapeReadsWhatWrites | handlers_oauth.go:172 | A text is read as a byte string if and only if it is one of the ways to write it: bytes as they are, escapes in either case, plus signs for spaces. |
| RedirectQuery.ParseInvertsEncode | handlers_oauth.go:172-181 | Parsing a printed query returns every name with its values in order. |
| RedirectQuery.RedirectQueryRoundTrip | handlers_callback.go:166-176 | For any query, malformed ones included: the client finds exactly its own parameters, `code` replaced by the new code, `state` replaced exactly when the request had one. |
| RedirectQuery.WrittenParametersArrive | handlers_callback.go:166-176 | Every parameter the client wrote in its redirect URI, in whichever of those ways, arrives with its values in order, `code` and `state` apart. |
| RedirectUrl.RedirectReadsBack | handlers_callback.go:160-176 | For every http or https redirect URI that url.Parse accepts, bracketed IPv6 hosts with port and zone included: the URL the browser is sent to parses if and only if the host's zone, if any, is ASCII, and then has the same scheme, host and decoded path and exactly those parameters. |
| RedirectUrl.SomeZonesAreLost | handlers_callback.go:171-176 | The condition is needed: redirect URIs that parse and whose printed form does not. |
| RedirectUrl.UnescapeReadsWhatWrites | handlers_callback.go:160 | A host or path text is read as a byte string if and only if it is one of the ways to write it there. |
| RedirectUrl.WrittenURLIsRead | handlers_oauth.go:46-50 | Any http or https URL of a named host, however the scheme is capitalised: scheme, host with port, path with its escapes resolved and query come out, the fragment is dropped. |
| Invariants.InvKept | handlers_oauth.go:16-426 | Every legal step keeps the invariant: every code rests on a request that was accepted and on a session, an exchange or a request token; every response rests on an authenticated client, a matching verifier and a code that is gone; every token has one of three causes. |
| Invariants.InvAlways | handlers_oauth.go:16-426 | So it holds after every legal run. |
| Invariants.RunRemembers | stores.go:56-107 | Nothing recorded at some point of a run (codes issued, responses, registrations, signatures, logins, tokens) is lost or altered later, restarts included. |
| Theorems.ClientStoreInsideTheServer | handlers_oauth.go:52-63 | Until its first restart every run of the server is a legal history of the client store, whose Kite clients start with one URI. |
| Theorems.CodeStoreInsideTheServer | handlers_oauth.go:153-163 | Since its latest start every run is an orderly history of the code store: time does not run backwards and codes do not repeat. |
| Theorems.SignedStateDescendsFromARequest | handlers_oauth.go:110-117 | Every signed state, after any number of lookups, descends from one request whose redirect URI had been found registered; only its registry key may differ, and that has at least 8 characters. |
| Theorems.CodeGoesToAValidatedURI | handlers_oauth.go:60-70 | Every code is bound to the client, challenge and redirect URI of a request whose URI was registered for that client when it was checked. |
| Theorems.TokenResponseIsEarned | handlers_oauth.go:355-412 | A token response redeems a pending code; an earlier event issued that code, and one before that accepted the very request it answers, whose URI was registered; the client that request names was live and a Kite client or in possession of its secret, the verifier hashes to that request's challenge, and the token names that client and a non-empty subject. |
| Theorems.NoCodeIsRedeemedTwice | stores.go:73-83 | Different token responses redeem different codes, over all interleavings. |
| Theorems.GrantOpensDashboardOnlyUnderItsName | middleware.go:101-117 | An unexpired token from the token endpoint passes for a dashboard session if and only if its client is called `dashboard`. |
| Theorems.GrantElevatesOnlyUnderItsName | handlers_admin_mfa.go:217-223 | It passes for an elevation if and only if its client is called `admin-mfa`. |
| Theorems.SessionsAreCookies | middleware.go:135-150 | Whatever passes for a session was set as a cookie at a login of that person less than 7 days before, if and only if it was not granted to a client called `dashboard`. |
| Theorems.AcceptedBearerImpliesRecentLogin | handlers_oauth.go:139-189 | Session freshness: an accepted access token for someone means a real login of that person less than 7 days, 10 minutes and the token lifetime ago (plus three request durations), however often sessions were used to skip the login and the server was restarted. |
| Theorems.BearersAreGrantsAndElevations | middleware.go:53-68 | Exactly the unexpired tokens that are neither session cookies nor granted to a client called `dashboard` pass RequireAuth's own checks; elevation tokens do until they expire. |
| Theorems.TheBoundIsAttained | stores.go:61-82 | The freshness bound cannot be lowered by more than a second: a run in which a token is accepted that late. |
| Theorems.GateOpensWithoutSecondFactor | handlers_admin_mfa.go:205-224 | For a client called `admin-mfa`: a run in which the gate opens though nobody enrolled or verified a code. |
| Theorems.SessionsUnderThatNameNeverEnd | handlers_oauth.go:53-54 | For a client called `dashboard` there is no bound: runs with one login at time 0 in which a session is served arbitrarily late. |
| Theorems.PendingCodeSurvives | stores.go:73-107 | Whatever other steps short of a restart intervene, a pending code nobody presents past client authentication stays pending until it expires. |
| Theorems.CodeIsRedeemable | handlers_oauth.go:346-412 | Completeness: within ten minutes and after any such interference the client it was issued to can redeem it, given authentication, the right verifier and, if deferred, a successful exchange. |
| Theorems.LiveClientRedeemsItsCode | handlers_oauth.go:346-412 | All the way from the issue: a client that is live, whatever was evicted in between, can authenticate (a dynamic one with the secret it was once given) and redeem its code. |
| Theorems.DynamicClientsNeverChange | handlers.go:288-295 | Whenever a dynamically registered client is known as one, it has the same secret and redirect URIs, across evictions and restarts. |
| Theorems.DynamicUnlessRegisteredOnSight | handlers_oauth.go:53-54 | In every run, an id ever registered dynamically and known now has its registered secret and URIs if and only if it is not a Kite client; if it is one, it has no secret. |
| Restarts.LostClientIsRegisteredOnSight | handlers_oauth.go:53-54 | The other case happens: a run in which a registered client is lost and its id comes back with no secret and the URI of whoever named it. |
| Restarts.RestartKeepsClientsWithTheirRow | stores.go:167-191 | In every run, whatever the interleaving of mutations and writes, a restart that reads the database leaves a live client as it is if and only if the client's row is that of its latest mutation; codes are lost. |
| Restarts.RestartKeepsLiveClients | stores.go:229-236 | That is so for every client with no write under way, if all writes were accepted and those for one client landed in the order of its mutations. |
| Restarts.ReorderedWritesLoseAURI | stores.go:339-346 | The order is needed: two accepted writes the other way round, and a restart drops a validated redirect URI. |
| Restarts.GracefulRestartsRejectNothing | jwt.go:15-28 | If restarts hand the old key on and keep the longest token lifetime between a new key and the next change, no unexpired token the server ever issued is rejected, in any run. |
| Restarts.HastyRestartsEndSessions | jwt.go:22-28 | With two new keys closer than a session lasts, a run in which a fresh session is rejected. |
| Theorems.KiteListsStaySmall | handlers_oauth.go:53-58 | In every run, restarts included, Kite clients have one to ten distinct redirect URIs. |
| Theorems.NoCodeHasTwoIdentities | handlers_callback.go:44-140 | No stored code has both an email and a request token. |
| Theorems.CookieAndTokenAgree | handlers_callback.go:143-158 | If a callback set a cookie for someone, the code it issued yields a token for nobody else. |
| Theorems.ConsentsMatchCodes | handlers_callback.go:143-158 | With a recorder in place the number of consent events equals the number of codes callbacks issued to a named person. |
| Theorems.ElevationIsRecent | handlers_admin_mfa.go:205-224 | Whoever passes the gate with a token of the handlers passed a recorded check under the same email, up to case, less than 15 minutes (plus one request duration) ago; the token is an elevation at all if and only if it was not granted to a client called `admin-mfa`. |
| Handlers.Handler.Register | handlers.go:271-314 | Refuses 0 or more than 10 URIs without touching the store; otherwise registers exactly one client, under an id never used before, with those URIs and the secret returned, and writes it back after the lock, other requests in between. |
| Handlers.Handler.AdmitClient | handlers_oauth.go:53-58 | An unknown client becomes a Kite client with this one URI; a Kite client is offered the URI; any other is left alone; what changed is written back. |
| Handlers.Handler.Authorize | handlers_oauth.go:16-107 | Reply and store accesses of every branch; nothing is signed or issued before this request's own redirect URI check came out true. |
| Handlers.Handler.ShortCircuitFromDashboard | handlers_oauth.go:139-190 | Issues and delivers a code exactly if the session is good, names someone, the checker vouches for it and there is room; otherwise does nothing, so no code is orphaned. |
| Handlers.Handler.HandleEmailLookup | handlers_oauth.go:248-302 | Reply of every branch; signs again the state it was given, with the registry's key exactly on the redirect; a registry key under 8 characters aborts before signing. |
| Handlers.Handler.HandleKiteOAuthCallback | handlers_callback.go:14-196 | Reply, cookie, consent and store access of the immediate, deferred, registry and global branches, with the branch decided at callback time; a stored code is always delivered. |
| Handlers.Handler.Token | handlers_oauth.go:327-426 | Reply of every branch in order of precedence; the store is not touched before client authentication, and exactly one code is spent after it. |
| Handlers.Handler.Identify | handlers_oauth.go:367-405 | Whom a code taken out stands for, or why it is refused, with the stored secret as a fallback; whoever is named has a non-empty email, and it is the stored one if there is one. |
| Handlers.Handler.RequireAuth | middleware.go:29-84 | Lets through exactly the good tokens whose audience is not just `dashboard` and whose subject the checker, if any, vouches for. |
| Handlers.Handler.RequireAuthBrowser | middleware.go:96-129 | The bearer token's subject if it is a good session, else the cookie's, else nobody. |
| Handlers.Handler.SetAuthCookie | middleware.go:135-150 | One login is recorded, and the cookie is its 7-day session token. |
| Handlers.Handler.HandleBrowserAuthCallback | handlers_browser.go:17-79 | What is done for the target as read; the cases are in LoginOutcomes.PrintedTargetsLogIn and LoginOutcomes.OtherTargetsLogIn. |
| Handlers.Handler.HandleAdminMFAEnroll | handlers_admin_mfa.go:80-135 | An elevation, on the record of a passed check, exactly if someone is logged in, the form is genuine, the code matches and the secret was stored. |
| Handlers.Handler.HandleAdminMFAVerify | handlers_admin_mfa.go:142-193 | An elevation, on the record of a passed check, exactly if someone enrolled is logged in, the form is genuine and the code verifies. |
| Handlers.Handler.MintAdminMFAToken | handlers_admin_mfa.go:50-52 | A 15-minute token for whoever is named, with the audience `admin-mfa`; the record says which check it rests on, if any. |
| Handlers.Handler.RequireAdminMFA | handlers_admin_mfa.go:205-235 | Passes exactly with a good elevation of the same person up to case; enrolment only chooses where the others are sent. |
| Handlers.Handler.SweeperTick | stores.go:89-107 | A tick is a legal step of its own at any time. |
| Handlers.Handler.WriteBack | stores.go:231-236 | A write lands after any other requests, whose own writes may land before it, and with the snapshot taken under the lock. |
| Handlers.Handler.Restarted | handlers.go:180-185 | A start on an existing database, after all the earlier process did, continues the record legally: clients as the rows say, no codes, the keys configured now. |
| Handlers.SignedURIsParse | handlers_callback.go:160-165 | The redirect URI of every signed state parses, so the failure after a code was stored cannot happen. |
| Handlers.RegistryKeysAreLong | handlers_callback.go:120 | Every signed non-empty registry key has at least 8 characters, so the slice in the log line is in range. |
| Outcomes.TokenRequestSpendsAtMostItsOwnCode | handlers_oauth.go:346-403 | A token request that fails before the code store leaves every code alone; any other uses up exactly the code it presents, and succeeds exactly if the record shows a redemption. |
| Outcomes.UnauthenticatedRequestsAreRefused | handlers_oauth.go:346-363 | Another grant type, a missing parameter, and exactly an unknown client or a wrong secret of one that is not a Kite client are refused, in this order, without touching the code store. |
| Outcomes.PresentedCodesAreAnswered | handlers_oauth.go:365-421 | The answer to every code presented: no grant if it is gone, expired, another client's, or fits another verifier; a token for the person it names; else what Kite says under the secret sent, or if none is sent under the stored one, with each refusal. |
| Outcomes.ChallengesAreRawDigests | handlers_oauth.go:376-378 | What the challenge is compared with is the SHA-256 digest in raw base64url, 43 characters for 32 bytes (RFC 7636 section 4.6). |
| Outcomes.RightfulTokenRequestSucceeds | handlers_oauth.go:355-421 | Whoever owns a pending code, with the verifier and, where Kite has to be asked, a secret Kite accepts, gets a token for the person it stands for, unless another request presents that code first. |
| Outcomes.FreshTokenIsAccepted | handlers_oauth.go:412-421 | Until it expires RequireAuth's own checks let the token handed out pass, if and only if the client is not called `dashboard`. |
| Outcomes.PrintedLocationReadsBack | handlers_oauth.go:167-182 | What the client reads in the printed redirect is the location the handlers reply with. |
| LoginOutcomes.OnlyProperRequestsAreLookedInto | handlers_oauth.go:29-50 | Exactly requests for a code, with method S256, a challenge, a client and a web URL get past the first checks; no other touches a store. |
| LoginOutcomes.RegisteredURIsAreAccepted | handlers_oauth.go:60-63 | Of those exactly the ones whose URI is not in the client's list, when it is looked up, are a mismatch. |
| LoginOutcomes.SessionsSkipTheLogin | handlers_oauth.go:139-189 | Exactly with an unexpired session of someone the checker vouches for, and room, a code is issued at once: for the session's subject, held with the request's client, challenge and URI for ten minutes, and sent to that URI. |
| LoginOutcomes.OthersLogIn | handlers_oauth.go:93-107 | All others are sent to the app of their Kite client, asked for an email, sent to the server's app, or told that there is none, each with its condition; the signed state holds the request. |
| LoginOutcomes.LookupsAreAnswered | handlers_oauth.go:260-302 | The answer to every email lookup, in order: no state, a form that is not genuine, no email, no registry, an unknown email, a known one. |
| LoginOutcomes.CallbacksNeedTokenAndState | handlers_callback.go:15-42 | Without a request token or a genuine state nothing happens. |
| LoginOutcomes.KiteClientsGetACode | handlers_callback.go:46-87 | A Kite client always gets a code, room permitting: for whomever Kite names under the stored secret, or deferred if there is none or Kite refuses. |
| LoginOutcomes.OtherClientsNeedAnExchange | handlers_callback.go:88-141 | Any other client gets one for whomever Kite names under the registered app of the state, or else the server's; each refusal otherwise. |
| LoginOutcomes.PrintedTargetsLogIn | handlers_browser.go:27-75 | A printed target with a clean email: Kite is asked with that person's credentials, whomever it names gets the cookie, and the browser goes on to the redirect if it stays on this server. |
| LoginOutcomes.OtherTargetsLogIn | handlers_browser.go:27-75 | Without a target, or with a plain path, the server's own credentials are used. |
| LoginOutcomes.ElevationOpensTheGate | handlers_admin_mfa.go:205-224 | The token an elevation hands out opens the gate exactly for the same person, however the email is capitalised, and exactly for fifteen minutes. |
| Journeys.RegisteredClientsAreKnownByTheirSecret | handlers.go:288-295 | Ever after, a registered client that is live and was not registered on sight since authenticates with exactly the secret it was given, and has exactly its URIs. |
| Journeys.RegisteredClientsAreSavedAsTheyAre | stores.go:231-236 | A row that holds it as such has its id, secret, URIs, name and time in the columns of those names. |
| Journeys.RegisteredClientsGetPastAuthentication | handlers_oauth.go:355-363 | A token request of such a client passes authentication if and only if it brings that secret. |
| Journeys.FirstLoginSucceeds | handlers_callback.go:75-87 | A first login: no secret is stored, the callback sends back a deferred code, and the token request that brings the secret gets a token for the person Kite names under it. |
| Journeys.LaterLoginSucceeds | handlers_callback.go:49-74 | A later login: the callback learns from Kite who it is, and the token is for that person. |
| Outcomes.WhoeverPassesProvedItRecently | middleware.go:53-76 | A genuine bearer token that RequireAuth lets through, no client being called `dashboard`: its subject passed the second factor in the last 15 minutes or logged in within the freshness bound, or other code than the handlers minted it as an elevation in the last 15 minutes. |

## Left out

- HTTP plumbing: methods, headers, CORS, body limits, templates, error descriptions; a few 400 and 500 replies that differ only in wording are one reply here. Failures of the HTTP library, of `encoding/json` and of `crypto/rand` are not modelled.
- HMAC, SHA-256, HS256 and `crypto/rand`: oracles with the properties listed above; a token records the key that signed it. Details of the JWT library, such as the wording and order of combined errors, are not modelled.
- The JSON form of the signed OAuth state, including the omitted empty registry key: what is read is what was signed, which is exact for valid UTF-8 fields. A signed browser target that happens to decode as such a state is not considered.
- Google sign-in and password checks: each is one call of SetAuthCookie for some email. The login forms, `safeRedirect`, metadata endpoints, client IPs, `Config.Validate` and setters would add easy members only. The CSRF comparison is a parameter.
- At a restart the token lifetime and the other settings stay the same; only the keys change. Requests do not outlive the process, and the key that signs OAuth states stays.
- Waiting for a lock: a store call happens at the moment it read the clock. `Generate` and `Register` read it just before they take the lock.
- Clients.ReloadAgreesWithMemory, Clients.ReloadRestoresEveryClient and Clients.SavedRowsNeverVanish are about sequential calls whose writes succeed; writes that fail or overtake each other are in `Restarts`. A write is taken to end before a restart or to be lost.
- In the protocol `parse` is an arbitrary function; net/url is modelled concretely in RedirectUrl, and Outcomes.PrintedLocationReadsBack joins the two. Checks a Go release may add on decoded bracketed hosts are not modelled; they would decide alike for the URI and the printed form.
- RedirectUrl.RedirectReadsBack: user info and fragment are dropped by the source too. It holds for any order of the parameter names, of which the sorted one is what the server prints.
- RedirectQuery.RedirectQueryRoundTrip: a Go runtime may cap the number of query parameters; there is no cap here.
- Clients.LiveClientsAreTheNewest: needs strictly increasing creation times; clients created in the same instant may be evicted in either order.
- Theorems.AcceptedBearerImpliesRecentLogin: a request may read the clock more than once, so the bound carries three request durations; with one reading per request they are zero.
- Theorems.ElevationIsRecent: for tokens that other code than the handlers asks MintAdminMFAToken for, no check is promised, as the source demands none.
- Theorems.ClientStoreInsideTheServer: says nothing after a restart, since a reload may exceed the cap; what restarts keep is in Restarts.RestartKeepsClientsWithTheirRow, Restarts.RestartKeepsLiveClients, Theorems.DynamicClientsNeverChange and Theorems.KiteListsStaySmall.

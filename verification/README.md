# Verified model of the Raven auth service

The service signs users in with a password, opens sessions in Redis, hands out access and refresh tokens, runs an
authorization-code flow with PKCE for client applications, verifies and resets accounts by mailed one-time tickets,
and limits the rate of the account endpoints. This project models that behaviour in Dafny and proves what holds over
every run of it.

`dafny verify dfyconfig.toml` checks everything.

## How the model is built

| module | what it models |
|---|---|
| Wrappers, GoStrings, Decimal, Base64, QueryStrings | the parts of Go's library the texts rest on: `strings`, `strconv`, `encoding/hex`, `encoding/base64`, `net/url` |
| Passwords | the stored password string and its checker, random tokens, the S256 challenge |
| Keys, Redis | Redis key families and their texts; the Redis commands over any key type; the server object |
| TokenStore, TokenEngine | the token repository: its operations on typed keys, and the class that builds string keys and issues commands |
| Accounts, SettingsUpdate | the `accounts.users` table, its repository class, and the SET list built by a profile edit |
| Jwt, Protocol | token claims and validation; every handler as a function from state and request to state and reply |
| Handlers | the `App` class: the handlers as they run against the repositories, each proved equal to its Protocol function |
| Requests | which authorization requests are proper and which token a call presents, said without the handlers' own tests |
| Invariant, Steps, Runs | the inductive invariant, one request or clock advance, whole runs |
| Sessions, Provenance, Lineage, Authentication, PasswordHistory | the theorems about runs |
| Answers | the exact conditions of every success and every kind of refusal |
| Profiles | whose details reach accounts, tokens, userinfo and stored sessions |
| Flow | sign-in, sign-up and recovery from end to end, among everybody else's requests |
| Witnesses | runs in which the two excluded failures happen |
| RateLimiter, Tickets | machines at the granularity of single Redis commands, any number of requests interleaved |
| Templates, Redirects | mail template filling; the login and callback redirects |

The handlers mutate shared state, so they are methods of a class over mutable repositories. Each is tied to a function
of the old state, and the theorems are about those functions along runs of any length. `TokenRepo` holds string keys
and carries a ghost typed view; `Redis.Represents` and `Keys.TextInjective` show that no two key families meet, so the
string-keyed commands and the typed ones agree.

## Assumptions

- Redis and Postgres commands succeed, and there is one clock in whole seconds that never runs backwards. A Redis key
  counts as absent from the second its expiry names.
- In the run theorems a handler executes at one clock reading without interleaving. `RateLimiter` and `Tickets` drop
  this and interleave single commands.
- A signature verifies exactly for strings the service itself issued, and the signing key and key id are configured.
  Random values and issued tokens never repeat (`Steps.Fresh`). Failures of the random source and of signing are
  inputs (`Option` values or the empty ticket) and are covered.
- SHA-256, argon2 and bcrypt are arbitrary functions with the right output lengths.
- The client registry and the environment are constant. Email validation and the column limits of `accounts.users`
  are arbitrary predicates.
- Runs start from any consistent accounts table with nothing in Redis and nothing issued.

## Where the code differs from what one would expect

The model follows the code in each of these.

- `logout` and rotation call `DeleteToken` with the bare session id (routes.go:452, routes.go:540), a key nothing is
  stored under. Neither ends a session (`Sessions.LogoutLeavesSessions`).
- `/authorize` looks the refresh cookie up under its digest, where nothing is stored, so the silent reissue never
  happens (`Sessions.AuthorizeNeedsAccessToken`).
- When rotation is due but no new session id or refresh token can be made, the old session is not extended and an
  access token is issued all the same; it can outlive the session. `Sessions.StepCoverage` shows that this is the only
  way a token loses its session, `Witnesses.SomeTokenOutlivesItsSession` gives a run in which it happens.
- A login with a bcrypt hash migrates the hash and then returns without any response. When hashing fails there the
  error is overwritten and the empty string is stored, which accepts no password (`PasswordHistory.StepPasswords`,
  with a run in `Witnesses.SomeMigrationLocksOut`).
- The comment on `resetPassword` says that all Redis tokens are removed; none is (`Sessions.ResetLeavesSessions`).
- `login` overwrites the error of the refresh token, so it can answer with an empty one; rotation ignores the error of
  its own access token (`Lineage.LoginGivesPair`, `Lineage.RefreshKeepsPair`).
- `ExtendSession` renews the session hash and a legacy set, not the v2 index (`Sessions.IndexAgrees`).
- `GetClientByID` is documented to skip inactive clients but does not look at `active`; `is_deleted` is never selected.
- `updateProfile` reports success also after it has reported a failed update, and it clears the middle name whenever
  the body omits it.
- A redirect URI registered with a query or a fragment of its own loses every code but at most one
  (`Redirects.CallbackMisreads`), and a front-end address with either misleads the login page
  (`Redirects.LoginReadsExactly`).
- Mail values are filled in one key after the other. A user's first name can hold the placeholder of another key, and
  then the mail depends on Go's map order (`Templates.OrderDoesNotMatterExactly`).

## Model

| member | source | states |
|---|---|---|
| Runs.RunInv | routes.go:26-861 | The invariant tying accounts, tickets, sessions, session index and tokens together holds in every reachable state |
| Steps.StepKeeps | routes.go:26-861 | Every request keeps the invariant, and none takes back an account, a verification, a token, a session or remaining session life |
| Runs.SubjectsStayVerified | routes.go:83-97 | Every token ever issued has as subject an account verified when it was issued and in every later state |
| Authentication.PasswordBehindEveryToken | routes.go:26-164 | Behind every token, through any number of refreshes, authorizations and code exchanges, stands an earlier login that showed the password of the token's own subject |
| Authentication.LoginAnswersExactly | routes.go:46-134 | Login gives tokens exactly when a registered client shows the password of a verified account, its hash has none of the three bcrypt prefixes and a session can be made; it stays silent exactly when the hash is a bcrypt one |
| Answers.LoginRefusals | routes.go:46-134 | Login answers 400, 401 and 500 in exactly these cases, and "verification_pending" exactly for an unverified account |
| Answers.LoginHidesAccounts | routes.go:73-106 | An unknown address and a wrong password get the identical answer |
| Answers.UnverifiedLoginResends | routes.go:83-97 | A login of an unverified account stores a new signup ticket for its email and nothing else |
| Answers.LoginAsksForCountry | routes.go:79-81 | The client is asked for a country exactly when the account's is empty |
| Answers.MigrationWorks | routes.go:99-116 | For a hash beginning with $2a$, $2b$ or $2y$ and a password bcrypt accepts, login answers nothing and stores an argon2id hash that accepts the password, changing nothing else |
| Answers.RegisterAnswersExactly | routes.go:480-517 | A registration succeeds exactly with all fields filled, a fitting row, free keys and a hash; otherwise it is a 500 that changes nothing |
| Answers.VerifyAnswersExactly | routes.go:166-187 | A link verifies exactly when its ticket is there |
| Answers.ResetAnswersExactly | routes.go:586-622 | A reset succeeds, fails with 400 or fails with 500 in exactly these cases, and spends a ticket that was found |
| Answers.RequestResetHidesAccounts | routes.go:624-652 | The answer to a reset request depends on the form of the address alone; a ticket is stored exactly for an existing account |
| Answers.ExchangeRefusals | routes.go:250-378 | /token answers 400 and 401 in exactly these cases, every other failure is a 500, and a code that was found is spent |
| Answers.RefreshRefusals | routes.go:390-418 | /refresh answers 400 and 401 in exactly these cases in any state, blacklisted sessions included, and a refusal changes nothing |
| Answers.IntrospectBlacklist | routes.go:217-248 | In any state introspection is active exactly for a valid token whose session is there and not blacklisted |
| Answers.UserInfoInAnyState | routes.go:544-583 | In any state userinfo shows the account its stored session names, with a status for each way that fails |
| Answers.LogoutAnswersExactly | routes.go:519-542 | A logout is confirmed exactly for an unexpired refresh token sent as a bearer token, read up to the next "Bearer " |
| Answers.UpdateProfileAnswers | routes.go:887-926 | An authenticated edit always ends in a success, after a server error exactly when the row does not take the names |
| Answers.AuthorizeInAnyState | routes.go:708-858 | In any state a code is minted for the OP session's user, else the access token's subject, else the user stored with the refresh token, with exactly the request's values, for 60 seconds; nobody is sent to the login page |
| Answers.ReissueCarries | routes.go:786-810 | A silently reissued token repeats the refresh token's identity and session with the new nonce |
| Authentication.LoginSays | routes.go:130-146 | The tokens of a login name the account whose password was shown, the caller's nonce and the client |
| Authentication.AuthorizeAnswersExactly | routes.go:668-858 | /authorize refuses exactly the improper requests; a proper one with a valid access cookie is sent to the URI registered for its client with the new code and its own state, one without to the login page |
| Requests.CheckParamsExactly | routes.go:668-690 | Proper means: all required values, a registered client with exactly this redirect URI, and an S256 challenge from a public client |
| Authentication.ExchangeAnswersExactly | routes.go:256-352 | Tokens are given exactly for a proven client and a live code minted for its client id and redirect URI whose challenge is the base64url form of the verifier's digest |
| Flow.SignInWorks | routes.go:26-861 | In any run, with any other requests in between: a login answered with tokens, an authorization with its access token within 15 minutes and a proper exchange of the code within 60 seconds give tokens for that account, nonce and client, and introspection confirms them |
| Flow.SignUpWorks | routes.go:480-517 | In any run: whoever registers, follows the mailed link within 24 hours and logs in with the chosen password, unchanged since, gets tokens for the new account |
| Flow.RecoveryWorks | routes.go:586-652 | In any run: whoever requests a reset, follows the mailed link within 150 minutes and logs in with the new password, unchanged since, gets tokens for that account |
| Sessions.StepCoverage | routes.go:436-475 | A step leaves every issued token with a session that lives at least as long, if and only if it is not a late failed rotation |
| Sessions.RunCoverage | routes.go:131-146 | So in every run without late failed rotations every token is covered throughout |
| Sessions.RefreshAnswersExactly | routes.go:395-434 | A refresh is answered exactly for an unexpired issued refresh token, when an access token can be signed and no missing last name is dereferenced: its session is always still there |
| Sessions.IntrospectExact | routes.go:229-247 | In runs without late failed rotations introspection answers active, with the token's own subject, expiry and type, for exactly the unexpired issued tokens |
| Sessions.IntrospectLive | routes.go:229-247 | In every state satisfying the invariant it answers active for exactly the unexpired issued tokens whose session is live |
| Sessions.UserInfoShowsOwnAccount | routes.go:544-583 | A call that presents a valid access token, as bearer token or cookie, is shown the token's own subject, or 404 exactly when the session is gone |
| Sessions.UserInfoAnswers | routes.go:544-583 | In covered runs a call that presents a valid access token always gets its account |
| Sessions.EditsShowAtOnce | routes.go:887-926 | A profile edit shows in userinfo at once to every caller who is shown that account and to nobody else's; a refused edit changes nothing |
| Profiles.RegistrationIsTheRow | DatabaseEngine/UsersRepo.go:85-107 | A registration puts exactly its own values into the new, unverified row and leaves all others alone |
| Profiles.StepKeepsDetails | routes.go:26-926 | Nothing but a profile edit of the account itself changes its email, names, country or username |
| Profiles.SignUpShows | routes.go:480-583 | After a sign-up, userinfo with the login's access token shows the registered values until they are edited |
| Profiles.LoginDescribes | routes.go:119-132 | The tokens of a login carry the account's email, names and country |
| Profiles.ExchangeDescribes | routes.go:333-351 | So do those of a code exchange, for the account of the code |
| Profiles.RefreshCarries | routes.go:400-470 | A refreshed access token repeats the old token's details or carries the fetched account's; rotated tokens repeat the names and name the new session |
| Profiles.LoginStores | routes.go:143-146 | A login stores the session with the client, device, language and location of the request, for 14 days |
| Profiles.ExchangeStores | routes.go:356-363 | A code exchange stores one for the client, without a device |
| Profiles.RefreshStores | routes.go:436-475 | A refresh rotates exactly under two days; it then stores a new session for the same user and client and leaves the old one, and otherwise extends the old one to 14 days unless a rotation was due |
| Sessions.SessionMatchesAudience | routes.go:459-461 | The session a token names carries the token's subject as user id and its audience as client id, through rotations |
| Sessions.IndexAgrees | DatabaseEngine/TokenRepo.go:99-149 | Members of the index with a score ahead name live sessions of that user; the index holds exactly the sessions whose first expiry was ahead at its last pruning; never-extended live sessions are listed; the set outlives its scores |
| Sessions.LogoutLeavesSessions | routes.go:519-542 | Logging out changes no state and no introspection answer |
| Sessions.ResetLeavesSessions | routes.go:585-622 | A password reset touches no key but its ticket, no token and no introspection answer |
| Witnesses.SomeTokenOutlivesItsSession | routes.go:436-475 | There is a run with a late failed rotation after which an unexpired issued token is reported inactive |
| Witnesses.LateFailedRotationHappens | routes.go:436-475 | Every answered login on a fresh service can be followed by one, ten minutes before its session ends |
| Sessions.AuthorizeNeedsAccessToken | routes.go:763-810 | Without a valid access cookie /authorize goes to the login page whatever the other cookies hold |
| Provenance.StepWrites | DatabaseEngine/TokenRepo.go:157-286 | A request writes at most its own ticket and redeems at most one; all others stay exactly as they are |
| Provenance.TicketStays | DatabaseEngine/TokenRepo.go:157-286 | Over any run a ticket stays as it is while no request redeems it |
| Provenance.RedeemableExactly | DatabaseEngine/TokenRepo.go:157-286 | A minted ticket can be redeemed at a later time if and only if its lifetime has not passed and no request has redeemed it |
| Provenance.TicketOrigin | DatabaseEngine/TokenRepo.go:157-286 | Every stored ticket was written, as it stands, by an earlier request |
| Provenance.TicketLifetime | DatabaseEngine/TokenRepo.go:157-248 | A redeemable ticket was minted less than 60 s, 24 h or 150 min ago |
| Provenance.GoneStaysGone | DatabaseEngine/TokenRepo.go:169-184 | A ticket once redeemed or expired never comes back |
| Provenance.RedeemedAtMostOnce | DatabaseEngine/TokenRepo.go:169-184 | In serial runs no ticket is redeemed twice |
| Provenance.CodeProvenance | routes.go:289-331 | Every pair from /token goes back to an authorization that minted that code under 60 s earlier for the same client and redirect URI; the tokens carry its nonce and the subject of its access cookie, and a public client has shown the verifier |
| Provenance.NoChallengeNoTokens | routes.go:303-310 | A code stored without a challenge gets a public client nothing |
| Provenance.VerifiedOnlyByTicket | routes.go:166-187 | Only redeeming a signup ticket verifies an account, and only the one it was stored for |
| Provenance.VerifiedBySignup | routes.go:166-187 | Every account verified during a run redeemed, within 24 h, a ticket minted for its own email by a registration or login |
| Lineage.LineagePreserved | routes.go:431-449 | Along any chain of refreshes subject, nonce and the single audience stay those of its beginning |
| Lineage.RotationsAreSpaced | routes.go:445-449 | The k-th rotation lies strictly between 12k and 14k days after the first issue; each new expiry is more than 12 days later |
| Lineage.TokenOrigin | routes.go:381-478 | Every token was returned by an earlier login, exchange or refresh, and its recorded parent is the refresh token presented there |
| Lineage.LoginGivesPair | routes.go:130-135 | A login gives an access and a refresh token of one session exactly when the refresh token could be signed |
| Lineage.ExchangeGivesPair | routes.go:333-377 | A code exchange always gives such a pair |
| Lineage.RefreshKeepsPair | routes.go:436-477 | A refresh keeps the pair unless a rotation's own access token cannot be signed, and exactly then answers an empty one |
| Lineage.RefreshKeepsLineage | routes.go:431-470 | The tokens held after a refresh have the subject, nonce and audience of the refresh token held before |
| Lineage.WalletStaysPaired | routes.go:381-478 | A client that keeps the latest tokens always holds a pair of one session, with its first lineage, whatever else happens |
| PasswordHistory.StepPasswords | routes.go:99-116 | A step keeps every stored hash accepting its account's latest password, if and only if it is not a failed migration |
| PasswordHistory.RunPasswords | routes.go:99-116 | So over any run in which migrations could hash |
| PasswordHistory.RunLegacy | routes.go:108-116 | bcrypt hashes only disappear: nobody gets one or returns to one |
| Witnesses.SomeMigrationLocksOut | routes.go:108-116 | There is a run in which a failed migration leaves a verified account that accepts no password |
| PasswordHistory.MigratesAtMostOnce | routes.go:108-116 | An account takes the migration branch at most once |
| PasswordHistory.PasswordChangeOrigin | routes.go:586-622 | A stored password changes only at the owner's migrating login or by a reset ticket requested for the owner's email less than 150 min before |
| RateLimiter.RateRepo.CheckLimit | DatabaseEngine/RatelimitRepo.go:17-29 | Reads the live count, zero for a missing key |
| RateLimiter.RateRepo.Increment | DatabaseEngine/RatelimitRepo.go:31-45 | Counts one up and sets the expiry only for the first |
| RateLimiter.RateRepo.RateLimiting | Authorization/middleware.go:61-89 | Local addresses are unlimited; others are denied from fifteen on and told what remains |
| RateLimiter.StepKeeps | Authorization/middleware.go:72-83 | Every command of every request, in any order, keeps the counter invariant |
| RateLimiter.WindowBound | Authorization/middleware.go:72-83 | With at most k requests between check and increment, counter plus requests in flight stays at most 14 + k, and so do the admissions of one counter life |
| RateLimiter.WindowBoundIsReached | Authorization/middleware.go:72-83 | For every k some interleaving admits exactly 14 + k |
| RateLimiter.NoImmortalCounter | DatabaseEngine/RatelimitRepo.go:31-45 | A counter lacks an expiry exactly while one request owes it; with none owing it expires within 15 minutes; it counts the increments of its life |
| RateLimiter.IntervalBound | Authorization/middleware.go:72-83 | No fifteen minutes admit more than 2(14 + k) requests, 30 when serial |
| RateLimiter.UninterruptedIsServed | Authorization/middleware.go:72-83 | Three commands without interruption are what the middleware method does |
| RateLimiter.BurstAdmitsFifteen | Authorization/middleware.go:78-83 | Of a burst on a fresh counter exactly fifteen requests are admitted |
| RateLimiter.ServedExactly | Authorization/middleware.go:72-83 | The first request starts a window of fifteen minutes, the others up to the fifteenth count within it, later ones change nothing |
| Tickets.HandedOutTicketsExpire | DatabaseEngine/TokenRepo.go:157-248 | Under any interleaving a handed-out ticket that still exists has its expiry set |
| Tickets.RedeemsExactly | DatabaseEngine/TokenRepo.go:157-286 | Under any interleaving a read of a stored ticket succeeds if and only if it comes before the ticket's first DEL and before the end of its lifetime |
| Tickets.ReadsPrecedeRemoval | DatabaseEngine/TokenRepo.go:169-184 | So all successful redemptions read before the first DEL |
| Tickets.ReadsPrecedeExpiry | DatabaseEngine/TokenRepo.go:169-184 | ... and before the ticket's lifetime is over |
| Tickets.SerialRedemptionOnce | DatabaseEngine/TokenRepo.go:169-184 | When a redemption deletes right after it read, no later one succeeds |
| Tickets.ConcurrentReadsBothSucceed | DatabaseEngine/TokenRepo.go:172-181 | Two requests that both read before either deletes both succeed |
| Tickets.UninterruptedIsTake | DatabaseEngine/TokenRepo.go:169-184 | HGETALL and DEL without interruption are the repository's one redemption |
| Tickets.UninterruptedIsPut | DatabaseEngine/TokenRepo.go:157-167 | HSET and EXPIRE without interruption are the repository's one minting |
| Handlers.App.HandleLogin | routes.go:26-164 | Leaves exactly the state and answer of Protocol.Login |
| Handlers.App.HandleRegister | routes.go:480-517 | Leaves exactly the state and answer of Protocol.Register |
| Handlers.App.HandleVerify | routes.go:166-187 | Leaves exactly the state and answer of Protocol.Verify |
| Handlers.App.HandleRequestReset | routes.go:624-652 | Leaves exactly the state and answer of Protocol.RequestReset |
| Handlers.App.HandleResetPassword | routes.go:586-622 | Leaves exactly the state and answer of Protocol.ResetPassword |
| Handlers.App.HandleAuthorize | routes.go:656-861 | Leaves exactly the state and answer of Protocol.Authorize |
| Handlers.App.HandleToken | routes.go:250-378 | Leaves exactly the state and answer of Protocol.ExchangeCode |
| Handlers.App.HandleRefresh | routes.go:381-478 | Leaves exactly the state and answer of Protocol.RefreshTokens |
| Handlers.App.HandleLogout | routes.go:519-542 | Leaves exactly the state and answer of Protocol.Logout |
| Handlers.App.HandleIntrospect | routes.go:217-248 | Answers Protocol.Introspect |
| Handlers.App.Authenticate | Authorization/middleware.go:18-57 | The context or refusal of Protocol.Authenticate |
| Requests.PresentedExactly | Authorization/middleware.go:25-29 | The token looked at is what follows a leading "Bearer ", the whole header when it mentions "Bearer " later, and the cookie otherwise |
| Requests.AuthenticateExactly | Authorization/middleware.go:31-54 | Whoever presents a valid access token is authenticated as its subject in its session, everybody else gets a 401 |
| Requests.BearerThenCookie | Authorization/middleware.go:25-29 | A bearer token counts whatever the cookie holds, and the cookie counts without one |
| Handlers.App.HandleUserInfo | routes.go:544-583 | Answers Protocol.UserInfo |
| Handlers.App.HandleUpdateProfile | routes.go:887-926 | Leaves exactly the state and answer of Protocol.UpdateProfile |
| TokenEngine.TokenRepo.InsertSession | DatabaseEngine/TokenRepo.go:99-113 | The string-keyed pipeline is the typed session insertion with its index, scored by expiry and pruned |
| TokenEngine.TokenRepo.ExtendSession | DatabaseEngine/TokenRepo.go:139-149 | Renews the key that the given text names and the legacy set, nothing else |
| TokenEngine.TokenRepo.DeleteToken | DatabaseEngine/TokenRepo.go:152-154 | Removes only the key written exactly like the given text |
| TokenEngine.TokenRepo.GetSessionByID | DatabaseEngine/TokenRepo.go:86-96 | Finds the hash of whichever key the text writes; missing and empty are errors |
| TokenEngine.TokenRepo.GetTokenInfo | DatabaseEngine/TokenRepo.go:72-84 | Reads the bare digest of the token |
| TokenEngine.TokenRepo.InsertAuthCode | DatabaseEngine/TokenRepo.go:157-167 | Stores a code for 60 seconds under its own family |
| TokenEngine.TokenRepo.GetAuthCode | DatabaseEngine/TokenRepo.go:169-184 | Reads and removes the code, or reports it missing |
| TokenEngine.TokenRepo.SignUpInsert | DatabaseEngine/TokenRepo.go:210-227 | Stores a signup ticket for 24 hours |
| TokenEngine.TokenRepo.VerifySignup | DatabaseEngine/TokenRepo.go:270-286 | Reads and removes the signup ticket, or reports it missing |
| TokenEngine.TokenRepo.ResetInsert | DatabaseEngine/TokenRepo.go:230-248 | Stores a reset ticket for 150 minutes |
| TokenEngine.TokenRepo.VerifyReset | DatabaseEngine/TokenRepo.go:251-267 | Reads and removes the reset ticket, or reports it missing |
| Accounts.UsersRepo.RegisterAccount | DatabaseEngine/UsersRepo.go:85-107 | Adds an unverified row, or refuses blank fields, a row its columns do not take, and taken keys |
| Accounts.UsersRepo.ResetPassword | DatabaseEngine/UsersRepo.go:72-77 | Sets the password of the row with that email, if any |
| Accounts.UsersRepo.VerifyAccount | DatabaseEngine/UsersRepo.go:109-114 | Verifies the row with that email, if any |
| Accounts.UpdatesKeepConsistent | DatabaseEngine/UsersRepo.go:72-114 | Updates keep primary key and email index in agreement |
| Keys.TextInjective | DatabaseEngine/TokenRepo.go:99-154 | Different keys have different texts: no two families, and no bare digest or session id, ever share a Redis key |
| Keys.SessionKeyInjective | DatabaseEngine/TokenRepo.go:100-101 | A session key determines the user id and the session id |
| Redis.HSetCommutes | DatabaseEngine/TokenRepo.go:106 | HSET on a key's text is HSET on the key |
| Redis.ZRemUpToCommutes | DatabaseEngine/TokenRepo.go:109 | So is pruning a sorted set, which leaves every other family alone |
| Redis.ZRemUpToExactly | DatabaseEngine/TokenRepo.go:109 | Pruning keeps exactly the members above the bound, and an emptied set is gone |
| Decimal.ParseIntFormatInt | DatabaseEngine/TokenRepo.go:100 | Every 64-bit id survives printing and parsing |
| Decimal.FormatNatExactly | DatabaseEngine/TokenRepo.go:100 | A number is printed as its only numeral without leading zeros |
| Decimal.ParseIntExactly | routes.go:407 | Exactly the 64-bit numbers are parsed, from every text with an optional sign that denotes them |
| Base64.DecodeEncode | Authorization/authorization.go:34-35 | Unpadded base64 round trip for all byte strings in both alphabets |
| Base64.EncodeExactly | Authorization/authorization.go:34-35 | A text is the encoded form exactly if it is in the alphabet, decodes to the bytes and leaves unused bits zero |
| Passwords.CheckHashRoundTrip | Authorization/authorization.go:28-72 | The checker accepts q against the stored form of p exactly when argon2 agrees on them for the stored salt |
| Passwords.CheckPasswordExactly | Authorization/authorization.go:49-72 | Any stored hash is checked by bcrypt exactly when it begins with $2a$, $2b$ or $2y$, and otherwise accepts exactly as a four-part argon2id string |
| Passwords.S256Exactly | routes.go:308-315 | The computed challenge is the one 43-character text in letters, digits, '-' and '_' that decodes to the verifier's digest |
| Passwords.DigestReadsBack | Authorization/authorization.go:44-47 | The hexadecimal digest reads back as the digest |
| Passwords.HashPasswordSplits | Authorization/authorization.go:36-60 | A stored string always splits into exactly four parts |
| Passwords.HashPasswordIsModern | Authorization/authorization.go:49-57 | It never takes the bcrypt branch |
| Passwords.EmptyHashRejects | Authorization/authorization.go:55-57 | The empty string accepts no password |
| SettingsUpdate.ParseRendered | DatabaseEngine/UsersRepo.go:263-269 | Reading the written statement gives the columns in order with $1..$n, each once, and $n+1 for the row, for any list of columns |
| SettingsUpdate.EmptyListIsRefused | DatabaseEngine/UsersRepo.go:265-269 | With no clause at all the text is not a statement |
| SettingsUpdate.SettingsUpdateIsRecordUpdate | DatabaseEngine/UsersRepo.go:263-277 | For any columns and values the statement succeeds exactly when the list is non-empty, names no column twice and the row is absent or can store them, and then changes exactly those columns of exactly that row |
| SettingsUpdate.UpdateUserSettings | DatabaseEngine/UsersRepo.go:263-277 | For the clauses and arguments of any list of columns and values: succeeds exactly when the list is usable and the row takes it, and then changes exactly those columns of exactly that row |
| SettingsUpdate.ProfileUpdate | routes.go:898-919 | The statement a profile body leads to is the record update: a missing middle name becomes NULL, other missing names stay |
| SettingsUpdate.UpdateProfile | routes.go:887-926 | The clause builder has that effect for every combination of present fields, and answers success even after an error |
| Templates.PrepareTemplate | Mailer/main.go:42-55 | An unknown template is empty; otherwise every key is replaced once, in some order |
| Templates.OrderDoesNotMatterExactly | Mailer/main.go:49-52 | For brace-free keys every order fills every template with all placeholders at once, and any two orders agree on every template, if and only if no placeholder can be completed by the values of other keys |
| Templates.OrderDoesNotMatter | Mailer/main.go:49-52 | In particular when no value holds an opening brace; unknown placeholders stay untouched |
| Templates.OrderMattersForBraces | Mailer/main.go:49-52 | A value that is another key's placeholder is replaced again or not, depending on the order |
| QueryStrings.ParseEncodeQuery | routes.go:694-706 | Parsing an encoded query gives back every pair for all byte strings |
| QueryStrings.EscapeOne | routes.go:858 | What each byte becomes in a query |
| QueryStrings.EscapeAppend | routes.go:858 | Text is escaped byte by byte |
| Redirects.LoginRedirectRoundTrip | routes.go:668-706 | The login URL's query read as a request passes the same checks and encodes to the identical URL |
| Redirects.LoginReadsExactly | routes.go:694-706 | The login page reads every accepted request of every registry if and only if the front-end address has neither query nor fragment |
| QueryStrings.CallbackRoundTrip | routes.go:858 | For a redirect URI without query and fragment the callback parses to exactly the code and the state |
| Redirects.CallbackReadsExactly | routes.go:858 | A client reads every code the service can mint, with every non-empty state, if and only if its URI has neither query nor fragment |
| Redirects.CallbackMisreads | routes.go:858 | Otherwise, for each state, at most one code is read |

## Left out

- Sessions.LogoutLeavesSessions: states what the code does; ending a session at logout, as the endpoint's name promises, is not something the code achieves.
- Sessions.ResetLeavesSessions: likewise states what the code does; its comment promises the opposite.
- Provenance.RedeemedAtMostOnce: is about serial runs, because reading and deleting a ticket are two commands; Tickets.RedeemsExactly says which reads succeed under concurrency.
- Templates.OrderDoesNotMatterExactly: is about templates made of brace-free literals and placeholders with brace-free keys, which the two keys in use, name and link, are.
- Redirects.LoginRedirectRoundTrip: supposes that the configured front-end address has no query and no fragment; Redirects.LoginReadsExactly shows that this is needed.
- Answers.ExchangeRefusals: states statuses; of the reason texts only those with a consequence are stated (`verification_pending`, the common text for bad credentials).
- SettingsUpdate.ParseRendered: reads statements of the one shape the service writes, not SQL in general.
- HTTP, JSON and cookie plumbing, logging, environment variables, routing and start-up: no state of interest.
- SMTP sending, picture upload and removal, IP geolocation: foreign services; a location is an arbitrary input.
- Ed25519, argon2, bcrypt, SHA-256, the random source and email syntax: kept abstract as described above.
- Failing Redis or Postgres commands and crashes between commands, among them an EXPIRE that is lost after its INCR or HSET.
- The clients cache: nothing fills it, so the registry is a plain lookup. Its company and icon fields carry no protocol state.
- `GetDevices`: it reads a legacy set that no code writes.
- Minting OP tokens, `InsertToken`, `BlacklistToken`, `BlacklistAll`, `RevokeToken`, `IsRevoked`, `introspectToken`: no route reaches them.
- `setCountryCode`: its handler asserts the wrong integer type and always refuses.
- `snowflakeFromTime` and id generation: an account id is an arbitrary fresh number, and a taken one is refused.
- The mail functions around `prepareTemplate`: subject tables by language and header text.

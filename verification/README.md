# A Dafny model of the grantor authorization server

grantor is a Go library for OAuth 2.1 and OpenID Connect providers. This project
models its core in Dafny 4.11 and proves properties of the model: the life of
grants and tokens under concurrency, the authorization request pipeline, and what
ends up in tokens. `dafny verify dfyconfig.toml` checks all of it.

## What is modelled

Three layers describe the token endpoint.

- `Tokens` holds the code of token.go as methods of a `Provider` over a mutable
  store whose calls may fail (`Backend`). Every method is proved equal to a
  function of `Exchange`, which maps the value of the world (tokens, clock, and a
  script of clock advances and failures) to the world afterwards and the result.
- `Interleaving` is a state machine in which any number of exchanges, direct
  issuances and revocations run at once, one storage call or local decision at a
  time, with failures, clock advances and garbage collection between any two
  steps. It shares the checks, planning and minting of `Exchange`.
  `InterleavingProof` proves its inductive invariant. `Schedules` proves that a
  sequential exchange is one of its runs, so that what holds of all runs holds of
  the code.
- `AtomicGrants` is a machine in which an exchange is one step. `Refinement`
  proves that, seen through the disclosed tokens, every run of `Interleaving` is a
  run of it. `Guarantees` draws the conclusions.

`Histories` follows single processes along runs: how a race or a replay ends, that
undelivered tokens are removed, and which registration bounds an access token.

`Failures` and `Rotation` are about the sequential code: what a failed exchange
leaves behind, that a retry succeeds, and that rotation never gets stuck.
`Issued` says what a successful exchange stores and answers, without the functions
that compute it. `EndToEnd` states who can redeem and revoke what, and connects the
approval of a request with every token that descends from its code.

`Memory` is the in-memory store, `Reads` the decisions made from one of its
records, and `Collection` shows what its garbage collection can and cannot be
noticed by.

`Params`, `Authorization`, `Claims`, `Approvals` and `PushedRequests` are the
request pipeline: parsing, checking, saving, pushing and redeeming, approving and
denying. `Completions` says which approvals and denials are accepted and what a code
says, again without the functions that compute it. `RequestLifecycle` is a second state machine, for stored requests: saving,
pushing, redeeming, approving and denying interleave, with loading a record,
deleting it and storing a code as separate steps. The application calls the
provider with arbitrary exported fields; the unexported ones it can only copy from
a request the provider returned.

`Issuance` is planning with an arbitrary hook result, `AccessTokens` the claims of
JWT access tokens and introspection responses, `Answers` who is told what about a
stored token, `ClientAssertions` the one-time keys of client assertions. `Basics` and `Records` hold shared vocabulary.

## Assumptions

- Random values and encoder outputs are new and distinct. This is necessary:
  `Failures.ReusedValueDestroysToken`.
- SHA-256 is injective, so a token value stands for the hash it is stored under,
  and requests present only values that were disclosed.
- All processes read one clock that never goes back, in integer nanoseconds since
  the Unix epoch; a zero time is `None`.
- Every storage call is atomic, and a call that fails has no effect. Loading a
  record and the checks that read nothing else but the registration are one step; a
  failing client lookup is a registry without the client.
- The registration a client lookup returns may differ from lookup to lookup. It
  passes `Config.Registered`, the part of the provider's own validation that the
  model depends on.
- Strings are Go strings, one char per byte; integers are unbounded.
- Proof-only state (disclosed values, revoked grants, logs, origins) is never read
  by the modelled code.

## Findings

- Collection of expired tokens can hide a replay: a consumed token is found
  consumed exactly as long as no collection happened after its expiry
  (`Collection.ReplayStillDetected`, with a concrete case in
  `Collection.ReplayForgotten`). All other reads are unaffected.
- Unsaved requests are not single-use, saved ones are
  (`Approvals.OnlySavedRequestsAreSingleUse`).
- Redeeming a pushed request vouches that a client pushed it, but an application
  that edits ClientID can complete it for another client that the check cannot tell
  apart (`PushedRequests.RedeemedRequestsCanChangeClient`). A code belongs to the
  client that pushed its request if and only if ClientID was not edited
  (`RequestLifecycle.PushedByThisClientExactly`).
- Narrowing the scopes of a valid request can invalidate it: it stays valid
  exactly if it has a code challenge, the client's PKCE policy is optional, or
  openid is kept (`Authorization.NarrowingKeepsCheck`).
- A JWT and the introspection of its record differ in exactly the names of
  `AccessTokens.Differ`.

## Model

| member | source | states |
|---|---|---|
| Memory.Store.constructor | memory/memory.go:37-45 | a new store is empty |
| Memory.Store.CreateAuthorizationRequest | memory/memory.go:66-75 | conflict exactly for a stored ID; otherwise the request is added and nothing else changes but what collection drops |
| Memory.Store.AuthorizationRequest | memory/memory.go:78-86 | the stored request or not found |
| Memory.Store.DeleteAuthorizationRequest | memory/memory.go:89-97 | succeeds exactly if the ID was stored, and then removes only it |
| Memory.Store.CreateToken | memory/memory.go:100-109 | conflict exactly for a stored hash; otherwise the token is added |
| Memory.Store.Token | memory/memory.go:112-120 | the stored token or not found |
| Memory.Store.ConsumeToken | memory/memory.go:123-135 | returns the token as it was; only an unconsumed one is marked |
| Memory.Store.RevokeToken | memory/memory.go:146-151 | removes only that token |
| Memory.Store.RevokeGrant | memory/memory.go:154-163 | the deleting loop removes exactly the tokens of the grant |
| Memory.Store.ClaimOnce | memory/memory.go:166-175 | succeeds exactly if the key is unclaimed or its claim has run out |
| Memory.Store.CollectLocked | memory/memory.go:178-199 | at most once a minute, drops exactly the expired records of all three maps |
| Collection.CollectionInvisible | memory/memory.go:178-199 | for every sequence of storage calls, a store that collects answers token validation, introspection, UserInfo, pending requests and ClaimOnce like one that never does |
| Collection.ReplayStillDetected | memory/memory.go:189-193 | a consumed token is still found, and found consumed, if and only if no collection happened after its expiry |
| Collection.ReplayForgotten | memory/memory.go:189-193 | a concrete call sequence after which a consumed code is forgotten |
| Collection.ClaimsSpaced | memory/memory.go:166-175 | two successful claims of one key are never closer than the expiry of the first |
| Basics.Select | approve.go:284-295 | fails exactly if a value is not allowed; otherwise the requested values without duplicates, in order of first occurrence |
| Params.SplitSpaces | params.go:66-74 | the non-empty pieces between spaces |
| Params.ScopeListRoundTrip | params.go:66-74 | splitting the joined list of valid scope tokens returns the list |
| Params.SplitIdempotent | params.go:66-74 | joining and splitting again changes nothing, for any string |
| Params.ValidScopeToken | authorize.go:464-472 | exactly the non-empty strings of permitted characters |
| Params.IsUnreserved | pkce.go:69-80 | exactly the strings of unreserved characters |
| Authorization.RunCheckRequest | approve.go:316-370 | accepts exactly what the registration and the provider policy allow |
| Authorization.CheckedExactly | approve.go:316-370 | exactly which requests a client may make: redirect URI, response mode, grant, scopes, audiences, pushing, and a challenge unless a confidential client's policy allows none |
| Authorization.ParsePKCE | pkce.go:12-44 | accepts exactly well-formed S256 challenges, and none where the policy allows none |
| Authorization.RequestScopes | authorize.go:362-371 | fails exactly for a malformed token; otherwise keeps the registered scopes |
| Authorization.CollectExtra | authorize.go:351-359 | only permitted extension parameters of bounded length, all of them or as many as fit |
| Authorization.ParseOpenID | authorize.go:377-424 | accepts exactly consistent prompt, max_age, claims and hint parameters, and sets exactly these fields |
| Authorization.ParseAuthorizationRequest | authorize.go:294-425 | accepts exactly the acceptable requests, reads every field from the parameters, the target and the registration, and rejects the others with the error of the first failing check |
| Authorization.ParsedFields | authorize.go:330-424 | what an accepted request says in every field, and which claims of the claims parameter it keeps |
| Authorization.TargetExactly | authorize.go:233-289 | exactly when a response may be sent, where to, in which mode and with which state |
| Authorization.EveryRequestCanBeAskedFor | authorize.go:294-425 | every request that passes the check can be asked for: parameters that convey it are accepted and parsed to exactly that request |
| Authorization.AskingConveys | authorize.go:294-425 | such parameters exist unless one would be too long |
| Authorization.ParsedRequestsPass | authorize.go:294-425 | every request that parsing returns, pushed or not, passes the check that is made again later |
| Authorization.NarrowingKeepsCheck | approve.go:340-370 | exactly when narrowing the scopes keeps a request valid |
| Approvals.RunCompletable | approve.go:239-280 | completes only the stored copy of an unchanged saved request or a parsed unsaved one, after checking it again |
| Approvals.ComputeCode | approve.go:421-461 | the code of an acceptable approval, with who and what was approved, or the refusal |
| Approvals.Approve | approve.go:149-203 | the answer and the store after every approval, with every failure: a refusal without effect; the request deleted and the code stored; or the request deleted and an error sent because the code could not be stored |
| Approvals.Deny | approve.go:214-234 | the answer and the store after every denial, with every failure: a refusal without effect, also for an invalid error code, or the request deleted |
| Completions.CurrentExactly | approve.go:239-263 | exactly which requests can be completed: saved ones that are found and unchanged, unsaved ones as they were parsed or redeemed, in time |
| Completions.ApprovedExactly | approve.go:149-203 | why an approval is refused, without effect, and that without such a reason a code is sent |
| Completions.CodeSaysWhatWasApproved | approve.go:172-193 | the stored code has the approved subject, authentication, scopes, audience and claims, the redirect URI, nonce and challenge of the request as saved, and the configured lifetime; a saved request is gone and nothing else changed |
| Completions.FaultyApproval | approve.go:165-201 | what an approval does when loading, deleting or storing fails |
| Completions.DeniedExactly | approve.go:214-234 | exactly which denials are answered, with which error, and what is gone afterwards |
| Completions.EssentialACRExactly | claims.go:122-140 | exactly which acr values an essential request lists |
| Claims.ClaimsForClientExactly | claims.go:91-97 | a claims request keeps exactly the claims the client may receive, as requested |
| Approvals.AnyEditIsSafe | approve.go:149-203 | for every edit and approval, a code has a registered redirect URI, scopes and audience within request and registration, a challenge unless the policy allows none, filtered claims, and a pushed request where required |
| Approvals.AuthenticationAsDemanded | approve.go:439-460 | a code of an OpenID request has the requested subject, a recent enough authentication and the essential acr, for a saved request by its stored record |
| Approvals.OnlySavedRequestsAreSingleUse | approve.go:165-169 | a second approval of a request is answered with a second code if and only if the request was not saved |
| PushedRequests.PushAuthorization | par.go:152-186 | the answer and the store after every push: valid requests that were parsed for pushing are stored under the reference of the request_uri |
| PushedRequests.RedeemPushedRequest | par.go:205-266 | the answer and the store for every request_uri, with every failure: what is redeemed is deleted, even if the registration no longer allows it |
| PushedRequests.SaveAuthorizationRequest | authorize.go:149-192 | the answer and the store after every attempt to save: valid parsed requests are stored under the new ID, bound to the cookie |
| PushedRequests.SavedExactly | authorize.go:149-192 | exactly which requests may be saved, and that what is saved is the request with the receivable claims, bound to the cookie and no longer completable unsaved |
| PushedRequests.BoundToItsCookie | approve.go:103-113 | a request saved with a cookie is found and completed with that cookie, in time, and in no other way |
| PushedRequests.PushedExactly | par.go:152-186 | exactly which requests may be pushed |
| PushedRequests.RedeemedExactly | par.go:205-266 | why a request_uri is not redeemed, what is gone nevertheless, and what a redeemed request says |
| PushedRequests.RequestURIRoundTrip | par.go:218-221 | a request_uri refers to a storage ID if and only if it was formed from the same reference |
| PushedRequests.RefIsNotPushed | par.go:33-35 | random IDs never have the prefix of pushed requests |
| PushedRequests.PushRedeemRoundTrip | par.go:205-266 | a pushed request comes back with its protocol fields, to its client exactly until it expires, still valid, and never as a pending request |
| PushedRequests.PushThenRedeemOnce | par.go:181-186 | the returned request_uri works once, exactly for the configured time, and returns the pushed request with the receivable claims |
| PushedRequests.RedeemedRequestsCanChangeClient | approve.go:300-308 | a redeemed request with an edited ClientID passes for every client that the check cannot tell apart, an unedited one for no client but its own |
| PushedRequests.SaveLoadRoundTrip | approve.go:88-115 | a saved request can be completed as saved, exactly until it expires and by the user agent it is bound to |
| RequestLifecycle.RunKeepsInv | approve.go:239-280 | the invariant of stored requests holds in every run, and what was created, completed and redeemed stays so |
| RequestLifecycle.CompletedAtMostOnce | approve.go:394-403 | under every interleaving each saved request is deleted by at most one approval or denial, by the bound user agent, and it is never a pushed one |
| RequestLifecycle.CompletedAsSaved | approve.go:239-280 | in every run, what is completed is the request that was saved, up to filtering its claims again, and one saved with a cookie is only completed with that cookie |
| RequestLifecycle.RedeemedAtMostOnce | par.go:228-240 | each request_uri is redeemed at most once |
| RequestLifecycle.CodesDescendFromPushedRequests | approve.go:300-308 | every code is safe, and where pushed requests are required it descends from a redeemed one |
| RequestLifecycle.PushedByThisClientExactly | par.go:152-160 | a code that descends from a redeemed request belongs to the client that authenticated to push it if and only if the ClientID was not edited in between |
| RequestLifecycle.SpentForGood | storage.go:48-52 | a completed or redeemed request is never found or deleted again |
| Issuance.NormalizeClaims | claims.go:146-166 | the claims without null values |
| Issuance.RunBeforeIssue | issue.go:176-251 | accepts exactly acceptable hook results and replaces every field of the plan by the hook's |
| Issuance.PlanIssuance | issue.go:151-173 | the plan for a grant, or the refusal |
| Issuance.AnyHookIsSafe | issue.go:176-251 | whatever the hook returns, planning fails or yields subsets without duplicates, no new refresh token, a known format, lifetimes of a second, no protected names and an audience for JWT |
| Issuance.HookIsFollowed | issue.go:241-250 | an accepted hook result is what is issued: its scopes and audience without duplicates, its refresh choice and format, its non-null claims |
| Issuance.HookIsAcceptedExactly | issue.go:199-240 | exactly which hook results are accepted, and with which error the others fail |
| Issuance.PlannedLifetimes | issue.go:157-159 | every lifetime is the hook's, else the client's where set, else the provider's |
| Issuance.NothingIsAddedWithoutHook | issue.go:151-173 | without a hook everything granted is issued, in the client's format or the provider's, with no claims |
| Issuance.PlanWithoutHook | issue.go:151-173 | without a hook planning fails exactly for JWT without audience |
| Tokens.Provider.StoreTokens | token.go:490-497 | the storing loop has the outcome of the specification, stopping at the first failure |
| Tokens.Provider.DiscardTokens | token.go:519-527 | the discarding loop goes on past failures |
| Tokens.Provider.RevokeReusedGrant | token.go:383-390 | revokes the grant and rejects, or fails without effect |
| Tokens.Provider.Consume | token.go:366-378 | consumes an unused token; revokes the grant of a used one; rejects a missing one |
| Tokens.Provider.StoreAndConsume | token.go:505-515 | stores, then consumes, and discards on any failure |
| Tokens.Provider.SingleUseToken | token.go:338-350 | the token of this kind, issuer and client |
| Tokens.Provider.CheckUnused | token.go:355-364 | reuse revokes the grant; expiry only rejects |
| Tokens.Provider.NarrowScopes | token.go:303-316 | a subset without duplicates, or everything if none is asked for |
| Tokens.Provider.CheckClientGrant | token.go:321-333 | rejects exactly grants that the registration no longer covers |
| Tokens.Provider.VerifyPKCE | pkce.go:48-65 | accepts exactly a well-formed verifier of the challenge, and none without a challenge |
| Tokens.Provider.MintTokens | token.go:423-486 | the response and the records for a plan, each record of the same grant with its own kind, scopes, audience and lifetime |
| Tokens.Provider.ExchangeAuthorizationCode | token.go:188-243 | the whole exchange of a code, including every failure, equals the specification |
| Tokens.Provider.ExchangeRefreshToken | token.go:246-283 | the whole exchange of a refresh token, including every failure, equals the specification |
| Tokens.Provider.ServeRevocation | revoke.go:9-59 | the whole revocation request, including every failure, equals the specification |
| InterleavingProof.StepKeepsInv | token.go:423-527 | every step of every process, with failures, collection and revocation, keeps the invariant: while the parent is stored, so are its unexpired minted tokens |
| InterleavingProof.RunKeepsInv | token.go:423-527 | the invariant holds in every run |
| AtomicGrants.RunKeepsInv | storage.go:63-71 | runs of the atomic machine keep a linear log, live credentials that are the latest of their grant, and nothing live in revoked grants |
| Refinement.StepRefines | token.go:499-515 | every step of the interleaved endpoint is a step of the atomic one, or none, on the disclosed tokens |
| Refinement.RunRefines | token.go:499-515 | under every interleaving the disclosed tokens behave as if each exchange were one atomic step |
| Schedules.ExchangeIsASchedule | token.go:188-283 | every sequential exchange, with its failures and collections, is a run of the interleaved endpoint that ends in the same store and discloses tokens exactly if it succeeds |
| Schedules.ExchangeStaysReachable | token.go:188-283 | so a sequential exchange keeps the store among the reachable ones |
| Schedules.RevocationIsASchedule | revoke.go:33-52 | every sequential revocation request is a run of the interleaved endpoint that ends in the same store |
| Guarantees.RevocationIsFinal | token.go:499-515 | once a grant is revoked, by request or by detected reuse, none of its disclosed tokens is ever stored again, whatever is in flight |
| Guarantees.DeliveriesFormChains | token.go:366-378 | whoever redeems a credential redeems the one disclosed last for the grant |
| Guarantees.RedeemedAtMostOnce | storage.go:63-71 | each code and each refresh token is redeemed at most once |
| Guarantees.OneUnusedCredentialPerGrant | token.go:246-283 | a grant never has two stored, disclosed, unused credentials |
| Guarantees.ConsumedMeansRedeemed | token.go:499-504 | no credential is burned: a consumed token was redeemed for disclosed tokens |
| Guarantees.ReturnedTokensAreStored | token.go:499-515 | every token a successful exchange returns is stored unless it expired |
| Histories.RacingReuse | token.go:355-390 | in every run, if two valid exchanges of one unexpired token both finish and no storage call, encoder or signer fails them, at most one returns tokens and nothing of the grant is active |
| Histories.ReplayKillsGrant | token.go:383-390 | in every run, a valid exchange of a used token, expired or not, leaves nothing of the grant active once it finished, if no storage call fails it |
| Histories.UndeliveredTokensAreRemoved | token.go:519-527 | in every run, whatever a finished process minted and did not deliver is gone, if its own discards succeeded |
| Histories.AccessTokensWithinRegistration | token.go:303-333 | in every run, every stored access token was minted by an exchange or issuance for its client, within the registration of that moment |
| Guarantees.Isolation | revoke.go:33-52 | a step consumes or deletes an unexpired token only for the issuer and the client that sent the request, to whom the token belongs |
| Guarantees.GrantsAreHomogeneous | token.go:452-463 | all stored tokens of a grant agree on issuer, client, end-user, authentication and claims |
| Guarantees.ChainsPreserveTheCode | token.go:452-477 | after any number of rotations refresh tokens carry exactly the scopes and audience of the code and access tokens a part of them, duplicate-free if the code's are |
| Guarantees.AccessWithinRegistration | token.go:303-333 | an accepted plan is within the registration at that exchange |
| Failures.StoreAndConsumeAtomic | token.go:505-515 | on failure everything but the minted records is as before, and these are gone if at most one call failed |
| Failures.FailureAtomicity | token.go:499-527 | a failed exchange of an unused token leaves every other unexpired token as it was, and the parent unused |
| Failures.ReusedValueDestroysToken | token.go:505-527 | minting the value of a stored token fails and removes that token |
| Rotation.ExchangeSucceeds | token.go:188-283 | a matching request for an unused token succeeds if nothing fails before its expiry |
| Rotation.RetrySucceeds | token.go:499-504 | after an attempt that failed anywhere, a retry succeeds |
| Rotation.RotationNeverEnds | token.go:246-283 | any number of refreshes succeeds, each within the configured lifetime after the one before, with a new refresh token and the full scope unless less was asked for |
| EndToEnd.PreCheckExact | token.go:198-219 | exactly which redirect URI and verifier a code demands |
| Issued.SuccessfulExchange | token.go:423-515 | what a successful exchange stores and tells the client, in terms of the redeemed token, the request, the registration and the hook; every other token stays |
| Issued.PlanOfAttempt | token.go:188-283 | the scopes, audience, claims, lifetimes and refresh decision of an accepted attempt |
| EndToEnd.WhyRejected | token.go:188-283 | why an exchange is rejected when nothing fails, with which error, and that nothing else keeps it from succeeding |
| EndToEnd.BlamedForAReason | token.go:338-390 | whatever fails, an error that blames the client has the reason it names |
| EndToEnd.RedeemedWithProof | token.go:198-235 | a successful exchange was by the client and at the issuer of the token, which was unused and unexpired; for a code, with a verifier of the approved challenge |
| EndToEnd.ForeignRequestsChangeNothing | token.go:338-364 | a request by another client, at another issuer or for another kind of token changes nothing, nor does one for a token that expired unused |
| EndToEnd.UnprovenChangesNothing | token.go:198-219 | a wrong verifier or redirect URI changes no token, even for a used code |
| EndToEnd.ReplayRevokes | token.go:355-390 | a matching replay of a code or refresh token is rejected and removes exactly the tokens of the grant |
| EndToEnd.RevocationExact | revoke.go:33-52 | a revocation request removes exactly the grant of a refresh token, or one access token, of the requesting client and issuer |
| EndToEnd.FailedRevocationChangesNothing | revoke.go:33-56 | a revocation request that is answered with an error changes nothing |
| EndToEnd.ApprovedCodesWork | approve.go:158-203 | an approved code is redeemable in time, yields a refresh token exactly if allowed, and then any number of refreshes succeeds |
| EndToEnd.GrantReleaseBound | userinfo.go:45-54 | UserInfo answers any access token of the grant with claims of its scopes or individually approved ones, all mapped from scopes registered at the approval |
| EndToEnd.ApprovalBoundsEveryAccessToken | approve.go:149-203 | in every run, for every edit and approval, every access token of the grant has duplicate-free scopes and audience within those approved and releases only claims of its scopes or approved ones |
| Claims.ComputeAllowedClaims | claims.go:73-87 | the claims of the scopes and the requested ones |
| Claims.ComputeClaimsForClient | claims.go:91-97 | drops the requests for claims that no scope of the client maps to |
| Claims.ComputeEndUserClaims | claims.go:102-118 | only allowed, non-null claims that are not protocol claims |
| Claims.ReleaseBound | claims.go:73-118 | the names UserInfo may release, along both filters |
| AccessTokens.JwtAccessTokenClaims | accesstoken.go:105-138 | the value of every claim name of a JWT access token |
| AccessTokens.IntrospectionResponse | introspect.go:58-88 | the value of every member of the response |
| AccessTokens.JwtIsDisjointUnion | accesstoken.go:61-65 | the claims of a JWT are the disjoint union of the hook's and the protocol's |
| AccessTokens.JwtAndIntrospectionAgree | introspect.go:58-88 | a JWT and the introspection of its record have the same entries under a name if and only if the name is not in Differ |
| AccessTokens.LifetimesAgree | token.go:424-468 | expires_in is at most exp minus iat, which is at most one more, and exp never exceeds the stored expiry |
| Answers.ValidatedExactly | validate.go:15-31 | exactly which access tokens validate |
| Answers.IntrospectedExactly | introspect.go:40-56 | exactly about which tokens, and to whom, introspection answers |
| Answers.IntrospectionAgreesWithUse | introspect.go:48-52 | an access token is reported to its client exactly while it validates, a refresh token exactly while an exchange would find it usable |
| Answers.UserInfoAnsweredExactly | userinfo.go:31-43 | exactly which tokens UserInfo answers, and with which error the others are rejected |
| Answers.UserInfoExactly | userinfo.go:45-54 | the UserInfo response: the end-user, and exactly the known non-null claims that a scope maps to or that were approved |
| Answers.JwtNames | accesstoken.go:105-122 | what the mandatory claims of a JWT access token say, read back |
| Answers.JwtAuthentication | accesstoken.go:126-136 | how the end-user authenticated, as far as known, read back |
| Answers.JwtScope | accesstoken.go:123-125 | the scope claim reads back as the granted scopes |
| Answers.ResponseNames | introspect.go:64-87 | what the members of an introspection response say about the record, read back |
| Answers.ResponseScope | introspect.go:79-81 | the scope member reads back as the granted scopes |
| ClientAssertions.AssertionKey | clientauth.go:217-225 | the writing loop hashes the length-prefixed parts |
| ClientAssertions.FramesInjective | clientauth.go:217-225 | different lists of parts are hashed from different bytes |
| ClientAssertions.KeysIdentify | clientauth.go:217-225 | two assertions share a key if and only if they agree on issuer, client and jti |
| ClientAssertions.FirstUseSucceeds | clientauth.go:206-214 | among any storage calls, an assertion is accepted on first use whatever others were used before |
| ClientAssertions.AcceptedOncePerClaim | clientauth.go:206-214 | among any storage calls, it is not accepted again before the claim of an accepted use runs out |

## Left out

- HTTP: routing, methods, form parsing (newParams), cookies, headers, redirects, form_post pages, error pages, logging and discovery. Requests are decoded parameters, and a binding cookie is the hash of its value.
- Cryptography and JOSE: hashing, signing and encoding are parameters that may fail; key selection, JWS and the contents of ID tokens are not part of this model.
- Client authentication (secrets, assertion signatures and times, the choice of a method): exchanges start with an authenticated client. Of assertions only the one-time keys are modelled.
- The client credentials grant and extension grants as request handlers: the interleaved endpoint issues for an arbitrary planned grant within the client's registration instead.
- URL parsing behind redirect URIs: exact matches and an abstract loopback relation.
- JSON decoding and deep copies: the claims parameter, max_age and hints arrive decoded, and stored values are shared without aliasing, since records are immutable values here. Cloning through JSON drops the unexported fields of stored requests, which the model keeps; they are never set in a way that matters.
- The display, ui_locales, claims_locales, login_hint and acr_values fields, which are only passed through.
- The order in which requested claim names are listed: lists of names are sets.
- Context cancellation, the mutex of the memory store, and the saturation of time.Duration.
- Which extension parameters are kept when there are more than fit is left open, because the source iterates over a map.
- PushedRequests.PushAuthorization: takes the registration of one lookup, although parsing for pushing and pushing each look the client up.
- Tokens.Provider.MintTokens: does not model the order in which the encoder and the signer fail, because they have no effect on the store; they are one interaction that may fail.

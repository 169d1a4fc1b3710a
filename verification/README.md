# oidc-test-idp: a verified model of its storage and protocol state

The identity provider keeps its protocol state in a handful of SQLite tables and runs each storage
method as several SQL statements without a transaction; one open connection serialises single
statements only (`internal/storage/db.go:31`). This project models that state and proves what the
service can and cannot rely on.

The same programs are looked at in two ways:

- **statement by statement**: any number of calls are in flight, each with a program counter and local
  variables; a run is a list of labels (start a call, draw ids, execute one statement, die halfway,
  advance the clock, change configuration), and theorems about `Run(labels)` hold for every list;
- **methods atomic**: the runs of the very same machine in which no two methods overlap (`Serial`).

Where a guarantee holds for atomic methods but not for every interleaving, the exact condition is proved:
for renewal, revocation, termination, single use of codes, `done`, identities and newest keys.

| part | files |
|---|---|
| users and subjects | `Users.dfy` |
| claims and userinfo | `Claims.dfy`, `Userinfo.dfy` |
| access and refresh tokens | `TokenTables.dfy` (rows), `TokenMachine.dfy` (programs), `TokenInvariant.dfy`, `TokenPreservation.dfy`, `TokenSafety.dfy`, `TokenContent.dfy` (every interleaving), `TokenSerial.dfy`, `TokenAtomicSafety.dfy` (atomic methods), `TokenOverlap.dfy` (exact conditions), `TokenAlone.dfy`, `TokenTraces.dfy` (failing runs), `TokenStorage.dfy` (the methods as code) |
| authorization requests and codes | `AuthRequests.dfy`, `LoginMachine.dfy`, `LoginSafety.dfy`, `LoginRecords.dfy`, `LoginSerial.dfy`, `LoginOverlap.dfy`, `LoginIdentity.dfy`, `LoginTraces.dfy`, `LoginStamps.dfy`, `LoginStorage.dfy`, `SignIn.dfy` |
| signing keys, cache and lock | `KeyMachine.dfy`, `KeyInvariant.dfy`, `KeySafety.dfy`, `KeyRecords.dfy`, `KeyOrder.dfy`, `KeySerial.dfy`, `KeyTraces.dfy`, `KeyStorage.dfy` |
| device codes | `DeviceCodes.dfy` |
| admin text fields | `AdminText.dfy` |
| request log | `ReqLog.dfy` |

The storage object appears twice on purpose: as a class whose methods are the code, and as programs of a
machine. Each class method states that it leaves the tables exactly as `Steps` of its program do for a
caller that is alone, so the theorems about runs are theorems about those methods. Beside that it states
what a caller sees field by field, in terms of its arguments and the stored rows.

Ghost history in the machines (drawn ids, chains, codes saved, keys returned) is ordinary data that no
step reads, except that a drawn id must be unused: section 4.4 of RFC 4122. What it records is proved to
go back to the calls that were made.

Assumptions: fresh ids; statements succeed unless a key constraint forbids them, and a lookup may find
nothing; JSON columns and the `timeStr`/`parseTime` pair are faithful; a renewing caller passes the
request loaded from the token it renews (possibly with its scopes narrowed); clocks do not go back.

What fails, and exactly when (each with its lemma below):

- A refresh token can be renewed twice, which forks its chain, exactly when one renewal finds its token
  while another renewal of it stands between its reload and its deletion.
- A chain, access tokens included, can outlive the termination of its session exactly when a renewal of it
  has found its token and is still to finish when the refresh tokens are deleted; for a revocation the same,
  or another refresh token or another valid access token in the chain.
- A deleted authorization request can come back, and be redeemed, exactly when another call holds a
  copy of it that it is going to save; `done` is cleared exactly when a copy loaded before completion is
  saved after it.
- A request that is done can carry another subject than that of the account that completed it, namely
  exactly when SetAuthRequestUser saved another user id last; a second login for a client that wants
  consent does that. Between statements its acr and amr can also be another account's, namely those of the
  account that stamped the copy saved last. Submitting the consent form twice switches to the account whose
  row id is the user's custom subject, if there is one.
- A cached key is outdated exactly when a key of its algorithm was inserted after it, which two overlapping
  rotations can cause and also a rotation that overlaps a key generation on demand. A restart changes the
  default key exactly when a key was inserted after it; with rotations apart that is a key generated on
  demand.
- Userinfo and access token can disagree on a claim other than the address exactly when two rows with the
  subject as their custom subject assert different claims.
- `parseResponseTypes` strips quotes before blanks, so what it parses does not survive printing exactly
  when a piece hides a quote behind blanks; a code challenge method other than S256 or plain is read back
  as plain.

## Model

| member | source | states |
|---|---|---|
| TokenSafety.RefreshRowsCarryTheirGrant | internal/storage/storage.go:200-293 | in every interleaving each refresh token row still has user, client, audience, amr, auth time and scopes of the login that heads its chain, narrowed scopes notwithstanding; its access token points back to it; no two rows share an access token |
| TokenSafety.ChainsFollowTheCalls | internal/storage/storage.go:200-225 | a login's refresh token heads a chain whose grant has the request's own user, client, audience, scopes, authentication time and effective amr, kind of request by kind; a renewal's continues the renewed token's chain with a different id, and no issue call fails |
| TokenSafety.RetiredTokensStayRetired | internal/storage/storage.go:271-293 | after a renewal or revocation of a refresh token has returned, its row never comes back and every renewal of it that starts later fails, in every continuation |
| TokenSafety.RetiredAccessTokensStayDead | internal/storage/storage.go:339-361 | the access token issued together with a retired refresh token is gone for good |
| TokenContent.AccessTokensSayWhatWasAsked | internal/storage/storage.go:180-243 | in every interleaving each stored access token was drawn by one call and carries what that call was asked for, kind of request by kind: client, user, audience and scopes; for a renewal those of the login at the head of the chain, but with the scopes its caller set last on the loaded request, if it set any |
| TokenContent.ReturnedIffHandedOver | internal/storage/storage.go:180-225 | over any run, an access token counts as handed out if and only if some call returned it |
| TokenContent.LiveIffUsable | internal/storage/storage.go:200-243 | the access tokens called live are exactly the stored ones that came with a refresh token and were returned by some call, and their chain is that token's |
| TokenPreservation.ExecKeeps | internal/storage/storage.go:180-361 | every statement of every call keeps the invariant on rows, drawn ids and the local variables of all calls in flight |
| TokenInvariant.LocalsStable | internal/storage/storage.go:200-361 | what a call relies on between two of its statements survives any step of another call |
| TokenAtomicSafety.ChainsDoNotFork | internal/storage/storage.go:200-293 | with atomic methods each refresh token is renewed at most once, each chain has at most one refresh row, and at most one access token of those handed out is valid |
| TokenAtomicSafety.RevocationEndsTheChain | internal/storage/storage.go:339-361 | with atomic methods, once RevokeToken has deleted a refresh token no access token of its chain that was handed out is valid, and the chain can never be renewed |
| TokenAtomicSafety.TerminationEndsTheChains | internal/storage/storage.go:321-329 | with atomic methods, every refresh token issued for the user and client before TerminateSession is dead in every continuation |
| TokenAtomicSafety.TerminationLeavesNothing | internal/storage/storage.go:321-329 | when TerminateSession returns, no refresh token row has its user and client and no access token row its subject and client |
| TokenSerial.DeadStays | internal/storage/storage.go:200-293 | a dead chain is revived by no step, overlapping or not |
| TokenSerial.SerialKeeps | internal/storage/storage.go:180-361 | every undisturbed step keeps one row and one live access token per chain, one renewal per token, and what finished revocations and terminations achieved |
| TokenTraces.OverlappingRenewalsFork | internal/storage/storage.go:271-293 | a run in which two overlapping renewals of one refresh token both succeed and leave two refresh tokens and two valid access tokens in one chain |
| TokenTraces.RenewalSurvivesTermination | internal/storage/storage.go:271-329 | a run in which a renewal past its load leaves and hands out a refresh token of a user and client after TerminateSession for them has returned |
| TokenOverlap.RenewedOnceIff | internal/storage/storage.go:271-293 | over any run, no refresh token is ever renewed, or committed to be renewed and unfinished, by two calls if and only if no renewal finds its token while another renewal of it stands between its reload and its deletion |
| TokenOverlap.ApartChainsDoNotFork | internal/storage/storage.go:200-293 | without such a collision no chain ever has two refresh tokens, nor two valid access tokens that were handed out, whatever else overlaps or dies halfway |
| TokenOverlap.CollisionCanFork | internal/storage/storage.go:271-293 | from every collision the run can go on to two refresh tokens in one chain |
| TokenOverlap.CommittedRevives | internal/storage/storage.go:271-293 | every renewal that has found its token, left to itself, succeeds and gives its chain a refresh token |
| TokenOverlap.TerminationIsFinalIff | internal/storage/storage.go:321-329 | in every interleaving, a chain never gets a refresh token again after TerminateSession deleted the user's and client's if and only if no renewal of it that has found its token is unfinished then |
| TokenOverlap.RevocationIsFinalIff | internal/storage/storage.go:339-361 | in every interleaving, a chain never has a refresh token again after RevokeToken deleted one if and only if it had no other then and no renewal of it that has found its token is unfinished |
| TokenOverlap.TerminationKillsTheChain | internal/storage/storage.go:321-329 | under that condition, once TerminateSession has returned the chain has no refresh token and no valid access token that was handed out, for good |
| TokenOverlap.TerminationKillsTheChainIff | internal/storage/storage.go:321-329 | in every interleaving, the chain is dead when TerminateSession returns and ever after if and only if no renewal of it that had found its token was unfinished when the refresh tokens were deleted |
| TokenOverlap.RevocationKillsTheChainIff | internal/storage/storage.go:339-361 | in every interleaving, the chain is dead when RevokeToken returns and ever after if and only if, when it deleted the refresh token, the chain had no other, no unfinished renewal that had found its token, and no valid access token but the partner of the revoked one |
| TokenAlone.MovesAreSteps | internal/storage/storage.go:180-361 | moving one call k times in the machine runs its program for k statements and touches no other call |
| TokenAlone.IssueSteps | internal/storage/storage.go:200-215 | a login alone adds exactly one access and one refresh row, each with the client's lifetime, and returns their ids |
| TokenAlone.RenewSteps | internal/storage/storage.go:217-293 | a renewal alone exchanges both rows, keeping the grant and always giving five hours; on a missing or expired token it leaves only the access token row nobody gets |
| TokenAlone.RevokeSteps | internal/storage/storage.go:339-361 | a revocation alone removes exactly what the token names if the client owns it, both rows for a refresh token, and nothing for another client |
| TokenAlone.TerminateSteps | internal/storage/storage.go:321-329 | a termination alone removes exactly the rows of the user and client from both tables and changes no other row |
| TokenStorage.Storage.constructor | internal/storage/storage.go:56-66 | works on whatever the token tables already hold |
| TokenStorage.Storage.AccessToken | internal/storage/storage.go:227-243 | inserts exactly one dated row under the drawn id, or changes nothing if the id is taken |
| TokenStorage.Storage.CreateAccessToken | internal/storage/storage.go:180-198 | same effect and outcome as its program; the one row it adds carries application, subject, audience and scopes as each kind of request has them, no refresh token, and the client's lifetime, else five minutes |
| TokenStorage.Storage.CreateRefreshToken | internal/storage/storage.go:253-269 | inserts the partner row of a new access token with the client's refresh lifetime, else five hours |
| TokenStorage.Storage.TokenRequestByRefreshToken | internal/storage/storage.go:313-319 | same answer as the load statement of a renewal |
| TokenStorage.Storage.RenewRefreshToken | internal/storage/storage.go:271-293 | same effect and outcome as the last four statements of a renewal; the new refresh row copies the old one but for ids, access token and five hours; which check fails decides the error |
| TokenStorage.Storage.CreateAccessAndRefreshTokens | internal/storage/storage.go:200-225 | same effect and outcome as a login or as a renewal; a login's two rows carry what each kind of request has, a renewal's access row the request's user, client, audience and (possibly narrowed) scopes and its refresh row what the renewed one had; says exactly when each succeeds |
| TokenStorage.Storage.RevokeToken | internal/storage/storage.go:339-361 | same effect and outcome as its program; says for access, refresh and unknown tokens and for a wrong client what is removed and what is returned |
| TokenStorage.Storage.TerminateSession | internal/storage/storage.go:321-329 | same effect as its two deletions: exactly the rows of the user and client are gone from both tables, and no other row is changed |
| LoginSafety.RedemptionsCarryWhatWasSent | internal/storage/storage.go:73-132 | in every interleaving a code redeems only a request it was saved for, whose client, redirect URI, scopes, state, nonce, response type and mode, challenge, hints and known prompts are, field by field, those sent to authorize, and which is done only if a completion was saved for it |
| LoginSafety.RowsCarryWhatWasSent | internal/storage/storage.go:85-119 | the same for every stored row between any two statements |
| LoginRecords.RecordsGoBackToCalls | internal/storage/storage.go:73-176 | in every run what is on record as sent, saved, completed, chosen or deleted goes back to a call of that kind, the last four to one that returned |
| LoginRecords.RedemptionsGoBackToCalls | internal/storage/storage.go:73-176 | in every interleaving what a code redeems carries field by field what one call of CreateAuthRequest was given, a call of SaveAuthCode saved that code for it, and if it is done a call of CompleteAuthRequest for it returned |
| LoginSafety.RedeemedChallengeIsTheSentOne | internal/storage/oidc_types.go:71-80 | the challenge read back is the one sent if and only if there was none or its method is S256, plain or absent |
| LoginSafety.ExecKeeps | internal/storage/storage.go:73-176 | every statement keeps rows and local copies true to what was sent |
| LoginSerial.CodesAreSingleUse | internal/storage/storage.go:125-145 | with atomic methods, once DeleteAuthRequest has run for a request its row never comes back and no code saved for it, before or after, ever redeems it |
| LoginSerial.DeletionIsNoted | internal/storage/storage.go:139-145 | the last statement of DeleteAuthRequest removes its row and is what the single-use theorem refers to |
| LoginSerial.DoneMeansCompleted | internal/storage/storage.go:147-176 | with atomic methods a stored request is done exactly if CompleteAuthRequest completed it |
| LoginSerial.DoneIsNeverUnset | internal/storage/storage.go:147-176 | with atomic methods a request that is done stays done while it exists |
| LoginTraces.CompletionUndoesDeletion | internal/storage/storage.go:85-176 | a run in which a completion that straddles a deletion brings the row back, and a code saved afterwards redeems it |
| LoginTraces.StaleSaveUnsetsDone | internal/storage/storage.go:149-156 | a run in which SetAuthRequestUser, loaded before a completion and saved after it, clears done |
| LoginOverlap.SingleUseIff | internal/storage/storage.go:85-176 | in every interleaving, the last statement of DeleteAuthRequest is final, and no later lookup through any code yields the request, if and only if no other call then holds a copy of it to save |
| LoginOverlap.WriterRevives | internal/storage/storage.go:85-97 | every call that holds a copy of a request brings its row back with its next two moves |
| LoginOverlap.DoneIsUnsetIff | internal/storage/storage.go:147-176 | in every interleaving, a stored request stops being done exactly when SetAuthRequestUser saves a copy loaded before it was done |
| LoginOverlap.DoneIsNeverUnsetIff | internal/storage/storage.go:147-176 | over any run, done is never unset while the request exists if and only if no such stale copy is saved over it |
| LoginIdentity.DoneCarriesIdentityIff | internal/storage/storage.go:147-176 | with atomic methods and accounts unchanged, a done request carries acr and effective amr of the account it was last completed for, and its subject if and only if SetAuthRequestUser did not last save another user id since |
| LoginStamps.DoneCarriesStampIff | internal/storage/storage.go:147-176 | in every interleaving with accounts unchanged, a done request has the subject saved last and the acr and effective amr of the account that stamped the copy saved last; it carries the identity of the account it was last completed for if and only if no other subject was saved since and the stamp says the same acr and amr, so always if SetAuthRequestUser saved nothing since |
| LoginStamps.StaleSaveMixesAccounts | internal/storage/storage.go:147-176 | a run in which SetAuthRequestUser, loaded after the completion for one account and saved after that for another, leaves a done request with the second account's subject and the first one's acr and amr |
| LoginStorage.MovesAreSteps | internal/storage/storage.go:73-176 | moving one call n times in the machine runs its program for n steps and touches no other call |
| LoginStorage.AuthStore.CreateAuthRequest | internal/storage/storage.go:73-83 | fails exactly on a prompt of none alone; otherwise stores under the drawn id, not done, a request that carries every field sent and the known prompts in order, as its program does |
| LoginStorage.AuthStore.AuthRequestByCode | internal/storage/storage.go:125-132 | the request stored under the id the code was saved for, if both are there; same answer as its two statements |
| LoginStorage.AuthStore.SaveAuthCode | internal/storage/storage.go:134-137 | adds the code, or fails when it exists |
| LoginStorage.AuthStore.DeleteAuthRequest | internal/storage/storage.go:139-145 | removes the request and exactly the codes that were saved for it |
| LoginStorage.AuthStore.SetAuthRequestUser | internal/storage/storage.go:149-156 | changes only the user of the request, or reports that it is missing |
| LoginStorage.AuthStore.CompleteAuthRequest | internal/storage/storage.go:160-176 | marks done, stamps the time and, if there is such an account, its acr, amr and custom subject or row id, changes nothing else, or reports that the request is missing |
| LoginStorage.AuthStore.DoLogin | internal/auth/auth.go:48-82 | same effect as the storage call it chooses: records the user when the client wants consent, completes otherwise; each error leaves everything alone |
| LoginStorage.AuthStore.DoConsent | internal/auth/auth.go:104-128 | same effect as the storage call it chooses: allow completes for the recorded user; anything else deletes request and codes |
| LoginStorage.HasGrantType | internal/oidc/ropc.go:110-117 | true exactly if the grant type is listed |
| LoginStorage.AuthStore.RopcExchange | internal/oidc/ropc.go:49-108 | with credentials from basic authentication or the form, which condition fails decides the error; a client without a secret needs none, any other the right one; a grant is done now for a stored user with that username, with its subject, acr and amr and the fields of the scope value |
| AuthRequests.PromptToInternal | internal/storage/oidc_types.go:82-91 | keeps exactly the known prompts, in order |
| SignIn.ThreeWaysOneIdentity | internal/auth/auth.go:48-128 | the login handler, the login and consent handlers, and the password grant give a stored user the same subject, acr and effective amr, whatever the request looked like before |
| SignIn.ConsentIsRepeatable | internal/auth/auth.go:104-128 | running the consent handler twice gives the same identity as once if no other account's id is the user's custom subject |
| SignIn.ConsentRepeatsIff | internal/auth/auth.go:104-128 | it gives the same identity exactly if there is no such account or its tokens would be indistinguishable; otherwise it gives that account's |
| SignIn.RepeatedConsentCanSwitchUser | internal/auth/auth.go:104-128 | two accounts for which the second run of the consent handler changes acr |
| SignIn.SecondLoginMixesAccounts | internal/storage/storage.go:149-156 | login, consent, and a login as another user leave a done request with the second user's raw id and the first one's acr and amr |
| SignIn.TokensCarryTheSubjectIff | internal/storage/storage.go:147-225 | the access tokens of any chain started by a redeemed request carry the effective subject of the account it was last completed for, after any renewals in any interleaving, if and only if no other user id was saved last since |
| SignIn.TokensLeadBackToTheUser | internal/storage/repo.go:191-206 | then, with unique subjects, that subject resolves to the account that signed in, whichever row is picked |
| SignIn.UserinfoIsTheSignedInUsers | internal/storage/storage.go:483-492 | hence the userinfo for that access token is the signed-in user's, and with the openid scope its subject is the token's |
| Userinfo.TokenInfo.SetUserinfoFromToken | internal/storage/storage.go:483-492 | answers exactly for stored tokens that have not expired, and tells what the row's subject, client and scopes release, scope by scope and claim by claim |
| Userinfo.TokenInfo.SetIntrospectionFromToken | internal/storage/storage.go:494-516 | answers exactly for stored, unexpired tokens whose audience has the client; expiration, scopes and client are the row's |
| Users.SubjectsResolveBackIffInjective | internal/storage/repo.go:191-206 | looking up a user's subject yields that user, whichever row is picked, for every stored user if and only if no two users share an effective subject |
| Users.UserStore.GetUserByUsername | internal/storage/repo.go:182-189 | finds a row with this username if and only if there is one |
| Users.UserStore.GetUserBySubject | internal/storage/repo.go:193-206 | a stored row with this custom subject if there is one, else the row of this id, nothing for the empty subject |
| Users.UserStore.SaveUser | internal/storage/repo.go:227-248 | inserts or replaces by id, and fails exactly if another row has the username |
| Users.UserStore.DeleteUser | internal/storage/repo.go:251-254 | removes this row only |
| Claims.ConditionalIsLastMention | internal/storage/models.go:135-161 | no result exactly if no rule matches; each claim has the value of the last matching rule that mentions it, and there are no others |
| Claims.MoreScopesMoreClaims | internal/storage/models.go:137-170 | adding scopes never takes a claim name away |
| Claims.HasAllScopes | internal/storage/models.go:163-170 | true exactly if every wanted scope is there |
| Claims.EvaluateConditionalClaims | internal/storage/models.go:137-161 | the nested loops compute the rule semantics above, in any map order: nothing exactly if each rule names another client or a scope that was not asked for |
| Claims.Merge | internal/storage/storage.go:522-534 | ranging over a map in any order overrides with all its entries |
| Claims.MergeWithout | internal/storage/storage.go:579-584 | the same, with the reserved key left out |
| Claims.ReleaseScopes | internal/storage/storage.go:556-578 | the loop over scopes fills in the user's fields of exactly the standard scopes asked for, email, profile, phone, address and openid, and leaves the others |
| Claims.UserinfoTells | internal/storage/storage.go:541-596 | every userinfo given for a subject tells, for a user it resolves to, the fields of each standard scope asked for and no others, and each claim from the client, else the last matching rule, else the user but for address; without a user the subject asked for and the client's claims |
| Claims.ScopeOrderIsImmaterial | internal/storage/storage.go:556-578 | order and repetition of the requested scopes change nothing |
| Claims.ClaimPrecedence | internal/storage/storage.go:518-539 | the client's claims win over the last matching rule, which wins over the user's static claims |
| Claims.PathsAgree | internal/storage/storage.go:518-596 | for one resolved user, each extra claim of userinfo is in the JWT access token with the same value, and exactly an unoverridden static address is missing |
| Claims.ResultsAgreeIff | internal/storage/storage.go:518-596 | for any userinfo to start from, whichever rows the two lookups pick, userinfo and access token agree on every claim but the address if and only if all rows with that custom subject assert the same claims |
| Claims.ResultsAgree | internal/storage/storage.go:518-596 | so they do whenever at most one row has the subject as custom subject, and then exactly an unoverridden static address is missing from userinfo |
| Claims.TwoRowsCanDiffer | internal/storage/repo.go:191-206 | two rows with one custom subject that assert different claims, for which a claim reaches userinfo and not the access token |
| Claims.ClaimSource.SetUserinfo | internal/storage/storage.go:541-596 | the userinfo tells just that, for the user the subject resolves to or for none |
| Claims.ClaimSource.AppendClaims | internal/storage/storage.go:576-594 | the client's claim wins over the last matching rule's, that over the user's own but for address, that over what was there; nothing else is added |
| Claims.ClaimSource.GetPrivateClaimsFromScopes | internal/storage/storage.go:518-539 | all extra claims of the resolved user and client, none reported for an empty result |
| KeySafety.PinnedCallersAgree | internal/storage/storage.go:382-405 | in every interleaving one process generates at most one key per algorithm on demand; pinned callers get the requested algorithm, and the same key unless it was rotated in this process |
| KeySafety.CacheIsConsistent | internal/storage/storage.go:371-450 | with the write lock free the current key is the cached key of its algorithm; each cached key is an active row of the algorithm it is cached under |
| KeySafety.ReturnedKeysStayPublished | internal/storage/storage.go:425-436 | every key SigningKey ever returned, over restarts, is in every key set whose call starts later, and that key set is read from the table |
| KeyRecords.ReturnsAreOnRecord | internal/storage/storage.go:371-450 | in every run each key SigningKey returned is on record, which the theorem above is about, and an algorithm is on record as rotated if a rotation of it returned and only if one was called |
| KeyRecords.InsertsAreNoted | internal/storage/storage.go:382-450 | a step adds at most one row, under a new id, active and dated now, and it is on record as generated on demand if a pinned call inserted it, as rotated in if a rotation did |
| KeyRecords.PublishesTheActiveRows | internal/storage/storage.go:425-436 | in every run KeySet publishes exactly the active rows of the table |
| KeySafety.ExecKeeps | internal/storage/storage.go:365-450 | every lock, cache and table step, and every restart, keeps lock ownership, cache, local copies and log consistent |
| KeySerial.CacheEqualsQuery | internal/storage/keys.go:105-119 | while operations on one algorithm do not overlap each other, whatever else does, each pinned answer for it is what the uncached query would return, and so is the cached key while no rotation of it is under way |
| KeySerial.PinnedAnswerSurvivesRestart | internal/storage/storage.go:56-66 | under the same condition and with distinct creation times, two pinned answers are the same key if no key of the algorithm was created in between, however often the process restarted |
| KeyOrder.CachedIsNewestIff | internal/storage/storage.go:371-450 | in every interleaving and over restarts, a cached key is the newest of its algorithm if and only if no key of that algorithm was inserted after it |
| KeyOrder.CacheWriteIsNewestIff | internal/storage/storage.go:382-450 | a rotation or a pinned call caches an outdated key exactly if another rotation or pinned call inserted a key of the algorithm after its own row |
| KeyOrder.RestartTakesTheNewest | internal/storage/keys.go:64-77 | a restart keeps the default key if and only if it is the newest active row |
| KeyOrder.RestartKeepsDefaultIff | internal/storage/keys.go:64-77 | in every interleaving that is so if and only if no key at all was inserted after it |
| KeyOrder.DefaultSurvivesRestartIff | internal/storage/storage.go:382-450 | if rotations do not overlap each other and none is under way, a restart keeps the default key if and only if no key was generated on demand since it was inserted |
| KeyOrder.OrderStep | internal/storage/keys.go:123-150 | every step keeps the rows in the order of their creation times and the cached keys on top of the rows that were there before |
| KeyTraces.OverlappingRotationsLoseTheNewest | internal/storage/storage.go:440-450 | a run in which two overlapping rotations leave the older of their keys current and cached |
| KeyTraces.RotationAcrossGenerationLosesTheNewest | internal/storage/storage.go:382-450 | a run in which a rotation inserts its key before a key generated on demand and caches it after, so the older one stays cached |
| KeyTraces.RestartChangesTheDefault | internal/storage/keys.go:64-77 | a run in which a restart makes a key generated on demand the default |
| KeyStorage.MovesAreSteps | internal/storage/storage.go:365-450 | moving one call n times in the machine runs its program for n steps and touches no other call |
| KeyStorage.EnsureSteps | internal/storage/storage.go:382-405 | for an uncached algorithm and a free lock: the newest row is cached, or a new row is inserted and cached, and the lock is free again |
| KeyStorage.RotateSteps | internal/storage/storage.go:440-450 | a rotation alone inserts one row, makes it current and caches it, and the lock is free again |
| KeyStorage.SigningKeys.constructor | internal/storage/storage.go:56-66 | same state as a boot of the machine: a newest active row, or a generated RS256 key, alone in the cache |
| KeyStorage.SigningKeys.EnsureKeyForAlg | internal/storage/storage.go:382-405 | same effect as its steps under the lock: the cached key, else a newest active row of the algorithm, else a new row dated now; the current key stays |
| KeyStorage.SigningKeys.SigningKey | internal/storage/storage.go:371-378 | RS256 and ES256 are honoured when asked for, anything else gets the current key and changes nothing |
| KeyStorage.SigningKeys.RotateSigningKey | internal/storage/storage.go:440-450 | same effect as its steps; an unsupported algorithm changes nothing |
| KeyStorage.SigningKeys.LoadAllSigningKeys | internal/storage/keys.go:81-101 | one key for each of the query's rows, with its algorithm, in order |
| KeyStorage.SigningKeys.KeySet | internal/storage/storage.go:425-436 | exactly the active rows as keys, newest first; the current key if there is none |
| KeyStorage.SigningKeys.SignatureAlgorithms | internal/storage/storage.go:407-421 | exactly the algorithms of active rows, once each, in the order in which they first appear |
| KeyStorage.FirstAppearancesAreInOrder | internal/storage/storage.go:412-420 | that list has no duplicates, the same elements, and the order of first appearance |
| KeyStorage.AlgorithmsArePublished | internal/storage/storage.go:407-436 | an algorithm is advertised exactly if an active key has it |
| DeviceCodes.CodesStayOneToOne | migrations/0001_init.sql:100-111 | device codes and user codes correspond one to one after any statements |
| DeviceCodes.RowsFollowTheirUserCode | internal/storage/storage.go:657-722 | over any statements a row keeps its parameters, is done or denied exactly by approvals or denials of its user code, never unset, and has the subject of the last approval |
| DeviceCodes.RowsWereInserted | internal/storage/storage.go:657-670 | over any statements every row has user code, client, scopes and expiry as one insert gave them for its device code |
| DeviceCodes.ApprovalReachesItsDevice | internal/storage/storage.go:672-716 | after an approval by user code, polling the matching device code with its client says approved, with that subject, denied exactly as before or since, and the stored client, scopes and expiry; other clients see nothing and other rows are unchanged |
| DeviceCodes.DenialReachesItsDevice | internal/storage/storage.go:719-722 | a denial changes exactly the row of its user code, and every later poll of that device with its client says denied, approved exactly as before or since |
| DeviceCodes.DeviceStore.StoreDeviceAuthorization | internal/storage/storage.go:657-670 | which check fails decides the error; a stored row is what its client polls and no other row changes |
| DeviceCodes.DeviceStore.GetDeviceAuthorizationByUserCode | internal/storage/storage.go:684-690 | field by field what the one row with this user code says, nothing if there is none |
| DeviceCodes.DeviceStore.DeviceApprove | internal/auth/device.go:35-63 | allow marks the row of the user code done for the account's custom subject or row id, anything else marks it denied; other rows stay |
| AdminText.ResponseTypesRoundTripIff | internal/admin/admin.go:354-390 | parsing undoes printing of response types on exactly the non-empty lists of non-empty, comma-free items without a blank or quote at either end |
| AdminText.GrantTypesRoundTripIff | internal/admin/admin.go:367-398 | the same for grant types, quotes allowed |
| AdminText.GrantTypesReparse | internal/admin/admin.go:367-398 | for every string, printing the parsed grant types and parsing again gives the same list |
| AdminText.TypedResponseTypesReparseIff | internal/admin/admin.go:354-390 | for response types that is so exactly if no comma-separated piece of the text, without its outer quotes, begins with blanks and a quote or ends with a quote and blanks |
| AdminText.ResponseTypesReparseIff | internal/admin/admin.go:354-390 | equivalently, if no parsed item has a quote at an end |
| AdminText.QuoteBehindSpaceIsKept | internal/admin/admin.go:354-365 | a string with a quote behind a comma and a space for which it fails |
| AdminText.LinesReparse | internal/admin/admin.go:235-236 | for every string, joining the split lines and splitting again gives the same list |
| AdminText.CommaSpaceReparse | internal/admin/admin.go:154 | the same for lists separated by commas and blanks, printed with a comma and a space |
| AdminText.WordsRoundTrip | internal/admin/admin.go:334-342 | splitting undoes joining on every list of non-empty words without separators |
| AdminText.ParseResponseTypes | internal/admin/admin.go:354-365 | the text cut at exactly its commas, each piece without surrounding quotes and then blanks, empty items dropped in order, code if nothing is left |
| AdminText.ParseGrantTypes | internal/admin/admin.go:367-378 | the text cut at exactly its commas, each piece without surrounding blanks, empty items dropped in order, authorization_code if nothing is left |
| AdminText.SplitLines | internal/admin/admin.go:344-352 | the text cut at exactly its line ends, each line without surrounding blanks, empty ones dropped in order |
| AdminText.SplitCommaSpace | internal/admin/admin.go:334-342 | the non-empty runs between commas, spaces, tabs and line ends, in order |
| AdminText.JoinResponseTypes | internal/admin/admin.go:380-390 | the items with a comma between any two, each in quotes exactly if it contains a space |
| AdminText.JoinGrantTypes | internal/admin/admin.go:392-398 | the items with a comma between any two, nothing for none |
| ReqLog.Log.constructor | internal/reqlog/reqlog.go:28-34 | an empty log; a limit that is not positive means 200 |
| ReqLog.Log.Add | internal/reqlog/reqlog.go:36-43 | the buffer always holds the last entries added, in order, and never exceeds the limit |
| ReqLog.Log.Entries | internal/reqlog/reqlog.go:45-54 | a fresh array whose entry j is the entry added j before the last, min(n, limit) of them |
| ReqLog.AddAll | internal/reqlog/reqlog.go:28-54 | for any sequence of adds and any limit Entries returns the last entries, newest first, and a copy taken earlier does not change |

## Left out

- CreateAuthRequest: the maximum age is an unbounded number of seconds, where the source multiplies into a 64-bit duration that nothing reads.
- RopcExchange: issuing the tokens and writing the token response belong to the library and to HTTP.
- Storage: the class methods read the clock once per call, while the machine lets it advance between statements; the machine is the more general of the two.
- SigningKeys: the class has no lock; the lock is part of the machine, whose steps its methods are equal to.
- KeySet: the fallback to the current key when the table cannot be read; only the empty table leads to it here.
- AdminText.SplitLines: white space is any predicate that holds of space, tab and newline and fails for comma, quote and the letters a, c, e; the Unicode table of TrimSpace is not modelled.
- SetUserinfoFromRequest: it passes subject, client and scopes of the request to the modelled setUserinfo.
- GetRefreshTokenInfo, ClientCredentials, GetKeyByIDAndClientID and the other lookups that change nothing: they would add only easy members.
- Failed statements and ignored results of deletions and updates: statements succeed unless a key constraint forbids them.
- SQL text, JSON columns and time encodings: tables are maps with their primary and unique keys.
- The zitadel/oidc library is not part of this model; only its calls into storage are, with the rule that a renewal passes the request it loaded.
- Key generation, PEM, signatures, PKCE hashing and token encryption: a key is an id and an algorithm.
- HTTP routing, templates, rendering, configuration, seeding, migrations and the behaviour overrides: input, output and plumbing.

# TNA governance core: a Dafny model

This project models the parts of the repository that decide what an agent may do and what stays true afterwards, and
proves what holds over every input, every run and every interleaving of them.

| file | models |
|---|---|
| `Text.dfy`, `Sequences.dfy` | strings as the host language treats them; one fact about prefixes |
| `Paths.dfy` | canonical paths as lists of segments, and what lies below one |
| `Schema.dfy`, `Policy.dfy`, `SchemaRules.dfy` | the shapes the schemas demand; envelopes, requests, and the policy engine; the shapes again by how texts are made up |
| `Evidence.dfy`, `EvidenceChain.dfy` | the Gate's evidence records, what an auditor rebuilds from them, and the hash chain they are stored in |
| `Gate.dfy` | the `Gate` object: tables, the five transactions, the two read-only checks |
| `GateRuns.dfy`, `GateHistory.dfy`, `GateTokens.dfy`, `GateExample.dfy` | runs of the Gate and what their logs look like; approvals, currency, usage, revocation; whom a token opens; one concrete run that passes two limits |
| `Passwords.dfy`, `SessionStore.dfy`, `SessionHistory.dfy`, `SessionAccounts.dfy` | the Control Center's users, sessions and single-use links, call by call |
| `TokenRaces.dfy`, `TokenOrigins.dfy` | the same statement by statement, however redeemers and logins interleave |
| `GovernedSync.dfy`, `GatewayRuns.dfy`, `GatewayExample.dfy` | the client gateway: envelopes from enabled tools, registries, synchronisation, the execution broker, MCP calls; one run that ends in a call |
| `Governor.dfy`, `GovernorRuns.dfy`, `GovernorBounds.dfy`, `GovernorSteps.dfy`, `GovernorLimits.dfy`, `GovernorExample.dfy`, `GovernorProbes.dfy` | the improvement governor over a real Gate: generations, budgets, evaluations that wait, promotion, rollback, restarts, readiness probes; one run that ends in a promotion |
| `Cookies.dfy`, `CookieRules.dfy` | the cookie parser, and what headers give it |
| `Redaction.dfy`, `RedactionRules.dfy` | the redaction of secrets, and which names and strings it strikes out |

Code that changes objects step by step is written as classes and loops (`Gate`, `ControlCenterSessionStore`,
`GovernedIntegration`, `ImprovementGovernor`, and the loops of the codecs); each method is proved equal to a step function
on values, and the theorems are about those functions. Code made of expressions stays functions.

## Premises

- SHA-256 of canonical JSON is collision-free: a digest is a datatype that holds what was digested.
- `randomUUID` and `randomBytes` give identifiers not used before, of the shape the schemas demand of an id. That they are new
  is a premise of each theorem about runs (`FreshRun`, `Possible`, `FreshSessionIds`), never built into the step functions.
- A tool id is minted once, for one server of one tenant and one name there (`Owned`, a premise of each theorem about runs of
  the gateway).
- The clock is a parameter of each call and may jump either way, within the years a timestamp can name. Where a result needs it
  not to run back, the theorem says so.
- `Store.transaction` is all or nothing, and appending evidence may fail in any call. One SQL statement is atomic.
- A process may be restarted at any point of a run of the gateway or the governor. What is on disk stays; registries,
  executions under way, workspaces, active profiles and waiting evaluations are gone, and so is the gateway's random signing key.
- A gateway run begins with an empty Gate file, which only the gateway's processes write. A governor run begins with an empty
  store and a Gate of any history in which nobody else issued the governor a policy.
- Strings are sequences of Unicode scalar values; percent-encoding refuses anything else, and lengths are counted in UTF-16
  units as the host language does. Amounts of money are whole micro-dollars, which is the finest the schemas accept.
- The key derivation function is any function of password and salt.

## What the proofs show to be otherwise than one might expect

Each comes with the input that shows it and with the exact condition.

- An ALLOW looks at the external-request limit only if the request has a destination, and at the retry count of the requested
  action only. After an envelope lowered these limits the agent can be above them. After an ALLOW every counter is within the
  limits then in force if and only if the ones not looked at were (`GateHistory.EveryCounterWithinIff`;
  `GateExample.AllowCanLeaveExternalOverLimit`, `GateExample.AllowCanLeaveRetriesOverLimit`).
- The runtime limit counts from the first ALLOW ever, and counters survive a new envelope. So the governor is allowed nothing
  more an hour after its first ALLOW, and a gateway agent ten minutes after, however often they are re-issued a policy
  (`GovernorBounds.EveryAllowIsWithinAnHourOfFirst`, `GatewayRuns.SynchronisingNeverRenewsRuntime`).
- The governor's readiness probe asks for no credential and makes a real request of the Gate. It counts against the governor
  exactly when any other order would be let through, and from any state in which one probe is allowed, probes alone lead to one
  after which nothing is ever promoted (`GovernorProbes.ProbeIsChargedExactlyWhen`, `GovernorProbes.ProbesAloneExhaust`).
- A synchronisation makes the policy follow the enabled tools if and only if the schema takes them, the agent is known and not
  revoked, and the evidence can be written (`GovernedSync.PolicyFollowsToolsExactlyWhen`). The schema takes 1 to 1000 distinct
  tools with proper ids and canonical scopes of at most 512 characters each, and nothing checks the scopes of a tool earlier. So
  when the last tool of a tenant is disabled, or one with too long a scope enabled (`GovernedSync.LongScopeIsRefused`), the old
  policy, disabled tools included, stays in force until it expires, and only the live check at execution stops them.
- That check is made before the wait for the server connection and not again. Disabling a tool stops it if and only if no
  execution of it waits there (`GatewayRuns.DisabledToolIsCalledExactlyWhenPending`, `GatewayRuns.DisablingDuringConnectDoesNotStopCall`).
- A synchronisation remembers its agent as registered even if the registration failed. Then the agent is refused until the
  process restarts (`GatewayRuns.SyncLosesAgentExactlyWhen`, `GatewayRuns.LostUntilRestart`).
- A link is looked at before it is marked. An unspent link can be spent after its expiry if and only if some process selected
  it before and has not marked it yet (`TokenRaces.ExpiredLinkIsSpentExactlyWhenHeld`, `TokenRaces.LateMarkStillSpends`).
- A login waits between checking the password and opening the session. After a reset a session under the old password appears
  if and only if some login was admitted under it and is still waiting (`TokenRaces.OutdatedSessionAppearsExactlyWhenLoginPending`).
- Disabling a user ends none of its sessions (`SessionHistory.DisablingTouchesNoSession`), and a user that stays disabled gains
  one if and only if a login of it was admitted before and is still waiting
  (`TokenRaces.DisabledUserGainsSessionExactlyWhenLoginPending`).
- The comment above `verifyRollbackTarget` promises that the target's content hash is compared; the code compares nothing and
  asks only whether the directory exists. The model follows the code. A rollback record says restored even if the generation is
  then refused the move, and a rolled-back generation stays its system's baseline (`GovernorBounds.RollbackMovesExactlyWhen`,
  `GovernorBounds.RolledBackStaysBaseline`).
- Whether a generation can be promoted depends on the profile it was evaluated under, not on what the evaluation found
  (`GovernorBounds.PromotionIgnoresFindings`). Active profiles are kept in memory only, so the profile counts if one was set
  since the process started (`GovernorRuns.EveryPromotionIsGuarded`), which is so if this process evaluated the generation
  (`GovernorBounds.EvaluatedInThisProcessUsesActiveProfile`), and not right after a restart (`GovernorBounds.RestartForgetsActiveProfile`).
- Recursion limits are JSON numbers nobody checks. A system can pass the limit its first proposal set if and only if that limit
  is negative, or is not a whole number and no other limit is reached at zero (`GovernorLimits.LimitIsPassedExactlyWhen`); it
  never passes the limit rounded up.
- The name `__proto__` is lost both by the cookie parser and by redaction (`Cookies.ParsingUndoesPrinting`,
  `Redaction.ShapeIsKeptExactlyWithoutProto`).
- The last hash of the evidence table commits to all of it, but the table alone cannot show that its newest rows are missing
  (`EvidenceChain.TruncationVerifies`).

## Model

| member | source | states |
|---|---|---|
| `Policy.FindBinding` | packages/policy-engine/src/index.ts:18-19 | a binding found is one of the envelope's for that action; none found means there is none |
| `Policy.BindingIsUnique` | packages/authority-envelope/src/index.ts:26-39 | in an envelope the schema accepts, the binding found for an action is the only one |
| `Policy.AllowsExactlyWhenGranted` | packages/policy-engine/src/index.ts:12-41 | an envelope the schema accepts allows a request if and only if the agent is live and named in it, it is unexpired, one of its bindings is for action and tool and opens the resource (a file: by a granted scope it lies in, segment by segment), the destination is open, the lifetime limits leave room, and a demanded approval is there |
| `Policy.HoldsExactlyWhen` | packages/policy-engine/src/index.ts:12-41 | a request is held, not blocked, if and only if all else is in order and it costs too much or wants an approval it has not |
| `Policy.ScopeExactlyWhen` | packages/authority-envelope/src/index.ts:45-47 | a file scope is accepted if and only if it is a list of proper segments behind slashes, or the tree below one |
| `Policy.MatchesExactlyWhenLiesIn` | packages/authority-envelope/src/index.ts:56-65 | a scope opens a file if and only if that is canonical and has the same segments or, for a tree, has those of the tree and at least one more |
| `SchemaRules.RequestExactlyWhen` | packages/shared-schema/src/index.ts:3-14 | the request schema takes exactly the requests whose texts are made up as ids, labels, hosts and releases and whose cost is at most a million dollars |
| `SchemaRules.EnvelopeExactlyWhen` | packages/authority-envelope/src/index.ts:5-49 | the envelope schema takes exactly the envelopes whose members are made up so, within the counts and ranges it names, with distinct bound actions, each fitting its kind and allowed, and approvals of bound actions only |
| `Policy.AllowIsAntitoneInUsage` | packages/policy-engine/src/index.ts:32-38 | what is allowed under some usage is allowed under any smaller usage |
| `EvidenceChain.VerifyEvidence` | packages/evidence-core/src/index.ts:31-37 | the loop accepts exactly the tables in which every row names the hash before it and carries its own |
| `EvidenceChain.AppendKeepsChain` | packages/evidence-core/src/index.ts:24-29 | appending keeps a table that verifies verifying, and adds exactly one body |
| `EvidenceChain.LastHashCommits` | packages/evidence-core/src/index.ts:24-37 | two tables that verify and end in the same hash are the same table |
| `EvidenceChain.TamperingShowsUnlessEndChanges` | packages/evidence-core/src/index.ts:31-37 | any other table fails verification or ends in another hash |
| `EvidenceChain.TruncationVerifies` | packages/evidence-core/src/index.ts:31-37 | every proper prefix of a table that verifies verifies too, with another last hash |
| `GateService.Gate.Register` | apps/tna-gate-api/src/gate.ts:36-46 | the method makes exactly the step of the specification: 403, a schema error for id or name, 409, or one new agent and one record; on a failed append nothing |
| `GateService.Gate.SetEnvelope` | apps/tna-gate-api/src/gate.ts:47-61 | the same for issuing a policy under a fresh revision, refused unless ids, labels, hosts, limits and bindings satisfy the schema; counters stay |
| `GateService.Gate.Approve` | apps/tna-gate-api/src/gate.ts:74-97 | the same for an approval, with its refusals in the order of the code, a request that does not parse among them |
| `SchemaRules.EnvelopeIsIssuedExactlyWhen` | apps/tna-gate-api/src/gate.ts:47-61 | an envelope is issued if and only if an administrator asks, the schema takes it, it is unexpired, its agent registered and not revoked, and the evidence written; it is then the agent's policy, else nothing changes |
| `SchemaRules.ApprovalIsIssuedExactlyWhen` | apps/tna-gate-api/src/gate.ts:74-97 | an approval is issued if and only if the approver has the role the policy names for the action, the request is in shape and would be allowed with it, the agent is live, and it ends later than now and no later than the envelope; it is for this request under this policy |
| `GateService.Gate.Judge` | apps/tna-gate-api/src/gate.ts:107-119 | the decision reached is the specified one, and reaching it changes nothing |
| `GateService.Gate.CountCall` | apps/tna-gate-api/src/gate.ts:121-126 | the field-by-field update of a usage record is one charge of the request |
| `GateService.Gate.Authorize` | apps/tna-gate-api/src/gate.ts:103-135 | the same for an authorization: refused if the request does not parse; otherwise usage, approval, decision and decision policy together, or nothing |
| `SchemaRules.RequestIsJudgedExactlyWhen` | apps/tna-gate-api/src/gate.ts:103-135 | a request is judged if and only if it is in shape and comes from the registered agent it names and the evidence is written; one decision about it is recorded |
| `GateService.Gate.Revoke` | apps/tna-gate-api/src/gate.ts:136-146 | the same for a revocation, with its schema error |
| `GateService.Gate.IsPolicyCurrent` | apps/tna-gate-api/src/gate.ts:69-73 | the method decides the currency predicate whose meaning over runs is `GateHistory.CurrencyCheckIsExact` |
| `GateService.Gate.IsAgentRevoked` | apps/tna-gate-api/src/gate.ts:68 | an unknown agent counts as revoked |
| `GateService.Gate.AuthenticateAgent` | apps/tna-gate-api/src/gate.ts:25-29 | the method finds an agent with the token's digest, or nobody if there is none |
| `GateTokens.RowIsThereExactlyWhenRegistered` | apps/tna-gate-api/src/gate.ts:36-46 | in every run an agent has a name and a token if and only if an earlier call registered it with these; nothing changes them |
| `GateTokens.TokenOpensExactlyItsAgent` | apps/tna-gate-api/src/gate.ts:25-46 | if no two registrations drew the same token, a token opens an agent if and only if it was issued for it, and then no other |
| `GateRuns.EvidenceRebuildsTables` | apps/tna-gate-api/src/gate.ts:36-146 | in every reachable state replaying the evidence log alone gives the registered and revoked agents, policies, approvals with their used flags, usage, decisions and decision policies |
| `GateRuns.FailureLeavesNoTrace` | packages/evidence-core/src/index.ts:38-42 | a call that fails, a failed append included, leaves every table and the log as they were; one that succeeds appends exactly one record |
| `GateRuns.ReachableLogsAreTheLegalOnes` | apps/tna-gate-api/src/gate.ts:36-146 | a log can be left behind by some run if and only if each record is warranted by the ones before it: nothing else can occur, and all of that can |
| `GateHistory.MintedOnce` | apps/tna-gate-api/src/gate.ts:15 | no identifier is minted by two records |
| `GateHistory.PolicyOrigin` | apps/tna-gate-api/src/gate.ts:52-58 | the policy in force is the last one issued to the agent |
| `GateHistory.ApprovalsAreSingleUse` | apps/tna-gate-api/src/gate.ts:110-129 | in every run an approval is used exactly when an ALLOW references it, and no two ALLOWs reference the same one |
| `GateHistory.EveryAllowIsAuthorised` | apps/tna-gate-api/src/gate.ts:74-135 | every ALLOW is under the policy last issued and unexpired; if that policy demands an approval, or one is referenced, it was given after that issue, by the role the rule names, for this request up to the approval id, and was unexpired |
| `GateHistory.EveryAllowIsBestowed` | packages/policy-engine/src/index.ts:12-41 | in every run an ALLOW went to an agent registered and not revoked, and is within a binding of the envelope last issued to it, with all the schema demands of one; for a file, the resource lies in a listed scope |
| `GateHistory.CurrencyCheckIsExact` | apps/tna-gate-api/src/gate.ts:69-73 | for every stored decision of every run the constant-time check holds if and only if the decision was made under a policy, no policy was issued to the agent since, and that one is unexpired |
| `GateHistory.UsageIsTalliedAndBounded` | packages/policy-engine/src/index.ts:32-38 | usage counters are the tally of the agent's ALLOWs in the whole log, across policies and revocation; every ALLOW leaves the agent's calls and cost, its tries of the requested action and, for a request with a destination, its external calls within the limits then in force, and comes within the runtime |
| `GateHistory.ExternalWithinLimitIff` | packages/policy-engine/src/index.ts:36 | after an ALLOW the external count is within the current limit if and only if the request had a destination or the count was within it before |
| `GateHistory.RetriesWithinLimitIff` | packages/policy-engine/src/index.ts:38 | after an ALLOW an action's tries are within the current retry limit if and only if it is the action allowed or they were before |
| `GateHistory.EveryCounterWithinIff` | packages/policy-engine/src/index.ts:35-38 | after an ALLOW every counter of the agent, over all actions, is within the limits then in force if and only if the external count (for a request without destination) and the tries of all other actions were within them before |
| `GateHistory.NewAllowIsWithinRuntime` | packages/policy-engine/src/index.ts:34 | an ALLOW comes within the policy's runtime of the first ALLOW the agent ever got |
| `GateHistory.RevocationIsPermanent` | apps/tna-gate-api/src/gate.ts:136-146 | after a revocation no run registers the agent, issues it a policy or an approval or allows it anything; its policy, usage and approvals stay as they were |
| `GateHistory.ApprovedRequestIsAllowedOnce` | apps/tna-gate-api/src/gate.ts:74-135 | an approved request presented in time is allowed and consumes the approval; presented again it is not allowed |
| `GateExample.AllowCanLeaveExternalOverLimit` | packages/policy-engine/src/index.ts:36 | a concrete run whose last ALLOW leaves the agent above the external limit of the policy in force |
| `GateExample.AllowCanLeaveRetriesOverLimit` | packages/policy-engine/src/index.ts:38 | the same run leaves an action tried more often than the policy in force permits, by an ALLOW of another action |
| `Passwords.HexRoundTrip` | apps/tna-control-center/src/session-store.ts:28-34 | hex-decoding undoes hex-encoding |
| `Passwords.VerifyExactlyWhenKeysAgree` | apps/tna-control-center/src/session-store.ts:25-37 | a password verifies against a stored hash if and only if it derives the same key under the stored salt; so the original one does |
| `Passwords.StoredFormIsReadExactly` | apps/tna-control-center/src/session-store.ts:30-37 | of any stored text the first two parts between colons count; without a colon, or with an empty part, nothing is accepted |
| `Passwords.DecodingStops` | apps/tna-control-center/src/session-store.ts:33-34 | hex-decoding gives the bytes up to the first pair that is none |
| `Text.LengthCountsCodeUnits` | packages/shared-schema/src/index.ts:4 | the length counted for labels and passwords is the number of UTF-16 code units that spell the text |
| `SessionStore.ControlCenterSessionStore.CreateUser` | apps/tna-control-center/src/session-store.ts:98-109 | the method makes exactly the step of the specification, the unique index included |
| `SessionStore.ControlCenterSessionStore.SetDisabled` | apps/tna-control-center/src/session-store.ts:117-120 | one flag of one user changes, or 404 |
| `SessionStore.ControlCenterSessionStore.CreateSignupInvite` | apps/tna-control-center/src/session-store.ts:137-149 | a seven-day link, refused for an unknown role or a name taken in any tenant |
| `SessionStore.ControlCenterSessionStore.CreatePasswordResetToken` | apps/tna-control-center/src/session-store.ts:156-163 | a one-hour link for an account of the tenant, or 404 |
| `SessionStore.ControlCenterSessionStore.ConsumeToken` | apps/tna-control-center/src/session-store.ts:165-176 | select, then mark: the row returned is the usable one, it is marked at once, and nothing else changes |
| `SessionStore.ControlCenterSessionStore.RedeemSignupInvite` | apps/tna-control-center/src/session-store.ts:180-183 | the link is spent before the password is looked at; tenant, name and role are the invite's |
| `SessionStore.ControlCenterSessionStore.RedeemPasswordReset` | apps/tna-control-center/src/session-store.ts:190-198 | the link is spent first; on success the password is replaced and the user's sessions are deleted |
| `SessionStore.ControlCenterSessionStore.Authenticate` | apps/tna-control-center/src/session-store.ts:203-208 | the user of that name if it is enabled and the password verifies, otherwise nobody |
| `SessionStore.ControlCenterSessionStore.CreateSession` | apps/tna-control-center/src/session-store.ts:221-228 | one session more, for eight hours, with the user's tenant and role |
| `SessionStore.ControlCenterSessionStore.DestroySession` | apps/tna-control-center/src/session-store.ts:243-245 | that session is gone and nothing else |
| `SessionStore.ControlCenterSessionStore.AcknowledgeIncident` | apps/tna-control-center/src/session-store.ts:253-255 | one acknowledgment per tenant and signature, the newest |
| `SessionStore.ControlCenterSessionStore.GetSession` | apps/tna-control-center/src/session-store.ts:234-239 | an expired session is deleted and reported missing |
| `SessionHistory.RunsAreConsistent` | apps/tna-control-center/src/session-store.ts:98-245 | in every run usernames are unique over all tenants and each session carries its user's tenant and role |
| `SessionHistory.UsernamesAreUnique` | apps/tna-control-center/src/session-store.ts:79 | in every run two users with the same username, of whatever tenants, are the same user |
| `SessionHistory.TenantsAreIsolated` | apps/tna-control-center/src/session-store.ts:98-259 | no call changes a user, session, link or acknowledgment of a tenant other than the one it acts for, nor gives it a new one |
| `SessionHistory.StoredIffLive` | apps/tna-control-center/src/session-store.ts:221-245 | a session row is there if and only if the history of calls says the session is live |
| `SessionHistory.SessionAnswerIsExact` | apps/tna-control-center/src/session-store.ts:234-239 | under any clock, `getSession` gives a session if and only if it was opened, not ended, is inside its window, and was not already swept |
| `SessionHistory.SessionAnswerUnderMonotoneClock` | apps/tna-control-center/src/session-store.ts:190-245 | under a clock that never runs back: if and only if opened, never destroyed, younger than eight hours, and its user's password not reset since |
| `SessionHistory.LazyExpiryIsInvisible` | apps/tna-control-center/src/session-store.ts:234-239 | the store that sweeps expired sessions on look-up answers every call of every run like one that never does |
| `SessionHistory.LazyExpiryShowsWhenClockRunsBack` | apps/tna-control-center/src/session-store.ts:237 | a run in which the two differ once the clock runs back |
| `SessionHistory.DisablingTouchesNoSession` | apps/tna-control-center/src/session-store.ts:117-120 | leave any call that disables or enables a user out of any run: afterwards sessions, links, names and acknowledgments are the same, so every look-up answers alike |
| `SessionHistory.SignupSucceedsExactlyWhen` | apps/tna-control-center/src/session-store.ts:165-183 | a signup succeeds if and only if the link is an unspent, unexpired invite, the password is long enough, the role real and the name free everywhere |
| `SessionHistory.SignupMakesInvitedUser` | apps/tna-control-center/src/session-store.ts:180-183 | the new user has the invite's tenant, name and role, and logs in with exactly the passwords that derive the same key |
| `SessionHistory.ResetSucceedsExactlyWhen` | apps/tna-control-center/src/session-store.ts:190-198 | a reset succeeds if and only if the link is an unspent, unexpired reset link, the password is long enough and the account exists in its tenant |
| `SessionHistory.ResetReplacesCredential` | apps/tna-control-center/src/session-store.ts:190-208 | afterwards exactly the passwords that derive the new key open the account, none of its sessions is left, all other users and sessions are as before |
| `SessionHistory.SpentTokenIsRefused` | apps/tna-control-center/src/session-store.ts:165-176 | once spent, a link is refused in every later call, also when the call that spent it failed |
| `SessionAccounts.LinksAreMadeExactlyWhen` | apps/tna-control-center/src/session-store.ts:137-163 | an invite is made if and only if the role is one of the four and nobody has the name, a reset link if and only if the tenant has the account; either tells until when it is good |
| `SessionAccounts.InvitedUserWasNamed` | apps/tna-control-center/src/session-store.ts:137-183 | in every run a user made by redeeming a link has the tenant, the name and the role named by an earlier call that made this very link |
| `SessionAccounts.InviteIsGoodExactlyForAWeek` | apps/tna-control-center/src/session-store.ts:137-183 | an invite not redeemed before makes a user if and only if that is within a week of the call that made it, the password has at least twelve characters and the name is still free |
| `SessionAccounts.ResetIsGoodExactlyForAnHour` | apps/tna-control-center/src/session-store.ts:156-198 | a reset link not redeemed before resets the account the call named if and only if that is within an hour of the call and the password has at least twelve characters |
| `SessionAccounts.UserIsCreatedExactlyWhen` | apps/tna-control-center/src/session-store.ts:98-109 | an account is made if and only if the role is one of the four, the password has at least twelve characters and nobody has the name |
| `SessionAccounts.PasswordAndFlagAreTheLast` | apps/tna-control-center/src/session-store.ts:98-198 | in every run the stored password of a user is the one set last, by account, sign-up or reset, and the disabled flag the one set last |
| `SessionAccounts.LoginSucceedsExactlyWhen` | apps/tna-control-center/src/session-store.ts:203-208 | in every run a login succeeds if and only if the password derives the key of the one set last and the last call to flag the user did not disable it |
| `SessionAccounts.AcknowledgmentIsTheLast` | apps/tna-control-center/src/session-store.ts:253-259 | in every run an incident is acknowledged if and only if some call did so, by the actor and at the time of the last such call |
| `TokenRaces.RedemptionIsRaceFree` | apps/tna-control-center/src/session-store.ts:165-198 | with any number of processes interleaving their statements, a link is consumed at most once, for its own kind, selected before its expiry; one invite, and all invites for one name, make at most one user, as invited |
| `TokenRaces.ExpiredLinkIsSpentExactlyWhenHeld` | apps/tna-control-center/src/session-store.ts:166-174 | from any reachable state, moves from its expiry on can spend an unspent link if and only if some process has selected it and not marked it yet |
| `TokenRaces.LateMarkStillSpends` | apps/tna-control-center/src/session-store.ts:166-174 | an interleaving in which a link is marked used after its expiry |
| `TokenOrigins.SelectionSucceedsExactlyWhen` | apps/tna-control-center/src/session-store.ts:137-176 | in every interleaving a redeemer gets past its SELECT if and only if one earlier call of its own kind made the token, less than a week (invite) or an hour (reset) before, and nobody has consumed it |
| `TokenOrigins.EveryRedemptionWasAskedFor` | apps/tna-control-center/src/session-store.ts:137-183 | in every interleaving a consumed link was selected within a week, or an hour, of the call that made it, and a user who joined has the tenant, the name and the role that call named |
| `TokenOrigins.EveryResetWasAskedFor` | apps/tna-control-center/src/session-store.ts:156-198 | in every interleaving a reset changes the password of the account whose tenant and name the call that made the link named, to the one given, and of nobody else |
| `TokenRaces.OutdatedSessionAppearsExactlyWhenLoginPending` | apps/tna-control-center/src/server.ts:235-243 | from any reachable state without a session from another password, and while the password stays, such a session appears in some continuation if and only if a login admitted under another password has not opened its session yet |
| `TokenRaces.DisabledUserGainsSessionExactlyWhenLoginPending` | apps/tna-control-center/src/server.ts:235-243 | from any reachable state in which a user is disabled, and while it stays so, it gains a session in some continuation if and only if a login of it was admitted before and has not opened its session yet |
| `GovernedSync.GovernedIntegration.BuildTenantGateEnvelope` | apps/tna-client-gateway/src/governed-execution.ts:61-99 | the loop builds the envelope specified tool by tool |
| `GovernedSync.GovernedIntegration.RegisterMcpConnectors` | apps/tna-client-gateway/src/connectors.ts:142-153 | the loop adds a connector for each enabled tool of the tenant that has none, and removes none |
| `GovernedSync.GovernedIntegration.BuildToolRegistry` | apps/tna-client-gateway/src/connectors.ts:111-139 | the loop adds a broker tool for each connector of the tenant whose name is free, and replaces none |
| `GovernedSync.GovernedIntegration.SyncGovernedTenant` | apps/tna-client-gateway/src/governed-execution.ts:163-173 | one synchronisation makes exactly the specified step on registries and Gate |
| `GovernedSync.GovernedIntegration.CheckLive` | apps/tna-client-gateway/src/connectors.ts:67-75 | the live check passes exactly when the server is known and not disabled and the tool is there and enabled |
| `GovernedSync.ToolsAllowExactlyWhen` | apps/tna-client-gateway/src/governed-execution.ts:51-99 | the envelope of a list of tools allows a request if and only if it names tool and action of a listed one, its resource lies in a scope of a listed one that writes or reads like it, the agent is the envelope's and live, there is no destination, and an hour, ten minutes, a thousand calls, a thousand dollars and twenty retries leave room |
| `GovernedSync.SyncRegistersExactly` | apps/tna-client-gateway/src/connectors.ts:111-153 | after a synchronisation a tool is in the broker's registry if and only if it was, or had a connector, or is enabled now; what was registered before stays the same |
| `GovernedSync.EnvelopeAcceptedExactlyWhen` | packages/authority-envelope/src/index.ts:5-48 | the Gate accepts that envelope if and only if agent, tenant and the action of each tool are proper ids, it lists 1 to 1000 distinct tools, and at most 1000 scopes to read and 1000 to write, each canonical and of 1 to 512 characters |
| `GovernedSync.LongScopeIsRefused` | packages/shared-schema/src/index.ts:4 | a scope of 513 characters is canonical and nevertheless refused, for every agent, tenant and tool |
| `GovernedSync.PolicyFollowsToolsExactlyWhen` | apps/tna-client-gateway/src/governed-execution.ts:163-173 | a synchronisation succeeds if and only if the schema takes the enabled tools (as above), the agent is known and not revoked and the evidence is written; then the agent's policy is the envelope of the tools enabled now, otherwise every policy is as before |
| `GovernedSync.RefusedSyncKeepsOldPolicy` | apps/tna-client-gateway/src/governed-execution.ts:171-172 | the refusal is a schema error exactly when the schema does not take the tools (none, too many, a repeated one, a bad id, a scope not canonical or too long), 409 exactly when it does and the agent is unknown or revoked; after any refusal every policy stays |
| `GatewayRuns.CheckedFlightIsGrounded` | packages/execution-broker/src/index.ts:84-105 | an execution that passes the broker and the live check rests on a current ALLOW of an agent never revoked, on a policy from a synchronisation that saw the tool enabled and a scope its resource lies in, and on a live tool |
| `GatewayRuns.EveryMcpCallIsGrounded` | apps/tna-client-gateway/src/governed-execution.ts:124-173 | in every interleaving of administration, synchronisation, authorization, execution and restarts each MCP call is so grounded, for the same tenant, server and tool, on a resource in a scope then enabled for it, live at its check, and no decision is executed twice |
| `GatewayRuns.BrokerAcceptsExactlyWhen` | packages/execution-broker/src/index.ts:52-66 | from any reachable state the broker accepts a stored decision if and only if it is an ALLOW without destination, for the action of a registered tool, under the policy last issued and unexpired, of an agent never revoked |
| `GatewayRuns.EveryCallIsFreshlyChecked` | packages/execution-broker/src/index.ts:84-105 | in every run each MCP call was checked less than thirty seconds after its capability was issued, and by the process that issued it |
| `GatewayRuns.AcceptedDecisionIsCalledExactlyWhenLive` | packages/execution-broker/src/index.ts:52-105 | from any reachable state a decision the broker accepts can be carried to its server at once if and only if its tool is enabled and its server not disabled |
| `GatewayExample.SomeRunCallsTool` | apps/tna-client-gateway/src/governed-execution.ts:124-173 | a run from nothing in which an enabled tool is synchronised, asked for, allowed and called |
| `GatewayRuns.DisabledStops` | apps/tna-client-gateway/src/connectors.ts:67-87 | while a tool stays disabled, nothing new of it gets past the live check, and every call of it is an execution that was past the check when it was disabled |
| `GatewayRuns.DisabledToolIsCalledExactlyWhenPending` | apps/tna-client-gateway/src/connectors.ts:67-87 | from any reachable state in which a tool is not live, and while no administration brings it back, it is called in some continuation if and only if an execution of it is past its check |
| `GatewayRuns.SynchronisingNeverRenewsRuntime` | apps/tna-client-gateway/src/governed-execution.ts:88 | however often its tenant is synchronised, an agent's ALLOWs all fall within ten minutes of its first |
| `GatewayRuns.SyncLosesAgentExactlyWhen` | apps/tna-client-gateway/src/governed-execution.ts:164-168 | after a synchronisation its agent is remembered as registered and yet unknown to the Gate if and only if it was unknown and was remembered already or its registration fails |
| `GatewayRuns.LostUntilRestart` | apps/tna-client-gateway/src/governed-execution.ts:162-173 | from any reachable state with such an agent, in every continuation without a restart its synchronisations are refused, 409 if the schema takes the tools; after a restart one succeeds exactly when the schema takes the tools and the evidence is written |
| `GatewayRuns.DisablingDuringConnectDoesNotStopCall` | apps/tna-client-gateway/src/connectors.ts:67-87 | an execution past its live check calls the tool even if everything was disabled meanwhile |
| `Governor.ImprovementGovernor.RegisterImprovementGovernor` | packages/improvement-core/src/gate-integration.ts:97-131 | registering, or finding oneself registered with the identity an earlier process left, then issuing the fixed envelope; another identity stops the start |
| `Governor.ImprovementGovernor.Restart` | apps/tna-improvement-governor/src/server.ts:113-117 | a new process registers again and keeps the store; workspaces, specs, active profiles and waiting evaluations are gone |
| `Governor.ImprovementGovernor.HandleReady` | apps/tna-improvement-governor/src/server.ts:127-137 | the readiness probe makes exactly the specified step: a budget row of its own, and a real authorization whatever the answer |
| `Governor.ImprovementGovernor.TransitionGeneration` | packages/improvement-store/src/index.ts:287-304 | a generation moves along an edge of the table or not at all; promotion also sets the system's accepted generation |
| `Governor.ImprovementGovernor.HandleCreate` | apps/tna-improvement-governor/src/server.ts:198-248 | system and budget exist from the first proposal on; generation, charge, workspace and spec come together or not at all |
| `Governor.ImprovementGovernor.HandleProfile` | apps/tna-improvement-governor/src/server.ts:149-160 | the active profile is set for the system of that name, or 404 |
| `Governor.ImprovementGovernor.HandleAuthorize` | apps/tna-improvement-governor/src/server.ts:250-257 | Gate and books together make exactly the specified step |
| `Governor.ImprovementGovernor.HandleBuild` | apps/tna-improvement-governor/src/server.ts:259-280 | the same, with the states a build that breaks off is left in |
| `Governor.ImprovementGovernor.BeginEvaluate` | apps/tna-improvement-governor/src/server.ts:289-327 | the evaluation up to its wait: entered or re-entered, default profile set, finding recorded |
| `Governor.ImprovementGovernor.FinishEvaluate` | apps/tna-improvement-governor/src/server.ts:328-351 | the evaluation after its wait: moved to its target from whatever status it has by then |
| `Governor.ImprovementGovernor.HandleApprove` | apps/tna-improvement-governor/src/server.ts:369-376 | an approval for one operation on one generation |
| `Governor.ImprovementGovernor.HandleCanary` | apps/tna-improvement-governor/src/server.ts:378-395 | Gate and books together make exactly the specified step |
| `Governor.ImprovementGovernor.HandlePromote` | apps/tna-improvement-governor/src/server.ts:397-429 | the same, with both guards between the Gate's answer and the move |
| `Governor.ImprovementGovernor.HandleRollback` | apps/tna-improvement-governor/src/server.ts:444-466 | the same, with the record written before the move is tried |
| `GovernorRuns.GovernorStartsExactlyWhen` | packages/improvement-core/src/gate-integration.ts:84-131 | on any Gate the governor starts if and only if its id and the approver role are proper ids, it is not revoked, the evidence can be written and, if it was registered before, a policy issued to it bears its identity; else every policy stays |
| `GovernorRuns.OwnPolicyStarts` | packages/improvement-core/src/gate-integration.ts:97-131 | so where nobody else issued it a policy, empty or left by earlier processes, it starts if and only if its ids are proper, it is not revoked and the evidence can be written |
| `GovernorRuns.RunIsSound` | apps/tna-improvement-governor/src/server.ts:149-466 | the invariant of every run, restarts included: tables agree, accepted generations were promoted, everything past evaluation has a recorded evaluation, budgets count generations and stay within their limits rounded up |
| `GovernorRuns.EveryPromotionIsGuarded` | apps/tna-improvement-governor/src/server.ts:397-429 | in every run, across restarts and with evaluations interleaved at their wait, each promotion came from a canary by a promote order, rests on an evaluation, under the active profile if one was set in this process, and on a parent that is none or accepted, and used up an unused approval given for a promotion of this generation by the role the policy in force names |
| `GovernorExample.SomeRunPromotesExactlyWhen` | apps/tna-improvement-governor/src/server.ts:198-429 | some run promotes a generation if and only if the governor's id is a proper one; a run from an empty store and an empty Gate shows it |
| `GovernorRuns.PromotionsHaveTheirOwnApprovals` | apps/tna-improvement-governor/src/server.ts:397-429 | no two promotions of a run, in whichever process, consume the same approval |
| `GovernorBounds.AcceptedLineageIsLinear` | apps/tna-improvement-governor/src/server.ts:414-424 | of two successive promotions in a system, across restarts, the later generation has no parent or descends from the earlier one |
| `GovernorBounds.FirstProposalBoundsSystem` | apps/tna-improvement-governor/src/server.ts:209-242 | the first proposal that names a system fixes its limits; ever after, across restarts, it has exactly as many generations as its budget was charged for, and no more than that limit rounded up to a whole number |
| `GovernorLimits.LimitIsPassedExactlyWhen` | packages/improvement-schema/src/index.ts:733-741 | some run takes a system past the limit its first proposal set if and only if that limit is negative, or is not a whole number and no other limit is reached at zero |
| `GovernorBounds.RefusedProposalCreatesNothing` | apps/tna-improvement-governor/src/server.ts:215-245 | a refused proposal creates no generation, workspace or spec and charges no budget |
| `GovernorBounds.NewestCountsExactlyWhen` | packages/improvement-store/src/index.ts:398-401 | the evaluation recorded last is the one a promotion looks at if and only if none recorded before it is dated later |
| `GovernorBounds.LastEvaluationUsedActiveProfile` | apps/tna-improvement-governor/src/server.ts:403-412 | under a clock that never runs back, a promoted generation's last recorded evaluation used the profile active then, if one was set since the process started |
| `GovernorBounds.EvaluatedInThisProcessUsesActiveProfile` | apps/tna-improvement-governor/src/server.ts:361-412 | if the process that promotes a generation also evaluated it, its system has an active profile and the promotion rests on an evaluation under it |
| `GovernorBounds.OperationIsAllowedExactlyWhen` | packages/improvement-core/src/gate-integration.ts:22-63 | the Gate allows the governor an operation on a generation if and only if the request satisfies the schema (ids, and a path of at most 512 characters), it is not revoked, its year is not over, an hour, a thousand calls and a thousand tries leave room, the path is canonical, the evidence is written and, for promotions, rollbacks, canaries and expansions, the approval presented is a valid one for this operation on this generation |
| `GovernorBounds.PromotionSucceedsExactlyWhen` | apps/tna-improvement-governor/src/server.ts:397-429 | a promote order is carried out if and only if the Gate allows it so, and the generation is a canary whose profile and parent are not stale |
| `GovernorSteps.AuthorizationSucceedsExactlyWhen` | apps/tna-improvement-governor/src/server.ts:250-257 | an authorization is carried out if and only if the Gate allows this operation on the generation and it is a proposal |
| `GovernorSteps.BuildSucceedsExactlyWhen` | apps/tna-improvement-governor/src/server.ts:259-280 | a build is carried out if and only if the Gate allows it, this process knows the generation, it is authorized and nothing breaks off; it is then built and has a workspace |
| `GovernorSteps.EvaluationBeginsExactlyWhen` | apps/tna-improvement-governor/src/server.ts:289-327 | an evaluation gets to its wait if and only if this process built the generation and knows its spec, it is built or evaluated, and it could be measured; one record under the given profile is added, and the profile is the system's if it had none |
| `GovernorSteps.EvaluationFinishesExactlyWhen` | apps/tna-improvement-governor/src/server.ts:328-351 | after its wait a generation is rejected if the verifier refuses it and otherwise goes where the measure leads, from evaluating or wherever the edges allow; else nothing changes |
| `GovernorSteps.ApprovalIsGivenExactlyWhen` | apps/tna-improvement-governor/src/server.ts:369-376 | an approval is given if and only if the role is the approver's, the operation wants one, ten minutes fit into the lease, and it would be allowed with it; it is for this operation on this generation, for ten minutes |
| `GovernorSteps.CanaryStartsExactlyWhen` | apps/tna-improvement-governor/src/server.ts:378-395 | a canary starts if and only if the Gate allows it with its approval, its session opens, its spec is known and the generation is evaluated |
| `GovernorSteps.RollbackSucceedsExactlyWhen` | apps/tna-improvement-governor/src/server.ts:444-466 | a rollback is carried out if and only if the Gate allows a rollback of the generation with its approval, both generations exist, and the status permits where it leads |
| `GovernorSteps.EveryStepHasItsCause` | apps/tna-improvement-governor/src/server.ts:198-466 | in every run each change of a generation's status has its cause: the order for it, the status before, the ALLOW for this operation on it, for canary, promotion and rollback an approval used up by it, and for an evaluated one a verified build |
| `GovernorSteps.ProfileSetDecidesPromotion` | apps/tna-improvement-governor/src/server.ts:149-160 | once a system's profile is set, a canary of it can be promoted if and only if its newest evaluation used that profile and its parent is not stale; other systems are as before |
| `GovernorSteps.ProposalIsAcceptedExactlyWhen` | apps/tna-improvement-governor/src/server.ts:198-248 | a proposal is accepted if and only if its spec is valid, its parent exists, and the limits of the system's first proposal leave room for one generation more than it has |
| `GovernorBounds.PromotionIgnoresFindings` | apps/tna-improvement-governor/src/server.ts:406-412 | replacing what the evaluations found changes neither answer nor outcome of a promotion |
| `GovernorBounds.RollbackMovesExactlyWhen` | apps/tna-improvement-governor/src/server.ts:437-466 | a rollback moves the generation if and only if its status has the edge; the record says restored whenever the target was found |
| `GovernorBounds.RolledBackStaysBaseline` | apps/tna-improvement-governor/src/server.ts:414-424 | after the accepted generation was rolled back, of generations with a parent only its own children can be promoted |
| `GovernorBounds.RestartForgetsActiveProfile` | apps/tna-improvement-governor/src/server.ts:361-367 | after a restart a promotion succeeds if and only if the generation is a canary with a parent not overtaken, whatever its profile |
| `GovernorBounds.PromotionWithinAnHourOfFirstAllow` | packages/improvement-core/src/gate-integration.ts:34-41 | every promotion, in whichever process, falls within an hour of the first ALLOW the Gate ever gave the governor |
| `GovernorBounds.EveryAllowIsWithinAnHourOfFirst` | packages/improvement-core/src/gate-integration.ts:34-41 | whatever the governor is allowed in a run, probes included, in whichever process, falls within an hour of its first ALLOW |
| `GovernorProbes.ProbeIsChargedExactlyWhen` | apps/tna-improvement-governor/src/server.ts:127-137 | a readiness probe counts against the governor if and only if its id is proper, the evidence is written, it is not revoked and its lease and limits leave room; the answer is ready also when it is not allowed; apart from a budget row the books stay |
| `GovernorProbes.NoPromotionAfterLastCall` | packages/improvement-core/src/gate-integration.ts:34-41 | once the Gate has allowed the governor a thousand requests of any kind, no process ever promotes anything |
| `GovernorProbes.ProbesAloneExhaust` | apps/tna-improvement-governor/src/server.ts:127-137 | from any world of any run in which one probe is allowed, probes alone lead to a world after which, in every continuation, nothing is promoted |
| `Cookies.ParseCookies` | apps/tna-control-center/src/auth.ts:17-29 | the loop computes the cookies of a header as specified, or fails on an undecodable value |
| `Cookies.EncodingRoundTrip` | apps/tna-control-center/src/auth.ts:26-33 | percent-decoding undoes percent-encoding for every string |
| `Cookies.FailsExactlyWhenSomePartIsMalformed` | apps/tna-control-center/src/auth.ts:21-27 | parsing fails if and only if some named part of the header cannot be decoded |
| `CookieRules.DecodesExactlyWhen` | apps/tna-control-center/src/auth.ts:26 | decoding gives a value if and only if each of its characters is written as itself or by the escapes, in either case, of exactly its UTF-8 bytes |
| `CookieRules.PartIsReadExactlyWhen` | apps/tna-control-center/src/auth.ts:22-26 | a part gives a name a value if and only if it is the name, an equals sign and a text that stands for the value, with any white space around the two; it fails if and only if the text stands for nothing |
| `CookieRules.HeaderIsRead` | apps/tna-control-center/src/auth.ts:17-29 | a header fails if and only if one of its parts does; else it gives exactly the names its parts give, but not `__proto__`, and of several values the last |
| `Cookies.ParsingUndoesPrinting` | apps/tna-control-center/src/auth.ts:17-38 | parsing the printed form of any cookies with plain names and any values gives their map less `__proto__`; so the whole map if and only if none has that name |
| `Cookies.SessionCookiesComeBack` | apps/tna-control-center/src/auth.ts:14-38 | both session cookies come back with their values, whatever plain cookies are sent before them |
| `Redaction.RedactDeep` | apps/tna-operator/src/redact.ts:18-34 | the recursion with its loop over entries computes the specified tree |
| `RedactionRules.SecretKeyExactlyWhen` | apps/tna-operator/src/redact.ts:9 | a name is secret if and only if one of the words, or two joined with nothing, an underscore or a hyphen, is written in it, in whatever case and wherever |
| `RedactionRules.BearerExactlyWhen` | apps/tna-operator/src/redact.ts:10 | a string carries a bearer credential if and only if that word in any case, some white space and something else follow each other in it |
| `RedactionRules.LongOpaqueExactlyWhen` | apps/tna-operator/src/redact.ts:11 | a string looks like a token if and only if it is twenty-four token characters and any number more |
| `RedactionRules.StringIsReplacedExactlyWhen` | apps/tna-operator/src/redact.ts:19-23 | a string is struck out for the name it comes under, for a bearer credential, or as a token under a telling name; else it is left |
| `RedactionRules.WhatIsLeft` | apps/tna-operator/src/redact.ts:18-34 | at every place of every tree not below a secret name or `__proto__` strings are left or struck out as said, lists keep their length, objects their keys but `__proto__`, all else is left |
| `RedactionRules.SecretEntryIsReplaced` | apps/tna-operator/src/redact.ts:26-31 | wherever a name with such a word in it occurs, the mark is there in the output and nothing below it |
| `Redaction.UnchangedExactlyWhenClean` | apps/tna-operator/src/redact.ts:18-34 | redaction leaves a value as it is if and only if it is clean |
| `Redaction.OutputIsClean` | apps/tna-operator/src/redact.ts:18-34 | the output is clean: only the mark under secret keys, no string that should have been replaced |
| `Redaction.Idempotent` | apps/tna-operator/src/redact.ts:18-34 | redacting twice is redacting once |
| `Redaction.ShapeIsKeptExactlyWithoutProto` | apps/tna-operator/src/redact.ts:25-32 | every key and every list length outside replaced subtrees is kept if and only if no entry there is named `__proto__` |
| `Redaction.OutputHidesExactlyTheSecrets` | apps/tna-operator/src/redact.ts:18-34 | two inputs have the same output if and only if they differ in secrets only |
| `Redaction.NoBearerInOutput` | apps/tna-operator/src/redact.ts:10-22 | no string anywhere in the output matches the bearer pattern |
| `Redaction.ListForgetsItsKey` | apps/tna-operator/src/redact.ts:25 | strings in a list are judged as if they came under no key |

## Left out

- GateService.Gate.Register: does not model that the issued token is secret; its digest is a parameter, and that no two are the same a premise of the theorem that needs it.
- GateService.Gate.SetEnvelope: does not check members that no rule reads (environment, goal, secrets, risk, evidence, violation policy); the gateway and the governor write constants there.
- GateService.Gate.Judge: does not carry `policyVersion`, `severity` and `requiresEvidence`, which other fields determine.
- Policy.AllowsExactlyWhenGranted: does not model JSON; members have the type the schema wants, and amounts are micro-dollars already. Of the one tool input that is parsed the release is kept, the rest being constant.
- GatewayRuns.EveryMcpCallIsGrounded: states liveness at the check, since it fails at the call as `DisabledToolIsCalledExactlyWhenPending` says; does not model Sentinel, Ledger and the platform's action records around the broker, nor the broker's own transition records in the evidence log.
- GovernedSync.PolicyFollowsToolsExactlyWhen: does not model scopes of a tool that are no strings, which the schema refuses too.
- GovernedSync.GovernedIntegration.SyncGovernedTenant: does not model `platformFacadeFor`, which builds Sentinel and platform objects only.
- Governor.ImprovementGovernor.TransitionGeneration: does not model `state_version`; each handler reads the row and updates it without waiting in between, so the comparison never fails in one process.
- Governor.ImprovementGovernor.Restart: falls between two orders or into an evaluation's wait, not into a handler that does not wait; does not model a store changed by anything but the governor's own processes. Counters of a budget other than generations, which nothing charges, are not kept.
- Governor.ImprovementGovernor.HandleCreate: does not model what makes a spec invalid or a directory unhashable; both are one parameter. Root and number of a generation are not kept. Systems are indexed by name.
- Governor.ImprovementGovernor.BeginEvaluate: does not model the measurements; what they found is a parameter, as is the build verifier's verdict after the wait.
- Governor.ImprovementGovernor.HandleCanary: does not model canary runs and their observations; whether a Sentinel session opens is a parameter.
- Governor.ImprovementGovernor.HandleRollback: does not model the workspace directory; whether it is on disk is a parameter.
- The governor's ledger events and a ledger that refuses them; whether ledger and Sentinel answer a readiness probe is a parameter.
- SessionStore.ControlCenterSessionStore.CreateUser: does not model the random salt, which is a parameter; scrypt is any function.
- Cookies.ParseCookies: does not model lone surrogates in a header, nor the order of the parsed entries.
- Cookies.SessionCookiesComeBack: does not model cookie attributes, which browsers do not send back.
- Redaction.RedactDeep: does not model the order of entries, which the source keeps; `undefined` and other values that are not JSON pass through unchanged there.
- HTTP servers, routing, body limits and error-to-status maps.
- `verifyCsrf`, role ranks, permission tables, go-live checks and doctor reports: not modelled.
- The capability codec (HMAC, thirty-second expiry as a token): a capability is a row with an expiry; the isolation runner and the secret broker, which MCP tools do not use.
- The MCP client cache and child processes; the wait for a connection is a step, its failure is a call that never happens.
- The React front end, the scripts, the academy, Ledger, Auditor, VAD and Sentinel.

# Verified models of the auth service

This project models the parts of the auth service where order, interleaving
or arithmetic decide whether it is correct, and proves what they promise.
To verify the project, run `dafny verify dfyconfig.toml` in this directory.

The main part is the token endpoint. `TokenMachine` is a state machine in
which any number of calls are in flight; each step is one statement or one
transaction of one call, and a call carries the row snapshots it read, stale
or not. `TokenInvariant` and `TokenPreservation` prove an inductive invariant
of it, `TokenTheorems` draws the consequences: linear rotation chains,
permanent death, theft detection and the reuse grace. `TokenReplays` says when
the replay of an old token must come to the family revoke (`TokenReplayRuns`
gives the run that escapes it), `TokenRevokes` follows the revoke paths to
their end, and `TokenCodes` the authorization codes: single use, and what
presenting a used code again can and cannot undo (`TokenCodeRuns` gives the
runs). `TokenEndpoint` then writes the service's methods as straight-line code
over the shared tables, lets other calls run between any two of their
statements, and proves each method to be one call of the machine, so every
theorem about the machine is about that code.

| file | models |
|---|---|
| `TokenStore.dfy`, `TokenMachine.dfy`, `TokenInvariant.dfy`, `TokenPreservation.dfy`, `TokenEffects.dfy`, `TokenTheorems.dfy`, `TokenReplays.dfy`, `TokenReplayRuns.dfy`, `TokenRevokes.dfy`, `TokenCodes.dfy`, `TokenCodeRuns.dfy`, `TokenEndpoint.dfy` | refresh tokens, authorization codes and every path that revokes |
| `Authority.dfy` | scope and resource rules over chains of refreshes and token exchanges |
| `ClientIp.dfy` | the walk over X-Forwarded-For |
| `ClientPlan.dfy`, `ClientPlanMoved.dfy`, `Manifest.dfy` | clients as code: the planner, its plan over a table that moved, and the manifest validator |
| `Numerals.dfy`, `Base58.dfy`, `AuditCsv.dfy`, `TonProof.dfy` | the codecs |
| `DeviceFlow.dfy`, `DeviceRaces.dfy`, `DeviceGrants.dfy` | the device grant, one call at a time and with statements interleaved; when a denied code is handed out |
| `Lockout.dfy`, `LockoutRaces.dfy` | the login lockout, one attempt at a time, in bursts, and with statements interleaved |
| `SafeFetch.dfy` | the redirect loop of outbound fetches |
| `Text.dfy`, `Wrappers.dfy` | shared strings and results |

How the model abstracts: time is an integer number of milliseconds that does
not go back (in the token machine and the lockout bound; the device grant
does not even need that); the HMAC of a refresh token and SHA-256 of a
verifier are free constructors, hence injective; a sealed pair is a term that
only its key opens; random draws are inputs of the step, and a draw that is
not new breaks a unique constraint and aborts the transaction. `born`,
`chains` and `holder` of the machine are history: no decision reads them
except that draws are new.

Where the code and its own documentation differ, the model follows the code:

- The comment on `recordFailedLogin` says the first five misses do not lock;
  the fifth one does (`src/auth/login-security.service.ts:61-80`).
- A used authorization code presented again is to revoke everything issued from
  it. Two things get in the way. Its row may be gone, as the hourly cleanup
  deletes codes by expiry, used or not (`src/oauth/oauth.service.ts:409-411`);
  `CleanupForgetsTheReplay` gives a run. And the first exchange may be past its
  claim with its tokens still to come, so that they come after the revoke;
  `ExchangeOutlivesTheVerdict` gives a run. `UsedCodePresentedAgain` and
  `TheftVerdictHoldsExactly` state when it works: the row is there until the
  code expires, and then the verdict holds for good if and only if no exchange
  of the code is still to issue.
- The device grant promises that a denied code is denied. With statements
  interleaved two things get in the way. An approval that read the code pending
  may still write: `DenialHoldsExactly` proves that the row stays unapproved
  exactly when there is none, and `DenialCanBeOvertaken` gives a run. And a poll
  that read the row approved hands it out whatever was written since
  (`src/oauth/device-flow.service.ts:213-263`): `DeniedCodeIsHandedOut` gives a
  run with no approval under way. `DeniedYieldsNothingExactly` states when a
  denied code yields nothing, both ways: no such poll, and no such approval
  while a poll can still come in time. An approval keeps its user under a
  condition like the first (`ApprovalHoldsExactly`).
- A replay of a rotated token is to be taken for theft unless it comes within
  the grace of the rotation (`src/oauth/refresh-grant.ts:74-78`). What the code
  reads is the stamp on the row, and a session revoke has no filter on live
  rows, so it stamps a row rotated long ago again
  (`src/session/session.service.ts:79-82`). `OldReplayIsTheft` proves that to be
  the only escape, and `StampedReplayIsSpared` gives a run.
- The URL rules of a client manifest skip a back-channel override that is the
  empty text, and the derived row then holds the empty text for its URI
  (`src/clients/manifest.ts:286-287`, `src/clients/manifest.ts:129-133`).
  `BackchannelIsSafeExactly` shows that to be the only exception, and
  `BlankBackchannelPasses` gives such a manifest.
- A callback path with a fragment passes the manifest's rules, which refuse one
  in every URL (`src/clients/manifest.ts:157-164`,
  `src/clients/manifest.ts:308-314`). `FragmentFreeExactly` states when the
  redirect URIs have none, and `FragmentCallbackPasses` gives a manifest.
- The lockout counts what an attempt read: attempts that read the account
  together are all compared and count as one miss
  (`src/auth/login-security.service.ts:69-86`), and a miss that read an early
  count and writes late takes a lock away. `LockHoldsExactly` states when a
  locked account stays locked until its time, `LockCanBeTakenAway` gives a run,
  `RecordedMissesAreSlow` bounds the pace of guessing over every interleaving
  that loses no miss, and `LostMissesHaveNoBound` shows that without it there is
  no bound.

## Model

| member | source | states |
|---|---|---|
| TokenTheorems.RotatedOnce | src/oauth/refresh-grace.ts:193-198 | over every interleaving no row is rotated twice: two rows ever inserted with the same parent are the same row |
| TokenTheorems.SiblingRows | src/oauth/oauth-token-issuer.service.ts:330-337 | no two rows in the table name the same `rotatedFrom` |
| TokenTheorems.OneLiveRowPerChain | src/oauth/refresh-grant.ts:81-127 | a rotation chain has at most one row that is not revoked, and it is the last inserted |
| TokenTheorems.AbstractIsExact | src/oauth/refresh-grant.ts:81-127 | the abstraction of a chain to Live(tail) or Dead loses nothing: Live at a row iff that row is not revoked |
| TokenTheorems.RefinesChains | src/oauth/refresh-grace.ts:189-208 | every action of every call moves every chain by stay, die, or rotate its live end to a row inserted now; at most one chain begins |
| TokenTheorems.DeathIsPermanent | src/oauth/refresh-grant.ts:161-180 | a dead chain never lives again, whatever runs |
| TokenTheorems.ClaimNeedsALiveChain | src/oauth/refresh-grace.ts:193-198 | a claim inserts a child only if its row is the live end of its chain, and then revokes it and returns the child's own pair; otherwise no row changes |
| TokenTheorems.NothingSurvivesARevoke | src/oauth/refresh-grant.ts:225-244 | after a family or user revoke commits, a disconnect included, a claim or a live-child check on a row it selected comes to nothing, however early the call read it |
| TokenTheorems.KeptPairs | src/oauth/refresh-grace.ts:74-91 | a row that keeps a pair is revoked, was rotated exactly once, keeps exactly the pair that rotation issued, and its child has that token's lookup and has not rotated |
| TokenTheorems.ReplayReturnsTheRotationsPair | src/oauth/refresh-grant.ts:188-218 | a replay that succeeds inserts nothing and returns its rotation's pair with a lifetime that only shrinks, only with a live unrotated child, within the window and 60 seconds |
| TokenTheorems.TouchAnswersExactly | src/oauth/refresh-grant.ts:188-218 | and the touch of a live child does return the pair exactly when the snapshot still holds it in its window; otherwise the call goes where it has no pair |
| TokenTheorems.RacerGetsThePair | src/oauth/refresh-grant.ts:188-244 | a racer within the window, with its pair still in hand and a child that is live when looked at, is given the pair whatever the others do, and never comes to the family revoke |
| TokenTheorems.LaterReplaysLiveNoLonger | src/oauth/refresh-grace.ts:99-124 | the same kept pair opened later is the same but for a lifetime no longer |
| TokenTheorems.ReplayDichotomy | src/oauth/refresh-grant.ts:151-180 | deciding a replay revokes nothing; it is refused as already rotated only when the child has rotated, and otherwise gets the pair or goes to the family revoke |
| TokenReplays.OldReplayIsTheft | src/oauth/refresh-grant.ts:151-200 | whatever runs between and after, a replay judged when the rotation is older than the window comes to the family revoke, unless a session revoke of that very row ran within the window |
| TokenReplays.DecidesByStamp | src/oauth/refresh-grant.ts:188-200 | the judgement, whole: with no key, or a stamp outside the window read, the call has no pair; else it goes on to its child |
| TokenReplays.StampMoves | src/session/session.service.ts:79-82 | over every action the stamp of a revoked row changes only by a session revoke of that row |
| TokenReplays.ReplayWithinWindowIsSpared | src/oauth/refresh-grant.ts:151-160 | a replay within the window of the stamp whose child has rotated is refused as already rotated and changes no row |
| TokenReplayRuns.StampedReplayIsSpared | src/session/session.service.ts:79-82 | a reachable replay of a token rotated longer ago than any window, which a session revoke has just stamped: refused, and nothing revoked |
| TokenRevokes.SweepRevokes | src/oauth/refresh-grant.ts:161-173 | that revoke stamps exactly the rows in its scope live at that step, and leaves none live |
| TokenRevokes.RevokePathFinishes | src/oauth/backchannel-logout.service.ts:72-80 | when a two-statement revoke path finishes, with anything between, no row in scope keeps a pair, and every row its first statement selected is dead and bare for ever |
| TokenRevokes.DisconnectFinishes | src/oauth/consent.service.ts:101-115 | the same for disconnecting an application, whose statements share a transaction |
| TokenRevokes.RevokeOneFinishes | src/oauth/oauth-token-issuer.service.ts:357-374 | when the revoke of one token or session finishes, with anything between its statements, its row and the one it was rotated from are dead and hold no pair, ever again |
| TokenRevokes.RevokeOneKillsItsChain | src/session/session.service.ts:74-91 | its revoking statement kills the chain for good exactly when the chain is live at that row, that is, unless the token was rotated before; no other chain moves |
| TokenRevokes.SignOutElsewhereSparesExactly | src/session/session.service.ts:101-109 | "sign out everywhere else" leaves a chain of the user as it was iff the chain is dead or live at the kept row; every other dies for good, the kept session's too when its token rotated first |
| TokenRevokes.SignOutElsewhereIsOneUsers | src/session/session.service.ts:101-109 | and no chain of another user moves |
| TokenCodes.CodeYieldsTokensOnce | src/oauth/oauth.service.ts:189-227 | over every interleaving an authorization code yields tokens at most once, and is used by then |
| TokenCodes.FailedClaimSparesTheCode | src/oauth/oauth.service.ts:275-291 | a presentation whose claim fails changes no code and no row, whatever runs between its two looks, and goes on to revoke only a code used by then |
| TokenCodes.UsedCodePresentedAgain | src/oauth/oauth.service.ts:275-291 | a used code presented again, with anything in between: if its row is there at the look, the live rows of its user and client are revoked, and no later run has a live refresh token from the code iff no exchange of it is still to issue; if the row is gone, nothing changes; and it is there at any look no later than its expiry unless its client or user is deleted |
| TokenCodes.TheftVerdictHoldsExactly | src/oauth/oauth.service.ts:275-291 | from the revoke of a replayed code on, over every later run no refresh token from the code is live iff no call is past its claim of the code, able to pass, and still to issue |
| TokenCodes.ReachableOwners | src/oauth/oauth.service.ts:189-267 | in every reachable state the tokens born of a code, and an exchange about to issue them, are of the user and client the code row names |
| TokenCodes.CodeRowStays | src/oauth/oauth.service.ts:406-422 | over every run a code row is there until it expires, and once used stays used, unless its client or user is deleted |
| TokenCodeRuns.ExchangeOutlivesTheVerdict | src/oauth/oauth.service.ts:179-291 | a reachable replay of a used code whose revoke runs, and after which the code has a live refresh token all the same |
| TokenCodeRuns.CleanupForgetsTheReplay | src/oauth/oauth.service.ts:406-422 | a reachable replay of a code the cleanup deleted: it is refused and the code's token stays live |
| TokenTheorems.ChainNarrows | src/oauth/refresh-grant.ts:100-127 | down a rotation chain user, client and resource stay and scopes only go |
| TokenPreservation.ApplyOk | src/oauth/refresh-grace.ts:189-208 | every action keeps the invariant of rows, chains, kept pairs, codes and calls in flight, and forgets no death |
| TokenPreservation.RunOk | src/oauth/refresh-grant.ts:81-244 | so does every run |
| TokenInvariant.CallStable | src/oauth/refresh-grant.ts:100-120 | what a call in flight holds about its stale snapshot stays true whatever the others do |
| TokenEndpoints.TokenEndpoint.Refresh | src/oauth/refresh-grant.ts:81-127 | the refresh grant as written is one call of the machine, under any interference |
| TokenEndpoints.TokenEndpoint.Replayed | src/oauth/refresh-grant.ts:151-181 | so is the answer to a revoked token |
| TokenEndpoints.TokenEndpoint.GraceReuse | src/oauth/refresh-grant.ts:188-218 | so is the grace, with its three outcomes |
| TokenEndpoints.TokenEndpoint.FindChildState | src/oauth/refresh-grant.ts:225-244 | so is the state of the child |
| TokenEndpoints.TokenEndpoint.ClaimAndInsert | src/oauth/refresh-grace.ts:189-208 | the rotation's transaction: the whole new table when it commits, the old one when it does not |
| TokenEndpoints.TokenEndpoint.InsertFirst | src/oauth/oauth-token-issuer.service.ts:289-338 | the ungated insert that starts a chain |
| TokenEndpoints.TokenEndpoint.RevokeOne | src/oauth/oauth-token-issuer.service.ts:357-374 | the revoke of one token, or of one session, is one call of the machine |
| TokenEndpoints.TokenEndpoint.RevokeFound | src/session/session.service.ts:74-91 | its statements after the lookup: the row, then the pairs kept on it and on its parent |
| TokenEndpoints.TokenEndpoint.RevokeUserWide | src/identity/identity-account.service.ts:88-96 | logout, a password change, the admin's revoke-all and "sign out everywhere else" are each one call of the machine |
| TokenEndpoints.TokenEndpoint.RevokeAndErase | src/admin/admin.service.ts:197-206 | their two statements, with others between |
| TokenEndpoints.TokenEndpoint.RevokeConsentOf | src/oauth/consent.service.ts:101-115 | the disconnect transaction is one call of the machine |
| TokenEndpoints.TokenEndpoint.ExchangeAuthorizationCode | src/oauth/oauth.service.ts:179-267 | the code exchange as written, claim first, is one call of the machine |
| TokenEndpoints.TokenEndpoint.HandleCodeClaimFailure | src/oauth/oauth.service.ts:275-291 | so is the failed claim, which always refuses |
| TokenEndpoints.TokenEndpoint.GrantDevice | src/oauth/token-grant.service.ts:131-139 | so is the issue of tokens for an approved device |
| TokenEndpoints.TokenEndpoint.CleanupExpired | src/oauth/oauth.service.ts:406-422 | so is the hourly cleanup |
| Authority.PermittedScopeSet | src/oauth/oauth-scopes.registry.ts:133-154 | permitted scopes, stored as text and read back, are the requested ones in the allowed set |
| Authority.PermittedTwice | src/oauth/oauth-scopes.registry.ts:133-154 | narrowing by the same client row twice narrows once |
| Authority.DynamicClientsStayInTheOpenSet | src/oauth/oauth-scopes.registry.ts:161-166 | a self-registered client is granted only open scopes, never a sensitive one |
| Authority.UnlistedClientsReachOnlyTheirOwn | src/oauth/resource-registry.ts:112-142 | a client without a list names only plain URLs: https or registered; a self-registered or public one a registered or family host only, any other one of its own redirect origins only |
| Authority.RefreshNarrows | src/oauth/refresh-bounds.ts:32-47 | a refresh is refused iff the client row may not target the bound resource; else the resource stays and the scopes are exactly the old ones still allowed |
| Authority.ExchangeGrantsExactly | src/oauth/oauth-m2m.service.ts:302-325 | when an exchange is granted and what it grants, both ways |
| Authority.ClientCredentialsGrantsExactly | src/oauth/oauth-m2m.service.ts:213-238 | the same for client credentials |
| Authority.FollowNarrows | src/oauth/oauth-m2m.service.ts:293-325 | one hop holds no scope its token did not |
| Authority.AuthorityOnlyNarrows | src/oauth/refresh-bounds.ts:32-47 | over any chain of refreshes and exchanges scopes only shrink, the resource is constant while refreshed, and each refresh with a client row was of a resource that row may target |
| ClientIp.Resolve | src/common/client-ip.ts:135-171 | the loop, against the walk over hops, for a header that is absent, one text or several; it terminates |
| ClientIp.HonestProxiesRevealTheClient | src/common/client-ip.ts:131-172 | behind any number of own proxies that append their peer, the answer is the true client whatever headers it wrote |
| ClientIp.CloudflareEdgeNamesTheClient | src/common/client-ip.ts:131-172 | reached through a Cloudflare edge, the answer is the header the edge set |
| ClientIp.LeftOfAnUntrustedHopIsIgnored | src/common/client-ip.ts:135-171 | nothing left of the first hop that is not trusted has any influence |
| ClientIp.LinesMakeNoDifference | src/common/client-ip.ts:139-141 | a proxy that adds a header line of its own and one that appends to the line give the same hops |
| ClientPlan.SameIsAlike | src/clients/manifest.ts:350-351 | comparing sorted lists is equality up to order, both ways |
| ClientPlan.ChangesBetween | src/clients/manifest.ts:354-373 | the loop over managed fields |
| ClientPlan.PlanApply | src/clients/manifest.ts:354-373 | the planner's loops, against the plan as a function |
| ClientPlan.ClientTable.Apply | scripts/clients-apply.ts:115-122 | the transaction: all of the plan or nothing |
| ClientPlan.PlanTouchesExactlyTheDifferences | src/clients/manifest.ts:354-373 | the plan touches a field iff it differs beyond list order, and sets the wanted value |
| ClientPlan.ApplyCommits | scripts/clients-apply.ts:115-122 | over the table that was read, for distinct product ids, the transaction commits, brings each wanted row to its outcome and leaves every other row |
| ClientPlan.PlanConverges | scripts/clients-apply.ts:82-136 | after it every wanted field holds, and planning again finds nothing to do |
| ClientPlanMoved.MovedCommitsExactly | scripts/clients-apply.ts:82-136 | over any table it meets, moved since the read, the transaction commits iff every id it creates is absent and every row it updates is there |
| ClientPlanMoved.MovedLeaves | scripts/clients-apply.ts:115-122 | and then it creates its rows, puts exactly the fields that differed at the read over what is there by then, and leaves every other row |
| ClientPlanMoved.MovedConvergesExactly | scripts/clients-apply.ts:82-136 | so a wanted row that was read comes to all its wanted fields iff no field that was as wanted at the read has moved away since |
| Manifest.MachineIsSound | src/clients/manifest.ts:270-281 | a clean machine manifest derives a row with client_credentials only, no redirects, no OIDC scopes, https family audiences |
| Manifest.ProductIsSound | src/clients/manifest.ts:283-335 | a clean product manifest derives a row with openid, refresh wherever offline_access, only safe redirects, free of fragments iff the callback path and the extra URIs are, and a back-channel that is none or safe unless it was overridden with the empty text |
| Manifest.BackchannelIsSafeExactly | src/clients/manifest.ts:283-293 | under clean URL rules the derived back-channel is none, on the first origin, or the override's own checked URL, iff the override is not the empty text |
| Manifest.BlankBackchannelPasses | src/clients/manifest.ts:129-133 | a manifest without problems whose row has the empty text for its back-channel |
| Manifest.FragmentFreeExactly | src/clients/manifest.ts:157-164 | under clean URL rules the derived redirect URIs hold no fragment iff the callback path and the extra URIs, as written, hold none |
| Manifest.FragmentCallbackPasses | src/clients/manifest.ts:308-314 | a manifest without problems whose redirect URI has a fragment |
| Manifest.PublicIsSound | src/clients/manifest.ts:295-304 | a public row has auth method none, no confidential grant, no back-channel, no secret |
| Manifest.ValidatorIsSound | src/clients/manifest.ts:337-341 | no problems means the derived row exists and is what its kind promises, redirects and back-channel included, under an id that is the owner's to use |
| Base58.ToBase58 | src/identity/did.service.ts:300-317 | the encoder's loops, against leading ones and positional digits |
| Base58.FromBase58 | src/identity/did.service.ts:320-334 | the decoder's loop, against the number's bytes; it throws exactly on a foreign character |
| Base58.DecodeOfEncode | src/identity/did.service.ts:300-334 | decoding an encoded buffer gives it without its leading zero bytes, or one zero byte |
| Base58.RoundTripExactly | src/identity/did.service.ts:300-334 | so it comes back iff it does not begin with zero or is the single zero byte |
| Base58.EncodeOfDecode | src/identity/did.service.ts:300-334 | encoding a decoded text gives it without its leading ones, or "1" |
| Base58.TextRoundTripExactly | src/identity/did.service.ts:300-334 | so it comes back iff it is not empty and does not begin with '1', or is "1" |
| AuditCsv.FileBack | src/admin/audit-csv.ts:32-36 | a reader written from section 2 of RFC 4180 recovers any file of quoted and bare fields |
| AuditCsv.ExportReadsBack | src/admin/audit-csv.ts:22-36 | it recovers the header and every cell of every export, whatever quotes, commas and line breaks the cells hold |
| AuditCsv.ExportIsFaithful | src/admin/audit-csv.ts:22-36 | two exports are the same text iff their tables look the same cell by cell, null and empty text apart |
| TonProof.WriteInt32BE | src/identity/ton-proof.ts:97-98 | the fixed-width big-endian field, refused out of range |
| TonProof.WriteUIntLE | src/identity/ton-proof.ts:100-105 | the fixed-width little-endian fields, refused out of range |
| TonProof.BuildProofMessage | src/identity/ton-proof.ts:93-116 | the buffers put together are the message of the layout, and it throws iff a number does not fit |
| TonProof.MessageReadsBack | src/identity/ton-proof.ts:93-116 | a message with a 32-byte account reads back as its parts |
| TonProof.ReadMessageBuildsBack | src/identity/ton-proof.ts:93-116 | every byte sequence that reads as parts is the message of those parts |
| TonProof.MessageIsInjective | src/identity/ton-proof.ts:93-116 | two in-range parts have the same message iff they are equal |
| TonProof.AddressReadsBack | src/identity/ton-proof.ts:81-90 | an address written in decimal and hexadecimal parses to exactly the account it spells, in letters of either case |
| TonProof.AcceptedIsWhatWasSigned | src/identity/ton-proof.ts:196-233 | when a key signed one message only, every accepted proof for it is of that account, domain and payload, within the age limit |
| DeviceFlow.FindByUserCode | src/oauth/device-flow.service.ts:151-160 | the row with the typed code, unless expired |
| DeviceFlow.DeviceFlowService.Issue | src/oauth/device-flow.service.ts:67-143 | refused for a resource the client may not name; else a pending row with that resource under the first free user code, which keeps user codes unique; or none |
| DeviceFlow.ResourceResolvesExactly | src/oauth/device-flow.service.ts:117-143 | a named resource is taken, unchanged, iff it is an absolute URI without fragment that the rule of the other grants allows |
| DeviceFlow.DeviceFlowService.UniqueUserCode | src/oauth/device-flow.service.ts:266-277 | the retry loop finds the first free of five draws |
| DeviceFlow.DeviceFlowService.ApproveCode | src/oauth/device-flow.service.ts:167-186 | the new table and the reply of an approval |
| DeviceFlow.DeviceFlowService.DenyCode | src/oauth/device-flow.service.ts:188-196 | the new table of a denial |
| DeviceFlow.DeviceFlowService.PollForApproval | src/oauth/device-flow.service.ts:208-264 | the new table and the reply of a poll |
| DeviceFlow.RunKeeps | src/oauth/device-flow.service.ts:167-264 | over every run codes stay unique, rows only move forward and none comes back |
| DeviceFlow.DecisionsAreFinal | src/oauth/device-flow.service.ts:167-196 | a denied code is never approved, an approved one keeps its user, a used-up or expired one never grants |
| DeviceFlow.GrantNeedsApproval | src/oauth/device-flow.service.ts:208-264 | a granted poll is the client's, before expiry, after an approval in time by the user in the row |
| DeviceFlow.GrantedOnce | src/oauth/device-flow.service.ts:258-263 | after a grant every later poll of the code is invalid_grant |
| DeviceFlow.IntervalCountsSlowDowns | src/oauth/device-flow.service.ts:232-242 | the interval is 5 + 5 times the slow_downs, as section 3.5 of RFC 8628 asks |
| DeviceFlow.SpacedPollIsNotSlowed | src/oauth/device-flow.service.ts:232-242 | a poll spaced by the current interval is never told to slow down |
| DeviceFlow.PatientDevice | src/oauth/device-flow.service.ts:35-35 | a device that always waits five seconds never is |
| DeviceRaces.PollAlone | src/oauth/device-flow.service.ts:208-264 | without interference a poll's statements do what the poll does at once |
| DeviceRaces.ApproveAlone | src/oauth/device-flow.service.ts:167-186 | the same for an approval |
| DeviceRaces.DenyAlone | src/oauth/device-flow.service.ts:188-196 | the same for a denial |
| DeviceRaces.GrantedAtMostOnce | src/oauth/device-flow.service.ts:258-263 | over every interleaving a device code is handed out by at most one call, and its row is gone |
| DeviceRaces.DenialHoldsExactly | src/oauth/device-flow.service.ts:167-196 | the row of a denied code stays unapproved over every interleaving iff no approval that read it pending is still to write (what is handed out is `DeniedYieldsNothingExactly`) |
| DeviceRaces.ApprovalHoldsExactly | src/oauth/device-flow.service.ts:167-196 | an approved code keeps its user over every interleaving, until it expires or is handed out, iff no other approval and no denial that read it pending is still to write |
| DeviceRaces.GrantWasApproved | src/oauth/device-flow.service.ts:167-264 | over every interleaving a row handed out was read by that poll, from the code's client and in time, and its user is that of an approval that read it pending and in time, and wrote it |
| DeviceRaces.DenialCanBeOvertaken | src/oauth/device-flow.service.ts:167-196 | a reachable state with a denied code, and a run that approves it |
| DeviceGrants.DeniedYieldsNothingExactly | src/oauth/device-flow.service.ts:188-264 | no run hands out a denied code iff no poll that read it approved is still to delete it, and no approval for a user is still to write while, by the calls under way, a poll can come no later than the expiry and not too soon |
| DeviceGrants.DeniedCodeIsHandedOut | src/oauth/device-flow.service.ts:208-264 | a reachable state with a denied code and no approval under way, of which a run hands the code out |
| Lockout.ScheduleTier | src/auth/login-security.service.ts:70-80 | the reversed schedule and its search give the lock of each count |
| Lockout.Account.RecordFailedLogin | src/auth/login-security.service.ts:69-86 | the counter and the lock a miss leaves |
| Lockout.Account.LoginWithPassword | src/auth/auth.service.ts:118-170 | the account and the outcome of a login; the password is compared iff there is a hash and no lock |
| Lockout.LockedTellsNothing | src/auth/auth.service.ts:142-149 | a locked account answers alike to any password, whatever the hash accepts |
| Lockout.RetryAfterIsExact | src/auth/auth.service.ts:142-149 | the wait it names is enough, and one second less is not |
| Lockout.LocksAddUp | src/auth/login-security.service.ts:69-86 | over any run without a success, misses are apart by the sum of the locks between them |
| Lockout.GuessingIsSlow | src/auth/login-security.service.ts:69-86 | the n-th wrong password (n of nine or more) is compared no earlier than 81 minutes and (n - 9) days after the first |
| Lockout.BurstOfOne | src/auth/auth.service.ts:118-170 | a login alone is a burst of one |
| Lockout.BurstCountsOnce | src/auth/login-security.service.ts:69-86 | wrong attempts that read an unlocked account together are all compared and count as one miss, that of the last to write |
| Lockout.ParallelAttemptsBeforeTheLock | src/auth/login-security.service.ts:69-86 | made k at a time, wrong attempts get 5k comparisons before the first lock and no more |
| Lockout.ParallelGuessingIsAsSlow | src/auth/login-security.service.ts:69-86 | the n-th burst, each read whole before it writes and after the one before, is compared no earlier than the n-th single guess could be |
| LockoutRaces.LoginAlone | src/auth/auth.service.ts:118-170 | without interference the statements of a login do what the login does at once |
| LockoutRaces.LockHoldsExactly | src/auth/login-security.service.ts:69-86 | a locked account stays locked until its time over every interleaving iff no success is still to clear the counter and no miss still to write, on the count it read, sets a lock shorter than what is left |
| LockoutRaces.LockCanBeTakenAway | src/auth/auth.service.ts:148-165 | a reachable locked account from which a late miss takes the lock |
| LockoutRaces.RecordedMissesAreSlow | src/auth/login-security.service.ts:69-86 | over every interleaving without a success in which each miss is written on the count it read, n recorded misses (nine or more) took 81 minutes and (n - 9) days |
| LockoutRaces.LostMissesHaveNoBound | src/auth/auth.service.ts:118-155 | without that, any number of wrong passwords are compared in one moment with no lock |
| SafeFetch.Fetch | src/common/safe-fetch.ts:185-206 | against any server at most max(0, maxRedirects) + 1 requests, each to a checked URL, each answering the redirect before it; how it ends, by the last answer; the loop terminates |
| SafeFetch.BodyIsResentOnlyUnbroken | src/common/safe-fetch.ts:203-204 | a request carries the caller's method and body iff every redirect before it was a 307 or 308; else it is a GET without one |
| SafeFetch.RunIsDetermined | src/common/safe-fetch.ts:185-206 | that contract leaves nothing open: one start against one world has one run |

## Left out

- Database isolation: each statement and each transaction is one atomic step that sees everything committed before it. Under READ COMMITTED a family revoke can miss a child inserted after its snapshot (SECURITY.md:107-115 accepts this); the model has no snapshots.
- A statement and the clock reading next to it are one step.
- Columns with no bearing on the rules: company, nonce, amr, acr, authorization_details, session details. Rows without a token lookup or with no scope do not occur.
- The seven-day lifetime is counted in milliseconds; a daylight-saving change in between is not modelled.
- Cryptography and formats: HMAC, SHA-256, field encryption, signatures, JWTs and bcrypt are abstract (see above).
- Audit, SSF, metrics, e-mail, logging, back-channel notification: side effects the proved rules do not depend on.
- Consent bookkeeping beyond the revoke, PAR, API keys, JWKS lookup, admin scope, the customer lane: mostly single-branch rules that would add easy members.
- URLs, CIDR lists, address syntax and content types: a URL is its parsed record, lists are predicates. The address tables, `embeddedV4` and `hexPairToV4` stand behind the predicate `isBlockedAddress`; name resolution at connect time is not modelled.
- Manifest keys the program does not know, and the delivery and rotation of client secrets: an apply is one without `--rotate`, whose own update is in the same transaction.
- TonProof.BuildProofMessage: texts enter as their UTF-8 bytes and the timestamp as an integer.
- TonProof.ParseRawAddress: a workchain beyond 2^53 is not rounded to a double, as every such value is refused when the message is built; one so long that it overflows to Infinity is refused there instead of when parsed.
- TonProof.VerifyTonProof: reading the key out of a state-init cell is an input; base64 decoding is left out.
- AuditCsv.ParseFile: TEXTDATA is opened up to every character that is not a separator, as the cells hold Unicode; dates, objects and numbers enter as the text they render to.
- DeviceFlow.Normalise: only ASCII letters are upper-cased.
- Lockout.LocksAddUp: attempts one at a time; over interleavings it is `LockoutRaces.RecordedMissesAreSlow`, which needs that no miss is lost.
- Lockout.GuessingIsSlow: the same.
- Lockout.ParallelAttemptsBeforeTheLock: bursts of one size that do not overlap; what overlapping attempts can do is `LockoutRaces`.
- Lockout.ParallelGuessingIsAsSlow: bursts that do not overlap, likewise.
- Password changes and resets by an admin, which start a new run of the lockout.
- ClientPlan.PlanConverges: no row moves between the read and the transaction; when one does it is `ClientPlanMoved`.
- Foreign keys: after a client or a user is deleted, an insert in flight for it fails in the database and goes through in the model, which so has the more runs.
- Rate limits, controllers, guards, the frontend, seeders and migrations.

# BankShield in Dafny

A model of the stateful core of BankShield, a demonstration bank, with proofs of what its services promise:
the money ledger behind transfers and reversals, sessions and one-time credentials, the fraud alert desk with
its CSV export, and the browser client's token refresh.

Money is in whole cents, time in integer milliseconds. Row ids are positions in their tables. A reading order:

- `Sums.dfy`, `Text.dfy`: sums over sequences, string trimming.
- `Fraud.dfy`: the scoring rules and the flag the bank derives from them.
- `Ledger.dfy`: the money tables with each committed operation as one atomic step, and every ledger law.
- `Transfers.dfy`: idempotency keys, fingerprints, limits, and the possible answers.
- `Interleaving.dfy`, `Refinement.dfy`, `Runs.dfy`: any number of requests in flight, one database statement at a
  time, with row versions, locks, unique-key waits, rollback and crashes; the proof that this machine refines the
  ledger; and what that gives for whole runs.
- `Requests.dfy`: each request followed through its interleaved statements, from what was asked and answered to the
  row, the balances, the alert and the reply of its commit, and when each of its steps refuses it.
- `ReplayOfReversed.dfy`: a run whose repeated request is told a reversed transfer was completed.
- `DailyLimit.dfy`, `LimitIsTight.dfy`: how far overlapping transfers can exceed the daily limit, and a run that
  does so for every degree of overlap.
- `TransactionsService.dfy`: the two handlers statement by statement, against the ledger's operations, with
  arbitrary other requests committing between any two of their reads and before their database transaction.
- `AuthTables.dfy`, `Sessions.dfy`: the authentication tables, their guarded updates, and the machine that
  interleaves logins, refreshes, resets and administration.
- `Credentials.dfy`: which events start a login, and which password it passes with.
- `SessionSafety.dfy`, `EndedSessions.dfy`, `Lockout.dfy`, `LockoutIsTight.dfy`, `DeviceSessions.dfy`: what holds over
  every run of that machine.
- `AuthService.dfy`: the handlers of the authentication, MFA, user and device services, statement by statement; each
  keeps the invariant of the session machine at every statement, so its theorems hold of them.
- `RecoveryCodes.dfy`: the text forms of recovery codes and of encrypted secrets.
- `Soc.dfy`: alerts, investigation cases and the audit log. `Csv.dfy`: the alert export and a reader for it.
- `ApiClient.dfy`: one browser tab's refresh protocol.

## Where the code does not do what it sets out to do

Each of these is proved, with the exact condition under which the aim is met.

- The daily limit of 25,000 is a check made before the database transaction, so overlapping transfers of one
  account can pass it together. With at most k of them between check and commit a day's total can reach exactly
  25,000 + (k - 1) * 10,000 and never more; the stated limit holds in every run if and only if k <= 1
  (`LimitIsTight.StatedLimitHoldsIffAlone`).
- A login revokes the device's tokens and creates its own in two statements. A device keeps to one live refresh
  token in every run if and only if its logins never overlap between the two (`DeviceSessions.OneTokenIffLoginsAlone`).
- Five failures in fifteen minutes are to lock an account. With at most k logins in flight and r reactivations a
  window can hold exactly 4 + k * (1 + r) failures and never more; five and one per reactivation is the bound in every
  run if and only if logins come one at a time (`LockoutIsTight.LocksAtFiveIffAlone`).
- Changing a password, or anything else that ends all sessions of a user, does not stop a login that has already read
  the user's row. A usable refresh token can appear afterwards without a new login if and only if a login in flight at
  that moment can still finish (`EndedSessions.SessionAfterTheEndIff`); such a login may even carry the old password
  (`EndedSessions.LoginOutlivesPasswordChange`).
- When a refresh fails, its waiters expire the session they had seen. A newer login made during the flight survives
  the failure of the older token's refresh if and only if none of its requests had joined the wait
  (`ApiClient.FailureDropsIffSeen`, with a concrete run in `ApiClient.StaleFailureDropsNewerLogin`).
- A request sent again after a refresh that meets a second 401 drops whatever session is stored by then, another
  user's included. These are the only two ways in which a session goes without a logout (`ApiClient.SessionGoneIff`,
  with a concrete run in `ApiClient.SecondRefusalDropsNewerLogin`).
- An alert's status can be set directly although it has a case. A successful operation keeps the two in agreement
  if and only if it is not such an update, and they agree throughout a run if and only if it has none
  (`Soc.AgreementKeptIff`, `Soc.AlwaysAgreeIff`); the case left behind cannot be set to the status its alert already
  has, because the alert update inside refuses it (`Soc.BypassStrandsTheCase`).
- The answer to a repeated request calls every transfer completed that is neither rejected nor flagged. In every run
  that message is the status of the row it returns if and only if the row has not been reversed
  (`Runs.ReplayNamesStatusIff`, with a concrete run in `ReplayOfReversed.ReversedTransferIsCalledCompleted`).

## Model

| member | source | states |
|---|---|---|
| Fraud.AnalyzeTransaction | backend/fraud-service/main.py:204-257 | the engine's running score and reason list, severity and decision are the answer the rule table defines: the capped total weight of the listed reasons and its grade |
| Fraud.ReasonsAreFiringRules | backend/fraud-service/main.py:208-230 | a rule is listed exactly when its condition holds, and no reason twice |
| Fraud.WeightIsPoints | backend/fraud-service/main.py:205-232 | the score is the sum of the weights of the reasons listed |
| Fraud.Assess | backend/src/fraud/fraud.service.ts:67-74 | the bank's flag is set exactly from a score of 60 on, and the score lies between 0 and 100 |
| Fraud.ScoreMonotone | backend/fraud-service/main.py:208-232 | a larger amount, a new device or beneficiary, more transfers or failed logins never lower the score nor release a flagged transfer |
| Fraud.HourNeverDecidesTheFlag | backend/fraud-service/main.py:228-239 | the night-time rule can never decide whether money is withheld |
| Fraud.AnswerInNumbers | backend/fraud-service/main.py:204-257 | the score, severity, decision and the bank's flag in plain numbers: 40, 20, 20, 20, 20 and 10 points capped at 100, levels from 30, 60 and 80 on, blocked from 80, money withheld from 60 |
| Ledger.AgreementKept | backend/src/transactions/transactions.service.ts:462-528 | each operation keeps balance = opening + incoming - outgoing COMPLETED amounts, for every account |
| Ledger.AlertsKept | backend/src/transactions/transactions.service.ts:379-451 | FLAGGED rows and alerts stay one to one, with the same score and level |
| Ledger.SoundKept | backend/src/transactions/transactions.service.ts:457-528 | each operation keeps all ledger properties together: agreement, no negative balance, unique keys, legal rows, matching alerts |
| Ledger.TotalKept | backend/src/transactions/transactions.service.ts:643-664 | no operation changes any currency's total, because both accounts share the currency |
| Ledger.ReplaySound | backend/src/transactions/transactions.service.ts:457-555 | the same over any number of operations |
| Ledger.HistoryEvolves | backend/src/transactions/transactions.service.ts:666-674 | over any stretch of any history a row changes at most from COMPLETED to REVERSED, and nothing else in it changes |
| Ledger.AtMostOneReversal | backend/src/transactions/transactions.service.ts:666-678 | of any number of reversals of one transfer at most one commits |
| Ledger.AtMostOneRowPerKey | backend/prisma/schema.prisma:163 | of any number of requests with one idempotency key at most one commits a row |
| Ledger.BalancesAreEffects | backend/src/transactions/transactions.service.ts:462-498 | every balance is the starting balance plus the money movements of the history |
| Ledger.ReversalErasesTheTransfer | backend/src/transactions/transactions.service.ts:642-711 | once a transfer is reversed, every balance is what the history without the pair leaves, whatever ran in between and after |
| Ledger.RecordPosts | backend/src/transactions/transactions.service.ts:462-528 | recording a row, balance by balance: a COMPLETED one takes exactly its amount from its sender and gives it to its receiver, a FLAGGED one raises its alert, and nothing else changes |
| Ledger.ReverseReverts | backend/src/transactions/transactions.service.ts:643-674 | reversing a row, balance by balance: exactly its amount goes back, the row names who reversed it and when, and nothing else changes |
| Transfers.FindKey | backend/src/transactions/transactions.service.ts:54-62 | finds a row exactly when one has the key |
| Transfers.KeyIgnoresPadding | backend/src/transactions/transactions.service.ts:30-33 | spaces around a key never matter, and a blank header is no key |
| Transfers.SpentTodayIsSpentSince | backend/src/transactions/transactions.service.ts:94-106 | the sum queried from midnight on is the sum of the rows created that day |
| Transfers.LimitRefusedIff | backend/src/transactions/transactions.service.ts:87-113 | refused over 10,000.00, or when the COMPLETED and FLAGGED amounts since midnight and this one exceed 25,000.00, and otherwise not; the sum is counted row by row |
| Refinement.RollBackKept | backend/src/transactions/transactions.service.ts:457-483 | an exception or crash at any statement undoes every write of its transaction: readers see no difference |
| Refinement.DebitKept | backend/src/transactions/transactions.service.ts:462-483 | the guarded debit keeps the lock and version invariant and is invisible until commit; a row changed since the stale read is judged by its current balance |
| Refinement.PayKept | backend/src/transactions/transactions.service.ts:489-498 | the same for the credit |
| Refinement.InsertKept | backend/src/transactions/transactions.service.ts:504-528 | the same for the insert under the unique key: two pending rows never share a key |
| Refinement.MarkKept | backend/src/transactions/transactions.service.ts:666-678 | the same for the guarded status change of a reversal |
| Refinement.CommitRefines | backend/src/transactions/transactions.service.ts:457-555 | a commit changes what readers see exactly as one enabled atomic ledger operation does |
| Refinement.CommitKept | backend/src/transactions/transactions.service.ts:457-555 | a commit keeps the invariant of every other request in flight, although their early reads may now be stale |
| Runs.StepRefines | backend/src/transactions/transactions.service.ts:457-555 | each step of any request either leaves the visible tables alone or applies one enabled ledger operation |
| Runs.RunRefines | backend/src/transactions/transactions.service.ts:170-711 | in every interleaving, with aborts and rollbacks, the visible tables are the committed transfers and reversals applied one at a time in commit order |
| Runs.EveryRunIsSound | backend/src/transactions/transactions.service.ts:457-711 | in every interleaving balances agree with COMPLETED rows, none is negative, keys are unique, and each currency's total is constant |
| Runs.CommitsAreExclusive | backend/src/transactions/transactions.service.ts:457-711 | two commits of a run never share a key and never reverse the same transfer |
| Runs.RunEvolves | backend/src/transactions/transactions.service.ts:666-674 | over any run accounts keep owner and currency and rows change only from COMPLETED to REVERSED |
| Runs.KeyedLookup | backend/src/transactions/transactions.service.ts:182-189 | a keyed request goes on exactly when no row has its key, is replayed exactly when a row of the same user's same payment has it, and is refused otherwise |
| Runs.LaterDuplicateIsReplayed | backend/src/transactions/transactions.service.ts:49-85 | once a keyed row is visible, every later same-user same-payload request gets that row, with the message for its status, and changes no table |
| Runs.ReplayNamesStatusIff | backend/src/transactions/transactions.service.ts:74-80 | in every run the message of a replay is the status of the returned row if and only if the row is not REVERSED |
| ReplayOfReversed.ReversedTransferIsCalledCompleted | backend/src/transactions/transactions.service.ts:74-80 | a concrete run: a keyed transfer commits, its reversal commits, and the same request again is told it completed while the row is REVERSED |
| Runs.LosingDuplicateLeavesNoTrace | backend/src/transactions/transactions.service.ts:457-528 | a duplicate that loses at its insert fails, leaves the visible tables alone and releases all it had locked and written |
| Runs.FraudGateInEveryRun | backend/src/transactions/transactions.service.ts:379-451 | in every run COMPLETED and REVERSED rows score below 60, FLAGGED rows at least 60 with exactly one matching alert, REJECTED rows have no score and no alert, and there are no other rows |
| Runs.ReversalErasedInEveryRun | backend/src/transactions/transactions.service.ts:602-711 | the inverse law of reversal on interleaved runs |
| Requests.CommitFollowsRequest | backend/src/transactions/transactions.service.ts:170-556 | in every run, the row a request commits is of the amount, sender, receiver, key and payload asked for and COMPLETED, FLAGGED or REJECTED as the engine's answer to it scores below 60, from 60 on or is missing, with that score; exactly that money moves, that alert is raised and that reply is given |
| Requests.CommitFollowsReversal | backend/src/transactions/transactions.service.ts:602-717 | in every run, a committed reversal is of the COMPLETED transfer asked for, by the owner of its sender's account, who is recorded in it, and moves back exactly its amount |
| Requests.ReceiverRefusedIff | backend/src/transactions/transactions.service.ts:210-259 | each refusal before the limits, exactly when its condition on the accounts as read holds |
| Requests.SenderRefusedIff | backend/src/transactions/transactions.service.ts:195-204 | the sender's account is refused exactly when there is none with that id that the user owns |
| Requests.ReversalRefusedIff | backend/src/transactions/transactions.service.ts:602-640 | each refusal before a reversal's transaction, exactly when its condition on the tables holds; a receiver holding just the amount is not refused |
| Requests.DebitFailsIff | backend/src/transactions/transactions.service.ts:462-483 | the guarded debit waits for the lock and fails exactly when the balance it then finds is below the amount |
| Requests.InsertFailsIff | backend/prisma/schema.prisma:163 | the insert fails exactly when a committed row has the key |
| Requests.MarkFailsIff | backend/src/transactions/transactions.service.ts:666-678 | the status change of a reversal fails exactly when the row it finds is not COMPLETED |
| DailyLimit.DailySpendingBounded | backend/src/transactions/transactions.service.ts:87-113 | with at most k transfers of an account between check and commit, its COMPLETED and FLAGGED amounts of any day, counted row by row, stay within 25,000.00 + (k - 1) * 10,000.00, midnight straddlers included |
| DailyLimit.LimitCheckRefusesIff | backend/src/transactions/transactions.service.ts:87-113 | in every run the check refuses exactly a transfer over 10,000.00 or one that would take the day's COMPLETED and FLAGGED amounts over 25,000.00 |
| DailyLimit.CheckKeepsLimit | backend/src/transactions/transactions.service.ts:94-112 | passing the limit check keeps what was spent plus what is in flight within the bound |
| DailyLimit.CommitKeepsLimit | backend/src/transactions/transactions.service.ts:504-528 | committing a row moves its amount from in flight to spent and keeps the bound |
| LimitIsTight.BoundIsReached | backend/src/transactions/transactions.service.ts:87-113 | for every k at least 1 some run with at most k in flight spends the whole bound in one day |
| LimitIsTight.StatedLimitHoldsIffAlone | backend/src/transactions/transactions.service.ts:17-18 | the stated daily limit holds in every run if and only if transfers of an account never overlap |
| TransactionsService.MeanwhileSound | backend/src/transactions/transactions.service.ts:301-379 | whatever other requests commit while the fraud engine is asked keeps the ledger sound and the totals |
| TransactionsService.Service.AssessAndRecord | backend/src/transactions/transactions.service.ts:313-555 | the inquiry describes the request against the rows as they are: amount, average, count of the last hour, beneficiary under a day old; from the score of its answer follow the row's status and risk; the row carries the request's amount, accounts, key, fingerprint, currency and time; it is posted, or a guard fails and nothing of it stays |
| TransactionsService.InquiryDescribes | backend/src/transactions/transactions.service.ts:262-331 | the queries count and average what they are meant to: rows of the sender in the last hour by cardinality, the average as total over number |
| TransactionsService.Service.RecordCompleted | backend/src/transactions/transactions.service.ts:457-555 | debit, credit and insert either amount to one ledger operation or fail for the guard that names the error and leave nothing behind |
| TransactionsService.Service.RecordWithheld | backend/src/transactions/transactions.service.ts:379-451 | a flagged or rejected transfer stores its row, and its alert if flagged, and moves no money |
| TransactionsService.Service.ReverseTransaction | backend/src/transactions/transactions.service.ts:642-711 | the reversal's three statements amount to one ledger operation or leave nothing behind |
| TransactionsService.Service.Transfer | backend/src/transactions/transactions.service.ts:170-556 | the complete answer and new state of a transfer, every condition written out on the tables as they are when it is looked at, with others committing between any two reads; an accepted COMPLETED one moves exactly its amount; every ledger property and total carries over |
| TransactionsService.Service.Reverse | backend/src/transactions/transactions.service.ts:602-717 | accepted if and only if the transfer is the user's and COMPLETED at the read and at the transaction, and its receiver's balance is at least the amount at both; then exactly the amount goes back; each error has its table condition; every ledger property and total carries over |
| Sessions.TokensRevoked | backend/src/auth/auth.service.ts:75-80 | every event but a creation or rotation changes the token rows only by one guarded revocation, named for each |
| Sessions.RunEvolves | backend/src/auth/auth.service.ts:486-522 | over any run `revokedAt` and `usedAt` are written once, versions never fall, and a deleted code or reset token never comes back |
| SessionSafety.InvKept | backend/src/auth/auth.service.ts:480-533 | every step keeps token lineage, MFA rows, one reset token per user, and every version a token or request carries at most the user's own |
| SessionSafety.RunInv | backend/src/auth/mfa.service.ts:284-305 | in every run each refresh token has at most one successor, of the same user and device; MFA enabled means a secret and exactly ten codes, MFA off means no codes |
| SessionSafety.LineageKept | backend/src/auth/auth.service.ts:502-522 | a token is replaced only once, and only after it is revoked |
| SessionSafety.MfaChange | backend/src/auth/mfa.service.ts:140-166 | setting up, verifying, regenerating and disabling keep secrets and codes in step for every user |
| SessionSafety.BumpInvalidatesForever | backend/src/auth/auth.guard.ts:78-89 | once a user's version has been raised, every access or challenge token signed before is rejected in all later states |
| SessionSafety.StaleStaysStale | backend/src/auth/auth.service.ts:383-385 | a token below its user's version never works again, even if role or status change back |
| Credentials.LoginPassesIffNewPassword | backend/src/auth/auth.service.ts:547-616 | after a change or reset of a password, until the next one, every login that reads the row passes exactly with the new password, whatever runs between its read and its check |
| Credentials.PasswordAfter | backend/src/auth/auth.service.ts:659-724 | which events set a password, and that they change nothing else of the user but the version, and nothing of any other user; no other event touches a password |
| Credentials.CheckComparesRead | backend/src/auth/auth.service.ts:228-341 | a login is compared with the password it read: the right one leads to a session or a challenge, any other to a recorded failure |
| Credentials.SecondFactorStartsIff | backend/src/auth/auth.service.ts:369-478 | a second factor is accepted exactly on a challenge at the version of its active user, with MFA on, and the right code for a stored secret or an unused code of that user |
| Credentials.TokenStartsIff | backend/src/auth/auth.service.ts:480-498 | a refresh starts exactly for a live, unexpired token of an active user, a reset exactly for an unused, unexpired token |
| Credentials.RecoveryGoesOnIff | backend/src/auth/mfa.service.ts:398-421 | a recovery login goes on exactly if its code is still unused, and uses it |
| Credentials.LoginStartsIff | backend/src/auth/auth.service.ts:215-221 | a password login goes on exactly for an active user, with the row as it is then |
| SessionSafety.SignedOutForever | backend/src/auth/auth.guard.ts:78-89 | whoever is signed out stays so: none of the tokens they held is accepted or usable in any later state |
| SessionSafety.OwnStep | backend/src/auth/auth.service.ts:502-522 | one statement of a request, taken from any state the others may have reached, keeps the session invariant |
| SessionSafety.ChangesBump | backend/src/users/users.service.ts:99-107 | password change and reset, role and status changes, locking and revoke-all each raise the version by one |
| SessionSafety.AtMostOneWinner | backend/src/auth/auth.service.ts:502-515 | in any interleaving each refresh token is rotated, each recovery code consumed and each reset token used by at most one request |
| SessionSafety.WinSpends | backend/src/auth/mfa.service.ts:398-418 | what a guarded update wins was unspent before and is spent after |
| SessionSafety.SpentNeverWins | backend/src/auth/auth.service.ts:486-500 | a revoked token, a used, replaced or deleted code and a used or superseded reset token never succeed again |
| SessionSafety.RotationKeepsLive | backend/src/auth/auth.service.ts:502-522 | a successful refresh keeps the number of live tokens of every user and device |
| SessionSafety.RecoveryUsesOneCode | backend/src/auth/mfa.service.ts:381-421 | a recovery login uses up exactly one unused code of its user and none of anyone else's |
| SessionSafety.WhatEndsSessions | backend/src/auth/auth.service.ts:581-592 | revoke-all, password change and reset, locking and suspending by an administrator, and disabling MFA revoke all tokens of the user; the automatic lock is not among them |
| SessionSafety.EndedSessionsStayEnded | backend/src/auth/auth.service.ts:756-779 | after such an event no refresh token the user had is usable in any later state |
| EndedSessions.SessionAfterTheEndIff | backend/src/auth/auth.service.ts:182-189 | after an event that ends every session of a user, a usable refresh token of theirs can appear without a new login if and only if a login in flight can still finish |
| EndedSessions.NoWayBackKept | backend/src/auth/auth.service.ts:95-116 | with all tokens revoked and no login that can finish, no step but a new login changes that, whatever codes are replaced or tokens refreshed |
| EndedSessions.LoginOutlivesPasswordChange | backend/src/auth/auth.service.ts:547-616 | a login that has read the row is compared with the old password after the change, and its refresh and access token both work |
| Lockout.FailedAttemptsBounded | backend/src/auth/auth.service.ts:228-289 | with recording, counting and locking as separate statements and at most k logins of a user in flight, any closed window of 900,000 milliseconds holds at most 4 + k * (1 + r) failures, r counting reactivations in it, both counted row by row |
| Lockout.SequentialLoginsLockAtFive | backend/src/auth/auth.service.ts:215-221 | one login at a time: at most 5 + r |
| Lockout.CountKeeps | backend/src/auth/auth.service.ts:251-257 | a failure may be cleared by its count only because the count covers every part of a window still running |
| LockoutIsTight.BoundIsReached | backend/src/auth/auth.service.ts:228-289 | for every k at least 1 and every r some run with at most k logins in flight and r reactivations has exactly 4 + k * (1 + r) failures in one window |
| LockoutIsTight.LocksAtFiveIffAlone | backend/src/auth/auth.service.ts:259-266 | five failures and one per reactivation bound every window of every run if and only if logins come one at a time |
| DeviceSessions.LiveTokensBounded | backend/src/auth/auth.service.ts:69-93 | with at most k logins of a device between revoke and create, it never has more than k unrevoked refresh tokens, counted row by row |
| DeviceSessions.BoundIsReached | backend/src/auth/auth.service.ts:69-93 | for every k some run leaves k live tokens on one device |
| DeviceSessions.OneTokenIffLoginsAlone | backend/src/auth/auth.service.ts:69-93 | a device keeps to one live token in every run if and only if its logins never overlap there |
| AuthService.IssuedKeeps | backend/src/auth/auth.service.ts:95-154 | signing, revoking the device's tokens and creating one keep the session invariant at every statement, with any other requests in between |
| AuthService.FailedKeeps | backend/src/auth/auth.service.ts:228-289 | so do recording a failure, counting and locking |
| AuthService.Backend.Login | backend/src/auth/auth.service.ts:182-344 | the answer and new state of a login for any account status, password, MFA setting and interference between its statements; the session invariant is kept |
| AuthService.Backend.VerifyMfaLogin | backend/src/auth/auth.service.ts:390-425 | a second factor by code: when it is accepted, and the session it issues, with any interference between its statements; the session invariant is kept |
| AuthService.Backend.VerifyMfaRecoveryLogin | backend/src/auth/auth.service.ts:427-478 | the same by recovery code |
| AuthService.Backend.Refresh | backend/src/auth/auth.service.ts:480-533 | succeeds exactly if the token is live, unexpired and its user active when read, and the token still live at the guarded update; the successor has the same user and device and seven days; a loser changes nothing; the session invariant is kept |
| AuthService.Backend.ChangePasswordOf | backend/src/auth/auth.service.ts:547-616 | refused for a wrong or unchanged password; otherwise the new one is stored and the version raised, no token the user held works any more, and nothing else changes; the invariant is kept |
| AuthService.Backend.Forgot | backend/src/auth/auth.service.ts:618-657 | an active user's earlier reset tokens can never succeed again and one new one can; anyone else changes nothing; the invariant is kept |
| AuthService.Backend.ResetPassword | backend/src/auth/auth.service.ts:659-724 | succeeds exactly if the token is usable when read and still when consumed; then the new password is stored and the version raised, no token its user held works any more, and nothing else changes; the invariant is kept |
| AuthService.Backend.RevokeSession | backend/src/auth/auth.service.ts:743-754 | found exactly when it revoked a live token of that user; the invariant is kept |
| AuthService.Backend.RevokeAllSessions | backend/src/auth/auth.service.ts:756-779 | counts the live tokens by cardinality, and no token the user held works any more; the invariant is kept |
| AuthService.Backend.UpdateRoleOf | backend/src/users/users.service.ts:77-148 | refused for an unknown user, a self-demotion or the same role; otherwise the role is set and every token signed for the user is below their version, even if it is changed back; the invariant is kept |
| AuthService.Backend.UpdateStatusOf | backend/src/users/users.service.ts:150-240 | refused likewise; otherwise the status is set, every signed token is dead, and once locked or suspended every refresh token too; the invariant is kept |
| AuthService.Backend.VerifySetupOf | backend/src/auth/mfa.service.ts:238-344 | enables MFA exactly when a secret is stored, MFA is off and the code is right, and then exactly the ten fresh codes are usable; the invariant is kept |
| AuthService.Backend.Regenerate | backend/src/auth/mfa.service.ts:427-535 | exactly after password and code are right the new codes are the usable ones and no old one can ever succeed; the invariant is kept |
| AuthService.Backend.Disable | backend/src/auth/mfa.service.ts:541-689 | exactly after password and code are right no refresh token is usable, no old code can ever succeed and no challenge is valid; the invariant is kept |
| AuthService.Backend.ConsumeRecoveryCode | backend/src/auth/mfa.service.ts:381-421 | succeeds exactly if the code is usable when looked up and still when consumed, and then the code is spent for good; the invariant is kept |
| RecoveryCodes.GroupedIsRead | backend/src/auth/mfa.service.ts:110-129 | the shown form of a code reads back as the digits that are hashed |
| RecoveryCodes.GroupsOfFive | backend/src/auth/mfa.service.ts:120-129 | a code is shown as its twenty digits in four groups of five with dashes between them |
| RecoveryCodes.TypedCodeIsRead | backend/src/auth/mfa.service.ts:110-112 | so does any typing of it, in either case, with dashes anywhere and spaces around |
| RecoveryCodes.UnpackPackIff | backend/src/auth/mfa.service.ts:52-83 | splitting a stored record gives back its three dot-free parts exactly when none is empty |
| RecoveryCodes.StoredSecretReadsBack | backend/src/auth/mfa.service.ts:52-97 | what is stored for any secret, a 12-byte vector, a 16-byte tag and the encrypted text in hexadecimal, reads back as exactly those bytes |
| Soc.LogReplaysToTables | backend/src/fraud-alerts/fraud-alerts.service.ts:223-271 | after any operations the audit log is an unbroken chain of real changes per alert and case, and replaying it gives both tables; each alert has at most one case and outcomes follow statuses |
| Soc.AgreementKeptIff | backend/src/soc/soc.service.ts:332-350 | a successful operation keeps case and alert statuses equal if and only if it does not change an alert that has a case directly |
| Soc.AlwaysAgreeIff | backend/src/soc/soc.service.ts:332-350 | statuses agree after every step of a run if and only if no step of it successfully changes an alert that has a case directly |
| Soc.BypassStrandsTheCase | backend/src/soc/soc.service.ts:454-464 | after such a change the case keeps its old status and setting it to its alert's new status is refused |
| Soc.DirectUpdateBreaksAgreement | backend/src/soc/soc.service.ts:332-350 | a concrete run from an empty desk that ends in this state |
| Soc.CaseUpdateAgrees | backend/src/soc/soc.service.ts:441-488 | a successful case update makes both statuses the requested one, agreed before or not, and touches no other case or its alert |
| Soc.SocService.CreateCaseFor | backend/src/soc/soc.service.ts:367-439 | one case per alert; an open alert is set to investigating first and a closed one gives the case its outcome |
| Soc.SocService.UpdateCaseStatus | backend/src/soc/soc.service.ts:441-507 | the alert is updated first, and only then the case, its outcome and the log |
| Csv.ParseExport | backend/src/soc/soc.service.ts:509-547 | reading the export by the quoting rules of section 2 of RFC 4180 gives back the header and exactly every field's text, for any quotes, commas and line breaks |
| Csv.ExportReadsBack | backend/src/soc/soc.service.ts:516-543 | the first record names the ten columns, and every other holds its alert's ten values in that order |
| ApiClient.SingleFlight | frontend/src/lib/api.ts:346-352 | in every run a tab has at most one refresh call on the wire and sends every request at most twice |
| ApiClient.SuccessNeverOverwrites | frontend/src/lib/api.ts:311-352 | from the start of any refresh through anything that happens in the tab to its answer: if by then no session is stored, or one with another refresh token, the answer leaves it as it is; otherwise a success changes exactly the two tokens; every waiter is told a failure, or the access token of the session stored then |
| ApiClient.SessionGoneIff | frontend/src/lib/api.ts:361-393 | over any run without login or logout the stored session goes if and only if a request sent again met a second 401 or a waiter of a failed refresh had seen the stored token |
| ApiClient.FailureDropsIffSeen | frontend/src/lib/api.ts:208-217 | after a failed refresh the stored session is dropped exactly when some waiter had seen its token |
| ApiClient.StaleFailureDropsNewerLogin | frontend/src/lib/api.ts:384-391 | a concrete run in which a stale failure drops a newer login |
| ApiClient.SecondRefusalDropsNewerLogin | frontend/src/lib/api.ts:367-370 | a concrete run in which no refresh fails and a newer login is dropped by an older request's second 401 |
| ApiClient.Client.OnUnauthorized | frontend/src/lib/api.ts:356-381 | what the interceptor does with a 401 up to its wait |
| ApiClient.Client.CompleteRefresh | frontend/src/lib/api.ts:318-344 | what the refresh's answer does to the stored session and to every waiter |
| ApiClient.Client.ResumeRequest | frontend/src/lib/api.ts:379-392 | a waiter sends again with the new token or expires the session it had seen |

## Left out

Ledger:

- Database ids, references, descriptions, reversal reasons, and the audit and security-event rows of transfers; every row is a transfer, so the check of the row's type is not modelled.
- Beneficiaries in the interleaved machine: the lookup is any answer; the handler in `TransactionsService.dfy` has the table.
- How deadlocks are found: any transaction may abort at any moment instead.
- The instant of `createdAt`: any moment between the limit check and the insert in the machine; the request's own time in the handler.
- TransactionsService.Service.Transfer: the three reads behind the fraud inquiry, and the check of both limits, are each taken at one moment, and the request has one time throughout.
- Time zones, daylight saving and floating point: days are 24 hours of an integer clock, amounts whole cents, the average amount a real number.
- SHA-256: a fingerprint is its payload.
- The engine's network call: it answers by its rules or not at all; event logging, stored predictions and machine-learning models in the engine.

Sessions:

- Hashes, random tokens, signatures, bcrypt, TOTP and AES-GCM: injective tags, or a yes-or-no answer.
- Expiry of access and challenge tokens: it can only reject more.
- The guard's signature and expiry checks.
- Password changes, MFA changes and administrative changes are one step each.
- Lockout.FailedAttemptsBounded: a login that stops for good after recording a wrong password counts as in flight from then on.
- Attempts for unknown addresses, registration details, device registration and trust, e-mail normalisation, mail.
- Audit and security-event rows of these services, except the status changes that the lockout bound counts.
- RecoveryCodes.TypedCodeIsRead: upper-casing is modelled for ASCII letters, which are all a code contains.

Alert desk:

- Soc.LogReplaysToTables: each operation is one step; two concurrent updates of one alert could both be logged from the same status.
- Notes, analysts, notifications, analytics counters, summaries, filters and reports.
- Csv.ParseExport: numbers are taken in the text they are rendered to, and a missing value reads back as an empty field.

Client:

- ApiClient.Client.RefreshAuthSession: a stored session always has a refresh token, and only the interceptor asks for a refresh.
- Storage failures, validation of the stored session, events, error texts; demo mode is only a flag.

Elsewhere: controllers, modules, DTO decorators, rate limits, configuration, health checks, React pages, the PDF report, `backend/src/admin/admin.service.ts` and the root `main.py`.

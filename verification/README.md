# Events API verification

A Dafny model of the three stateful parts of the events API and proofs about
all their runs: the durable email outbox and its delivery workers, the account
and token lifecycle that feeds it, and the query core that classifies, orders
and pages events in Lithuanian wall-clock time.

`dafny verify dfyconfig.toml` checks the whole project.

## How the model is organised

| file | what it holds |
|---|---|
| `Prelude`, `Mail` | optional values, time units, messages and idempotency keys |
| `JobTable` | the outbox table as a value: what each SQL statement does to its rows, and the retry policy |
| `MailerRepository`, `Worker` | the repository statements, one worker pass and the worker loop as methods that update the store |
| `Resend` | the provider adapter with its bounded retry loop |
| `OutboxProtocol`, `OutboxInvariant`, `OutboxTheorems` | N workers over one table as a state machine: Claim, Hand, Deliver, Reject, Finish, Crash, Enqueue, DeleteTokens and Tick are separate actions |
| `Tables` | the database: rows, constraints, and the class `Database` that the methods change |
| `AuthSpec`, `AuthInvariant` | `Serve`: what each request does in one transaction, and the cross-table rules it keeps |
| `AuthAnswers` | what each request answers and does, in terms of rows, passwords and times alone |
| `AuthRepositories`, `AuthService` | the same requests statement by statement on the store, proved equal to `Serve` |
| `System`, `SystemInvariant`, `SystemTheorems`, `AuthTheorems`, `PasswordTheorems` | requests and workers interleaved over one database; every run of it is a run of the outbox protocol; what tokens, sessions and replies promise over all runs |
| `LocalTime` | `event_time` over an abstract zone, read as in PEP 495, sections "In the Fold" and "Mind the Gap" |
| `Sql`, `EventQuery`, `EventTheorems`, `EventOrdering`, `Paging`, `HideExpired` | three-valued conditions, filters, ORDER BY terms and pages; when two documented-as-equivalent parameters list alike |

A method that changes the store is proved equal to a specification function
(`Leased`, `Settled`, `Process`, `Serve`, ...), and the state machines are built
from the same functions. So the theorems about all runs are about what the methods do:
`Worker.PassIsProtocolRun` turns a worker pass into protocol actions, and
`SystemInvariant.RefinesOutbox` does this for a request.

Methods of `AuthService` require `Good`, the invariant of the schema and of the
account rules. It holds of the empty database, every request keeps it
(`AuthInvariant.ServeKeeps`), and so do workers (`SystemInvariant.WorkKeeps`).

## Idealisations

- A committed transaction is one atomic step, and so is a whole service request; it reads the
  clock once, at that step. Races that READ COMMITTED allows between two requests are not modelled.
  With atomic claims `SKIP LOCKED` never has a locked row to skip.
- The clock does not go back. A worker may claim with an older sample of it.
- `uuid4`, `secrets` and serial ids never repeat; SHA-256 has no collisions; a bcrypt digest
  verifies exactly the password it was made from. All three are datatype constructors or
  freshness conditions on steps.
- A token row's `created_at` equals the `now` of the service that inserts it.
- `raise_for_status` of httpx raises for every answer that is not 2xx.
- A rollback restores serial counters too. In PostgreSQL sequences keep running; ids are fresh
  either way, which is all that is used.
- The three key formats (`email-confirmation/<id>`, `password-reset/<id>`, `issue-report/<uuid>`)
  are injective and disjoint, so keys are constructors.
- Message bodies are opaque values over the raw token or report they are rendered from; the empty
  body left by a permanent failure is a value of its own.
- `ilike`, `unaccent` and the price-mention test are arbitrary functions of the environment, with
  SQL and Python agreeing on the price mention; the hypotheses are that an empty text mentions
  no price and, in `HideExpired` alone, that every search text and place name occurs in some text.
- A zone is a table of transitions at least four days apart with offsets under a day; where it
  matters (`KeepsDate`) no transition turns the local date back. Instants, wall times and durations
  are integers counting microseconds. PostgreSQL's AT TIME ZONE reads a stored time as `event_time` does,
  as the comment at app/core/time.py:19 asserts.
- Prices and delays are reals; rounding is not the point of any property here.
- The jitter lies in [0, 1).

## Where the code differs from what is said about it

- `MAX_ATTEMPTS` does not bound the attempts of a job: it is compared only after a delivery error, so
  workers that lose their leases pass it by any amount (`LostLeasesExceedAnyLimit`). A claim passes it
  exactly if it takes over a lease of a row that already has eight attempts (`PastLimitStep`), and a job
  of a run ever passes it iff the lease of its eighth claim was taken over (`PastLimitIff`). Leases lost
  before that use up the eight attempts and do not extend them (`AttemptAccounting`).
- `is_free` is said to have exactly one definition (app/events/models.py:72-73). Its SQL and Python forms differ
  exactly on rows that are free but for an empty `ticket_url` or `ticket_purchase_note`
  (`FreeListsTheFlagged`, `FreeIsTwoValued`).
- A missing price is said to satisfy any non-negative bound (app/events/repository.py:96-97). It satisfies
  every upper bound, and of the lower bounds only zero (`UnknownPriceAndBounds`).
- `hideExpired=true` is called equivalent to `status=upcoming` (app/events/schemas.py:54-56). It
  selects the same events (`HideExpiredIsUpcoming`), but the default direction and the place of unknown
  starts depend on `status` alone. `ListsLikeUpcomingIff` says for all parameters when the two list every
  table alike: a given direction that agrees (`ASC`, or `DESC` with another order than by start), or an order
  by price under `free=true` or one exact price, or parameters that cannot select two events.
- The date clauses select overlaps (app/events/repository.py:69-71) exactly if the window is not inverted
  (`OverlapNeedsOrderedWindow`); nothing rejects an inverted one.
- One might expect that the jobs which wait unlocked before a due job only get fewer. They may grow:
  a send rejected before the job came due may be rescheduled in front of it later
  (`UnlockedAheadCanGrow`), and that is the only way (`UnlockedAheadGrowsIff`). `NoOvertaking` therefore
  counts all unfailed jobs ahead, locked or not, and gives each of them one turn.

## Model

| member | source | states |
|---|---|---|
| JobTable.NextDue | app/mailer/repository.py:57-70 | nothing is selected iff nothing is due, and otherwise the due row that precedes every other due row by (next_attempt_at, id) |
| JobTable.FirstExists | app/mailer/repository.py:67-69 | any non-empty set of candidate rows has a first one, so LIMIT 1 is well defined |
| MailerRepository.Enqueue | app/mailer/repository.py:24-48 | a message without a key is refused before anything else; a row is stored iff its links exist and neither key nor link is taken; refusals change nothing; the stored row carries the message, no attempts, no lease, and is due at once |
| MailerRepository.ClaimNext | app/mailer/repository.py:51-91 | no claim iff every row failed, waits for its time or is under a running lease; else the row with the least (next_attempt_at, id) of the others is leased to the new token until now plus the lease, its attempts grow by one, other rows stay, and the claim carries that row's message |
| MailerRepository.Complete | app/mailer/repository.py:94-101 | the row goes iff the claim still holds it; a stale claim changes nothing and returns false |
| MailerRepository.RetryLater | app/mailer/repository.py:104-125 | reschedules and unlocks iff the claim still holds the row, and nobody holds it with this claim afterwards |
| MailerRepository.Fail | app/mailer/repository.py:128-152 | marks the row failed, unlocked and with both bodies erased iff the claim still holds it |
| Worker.ProcessNextEmail | app/mailer/outbox.py:37-110 | a pass touches the first due job alone: a delivery removes it; a rejection fails it for good with erased bodies iff the error is permanent or this was the eighth attempt, and else makes it due again 30 s, 1, 2, 10 min, 1, 2 or 4 h after the failure; an exception or cancellation leaves it leased |
| Worker.PassOutcome | app/mailer/outbox.py:37-132 | the same of the specification of a pass, with its answer: nothing due, raised and stopped iff so |
| Worker.PassIsProtocolRun | app/mailer/outbox.py:37-110 | a pass is a legal run of the concurrent protocol that ends in the same table, and claims iff it finds something due |
| Worker.RunEmailWorker | app/mailer/outbox.py:113-132 | the loop is its passes one after the other up to the first cancelled one, which ends it without a sleep; each pass that found nothing or raised is followed by one sleep, others by none |
| Worker.PassRemovesOne | app/mailer/outbox.py:45-110 | at a frozen clock with a positive lease a pass takes exactly the claimed job out of the due set, whether the send succeeds, is rejected or raises |
| Worker.DueAfter | app/mailer/outbox.py:113-132 | n such passes leave exactly n fewer due jobs, or none |
| Worker.Drains | app/mailer/outbox.py:113-132 | as many passes claim as jobs were due at the start, and every later pass returns False |
| Resend.SendWithRetry | app/mailer/resend.py:95-153 | at most three posts, all identical; another post follows iff fewer than three were made and the last met a transport error, a 500, 502, 503 or 504, one of two 409 codes or the 429 rate limit; a 2xx ends the loop and is the last result; each sleep is the computed delay in [0, 5] s, 10 s in total, under 1.5 s without a 429 |
| Resend.Send | app/mailer/resend.py:47-93 | without an API key nothing is posted and the error is not retryable; otherwise one key and payload for all posts, a normal return iff a 2xx arrived, and an error that carries status and code of the last answer and is retryable iff that answer is in the list above or no answer came |
| Resend.DelayInBounds | app/mailer/resend.py:182-195 | every delay lies between zero and five seconds, whatever the headers say |
| Resend.BackoffInBounds | app/mailer/resend.py:194-195 | unless the answer is a 429 the two possible waits are a quarter and half a second, lengthened by the jitter to less than double |
| Resend.OnlyNumericRetryAfter | app/mailer/resend.py:183-192 | Retry-After is honoured, clamped to [0, 5] s, when it is a number, infinities and nan included; a date form (RFC 9110 section 10.2.3) or its absence leaves the choice to the reset header, and then to the plain backoff |
| OutboxInvariant.Keeps | app/mailer/repository.py:24-152 | each action of requests, workers, clock and crashes keeps the outbox invariant over the table, the claims in flight and the life of every job |
| OutboxInvariant.RunKeeps | app/mailer/outbox.py:37-132 | so does every interleaved run |
| OutboxTheorems.SameKeySameMessage | app/mailer/repository.py:79-91 | in every run all messages handed to the provider under one idempotency key are identical, belong to one job, and equal the message queued under that key |
| OutboxTheorems.ErasedRowsStay | app/mailer/repository.py:60-61 | once a row failed, no action changes it, so erased bodies are never sent; only its token's deletion removes it |
| OutboxTheorems.OneHolder | app/mailer/repository.py:74-78 | of two claims of one job at least one no longer holds the row |
| OutboxTheorems.FinishIsFenced | app/mailer/repository.py:94-152 | a finish reports true and changes the table iff its claim holds the row, and makes the claim stale; else it changes nothing |
| OutboxTheorems.StaleForever | app/mailer/repository.py:94-152 | a claim that lost its row never regains it in any continuation |
| OutboxTheorems.TakeoverWaitsForLease | app/mailer/repository.py:62-77 | a job is claimed a second time only by a worker whose clock sample is past the end of the first lease, although samples may be old, and the first claim becomes stale |
| OutboxTheorems.RowVanishes | app/mailer/outbox.py:101-103 | a row leaves the table only with its token or by the finish of a claim of it whose own message the provider accepted |
| OutboxTheorems.NoJobIsLost | app/mailer/outbox.py:37-110 | every job ever queued is still in the table, or was accepted with the queued message and nothing else, or went with its token |
| OutboxTheorems.EnqueuedIsRecorded | app/mailer/repository.py:35-48 | job ids are queued once: the life of a job starts with the message and time of its only enqueue |
| OutboxTheorems.AttemptAccounting | app/mailer/outbox.py:57-79 | `attempts` equals the committed claims; at most 7 reschedules succeed; the claims past the eighth are exactly those that took over the eighth lease or a later one; sends at most claims; posts at most 24 plus three for each of those |
| OutboxTheorems.PastLimitStep | app/mailer/outbox.py:62-62 | a claim takes a job past MAX_ATTEMPTS iff the row is still locked, so that its lease is lost, and has reached the limit |
| OutboxTheorems.PastLimitIff | app/mailer/outbox.py:62-62 | a job of a run is claimed more than MAX_ATTEMPTS times iff some claim took over the lease of its eighth claim |
| OutboxTheorems.DelayIndexInRange | app/mailer/outbox.py:64-71 | in every run the delay table is read at an index it has, and the next attempt is that delay after the failure |
| OutboxTheorems.RejectionSettles | app/mailer/outbox.py:57-79 | in every run the finish of a rejected send by the row's holder fails the job for good iff the error is permanent or the claim was the eighth or later, and else reschedules it by the schedule with its message intact |
| OutboxTheorems.LostLeasesExceedAnyLimit | app/mailer/outbox.py:62-62 | for every n there is a run in which one job is claimed n times and has not failed |
| OutboxTheorems.ClaimsAreSpaced | app/mailer/repository.py:59-77 | with leases of at least 30 s the i-th and k-th claim of a job are (k - i) times 30 s apart |
| OutboxTheorems.SendRate | app/mailer/repository.py:59-77 | that spacing for every job of every run |
| OutboxTheorems.BackoffSchedule | app/mailer/outbox.py:15-24 | with no lost claim the k-th claim comes at the earliest the first k - 1 delays after the enqueue, and there is no ninth |
| OutboxTheorems.EighthClaim | app/mailer/outbox.py:15-23 | which is 26010 s for the eighth claim |
| OutboxTheorems.AheadShrinks | app/mailer/repository.py:57-70 | while a due job waits, no action adds to the unfailed jobs ordered before it, and a claim takes one of these or the job itself |
| OutboxTheorems.Overtaking | app/mailer/repository.py:57-70 | the claims of a run before the job's own are at most the jobs that were ahead and had no turn yet |
| OutboxTheorems.NoOvertaking | app/mailer/repository.py:57-70 | with no lost lease a due job is claimed within as many claims as jobs are ahead of it, plus one |
| OutboxTheorems.UnlockedAheadGrowsIff | app/mailer/repository.py:104-125 | an unlocked unfailed job joins those before a waiting job iff the holder of a row finishes with a retry due before it |
| OutboxTheorems.UnlockedAheadCanGrow | app/mailer/outbox.py:61-71 | a reachable state and step where that happens, with nothing unlocked ahead before |
| AuthInvariant.ReissueSucceeds | app/auth/repository.py:31-46 | for a fresh token no unique or foreign-key constraint can refuse the new token or its mail, so the IntegrityError path of a reissue is dead |
| AuthInvariant.ServeKeeps | app/auth/service.py:279-506 | every request keeps the schema's constraints and the account rules: unverified users are exactly the owners of confirmation tokens, reset tokens and sessions have verified owners, linked jobs name a live token and go to its owner |
| AuthAnswers.LoginIff | app/auth/service.py:456-476 | signing in succeeds iff a confirmed account has that address and password; an unconfirmed one with both is told so; all else gets one answer and changes nothing |
| AuthAnswers.LoginOpensSession | app/auth/service.py:267-276 | a sign-in adds one session, of the account whose credentials were given, for the drawn token and a lifetime from now |
| AuthAnswers.RefreshRotates | app/auth/service.py:479-498 | a refresh signs in the owner of the session whose token was presented, and only that session changes |
| AuthAnswers.LogoutEndsOne | app/auth/service.py:501-506 | a logout revokes the session of the token at the present time and no other |
| AuthAnswers.PasswordIsStored | app/auth/service.py:425-427 | setting a password replaces the digest, deletes exactly the user's reset tokens and revokes exactly his live sessions |
| AuthAnswers.ResetIffLive | app/auth/service.py:408-428 | a live reset token puts the new password in force for its owner; with none live nothing changes |
| AuthAnswers.ChangeIff | app/auth/service.py:431-453 | a change is accepted iff the account is confirmed, the current password is right and the new one differs; each refusal has its exact condition and changes nothing |
| AuthAnswers.ConfirmVerifies | app/auth/service.py:329-343 | a live confirmation token verifies its owner alone, at the present time |
| AuthAnswers.DeletionIff | app/users/service.py:39-51 | deletion is accepted iff the account is confirmed and the password right; then exactly its user, tokens and sessions are gone |
| AuthAnswers.ReportIsQueued | app/reports/service.py:65-87 | without an address nothing changes; else one unlinked job to it, with the reporter as reply address, due at once |
| AuthAnswers.MailedIff | app/auth/service.py:346-405 | a resend or forgot request issues and mails a token iff the account has the right state and no token younger than the cooldown; else nothing changes |
| AuthAnswers.RegistrationMails | app/auth/service.py:279-326 | a successful registration stores the account as given and mails its first token |
| AuthAnswers.MailedTokenWorks | app/auth/service.py:359-371 | the token in the mail is the stored one: presented at once it is accepted iff its expiry is positive |
| AuthRepositories.GetByEmail | app/users/repository.py:11-13 | the user with that address, or none when nobody has it |
| AuthRepositories.CreateUser | app/users/repository.py:20-51 | one new unverified row under a fresh id with the given profile, the terms version and the time of registration; no other row changes |
| AuthRepositories.DeleteUser | app/users/repository.py:54-56 | the user goes with all tokens and sessions, and with every job linked to one of the tokens |
| AuthRepositories.GetToken | app/auth/repository.py:11-19 | the token with that digest, or none when no row has it |
| AuthRepositories.GetTokenOfUser | app/auth/password_repository.py:22-28 | the user's token, or none when the user has none |
| AuthRepositories.DeleteTokensForUser | app/auth/password_repository.py:49-52 | no token of that purpose is left for the user, and the linked jobs are gone too |
| AuthRepositories.ReplaceToken | app/auth/repository.py:31-46 | the old tokens and their jobs go first; then the new row is refused iff it collides, or is the user's only one under a fresh id |
| AuthRepositories.GetSession | app/auth/session_repository.py:28-36 | the session with that digest, revoked or not, or none |
| AuthRepositories.CreateSession | app/auth/session_repository.py:11-25 | refused without a trace iff the digest exists, else one new unrevoked row |
| AuthRepositories.Rotate | app/auth/session_repository.py:39-48 | refused without a trace iff another session has the digest, else token, expiry and update time of that row change and its revocation does not |
| AuthRepositories.Revoke | app/auth/session_repository.py:51-53 | exactly that row is revoked |
| AuthRepositories.RevokeForUser | app/auth/session_repository.py:56-70 | afterwards all sessions of the user are revoked; earlier revocation times and other users' rows stay |
| AuthRepositories.Restore | app/auth/service.py:322-323 | a rollback returns to the state before the transaction |
| AuthService.IssueToken | app/auth/service.py:359-371 | token and mail are stored together, with one id in link and key, or the database refuses one of them |
| AuthService.Register | app/auth/service.py:279-326 | taken address, missing terms, refused rows with rollback, or a new user with one token and one queued mail |
| AuthService.ConfirmEmail | app/auth/service.py:329-343 | an unknown or expired token changes nothing; else the owner is verified and all his confirmation tokens and mails go |
| AuthService.RequestToken | app/auth/service.py:352-374 | nothing happens inside the cooldown; after it the token is replaced and mailed; for an unused token the reply is the same in both cases |
| AuthService.ResendConfirmation | app/auth/service.py:346-374 | only an existing unverified user outside the cooldown gets a new token, and the reply is the same in every case as long as the drawn token is unused |
| AuthService.ForgotPassword | app/auth/service.py:377-405 | only an existing verified user outside the cooldown gets a reset token, and the reply is the same in every case as long as the drawn token is unused |
| AuthService.SetPassword | app/auth/service.py:449-453 | the new digest is stored for that user alone, no reset token or reset mail is left, every session of the user is revoked, all else unchanged |
| AuthService.ResetPassword | app/auth/service.py:408-428 | an unknown or expired token changes nothing; a live one stores the new digest for its owner |
| AuthService.ChangePassword | app/auth/service.py:431-453 | accepted iff the account is confirmed, the current password right and the new one different, and then the new digest is stored; refused for a wrong current password or a reused one, in that order, with nothing changed |
| AuthService.Login | app/auth/service.py:456-476 | a session is created iff a confirmed account has that address and password; wrong address and wrong password are answered alike, an unverified user is told so only with the right password, and no refusal changes anything |
| AuthService.Refresh | app/auth/service.py:479-498 | unknown, revoked or expired tokens change nothing; else the session rotates to the drawn token |
| AuthService.Logout | app/auth/service.py:501-506 | an unrevoked session is revoked; any other token changes nothing, with the same reply |
| AuthService.DeleteAccount | app/users/service.py:39-51 | accepted iff the account is confirmed and the password right; then the user goes with everything that cascades and nothing of others does; a refusal changes nothing |
| AuthService.SubmitReport | app/reports/service.py:65-87 | refused without an address; else one unlinked job |
| SystemInvariant.RequestShape | app/auth/service.py:188-227 | any request acts on the job table as a cascade followed by at most one enqueue under a key not used before |
| SystemInvariant.RefinesOutbox | app/mailer/models.py:17-34 | those two are legal actions of the outbox protocol and lead to the same table: the join of the two state machines |
| SystemInvariant.RequestKeeps | app/auth/service.py:279-506 | a request keeps the invariant that joins tables, outbox and history |
| SystemInvariant.WorkKeeps | app/mailer/outbox.py:37-110 | so does every action of workers, crashes and the clock |
| SystemInvariant.StepKeeps | app/auth/service.py:279-506 | so does every step of the joined system |
| SystemInvariant.RunKeeps | app/auth/service.py:279-506 | and every run |
| SystemTheorems.ProjectsToOutbox | app/auth/service.py:188-227 | every run of requests and workers is a run of the outbox protocol |
| SystemTheorems.OutboxReachable | app/auth/service.py:188-227 | so every theorem about the outbox holds in the joined system |
| SystemTheorems.TablesAgree | app/auth/service.py:279-343 | in every run addresses and keys are unique, a user is unverified iff he has exactly one confirmation token and verified iff he has none; reset tokens and sessions have verified owners; linked jobs point at live tokens and go to their owners |
| SystemTheorems.OneMailPerUser | app/auth/service.py:346-405 | in every run a user has at most one queued confirmation mail and at most one queued reset mail |
| SystemTheorems.SpentForever | app/auth/session_repository.py:39-70 | a refresh token that no live session accepts is never accepted again |
| SystemTheorems.RefreshIff | app/auth/service.py:479-488 | a refresh succeeds iff the token is the newest of an unrevoked session and the time since its last login or rotation is strictly below the lifetime |
| SystemTheorems.RefreshSpends | app/auth/service.py:490-497 | a successful refresh spends its own token |
| SystemTheorems.RefreshOnce | app/auth/service.py:479-498 | so each refresh token succeeds at most once in any run |
| SystemTheorems.PasswordSetSpends | app/auth/service.py:425-428 | a reset or change of the password spends every refresh token the user was ever given |
| SystemTheorems.PasswordSetRevokes | app/auth/service.py:408-453 | no refresh token given to a user before his password was set succeeds in any continuation |
| SystemTheorems.OthersStaySignedIn | app/auth/session_repository.py:63-70 | the sessions of other users are untouched by that |
| SystemTheorems.RevocationIsFinal | app/auth/session_repository.py:51-70 | a recorded revocation, and the whole row with it, never changes while the row exists |
| SystemTheorems.UseOf | app/auth/service.py:267-276 | presenting the newest token succeeds iff it comes within the lifetime of the last use, and a success becomes the last use |
| SystemTheorems.SurvivesIffGapsBelow | app/auth/service.py:479-498 | in any run that does not revoke a session, with anything in between, its uses all succeed iff every pause between uses is below the lifetime |
| SystemTheorems.ConfirmIff | app/auth/service.py:329-343 | a confirmation token is accepted iff it is the newest mailed to an unverified user and unexpired |
| SystemTheorems.ResetIff | app/auth/service.py:408-428 | a reset token is accepted iff it is the newest mailed to a user since his password last changed, and unexpired |
| SystemTheorems.UsedUpForever | app/auth/repository.py:31-52 | a mailed token that is in no table, or only in an expired row, stays unusable in every continuation |
| SystemTheorems.AcceptedOnce | app/auth/service.py:329-428 | each confirmation or reset token is accepted at most once in any run |
| SystemTheorems.MailsPerWindow | app/auth/service.py:353-356 | mails of one purpose to one user are a cooldown apart, so a window of length T holds at most 1 + T div cooldown of them; for resets, between two password changes |
| SystemTheorems.OneMailPerToken | app/auth/service.py:314-321 | a token is issued iff its mail is queued in the same transaction, to its owner, under the token's key and due at once |
| AuthTheorems.UniformReply | app/auth/service.py:346-405 | in every run both mail requests answer alike whether the address has an account or not, verified or not, inside the cooldown or not |
| AuthTheorems.DuplicateIffTaken | app/auth/service.py:279-326 | in every run a registration reports a duplicate iff the address is taken, and succeeds iff it is free and terms are published |
| AuthTheorems.NoServerError | app/auth/service.py:279-506 | in no run does a constraint refuse what a request writes |
| AuthTheorems.SupersededIsUsedUp | app/auth/service.py:358-364 | a mailed token that is not its user's newest, or was mailed before the password changed, is unusable |
| AuthTheorems.SupersededForever | app/auth/service.py:329-428 | and refused in every continuation |
| AuthTheorems.LogoutSpends | app/auth/service.py:501-506 | logging out with the current token of a session spends every token that the session ever gave out |
| AuthTheorems.DeletionSpends | app/users/service.py:39-51 | deleting an account spends every refresh token its owner was ever given |
| AuthTheorems.EndedForGood | app/auth/service.py:479-506 | after either, none of those tokens succeeds in any continuation |
| PasswordTheorems.PasswordInForce | app/auth/service.py:425-450 | in every run a user's digest is that of the password last given at registration, reset or change |
| PasswordTheorems.SignsInIffLastPassword | app/auth/service.py:456-476 | after every run a login succeeds iff the address is a confirmed user's and the password the one last given to him |
| PasswordTheorems.JobsGoWithTokens | app/mailer/models.py:17-34 | a request takes away exactly the queued jobs whose token it deletes and leaves all other rows as they are |
| PasswordTheorems.MailsApart | app/auth/service.py:353-388 | any two mails of one purpose to one user, for resets with no change of password between, are the configured cooldown apart |
| LocalTime.DenotesLatest | app/core/time.py:13-23 | a naive time that the wall clock shows denotes the latest instant showing it |
| LocalTime.GapUsesEarlierOffset | app/core/time.py:16-23 | a skipped time takes the offset before the gap and so lands past it by the width of the gap |
| LocalTime.RoundTrip | app/core/time.py:13-24 | wall times are shown or skipped, never both, and exactly the shown ones survive conversion and back |
| LocalTime.StrictlyIncreasing | app/core/time.py:13-23 | on shown times the denoted instant is strictly increasing |
| EventQuery.NormalisedReading | app/events/schemas.py:85-89 | aware query dates become the Lithuanian reading of their instant and naive ones keep theirs; the result is the reading at the denoted instant iff the date is aware or not in a gap |
| EventQuery.DefaultDirection | app/events/schemas.py:81-83 | without a given direction a listing ascends iff status=upcoming |
| EventQuery.RejectsTheImpossible | app/events/schemas.py:66-135 | the validator rejects exactly the combinations that no state and price of an event could meet; pages start at 1 and hold 1 to 100 events |
| LocalTime.DateRises | app/events/repository.py:35-37 | the local date never goes back, although the local clock does |
| EventQuery.BuildFilters | app/events/repository.py:47-109 | the list of clauses is the contributions of the parameters in order, empty texts and lists counting as absent |
| EventQuery.AddTextTimeAndPrice | app/events/repository.py:89-109 | the second half of that list, from the search text on |
| EventQuery.PastIsTwoValued | app/events/repository.py:33-44 | `past` is never NULL and means that the end instant was reached or, without an end, that the start day is over |
| EventQuery.FreeIsTwoValued | app/events/models.py:68-92 | the SQL flag is never NULL, and differs from the Python flag exactly on free rows with an empty ticket text |
| EventQuery.LocationIsNear | app/events/repository.py:59-67 | the location clause holds iff some name occurs in the city or the address, NULL columns notwithstanding |
| EventQuery.ClausesMeanWanted | app/events/repository.py:47-109 | under three-valued logic the WHERE clause keeps exactly the rows that the parameters ask for in two-valued terms |
| EventTheorems.PastIsPermanent | app/events/repository.py:33-44 | an event that is past at some instant is past at every later one |
| EventTheorems.PastMeetsEffectiveEnd | app/events/repository.py:38-44 | with a start and no end, past holds iff the date filter's effective end is at or before the local clock |
| EventTheorems.PastMeans | app/events/repository.py:33-44 | past means that the end instant is reached, or without an end that the start's calendar day is before today's; with neither the event is never past |
| EventTheorems.EndDateIsInclusive | app/events/repository.py:85-87 | an end date admits a known start iff its calendar day is no later |
| EventTheorems.EffectiveEndMeans | app/events/repository.py:73-76 | the effective end is the recorded end, or else the first midnight after the start |
| EventTheorems.UnknownStartPasses | app/events/repository.py:69-87 | an unknown start passes every pair of date bounds |
| EventTheorems.WindowOverlap | app/events/repository.py:69-87 | a known start passes both date clauses iff the event starts or is going on at some moment from the start date up to the midnight that ends the end date's day, with null and inverted ends included |
| EventTheorems.OverlapNeedsOrderedWindow | app/events/repository.py:69-87 | that reading holds of all events iff the window is not inverted |
| EventTheorems.UnknownPriceAndBounds | app/events/repository.py:96-102 | an unrecorded price passes every upper bound, and a lower bound iff it is zero |
| EventTheorems.KnownPriceAndBounds | app/events/repository.py:98-102 | a recorded price passes both bounds iff it lies between them |
| EventTheorems.FreeMeans | app/events/models.py:68-92 | the exact rows that the database and Python call free |
| EventTheorems.EmptyParametersSelectAll | app/events/repository.py:56-107 | empty texts and lists, and flags that are off, select as if they were not given |
| EventTheorems.TotalsAddUp | app/events/repository.py:92-94 | under any other fixed filters the past and the upcoming total add up to the unfiltered total |
| EventTheorems.HideExpiredIsUpcoming | app/events/repository.py:92-94 | hideExpired=true selects the same events as status=upcoming |
| EventTheorems.FreeListsTheFlagged | app/events/repository.py:104-107 | free=true returns exactly the rows flagged free iff no flagged row carries an empty ticket text |
| EventOrdering.ApplyOrdering | app/events/repository.py:112-150 | the ORDER BY terms of every combination, always ending with the id |
| EventOrdering.StrictTotalOrder | app/events/repository.py:112-150 | every combination of parameters is a strict total order on events with different ids |
| EventOrdering.StartTimeAscending | app/events/repository.py:115-132 | startTime ASC is regular dated events, then long ones, then unknown starts; dated blocks by (start, id), the last by id |
| EventOrdering.StartTimeDescending | app/events/repository.py:126-132 | startTime DESC is latest first, then by id, unknown starts leading without a status and trailing with one |
| EventOrdering.PopularityOrder | app/events/repository.py:126-132 | by popularity in the given direction, then by id |
| EventOrdering.SameOrderAsUpcoming | app/events/schemas.py:81-83 | the order relations without a status and with status=upcoming agree on all pairs of events iff ASC is given, or DESC with another order than by start |
| EventOrdering.PriceOrder | app/events/repository.py:134-150 | order by price is, both ways, the order by (free group, unknown price, price in the given direction, id), the free group being last iff a bound is set or the order descends |
| EventOrdering.PriceGroups | app/events/repository.py:134-150 | hence free events sink or rise together, unknown prices trail the known ones, and prices run in the given direction |
| Paging.Listing | app/events/repository.py:166-167 | the matches, each once, in the order of the terms |
| Paging.ListingIsUnique | app/events/repository.py:166-167 | there is only one such listing, so the database has no choice |
| Paging.PagesArePrefix | app/events/schemas.py:137-139 | the first n pages are the first n times page-size rows: nothing repeated or skipped |
| Paging.PagesMakeTheListing | app/events/repository.py:153-169 | for all filters the pages 1 to total / size rounded up hold exactly the wanted events, sorted, each once, and `total` counts them |
| Paging.StartTimeBlocks | app/events/repository.py:115-132 | a sorted startTime ASC listing is the concatenation of the three blocks, each in its own order |
| HideExpired.ListsAlike | app/events/schemas.py:54-56 | for all filters and tables, under the condition of the next row the listings of hideExpired=true and status=upcoming are equal |
| HideExpired.ListsLikeUpcomingIff | app/events/schemas.py:54-56 | they are equal on every table iff the given direction agrees, or all selected prices tie in a price order (only free events, or one exact price), or the parameters cannot select two events |
| HideExpired.PlainListingsAgreeIff | app/events/schemas.py:81-83 | without price filters and id restriction only the direction decides |
| HideExpired.ZeroBoundListsAlike | app/events/repository.py:101-102 | where no recorded price is negative, priceTo=0 makes all prices tie too |

## Left out

- Races between two whole requests under READ COMMITTED: a request is one step, so locking reads (`with_for_update`) have nothing to protect against here.
- Cancellation inside a transaction or during a sleep: the first rolls back or commits as a whole and the second ends the loop between passes, so both are stretches that `RunEmailWorker` covers by their length.
- GetToken, GetTokenOfUser, DeleteTokensForUser, ReplaceToken: the two token repositories are one text over two tables and are modelled once, with the table as a parameter.
- BuildFilters: is split in two methods at the search text; the source is one function.
- Database: `created_at` and `updated_at` of users, jobs and events are not columns of the model; nothing here reads them.
- HTTP transport, JSON error bodies and logging of the provider adapter: a response is its status, error code and two headers.
- Text and HTML of mails, locales, escaping and `_token_url`: string templates; the subject is the English one.
- JWT access tokens, `get_current_user` beyond its test that the user exists and is verified, and `parse_duration`: durations are non-negative numbers of the settings.
- Lookup of the published terms: its result is a parameter of `Register`.
- Updates of marketing consents, favourites, legal pages and the popularity counter: single-row updates with no rule that spans rows.
- `_price_as_string`, `split_comma_separated` and `accept_loose_booleans`: they change the notation of single values.
- Routers, error envelopes, response building, settings loading, engine set-up and migrations.

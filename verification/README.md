# The backend's state machines, verified

The backend keeps its state in database rows and moves it through short
transactions. This project models those tables as maps and each committed
transaction as one step, and proves what every run of the steps keeps.
`dafny verify dfyconfig.toml` checks all of it.

**Sessions** (`Session*.dfy`). A refresh token that was rotated and is sent again is rotated
again. The unused sessions it produced are linked in a ring; the first one used
supersedes the others. `SessionRows` holds the transactions, `SessionLedger` what the
protocol promises without pointers (a ghost tree of who was rotated into what, and how
each contest stands), `SessionSteps` that each transaction keeps rows and ledger in
agreement, `SessionRuns` and `SessionLineage` what follows for every run,
`SessionLinks`, `SessionKin` and `SessionLocks` the interleaving of the lock loop,
`SessionAnswers` which answer each request gets and what it leaves in the rows, and
`SessionStore` the same transactions as methods that update the table in place.

**Push jobs** (`Push*.dfy`, `Presend`, `Breaker`, `SyncTriggers`). `PushRounds` is one delivery round, `PushRuns` the
job table under every transaction that files, moves, sends or settles jobs, `PushAnswers` what each of them leaves of a
job, `PushHistory` and `PushGuard` what holds over whole runs, `PushIdle` and `PushUnpaced` runs that go wrong,
`PushTick` the draining tick among arbitrary other transactions, `Breaker` the side-by-side pre-send checks of a tick,
`SyncTriggers` the racing writers of sync triggers.

**Reminders** (`PeriodRuns`, `Timetable`, `ClassMeetings`, `ReminderScan`, `ClassScan`). From a course's
schedule to class starts, the school's changes to them, the send-time
recheck, and the scan that brings the job table in line.

**Smaller cores** (`BulletinFanout`, `Purge`, `BulletinFeed`, `RateLimiter`). Each is a
stateful loop proved against a simple specification.

Times are integers (seconds). Where a transaction reads the clock, the model takes any reading; in the push
pipeline a turn's readings rise and are no earlier than its job's claim, which is what its timing promises rest
on. A turn's pacing query may see an older table than the one it commits to. Provider and Moodle answers, other
transactions and crashes are parameters that range over everything.

Some statements about the code do not hold as its own text puts them. Each has a run or an input that
shows it and the exact condition under which it does hold:

- A delivery due no later than its job: `/schedule/sync` moves a waiting start without a look at its deliveries
  (server/routes/schedule_v3.py:85-88), so a round can try nothing, which the pipeline's comment puts down to clock
  skew (server/push/pipeline.py:1216-1219). `PushIdle` has the runs, `PushRuns.StepOnTimeIff` the condition.
- Sends of a user's sync triggers `MIN_GAP` apart (server/push/pipeline.py:649-650): the query counts only sends that
  are recorded when it reads, of jobs in an active status. "A job with a sent delivery has one of these statuses"
  (server/push/pipeline.py:1031-1033), but a trigger that fails or is cleared from the portal after a partial send has
  none of them; and a turn of another tick may still be sending. `PushUnpaced.FailedTriggerIsForgotten` and
  `PushUnpaced.OverlappingTurnsAreClose` are such runs, `PushGuard.PacedIffNoneForgotten` the condition.
- "A trigger `MIN_GAP` after the last" (server/push/sync_trigger.py:35-39): a writer that read before another trigger
  failed or was forced can file inside the gap. `SyncTriggers.FailureCanBreakTheGap` and `ForceCanBreakTheGap` are
  the runs, `SyncTriggers.FiledLeadsIff` the condition.
- "An outage still costs one call" (server/push/pipeline.py:233-234): a check cancelled while its call is under way
  leaves the breaker shut. `Breaker.OutageAfterYield` is such a run, `Breaker.OutageCostsOneCall` the condition.
- A class starting at midnight is filed by the scan and refused by the recheck, whose window is open at midnight:
  `ClassMeetings.AllAcceptedIff`.

## Model

| member | source | states |
|---|---|---|
| `SessionLineage.ReachableLineages` | server/auth/service.py:239-452 | In every reachable state the used sessions of a sign-in form one path from its root (any two are comparable and every ancestor of a used one is used), at most one live session is used, and the live sessions are that path's end alone, the unused root alone, or exactly the newest 16 (or all, if fewer) of the unused children of the one token whose contest is open. |
| `SessionLineage.LiveSessionsOfLineage` | server/auth/service.py:466-599 | What the live sessions of one lineage are, derived from the row invariant alone. |
| `SessionLineage.OnePath` | server/auth/dependencies.py:71-86 | Of any two used sessions of a lineage, one is an ancestor of the other. |
| `SessionLineage.RunKeeps` | server/auth/service.py:239-611 | Rows and ledger agree after every run of sign-ins, refreshes, requests, sign-outs, device and account removals and purges; ids of different lineages may commit in any order. |
| `SessionLineage.RunGrows` | server/auth/service.py:558-599 | Over a run nothing recorded is taken back: used stays used, superseded stays superseded, a decided contest stays decided. |
| `SessionLineage.RefusedOnceUsed` | server/auth/service.py:359-452 | Once a child of a token has been used, presenting that token is refused in every later state, at any time. |
| `SessionLineage.SupersededForGood` | server/auth/service.py:466-599 | A session is superseded only because a sibling was used or at least 16 younger siblings joined, and afterwards it is never accepted, rotated or given a child. |
| `SessionLineage.RingsInReachableStates` | server/auth/service.py:485-536 | A live session that points at another stands in a closed ring of 2 to 16 live unused siblings in increasing id order, the walk from it returns exactly that ring, and the rotated token points at the newest. |
| `SessionRuns.StepKeeps` | server/auth/service.py:239-611 | Each committed transaction keeps the invariant, whatever the clock reads. |
| `SessionRuns.RefreshDecides` | server/auth/service.py:239-302 | A refresh is let through exactly when the user is active, the token unexpired, and the session live or its contest still open. |
| `SessionRuns.RefreshKeeps` | server/auth/service.py:239-452 | Every branch of a refresh keeps the invariant. |
| `SessionAnswers.IssuedSession` | server/auth/service.py:303-343 | A session a refresh issues is new, live, unused, of its token's user and device, and expires the time to live from now; issued for a live token it points at none; the token ends revoked as rotated, pointing at it, its first use on record. |
| `SessionAnswers.IssuedLasts` | server/auth/service.py:239-302 | Presented by an active user right after, the issued session is rotated if and only if the time to live is not over. |
| `SessionAnswers.SignedInLasts` | server/auth/service.py:185-197 | A sign-in adds one live, unused session of its user and device; it is rotated if and only if the time to live is not over, and accepted for requests. |
| `SessionAnswers.RefusalSays` | server/auth/service.py:239-302 | Which refusal a refresh gets: invalid exactly for an unknown token, expired exactly for one that could be rotated but for the time, revoked exactly for an inactive user or a token neither live nor in an open contest. |
| `SessionAnswers.ReuseIsMarked` | server/auth/service.py:359-432 | A reuse is marked exactly when the token was replaced, its contest is not open and the grace has passed. |
| `SessionAnswers.UseDecides` | server/auth/dependencies.py:71-86 | A request is let through if and only if the session is there, live and its user active; a refusal changes nothing, an acceptance leaves the first use on record and an earlier one as it was. |
| `SessionAnswers.SignedOut` | server/auth/service.py:602-611 | After a sign-out the session is revoked, no request with it is let through and, if it was live, no refresh; no other row changes. |
| `SessionAnswers.DeviceRevoked` | server/routes/user_devices.py:541-562 | Removing a device leaves it no live session, so no request from it is let through, and changes no other session. |
| `SessionAnswers.DeviceDetached` | server/auth/models/device.py:161-165 | Deleting a device row leaves no session on it and changes nothing else. |
| `SessionAnswers.UserRemoved` | server/auth/models/device.py:158-160 | Deleting an account leaves exactly the other users' sessions, and no request with one of its own is let through. |
| `SessionSteps.UseKeeps` | server/auth/dependencies.py:115-160 | Recording a first use settles the contest: the rivals are superseded and the ring is gone. |
| `SessionSteps.RotateKeeps` | server/auth/service.py:303-343 | A first rotation counts as the token's use and opens a contest of one. |
| `SessionSteps.RotateAgainKeeps` | server/auth/service.py:466-514 | Rotating a token again links the new session into the ring and keeps it closed and at most 16 long. |
| `SessionSteps.JoinRing` | server/auth/service.py:485-492 | Joining after the newest member leaves a ring of one more. |
| `SessionSteps.TrimRing` | server/auth/service.py:493-501 | Cutting off the oldest leaves the ring of the newest 16, closed. |
| `SessionSteps.SettleRing` | server/auth/service.py:558-599 | Settling for a member supersedes exactly the other members and unlinks the winner. |
| `SessionSteps.ExpireKeeps` | server/auth/service.py:286-298 | Refusing an expired session that stands alone ends its contest and breaks no ring. |
| `SessionSteps.LogOutKeeps` | server/auth/service.py:602-611 | Signing out a session whose use is recorded keeps the invariant. |
| `SessionSteps.RevokeDeviceKeeps` | server/routes/user_devices.py:541-562 | Revoking all live sessions of a device ends its contests whole. |
| `SessionSteps.DetachDeviceKeeps` | server/auth/models/device.py:161-165 | Deleting a device row detaches its sessions and breaks no ring. |
| `SessionSteps.DeleteUserKeeps` | server/auth/models/device.py:158-160 | Deleting an account takes its sessions, ring by ring. |
| `SessionSteps.PruneKeeps` | server/auth/retention.py:34-45 | Deleting any rows the retention filter lets go leaves every ring of live sessions as it was. |
| `SessionSteps.SignInKeeps` | server/auth/service.py:185-197 | A new sign-in starts a lineage of its own. |
| `SessionLedger.LinkedIsRing` | server/auth/service.py:517-536 | From any member of a closed ring the walk returns exactly the ring. |
| `SessionLinks.StepLinks` | server/auth/service.py:466-514 | Links always lead to rows that are there. |
| `SessionLinks.StepGrowsLinks` | server/auth/service.py:539-555 | A committed transaction adds to the sessions linked to a row at most the one it creates. |
| `SessionKin.StepStaysHome` | server/auth/service.py:485-501 | A session is only ever linked to sessions that descend from the same sign-in. |
| `SessionLinks.RefreshWrites` | server/auth/service.py:539-555 | A refresh writes only its own row, the sessions linked to it and new ones. |
| `SessionLinks.UseWrites` | server/auth/dependencies.py:115-160 | A first use writes only the sessions linked to its own. |
| `SessionLocks.SysRunKeeps` | server/auth/service.py:539-555 | The lock protocol keeps its invariant over every interleaving of refreshes, first uses, id draws and other transactions; ids commit in any order. |
| `SessionLocks.DrawnApart` | server/auth/service.py:303-343 | Two refreshes that hold their locks and would both issue a session are of different lineages, so ids within a lineage are in order. |
| `SessionLocks.CommitNumbers` | server/auth/service.py:466-514 | A committed rotation's id, drawn at any time after its locks, is above every id of its lineage. |
| `SessionLocks.LocksGoUp` | server/auth/service.py:539-555 | Every id a later read finds to lock exceeds every id the transaction holds. |
| `SessionLocks.FirstUseLocksOldest` | server/auth/dependencies.py:124-137 | A first use that has locked its own row and then finds a ring holds the oldest member of it. |
| `SessionLocks.NoDeadlock` | server/auth/service.py:539-555 | No set of refreshes and first uses waits only on locks held within the set. |
| `SessionLocks.CommitWritesHeld` | server/auth/dependencies.py:146-160 | A commit changes no row that another transaction has locked. |
| `SessionStore.AuthSessions.constructor` | server/auth/models/device.py:151-165 | An empty table agrees with the empty ledger. |
| `SessionStore.AuthSessions.LinkedIds` | server/auth/service.py:517-536 | The loop returns the sessions reachable over live links. |
| `SessionStore.AuthSessions.SupersedeAll` | server/auth/service.py:580-599 | The rows named, and only those still live, end up superseded. |
| `SessionStore.AuthSessions.SettleContest` | server/auth/service.py:558-575 | The table after settling, as the transaction specifies it. |
| `SessionStore.AuthSessions.RotateSession` | server/auth/service.py:303-343 | The table after a rotation: the token is revoked as rotated, points at the new session and has a first use on record; the new session is live, unused, points at none, is of the token's user and device and lasts the time to live from now. |
| `SessionStore.AuthSessions.JoinAfter` | server/auth/service.py:485-492 | The new session linked in after the newest. |
| `SessionStore.AuthSessions.DropOldest` | server/auth/service.py:493-501 | The oldest members cut off until 16 are left. |
| `SessionStore.AuthSessions.RotateTokenAgain` | server/auth/service.py:466-514 | The table after a repeated rotation. |
| `SessionStore.AuthSessions.HandleRevokedReuse` | server/auth/service.py:359-432 | The answer and the table when a revoked token is presented. |
| `SessionStore.AuthSessions.RefreshToken` | server/auth/service.py:239-302 | A whole refresh does what the transaction specifies, moves the ledger with it and keeps the invariant whatever the answer; an issued session is new, live, unused, of the token's user and device, and expires the time to live from now. |
| `SessionStore.AuthSessions.RequireUser` | server/auth/dependencies.py:42-91 | Over the table before: a request is accepted exactly for a live session of an active user; a refusal changes nothing; an acceptance leaves a first use on record, the earlier one if there was one; the invariant is kept. |
| `SessionStore.AuthSessions.Logout` | server/auth/service.py:602-611 | After the sign-out of a used session its row is revoked, every other row is as it was, and the invariant is kept. |
| `PushRounds.RoundSettlesOrCounts` | server/push/pipeline.py:1182-1263 | A round settles the job with exactly the status its outcomes dictate, or counts one attempt below the limit, or is idle (tries nothing though deliveries are pending) on the last attempt and counts none. |
| `PushRounds.TimelyRound` | server/push/pipeline.py:1203-1223 | When all pending deliveries are due a round tries each, is not idle, and leaves none to come due after the job. |
| `PushRounds.FinishedUntouched` | server/push/pipeline.py:1203-1210 | A delivery no longer pending is left as it is by every round. |
| `PushRounds.VerdictFits` | server/push/pipeline.py:1222-1263 | The settled status against the counts of sent and failed deliveries, in both directions. |
| `PushRounds.RoundAnswers` | server/push/pipeline.py:1266-1401 | A delivery tried ends delivered if and only if its reply was accepted, at that time; skipped if and only if it could not be sent; lost if and only if the token is unregistered, or the failure is transient with its attempts used up or the round the last; else it waits one delay. Its attempts rise by one unless it could not be sent. One not tried stays as it was, or is given up with the last round. |
| `PushRounds.RoundSays` | server/push/pipeline.py:1222-1263 | The job after a round by what its deliveries came to, with the reason of a failure; its claim is over; put back, it waits one delay and counts the attempt. |
| `PushRounds.SendDue` | server/push/pipeline.py:1203-1210 | The sending loop is the sweep over all due deliveries, whose outcome by reply `RoundAnswers` states, and counts them. |
| `PushRounds.DeliverRound` | server/push/pipeline.py:1182-1263 | Each delivery tried ends as its provider's reply says; the job ends sent exactly when something was delivered, nothing lost and nothing waits, and failed exactly when nothing was delivered and nothing waits. |
| `Presend.SendIsClear` | server/push/presend.py:166-177 | The guard rules to send exactly when the check said so and the rows, read again under the lock, are clear within the grace. |
| `PushAnswers.SendMeans` | server/push/presend.py:281-341 | The ruling is to send if and only if the check said so, the assignment is neither submitted, marked, ignored nor gone, its due time is one a row has and lies ahead, and the grace is not over. |
| `PushAnswers.HeldBackSays` | server/push/pipeline.py:895-949 | A job held back is cancelled, with its reason, unless it is unverified within the grace; then it waits the retry interval. No attempt is spent and its claim is over. |
| `PushAnswers.RecoveredSays` | server/push/pipeline.py:250-285 | A stale claim costs one attempt, fails the job if and only if that was the last, and else waits the delay doubled once per attempt before. |
| `PushAnswers.CrashedSays` | server/push/pipeline.py:425-446 | A crash costs one attempt, fails the job if and only if that was the last, and else waits one delay. |
| `PushAnswers.TurnLetsGo` | server/push/pipeline.py:387-411 | A turn changes only a job its worker holds, and lets go of it whatever it does. |
| `PushAnswers.TurnPutsOff` | server/push/pipeline.py:646-661 | A turn that does not deliver spends no attempt: a paced trigger waits 20 minutes from the last send, a countdown one minute, a job unchecked when its check was due goes back as it was. |
| `PushAnswers.ReschedulesSay` | server/routes/schedule_v3.py:71-89 | A posted time moves a waiting start to a time ahead, cancels it for one that is past, and touches no other job. |
| `PushRuns.StepKeeps` | server/push/pipeline.py:375-446 | Every transaction on the job table keeps attempts below the limits, one delivery a token, and settled statuses right. |
| `PushRuns.RescheduleOnTimeIff` | server/routes/schedule_v3.py:71-89 | A waiting start posted for another time keeps its pending deliveries due no later than it exactly when none is to be retried after the posted time. |
| `PushRuns.StepOnTimeIff` | server/push/pipeline.py:250-446 | A transaction keeps every pending delivery due no later than its job if and only if it is not a start posted for before a retry. |
| `PushRuns.TurnKeeps` | server/push/pipeline.py:895-949 | One job's turn, held back, put off, settled or delivered, keeps them and ends the claim. |
| `PushRuns.RoundTriesAll` | server/push/pipeline.py:1203-1223 | While deliveries are on time each round tries every pending one. |
| `PushRuns.AfterKeeps` | server/push/pipeline.py:250-285 | The same job by job for stale recovery, crash handling, release, cancellation, rescheduling, the end-job upsert and the skipping of a synced device. |
| `PushHistory.RunKeeps` | server/push/pipeline.py:250-446 | The table is in order in every reachable state. |
| `PushHistory.RunOnTime` | server/routes/schedule_v3.py:85-88 | And every pending delivery comes due no later than its job, in every run whose posted schedules move no start to before a retry. |
| `PushHistory.NoRoundIsIdle` | server/push/pipeline.py:1214-1226 | In such a run every round tries every pending delivery; the branch that tries nothing is not reached. |
| `PushHistory.OneActPerClaim` | server/push/pipeline.py:387-411 | Between two transactions that act on a claimed job lies a claim of it, even with two ticks under one worker id; a device's own sync, which only skips deliveries, aside. |
| `PushHistory.SettledForGood` | server/push/submission_cancel.py:317-350 | A settled job's status, attempts, times and error and its deliveries are never changed again, and its status still fits them. |
| `PushHistory.DeliveredStays` | server/push/pipeline.py:1266-1401 | A delivery recorded as sent stays so. |
| `PushHistory.DeliveredWasAccepted` | server/push/pipeline.py:1357-1376 | In every run, a delivery recorded sent has an earlier transaction that tried it and got an accepted reply, at the recorded time. |
| `PushHistory.SentIsNeverSentAgain` | server/push/pipeline.py:1203-1210 | It is among the tokens of no later turn, committed or cut off after any number of deliveries. |
| `PushHistory.RoundsAreBounded` | server/push/pipeline.py:1212-1243 | In any run a job has at most max_attempts committed rounds that are not idle, however ticks, recovery and crashes interleave. |
| `PushIdle.EarlyPostBurnsAttempt` | server/routes/schedule_v3.py:85-88 | A run in which a start is posted for before its retry, claimed, tries nothing and loses an attempt. |
| `PushIdle.EarlyPostIdles` | server/push/pipeline.py:1214-1226 | Posted so once more it takes the branch that tries nothing, with job attempts and delivery as they were. |
| `PushGuard.FirstDeliveryIsCleared` | server/push/pipeline.py:400-411 | A guarded job has a delivery only if an earlier transaction created it on a send verdict, with no row submitted or marked, a live row due at the filed future time, inside the grace. |
| `PushGuard.LostDeliveryIsCleared` | server/push/pipeline.py:400-411 | Nor does a turn that is rolled back after sending start without such a verdict and such rows. |
| `PushGuard.DeferralsFitTheGrace` | server/push/pipeline.py:895-949 | Since a job was filed or last moved, its unverified deferrals number at most the grace over the retry interval, plus one. |
| `PushGuard.WaitsOnce` | server/push/pipeline.py:728-750 | A reminder waits for its countdown at most once. |
| `PushGuard.WaitMoves` | server/push/pipeline.py:728-750 | The wait spends no attempt and resumes inside the grace. |
| `PushGuard.RoundIsPacedIff` | server/push/pipeline.py:646-661 | A round of an unforced trigger keeps 20 minutes from every recorded send of the user's others if and only if it does from those its query did not count: of triggers failed or cancelled by then, or recorded only after it read. |
| `PushGuard.StepIsPacedIff` | server/push/pipeline.py:1019-1039 | A transaction breaks the pacing exactly when a trigger reaches a device within the gap of a send its query did not count. |
| `PushGuard.PacedIffNoneForgotten` | server/push/pipeline.py:1019-1039 | Over any run, whatever fails, is cancelled or overlaps, recorded sends of two different unforced triggers of a user are at least 20 minutes apart if and only if no transaction did that. |
| `PushGuard.TriggersArePaced` | server/push/pipeline.py:1019-1039 | In particular while no send of another trigger is recorded between a turn's read and its commit and every trigger that reached a device stays waiting, going out or sent. |
| `PushUnpaced.FailedTriggerIsForgotten` | server/push/pipeline.py:425-446 | A run in which a trigger reaches a device, crashes out of attempts, and the next one is sent two minutes after it. |
| `PushUnpaced.OverlappingTurnsAreClose` | server/push/pipeline.py:1019-1039 | A run with nothing failed or cancelled in which two overlapping turns of one user's triggers send five seconds apart. |
| `PushTick.TakeForemost` | server/push/pipeline.py:303-329 | A claim takes the foremost due jobs by priority and fire time, in order, up to the batch size, and all of them when fewer. |
| `PushTick.ClaimDue` | server/push/pipeline.py:303-329 | A claim takes only pending jobs whose fire time and wait are past, not handled and not locked; in order of urgency; up to the batch size; and leaves out such a job only with the batch full of jobs as urgent. It is a transaction of the machine. |
| `PushTick.RecoverStale` | server/push/pipeline.py:250-285 | The loop fails or puts back exactly the stale claims not locked by others, leaves none of them stale, and is a transaction of the machine. |
| `PushTick.HandedBackUntouched` | server/push/pipeline.py:356-372 | A job claimed and released is as it was before the claim: attempts, times and deliveries. |
| `PushTick.RunBatch` | server/push/pipeline.py:172-217 | A claimed batch gives at least one job its turn, each next one only after a look that finds no more urgent job due, and hands the rest back, as a release, only for such a job; every job of it gets its turn or is handed back. |
| `PushTick.RunTick` | server/push/pipeline.py:172-217 | A tick over finitely many jobs ends. Its statements are a recovery of stale claims, then claims, looks, turns and hand-backs, each applied to the table as others left it. It handles each job at most once, each with no strictly more urgent due, unlocked, unhandled job in the table it last saw; it leaves nothing it claimed without a turn or a hand-back; and it stops only when no job is due but handled or locked ones. |
| `Breaker.RunKeeps` | server/push/pipeline.py:220-247 | The checks of a tick keep the turn-taking invariant over all interleavings, cancellations and batches. |
| `Breaker.FailuresAreBounded` | server/push/presend.py:84-98 | At most four calls of a tick end in a failure for everyone. |
| `Breaker.CallsAreAccountedFor` | server/push/presend.py:343-406 | Every call made is under way, failed for everyone, was answered or was cut off. |
| `Breaker.TrippedAsksNoMore` | server/push/presend.py:84-98 | Once a call has failed for everyone, no check that has not passed the breaker asks Moodle. |
| `Breaker.OutageCostsOneCall` | server/push/presend.py:84-98 | While Moodle has answered nobody, at most one call is under way or has failed, and there has been at most one call if and only if none was cut off, or one was and it is the only one. |
| `Breaker.OutageAfterYield` | server/push/pipeline.py:213-216 | A run in which a check is cancelled during its call and an outage then costs a second one. |
| `SyncTriggers.RacingWritersKeepTheGap` | server/push/sync_trigger.py:42-75 | However writers race, while no trigger fails or is forced, each new trigger fires at least 20 minutes after all before it and any two are that far apart. |
| `SyncTriggers.FiledLeadsIff` | server/push/sync_trigger.py:52-67 | Whatever failed or was forced before, a filing is the gap after every active unforced trigger if and only if it is so for those, other than the one it follows, that no active trigger follows. |
| `SyncTriggers.ReachableIsSound` | server/push/sync_trigger.py:52-67 | Whatever fails, each trigger keeps the gap from the one it follows and no two active ones follow the same. |
| `SyncTriggers.FailureCanBreakTheGap` | server/push/sync_trigger.py:52-67 | A run with a failed trigger in which two active ones are closer than the gap. |
| `SyncTriggers.ForceCanBreakTheGap` | portal/app/routes/moodle/push.py:137-143 | A run with nothing failed and one forced trigger in which two active unforced ones are closer than the gap. |
| `SyncTriggers.FiledApart` | server/push/sync_trigger.py:63 | A filed trigger keeps the gap from every active one exactly when none of them fires after the one it follows, or those that do are already the gap old. |
| `SyncTriggers.Enqueue` | server/push/sync_trigger.py:29-110 | The retry loop makes at most one of the moves above, whatever happens between its statements; a filed trigger fires at once or 20 minutes after the one it follows, whichever is later; alone, it rides on the latest trigger exactly when that waits, and else files one 20 minutes after every active one, never giving up. |
| `SyncTriggers.ReadLatest` | server/push/sync_trigger.py:42-48 | The latest active trigger by fire time and id. |
| `SyncTriggers.LeftOutByAll` | server/push/sync_trigger.py:87-110 | In every run, a trigger leaves a device out if and only if each of those who filed it or rode on it named that device. |
| `PeriodRuns.TogetherIffUnbroken` | server/push/course_reminders.py:110-119 | Two periods land in one entry exactly when every period between them is there: the runs are maximal. |
| `PeriodRuns.RunsPartition` | server/push/course_reminders.py:110-119 | Each known period of a day is in exactly one run and nothing else is. |
| `Timetable.SplitDay` | server/push/course_reminders.py:110-119 | The loop over a day's sorted periods gives exactly those runs, in order. |
| `Timetable.ScheduleEntries` | server/push/course_reminders.py:100-120 | List form as it is, object form as the runs of each valid weekday, anything else empty. |
| `Timetable.EntryIsNamed` | server/push/course_reminders.py:100-120 | An entry of a weekday is of its day and names at least one period, each of the school and named by the weekday. |
| `Timetable.NamedIsInEntry` | server/push/course_reminders.py:100-120 | Every period of the school that a weekday names is in one of its entries. |
| `Timetable.ObjectEntriesSay` | server/push/course_reminders.py:100-120 | The object form has the entries of its readable weekdays and no others. |
| `ClassMeetings.EarliestOf` | server/push/course_reminders.py:65-97 | The entry starts at the earliest of its periods with a known time, the first by name among equals, and at none when it has none. |
| `ClassMeetings.MeetingsOf` | server/push/course_reminders.py:149-178 | The meetings found are at exactly the times of the half-open window at which some entry of the schedule has a class: so many weeks after Monday, 5 January 1970, local time, on the entry's weekday, at its earliest known period; sorted, each once, with the period of the first slot that gives it. |
| `ClassMeetings.MeetsWeekly` | server/push/course_reminders.py:166-178 | A slot of weekday k and minute m has a class at t if and only if t is a whole number of weeks from Monday, 5 January 1970, local midnight, plus k - 1 days and m minutes. |
| `ClassMeetings.ClassIffPeriod` | server/push/course_reminders.py:149-178 | Some entry of the schedule has a weekly class at a time if and only if the listing has a period for it. |
| `ClassMeetings.FirstGivesPeriod` | server/push/course_reminders.py:166-178 | Of the slots with a class at one time, the first listed gives the period. |
| `ClassMeetings.AppliesSays` | server/academic_calendar/changes.py:84-92 | By week and weekday: a change applies between its first and last day, on its weekdays but the excluded ones, to the periods it names or all; a note applies to none. |
| `ClassMeetings.LastChangeHolds` | server/academic_calendar/changes.py:82-93 | Of several changes of a kind the last listed holds. |
| `ClassMeetings.MeetingChanges` | server/academic_calendar/changes.py:72-93 | A kind of change is there exactly when some change of that kind applies to the meeting. |
| `ClassMeetings.ChangedMeans` | server/push/course_reminders.py:181-201 | A meeting is cancelled exactly when a cancellation covers it; its start and room are as scheduled unless a change covers it, and then as that change says. |
| `ClassMeetings.Changed` | server/push/course_reminders.py:181-201 | A changed meeting stays on its local day. |
| `ClassMeetings.Recheck` | server/push/course_reminders.py:210-247 | The recheck accepts a start exactly when the course is there, enrolled, and some meeting of that local day is moved or left to it. |
| `ClassMeetings.ScanStarts` | server/push/course_reminders.py:574-605 | The starts the scan files for: all meetings of the window as changed, still to come, on days classes meet; each is that of a weekly class of the schedule, as the changes leave it. |
| `ClassMeetings.ScannedIsAccepted` | server/push/course_reminders.py:210-247 | With no class starting at midnight, every start the scan files is accepted by the recheck. |
| `ClassMeetings.AcceptedIffScanned` | server/push/course_reminders.py:574-605 | And over days wholly in the window the recheck accepts exactly the starts the scan finds. |
| `ClassMeetings.AllAcceptedIff` | server/push/course_reminders.py:229-241 | Whatever the changes, the recheck accepts everything the scan finds if and only if no class at midnight is left uncancelled with no other of its day moved to where it starts. |
| `ClassMeetings.AllAcceptedIffNoneAtMidnight` | server/push/course_reminders.py:229-241 | With no changes, if and only if no class starts at midnight. |
| `ReminderScan.SecondScan` | server/push/reminders.py:281-444 | A second scan on the same data files nothing, and cancels exactly what the first found locked and it does not. |
| `ReminderScan.ScanKeepsUnique` | server/push/reminders.py:61-74 | No user gets two active jobs of one key. |
| `ReminderScan.WorkOut` | server/push/reminders.py:368-420 | The loops give the valid keys and the requests still to fire. |
| `ReminderScan.ReminderJobs.FileJobs` | server/push/reminders.py:61-74 | Filing in chunks equals filing one by one. |
| `ReminderScan.ReminderJobs.CancelStale` | server/push/course_reminders.py:642-647 | Exactly the unwanted of the pending jobs are cancelled. |
| `ReminderScan.ReminderJobs.Scan` | server/push/course_reminders.py:563-647 | After a pass no unlocked pending job is unwanted, every wanted future reminder of a reachable user has an active job, jobs being sent are untouched, new jobs are the wanted ones that had none, and they are counted. |
| `ReminderScan.OptedIn` | server/push/course_reminders.py:472-480 | The opt-ins gathered per user. |
| `ReminderScan.ScanSkipsDay` | server/push/course_reminders.py:482-491 | The scan's test of a day equals the pipeline's (`_classes_quiet`), for every calendar and set of opt-ins. |
| `ReminderScan.QuietSays` | server/push/pipeline.py:975-1016 | A day is outside the term if and only if terms are published and none contains it; a holiday if and only if it is in term, some holiday covers it and the user opted in to none that does; else classes meet. |
| `ReminderScan.ToFileSays` | server/push/reminders.py:368-420 | A reminder is to be filed if and only if its item is eligible, reminders are on, the lead time is chosen, the user has a device and its time is ahead. |
| `ReminderScan.FiledAfresh` | server/push/reminders.py:61-74 | A scan files a reminder only where every earlier one of that user and key failed or was cancelled. |
| `ClassScan.OpenSays` | server/push/course_reminders.py:582-605 | Classes of a course meet on a day if and only if the user does not skip it, it is of the course's term, in a published term, and on no holiday but one the user opted in to. |
| `ClassScan.AllItems` | server/push/course_reminders.py:563-605 | The class starts a scan reminds of: those of each course, as changed, in the window, on days not skipped, of the course's term and not quiet; each comes from a weekly class of its course. |
| `ClassScan.ScanCourseReminders` | server/push/course_reminders.py:359-647 | Scan, day test and recheck together: every class reminder a pass leaves pending and unlocked is for a class still to come of a user with reminders on, that lead time chosen and a device now or to come, and is accepted by the recheck unless a class at midnight is refused; new ones are for reachable users and fire the lead time before the class, in the future; every start still to be reminded of has a job. |
| `BulletinFanout.SendAndroid` | server/bulletins/dispatcher.py:238-264 | Android batches of at most 500, each recorded before the next; a crash leaves at most one batch unrecorded. |
| `BulletinFanout.SendSingly` | server/bulletins/dispatcher.py:265-304 | The other rows one by one: sent to exactly when the device has a token, else cancelled; the row goes by the reply; a crash leaves at most one send unrecorded. |
| `BulletinFanout.Dispatch` | server/bulletins/dispatcher.py:152-329 | A tick, dying anywhere or not, is a step as the run lemmas take it: only pending rows of devices with a token are sent to, in a tick without a crash all of them, and rows without one are cancelled; a recorded send is Sent exactly when accepted, Cancelled on a bad token, Failed when refused for the third time, else pending; at most one Apple send or one Android batch is unrecorded and none without a crash; the bulletin is marked only when every row is terminal. |
| `BulletinFanout.DoneForGood` | server/bulletins/dispatcher.py:332-381 | A row sent, failed or cancelled stays so and its device is sent to in no later tick. |
| `BulletinFanout.AttemptsAreBounded` | server/bulletins/dispatcher.py:332-381 | Recorded attempts stay at most three. |
| `BulletinFanout.SendsAreAccountedFor` | server/bulletins/dispatcher.py:332-381 | Sends to a device equal its recorded attempts plus those lost to crashes, so at most three plus the crashes. |
| `BulletinFanout.ThreeCleanTicks` | server/bulletins/dispatcher.py:309-325 | With a fixed device set a bulletin takes at most three ticks that do not crash, and is marked after the third. |
| `Purge.DeleteInBatches` | server/db.py:102-153 | For any filter that nulled links do not disturb, any batch size and deadlocks: exactly the matching rows are gone and links to them nulled, or on giving up those up to the last finished batch; the count is right; and the days are the summary of all that went. |
| `Purge.PruneExpiredSessions` | server/auth/retention.py:29-57 | With the retention filter, a session is gone exactly when it expired before the cutoff and is revoked or points at none (and, on giving up, its batch was reached); a live session that points at another is left as it is. |
| `Purge.RingsHold` | server/auth/retention.py:38-43 | The rings of every reachable table are such that nulling links makes no live session prunable. |
| `Purge.PurgedIsInOrder` | server/auth/retention.py:34-45 | What a purge leaves meets the session invariant again. |
| `Purge.ReadBatch` | server/db.py:172-179 | The first ids in order, up to the batch size. |
| `Purge.KeepActiveDays` | server/auth/retention.py:60-83 | First and last per device and UTC day become the least and greatest over the stored values and the rows, whatever the insert chunks. |
| `Purge.SummariesCompose` | server/auth/retention.py:60-83 | Summaries of batches add up to the summary of all of them. |
| `Purge.SummaryIsUnique` | server/auth/retention.py:60-83 | And only one table of days is that summary. |
| `BulletinFeed.PastIsAfter` | server/routes/bulletins_feed.py:119-139 | The cursor predicate picks exactly the rows after the cursor's in feed order, with any mix of missing and equal dates. |
| `BulletinFeed.ListBulletins` | server/routes/bulletins_feed.py:97-149 | A page is the next rows in order, at most the limit, and a cursor is given exactly when more follow; every item is listed, and deleted only if deleted ones are asked for; a first page without a cursor holds all such rows. |
| `BulletinFeed.CursorCuts` | server/routes/bulletins_feed.py:114-139 | The cursor on a row of the feed asks for what follows it. |
| `BulletinFeed.FeedIsNewestFirst` | server/routes/bulletins_feed.py:110-113 | The feed has dated before undated bulletins, later dates first, and higher ids first among equals. |
| `BulletinFeed.FollowAll` | server/routes/bulletins_feed.py:97-149 | Following the cursors from the start gives, in order and for every limit, exactly the listed bulletins, with deleted ones only if asked for. |
| `BulletinFeed.OneOrder` | server/routes/bulletins_feed.py:110-113 | The order is total: a set of bulletins has one feed. |
| `RateLimiter.SlidingWindowLimiter.Prune` | server/auth/rate_limit.py:34-45 | Pruning returns exactly the key's attempts since its last reset that are in the window. |
| `RateLimiter.SlidingWindowLimiter.Allow` | server/auth/rate_limit.py:47-48 | Allowed exactly when, in the full log, fewer than the limit of the key's attempts are later than the window's start with no reset of the key since. |
| `RateLimiter.SlidingWindowLimiter.Sweep` | server/auth/rate_limit.py:50-58 | Once a window, exactly the keys whose last attempt has left it are dropped; no attempt that could still count is. |
| `RateLimiter.SlidingWindowLimiter.RecordAttempt` | server/auth/rate_limit.py:60-63 | The log grows by the attempt, and what is kept still stands for it. |
| `RateLimiter.SlidingWindowLimiter.ResetKey` | server/auth/rate_limit.py:65-66 | The key is dropped, other keys stay, and its attempts so far no longer count. |
| `RateLimiter.SlidingWindowLimiter.SignIn` | server/auth/service.py:102-110 | Looking at both keys and recording both keeps every window of every key, past and present, within the limit. |
| `RateLimiter.AllowedKeepsUnder` | server/auth/service.py:104-110 | An attempt recorded after an allowed look keeps every window within the limit. |
| `RateLimiter.WindowCounts` | server/auth/rate_limit.py:34-48 | What pruning keeps is as many as the attempts of the full log that count: later than the window's start, with no reset since. |
| `RateLimiter.DropOld` | server/auth/rate_limit.py:41-42 | Dropping from the front while out of the window drops all that is out of it. |

## Left out

- The APNs, FCM, Moodle and HTTP clients: a send or a Moodle query is an arbitrary answer.
- Token hashing, JWTs and encryption: a refresh token stands for its session id.
- Payloads, copy and localisation, and which devices a job's tokens come from: a round is given any sequence of tokens.
- Session re-authentication, live-activity and class-start rules inside `_materialize`: before the first delivery they settle, hold or let through a job in any way (`PushRuns.Plan`).
- Sessions created before first uses were recorded, and the audit fields and log lines of the auth service.
- Statement timeouts, advisory locks and the query planner: statements are atomic and row locks are explicit.
- The retention of push jobs and of bulletins: rows stay.
- Which reminder settings, devices and terms a user has: the scan is given current courses or eligible assignments, the term of each day, preferences and reachable users, as the queries and `current_term_code` select them.
- Dedupe keys as text: a key is the item, the offset and the time, so two offsets that print alike are told apart here.
- The upgrade of reminder payloads filed by older versions, which changes no status.
- Daylight saving: class starts are for a zone at a fixed offset, as the source's own note says.
- Reading "HH:MM" settings: a period's start is given as a minute of the day or as unreadable.
- Errors other than deadlocks during a purge, which leave the state of the last finished batch and propagate.
- Course catalogue, sync executor, dashboards, and the rest of the portal and the routes.
- PushGuard.PacedIffNoneForgotten: speaks of sends that were recorded; one lost with a rolled-back turn is in no row.
- PushTick.RunTick: what the processing of a job does to the table is arbitrary here, since `PushRuns` and `PushHistory` say it.
- SessionLocks.NoDeadlock: covers refreshes and first uses; the other transactions appear as single steps that wait for the rows they write.
- PushHistory.SettledForGood: not the dedupe key, which registering an activity renames on a finished end job, nor the rows of a deleted account; and a device's sync that read a job as unfinished and skips its deliveries after it settled is taken as one step.
- Purge.DeleteInBatches: a filter that a nulled link would change is not covered; for the session filter `Purge.RingsHold` rules that out.

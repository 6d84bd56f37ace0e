# Fuku moderation bot: verified model

Fuku moderates Telegram groups. Its hard part is a set of small concurrent protocols: several
callers, on any number of replicas, move database rows by conditional updates and change bans,
mutes and group permissions in Telegram, and any call may be refused, may be lost after it
took effect, or may be interrupted by a crash. This project models those protocols and proves
what they keep over every run, every interleaving and every pattern of failures.

Everything is checked by `dafny verify dfyconfig.toml`.

## The parts

| files | what they model |
|---|---|
| `LockdownRows`, `LockdownBurst` | the rows of a lockdown and of a permanent-ban run, live members, and the rule that recognises the lockdown's own ban by its end date |
| `LockdownProtocol`, `LockdownRoundTrip`, `LockdownForeignBan`, `LockdownGiveBack`, `LockdownAbandoned`, `LockdownWitness` | one account's joiner row and live status under the join guard, the worker, the permanent-ban run, the lift, the stale-claim release and everybody else, one atomic step at a time |
| `LockdownResponse`, `LockdownBanRun` | the permanent-ban run: one account, one pass over a batch, and a whole run on many replicas |
| `LockdownGuard`, `LockdownGuardRace` | the join guard: its policy, how one join is recorded, and its race against the end of the lockdown |
| `LockdownLift`, `LockdownPermissions`, `LockdownCalls` | starting and lifting a lockdown, the group's default permissions, and what an unmute gives during a lockdown |
| `CaptchaMember`, `CaptchaDecider`, `CaptchaWeb`, `CaptchaShuffle` | a member's mute, attempt row and unmute schedule; who decides an attempt; the web check's three calls; the shuffle of the answer buttons |
| `Antiflood`, `AntifloodRace`, `AntifloodTable` | the lock-free flood counter: its meaning, its interleavings, and the shared table with its update loop and cleaner |
| `LocaleText`, `LocaleIndex` | the flat lookup index of a locale against the case-insensitive walk of its nested maps |
| `Reminders` | hourly lockdown reminders |
| `JoinClaims` | the claim that keeps a join from being greeted or challenged twice |

Protocols are state machines: `Next` is one atomic step, `Execute` a run, and the theorems hold
for every list of events. Code that changes tables step by step is a class whose methods are
proved against functions of the old state; the theorems are about those functions, and beside
them lemmas spell out, row by row, what each step and each operation leaves. What
Telegram, the database, the clock and other callers do during a call is an input ("weather",
"look", "rival"), so a statement over all inputs is a statement over all failures.

## What the code does not promise

These plausible claims are false of the code. Each has a lemma with a run that breaks it, and
the condition under which it holds.

- A permanent ban of the run can be overwritten by a worker or undone by a lift that looked before
  the ban landed, which happens to an account without a joiner row to claim, or by one of their
  calls that was given up and lands late (`UnclaimedRunCanBeOverwritten`; exactly then:
  `LandedBanIsLostOnlyToARace`).
- A lift does not always give everybody back, but crashes, lost answers and released claims
  alone never break that promise: exactly the steps that abandon an account do, such as
  cancelling the pending row of somebody already banned, a failed state after a ban that landed,
  a rewritten row, a claim on outdated values or after the lift, or a ban that lands once its row
  no longer leads to an unban (`PromiseBreaksExactlyByAbandoning`). Everyday runs reach them:
  `LostAnswerStrands`, `CrashStrands`, `LateLandingStrands`, `LateDeliveryStrands`,
  `LateClaimStrands`.
- A pending joiner row can outlive a lifted lockdown with no guard call that will look at it,
  exactly when, after the lift finished, the last guard call that knows the row's ID cannot
  re-read or withdraw or crashes, or somebody claims the row under it
  (`OrphanedExactlyByMishaps`, `MishapsStrand`). A call for the same user that holds the ID of a
  row deleted since does not count: it withdraws by ID.
- The failure budget of a ban run compares the attempt counter of the moment the batch was
  listed, so two replicas give one account a fourth counted failure (`TwoReplicasOverrun`;
  exactly the untimely claims overrun: `UntimelyClaimOverruns`; each further replica adds at most
  one: `EveryRunIsBounded`).
- Stopping a run is two writes; an account put back between them stays queued in a run that is
  over (`StopCanLeaveAnAccountQueued`; only an account held at the first write can be:
  `StoppedRunKeepsOnlyWhatWasHeld`).
- A start whose permission snapshot and row insert straddle a lift stores the locked set as what
  to restore, and a lock call that lands after its lockdown was lifted, or after somebody
  restored it or settled that the group is open, leaves a group locked with no lockdown to lift
  (`StraddlingStartIsReachable`, `UntimelyLockIsReachable`; exactly these two orders matter:
  `NormalIsLostExactlyByDisorder`). "Active implies locked" is false too
  (`LateLifterIsReachable`; exactly by four kinds of step: `OpenedExactlyBy`).
- A captcha whose mute call fails leaves a member muted with neither an attempt nor a schedule
  exactly when the attempt was taken back, the member was muted before or the failed call
  landed, and nothing was scheduled (`SendStrandsExactly`, and over all operations `StrandedExactlyByALapse`); leaving and
  coming back is enough (`LeaverComesBackStranded`).
- The web check's `Expire` answers "lost" without an error when a database error was swallowed,
  with the row still waiting, although the interface at
  `fuku/utils/captchaweb/verify.go:100-103` reserves that answer for a decided row (`Expire`).
- Locale queries with a long s or a dotted capital I can be lowered one way and folded another,
  and a nameless root key over a map puts its children under the wrong paths (`AgreementExactly`,
  `BuildLookupIndex`).
- The flood counter never accumulates for user ID 0, and a cleaner pass is noticed by an update
  that stalls 540 seconds between reading its clock and taking effect (`UserZeroNeverFloods`,
  `DeletionIsNoticedExactly`).
- Reminder numbers can go backwards, exactly when an hour of an active lockdown ends while a
  worker holds a reminder it has checked and not sent (`NumbersCanGoBackwards`,
  `BackwardsExactlyByOverruns`), and a join claim taken by a stalled call is as much shorter as
  the call stalled (`StalledClaimIsShort`, `StalledReplacementIsShort`).

Where the code and its own comments disagree, the model follows the code. Claiming the joiner
row does not keep every other actor away from the account, as
`fuku/modules/lockdown_response.go:107-110` suggests, because an account may have no row to claim,
and the third counted failure is not always the last one, as line 123 there says.

## Model

| member | source | states |
|---|---|---|
| LockdownRows.MarkerSeparatesBans | fuku/modules/lockdown_marker.go:20-49 | A ban with no end date is never taken for the lockdown's own; the worker's ban is finite for Telegram, and is recognised on another row's date only within the two second tolerance |
| LockdownRows.RecognisedExactly | fuku/modules/lockdown_marker.go:20-29 | A member counts as under the lockdown's own ban exactly when kicked with an end date within two seconds of the row's |
| LockdownRows.RunBansExactly | fuku/modules/lockdown_response.go:78-89 | The run may ban exactly those who are neither administrators nor under somebody else's ban |
| LockdownProtocol.ClaimsStayExclusive | fuku/db/lockdown/joiners.go:86-125 | Every step of every actor keeps claims exclusive: one live holder per row, and the row in the state it was claimed to |
| LockdownProtocol.NoRowIsClaimedTwice | fuku/db/lockdown/joiners.go:316-365 | Over every run, with any interleaving, crashes and releases, no row is ever held by two live actors |
| LockdownProtocol.ReachableIsSafe | fuku/db/lockdown/joiners.go:316-365 | Over every unraced run a permanent ban of the run is in force, nobody who looked before it is about to write, and no marker ban or unban is on its way |
| LockdownProtocol.SealStays | fuku/modules/lockdown_worker.go:403-444 | No step of the guard, worker, another run, lift or stale release, and no call that lands late, undoes a permanent ban of the run, unless the ban raced a look or a call |
| LockdownProtocol.PermanentBanStands | fuku/modules/lockdown_response.go:99-254 | Once the run's ban with no end date is in force it stands to the end of every unraced run: never unbanned by the lift, never overwritten by the marker ban |
| LockdownProtocol.LandedBanIsLostOnlyToARace | fuku/modules/lockdown_response.go:151-160 | The exact condition: a permanent ban that takes effect can be undone by the next step of somebody else if and only if an actor that looked earlier is about to write, or a marker ban or an unban that was given up is still on its way |
| LockdownRoundTrip.WorkerRemoves | fuku/modules/lockdown_worker.go:403-444 | A pending joiner who is not banned ends banned on the row's own date, with a banned row and a fresh attempt counter; other actors are untouched |
| LockdownRoundTrip.WorkerKeepsOthersBans | fuku/modules/lockdown_worker.go:395-428 | A joiner somebody else banned meanwhile is kept with that ban: the row ends kept, the live ban and its owner are as they were |
| LockdownRoundTrip.WorkerFindsItsOwnBan | fuku/modules/lockdown_worker.go:395-428 | A joiner found under the row's own ban is recorded as banned with no further call and a fresh attempt counter |
| LockdownForeignBan.ForeignBanStands | fuku/modules/lockdown_worker.go:395-422 | Over every run in which nobody outside acts on the user: a ban whose end date neither the row, nor any actor, nor a new row takes for the lockdown's own, with nobody about to write and no call on its way, stands unchanged to the end of the lift |
| LockdownRoundTrip.WorkerDeclinesRequests | fuku/modules/lockdown_worker.go:364-392 | A waiting request is declined, and given another try or a failed state when the call fails; nobody is banned for it |
| LockdownRoundTrip.FailedBanBansNobody | fuku/modules/lockdown_worker.go:429-449 | A look or a ban call that fails without landing leaves the live member alone, and its row pending or failed |
| LockdownRoundTrip.FailedUnbanFreesNobody | fuku/modules/lockdown_worker.go:600-612 | The same for the unban: the ban stands and the row is banned or failed |
| LockdownRoundTrip.CrashedWorkerIsReleased | fuku/db/lockdown/joiners.go:304-365 | A worker that dies leaves its row to the stale release: pending while the lockdown is active, later cancelled for a request and banned for anybody else |
| LockdownRoundTrip.CrashedLiftIsReleased | fuku/db/lockdown/joiners.go:304-365 | A lift that dies leaves its row banned again, to be unbanned anew |
| LockdownRoundTrip.RunBansWithoutARow | fuku/modules/lockdown_response.go:151-160 | An account without a joiner row is banned for good and gets no row |
| LockdownRoundTrip.RunSpares | fuku/modules/lockdown_response.go:78-89 | An account the run may not ban, or whose look fails, keeps its live status, and a claimed row goes back to the state and detail it was read with |
| LockdownRoundTrip.LiftUnbans | fuku/modules/lockdown_worker.go:556-595 | The lockdown's own ban is taken back |
| LockdownRoundTrip.LiftKeepsOthersBans | fuku/modules/lockdown_worker.go:575-582 | A status that is not the lockdown's own ban is left alone, and a lapsed ban is told apart |
| LockdownRoundTrip.RemovedAndGivenBack | fuku/modules/lockdown_worker.go:403-595 | Removal and lift are a round trip: who was not banned before is free to come back |
| LockdownRoundTrip.LockdownRunsItsCourse | fuku/modules/lockdown_worker.go:403-612 | A whole lockdown as one run of the system: a recorded joiner is under the lockdown's ban once the worker is through, the lift ends with the lockdown lifted and the joiner free, and every other account is as it was |
| LockdownRoundTrip.RunBansForGood | fuku/modules/lockdown_response.go:140-236 | The run bans an account it may ban with no end date, and the row ends kept |
| LockdownRoundTrip.RunGivesUpOnALift | fuku/modules/lockdown_response.go:200-226 | A run that finds the lockdown over sends nothing and puts the row back |
| LockdownGiveBack.StaysGood | fuku/modules/lockdown_worker.go:508-595 | Every step that abandons nobody, whatever crashes, lost answers, late calls and released claims it comes with, keeps a removed account on the way to its unban |
| LockdownGiveBack.LiftGivesBack | fuku/modules/lockdown_worker.go:508-612 | Over every run in which no step abandons an account, with any crashes, lost answers, calls that land late and stale releases, an account still under the lockdown's own ban once the lift finished is one whose unban the lift recorded as failed |
| LockdownGiveBack.StartIsGood | fuku/db/lockdown/repository.go:57-71 | A fresh lockdown satisfies the give-back invariant |
| LockdownAbandoned.AbandoningDooms | fuku/modules/lockdown_worker.go:403-612 | From every state on the way, each abandoning step can be followed by a run, itself abandoning nobody, that ends with the lift finished and the ban standing |
| LockdownAbandoned.PromiseBreaksExactlyByAbandoning | fuku/db/lockdown/joiners.go:86-125 | The exact condition of the lift's promise: a step leads to a run that breaks it with no further abandoning if and only if the step abandons the account |
| LockdownWitness.LostAnswerStrands | fuku/modules/lockdown_worker.go:403-444 | A reachable run in which a landed ban's lost answer ends with the ban standing after the lift |
| LockdownWitness.CrashStrands | fuku/db/lockdown/joiners.go:316-365 | The same after a worker stops between its ban and its row move |
| LockdownWitness.LateLandingStrands | fuku/modules/lockdown_worker.go:403-444 | The same after a ban call that was given up takes effect only once the lift is finished |
| LockdownWitness.LateDeliveryStrands | fuku/modules/lockdown_guard.go:510-561 | The same after a join is delivered again past the dedupe window |
| LockdownWitness.LateClaimStrands | fuku/db/lockdown/joiners.go:86-96 | The same after a claim made on a listed row once the lockdown is lifted |
| LockdownWitness.UnclaimedRunCanBeOverwritten | fuku/modules/lockdown_response.go:151-160 | A reachable run in which the permanent ban of an account without a row is replaced by the marker ban |
| LockdownResponse.ResponseBanFrame | fuku/modules/lockdown_response.go:78-89 | With a joiner row or without: the row ends kept for good exactly when its claim was won and the ban confirmed, else keeps state and detail; admins, approved and exempt accounts are never banned and nobody else's ban is replaced; failed exactly on the last listed attempt |
| LockdownBurst.HandledRow | fuku/modules/lockdown_response.go:220-254 | A hit is banned, a skip skipped, neither costs an attempt; a failure costs one and is final on the last listed; anything else goes back for free |
| LockdownResponse.VerdictsAfterTheLook | fuku/modules/lockdown_response.go:179-254 | For an account that may be claimed: skipped as an administrator or as banned already, back when the lockdown is over or a call was refused by the pacer, a miss on a failed call, a hit on a confirmed ban |
| LockdownResponse.ClaimsOnlyWhatItMay | fuku/modules/lockdown_response.go:140-177 | The joiner row of an approved account, of the bot, of a row that cannot be read or may not be claimed is not touched |
| LockdownResponse.Store.ClaimJoiner | fuku/db/lockdown/joiners.go:86-96 | A claim wins exactly from the named state and changes that one row |
| LockdownResponse.Store.MoveJoiner | fuku/db/lockdown/joiners.go:104-125 | A move wins exactly from the named state; acting to banned restarts the attempt counter |
| LockdownResponse.Store.PacedUnit | fuku/modules/lockdown_response.go:179-218 | The look, the re-read and the ban: banned only when the look allows it and the re-read lockdown is active |
| LockdownResponse.Store.Admit | fuku/modules/lockdown_response.go:140-177 | Which accounts go no further and why, and that only a won claim leaves a row acting |
| LockdownResponse.Store.Settle | fuku/modules/lockdown_response.go:220-254 | The burst row after each verdict, and that the answer says whether it is final |
| LockdownResponse.Store.BanOne | fuku/modules/lockdown_response.go:129-254 | The whole effect of one account on the joiner row, the burst row and the live ban, for every pattern of failures and races; true exactly when the burst row is final |
| LockdownResponse.Store.StopBanRun | fuku/modules/lockdown_response.go:363-374 | Queued accounts become unhandled, then the run is stopped; nothing else moves |
| LockdownResponse.Store.FinishBanRun | fuku/db/lockdown/burst.go:254-270 | A run ends once, and done only with nothing open |
| LockdownResponse.Store.ProcessBanRun | fuku/modules/lockdown_response.go:296-354 | One pass leaves exactly the specified tables and reports progress exactly when an account became final or the run ended |
| LockdownResponse.PassIsOrderly | fuku/modules/lockdown_response.go:296-354 | Whatever a pass meets, only queued accounts move, to queued, final or unhandled, attempts never fall, and done means nothing open |
| LockdownResponse.PassBans | fuku/modules/lockdown_response.go:296-354 | A plain member without a joiner row, listed before the halt and queued, whose claim is written and whose calls are answered ends banned with no end date, and that is progress |
| LockdownResponse.PassSkips | fuku/modules/lockdown_response.go:129-177 | Approved accounts, the bot itself, let-in joiners, administrators and people somebody else banned end skipped at no attempt, with their status as it was |
| LockdownResponse.PassTriesAgain | fuku/modules/lockdown_response.go:238-254 | A failed ban costs a plain member without a joiner row one attempt and is final on the third; a refusal by the pacer and a lockdown that is over cost none; nobody is banned by them |
| LockdownResponse.PassLeavesAlone | fuku/modules/lockdown_response.go:309-339 | An account from the halt on, one whose claim is not won and one that is no longer queued keeps its rows and its status |
| LockdownResponse.PassEnds | fuku/modules/lockdown_response.go:296-374 | A shutdown and a failed read end nothing, a lockdown that is no longer active stops the run and gives its queue back, and a batch that is through ends it as done exactly when no account is open |
| LockdownResponse.RunsEndOnce | fuku/db/lockdown/burst.go:254-270 | An ended run is ended by no later pass, and no pass ends another run |
| LockdownResponse.PassSparesThem | fuku/modules/lockdown_response.go:78-89 | Admins, approved accounts, let-in joiners and permanently banned accounts keep their status through every batch |
| LockdownBanRun.EveryAccountOnce | fuku/modules/lockdown_response.go:277-374 | On any replicas, with any crashes: no account held twice, final rows never move, the run ends once, and a done run has every account banned, skipped, failed or given back |
| LockdownBanRun.RunBansEverybody | fuku/modules/lockdown_response.go:277-374 | From every start, one replica with every ban confirmed leaves every account banned for good at no attempt, and the run done |
| LockdownBanRun.CrashCostsNothing | fuku/db/lockdown/burst.go:473-486 | An account in the hands of a crashed replica is queued again at no cost |
| LockdownBanRun.StopsExactly | fuku/db/lockdown/burst.go:254-270 | Stopping gives back exactly the queued accounts; a run is finished once, and as done only with nothing queued or in hand |
| LockdownBanRun.RunIsBounded | fuku/modules/lockdown_response.go:238-254 | From any state on budget, with timely claims on any team, every spending call uses up an attempt, and an account fails after exactly the maximum of counted attempts |
| LockdownBanRun.StartedRunIsBounded | fuku/modules/lockdown_response.go:238-254 | A started run with timely claims makes at most three spending calls per queued account, over any replicas |
| LockdownBanRun.UntimelyClaimOverruns | fuku/modules/lockdown_response.go:238-254 | A failing handling keeps the budget if and only if the listed counter still answers the last-try question as the row does |
| LockdownBanRun.TwoReplicasOverrun | fuku/modules/lockdown_response.go:238-254 | From every started run two replicas that list one account give it a fourth counted failure |
| LockdownBanRun.StoppedRunKeepsOnlyWhatWasHeld | fuku/modules/lockdown_response.go:363-374 | After the queue was given back, over every continuation, only an account that somebody held at that moment is ever queued or in hand again |
| LockdownBanRun.StopCanLeaveAnAccountQueued | fuku/modules/lockdown_response.go:363-374 | From every state with a held account, a stop can leave it queued in a stopped run |
| LockdownBanRun.LoneHandling | fuku/modules/lockdown_response.go:332-339 | One worker alone handles a queued account against its own counter and touches no other row |
| LockdownBanRun.TeamIsBounded | fuku/modules/lockdown_response.go:238-254 | Over every run, timely or not: the attempts an account may still get, one more than the maximum for each replica but the first, fall with every spending call |
| LockdownBanRun.EveryRunIsBounded | fuku/modules/lockdown_response.go:238-254 | Every started run on k replicas gives an account at most k - 1 counted failures more than the maximum, and makes at most that many spending calls per queued account; one replica alone keeps to three |
| LockdownGuard.LookupExactlyWhenItMatters | fuku/modules/lockdown_guard.go:60-90 | The performer is looked up if and only if the answer can change the verdict, and an unanswered lookup bans |
| LockdownGuard.PolicyExactly | fuku/modules/lockdown_guard.go:54-79 | The policy table: requests, bots, anonymous and known administrators, and everybody else, each with its verdict |
| LockdownGuard.RecordJoin | fuku/modules/lockdown_guard.go:436-561 | The retry loop decides by the first look that did not lose a race, and a call that always loses holds the joiner |
| LockdownGuard.DecidedByTheFirst | fuku/modules/lockdown_guard.go:436-466 | A call makes exactly the writes of the first look that did not lose a race, and none when every look lost one |
| LockdownGuard.ApprovedWrites | fuku/modules/lockdown_guard.go:438-561 | For a joiner an admin let in a look writes an exempt row, reclaims one as exempt or makes a pending one exempt, and never a pending row |
| LockdownGuard.BannedWrites | fuku/modules/lockdown_guard.go:438-561 | For a banned joiner a look writes a pending row, and deletes a new one or cancels a reclaimed one exactly when the lockdown is over by then and the withdrawal wins; a handled row remembers the message |
| LockdownGuard.BannedLetInExactly | fuku/modules/lockdown_guard.go:436-561 | A ban verdict lets the joiner in if and only if, on the deciding look, a store failed, the re-read lockdown is over, or the row is exempt and changed within 20 s |
| LockdownGuard.NoOrphanedPendingRow | fuku/modules/lockdown_guard.go:474-493 | A joiner let in leaves no pending row of this call behind unless its withdrawal was refused |
| LockdownGuard.ApprovedHeldExactly | fuku/modules/lockdown_guard.go:436-561 | A joiner an admin let in is held if and only if the deciding look found the join handled already or every look lost a race |
| LockdownGuard.RecordRequest | fuku/modules/lockdown_guard.go:379-406 | The exact writes of a request for each deciding look, and that it is released if and only if this call wrote the pending row and the re-read lockdown is over |
| LockdownGuard.KeptShape | fuku/modules/lockdown_guard.go:294-323 | Nobody is kept exactly when nobody was let in, and as many are kept as joined only when everybody is, in place and in order |
| LockdownGuard.KeptMembersAre | fuku/modules/lockdown_guard.go:294-323 | Exactly the members let in are kept |
| LockdownGuard.MessageIdExactly | fuku/modules/lockdown_guard.go:262-293 | The message is remembered exactly when it names somebody banned and otherwise only the bot itself |
| LockdownGuard.OnJoinMessage | fuku/modules/lockdown_guard.go:225-323 | The message keeps exactly the users let in, in order |
| LockdownGuardRace.LiftedIsAnswered | fuku/modules/lockdown_guard.go:448-493 | Over every run with no mishap for a user, that user's waiting row in a lifted lockdown is at rest and a guard call in flight knows that very row by its ID; none waits once all calls returned |
| LockdownGuardRace.SmoothLiftLeavesNobodyPending | fuku/db/lockdown/repository.go:274-294 | From a fresh lockdown the same holds whatever goes wrong before the lift is finished |
| LockdownGuardRace.OrphanedExactlyByMishaps | fuku/modules/lockdown_guard.go:474-493 | The exact condition: a step leads to a run that orphans a user's row, with no further mishap, if and only if, on a lifted lockdown, the last guard call that knows the pending row's ID cannot re-read, cannot withdraw or crashes, or somebody claims the row |
| LockdownGuardRace.LiftedStaysClean | fuku/db/lockdown/repository.go:274-294 | A lifted lockdown with no waiting row and no guard call never gets one again |
| LockdownGuardRace.MishapsStrand | fuku/db/lockdown/joiners.go:145-156 | From every lifted lockdown with a late guard call, each kind of mishap leaves an orphaned pending row |
| LockdownGuardRace.GuardOutlivesTheLift | fuku/modules/lockdown_guard.go:225-260 | Such a lockdown is reachable |
| LockdownGuardRace.GuardHolds | fuku/modules/lockdown_guard.go:436-493 | On an active lockdown a guard call ends with exactly the joiner's row pending, under its old ID if it had one |
| LockdownGuardRace.GuardWithdraws | fuku/modules/lockdown_guard.go:474-487 | Overtaken by a lift, a guard call deletes a new row and cancels a reclaimed one, and changes nothing else |
| LockdownGuardRace.LiftDoes | fuku/db/lockdown/repository.go:255-294 | The lift begins once, cancels every pending row and no other, and ends only with nothing held or unfinished |
| LockdownGuardRace.ReleaseDoes | fuku/db/lockdown/joiners.go:316-365 | A row whose holder is gone is pending, cancelled or banned again, by the state of the lockdown and the kind of the row |
| LockdownLift.CanonicalPermissions | fuku/modules/lockdown_perms.go:84-96 | Exactly the keys whose value is true, and an error exactly for text that is neither an object nor null |
| LockdownLift.SamePermissions | fuku/modules/lockdown_perms.go:99-109 | Equal exactly when the same rights are granted |
| LockdownLift.OnlyGrantedRightsCount | fuku/modules/lockdown_perms.go:80-83 | Rights written out as off change nothing, rights that are on always count |
| LockdownLift.Group.SetPermissions | fuku/modules/lockdown_perms.go:61-78 | Only an answer of true confirms; an unanswered call may land |
| LockdownLift.Group.BeginLift | fuku/db/lockdown/repository.go:255-272 | Wins only from active, records the lifter, touches nothing else |
| LockdownLift.Group.FinishLift | fuku/db/lockdown/repository.go:278-294 | Finishes only a lifting row with no open joiner |
| LockdownLift.Group.LiftRow | fuku/modules/lockdown.go:570-616 | Restore before record: done exactly after a confirmed restore and a won record; otherwise every row is unchanged; only the row's own permissions are ever sent |
| LockdownLift.Group.ApplyLiftOf | fuku/modules/lockdown.go:471-498 | A card never touches another lockdown than its own, a lift in progress is not started again, a failed restore or record leaves the lockdown active, and a done lift leaves exactly the recorded row |
| LockdownLift.Group.StartRow | fuku/modules/lockdown_start.go:133-175 | One active row per group; for each answer to the lock the outcome, the row and the permissions: a refused lock leaves no trace, an unanswered one keeps the unconfirmed row with the snapshot whether it landed or not |
| LockdownLift.StartThenLift | fuku/modules/lockdown.go:586-605 | A start and its lift give the group back exactly what it had if and only if the restore is confirmed and recorded; otherwise the lockdown stays active with its snapshot |
| LockdownPermissions.OneLifterPerLockdown | fuku/modules/lockdown.go:586-605 | With any number of lifters, a row left active only for a lifter that sent that very row's stored permissions and had them confirmed, and the recorded lifter never changes |
| LockdownPermissions.OrderlyKeepsNormal | fuku/modules/lockdown_start.go:103-175 | In every orderly run no lockdown stores anything but the normal permissions, and the group has them whenever no lockdown is active |
| LockdownPermissions.NormalIsLostExactlyByDisorder | fuku/modules/lockdown_start.go:103-175 | The exact condition: a step leads to a run, with nothing out of order any more, after which permissions are stored or left that are not the normal ones and an unmute hands them out, if and only if it ends a lockdown while a start holds the locked set, or lands a lock with no lockdown active or on one that somebody is about to end because its group was open |
| LockdownPermissions.UnmuteIsLockdownIndependent | fuku/modules/chat_permissions.go:66-84 | An unmute that answers gives exactly the normal permissions at every point, so unmute-then-lift and lift-then-unmute give the same effective rights |
| LockdownPermissions.OpenedExactlyBy | fuku/modules/lockdown.go:586-605 | The exact condition of "active means locked": a step leaves a confirmed lockdown open with nobody about to end it if and only if it is a landing restore of another row or with a lost answer, a late confirmation, or a lifter that crashes or fails to record behind its own restore |
| LockdownPermissions.ActiveMeansLocked | fuku/modules/lockdown_start.go:145-175 | Over every run without such a step, with any other failures, every confirmed active lockdown has a locked group whenever no lifter is in the middle of a lift |
| LockdownPermissions.UntimelyLockStaysLocked | fuku/modules/lockdown_start.go:145-166 | A lock call landing after its row left active, or after a restore or a settling read, leaves a locked group with no active lockdown |
| LockdownPermissions.StraddlingStartStoresLocked | fuku/modules/lockdown_start.go:103-141 | A start straddling a lift stores the locked set |
| LockdownPermissions.LateLifterOpensTheNextLockdown | fuku/modules/lockdown.go:586-605 | A late second lifter opens the group of the next lockdown while it stays active |
| LockdownPermissions.StraddlingStartIsReachable | fuku/modules/lockdown_start.go:103-141 | From every quiet group a run leads to an active lockdown that stores the locked set |
| LockdownPermissions.UntimelyLockIsReachable | fuku/modules/lockdown_start.go:145-166 | From every quiet group a run leads to a locked group with no active lockdown |
| LockdownPermissions.LateLifterIsReachable | fuku/modules/lockdown.go:586-605 | From every quiet group a run leads to an active lockdown of an open group |
| LockdownPermissions.StartLocks | fuku/modules/lockdown_start.go:103-175 | An undisturbed start stores the group's permissions and locks it, confirmed |
| LockdownPermissions.LiftRestores | fuku/modules/lockdown.go:586-605 | An undisturbed lift gives the group exactly what its lockdown stored |
| LockdownPermissions.StartThenLiftIsARoundTrip | fuku/modules/lockdown.go:296-299 | Start and lift are a round trip on the group's permissions |
| LockdownCalls.StartEndsAs | fuku/modules/lockdown_start.go:133-175 | What an undisturbed start leaves for every answer to its lock, landed or not |
| LockdownCalls.SettlingEndsAs | fuku/modules/lockdown_worker.go:123-153 | A settling read confirms an unconfirmed row whose group is locked, drops one whose group is open, and looks at no other |
| LockdownCalls.ConfirmedRowStays | fuku/db/lockdown/repository.go:193-220 | A confirmed lockdown is dropped by no answer and by no settling read |
| LockdownCalls.UnansweredRestoreKeepsTheRow | fuku/modules/lockdown.go:586-594 | A restore that is not confirmed leaves the row active, even when it landed |
| LockdownCalls.RecordsExactly | fuku/modules/lockdown.go:594-605 | A confirmed restore is recorded on its row only while that is active, and only a lockdown being lifted is finished |
| LockdownCalls.UnmuteGives | fuku/modules/chat_permissions.go:66-84 | An unmute gives the stored permissions during a lockdown, else the group's own, else the built-in ones; it fails exactly when the lockdown cannot be looked up or its text cannot be decoded |
| CaptchaMember.Subject.Send | fuku/modules/captcha.go:1284-1373 | What a challenge leaves for every outcome of mute, delivery, taking back and rollback |
| CaptchaMember.ChallengeLeaves | fuku/modules/captcha.go:1284-1373 | Field by field: a delivered challenge leaves the member muted with the new attempt, an undelivered one unmuted or with a due unmute, a failed mute takes the attempt back and mutes only if it landed |
| CaptchaMember.PassLeaves | fuku/modules/captcha.go:1643-1693 | A pass, or a release, whose unmute lands leaves the member unmuted without an attempt; the schedule is gone or due by the answer |
| CaptchaMember.Subject.Rollback | fuku/modules/captcha.go:1397-1403 | Taking a challenge back restores the member or schedules the restore |
| CaptchaMember.Subject.ClaimPass | fuku/modules/captcha.go:1673-1693 | A pass claims once and restores or schedules |
| CaptchaMember.Subject.RestorePermissions | fuku/modules/captcha.go:1643-1650 | Unmuted with no schedule, or scheduled, as far as the schedule can be written |
| CaptchaMember.Subject.ReleaseAttempt | fuku/db/captcha/repository.go:410-456 | The row goes and a due schedule appears, together or not at all |
| CaptchaMember.Subject.ReleaseIncomplete | fuku/modules/captcha.go:296-306 | A release keeps the schedule exactly when the unmute may still be needed |
| CaptchaMember.Subject.ExecuteFailureAction | fuku/modules/captcha.go:1607-1628 | The mute action takes its own schedule back when the mute fails, if that delete succeeds |
| CaptchaMember.Subject.Settle | fuku/modules/captcha.go:1466-1575 | The outcome of an attempt that is over: spared, punished, or undone |
| CaptchaMember.SettleLeaves | fuku/modules/captcha.go:1466-1575 | Field by field for a spared, banned, kicked or muted member, and for each action that fails |
| CaptchaMember.Subject.Disable | fuku/modules/captcha.go:581-618 | Switching off restores everybody it muted |
| CaptchaMember.DisableLeaves | fuku/modules/captcha.go:581-618 | Switching off leaves nobody an attempt, and everybody it muted unmuted or with a due unmute |
| CaptchaMember.Subject.UnmuteTick | fuku/modules/captcha.go:2285-2320 | Only due schedules are worked on and a transient failure keeps them |
| CaptchaMember.TickLeaves | fuku/modules/captcha.go:2285-2320 | A due unmute that lands frees the member and drops the schedule; one that is not due does nothing |
| CaptchaMember.ChallengedIsFreed | fuku/modules/captcha.go:1284-1373 | A challenge and each of its ends: a confirmed pass or switch-off gives a member without a schedule back exactly as before |
| CaptchaMember.SendStrandsExactly | fuku/modules/captcha.go:1291-1295 | A challenge strands the member if and only if its mute failed, the attempt was taken back, the member is muted all the same, and nothing was scheduled |
| CaptchaMember.SettleStrandsExactly | fuku/modules/captcha.go:1543-1552 | Settling strands the member if and only if the failure mute fails, its schedule is taken back, and the unmute and the schedule behind it fail too |
| CaptchaMember.StrandedExactlyByALapse | fuku/modules/captcha.go:1284-1575 | The exact condition: a truthful operation strands somebody who was not stranded if and only if it is one of those two lapses |
| CaptchaMember.NobodyIsLeftMuted | fuku/modules/captcha.go:1397-1403 | Over every run without those two lapses, a present member held muted always has an attempt or a schedule |
| CaptchaMember.LeaverComesBackStranded | fuku/modules/greetings.go:695-712 | Leave, rejoin and one failed mute call strand any challenged member exactly when the new attempt can be taken back |
| CaptchaMember.MuteTable.UnmuteListed | fuku/modules/captcha.go:2304-2337 | A stale unmute beats a newer mute if and only if the mute came first, the unmute landed and the delete, the reload or the mute again failed; the newer schedule is never lost, and an unmute refused for good drops only the schedule it was listed with |
| CaptchaDecider.OneDeciderPerAttempt | fuku/modules/captcha.go:1498-1521 | Over every interleaving each attempt has at most one pass, failure action, release or drop, passes are made by the latest button or the web check, and refreshes never exceed three |
| CaptchaDecider.NoAttemptIsLost | fuku/db/captcha/repository.go:366-456 | Over every interleaving each attempt ever made is still waiting or has ended, so with the one above it ends exactly once |
| CaptchaDecider.WebCheckPasses | fuku/modules/captcha_web.go:288-330 | A good web check passes a live web attempt of its own ID, and does nothing on any other |
| CaptchaDecider.ClaimsTakeWhatTheyRead | fuku/db/captcha/repository.go:383-409 | A claim takes the row exactly as its call read it and in time, and otherwise changes nothing |
| CaptchaDecider.StaleButtonNeverPasses | fuku/modules/captcha.go:1811-1850 | After a refresh no button made before it ever passes the attempt |
| CaptchaDecider.RefreshStaysFair | fuku/db/captcha/repository.go:474-512 | A refresh swaps only the row it read |
| CaptchaDecider.RightAnswerPasses | fuku/modules/captcha.go:1811-1863 | A fitting press passes exactly with the right answer, and otherwise changes nothing |
| CaptchaDecider.RefreshReplaces | fuku/modules/captcha.go:2018-2102 | A refresh below the limit replaces the answer and makes every button it replaced unfit; at the limit it changes nothing |
| CaptchaDecider.SettlingEndsItsOwn | fuku/db/captcha/repository.go:410-456 | A timer, tick or release ends exactly the attempt it read, and nothing when another took its place |
| CaptchaWeb.ActionResultOf | fuku/modules/captcha_web.go:409-417 | Lost exactly when not claimed, applied exactly when claimed and effective |
| CaptchaShuffle.ShuffleStrings | fuku/modules/captcha.go:325-334 | The in-place shuffle equals the pure one, and a failed draw stops it with every answer still there |
| CaptchaShuffle.ShuffledIsPermutation | fuku/modules/captcha.go:325-334 | No answer is lost or doubled |
| CaptchaShuffle.EveryOrderIsReached | fuku/modules/captcha.go:325-334 | Every order of the answers is reached by some draws |
| CaptchaShuffle.EveryOrderOnce | fuku/modules/captcha.go:325-334 | No order is reached by two lists of draws, so fair draws make every order equally likely |
| CaptchaWeb.AttemptTable.Settle | fuku/modules/captcha.go:1466-1521 | When the shared decision claims, when it acts, and which store errors it hides |
| CaptchaWeb.AttemptTable.Pass | fuku/modules/captcha_web.go:288-330 | Claims exactly a live, unchanged web attempt; an error means nothing was claimed |
| CaptchaWeb.AttemptTable.Fail | fuku/modules/captcha_web.go:376-406 | Lost without an error means the attempt is gone; claimed exactly when the decision claims; an error means nothing was changed |
| CaptchaWeb.AttemptTable.Expire | fuku/modules/captcha_web.go:424-440 | Acts only on an expired attempt; whatever others did to the row, it is lost without an error and still waiting exactly on a swallowed store error |
| Antiflood.CounterIsTheWindow | fuku/modules/antiflood.go:184-236 | For all limits, clocks, gaps and cleanings the counter is the number of messages since the last reset or idle gap, and its list a suffix of them within limit plus five |
| Antiflood.PunishmentHandsOutTheWindow | fuku/modules/antiflood.go:209-218 | A punishment comes exactly when the window overran the limit, and hands out a suffix of it, all of it when the list was complete |
| Antiflood.BurstsAreExact | fuku/modules/antiflood.go:209-218 | With one limit L, whatever the gaps, clocks and cleanings, the stored list is the whole window and every burst has exactly L+1 messages |
| Antiflood.CountingLaw | fuku/modules/antiflood.go:184-236 | N steady updates with limit L give N div (L+1) bursts of exactly L+1 messages and store N mod (L+1), with every message once and in order |
| Antiflood.CleanerIsInvisible | fuku/modules/antiflood.go:73-86 | With any cleaning passes, punishments and bursts are those without them, unless an update stalls 540 s |
| Antiflood.DeletionIsNoticedExactly | fuku/modules/antiflood.go:189-195 | A deletion changes the next update if and only if that update read its clock within the idle minute |
| Antiflood.UserZeroNeverFloods | fuku/modules/antiflood.go:196-200 | User ID 0 never accumulates |
| AntifloodRace.Linearizable | fuku/modules/antiflood.go:186-238 | Every interleaving of updates and cleaners equals a sequential run: each finished call counted once, with the sequential result |
| AntifloodRace.LoneCallTakesEffect | fuku/modules/antiflood.go:186-238 | An undisturbed call takes its step on the shared counter and is at the end of the log with its result |
| AntifloodRace.CleanerDeletesTheSilent | fuku/modules/antiflood.go:73-86 | An undisturbed cleaner deletes exactly a counter silent for more than ten minutes, and never one that was replaced |
| AntifloodRace.FailedSwapMeansProgress | fuku/modules/antiflood.go:225-236 | A failed swap means another update or deletion took effect on that counter since the load |
| AntifloodRace.ConcurrentCountingLaw | fuku/modules/antiflood.go:177-241 | N concurrent updates punish exactly N div (L+1) times, in any interleaving with the cleaner |
| AntifloodTable.Appended | fuku/modules/antiflood.go:200-208 | A new list holding the old IDs and the message, cut to the newest; the old list is untouched |
| AntifloodTable.NextState | fuku/modules/antiflood.go:189-224 | One attempt computes the next state in new objects |
| AntifloodTable.FloodTable.UpdateFlood | fuku/modules/antiflood.go:177-241 | The winning attempt swaps in exactly the next state of what it finds, every earlier attempt lost to a change of this very key, other keys and published states are untouched |
| AntifloodTable.FloodTable.CleanupOnce | fuku/modules/antiflood.go:73-86 | Exactly the counters silent for more than ten minutes go |
| LocaleText.FoldIsLowerExactly | fuku/i18n/loader.go:189-201 | For any fitting case tables, a text an ASCII key might match is lowered as it is folded exactly when it has no long s and no dotted capital I |
| LocaleText.CharsExactly | fuku/i18n/loader.go:189-201 | Both tables lower the letters A to Z, keep other ASCII characters, and take in exactly the Kelvin sign and one more character each |
| LocaleText.SplitIsInjective | fuku/i18n/loader.go:171-171 | A path is determined by its segments |
| LocaleText.SplitAppend | fuku/i18n/loader.go:136-139 | Joining a dot-free key appends one segment |
| LocaleText.SplitLower | fuku/i18n/loader.go:154-154 | Lowering a path lowers its segments |
| LocaleIndex.LookupSegment | fuku/i18n/loader.go:191-201 | Exact case first, else some key that folds alike, else none |
| LocaleIndex.Lookup | fuku/i18n/loader.go:166-187 | A case-insensitive descent that takes the exact case wherever there is one |
| LocaleIndex.DescentIsDetermined | fuku/i18n/loader.go:166-201 | With ASCII keys and no collision the descent finds exactly the value at the folded path |
| LocaleIndex.LookupIndex.Add | fuku/i18n/loader.go:150-160 | One lowered path is recorded, nulls are not, no other path changes |
| LocaleIndex.LookupIndex.AddMap | fuku/i18n/loader.go:131-145 | Below the prefix the tables hold what a descent finds, elsewhere what they held, in any key order |
| LocaleIndex.HasCaseCollidingKeys | fuku/i18n/loader.go:116-129 | True exactly when two keys of one map, anywhere, lower alike |
| LocaleIndex.BuildLookupIndex | fuku/i18n/loader.go:102-112 | No index exactly on a collision; every path has the cell of what a descent finds if and only if the root holds no nameless map with something to look up |
| LocaleIndex.Translator.LookupString | fuku/i18n/loader.go:246-251 | What is answered for a text, a list, a number, a map, null and nothing found, spelled out, by the index and by the walk alike for every query both take alike |
| LocaleIndex.Translator.LookupStringSlice | fuku/i18n/loader.go:256-268 | The same for string lists: a list answers its items, any other value the words of its printed form |
| LocaleIndex.AgreementExactly | fuku/i18n/loader.go:189-201 | Any query is answered alike on every indexable locale if and only if its segments lower as they fold, or both forms have a segment outside ASCII, or it looks below a nameless root key |
| LocaleIndex.CaseSafeAgrees | fuku/i18n/loader.go:189-201 | Every query with neither a long s nor a dotted capital I is one of those |
| Reminders.SeqIsMonotone | fuku/modules/lockdown_alert.go:374-383 | The number never falls, and is n exactly during the n-th hour |
| Reminders.RemindersAreCurrent | fuku/modules/lockdown_alert.go:392-452 | Over every run each number is planned once per destination and every reminder sent carries the number current at its check |
| Reminders.StaysInTime | fuku/modules/lockdown_alert.go:736-825 | Over every run in which no hour of an active lockdown ends while a worker holds a checked reminder, every destination sees its numbers in order |
| Reminders.BackwardsExactlyByOverruns | fuku/modules/lockdown_alert.go:736-825 | The exact condition: a step leads to a run that sends numbers backwards to a destination, with nothing overrunning any more, if and only if it ends such an hour while a worker holds a checked reminder |
| Reminders.NumbersCanGoBackwards | fuku/modules/lockdown_alert.go:796-825 | From every lockdown whose workers are idle a run sends numbers backwards |
| Reminders.CurrentCopyGoesOut | fuku/modules/lockdown_alert.go:718-825 | A current pending copy goes out once in three steps of one worker |
| Reminders.SentCopyEndsAs | fuku/modules/lockdown_alert.go:796-848 | A copy that goes out is posted once its send is recorded, kept for free after a wait, and given three attempts otherwise |
| Reminders.HeldCopyEndsAs | fuku/modules/lockdown_alert.go:736-795 | A copy that does not go out: superseded or unlinked ones end, a silent destination takes one of three attempts, the rest costs none |
| Reminders.CrashedCopyIsGivenBack | fuku/db/lockdown/alerts.go:300-330 | A copy whose worker crashed is pending again as it was |
| Reminders.LateWorkerKeepsTheCopy | fuku/db/lockdown/alerts.go:159-222 | A worker whose claim was given back meanwhile changes the copy no more |
| Reminders.PlansOnlyWhatIsMissing | fuku/modules/lockdown_alert.go:392-452 | Nothing is planned in the first hour, after the lockdown or twice |
| Reminders.NextHourIsPlanned | fuku/modules/lockdown_alert.go:392-452 | After an hour the next number is planned |
| Reminders.AlertTable.PlanReminderSlots | fuku/db/lockdown/alerts.go:505-543 | One pending copy for each destination that has none, existing copies stay as they are, and nothing at all when the lockdown is no longer active |
| Reminders.AlertTable.PlanReminder | fuku/modules/lockdown_alert.go:402-446 | One pending copy for each destination reachable now that the alert went to; none in the first hour, when the number was planned, when a read failed or when the lockdown is no longer active |
| Reminders.AlertTable.PostAlertSlot | fuku/modules/lockdown_alert.go:718-848 | Claim, check (the lockdown, the number, the log channel and the Staff Group link) and send refine three steps of the machine, failed writes included; progress exactly when posted or ended |
| JoinClaims.ClaimsAreSeparated | fuku/modules/greetings.go:104-140 | Two wins with no clear between them are separated by the first claim's end, over every interleaving of claims, timers and clears |
| JoinClaims.StalledClaimIsShort | fuku/modules/greetings.go:104-111 | A claim is shorter by exactly the time its call stalled |
| JoinClaims.StalledReplacementIsShort | fuku/modules/greetings.go:104-121 | So is one that replaces an expired claim and stalls before its swap |
| JoinClaims.LoneClaim | fuku/modules/greetings.go:104-121 | An undisturbed call wins a free claim, replaces one that is over and is refused by one that runs |
| JoinClaims.ClaimEndsWithItsTimer | fuku/modules/greetings.go:124-128 | A claim ends with its own timer and no earlier, and an older timer leaves a later claim alone |
| JoinClaims.LostSwapStartsOver | fuku/modules/greetings.go:113-121 | A call that lost its swap starts over with a new clock |
| JoinClaims.RecentJoins.Claim | fuku/modules/greetings.go:104-121 | The retry loop decides by the first attempt that lost no swap: the claim it leaves, and the clock it counts from, for a free, a running, an expired and a rival's claim |
| JoinClaims.RecentJoins.ProcessSingleJoin | fuku/modules/membership.go:71-102 | Who is challenged, who is welcomed and who is ignored, with the claim each leaves |
| JoinClaims.RecentJoins.ProcessJoins | fuku/modules/membership.go:104-114 | One outcome and at most one effect per member, in order; a failure for one stops nobody else |
| JoinClaims.OneEffectPerMember | fuku/modules/membership.go:104-114 | Nobody is greeted or challenged twice by one message |
| JoinClaims.NewMembersAreMet | fuku/modules/membership.go:71-114 | Everybody named for the first time without a claim is challenged exactly when the captcha asks them and the challenge goes out, and welcomed exactly when there is nothing to ask |
| JoinClaims.OutcomesAreExact | fuku/modules/membership.go:104-114 | The outcomes say exactly that, and the bot, repeated names and held claims are ignored |

## Left out

- Telegram, HTTP, Redis and SQL themselves: each call is an input, each repository call one atomic conditional update as `fuku/db` implements it. Clock differences between processes and the Redis claim path are not modelled; there is one monotone clock.
- Message texts, keyboards, callback parsing, translations of texts, command registration, configuration, metrics and shutdown wiring.
- Pacing: `lockdownPaced` is reduced to done, refused or failed.
- Image and text captcha generation (but for the shuffle), the Turnstile page, tokens and cookies.
- Federation import and export, keyword matching, the AI-spam breaker, backup tokens, recent-joins merge, the module registry: they would add only easy members.
- The worker's and the lift's loops over many rows (`lockdown_worker.go`) are steps of `LockdownProtocol`, not methods: their core is the order of row moves and Telegram calls on one account.
- Liveness: that the cleanup tick, the unmute tick and the worker keep running is assumed nowhere and proved nowhere. After a refresh an attempt's own timer ignores itself (`fuku/modules/captcha.go:1420-1423`), so its expiry rests on the tick.
- The wrong-answer counter of a captcha attempt: it only decides when a settling call starts, which `CaptchaDecider` allows at any time.
- LockdownResponse.Store.BanOne: a rival caller is allowed one change of the joiner row, between the read and the claim; changes at any other point are the subject of `LockdownProtocol`.
- LockdownResponse.ResponseBanFrame: states that state and detail are restored, not the attempt counter of a banned row, which the move from acting to banned starts again.
- LockdownProtocol.ReachableIsSafe: the joiner row's attempt counter is left open there; a failed call of the worker or the lift may go back or end as failed at any time, which covers every counter.
- LockdownBanRun.CrashCostsNothing: the release of stale claims is a step that finds no live holder; the age limit that keeps it from a live one is a matter of time limits, here as in `LockdownProtocol`.
- LockdownBanRun.StartedRunIsBounded: for timely claims; `EveryRunIsBounded` is the bound without them, and `TwoReplicasOverrun` shows that two replicas reach it.
- LockdownPermissions.NormalIsLostExactlyByDisorder: the group's admins do not change its permissions themselves, and normal permissions that grant nothing are set aside, because then locked and open look alike.
- LockdownGuard.RecordJoin: the guard's reads of the lockdown and the sender's identity before it are not part of this model.
- CaptchaMember.NobodyIsLeftMuted: each operation on a member is one step, and Telegram answers "gone for good" truthfully. Operations that interleave on one member are `CaptchaDecider` and `MuteTable.UnmuteListed`.
- LocaleIndex.DescentIsDetermined: keys are ASCII, as in every shipped locale. The Unicode tables themselves are not part of this model: the results hold for every pair of tables that meets `LocaleText.Fits`.
- Reminders.RemindersAreCurrent: a copy can be sent twice after its record is lost and its claim released, which the source accepts.
- JoinClaims.RecentJoins.ProcessSingleJoin: its claim is undisturbed; rival calls are an input of `Claim` and steps of the machine above it.
- Antiflood.CounterIsTheWindow: limits are natural numbers; the commands allow 0 and 3 to 100.

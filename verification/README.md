# A verified model of the vk-sandbox provider

vk-sandbox is a virtual kubelet that serves Pods from sandboxd, a node-local
daemon that hands out running microVMs. A claim of a sandbox comes with a release
token, and that token is the only way to give the sandbox back. The provider's
work is therefore custody: to hold every token in a table, to keep the table in
a state file, and to release a sandbox only when someone with authority over it
wants it gone, while Pods are created, deleted and recreated, listings and
releases and writes fail, and the process dies at any point.

This project models that work and proves what the provider promises about it.

## How the model is built

- `Types` has the claims, Pods and tables; `Sections` has what each critical
  section does to the tables, as a function of the tables.
- `Ownership` is the verdict on a controller owner, `Backoff` the schedule of the
  owner re-check.
- `Outcome` says what a lifecycle call leaves, in a second and independent way:
  key by key and field by field. A slot is all the tables say of one key (its Pod,
  its row, its two markers), and `Creates`, `Updates` and `DeletesPod` give the
  slots, the queue, the file, the releases and the pushes after a call, without
  any critical section. They determine all of it (`Consequences.CreateDetermined`
  and its siblings).
- `Provider` is the class: its fields are the source's, its methods are the
  source's methods, with loops where the source has loops, proved against
  `Outcome`. `Slots` is the link from sections to slots, `Custody` what keeps the
  tables sound and durable, and `Consequences` what follows from an outcome.
  `Drain`, `Recheck` and `Scan` have the background loops. What the world answers (listings, releases, claims,
  writes, owner reads, the clock) is a parameter. So is what the rest of the
  provider makes of the tables, and in the owner re-check of the state file, where
  a loop does not hold the lock: an arbitrary function of them. For the owner
  re-check that is every such point up to the snapshot of its write.
- `Machine` is the whole provider as a state machine. Every step is one critical
  section or one exchange with the world, taken by any number of lifecycle calls
  (one per key), the verification loop, the lease watch, the owner re-check, the
  writer that holds `saveMu`, the node itself, or a crash. It uses the same
  `Sections` functions as the class.
- `Invariant` is what holds in every reachable state; `Stability`, `Frames`,
  `CallSteps`, `ClaimSteps`, `SaveSteps`, `ThreadSteps` and `Reachability` prove
  that every step keeps it. A call in flight remembers facts about what it has
  read, and the proof shows that no step of another thread takes them away.
- `History` says what no step takes back, and `Theorems`, `Statuses`, `Requests`,
  `Running`, `Holders` and `Audit` state the results over whole runs.
- `Solo`, `Refinement` and `Loops` prove that class and machine agree: what a call,
  a start or a pass of a loop leaves when it runs alone is what a run of the machine
  leaves in which only that thread steps. So the results over whole runs are about
  the class too.

## What is assumed

- sandboxd never issues an id twice, and a listing is the set of sandboxes the
  node held at some instant between the call and its return.
- A release that returns no error means the sandbox is gone. One that returns an
  error means nothing: the sandbox may go at any time.
- The rename of the state file is atomic with respect to a crash, a write that
  reports an error has left the old file in place, and the first state file of a
  history holds each sandbox once.
- virtual-kubelet runs one lifecycle call per key at a time.
- A lister and a state path are configured, as the binary does
  (`main.go:177-182`).
- The dynamic client answers a read of an object without a name with an error of
  its own and asks nobody, so a 404 is always about a named owner
  (`Ownership.Answerable`).

Times are seconds and Pods, sandboxes, tokens and owners carry no more structure
than the code looks at.

## Running without a row

`docs/architecture.md:169-170` promises that Running is reported only of a claim
whose write has landed, and `provider/provider.go:94-98` that it is not reported
of a tentative or quarantined key. Both hold of every read and every push. That
the row is still in the table does not follow for a push: a create does not look
at the table again after it adopted, and a verification that took its snapshot
before the adoption may drop the row in between, because the node lost the
sandbox. A claim made in the same lifetime is never affected, since only rows
that came with the state file are ever in a verification's snapshot.

- `Theorems.RunningIsSound` states what every push guarantees.
- `Running.RowAtPushIff` is the exact condition, to be read off as the create
  adopts: the row is sure to be there at the push if and only if no verification
  in flight has it in its snapshot with a listing that is yet to come or lacks it.
- `Running.RunningWithoutRow` is a run in which it is gone.

## Whose row it is

Two more things a reader might expect do not follow from the code, and each has
its condition.

- An update of a Pod at a key that tracks none records the Pod whatever row is
  there (`provider/create.go:117-131`), and a status read then reports the row's
  sandbox for it. `Holders.StrangerWasRecorded`: nothing else ever puts a Pod
  beside a row that is not bound to it. `Holders.StrangerReadsRunning` is a case.
- The re-check compares ids when it withdraws (`provider/recheck.go:73-76`), so a
  row that was adopted and preserved again since the snapshot is withdrawn on the
  verdict about the earlier owner. `Holders.WithdrawnForItsOwnerIff` is the exact
  condition and `Holders.WithdrawnForAnother` a case.

## Model

| member | source | states |
|---|---|---|
| `Reachability.StepInv` | provider/provider.go:83-111 | every step of every thread, crash included, keeps the invariant of the tables, the file, the history and the calls in flight |
| `Reachability.RunInv` | provider/provider.go:114-140 | so it holds in every state of every run, from any well-formed state file |
| `History.RunGrows` | provider/provider.go:163-209 | no step takes back anything of the history: the log, tokens, claim references, releases and absences; within a lifetime the queue remembers its sandboxes, no sandbox changes its key, and the quarantine only shrinks |
| `Theorems.Durability` | provider/provider.go:344-376 | in every reachable state each row that is not tentative and each queued claim is in the last renamed file with its token, however saves interleave with creates, deletes and drains |
| `Theorems.CrashRecovery` | provider/provider.go:351-376 | from the moment a sandbox is first in the renamed file, through any crashes and restarts, it is on file with its token and a running process holds it, unless a release succeeded or a listing confirmed it absent |
| `Theorems.CommitRecovery` | provider/provider.go:330-341 | the rename of a create's own write is that moment, also for a crash before the marker clears |
| `Theorems.GenesisRecovery` | provider/provider.go:258-287 | the same for every row and queued claim of the first state file |
| `Theorems.ClaimConserved` | provider/create.go:90-110 | from the grant on, a sandbox is at its key, queued, released or confirmed absent for as long as the process lives, however calls and loops interleave |
| `Theorems.RowConserved` | provider/create.go:194-224 | so is every row the table ever held in that lifetime, stranded and loaded ones included |
| `Theorems.NeverOverwritten` | provider/create.go:65-105 | no claim is asked for or written while its key holds a row |
| `Theorems.ReleaseAuthority` | provider/delete.go:23-38 | every release ever asked used the sandbox's own token and has an earlier justification: a release verdict on the deleted Pod's controller or on the owner recorded for the sandbox, a refused adoption, a failed write, or the first file's queue |
| `Theorems.JustifiedByAnOwner` | provider/ownership.go:57-88 | a verdict that justifies is a bare Pod's delete, or an owner read and found not alive or missing under its own name; never a failed query, and for a re-check never the absence of an owner |
| `Theorems.RecheckAsksItsOwner` | provider/recheck.go:31-47 | over every run, whatever the re-check asks about is an owner that a delete, or the first file, recorded for that sandbox |
| `Theorems.UndoneNeverDurable` | provider/create.go:212-224 | a claim whose write failed was in no state file before and is in none after |
| `Theorems.RowsLeaveForCause` | provider/provider.go:163-209 | a row leaves a living table only for the release queue or because the node holds the sandbox no more, whatever a stale listing said and whoever took the key meanwhile |
| `Theorems.GoneForGood` | provider/provider.go:160-183 | what a listing lacked, or a release succeeded for, is never on the node again |
| `Theorems.FailedOnlyWhenGone` | provider/orphan.go:104-150 | Failed is pushed only for a sandbox the node does not hold, then or ever again |
| `Statuses.FailedForItsHolder` | provider/orphan.go:133-149 | and only at a key that at that moment holds that sandbox, for the Pod the key tracks, with the start time of its row |
| `Statuses.ReadOfItsHolder` | provider/status.go:33-54 | a read reports Running or Failed only of a settled row of the tracked Pod, and Failed exactly from its deadline on |
| `Theorems.OwnerIsolation` | provider/create.go:134-152 | a Pod that takes over a row with an authority or an owner on record is an earlier holder of the sandbox, or answers to the owner it was kept for, or, with no owner on the row, to an earlier holder's authority; also across restarts and failed saves |
| `Theorems.HoldersAreRecorded` | provider/provider.go:39-63 | what a row says about its Pod, authority and owner was true of an earlier holder of that sandbox |
| `Requests.ActsForItsGeneration` | provider/provider.go:247-254 | however calls and loops interleave, an update or a delete past its guard is of the Pod generation its key tracks |
| `Requests.OnlyProperRequests` | provider/create.go:45-88 | nothing is claimed or adopted for a Pod of another runtime, and nothing claimed for a malformed request |
| `Requests.ServesOnlyOnceReady` | provider/provider.go:129-139 | a process serves only once its startup verification has returned and its table, start times included, is on disk |
| `Theorems.RunningIsSound` | provider/create.go:226-230 | a push of Running is for an unreleased and unqueued claim of this Pod whose write has landed, at a settled key; the row is there and on file with its token, or it came with this start's state file and the node has lost the sandbox |
| `Running.RowAtPushIff` | provider/create.go:57-63 | after an adoption, in every continuation the row is there at the push if and only if no verification in flight can still drop it |
| `Running.RunningWithoutRow` | provider/provider.go:172-208 | a whole run, start to push, in which a verification in flight at the adoption drops the row |
| `Theorems.NeverRunningAfterRelease` | provider/create.go:226-230 | no Running is pushed for a sandbox after a release of it succeeded, in any lifetime |
| `Theorems.NoWayBack` | provider/recheck.go:69-80 | within a lifetime a queued sandbox never has a row again, so no Pod adopts one on its way out |
| `Theorems.QueuedUntilReleased` | provider/recheck.go:82-101 | and it stays queued until a release of it succeeds |
| `Theorems.UnvouchedStaysQuarantined` | provider/provider.go:314-320 | a loaded row that is settled was vouched for in this lifetime |
| `Theorems.VouchedWasListed` | provider/provider.go:185-208 | whatever was vouched for was in a listing that a verification of this process got, the loop's or a create's |
| `Theorems.VerifiedForGood` | provider/orphan.go:83-87 | after a verification that succeeds, the loop's or a create's, the quarantine is empty for the rest of the lifetime, so the loop may stop |
| `Theorems.Structure` | provider/provider.go:83-111 | a sandbox has one place in the table and queue, in memory and on disk; markers are disjoint and on rows |
| `Theorems.StartTimeNeverMoves` | provider/status.go:33-93 | any two statuses of one sandbox, read or pushed, give the same start time, across adoptions, refreshes, restarts and the backfill of old tables |
| `Holders.StrangerWasRecorded` | provider/status.go:33-54 | the Pod a status read answers for is the one the row is bound to, unless an update recorded another Pod there and the key has had a stranger beside its row ever since |
| `Holders.StrangerReadsRunning` | provider/create.go:117-131 | a reachable state in which that happened and a status read reports Running |
| `Holders.WithdrawnForItsOwnerIff` | provider/recheck.go:36-56 | a row is withdrawn on the verdict about its own owner if and only if no delete since the snapshot left it with another owner on record |
| `Holders.WithdrawnForAnother` | provider/recheck.go:70-80 | a reachable state about to withdraw a row on the verdict about an earlier owner |
| `Theorems.OwnAlwaysReferred` | provider/create.go:78-90 | every sandbox issued to this provider carries a claim reference, its response lost or not |
| `Audit.OwnIsNeverOrphan` | provider/orphan.go:44-63 | so no scan reports one of them as an orphan |
| `Audit.StaleInEveryRun` | provider/orphan.go:64-71 | in every reachable state the stale keys are exactly the rows the listing lacks, once each |
| `Ownership.ScanConditions` | provider/ownership.go:90-99 | the scan is true exactly when the first Ready condition has the Expired reason, malformed entries skipped |
| `Ownership.ReleaseIffOwnerRefuted` | provider/ownership.go:54-88 | the verdict is release if and only if the Pod is bare, or the owner's resource is known and the owner was read and is not alive or is missing under its own name |
| `Ownership.UnverifiableOwnerPreserves` | provider/ownership.go:61-80 | a failed query, a missing client or an underivable resource preserves |
| `Ownership.Unnamed404Preserves` | provider/ownership.go:54-75 | a 404 that names nothing always preserves, the client asking only for named owners |
| `Ownership.Unnamed404PreservesIffOwnerNamed` | provider/ownership.go:69-75 | on the comparison alone it would preserve if and only if the owner has a name or its resource is never queried |
| `Backoff.DelayBounds` | provider/recheck.go:57-61 | the delay after read `i` is at least the base doubled `i` times or the cap, and at most the cap or a larger base |
| `Backoff.DelayIs` | provider/recheck.go:57-61 | for a base up to ten minutes it is exactly the base doubled `i` times or ten minutes |
| `Backoff.ReadsAreExact` | provider/recheck.go:44-61 | the first tick reads, and a later one if and only if the delay of the last read has passed |
| `Backoff.GapsGrow` | provider/recheck.go:44-61 | two successive reads of a key's owner are at least that delay apart, at any tick times |
| `Backoff.ReadsAreBounded` | provider/recheck.go:44-61 | reads over a span are at most the doublings to the cap, plus one, plus one per whole cap of the span |
| `Backoff.ReadsAreTimely` | provider/recheck.go:44-61 | with ticks at most `d` apart, a read comes within the cap plus `d` of the previous one |
| `Backoff.ReadsComeAgain` | provider/recheck.go:44-61 | a tick a whole cap after the last read is a read |
| `Provider.Provider.constructor` | provider/provider.go:258-287 | a start loads every row of the file, its start time backfilled, with no Pod and in quarantine, and the queue |
| `Provider.Provider.VerifyClaimsAgainstNode` | provider/provider.go:163-209 | every quarantined row leaves quarantine: kept with its deadline, or the listed one if it had none, when listed, dropped when not; no other slot changes; a failed listing changes nothing and reports false |
| `Provider.Provider.Judge` | provider/provider.go:192-208 | the loop over the snapshot judges, in that way, exactly the keys that are still for the sandbox of the snapshot |
| `Provider.Provider.Write` | provider/provider.go:351-376 | the file becomes exactly the rows that are not tentative, as they are, plus the committing one, and the queue; or is untouched |
| `Provider.Provider.SaveState` | provider/provider.go:323-327 | a log-only save keeps what is durable durable, landed or not |
| `Provider.Provider.TryAdopt` | provider/create.go:57-63 | adoption succeeds exactly for a row without a marker that is the Pod's own, or whose recorded owner the Pod answers to, or that has no owner and an absent or matching authority; it leaves the row bound, the Pod tracked and Running pushed once; another owner's row goes to the end of the queue; nothing else changes |
| `Provider.Provider.ResolveUnverifiedClaim` | provider/create.go:180-191 | a quarantined key is verified by a listing, all others with it, and the create goes on if and only if the key was not quarantined or the node could be listed |
| `Provider.Provider.SettleExpiredClaim` | provider/create.go:156-177 | a row at or past its deadline takes the listed one or is dropped, no other key changes, and the create goes on if and only if there was none or the node could be listed |
| `Provider.Provider.ClearStrandedClaim` | provider/create.go:194-209 | a stranded sandbox is returned before its key is used, which is then empty, its Pod untracked; or the create fails and nothing changes |
| `Provider.Provider.ClaimNew` | provider/create.go:95-114 | a granted claim ends with all its fields in the table, on file and published once exactly when its write landed; undone it leaves the key empty, otherwise a tentative row |
| `Provider.Provider.CreatePod` | provider/create.go:41-115 | the create leaves exactly the outcome `Creates`: the slot of its key, of every other key, the queue, the file, the releases in order and the push, and succeeds and asks the node exactly when `Succeeds` and `Asks` say; the tables stay sound and durable |
| `Consequences.CreateKeeps` | provider/create.go:41-115 | from that: every credential the tables held is still held, was used in a release that succeeded, or is of a sandbox a listing lacked |
| `Consequences.CreateAccountsForGrant` | provider/create.go:194-224 | a granted sandbox is held or was released, and none is asked for before the stranded one was returned |
| `Consequences.CreateReleasesOnlyItsOwn` | provider/create.go:194-237 | a create releases nothing but the stranded sandbox and the one just granted, with their tokens |
| `Consequences.CreateBinds` | provider/create.go:57-114 | success leaves one settled row at the key, on file and bound to the Pod, and one push of Running for it |
| `Consequences.CreateFails` | provider/create.go:41-115 | failure pushes and writes nothing, and a row it leaves where there was none is tentative |
| `Consequences.CreateUntracks` | provider/create.go:239-248 | a key whose claim was undone, or whose stranded one was returned for nothing, has no row, no Pod and no marker |
| `Consequences.CreateDetermined` | provider/create.go:41-115 | two outcomes of a create that answer to the same tables and answers are equal in every field |
| `Refinement.CreateIsARun` | provider/create.go:41-115 | from every reachable state, for every answer of node and file system, the machine's steps of a create alone leave that outcome |
| `Provider.Provider.UpdatePod` | provider/create.go:117-131 | a stale generation changes nothing; a tentative key goes through a create with its whole outcome; any other update records the Pod and changes nothing else |
| `Consequences.UpdateDetermined` | provider/create.go:117-131 | the outcome of an update is determined in every field |
| `Refinement.UpdateIsARun` | provider/create.go:117-131 | the machine's steps of an update alone leave the same |
| `Provider.Provider.DeletePod` | provider/delete.go:12-41 | a stale delete and a failed release change no table; the sandbox is released exactly when the Pod is bare or its controller was read and refuted, and the key is then empty; otherwise the Pod is untracked and the row differs only in its owner; no other key and not the queue is touched, and the file is the tables exactly when the save landed |
| `Consequences.DeleteKeeps` | provider/delete.go:12-41 | every credential is still held or was used in a release that succeeded |
| `Consequences.DeleteDetermined` | provider/delete.go:12-59 | the outcome of a delete is determined in every field |
| `Refinement.DeleteIsARun` | provider/delete.go:12-59 | the machine's steps of a delete alone leave the same |
| `Provider.Provider.GetPodStatus` | provider/status.go:33-54 | a tracked key without a row, or with a marker, reads Pending; a settled row reads Failed exactly from its deadline on and Running before, with the claim's start time, and is on file |
| `Loops.StartIsARun` | provider/provider.go:114-140 | a start of the machine leaves the file's rows as the class loads and verifies them, and serves exactly when its write landed |
| `Loops.VerificationIsARun` | provider/provider.go:163-209 | a verification of the machine leaves the slots the class's does |
| `Drain.DrainReleases` | provider/recheck.go:83-101 | the drain asks for each claim queued at its start once, with its token, and takes the released ones out of the tables as they are by then, whatever happened to them meanwhile |
| `Drain.DrainTouches` | provider/recheck.go:89-99 | a release takes exactly the entries of that sandbox out of the queue as it is by then, and touches nothing else |
| `Drain.DrainLeaves` | provider/recheck.go:89-99 | when others only join the queue, what is left is the claims whose release failed, in order, then those that joined |
| `Drain.DrainKeeps` | provider/recheck.go:89-99 | a credential nobody else loses is held after the drain or a release of its sandbox succeeded |
| `Drain.SurvivesOrReleased` | provider/recheck.go:89-99 | a queued claim is among the failures or its release succeeded |
| `Recheck.AskOwners` | provider/recheck.go:29-62 | whatever the tables and the file become while an owner is read: exactly the rows with an owner on record, no Pod, neither marker and a due backoff are asked about, once each, as the snapshot has them; an ask moves its row as below; the tick changes nothing else; the backoff is the preserved keys', one tick on |
| `Recheck.AskTouches` | provider/recheck.go:70-80 | an ask moves its row to the end of the queue exactly when the owner was read and refuted and the key still holds that sandbox and no Pod; it changes nothing else |
| `Recheck.BackoffIsExact` | provider/recheck.go:42-61 | after a tick a key has no entry if it is not preserved or its owner was refuted, its old one if it was not due, and else one whose delay is the base or twice the last, up to ten minutes |
| `Recheck.QueueFrom` | provider/recheck.go:43-56 | a claim queued after the asks was queued before, joined meanwhile, or was moved by an ask |
| `Recheck.TicksFollowSchedule` | provider/recheck.go:57-61 | over ticks at which a key stays preserved its entry is that of the backoff schedule |
| `Recheck.RecheckOwners` | provider/recheck.go:29-66 | a whole tick, the tables and the file becoming anything wherever the lock is not held up to the snapshot of the write: the asks, the drain of what is queued by then, and a write of the tables as they then are exactly when a row moved or a release succeeded |
| `Recheck.TickKeeps` | provider/recheck.go:29-66 | a credential nobody else loses is held when a tick ends or a release of its sandbox succeeded |
| `Recheck.TickStaysSound` | provider/recheck.go:29-66 | if the rest of the provider keeps the tables sound and what they hold on file, its own saves included, so does a tick, whether its write lands or not |
| `Loops.TickIsARun` | provider/recheck.go:29-101 | in whatever order it asks, a tick of the machine alone leaves the tables, the file and the releases the class's does |
| `Scan.SnapshotExpired` | provider/orphan.go:107-116 | the candidates are exactly the rows at or past their deadline, without a marker, whose key has a Pod |
| `Scan.PublishExpiredLeases` | provider/orphan.go:104-150 | whatever the tables become between two candidates: each is judged once, as the snapshot has it; a listed one is refreshed, Failed is pushed once for an unlisted one that then still holds its key and Pod, a replaced one is passed over; a failed listing does nothing |
| `Scan.NoticesAreExact` | provider/orphan.go:133-149 | a push is among them if and only if the listing lacks a candidate's sandbox and at that moment the key has a row for it and a Pod, and the push is Failed for that Pod with the candidate's start time |
| `Scan.JudgementChanges` | provider/orphan.go:133-138 | a judgement changes nothing but the deadline of a listed candidate that still has its key, to the listed one |
| `Loops.WatchIsARun` | provider/orphan.go:104-150 | in whatever order it judges, a pass of the machine's watch alone leaves the tables and the pushes the class's does |
| `Scan.OrphanScan` | provider/orphan.go:19-72 | an audit changes nothing but its own verdicts; the orphans are exactly the listed sandboxes in no row and no queue entry without a claim reference; stale keys, verdicts and log lines are those of the listing and the tables; a failed listing reports nothing |
| `Scan.OrphansAreExact` | provider/orphan.go:44-63 | a sandbox is reported if and only if a row of the listing has it without a claim reference and it is in no row of the table and no queue entry |
| `Scan.StaleIsExact` | provider/orphan.go:64-71 | a key is reported once if and only if its row's sandbox is not listed |
| `Scan.VerdictsAreExact` | provider/orphan.go:43-71 | external is given exactly to listed sandboxes in no row and no queue entry with a claim reference, orphan to those without one, stale to rows the listing lacks; a sandbox has at most one verdict |
| `Scan.LogsTheChanges` | provider/orphan.go:99-102 | a line is logged if and only if this scan gives a verdict the previous one did not |
| `Scan.LogsOverAudits` | provider/orphan.go:19-72 | over a process's scans, failed listings between them, a line is logged if and only if the scan gives a verdict the last scan with a listing did not give |
| `Scan.LogsOnce` | provider/orphan.go:98-102 | and no line is logged twice by one scan |
| `Scan.RescanIsSilent` | provider/orphan.go:98-102 | a second scan of an unchanged node and table logs nothing |

## Left out

- Provider.Provider: the class runs one call at a time; how calls and loops interleave is the state machine's part.
- Refinement.CreateIsARun: the node is as it was at both listings of the call, as in a run in which nothing else steps.
- Reading and decoding the state file: a failure stops the start (provider/provider.go:266-274), which the machine has as staying down.
- A provider without a lister or a state path, which only tests build (provider/provider.go:131, provider/provider.go:352).
- JSON and file modes, directory creation, `fsync`; HTTP clients, deadlines and cancelled contexts; tickers, which become arbitrary times.
- The plural rules and group-version parsing of owner kinds (provider/ownership.go:28-52): an owner reference is resolvable or not.
- Container statuses, addresses, conditions and messages of a status; the node, size and network annotations of a claim.
- `GetPod`, `GetPods`, `ClaimAddresses` and the unsupported kubelet endpoints: lookups and constants.
- Node registration, events, certificates and inventory publication, outside the provider package.
- Whether a loop ever gets to run: the results are about what happens when it does.

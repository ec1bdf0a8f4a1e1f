# A verified model of the VM panel

The panel (FastAPI, one process) lets an administrator create, power, reinstall and delete
virtual machines on Proxmox. HTTP handlers write VM and job rows and put jobs on an in-memory
queue; one worker runs them, with a commit between any two calls to Proxmox; a crash loses the
queue and everything in memory, and startup repairs the rows. Safety rests on the order of
commits across several files. This project models that engine, and the self-contained
algorithms around it, and proves what they keep over all runs.

## The lifecycle engine

`Panel.dfy` is a step system over the committed rows, the queue, the worker's position, the
handlers in flight, the owner of the create lock, and the guests that Proxmox holds. A step
runs from one suspension point that matters to the next; crashes may come between any two
steps; every Proxmox call may succeed, fail, time out, or (for a clone) be accepted although
the panel sees a failure. `IsRun` is a run from the first deployment on.

- `PanelTickets` ... `PanelInvariant`: one invariant, kept by every step.
- `PanelTheorems`, `PanelDrain`, `PanelRecovery`: the guarantees over whole runs.
- `PanelConservation`, `PanelHarm`, `PanelOrder`, `PanelCounterexamples`: exactly when the
  guests and the live rows stay in one-to-one correspondence, and when a guest is lost.
- `PanelLookup`: what the engine takes for granted about "not found", from the replies.
- `JobSession`, `PanelInterference`: the job functions as imperative code, proved to make
  exactly the steps of the step system, whatever the rest of the system does meanwhile; and
  any stretch of a run inside one job function is proved to be a path of that code.
- `PanelPaths`, `JobOutcome`, `JobRuns`: what a job does, told from the answers it got: which
  calls it makes in which order, exactly when it fails, and what it leaves in its row; along a
  path of one job function, and for a job in a run of the whole system.
- `Requests`: the API handlers as imperative code, each wait filled with any steps of the
  others; what a handler does is a run of the step system.

Three things the proofs brought to light:

1. **Conservation needs more than "no job is committed after a delete".** A reinstall that is
   committed before a delete but enqueued after it runs on the deleted row and leaves that row
   a guest (`OvertakenReinstallHauntsA`), and a repeated delete destroys the guest of another
   VM that got the freed VMID (`DeleteAgainRobsB`). The exact condition, per job and at the
   moment it starts, is `Harmless`: the job destroys nothing, or its row is live, or it only
   deletes and the row's VMID names no guest any more (`JobConservesIff`). In terms of requests,
   it is the order of *enqueueing* that counts (`OrderlyRunConserves`).
2. **A guest can be lost in exactly three ways** (`LostIff`): a crash between the clone call
   and the commit of `target_vmid`; a clone call that Proxmox accepted but that failed for the
   panel; and a job that fails after `target_vmid` is committed and before the row records it,
   because a failed job is never looked at again by startup. Each way is reachable
   (`CrashLosesClone`, `FailedCallLosesClone`, `FailedJobLosesClone`).
3. **"Not found" can be said of a guest that exists**: `resolve_vm_node` reports a guest
   missing when the preferred node refuses to tell and the cluster listing is not a list, or
   is one without it (`NotFoundIff`, `NotFoundThoughPresent`). If the listing is a list that
   names every existing guest, "not found" is true (`NotFoundMeansAbsent`); that much
   truthfulness is what the engine's theorems assume of Proxmox (`TruthfulLookup`), and
   without it the code can get an answer that they exclude (`UntruthfulLookup`).

What holds of deletion is that `deleted_at` is never cleared; the *status* of a deleted row is
not fixed, since a job queued behind the delete still runs on it.

## The algorithms around it

`Throttle` (sliding window), `ResetCodes` (single-use codes), `Exposure` and `ExposureProxy`
(the routing lookup and the proxy's cache), `Terminal` and `TerminalSocket` (claiming
sessions), `DiskSize` (sizes and the never-shrink rule), `Backup` (rotation as an incremental
top-k), `Polling` (retries and bounded waiting).
Classes carry the code that updates state in place; lemmas beside them state what any sequence
of calls keeps.

Check everything with `dafny verify dfyconfig.toml`.

## Model

| member | source | states |
|---|---|---|
| PanelInvariant.StepKeepsInv | backend/app/workers/inprocess.py:21-104 | every step of handlers, worker, Proxmox, crash and startup keeps the whole invariant: tickets, rows, fresh creates, no stuck VM, hostnames, guest references |
| PanelInvariant.ReachableInv | backend/app/main.py:71-77 | the invariant holds in every reachable state |
| PanelTheorems.NeverForgotten | backend/app/services/lifecycle.py:332-388 | in every run, a recorded VMID is replaced, cleared, or its row deleted only at a step before and after which that guest is absent from Proxmox |
| PanelTheorems.LostIff | backend/app/services/lifecycle.py:191-213 | a guest is unknown to its row and to any running job if and only if one of three named steps hit it earlier in the run and it has existed since |
| PanelGuests.LostExactly | backend/app/services/lifecycle.py:191-213 | the same for one step, both directions |
| PanelTheorems.CloneAdopted | backend/app/services/lifecycle.py:97-101 | a running job with target_vmid has a row with no VMID or that one; a crash then, and recovery, leave the row with exactly that VMID and the job failed |
| PanelTheorems.AtMostOnce | backend/app/workers/inprocess.py:32-40 | over all crashes and restarts no job's body starts twice |
| PanelTheorems.OneRunning | backend/app/workers/inprocess.py:32-40 | at most one job is running, and while the process is up it is the worker's |
| PanelTheorems.History | backend/app/workers/inprocess.py:38-87 | over any stretch of a run job status only moves forward, rows keep hostname, deletion and never lose disk, started jobs stay started |
| PanelTheorems.StepIsLater | backend/app/workers/inprocess.py:38-87 | no step takes a job from queued straight to success, and every step only moves forward |
| PanelTheorems.LiveHostnamesUnique | backend/app/api/routes.py:56-110 | no two live rows have hostnames that are equal but for the case of ASCII letters, for any number of concurrent creates and deletes |
| PanelTheorems.HostnamesAreLower | backend/app/schemas/vms.py:14-17 | no row ever recorded has a hostname with a capital letter |
| PanelHosts.TakenIff | backend/app/api/routes.py:64-66 | the lookup behind the 409 finds a live row exactly when one has that hostname ignoring case |
| Entities.LowerIgnoresCase | backend/app/schemas/vms.py:14-17 | lower-casing identifies exactly the strings that agree letter by letter up to case |
| PanelHosts.InsertKeepsHosts | backend/app/api/routes.py:64-110 | the insert under the lock, after the re-check, keeps live hostnames unique |
| PanelTheorems.SshReadyHasAddress | backend/app/services/terminal.py:75-95 | in every committed state an SSH-ready VM has its address recorded |
| PanelTheorems.NoStuckVm | backend/app/workers/inprocess.py:39-87 | while serving, a live VM in a transient status is the running job's, or is creating and its create job is queued, held by a handler, or just taken |
| PanelTheorems.DispatchLeavesSteady | backend/app/workers/inprocess.py:78-87 | whichever step ends a job, it ends in success or failed and its VM is not left in a transient status |
| PanelTheorems.CalmRunConserves | backend/app/services/lifecycle.py:332-340 | a run without crash or lost task in which every started job is harmless has guests equal to live rows whenever the worker is idle |
| PanelConservation.ExactMeansDistinct | backend/app/services/lifecycle.py:211-213 | then the guests are exactly the VMIDs of the live rows, and no two live rows share one |
| PanelConservation.StepConserves | backend/app/services/lifecycle.py:141-153 | each calm step conserves, if a job that starts is harmless |
| PanelHarm.JobConservesIff | backend/app/services/lifecycle.py:343-388 | one job that meets no failure, amid any steps of handlers, keeps the correspondence if and only if it was harmless when it started |
| PanelOrder.OrderlyRunConserves | backend/app/workers/inprocess.py:14-29 | from a serving panel at rest, over any run without crash or lost task in which no handler enqueues a reinstall or delete of a VM once it is deleted or a delete of it is queued or with the worker: every job is harmless when it starts, and guests equal live rows whenever the worker is idle |
| PanelOrder.StepKeepsOrdered | backend/app/workers/inprocess.py:14-29 | each step but a crash keeps: no destroying job of a VM stands behind a delete of it, in the queue or behind the worker, and the VMs of queued destroying jobs are live |
| PanelCounterexamples.CrashLosesClone | backend/app/services/lifecycle.py:192-208 | the first way to lose a guest is reachable: a crash after the clone call and before target_vmid is committed |
| PanelCounterexamples.FailedCallLosesClone | backend/app/services/lifecycle.py:192-195 | the second is reachable: Proxmox accepts a clone whose call fails for the panel |
| PanelCounterexamples.FailedJobLosesClone | backend/app/services/lifecycle.py:209-213 | the third is reachable: the wait for the clone task fails once target_vmid is committed, and the failed job keeps an id that the row never records |
| PanelCounterexamples.DeleteAgainRobsB | backend/app/workers/inprocess.py:65-70 | delete A, create B, delete A: without any failure the second delete destroys B's guest |
| PanelCounterexamples.OvertakenReinstallHauntsA | backend/app/api/routes.py:446-472 | a reinstall committed before a delete but enqueued after it leaves the deleted row a guest |
| PanelDrain.Drains | backend/app/workers/inprocess.py:21-79 | with no new request and no crash the panel takes a bounded number of steps; when it can take no more, every job has ended and no live VM is transient |
| PanelDrain.ClosingCosts | backend/app/services/lifecycle.py:455-460 | every panel step lowers the bound, in which a job weighs more than the SSH check it spawns |
| PanelDrain.Progress | backend/app/workers/inprocess.py:21-29 | unless everything is at rest some panel step is possible, so the create lock never deadlocks |
| PanelRecovery.Startup.MarkOrphanedRunningAsFailed | backend/app/services/lifecycle.py:90-116 | the two loops fail every running job; per row: a live VM in one of the six interrupted statuses shows error and any other keeps its status, a row without VMID gets the clone of the first running job that has one for it, and no other column changes |
| PanelRecovery.Startup.RequeueQueuedJobs | backend/app/workers/inprocess.py:95-104 | the loop enqueues each resumable waiting job once and fails create and reinstall jobs |
| PanelRecovery.Startup.Lifespan | backend/app/main.py:71-77 | both in that order, on the rows a crash left: the same per row, and per job: running ones and waiting creates and reinstalls fail, the rest keep their status |
| PanelRecovery.RecoveryIsCorrect | backend/app/main.py:71-77 | after startup no job is running, no live VM transient, no create or reinstall waiting, and the queue holds each waiting job exactly once |
| PanelRecovery.RecoveredRows | backend/app/main.py:71-77 | crash and startup from any state, row by row and job by job: what each column becomes; guests untouched |
| PanelRecovery.RowsMarked | backend/app/services/lifecycle.py:90-116 | the same for the rows that the orphans' marking leaves |
| PanelRecovery.MarkIsRestartable | backend/app/services/lifecycle.py:90-116 | a crash after the first or second commit of startup, and a restart, mark the same rows |
| PanelRecovery.RecoveryIsRestartable | backend/app/workers/inprocess.py:95-104 | crash and recovery after a complete recovery give the same rows and queue |
| PanelInterference.OthersOnlyMeddle | backend/app/api/routes.py:511-520 | while a job function waits, any other step changes what it works on only by resetting ssh_status or by a guest that vanishes |
| PanelInterference.WorkIsBody | backend/app/workers/inprocess.py:39-77 | a worker step inside a job function is that function's own step |
| JobOutcome.FailsIff | backend/app/services/lifecycle.py:119-388 | a job function raises exactly at its first fatal answer: a failure, but for those that the source swallows while stopping a guest, resetting its identity or awaiting an address; a clone it cannot see; a disk known to be too small that cannot be resized |
| JobOutcome.CleanJobEndsWell | backend/app/services/lifecycle.py:119-388 | a job of any kind none of whose answers reports a failure ends well; "not found" is no failure |
| JobOutcome.EndsWithOutcome | backend/app/services/lifecycle.py:119-388 | a job that ends well made all its calls in the source's order, and its row holds what they answered: the clone's VMID, the last address found (none if a reinstall found none), the larger disk size, the final status, ssh_status, deletion |
| JobOutcome.JobEnds | backend/app/workers/inprocess.py:32-87 | both ends of a job, and what either leaves in each column that the answers decide |
| JobOutcome.PathTracked | backend/app/services/lifecycle.py:119-388 | the same at every commit in between: which calls were made, the status shown, every column so far |
| JobRuns.JobRunOutcome | backend/app/workers/inprocess.py:32-87 | in a run of the whole system, amid any steps of handlers and Proxmox, the answers alone decide how a job and its row end; success of a create, reinstall, start or reboot leaves an SSH check of that VM last in the queue |
| JobRuns.CleanJobSucceeds | backend/app/services/lifecycle.py:332-358 | in such a run a job that meets no failure succeeds; a delete then marks its row deleted, also when the guest was already gone |
| Requests.Handling.CreateVm | backend/app/api/routes.py:56-118 | with any steps of others at every wait: refused when a live row has the hostname ignoring case, at first or under the lock; or, if another handler held the lock at every look, still waiting there; otherwise the VM row, with the larger of both disk sizes and the hostname in lower case, and the create job are inserted exactly as asked, the lock is released and the job enqueued. The invariant holds in each case |
| Requests.Handling.RequestJobFor | backend/app/api/routes.py:361-473 | start, stop, reboot, reinstall, delete: refused exactly when the row as read is deleted or not in the statuses listed for that request, changing nothing; otherwise the job is committed and then enqueued |
| Requests.Handling.CommitAndEnqueue | backend/app/api/routes.py:560-566 | the job is the last in the queue, of that kind and VM |
| Requests.Handling.RecheckSsh | backend/app/api/routes.py:511-520 | the same for the SSH re-check, with its reset of ssh_status |
| Requests.Handling.ResetSsh | backend/app/api/routes.py:511-520 | its first commit shows the check as pending, unless the session had read just that, and touches no other row |
| Requests.RunElsewhere | backend/app/api/routes.py:56-118 | any steps of the others, short of a crash, keep the invariant and leave a waiting handler's own state alone |
| PanelInterference.LoadedJobIsUntouched | backend/app/workers/inprocess.py:32-40 | the job that dispatch has read still waits and has no target_vmid, and the row of a create job has no VMID |
| PanelPaths.PathIsRun | backend/app/workers/inprocess.py:32-77 | every path of the imperative job functions is a run of worker steps woven with that meddling |
| PanelPaths.RunIsPath | backend/app/workers/inprocess.py:32-77 | conversely, any stretch of a run of the step system in which the worker stays inside one job function is a path of that function, with the answers the worker got |
| JobSession.Session.Dispatch | backend/app/workers/inprocess.py:32-87 | dispatch follows the step system; it commits success exactly when no answer was fatal, and failed with status error otherwise; the row then holds what the answers said, column by column; an SSH check is asked for after a successful create, reinstall, start or reboot; only a delete that ended well marks the row deleted, and then its guest is absent |
| JobSession.Session.DestroyExistingVm | backend/app/services/lifecycle.py:343-388 | returns normally exactly when no answer of the job was fatal, so also when the guest is not found; a normal return means that the row has no VMID or its guest is absent; nothing of the row changes but what an API reset does |
| JobSession.Session.ReinstallVmJob | backend/app/services/lifecycle.py:126-155 | on success the row owns the new clone named in the metadata; on failure it owns the old guest, nothing, or that clone |
| JobSession.Session.CreateVmJob | backend/app/services/lifecycle.py:119-123 | on success the row owns the clone named in the metadata; on failure nothing or that clone |
| JobSession.Session.ProvisionVmFromTemplate | backend/app/services/lifecycle.py:158-299 | the same for the common part; it ends well exactly when no answer was fatal, and then the VM is running and shows the last address found, or what the job left before |
| JobSession.Session.CloneTemplate | backend/app/services/lifecycle.py:167-213 | the clone is in the metadata before the row owns it |
| JobSession.Session.BootClone | backend/app/services/lifecycle.py:215-243 | configure, resize, start; running on success, the VMID untouched |
| JobSession.Session.FindAddress | backend/app/services/lifecycle.py:245-299 | a time-out of the guest agent is not a failure, a second address replaces the first; ssh_status is failed without an address and pending with one; nothing else changes |
| JobSession.Session.PowerJob | backend/app/services/lifecycle.py:302-329 | needs a VMID; ends in the final status of the operation, with the address found or the one before |
| JobSession.Session.DeleteVmJob | backend/app/services/lifecycle.py:332-340 | succeeds exactly when no answer was fatal; the row is marked deleted only once its guest is absent, and keeps its VMID |
| JobSession.Session.CheckSshReady | backend/app/services/terminal.py:75-95 | never raises; ready exactly when there is an address and the check got through, failed otherwise |
| Throttle.Buckets.Throttle | backend/app/api/auth.py:37-45 | a call is let through exactly when fewer than max_hits accepted calls of its IP lie within the window; the bucket is the accept history restricted to the window |
| Throttle.WithinCounts | backend/app/api/auth.py:39 | the pruned list holds exactly the times within the window, and its length is their number |
| Throttle.CountIsNumber | backend/app/api/auth.py:37-45 | the count of calls in an interval is the number of their places in the history |
| Throttle.Buckets.RateLimited | backend/app/api/auth.py:37-45 | no interval of the window's length, open on the left, holds more than max_hits accepted calls of one IP |
| Throttle.PruneTwice | backend/app/api/auth.py:39 | pruning at every call loses nothing against pruning the full history once |
| ResetCodes.CodesAreSingleUse | backend/app/api/auth.py:104-175 | over any sequence of requests each code is checked at most six times, accepted at most once, and at most one is unused |
| ResetCodes.AcceptedIff | backend/app/api/auth.py:150-175 | a reset is accepted if and only if it tries the last code issued, unused, unexpired, tried fewer than six times, and the code matches |
| ResetCodes.LastCodeAccepted | backend/app/api/auth.py:104-175 | after a code is issued and any wrong guesses, the next reset is accepted if and only if the code is unexpired, fewer than six guesses were made in time, and the submitted code matches |
| ResetCodes.GuessesCount | backend/app/api/auth.py:150-175 | wrong guesses leave the code's hash, expiry and use alone; each in time counts as an attempt, the seventh uses the code up |
| ResetCodes.Desk.IssueCode | backend/app/api/auth.py:104-121 | the loop uses up every older code before the new one is added |
| ResetCodes.Desk.TryCode | backend/app/api/auth.py:150-175 | the branches of reset, on the newest usable code |
| Exposure.Upstream | backend/app/api/internal.py:11-30 | an address always comes from an enabled exposure that the host names, and from its live VM |
| Exposure.SlugIsRead | backend/app/api/internal.py:17-21 | a Host header of white space, slug and base domain in any case, white space and an optional port is read as that slug |
| Exposure.OnlyNamedSlugs | backend/app/api/internal.py:17-21 | and a slug is read only from such a header |
| Exposure.UpstreamOnlyNamed | backend/app/api/internal.py:11-30 | an address is answered only to a header that names an enabled exposure of a live, addressed VM |
| Exposure.UpstreamIff | backend/app/api/internal.py:17-30 | slugs being unique, the lookup answers a header that names an exposure's slug with an address if and only if the exposure is enabled and its VM live and addressed, and then with that address and port |
| Exposure.BoundedStaleness | backend/app/exposure_proxy.py:29-43 | with any overlap of calls, every answer returned to a call begun at b, an address or none, was the lookup's at some time after b minus five seconds, or is none and a lookup for that host failed in that time |
| Exposure.NoRouteToDeleted | backend/app/exposure_proxy.py:29-43 | a call begun five seconds or more after a VM's deletion is never routed to it |
| Exposure.FoundAgain | backend/app/exposure_proxy.py:29-43 | a host that the lookup knows from x on, without a failing lookup, is found by every call begun at x plus five or later |
| Exposure.SettledAnswer | backend/app/exposure_proxy.py:29-43 | once the lookup's answer has settled for five seconds every call returns it; an address needs that no lookup fails meanwhile, none needs nothing |
| Exposure.HappenKeeps | backend/app/exposure_proxy.py:29-43 | each event keeps: cached answers and replies under way were given since their call began, returned ones in time |
| ExposureProxy.Resolver.Resolve | backend/app/exposure_proxy.py:29-43 | resolve as one method, any events of other calls at its awaits: its steps are those of the event system; a hit leaves the cache alone, an answer is cached until five seconds after the call began, and either is as fresh as the staleness theorem says |
| ExposureProxy.EventsElsewhere | backend/app/exposure_proxy.py:34-39 | any events of other calls keep the invariant and leave a waiting call alone |
| Terminal.SessionsNeverRevive | backend/app/services/terminal.py:98-138 | however many handlers race, a status that left pending and connected never returns there |
| Terminal.NotExpiredEarly | backend/app/api/routes.py:498-500 | a session is marked expired only by a handler whose clock has passed creation plus the time to live, which is at least a minute |
| TerminalSocket.Websocket.ValidateAndClaim | backend/app/services/terminal.py:98-138 | as one method, any steps of the other handlers at its awaits: it claims exactly when the session is open at the look and at the update, unexpired, and the VM live, running, SSH-ready and addressed; an overdue one is written expired; a session that was not open on arrival is not claimed |
| TerminalSocket.Websocket.Serve | backend/app/services/terminal.py:141-208 | the whole handler with its closing write: a served session ends closed, and one that was not open stays so |
| TerminalSocket.StepsElsewhere | backend/app/services/terminal.py:98-138 | any steps of other handlers keep the race invariant and leave a waiting handler alone |
| Terminal.ClaimSaw | backend/app/services/terminal.py:104-138 | each successful claim was made while the session was open, by a handler that saw it unexpired and its VM live, running, SSH-ready and addressed |
| Terminal.ClaimedInTime | backend/app/services/terminal.py:109-115 | and before its time was over: a minute from its creation, or its time to live if that is longer |
| DiskSize.ParsedIsLeastCovering | backend/app/services/proxmox.py:277-284 | the size read from a disk's configuration is the least whole number of GiB, at least one, that covers it |
| DiskSize.ResourceIsLeastCovering | backend/app/services/proxmox.py:287-297 | so is the size read from the cluster resource |
| DiskSize.ReadersAgree | backend/app/services/proxmox.py:277-297 | both readers give the same number for the same size |
| DiskSize.ReadIsLeastCovering | backend/app/services/proxmox.py:154-166 | so is the size of the two-source reader, which gives up exactly when neither source has a size |
| DiskSize.Disk.Ensure | backend/app/services/lifecycle.py:391-452 | with a known size a resize is asked only to strictly more bytes; a normal return leaves disk_gb the maximum of both and the disk covered; disk_gb never shrinks |
| Backup.NamesSortByTime | backend/app/services/backup.py:40-41 | for years 1000 to 9999 the order of file names is the order of time |
| Backup.NamesSortByMoment | backend/app/services/backup.py:40-41 | and different moments have different names |
| Backup.Directory.RunBackup | backend/app/services/backup.py:38-58 | writing and rotating leave the listing without its oldest files beyond keep, but for those whose removal failed |
| Backup.Directory.MakeBackup | backend/app/services/backup.py:61-67 | the same with keep clamped to at least one |
| Backup.RotatedKeepsLatest | backend/app/services/backup.py:52-57 | whatever removals fail, the keep newest files present are never removed |
| Backup.RotatedHolds | backend/app/services/backup.py:52-57 | a file stays if and only if it is among the keep newest or its own removal failed |
| Backup.LatestNeverLost | backend/app/services/backup.py:38-58 | after any sequence of backups with any failing removals, the keep latest snapshots ever taken are there |
| Backup.ExactlyTheLatest | backend/app/services/backup.py:38-58 | a backup whose removals succeed leaves exactly the keep latest snapshots ever taken, whatever failed before |
| Backup.EverHolds | backend/app/services/backup.py:38-58 | ties "ever taken" to the stamps of the calls and the files at the start |
| Polling.Client.Request | backend/app/services/proxmox.py:46-65 | at most four attempts, each but the last retryable; the result is the meaning of the reply that decides |
| Polling.DecidingReply | backend/app/services/proxmox.py:46-65 | that reply: the first of at most four that is an answer other than 429, 500, 502, 503 and 504, or the fourth; 401 and 403 mean refused |
| Polling.Client.WaitForTask | backend/app/services/proxmox.py:168-180 | at most ceil(timeout/interval)+1 polls and four requests each; a normal return if and only if Proxmox was seen to report it stopped with no exit status or OK |
| Polling.Client.WaitForIp | backend/app/services/proxmox.py:182-195 | the same bound; Proxmox errors are waited out; an address if and only if the last poll had one |
| Polling.Client.ResolveVmNode | backend/app/services/proxmox.py:136-152 | the two requests and the search loop come to the result that the replies determine |
| Polling.NotFoundIff | backend/app/services/proxmox.py:136-152 | that result is "not found" if and only if the preferred node did not confirm the guest and the listing came back, as a list or not, without it |
| Polling.FaultIff | backend/app/services/proxmox.py:136-152 | the search fails exactly when the preferred node raised, or did not confirm and the listing did not come back |
| Polling.FirstEntryDecides | backend/app/services/proxmox.py:74-80 | the first entry with the VMID decides, by its node |
| Polling.ConfirmedIsFound | backend/app/services/proxmox.py:136-144 | a preferred node that confirms the guest is the answer |
| Polling.NotFoundMeansAbsent | backend/app/services/proxmox.py:145-148 | if the listing is a list with every existing guest, "not found" means that the guest does not exist |
| Polling.NotFoundThoughPresent | backend/app/services/proxmox.py:82-84 | a refusing node and then a listing that is no list give "not found" of a guest that exists |
| PanelLookup.TruthfulLookup | backend/app/services/lifecycle.py:352-358 | replies truthful about the guests, however many fail, give destroy_existing_vm an answer that the step system allows; "missing" only of an absent guest |
| PanelLookup.UntruthfulLookup | backend/app/services/lifecycle.py:352-358 | the truthfulness is needed: other replies give "missing" of an existing guest, which the step system excludes |
| Polling.PausesFit | backend/app/services/proxmox.py:168-195 | the arithmetic behind the poll bound, for every timeout and interval |
| Polling.PollsInUse | backend/app/services/lifecycle.py:251-290 | the bound is 201 and 101 polls for the time-outs that callers use |

## Left out

- Panel.DoEdge: the frame of `dispatch` around the job functions, with the enqueueing of the SSH check, and the queue itself are steps on values.
- Requests.Handling.RequestJobFor: settings, template and confirmation checks that refuse a request before it commits anything are the step `Abandon`; a handler that has committed its job goes on to enqueue it unless the process crashes.
- Assumptions of the engine: commits are atomic and succeed; Proxmox is truthful and accepts a clone only under a free VMID; VMIDs stand for guests of the panel only; one process. A graceful shutdown is a crash.
- JobSession.Session.Dispatch: only reports that an SSH check is to be enqueued; no meddling is put between the last wait of a job and the commit that ends it.
- JobSession.Session.FindAddress: resetting the machine id, the reboot and the second wait for an address are one wait with one answer.
- DiskSize.ParsedIsLeastCovering: sizes are exact reals; the rounding of floating point and the pattern that finds the size in the text are not modelled.
- Throttle.Buckets.Throttle: which IP a request counts for is given; the list of login failures, updated across an await, is not modelled.
- Entities.LowerIgnoresCase: lower-casing is that of ASCII letters. Hostnames and slugs have no others, by their patterns; in a Host header other letters are taken as they are.
- ResetCodes.AcceptedIff: requests are served one at a time, past their throttle and length checks; hashing is a parameter.
- Backup.Directory.RunBackup: the SQLite copy itself and foreign files in the directory; a snapshot stands for the moment it is named after.
- Requests.Handling.CreateVm: the hostname is the request's once white space is trimmed and its pattern checked; the handler is watched for a given number of waits at the lock; one that is still waiting then promises only that another handler holds it.
- ExposureProxy.Resolver.Resolve: the lookup reads its two tables at one moment; a wrong proxy secret counts as a failing lookup.
- Terminal.NotExpiredEarly: the guard of `create_terminal_session` and session ids that do not exist.
- Terminal.ClaimSaw: pumping of bytes, the inactivity limit and the SSH connection.
- Polling.Client.Request: a mutating call that Proxmox served although its reply was lost, and its retry, occur in the engine only as the lost clone.
- Node and template names, job metadata other than target_vmid, error texts, audit rows, list and diagnostics endpoints, settings, seeding, cookies, mail: they take no part in the properties.
- `agent_exec` and `reset_machine_id`, HTTP and WebSocket proxying, the front end, deployment scripts and `dokploy-repair.py`: foreign I/O or easier members.

# Watchpost Agent: a verified model

A Dafny model of the parts of the Watchpost Agent that carry real state and failure branches, with
machine-checked proofs of what they promise. `dafny verify dfyconfig.toml` checks everything.

**The managed unit** (`Text`, `Quote`, `HostPort`, `UnitFile`, `UnitRoundTrip`, `Reinstall`,
`Integrity`). The printer of the systemd unit and its line-by-line parser are inverse to each other over
unbounded strings; what the parser makes of any other text is classified by quantified statements about
that text alone; the quoting of the command line is uniquely decodable; and a reinstall from the unit's own
metadata reproduces it byte for byte under an exact condition. SHA-256 is a parameter: an arbitrary
function to 64 hexadecimal digits.

**Install, update, rollback** (`Machine`, `Install`, `Requests`, `Update`). A world holds the files, the
enablement links, the unit that systemd has loaded and what runs. Every step that can fail takes its
outcome from a tape, and the theorems hold for every tape and every prior world, so for every
combination of failing steps. Which outcome an operation has is stated on the tape, in both directions. What a step leaves behind when it fails (a half-written temporary, a
link change that landed anyway, the state a failed start ends in) is on the tape as well. The steps
attempted and the steps that failed are logged, and reports are stated against the log. `Requests`
joins the installer to the unit it prints and to the parser that recognises it.

**Delivery and pairing** (`Delivery`, `DeliveryProofs`, `Posting`, `Telemetry`). A run is the list of committed
saves. What was queued, what left the queue and why are functions of the run, defined without looking
at the saved state; the theorems relate the two. The class `Telemetry.Agent` is the code's own control
flow, and it takes only steps of such runs; the clock, the server and the disk it meets are passed in,
and `Posting` says what was posted, under which credential, and what that tells of the answers.

**State store and sessions** (`Slices`, `Store`, `Agreement`, `Throttle`, `Sessions`). The store works
on real arrays: Go slices with an offset, a length and spare capacity, where appending writes in place.
The session manager is a class over that store. Clock readings, the account model's verdicts, random
values and whether the disk takes a save are inputs of each request. A history of what has happened
since the last successful login runs on across resets and restarts.

**Data directory** (`Kernel`, `DataDir`). A descriptor table over an inode tree that other processes may
rearrange before every system call. A descriptor can be closed only while it is open, so a method that
returns with the table it started with has closed each of its descriptors exactly once. `company` says
who else is at work: nobody, only processes without root's rights (which cannot touch a directory that
only root may write), or anyone. What is stated without it holds in any company; the file system as each
call found it is kept in `past`, and "seen" means found there.

## What the proofs found

Each of these is a statement below, with the condition under which the code does what it sets out to
do and, where it can fail to, a run or an input on which it does.

- A delivery queue that no sample fits is never sent again: the collection cycle ends at the enqueue,
  before the flush, so neither a recovered server nor the 24-hour bound frees a slot. The handover
  document promises that the queue is replayed oldest first. The flush is reached exactly when the
  agent is paired, a sample was collected, it fits by count and by bytes, its save succeeded and a
  retry is due (`Telemetry.Agent.Send`, `Telemetry.Agent.DeliveryLoop`). A server out of reach for
  less than a day fills the queue by count (`Telemetry.FillsUp`); a single sample of eight mebibytes
  fills it by bytes (`Telemetry.FillsUpByBytes`).
- The five-minute cap on the retry delay never takes effect: the delay is at most 256 seconds
  (`DeliveryProofs.DelayExact`).
- An update that fails can destroy the backup of an earlier one: it survives exactly when the copy onto
  it was not completed, or when it held the current binary anyway (`Update.BackupSurvives`, with the
  losing run `Update.LosesBackup`). If the marker could not be written, the old marker stays behind
  without a backup. What is never out of reach is the binary in place when a backup copy was last
  completed (`Update.Run`).
- A rollback deletes the copy of the old binary even when copying it back has just failed. The old
  binary is lost exactly if that happens after the executable was replaced and the two differ
  (`Install.BinaryLost`, with the losing install `Install.LosesBinary`).
- An existing unit file that cannot be read is taken for absent, and a rollback removes it
  (`Install.RollbackKeepsUnit`); an install that gets as far as such a unit always does so
  (`Install.InstallOptions`, with the install `Install.LosesUnit`).
- A rollback that fails to put the old binary in place, and fails to take the current one back, leaves
  no binary. From then on no rollback brings one back (`Update.NeverBack`), and the next one deletes the
  binary set aside, its only copy (`Update.LosesAside`).
- Rolling back a fresh install issues no reset-failed. The service ends inactive exactly if publication
  did not stop in an odd state such as failed, or stopping clears it (`Install.Withdrawn`, part of
  `Install.Transaction`, with the install `Install.StaysFailed` that leaves it failed).
- A request whose executable is a path that the install rewrites first installs something else
  (`Install.SourceInstalled`); `Install.InstallsOld` reports success with the old binary in place.
- Installing the same again is a no-op exactly if the listener has something visible in it and the
  executable is still there (`Requests.InstallTwice`). A listener of white space only passes the checks
  of the installer and prints a unit that it then refuses as malformed (`Requests.BlankListener`); only
  the command line filters it.
- A listener joined from a host with brackets, or from a port with a colon, does not survive a bare
  reinstall (`Reinstall.BareReinstall`, with the host `[::1]` and the port `1:2` in
  `Requests.ListenerNotKept`).
- `ClearSessions` ignores a failed save; sessions then come back when the manager is rebuilt
  (`Sessions.Manager.ClearSessions`, with such a session in `Sessions.Manager.ComesBack`). The reset
  request calls it only when the store holds none (`Sessions.Manager.Reset`).
- A reset and a restart forget the failed logins. Five minutes hold at most five failed checks, and five
  more for every reset or restart during them (`Sessions.ThrottleHolds`), and as many can be reached with
  no successful login between them (`Sessions.ResetsForget`, `Sessions.RestartForgets`).
- A data directory cannot be established below a parent with the set-group-ID bit, which the check of the
  parent accepts, nor under a umask that takes owner bits: the mode of what was made is not the one asked
  for. Alone, with a free name, an account and no failing call, it is established exactly below every
  other safe parent (`DataDir.EstablishFreshLeaf`, with the parent in `DataDir.SetGroupParent`).
- The README and the architecture document say that sessions are held in memory only. The code keeps
  their hashes in the state file and restores them; the model follows the code.

## Model

| member | source | states |
|---|---|---|
| `Quote.SystemdQuote` | internal/service/service.go:138-154 | the printing loop writes exactly the quoted form the decoder below inverts |
| `Quote.DecodeQuoteLine` | internal/service/service.go:138-154 | tokenizing and unescaping the space-joined quoted line gives back exactly the argument list, whatever its length and characters |
| `Quote.QuoteLineInjective` | internal/service/service.go:363-370 | two argument lists that print the same command line are the same list |
| `HostPort.SplitInvertsJoin` | internal/service/service.go:327-332 | splitting a joined listener returns host and port if and only if neither has a bracket and the port has no colon; hosts with colons are included |
| `UnitFile.CountHeaders` | internal/service/service.go:490-503 | the counting loop counts the lines that start like an integrity header, wherever they are |
| `UnitFile.ReadMeta` | internal/service/service.go:513-585 | the loop with its five counters and early returns accepts and yields exactly what the counter-free grammar says: one listener, one health path, at most one of everything else, each acceptable |
| `UnitFile.ReadManagedUnit` | internal/service/service.go:490-586 | the parser as a whole equals its grammar, including which of the three errors it reports; what that grammar accepts is stated in `Integrity` |
| `UnitRoundTrip.FieldUnique` | internal/service/service.go:515-547 | no line can be read as two markers, so the order of the parser's cases does not matter |
| `UnitRoundTrip.DirectiveIsInert` | internal/service/service.go:351-387 | a line that is not a comment can be taken neither for metadata nor for a second header |
| `UnitRoundTrip.SplitAssembled` | internal/service/service.go:392-404 | splitting a printed unit gives back the printed lines: no value adds a line |
| `UnitRoundTrip.ParseAssembled` | internal/service/service.go:490-512 | a printed unit passes the header and checksum tests whatever the hash function, and what decides is its metadata |
| `UnitRoundTrip.RoundTrip` | internal/service/service.go:392-404 | reading a printed unit gives exactly the printed listener, mode, data directory, environment file and health path, trimmed, if and only if those are legible, and otherwise reports it malformed; values need only be free of line breaks |
| `Integrity.ReadIs` | internal/service/service.go:490-586 | for every text: it is read, with these values, if and only if it is the marker line, one header with the checksum of the text below, and that text, whose lines declare exactly one acceptable listener and health path and at most one acceptable value of everything else |
| `Integrity.ModifiedIs` | internal/service/service.go:508-512 | for every text: it is called modified if and only if it has the one header of the printed form, with another checksum than that of the text below |
| `Integrity.NotManagedIs` | internal/service/service.go:490-494 | for every text: it is called not managed if and only if it is not the marker line followed by at least two more lines |
| `Integrity.Tampered` | internal/service/service.go:490-512 | a printed unit whose part below the header is replaced by text with another checksum is refused: as modified, or as malformed if a header line was slipped in |
| `Reinstall.PrintingIsInjective` | internal/service/service.go:392-404 | units with equal bytes were printed from the same listener, mode, data directory, environment file and command line |
| `Reinstall.CommandLine` | internal/service/service.go:363-370 | a line of the printed unit decodes to a command line that starts the binary with the recorded listener and the data directory |
| `Reinstall.BareReinstall` | internal/service/service.go:472-479 | the options recovered from an installed unit print that very unit if and only if the original options are recoverable: trimmed, and with a host and port that joining preserves |
| `Install.RunSteps` | internal/service/service.go:934-939 | a list of systemctl calls runs up to the first failure; when none fails, systemd ends in the state folded over the list |
| `Install.Neutralize` | internal/service/service.go:855-860 | with no failing step nothing runs and no persistent link is left; what is left inactive is exactly what was not odd, or whose oddness stopping clears |
| `Install.RestoreBinary` | internal/service/service.go:861-868 | the binary is back from its copy, or as it was when the copy failed; the copy is gone in every case |
| `Install.RestoreUnit` | internal/service/service.go:869-875 | the recorded unit is back, or gone if none was recorded, unless writing it failed, and then it is as it was |
| `Install.RestoreEnablement` | internal/service/service.go:876-885 | systemd has loaded what is on disk and its links reproduce the recorded word |
| `Install.RestoreActivity` | internal/service/service.go:886-893 | a service recorded active runs the restored binary and unit; one recorded inactive is not started |
| `Install.Restore` | internal/service/service.go:853-899 | every step is attempted, except that a failing disable ends the enablement list; the steps reported are exactly those that failed; and what the files and systemd then hold |
| `Install.FoldForward` | internal/service/service.go:918-933 | what the forward steps amount to when all succeed: loaded unit, links, and a process started from the files in place |
| `Install.ForwardParts` | internal/service/service.go:918-933 | the unit is reloaded first if it changed, and every start is preceded by reset-failed |
| `Install.PublishFiles` | internal/service/service.go:907-912 | finishes exactly if no foreign unit is in the way, neither step fails and the executable is still there; then both files are in place, and otherwise the binary is untouched; the failing step is the one logged, and refusing a foreign unit is none |
| `Install.PublishState` | internal/service/service.go:913-939 | finishes exactly if no step fails on the tape, no odd unit state is to be enabled and what is to be started is loaded; a fresh service then ends enabled and running, an existing one keeps its exact two words; a failure leaves nothing that a rollback cannot undo |
| `Install.Survey` | internal/service/service.go:777-812 | what is recorded is the prior state and it can be put back; it is had exactly if the installed unit may be replaced and both queries about it are answered |
| `Install.CleanRollback` | internal/service/service.go:853-906 | wherever publication stopped, a rollback without failing steps restores unit, binary, enablement word, activity word, the loaded unit and the process |
| `Install.BrokenRollback` | internal/service/service.go:853-906 | after a rollback with failing steps: exactly which content the binary has, that the copy of the old one is gone, and that the unit is back unless writing it failed |
| `Install.BinaryLost` | internal/service/service.go:861-868 | a failed rollback loses the prior binary if and only if it failed to copy it back after the executable had been replaced by a different one |
| `Install.RollBack` | internal/service/service.go:900-906 | the deferred rollback: clean exactly if none of its steps failed, and then the world is back |
| `Install.Transaction` | internal/service/service.go:847-943 | failure atomicity: the steps that failed are the one that stopped it and exactly those reported of the rollback, so a clean rollback means none of these failed and the world is back; success means the request is in place |
| `Install.InstallOptions` | internal/service/service.go:748-943 | over every prior world and tape: which report it is, exactly (refused if and only if the checks, the executable, the installed unit or a query stands against it; installed if and only if none of its steps fails), the exact world each report leaves, exactly the steps that failed, and, when it is not rolled back, exactly the steps taken |
| `Install.SmoothInstall` | internal/service/service.go:813-943 | on a tape without failures an admitted request that is not in place is installed if and only if the machine is fit for it, for an existing unit in every restorable pair of words |
| `Install.Upgrades` | internal/service/service.go:813-943 | an enabled and running service gets its newer executable, which then runs under the same unit |
| `Install.RepeatIsNoOp` | internal/service/service.go:827-834 | after a successful install the same request is up to date and acceptable if and only if its unit is one that reads back and its executable is still there |
| `Install.LosesBinary` | internal/service/service.go:853-906 | an install after which the old binary is nowhere: its first start fails, and so does copying the binary back |
| `Install.StaysFailed` | internal/service/service.go:853-906 | an install with a clean rollback after which a service that was inactive is failed |
| `Requests.PrintsManaged` | internal/service/service.go:748-778 | a unit printed from admitted options reads back if and only if the listener has something visible in it, and is malformed otherwise |
| `Requests.InstallTwice` | internal/service/service.go:748-834 | installing the same options again is a no-op if and only if the listener is visible, the executable still there and the queries are answered; with a blank listener the second install is refused |
| `Requests.BlankListener` | internal/service/service.go:758-778 | a listener of one space passes the checks on a request, and the unit printed from it is malformed |
| `Install.LosesUnit` | internal/service/service.go:1301-1307 | an install whose clean rollback removes a unit file it could not read |
| `Install.InstallsOld` | internal/service/service.go:846-911 | an install from the path of the set-aside copy that reports success with the old binary in place |
| `Requests.ListenerNotKept` | internal/service/service.go:472-479 | a bracketed host and a port with a colon are admitted and read back, and the reinstall from what was read prints another unit |
| `Install.RollbackKeepsUnit` | internal/service/service.go:1301-1307 | a clean rollback keeps the unit file if and only if it was not an unreadable one; the binary is kept in any case |
| `Install.SourceInstalled` | internal/service/service.go:684-707 | the executable installed is the requested one if and only if the request does not name a path that is rewritten first |
| `Update.VerifyActiveAndHealthy` | internal/service/service.go:1182-1198 | success if and only if some poll of the window could be run, found the service active (it has been since, or the last change before the poll brought it up) and its endpoint healthy; then what runs was started from the files in place |
| `Update.WatchedIs` | internal/service/service.go:1182-1198 | polling one after the other, up to the first success, finds health exactly if the closed statement on the tape holds |
| `Update.StartsIs` | internal/service/service.go:1157-1198 | what counts as coming up: the restart succeeds and one of the first sixty polls, before the window closes, finds the service active and healthy |
| `Update.RestartAndVerify` | internal/service/service.go:1157-1164 | success if and only if the start succeeds and one of at most sixty polls finds the service healthy; then the binary now in place and the loaded unit are what runs |
| `Update.RecordRollback` | internal/service/service.go:1139-1147 | copy and marker are both there; or the copy failed and an earlier backup is as it was; or the marker failed and no backup is left, with an earlier marker as it was |
| `Update.Replace` | internal/service/service.go:1139-1150 | the exact step at which it stops, if any; once the backup copy is complete the current binary is what is guarded, and it stays within reach whatever fails next; and what became of an earlier backup |
| `Update.Recover` | internal/service/service.go:1214-1233 | exactly when it succeeds, on the tape; success restores the old binary, its running state, and leaves no rollback metadata |
| `Update.RestoreAfterFailedUpdate` | internal/service/service.go:1205-1234 | the same with the recorded state, and with a missing or invalid marker it changes nothing at all |
| `Update.Activate` | internal/service/service.go:1154-1165 | the new binary runs if and only if it comes up and is found healthy, and otherwise the old one is brought back if and only if the steps of the recovery succeed |
| `Update.UpdateBinary` | internal/service/service.go:1123-1166 | which outcome an update has, exactly: the step that fails before replacing, a start and a healthy poll, or a recovery that does the same for the old binary; with the fate of an earlier backup; whatever is guarded stays in the binary's place or in the rollback copy at every intermediate step |
| `Update.BackupSurvives` | internal/service/service.go:1139-1150 | after a failed update the content of an earlier backup is within reach if and only if the copy onto it was not completed or it equals the current binary |
| `Update.LosesBackup` | internal/service/service.go:1139-1147 | two updates, the second failing at the marker, after which what the first replaced is nowhere and a marker without a backup remains |
| `Update.Exchange` | internal/service/service.go:1258-1266 | succeeds exactly if there is a binary and both renames succeed; otherwise the rollback copy is still there and either the binary is where it was with nothing set aside, an earlier one included, or, exactly if taking it back failed too, it is set aside with nothing in its place |
| `Update.RollbackBinary` | internal/service/service.go:1237-1281 | which outcome a rollback has, exactly: none without a binary gets past the moves, and a service recorded active must start and be found healthy; one recorded as not active is never started and systemd is left alone |
| `Update.NeverBack` | internal/service/service.go:1256-1266 | once the binary is missing, no number of rollbacks puts one in place, and the first that gets to the moves deletes the one set aside |
| `Update.LosesAside` | internal/service/service.go:1256-1266 | two rollbacks after which the binary that was installed is nowhere, and the old one is still only the rollback copy |
| `Update.UpdateThenRollback` | internal/service/service.go:1123-1281 | a successful update followed by a successful rollback restores the old binary, and runs it exactly if it ran before |
| `Update.Run` | internal/service/service.go:1123-1281 | over any run of updates and rollbacks, failing anywhere, the binary in place when a backup copy was last completed is in its place or in the rollback copy at every step |
| `DeliveryProofs.Conservation` | internal/telemetry/telemetry.go:52-184 | first in, first out, nothing lost: what was enqueued is what left, in order, followed by what is queued |
| `DeliveryProofs.ExitsJustified` | internal/telemetry/telemetry.go:107-160 | every batch that left was accepted by the server while it was the head, or was older than 24 hours |
| `DeliveryProofs.AcceptedInOrder` | internal/telemetry/telemetry.go:143-169 | the server's acceptances never go back to an earlier batch; a lost save can only repeat the same head |
| `DeliveryProofs.SkippedOnlyIfStale` | internal/telemetry/telemetry.go:107-116 | a batch that left without an acceptance was older than the server's clock bound |
| `DeliveryProofs.NumberedFromOne` | internal/telemetry/telemetry.go:63-89 | within a pairing the samples enqueued are numbered from one without gap or repeat |
| `DeliveryProofs.QueueIsContiguous` | internal/telemetry/telemetry.go:63-89 | in every reachable state the numbers across the queue are consecutive and end just below the next one |
| `DeliveryProofs.AlwaysAuthorised` | internal/pairing/pairing.go:164-182 | an overlap, a pending revocation or a queued batch always has a current credential beside it |
| `DeliveryProofs.AuthorityRetained` | internal/pairing/pairing.go:149-194 | a credential disappears only after an unpair answered 204, 401 or 404, or by an explicit reset |
| `DeliveryProofs.OverlapSettled` | internal/telemetry/telemetry.go:145-166 | a delivery makes the accepted credential, one of those held, the only one; a failure keeps both |
| `DeliveryProofs.QueueBounded` | internal/telemetry/telemetry.go:57-87 | in every reachable state at most 256 batches and eight mebibytes are queued |
| `DeliveryProofs.DelayExact` | internal/telemetry/telemetry.go:189-197 | the retry delay is a power of two seconds between one and 256, so the five-minute cap never binds |
| `DeliveryProofs.DelayGrows` | internal/telemetry/telemetry.go:189-197 | more failures never shorten the delay |
| `DeliveryProofs.BackoffCounts` | internal/telemetry/telemetry.go:186-201 | over any run the counter is the number of failures since the last delivery, and the next attempt, whatever came in between, is due that delay after the last failure, or at once if there was none |
| `DeliveryProofs.RecordTrue` | internal/telemetry/telemetry.go:107-166 | over any run the dropped count is exactly the number of batches of the pairing that left as stale, refused samples not being among them, and the last success is the time of its last delivery |
| `DeliveryProofs.AuditedTogether` | internal/pairing/pairing.go:125-158 | each change of pairing and its audit row are one save, the row is the newest, and only rows beyond two hundred are dropped |
| `Telemetry.Agent.EnqueueBatch` | internal/telemetry/telemetry.go:52-92 | refused exactly when the queue is full by count or by bytes, and a refusal changes nothing, the drop counter included; the batch queued is last, dated at the reading of the clock and numbered from the next sequence number |
| `Telemetry.Agent.MarkFailure` | internal/telemetry/telemetry.go:186-201 | the failure is the last step recorded unless that save fails; queue and credentials stay |
| `Telemetry.Agent.Attempt` | internal/telemetry/telemetry.go:125-177 | one post with one credential, and the outcome tells the server's answer; only 401, 403 and 409 leave it open, and then nothing has changed |
| `Telemetry.Agent.Offer` | internal/telemetry/telemetry.go:118-182 | the head is posted under the credentials held, newest first, as far as these are refused, and the outcome tells the last answer; success pops exactly the head and settles the credentials; any other outcome keeps queue and credentials, and a failure is recorded |
| `Telemetry.Agent.Flush` | internal/telemetry/telemetry.go:94-184 | something is posted, first of all under the current credential, and the outcome tells the last answer, unless all there was to post was stale or no request can be built; a head that is not stale is what is posted first; a server that accepts everything is sent every batch once in order; every step is dated by the clock; success means an empty queue, any outcome leaves a suffix; terminates for any finite number of disk faults |
| `Posting.SoFarOffer` | internal/telemetry/telemetry.go:95-183 | one more batch offered, on top of any number that were accepted: what was posted so far, and what the outcome tells |
| `Telemetry.Agent.Send` | internal/telemetry/telemetry.go:37-50 | what is offered to the server is exactly as for a flush if and only if the agent is paired, a sample was collected and fits by count and bytes, its save succeeded, and a retry is due; otherwise nothing is posted, and the outcome says why |
| `Telemetry.Agent.RequestPairing` | internal/pairing/pairing.go:46-91 | the pending request is saved with its audit row exactly when the server created it in a usable form and the save succeeded |
| `Telemetry.Agent.Poll` | internal/pairing/pairing.go:93-145 | a new pairing with the server asked starts, with exactly the approved credential, if and only if a pending request was approved in a usable form and the save succeeded; a first sample, numbered from one, is then posted under it; otherwise nothing changes |
| `Telemetry.Agent.RotateCredential` | internal/pairing/pairing.go:215-248 | the replaced credential is kept beside the new one, or nothing changes |
| `Telemetry.Agent.Unpair` | internal/pairing/pairing.go:164-182 | authority is dropped only when the server's answer confirms it, marked pending when it does not, and never lost on a failed save |
| `Telemetry.Agent.RetryPendingRevocation` | internal/pairing/pairing.go:185-194 | a pending revocation is completed after confirmation, or everything stays |
| `Telemetry.RequestServerUnpair` | internal/pairing/pairing.go:196-213 | exactly the answers 204, 401 and 404 count as revoked |
| `Telemetry.Agent.DeliveryLoop` | cmd/watchpost-agent/main.go:408-437 | on a working disk the first round queues its sample if that fits, or completes a pending revocation; if none of the rounds' samples fits, by count or by bytes, any number of rounds posts nothing and changes nothing |
| `Telemetry.FillsUp` | internal/telemetry/telemetry.go:37-92 | an agent cut off from the server, with a cycle every five minutes, reaches 256 queued samples and 256 recorded failures in its own steps, and then nothing is ever posted |
| `Telemetry.FillsUpByBytes` | internal/telemetry/telemetry.go:77-84 | one sample of eight mebibytes and one failed post leave a queue that no sample fits |
| `Slices.Clone` | internal/state/state.go:265-280 | a clone reads the same and shares no array |
| `Slices.Append` | internal/state/state.go:112-113 | appending writes at most the one slot behind the window, and only when there is room; otherwise it copies |
| `Slices.AppendDisturbs` | internal/state/state.go:262-264 | without cloning, a second window on the same array does see the appended element |
| `Slices.FilterInPlace` | internal/auth/auth.go:429-437 | the in-place compaction leaves exactly the elements not removed, in order |
| `Store.EditAudit` | internal/state/state.go:111-116 | the audit list is the newest two hundred rows, whether the append was in place or not |
| `Store.CloneData` | internal/state/state.go:265-280 | the copy reads the same, shares no array with the store, and its queued bodies share none with each other |
| `Store.PerformAll` | internal/state/state.go:248-253 | whatever a callback does to the slices in place computes the same edits on values |
| `Store.EditsCompose` | internal/state/state.go:248-253 | a callback's edits take effect one after the other, and an error discards them all |
| `Store.NewestKept` | internal/state/state.go:111-116 | at most two hundred audit rows are kept, and only the oldest are dropped |
| `Store.Encode` | internal/state/state.go:352-356 | what is written is what the state's slices read |
| `Store.Store.Commit` | internal/state/state.go:252-259 | a new state becomes current in memory and on disk together, or neither changes |
| `Store.Store.Update` | internal/state/state.go:248-260 | memory and disk together become the edited state, or neither changes; no array that existed before is written |
| `Store.Store.Reset` | internal/state/state.go:291-303 | only the right confirmation resets, to the first-run state with the same identity |
| `Store.SnapshotStands` | internal/state/state.go:242-280 | after any number of updates, successful or not, an earlier snapshot reads exactly what it read |
| `Agreement.FilterAgrees` | internal/auth/auth.go:275-332 | removing the same sessions from memory and from the durable list keeps the two in agreement |
| `Agreement.AddAgrees` | internal/auth/auth.go:234-252 | adding a session under an unused hash to both keeps agreement |
| `Agreement.ForgetAgrees` | internal/auth/auth.go:265-269 | forgetting a token that no longer lets anyone in keeps agreement even if the durable removal failed |
| `Agreement.ClearedAgrees` | internal/auth/auth.go:295-304 | an empty table agrees with a durable list if and only if the list holds nothing usable |
| `Agreement.SameTokens` | internal/auth/auth.go:114-131 | tables that agree with one list accept the same tokens for the same accounts, except at the instant of expiry |
| `Throttle.Prune` | internal/auth/auth.go:207-214 | the pruned list holds exactly the failed checks of the last five minutes out of all since the list was last emptied |
| `Throttle.PruneTracked` | internal/auth/auth.go:207-216 | pruning keeps the list the tail of the history, with everything dropped at least five minutes old |
| `Throttle.AtMostFive` | internal/auth/auth.go:204-219 | of checks that were all throttled, every five-minute window, wherever it starts, holds at most five |
| `Throttle.FivePerStretch` | internal/auth/auth.go:204-219 | over a history in which the list of failures was emptied any number of times, every window holds at most five failed checks and five more for each time it was emptied in it |
| `Sessions.LoadSessions` | internal/auth/auth.go:114-131 | the rebuilt table agrees with the durable list and holds only sessions that had not expired |
| `Sessions.Manager.constructor` | internal/auth/auth.go:114-131 | a manager over any store with distinct hashes starts in agreement |
| `Sessions.Manager.Login` | internal/auth/auth.go:204-259 | throttled exactly when five checks failed in the last five minutes under this manager, with neither a login nor a reset since; each outcome exactly when it comes about; success commits one session of the very account and identity that the password signed in, under the values drawn, for a day, with one audit row, in memory and durably; any failure changes neither |
| `Sessions.Manager.Authenticate` | internal/auth/auth.go:261-272 | accepts exactly unexpired tokens of the table; a refusal removes at most sessions of that hash |
| `Sessions.Manager.Logout` | internal/auth/auth.go:275-293 | the session and one audit row change in one save, or nothing does; an unknown token is a no-op |
| `Sessions.Manager.Targets` | internal/auth/auth.go:315-320 | the search finds exactly the account's sessions |
| `Sessions.Manager.RevokeUserSessions` | internal/auth/auth.go:312-332 | all sessions of the account and no others go, with one audit row, or nothing changes; the count is right |
| `Sessions.Manager.ChangePassword` | internal/auth/auth.go:355-374 | all other sessions of the account go, the kept one stays, with one audit row, or no session changes |
| `Sessions.Manager.ClearSessions` | internal/auth/auth.go:295-304 | memory is cleared in any case, and agreement holds afterwards if and only if no usable entry is left on disk |
| `Sessions.Manager.ComesBack` | internal/auth/auth.go:295-304 | after a lost save the manager no longer agrees with the disk, and one rebuilt before the session expires lets its token in again |
| `Sessions.Manager.Reset` | internal/app/app.go:471-485 | the reset request keeps agreement whatever the second save does |
| `Sessions.RunThenRestart` | internal/auth/auth.go:114-131 | after any run of requests a rebuilt manager lets in exactly the same tokens, away from expiry instants |
| `Sessions.ThrottleHolds` | internal/auth/auth.go:204-219 | over any run with any number of restarts, no five-minute window since the last successful login holds more than five failed checks, unless a reset or a restart falls in it, and then five more for each |
| `Sessions.ResetsForget` | internal/auth/auth.go:295-304 | n resets and no successful login let five times n + 1 wrong passwords through at one instant: the bound is reached |
| `Sessions.RestartForgets` | internal/auth/auth.go:114-131 | a restart lets five more wrong passwords through at the same instant |
| `DataDir.OpenDataParent` | internal/service/datadir_linux.go:193-222 | for any depth and in any company, each component was a directory entry of the one before when it was opened, no link followed; on error no descriptor is left open; alone, it succeeds exactly if the path leads somewhere and no call fails |
| `DataDir.DataParentConsistent` | internal/service/datadir_linux.go:231-246 | true only if the path has just led, link-free, to the retained parent; alone, exactly then if no call fails; the descriptor used as evidence is closed on every path |
| `DataDir.ParentSafe` | internal/service/datadir_linux.go:254-266 | accepts only a directory that was owned by root and closed to other writers when it was looked at |
| `DataDir.Plan.Close` | internal/service/service.go:262-271 | closes what the plan holds and nothing else; a second call closes nothing |
| `DataDir.InspectDataDir` | internal/service/datadir_linux.go:46-109 | a refusal leaves no descriptor open; an acceptance holds exactly the parent, and the leaf if there was one, each seen with the properties required, in any company; alone, nothing but a failing call refuses an acceptable path; nothing is changed |
| `DataDir.InspectedAlone` | internal/service/datadir_linux.go:46-109 | if nobody interferes, what was seen at different calls holds of one file system |
| `DataDir.InspectExisting` | internal/service/datadir_linux.go:69-108 | an existing leaf is accepted only through a descriptor seen to be its entry's, owned by the service and not writable by others; alone, exactly then if no call fails |
| `DataDir.CleanupLeafError` | internal/service/datadir_linux.go:182-187 | reports removal exactly when the entry is gone |
| `DataDir.SettleLeaf` | internal/service/datadir_linux.go:149-177 | changes mode and owner of the bound inode only, and only if that inode was seen with the mode just asked for; closes its descriptor on every path |
| `DataDir.FreshSettled` | internal/service/datadir_linux.go:140-178 | the bound leaf is the one created, and taking its entry away restores every inode that was there |
| `DataDir.MadeStays` | internal/service/datadir_linux.go:132-139 | below a directory only root may write, the entry just made still leads to the inode just made, whatever processes without root's rights do |
| `DataDir.EstablishFreshLeaf` | internal/service/datadir_linux.go:140-178 | nothing is made below a parent not seen to be safe; unless root itself interferes the leaf bound is the one made; success is one made entry with its mode and owner set; every other outcome changes only below the retained parent, and a reported clean-up leaves what was there before; alone, it succeeds if and only if the parent is safe and hands down no set-group-ID bit, the umask spares the owner, the name is free, the account exists and no call fails |
| `DataDir.SetGroupParent` | internal/service/datadir_linux.go:149-165 | a parent of mode 02755 is accepted as safe, and under every umask what is made below it has another mode than the one asked for |
| `DataDir.MadeReads` | internal/service/datadir_linux.go:143-165 | what is looked at after `mkdirat` below a safe parent has the mode asked for exactly if the parent hands down no bit and the umask spares the owner, whatever processes without root's rights do |
| `DataDir.EstablishDataDir` | internal/service/datadir_linux.go:117-130 | a changed parent is refused before any change; an existing leaf gets its mode through the inspected descriptor and nothing else changes; alone, it succeeds exactly if the path still leads there, a fresh leaf can be made, and no call fails |
| `DataDir.Provide` | internal/service/service.go:822-840 | however the file system is rearranged between the phases, only the inspected leaf or entries below the inspected parent change, and no descriptor stays open; alone, the directory is provided if and only if it is acceptable, a new one can be made if there is none, and no call fails |

## Left out

- HTTP handlers, cookies, roles, address filters, static assets, the launcher and the operation table.
- Metric collection from `/proc` and `statfs`: a sample is any positive number of metrics of any size.
- Accounts, roles, password hashes and their storage: authentication is an oracle that signs in active
  principals only, and the set of active principals and the e-mail addresses do not change during a run.
- Random tokens: a fresh token is one whose hash is not in use. SHA-256 of units and binaries is an
  arbitrary function.
- JSON: what is saved is what is read. Re-indentation of queued batches on a reload, which can grow
  them past the byte bound, is not modelled.
- Interleaved senders, other processes that write the state file, and the gaps in which `Login` and
  `ChangePassword` hold no lock: each operation is one step.
- systemd beyond the stated verbs. A unit-file state that enable and disable cannot produce (masked,
  static) and a service state other than active or inactive are kept abstract.
- Integer width: 64-bit overflow of sequence numbers, counters and times does not occur in the model.
- Invalid UTF-8 and bytes: strings are sequences of characters; the quoting loop runs over characters.
- `filepath.Clean`, `Dir` and `Base`: the data-directory methods take the cleaned parent and the leaf name.
- Installation paths that alias each other (the unit at the binary's path, say).
- The checks on the request that only read it (control characters, protected trees, the environment
  file, the search for systemctl): together they are one verdict.
- The account and the data directory, which an install does not roll back; modes and ownership of the
  files it writes; leftovers named `.new` other than as scratch files.
- `Quote.SystemdQuote`: conformance to systemd's own grammar for `$` and backtick is not claimed, only
  that the escapes written are uniquely decodable.
- `Machine`: unchecked removals are taken to succeed, and so is reading a file that exists, the unit and
  a failing copy excepted.
- `Install.RepeatIsNoOp`: a unit that cannot be read must be one that exists; the model's flag for it
  says nothing of a unit yet to be written.
- `Requests.InstallTwice`: the path of the installed binary has no line break in it; it is a constant of
  the program.
- `Update.VerifyActiveAndHealthy`: the window is a number of polls; how long each one takes is not modelled.
- `Update.UpdateBinary`: case folding and trimming of the expected checksum are inside the digest comparison.
- `Telemetry.Agent.Flush`: the disk fails finitely often. If it failed forever, a stale head would be
  dropped and kept in turn without end, because the code ignores that failure and goes round again.
- `Store.Store.Update`: the account, role, collector and launcher slices, which are cloned the same way;
  a callback is a list of the edits that the agent's callbacks make, in any order and number.
- `Store.Store.Reset`: fields without slices other than identity, credential and sequence number.
- `Sessions.Manager.ChangePassword`: the password itself is written by an earlier save of its own, so a
  failure here leaves it changed; setup and account creation save twice in the same way and are not modelled.
- `Sessions.Manager.ClearSessions`: agreement is claimed only under its exact condition, because the code
  ignores a failed save.
- `DataDir.EstablishFreshLeaf`: against a process with root's rights nothing is claimed of the inode that
  is bound but that it was a directory of mode 0700 when it was looked at.

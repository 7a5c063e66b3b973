# Verified model of zeropod

zeropod is a containerd shim and a node manager that scale a container down to zero by
checkpointing its process, restore it on the next connection, and move it between nodes.
This project models the parts of it whose correctness depends on every interleaving, and
proves what they are there to guarantee.

* `CriLog`, `CriLogRoundTrip`: the log splitter. A container's output is read through a
  fixed-size buffer and written as log entries of bounded length. The buffered loop writes
  exactly what a buffer-free specification says, and the log can be read back.
* `ExitLifecycle`, `ExitInvariant`, `ExitTheorems`, `ExitDeadlock`, `ExitService`: the exit
  bookkeeping of the shim's task service. Every critical section is a step of a state machine in which handshakes,
  reaped exits and waiting goroutines interleave freely. `ExitService` has the critical
  sections as code, each refining its step.
* `ExitFilter`: how the wrapper hides the exits that scaling down causes.
* `Migration`, `MigrationProof`, `MigrationTheorems`, `MigrationClient`, `MigrationClaim`:
  reconcilers, node services and shims racing on one Migration object, with reads as stale
  as they like.
* `PodScaling`, `PodScalingProof`, `PodScalingTheorems`, `PodScalingOriginals`,
  `PodScalingServer`: in-place scaling of pod requests with two writes per event, each of
  which may fail or be overtaken.
* `ScaleDown`: the scale-down timer. `DryRun`: simulated scale-downs and their counters.
* `Redirect`: the eBPF port redirection and the activator that feeds its maps.

Conventions. A state machine has `Enabled`, `Next` and `IsRun`; a theorem takes an arbitrary
run and speaks of any of its states. State that the source only keeps implicitly (which
events were sent, which versions an object had) is in the state as history. A read that may
be stale is a read of any version stored so far; an update carries that version and is
accepted only if it is still current. Outcomes of foreign calls (runc, CRIU, the kernel, the
API server's network) and clock readings are parameters. Where a property of the source does
not hold in general, the exact condition is part of the statement and a lemma exhibits the
failing family.

Conditions that the code does not enforce itself. Where a theorem needs one, it is in the
theorem or in `Enabled`, and a lemma shows what happens otherwise where that is visible in the
model.

* A log limit between 1 and 15 makes `redirectLogs` panic on a long line, because
  `bufio.NewReaderSize` never makes a buffer smaller than 16 bytes.
* Exits are published exactly once as long as no two handshakes of one process overlap and no
  exec that runs already is started again. A Start of a running exec that failed and still
  returned the process would register it twice.
* A container is deleted only once its init exit is about to be published, and no exec can be
  forked into a deleted container.
* After the Delete the exec counts are not promised any more. Starts that found the container
  before can then fill the waiter's channel after the waiter has stopped receiving, and the
  next send deadlocks: it blocks while it holds the lock that the waiter needs.
* `scaleDown` tests the phase before it takes the lock. A second attempt that gets the lock
  after a successful checkpoint and then fails removes the mark of the checkpointed PID.
* Annotations that a pod has before its first event are trusted. Its originals are never lost
  exactly if they account for every request that a scale-down changes. Its requests follow
  its last event exactly if, for each container and resource that an annotation is there for,
  a non-zero request is annotated or already scaled down, and a missing or zero request is not
  annotated.
* No exec arrives between the firing of the dry-run poll timer and its callback, or both count
  a restore.
* A port is redirected to the proxy only when both its map entries are written: `Reset` is
  called on a started activator only. A proxy gets a port that no other port is redirected to.

The comment on `initRetry` says the first wait is 100 milliseconds; the code waits 10, and so
does the model.

## Model

| member | source | states |
|---|---|---|
| `CriLog.Reader.ReadSlice` | shim/io/logger.go:77-79 | A read returns the bytes up to the first newline, a full buffer without one, or the rest of the stream; nothing is skipped or repeated |
| `CriLog.Reader.ReadLine` | shim/io/logger.go:76-110 | Returns the next line without its line end, or a prefix of it that never ends between `\r` and `\n`, or the tail; both panics are unreachable, and every read but the last makes progress although a byte may be pushed back |
| `CriLog.WriteLineBuffer` | shim/io/logger.go:132-152 | One written line is, byte for byte, time stamp, space, stream, space, `P` or `F`, space, the concatenated chunks and a newline |
| `CriLog.SplitLast` | shim/io/logger.go:181-192 | Cutting the excess off the last chunk splits the buffered bytes at exactly the limit |
| `CriLog.Splitter.Append` | shim/io/logger.go:157-166 | A read is appended to the buffered line and the tracked length stays the number of buffered bytes |
| `CriLog.Splitter.SplitLong` | shim/io/logger.go:180-193 | Writes one piece of exactly the limit if more is buffered and keeps the rest; panics exactly if the excess is longer than the last chunk |
| `CriLog.Splitter.Flush` | shim/io/logger.go:197-206 | Writes the buffered line with its tag and empties the buffer |
| `CriLog.EntriesLine` | shim/io/logger.go:97-108 | The specification of a stream whose first line ends here: that line without one `\r`, cut into pieces, then the rest |
| `CriLog.EntriesTakePiece` | shim/io/logger.go:180-193 | Taking a piece of the limit off a longer first line leaves the specification of the remaining stream |
| `CriLog.ReadStep` | shim/io/logger.go:153-210 | One iteration writes what the specification needs next, buffers at most the limit, and never has more excess than the last read |
| `CriLog.RedirectLogs` | shim/io/logger.go:112-212 | Terminates; for every input and every limit that is not 1 to 15 the log is the specified one and no panic is reached; for every limit from 1 to 15 every plain line of 288 bytes panics |
| `CriLogRoundTrip.ParsePrinted` | shim/io/logger.go:132-152 | Splitting the printed log at newlines and spaces gives back the entries |
| `CriLogRoundTrip.GlueEntries` | shim/io/logger.go:194-209 | Gluing each run of partial entries to the next full one gives the terminated lines and the tail of the input |
| `CriLogRoundTrip.EntriesBounded` | shim/io/logger.go:127-130 | No entry is longer than the limit or contains a newline |
| `CriLogRoundTrip.CutExact` | shim/io/logger.go:180-193 | Every piece of a line but the last is partial and of exactly the limit, and the last has the tag of the line |
| `CriLogRoundTrip.FullLineBytes` | shim/io/logger.go:197-204 | In bytes: a terminated line that fits is logged with `F`, and a carriage return before its newline is not |
| `CriLogRoundTrip.TailBytes` | shim/io/logger.go:197-204 | In bytes: an unterminated tail that fits is logged with `P`, its carriage returns included |
| `CriLogRoundTrip.LongLineBytes` | shim/io/logger.go:180-193 | In bytes: a longer line is logged as `P` with exactly the limit, then `F` with the rest |
| `CriLogRoundTrip.LogRoundTrip` | shim/io/logger.go:112-212 | Parsing and gluing the specified log of any input gives back exactly its lines, and the unterminated tail if any |
| `CriLogRoundTrip.RedirectAndReadBack` | shim/io/logger.go:112-212 | What the loop itself writes, read back, is the input's lines and tail, with every entry within the limit |
| `ExitInvariant.ThenConserves` | shim/task/service.go:722-783 | A step of a thread neither loses nor duplicates the exit it carries |
| `ExitInvariant.InvKept` | shim/task/service.go:165-331 | Every step of Create, Start, Delete, the exit loop and its goroutines keeps the invariant over all processes and containers |
| `ExitTheorems.RunsKeepInv` | shim/task/service.go:661-783 | The invariant holds in every state of every run |
| `ExitTheorems.ExactlyOnce` | shim/task/service.go:165-221 | In every interleaving an exit is published or about to be at most once; exactly once if it was reaped and the handshake is over; a process not reaped is in `running` |
| `ExitTheorems.QuiescentRunsPublishAll` | shim/task/service.go:661-698 | When no thread has anything left to do, every reaped process that was started has its one event |
| `ExitTheorems.ExitGoesOneWay` | shim/task/service.go:671-688 | A reaped exit goes to the handshake of its process or to `running`, never to both, and to the handshake exactly while that is in flight |
| `ExitTheorems.InitExitIsLast` | shim/task/service.go:722-765 | The TaskExit of an init taken from `running` comes after the TaskExit of every exec of its container, in every run |
| `ExitTheorems.NoExecCountedAfterInitExit` | shim/task/service.go:304-317 | From recording the init exit to deleting the container no exec becomes counted |
| `ExitTheorems.CountsAndChannels` | shim/task/service.go:731-783 | `runningExecs` is the number of execs counted and not yet exited or failed; a channel never holds more counts than its capacity, so no send under the lock blocks; a waiter with no exec left has a zero to receive |
| `ExitTheorems.WaiterWakes` | shim/task/service.go:753-763 | Once no exec of the container is counted, the values in its channel take the waiter's loop to the publication of the init exit, in every run |
| `ExitTheorems.ChannelsAreRemoved` | shim/task/service.go:741-751 | In every run a channel is there only while its waiter still has it to remove; with nothing left to do there is none |
| `ExitTheorems.OverlapPublishesTwice` | shim/task/service.go:169-185 | With a second Start of the same init admitted during its handshake, an exit would be published twice |
| `ExitTheorems.EarlyInitExitIsNotLast` | shim/task/service.go:194-201 | An init that exits inside its own Start handshake is published before execs still running |
| `ExitTheorems.RestartedExecPublishesTwice` | shim/task/service.go:320-332 | A failing Start of an exec that runs already, if it returns the process, registers it a second time, and its exit is published twice |
| `ExitDeadlock.LateStartsDeadlock` | shim/task/service.go:308-331 | For every number of execs there is a run to a deadlock: the container is deleted, its channel is full with nobody receiving, the only thread left needs the lock to remove it, and one more late Start is about to send while it holds that lock |
| `ExitService.Service.PreStart` | shim/task/service.go:165-167 | Subscribes a handshake to all exits; refines the Create step |
| `ExitService.Service.PreStartInit` | shim/task/service.go:165-185 | Takes the init out of `running` and subscribes; refines the Start step of an init |
| `ExitService.WithoutContainer` | shim/task/service.go:173-178 | Keeps exactly the other containers' processes of a PID, with their multiplicity |
| `ExitService.OthersInOrder` | shim/task/service.go:173-178 | The processes kept of a PID are in their old order |
| `ExitService.Service.StartExec` | shim/task/service.go:308-316 | Refused exactly if the init exit is recorded, otherwise counted and subscribed |
| `ExitService.Service.HandleStarted` | shim/task/service.go:186-210 | Returns the exits noted during the handshake, or registers the process; refines the end of the handshake |
| `ExitService.Service.ProcessExit` | shim/task/service.go:670-689 | One round of the exit loop under the lock; refines the reap step and returns the processes the exit ends |
| `ExitService.Service.Notify` | shim/task/service.go:673-675 | Every subscriber notes the exit, in any iteration order |
| `ExitService.Service.StashInits` | shim/task/service.go:680-686 | Records the exit for exactly the containers whose init is among the processes |
| `ExitService.HandlesExactly` | shim/task/service.go:691-697 | Every process of a PID is handled once, an init as an init and an exec as an exec |
| `ExitService.PublishesExactly` | shim/task/service.go:197-201 | Every exit noted during a handshake is published |
| `ExitService.Service.HandleInitExit` | shim/task/service.go:731-743 | Publishes now exactly if no exec is counted, else opens a channel with room for all of them |
| `ExitService.Service.Uncount` | shim/task/service.go:775-782 | Uncounts an exec and sends the new count to the waiter, if any |
| `ExitService.Service.Forget` | shim/task/service.go:746-751 | The waiter removes its channel and the container's count |
| `ExitService.Service.Delete` | shim/task/service.go:376-378 | Drops the recorded init exit |
| `ExitFilter.PlacesKept` | shim/task/service_zeropod.go:415-466 | Every PID is alive, reaped, under examination, passed on or hidden, in one place only, and the current process is tracked |
| `ExitFilter.DoneKept` | shim/checkpoint.go:51-72 | Every step keeps the exits of scaled-down PIDs hidden or bound to be hidden |
| `ExitFilter.ScaleDownExitsAreHidden` | shim/checkpoint.go:140-151 | In every run without a second attempt on a scaled-down container, and as long as the container is registered, the exit of a PID that was checkpointed or killed is never passed on, whether it is met before the phase changes, while scaled down or after a restore |
| `ExitFilter.ScalingTakesEffect` | shim/checkpoint.go:85-155 | In every run a mark is on the current process, a success sets the phase, frees the lock and makes a restore possible, a failed checkpoint takes the mark back, and a restore makes the new process the current, running one |
| `ExitFilter.PhaseFollowsLastStep` | shim/container.go:260-278 | The container is scaled down from a successful scale-down or evacuation to the next restore, and not from there to the next of those |
| `ExitFilter.ScaledDownProcessIsNeverPassedOn` | shim/task/service_zeropod.go:415-466 | The same in terms of the steps: once a live process has been checkpointed or killed, its exit is not passed on at any later moment |
| `ExitFilter.HiddenExactlyIf` | shim/task/service_zeropod.go:417-466 | With anything happening between the filter's reads: hidden exactly if tracked, registered, and scaled down or marked, each at the moment it is read; otherwise passed on |
| `ExitFilter.UnmarkedExitsArePassedOn` | shim/task/service_zeropod.go:443-466 | In every run the exit of a PID never marked is passed on when the filter finds the container not scaled down |
| `ExitFilter.UnregisteredExitIsPassedOn` | shim/task/service_zeropod.go:313-315 | After the wrapper's Delete of the container every exit is passed on |
| `ExitFilter.SecondAttemptUnhidesExit` | shim/checkpoint.go:24-48 | A second, failing attempt after a successful checkpoint makes the filter pass the exit on after a restore |
| `ExitFilter.Container.Checkpoint` | shim/checkpoint.go:85-155 | The machine's steps in their order, with everybody else running in between: the PID is marked before the dump, and scaled down after it; a failed dump removes the mark, an earlier failure leaves everything |
| `ExitFilter.Container.Kill` | shim/checkpoint.go:51-72 | Likewise: marked before the process is killed, scaled down after it is gone; a failed delete leaves the mark |
| `ExitFilter.Container.Restore` | shim/restore.go:45-70 | Succeeds exactly from scaled down, with capacity, and with the first attempt or the one retry; then the new process is current and the phase running, otherwise nothing changes |
| `ExitFilter.Container.PreventExit` | shim/task/service_zeropod.go:443-456 | Hides the exit exactly if the machine's filter does in the state the fields are those of, and leaves the machine's marks |
| `ExitFilter.Wrapper.ProcessExit` | shim/task/service_zeropod.go:415-441 | Passed on exactly if no process the exit ends is hidden by its container; a hidden exit leaves `running` and drops the exec bookkeeping of those containers, a passed one changes nothing |
| `Migration.SetPhaseFrame` | manager/node/service.go:1053-1063 | A status update sets one container's phase, leaves every other entry and the order alone, and appends a missing name |
| `Migration.SetServersAt` | manager/node/service.go:1034-1042 | A spec update changes exactly the container of that name |
| `Migration.FirstStatusNames` | manager/pod_controller.go:193-209 | The first status has one entry per container, in order, with distinct names |
| `Migration.FirstPhase` | manager/pod_controller.go:193-209 | The first phase of a container is Failed exactly if it runs and is not migrated live, otherwise Pending; there is none for other names |
| `MigrationProof.InvKept` | manager/node/service.go:997-1032 | Every accepted or rejected write of every client keeps the invariant over the whole version history |
| `MigrationProof.StoreKeeps` | manager/node/service.go:997-1012 | Storing a version that follows the current one keeps what holds between any two versions |
| `MigrationTheorems.HistoryOnlyGrows` | manager/node/service.go:997-1032 | A later state's versions and claims extend an earlier state's |
| `MigrationTheorems.ClaimIsFinal` | manager/pod_controller.go:225-253 | With any number of clients on stale lists: target pod and node are set together and never change, at most one pod ever claims, and its node and template hash are the migration's |
| `MigrationTheorems.UnclaimedIsFinal` | manager/node/service.go:738-761 | Marked unclaimed without a target, the migration is never claimed afterwards, however stale the reads |
| `MigrationTheorems.ServersInOrder` | manager/node/service.go:823-839 | In every version an image server implies RestoreReady, which implies a target; the page server next to it is there exactly if that container was evacuated live |
| `MigrationTheorems.LiveNeedsAgreement` | manager/node/service.go:425-438 | Where an image server is set and the live flag holds, the page server is set exactly if this container's own evacuation was live; with one container it always is |
| `MigrationTheorems.MixedEvacsLosePageServer` | manager/node/service.go:823-839 | With two containers, one evacuated while scaled down and then the other live, the first is shown live without a page server |
| `MigrationTheorems.PhaseSteps` | manager/node/service.go:844-855 | From one version to the next a completed container becomes only failed or unclaimed, at most one entry changes, and names stay unique |
| `MigrationTheorems.EveryChangeHasItsWriter` | manager/node/service.go:997-1032 | In every run the target appears exactly with an accepted claim of a matching pod, RestoreReady exactly with the readiness of the target itself, servers change only by the evacuation of that very container after the target was ready, and only status updates touch the status |
| `MigrationTheorems.StatusOutcome` | manager/node/service.go:545-566 | A stored status update leaves the phase it stands for: an evacuation never overrides Completed, a finished restore never overrides Failed, and the first status comes before any other |
| `MigrationTheorems.FirstPhaseInRun` | manager/pod_controller.go:193-215 | In every run the first status is written before any other, with those phases |
| `MigrationTheorems.DeletedIsFrozen` | manager/node/service.go:997-1032 | A deleted migration is never written again |
| `MigrationTheorems.PreparedMayEvacuate` | manager/node/service.go:763-776 | A source that has seen the target ready may evacuate from then on |
| `MigrationTheorems.PendingIsFirst` | manager/pod_controller.go:193-215 | Pending can only be a container's first phase, and a phase never disappears |
| `MigrationTheorems.CompletedLeavesThroughFailure` | manager/node/service.go:545-566 | A completed container stays completed until it is marked failed or unclaimed |
| `MigrationTheorems.CompletedFailedRunning` | manager/node/service.go:493-502 | A completed container that is marked failed does run again on the next evacuation |
| `MigrationClient.Object.SetOrUpdateContainerStatus` | manager/node/service.go:1053-1063 | The search loop computes the status update of the protocol |
| `MigrationClient.Object.GetContainerStatus` | manager/node/service.go:1044-1051 | Returns the phase of the first entry of that name, or none |
| `MigrationClient.Object.HasUnclaimedContainer` | api/runtime/v1/types.go:158-162 | Tells whether some container is unclaimed |
| `MigrationClient.Object.UpdateContainerSpec` | manager/node/service.go:1034-1042 | Finds the container exactly if there is one and changes only its servers |
| `MigrationClient.PrepareMigrationSource` | manager/pod_controller.go:193-209 | One entry per container, in order: Failed exactly if it runs and is not migrated live, otherwise Pending |
| `MigrationClient.Serving` | manager/node/service.go:429-437 | The wait's condition holds exactly if the container has an image server |
| `MigrationClient.AwaitServers` | manager/node/service.go:425-442 | Restore's wait ends with the first poll that shows an image server for the container, and fails only if none does |
| `MigrationClient.AwaitServersInRun` | manager/node/service.go:411-442 | When the wait ends, in any run and with polls as stale as they like, the target was ready and claimed and the page server is there exactly if this container was evacuated live; with one container, exactly if the live flag is set |
| `MigrationClaim.ApiServer.Update` | manager/node/service.go:597-606 | A claim is stored exactly if the object exists and is unchanged; a conflict is told from a missing object |
| `MigrationClaim.ApiServer.Take` | manager/node/service.go:592-610 | An item is kept if it is held, claimed if it can be, and otherwise passed over without a write |
| `MigrationClaim.ApiServer.FindOnce` | manager/node/service.go:591-612 | While others write to the same objects, the first item not skipped decides: one held already, or one whose claim is accepted; stale items are skipped, a missing object is an error, and nothing but that one claim is written |
| `MigrationClaim.ApiServer.FindMatchingMigration` | manager/node/service.go:581-617 | Tries again with a new list until an attempt does not come back empty-handed; every attempt but the last writes nothing |
| `MigrationClaim.ApiServer.PrepareMigrationTarget` | manager/pod_controller.go:219-256 | One pass like that, but a conflict ends it and asks for a requeue |
| `PodScaling.UpToDateIsNoChange` | manager/pod_scaler.go:82-93 | Skipping an up-to-date container and rewriting it give the same requests |
| `PodScaling.ShrunkIs` | manager/pod_scaler.go:19-24 | Scaled down, a non-zero CPU request is 1m and a non-zero memory request 1Ki; everything else stays |
| `PodScaling.InitialIs` | manager/pod_scaler.go:112-137 | The originals are the annotated quantities where there are non-zero ones, and the current requests elsewhere |
| `PodScaling.CollectedAt` | manager/pod_scaler.go:142-145 | The annotation records every container's request |
| `PodScaling.PodObject.SetAnnotations` | manager/pod_scaler.go:139-168 | The loop writes each missing annotation with all containers' requests and leaves existing ones |
| `PodScaling.PodObject.Rescale` | manager/pod_scaler.go:51-76 | Exactly the containers of that name with requests get their new requests; fails exactly if one of them meets an annotation that cannot be parsed |
| `PodScaling.PodObject.Reconcile` | manager/pod_scaler.go:43-79 | Annotates first, then rescales |
| `PodScalingProof.AnnotatedOriginal` | manager/pod_scaler.go:112-137 | Writing the annotations does not change the originals they and the requests stand for |
| `PodScalingProof.InitialOfAlike` | manager/pod_scaler.go:112-137 | The originals read off a pod do not depend on the requests that an annotation names |
| `PodScalingProof.RescaledForm` | manager/pod_scaler.go:95-110 | One event takes a container of a consistent pod from the form of the phases so far to the form with that event |
| `PodScalingProof.InvKept` | manager/status.go:197-229 | Each of the two writes of an event, accepted or rejected, keeps every version in the form of the phases written so far, with other events and writes to other fields in between |
| `PodScalingOriginals.OriginalsNeverLost` | manager/status.go:197-229 | In every version of every run the originals can be read off the pod, and either nothing has been written or both annotations hold them; for every pod without annotations, and for one with annotations if they account for every request that a scale-down changes |
| `PodScalingOriginals.UnkeptRequestIsLost` | manager/pod_scaler.go:139-168 | Every other pod loses an original with one SCALED_DOWN event |
| `PodScalingOriginals.RescaledKept` | manager/pod_scaler.go:95-110 | No event changes the originals that annotations and requests stand for |
| `PodScalingOriginals.InvKept` | manager/status.go:197-229 | Both writes of an event, accepted or rejected, keep what the pod stands for |
| `PodScalingOriginals.FreshPodsAreKept` | manager/pod_scaler.go:150-166 | A pod without annotations meets the condition |
| `PodScalingTheorems.AnnotationsAreTheRequests` | manager/pod_scaler.go:139-168 | For a pod without annotations they record exactly its requests, which are its originals |
| `PodScalingTheorems.RequestsFollowPhase` | manager/pod_scaler.go:95-110 | In every version of every run of a consistent pod a container has the originals after RUNNING, the scaled-down form after SCALED_DOWN; keys, other resources and the non-zero set never change |
| `PodScalingTheorems.BrokenPodsStay` | manager/pod_scaler.go:114-126 | A pod whose annotations cannot be parsed is never resized |
| `PodScalingTheorems.LastEventDecides` | manager/pod_scaler.go:43-137 | After any sequence of events over any containers of a consistent pod the requests are those of the container's last RUNNING or SCALED_DOWN event |
| `PodScalingTheorems.DisagreementBreaks` | manager/pod_scaler.go:128-134 | Any other pod leaves the forms with SCALED_DOWN, or with RUNNING after it |
| `PodScalingTheorems.ExactlyConsistentPodsFollow` | manager/pod_scaler.go:43-137 | The requests follow the last event, for all sequences of events and all containers, if and only if the pod is consistent |
| `PodScalingOriginals.ScaleDownKeepsOriginal` | manager/pod_scaler.go:128-134 | For any pod, whoever wrote its annotations, a scale-down keeps the originals readable if and only if each request is zero, already scaled down, not annotated yet, or annotated for this container |
| `PodScalingServer.Subscriber.FirstWrite` | manager/status.go:197-216 | Runs the handler, puts the containers back and writes the rest; one step of the machine |
| `PodScalingServer.Subscriber.SecondWrite` | manager/status.go:217-228 | Writes only the containers, and only if the pod is unchanged since the first write |
| `ScaleDown.LastOfIsLast` | shim/container.go:642-662 | What `lastActivity` promises determines its result |
| `ScaleDown.Sort` | shim/container.go:660-660 | Sorted, and the same times |
| `ScaleDown.LastActivity` | shim/container.go:642-662 | One failing port fails it, ports without activity are left out, and the rest give their maximum |
| `ScaleDown.Container.ScheduleScaleDown` | shim/container.go:187-208 | Whatever is pending is replaced by a timer for one duration from now, or by none if the duration is zero |
| `ScaleDown.Container.InitRetry` | shim/container.go:522-531 | Doubles from 10 milliseconds to at most 5 minutes |
| `ScaleDown.Container.ScaleDownCheck` | shim/container.go:210-251 | Attempts the scale-down exactly if the activator is started and the last activity is not younger than the duration, whatever the timer is doing by then; says for when the timer is armed in every other case; a failed attempt disables checkpointing |
| `ScaleDown.AttemptsOnlyWhenIdle` | shim/container.go:210-251 | Every attempt of every run: a lookup failed, or every port's last activity is at least the duration old |
| `ScaleDown.CalmCheckAttempts` | shim/container.go:210-251 | Every check of every run with no activity since its timer was armed for a duration attempts the scale-down, however late it runs and whatever is scheduled meanwhile |
| `ScaleDown.PutOffThenAttempts` | shim/container.go:224-241 | A check that is put off arms the timer for exactly last activity plus duration, and any check after that timer has fired attempts unless there was activity |
| `ScaleDown.WhenArmed` | shim/container.go:191-251 | In every run the timer is armed exactly so: a duration from scheduling or from a failed attempt, last activity plus duration when put off, the backoff while the activator is not started |
| `ScaleDown.ScheduleFiresAfterDuration` | shim/container.go:191-208 | Scheduling makes the timer fire from exactly a duration later on; with a zero duration it does not fire |
| `ScaleDown.FiredTimerChecks` | shim/container.go:202-204 | A fired timer can run its check, until it has |
| `ScaleDown.IdleContainerIsScaledDown` | shim/container.go:187-251 | A container that stays idle is scaled down: scheduled, fired after the duration, attempted by the check |
| `ScaleDown.ActivityPutsOff` | shim/container.go:224-241 | No scale-down is attempted within the duration after any activity, unless a lookup fails |
| `DryRun.NewConfig` | api/shim/v1/config.go:196-205 | In dry-run mode migration stays enabled exactly if both the container name and the live-migrate annotation are empty; other containers' entries are kept |
| `DryRun.DeleteName` | api/shim/v1/config.go:199-199 | Removes every occurrence of the name and keeps the rest in order |
| `DryRun.SimulationTakesEffect` | shim/dryrun.go:21-85 | In every run a dry-run scale-down starts and counts a simulation unless one is going on; a poll with activity and an exec during it end it and count a restore; nothing else is counted; outside dry-run mode a successful scale-down is real |
| `DryRun.PollsGoOn` | shim/dryrun.go:34-54 | A pending poll fires, a fired one runs, and one without activity is pending again |
| `DryRun.ScrapesCarryCounts` | shim/container.go:664-679 | What is counted since the last scrape leaves with the next and arrives with its delivery |
| `DryRun.NeverScaledDown` | shim/checkpoint.go:24-27 | In dry-run mode without migration the container is never scaled down, in any run |
| `DryRun.EvacuationScalesDown` | shim/evac.go:166-171 | With live migration enabled an evacuation scales it down even in dry-run mode |
| `DryRun.BalanceStep` | shim/dryrun.go:21-85 | A step keeps the balance of the counters exactly if it is not a poll restoring what is already restored |
| `DryRun.CountsAlternate` | shim/dryrun.go:21-85 | In every run in which no exec arrives between a poll's firing and its callback, simulated scale-downs minus restores is 1 while simulating and 0 otherwise, with exactly one poll while simulating |
| `DryRun.ExecRacesPoll` | shim/dryrun.go:65-85 | An exec between a poll's firing and its callback makes both count a restore |
| `DryRun.CountsAreConserved` | shim/container.go:664-679 | Every simulated event is exported, pending, in a scrape on its way, or in a lost one; outside dry-run mode there are none |
| `DryRun.DeliveredScrapesAddUp` | manager/metrics_collector.go:161-167 | If no scrape is lost, exported plus pending are the true totals whenever none is on its way |
| `DryRun.SeriesGrow` | manager/metrics_collector.go:141-167 | A batch adds to every time series exactly what its dry-run metrics report for it |
| `DryRun.ReportedTogether` | manager/metrics_collector.go:141-167 | Two batches report what they report together |
| `DryRun.ReportedIs` | manager/metrics_collector.go:164-167 | A dry-run metric reports its counts to its own series, any other metric nothing |
| `DryRun.Collector.Collect` | manager/metrics_collector.go:141-167 | The loop over a batch computes that sum |
| `DryRun.Container.ScaleDown` | shim/checkpoint.go:24-48 | In dry-run mode sets the flag, counts one and starts the poll unless a simulation is going on, and never the phase; otherwise scales down unless it is |
| `DryRun.Container.DryRunRestoreCheck` | shim/dryrun.go:42-54 | Restores exactly on activity after the simulated scale-down, otherwise polls again; a failed lookup polls again |
| `DryRun.Container.DryRunExec` | shim/dryrun.go:65-70 | During a simulation ends it, stops the poll and counts a restore; otherwise changes nothing |
| `DryRun.Container.GetMetrics` | shim/container.go:664-679 | Hands the counts out and clears them |
| `Redirect.InvKept` | activator/activator.go:513-521 | Every map update keeps the redirections one to one, and a port with only one of its two entries disabled |
| `Redirect.EgressUndoesIngress` | activator/redirector.c:90-131 | In every reachable map state the answer to any packet for a container port leaves from that port, except exactly for a registered source port writing to a port whose two entries are just being written |
| `Redirect.AnswersOutliveChanges` | activator/redirector.c:117-131 | An answer to an earlier packet is still translated back after any further updates, unless its proxy port was taken for another port |
| `Redirect.HalfWrittenPortLeaksProxy` | activator/activator.go:513-521 | The exception is reachable: a run in which an answer leaves from the proxy port |
| `Redirect.ClientsNeverSeeProxies` | activator/redirector.c:117-131 | Once both entries of a redirected port are written no packet leaves from its proxy, whoever sent it; what the proxy sends leaves from the port it stands for exactly then |
| `Redirect.ActiveIffOpen` | activator/activator.go:583-595 | A source port is active exactly if its last registration has not been followed by a removal |
| `Redirect.DisabledIffSwitchedOff` | activator/activator.go:597-611 | A port is disabled exactly if it was last switched off |
| `Redirect.RedirectedToLastProxy` | activator/activator.go:513-517 | A port is redirected to the proxy last put in for it |
| `Redirect.RegisteredStaysWithProxy` | activator/redirector.c:97-110 | From registration to removal every packet of a connection goes to the proxy, whatever ports are enabled and disabled meanwhile |
| `Redirect.OthersFollowTheSwitch` | activator/redirector.c:80-110 | Any other packet for a redirected port goes direct exactly if the port was last switched off; all remaining packets are left alone |
| `Redirect.SharedSourcePort` | activator/activator.go:590-595 | Two connections with one source port: removing one turns the other away from the proxy |
| `Redirect.Server.Reset` | activator/activator.go:173-180 | Enables the ports one by one up to the first error, and touches nothing else |
| `Redirect.Server.DisableRedirects` | activator/activator.go:182-189 | Disables the ports one by one up to the first error, and touches nothing else |
| `Redirect.Server.RedirectPort` | activator/activator.go:513-521 | Whatever fails, the maps stay sound and no other port is affected; on success the port is translated both ways |
| `Redirect.Server.ListenAll` | activator/activator.go:114-124 | Every listener gets both entries, or the loop stops with the map invariant intact |
| `Redirect.Server.Start` | activator/activator.go:101-134 | Succeeds exactly without faults; on success every port has both entries and is disabled exactly if the container itself is started; after any failure the map invariant still holds |

## Left out

- CRIU, runc, ttrpc, TLS, image transfer, cgroups, netlink and the loading of eBPF programs: their outcomes are parameters.
- The restore path's early-exit subscription: `preRestore` releases it before the process is started, so an exit during a restore is not part of the exactly-once claim.
- PID reuse: processes have distinct PIDs, as the source itself assumes.
- OOM events, TaskCreate, TaskStart and TaskDelete events, stats and checkpoints of containerd's task API: they carry no exit state.
- Time stamps: any word without space or newline stands for a formatted time, and the fields PausedAt, RestoredAt and MigrationDuration are not modelled.
- Polling timeouts and the backoff of retries in the migration clients: a poll is a sequence of versions, a retry is a further step on a newer version.
- The `retry.RetryOnConflict` around Restore's update reuses the object it read, so all its attempts after a conflict conflict again; the model has the one attempt that can succeed.
- Re-creation of a deleted migration under the same name: pods of a replica set have fresh names.
- Eviction from the eBPF maps, which are LRU maps of 128 and 512 entries, and packet parsing and checksums.
- The reuseport activator, HTTP probe detection, and the proxying of a connection.
- Capacity tracking, pod labels, status events and annotation parsing in general: one-step functions.
- Configuration reloads of the scale-down duration: it is constant in a run.
- CriLog.RedirectLogs: does not model write errors of the log file, which the source logs and then ignores.
- ExitFilter.ScaleDownExitsAreHidden: speaks of one container, because the filter decides about each process by its own container only.
- ExitFilter.Container.PreventExit: reads the phase and the marks at once; the machine's filter has them as two steps with anything in between.
- PodScalingProof.InvKept: other clients write other fields only, not the requests or the two annotations.
- DryRun.Container.GetMetrics: reads and clears the counters in one step, although the source does so without a lock.
- ScaleDown.Container.ScaleDownCheck: reads the clock once, where the source reads it up to three times; with one reading the test for a negative delay never holds.

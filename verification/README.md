# daemonkit in Dafny

A model of the parts of daemonkit that must survive crashes, races and reused process numbers,
and proofs of what they promise. Each component is a set of small atomic steps; the theorems are
about every sequence of them.

- **Bundle swap and services record** (`Swap`, `Labels`, `Services`): the filesystem is a map
  from slots to trees, every primitive may fail or crash with or without having taken effect,
  and a removal that is cut short leaves a tree torn.
- **Session writer, delivery proof and replay** (`SessionWriter`, `WriterTheorems`,
  `WriterLaws`, `Writer`, `Delivery`, `DeliveryLaws`): every critical section of the writer is one event, and so is the gap between
  selecting an entry under the lock and enqueueing it after the lock is released.
- **Ownership scope and natural-drain lease** (`Ownership`, `OwnershipLaws`, `Owned`, `Drain`): settle, wait and observe run
  against any interleaving of the other verbs, the processes and the drivers.
- **Reap ladder and child driver** (`ProcessTable`, `Reap`, `Driver`): an adversarial process table
  exits processes and hands their numbers out again between any two looks at it.
- **Bounded channel and request sender** (`Channel`, `ChannelTheorems`, `BoundedChannel`,
  `RequestSender`, `ClientRequest`).
- **Linux supervisor loop** (`Supervisor`).
- **Codecs and budgets** (`BigEndian`, `Utf8`, `SessionFrame`, `FrameStream`, `StateFrame`, `Ladder`).

The modules named `...Laws` say what each operation does by what a caller can see of it, apart from the
step functions. State that the source updates in place is a class whose methods are proved against the step functions
of the matching module; pure logic is functions. Clocks, the codec's result, probes, child exits, crashes
and the choices of other callers are unconstrained values. `dafny verify dfyconfig.toml` checks all of it.

## Where the code does less than its promise

- **A frame can follow the closing frame.** `finish` picks the next entry under the lock and enqueues it
  after unlocking (`SessionWriter.swift:333-382`); a `close` in between puts the closing frame first.
  `WriterTheorems.ClosingFrameIsLast` proves the closing frame is last in every continuation exactly when
  the close does not fall into that gap, and `GapReachable` and `GapOvertaken` give the run.
- **A frame can follow the end frame.** `ended` is set only after the end frame's write returned
  (`ClientRequestState.swift:226-235`), so an end frame whose write fails does not end the sender.
  `RequestSender.FailedEndIsFollowed` gives the run and `RequestSender.LastFrame` the exact condition. The
  failed write took the connection down, so nothing follows the end frame on the way to the writer
  (`RequestSender.FramesInSequence`).
- **A number is not a handle.** Where a hold is only the process number (`hold_darwin.go`), the number can pass
  to another process between the probe that matched and the signal. `Reap.NumberHoldsExactly` proves that every
  signal of every run reaches the pinned instance or nobody exactly when the instance is not running at the call or its
  parent keeps it unreaped through the call; `Reap.StrangerIsHit` gives the run. A proven outcome stays sound either way.
  The driver signals its own child by number while another goroutine waits for it (`driver.go:254-274`), so the look for
  a ready exit before the first signal does not close the gap: `Reap.ChildSignalsExactly`.
- **An empty enumeration is not an empty session.** A member that forks and dies between the enumeration and its second
  probe leaves a child that was never listed (`reap.go:309-339`): `Reap.EmptyMeansEmpty` gives the exact condition.
- **A failed verb can leave an always-restart service down.** `apply` stops the child before it persists the new
  service and schedules no restart when a later step fails (`supervisor.go:218-236`), and `remove` stops it before it
  forgets it. `Supervisor.DropsExactly` and `RemoveDropsExactly` give the exact cases of what `Apply` and `Remove` leave behind,
  `Supervisor.DownWitness` a run, and `Supervisor.Supervisor.Serve` proves that nothing else takes a service down.
- **A stream cut right after a length prefix** reads as a clean disconnect and not as a truncated frame
  (`SessionTransport.swift:531-570`). `FrameStream.Codec.Read` says exactly when an end of stream is which, and
  `FrameStream.CutPacket` where each cut of a packet falls.

## Model

| member | source | states |
|---|---|---|
| `WriterTheorems.CompletedExactlyOnce` | Sources/DaemonKit/SessionWriter.swift:182-396 | in every run of submit, cancel, supersede, write failure, close and abort each entry's completion is called at most once, and exactly once when nothing is in flight; queues are empty when the writer refuses or is idle |
| `WriterTheorems.WrittenInOrder` | Sources/DaemonKit/SessionWriter.swift:237-371 | ordinary frames reach the codec in submission order, and so do settlement frames |
| `WriterTheorems.BoundedAndFair` | Sources/DaemonKit/SessionWriter.swift:237-371 | both queues stay within the limit and the lifecycle slot within one; neither non-empty queue is passed over by more than one selection in a row |
| `WriterTheorems.NothingAfterFailure` | Sources/DaemonKit/SessionWriter.swift:285-352 | once a write failed nothing is ever handed to the codec again |
| `WriterTheorems.CompletionProof` | Sources/DaemonKit/SessionWriter.swift:285-396 | an entry completed as canceled never reached the codec; one completed as successful did, unless it was a replaced lifecycle frame |
| `WriterTheorems.RefusedExactly` | Sources/DaemonKit/SessionWriter.swift:237-283 | a submission is answered on the spot if and only if it was canceled beforehand, the writer refuses entries, or it is busy and the entry's queue is full |
| `WriterTheorems.DrainsOut` | Sources/DaemonKit/SessionWriter.swift:285-382 | from every reachable state the serial queue alone brings every entry to its one completion |
| `WriterTheorems.ClosingFrameIsLast` | Sources/DaemonKit/SessionWriter.swift:182-208 | the closing frame is the last written frame in every continuation if and only if the close did not fall between selecting and enqueueing an entry |
| `WriterTheorems.GapOvertaken` | Sources/DaemonKit/SessionWriter.swift:373-376 | the run in which the selected entry is written behind the closing frame |
| `WriterTheorems.GapReachable` | Sources/DaemonKit/SessionWriter.swift:353-376 | that gap is reachable from a fresh writer |
| `Writer.Writer.Submit` | Sources/DaemonKit/SessionWriter.swift:237-283 | changes the fields as the submit event does: admit, queue, displace the lifecycle slot, supersede, or refuse |
| `Writer.Writer.Close` | Sources/DaemonKit/SessionWriter.swift:182-208 | changes the fields as the close event does, failing everything queued |
| `Writer.Writer.Abort` | Sources/DaemonKit/SessionWriter.swift:210-223 | changes the fields as the abort event does |
| `Writer.Writer.Cancel` | Sources/DaemonKit/SessionWriter.swift:384-396 | completes a waiting entry as canceled, marks an unstarted active one, leaves a started one alone |
| `Writer.Writer.Preflight` | Sources/DaemonKit/SessionWriter.swift:285-306 | decides skip, cancel, refuse or write, and marks the entry started before the codec sees it |
| `Writer.Writer.Finish` | Sources/DaemonKit/SessionWriter.swift:333-382 | completes the block and fails all, stops, or selects the next entry, as the finish event does; the object stays in a reachable state |
| `WriterLaws.CancelDoes` | Sources/DaemonKit/SessionWriter.swift:384-396 | over every run: a cancel takes a waiting ordinary entry, and nothing else, out of its queue and completes it as canceled; it marks an unstarted entry in flight; of any other entry it changes nothing |
| `WriterLaws.CanceledNeverWritten` | Sources/DaemonKit/SessionWriter.swift:285-300 | an entry a cancel reached while it waited or before it started is not written in any continuation |
| `WriterLaws.SubmitDoes` | Sources/DaemonKit/SessionWriter.swift:237-283 | an accepted entry goes to an idle writer's serial queue or to the end of its class; a lifecycle entry takes the one place, and whoever had it completes as successful |
| `WriterLaws.OutdatedNeverWritten` | Sources/DaemonKit/SessionWriter.swift:237-283 | a lifecycle frame that was queued or unstarted when a newer one was submitted is not written in any continuation |
| `WriterLaws.SubmitOutdatesNothing` | Sources/DaemonKit/SessionWriter.swift:237-283 | no other submission outdates or cancels anything |
| `WriterLaws.StopDoes` | Sources/DaemonKit/SessionWriter.swift:182-223 | abort and close refuse from then on, fail exactly what was queued and leave what is in flight; a close adds its frame behind that |
| `WriterLaws.TerminalIsBroken` | Sources/DaemonKit/SessionWriter.swift:285-352 | a writer has a terminal error exactly when a write failed |
| `WriterLaws.TurnDoes` | Sources/DaemonKit/SessionWriter.swift:285-352 | the turn of an entry, whole: superseded ones succeed and canceled ones are canceled unwritten, after a failed write it fails unwritten, any other is written and completed as the write went |
| `WriterLaws.NextDoes` | Sources/DaemonKit/SessionWriter.swift:353-371 | after an entry that did not fail a waiting lifecycle entry is next before all others, otherwise the head of a queue that has one, and nobody only if nobody waits |
| `Delivery.ClassifiedByCodec` | Sources/DaemonKit/SocketClientRequest.swift:44-81 | over every run of the writer: an open is classified preSendFailure if and only if the codec was never handed the request |
| `Delivery.AgainMeansNotRun` | Sources/DaemonKit/ServiceSocketClient.swift:348-406 | under the guarded policy only an attempt that provably ran nowhere is repeated |
| `Delivery.ReturnsTerminal` | Sources/DaemonKit/ServiceSocketClient.swift:348-380 | a terminal handed to the caller is the attempt's own |
| `Delivery.AtMostOnce` | Sources/DaemonKit/ServiceSocketClient.swift:194-232 | under the guarded policy, over any rounds, at most one attempt of a whole call may have run, and it is the last |
| `Delivery.Decided` | Sources/DaemonKit/ServiceSocketClient.swift:194-232 | a call ends with the verdict on its last attempt, with a refusal, or not at all; every attempt before that was judged to be tried again |
| `DeliveryLaws.VerdictExactly` | Sources/DaemonKit/ServiceSocketClient.swift:348-406 | by what the request met: tried again if and only if the server was starting or draining, or nothing reached the codec (or the call may be repeated) and it met a timeout with time left or a session transition; given to the caller if and only if delivered or rejected by the product; otherwise its own error is thrown |
| `DeliveryLaws.CostExactly` | Sources/DaemonKit/ServiceSocketClient.swift:348-406 | by what the request met: the session is given up exactly when it was turned away, timed out with time left, or saw a session transition; the client ends exactly on another build, or on an error that is none of these, no cancellation and no local frame failure before sending |
| `DeliveryLaws.FirstThatCounts` | Sources/DaemonKit/ServiceSocketClient.swift:194-232 | however many rounds pass, the first that does not decides the call, delivered, refused or failed, with every attempt possible up to it made |
| `DeliveryLaws.NothingCounts` | Sources/DaemonKit/ServiceSocketClient.swift:194-232 | if every round passes the call still waits, with every possible attempt made |
| `DeliveryLaws.TransitionsListed` | Sources/DaemonKit/ServiceSocketClient.swift:509-522 | the errors that prove a session transition are the fourteen listed |
| `Delivery.ServiceClient.Call` | Sources/DaemonKit/ServiceSocketClient.swift:194-232 | the client makes exactly the attempts and comes to exactly the result of the decided call, at most once under the guarded policy; a retained terminal error makes no attempt; the client ends exactly with a last attempt that is fatal, and then with its error |
| `Delivery.ServiceClient.Try` | Sources/DaemonKit/SocketClientAPI.swift:114-171 | makes and records one attempt in the current session or a fresh one; afterwards the session is dropped exactly if the attempt retires it or is fatal, and the client ended exactly if it is fatal; going on under the guarded policy means the attempt ran nowhere |
| `Delivery.ServiceClient.Retire` | Sources/DaemonKit/ServiceSocketClient.swift:413-420 | drops the session only if it is still the current one |
| `Delivery.ServiceClient.Fail` | Sources/DaemonKit/ServiceSocketClient.swift:422-432 | the first terminal error stays |
| `Swap.NothingLost` | deploy/swap.go:52-95 | at every crash point the candidate tree is in exactly one of the candidate and canonical slots, and the prior is whole in canonical or prior until the candidate is in place |
| `Swap.Deployment.SettleSwap` | deploy/swap.go:52-95 | recomputes which rename landed from stat and inode identity; stays resumable at every fault and ends with the candidate's very tree at the canonical path |
| `Swap.Deployment.MoveAside` | deploy/swap.go:53-73 | first rename: leaves the prior aside and whole, or finds the candidate already there |
| `Swap.Deployment.MoveIn` | deploy/swap.go:74-86 | second rename: touches only the candidate and canonical slots |
| `Swap.Deployment.RetireSwap` | deploy/swap.go:176-188 | removes activation, removal, prior and, last, the record; whatever fails, the record or a finished swap remains |
| `Swap.Deployment.ResumeDestroys` | deploy/swap.go:143-155 | says whether a resume would still move or destroy a generation |
| `Swap.Deployment.Recover` | deploy/swap.go:111-136 | any fault leaves a resumable state, success leaves nothing of the swap; the gate is passed exactly when a generation would still move or be destroyed, and without it no recorded prior's slots change |
| `Swap.Deployment.CrashesThenRecover` | deploy/swap.go:97-136 | any number of crashed or failed resumes and then one clean one end with the candidate's tree, same file identity, at the canonical path, prior slot empty, all three records gone, byte-identical generations included |
| `Swap.Deployment.Stage` | deploy/swap.go:203-236 | adopts a staged tree that is what is asked for, discards any other attested one behind the gate and copies, and neither adopts nor destroys one that cannot be attested; only that slot changes |
| `Swap.Deployment.Land` | deploy/deploy.go:248-301 | a record left behind can be resumed, and without one the canonical path is as the leading recovery left it or holds what was asked for; with nothing failing an admissible landing succeeds with the very staged tree, same file identity, or else with the fresh copy; a supersede passes the gate twice; an inadmissible one changes nothing |
| `Swap.Deployment.CommitSwap` | deploy/deploy.go:262-327 | the record is written only behind the inspection, the staging and, over a bundle that is replaced, two gates |
| `Labels.NormalStrict` | deploy/deploy.go:664-675 | sorting and compacting gives a strictly ordered list of the same labels |
| `Labels.ValidatesIff` | deploy/record.go:104-113 | a record validates if and only if it is non-empty, strictly ordered and names no empty label |
| `Labels.StrictUnique` | deploy/record.go:104-113 | the valid record of a set of labels is unique |
| `Labels.NormalOrderless` | deploy/deploy.go:665-675 | neither the order of the agents nor a repeated one shows in the record |
| `Labels.LessIs` | deploy/deploy.go:669-675 | labels are ordered by the first character where they differ, a prefix first |
| `Services.Deployment.Converge` | deploy/deploy.go:664-697 | wherever it fails or crashes, the applied labels are within a record that validates; only recorded labels are taken away; success leaves exactly the agents applied and recorded; of the labels taken away at most the last is still recorded, and it fails only where the disk or launchd does |
| `Services.Deployment.RemoveRest` | deploy/deploy.go:684-695 | takes away each recorded label the agents do not name, and drops each from the record as its removal lands: of those taken away at most one is still recorded wherever it stops |
| `Services.Deployment.Restore` | deploy/deploy.go:348-399 | puts back the labels the abort took away, recording them before it applies the first; refused, it changes nothing, and otherwise, with a disk and a launchd that do not fail, it succeeds exactly if every label to apply has a configured agent |
| `Services.Deployment.CommitSupersede` | deploy/deploy.go:306-327 | commits only when the daemon is gone, the converge succeeds and the swap record is written, and always then with a disk and a launchd that do not fail; a restored abort has every label applied again over a stopped daemon, and all but at most the one being removed over one that stayed; through all of it and a crash, applied labels stay within the record |
| `Services.Deployment.RecordServices` | deploy/deploy.go:710-717 | writes the labels or, for none, removes the file; an interrupted write leaves the old record or the new one |
| `Ownership.ScopeAccounts` | own.go:384-435 | over every run no reservation is resolved twice, a child leaves only with a proven exit, an adopted record only once stopped or released |
| `Ownership.LeaseFreezesAdmission` | ownership_natural.go:165-193 | while one lease is held the admission count never changes |
| `Ownership.StaleProofRefusedForever` | ownership_natural.go:257-277 | a proof of an aborted or superseded lease, or an older one of the same lease, commits in no continuation |
| `Ownership.CommitIsFinal` | ownership_natural.go:257-267 | a commit found nothing starting and its lease's admissions, and nothing is admitted, started or added ever after |
| `Ownership.FreshProofCommits` | ownership_natural.go:212-267 | the proof just minted always commits |
| `Ownership.SnapshotsCover` | own.go:287-349 | the snapshots taken as admission closed, with what the starting verbs resolved to, cover every child and record there ever was |
| `Owned.Owned.Settle` | own.go:287-349 | when it succeeds every child ever held has a proven exit, every adopted record was stopped or released and nothing is admitted again, whatever raced it; it fails only if a wait ended with its context, a stop failed, or a child's exit went unproven |
| `Owned.Owned.AwaitNatural` | ownership_natural.go:279-313 | refused, changing nothing, under an uncommitted lease; success means nothing is unresolved and every child exited provably; otherwise it fails only if a wait ended with its context or a child's exit went unproven |
| `Drain.SettleNatural` | ownership_natural.go:279-326 | success means the scope is closed, nothing is unresolved, every child exited provably, no record is left, and every record there was at any time during the call has ended: leader gone and, unless its end was demanded, session observed empty since the call began; it fails only for a reason named: the lease, a wait that ended, an unproven exit, the deadline, an occupied scope or a removal that did not land |
| `Drain.NaturalDrain.Observe` | ownership_natural.go:98-142 | a result that is not busy saw the lease held and one admission count at both ends; a complete one also found nothing starting and every recorded scope quiet since it began, producers' leaders excepted; it is busy exactly when the lease is no longer held, and incomplete only with a verb starting, at the deadline or over an occupied scope |
| `Drain.NaturalDrain.Wait` | ownership_natural.go:212-246 | a proof is the lease's latest and commits, the lease is held with nothing starting, and since the wait began every recorded scope was found quiet and is so still; without one the lease was lost, or a verb was starting, the time was up or a scope occupied |
| `Drain.DrainNaturally` | ownership_natural.go:165-267 | begin, wait and commit against everything going on: the producers are children the scope held, and a committed proof means every recorded scope was found quiet after the lease began, the leaders of the producers' own records excepted; a leasable scope fails to drain only if the lease was lost, another proof was minted, a verb was starting, the time was up or a scope occupied |
| `Owned.Owned.Reserve` | own.go:351-364 | admits a verb unless the scope is closed or a lease is held |
| `Owned.Owned.Hold` | own.go:384-390 | records the child and resolves the reservation |
| `Owned.Owned.Track` | own.go:423-429 | records the adopted identity and resolves the reservation |
| `Owned.Owned.Abandon` | own.go:392-399 | resolves a reservation that started nothing, unless its start went unproven |
| `Owned.Owned.ReleaseOnExit` | own.go:411-421 | lets go of a child only when its exit is proven |
| `Owned.Owned.BeginNaturalDrain` | ownership_natural.go:165-193 | mints a lease exactly when the scope is open, unleased and holds every producer |
| `Owned.Owned.Commit` | ownership_natural.go:257-267 | succeeds exactly for the latest proof of the held lease with nothing starting |
| `Owned.Owned.Abort` | ownership_natural.go:269-277 | gives up exactly a held, uncommitted lease of an open scope, and then the scope admits again |
| `OwnershipLaws.AbortDoes` | ownership_natural.go:269-277 | over every run an abort of a held, uncommitted lease of an open scope reopens admission and moves nothing else; any other abort changes nothing |
| `OwnershipLaws.AbortedNeverCommits` | ownership_natural.go:257-277 | no proof of an aborted lease commits in any continuation |
| `OwnershipLaws.ReserveDoes` | own.go:351-364 | over every run a verb is admitted and starting exactly when the scope is open and unleased |
| `OwnershipLaws.HoldDoes` | own.go:384-409 | a started child is held by its reservation, which it resolves once; nothing else moves |
| `OwnershipLaws.TrackDoes` | own.go:401-429 | and so is an adopted record |
| `OwnershipLaws.AbandonDoes` | own.go:392-409 | a verb that ends resolves its reservation, unless its start went unproven |
| `OwnershipLaws.UnprovenStaysOpen` | own.go:392-399 | an unproven start keeps its reservation open in every continuation |
| `OwnershipLaws.LetGoDoes` | own.go:411-437 | a child is let go exactly with a proven exit, and a settled record alone leaves |
| `OwnershipLaws.ShutDoes` | ownership_natural.go:283-289 | a settle closes the scope unless an uncommitted lease is held |
| `OwnershipLaws.BeginDoes` | ownership_natural.go:165-193 | a lease is held exactly under its four conditions, and nothing is admitted then |
| `OwnershipLaws.MintDoes` | ownership_natural.go:230-239 | a proof is minted exactly for the held lease with nothing starting, numbered one above the last |
| `OwnershipLaws.CommitDoes` | ownership_natural.go:257-267 | only the held lease's latest proof with nothing starting closes the scope; any other commit changes nothing |
| `Reap.ReapIdentity` | internal/proc/reap.go:101-136 | for any pinned instance and any behaviour of the process table a proven outcome means that exact instance is not running on return; where holds pin the instance, or it keeps its number, every signal reached it or nobody, otherwise what was hit is what one of the number runs hits; where probes and signals do not fail it is undetermined only at the deadline, and an instance that is not running is proven so without a signal; the boot and reuse verdicts are told apart, and one that ends undetermined with punctual waits was sent both signals |
| `Reap.ReapOrphan` | internal/proc/reap.go:138-177 | SIGTERM, re-verified polls, and SIGKILL no sooner than six tenths of the time left, or all but five seconds of it, later; where probes and signals do not fail it gives up only at the deadline, and with punctual waits only after both signals; only an absent process is sent none |
| `Reap.AwaitSettlement` | internal/proc/reap.go:179-200 | sends nothing and returns a proof only for an instance observed gone |
| `Reap.PinnedLater` | internal/proc/observe.go:15-25 | a pid, start and boot triple keeps naming one instance through any reuse of the number |
| `Reap.GraceShare` | internal/proc/reap.go:410-414 | exactly six tenths of what is left, in whole milliseconds, or all but five seconds of it if that is less, and nothing below five seconds |
| `Reap.NumberHoldsExactly` | internal/proc/hold_darwin.go:5-11 | over every run of the ladder by bare number, signals reach the pinned instance or nobody if and only if the instance is not running when the call begins or its parent keeps it unreaped through the call |
| `Reap.StrangerIsHit` | internal/proc/hold_darwin.go:9-9 | the run in which SIGTERM reaches the process that took the number over |
| `Reap.Observe` | internal/proc/observe.go:97-118 | a settled verdict is an absence proof, an unsettled one without error saw the instance running |
| `Reap.VerifiedMembers` | internal/proc/reap.go:309-339 | what it returns was seen running in the session after the enumeration, with the group it was in; what it does not return had died or left: no other instance that was in the session at the enumeration is in it still |
| `Reap.EmptyMeansEmpty` | internal/proc/reap.go:309-339 | an empty result means an empty session, whatever the table did meanwhile, if and only if nobody live was in the session as it was enumerated |
| `Reap.ObserveScope` | internal/proc/preserve.go:76-127 | a proven reap means the leader is gone; whatever it does not list has died or left since the enumeration, and whatever it lists was there; where probes do not fail it is uncertain only at the deadline or without a durable session |
| `Reap.ReapSession` | internal/proc/reap.go:205-223 | a proven outcome, which is one without an error, means another boot, a leader's number that names another instance, or a session that is over as below; SIGTERM goes first and SIGKILL only, no sooner than the grace, after it; where probes and signals do not fail it gives up only at the deadline or over a group numbered 0 or 1, with punctual waits only after SIGTERM and SIGKILL rounds |
| `Reap.SettleSession` | internal/proc/reap.go:229-264 | undetermined exactly with an error; otherwise since the call began the session was enumerated empty, or all that can be left of it are members of one round of signals whose groups were every one reported gone; where probes and signals do not fail it gives up only at the deadline or over a group numbered 0 or 1, with punctual waits only after SIGTERM and SIGKILL rounds |
| `Reap.AwaitSessionSettlement` | internal/proc/reap.go:266-294 | the same for the SIGKILL rounds |
| `Reap.SignalSessionGroups` | internal/proc/reap.go:341-383 | settles a session only when the group of every verified member was reported gone in this round, or after a denied signal when a fresh enumeration is empty |
| `Driver.Store.DriveExit` | internal/proc/driver.go:202-238 | a published terminal has its record removed exactly if its reap is proven and the removal lands, and says why the session is over; under PreserveOwned without a demand no signal is sent and a terminal is published only after an observation since the drive began with no live member; it stays unpublished only while the child is unreaped, or a preserved scope is populated, uncertain or its store closed |
| `Driver.Store.SettleSessionSurvivors` | internal/proc/driver.go:291-301 | reports settled exactly with a proven outcome, and then the session is over or the leader's number is another's; SIGKILL no sooner than six tenths of the time there is after SIGTERM; it fails only at its deadline, over an odd group or for a session that is not its leader's own |
| `Driver.Store.SessionDeadline` | internal/proc/driver.go:276-286 | five seconds from now, or a demand's deadline if that is sooner |
| `Driver.Store.RecoverOne` | internal/proc/reap.go:65-93 | a record is reclaimed only with a proven outcome and on grounds, and removed exactly if that lands; a preserved one is never signalled; a process and a session are ended by their ladders with the grace share between the signals; it is kept only at the deadline or where it is stuck: an occupied preserved scope, or one the ladder does not touch |
| `Driver.Store.RecoverAll` | internal/proc/reap.go:46-63 | reclaims records of earlier generations only, each with a proven outcome on grounds that still hold at return; success is that every one was; the store loses exactly the removed ones; under PreserveOwned nothing is signalled; where probes and signals do not fail it fails only at the deadline or over a record that was not reclaimed and could not be |
| `Driver.Store.AwaitTerminal` | internal/proc/driver.go:240-248 | a proven reap means the child is gone; without a demand nothing was signalled, and a demand counts only if somebody made it; it ends unless the child is unreaped and nobody demanded its end, and after a demand the signals are the child ladder's |
| `Driver.Store.TerminateChild` | internal/proc/driver.go:254-274 | absent exactly with a ready exit, and then nothing is signalled; otherwise SIGTERM at once and SIGKILL no sooner than six tenths of the time left; undetermined only after both; what they hit is what a child run strikes |
| `Reap.ChildSignalsExactly` | internal/proc/driver.go:250-274 | over every such run the signals reach the child or nobody if and only if it was reaped before or stays unreaped through the ladder |
| `Driver.Store.AwaitNaturalScope` | internal/proc/preserve.go:180-195 | ends with an observation that enumerated the session empty since the watch began, with a demand, or unpublished, the last only with no demand and a closed store or a scope that is populated or uncertain |
| `Driver.Store.Observe` | internal/proc/preserve.go:30-74 | a complete observation means every recorded scope is quiet, with only a producer's own leader excepted, however the table moved while it was made; where probes do not fail it is incomplete only at the deadline or over an occupied scope |
| `Driver.Store.ObserveRecord` | internal/proc/preserve.go:39-49 | a complete scope has its leader gone and its session emptied, or only an excluded leader left |
| `Driver.Store.RetireQuiet` | internal/proc/preserve.go:130-146 | sends nothing; every record it retired has its leader gone and its session emptied, and success leaves no record; where probes do not fail it fails only at the deadline, over an occupied scope, or when a removal does not land |
| `Driver.Store.RetireQuietScope` | internal/proc/preserve.go:148-157 | a record is retired only after two complete observations, the second begun when the first was over; where probes do not fail it is kept only at the deadline, over an occupied scope, or when its removal does not land |
| `ChannelTheorems.ChannelRun` | Sources/DaemonKit/SocketChunkStream.swift:150-313 | over every run: accepted equals delivered then buffered then what a discarding finish lost; the buffer keeps its bound; waiting receivers mean an empty buffer, waiting senders a full one; elements are accepted and readers served in arrival order; every call is resumed exactly once or still waits; a sender hears true exactly when its element was accepted |
| `ChannelTheorems.NobodyWaitsAfterFinish` | Sources/DaemonKit/SocketChunkStream.swift:271-289 | after a finish every call there ever was has been resumed exactly once |
| `ChannelTheorems.OfferAccepted` | Sources/DaemonKit/SocketChunkStream.swift:164-174 | an offer is accepted if and only if the channel is open and a reader waits or fewer than capacity accepted elements are undelivered |
| `ChannelTheorems.NextGetsOldest` | Sources/DaemonKit/SocketChunkStream.swift:240-255 | a reader gets the oldest undelivered element, waits only when there is none, and is told the end only after everything kept was delivered |
| `ChannelTheorems.SendDoes` | Sources/DaemonKit/SocketChunkStream.swift:188-202 | a send is answered at once exactly when it was canceled, the channel ended, or there is a reader or a place; otherwise it waits behind all others |
| `ChannelTheorems.CancelSenderDoes` | Sources/DaemonKit/SocketChunkStream.swift:265-269 | canceling a waiting sender answers it with false and takes it alone out of the line; otherwise nothing changes |
| `ChannelTheorems.CancelReceiverDoes` | Sources/DaemonKit/SocketChunkStream.swift:257-263 | canceling a waiting receiver resumes it with the cancellation and takes it alone out of the line; otherwise nothing changes |
| `ChannelTheorems.FinishDoes` | Sources/DaemonKit/SocketChunkStream.swift:271-289 | the first finish answers every waiting sender with false and every reader with the end, and keeps or discards the buffer; another changes nothing |
| `ChannelTheorems.StepPlaces` | Sources/DaemonKit/SocketChunkStream.swift:188-313 | each step accounts for the call it brings once and for every other call as before |
| `BoundedChannel.BoundedChannel.Send` | Sources/DaemonKit/SocketChunkStream.swift:154-202 | the send step on the fields; an immediate reply is the one recorded for the call |
| `BoundedChannel.BoundedChannel.Offer` | Sources/DaemonKit/SocketChunkStream.swift:164-174 | the offer step on the fields; it never waits |
| `BoundedChannel.BoundedChannel.Next` | Sources/DaemonKit/SocketChunkStream.swift:204-255 | the receive step: buffer first, then the terminal, then wait; a freed place goes to the longest waiting sender |
| `BoundedChannel.BoundedChannel.CancelSender` | Sources/DaemonKit/SocketChunkStream.swift:265-269 | resumes a waiting sender with false, and nobody else |
| `BoundedChannel.BoundedChannel.CancelReceiver` | Sources/DaemonKit/SocketChunkStream.swift:257-263 | resumes a waiting receiver with the cancellation, and nobody else |
| `BoundedChannel.BoundedChannel.Finish` | Sources/DaemonKit/SocketChunkStream.swift:271-289 | first finish wins; every waiter is resumed, buffered elements are kept unless discarded |
| `RequestSender.FramesInSequence` | Sources/DaemonKit/ClientRequestState.swift:213-281 | across concurrent sends the k-th frame handed over carries number k without wrap-around; nothing follows an end frame on the way to the writer |
| `RequestSender.ClosedIsFinal` | Sources/DaemonKit/ClientRequestState.swift:238-255 | once a close returned or the terminal was published nothing is in flight, ever again, and no frame is handed over |
| `RequestSender.EverySendEnds` | Sources/DaemonKit/ClientRequestState.swift:213-281 | the turn is never lost: from every reachable state the sends in flight can all end, and every waiting close with them |
| `RequestSender.PublishedOnce` | Sources/DaemonKit/ClientRequestState.swift:49-138 | the terminal is published at most once and every other finisher is told that one |
| `RequestSender.EveryFinisherIsTold` | Sources/DaemonKit/ClientRequestState.swift:49-138 | once a finisher came, every run can go on without new calls until one outcome is published, nothing is in flight and every later finisher was told it |
| `RequestSender.FirstFinisherDecides` | Sources/DaemonKit/ClientRequestState.swift:49-138 | the terminal is the first finisher's own outcome, or for a result the error of the hook before it |
| `RequestSender.PublishDoes` | Sources/DaemonKit/ClientRequestState.swift:70-89 | a result goes out as it is unless the hook failed, and an error always does |
| `RequestSender.TurnsInOrder` | Sources/DaemonKit/ClientRequestState.swift:257-280 | sends hand their frames over in the order in which they asked for the turn, one each |
| `RequestSender.LastFrame` | Sources/DaemonKit/ClientRequestState.swift:213-236 | what was handed so far is all there will be in every continuation if and only if the sender has ended or has no number left |
| `RequestSender.FailedEndIsFollowed` | Sources/DaemonKit/ClientRequestState.swift:226-235 | a run in which a frame is handed over after an end frame whose write failed |
| `RequestSender.AcceptedStreams` | Sources/DaemonKit/ClientRequestState.swift:91-109 | a receiver takes a stream whole if and only if it is numbered from zero and nothing follows its end |
| `RequestSender.PeerAccepts` | Sources/DaemonKit/ClientRequestState.swift:91-109 | a receiver takes everything any run of a sender passes on |
| `ClientRequest.ClientRequest.Take` | Sources/DaemonKit/SessionTransport.swift:350-361 | the last number is handed out once and then none |
| `ClientRequest.ClientRequest.Enter` | Sources/DaemonKit/ClientRequestState.swift:213-218 | counts a send in flight unless the stream ended |
| `ClientRequest.ClientRequest.Acquire` | Sources/DaemonKit/ClientRequestState.swift:257-263 | takes the free turn or queues for it |
| `ClientRequest.ClientRequest.Number` | Sources/DaemonKit/ClientRequestState.swift:220-223 | numbers the frame unless the stream ended or the numbers ran out |
| `ClientRequest.ClientRequest.Hand` | Sources/DaemonKit/ClientRequestState.swift:225-232 | hands the numbered frame to the client unless the stream ended |
| `ClientRequest.ClientRequest.Wrote` | Sources/DaemonKit/SocketClient.swift:418-434 | a written end frame ends the stream, a failed write the connection; the turn goes on |
| `ClientRequest.ClientRequest.Release` | Sources/DaemonKit/ClientRequestState.swift:247-280 | the turn goes to the first waiter, or every waiter is refused once ended; the last call out resumes the drain waiters |
| `ClientRequest.ClientRequest.Close` | Sources/DaemonKit/ClientRequestState.swift:238-245 | ends the stream; returns at once only with nothing in flight |
| `ClientRequest.ClientRequest.Finish` | Sources/DaemonKit/ClientRequestState.swift:49-63 | exactly the first finisher claims the settlement |
| `ClientRequest.ClientRequest.Publish` | Sources/DaemonKit/ClientRequestState.swift:70-89 | publishes the only terminal, with nothing in flight; a failing hook turns a result into its error |
| `Supervisor.Supervisor.Serve` | supervise/supervisor.go:105-125 | over every sequence of timed events the state is exactly what the events come to; one child at a time, every earlier one proven gone; a child held runs the desired service; a pending restart means no child and a policy that restarts; nothing starts after an unproven reap; an always-restart service is never down unless a verb dropped it or the loop ended |
| `Supervisor.ExitThenRestart` | supervise/supervisor.go:331-350 | a proven exit that the policy answers is followed by a start of the same service when the timer fires, which it does if and only if a throttle has passed since the last start |
| `Supervisor.NothingStartsUnasked` | supervise/supervisor.go:105-125 | with no child and no timer, over any events but an apply, nothing is ever started |
| `Supervisor.DropsExactly` | supervise/supervisor.go:203-237 | from any state that is not down, what an apply leaves behind is down if and only if it stopped an always-restart child and then failed to persist, or persisted an always-restart service and then failed to start it |
| `Supervisor.RemoveDropsExactly` | supervise/supervisor.go:239-249 | and what a remove leaves behind if and only if it stopped an always-restart child and then failed to forget it |
| `Supervisor.DownWitness` | supervise/supervisor.go:218-231 | a run that leaves one down |
| `Supervisor.StartsAreApart` | supervise/supervisor.go:345-350 | a start the policy made is at least one throttle after every earlier attempt, failed ones included |
| `Supervisor.Supervisor.Start` | supervise/supervisor.go:255-282 | runs only with no child and a desired service; refused once unsettled |
| `Supervisor.Supervisor.Release` | supervise/supervisor.go:321-329 | an unproven reap makes the supervisor unsettled for good |
| `Supervisor.Supervisor.Settled` | supervise/supervisor.go:332-341 | schedules a restart exactly on a proven exit under an always policy, or under an on-failure one with a non-zero code or a signal |
| `Supervisor.Supervisor.Retry` | supervise/supervisor.go:345-350 | the restart is due one throttle after the last attempt, or now if that is past |
| `Supervisor.Supervisor.Apply` | supervise/supervisor.go:203-237 | says from what the verb met whether it succeeds, what is desired, scheduled, attempted and unsettled afterwards; the state it leaves is the one the two lemmas are about |
| `Supervisor.Supervisor.Remove` | supervise/supervisor.go:239-249 | succeeds exactly when the child was proven gone and the service forgotten; in every case the state it leaves is the one the lemma is about |
| `Supervisor.Supervisor.Restart` | supervise/supervisor.go:114-120 | a due restart attempts the desired service once and reschedules on failure |
| `SessionFrame.DecodeEncode` | Sources/DaemonKit/SessionTransport.swift:44-110 | decoding undoes encoding for every frame that encodes |
| `SessionFrame.EncodeDecode` | Sources/DaemonKit/SessionTransport.swift:44-110 | a body that decodes is the one its frame encodes to |
| `SessionFrame.EncodesExactly` | Sources/DaemonKit/SessionTransport.swift:452-525 | a frame encodes if and only if it conforms to its kind's line of a table of kinds and its texts fit |
| `SessionFrame.BodyLayout` | Sources/DaemonKit/SessionTransport.swift:14-65 | the literal bytes of a body: magic, version, the kind's number, and where every field lies |
| `SessionFrame.PreambleFree` | Sources/DaemonKit/SessionTransport.swift:439-448 | a packet begins with bytes 44 52 if and only if its body length over 65536 is 0x4452, which a maximum below 0x44520000 rules out |
| `SessionFrame.WireIsNoPreamble` | Sources/DaemonKit/SessionTransport.swift:388-395 | a stream of packets under such a maximum never looks like the drain preamble |
| `SessionFrame.PackUnpack` | Sources/DaemonKit/SessionTransport.swift:67-98 | the field layout is lossless: any body that splits into fields is rebuilt from them |
| `SessionFrame.UnpackPack` | Sources/DaemonKit/SessionTransport.swift:44-65 | and any fields that are laid out are read back |
| `Utf8.DecodeEncode` | Sources/DaemonKit/SessionTransport.swift:90-95 | routing text survives its bytes |
| `Utf8.EncodeDecode` | Sources/DaemonKit/SessionTransport.swift:90-95 | bytes accepted as text are exactly that text's bytes |
| `Utf8.ScalarBytes` | Sources/DaemonKit/SessionTransport.swift:46-47 | the bytes of each scalar are those of the Unicode standard's ranges |
| `BigEndian.GetPut` | Sources/DaemonKit/SessionTransport.swift:701-727 | integers survive their fixed-width bytes |
| `FrameStream.Codec.ReadExactly` | Sources/DaemonKit/SessionTransport.swift:531-570 | the next bytes, stashed ones first, whatever sizes they arrive in; nothing is lost or repeated; the two ends of stream are told apart |
| `FrameStream.Codec.PeekPreamble` | Sources/DaemonKit/SessionTransport.swift:388-395 | consumes exactly a preamble and otherwise leaves every byte for the next read; a peek that meets the end of the stream drops the single byte there may be |
| `FrameStream.Codec.Read` | Sources/DaemonKit/SessionTransport.swift:397-408 | reads a frame exactly when a packet is next, and leaves what follows it; an end of stream is a disconnect exactly between packets or right behind a length prefix, and a truncation exactly inside a prefix or a body |
| `FrameStream.CutPacket` | Sources/DaemonKit/SessionTransport.swift:531-570 | any packet cut anywhere reads as truncated, except that cut after its four length bytes it reads as a clean disconnect |
| `FrameStream.Codec.ReadAll` | Sources/DaemonKit/SessionTransport.swift:397-408 | a stream of packets read in arbitrary pieces yields its frames, all of them, then the end |
| `FrameStream.ParsesUnique` | Sources/DaemonKit/SessionTransport.swift:397-448 | at most one frame stands at the front of any input |
| `StateFrame.Frame` | internal/state/frame.go:22-34 | fills the header in place and appends envelope and payload; fails exactly when marshalling does |
| `StateFrame.ScanFrame` | internal/state/frame.go:22-55 | scanning undoes framing |
| `StateFrame.ScanPrefix` | internal/state/frame.go:36-55 | a proper prefix yields no payload and all the cores or none: all exactly when it reaches the envelope's end |
| `StateFrame.ScanTrailing` | internal/state/frame.go:51-53 | trailing bytes yield all the cores and no payload |
| `StateFrame.ScanSound` | internal/state/frame.go:36-55 | a payload is only read from a file that is exactly a frame of it |
| `StateFrame.FileLayout` | internal/state/frame.go:9-34 | the literal bytes of a file: magic, schema, lengths, envelope and payload at their places |
| `Ladder.ShareWithin` | budget.go:25-28 | a share ends no later than its parent and lasts its fraction of what was left |
| `Ladder.ReserveKeeps` | budget.go:35-40 | the tail keeps its slice however long the work runs within its own |
| `Ladder.CarvedWithin` | budget.go:25-40 | no deadline carved from another at any depth passes it |
| `Ladder.ReserveBounds` | serve.go:369-371 | the children tail is one settle grace, but at least 15% and at most 50% of what is left |
| `Ladder.ProductGrants` | serve.go:333-362 | in every run whose intake took at most a twentieth of the work window, drain is granted at least 30% of it and close at least 25% |
| `Ladder.RequestsGrant` | serve.go:333-362 | and requests at least 40% |
| `Ladder.LockedShares` | serve.go:318-332 | with every stage spending its whole slice the grants are exactly 40%, 30% and 25% |
| `Ladder.TailGrant` | serve.go:333-371 | in every run whose intake ended within the work window the children are granted at least their reserve, 15% to 50% of the budget; with two settle graces left when it was weighed that is one settle grace, scaled by what was left when it was carved |
| `Ladder.SlicesWithin` | serve.go:333-362 | no stage's deadline passes the shutdown's |
| `Ladder.WindowKeepsHalf` | serve.go:364-371 | the work window is at least half of the budget |
| `Ladder.RunLadder` | serve.go:333-362 | runs and reports every stage once, in order, each from when the one before it returned, with the deadline carved from the shutdown grace at that moment |
| `Ladder.CarveTail` | serve.go:340-341 | the plan is the shutdown grace from now, with the children's reserve weighed and cut off by the clock |
| `Ladder.JoinRequests` | serve.go:393-399 | a join that fails lasted two thirds of the slice, and whenever it returns a third is left for the handlers cancelled then |
| `Ladder.SettleRequests` | serve.go:393-404 | runs within its slice and is recorded once |

## Left out

- External tools and I/O: codesign, launchctl, plists, downloads, posix_spawn, sysctl, `/proc` and peer credentials. Inspect and attest are honest reads of a slot; apply and remove are effects that may or may not have landed.
- Staging trees and `discardGenerations`, `Uninstall`, `Reset`, `tombstone`, `Activate` and `certify`: they would add easier members beside the swap.
- `bootstrapAgents`: whether an in-progress bootstrap takes effect later is launchd's choice.
- Record files' identity and schema fields, and JSON: a record is its labels or generations, and the JSON library is any pair of functions that round-trips.
- Reap.SettleSession: whom a signal to a process group reaches and what it reports is unconstrained; that a group was reported gone is taken as the source takes it, and not as proof that its members are.
- Driver.Store.SettleSessionSurvivors: the leader's number naming another instance counts as settled, as in the source, although members of its session may be left.
- Reap.ObserveScope: the closed-store refusal is one of the errors that make an observation uncertain.
- `offerLatest` and `finishRetaining`: they discard buffered elements by design.
- Descriptor passing in the writer, hooks, the write deadline and the peer's acknowledgements: they do not change which frame is written when.
- `waitReady`, `ServiceStateSignal`, the connect and handshake path and retry sleeps: a round of `Delivery.ServiceClient.Call` says what they led to.
- Drain.NaturalDrain.Wait: the ownership generation in a proof is constant for one scope and is not modelled.
- Swap.Deployment.Gate: quiescing is one primitive that succeeds or stops the verb; the drain and the inventory behind it are not modelled.
- Supervisor.Supervisor.Start: everything from validating the program to spawning it either yields a child or fails, and durable writes of the specification are atomic.
- Supervisor loading, reclaiming at start and the control socket.
- FrameStream.Codec.Read: a read that fails half-way has consumed bytes, as in the source; the session ends there and no claim is made about what is left.
- Ladder.RunLadder: uses exact fractions and a monotone clock, so truncation to nanoseconds and floating-point rounding are not modelled; every stage is taken to return by its slice's end, and no time passes between one stage and the carving of the next.
- Wire client and server, process spawning, adoption, version comparison, artifacts, login items and App Group paths.

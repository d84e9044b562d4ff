# Checkpoint Traffic Fabric: a verified model

The coordinator of a checkpoint traffic fabric admits checkpoint sessions, hands out byte credit
wave by wave, and books every authorised byte in exactly one bucket: transferred, wasted,
cancelled, unproven or outstanding. This project models that coordinator, its rate shaper, its
wire and journal formats and its crash recovery, and proves what they promise about every
session, every run and every crash.

## How the model is built

- `Model`, `Sessions`: the records, the validations, and what each command does to one session.
  `SessionOk` is what holds of a session between commands.
- `Shaper`, `Rates`: token buckets and rate planning, with the 64-bit arithmetic written out.
- `Spec`: the fabric as a state machine over plain values. Whatever the engine keeps as a counter
  or index is a scan of the session table here.
- `Invariants`, `Commands`, `Runs`, `Theorems`, `Ceilings`, `Admissions`: `Good` is the invariant of the fabric;
  every command keeps it (`StepGood`), and the theorems follow for every run. A run is a sequence
  of states linked by commands at nondecreasing times, from a freshly constructed fabric.
- `Steps`, `Grants`, `Verdicts`, `Decisions`, `Seats`, `Lifecycles`: for every command, exactly when it is accepted
  and what it leaves on record, in terms of the records alone, and what follows for runs: no grant on an ambiguous
  shard, no byte of a dead attempt, no verified shard without a verdict that names it, no session beyond a limit.
- `Departures`: the commands with which the engine trusts its peers. `Disciplined` names what it
  trusts them with, and demands it only of commands that pass the engine's own checks. For each
  there is the exact condition under which the command keeps what it should keep.
- `Witnesses`, `Shortfalls`: runs from a freshly constructed fabric, command by command, up to a
  command that passes the engine's checks but not one of these conditions (`Witnesses`), or to a
  state in which disciplined peers do not get what is promised (`Shortfalls`). Ambiguity reports and
  submissions under a lagging contract have no run of their own.
- `Recovery`: restart reconciliation and restoring an exported snapshot.
- `Indexes`, `Audit`, `Engine`: the engine object with its redundant counters and indexes, updated
  in place. Each method is proved to do to the abstract fabric what `Spec` says (`Abs`), to keep
  every counter and index equal to the scan it stands for (`Consistent`), and to keep the whole
  invariant (`Valid`) whenever the command is disciplined.
- `Bytes`, `Hash`, `Digests`, `Vectors`: CRC-32C, FNV-1a, streamed digests, generated content and check values.
- `Wire`, `Codec`, `Snapshots`, `Frames`, `Records`: the canonical codec as a function of a field
  schema, the encoder and decoder objects, the snapshot schema, frames and journal records. `Formats`
  holds them against definitions of their own.
- `Journal`, `Storage`, `Reboots`: the snapshot file and the journal, what loading makes of every
  disk a crash can leave, and whole lives of a directory with any number of crashes and boots.

Where the code and its documentation disagree, the model follows the code. What the engine does
not check itself, and the model therefore assumes of a disciplined peer, is:

- a success verdict is reported only for a shard that arrived in full, a mismatch only once nothing
  is outstanding, a truncation only for a shard without verified bytes (`VerifyDiscipline`);
- verification is not switched on while a session that completed without it is retained
  (`PolicyDiscipline`);
- a grant does not push live attempts out of the bounded history, and attempt identities are fresh
  (`WaveDiscipline`); session identities are fresh;
- a session that ended while it was paused is not resumed; for the two theorems on held sessions a
  session is also not resumed out of a held state into one that is not (`HoldsResumed`), which a
  resume of a session in state Paused never does;
- a session asks for authority again only while the ceilings in force still cover what it asked for
  (`Renewable`); otherwise the engine denies it and never files the failed session.

Some promises hold only in part although every peer is disciplined. Each has its exact condition and,
where a run or an input is named, one for which it fails:

- an acknowledgement books only bytes that no earlier report of the attempt named, so bytes reported
  first without and then with an acknowledgement are never counted as transferred
  (`AcknowledgedExact`, `AcknowledgedTooLate`);
- a fence that lags in the contract generation alone is accepted by cancellations and ambiguity
  reports (`CancelExact`, `AmbiguousExact`, `LaggingContractCancels`);
- the rate a deadline needs is computed in 64 bits without a check and can fall short
  (`CeilRateExact`, `WrappedRate`);
- the target of a session paused while deferred passes unenforced (`DeadlineExact`,
  `PausedWhileDeferred`);
- an advertised wait suffices only for what accrues in a second (`ClassWaitExact`, `WaitFallsShort`);
- a restored session can book more bytes as unproven than a restarted one, a restored terminal
  session can be unsound, and restored totals disagree after an eviction (`RestoreMatchesRestart`,
  `RestoreBooksMore`, `RestoredTerminalUnsound`, `FirstEviction`, `RestoredBooksDisagree`);
- an append as the first operation after reopening is lost (`ReopenedAppendLost`), a boot that crashes
  over an unsafe journal brings back an old state (`PersistExact`, `TwoCrashesLoseState`), and a
  journal within its own bounds can be larger than what loading reads (`LoadsNewest`,
  `SavedYetNotLoadable`).

Times, peers and identities are parameters. Events, timelines and reason texts are not modelled.

## Model

| member | source | states |
|---|---|---|
| Model.ValidateManifest | src/model.cpp:449-500 | the one-pass check with a running sum accepts exactly the manifests whose shards are non-empty, strictly ascending and sum to the declared total within the limits |
| Model.FindPath | src/model.cpp:715-722 | the loop returns the first path class that carries the identity, or none |
| Model.DefaultPathFor | src/model.cpp:724-736 | the running minimum is the smallest identity among the path classes that serve the destination, and none exactly when there is none |
| Model.DefaultPathUnique | src/model.cpp:724-736 | there is only one such path class, so the choice is determined by the topology |
| Model.FenceAcceptsExactly | src/fence.cpp:18-57 | a fence passes if and only if it names the current authority in every dimension |
| Model.FenceAnswers | src/fence.cpp:18-57 | each refusal code is given if and only if its dimension is the first to differ, and on that side: behind is stale, ahead is not authorised |
| Model.RefusedForeverIffBehind | src/fence.cpp:18-57 | a fence is refused under every later authority if and only if it lags in some dimension now |
| Sessions.UnproveOk | src/engine.cpp:297-303 | booking bytes as unproven keeps a session sound, and its running byte identities with it |
| Sessions.SettleOk | src/engine.cpp:324-353 | a session that ends with nothing outstanding is sound: no live attempt, no reservation; exactly the unverified part of what arrived moves from transferred to wasted |
| Sessions.ProgressOk | src/engine.cpp:355-430 | deriving progress keeps a sound session sound and moves no byte: when a session completes, outstanding is already zero |
| Sessions.SettledMeansAllArrived | src/engine.cpp:355-387 | once every shard is settled, every byte of the target has been transferred |
| Sessions.SettledMeansNoLiveAttempt | src/engine.cpp:355-387 | once every shard is settled, no attempt is outstanding |
| Sessions.GrantOk | src/engine.cpp:1952-1990 | a grant within the remaining bytes keeps the session sound, as long as the trimmed history still covers the active attempts |
| Sessions.NoteSourceOk | src/engine.cpp:2047-2059 | source-complete evidence keeps the session sound and its bytes where they are, and makes the session source-complete if and only if every other shard already was |
| Sessions.ObserveOk | src/engine.cpp:2136-2148 | recording arrived bytes within the grant keeps the session sound whether or not they are acknowledged |
| Sessions.UnacknowledgedOk | src/engine.cpp:2173-2177 | bytes without acknowledgement change no bucket and no shard, so they are never counted as transferred |
| Sessions.AcknowledgeOk | src/engine.cpp:2143-2172 | exactly the acknowledged bytes that no earlier report of the attempt named move from outstanding to transferred; they fit in their shard, which is settled if and only if it is full |
| Sessions.VerifyOk | src/engine.cpp:2266-2277 | verifying a fully arrived shard keeps verified within transferred |
| Sessions.RejectOk | src/engine.cpp:2243-2265 | a rejected shard with nothing outstanding ends the session soundly |
| Sessions.TruncateOk | src/engine.cpp:2291-2334 | a truncated shard is wasted once and authorised again: the exact ledger, and both the admitted and the running identities survive |
| Sessions.DoubtOk | src/engine.cpp:2335-2361 | an ambiguous verdict books exactly the undelivered part of the attempt, as far as it is outstanding, as unproven |
| Sessions.DisownOk | src/engine.cpp:2407-2431 | an ambiguity report keeps the session sound and books the same part as unproven |
| Sessions.RestartOk | src/engine.cpp:997-1022 | a coordinator restart keeps every running session sound |
| Shaper.RefillIsFloor | src/shaper.cpp:13-25 | no product overflows 64 bits, and the split computation is exactly floor(rate * interval / 1e9) |
| Shaper.CapacityIsFloor | src/shaper.cpp:27-41 | the burst capacity is the exact floor, but at least ten milliseconds' worth, if and only if its products fit in a word; otherwise it falls short |
| Shaper.FloorSuperadditive | src/shaper.cpp:53-67 | refilling in two steps never accrues more than refilling once |
| Shaper.AdvertisedWaitExact | src/shaper.cpp:86-97 | one refill after the advertised wait holds the bytes if and only if they are within the burst and no more is missing than accrues in a second, as long as the missing bytes times 1e9 fit in a word |
| Shaper.RefillWithinCeiling | src/shaper.cpp:53-67 | refilling keeps granted plus remaining tokens within the bursts and the rate over time |
| Shaper.ReconfigureWithinCeiling | src/shaper.cpp:45-51 | reconfiguring a bucket costs at most one more burst |
| Shaper.CeilingBound | src/shaper.cpp:45-76 | everything ever handed out is bounded by the bursts and the rate alone |
| Shaper.TokenBucket.constructor | src/shaper.cpp:45-51 | a configured bucket starts full and within its capacity |
| Shaper.TokenBucket.Refill | src/shaper.cpp:53-67 | the early exits add up to: accrue the floor, cap at the capacity, never move time back |
| Shaper.TokenBucket.TryConsume | src/shaper.cpp:69-76 | consumption succeeds exactly when the refilled tokens cover it, and takes exactly the bytes |
| Shaper.RefilledTwice | src/shaper.cpp:138-177 | a second look at a bucket at the same instant sees the same tokens |
| Shaper.ConsumeBucket | src/shaper.cpp:138-177 | a granted consumption takes the bytes from its own class bucket and from no other class |
| Shaper.RateShaper.ConfigureClass | src/shaper.cpp:99-103 | replaces one class bucket by a full one and leaves everything else |
| Shaper.RateShaper.ConfigureWorkload | src/shaper.cpp:105-108 | replaces one workload bucket by a full one and leaves everything else |
| Shaper.RateShaper.ReservePathRate | src/shaper.cpp:112-123 | succeeds exactly when the 64-bit sum does not overflow, and then adds exactly the rate |
| Shaper.RateShaper.ReleasePathRate | src/shaper.cpp:125-131 | takes the rate off a path, never below zero |
| Shaper.RateShaper.ClassTokensAt | src/shaper.cpp:193-200 | the tokens of a class after refilling it, none for an unknown class |
| Shaper.RateShaper.TryConsume | src/shaper.cpp:138-177 | all or nothing across the class and the workload bucket; the branch in which the two looks disagree is unreachable |
| Rates.LeastRateSuffices | src/engine.cpp:667-677 | a rate moves the bytes in time if and only if it is at least the unbounded ceiling of bytes * 1e9 / horizon |
| Rates.CeilRateIsLeast | src/engine.cpp:667-677 | where its products fit in 64 bits the computed rate is the least one with rate * horizon >= bytes * 1e9 |
| Rates.CeilRateExact | src/engine.cpp:667-677 | for every horizon a signed word can hold, the computed rate moves the bytes in time if and only if no product wrapped; otherwise it is below the least one |
| Rates.WrappedRate | include/ctf/model.hpp:247 | twenty gigabytes within the default budget: computed below 6 MB/s where more than 66 MB/s are needed |
| Rates.PlannedRate | src/engine.cpp:687-736 | every planned rate is within class ceiling, workload ceiling and path headroom, and at least what was asked for |
| Rates.PlannedDeadline | src/engine.cpp:687-736 | it meets the deadline if and only if the computed rate is within the workload ceiling or, where that one wrapped, the request itself asked for enough |
| Rates.PlanDecides | src/engine.cpp:687-736 | exactly when a rate is planned, which one, and which of the four reasons is given otherwise |
| Invariants.EvictOk | src/engine.cpp:504-530 | eviction removes only terminal sessions and carries their bytes to the archive, so the totals do not change |
| Invariants.ExpireIsScan | src/engine.cpp:547-577 | serving the ordered deadline index does exactly what a scan of the whole table would do, keeps the invariant, and terminates |
| Invariants.TargetsAhead | src/engine.cpp:547-577 | after deadlines were enforced at a time, every active session with current authority has its target after that time |
| Invariants.StoreGood | src/engine.cpp:324-353 | storing a sound record, with the eviction it may trigger, keeps the invariant of the table |
| Commands.SubmitGood | src/engine.cpp:1311-1596 | admission keeps the invariant: one active session per checkpoint, the newest generation, every deadline indexed, the replay memory in step |
| Commands.RevalidateGood | src/engine.cpp:1598-1715 | a revalidation of a session that the ceilings still cover keeps the invariant, deferred or admitted |
| Commands.DeniedExactly | src/engine.cpp:1635-1671 | planning again denies a session if and only if its workload is unknown or, with class and path in place, a ceiling no longer covers its rate |
| Commands.PauseGood | src/engine.cpp:1721-1761 | pausing keeps the invariant |
| Commands.ResumeGood | src/engine.cpp:1763-1794 | a resume keeps the invariant unless it revives a session that ended while paused |
| Commands.CancelGood | src/engine.cpp:1796-1822 | cancelling keeps the invariant; in the books exactly the session's outstanding bytes become cancelled and its unverified ones wasted, and no other bucket moves, evicted or not |
| Commands.WaveGood | src/engine.cpp:1828-2005 | a grant keeps the invariant |
| Commands.SourceGood | src/engine.cpp:2011-2076 | source-complete evidence keeps the invariant |
| Commands.TransferGood | src/engine.cpp:2078-2195 | transfer evidence keeps the invariant, refused or accepted |
| Commands.VerificationGood | src/engine.cpp:2197-2379 | a disciplined verdict keeps the invariant |
| Commands.AmbiguousGood | src/engine.cpp:2381-2437 | an ambiguity report keeps the invariant |
| Commands.PolicyGood | src/engine.cpp:872-900 | a disciplined policy keeps the invariant |
| Commands.TopologyGood | src/engine.cpp:902-929 | a new topology keeps the invariant |
| Commands.ContractGood | src/engine.cpp:931-981 | a new contract keeps the invariant |
| Commands.EpochGood | src/engine.cpp:983-1029 | advancing the epoch keeps the invariant although it clears the deadline index |
| Commands.RememberOk | src/engine.cpp:603-615 | the remembered commands and their queue hold the same keys, once each, within the bound, and the newest is among them |
| Commands.AcceptMeans | src/engine.cpp:1388-1521 | an accepted request has a contract, a valid manifest and no newer retained generation |
| Commands.AcceptFits | src/engine.cpp:694-723 | an accepted rate fits on its path beside everything reserved there, so the reservation sum cannot overflow |
| Commands.StepGood | src/engine.cpp:872-2660 | every disciplined command, and every one that the engine's own checks refuse, keeps the invariant of the fabric |
| Runs.StepFollows | src/engine.cpp:872-2660 | one command seen from any session: nothing it booked goes back, its class never changes, a terminal record never moves, and a held session stays held and gets no grant unless this command revalidated it |
| Theorems.RunStaysGood | src/engine.cpp:2667-2788 | every state of every run satisfies the invariant |
| Theorems.BooksBalance | include/ctf/model.hpp:526-540 | the aggregate conserves bytes, verified is within transferred, and with no active session nothing is outstanding or in flight |
| Theorems.RunConserves | src/engine.cpp:2675-2759 | in every state of every run each session and the aggregate conserve bytes; a running session's target is split between arrived, unproven and outstanding; a completed one has it all transferred; one that ended otherwise keeps only verified bytes as transferred; evidence claims exactly what the shards show |
| Theorems.RunAdvances | src/engine.cpp:297-353 | along every run a session's admitted, wasted, cancelled and unproven bytes and its sequences only grow |
| Theorems.UnprovenNeverCompletes | src/engine.cpp:297-303 | a session that ever booked an unproven byte never completes |
| Theorems.TerminalIsFinal | src/engine.cpp:324-353 | a terminal session never changes again |
| Theorems.ChangeHolds | src/engine.cpp:872-1029 | an accepted policy, topology, contract or epoch change withholds authority from every session it affects |
| Theorems.HeldUntilRevalidated | src/engine.cpp:1852-1855 | between an authority change and the next admitted revalidation a session gets no grant, if no resume lifts the hold |
| Theorems.NoGrantWithoutRevalidation | src/engine.cpp:1684-1706 | a grant after an authority change implies a revalidation in between under a strictly larger envelope sequence, if no resume lifts the hold |
| Theorems.StepAuthority | src/engine.cpp:872-1029 | no command moves the epoch or a generation back |
| Theorems.RunAuthority | src/engine.cpp:872-1029 | along every run authority only moves forward |
| Theorems.StaleFenceRefusedForever | src/engine.cpp:757-778 | a fence that ever lagged behind in any dimension is refused by every later revalidation, pause, resume, grant request and evidence report on that session, which then has no effect beyond elapsed deadlines |
| Theorems.StaleRootRefusedForever | src/engine.cpp:757-764 | a fence that ever lagged in epoch, policy or topology is refused by every later fenced command of any kind, submissions, cancellations and ambiguity reports included |
| Theorems.ClassWaitExact | src/engine.cpp:1917-1932 | after the wait advertised with a class deferral the class holds the minimum useful grant if and only if the burst can hold it and no more was missing than accrues in a second; no product wraps |
| Theorems.WorkloadWaitExact | src/shaper.cpp:161-166 | the same for the workload bucket and the whole chunk |
| Theorems.RunWithinCeiling | src/engine.cpp:1915-1958 | granted bytes plus the tokens left stay within the bursts and the ceiling over time, along every run |
| Theorems.RunRateCeiling | src/engine.cpp:1915-1958 | all bytes ever granted to a class are at most one burst per policy application, plus one, plus floor(ceiling * elapsed / 1e9) |
| Ceilings.StepBounded | src/shaper.cpp:138-177 | one command keeps a workload's grants and tokens within its bursts and its ceiling over time; only policies and its own contracts add a burst |
| Ceilings.RunWorkloadCeiling | src/engine.cpp:1915-1958 | all bytes ever granted to a workload are at most one burst per policy application and per contract of its own, plus one, plus floor(ceiling * elapsed / 1e9) |
| Admissions.AdmitReserves | src/engine.cpp:1563-1580 | an admission raises no path but its own, and that one to within capacity |
| Admissions.ReplanReserves | src/engine.cpp:1650-1684 | a revalidation that is not denied raises no path above its capacity |
| Admissions.StepReserves | src/engine.cpp:281-287 | no command raises the rate reserved on a path above the capacity in force |
| Admissions.RunWithinCapacity | src/engine.cpp:694-723 | while the topology stands, no path class is ever reserved beyond its capacity |
| Admissions.StaleGenerationNeverAdmitted | src/engine.cpp:1454-1460 | a request older than a retained generation of its checkpoint adds no session |
| Admissions.DecisionRemembered | src/engine.cpp:1362-1386 | whatever was decided for a new command is what its memory holds |
| Admissions.StepRemembers | src/engine.cpp:603-615 | no command rewrites what is remembered of a decided one |
| Admissions.ResubmissionReplays | src/engine.cpp:1319-1360 | in every run, however much later a remembered command is submitted again: refused by a fence or generation check, refused as a replay when it carries another request, or answered with the decision and session of the first time; and nothing changes beyond elapsed deadlines |
| Steps.StepBecomes | src/engine.cpp:872-2660 | one command leaves each retained record in one of a few listed ways, after ending it if its deadline passed |
| Grants.GateExact | src/engine.cpp:757-778 | a command on a session is let through if and only if the fence names epoch, policy, topology and contract in force, and otherwise which code it gets |
| Grants.WaveGateExact | src/engine.cpp:1835-1914 | a request reaches the credit check if and only if the fence, the checkpoint, the session, the attempt bound and the shard allow a grant, each said in terms of the records |
| Grants.GrantedExactly | src/engine.cpp:1828-2005 | a wave is granted if and only if it is due and both buckets cover it; the grant is the missing bytes up to one mebibyte and the class credit, on record as the shard's next attempt; a request that is not granted moves no session |
| Grants.AmbiguousShardRefused | src/engine.cpp:1887-1891 | a shard of unknown fate is granted nothing, asking for it moves nothing, and with everything else in order the answer says why |
| Grants.BecomesClosed | src/engine.cpp:1880-1891 | no command but a truncation verdict on the shard makes an ambiguous or settled shard grantable again |
| Grants.NoGrantWhileAmbiguous | src/engine.cpp:1887-1891 | in every run, from the moment a shard is ambiguous nothing is granted on it before a truncation verdict on it is heard |
| Verdicts.EvidenceGateExact | src/engine.cpp:2090-2118 | evidence is looked at if and only if it names the current attempt of a known shard under its sequence, in a running session and under a fence in force |
| Verdicts.TransferDecides | src/engine.cpp:2078-2195 | exactly which transfer reports are acted on, with which refusal otherwise, and the exact shard, attempt and ledger each leaves |
| Verdicts.DeadAttemptRefused | src/engine.cpp:2119-2131 | a report on an ambiguous, failed, released or superseded attempt is refused and changes nothing |
| Verdicts.AmbiguousNeverBooked | src/engine.cpp:2119-2131 | in every run, once an attempt is of unknown fate, failed or given up, every later report on it is refused and moves no byte, as long as its identity is not drawn again |
| Verdicts.VerdictDecides | src/engine.cpp:2197-2379 | a success verdict is accepted if and only if the attempt was acknowledged and the verdict names the declared size and, where one was declared, the digest; otherwise the session fails as a mismatch; the exact record that each kind of verdict leaves |
| Verdicts.VerifiedWasNamed | src/engine.cpp:2242-2277 | in every run every shard recorded as verified was named, size and digest, by an earlier accepted verdict on the same session |
| Verdicts.SourceDecides | src/engine.cpp:2011-2076 | a source report is accepted if and only if it claims no more than declared and contradicts no earlier one, and what it changes |
| Verdicts.AmbiguityDecides | src/engine.cpp:2381-2437 | an ambiguity report is accepted if and only if the attempt is on record under its sequence; its shard, unless settled, becomes ambiguous and the undelivered bytes unproven |
| Verdicts.ProgressDecides | src/engine.cpp:355-430 | a session completes if and only if every shard has reached the target; which state and evidence it has otherwise |
| Decisions.JudgeExact | src/engine.cpp:1388-1521 | which requests are admitted, recognised as duplicates, deferred and denied, in terms of what is in force and retained |
| Decisions.SubmissionDecides | src/engine.cpp:1311-1596 | everything a submission can come to: the new session in the stricter class, on the least path, at the planned rate, with its deadline; the displaced one with its bytes; nothing else moves |
| Decisions.SupersededByPermission | src/engine.cpp:1481-1488 | in every run a session is superseded only by a newer generation of its checkpoint whose contract allows it |
| Decisions.ClassNeverLaxer | src/engine.cpp:1412-1416 | in every run a session stays in the stricter of the class it asked for and that of the contract it was admitted under |
| Seats.StepSeats | src/engine.cpp:1492-1510 | no command raises the running sessions of the fabric, of a workload or of a class above the limit in force |
| Seats.RunWithinSeats | src/engine.cpp:1492-1510 | in every run no more sessions run in all, for a workload and in a class than the largest limit there was |
| Lifecycles.CancelDecides | src/engine.cpp:1796-1822 | exactly when a cancellation is accepted, and the exact ledger and attempts it leaves |
| Lifecycles.ExpiryDecides | src/engine.cpp:547-577 | exactly which sessions a passed deadline ends, and the exact ledger and attempts it leaves |
| Lifecycles.PauseDecides | src/engine.cpp:1721-1794 | exactly when a session is paused and resumed, and into which state |
| Lifecycles.RevalidationDecides | src/engine.cpp:1598-1715 | everything a revalidation can come to: refused, deferred, a new envelope under the next sequence, or the end of the session |
| Lifecycles.PolicyDecides | src/engine.cpp:872-900 | a policy is accepted if and only if it is valid and newer, and then every running session has to be revalidated |
| Lifecycles.TopologyDecides | src/engine.cpp:902-929 | the same for a topology |
| Lifecycles.ContractDecides | src/engine.cpp:931-981 | a contract is accepted if and only if it is valid and newer, or first with room for one more; exactly the workload's sessions have to be revalidated |
| Lifecycles.CreditDecides | src/engine.cpp:220-227 | which buckets a policy or a contract fills again, and with what burst |
| Lifecycles.EpochDecides | src/engine.cpp:983-1029 | an epoch is accepted if and only if it is later; what becomes of every shard, attempt and byte |
| Lifecycles.HistoryDecides | src/engine.cpp:504-530 | an ended session joins the history, and a table beyond its bound loses its oldest ended sessions down to three quarters of it, no more |
| Lifecycles.MemoryDecides | src/engine.cpp:603-615 | the most recent commands are remembered, four for each session of retained history, at least 64 and at most 4096 |
| Departures.VerifiedExact | src/engine.cpp:2242-2277 | an accepted success verdict keeps the session sound if and only if the shard had arrived in full |
| Departures.MismatchExact | src/engine.cpp:2279-2290 | a mismatch verdict keeps the session sound if and only if nothing was outstanding |
| Departures.TruncatedExact | src/engine.cpp:2291-2334 | a truncation verdict keeps the session sound if and only if the shard held no verified byte |
| Departures.GrantExact | src/engine.cpp:1975-1987 | a grant keeps the session sound if and only if the attempts its history drops leave enough live ones on record |
| Departures.VerdictExact | src/engine.cpp:2197-2379 | a verdict that passes the engine's checks keeps the fabric sound if it is disciplined, and only then unless the session it ended was evicted by the same command |
| Departures.WaveExact | src/engine.cpp:1828-2005 | a wave request that is granted under a fresh identity keeps the fabric sound if and only if the trim leaves enough live attempts on record |
| Departures.AcknowledgedExact | src/engine.cpp:2143-2164 | an accepted acknowledgement of an outstanding attempt raises shard and aggregate by what no earlier report named: by all that arrived if and only if nothing had been reported before |
| Departures.PolicyExact | src/engine.cpp:872-900 | an accepted policy keeps the fabric sound if and only if it demands no verification of a session that completed without it |
| Departures.RevalidationExact | src/engine.cpp:1658-1667 | a revalidation that passes its checks keeps the fabric sound if and only if the ceilings still cover the session; otherwise the session fails and no history entry ever leads to it |
| Departures.ResumeExact | src/engine.cpp:1782-1786 | resuming a held session keeps it held if and only if it was paused in a held state |
| Departures.ResumeTerminalExact | src/engine.cpp:1778-1786 | a resume leaves a terminal session unchanged, and the fabric sound, if and only if the session did not end while paused |
| Departures.DeadlineExact | src/engine.cpp:547-577 | an active session outlives its passed target if and only if the index does not list it, and then it is suspended and untouched |
| Departures.CancelExact | src/engine.cpp:1802-1812 | a cancellation is accepted if and only if the session is active and the fence names the epoch, policy and topology in force, whatever contract generation it names |
| Departures.AmbiguousExact | src/engine.cpp:2388-2410 | the same for an ambiguity report on an attempt that is on record |
| Departures.SubmitStaleContract | src/engine.cpp:1319-1400 | a submission under another contract generation than the one in force admits nothing: it is refused, a replay, or denied |
| Witnesses.PrematureVerification | src/engine.cpp:2243-2277 | after submit, grant and half a delivery a success verdict completes the session with half its bytes and books that no longer sum up |
| Witnesses.StrandedAuthority | src/engine.cpp:2279-2290 | in the same state a mismatch verdict leaves a failed session with outstanding authority |
| Witnesses.VerifiedThenTruncated | src/engine.cpp:2308-2323 | with one of two shards verified, a truncation verdict leaves more bytes verified than transferred |
| Witnesses.LiveAttemptForgotten | src/engine.cpp:1975-1987 | with a history of one, granting a second shard forgets the first one's live attempt |
| Witnesses.PausedWhileDeferred | src/engine.cpp:1750-1752 | after submit, restart, deferred revalidation and pause the session stays active and untouched at every time after its target |
| Witnesses.RevalidationBypassed | src/engine.cpp:1782-1786 | pause, policy change, resume: the next grant request is granted under the old envelope sequence |
| Witnesses.CompletedThenResumed | src/engine.cpp:415-429 | a session that completed while paused becomes active again when resumed |
| Witnesses.VerificationDemandedLate | src/engine.cpp:872-900 | a policy that demands verification makes a session that completed without it unsound |
| Witnesses.DeniedRevalidation | src/engine.cpp:1658-1667 | a contract renegotiated below the requested rate: the revalidation is denied and the failed session is in no history |
| Witnesses.LaggingContractCancels | src/engine.cpp:1807-1810 | a fence that lags in the contract generation cannot pause the session but cancels it |
| Shortfalls.AcknowledgedTooLate | src/engine.cpp:2143-2164 | grant ten bytes, report them without and then with an acknowledgement: accepted, nothing transferred, nothing in flight |
| Shortfalls.RestoreBooksMore | src/engine.cpp:1140-1148 | five bytes acknowledged, then seven reported: a restart books nothing as unproven, restoring books three |
| Shortfalls.RestoredTerminalUnsound | src/engine.cpp:1140-1148 | that session cancelled: sound, but unsound when restored, and so is every fabric that restores it |
| Shortfalls.RestoredBooksDisagree | src/engine.cpp:504-530 | sixty-five sessions admitted and cancelled: the last end evicts, and an exported snapshot's totals disagree with the table restored from it |
| Shortfalls.WaitFallsShort | src/engine.cpp:1917-1932 | a slow class defers a request with a wait of two seconds; the same request exactly then is deferred again |
| Recovery.RestartMovesExactly | src/engine.cpp:983-1029 | a restart moves exactly min(undelivered bytes of outstanding attempts, outstanding) to unproven and leaves no attempt or shard in flight |
| Recovery.RestartIdempotent | src/engine.cpp:983-1029 | a second restart changes nothing |
| Recovery.RestoreMatchesRestart | src/engine.cpp:1121-1183 | restoring a running session gives the restarted record, with the same buckets if and only if no unacknowledged report followed an acknowledged one, or all that is outstanding was at risk |
| Recovery.RestoredOk | src/engine.cpp:1121-1183 | a restored running session is sound |
| Recovery.RestoredTerminalExact | src/engine.cpp:1121-1183 | a restored terminal session is sound if and only if none of its attempts kept an unsettled outcome |
| Recovery.RestoredTotals | src/engine.cpp:1165-1203 | restoring moves bytes between outstanding and unproven and nowhere else |
| Recovery.RestoredBooksExact | src/engine.cpp:1156-1211 | the restored aggregate agrees with the restored table if and only if nothing had been evicted before the export |
| Recovery.FirstEviction | src/engine.cpp:504-530 | an end leaves the archive empty, and a restored snapshot's totals right, if and only if the table was within its bound |
| Recovery.RestoredGood | src/engine.cpp:1156-1220 | the whole restored fabric, with history and deadline index rebuilt, is sound if and only if no terminal session kept an unsettled attempt, every workload has a contract again, and the policy demands no verification that a completed session lacks |
| Audit.CheckRecord | src/engine.cpp:2697-2751 | the per-session checks pass if and only if the record stands on its own |
| Audit.SumRecords | src/engine.cpp:2675-2752 | the pass finds no fault if and only if every record stands, and then its sums are the totals of the table |
| Audit.CountEntries | src/engine.cpp:2764-2783 | the pass over an index counts its entries and finds every one of them known, or says that one is not |
| Audit.Check | src/engine.cpp:2667-2788 | the self-check reports no fault if and only if every record stands and every aggregate and index agrees with the records |
| Engine.FabricEngine.constructor | src/engine.cpp:133-171 | a valid configuration gives an initial, valid engine; an invalid one gives an engine that is shutting down |
| Engine.FabricEngine.MarkUnproven | src/engine.cpp:297-303 | moves at most the outstanding bytes in the session and in the aggregate alike; no subtraction underflows |
| Engine.FabricEngine.SettleOutstandingAsCancelled | src/engine.cpp:305-311 | moves all outstanding bytes to cancelled in the session and in the aggregate alike |
| Engine.FabricEngine.ReleaseActiveAttempts | src/engine.cpp:313-322 | releases exactly the outstanding attempts and takes the session's count off the aggregate |
| Engine.FabricEngine.ReleasePathReservation | src/engine.cpp:281-287 | the path index stays equal to the sum of the reservations held |
| Engine.FabricEngine.AdjustDown | src/engine.cpp:475-489 | takes one active session off each counter, never below zero, and erases an exhausted workload |
| Engine.FabricEngine.NoteTerminal | src/engine.cpp:532-535 | every counter stays equal to its scan when a session ends |
| Engine.FabricEngine.SettleTerminal | src/engine.cpp:324-353 | ends a session as specified (Sessions.SettleOk, Lifecycles.CancelDecides: unverified bytes become wasted); only one that was still running is counted down and joins the history |
| Engine.FabricEngine.RebuildIndexes | src/engine.cpp:492-499 | both indexes list exactly the retained sessions, once each |
| Engine.FabricEngine.EvictNext | src/engine.cpp:510-525 | one round of eviction, with totals, counters and reservations unchanged |
| Engine.FabricEngine.PruneHistory | src/engine.cpp:504-530 | the eviction loop ends in the specified state with every index rebuilt |
| Engine.Tally | src/engine.cpp:356-384 | the counting pass decides exactly whether all shards are verified, all are settled, and any is unresolved |
| Engine.FabricEngine.RecomputeProgress | src/engine.cpp:355-430 | derives state and evidence from the shards and completes the session; the aggregate stays right exactly because nothing is outstanding then |
| Engine.FabricEngine.EnforceDeadlines | src/engine.cpp:547-577 | the nested loops over the ordered index end in the specified state, with every index still equal to its scan and nothing due left |
| Engine.FabricEngine.RememberCommand | src/engine.cpp:603-615 | the queue loop ends in the specified memory |
| Engine.ShardPosition | src/engine.cpp:244-260 | binary search finds the position that a linear search finds, or none |
| Engine.FindAttempt | src/engine.cpp:272-279 | the loop finds the first record of the attempt, or none |
| Engine.AtRisk | src/engine.cpp:435-446 | the loop sums the undelivered bytes of the outstanding attempts |
| Engine.FabricEngine.CheckSession | src/engine.cpp:757-778 | the checks refuse exactly as specified |
| Engine.FabricEngine.PauseSession | src/engine.cpp:1721-1761 | pauses exactly as Lifecycles.PauseDecides says and keeps the engine valid |
| Engine.FabricEngine.ResumeSession | src/engine.cpp:1763-1794 | resumes exactly as Lifecycles.PauseDecides says, and keeps the engine valid when the session is active |
| Engine.FabricEngine.CancelSession | src/engine.cpp:1796-1822 | accepts and ends a session exactly as Lifecycles.CancelDecides says, and keeps the engine valid |
| Engine.FabricEngine.PollDeadlines | src/engine.cpp:2622-2626 | ends exactly the sessions that Lifecycles.ExpiryDecides names and keeps the engine valid |
| Engine.FabricEngine.BeginShutdown | src/engine.cpp:2653-2665 | does what the specification says and keeps the engine valid |
| Engine.FabricEngine.ReportSourceComplete | src/engine.cpp:2011-2076 | acts on a report exactly as Verdicts.SourceDecides says and keeps the engine valid |
| Engine.FabricEngine.ReportTransfer | src/engine.cpp:2078-2195 | acts on a report exactly as Verdicts.TransferDecides says and keeps the engine valid, on every exit |
| Engine.FabricEngine.JudgeVerdict | src/engine.cpp:2234-2379 | each verdict does what Verdicts.VerdictDecides says; counters and indexes stay right when the verdict is disciplined |
| Engine.FabricEngine.ReportVerification | src/engine.cpp:2197-2379 | acts on a verdict exactly as Verdicts.VerdictDecides says, and keeps the engine valid when the verdict is disciplined |
| Engine.FabricEngine.ReportAmbiguous | src/engine.cpp:2381-2437 | acts on a report exactly as Verdicts.AmbiguityDecides says and keeps the engine valid |
| Engine.FabricEngine.CheckWave | src/engine.cpp:1835-1914 | the checks before credit let through exactly what Grants.WaveGateExact says, with the attempt counter in place of a scan |
| Engine.FabricEngine.GrantWave | src/engine.cpp:1915-2005 | the grant is sized by the remaining bytes, the bounds and the credit at hand, and every counter stays right |
| Engine.FabricEngine.RequestWave | src/engine.cpp:1828-2005 | grants exactly what Grants.GrantedExactly says, with every index right, and keeps the engine valid when the request is disciplined |
| Engine.FabricEngine.ApplyPolicy | src/engine.cpp:872-900 | accepts and applies a policy exactly as Lifecycles.PolicyDecides says with every index right, and keeps the engine valid when the policy is disciplined |
| Engine.FabricEngine.ApplyTopology | src/engine.cpp:902-929 | accepts and applies a topology exactly as Lifecycles.TopologyDecides says and keeps the engine valid |
| Engine.FabricEngine.UpsertContract | src/engine.cpp:931-981 | the sessions found through the index are exactly those of the workload; accepts and applies a contract exactly as Lifecycles.ContractDecides says and keeps the engine valid |
| Engine.FabricEngine.AdvanceEpoch | src/engine.cpp:983-1029 | advances exactly as Lifecycles.EpochDecides says and keeps the engine valid |
| Engine.FabricEngine.ScanCheckpoint | src/engine.cpp:1444-1480 | the pass over the index list finds a newer generation, a duplicate or the one session to supersede, exactly as a scan of the table would |
| Engine.FabricEngine.CheckCapacity | src/engine.cpp:1492-1521 | the constant-time counters decide as the scans they stand for would; Seats.StepSeats says what the three session limits then guarantee |
| Engine.FabricEngine.JudgeRequest | src/engine.cpp:1388-1521 | the chain of checks reaches the decision that Decisions.JudgeExact describes |
| Engine.FabricEngine.ApplySupersession | src/engine.cpp:738-753 | retires the rival as specified with every index right |
| Engine.FabricEngine.InsertSession | src/engine.cpp:1533-1580 | books a new session in the totals, counters, indexes and path reservations; the overflow refusal is unreachable |
| Engine.FabricEngine.SubmitSession | src/engine.cpp:1311-1596 | decides exactly as Decisions.SubmissionDecides says and keeps the engine valid |
| Engine.FabricEngine.DenyAuthority | src/engine.cpp:1658-1667 | a denial does what the specification says and leaves the active counters as they were, so that they count one session too many afterwards |
| Engine.FabricEngine.IssueEnvelope | src/engine.cpp:1678-1703 | replaces the reservation and the target under a larger sequence with every index right; the overflow refusal is unreachable |
| Engine.FabricEngine.RevalidateSession | src/engine.cpp:1598-1715 | decides exactly as Lifecycles.RevalidationDecides says, denies the session exactly when the ceilings no longer cover it, and keeps the engine valid otherwise |
| Engine.FabricEngine.CheckExport | src/engine.cpp:1052-1124 | the loop accepts a snapshot exactly when every session has an identity, a valid manifest, a matching shard table and, once terminal, nothing outstanding |
| Engine.FabricEngine.ReviveSessions | src/engine.cpp:1161-1189 | the loop turns every session into its restored record and books exactly the bytes it moved as unproven |
| Engine.FabricEngine.Recount | src/engine.cpp:1191-1212 | active counters, outstanding total and history are rebuilt from the table alone and equal their scans |
| Engine.FabricEngine.RebuildDeadlines | src/engine.cpp:1213-1218 | the rebuilt index lists exactly the active sessions that have a target, each under its own |
| Engine.FabricEngine.RestoreSnapshot | src/engine.cpp:1031-1220 | refuses as specified and then changes nothing; otherwise the engine is in the restored state with every counter and index rebuilt, and is consistent if and only if the saved totals agree with the restored table and no path reservation was left over |
| Engine.FabricEngine.CheckInvariants | src/engine.cpp:2667-2788 | the self-check finds no fault in any valid engine |
| Hash.StepIsShifts | src/hash.cpp:31-37 | one table-driven byte step is eight bits of division |
| Hash.StepInjective | src/hash.cpp:31-37 | a step never merges two registers or two bytes |
| Hash.MakeTable | src/hash.cpp:15-25 | entry i of the table is eight bits of division of i |
| Hash.Crc32c | src/hash.cpp:31-37 | the table-driven loop computes the CRC function |
| Hash.CrcIsDivision | src/hash.cpp:31-37 | for every message the table-driven CRC is the bitwise division of the message by the polynomial |
| Hash.CrcChains | include/ctf/hash.hpp:65-68 | the CRC of a concatenation is the CRC of the second part continued from that of the first |
| Hash.BurstDetected | src/hash.cpp:31-37 | any change confined to four consecutive bytes changes the CRC |
| Vectors.CrcCheckValue | tests/unit_tests.cpp:137 | the nine digits give 0xE3069283, the check value of CRC-32C |
| Digests.FnvChains | src/hash.cpp:43-50 | the hash of a concatenation is the hash of the second part continued from that of the first |
| Digests.FnvStepInjective | src/hash.cpp:43-50 | a step never merges two hashes or two bytes |
| Vectors.FnvCheckValue | tests/unit_tests.cpp:141 | the letter a gives its published FNV-1a value |
| Digests.Fnv1a | src/hash.cpp:43-50 | the loop computes the hash function, with the product wrapped at 64 bits |
| Digests.DigestSeparates | include/ctf/hash.hpp:32-60 | both checksums differ for two streams that differ in one byte |
| Digests.DigestBuilder.Update | include/ctf/hash.hpp:65-68 | after any number of updates the builder holds the digest of everything seen |
| Digests.DigestBuilder.Finish | include/ctf/hash.hpp:69 | returns the digest of everything seen since the last reset |
| Digests.DigestBuilder.Reset | include/ctf/hash.hpp:70-73 | forgets everything seen |
| Digests.Fill | src/agent.cpp:84-95 | the word-at-a-time loops write exactly the bytes of the stream from the offset on |
| Digests.ContentDigest | src/agent.cpp:97-112 | the block-by-block digest is the digest of the whole content |
| Digests.ChunkingIrrelevant | src/agent.cpp:84-112 | however a shard is cut into chunks, the running digest ends at the digest of the whole |
| Wire.RoundTrip | src/store.cpp:285-351 | decoding the encoding of a value, whatever follows it, gives the value and what followed |
| Wire.Canonical | src/wire.cpp:88-220 | whatever the decoder accepts is byte for byte the encoding of what it returned |
| Wire.PrefixRefused | src/wire.cpp:210-218 | no strict prefix of an encoding is accepted |
| Wire.RoundTripExact | src/wire.cpp:70-82 | what an encoder wrote reads back as the same value if and only if its texts are valid and its collections within bounds |
| Codec.Encoder.Integer | include/ctf/wire.hpp:92-97 | the loop appends the big-endian bytes of the number |
| Codec.Encoder.String | src/wire.cpp:70-82 | appends a valid text behind its length, and nothing but a sticky failure otherwise |
| Codec.Encoder.Put | include/ctf/wire.hpp:62-102 | field by field the buffer grows by what the format says, and the status tells whether every text was accepted |
| Codec.CheckUtf8 | src/bytes.cpp:76-123 | the scan accepts exactly the well-formed texts: no overlong form, surrogate or truncated sequence |
| Formats.ValidTextExact | src/bytes.cpp:76-123 | a text is accepted if and only if it is the UTF-8 encoding of some sequence of Unicode scalar values |
| Formats.FieldBounds | src/wire.cpp:158-208 | a text fits up to 512 bytes of UTF-8, a collection up to its bound and 1048576 elements |
| Codec.Decoder.Integer | src/wire.cpp:88-122 | reads a big-endian number, or fails for good when bytes are missing |
| Codec.Decoder.Boolean | src/wire.cpp:126-136 | accepts exactly zero and one |
| Codec.Decoder.String | src/wire.cpp:158-178 | accepts exactly the valid texts that fit |
| Codec.Decoder.Get | src/wire.cpp:88-208 | field by field the decoder returns what the format says or fails, and a failure is sticky |
| Codec.Decoder.GetItems | src/wire.cpp:192-208 | a collection is accepted exactly when its count is within all bounds and every element is accepted |
| Codec.DecodeMessage | src/wire.cpp:210-218 | a complete message is accepted only when decoding ends where the message ends |
| Codec.EncodeMessage | include/ctf/wire.hpp:62-102 | an encoder writes what the format says for any value, and its status tells whether the value was accepted |
| Snapshots.SnapshotWellFormed | src/store.cpp:87-351 | the snapshot format is one that the codec theorems cover |
| Snapshots.SnapshotCodec | src/store.cpp:285-351 | a snapshot reads back as itself if and only if its texts and collections are within bounds, and no strict prefix of it reads as anything |
| Frames.CrcNoticesByte | src/wire.cpp:260-264 | a different byte anywhere changes the stored checksum |
| Frames.FrameRoundTrip | src/wire.cpp:224-288 | a frame of the supported version decodes to what was framed, any other is refused as incompatible |
| Frames.FrameCanonical | src/wire.cpp:248-288 | an accepted frame is byte for byte the one its contents frame to |
| Frames.FrameExtentRefused | src/wire.cpp:269-274 | neither a strict prefix of a frame nor a frame with bytes behind it is accepted |
| Frames.OneByteRefused | src/wire.cpp:248-288 | changing any one byte of a valid frame makes the decoder refuse it |
| Formats.FrameLayout | src/wire.cpp:248-288 | an accepted frame has the magic, the version, a header of 32 bytes and a payload of at most one mebibyte |
| Frames.PutNumber | src/wire.cpp:17-32 | writes the big-endian bytes in place and leaves the rest of the buffer |
| Frames.GetNumber | src/wire.cpp:34-53 | the loop reads the big-endian number |
| Frames.EncodeFrame | src/wire.cpp:224-246 | fills the header in place and refuses an oversized payload |
| Frames.ReadFrame | src/wire.cpp:248-288 | the chain of checks decides as specified |
| Records.RecordRoundTrip | src/store.cpp:357-465 | a record followed by anything decodes to itself and consumes exactly its own length |
| Records.RecordCanonical | src/store.cpp:407-465 | what is accepted as a record is byte for byte the record it was decoded to |
| Records.RecordPrefixRefused | src/store.cpp:441-445 | no strict prefix of a record is accepted |
| Formats.RecordLayout | src/store.cpp:407-465 | an accepted record has the magic, the version, its sequence, a label of at most 64 bytes and a payload of at most one mebibyte, where the format says |
| Records.EncodeRecord | src/store.cpp:357-405 | writes header, label and payload with the chained checksum, and nothing for a record over a bound |
| Records.ReadRecord | src/store.cpp:407-465 | the chain of checks decides as specified |
| Journal.ReplayChain | src/store.cpp:611-650 | a rising run of intact records is replayed to its end |
| Journal.LoadsNewest | src/store.cpp:554-664 | loading a sound pair of files returns the newest state, unless the journal outgrew what loading reads |
| Formats.JournalCap | src/store.cpp:36-46 | behind a usable snapshot a journal is read if and only if it has at most 1052672 bytes |
| Journal.PersistCrashSafe | src/store.cpp:666-703 | over a snapshot and a journal that rises above it, whatever the sequence counter is, a crash at any byte of a snapshot leaves the old state or the new one, also between replacement and rotation |
| Journal.UnrotatedExact | src/store.cpp:554-664 | what any snapshot over any journal bytes loads, before and after the snapshot alone is replaced |
| Journal.PersistExact | src/store.cpp:666-703 | over any journal bytes a snapshot is safe at every byte if and only if the journal's first record is not one that the old snapshot had superseded and the new one does not, with an end that is neither state |
| Journal.FirstPersistCrashSafe | src/store.cpp:666-703 | a crash inside the first snapshot leaves no state or the new one |
| Journal.AppendLoads | src/store.cpp:705-725 | a crash at any byte of an append leaves the old state until the last byte is down |
| Journal.AppendVisibleExactly | src/store.cpp:542-544 | a completed append is what the next load returns if and only if its sequence is above the journal's |
| Journal.FirstAppendLoads | src/store.cpp:705-725 | an append into an empty directory that was cut short loads as the blank state |
| Storage.PerformSound | src/store.cpp:666-725 | a completed operation, with the compaction it may trigger, leaves a sound store whose newest state is the one just saved |
| Storage.HistorySound | src/store.cpp:666-725 | the same after every history that starts with a snapshot |
| Formats.HistoryCounted | src/store.cpp:705-725 | after every history the size counter is the journal's size, which is within both bounds unless the journal was just rotated |
| Storage.CrashSafe | src/store.cpp:554-725 | for every history of completed operations and every crash inside the next one, loading returns the state of the last completed operation or of the interrupted one, as long as the journal stays within what loading reads |
| Storage.CompletedLoads | src/store.cpp:554-725 | after the last completed operation loading returns exactly the state it saved |
| Storage.ReopenedAppendLost | src/store.cpp:529-546 | an append as the first operation after reopening is seen by no later load, whatever is appended behind it, unless it triggers a compaction at once |
| Storage.ReopenedPersistRepairs | src/store.cpp:529-546 | a snapshot as the first operation after reopening puts the store right again |
| Storage.TwoCrashesLoseState | src/service.cpp:559-612 | two crashes between replacement and rotation, with a reopening in between: the first loads the second state, the second brings back the first state |
| Storage.PersistedExact | src/store.cpp:666-703 | a state of bounded size is always saved with success, and the next load returns it if and only if the format can carry it |
| Reboots.PersistAnywhere | src/store.cpp:666-703 | over any disk that a life can leave and that is not unsafe, a crash at any byte of a snapshot loads the new state or what was loaded before |
| Reboots.BootExact | src/service.cpp:559-612 | at a boot the snapshot is safe at every byte if and only if the disk is not unsafe |
| Reboots.RebootsRecover | src/service.cpp:559-612 | for every life with any number of completed operations, crashes, stops and boots, none of which crashes over an unsafe disk: loading returns a state saved or being saved since the last operation that completed, or nothing if none ever did |
| Reboots.JournalOutgrowsReader | src/store.cpp:705-725 | every state of 512 bytes or more can be appended, completely and within both default bounds, until the directory cannot be loaded |
| Reboots.SavedYetNotLoadable | src/store.cpp:36-46 | such a history of a snapshot with forty workloads |
| Storage.PersistentStore.constructor | src/store.cpp:529-546 | opening keeps the files and starts the counters again |
| Storage.PersistentStore.SaveSnapshot | src/store.cpp:666-703 | replaces the snapshot and rotates the journal as specified, or refuses an oversized state |
| Storage.PersistentStore.AppendRecord | src/store.cpp:705-725 | extends the journal as specified and compacts it when it outgrew a bound |
| Storage.PersistentStore.LoadState | src/store.cpp:554-664 | recovers as specified |
| Storage.PersistentStore.ReplayJournal | src/store.cpp:611-650 | the offset-advancing loop applies the longest usable prefix and discards the rest |

## Left out

- Events, timelines, reason texts, the counts of decided and ended sessions, commands processed, deferred bytes and durability assertions: bookkeeping without effect on what is proved.
- Wave plans inside an envelope, its burst and width, observed digests and timestamps of a session: carried along by the engine, used by nothing that is modelled.
- Sockets, threads, clients and command-line tools: the engine runs under one lock, so a run is a sequence of commands.
- Configuration files and the hard-cap comparisons of the policy and contract validators: each is one branch.
- Identities: drawn fresh by assumption; the manifest digest is a flag and the request fingerprint a function, with nothing assumed beyond determinism.
- 64-bit overflow of byte totals and of a time plus a horizon: the ledgers and the clock are unbounded numbers.
- Engine.FabricEngine.InsertSession: the path rate is reserved after the superseded session's reservation is released, and the successor of a superseded session is recorded before the history is pruned; the final state is the same.
- Engine.FabricEngine.RestoreSnapshot: duplicate identities are ruled out by the table being a map, and the declared sizes and digests of shards are carried along instead of being read from the manifest again.
- The mapping between the session table and the fields of a snapshot: storage is proved for values of the snapshot format, restoring for the table.
- Departures.VerdictExact: a session that an undisciplined verdict ends may be evicted by the same command, and then nothing is said.
- Departures.WaveExact: attempt identities are fresh, as the engine draws them at random.
- Verdicts.AmbiguousNeverBooked: attempt identities are drawn at random, so that none is drawn twice in one session is a condition on the requests.
- Storage.CrashSafe: replacing a file is atomic and a torn write leaves a prefix; a failed write counts as a crash. The journal bound of four megabytes is above what loading reads, so the condition on the journal's size is needed.
- Rates.CeilRateIsLeast: stated where the two products fit in 64 bits; Rates.CeilRateExact says what happens elsewhere.
- Shaper.AdvertisedWaitExact: stated where the missing bytes times 1e9 fit in a word; the engine asks for no more, as Theorems.ClassWaitExact and Theorems.WorkloadWaitExact show.
- Sessions.GrantOk: stated for a trim that spares the live attempts, which Departures.GrantExact shows to be necessary.
- Sessions.VerifyOk: stated for a shard that arrived in full, which Departures.VerifiedExact shows to be necessary.
- Sessions.RejectOk: stated with nothing outstanding, which Departures.MismatchExact shows to be necessary.
- Sessions.TruncateOk: stated for a shard without verified bytes, which Departures.TruncatedExact shows to be necessary.
- Commands.RevalidateGood: a denied session is left to Departures.RevalidationExact.
- Commands.ResumeGood: a session that ended while paused is left to Departures.ResumeTerminalExact.
- Commands.WaveGood: a grant whose trim drops a live attempt is left to Departures.GrantExact.
- Commands.VerificationGood: undisciplined verdicts are left to Departures.VerifiedExact, MismatchExact and TruncatedExact.
- Commands.PolicyGood: a policy that demands verification too late is left to Departures.PolicyExact.
- Commands.StepGood: undisciplined commands are left to Departures and Witnesses; that session identities are fresh is assumed of every submission.
- Wire.RoundTrip: error codes, sparse enums wider than a byte and the remaining protocol messages; the snapshot is the largest message and uses every other kind of field.
- Releasing consumed tokens and dropping a workload from the shaper: never called by the engine.

# Verified model of paxosme

A Dafny model of paxosme, a multi-instance Paxos implementation in C++ with its own segmented log storage, event
scheduler and versioned key-value state machine. `dafny verify dfyconfig.toml` checks all of it.

The model has four parts.

**Multi-instance Paxos.** Each node is a controller with an acceptor, a proposer and a learner, a log, and a state
machine. Every component exists twice: as functions on values (`Acceptor.OnPropose`, `Proposer.OnProposeAck`,
`Node.Handle`, ...) and as a class that updates its fields in place (`Acceptor.PaxAcceptor`, `Proposer.PaxProposer`,
`Learner.PaxLearner`, `SyncJob.SendingJob`, `Controller.PaxController`), proved equal to those functions, nested
`HandleMessage` calls included. `Cluster` turns the functions into a state machine over any number of nodes: messages
are delivered at most once, in any order, or lost; timers fire at any time; nodes crash and restart from what they
wrote, also between writing the record of a learned value and executing it. `Invariant` states what holds in every
reachable cluster, `Preservation` proves it step by step, and `Agreement` draws the conclusions for every
run: one value per instance forever, equal logs, equal stores, exactly-once execution, harmless restarts. `Rounds` adds
what a proposer learns from replies, `Exchanges` what every timer and every message of a round makes the two nodes do
that exchange it, and `CatchUp` the handshake and the streaming of values to a follower. `OneRound` and `OneInstance`
lead one instance from submission to execution, and `Runs` puts them together over `Paths`: every log is possible and
reaches every node of every cluster that has a majority, all runs agree exactly if majorities intersect, and the proposer
with a single field for two purposes loses agreement.

**Log storage.** `SegmentFormat` gives the bytes of a segment file and of an index entry, `SegmentStore` the rollover,
restart, reading and asynchronous deletion of segments, `LogStorage` the index over it. `IndexRepair` proves what the
repair of the index arrives at, also when start-up dies after any of its own calls, any number of times. `LogRefinement`
and `LogHistory` prove that over every history of puts, deletions, clean events and crashes -- after any system call of a
put, and of each of the start-ups that follow -- the storage answers like a map. `LogExamples` gives concrete stores where
removals out of order lose a key, and where a replaced clean event leaves a file behind.

**Scheduler.** `EventQueue` is an array heap, `Scheduler` the lazy deletion over it, `Timers` the set of live timers it
stands for, with what holds over whole runs of that set: nothing fires early, twice, or once replaced.

**State machine.** `KvStateMachine` proves what the store holds after any log, and that re-running the log from the last
applied instance gives its left-to-right execution.

## Repairs

Where the source plainly falls short of what it is for, the model follows the intent, and each repair is noted in a
comment where it is made. `AsWritten` and a few other members keep the literal code and prove when it would be right.

- Message classes are the binary numbers 1, 11, 111, 1111 the shift tests expect (`include/messages.hpp:16-34`).
- `SetAcceptedProposal` stores the proposal id (`src/core/include/acceptor_pax.hpp:39-42`), and the record keeps the
  node of the accepted proposal (`src/core/acceptor_pax.cpp:148`).
- Acceptor messages of another instance are ignored (`src/core/acceptor_pax.cpp:236`); replies carry instance, ballot
  and proposer (`src/core/acceptor_pax.cpp:108-119`); restart reads the latest record (`src/core/acceptor_pax.cpp:176`).
- `HandleAccept`: both the strict test of the source (`src/core/acceptor_pax.cpp:79`) and "at least the promised
  ballot" are modelled, as `Config.strict`; safety holds for both, and `Agreement.StrictTestChoosesNothing` shows what
  the strict one costs.
- A promise majority calls `Accept`, not `Propose` (`src/core/proposer_pax.cpp:99-101`); votes are counted by sender
  (lines 90, 96, 142, 147); messages carry the proposal id (line 175); adoption uses the accepted ballot, and only if
  there is one (lines 166-169); the VALUE_CHOSEN a node sends to itself carries its id (lines 152-155).
- The ballot of the adopted value is kept apart from the highest ballot heard of (`src/core/proposer_state.cpp:16-46`).
- `IsStillPending` means that votes are missing (`src/core/proposal_counter.cpp:23-25`).
- The learner does not fall through after VALUE_CHOSEN (`src/core/learner_pax.cpp:55-58`), tells others the learned value
  and only if it learned one (line 31), and compares the proposer with that of the accepted proposal (line 38).
- Catch-up messages name their sender (`src/core/learner_lead.cpp:52`), the confirmation is sent
  (`src/core/learner_follow.cpp:59-64`) and the nested lock on `mutex_follow_` is taken once (lines 48, 60).
- `LearnNew` keeps the promise of the record it rewrites and raises it to the recorded ballot
  (`src/core/learner_lead.cpp:167-175`).
- Start-up sets the instance in the two cases the source leaves open (`src/core/controller.cpp:77-88`): after the applied
  instance, and at a single unexecuted record.
- The applied instance is stored together with the effect of its command (`src/kvsm/kvsm.cpp:40-48` stores nothing), a
  missing key has version 0 (`src/kvsm/kv.cpp:52-56` reads an unset variable), and the store opens its database
  (`src/kvsm/kv.cpp:8` returns early).

## Model

| member | source | states |
|---|---|---|
| Agreement.AgreementForever | src/core/acceptor_pax.cpp:19-106 | over any run and any continuation of it, with loss, reordering, competing proposers, timeouts, crashes and restarts, all proposals a majority ever accepted in an instance carry one value, for any cluster whose majorities intersect |
| Agreement.ChosenBinds | src/core/proposer_state.cpp:16-46 | a value remembered from any earlier round is safe: in every state that meets the invariant, each proposal above a chosen ballot carries the chosen value |
| Agreement.OneValuePerBallot | src/core/proposer_pax.cpp:40-68 | accept broadcasts at any two times of a run with the same instance and ballot carry the same value, although a timed-out round uses its ballot again |
| Agreement.LogHoldsChosen | src/core/controller.cpp:147-153 | below its instance every node stores, for each instance, a value that a majority accepted, and it is not empty |
| Agreement.LogsAgree | src/core/learner_lead.cpp:163-177 | any two nodes, at any two times of a run, store the same value for every instance both have left |
| Agreement.StoresAgree | src/core/controller.cpp:147-153 | the store of a node is the left-to-right execution of its log, and nodes at the same instance have equal stores |
| Agreement.StoreHoldsChosenPuts | src/kvsm/kvsm.cpp:11-34 | in every run a node holds under each key the data of the last chosen put of it that named the version before, and nothing if there is none |
| Agreement.SyncSendsChosen | src/core/learner_lead.cpp:49-60 | every value broadcast as chosen, or sent to a follower, was accepted by a majority at the ballot it names |
| Agreement.ExecutedExactlyOnce | src/core/controller.cpp:126-154 | a node that was not restarted executed instances 1, 2, 3, ... once each, in order, with the chosen values, although `HandleMessage` re-enters itself |
| Agreement.RestartIsStutter | src/core/acceptor_pax.cpp:173-205 | a restart keeps log and store; a node that has a record of its instance resumes there and finds its acceptor as it left it; it resumes one instance earlier only if its acceptor has done nothing; its proposer starts above what its acceptor accepted |
| Agreement.PromisesNeverDecrease | src/core/acceptor_pax.cpp:135-156 | over steps, crashes and restarts the promised ballot of an acceptor in an instance never goes down |
| Agreement.StrictTestChoosesNothing | src/core/acceptor_pax.cpp:71-106 | with the strict test of `HandleAccept` no proposal is ever accepted by a majority and no node leaves its first instance |
| Agreement.RunExtends | src/core/acceptor_pax.cpp:135-156 | continuing a run keeps proposals and votes and lowers no promise |
| Preservation.NextKeepsInv | src/core/controller.cpp:126-154 | every action of the cluster keeps the invariant and only extends the history of promises, proposals and votes |
| Preservation.RunInv | src/core/controller.cpp:126-154 | the invariant holds in every state of every run |
| Preservation.MajorityMeansNewSlot | src/core/proposer_pax.cpp:99-101 | no ballot gathers two promise majorities: with a majority in hand nothing was proposed at this ballot before |
| Preservation.ReplyKeepsProposer | src/core/proposer_pax.cpp:86-97 | after a reply, the remembered adoption covers the votes of every acceptor counted so far |
| Preservation.GrantPromise | src/core/acceptor_pax.cpp:33-54 | granting a promise keeps the invariant: the reply reports what the record holds, and the ballot is new to this acceptor |
| Preservation.CastVote | src/core/acceptor_pax.cpp:79-97 | accepting a proposal keeps the invariant under either test |
| Preservation.ProposeValue | src/core/proposer_pax.cpp:114-123 | proposing on a promise majority keeps the invariant: the new proposal is safe at its ballot |
| Preservation.SelfChosen | src/core/proposer_pax.cpp:140-157 | the acceptances that make the proposer announce a chosen value are a majority of votes for it |
| Preservation.SelfLearnHandle | src/core/player_pax.cpp:37-39 | the nested call learns, executes and moves on; the outer call finds nothing left to learn |
| Preservation.HandleTaught | src/core/learner_follow.cpp:53-80 | learning from a broadcast or from catch-up keeps the invariant |
| Preservation.RecoveredStore | src/core/controller.cpp:116-124 | re-execution at start-up reproduces the store the node had |
| Preservation.DieLearningStep | src/core/learner_lead.cpp:163-177 | a crash between the record of a learned value and its execution keeps the invariant |
| Rounds.AdoptsHighest | src/core/proposer_state.cpp:16-46 | whatever reports arrive, in any order and over any rounds, the value adopted is that of the highest accepted ballot among them |
| Rounds.RejectionIsOutbid | src/core/proposer_pax.cpp:92-97 | the round after a rejection uses a ballot the rejecting acceptor then promises |
| Rounds.RejectedProposalIsOutbid | src/core/acceptor_pax.cpp:98-102 | likewise after a rejected proposal, although that rejection names no node |
| Exchanges.AskedIsCounted | src/core/acceptor_pax.cpp:19-69 | every acceptor in the proposer's instance answers it, and the proposer counts the answer for that acceptor: promised and recorded exactly above the old promise, adopted exactly above what was adopted; the answer that completes a majority starts the accept phase |
| Exchanges.ProposedIsCounted | src/core/acceptor_pax.cpp:71-106 | likewise for acceptance, where a rejection names the promised proposal id and nothing is written |
| Exchanges.MajorityIsRecognised | src/core/proposer_pax.cpp:129-164 | exactly with the acceptance that completes a majority, a node whose acceptor holds the proposal executes its value, tells all, and moves on within that call |
| Exchanges.AcceptedIsLearned | src/core/learner_pax.cpp:35-49 | a node takes a broadcast or a sent value exactly if its own acceptor accepted that proposal, and then records, executes and moves on |
| Exchanges.TimerStartsRound | src/core/proposer_pax.cpp:61-68 | the timer of either phase starts a round in the instance it was published in: asking all, at the old ballot exactly if nobody rejected, else at the next one above everything heard of; in another instance it does nothing |
| Exchanges.NoRoundIsLeftBehind | src/core/proposer_pax.cpp:40-164 | in every run a node that waits for promises or acceptances has the timer armed that asks again |
| Exchanges.GivenUpIsQuiet | src/core/proposer_pax.cpp:198-211 | after the NEWVALUE timeout no answer to the round counts and no timer of it fires; a new submission asks again, for the old value |
| Exchanges.NothingToGiveUp | src/core/proposer_pax.cpp:198-202 | without a running round the NEWVALUE timeout changes nothing |
| Exchanges.SubmitsUnlessBehind | src/core/controller.cpp:99-114 | a value is submitted exactly by a node that has nothing to catch up with, and an earlier or adopted value stays |
| Exchanges.HearsHighest | src/core/proposer_state.cpp:16-34 | whatever ballots are heard of, in any order, the highest is remembered |
| Exchanges.DiesBehindRecord | src/core/learner_lead.cpp:163-177 | a crash between record and execution leaves the record the handler writes and the store without the value |
| CatchUp.Handshake | src/core/learner_lead.cpp:15-47 | who is asked answers the follower: one instance ahead with the stored value, else with both instances; the follower confirms to that node, for its own instance, exactly if that is not behind, and the confirmation prepares a free job and no other |
| CatchUp.CatchesUp | src/core/learner_lead.cpp:49-130 | from any instance two or more behind, the steps from the follower's timer to the end of the job bring it level, with the leader's values in its log, executed once each and in order, and leave the job free |
| OneInstance.Replicates | src/core/controller.cpp:126-154 | where a majority is idle in an instance, one round gets a submitted value chosen, learned and executed by all of it |
| Runs.EverybodyFollows | src/core/learner_lead.cpp:49-130 | in every cluster with a majority, without the strict test, each log of at least two values is reached by every node, executed once each and in order |
| Runs.EveryLogIsPossible | src/core/controller.cpp:126-154 | a majority chooses, learns and executes any sequence of values one after the other |
| Runs.AgreesIffMajoritiesIntersect | include/config.hpp:47-49 | without the strict test, all runs of a cluster agree exactly if twice the majority exceeds the number of nodes |
| Runs.HalfThresholdAgreesIffOdd | include/config.hpp:47-49 | with the threshold at one half, clusters of odd size agree in all runs, and every cluster of even size has a run that chooses two values |
| Runs.DisjointMajoritiesDisagree | include/config.hpp:47-49 | where two majorities are disjoint, a cluster is reached that chose two different values in one instance |
| Runs.EveryClusterDecides | src/core/proposer_pax.cpp:29-164 | in every cluster that has a majority, without the strict test, each node can get each value chosen; it and all of that majority leave the instance with the value in log and store |
| Runs.OneFieldDisagrees | src/core/proposer_state.cpp:16-46 | with the single field of the source, three nodes with majorities of two choose two values, without a crash or a lost message |
| AsWritten.RejectionHidesAcceptedValue | src/core/proposer_pax.cpp:86-97 | with the single field, a node that is rejected, times out and asks again goes on with its own value although a promise reports an accepted one |
| AsWritten.DroppedPromiseIsBroken | src/core/learner_lead.cpp:167-175 | under either test, the record without promise lets a restored acceptor break its promise exactly if it had promised more than the least ballot; the repaired record never does |
| AsWritten.BrokenPromise | src/core/learner_lead.cpp:163-177 | an acceptor that promised (1, 2), learned a value and restarted accepts (1, 1) |
| AsWritten.AcceptedAsWrittenOrders | src/core/include/acceptor_pax.hpp:39-42 | with the proposer stored as proposal id, the order of two accepted proposals is right exactly if the nodes are ordered like the ballots |
| AsWritten.MajorityAsWrittenNeedsOne | src/core/proposer_pax.cpp:90-97 | counted for the own node, votes make a majority exactly where none is needed, or one is and somebody voted so |
| AsWritten.RestoredAsWrittenIff | src/core/acceptor_pax.cpp:173-179 | reading instance -1 restores nothing; that is right exactly if the node has no record, or an empty one, of the instance it resumes at, and breaks a promise exactly if that record holds one |
| AsWritten.RestoredFromLatestIff | src/core/acceptor_pax.cpp:173-179 | reading the latest record instead is right exactly if the node resumes at it or it is empty |
| Routing.RoutesExactly | src/core/controller.cpp:13-31 | with binary prefixes the shift tests send every message type to exactly its player |
| Routing.WrittenCodesReachAcceptorsOnly | include/messages.hpp:16-34 | with the hexadecimal prefixes only messages to acceptors are routed at all |
| Quorum.QuorumsIntersectIff | include/config.hpp:47-49 | any two vote sets of that size intersect exactly if twice the majority exceeds the member count |
| Quorum.ThresholdAboveHalfIntersects | include/config.hpp:47-49 | every threshold above one half gives intersecting quorums for every member count |
| Quorum.HalfThresholdIntersectsIffOdd | include/config.hpp:47-49 | threshold one half does so exactly for odd member counts |
| ProposalCounter.TallyHoldsDistinctVoters | src/core/proposal_counter.cpp:11-56 | after any votes since the reset the three sets hold exactly the distinct senders of their kind and the count is their number |
| ProposalCounter.Counter.Promise | src/core/proposal_counter.cpp:43-49 | adds a new voter once and refuses a repeated one |
| Acceptor.PaxAcceptor.HandlePropose | src/core/acceptor_pax.cpp:19-69 | state, record and reply are those of the specification, the record being written before the reply |
| Acceptor.PaxAcceptor.HandleAccept | src/core/acceptor_pax.cpp:71-106 | likewise for acceptance |
| Proposer.PaxProposer.Round | src/core/proposer_pax.cpp:40-55 | a new round keeps its ballot unless somebody rejected |
| Proposer.PaxProposer.AcceptTimeout | src/core/proposer_pax.cpp:121-122 | starts a round exactly if the timer was published in this instance |
| Proposer.PaxProposer.NewProposalId | src/core/proposer_state.cpp:56-59 | the new proposal id is above the own one and everything heard of |
| Proposer.PaxProposer.HandleProposeAck | src/core/proposer_pax.cpp:74-108 | counts, adopts, and starts the accept phase as specified |
| Proposer.PaxProposer.HandleAcceptAck | src/core/proposer_pax.cpp:129-164 | counts, and reports a majority exactly when the distinct approvers reach it |
| Learner.PaxLearner.LearnFromOthers | src/core/learner_follow.cpp:70-80 | learns and rewrites the record only for the current instance |
| Learner.PaxLearner.HandleShallILearn | src/core/learner_lead.cpp:25-43 | a follower one instance behind gets the stored value, any other its own and this node's instance |
| Controller.PaxController.HandleMessage | src/core/controller.cpp:126-154 | the re-entrant handler changes the node and sends exactly as the specification `Node.Handle` says |
| Controller.PaxController.Init | src/core/controller.cpp:66-97 | start-up from log and state machine arrives at the node `Node.Restart` describes |
| Controller.PaxController.PushSMByState | src/core/controller.cpp:116-124 | the loop executes the log from the last applied instance up to the target, in order |
| SyncJob.WindowHolds | src/core/learner_lead.cpp:75-106 | in every interleaving of sends, confirmations and acks the sender is at most LEAD_FOLLOW_DIS + 1 past the ack once it is past its first value, whatever acks arrive |
| SyncJob.SendingJobIsStable | src/core/learner_lead.cpp:75-193 | over any events, as long as a job sends its receiver and first instance stay, and what was sent and acknowledged only grows |
| SyncJob.AckAheadBlocks | src/core/learner_lead.cpp:95-102 | an ack ahead of everything sent wraps the unsigned distance and blocks the loop, with the exact condition |
| SyncJob.AckCameFromReceiver | src/core/learner_lead.cpp:179-193 | over any events, what a sending job takes for acknowledged was acknowledged by its own receiver |
| SyncJob.EndsWhenAllIsSent | src/core/learner_lead.cpp:75-116 | a job ends exactly while it waits or once it has sent everything there is |
| SyncJob.EarlyAckBlocks | src/core/learner_lead.cpp:75-106 | four events that lead to such a job: confirmation, start, an early ack, one value sent |
| SyncJob.BlockedUntilFinished | src/core/learner_lead.cpp:75-106 | nothing but giving up ends that wait: neither waking up nor later acks |
| KvStateMachine.StoreHoldsLastPuts | src/kvsm/kv.cpp:45-79 | after any log each key holds the data of its last put that named the version the put before it left, with the version behind, and nothing if none did |
| KvStateMachine.RecoveryEqualsFold | src/core/controller.cpp:116-124 | re-running the log at the last applied instance gives the one left-to-right fold, whether target or progress is later |
| KvStateMachine.RerunFromApplied | src/kvsm/kvsm.cpp:11-34 | re-applying the last success and the failures behind it changes nothing |
| KvStateMachine.FoldShape | src/kvsm/kvsm.cpp:25-33 | the applied instance is the last success: it succeeded, every later one fails, and nothing else changed the store |
| KvStateMachine.FirstWriterWins | src/kvsm/kv.cpp:56-63 | of two writers that read the same version only the first succeeds |
| KvStateMachine.KvMachine.Execute | src/kvsm/kvsm.cpp:11-34 | a put that names the stored version stores its data under its key, nothing else changes any key, and the applied instance moves only on success |
| KvStateMachine.KvMachine.Put | src/kvsm/kv.cpp:45-79 | refuses a version that is not the stored one and changes nothing then |
| Bytes.DecodeEncode | src/storage/segment_store.cpp:726-748 | integers written byte by byte are read back |
| Bytes.LowByteFirst | src/storage/segment_store.cpp:726-748 | integers are written with the low byte first |
| SegmentFormat.IndexBytes | src/storage/segment_store.cpp:726-748 | the twenty bytes of an index entry are those of segment, offset and checksum, in this order |
| SegmentFormat.ParseIndexInverts | src/storage/segment_store.cpp:726-748 | an index entry gives back segment, offset and checksum |
| SegmentFormat.ReplayFindsRecord | src/storage/segment_store.cpp:437-507 | replay inverts append: at each record it reports its key, the index entry `Append` returned, and the next offset |
| SegmentFormat.ReplayFindsEnd | src/storage/segment_store.cpp:475-497 | behind the last record, at padding or end of file, replay reports the end |
| SegmentFormat.SentinelsUnambiguous | src/storage/segment_store.cpp:437-506 | the int result is the true offset exactly below 2 to the 31st, and below 2 to the 32nd its sign tells it from the sentinels 0 and -1 exactly there |
| SegmentStore.ReplayEndFinds | src/storage/segment_store.cpp:401-424 | replaying from any record ends at the append offset |
| SegmentStore.RolloverIsCrashSafe | src/storage/segment_store.cpp:268-329 | after each of truncate, metadata, create, pad and write the disk holds exactly the records appended so far |
| SegmentStore.AppendIsCrashSafe | src/storage/segment_store.cpp:249-329 | after whichever system call of `Append` the process dies, what survives is the old records, or with the last call those and the new one |
| SegmentStore.AppendRuns | src/storage/segment_store.cpp:249-329 | an append adds its record behind all others in a consistent store, returns its index entry, and never meets an existing next segment |
| SegmentStore.StartedRuns | src/storage/segment_store.cpp:102-142 | `Init` recovers contents and append offset from every such disk |
| SegmentStore.RestartFindsSameState | src/storage/segment_store.cpp:102-142 | restarting a running store arrives at the same offset, size and disk |
| SegmentStore.ReadFindsRecord | src/storage/segment_store.cpp:157-247 | the index entry of a record reads back that record |
| SegmentStore.ReadIsExact | src/storage/segment_store.cpp:157-247 | a read succeeds exactly if a frame stands at the place with the checksum of the entry, and gives its record |
| SegmentStore.LogSegmentStore.Init | src/storage/segment_store.cpp:64-142 | fails on a checksum mismatch and changes no file then; otherwise arrives at the specified state |
| SegmentStore.LogSegmentStore.Append | src/storage/segment_store.cpp:249-329 | too big: fails and changes nothing; otherwise the specified disk after every single system call, also where an existing next segment stops it |
| SegmentStore.LogSegmentStore.ReplaySegment | src/storage/segment_store.cpp:401-424 | the replay loop terminates at the specified end |
| SegmentStore.LogSegmentStore.RemoveAsync | src/storage/segment_store.cpp:334-388 | schedules the segment exactly if the frame ends at the end of the file |
| LogStorage.StartsIff | src/storage/log_stroage.cpp:16-34 | start-up gets through exactly if the metadata checksum is right and the index names no segment behind the current one |
| LogStorage.LastKeyIsGreatest | src/storage/index_db.cpp:48-68 | repair starts at the key that no other exceeds at the first byte where they differ |
| LogStorage.LastKeyExists | src/storage/index_db.cpp:48-68 | a set of keys that is not empty has exactly one greatest in byte order |
| LogStorage.DataBaseLogStorage.AlignIndexWithSegmentStore | src/storage/log_stroage.cpp:144-195 | fails exactly if the index is ahead of the log, else leaves the repaired index, and after each index write the specified part of it |
| LogStorage.DataBaseLogStorage.AlignLoop | src/storage/log_stroage.cpp:174-192 | the loop terminates, across any number of segments, with the specified index, reached by the specified index writes |
| LogStorage.DataBaseLogStorage.Init | src/storage/log_stroage.cpp:16-34 | recovers segment store and index, or fails; every durable call it makes leaves what the model of an interrupted start-up says |
| LogStorage.DataBaseLogStorage.Put | src/storage/log_stroage.cpp:36-59 | appends and indexes; a failed append leaves the index alone |
| LogStorage.DataBaseLogStorage.Get | src/storage/log_stroage.cpp:61-101 | the value at the indexed place, if its key is the one asked for |
| LogStorage.DataBaseLogStorage.Delete | src/storage/log_stroage.cpp:103-131 | schedules the segment if need be and unlists the key |
| LogEntries.ContentsOfLatest | src/storage/log_stroage.cpp:36-59 | the latest entry of each key holds the value last put for it |
| LogEntries.CutOldest | src/storage/segment_store.cpp:331-333 | cutting the log behind the oldest live record takes exactly its key away |
| IndexRepair.AlignEqualsRebuild | src/storage/log_stroage.cpp:144-195 | from the index of any non-empty part of the log up to any point, repair arrives at the index of the whole log, for keys in any order |
| IndexRepair.AlignRebuildsIff | src/storage/log_stroage.cpp:151-156 | from any index a crash can leave, repair rebuilds the index exactly if it is not empty or the log is |
| IndexRepair.AlignFromPosition | src/storage/log_stroage.cpp:174-192 | repair from any position adds exactly the entries behind it, and stopped after any number of index writes exactly that many of them |
| IndexRepair.AlignRepairs | src/storage/log_stroage.cpp:144-195 | repair also arrives at the whole index from one that an interrupted repair left, and what it leaves when interrupted can be repaired again |
| IndexRepair.DeathsAreHarmless | src/storage/log_stroage.cpp:16-34 | however often start-up dies, after whichever of its calls, the one that gets through arrives at the very store an undisturbed one would have |
| LogRefinement.GetRefinesMap | src/storage/log_stroage.cpp:61-101 | `Get` finds exactly the keys of the log's contents, with the value last put |
| LogRefinement.OtherLengthsAreNeverFound | src/storage/log_stroage.cpp:93-98 | a key that is not of the fixed length is never found |
| LogRefinement.PutRefines | src/storage/log_stroage.cpp:36-59 | a put adds its record to the log; an oversize one fails and changes nothing |
| LogRefinement.RecoveryRefines | src/storage/log_stroage.cpp:16-34 | start-up succeeds on every disk and index that a crash of an append or of a start-up can leave, and states which log it finds |
| LogRefinement.ScheduledIff | src/storage/segment_store.cpp:357-385 | a segment is scheduled exactly when the record removed is the last one of a full segment |
| LogRefinement.DeleteRefines | src/storage/log_stroage.cpp:103-131 | deleting the oldest key cuts the log behind its record and keeps every scheduled segment free of live records |
| LogRefinement.NothingIsStranded | src/storage/segment_store.cpp:331-388 | no index entry points into a segment that is deleted or about to be |
| LogHistory.CleanRefines | src/storage/segment_store.cpp:689-702 | deleting the scheduled segment leaves the log as it is |
| LogHistory.OutOfOrderStrandsIff | src/storage/segment_store.cpp:331-388 | deleting the last record of a full segment keeps all other keys readable exactly if no other readable key lies in it |
| LogHistory.LaterCleanReplacesEarlier | src/storage/segment_store.cpp:380-384 | when the next clean event fires, a segment scheduled before keeps its file exactly if the deletion scheduled another one |
| LogHistory.ReplacedIsNeverDeleted | src/storage/segment_store.cpp:380-384 | in every history, a segment whose clean event is replaced by a later one, or lost in a crash once closed, keeps its file for ever |
| LogExamples.OutOfOrderExample | src/storage/segment_store.cpp:331-388 | a store of two records in one segment where deleting the second one loses the first |
| LogExamples.ReplacedExample | src/storage/segment_store.cpp:380-384 | an allowed history of five operations after which the log is empty and the first file is left behind |
| LogHistory.CrashRefines | src/storage/log_stroage.cpp:144-195 | after a crash at any system call of a put, and any number of start-ups that die as well, the log is the old one, or has the record added, with the exact condition |
| LogHistory.StepRefines | src/storage/log_stroage.cpp:16-131 | every allowed operation can be carried out and has its effect on the log |
| LogHistory.EffectOnContents | src/storage/log_stroage.cpp:36-131 | those effects are a map update, the removal of one key, or nothing |
| LogHistory.GetIsRightForever | src/storage/log_stroage.cpp:61-101 | in every history of puts, deletions, clean events and crashes, crashes during recovery included, `Get` returns for every key the value last put and not deleted |
| Timers.FiresAtMostOnce | src/util/schedule.cpp:27-49 | over every run of operations each timer fires at most once |
| Timers.FiresWhenAskedFor | src/util/schedule.cpp:27-49 | over every run, what fires was asked for by an `AddEvent` not replaced or withdrawn since, and its time has come |
| Timers.DueWhenAskedFor | src/util/schedule.cpp:27-49 | until it fires, or is replaced or withdrawn, the one live timer of a type is due at the time asked for last |
| Timers.NeverFiresOnceReplaced | src/util/schedule.cpp:27-72 | a timer that fires was added after every replacement or withdrawal of its type |
| Timers.LiveUntilFired | src/util/schedule.cpp:27-72 | a live timer stays live until it fires or is replaced or withdrawn |
| Timers.RunOk | src/util/schedule.cpp:27-32 | at most one live timer of each type, with distinct ids |
| EventQueue.FrontIsLatest | src/util/include/event.hpp:48-51 | the front of the heap is the event due last |
| EventQueue.EventQueue.Push | src/util/event.cpp:8-12 | adds the event and keeps the heap |
| EventQueue.EventQueue.PopOne | src/util/event.cpp:27-36 | takes the front, keeps all other events and the heap |
| EventQueue.EventQueue.HasTimeout | src/util/event.cpp:14-25 | true exactly if there is an event and every event is due |
| Scheduler.Scheduler.AddEvent | src/util/schedule.cpp:27-32 | queues an event due at the time asked for, which replaces the live timer of its type |
| Scheduler.Scheduler.Remove | src/util/schedule.cpp:69-72 | withdraws the live timer of the type and no other |
| Scheduler.Scheduler.Dispatch | src/util/schedule.cpp:34-49 | fires exactly if a timer is live and every queued event, stale or not, is due; what fires is live, due, and the latest; nothing else is lost |
| Scheduler.Scheduler.NextEventTime | src/util/schedule.cpp:51-67 | the latest live time; reads an empty vector exactly if events are queued and none is live |

## Left out

- Transport (gRPC, asio, `Network`, `Communicator`, message conversion): replaced by the messages in flight of `Cluster`.
- LevelDB (`src/storage/index_db.cpp`, the database of `src/kvsm/kv.cpp`): a map; its writes are atomic and succeed.
- Protobuf: log values and records are datatypes; the zero defaults of an empty log value are kept.
- Threads, condition variables and real time: timers fire at any step, the sending loop is a set of steps, the clock of
  the scheduler is a parameter. Runs that make progress are shown to exist; no wake-up or progress is promised for
  others: `MyLock::NotifyAll` does nothing, and competing proposers may block each other.
- `ProposalProv`: any non-empty value may be submitted whenever the node would propose.
- `ProposingAuthority`: every member may propose; the NEWVALUE timer is a step that may happen at any time.
- The link between `PaxStore` and the log storage: `PaxStore` is a map from instances to records, while the source keys
  it with decimal numbers of varying length, which the log storage only reads back at the one length it is set up for.
- Failed writes of records: the source ignores the result (`src/core/player_pax.cpp:41-43`).
- Torn writes, failing opens and seeks, directory creation and file descriptors: each file operation is atomic and
  succeeds; a metadata file without checksum, which the source accepts, does not occur.
- The 8-byte read of the metadata checksum into a 4-byte variable, and `UpdateMetadata` returning -1 as success.
- Segment ids at 2 to the 31st and proposal ids and instances at 2 to the 64th: no wrap-around, except in the distance
  of `SyncJob`.
- Quorum.MajorityCount: the threshold is a real number; rounding of the double product is not modelled.
- LogHistory.GetIsRightForever: for keys of the fixed length and removals oldest first, as the source assumes; longer keys
  are covered by `LogRefinement.OtherLengthsAreNeverFound`, other orders by `LogHistory.OutOfOrderStrandsIff`.
- `std::push_heap` and `std::pop_heap`: one binary heap algorithm stands for the library's; only heap order and contents
  are used.
- Callbacks of events: an event has a type and an id; the delayed deletion of a segment is a step of its own.
- `DeleteSegmentBefore`, `SafeQueue`, `SafeMap`, node id packing, the in-memory database: unused or easy.

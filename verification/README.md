# The consensus core, verified

This project models the Byzantine agreement core of the repository, the state
transfer and the speculative execution built around it, and the hash-linked
ledger below it, and proves what they promise. `dafny verify dfyconfig.toml`
checks all of it.

## The parts

**PBFT.** A replica exists twice. `ReplicaModel` describes it as a state and 26
atomic actions with their guards; `PbftSystem` runs N such replicas, at most f of
them faulty, over a growing set of messages in which a faulty replica may say
anything under its own id. `PbftCore.Replica` is the imperative form: a class
whose methods follow the handlers statement by statement, loops and recursion
included. Its contracts say two things. Every handler is a *legal chain*: a
sequence of enabled actions that takes in only the message it was given and the
replica's own messages. And the handler has the effect it should have.
`ReplicaChains.ChainIsRun` joins the two levels: a legal chain extends a run of
the system, so all statements about runs hold for runs of handlers.

The statements about runs build on one invariant (`SystemInvariant`,
`SystemRuns.RunInv`): agreement within a view, soundness of commit certificates,
safety across view changes, order and agreement of execution, agreement of stable
checkpoints, and that faulty replicas alone move no watermark, unless by a base that only
they carry. `GoodRuns` shows that the runs are not idle: with a correct primary any
request gets executed everywhere.
`NewViewSources` says which part of the hypotheses on V sets correct replicas fulfil by
themselves. `LostRequest` builds the run that shows why the condition on null requests is
there, `ViewEntryRuns` those for distinct replicas and for carried bases, and `EnteringViews`
says where the code makes no progress.

**State transfer** (`PeerAnswers`, `StateTransfer`) is proved sound whatever the peers
send, and complete: one helpful peer is enough for the blocks, and for the state if it is the
first that answers. **Sieve** (`SieveVote`, `SieveReplica`)
is proved to decide by the total order alone. The **ledger** (`LedgerEncoding`,
`LedgerIndex`, `LedgerChain`) is proved to do what a plain list of blocks would do.

## How the source is read

- Hashes and signatures are ideal. A request digest, a block hash and a state hash
  are constructors applied to what is hashed; a view-change verifies only if its
  replica sent it or is faulty.
- A handler is one atomic step and a timeout is a step that may happen at any time.
  The consumer is a trace (`deliveries`, `trace`) that does not call back.
- Maps are visited in arbitrary order, as Go does; peers, network and disk failures
  are arbitrary inputs or arbitrary choices.
- The fields of a PBFT instance are kept in one record, `Replica.s`, which the
  methods update field by field, so that a handler can be compared with actions.
- `innerBroadcast` to oneself is a call of the own handler, as in the source.

Hypotheses are named predicates, because the code does not check them:
`NewViewSafety.WellFormedVset` (one view-change per replica and no repeated C or Q
entries in a new-view), `CrossViewSafety.GoodStart` (in addition, a view that starts
below n rests on view-changes whose watermarks lie below n or that still list n, or else
does not leave n to the null request, which for a committed n is exactly when it keeps
it), `ReplicaModel.RequestsRetained` (requests of numbers above the watermark
are still stored when P and Q are built; `RetainedRequests` says exactly what depends on
it and when a jump or a move of the watermark breaks it), `CheckpointSafety.BasesCarried` (a base to skip to is
carried by more than f replicas) and `SieveReplica.HonestVerifies` (a correct replica
verifies a block with a result for that block).

Where the code and its comments differ, the code is followed:

- The null rule of the PBFT paper, whose selection rules the comments quote, asks for a
  low watermark below n; the code does not ask (`NullRuleExact`, `CommittedRequestLost`).
- `syncBlocks` says that on failure the returned block is the last one synced; it is
  the last one looked at.
- `Checkpoint` takes a sequence number but files the id under `lastExec`.
- After a failed peer that could not be rolled back, `playStateUpToBlockNumber` can
  still succeed with another peer; `stateValid` then stays false although the state
  is that of the target.
- Only the first state delta of a message is applied, because the second finds its group
  already open; and a delta that does not unmarshal leaves the group of its message open,
  after which no snapshot that carries data can be taken (`SyncStateSnapshot`).
- `getBlockByHash` of an unknown hash gives block 0.

## Model

| member | source | states |
|---|---|---|
| `NewViewMethods.SelectInitialCheckpoint` | consensus/obcpbft/viewchange.go:402-449 | whatever order the map is visited in, a returned checkpoint is a highest one that qualifies, and none is returned exactly when none qualifies |
| `NewViewSafety.QualifiesIffQuorum` | consensus/obcpbft/viewchange.go:418-436 | in a well-formed V set a checkpoint qualifies if and only if an intersection quorum of distinct replicas carries it with H at or below it |
| `NewViewSafety.InitialCheckpointUnique` | consensus/obcpbft/viewchange.go:417-446 | over a well-formed V set in which correct replicas list one id per number, the initial checkpoint, id included, is unique, and at least f+1 correct replicas carry it |
| `NewViewSources.RunTidy` | consensus/obcpbft/viewchange.go:122-143 | in every run the view-changes of correct replicas repeat no C entry and list one id per number in C and one Q entry per number and digest |
| `NewViewSources.IssuedWellFormedIff` | consensus/obcpbft/viewchange.go:247-266 | in every run a V set with genuine signatures is well formed if and only if no replica is in it twice, no view-change is for an earlier view, and those of faulty replicas repeat no entry |
| `NewViewSources.OwnVsetDistinctIff` | consensus/obcpbft/viewchange.go:394-400 | nobody is in the V set of a primary twice if and only if nobody is stored with view-changes for two views: the store is returned for all views |
| `NewViewSources.OwnVsetWellFormedIff` | consensus/obcpbft/viewchange.go:212-238 | in every run the V set a correct primary sends is well formed if and only if that holds and the stored view-changes of faulty replicas repeat no entry |
| `NewViewSources.StartingPointUnique` | consensus/obcpbft/viewchange.go:402-449 | in every run a well-formed V set with genuine signatures has one initial checkpoint, id included, and more than f correct replicas have sent it |
| `NewViewSources.ViewsStartAlike` | consensus/obcpbft/viewchange.go:268-300 | correct replicas that enter a view with the same new-view over a well-formed V set start from the same checkpoint, which more than f correct replicas have sent |
| `NewViewSources.OneNewViewOfCorrectPrimary` | consensus/obcpbft/viewchange.go:212-266 | all correct replicas enter a view of a correct primary with the same new-view |
| `NewViewSources.NewViewInventsNothing` | consensus/obcpbft/viewchange.go:451-535 | over a well-formed V set the X set gives a number the null request or a digest that some correct replica held a pre-prepare for at that very number |
| `NewViewLimits.DoubledVoiceDecides` | consensus/obcpbft/viewchange.go:484-505 | without distinct replicas it may not: a V set in which the view-changes of one replica for two views meet A2 |
| `ViewEntryRuns.HeardTwice` | consensus/obcpbft/viewchange.go:394-400 | a run in which the correct primary of view 2 hears a faulty replica for views 2 and 3 and sends a new-view that gives number 1 to a digest of which nobody else has told |
| `NewViewSafety.InitialNumberUnique` | consensus/obcpbft/viewchange.go:442-445 | for every V set, well formed or not, the number of the initial checkpoint does not depend on the map order |
| `NewViewSelection.CountsDistinctReplicasIff` | consensus/obcpbft/viewchange.go:418-436 | the counters of the selection equal the number of distinct replicas if and only if nobody contributes twice; otherwise they exceed it |
| `NewViewLimits.OneReplicaDecides` | consensus/obcpbft/viewchange.go:404-409 | one view-change that repeats a C entry makes any checkpoint whatever the initial one: mentions are counted, not replicas |
| `NewViewMethods.CountA1` | consensus/obcpbft/viewchange.go:464-478 | the A1 loop counts the view-changes that satisfy A1 for the entry |
| `NewViewMethods.CountA2` | consensus/obcpbft/viewchange.go:484-493 | the A2 loop adds up matching Q entries |
| `NewViewMethods.CountNull` | consensus/obcpbft/viewchange.go:507-518 | the null loop counts view-changes without a P entry for the number |
| `NewViewMethods.SelectRequest` | consensus/obcpbft/viewchange.go:459-527 | for one number: the first P entry in loop order that passes A1 and A2, else the null request on a quorum, else nothing |
| `NewViewMethods.AssignSequenceNumbers` | consensus/obcpbft/viewchange.go:451-537 | the X set as a function of the V set and the start |
| `NewViewSafety.AssignmentShape` | consensus/obcpbft/viewchange.go:451-537 | for L >= 1, no result if and only if some number of the window meets neither rule; otherwise the keys are exactly h+1..top, every value passed A1 and A2 or is null with a quorum reporting no P entry, and only null numbers lie above top |
| `NewViewSafety.CandidateIsCommitted` | consensus/obcpbft/viewchange.go:464-493 | A1 and A2 let through no digest but the one that may have committed at the number, whatever the watermarks of the committers |
| `NewViewSafety.NoNullForCommitted` | consensus/obcpbft/viewchange.go:507-518 | a number with a commit quorum can reach a null quorum only through the voice of a correct committer whose watermark has passed it |
| `NewViewSafety.AssignmentKeepsCommitted` | consensus/obcpbft/viewchange.go:451-537 | over a well-formed V set, with the number in the window, X maps a committed number to its digest if and only if the number is not left to the null request, that is, some P entry passes A1 and A2 or there is no null quorum |
| `NewViewLimits.NullRuleExact` | consensus/obcpbft/viewchange.go:507-518 | the null count equals the protocol's count (which asks for H below n) if and only if every view-change with H at n or above still lists n in P |
| `NewViewLimits.LowNullNeverLoses` | consensus/obcpbft/viewchange.go:507-518 | with the protocol's null rule a committed number is never lost, whatever the low watermarks |
| `NewViewLimits.CommittedRequestLost` | consensus/obcpbft/viewchange.go:507-527 | with the code's rule it can be: four well-formed view-changes for a view whose primary is the faulty replica, one with H past the number, from which a committed request is replaced by the null request |
| `NewViewLimits.CommittedRequestKept` | consensus/obcpbft/viewchange.go:464-527 | a watermark past the number does no harm as long as A1 and A2 are met: the same view-changes with one more report keep the request |
| `LostRequest.RequestLost` | consensus/obcpbft/viewchange.go:507-527 | a run in which V sets are well formed and requests stored, and yet one correct replica executes the request as number 1 and another the null request: without the second condition of GoodStart safety across view changes is false |
| `LostRequest.RequestKept` | consensus/obcpbft/viewchange.go:268-300 | a run that enters a later view under the hypotheses of CommittedStays, with a watermark past the committed number |
| `NewViewMethods.CheckNewView` | consensus/obcpbft/viewchange.go:282-300 | the checks of processNewView succeed if and only if some initial checkpoint of the V set leads to exactly the X set |
| `ReplicaInvariant.ActionKeeps` | consensus/obcpbft/pbft-core.go:502-1053 | every action of a replica keeps the local invariant: certificates belong to the current view, proposals to an entered view, P and Q to earlier views, no number exceeds h+L; h, view and seqNo never decrease and a view-change raises the view |
| `ReplicaInvariant.WatermarkCore` | consensus/obcpbft/pbft-core.go:824-869 | all callers of moveWatermarks raise the low watermark or leave it |
| `ReplicaInvariant.EnterViewKeeps` | consensus/obcpbft/viewchange.go:350-392 | entering a view keeps the invariant and leaves every X entry above the watermark pre-prepared |
| `ReplicaInvariant.SendViewChangeKeeps` | consensus/obcpbft/viewchange.go:49-149 | leaving a view keeps the invariant |
| `ReplicaWatermarks.InWExactIff` | consensus/obcpbft/pbft-core.go:290-292 | the wrapping window test equals h < n <= h+L for every n if and only if h+L does not overflow 64 bits |
| `SystemRuns.RunInv` | consensus/obcpbft/pbft-core.go:433-1008 | with at most f faulty replicas that send anything under their own id, the system invariant holds in every state of every run |
| `SystemSteps.PreparedIsCertified` | consensus/obcpbft/pbft-core.go:352-377 | prepared at a correct replica means that the proposal and enough prepares of distinct backups were sent |
| `SystemSteps.CommittedIsCertified` | consensus/obcpbft/pbft-core.go:379-400 | committed at a correct replica means that a prepared certificate and commits of an intersection quorum of distinct replicas exist |
| `PbftSafety.CertificatesAgree` | consensus/obcpbft/pbft-core.go:320-377 | two prepared certificates of one view and number are for the same digest |
| `PbftSafety.AgreementWithinView` | consensus/obcpbft/pbft-core.go:352-377 | in every run no two correct replicas prepare different digests at the same view and number, at whatever two moments, whether the pre-prepare came in a message or from a new-view |
| `PbftSafety.CommitCertificateSound` | consensus/obcpbft/pbft-core.go:379-400 | committed(d, v, n) at a correct replica means that at least intersectionQuorum - f correct replicas sent a commit for exactly d there, each after a moment at which it had prepared exactly d, although the counter does not compare digests |
| `PbftSafety.CommitAfterPrepare` | consensus/obcpbft/pbft-core.go:675-695 | in every run a commit of a correct replica comes after a state in which that replica has prepared its digest |
| `CrossViewSafety.NewViewKeeps` | consensus/obcpbft/viewchange.go:268-300 | a new-view that a correct replica enters after d committed at n, starting below n, assigns d to n: always if every view-change in it whose watermark has reached n still lists n, and otherwise if n is not left to the null request |
| `CrossViewSafety.CommittedStays` | consensus/obcpbft/viewchange.go:49-149 | safety across view changes: once d has a commit certificate at (v, n), every pre-prepare a correct replica ever holds for n in a later view is for d |
| `CrossViewSafety.CommittedStaysBelow` | consensus/obcpbft/viewchange.go:507-527 | in particular well-formed V sets whose low watermarks all lie below n are enough: by quorum intersection the null request cannot win there |
| `CrossViewSafety.CommitsAgree` | consensus/obcpbft/pbft-core.go:379-400 | any two commit certificates for one number agree, whatever their views; within one view without any hypothesis |
| `ExecutionOrder.RunExecutes` | consensus/obcpbft/pbft-core.go:763-822 | in every run a correct replica executes each number right after its predecessor or the number it skipped to, and only digests with a commit certificate |
| `ExecutionOrder.NumbersFromOne` | consensus/obcpbft/pbft-core.go:766-785 | until the first skip the executed numbers are 1, 2, 3, ... |
| `ExecutionOrder.ExecutionsAgree` | consensus/obcpbft/pbft-core.go:763-822 | what two correct replicas execute for one number, at any two moments and across skips, is the same digest |
| `ExecutionOrder.ExecutionPrefix` | consensus/obcpbft/pbft-core.go:725-822 | the requests executed by two correct replicas before their first skips are prefixes of one another |
| `CheckpointSafety.MatchingCountsReplicas` | consensus/obcpbft/pbft-core.go:967-974 | counting matching entries of checkpointStore counts distinct replicas |
| `CheckpointSafety.RunAttested` | consensus/obcpbft/pbft-core.go:949-1008 | in every run a stabilised id was sent by an intersection quorum, and ids in chkpts and C sets were sent by their replica |
| `CheckpointSafety.StableCheckpointsAgree` | consensus/obcpbft/pbft-core.go:949-1008 | two correct replicas move the watermark on quorums for different ids at one number only if some correct replica issued both ids for that number |
| `CheckpointSafety.TwoIdsForOneNumber` | consensus/obcpbft/pbft-core.go:740-761 | which a correct replica may do: the callback files ids under lastExec, so two callbacks without an execution between them issue two ids for one number |
| `CheckpointSafety.FallBehindVouched` | consensus/obcpbft/pbft-core.go:871-915 | a jump of the watermark to m implies that a correct replica sent a checkpoint at m or later |
| `CheckpointSafety.WeakSkipVouched` | consensus/obcpbft/pbft-core.go:917-947 | a skip on a weak certificate goes to a checkpoint that a correct replica sent |
| `CheckpointSafety.WatermarksVouched` | consensus/obcpbft/pbft-core.go:824-869 | in every run in which the bases skipped to are carried by more than f replicas, the low watermark of a correct replica is 0 or lies at or below a checkpoint sent by a correct replica |
| `CheckpointSafety.WellFormedBaseCarried` | consensus/obcpbft/viewchange.go:404-436 | in a well-formed V set the base is carried by more than f replicas; in others one replica may decide (NewViewLimits.OneReplicaDecides) |
| `ViewEntryRuns.SkippedAlone` | consensus/obcpbft/viewchange.go:268-300 | without that condition it is false: a run in which a correct replica moves its watermark to any checkpoint a faulty replica likes, while no correct replica has sent one that far |
| `CheckpointSafety.RunAdvances` | consensus/obcpbft/pbft-core.go:824-869 | view, low watermark and sequence number of a correct replica never decrease in any run |
| `ReplicaChains.ChainIsRun` | consensus/obcpbft/pbft-core.go:433-500 | what a handler of a correct replica does on messages that were sent is a sequence of steps of the system, provided that the view-changes of the new-views it stores were issued by their replicas, before or within the handler |
| `GoodRuns.RequestExecuted` | consensus/obcpbft/pbft-core.go:502-822 | for every request and every set of at most f faulty replicas that does not contain the first primary there is a run in which every correct replica executes the request, and in it the hypotheses of safety across view changes hold |
| `RetainedRequests.PreparedIffStored` | consensus/obcpbft/viewchange.go:61-80 | a view-change lists a number prepared in the view being left, in P, if and only if the request is still stored |
| `RetainedRequests.PrePreparedIffStored` | consensus/obcpbft/viewchange.go:87-108 | likewise for Q |
| `RetainedRequests.JumpRetainsIff` | consensus/obcpbft/pbft-core.go:896-912 | after a jump of the watermark, which empties the request store, the proposed requests are still stored if and only if only null requests are proposed beyond the jump |
| `RetainedRequests.MoveRetainsIff` | consensus/obcpbft/pbft-core.go:824-838 | after an ordinary move of the watermark, which deletes the requests of the certificates it passes, the proposed requests are still stored if and only if each was stored and is not proposed at a passed number as well |
| `RetainedRequests.MoveLosesIff` | consensus/obcpbft/pbft-core.go:825-832 | a replica that had all proposed requests loses one by a move if and only if some request is proposed on both sides of the new watermark |
| `PbftCore.Replica.constructor` | consensus/obcpbft/pbft-core.go:157-225 | the initial state; N >= 3f+1 is required |
| `PbftCore.Replica.ExecuteOne` | consensus/obcpbft/pbft-core.go:763-822 | executes exactly when the number is next, no skip is in progress and the certificate is committed |
| `PbftCore.Replica.ExecuteOutstanding` | consensus/obcpbft/pbft-core.go:725-738 | terminates, and no certificate is left that could be executed |
| `PbftCore.Replica.HandleCommit` | consensus/obcpbft/pbft-core.go:697-723 | a commit is taken in once per replica inside the window, and then everything executable is executed |
| `PbftCore.Replica.MaybeSendCommit` | consensus/obcpbft/pbft-core.go:675-695 | a commit is sent and taken in by its sender exactly when prepared and not yet sent |
| `PbftCore.Replica.HandlePrepare` | consensus/obcpbft/pbft-core.go:643-673 | a prepare is taken in once per backup inside the window, and the commit that is then due is sent and taken in: the new state is a function of the old one and the message, up to what gets executed |
| `PbftCore.Replica.HandlePrePrepare` | consensus/obcpbft/pbft-core.go:572-641 | a proposal is stored unless it contradicts the stored one, and answered by a prepare if its request is known or comes with it |
| `PbftCore.Replica.HandleRequest` | consensus/obcpbft/pbft-core.go:502-551 | a valid request is stored; the primary of an active view gives it the next number of the window unless another number has it, and an invalid one changes nothing |
| `PbftCore.Replica.ResubmitRequests` | consensus/obcpbft/pbft-core.go:553-570 | only a primary resubmits; afterwards, in an active view, every request that was outstanding has been executed, is proposed or is invalid, unless the window is used up |
| `ReplicaLog.RequestProposed` | consensus/obcpbft/pbft-core.go:511-548 | a primary with a free number has the request proposed after recvRequest, and no proposal is lost |
| `ReplicaLog.RequestKeepsAttended` | consensus/obcpbft/pbft-core.go:553-570 | taking one request again never undoes what was done for another |
| `ReplicaWatermarks.Trim` | consensus/obcpbft/pbft-core.go:824-867 | the loops of moveWatermarks drop exactly what lies at or below the new watermark |
| `ReplicaWatermarks.WeakHigh` | consensus/obcpbft/pbft-core.go:886-901 | sorting and indexing give the (f+1)-th largest recorded number |
| `PbftCore.Replica.WeakCheckpointSetOutOfRange` | consensus/obcpbft/pbft-core.go:871-915 | jumps exactly when the checkpoint is not below the high watermark and f+1 recorded numbers exceed it, and then to the (f+1)-th largest |
| `PbftCore.Replica.WitnessCheckpointWeakCert` | consensus/obcpbft/pbft-core.go:917-947 | skips to the checkpoint if a starting point is being looked for and the id decodes, else changes nothing |
| `PbftCore.Replica.HandleCheckpoint` | consensus/obcpbft/pbft-core.go:949-1008 | the watermark jumps exactly as above; otherwise the report is recorded, a checkpoint outside the window is ignored, and one inside is stored and leads to a skip, or to a stable checkpoint after which a waiting new-view is processed, or to nothing, exactly by the counts; h and view never decrease |
| `PbftCore.Replica.CheckpointTaken` | consensus/obcpbft/pbft-core.go:740-761 | only multiples of K are checkpointed; the id is filed under lastExec and the own checkpoint is taken in like any other |
| `ReplicaViewChange.CollectP` | consensus/obcpbft/viewchange.go:56-80 | the loop over a P set that is being changed computes the P set of the view being left |
| `ReplicaViewChange.CollectQ` | consensus/obcpbft/viewchange.go:82-108 | likewise for Q |
| `ReplicaViewChange.LeaveView` | consensus/obcpbft/viewchange.go:49-120 | the state after sendViewChange |
| `ReplicaViewChange.Announce` | consensus/obcpbft/viewchange.go:122-143 | the message lists C, P and Q completely and without repetition |
| `ReplicaViewChange.IsCorrect` | consensus/obcpbft/viewchange.go:28-47 | correctViewChange |
| `ReplicaViewChange.LaterViews` | consensus/obcpbft/viewchange.go:167-188 | the replicas asking for later views, and the smallest such view |
| `ReplicaViewChange.TakeView` | consensus/obcpbft/viewchange.go:353-382 | the two loops of processNewView2 |
| `ReplicaViewChange.OwnPreparesKnown` | consensus/obcpbft/viewchange.go:370-382 | the prepares a backup broadcasts on entering a view come back to it as duplicates |
| `EnteringViews.EnteredUnsentIff` | consensus/obcpbft/viewchange.go:350-382 | right after a view is entered a number of the X set is prepared with no commit sent if and only if its request is known and the stored prepares, with the own one at a backup, make a quorum: the own prepare comes back as a duplicate and triggers nothing |
| `EnteringViews.FurtherPrepareCommits` | consensus/obcpbft/pbft-core.go:661-673 | from there the commit is sent when a further prepare is taken in, exactly if it is for the same digest |
| `ViewEntryRuns.CommitHeldBack` | consensus/obcpbft/viewchange.go:350-382 | a run of four replicas that ends in such a state: a backup is in view 1, prepared, with no commit sent, and takes in no further prepare for the number but that of the one remaining backup |
| `EnteringViews.OwnViewChangeIff` | consensus/obcpbft/viewchange.go:28-143 | the view-change a replica sends is correct if and only if its P, Q and reportable certificates lie above its watermark and its checkpoints within its window |
| `EnteringViews.EnteringGoesBelowIff` | consensus/obcpbft/viewchange.go:350-368 | entering a view brings a certificate at or below the watermark if and only if the X set reaches there |
| `EnteringViews.OnlyEnteringGoesBelow` | consensus/obcpbft/pbft-core.go:502-1053 | no other action brings a certificate, P or Q entry at or below the watermark |
| `EnteringViews.AheadOfViewRefused` | consensus/obcpbft/viewchange.go:49-149 | a replica ahead of the view it enters, that leaves it with the request of a number at or below its watermark still known, sends a view-change that it refuses itself |
| `ViewEntryRuns.AheadOfView` | consensus/obcpbft/viewchange.go:268-300 | a run in which a correct replica that is ahead of view 1 waits for it, and would at that moment send an acceptable view-change |
| `ViewEntryRuns.OwnViewChangeRefused` | consensus/obcpbft/viewchange.go:28-47 | a run in which that replica has entered the view and left it, and has sent a view-change that nobody accepts |
| `PbftCore.Replica.SendViewChangeTo` | consensus/obcpbft/viewchange.go:49-149 | the view strictly increases, the replica asks for exactly the target view, takes in its own view-change if that verifies and is acceptable, and the recursion terminates |
| `PbftCore.Replica.HandleViewChange` | consensus/obcpbft/viewchange.go:151-210 | stores exactly the view-changes that verify and are correct and new; then asks for the smallest later view if f+1 replicas ask for later ones, else composes a new-view if it is due, else processes the one it has; terminates |
| `PbftCore.Replica.SendNewView` | consensus/obcpbft/viewchange.go:212-245 | a new-view is sent and processed unless there is one already or the stored view-changes leave no starting point or no assignment; terminates, because a primary's own new-view passes its own checks |
| `PbftCore.Replica.ProcessNewView` | consensus/obcpbft/viewchange.go:268-348 | leaves the view if and only if the new-view of an inactive view fails the checks; otherwise enters it unless requests are missing or the base checkpoint does not decode; terminates |
| `ReplicaViewChange.JoinUsesFuel` | consensus/obcpbft/viewchange.go:172-190 | the measure of the recursion drops when a later view is joined |
| `ReplicaViewChange.RefusalUsesFuel` | consensus/obcpbft/viewchange.go:282-300 | the measure of the recursion drops when a new-view is refused |
| `PbftCore.Replica.ReachBase` | consensus/obcpbft/viewchange.go:302-315 | a replica behind the base checkpoint moves its watermark there and skips to it if the id decodes |
| `PbftCore.Replica.NoteMissingRequests` | consensus/obcpbft/viewchange.go:317-339 | exactly the requests of the X set above the watermark that are not stored are marked missing |
| `PbftCore.Replica.RecvPrePrepare` | consensus/obcpbft/pbft-core.go:572-641 | a handler run from start to end is a legal chain of actions on the message given, with the effect of a proposal as a function of the state |
| `PbftCore.Replica.RecvPrepare` | consensus/obcpbft/pbft-core.go:643-673 | likewise, with the effect of a prepare |
| `PbftCore.Replica.RecvCommit` | consensus/obcpbft/pbft-core.go:697-723 | likewise, and nothing executable is left |
| `PbftCore.Replica.RecvRequest` | consensus/obcpbft/pbft-core.go:502-551 | likewise, with the effect of a request as a function of the state |
| `PbftCore.Replica.RecvCheckpoint` | consensus/obcpbft/pbft-core.go:949-1008 | likewise, with the outcome described for HandleCheckpoint |
| `PbftCore.Replica.RecvViewChange` | consensus/obcpbft/viewchange.go:151-210 | likewise, with the outcome described for HandleViewChange |
| `PbftCore.Replica.RecvNewView` | consensus/obcpbft/viewchange.go:247-266 | stores exactly the new-views of the right primary for this view or later whose signatures all verify, and processes the new-view of the current view |
| `PbftCore.Replica.RecvReturnRequest` | consensus/obcpbft/pbft-core.go:1043-1053 | only a missing request is taken, and the new-view is processed again |
| `PbftCore.Replica.TimerExpired` | consensus/obcpbft/pbft-core.go:254-278 | the view strictly increases and the replica asks for the next view |
| `StateTransfer.StateTransferState.SyncBlocks` | consensus/statetransfer/statetransfer.go:466-559 | whatever the peers send, success means a hash chain from the requested head down to the lowest block; nothing outside the range is written, the cursor stays in it, and what lies above the cursor is linked; a panic needs overwriting to be off and a stored block that is not of the chain; if one of the peers serves the chain, nothing but such a panic prevents success |
| `StateTransfer.StateTransferState.TakeBlock` | consensus/statetransfer/statetransfer.go:503-542 | a wanted block is refused exactly if its hash is not the expected one; otherwise the cursor moves on or the sync is done |
| `StateTransfer.StateTransferState.StoreBlock` | consensus/statetransfer/statetransfer.go:515-534 | without permission to overwrite, an existing block is kept if its hash is equal and is fatal otherwise |
| `PeerAnswers.ChainDetermined` | consensus/statetransfer/statetransfer.go:466-559 | two stores linked from the same head hold the same hashed blocks, so what was assembled from several peers is the chain of the head |
| `StateTransfer.StateTransferState.ReadBlocks` | consensus/statetransfer/statetransfer.go:487-545 | whatever a message holds, the cursor and the store stay consistent; if its blocks are those of the chain, the cursor passes exactly the ones that are next |
| `PeerAnswers.ServerHelps` | core/peer/handler.go:428-463 | the answer of the repository's own block server is one that helps, so one such peer suffices for a block sync |
| `StateTransfer.StateTransferState.PlayStateUpToBlockNumber` | consensus/statetransfer/statetransfer.go:993-1070 | success means that the committed state is the one the last block names, whatever the messages covered; it succeeds if the first peer that answers serves the deltas that lead through the states the blocks name; unless a block is missing, the group is left open exactly if a message opened it and did not decode, and then no later peer can help |
| `StateTransfer.StateTransferState.PlayMessage` | consensus/statetransfer/statetransfer.go:1010-1060 | from a steady state the first delta of a message is committed exactly if all decode and the block the message ends at names the state it leads to; the group is left open exactly if the message opens it and then breaks off, because a later delta does not decode or the block is missing; while such a group is open no message changes the state |
| `StateTransfer.StateTransferState.ApplyDeltas` | consensus/statetransfer/statetransfer.go:1014-1020 | only the first delta of a message has an effect, and none while a group is open; it fails exactly if a delta does not unmarshal |
| `StateTransfer.StateTransferState.SyncStateSnapshot` | consensus/statetransfer/statetransfer.go:1075-1132 | nothing is left uncommitted; with no group open and a reliable disk it succeeds exactly if some peer sends a complete snapshot, and the state is what the first such makes; while a group of deltas is left open no snapshot that carries data can be taken |
| `StateTransfer.StateTransferState.EnsureBlocks` | consensus/statetransfer/statetransfer.go:820-850 | afterwards the advertised block is stored and heads a chain down to the requested block; it succeeds if a peer serves the chain and nothing is in the way |
| `StateTransfer.StateTransferState.Attempt` | consensus/statetransfer/statetransfer.go:768-893 | a nil result means that the stored block at the target has the advertised hash and that the committed state is that block's, whatever earlier attempts left behind; with a state to start from, the hash of the target, a peer with the chain and the deltas it completes |
| `StateTransfer.StateTransferState.AwaitReply` | consensus/statetransfer/statetransfer.go:793-818 | waits for the first block hash that is not behind the state, unless the one at hand is not |
| `StateTransfer.StateTransferState.Transfer` | consensus/statetransfer/statetransfer.go:896-944 | the same over any number of attempts with any inputs |
| `LedgerStack.Stack.CommitStateDelta` | core/ledger/ledger.go:275-282 | only the open group can be committed, and on a reliable disk it is; a failed write leaves an unknown state |
| `LedgerStack.Stack.ApplyStateDelta` | core/ledger/ledger.go:263-271 | has no effect while a group is open |
| `LedgerStack.Stack.RollbackStateDelta` | core/ledger/ledger.go:286-293 | drops the pending changes of the open group only |
| `LedgerStack.Stack.PutBlock` | core/ledger/blockchain.go:225-259 | stores the block; the height only grows |
| `SieveVote.VerifyDset` | consensus/obcpbft/obc-sieve.go:449-465 | returns a group of at least f+1 equal results if there is one, else everything |
| `SieveVote.DsetDeterminedIff` | consensus/obcpbft/obc-sieve.go:449-465 | the outcome is independent of the map order if and only if at most one result is backed by f+1 |
| `SieveVote.FewVerifiesOneBacked` | consensus/obcpbft/obc-sieve.go:430-432 | which is so for at most 2f+1 verifies |
| `SieveVote.TwoBackedResults` | consensus/obcpbft/obc-sieve.go:449-465 | and not for 2f+2 |
| `SieveVote.DsetIdempotent` | consensus/obcpbft/obc-sieve.go:449-465 | verifyDset is idempotent on every input and in every order |
| `SieveVote.CoherentIff` | consensus/obcpbft/obc-sieve.go:521-527 | it leaves a set unchanged if and only if the set is unanimous and backed, or no result is backed |
| `SieveVote.ValidateVerifySet` | consensus/obcpbft/obc-sieve.go:484-530 | accepts exactly the signed, consistent sets of the primary from distinct replicas that are unanimous on f+1 or leave every result without f+1 |
| `SieveReplica.Sieve.ProcessExecute` | consensus/obcpbft/obc-sieve.go:272-321 | starts at most one execution, of the block after the last decided one, exactly if the execute of the epoch's primary is queued and valid; decides nothing |
| `SieveReplica.Sieve.RecvExecute` | consensus/obcpbft/obc-sieve.go:260-270 | an execute of a current or later view from its primary is queued, one per replica, and what can start starts |
| `SieveReplica.Sieve.ProcessRequest` | consensus/obcpbft/obc-sieve.go:239-258 | an idle primary sends an execute for the oldest transaction and the block after the last decided one, and takes it in; otherwise nothing happens |
| `SieveReplica.Sieve.RecvRequest` | consensus/obcpbft/obc-sieve.go:225-237 | only an active primary queues a transaction, and starts on the oldest if idle; none is lost |
| `SieveReplica.Sieve.RecvVerify` | consensus/obcpbft/obc-sieve.go:395-447 | exactly the awaited verifies are stored, one per replica, and the 2f+1st makes a verify-set, which every replica accepts if the stored verifies are fresh |
| `SieveReplica.Sieve.Settle` | consensus/obcpbft/obc-sieve.go:644-695 | the open execution ends in exactly one commit or rollback, or a skip takes its place |
| `SieveReplica.Sieve.ExecuteVerifySet` | consensus/obcpbft/obc-sieve.go:600-705 | a sound verify-set has the effect the total order prescribes, whatever this replica was executing: ignored ones change nothing, any other ends the execution as agreed and the replica turns to the next one |
| `SieveReplica.Sieve.ExecuteFlush` | consensus/obcpbft/obc-sieve.go:707-725 | a flush that is not old advances the epoch, empties the queue and rolls back an open execution |
| `SieveReplica.Sieve.Run` | consensus/obcpbft/obc-sieve.go:600-725 | over any inputs blockNumber is the last decided block, plus one exactly while a request is executed; with at most f faulty replicas and only accepted verify-sets in it, the total order alone determines the decisions |
| `SieveReplica.DecidedOnce` | consensus/obcpbft/obc-sieve.go:612-622 | no block is decided twice and decisions are final |
| `SieveReplica.AcceptedIsSound` | consensus/obcpbft/obc-sieve.go:484-530 | a verify-set that validateVerifySet accepts is agreed on a result for its block or has no backed result, if at most f replicas are faulty and correct ones verify a block with a result for it |
| `LedgerChain.Ledger.CommitTxBatch` | core/ledger/ledger.go:114-152 | succeeds exactly for the open batch and without a fault; then one block, the previewed one, is appended and the state changes are permanent; a failure changes neither the log nor the database nor what is kept in memory of them |
| `LedgerChain.Ledger.GetTXBatchPreviewBlock` | core/ledger/ledger.go:98-109 | gives, for the open batch, the block a commit would write but for data that is not hashed |
| `LedgerChain.Ledger.BeginTxBatch` | core/ledger/ledger.go:84-91 | only one batch is open at a time |
| `LedgerChain.Ledger.RollbackTxBatch` | core/ledger/ledger.go:156-164 | discards exactly the changes of the open batch |
| `LedgerChain.Ledger.Run` | core/ledger/ledger.go:84-164 | over any run of begins, changes, commits, rollbacks and restarts, with any faults, the database with its index, counters and cached fields does what a plain list of blocks with a state would do |
| `LedgerChain.LogOnlyGrows` | core/ledger/ledger.go:114-152 | in every run committed blocks stay, each links to its predecessor, and the last one names the committed state |
| `LedgerChain.Ledger.VerifyChain` | core/ledger/ledger.go:352-386 | 0 without error if and only if every link of an in-bounds range holds, which is always so on a ledger built by commits; another number without error is the highest broken link; an error means out of bounds or a missing block |
| `LedgerChain.Ledger.CommittedLinksHold` | core/ledger/ledger.go:352-386 | on a ledger built by commits every link holds |
| `LedgerChain.Ledger.Restart` | core/ledger/blockchain.go:51-75 | nothing committed is forgotten, and what is read back is what was kept in memory |
| `LedgerChain.RebuildMatches` | core/ledger/blockchain.go:51-75 | size and previous hash are rebuilt from the database |
| `LedgerChain.HoldsOneMore` | core/ledger/blockchain.go:187-211 | the puts of a new block turn a database that holds a log into one that holds the longer log |
| `LedgerChain.Ledger.AddIndexData` | core/ledger/blockchain_indexes.go:85-116 | the index entries of a block |
| `LedgerIndex.DistinctHashes` | core/ledger/blockchain.go:181-185 | all blocks of a hash-linked log have distinct hashes |
| `LedgerIndex.HashIndexEqualsScan` | core/ledger/blockchain_indexes.go:85-125 | the hash index files exactly the blocks of the chain, each under its number |
| `LedgerIndex.TxIndexEqualsScan` | core/ledger/blockchain_indexes.go:85-136 | the transaction index files exactly the last place of every UUID that occurs |
| `LedgerChain.Ledger.GetBlockByHash` | core/ledger/blockchain.go:106-112 | the hash of a block finds it; any other hash finds block 0 of a chain that is not empty |
| `LedgerChain.Ledger.GetTransactionByUUID` | core/ledger/blockchain.go:114-125 | the last transaction with the UUID, or not found exactly when there is none |
| `LedgerEncoding.VarintRoundTrip` | core/ledger/blockchain_indexes.go:157-164 | decoding a varint undoes encoding, whatever follows |
| `LedgerEncoding.BlockNumTxIndexRoundTrip` | core/ledger/blockchain_indexes.go:167-185 | block number and place survive encoding |
| `LedgerEncoding.KeysApart` | core/ledger/blockchain_indexes.go:188-222 | index keys of different kinds never collide, and a key determines what it was made of |
| `LedgerEncoding.AddressKeyInjective` | core/ledger/blockchain_indexes.go:197-202 | the composite key determines address and block number |
| `LedgerEncoding.BlockKeysApart` | core/ledger/blockchain.go:330-348 | block keys differ from each other and from the count key |

## Left out

- Timers, locks, goroutines and channels around the handlers; in state transfer a request to exit is only modelled while a hash is awaited.
- Liveness beyond single good runs; what the code does to it is stated in EnteringViews.
- The `replicas` results and peer lists, which are hints about whom to contact; the random starting peer of tryOverPeers.
- recvFetchRequest and the network side of fetchRequests.
- VerifyAndRecoverBlockchain and its block ranges, and overwriting of blocks by persistRawBlock in the ledger and index claims.
- The asynchronous indexer; transaction boundaries inside a batch (TxBegin, TxFinished); range scans and snapshots of the state.
- obc-executor, obc-batch, obc-classic, noops, chaincode, containers, peer streams, REST, CLI, configuration, generated code, core/crypto.
- Sieve's Validate callback and validateFlush: the verify it sends and the result channel are inputs and trace events.
- PbftCore.Replica.RecvPrePrepare: a pre-prepare under the own id must be for a number this replica has assigned, as the sender check makes sure.
- PbftCore.Replica.RecvPrepare: a prepare under the own id must find the view entered, as the sender check makes sure.
- ReplicaWatermarks.InWExactIff: elsewhere h, L and sequence numbers are unbounded, so overflow of h+L is covered by this lemma only.
- StateTransfer.StateTransferState.PlayStateUpToBlockNumber: success is only promised if the first peer that answers is helpful, because an earlier one can move the state ahead of the cursor (PlayMessage commits the state of the block a message ends at, but the cursor advances by one) or leave a group open.
- LedgerChain.Ledger.CommitTxBatch: the height and the number of transactions of a block stay below 2^64.
- CrossViewSafety.CommittedStays: under the hypotheses above; without the second condition of GoodStart the statement is false, as LostRequest.RequestLost shows.
- StateTransfer.StateTransferState.SyncBlocks: asks for low <= high, which its caller in state transfer guarantees; PutBlock and hashing of stored blocks do not fail.

# Freestore: a verified model of its protocols

Freestore is a replicated register whose set of servers can be changed while it is in use. Clients read and write by
quorums of a *view*; servers move from one view to the next by agreeing on a sequence of views, either with a
consensus-free *view generator* or with a single-instance Paxos, and hand over their state when they install it.

This project models those protocols and proves what they keep over whole runs: every interleaving, any number of
clients, proposers and installed views, with requests lost or delayed for ever and processes that stop at any point.

## How it is built

| files | what they hold |
|---|---|
| `Views`, `ViewSeqs`, `Addresses`, `ViewRefs` | views as sets of updates, the comparison loops, quorums, view sequences, member positions, canonical references |
| `RegisterSystem`, `RegisterInvariants`, `RegisterOrder`, `RegisterTheorems`, `RegisterProgress` | the register with view installation as one transition system, its invariants, the ordering and state-transfer theorems, and that operations and installs can always go on while quorums are up |
| `Runs`, `RegisterRuns`, `Handover`, `RegisterNested` | building runs step by step; a register that moves to a server set disjoint from the old one; what happens when servers skip views |
| `Linearizability`, `TwoWriters` | linearizability for one writing client, and why it is exactly that |
| `Consensus`, `ConsensusAgreement`, `ConsensusLeader`, `ConsensusTriples`, `ConsensusDisagreement`, `ConsensusProgress` | Paxos as a transition system, rounds that can always succeed, agreement for many proposers, the single leader with its learners, and the view sizes for which agreement needs no hypothesis |
| `ViewGenerator`, `ViewGeneratorChains`, `ViewGeneratorConvergence`, `ViewGeneratorRepeats`, `ViewGeneratorDivergence`, `ViewGeneratorTermination`, `ViewGeneratorNested` | the view generator as a transition system, its invariants, convergence, the view sizes for which it is safe, the conflict-free case, and which view gets installed |
| `Reconfiguration` | one server's runs: pending updates, view growth, the register lock |
| `QuorumCounters`, `QuorumWaits`, `Client`, `Server`, `ConsensusWorker`, `ViewGeneratorWorker` | the imperative code: counters, wait loops, and the client, server, consensus and generator objects, each method against a function of its state |
| `ServerRefinement` | the server object against the register system: its answers and changes of state are those of the steps |

A transition system is a state, a set of events with a guard `Enabled`, and a function `Next`; a run is a sequence of
states and of the events between them. A state holds the processes and, beside them, the messages ever sent and who has
handled them (`sent`, `wire`, `log`, `votes`, `prepared`, `handled`, `convs`, `gotConv`, `seen`), which the guards of
later deliveries read. Only clocks and times (`clock`, `start`, `end`, `at`), `origin`, `acked`, `prior`, `quorum`,
`base`, `voters` and `generated` are pure history, which no step reads. Invariants are quantifiers over named predicates that are their own
triggers, so that each proof names the instances it uses.

### Hypotheses

- **Chain.** The views that get installed form `w[0] < w[1] < ...`, with one install sequence per step, and a member of
  `w[i]` acts on step `i` only while its current view is `w[i]`. It is part of the register system. The generator does
  not guarantee it: even with comparable initial views all generated sequences start with the same view if and only if
  the view has at most two members (`OneInstallViewIffAtMostTwo`). And the register depends on it: if servers handle any
  newer install sequence, as the code lets them, timestamps follow real time in all runs if and only if there is no
  third view (`OrderedIffNothingToSkip`); going step by step they always do.
- **No repeats.** No worker broadcasts the same proposal with the same last converged sequence twice. It is not
  automatic: a worker that resolves a conflict can send its first proposal again, and the counter counts it
  (`RepeatsAreCounted`). In a view of at most three members it is not needed, in every larger one it is: without it
  two incomparable sequences can be generated (`AgreeIffAtMostThree`). It is proved, not assumed, when the initial
  views are comparable.
- **Prepare first.** An acceptor handles Accept(n) only after Prepare(n). Many-proposer agreement, with the proposal
  numbers members draw, holds without it exactly in views of 0, 1, 2 or 4 members, or if only one sequence can be
  proposed (`AgreementIffThreeQuorumsMeet`), and with it in all.
- **One leader.** Rounds are run one after another and a failed round ends the process. It is a premise of what the
  learner delivers.

### Where the code and its documentation differ

- `README.md` and `docs/fault-tolerance-model.md` promise linearizability. Timestamps carry no writer identity
  (pkg/client/client.go:64), and two concurrent Writes can share one. The guarantee holds for all runs exactly when at most
  one client writes: `LinearizableIffOneWriter`. For many writers `TimestampsFollowRealTime` is what remains.
- A comment on the server says the register is locked only once per sequence of installs. A server that joins in the
  middle of a sequence is already locked without that record, and blocks for ever on its own lock: `JoinerDeadlocks`,
  with the exact condition over runs in `DeadlockIffStillJoining`.
- A quorum of equal proposals is meant to be a quorum of senders: the comparison is named for it
  (pkg/server/viewgenerator.go:280). It looks only at the first sender stored, so a repeated proposal is counted again,
  and with four or more members two incomparable sequences can be generated: `DivergenceHappens`.
- `startReconfiguration` checks for pending updates and reads them in two critical sections. An install in between can
  consume them, and the server then proposes the view it has: `RaceProposesTheSameView`, `StrictIffPending`.

## Model

| member | source | states |
|---|---|---|
| `Views.LeaversNeverReturn` | pkg/view/view.go:49-63 | a process that left a view is in no more updated one |
| `Views.QuorumSizeIsMajority` | pkg/view/view.go:187-195 | the two rounded halves are the least strict majority, and what is left over is the documented number of tolerated faults |
| `Views.QuorumsIntersect` | pkg/view/view.go:187-190 | any two quorums of one view share a process |
| `Views.LessUpdatedThan` | pkg/view/view.go:83-94 | the loop with its length shortcut is "v2 is not contained in v" |
| `Views.MoreUpdatedThan` | pkg/view/view.go:96-113 | the loop with its two length tests is strict containment |
| `Views.Equal` | pkg/view/view.go:115-126 | the loop with its length test is equality of entries |
| `Views.ViewBuilder.constructor` | pkg/view/view.go:17-36 | for any updates in any order with repeats, the entries are those updates and the member cache is exact |
| `Views.ViewBuilder.AddUpdates` | pkg/view/view.go:49-63 | the loop adds the updates and keeps the cache equal to the processes with a Join and no Leave |
| `Views.GetUpdates` | pkg/view/view.go:136-142 | the list holds each entry exactly once |
| `Addresses.GetProcessPosition` | pkg/view/view.go:163-177 | the loop counts the members with a smaller address, and is -1 for outsiders |
| `Addresses.PositionsAreABijection` | pkg/view/view.go:163-177 | positions map the members one to one onto 0..n-1 |
| `Addresses.PositionsFollowAddresses` | pkg/view/view.go:163-177 | of two members the one with the lexicographically smaller address has the lower position |
| `ViewRefs.SortUpdates` | pkg/view/ref.go:19-24 | sorting in place by swaps yields a strictly sorted array of the same updates |
| `ViewRefs.SortedIsInOrder` | pkg/view/view.go:231-239 | sorted means that Joins come before Leaves and within a kind addresses increase lexicographically |
| `ViewRefs.ViewText` | pkg/view/ref.go:19-31 | what is hashed is the printing of a sorted list of exactly the entries |
| `ViewRefs.SortedIsUnique` | pkg/view/ref.go:23-24 | a view has one sorted list, so its text does not depend on map order |
| `ViewRefs.TextIsInjective` | pkg/view/ref.go:26-29 | if no address contains what the printing puts between two addresses, the text determines the list |
| `ViewRefs.TextsAgreeWithViews` | pkg/view/ref.go:19-31 | under that condition two views have the same text if and only if they are equal |
| `ViewRefs.RefsAgreeWithViews` | pkg/server/register.go:31-35 | comparing references agrees with comparing views unless the hash collides on the two texts |
| `ViewRefs.CutGivesTwin` | pkg/view/ref.go:26-29 | an update whose address can be cut into a sorted pair prints like that pair |
| `ViewRefs.TwinIff` | pkg/view/ref.go:19-31 | a view shares its text with another one if and only if it has two or more updates, or one whose address can be cut that way |
| `ViewSeqs.HasView` | pkg/server/viewseq.go:27-34 | the search is membership |
| `ViewSeqs.SequencesEqual` | pkg/server/viewseq.go:13-25 | the loop compares lengths and finds every view of one in the other |
| `ViewSeqs.EqualIsSameViews` | pkg/server/viewseq.go:13-25 | on duplicate-free sequences that is equality of the sets of views, an equivalence |
| `ViewSeqs.EqualWithDuplicates` | pkg/server/viewseq.go:13-25 | with a duplicate it is not symmetric |
| `ViewSeqs.GetLeastUpdatedView` | pkg/server/viewseq.go:36-45 | the index loop computes the fold `LeastUpdated` |
| `ViewSeqs.LeastUpdatedIsMinimum` | pkg/server/viewseq.go:36-45 | in a chain the result is an element contained in all others |
| `ViewSeqs.LeastUpdatedIsContainedInRest` | pkg/server/viewseq.go:36-45 | in any sequence it is an element contained in all that follow it |
| `ViewSeqs.GetMostUpdatedView` | pkg/server/viewseq.go:47-60 | the index loop computes the fold `MostUpdated`, the empty view for an empty sequence |
| `ViewSeqs.MostUpdatedIsMaximum` | pkg/server/viewseq.go:47-60 | in a chain the result is an element that contains all others |
| `ViewSeqs.MostUpdatedIsMaximal` | pkg/server/viewseq.go:47-60 | in any sequence no element strictly contains it |
| `ViewSeqs.HasViewMoreUpdatedThan` | pkg/server/viewseq.go:62-69 | the search finds a strictly larger view exactly when there is one |
| `ViewSeqs.AppendViews` | pkg/server/viewseq.go:71-81 | the loop computes `Append` |
| `ViewSeqs.AppendKeepsOrder` | pkg/server/viewseq.go:71-81 | the result is the first sequence followed by exactly the views it lacks, in their order |
| `ViewSeqs.AppendDistinct` | pkg/server/viewseq.go:71-81 | appending a duplicate-free sequence to one keeps it duplicate-free |
| `QuorumCounters.CountAtQuorum` | pkg/server/reconfiguration.go:112-125 | for any sequence of messages the counter answers true exactly at the quorum-th equal one |
| `QuorumCounters.AtMostOnce` | pkg/server/viewgenerator.go:236-249 | and never a second time for that content |
| `QuorumCounters.QuorumCounter.CountMessage` | pkg/server/reconfiguration.go:107-125 | the parallel lists, updated in place, are the tallies those lemmas are about |
| `QuorumCounters.SamePositions` | pkg/server/viewgenerator.go:261-271 | comparing SeqConvs position by position is equality |
| `QuorumCounters.InstallSeqEqual` | pkg/server/reconfiguration.go:440-458 | comparing install sequences is equality of all three parts |
| `QuorumCounters.CompareMessages` | pkg/server/viewgenerator.go:280-298 | the four tests are "same content, different sender" |
| `QuorumCounters.CountMsgByContent` | pkg/server/viewgenerator.go:216-229 | if equal contents have different senders, the message counter does to contents what a plain counter does |
| `QuorumCounters.CountMsgAtQuorum` | pkg/server/viewgenerator.go:216-229 | without repeats it answers true exactly at the quorum-th message of a content |
| `QuorumCounters.SendersCounted` | pkg/server/viewgenerator.go:216-229 | and then as many different senders as messages have sent that content |
| `QuorumCounters.RepeatsAreCounted` | pkg/server/viewgenerator.go:216-229 | with a repeat, a quorum of three is reached by two senders |
| `QuorumCounters.MsgCounter.CountMessage` | pkg/server/viewgenerator.go:211-229 | the parallel lists, updated in place, are the tallies those lemmas are about |
| `QuorumWaits.WaitEarlyExit` | pkg/comm/communication.go:96-113 | for any order of answers: stops within n, exactly at the quorum-th success or the first intolerable failure, and succeeds iff a quorum succeeded |
| `QuorumWaits.WaitPrepare` | pkg/consensus/consensus.go:151-182 | returns the value of the highest-numbered proposal among the first quorum of replies; waits only while neither a quorum succeeded nor too many failed |
| `Client.ReadAttempt` | pkg/client/quorum.go:20-82 | ends after the first answer that settles it: redirected only to a larger view; otherwise finds the newest of exactly a quorum of answers and whether they differ, iff a quorum answered |
| `Client.ReadEndsOnce` | pkg/client/quorum.go:30-81 | the answers determine how the attempt ends and after which answer |
| `Client.FirstPhaseIsFinishRead` | pkg/client/client.go:51-66 | a first phase that ends in the loop decides over the same answers what the FinishRead step of the register system decides |
| `Client.WriteAttempt` | pkg/client/quorum.go:88-141 | the same for acknowledgements |
| `Client.WriteEndsOnce` | pkg/client/quorum.go:100-140 | the answers determine how the attempt ends and after which answer |
| `Client.SameVerdict` | pkg/client/quorum.go:28-141 | on the answers of all members, the client's loops, which give up only when everyone answered, and the loops that stop early reach the same verdict |
| `Client.FreestoreClient.CouldGetNewView` | pkg/client/quorum.go:143-155 | the view changes only to a strictly more updated one |
| `Client.FreestoreClient.ReadQuorum` | pkg/client/quorum.go:20-82 | the result, the number of attempts and the final view are those of `ReadPhase`, which says what the attempts mean |
| `Client.FreestoreClient.WriteQuorum` | pkg/client/quorum.go:88-141 | the same with `WritePhase` |
| `Client.ReadPhaseOnce` | pkg/client/quorum.go:20-82 | the answers determine how a first phase ends, after how many attempts and in which view |
| `Client.ReadPhaseEnd` | pkg/client/quorum.go:61-70 | it fails only if everyone answered its last attempt, too many with an error, and no strictly larger view was on offer; it blocks only if answers ran out |
| `Client.ReadPhaseBounds` | pkg/client/quorum.go:20-82 | the value comes from a quorum of the view it ends in; views only grow and the attempts are bounded by the updates on offer |
| `Client.WritePhaseOnce` | pkg/client/quorum.go:88-141 | the answers determine how a second phase ends, after how many attempts and in which view |
| `Client.WritePhaseEnd` | pkg/client/quorum.go:121-135 | it fails and blocks only in those same cases |
| `Client.WritePhaseBounds` | pkg/client/quorum.go:88-141 | success means a quorum of the final view acknowledged; attempts bounded likewise |
| `Client.FreestoreClient.Write` | pkg/client/client.go:42-75 | returns an error iff a phase failed, never returns iff one blocked, succeeds iff both ended; writes the timestamp after the one its first phase found; any error is kept and returned by every later operation |
| `Client.FreestoreClient.Read` | pkg/client/client.go:77-110 | the same; returns what its first phase found, after a second phase exactly when the answers differed; sticky error; counts second phases |
| `RegisterSystem.Newest` | pkg/client/quorum.go:53-55 | the result is one of the answers or the start value, and no answer is newer |
| `RegisterSystem.NewestIsFirst` | pkg/client/quorum.go:53-55 | among equal highest timestamps the first answer wins |
| `RegisterInvariants.StepGrounded` | pkg/server/reconfiguration.go:155-207 | every step keeps: each install merged the states of a quorum of the view before, and its server carries them while it stays and when it leaves |
| `RegisterInvariants.LaterViewsAttest` | pkg/server/reconfiguration.go:338-361 | what a quorum of one view vouches for, every server of every later view holds |
| `RegisterOrder.FirstPhaseFindsReturned` | pkg/client/quorum.go:72-80 | a first phase that ends in any view finds at least the timestamp of every operation that returned before it began |
| `RegisterOrder.StepInv` | pkg/client/client.go:42-110 | every step of clients and servers keeps the operation and ordering invariants |
| `RegisterTheorems.TimestampsFollowRealTime` | pkg/client/client.go:42-110 | an operation that starts after another returned has at least its timestamp, a Write a greater one, through any installs |
| `RegisterTheorems.LaterViewsKnowReturned` | pkg/server/reconfiguration.go:375-404 | whatever returned in a view is known to every server serving a later one |
| `RegisterTheorems.InstallLosesNothing` | pkg/server/reconfiguration.go:375-404 | right after syncState the register is as new as every operation that returned in the view left or earlier |
| `RegisterTheorems.InstallKeepsAcknowledged` | pkg/server/reconfiguration.go:163-207 | the same for a timestamp that a quorum acknowledged in some view, whether the operation still runs, failed or moved on |
| `RegisterTheorems.OldViewIsSilent` | pkg/server/register.go:27-66 | once any server installed w[i+1], no operation that starts afterwards gets a quorum in w[i] |
| `RegisterTheorems.UpdatesAreConserved` | pkg/server/reconfiguration.go:492-512 | an update acknowledged by a quorum of a view is, at every server of a later view, an entry or still pending |
| `RegisterProgress.SecondPhaseIsSent` | pkg/client/quorum.go:88-95 | in every run the request of a second phase has been sent in the view its client is in |
| `RegisterProgress.OperationsCanReturn` | pkg/client/client.go:42-110 | from every reachable state an operation can return in any view, from its own on, that some quorum serves |
| `RegisterProgress.NewOperationsCanReturn` | pkg/client/client.go:42-110 | so can a new operation of a client whose operations have all returned |
| `RegisterProgress.NextViewCanBeInstalled` | pkg/server/reconfiguration.go:155-232 | from every reachable state, if a quorum of a view is in it, the servers of the next view can install and serve it |
| `RegisterProgress.InterruptedCanReturn` | pkg/client/quorum.go:38-41 | so an operation that a reconfiguration interrupts can return in the new view |
| `Handover.HandoverHappens` | pkg/server/reconfiguration.go:155-253 | there is a run, for any value and clients, in which a Write returns in a view of one server, another server alone installs the next view, and a Read there returns that value |
| `RegisterNested.StepByStepIsOrdered` | pkg/server/reconfiguration.go:155-253 | if every server installs view by view, handling any newer install sequence is the register system, and timestamps follow real time |
| `RegisterNested.SkippedWriteIsLost` | pkg/server/reconfiguration.go:375-404 | for any chain of three views there is a run in which a Write returns in the second, servers go from the first to the third with the state of the first, and a Read there misses it |
| `RegisterNested.OrderedIffNothingToSkip` | pkg/server/reconfiguration.go:155-253 | so timestamps follow real time in all such runs if and only if there is no third view |
| `Linearizability.RunValues` | pkg/server/register.go:46-66 | every content of every server, state message and answer is the initial one or what some Write chose |
| `Linearizability.DistinctWritesLinearize` | pkg/client/client.go:42-110 | if Writes have different timestamps, the operations have an order that respects real time in which each Read returns the last Write |
| `Linearizability.OneWriterDistinctWrites` | pkg/client/client.go:46-75 | with one writing client, by its mutex and sticky error, no two Writes share a timestamp |
| `Linearizability.OneValuePerTimestamp` | pkg/server/register.go:59-63 | and any two contents with one timestamp are the same |
| `Linearizability.OneWriterLinearizes` | pkg/client/client.go:42-110 | with one writing client and any readers every run is linearizable, including one-phase Reads and view changes |
| `TwoWriters.InversionHappens` | pkg/client/client.go:64-66 | for any two clients there is a run in which both Writes draw timestamp 1 and later Reads return first one value, then the other |
| `TwoWriters.LinearizableIffOneWriter` | pkg/client/client.go:64-66 | all runs with a given set of writing clients are linearizable if and only if the set has at most one member |
| `Consensus.Highest` | pkg/consensus/consensus.go:173-175 | the result is a reply or nothing, and no reply has a higher number |
| `Consensus.HighestIsFirst` | pkg/consensus/consensus.go:173-175 | among equal highest numbers the first reply wins |
| `ConsensusAgreement.StepInv` | pkg/consensus/consensus.go:67-110 | every step keeps: a reply is the sender's latest vote, and the quorum behind a round's value cast no vote since the round it came from |
| `ConsensusAgreement.LaterRoundsAgree` | pkg/consensus/consensus.go:126-182 | once a quorum accepted a round, every later round with a value has that value |
| `ConsensusAgreement.Agreement` | pkg/consensus/consensus.go:67-211 | in views of any size, with any number of proposers and Prepare before Accept, any two values accepted by a quorum are equal |
| `ConsensusTriples.WitnessKept` | pkg/consensus/consensus.go:80-110 | every step keeps: an acceptor that answered Prepare(a) in time and voted for a never again holds or reports a smaller number |
| `ConsensusTriples.AgreementInSmallViews` | pkg/consensus/consensus.go:67-211 | with no hypothesis on the order of requests, agreement holds where any three quorums share a process |
| `ConsensusDisagreement.DisagreementHappens` | pkg/consensus/consensus.go:96-110 | in every other view there is a run, with the first numbers that three members draw, in which any two given values are both accepted by a quorum |
| `ConsensusDisagreement.ValuesAreProposed` | pkg/consensus/consensus.go:126-149 | every value of a round is one that some proposer may propose |
| `ConsensusDisagreement.AgreementIffThreeQuorumsMeet` | pkg/consensus/consensus.go:67-211 | so all runs with drawn numbers agree if and only if three times the quorum size exceeds twice the members, that is for 0, 1, 2 and 4, or there is at most one sequence to propose |
| `ConsensusLeader.OneLeaderOneValue` | pkg/consensus/consensus.go:96-149 | with one leader all values ever accepted are equal |
| `ConsensusLeader.LearnerDeliversTheChosenValue` | pkg/consensus/consensus.go:111-118 | what a learner delivers is that value and a quorum accepted it, although the counter mixes rounds |
| `ConsensusLeader.DeliversIffQuorumSeen` | pkg/consensus/consensus.go:111-118 | in every run a learner has delivered if and only if it has handled a quorum of Learns |
| `ConsensusLeader.QuorumthLearnDelivers` | pkg/consensus/consensus.go:114-117 | the Learn that completes the quorum delivers exactly the value of its round |
| `ConsensusLeader.DeliveredStays` | pkg/consensus/consensus.go:114-117 | no later step changes what was delivered |
| `ConsensusProgress.RoundsCanSucceed` | pkg/consensus/consensus.go:126-211 | from every reachable state a round with an unused number above the promises of a quorum can be accepted by it, with the value it accepted last, or the proposer's own if it accepted none |
| `ConsensusProgress.LearnersCanDeliver` | pkg/consensus/consensus.go:96-118 | and then any learner can deliver |
| `ConsensusWorker.InstanceWorker.Prepare` | pkg/consensus/consensus.go:80-95 | updates the promise and replies as the step of the transition system does |
| `ConsensusWorker.InstanceWorker.Accept` | pkg/consensus/consensus.go:96-110 | overwrites the accepted proposal without raising the promise, and broadcasts Learn |
| `ConsensusWorker.InstanceWorker.Learn` | pkg/consensus/consensus.go:111-118 | counts every Learn and delivers at the quorum-th, as the learners of `DeliversIffQuorumSeen` do |
| `ConsensusWorker.ProposalNumbers.GetNextProposalNumber` | pkg/consensus/consensus.go:230-246 | draws the next number from the stored one and stores it; draws none for an empty view |
| `ConsensusWorker.DrawnByMember` | pkg/consensus/consensus.go:230-246 | a member's k-th number is (k+1)n plus its position |
| `ConsensusWorker.MembersNeverCollide` | pkg/consensus/consensus.go:230-246 | two members never draw the same number, over any numbers of calls |
| `ConsensusWorker.NumbersIncreaseIffMember` | pkg/consensus/consensus.go:230-246 | a process's numbers are positive and strictly increasing if and only if it is a member |
| `ViewGeneratorChains.MergeOk` | pkg/server/viewgenerator.go:93-135 | in both branches the merge is a duplicate-free chain whose top contains both tops and the last converged sequence |
| `ViewGeneratorChains.SequencesAreChains` | pkg/server/viewgenerator.go:45-166 | in every reachable state all sequences are duplicate-free chains, and last converged ones lie inside the top of their proposal |
| `ViewGeneratorChains.ConflictKeepsMoreUpdated` | pkg/server/viewgenerator.go:118-132 | in every run a worker that meets a conflict, the tops of the two last converged sequences being comparable, goes on with one whose top contains both tops, and sends it whole inside its new proposal |
| `ViewGeneratorChains.BroadcastIsHeld` | pkg/server/viewgenerator.go:56-70 | a worker that broadcasts SeqConvs holds the last of them as its last converged sequence right after |
| `ViewGeneratorConvergence.HitHasSupport` | pkg/server/viewgenerator.go:56-70 | a convergence has a quorum of workers that proposed the same views |
| `ViewGeneratorConvergence.SmallHitHasSupport` | pkg/server/viewgenerator.go:216-229 | and with a quorum of at most two it has one even if workers repeat themselves |
| `ViewGeneratorConvergence.ConvergedAreComparable` | pkg/server/viewgenerator.go:56-160 | without repeats, or with at most three members, the most updated views of any two converged sequences are comparable |
| `ViewGeneratorConvergence.GeneratedAreComparable` | pkg/server/viewgenerator.go:153-160 | and so are those of any two generated sequences |
| `ViewGeneratorRepeats.LeadRepeats` | pkg/server/viewgenerator.go:117-148 | a worker that added a smaller view and then meets a conflict sends its first proposal again, with the same last converged sequence |
| `ViewGeneratorRepeats.Collect` | pkg/server/viewgenerator.go:56-70 | a worker that receives a quorum of equal proposals, not all from different senders, converges |
| `ViewGeneratorDivergence.DivergenceHappens` | pkg/server/viewgenerator.go:86-160 | with four or more members, and any associated view, there is a run that generates two incomparable sequences |
| `ViewGeneratorDivergence.AgreeIffAtMostThree` | pkg/server/viewgenerator.go:86-160 | so converged, and generated, sequences are comparable in all runs if and only if the view has at most three members |
| `ViewGeneratorTermination.ConvergedAreNested` | pkg/server/viewgenerator.go:98-160 | with comparable initial views, any two converged or generated sequences are nested as sets |
| `ViewGeneratorTermination.BroadcastsAreBounded` | pkg/server/viewgenerator.go:117-148 | and the proposals ever broadcast are at most workers times distinct initial views |
| `ViewGeneratorTermination.ComparableMeansNoRepeats` | pkg/server/viewgenerator.go:117-148 | and no worker repeats itself |
| `ViewGeneratorTermination.ConflictIffIncomparable` | pkg/server/viewgenerator.go:98-115 | some run takes the conflict branch if and only if two initial views are incomparable |
| `ViewGeneratorNested.LeastIsShared` | pkg/server/reconfiguration.go:83-97 | if fewer than a quorum start without the least initial view, every generated sequence is installed from that view on |
| `ViewGeneratorNested.NestedHappens` | pkg/server/viewgenerator.go:117-160 | with three or more members and comparable initial views, [v2] and [v2, v1] can both be generated |
| `ViewGeneratorNested.OneInstallViewIffAtMostTwo` | pkg/server/reconfiguration.go:83-97 | so with comparable initial views one associated view has one install view in all runs if and only if it has at most two members |
| `ViewGeneratorWorker.Inspect` | pkg/server/viewgenerator.go:93-115 | the nested loop with its early exit finds exactly whether there are changes and a conflict |
| `ViewGeneratorWorker.GeneratorWorker.Begin` | pkg/server/viewgenerator.go:72-84 | the start of the worker is the Begin step |
| `ViewGeneratorWorker.GeneratorWorker.ResolveConflict` | pkg/server/viewgenerator.go:118-132 | keeps the more updated last converged sequence and puts the union on top |
| `ViewGeneratorWorker.GeneratorWorker.Receive` | pkg/server/viewgenerator.go:89-151 | a received proposal changes the worker, and makes it broadcast, as the Deliver step says |
| `ViewGeneratorWorker.GeneratorWorker.ReceiveConv` | pkg/server/viewgenerator.go:153-160 | hands a sequence to installation exactly at the quorum-th equal SeqConv |
| `Reconfiguration.ViewsOnlyGrow` | pkg/server/reconfiguration.go:255-268 | in every run pending updates are disjoint from the current view, which changes only to a strict superset |
| `Reconfiguration.OnlyUpdatedViews` | pkg/server/viewgenerator.go:168-175 | the assertion loop passes exactly when every view contains the base |
| `Reconfiguration.ProposalsExtendTheView` | pkg/server/reconfiguration.go:270-284 | everything handed to a generator contains the current view, strictly after an install, so the assertion never fires |
| `Reconfiguration.RemainingViewsAreProposed` | pkg/server/reconfiguration.go:193-196 | conversely, in every run a server that runs on after an install hands all views of the sequence beyond its view to a generator, in their order, whether the install view was newer or not |
| `Reconfiguration.StartedOnlyIfPending` | pkg/server/reconfiguration.go:32-51 | a reconfiguration is started only after a check that found pending updates, and once for each |
| `Reconfiguration.PendingIsStarted` | pkg/server/reconfiguration.go:32-51 | and always after such a check |
| `Reconfiguration.StrictIffPending` | pkg/server/reconfiguration.go:32-76 | a started reconfiguration proposes a strict extension iff updates are still pending then |
| `Reconfiguration.StrictWithoutInstall` | pkg/server/reconfiguration.go:32-76 | which holds if no install comes between the check and the proposal |
| `Reconfiguration.RaceProposesTheSameView` | pkg/server/reconfiguration.go:32-51 | an install in between can make it propose the view it has |
| `Reconfiguration.MembersLockProperly` | pkg/server/reconfiguration.go:161-232 | a server always in the views it handles holds the lock exactly when the once fired, never blocks on it, and unlocks only while holding it |
| `Reconfiguration.UnlockedIsMember` | pkg/server/server.go:97-102 | in every run a server whose register is unlocked is a member of its view |
| `Reconfiguration.LockedWithoutOnce` | pkg/server/reconfiguration.go:161-232 | in every run the lock is held without the once exactly by a server that started outside its view and that no install has unlocked yet |
| `Reconfiguration.DeadlockIffStillJoining` | pkg/server/reconfiguration.go:161-173 | a run blocks for ever exactly at a newer install whose associated view contains such a server |
| `Reconfiguration.LockIsHeldAsInstallsSay` | pkg/server/reconfiguration.go:161-232 | in every run the once has fired, and the lock is held, exactly if an earlier install did it and none has undone it since |
| `Reconfiguration.CrashIffNotHeld` | pkg/server/reconfiguration.go:217-227 | a run unlocks an unlocked register exactly at the end of a sequence that neither finds it locked nor locks it |
| `Reconfiguration.InstallOutcome` | pkg/server/reconfiguration.go:161-252 | exactly when an install blocks on the own lock, crashes on unlocking, or makes the server leave |
| `Reconfiguration.JoinerDeadlocks` | pkg/server/server.go:97-102 | a server that joins in the middle of a sequence blocks for ever on the next view |
| `Server.MergeMeaning` | pkg/server/reconfiguration.go:349-358 | the merged state has all pending updates and one sender's register, none newer |
| `Server.MergeIsInstalled` | pkg/server/reconfiguration.go:386-401 | it is the state an Install step of the register system puts into the server |
| `Server.StateUpdateQuorum.Update` | pkg/server/reconfiguration.go:338-362 | keeps the merge of all messages, and publishes that of the first quorum, once |
| `ServerRefinement.ReadIsServed` | pkg/server/register.go:27-44 | a content the Read handler answers is one that ServeRead may record for the operation |
| `ServerRefinement.WriteIsServed` | pkg/server/register.go:46-66 | an accepted write is ServeWrite's update of the server; a refused one changes nothing |
| `ServerRefinement.RequestsAreAnswered` | pkg/server/register.go:27-66 | a running unlocked server answers every request: with its content or an acknowledgement iff it serves the view, else with its own view, which is newer for a client behind it |
| `ServerRefinement.ReconfigIsServed` | pkg/server/reconfiguration.go:492-512 | an acknowledged Reconfig is a Reconfig step |
| `ServerRefinement.OtherViewsAreRefused` | pkg/server/reconfiguration.go:492-512 | a Reconfig request is acknowledged iff it names the view of the server, and otherwise changes nothing |
| `ServerRefinement.StateIsSent` | pkg/server/reconfiguration.go:163-187 | the state a member broadcasts is the message of a SendState step |
| `ServerRefinement.MovingServerStays` | pkg/server/reconfiguration.go:155-157 | until it installs, no other step changes the server |
| `ServerRefinement.InstallIsServed` | pkg/server/reconfiguration.go:198-253 | what gotInstallSeqQuorum leaves in the server, with the merge of the messages it got, is what the Install step puts there |
| `Server.StoreServer.Write` | pkg/server/register.go:46-66 | applies the write only there, and only if its timestamp is higher |
| `Server.StoreServer.Reconfig` | pkg/server/reconfiguration.go:492-512 | an acknowledged update is in the view or pending; requests for other views are refused |
| `Server.StoreServer.SyncState` | pkg/server/reconfiguration.go:375-404 | the register is the merged one and the pending updates are those of both, less the installed view |
| `Server.StoreServer.GotInstallSeqQuorum` | pkg/server/reconfiguration.go:155-253 | changes the server, sends its state and goes on to the remaining views as the Install step says |

## Left out

- RPC transport, the link table and its repair: delivery is a step that may never happen.
- Persistent storage of consensus and its encoding: a map from the number of updates of a view to the last number drawn.
- The hash and gob encoding: the hash is an arbitrary function of the canonical text.
- Liveness under a scheduler (that steps can be taken is proved, not that they are), timers, including the blocking channel exchanges and a broadcast to an empty view.
- Termination of the view generator when initial proposals conflict.
- `RegisterSystem`: a server serves its view even while its register lock is held, clients may start in and move to any
  later installed view, and an install needs no quorum of install-seq messages; each admits more runs than the code.
- `RegisterNested.OrderedIffNothingToSkip`: a server that is past the associated view does not send its state again and
  the register lock is not part of these runs; the failing run needs neither.
- `RegisterTheorems.TimestampsFollowRealTime`: says nothing about values, because concurrent writers can share a timestamp.
- `ConsensusWorker.InstanceWorker.Learn`: a proposal delivered twice by the network would be counted twice; runs deliver once.
- `ViewRefs.SortUpdates`: the library sort is modelled by a selection sort through the same Swap.
- The duplicate filter on install-seq messages and their re-broadcast: the counter is modelled, the flooding is not.
- `memoryStorage`, the commands, the admin page, logging and time measurement: not part of the protocols.

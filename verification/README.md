# Verified models of the broadcast, consensus, storage and key-generation layers

This project models the distributed core of the repository in Dafny and proves what its protocols promise over whole
runs. `dafny verify dfyconfig.toml` checks all of it.

Every part is built the same way. The code of one process is first written as functions on values, one function per
handler, with every branch, threshold and guard of the source. The source's objects are then classes with the same
fields; each method, loops included, is proved equal to its function. On top of the functions stands a transition
system of the whole group or store: a step is one handler call (or one lock operation), messages form a log or a set
that is delivered in any order, and Byzantine members may send anything. What clients ask for and what reaches a
process is recorded by the system, not by the handlers. Invariants of that system give the theorems, which are about
every run, every interleaving and every input; they say both what never happens and what each handler owes: which
message is answered, counted, kept or announced, and exactly when.

* **Uniform consensus** (`EpochInstance`, `EpochConsensus`, `Fsm`, `UniformNode`, `UniformNodeObject`,
  `UniformSystem`, `UniformInvariant`, `UniformSteps`, `UniformNodeSteps`, `UniformAgreement`, `UniformEpochZero`,
  `UniformInbox`, `UniformDelivery`, `UniformEffects`, `EpochChange`, `EpochCatchUp`, `UniformComposed`). The
  read/write epoch instance, the node that aborts, carries its state and restarts, and the epoch changer. A value that
  a majority has stored in an epoch is the only one any later leader writes; hence uniform agreement. The timestamp of
  epoch 0 is also that of the initial state, so what epoch 0 decides can be lost: all runs agree if and only if there
  are at most two processes, and with more they agree in every run in which no node takes a decision of epoch 0. The
  joint system of changers and nodes refines the consensus system, so agreement holds for the stack; and the
  disagreeing run is built for the stack too, with an epoch that a real changer announces.
* **Key-value store and inbox** (`KeyValueSpec`, `KeyValueLocks`, `KeyValueSerial`, `KeyValueCalls`, `KeyValueStore`,
  `InboxSpec`, `Inbox`). Two-phase locking over lock objects that are deleted and recreated. Key locks exclude each
  other and their counters are right; every interleaving is serializable in commit order, exactly if direct writes and
  transactions use different keys; a transaction carries out its client's calls once each and reads its own writes;
  the inbox neither loses, repeats nor reorders values.
* **Byzantine broadcast** (`Tally`, `DoubleEcho`, `DoubleEchoSystem`, `DoubleEchoProgress`, `DoubleEchoBounds`,
  `DoubleEchoRelay`, `EchoBroadcast`, `EchoSystem`, `EchoProgress`, `SignedEcho`, `SignedEchoSystem`,
  `SignedEchoReplay`, `SignedEchoProgress`, `ByzantineChannel`, `ChannelSystem`). Every counting loop skips its own
  entry, so "count > k" needs k + 2 supporters. Safety is as in the textbook; progress needs 3f + 3 members for
  validity and 3f + 2 for totality, both numbers are exact, and both properties need links that name the transmitter
  or f = 0. The channel's order follows by showing that what a channel run does to one numbered instance is itself a
  run of echo broadcast.
* **Distributed key generation** (`ModArith`, `Zp`, `Polynomial`, `Commitments`, `DkgSpec`, `DkgQual`, `DkgKeys`,
  `DkgRun`, `DkgHonest`, `DkgSystem`, `DkgComplaints`, `DkgPhase4`, `Dkg`). Horner's rule, Pedersen and Feldman
  completeness, QUAL as a property of the set of public events (hence independent of their order). Whole runs of one
  process, timers included, in which events of all phases come in any order, and runs of a group with Byzantine
  members: exactly when an honest dealer is in QUAL, exactly when a member complains about a dealer or marks it, what
  public key is built, and exactly when a private share fits it.
* **Amplification** (`RotatingDetector`, `RotatingProgress`, `ByzantineEpochChange`). A correct member leaves a round
  or an epoch only if a correct member had a reason of its own, and exactly at the thresholds of the code.

## Where the code differs from its documentation or from expectation

* `handleReadyMessage` (broadcaster/byzantine_reliable.go:145-149) passes on the stored READY of another member, with
  that member's id and message id. `From()` is the stored id (messages/messages.go:26-28). The model therefore has
  links of both kinds: links that report the process that called `Send`, and links that report the stored id. Safety
  holds for both. Validity and totality hold only for the first kind, or for f = 0 (`DoubleEchoRelay.ValidityByLinks`,
  `DoubleEchoRelay.TotalityByLinks`). With the second kind, which is what the code has, and f >= 1 there is a run
  without any misbehaviour in which nobody delivers (`DoubleEchoRelay.RelaysLost`), and a run at rest in which one
  correct member has delivered and another has not (`DoubleEchoRelay.Lopsided`). In the broadcast systems nobody can
  speak in the name of a correct member.
* `Deliver` of the Byzantine channel unwraps a message and passes the inner one on
  (broadcaster/byzantine_channel.go:197-217, 295-297) without comparing the id stored in it with the wrapper's. Prefix
  agreement, integrity, "ready when done" and "the k-th message goes to instance k" therefore hold in all runs exactly
  if links do or nobody is Byzantine (`ChannelSystem.PrefixExactly`, `IntegrityExactly`, `ReadyExactly`,
  `DispatchExactly`): otherwise one member can send as many echoes as it likes under made-up ids
  (`ChannelSystem.Impersonation`). Numbering and the order of the send queue hold over every link.
* A signed echo names neither the instance nor its sender (broadcaster/byzantine_consistence.go:246-250), so it is as
  good in every other instance that uses the same keys. `SignedEchoReplay` has a run of two instances in which two
  members deliver different payloads, and the exact condition under which that cannot happen.
* `applyEvent` of the key generation has no guard for the phase (consensus/dkg/dkg.go:310-332), and `buildPKShare`
  skips a share that is not there yet (684-690). A share that is slower than the timer of phase 1 is stored, passes
  its public check, and is still missing from the private share: in a group of two honest members a key is built that
  the share does not fit (`DkgRun.LateShare`, `DkgSystem.SlowShare`). The exact condition is `DkgRun.KeyFitsExactly`,
  for honest dealers `DkgSystem.GroupKey`.
* An answer to a complaint that overtakes the complaint is dropped (consensus/dkg/dkg.go:459-467), and one that
  overtakes the commitments disqualifies its dealer (468-472), so an honest dealer can be left out by reordering
  alone: `DkgHonest.HonestDealerExactly` says exactly when.
* The two keys `""` and `"unresolved"` share one inbox slot (`InboxSpec.SlotsDistinct`).
* A value whose type does not decode can be stored but never read back: the exact condition is `InboxSpec.RoundTrip`.
* In the Byzantine epoch changer nobody is trusted before the first leader arrives, so one early NEWEPOCH message
  makes a fresh process complain (`ByzantineEpochChange.EarlyNewEpoch`). Its tests expect other values of the initial
  epochs than the code sets; the model follows the code.
* In the detector a process that joins a complaint returns before it compares the count with 2f
  (election/byzantine.go:143-154); this shows only for f = 0 (`RotatingProgress.LeavesExactly`).
* `Broadcast` of the echo broadcaster does not compare the caller with the sender; receivers do.

## Assumptions

* Links hand each message of uniform consensus to a process at most once (p2p/perfect.go:63-83); accepts are counted,
  not deduplicated. Membership is fixed. A transaction is driven by one goroutine at a time.
* Group parameters have p > 1, q > 0 and g^q = h^q = 1 mod p; process ids are not negative where they are evaluation
  points; elements carry a positive modulus. Key correctness takes public commitments as reduced elements modulo p.
* Signatures of correct members cannot be forged and only members have identities; where a run with signatures is
  built, every member can sign, and a signature fits its signer and its payload only. A payload is compared as a
  whole; whether it decodes is a parameter.

## Model

| member | source | states |
|---|---|---|
| EpochConsensus.HighestState | consensus/failnoisy/uniform/epoch_consensus.go:275-283 | in any map order the loop returns a state of highest timestamp, or the initial state if all timestamps are negative |
| EpochConsensus.EpochConsensus.constructor | consensus/failnoisy/uniform/epoch_consensus.go:52-75 | a new instance has the documented transition table and no progress |
| EpochConsensus.EpochConsensus.InitMachine | consensus/failnoisy/uniform/epoch_consensus_state_machine.go:78-87 | exactly these handlers are registered, two of them global |
| EpochConsensus.TableFilled | consensus/failnoisy/uniform/epoch_consensus_state_machine.go:78-87 | looking a phase and a tag up in the filled table gives the one registered handler or none |
| EpochConsensus.EpochConsensus.StartEpoch | consensus/failnoisy/uniform/epoch_consensus.go:81-108 | a started instance is the leader in Proposing or a follower in Idle, with the given state |
| EpochConsensus.EpochConsensus.Deliver | consensus/failnoisy/uniform/epoch_consensus.go:289-344 | messages pass the epoch guard and the leader guard of their kind, and are queued while the instance runs |
| EpochConsensus.EpochConsensus.HandleReceivedRead | consensus/failnoisy/uniform/epoch_consensus.go:197-228 | at a majority of states a highest value, if any, replaces the own one and is written; the states are reset |
| EpochConsensus.EpochConsensus.Apply | consensus/failnoisy/uniform/epoch_consensus.go:170-269 | one event has exactly the effect and the packets of the instance model, for some resolution of map order |
| EpochConsensus.EpochConsensus.DrainEvents | consensus/failnoisy/uniform/epoch_consensus.go:159-168 | all queued events are applied in order, unless a decision blocks the drain for good |
| EpochConsensus.EpochConsensus.Abort | consensus/failnoisy/uniform/epoch_consensus.go:114-126 | Abort hands out the state after the drain, and nothing if the drain blocks |
| EpochConsensus.DrainCarriesLastWrite | consensus/failnoisy/uniform/epoch_consensus.go:118-168 | the state handed out is that of the last write queued when Abort was called |
| Fsm.StateMachine.Dispatch | types/fsm/state_machine.go:63-81 | the global handler comes first, then the one of the current state, either may be missing |
| Fsm.RegisteredAt | types/fsm/state_machine.go:46-54 | registering a handler changes the table at that state and tag only |
| UniformNodeObject.ConsensusNode.constructor | consensus/failnoisy/uniform/node.go:127-156 | a node starts in epoch 0 with an instance that has the initial state |
| UniformNodeObject.ConsensusNode.TakeDecision | consensus/failnoisy/uniform/node.go:238-250 | a decision counts only in its own epoch and only once |
| UniformNodeObject.ConsensusNode.Deliver | consensus/failnoisy/uniform/node.go:405-465 | with an inner instance a message goes to it and to nothing else; without one, a message is buffered under an epoch afterwards exactly if it was before or it is this one, as it came |
| UniformNodeObject.ConsensusNode.MaybePropose | consensus/failnoisy/uniform/node.go:315-326 | a leader proposes once per epoch; without an inner instance the call fails |
| UniformNodeObject.ConsensusNode.TakeEpoch | consensus/failnoisy/uniform/node.go:273-296 | a decided node makes up a state with its decision, any other drains and aborts its instance |
| UniformNodeObject.ConsensusNode.TakeAborted | consensus/failnoisy/uniform/node.go:252-271 | the next epoch starts from the carried state and gets all messages buffered for it |
| UniformInbox.BufferedExactly | consensus/failnoisy/uniform/node.go:405-465 | in every run a node has buffered, under each epoch and as sent, exactly the packets that came while it had no inner instance and whose epoch it has not cleared since |
| UniformInbox.NextEpochOffered | consensus/failnoisy/uniform/node.go:252-271 | so what is offered to the instance of the next epoch is exactly what came for that epoch in the meantime |
| UniformDelivery.NothingRefused | consensus/failnoisy/uniform/epoch_consensus.go:289-344 | in every run, a message of the epoch that a running instance is in joins its queue whatever its kind: the leader guards never meet one they refuse; a message of another epoch has no effect |
| UniformDelivery.RestartQueue | consensus/failnoisy/uniform/node.go:252-271 | an abort of the current epoch starts the announced one with the state handed out, and the queue of the new instance is what the packets that waited ask for, in the order in which they reach it |
| UniformDelivery.RestartCanTakeAll | consensus/failnoisy/uniform/node.go:252-271 | a restart can bring every packet that waited into the new queue |
| UniformEffects.ReadAnswered | consensus/failnoisy/uniform/epoch_consensus.go:254-260 | a READ comes from the leader and is answered to it with the stored state, also while an abort drains the queue |
| UniformEffects.WriteAcknowledged | consensus/failnoisy/uniform/epoch_consensus.go:262-269 | a WRITE is from the leader, is stored and is acknowledged to it, also while an abort drains the queue |
| UniformEffects.ProposalAsks | consensus/failnoisy/uniform/epoch_consensus.go:181-195 | a leader that is handed a value keeps it and asks everybody for their states |
| UniformEffects.ReadCounted | consensus/failnoisy/uniform/epoch_consensus.go:197-228 | at a majority of states the leader writes the value of a highest one, else its own, to everybody; below it only counts |
| UniformEffects.AcceptCounted | consensus/failnoisy/uniform/epoch_consensus.go:230-247 | every acknowledgement counts, and the majority makes the leader announce the decision to everybody |
| UniformEffects.DecisionPublished | consensus/failnoisy/uniform/epoch_consensus.go:128-135 | a DECIDED reaches the node exactly if no abort is draining the queue, and stops the instance for good either way |
| UniformEffects.OthersIgnored | consensus/failnoisy/uniform/epoch_consensus_state_machine.go:78-87 | an event that the phase does not wait for is taken off the queue without effect |
| UniformEffects.ProposalPassedOn | consensus/failnoisy/uniform/node.go:315-326 | in every run a leader with a value hands it to its instance once per epoch, decided or not, and stops for good if it has none; nobody else proposes |
| UniformEffects.EpochNoted | consensus/failnoisy/uniform/node.go:273-296 | an epoch that is not newer is dropped; a newer one makes a decided node make up a state with its decision and any other cancel its instance |
| UniformEffects.DecidedMovesOn | consensus/failnoisy/uniform/node.go:252-296 | a decided node that hears of a newer epoch can always enter it, with its decision under the timestamp it decided in, whatever its instance does |
| UniformNodeSteps.StepInv | consensus/failnoisy/uniform/node.go:212-302 | every step of the system keeps the invariant on packets, instances, nodes and channels |
| UniformAgreement.LockIn | consensus/failnoisy/uniform/epoch_consensus.go:197-283 | once a majority stored a value, every later leader writes it |
| UniformAgreement.LockedState | consensus/failnoisy/uniform/node.go:252-296 | every carried, reported or made-up state from that epoch on holds the value |
| UniformAgreement.TwoChosen | consensus/failnoisy/uniform/epoch_consensus.go:230-247 | two values stored by majorities, in whatever epochs, are equal |
| UniformAgreement.Agreement | consensus/failnoisy/uniform/node.go:238-296 | no two nodes ever decide differently, if no node takes a decision of epoch 0 or there are at most two processes |
| UniformAgreement.Validity | consensus/failnoisy/uniform/node.go:173-177 | every value written, stored or decided was proposed |
| UniformAgreement.OneWritePerEpoch | consensus/failnoisy/uniform/epoch_consensus.go:197-228 | an epoch has at most one write message |
| UniformAgreement.DrainedWriteCarried | consensus/failnoisy/uniform/epoch_consensus.go:118-168 | a write acknowledged before or during an abort is in the carried state |
| UniformAgreement.StepAdvances | consensus/failnoisy/uniform/node.go:252-271 | a node's epoch never falls, a decision stays, and a new instance belongs to a strictly later epoch |
| UniformAgreement.Integrity | consensus/failnoisy/uniform/node.go:238-250 | over any stretch of a run a node decides at most once |
| UniformEpochZero.Disagreement | consensus/failnoisy/uniform/epoch_consensus.go:275-283 | for any epoch e > 0 waiting for a majority that misses d: d decides in epoch 0, and e's leader decides another value without a further epoch coming in |
| UniformEpochZero.AgreementExactly | consensus/failnoisy/uniform/epoch_consensus.go:275-283 | with epochs coming in freely, all runs agree if and only if there are at most two processes |
| EpochChange.LeastAboveIsLeast | consensus/failnoisy/uniform/epoch_change.go:289-304 | the catch-up target is the least congruent timestamp above the follower's |
| EpochChange.LeaderBasedEpochChanger.Subscribed | consensus/failnoisy/uniform/epoch_change.go:289-304 | the loop ends, exactly at that target, which is announced; what that does for the follower is `EpochCatchUp.CatchUp` and `CaughtUp` |
| EpochChange.LeaderBasedEpochChanger.Request | consensus/failnoisy/uniform/epoch_change.go:197-211 | only a process that trusts itself announces, its next own timestamp |
| EpochChange.LeaderBasedEpochChanger.NewLeader | consensus/failnoisy/uniform/epoch_change.go:213-237 | a new leader announces, anyone else subscribes with the timestamp it has accepted |
| EpochChange.LeaderBasedEpochChanger.NewEpochArrived | consensus/failnoisy/uniform/epoch_change.go:239-264 | an announcement is started if it is from the trusted leader and newer, refused otherwise |
| EpochChange.LowestRanked | consensus/failnoisy/uniform/node.go:127-145 | the leader of epoch 0 has the lowest rank |
| EpochChange.AnnouncementsDistinct | consensus/failnoisy/uniform/epoch_change.go:193-237 | all timestamps ever announced by anybody are distinct |
| EpochChange.EpochHasOneLeader | consensus/failnoisy/uniform/epoch_change.go:239-264 | all processes that start an epoch agree on its leader, and each starts epochs in increasing order |
| EpochChange.CountersGrow | consensus/failnoisy/uniform/epoch_change.go:193-264 | counters and accepted timestamps never fall |
| EpochChange.SubscriptionAvoidsNack | consensus/failnoisy/uniform/epoch_change.go:280-304 | after a handled subscription no later announcement is refused by that follower while its timestamp and trust stay |
| EpochCatchUp.CatchUp | consensus/failnoisy/uniform/epoch_change.go:289-304 | when a leader that trusts itself handles a subscription and its counter is not above the follower's timestamp, it sends a NEWEPOCH to all with its least own timestamp above that; otherwise it sends nothing |
| EpochCatchUp.CaughtUp | consensus/failnoisy/uniform/epoch_change.go:239-304 | the follower that handles this NEWEPOCH, timestamp and trust unchanged, starts exactly that epoch under that leader |
| EpochCatchUp.StartsOrRefuses | consensus/failnoisy/uniform/epoch_change.go:239-264 | an announcement is started exactly if it is the trusted leader's and newer than all started; otherwise the announcer gets a refusal |
| EpochCatchUp.TrustChanges | consensus/failnoisy/uniform/epoch_change.go:213-237 | in every run a process that comes to trust itself announces to all; one that comes to trust another tells it the last epoch it started |
| EpochCatchUp.Reannounces | consensus/failnoisy/uniform/epoch_change.go:197-211 | in every run a refusal or a request makes a process that trusts itself announce its next timestamp, and changes nothing elsewhere |
| EpochCatchUp.Converges | consensus/failnoisy/uniform/epoch_change.go:193-264 | from every reachable state: if p trusts l and l itself, announcements and refusals between them lead to a newer epoch that p starts under l |
| UniformComposed.ConsensusRun | consensus/failnoisy/uniform/node.go:187-210 | the consensus part of a joint run of changers and nodes, in which started epochs reach the node in any order, is a run of the consensus system |
| UniformComposed.StackAgreement | consensus/failnoisy/uniform/node.go:212-302 | in every joint run of changers and nodes no two decisions, at whatever moments, differ, if no node takes a decision of epoch 0 or there are at most two processes |
| UniformComposed.JointDisagreement | consensus/failnoisy/uniform/epoch_change.go:193-264 | for any three or more processes, whatever their ranks, the changers announce an epoch after which two nodes of a joint run have decided differently |
| UniformComposed.StackAgreesExactly | consensus/failnoisy/uniform/node.go:127-302 | all joint runs of changers and nodes agree if and only if there are at most two processes |
| KeyValueLocks.LockStep | database/inmemory/kv.go:57-140 | every step keeps lock objects, counters and holders consistent |
| KeyValueLocks.KeyLockIdentity | database/inmemory/kv.go:57-87 | no key has two holders, no free mutex is unlocked, waiters is holders plus blocked, and unused entries leave the table |
| KeyValueSerial.SandboxIsSerial | database/inmemory/kv.go:144-213 | merging a transaction's sandbox equals applying its calls one by one |
| KeyValueSerial.CommitOrderSerializable | database/inmemory/kv.go:114-225 | in every interleaving the committed transactions, replayed in commit order, see what they saw and give the store; live ones too would see what they saw |
| KeyValueSerial.LogGrows | database/inmemory/kv.go:192-213 | commit order never changes afterwards |
| KeyValueCalls.CallsOnce | database/inmemory/kv.go:114-213 | in every run the calls a transaction has carried out, followed by the one under way, are the calls its client has made, in order; the log holds each committed transaction once, with all its calls |
| KeyValueCalls.ReadsOwnWrites | database/inmemory/kv.go:144-188 | in every run with guarded direct writes, each Get of a live transaction answers the last write its client made to the key before, or the store if there was none |
| KeyValueCalls.CommitLeavesLastWrites | database/inmemory/kv.go:192-213 | in such a run Commit leaves, for every key, the last value the client wrote or removed, and the store's own value for all others |
| KeyValueSerial.DirectWriteBreaks | database/inmemory/kv.go:34-51 | a direct write to a key of a transaction can make a run that no order of its commits explains |
| KeyValueSerial.SerializableExactly | database/inmemory/kv.go:32-51 | all runs are serializable, in commit order or in any order, if and only if direct writes and transactions use different keys |
| KeyValueStore.KVStore.CountIn | database/inmemory/kv.go:57-65 | the lock object is found or created and its counter raised |
| KeyValueStore.KVStore.AcquireKeyLock | database/inmemory/kv.go:57-69 | afterwards the key's current object is locked and counts one more |
| KeyValueStore.KVStore.ReleaseKeyLock | database/inmemory/kv.go:73-87 | the object is unlocked, counts one less and leaves the table at zero |
| KeyValueStore.ReleaseOneMore | database/inmemory/kv.go:135-140 | releasing keys one at a time, in any order, gives the same table |
| KeyValueStore.Transaction.EnsureLocked | database/inmemory/kv.go:114-132 | the key is held afterwards, taken at most once |
| KeyValueStore.Transaction.Set | database/inmemory/kv.go:144-153 | panics when finished; otherwise the sandbox holds the value for the key and is the same elsewhere, under the key's lock, and the store is unchanged |
| KeyValueStore.Transaction.Get | database/inmemory/kv.go:155-177 | answers from the sandbox, else from the store |
| KeyValueStore.Transaction.Remove | database/inmemory/kv.go:179-188 | panics when finished; otherwise the sandbox has the key as deleted and is the same elsewhere |
| KeyValueStore.Transaction.ReleaseAllLocks | database/inmemory/kv.go:135-140 | all held keys are released and no others |
| KeyValueStore.Transaction.Commit | database/inmemory/kv.go:192-213 | once: the store is merged with the sandbox and all keys are released; afterwards nothing |
| KeyValueStore.Transaction.Rollback | database/inmemory/kv.go:215-225 | once: all keys are released and the store is as before; afterwards nothing |
| InboxSpec.SlotsDistinct | types/inbox/inbox.go:103-110 | two keys share a slot only if equal or both of "" and "unresolved" |
| InboxSpec.RoundTrip | types/inbox/inbox.go:121-158 | an encoded list decodes to itself if and only if each of its values does |
| InboxSpec.InboxConservation | types/inbox/inbox.go:44-87 | in every interleaving, drained values followed by what is left equal all stored values, in commit order |
| Inbox.Inbox.EncodeValues | types/inbox/inbox.go:121-132 | the loop encodes the list or fails at the first value that does not encode |
| Inbox.Inbox.DecodeValues | types/inbox/inbox.go:134-158 | the loop decodes the list or fails at the first envelope that does not open to a value |
| Inbox.Inbox.Get | types/inbox/inbox.go:71-74 | returns the decoded slot without taking its lock |
| Inbox.Inbox.Store | types/inbox/inbox.go:44-69 | appends to the slot, or fails and leaves the store as it was; its calls are those of the modelled program |
| Inbox.Inbox.GetAndClear | types/inbox/inbox.go:76-87 | returns and empties the slot, or fails and leaves the store as it was; its calls are those of the modelled program |
| Tally.Enough | broadcaster/byzantine_reliable.go:213-223 | the inner loop answers whether k + 2 processes sent the value |
| Tally.Elect | broadcaster/byzantine_reliable.go:206-226 | the nested loops return a value of at least k + 2 distinct processes, and nothing exactly if there is none |
| Tally.ByzantineQuorumsMeet | broadcaster/byzantine_reliable.go:228-230 | two quorums share a member outside the faulty set |
| DoubleEcho.AuthenticatedDoubleEcho.HandleSendMessage | broadcaster/byzantine_reliable.go:104-116 | the first message of the sender is echoed, all others are ignored |
| DoubleEcho.AuthenticatedDoubleEcho.HandleEchoMessage | broadcaster/byzantine_reliable.go:118-136 | one echo per process; at the quorum a READY goes out, once |
| DoubleEcho.AuthenticatedDoubleEcho.HandleReadyMessage | broadcaster/byzantine_reliable.go:138-160 | one READY per process; f + 2 make the process pass one on, 2f + 2 make it deliver, each once |
| DoubleEchoSystem.OneReadyValue | broadcaster/byzantine_reliable.go:118-136 | two values with echo quorums are equal |
| DoubleEchoSystem.ReadysAgree | broadcaster/byzantine_reliable.go:118-160 | all READYs of correct members in a run carry one value |
| DoubleEchoSystem.Consistency | broadcaster/byzantine_reliable.go:104-204 | at most one delivery each, no two ever differ, and only what a correct sender broadcast |
| DoubleEchoRelay.Totality | broadcaster/byzantine_reliable.go:138-204 | from 3f + 2 members on, with links that name the transmitter or f = 0, at rest all correct members have delivered or none |
| DoubleEchoRelay.Validity | broadcaster/byzantine_reliable.go:104-204 | from 3f + 3 members on, with links that name the transmitter or f = 0, at rest the single message of a correct sender is delivered by all |
| DoubleEchoBounds.Settle | broadcaster/byzantine_reliable.go:93-160 | from every reachable state, handling packets alone leads to rest |
| DoubleEchoBounds.SilentBlocks | broadcaster/byzantine_reliable.go:206-230 | with f silent members and at most 3f + 2 in all, nobody ever sends READY or delivers |
| DoubleEchoRelay.RelaysLost | broadcaster/byzantine_reliable.go:145-149 | with links that report the stored id and f >= 1 there is a fault-free run at rest in which nobody delivers |
| DoubleEchoRelay.Lopsided | broadcaster/byzantine_reliable.go:145-160 | with such links, f >= 1 and 2f + 2 members there is a run at rest in which one correct member has delivered and another has not |
| DoubleEchoRelay.TotalityByLinks | broadcaster/byzantine_reliable.go:138-230 | totality holds in all runs if and only if there are 3f + 2 members and links name the transmitter or f is 0, or there are too few for anyone to deliver |
| DoubleEchoRelay.ValidityByLinks | broadcaster/byzantine_reliable.go:145-160 | validity holds in all runs if and only if there are 3f + 3 members and links report the true transmitter or f is 0 |
| EchoBroadcast.AuthenticatedEcho.DeliverInit | broadcaster/byzantine_consistence.go:62-75 | the first message of the sender is echoed, all others are ignored |
| EchoBroadcast.AuthenticatedEcho.DeliverEcho | broadcaster/byzantine_consistence.go:77-151 | one echo per process; the quorum delivers once, and a payload that does not decode uses the delivery up |
| EchoSystem.Consistency | broadcaster/byzantine_consistence.go:62-151 | at most one delivery each, no two at whatever moments ever differ, and only what a correct sender broadcast |
| EchoProgress.FirstEchoCounts | broadcaster/byzantine_consistence.go:62-151 | in every run the echo recorded for a process, the flags and the deliveries are never taken back |
| EchoProgress.Validity | broadcaster/byzantine_consistence.go:62-151 | from 3f + 3 members on, once everything between correct members is handled, the single message of a correct sender is delivered by all |
| SignedEcho.CountValid | broadcaster/byzantine_consistence.go:322-345 | validCount is the number of distinct processes with a valid signature |
| SignedEcho.CollectSigns | broadcaster/byzantine_consistence.go:399-413 | the list holds exactly one signature of every supporter |
| SignedEcho.FinalAccepted | broadcaster/byzantine_consistence.go:317-420 | every FINAL that is built makes every handler that has not delivered deliver, if the payload decodes |
| SignedEcho.SignedEchoBroadcast.HandleBroadcastedMsg | broadcaster/byzantine_consistence.go:252-285 | the first message of the sender is signed once; a failed signature leaves the process free to sign later |
| SignedEcho.SignedEchoBroadcast.HandleEchoMsg | broadcaster/byzantine_consistence.go:287-315 | the sender counts verified echoes, one per process, and builds one FINAL |
| SignedEcho.SignedEchoBroadcast.HandleFinal | broadcaster/byzantine_consistence.go:317-363 | delivery needs more than (n+f)/2 distinct valid signers and a payload that decodes, and happens once |
| SignedEchoSystem.ConsistencyAmong | broadcaster/byzantine_consistence.go:246-363 | with keys that other instances use too: at most one delivery each; two differ only if two payloads can gather a quorum of signatures each, and what a correct sender did not broadcast needs a quorum from elsewhere |
| SignedEchoSystem.Consistency | broadcaster/byzantine_consistence.go:252-363 | with keys of its own: at most one delivery each, no two ever differ, and only what a correct sender broadcast |
| SignedEchoReplay.ConsistentExactly | broadcaster/byzantine_consistence.go:246-363 | all runs are consistent if and only if nobody is Byzantine, there are no two correct members, or no two payloads can gather a quorum each |
| SignedEchoReplay.IntegralExactly | broadcaster/byzantine_consistence.go:246-363 | with a correct sender, only what it broadcast is delivered in all runs if and only if nobody is Byzantine or no payload has a quorum from elsewhere |
| SignedEchoReplay.TwoInstances | broadcaster/byzantine_consistence.go:246-363 | after a run of one instance another with the same keys has a run in which two correct members deliver different payloads, one of which nobody broadcast there |
| SignedEchoSystem.FinalsWork | broadcaster/byzantine_consistence.go:317-363 | in every run a FINAL of a correct sender makes every correct member that has not delivered deliver |
| SignedEchoProgress.FirstEchoCounts | broadcaster/byzantine_consistence.go:252-363 | in every run the valid echo recorded for a process, the flags and the deliveries are never taken back |
| SignedEchoProgress.Validity | broadcaster/byzantine_consistence.go:252-420 | from 3f + 3 members on, with signatures that verify and no quorum from elsewhere, once everyone could sign and echoes and FINALs are handled, the single message of a correct sender is delivered by all |
| ByzantineChannel.Channel.InstallAll | broadcaster/byzantine_channel.go:101-106 | every process gets an instance with number 0 |
| ByzantineChannel.Channel.Broadcast | broadcaster/byzantine_channel.go:151-169 | what is handed over and queued grows by exactly the message, at the end, and the oldest queued one is handed over if the channel is ready |
| ByzantineChannel.Channel.Deliver | broadcaster/byzantine_channel.go:197-217 | only the current instance of the named sender and number sees the message |
| ByzantineChannel.Channel.OnBCBDelivered | broadcaster/byzantine_channel.go:223-255 | a delivery of the current instance is handed up and replaces the instance by the next one; others are dropped |
| ChannelSystem.ReceiveProjects | broadcaster/byzantine_channel.go:197-217 | a received message is a step of the addressed instance's own run and of no other |
| ChannelSystem.HandProjects | broadcaster/byzantine_channel.go:151-169 | handing a message over is a broadcast step of exactly the current own instance |
| ChannelSystem.Labels | broadcaster/byzantine_channel.go:223-255 | what a member receives from an originator is numbered 0, 1, 2, ... without gaps, whatever ids inner messages name |
| ChannelSystem.PrefixAgreement | broadcaster/byzantine_channel.go:197-255 | if inner messages name their transmitter or nobody is Byzantine: of what two correct members have received from any originator, at whatever moments, one sequence is a prefix of the other |
| ChannelSystem.Impersonation | broadcaster/byzantine_channel.go:197-217 | otherwise, as in the code, one Byzantine member makes two correct members, neither of which was ever given a message to broadcast, receive different first messages of one of them |
| ChannelSystem.PrefixExactly | broadcaster/byzantine_channel.go:197-307 | with two correct members and two payloads that decode, prefix agreement holds in all runs if and only if inner messages name their transmitter or nobody is Byzantine |
| ChannelSystem.ChannelIntegrity | broadcaster/byzantine_channel.go:148-255 | under the same condition, what is received from a correct originator is a prefix of what that originator's channel has handed over, hence of what the layer above asked it to broadcast |
| ChannelSystem.IntegrityExactly | broadcaster/byzantine_channel.go:197-307 | with a correct member and a payload that decodes, integrity holds in all runs if and only if inner messages name their transmitter or nobody is Byzantine |
| ChannelSystem.SendOrder | broadcaster/byzantine_channel.go:148-169 | over every link: what the layer above has asked for, recorded when it asks, is what was handed over followed by what is queued, and nothing is queued while the channel is ready |
| ChannelSystem.SendQueue | broadcaster/byzantine_channel.go:148-255 | under the same condition: ready exactly while all that was handed over has come back, and instance (self, k) broadcasts the k-th message to everybody and nothing else |
| ChannelSystem.ReadyExactly | broadcaster/byzantine_channel.go:148-255 | with a correct member and a payload that decodes, that readiness holds in all runs if and only if inner messages name their transmitter or nobody is Byzantine |
| ChannelSystem.DispatchExactly | broadcaster/byzantine_channel.go:148-255 | the same for the k-th message in instance k: a member whose own first instance was used up by others broadcasts its first message in its second |
| Zp.MulThree | utils/crypto/crypto.go:89-94 | reductions inside a product make no difference |
| Zp.ExpLaws | utils/crypto/crypto.go:129-133 | powers are homomorphic in the element and in the exponent |
| Zp.ExpReduces | utils/crypto/crypto.go:129-133 | exponents count modulo the order of the element |
| Polynomials.Evaluate | consensus/dkg/poly.go:62-77 | the reducing Horner loop gives the sum of c_k x^k modulo q |
| Polynomials.HornerIsSum | consensus/dkg/poly.go:67-74 | Horner's form equals the sum of powers |
| Commitments.GenerateCommitments | consensus/dkg/dkg.go:651-668 | the loop gives g^a_k h^b_k for every k |
| Commitments.BuildPubCommitments | consensus/dkg/dkg.go:670-678 | the loop gives g^a_k for every k |
| Commitments.EvalCommitmentLine | consensus/dkg/dkg.go:733-742 | the loop gives the product of C_k to the target^k |
| Commitments.CheckPubShare | consensus/dkg/dkg.go:723-731 | true exactly for t + 1 commitments whose line is g^s |
| Commitments.PedersenComplete | consensus/dkg/dkg.go:651-721 | honest shares pass the check against honest commitments, for every degree, coefficients and target |
| Commitments.FeldmanComplete | consensus/dkg/dkg.go:670-731 | every share equal to f(target) modulo q passes the public check |
| Commitments.LineTimes | consensus/dkg/dkg.go:733-742 | the line of a componentwise product is the product of the lines |
| Commitments.KeyShareFits | consensus/dkg/dkg.go:680-731 | if every share fits its dealer's commitments, the reduced sum fits the combined ones |
| Commitments.HonestKeys | consensus/dkg/dkg.go:602-695 | honest shares add up to F(self) modulo q and honest constant terms multiply to g^F(0) |
| DkgQual.RunKnows | consensus/dkg/dkg.go:375-493 | after any causal sequence the state knows exactly the commitments, complaints, answers and marks of the event set |
| DkgQual.QualByEvents | consensus/dkg/dkg.go:495-518 | QUAL is the process list without those the set of events disqualifies |
| DkgQual.QualConfluence | consensus/dkg/dkg.go:375-519 | two processes with the same public events in different orders compute the same QUAL |
| DkgHonest.HonestDealerExactly | consensus/dkg/dkg.go:375-519 | for events in any order: an honest dealer is in QUAL if and only if its commitments came, at most t complained, and each complaint was answered afterwards, no answer overtaking the commitments |
| DkgSystem.HonestDealerExactlyInRuns | consensus/dkg/dkg.go:336-519 | the same for any correct dealer in every run of a group with Byzantine members: that what it publishes is honest follows from the run |
| DkgSystem.HonestDealerProtected | consensus/dkg/dkg.go:426-519 | in every run, a correct dealer that at most t complained to is in the QUAL of each member that handled, in order, all it broadcast, and no complaint it has not handled: that it answers is part of the claim |
| DkgQual.Complaint2NeedsAnotherOpening | consensus/dkg/dkg.go:574-598 | only an opening of the commitment line other than f(complainant) modulo q marks an honest dealer |
| DkgRun.RunQual | consensus/dkg/dkg.go:310-332 | QUAL of a whole run, later events included, is that of the phase-1 events before the timer |
| DkgRun.KeyFitsExactly | consensus/dkg/dkg.go:495-731 | in a run of any order of events: once a key is built, g to the private share is the line of the combined commitments, whose constant term is the key, if and only if what the shares stored at the timer lack of fitting ones is 0 modulo the order of g |
| DkgRun.KeyCorrectness | consensus/dkg/dkg.go:495-695 | it is enough that every share from QUAL was stored at the timer and not replaced since, that the process complained about none, and that its own share came as dealt: the checks made along the run give the rest |
| DkgRun.LateShare | consensus/dkg/dkg.go:681-695 | an input with honest dealers, no complaint and a key, whose private share does not fit because a share came after the timer |
| DkgSystem.KeyCorrectnessInRuns | consensus/dkg/dkg.go:336-695 | the same sufficient condition for a correct member of any run with Byzantine members |
| DkgSystem.GroupKey | consensus/dkg/dkg.go:336-695 | in every run, a key built from a QUAL of correct members is g^F(0), and the private share is F(self) modulo q if and only if the shares that had not come at the timer sum to 0 modulo q |
| DkgSystem.SlowShare | consensus/dkg/dkg.go:353-390 | a run of two honest members without a complaint in which a key is built that a private share does not fit |
| DkgSystem.SameQual | consensus/dkg/dkg.go:375-519 | in a run, members that handled the same public events before their timers, each in its own causal order, have the same QUAL |
| DkgComplaints.MeetJudged | consensus/dkg/dkg.go:375-422 | when the commitments and a share of a dealer first meet and no share is stored: a share that opens them is stored and brings no complaint, one that does not is complained about and not stored |
| DkgComplaints.ComplaintMeets | consensus/dkg/dkg.go:375-422 | every complaint has such a share behind it |
| DkgComplaints.ComplainsExactly | consensus/dkg/dkg.go:336-422 | in every run of a group with Byzantine members, a correct member has complained about k in public exactly if a share from k that does not open k's commitments met them while none was stored |
| DkgComplaints.ManyComplaints | consensus/dkg/dkg.go:426-519 | more than t complaints handled before the timer leave a dealer out of QUAL |
| DkgComplaints.CheaterLeftOut | consensus/dkg/dkg.go:336-519 | a dealer that gave more than t correct members shares that do not open its commitments is in the QUAL of no member that handled their complaints: that they complain is part of the claim |
| DkgPhase4.SharesOpen | consensus/dkg/dkg.go:375-493 | every share a process holds, at any time, opens its dealer's first commitments |
| DkgPhase4.AnswerTaken | consensus/dkg/dkg.go:459-493 | an answer to the process's own complaint becomes its share if it opens the commitments, and marks the dealer if not |
| DkgPhase4.PublicJudged | consensus/dkg/dkg.go:538-570 | the first public commitments of a QUAL member are recorded; if the stored share misses their line that very share is published, otherwise nothing |
| DkgPhase4.MarkedExactly | consensus/dkg/dkg.go:574-598 | after any sequence of events a dealer is marked in phase 4 exactly if a second complaint was handled whose share opens its commitments and misses its public line |
| DkgPhase4.PublishedShareExposes | consensus/dkg/dkg.go:538-630 | what one process publishes about a dealer makes every process that handles it, with the same commitments of that dealer, mark it, and build no key from then on |
| DkgPhase4.KeyExactly | consensus/dkg/dkg.go:602-630 | there is a public key exactly if the last timer fired when nobody was marked and the public commitments of all of a non-empty QUAL were there |
| Dkg.DKG.HandleStart | consensus/dkg/dkg.go:336-373 | every process is sent its own shares, and the commitments are broadcast |
| Dkg.DKG.CheckShare | consensus/dkg/dkg.go:707-721 | an error without commitments, else whether both sides are equal |
| Dkg.DKG.HandleReceivedCommitments | consensus/dkg/dkg.go:375-390 | the first commitments of valid length count, and settle a share that was waiting for them; when that brings a complaint is `DkgComplaints.MeetJudged` |
| Dkg.DKG.HandleShare | consensus/dkg/dkg.go:394-422 | a share waits for its commitments, is accepted, or is complained about; exactly when it is complained about is `DkgComplaints.ComplainsExactly` |
| Dkg.DKG.HandleComplaint1 | consensus/dkg/dkg.go:426-455 | more than t complainants mark the dealer; before that the dealer itself answers |
| Dkg.DKG.HandleRevealShare | consensus/dkg/dkg.go:459-493 | an answer to a complaint is recorded if it fits and marks the dealer if not; others are ignored |
| Dkg.DKG.MarkUnanswered | consensus/dkg/dkg.go:499-509 | the loops mark exactly the unmarked dealers with an unanswered complaint |
| Dkg.DKG.BuildQUAL | consensus/dkg/dkg.go:634-645 | QUAL is the unmarked part of the process list, in its order |
| Dkg.DKG.BuildPKShare | consensus/dkg/dkg.go:681-695 | the private share is the sum modulo q of the shares there are from QUAL |
| Dkg.DKG.HandleGeneratingPub | consensus/dkg/dkg.go:497-534 | the end of phase 1 as a whole |
| Dkg.DKG.HandleCheckPubCommitment | consensus/dkg/dkg.go:538-570 | the first public commitments of a QUAL member count; a share that does not fit is published |
| Dkg.DKG.HandleComplaint2 | consensus/dkg/dkg.go:574-598 | a dealer is marked only by a share that fits its first commitments and not its public ones |
| Dkg.DKG.HandleBuildPubKey | consensus/dkg/dkg.go:602-630 | the public key is the product of all free terms, or there is none |
| RotatingDetector.SelectLeader | election/byzantine.go:205-214 | in any map order the loop returns a process of the round's rank, or 0 without one |
| RotatingDetector.EachLeadsOnce | election/byzantine.go:205-214 | with bijective ranks any n consecutive rounds elect each process exactly once |
| RotatingDetector.OneSuccession | election/byzantine.go:156-214 | of what two detectors with the same bijective ranks have announced, one sequence is a prefix of the other |
| RotatingDetector.RotatingByzantineLeaderDetector.constructor | election/byzantine.go:56-68 | round 1 starts with its leader announced |
| RotatingDetector.RotatingByzantineLeaderDetector.Complain | election/byzantine.go:76-105 | only the current leader can be complained about, once per round |
| RotatingDetector.RotatingByzantineLeaderDetector.HandleComplaint | election/byzantine.go:111-177 | more than f complaints make the process join and return; otherwise more than 2f advance the round by one and announce its leader |
| RotatingDetector.Accuracy | election/byzantine.go:76-219 | a correct member has left a round only if a correct member was told to complain in it |
| RotatingProgress.ComplainsExactly | election/byzantine.go:76-154 | in every run a correct member has complained about a round, to everybody, exactly if it was told to in it or more than f members complained to it; else to nobody |
| RotatingProgress.LeavesExactly | election/byzantine.go:111-177 | for f > 0 a correct member has left a round exactly if more than 2f members complained to it in it; for f = 0 two are enough and one is needed |
| RotatingDetector.RoundsByOne | election/byzantine.go:156-160 | rounds advance one at a time |
| ByzantineEpochChange.EpochChanger.DoCheckComplaint | consensus/failnoisy/byzantine/epoch_change.go:136-147 | the next epoch is asked for exactly if none is under way and the trusted leader is not the epoch's |
| ByzantineEpochChange.EpochChanger.DoCheckQuorums | consensus/failnoisy/byzantine/epoch_change.go:149-174 | more than f join, more than 2f start the epoch that is under way |
| ByzantineEpochChange.EpochChanger.Background | consensus/failnoisy/byzantine/epoch_change.go:99-134 | a turn is its input and its checks in order; a NEWEPOCH for another epoch skips the checks |
| ByzantineEpochChange.Accuracy | consensus/failnoisy/byzantine/epoch_change.go:99-174 | a correct member has left an epoch only if a correct member trusted another leader than that epoch's in it; nextEpoch is lastEpoch or one more; epochs 2, 3, ... start in order |
| ByzantineEpochChange.AsksExactly | consensus/failnoisy/byzantine/epoch_change.go:99-174 | in every run a correct member has asked everybody for the epoch after e exactly if it trusted another leader than e's in e or more than f members asked it; else it has asked nobody |
| ByzantineEpochChange.StartsExactly | consensus/failnoisy/byzantine/epoch_change.go:149-174 | in every run a correct member has started the epoch after e exactly if more than 2f members asked it while it was in e |
| ByzantineEpochChange.EpochsByOne | consensus/failnoisy/byzantine/epoch_change.go:162-173 | a turn advances the epoch by at most one |
| ByzantineEpochChange.EarlyNewEpoch | consensus/failnoisy/byzantine/epoch_change.go:78-134 | one early NEWEPOCH makes a fresh process complain, unless process 0 leads epoch 1 |

## Left out

- UniformNodeObject.ConsensusNode.TakeEpoch: covers an inner instance that is running; on one that waits for itself after a decision `Abort` never returns, which the system shows as a node that stays in `aborting`.
- EpochConsensus.EpochConsensus.StartEpoch: the init event is applied before any message; messages that overtake it are modelled as lost in `UniformSystem.IsDelivery`.
- KeyValueStore.KVStore.AcquireKeyLock: covers the moment at which the mutex is free; waiting for it is the steps Invoke and Grant of `KeyValueSpec`.
- KeyValueStore.Transaction.EnsureLocked: the second look at `done` is for a transaction used by two goroutines at once and is not modelled; neither is `KeyValueStore.Transaction.Set`, `Get` or `Remove` under such use.
- KeyValueStore.KVStore.ReleaseKeyLock: does not describe the crash on a free mutex; `KeyValueLocks.KeyLockIdentity` shows that it never happens.
- Dkg.DKG.HandleBuildPubKey: takes stored commitment lists as non-empty, as all handlers store them.
- DkgRun.KeyCorrectness: takes the public commitments of QUAL as reduced elements modulo p; elements with another modulus are modelled in the checks themselves.
- DkgSystem.HonestDealerProtected: asks that answers come after the complaints they answer; best-effort broadcast does not order them, and `DkgHonest.HonestDealerExactly` covers every order.
- SignedEchoSystem.Consistency: one broadcast instance per signing key; `ConsistencyAmong` covers shared keys, with what other instances have signed as a parameter.
- ChannelSystem.PrefixExactly: takes two correct members and two decodable payloads as given; with fewer there is nothing to disagree about. `IntegrityExactly`, `ReadyExactly` and `DispatchExactly` take one of each.
- Key generation messages that arrive before a member's own start event, the removal of disqualified members from the broadcaster (`RemoveCorrect`), and events after the shutdown that building the key starts.
- Liveness of uniform consensus, deadlock of transactions, timers, debouncing, failure detectors, `sync.Once`, goroutines and shutdown: a stalled instance is modelled as one that does nothing more.
- The Byzantine read/write epoch consensus: its initial epoch and its first real epoch are both 1, so what epoch 1 accepts counts as unbound and agreement across epochs does not follow from the code.
- Randomized consensus: its decision test accepts f votes and late first-phase messages overwrite second-phase ones (consensus/failsilent/randomized/node.go:263-308, 420, 496), so agreement does not follow from the code.
- Coins, commit-reveal, lower-epoch and monarchical elections, best-effort and regular reliable broadcast, stubborn links: time-driven, random, or only small local facts.
- Double-echo instances under the channel: the composition is carried out for echo broadcast.
- Two deliveries of one channel handed up by different goroutines in reversed order: one handler call is one step.
- Aliasing of byte slices, JSON, hashing, signatures and `big.Int` internals: parameters, or numbers.
- Changes of membership, drawing of random polynomials, key files, networks, loggers and commands.

# Verified model of the IBFT engine and the transaction overlay

This project models the proof-of-authority consensus engine (`crates/consensus/poa`) and the
write overlay of the database (`crates/database`) in Dafny, and proves what they are for:
agreement over all runs of the protocol, no block finalized that nobody verified, certificates that
verify everywhere, handlers that never hit their `expect`s, a message store and wait loops that lose
nothing, signed byte strings that cannot be confused, and a transaction that equals direct execution.

`dafny verify dfyconfig.toml` checks everything.

## How the model is built

| file | holds |
|---|---|
| `Types.dfy` | messages, certificates, ideal digests and signatures, the configuration of a node |
| `Verification.dfy` | the two certificate verifiers: the loops as methods, and what acceptance means |
| `Store.dfy` | the message store and the peer message handler as functions on a value |
| `Messages.dfy`, `ConsensusMessages.dfy` | the nested maps of the source and the classes that change them in place, proved equal to `Store.dfy` |
| `Nodes.dfy` | one validator running one height, cut into steps at the await points |
| `Ibft.dfy` | the same as a class over the store object, each method proved to take exactly one step of `Nodes.dfy` |
| `NodeInvariant.dfy`, `NodeSteps.dfy` | what every step of a validator keeps |
| `Effects.dfy` | what each step does, told by what is stored and what verifies: which messages stay, go and come, and where the round task stands |
| `System.dfy`, `SystemSteps.dfy` | all validators and the network: runs, evidence, and the invariant over runs |
| `Quorums.dfy`, `Agreement.dfy` | quorum intersection; agreement in one view and across rounds |
| `Validity.dfy` | no finalized block without an honest verification, and the bound for it |
| `Deliveries.dfy` | messages kept until their round, and quorums that were heard are acted on |
| `Scenarios.dfy`, `Limits.dfy`, `Sharpness.dfy` | building blocks for particular runs, four-validator runs that meet or just miss the assumptions, and a disagreeing run just past the bound for every configuration |
| `Guarantees.dfy`, `Proposals.dfy`, `Jumps.dfy`, `Caching.dfy`, `Waiting.dfy`, `WaitingProposals.dfy`, `Timeouts.dfy`, `Mock.dfy` | the other promises of the engine |
| `Encoding.dfy`, `Layout.dfy`, `Hashing.dfy` | the Borsh byte strings that are hashed, the place of each field in them, and the digest terms they stand for |
| `Transaction.dfy` | the database and the in-memory transaction |

A run is a sequence of states of all validators of one height. The network may lose, delay,
duplicate, reorder and invent messages; it cannot make a signature of a validator that follows the
code. Validators outside `State.nodes` are Byzantine and may sign anything. A crash is a
validator that takes no further step. The round task, the two future-round monitors, the message
handler and pruning interleave freely; a timeout, a jump or a cancel can fall between any two steps,
also between a broadcast and the local bookkeeping after it.

### Assumptions

- `recover_signer` and `sign_prehash` are an ideal signature, SHA-256 does not collide on what is hashed. A digest is
  kept as the term that was hashed. `Encoding.PreimagesAreUnambiguous` shows that the hashed bytes determine the fields
  that went in, and `Hashing.HashesDetermineTerms` that the 32-byte digests then determine the whole nested term.
- `is_proposer` is true of exactly one validator of the height per view, `quorum` is fixed per height and at
  least 1 (`run` asserts that), `verify_block` is a deterministic function of the bytes.
- Each validator runs a height at most once. A cancel counts as a crash.
- `abort()` takes effect at once; each operation under a mutex is one step; the broadcast channels do not lag.
- Heights, rounds and counters are unbounded naturals; the bound on rounds is proved, not assumed. In `Mocks` the
  rotation `height + round` does not wrap.
- Agreement across rounds (`Agreement.CrossRoundAgreement`) calls a validator unreliable if it is Byzantine or if some
  round timeout of it falls between its commit broadcast and the run state update after it, and assumes
  `3 * quorum >= 2 * n + unreliable`. If the earlier decision is of round 0, the proposers of the rounds after it, up to
  the later decision, must follow the code. Both assumptions are needed. For every configuration with
  `2 * n <= 3 * quorum < 3 * n` in which rounds 0 and 2 have different proposers, `Sharpness.BoundIsExact` is a run with
  exactly one unreliable validator more, all of them honest, in which two nodes finalize different blocks.
  `Limits.ByzantineProposerBreaksRoundZero` has as many unreliable validators as allowed, but the proposer of round 1 is
  Byzantine, and two honest nodes finalize different blocks. `Limits.TimelyRunDecides` is a run that meets every
  assumption and in which two nodes decide, in rounds 0 and 1.
- Validity (`Validity.FinalizedIsValid`) assumes `quorum >= Byzantine + 2`. An honest proposer does not verify the block
  it builds, so with one validator fewer `Validity.UnverifiedIsFinalized` has any block of an honest round 0 proposer
  finalized.

### Where the code and its comments differ

- `wait_rcc` takes the first prepared block it finds, while `proposal_1_verify_fn` looks for the one with
  the highest round. `Limits.HonestProposalIsRejected` is a run of honest nodes in which an honest proposer sends a
  proposal that every follower rejects; `Proposals.AcceptedExactlyWhenAgreed` says exactly when it is accepted.
- `proposal_1_verify_fn` starts its maximum at 0 and compares strictly, so a certificate of round 0 does not bind a
  follower, although the comment on that branch (ibft.rs:835) says it is taken only without any certificate
  (`Limits.RoundZeroDoesNotBind`). The proof across rounds carries a decision of round 0 through the proposer's choice
  instead (`Agreement.ProposerKeepsBlock`).
- `verify_block_digest` does not tie the block's round to the view's round. `Guarantees.FinalizationProofStandsAlone`
  holds for whatever round the proposer put there.
- A validator that jumps forward drops the certificate of the round it leaves. Retention across rounds
  (`Agreement.CertificateRetained`) is therefore a statement about quorums, and needs three of them to meet.

## Model

| member | source | states |
|---|---|---|
| Agreement.CrossRoundAgreement | crates/consensus/poa/src/ibft.rs:63-137 | In every run in which `3 * quorum >= 2 * n + unreliable` (Byzantine validators and those that time out between commit broadcast and state update), any two nodes that finalize the height, in any two rounds, finalize the same raw block, provided the earlier round is at least 1 or the proposers from there to the later one follow the code |
| Agreement.CrashOnlyAgreement | crates/consensus/poa/src/ibft.rs:63-137 | With crashes, loss, delay and reordering only, and no late timeout, `3 * quorum >= 2 * n` is enough for any two decisions to agree |
| Agreement.CommitQuorumsAgree | crates/consensus/poa/src/ibft.rs:412-491 | Two commit quorums of a height, the earlier one carried on by honest proposers or, from round 1 on, by one honest follower, are for the same raw block |
| Agreement.BlockKept | crates/consensus/poa/src/ibft.rs:323-410 | Once a quorum committed a block, every digest prepared in that or any later round is a digest of that block, with Byzantine and late validators within the bound |
| Agreement.ProposerKeepsBlock | crates/consensus/poa/src/ibft.rs:493-561 | After a decision of round 0 the honest proposer of any later round re-proposes the decided block, although it takes the first prepared block it finds |
| Agreement.FollowerKeepsBlock | crates/consensus/poa/src/ibft.rs:786-833 | After a commit quorum of round >= 1 the highest-certificate check of one honest follower lets only that block through, even if the proposer is Byzantine |
| Agreement.CertificateRetained | crates/consensus/poa/src/ibft.rs:692-766 | Once a quorum committed in round r, every quorum of round changes for a later round contains one whose certificate is of round >= r, although jumping nodes drop theirs, and Byzantine and late validators may |
| Agreement.JumpNeedsQuorum | crates/consensus/poa/src/ibft.rs:114-127 | A node jumps to a future round only after a quorum sent round changes for that round |
| Agreement.StepRetains | crates/consensus/poa/src/ibft.rs:114-134 | Every step keeps: a round change that forgot a round its sender committed in was preceded by a round change quorum in between |
| Agreement.TimelyRunRetains | crates/consensus/poa/src/ibft.rs:77-136 | The retention invariant of all nodes that are never late, and the system invariant, hold in every state of every run |
| Agreement.SingleViewAgreement | crates/consensus/poa/src/ibft.rs:454-491 | With Byzantine validators and `2 * quorum > n + f`, two honest nodes that finalize in the same view return the same bytes and the same proof round |
| Agreement.CommittedOnce | crates/consensus/poa/src/ibft.rs:442-451 | At most one digest gathers a commit quorum in a view |
| Agreement.PreparedOnce | crates/consensus/poa/src/ibft.rs:308-320 | At most one digest is prepared in a view, counting the proposer with the prepare signers |
| Agreement.CertificatesAgree | crates/consensus/poa/src/ibft.rs:869-921 | Any two certificates of one view that pass `verify_prepared_certificate` carry the same digest |
| Agreement.CertificateIsPrepared | crates/consensus/poa/src/ibft.rs:887-920 | An accepted certificate is the work of the proposer and `quorum - 1` other validators |
| Agreement.DecisionHasQuorum | crates/consensus/poa/src/ibft.rs:678-690 | Every finalized block was committed by a quorum in the deciding view |
| Validity.FinalizedIsValid | crates/consensus/poa/src/ibft.rs:262-276 | In every run with `quorum >= Byzantine + 2` each finalized block passed `verify_block` |
| Validity.CommittedIsValid | crates/consensus/poa/src/ibft.rs:442-451 | The same of every digest with a commit quorum |
| Validity.PreparedIsValid | crates/consensus/poa/src/ibft.rs:822-840 | Whatever was prepared passed `verify_block`: by induction over the certificates, each block goes back to one an honest validator verified |
| Validity.FirstPrepareIsVerified | crates/consensus/poa/src/ibft.rs:262-276 | In every run, with any number of Byzantine validators, an honest validator signs a round 0 prepare only for a block that passed `verify_block` |
| Validity.UnverifiedIsFinalized | crates/consensus/poa/src/ibft.rs:239-253 | The bound is exact: with `quorum < Byzantine + 2` and an honest round 0 proposer there is a run in which it finalizes any block it built, verified or not |
| Sharpness.BoundIsExact | crates/consensus/poa/src/ibft.rs:442-451 | The bound is exact: for every configuration with `2 * n <= 3 * quorum < 3 * n` and different proposers of rounds 0 and 2 there is a run of honest validators, exactly one late validator more than agreement allows, in which two nodes finalize different blocks |
| Sharpness.MockBoundIsExact | crates/consensus/poa/src/sim_tests/mock.rs:22-38 | The same for the rotation with quorum `2n / 3 + 1` and every n from 4 on |
| Sharpness.DividedDisagree | crates/consensus/poa/src/ibft.rs:692-766 | If the round 0 proposer and the groups late, kept, jumped and idle partition the validators, so that the first with late, kept and jumped, then late, kept and idle, then late, jumped and idle are quorums, and a late one proposes round 2, then a round 0 decision is forgotten and any other block is finalized in round 2 |
| Limits.ByzantineProposerBreaksRoundZero | crates/consensus/poa/src/ibft.rs:786-840 | A run with one Byzantine validator of four, who proposes after a decision of round 0, in which two honest nodes finalize different blocks |
| Limits.RoundZeroDoesNotBind | crates/consensus/poa/src/ibft.rs:811-816 | A follower accepts block B on a quorum of round changes that holds verified round 0 certificates for block A |
| Limits.HonestProposalIsRejected | crates/consensus/poa/src/ibft.rs:525-527 | A run of honest validators without late timeouts in which an honest proposer sends a proposal that is rejected |
| Limits.FirstIsNotHighest | crates/consensus/poa/src/ibft.rs:525-527 | Of a round 0 certificate for A, a round 1 certificate for B and none, in this order, a proposal for A is built and rejected, whatever the quorum |
| Limits.TimelyRunDecides | crates/consensus/poa/src/ibft.rs:190-210 | A run that meets every assumption of agreement across rounds and in which two nodes finalize, one in round 0 and one in round 1 |
| Scenarios.TimesOut | crates/consensus/poa/src/ibft.rs:741-763 | A timeout before the run state says Commit, also right after the commit broadcast, sends what was carried before and no new certificate |
| Scenarios.TimesOutCertified | crates/consensus/poa/src/ibft.rs:702-739 | A timeout in the commit state sends the certificate of the block agreed on |
| SystemSteps.NextKeeps | crates/consensus/poa/src/ibft.rs:63-137 | Every step of any node, under any delivery, keeps the system invariant: local invariants, known signatures, and a justification for every vote cast |
| SystemSteps.RunKeeps | crates/consensus/poa/src/ibft.rs:63-137 | The system invariant holds in every state of every run |
| SystemSteps.StepJustified | crates/consensus/poa/src/ibft.rs:190-232 | Whatever a node signs in a step is justified: later-round proposals by a round change quorum, prepares by an acceptable proposal, commits by a prepared digest, round changes by a verifying certificate |
| SystemSteps.BackedIsPrepared | crates/consensus/poa/src/ibft.rs:412-440 | Reaching the prepare count means the digest was prepared by a quorum |
| SystemSteps.TakenCommitsAreQuorum | crates/consensus/poa/src/messages.rs:410-435 | Counted commits of one view come from as many different validators |
| SystemSteps.ListedAreQuorum | crates/consensus/poa/src/ibft.rs:782-818 | The round changes listed in an acceptable proposal were sent by a quorum |
| NodeSteps.StepKeeps | crates/consensus/poa/src/ibft.rs:63-137 | Every step of a node keeps its invariant: checked store with truthful verdicts, one vote per kind and view, stored proposal and prepares past the prepare state, a carried round change that verifies |
| NodeSteps.TimeoutKeeps | crates/consensus/poa/src/ibft.rs:692-766 | The timeout handler keeps the invariant in all three of its cases |
| NodeSteps.ComposedCertificateVerifies | crates/consensus/poa/src/types.rs:253-266 | A certificate composed of the stored proposal and its matching prepares verifies for every later round limit |
| NodeSteps.TimeoutInCommitSends | crates/consensus/poa/src/ibft.rs:702-739 | In the commit state the proposal is stored and the round change that is sent carries a verifying certificate of the current round |
| NodeSteps.TakenSealsProve | crates/consensus/poa/src/messages.rs:410-435 | The seals taken for a digest recover to pairwise different validators, at least a quorum of them |
| NodeSteps.AcceptedIsVerified | crates/consensus/poa/src/messages.rs:352-392 | What the caching store answers about a peer's proposal is what the verifier says of it: positive exactly when in round 0 the digest matches and the block verifies, and later the proposal is acceptable |
| NodeSteps.FinishKeeps | crates/consensus/poa/src/ibft.rs:678-690 | When the round task has finished the proposal is still stored and the block is finalized |
| NodeInvariant.HandleKeepsStore | crates/consensus/poa/src/messages.rs:72-177 | Whatever a peer sends, the store only holds messages signed by their recorded sender, from validators, in round bounds, commits with the sender's own seal, no prepare of the proposer |
| Effects.PrepareAfter | crates/consensus/poa/src/messages.rs:292-407 | Of every step: each stored prepare stays unchanged unless it is pruned, is of a round left in the commit state, or is of the counted view for another digest; new is exactly a welcome arrival or the own prepare |
| Effects.CommitAfter | crates/consensus/poa/src/messages.rs:303-435 | Of every step: each stored commit stays unchanged unless it is pruned, of the counted view for another digest, or taken with a quorum; new is exactly a welcome arrival or the own commit |
| Effects.ChangeAfter | crates/consensus/poa/src/messages.rs:314-569 | Of every step: each stored round change stays unless it is pruned, asked for and invalid, or taken with a quorum by the proposer; new is exactly a welcome arrival, or the own one of the next round for its proposer |
| Effects.ProposalAfter | crates/consensus/poa/src/messages.rs:271-453 | Of every step: each stored proposal stays unless it is pruned, or its round finishes or is left in the commit state; new is exactly a welcome arrival, not yet verified, or the own proposal, counted as verified |
| Effects.JudgedExactly | crates/consensus/poa/src/messages.rs:72-177 | The handler stores exactly the checked messages of other validators above the finalized height and within the round bound; silently dropped are exactly those of finalized heights |
| Effects.BackgroundOutcome | crates/consensus/poa/src/ibft.rs:563-676 | Arrivals, pruning and the questions of the monitors change nothing of a node but its store; a cancel only stops it |
| Effects.ProposeFirstOutcome | crates/consensus/poa/src/ibft.rs:239-253 | Without a block the round task fails; otherwise the block goes out for the round without a certificate |
| Effects.CollectOutcome | crates/consensus/poa/src/ibft.rs:493-561 | Exactly a quorum of senders whose stored round change verifies makes the proposer propose on all of them, with a block one of them prepared, or a fresh one when none did; it fails only without either |
| Effects.CheckProposalOutcome | crates/consensus/poa/src/ibft.rs:262-306 | Nothing stored leaves the node unchanged; a stored proposal that passes is prepared, any other ends the round task |
| Effects.CheckPreparesOutcome | crates/consensus/poa/src/ibft.rs:412-447 | A commit goes out exactly when `quorum - 1` senders have a stored prepare for the digest; below that only the store changes |
| Effects.CheckCommitsOutcome | crates/consensus/poa/src/ibft.rs:454-491 | The round is sealed exactly when a quorum of senders has a stored commit for the digest, with one seal of each |
| Effects.StoringOutcome | crates/consensus/poa/src/ibft.rs:405-409 | After storing its own message the node waits for the votes on that digest |
| Effects.FinishOutcome | crates/consensus/poa/src/ibft.rs:678-690 | The stored proposal exists; the result is its block with its own round and the taken seals |
| Effects.TimeoutOutcome | crates/consensus/poa/src/ibft.rs:692-766 | One round change for the next round is signed: in the commit state with the certificate of the stored proposal and every matching prepare once, otherwise with what was carried; the node waits in the next round, or is dead beyond the last |
| Effects.ProposalJumpsExactly | crates/consensus/poa/src/ibft.rs:660-675 | A node may jump to any later round, at whatever distance and in whatever phase, exactly when a stored proposal of it is acceptable |
| Effects.ChangeJumpsExactly | crates/consensus/poa/src/ibft.rs:602-621 | ... or exactly when the stored round changes of that round that verify have a quorum of senders |
| Effects.JumpOutcome | crates/consensus/poa/src/ibft.rs:114-127 | After a jump the node waits in that round; nothing it signed or carries changes |
| Deliveries.HonestVotesAreWelcome | crates/consensus/poa/src/messages.rs:72-177 | No prepare or commit an honest validator signed for the height is refused by an honest peer |
| Deliveries.HonestPrepareIsStored | crates/consensus/poa/src/messages.rs:95-119 | In every run, when an honest prepare is delivered, that validator's slot then holds a prepare for its digest, whatever came before |
| Deliveries.HonestCommitIsStored | crates/consensus/poa/src/messages.rs:120-147 | The same for commits |
| Deliveries.PrepareStays | crates/consensus/poa/src/ibft.rs:412-422 | Over any stretch of a run, through timeouts, jumps and pruning, an early prepare is still stored while the node is on its way to, or in, the wait for prepares of its digest |
| Deliveries.CommitStays | crates/consensus/poa/src/ibft.rs:454-475 | The same for commits up to the wait for commits |
| Deliveries.ChangeStays | crates/consensus/poa/src/ibft.rs:493-505 | The same for a round change that verifies, up to the collecting of its round |
| Deliveries.ProposalStays | crates/consensus/poa/src/ibft.rs:285-306 | The same for a proposal, until its round is over |
| Deliveries.HeardQuorumCommits | crates/consensus/poa/src/ibft.rs:412-447 | In every run, once `quorum - 1` honest prepares were delivered, or cast by the follower itself, however early, the next recount in their round commits |
| Deliveries.HeardQuorumSeals | crates/consensus/poa/src/ibft.rs:454-491 | In every run, once a quorum of honest commits was delivered or cast, the next take in their round seals it |
| Deliveries.StoredProposalJumps | crates/consensus/poa/src/ibft.rs:660-675 | In every run, an acceptable proposal that was ever stored for a later round keeps the jump there open until the node has come to that round |
| Deliveries.StoredProposalIsAnswered | crates/consensus/poa/src/ibft.rs:285-306 | In every run, a follower that comes to the round of a proposal stored early prepares it exactly when it passes, and else gives up |
| Deliveries.GatheredQuorumJumps | crates/consensus/poa/src/ibft.rs:574-622 | In every run, a quorum of verified round changes stored at whatever times opens the jump to their round |
| Deliveries.GatheredQuorumProposes | crates/consensus/poa/src/ibft.rs:493-561 | In every run, such a quorum makes the proposer of that round propose |
| Guarantees.NeverPanics | crates/consensus/poa/src/ibft.rs:678-724 | In no state of any run has an `expect` or `assert` of the timeout or finish handler fired |
| Guarantees.CommitStateHolds | crates/consensus/poa/src/ibft.rs:702-724 | In every reachable commit state the agreed proposal and `quorum - 1` matching prepares are stored |
| Guarantees.TimeoutCertificateVerifies | crates/consensus/poa/src/ibft.rs:726-750 | The round change of a timeout in the commit state verifies at every validator, after any re-signing to a later round, and its prepares never include the proposer |
| Guarantees.ResignedVerifies | crates/consensus/poa/src/types.rs:321-326 | Re-signing for a later round keeps the certificate and its validity |
| Guarantees.CarriedRoundChangeVerifies | crates/consensus/poa/src/ibft.rs:846-867 | In every state of every run the carried round change verifies |
| Guarantees.FinalizationProofStandsAlone | crates/consensus/poa/src/types.rs:507-513 | Every finalized block carries at least quorum seals that recover over its bytes and proof round to different validators of the height |
| Guarantees.CachedAnswerIsPlain | crates/consensus/poa/src/messages.rs:352-392 | In every run the cached query about a peer's proposal equals uncached verification, and is positive exactly for a proposal that passes: digest and block in round 0, acceptable later |
| Guarantees.FlaggedFilterIsPlain | crates/consensus/poa/src/messages.rs:547-569 | In every run the flagged filter keeps exactly the round changes that verify |
| Caching.ProposalVerifiedOnce | crates/consensus/poa/src/messages.rs:352-392 | Over any run of a node, a surviving later-round proposal that was verified keeps its verdict and is never verified again |
| Caching.ChangeVerifiedOnce | crates/consensus/poa/src/messages.rs:491-502 | Over any run of a node, a surviving round change that was verified keeps its flag and is never verified again |
| Caching.ProposalStep | crates/consensus/poa/src/messages.rs:352-392 | No step changes a stored proposal or a cached verdict, and a step that asks for a proposal leaves it with one |
| Caching.ChangeStep | crates/consensus/poa/src/messages.rs:547-568 | No step changes a stored round change or unsets its flag, and a step that verifies it and keeps it sets the flag |
| Guarantees.StoredRoundsInBounds | crates/consensus/poa/src/messages.rs:517-544 | In every run every stored round can index the round arrays |
| Guarantees.StepProgresses | crates/consensus/poa/src/ibft.rs:114-134 | Leaving a round goes strictly forward, the carried certificate never gets older, a running node is within `MAX_ROUND` |
| Guarantees.RoundsProgress | crates/consensus/poa/src/ibft.rs:73-137 | Over any stretch of a run rounds and carried certificates never go back, and a decision is final |
| Proposals.AcceptedExactlyWhenAgreed | crates/consensus/poa/src/ibft.rs:323-362 | A proposal built from collected round changes is accepted if and only if its block is the one prepared at the highest certified round >= 1, or there is none and the block verifies |
| Proposals.OneCertifiedBlockIsAccepted | crates/consensus/poa/src/ibft.rs:525-561 | With at most one certified block, honest block rounds and a block that verifies, every validator accepts the proposal |
| Proposals.ListedIsQuorum | crates/consensus/poa/src/ibft.rs:529-543 | The `swap_remove` and push keep the listed round changes a quorum of verified round changes |
| Jumps.ProposalJumpLandsReady | crates/consensus/poa/src/ibft.rs:114-120 | After a future-proposal jump the first query of the new round, however late, yields a prepare |
| Jumps.QuorumJumpLandsReady | crates/consensus/poa/src/ibft.rs:121-127 | After a future-RCC jump the proposer of the new round proposes at its first pass, however late |
| Jumps.JumpFindsProposal | crates/consensus/poa/src/ibft.rs:635-676 | A jump on a proposal leaves it stored with a positive verdict, and the node is not the proposer of that round |
| Jumps.ProposalStaysReady | crates/consensus/poa/src/messages.rs:352-392 | No step while waiting takes the verified proposal away |
| Jumps.QuorumStaysReady | crates/consensus/poa/src/messages.rs:478-514 | No step while waiting takes the verified round changes away |
| Jumps.QuorumIsTaken | crates/consensus/poa/src/ibft.rs:493-506 | With a ready quorum `wait_rcc` does not wait |
| Jumps.QueryAfterNoticeAnswers | crates/consensus/poa/src/ibft.rs:287-306 | While a node waits, a stored proposal of its round stays stored, so the query after a notice finds it and its `expect` does not fire |
| Verification.AcceptsExactly | crates/consensus/poa/src/ibft.rs:768-844 | The scan with its running maximum accepts exactly the proposals whose digest matches, whose round changes are a quorum of distinct validators for the view, and whose block is certified by the first certificate of maximal round >= 1, or verifies when there is none |
| Verification.HighestIsFirstMaximum | crates/consensus/poa/src/ibft.rs:788-817 | The running maximum started at 0 ends on the first certificate of maximal round, or on none when all are below 1 |
| Verification.NoFaultIsQuorum | crates/consensus/poa/src/ibft.rs:791-809 | The scan finds no fault exactly when all round changes are for the view and from distinct validators |
| Verification.ScanRoundChanges | crates/consensus/poa/src/ibft.rs:788-818 | The loop returns the first fault, or the highest certificate and its round |
| Verification.VerifyProposal1 | crates/consensus/poa/src/ibft.rs:768-844 | The verifier returns the specified verdict with the specified error, and accepts exactly the acceptable proposals |
| Verification.RefusedWith | crates/consensus/poa/src/ibft.rs:768-844 | Which error a later-round proposal is refused with: wrong digest, no certificate, too few round changes, a repeated validator at the first bad place, or an unverified block without a certificate; otherwise an invalid round change |
| Verification.VerifyPreparedCertificate | crates/consensus/poa/src/ibft.rs:869-921 | Accepts exactly certificates of the height below the round limit, signed by the proposer, with `quorum - 1` matching prepares of distinct non-proposer validators |
| ConsensusStore.InsertAnnounces | crates/consensus/poa/src/messages.rs:293-328 | What an insertion adds to any view, the channel announces |
| Waiting.Arrive | crates/consensus/poa/src/messages.rs:57-70 | However many peer messages the handler takes, what the store gains in any view was announced on the channel, a view has a new proposal exactly when one was announced, and the store ends as after handling them one by one |
| Waiting.WaitPrepares | crates/consensus/poa/src/ibft.rs:412-439 | Over the store object and the message handler: the loop ends only after a recount that found `quorum - 1` prepares, all matching; otherwise, when nothing arrives any more, it is blocked with every notice read and fewer are stored. Wherever it stands, deliveries and prepare checks of the protocol model lead there |
| Waiting.WaitCommits | crates/consensus/poa/src/ibft.rs:454-490 | The loop ends only after a take that handed out a quorum of matching commits, so its `expect` does not fire; otherwise, when nothing arrives any more, it is blocked with every notice read and fewer are stored. Wherever it stands, deliveries and commit checks of the protocol model lead there |
| Waiting.WaitRoundChanges | crates/consensus/poa/src/ibft.rs:493-523 | The loop ends only after a take that handed out a quorum of verified round changes; otherwise, when nothing arrives any more, it is blocked with every notice read and fewer that verify are stored. Wherever it stands, deliveries and collecting steps of the protocol model lead there |
| Waiting.ScanDown | crates/consensus/poa/src/ibft.rs:574-600 | The scan over the store object keeps counter plus unread notices at or above what is stored; it returns a later round with a verified quorum, or leaves every later counter below the quorum |
| Waiting.TakeNotice | crates/consensus/poa/src/ibft.rs:602-621 | A notice steps the counter of its round exactly when it is of this height and later, and a reached quorum is recounted |
| Waiting.WaitFutureRoundChanges | crates/consensus/poa/src/ibft.rs:574-622 | Over the store object and the message handler: a returned round is later and has a quorum of verified round changes; otherwise, when nothing arrives any more, the loop is blocked with every notice read and no later round has a quorum that verifies |
| ProposalWaits.WaitProposal | crates/consensus/poa/src/ibft.rs:278-306 | Over the store object and the message handler: the loop ends with the answer about the stored proposal, so its `expect` does not fire; otherwise, when nothing arrives any more, it is blocked with every notice read and no proposal of the view is stored. Wherever it stands, deliveries and proposal checks of the protocol model lead there |
| ProposalWaits.AskProposal | crates/consensus/poa/src/ibft.rs:281-306 | With nothing stored the question is a step that leaves the node as it is; otherwise the node has prepared the stored digest or given up |
| ProposalWaits.ScanProposals | crates/consensus/poa/src/ibft.rs:636-658 | The scan with arrivals in between: it returns a later round with an acceptable proposal, above which only rounds with an unread notice have one |
| ProposalWaits.TakeProposalNotice | crates/consensus/poa/src/ibft.rs:660-675 | A notice of a later round of the height is followed by the question; no acceptable proposal goes unnoticed |
| ProposalWaits.WaitFutureProposals | crates/consensus/poa/src/ibft.rs:636-675 | A returned round is later and has an acceptable proposal; otherwise, when nothing arrives any more, the loop is blocked with every notice read and no later round has one |
| Timeouts.MultiplierTable | crates/consensus/poa/src/ibft.rs:923-932 | The table holds the powers of two of all rounds and they fit 32 bits |
| Timeouts.TotalIsPowers | crates/consensus/poa/src/ibft.rs:923-936 | The rounds before a round last its unsaturated timeout minus the base time |
| Timeouts.OutlastsAllEarlierRounds | crates/consensus/poa/src/ibft.rs:923-936 | A round lasts exactly the base time longer than all earlier rounds together if and only if it does not saturate |
| Timeouts.SaturatesExactly | crates/consensus/poa/src/ibft.rs:933-936 | A timeout is cut off exactly when its seconds no longer fit 64 bits |
| Timeouts.DeadAfter97Days | crates/consensus/poa/src/lib.rs:10-14 | With two seconds for round 0, all rounds of a height together last 97 days |
| Ibft.ComposeProposal | crates/consensus/poa/src/ibft.rs:525-561 | Position search, `swap_remove` and metadata list yield the specified proposal |
| Ibft.HeightRun.EnterRound | crates/consensus/poa/src/ibft.rs:139-188 | Starts a round, adding the own round change exactly when its view matches and the node proposes; dead beyond the last round |
| Ibft.HeightRun.ProposeFirst | crates/consensus/poa/src/ibft.rs:239-253 | Takes exactly the step of the protocol model |
| Ibft.HeightRun.CollectRoundChanges | crates/consensus/poa/src/ibft.rs:493-561 | Takes exactly the step of the protocol model, for whatever order the hash map yields |
| Ibft.HeightRun.StoreProposal | crates/consensus/poa/src/ibft.rs:255-259 | Takes exactly the step of the protocol model |
| Ibft.HeightRun.CheckProposal | crates/consensus/poa/src/ibft.rs:364-403 | Takes exactly the step of the protocol model: wait, give up, or broadcast a prepare for the stored digest (Effects.CheckProposalOutcome says when) |
| Ibft.HeightRun.StorePrepare | crates/consensus/poa/src/ibft.rs:405-409 | Takes exactly the step of the protocol model |
| Ibft.HeightRun.CheckPrepares | crates/consensus/poa/src/ibft.rs:412-447 | Takes exactly the step of the protocol model: recount, and on `quorum - 1` broadcast a commit |
| Ibft.HeightRun.StoreCommit | crates/consensus/poa/src/ibft.rs:449-451 | Takes exactly the step of the protocol model, with the run state update |
| Ibft.HeightRun.CheckCommits | crates/consensus/poa/src/ibft.rs:454-491 | Takes exactly the step of the protocol model, for whatever order the hash map yields |
| Ibft.HeightRun.Finish | crates/consensus/poa/src/ibft.rs:678-690 | Returns the stored block with the taken seals, and panics exactly when no proposal is stored |
| Ibft.HeightRun.TakeCertificate | crates/consensus/poa/src/ibft.rs:702-726 | Takes the proposal and its matching prepares; a certificate results exactly when there are `quorum - 1` of them |
| Ibft.HeightRun.HandleTimeout | crates/consensus/poa/src/ibft.rs:692-766 | Takes exactly the timeout step of the protocol model, panics included |
| Ibft.HeightRun.LeaveCommitState | crates/consensus/poa/src/ibft.rs:702-739 | The commit case: takes exactly that step for whatever order the hash map yields |
| Ibft.HeightRun.TryFutureProposal | crates/consensus/poa/src/ibft.rs:660-675 | Jumps to any later round exactly when a stored proposal of it is acceptable, as the protocol model allows, and then waits there; otherwise the node is unchanged |
| Ibft.HeightRun.TryFutureRoundChanges | crates/consensus/poa/src/ibft.rs:602-621 | Jumps exactly when the verifying round changes of that round have a quorum of senders, as the protocol model allows, and then waits there; otherwise the node is unchanged |
| ConsensusStore.ConsensusMessages.Prune | crates/consensus/poa/src/messages.rs:248-269 | Exactly the entries below the height go, from all five maps |
| ConsensusStore.PruneInTurn | crates/consensus/poa/src/messages.rs:248-269 | Pruning the five maps one after another, each its own step of the protocol model, ends as pruning at once |
| ConsensusStore.ConsensusMessages.AddProposal | crates/consensus/poa/src/messages.rs:271-290 | First proposal of its view stays, an own later-round proposal counts as verified, a notice is sent exactly on insertion |
| ConsensusStore.ConsensusMessages.AddPrepare | crates/consensus/poa/src/messages.rs:292-301 | First prepare per view and sender stays, a notice is sent exactly on insertion |
| ConsensusStore.ConsensusMessages.AddCommit | crates/consensus/poa/src/messages.rs:303-312 | First commit per view and sender stays, a notice is sent exactly on insertion |
| ConsensusStore.ConsensusMessages.AddRoundChange | crates/consensus/poa/src/messages.rs:314-328 | First round change per view and sender stays, flagged only when it is our own, a notice is sent exactly on insertion |
| ConsensusStore.ConsensusMessages.GetValidProposal | crates/consensus/poa/src/messages.rs:352-392 | Answers the cached or computed verdict with the digest when it is positive, and caches later-round verdicts |
| ConsensusStore.ConsensusMessages.GetValidPrepareCount | crates/consensus/poa/src/messages.rs:395-407 | Drops what does not pass in the view, counts the rest, touches nothing else |
| ConsensusStore.ConsensusMessages.GetValidRoundChangeCount | crates/consensus/poa/src/messages.rs:547-569 | Drops what does not verify, flags the rest, and counts it |
| ConsensusStore.ConsensusMessages.TakeProposal | crates/consensus/poa/src/messages.rs:438-453 | Removes and returns the proposal of the view |
| ConsensusStore.ConsensusMessages.TakeValidPrepares | crates/consensus/poa/src/messages.rs:456-475 | Removes the view's prepares and returns each one that passes exactly once, in some order |
| ConsensusStore.ConsensusMessages.TakeValidCommits | crates/consensus/poa/src/messages.rs:410-435 | Hands out all passing commits exactly when they reach the quorum, and otherwise keeps them |
| ConsensusStore.ConsensusMessages.TakeValidRoundChanges | crates/consensus/poa/src/messages.rs:478-514 | Hands out all verified round changes exactly when they reach the quorum, and otherwise keeps them flagged |
| ConsensusStore.ConsensusMessages.HasProposalByRound | crates/consensus/poa/src/messages.rs:517-531 | True exactly for rounds with a proposal that is not known to be invalid |
| ConsensusStore.ConsensusMessages.RoundChangeCountByRound | crates/consensus/poa/src/messages.rs:534-544 | Each entry is the number of round changes stored for that round; no level, not even an empty one, is out of bounds |
| ConsensusStore.MessageHandler.HandleMessage | crates/consensus/poa/src/messages.rs:72-177 | The checks in source order store, ignore or refuse a peer message as specified, the store changes only when it is stored, and every insertion is announced |
| ConsensusStore.MessageHandler.PruneMessages | crates/consensus/poa/src/messages.rs:189-192 | Everything up to the finalized height goes |
| ConsensusStore.MessageHandler.FinishHeight | crates/consensus/poa/src/engine.rs:59-72 | After a finalized height the height is updated and everything up to it pruned; after a cancel nothing changes; it panics exactly when the height did not grow |
| ConsensusStore.FinishedHeightIsClosed | crates/consensus/poa/src/engine.rs:64-68 | After that no proposal, prepare, commit or round change of a finished height is left, and none is ever stored again |
| Encoding.PreimagesAreUnambiguous | crates/consensus/poa/src/types.rs:536-586 | Two equal byte strings that are hashed come from the same message, of the same kind |
| Hashing.HashesDetermineTerms | crates/consensus/poa/src/types.rs:536-586 | Among messages on whose bytes the hash does not collide, equal digests mean equal messages, down through nested certificates and signatures |
| Hashing.HashedBytes | crates/consensus/poa/src/types.rs:536-586 | The bytes each digest is the hash of, field by field at its position, nested digests and signatures included |
| Encoding.BlockIsNoMessage | crates/consensus/poa/src/types.rs:583-586 | The bytes a commit seal signs are never the bytes of a proposal, prepare, commit or round change |
| Encoding.SameKindInjective | crates/consensus/poa/src/types.rs:536-554 | Equal bytes of two proposals, or of two prepares, mean the same message |
| Encoding.CommitInjective | crates/consensus/poa/src/types.rs:556-573 | Commit bytes determine view, digest and seal |
| Encoding.RoundChangeInjective | crates/consensus/poa/src/types.rs:575-581 | Round change bytes determine view and certificate, however many prepares it lists |
| Encoding.BlockInjective | crates/consensus/poa/src/types.rs:583-586 | Block bytes determine raw block and round |
| Encoding.BuffersAreFilledExactly | crates/consensus/poa/src/types.rs:536-573 | The fixed buffer sizes are the exact encoded lengths |
| Layout.FillBuffer | crates/consensus/poa/src/codec.rs:11-15 | Field by field the buffer ends up holding exactly the preimage, each field at its place |
| Layout.InPlaceExactly | crates/consensus/poa/src/types.rs:524-586 | The hashed byte strings are exactly those with tag, height from the lowest byte up, round, digest and seal, or option byte, proposal, prepare count and prepares, or length, raw block and round, at their positions |
| Mocks.QuorumRule | crates/consensus/poa/src/sim_tests/mock.rs:35-38 | With f = (n - 1) / 3: quorums overlap in more than f, survive f failures, and `3 * quorum` exceeds `2 * n` by exactly `3 - 2n mod 3` |
| Mocks.MockMeetsAssumptions | crates/consensus/poa/src/sim_tests/mock.rs:22-38 | The concrete validator manager discharges the assumptions of the agreement theorems, and says exactly how many unreliable validators agreement across rounds bears |
| Mocks.RotationIsFair | crates/consensus/poa/src/sim_tests/mock.rs:23-26 | In any n consecutive rounds every validator proposes exactly once |
| Mocks.TurnsPassOn | crates/consensus/poa/src/sim_tests/mock.rs:23-26 | The first validator starts, and each round and each height pass the turn to the next in the list |
| Quorums.CommonMember | crates/consensus/poa/src/backend.rs:8-14 | Two quorums share a member outside any small enough faulty set |
| Quorums.CommonMemberOfThree | crates/consensus/poa/src/backend.rs:8-14 | Three quorums, two of them without the quiet members, share a member outside the faulty set when `3 * quorum + quiet > 2 * n + faulty` |
| Transactions.TransactionRefinesDatabase | crates/database/src/transaction.rs:29-143 | After any sequence of puts, deletes and batches the transaction sees the database that direct execution would have produced |
| Transactions.CollectIsExecute | crates/database/src/transaction.rs:94-124 | One recorded operation over the overlay is that operation executed on what the overlay shows |
| Transactions.MergeIsOverlay | crates/database/src/transaction.rs:116-124 | Merging a batch is overlaying it |
| Transactions.OverlayLookup | crates/database/src/transaction.rs:29-47 | Reading the newest recorded operation first, then the base, is reading the overlaid database |
| Transactions.InMemoryTransaction.Get | crates/database/src/transaction.rs:35-48 | Reads as the database with all recorded operations applied |
| Transactions.InMemoryTransaction.MultiGet | crates/database/src/transaction.rs:50-79 | All values in key order, on both branches, as the database with all recorded operations applied |
| Transactions.InMemoryTransaction.Exists | crates/database/src/transaction.rs:81-91 | True exactly when the database with all recorded operations applied has the key |
| Transactions.InMemoryTransaction.PutValue | crates/database/src/transaction.rs:95-104 | What the transaction shows changes by that put, the base is untouched |
| Transactions.InMemoryTransaction.DeleteValue | crates/database/src/transaction.rs:106-114 | What the transaction shows changes by that delete, the base is untouched |
| Transactions.InMemoryTransaction.WriteBatch | crates/database/src/transaction.rs:116-124 | What the transaction shows changes by that batch, whatever order its maps iterate in, the base is untouched |
| Transactions.InMemoryTransaction.Commit | crates/database/src/transaction.rs:140-144 | The database becomes what the transaction showed |
| Transactions.Database.RawGet | crates/database/src/rocksdb.rs:47-55 | Reads the key of the schema |
| Transactions.Database.MultiGet | crates/database/src/rocksdb.rs:214-234 | All values in key order |
| Transactions.Database.RawPut | crates/database/src/rocksdb.rs:79-88 | Sets exactly that key |
| Transactions.Database.RawDelete | crates/database/src/rocksdb.rs:90-98 | Removes exactly that key |
| Transactions.Database.RawWriteBatch | crates/database/src/rocksdb.rs:100-113 | The batch built by the nested loops, in any iteration order of schemas and keys, overlays exactly the changes |

## Left out

- Liveness under partial synchrony, real time, the tokio scheduler and task abort timing: steps are nondeterministic.
- The `select!` loop of `run` as one method, its branch priority, and channel lag: the branches are modelled as separate steps that may occur in any order.
- A peer message from height check to insertion is one step.
- `broadcast_message` and `broadcast_block`, libp2p, gossip and kademlia (`crates/p2p`): only a network that delivers anything that is not forged.
- secp256k1, SHA-256 and hex (`crates/primitives`): ideal functions.
- Borsh decoding and the size of a whole message on the wire: only the byte strings that are hashed are modelled.
- RocksDB options, snapshots and iterators; transaction iteration is unimplemented in the source.
- The typed key and value codecs of the database, and RocksDB errors: keys and values are byte strings and every call succeeds.
- `Mock::new` sorting, block building and the simulated network of `sim_tests`.
- `crates/txpool`, `crates/rpc`, `crates/tracing`, `bin/zktonic`: stubs and wiring.

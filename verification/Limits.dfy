/**
 Four validators with quorum three at the limits of the agreement theorems, in runs of the protocol:
 a run that decides; two late timeouts that make two nodes decide differently; a Byzantine proposer
 after a decision of round 0; and an honest proposer whose proposal is rejected.
 */
module Limits {
  import opened Types
  import opened Configuration
  import opened Verification
  import opened Nodes
  import opened Systems
  import opened Agreement
  import opened Proposals
  import opened Mocks
  import opened Scenarios

  function Four(): Config { MockConfig([0, 1, 2, 3], (raw: RawBlock) => true) }

  const HEIGHT: nat := 4
  const BlockA: RawBlock := [0]
  const BlockB: RawBlock := [1]
  const All: set<Address> := {0, 1, 2, 3}

  /** Validator r proposes in round r of this height. */
  ghost predicate IsFour(cfg: Config) {
    && WellFormed(cfg) && cfg.validators(HEIGHT) == All && cfg.quorum(HEIGHT) == 3
    && cfg.proposer(View(HEIGHT, 0)) == 0 && cfg.proposer(View(HEIGHT, 1)) == 1 && cfg.proposer(View(HEIGHT, 2)) == 2
    && (forall raw :: cfg.verifyBlock(raw))
  }

  lemma FourFacts()
    ensures IsFour(Four())
  {
    var validators: seq<Address> := [0, 1, 2, 3];
    assert ValidatorSet(validators) == All;
    forall view: View ensures Four().proposer(view) in Four().validators(view.height) {
      assert validators[(view.height + view.round) % 4] in validators;
    }
  }

  lemma BlocksDiffer()
    ensures BlockA != BlockB
  {
    assert BlockA[0] != BlockB[0];
  }

  // ---------- round 0 decides block A ----------

  ghost predicate JustBegun(n: Node) {
    Idle(n, 0) && n.latest.None?
  }

  lemma FirstProposal(cfg: Config, late: set<Address>, nodes: set<Address>) returns (s: State, p: ProposalMsg)
    requires IsFour(cfg) && nodes <= All && 0 in nodes
    ensures Reached(cfg, late, s) && s.height == HEIGHT && s.nodes.Keys == nodes
    ensures forall i :: i in nodes && i != 0 ==> JustBegun(s.nodes[i])
    ensures Voting(s.nodes[0], BlockDigest(BlockA, 0), {}) && s.nodes[0].round == 0 && s.nodes[0].latest.None?
    ensures p.view == View(HEIGHT, 0) && p.digest == BlockDigest(BlockA, 0) && Offered(cfg, s, p)
  {
    var s0 := Beginning(HEIGHT, nodes);
    p := NewProposal(View(HEIGHT, 0), BlockA, None, 0);
    Begin(cfg, late, HEIGHT, nodes);
    s := ProposesFirst(cfg, late, s0, 0, BlockA);
    forall i | i in nodes && i != 0 ensures JustBegun(s.nodes[i]) {
      Unmoved(cfg, late, s0, s, 0, i);
    }
  }

  /** Validator 0 proposes block A, b and c prepare and commit it, and validator 0 decides it. */
  lemma RoundZero(cfg: Config, late: set<Address>, nodes: set<Address>, b: Address, c: Address)
    returns (s: State, block: FinalizedBlock)
    requires IsFour(cfg) && nodes <= All && {0, b, c} <= nodes && 0 != b && 0 != c && b != c
    ensures Reached(cfg, late, s) && s.height == HEIGHT && s.nodes.Keys == nodes
    ensures DecidedIn(s, 0, 0, block) && block.raw == BlockA
    ensures Committing(s.nodes[b], BlockDigest(BlockA, 0)) && s.nodes[b].round == 0 && s.nodes[b].latest.None?
    ensures Committing(s.nodes[c], BlockDigest(BlockA, 0)) && s.nodes[c].round == 0 && s.nodes[c].latest.None?
    ensures forall i :: i in nodes && i != 0 && i != b && i != c ==> JustBegun(s.nodes[i])
  {
    var s1, p := FirstProposal(cfg, late, nodes);
    assert JustBegun(s1.nodes[b]) && JustBegun(s1.nodes[c]);
    s, block := DecidesWith(cfg, late, s1, 0, b, c, p, BlockA);
  }

  lemma AllReliable(cfg: Config, s: State)
    requires IsFour(cfg) && s.height == HEIGHT && s.nodes.Keys == All
    ensures FewUnreliable(cfg, s, {})
  {
    assert Unreliable(cfg, s, {}) == {} && |All| == 4;
  }

  // ---------- leaving without a certificate ----------

  /** A round change to round 1 that carries no certificate. */
  ghost predicate Uncertified(cfg: Config, s: State, rc: RoundChangeMsg, a: Address) {
    && rc.view == View(HEIGHT, 1) && rc.prepared.None? && rc.Signer() == Some(a)
    && ValidRoundChange(cfg, rc, HEIGHT) && KnownMetadata(s, rc.Metadata())
  }

  lemma UncertifiedOn(cfg: Config, late: set<Address>, s: State, s': State, i: Address, rc: RoundChangeMsg, a: Address)
    requires Uncertified(cfg, s, rc, a) && Moves(cfg, late, s, s', i)
    ensures Uncertified(cfg, s', rc, a)
  {
    KnownGrows(s, s');
  }

  /** A node of round 0 that has no certificate, or not yet. */
  ghost predicate Leaving(n: Node) {
    Tidy(n) && n.round == 0 && n.latest.None? && !RunStateOf(n.phase).InCommit?
  }

  lemma BegunLeaves(n: Node)
    requires JustBegun(n)
    ensures Leaving(n)
  {
  }

  lemma VoterLeaves(n: Node, digest: Digest, voters: set<Address>)
    requires Voting(n, digest, voters) && n.round == 0 && n.latest.None?
    ensures Leaving(n)
  {
  }

  lemma Leaves(cfg: Config, late: set<Address>, s: State, a: Address) returns (s': State, rc: RoundChangeMsg)
    requires Reached(cfg, late, s) && s.height == HEIGHT && a in s.nodes && Leaving(s.nodes[a])
    requires s.nodes[a].phase.CommitSent? ==> a in late
    ensures Moves(cfg, late, s, s', a) && Idle(s'.nodes[a], 1) && Entered(cfg, s'.nodes[a], rc)
    ensures Uncertified(cfg, s', rc, a)
    ensures s'.nodes[a].latest == Some(rc)
  {
    ReachedSane(cfg, late, s, a);
    s', rc := TimesOut(cfg, late, s, a);
  }

  lemma BothLeave(cfg: Config, late: set<Address>, s0: State, a: Address, b: Address)
    returns (s: State, rc: RoundChangeMsg, rc': RoundChangeMsg)
    requires Reached(cfg, late, s0) && s0.height == HEIGHT && a in s0.nodes && b in s0.nodes && a != b
    requires Leaving(s0.nodes[a]) && Leaving(s0.nodes[b])
    requires (s0.nodes[a].phase.CommitSent? ==> a in late) && (s0.nodes[b].phase.CommitSent? ==> b in late)
    ensures Leads(cfg, late, s0, s, a, b, b)
    ensures Idle(s.nodes[a], 1) && Uncertified(cfg, s, rc, a) && s.nodes[a].latest == Some(rc)
    ensures Idle(s.nodes[b], 1) && Uncertified(cfg, s, rc', b) && s.nodes[b].latest == Some(rc')
  {
    var s1;
    s1, rc := Leaves(cfg, late, s0, a);
    Unmoved(cfg, late, s0, s1, a, b);
    s, rc' := Leaves(cfg, late, s1, b);
    Unmoved(cfg, late, s1, s, b, a);
    UncertifiedOn(cfg, late, s1, s, b, rc, a);
  }

  /** Nodes a and b time out, then node 1, who proposes next. */
  lemma AllLeave(cfg: Config, late: set<Address>, s0: State, a: Address, b: Address)
    returns (s: State, rc1: RoundChangeMsg, rc: RoundChangeMsg, rc': RoundChangeMsg)
    requires Reached(cfg, late, s0) && s0.height == HEIGHT && {1, a, b} <= s0.nodes.Keys && 1 != a && 1 != b && a != b
    requires Leaving(s0.nodes[1]) && Leaving(s0.nodes[a]) && Leaving(s0.nodes[b])
    requires forall i :: i in {1, a, b} && s0.nodes[i].phase.CommitSent? ==> i in late
    ensures Leads(cfg, late, s0, s, 1, a, b)
    ensures Idle(s.nodes[1], 1) && Entered(cfg, s.nodes[1], rc1) && Uncertified(cfg, s, rc1, 1)
    ensures Idle(s.nodes[a], 1) && Uncertified(cfg, s, rc, a) && s.nodes[a].latest == Some(rc)
    ensures Idle(s.nodes[b], 1) && Uncertified(cfg, s, rc', b)
  {
    var s1;
    s1, rc, rc' := BothLeave(cfg, late, s0, a, b);
    assert s1.nodes[1] == s0.nodes[1];
    s, rc1 := Leaves(cfg, late, s1, 1);
    Unmoved(cfg, late, s1, s, 1, a);
    Unmoved(cfg, late, s1, s, 1, b);
    UncertifiedOn(cfg, late, s1, s, 1, rc, a);
    UncertifiedOn(cfg, late, s1, s, 1, rc', b);
    LeadsOn(cfg, late, s0, s1, s, 1, a, b, 1);
  }

  lemma GathersThree(cfg: Config, late: set<Address>, s0: State,
                     rc1: RoundChangeMsg, rc: RoundChangeMsg, a: Address, rc': RoundChangeMsg, b: Address)
    returns (s: State)
    requires IsFour(cfg) && Reached(cfg, late, s0) && s0.height == HEIGHT && 1 in s0.nodes
    requires 1 != a && 1 != b && a != b && {a, b} <= All
    requires Idle(s0.nodes[1], 1) && Entered(cfg, s0.nodes[1], rc1)
    requires Uncertified(cfg, s0, rc1, 1) && Uncertified(cfg, s0, rc, a) && Uncertified(cfg, s0, rc', b)
    ensures Moves(cfg, late, s0, s, 1) && Idle(s.nodes[1], 1) && s.nodes[1].Current() == View(HEIGHT, 1)
    ensures Held(s.nodes[1], [rc1, rc, rc'])
  {
    ReachedSane(cfg, late, s0, 1);
    s := HearsBoth(cfg, late, s0, 1, rc1, rc, a, rc', b);
  }

  lemma ThreeUncertified(cfg: Config, s: State, rc1: RoundChangeMsg, rc: RoundChangeMsg, a: Address,
                         rc': RoundChangeMsg, b: Address)
    requires IsFour(cfg) && 1 != a && 1 != b && a != b && {a, b} <= All
    requires Uncertified(cfg, s, rc1, 1) && Uncertified(cfg, s, rc, a) && Uncertified(cfg, s, rc', b)
    ensures Collected(cfg, View(HEIGHT, 1), [rc1, rc, rc']) && NoneCertified([rc1, rc, rc'])
  {
    ThreeCollected(cfg, View(HEIGHT, 1), rc1, rc, rc');
  }

  /** Round 1 starts over: its proposer, node 1, makes block B of three round changes without certificate. */
  lemma StartsOver(cfg: Config, late: set<Address>, s0: State, rc1: RoundChangeMsg, rc: RoundChangeMsg, a: Address,
                   rc': RoundChangeMsg, b: Address)
    returns (s: State, p: ProposalMsg)
    requires IsFour(cfg) && Reached(cfg, late, s0) && s0.height == HEIGHT && 1 in s0.nodes && 1 != a && 1 != b && a != b
    requires {a, b} <= All
    requires Idle(s0.nodes[1], 1) && Entered(cfg, s0.nodes[1], rc1)
    requires Uncertified(cfg, s0, rc1, 1) && Uncertified(cfg, s0, rc, a) && Uncertified(cfg, s0, rc', b)
    ensures Moves(cfg, late, s0, s, 1) && Voting(s.nodes[1], BlockDigest(BlockB, 1), {}) && s.nodes[1].round == 1
    ensures p.view == View(HEIGHT, 1) && p.digest == BlockDigest(BlockB, 1) && Offered(cfg, s, p)
  {
    var s1 := GathersThree(cfg, late, s0, rc1, rc, a, rc', b);
    ThreeUncertified(cfg, s0, rc1, rc, a, rc', b);
    s, p := ProposesAfresh(cfg, late, s1, 1, [rc1, rc, rc'], BlockB);
    MovesOn(cfg, late, s0, s1, s, 1);
  }

  // ---------- leaving with a certificate ----------

  /** This round change carries a certificate of that round for that block. */
  predicate Certified(rc: RoundChangeMsg, raw: RawBlock, round: nat) {
    && rc.prepared.Some? && rc.prepared.value.block == ProposedBlock(raw, round)
    && rc.prepared.value.certificate.proposal.view == View(rc.view.height, round)
  }

  /** Node a stores its commit and times out with the certificate. */
  lemma LeavesCertified(cfg: Config, s: State, a: Address, raw: RawBlock, round: nat)
    returns (s': State, rc: RoundChangeMsg)
    requires Reached(cfg, {}, s) && s.height == HEIGHT && a in s.nodes && round < MAX_ROUND
    requires Committing(s.nodes[a], BlockDigest(raw, round)) && s.nodes[a].round == round
    ensures Moves(cfg, {}, s, s', a) && Idle(s'.nodes[a], round + 1) && Entered(cfg, s'.nodes[a], rc)
    ensures s'.nodes[a].latest == Some(rc)
    ensures rc.view == View(HEIGHT, round + 1) && rc.Signer() == Some(a) && ValidRoundChange(cfg, rc, HEIGHT)
    ensures KnownMetadata(s', rc.Metadata()) && Certified(rc, raw, round)
  {
    ReachedSane(cfg, {}, s, a);
    var s1 := StoresCommit(cfg, {}, s, a, BlockDigest(raw, round));
    s', rc := TimesOutCertified(cfg, {}, s1, a, raw, {a});
    MovesOn(cfg, {}, s, s1, s', a);
  }

  /** A verified round change to round 1 of validator a, with a round 0 certificate for block A, is around. */
  ghost predicate CertifiedChange(cfg: Config, s: State, rc: RoundChangeMsg, a: Address) {
    && rc.view == View(HEIGHT, 1) && rc.Signer() == Some(a) && Certified(rc, BlockA, 0)
    && ValidRoundChange(cfg, rc, HEIGHT) && KnownMetadata(s, rc.Metadata())
  }

  lemma CertifiedChangeOn(cfg: Config, s: State, s': State, rc: RoundChangeMsg, a: Address)
    requires CertifiedChange(cfg, s, rc, a) && Grows(s, s')
    ensures CertifiedChange(cfg, s', rc, a)
  {
    KnownGrows(s, s');
  }

  lemma LeavesWithA(cfg: Config, s: State, a: Address) returns (s': State, rc: RoundChangeMsg)
    requires Reached(cfg, {}, s) && s.height == HEIGHT && a in s.nodes
    requires Committing(s.nodes[a], BlockDigest(BlockA, 0)) && s.nodes[a].round == 0
    ensures Moves(cfg, {}, s, s', a) && Idle(s'.nodes[a], 1) && Entered(cfg, s'.nodes[a], rc)
    ensures CertifiedChange(cfg, s', rc, a)
  {
    s', rc := LeavesCertified(cfg, s, a, BlockA, 0);
  }

  lemma BothLeaveCertified(cfg: Config, s0: State, a: Address, b: Address)
    returns (s: State, rc: RoundChangeMsg, rc': RoundChangeMsg)
    requires Reached(cfg, {}, s0) && s0.height == HEIGHT && a in s0.nodes && b in s0.nodes && a != b
    requires Committing(s0.nodes[a], BlockDigest(BlockA, 0)) && s0.nodes[a].round == 0
    requires Committing(s0.nodes[b], BlockDigest(BlockA, 0)) && s0.nodes[b].round == 0
    ensures Leads(cfg, {}, s0, s, a, b, b) && Idle(s.nodes[a], 1) && Idle(s.nodes[b], 1)
    ensures Entered(cfg, s.nodes[b], rc')
    ensures CertifiedChange(cfg, s, rc, a) && CertifiedChange(cfg, s, rc', b)
  {
    var s1;
    s1, rc := LeavesWithA(cfg, s0, a);
    Unmoved(cfg, {}, s0, s1, a, b);
    s, rc' := LeavesWithA(cfg, s1, b);
    Unmoved(cfg, {}, s1, s, b, a);
    CertifiedChangeOn(cfg, s1, s, rc, a);
  }

  // ---------- two decisions that agree ----------

  /** After a decision of round 0 the other committed nodes time out with certificates, node 3 without. */
  lemma MovesOnCertified(cfg: Config)
    returns (s: State, block: FinalizedBlock, rc1: RoundChangeMsg, rc2: RoundChangeMsg, rc3: RoundChangeMsg)
    requires IsFour(cfg)
    ensures Reached(cfg, {}, s) && s.height == HEIGHT && s.nodes.Keys == All
    ensures DecidedIn(s, 0, 0, block) && block.raw == BlockA
    ensures Idle(s.nodes[1], 1) && Idle(s.nodes[2], 1) && Idle(s.nodes[3], 1) && Entered(cfg, s.nodes[1], rc1)
    ensures CertifiedChange(cfg, s, rc1, 1) && CertifiedChange(cfg, s, rc2, 2) && Uncertified(cfg, s, rc3, 3)
  {
    var s0, s1;
    s0, block := RoundZero(cfg, {}, All, 1, 2);
    assert JustBegun(s0.nodes[3]);
    s1, rc2, rc1 := BothLeaveCertified(cfg, s0, 2, 1);
    assert s1.nodes[0] == s0.nodes[0] && s1.nodes[3] == s0.nodes[3];
    BegunLeaves(s1.nodes[3]);
    s, rc3 := Leaves(cfg, {}, s1, 3);
    Unmoved(cfg, {}, s1, s, 3, 0);
    Unmoved(cfg, {}, s1, s, 3, 1);
    Unmoved(cfg, {}, s1, s, 3, 2);
    CertifiedChangeOn(cfg, s1, s, rc1, 1);
    CertifiedChangeOn(cfg, s1, s, rc2, 2);
  }

  lemma CertifiedProposal(cfg: Config, s: State, rc1: RoundChangeMsg, rc2: RoundChangeMsg, rc3: RoundChangeMsg)
    returns (p: ProposalMsg)
    requires IsFour(cfg)
    requires CertifiedChange(cfg, s, rc1, 1) && CertifiedChange(cfg, s, rc2, 2) && Uncertified(cfg, s, rc3, 3)
    ensures BuildProposal(View(HEIGHT, 1), [rc1, rc2, rc3], None, 1) == Some(p)
    ensures p.view == View(HEIGHT, 1) && p.digest == BlockDigest(BlockA, 1) && p.Signer() == Some(1)
    ensures CheckProposal1(cfg, p).Accept?
  {
    var view, rcs := View(HEIGHT, 1), [rc1, rc2, rc3];
    ThreeCollected(cfg, view, rc1, rc2, rc3);
    assert FirstPrepared(rcs) == Some(0);
    p := BuildProposal(view, rcs, None, 1).value;
    OneCertifiedBlockIsAccepted(cfg, view, rcs, None, 1);
  }

  lemma GathersCertified(cfg: Config, s0: State, rc1: RoundChangeMsg, rc2: RoundChangeMsg, rc3: RoundChangeMsg)
    returns (s: State)
    requires IsFour(cfg) && Reached(cfg, {}, s0) && s0.height == HEIGHT && 1 in s0.nodes
    requires Idle(s0.nodes[1], 1) && Entered(cfg, s0.nodes[1], rc1)
    requires CertifiedChange(cfg, s0, rc1, 1) && CertifiedChange(cfg, s0, rc2, 2) && Uncertified(cfg, s0, rc3, 3)
    ensures Moves(cfg, {}, s0, s, 1) && Idle(s.nodes[1], 1) && s.nodes[1].Current() == View(HEIGHT, 1)
    ensures Held(s.nodes[1], [rc1, rc2, rc3]) && Collected(cfg, View(HEIGHT, 1), [rc1, rc2, rc3])
  {
    ReachedSane(cfg, {}, s0, 1);
    s := HearsBoth(cfg, {}, s0, 1, rc1, rc2, 2, rc3, 3);
    ThreeCollected(cfg, View(HEIGHT, 1), rc1, rc2, rc3);
  }

  /** Node 1 takes up the certified block again. */
  lemma ReproposesA(cfg: Config, s0: State, rc1: RoundChangeMsg, rc2: RoundChangeMsg, rc3: RoundChangeMsg)
    returns (s: State, p: ProposalMsg)
    requires IsFour(cfg) && Reached(cfg, {}, s0) && s0.height == HEIGHT && 1 in s0.nodes
    requires Idle(s0.nodes[1], 1) && Entered(cfg, s0.nodes[1], rc1)
    requires CertifiedChange(cfg, s0, rc1, 1) && CertifiedChange(cfg, s0, rc2, 2) && Uncertified(cfg, s0, rc3, 3)
    ensures Moves(cfg, {}, s0, s, 1) && Voting(s.nodes[1], BlockDigest(BlockA, 1), {}) && s.nodes[1].round == 1
    ensures p.view == View(HEIGHT, 1) && p.digest == BlockDigest(BlockA, 1) && Offered(cfg, s, p)
  {
    var s1 := GathersCertified(cfg, s0, rc1, rc2, rc3);
    p := CertifiedProposal(cfg, s0, rc1, rc2, rc3);
    s := Collects(cfg, {}, s1, 1, [rc1, rc2, rc3], None, p);
    MovesOn(cfg, {}, s0, s1, s, 1);
  }

  lemma BothDecideA(cfg: Config) returns (s: State, block: FinalizedBlock, block': FinalizedBlock)
    requires IsFour(cfg)
    ensures Reached(cfg, {}, s) && s.height == HEIGHT && s.nodes.Keys == All
    ensures DecidedIn(s, 0, 0, block) && DecidedIn(s, 1, 1, block')
  {
    var s0, s1, rc1, rc2, rc3, p;
    s0, block, rc1, rc2, rc3 := MovesOnCertified(cfg);
    s1, p := ReproposesA(cfg, s0, rc1, rc2, rc3);
    Unmoved(cfg, {}, s0, s1, 1, 0);
    Unmoved(cfg, {}, s0, s1, 1, 2);
    Unmoved(cfg, {}, s0, s1, 1, 3);
    s, block' := DecidesWith(cfg, {}, s1, 1, 2, 3, p, BlockA);
  }

  /** The assumptions of agreement across rounds are met by a run in which two nodes decide in different rounds. */
  lemma TimelyRunDecides()
    returns (states: seq<State>, events: seq<Event>, block: FinalizedBlock, block': FinalizedBlock)
    ensures var cfg := Four();
            && WellFormed(cfg) && IsTimelyRun(cfg, states, events, {})
            && var last := states[|events|];
            && FewUnreliable(cfg, last, {}) && ProposersFollow(cfg, last, 0, 1)
            && DecidedIn(last, 0, 0, block) && DecidedIn(last, 1, 1, block')
  {
    FourFacts();
    var cfg := Four();
    var s;
    s, block, block' := BothDecideA(cfg);
    AllReliable(cfg, s);
    states, events :| IsTimelyRun(cfg, states, events, {}) && states[|events|] == s;
  }

  // ---------- a Byzantine proposer after a decision of round 0 ----------

  /** Nodes 2 and 3 move on with certificates for the decided block; validator 1 is Byzantine. */
  lemma CertifiedChanges(cfg: Config)
    returns (s: State, block: FinalizedBlock, rc2: RoundChangeMsg, rc3: RoundChangeMsg)
    requires IsFour(cfg)
    ensures Reached(cfg, {}, s) && s.height == HEIGHT && s.nodes.Keys == {0, 2, 3}
    ensures DecidedIn(s, 0, 0, block) && block.raw == BlockA
    ensures Idle(s.nodes[2], 1) && Idle(s.nodes[3], 1)
    ensures CertifiedChange(cfg, s, rc2, 2) && CertifiedChange(cfg, s, rc3, 3)
  {
    var s0;
    s0, block := RoundZero(cfg, {}, {0, 2, 3}, 2, 3);
    s, rc2, rc3 := BothLeaveCertified(cfg, s0, 2, 3);
    assert s.nodes[0] == s0.nodes[0];
  }

  /** Validator 1 proposes block B on a quorum of round changes, two of them with certificates for block A. */
  function Forgetful(rc2: RoundChangeMsg, rc3: RoundChangeMsg): ProposalMsg {
    NewProposal(View(HEIGHT, 1), BlockB,
                Some([NewRoundChange(View(HEIGHT, 1), None, 1).Metadata(), rc2.Metadata(), rc3.Metadata()]), 1)
  }

  /** A follower accepts it: certificates of round 0 do not bind. */
  lemma RoundZeroDoesNotBind(cfg: Config, s: State, rc2: RoundChangeMsg, rc3: RoundChangeMsg)
    requires IsFour(cfg) && CertifiedChange(cfg, s, rc2, 2) && CertifiedChange(cfg, s, rc3, 3)
    ensures CheckProposal1(cfg, Forgetful(rc2, rc3)).Accept?
  {
    var p, rc1 := Forgetful(rc2, rc3), NewRoundChange(View(HEIGHT, 1), None, 1);
    ThreeCollected(cfg, View(HEIGHT, 1), rc1, rc2, rc3);
    var list := p.certificate.value;
    assert list == MetadataOf([rc1, rc2, rc3]);
    assert forall k :: 0 <= k < |list| ==> RoundAt(list, k) < 1;
    AcceptsExactly(cfg, p);
  }

  lemma ForgetfulIsOffered(cfg: Config, s: State, rc2: RoundChangeMsg, rc3: RoundChangeMsg)
    requires IsFour(cfg) && s.height == HEIGHT && 1 !in s.nodes
    requires CertifiedChange(cfg, s, rc2, 2) && CertifiedChange(cfg, s, rc3, 3)
    requires CheckProposal1(cfg, Forgetful(rc2, rc3)).Accept?
    ensures Offered(cfg, s, Forgetful(rc2, rc3))
  {
  }

  lemma Forgets(cfg: Config) returns (s: State, block: FinalizedBlock, p: ProposalMsg)
    requires IsFour(cfg)
    ensures Reached(cfg, {}, s) && s.height == HEIGHT && s.nodes.Keys == {0, 2, 3}
    ensures DecidedIn(s, 0, 0, block) && block.raw == BlockA
    ensures Idle(s.nodes[2], 1) && Idle(s.nodes[3], 1)
    ensures p.view == View(HEIGHT, 1) && p.digest == BlockDigest(BlockB, 1) && Offered(cfg, s, p)
  {
    var rc2, rc3;
    s, block, rc2, rc3 := CertifiedChanges(cfg);
    RoundZeroDoesNotBind(cfg, s, rc2, rc3);
    ForgetfulIsOffered(cfg, s, rc2, rc3);
    p := Forgetful(rc2, rc3);
  }

  /** Nodes 2 and 3 commit block B. */
  lemma ByzantineCommits(cfg: Config) returns (s: State, block: FinalizedBlock)
    requires IsFour(cfg)
    ensures Reached(cfg, {}, s) && s.height == HEIGHT && s.nodes.Keys == {0, 2, 3}
    ensures DecidedIn(s, 0, 0, block) && block.raw == BlockA
    ensures Committing(s.nodes[2], BlockDigest(BlockB, 1)) && s.nodes[2].round == 1
    ensures Backs(s, 3, View(HEIGHT, 1), BlockDigest(BlockB, 1))
  {
    var s0, p;
    s0, block, p := Forgets(cfg);
    s := PairCommits(cfg, {}, s0, 2, 3, p);
    assert s.nodes[0] == s0.nodes[0];
  }

  lemma ByzantineDecision(cfg: Config) returns (s: State, block: FinalizedBlock, block': FinalizedBlock)
    requires IsFour(cfg)
    ensures Reached(cfg, {}, s) && s.height == HEIGHT && s.nodes.Keys == {0, 2, 3}
    ensures DecidedIn(s, 0, 0, block) && block.raw == BlockA
    ensures DecidedIn(s, 2, 1, block') && block'.raw == BlockB
  {
    var s0;
    s0, block := ByzantineCommits(cfg);
    ReachedSane(cfg, {}, s0, 2);
    s, block' := SealsWith(cfg, {}, s0, 2, BlockB, 1, 3, 1);
    Unmoved(cfg, {}, s0, s, 2, 0);
  }

  lemma OneByzantine(cfg: Config, s: State)
    requires IsFour(cfg) && s.height == HEIGHT && s.nodes.Keys == {0, 2, 3}
    ensures Byzantine(cfg, s) == {1} && FewUnreliable(cfg, s, {}) && QuorumsMeetHonestly(cfg, s)
  {
    assert Byzantine(cfg, s) == {1} && Unreliable(cfg, s, {}) == {1} && |All| == 4;
  }

  /**
   One Byzantine validator, nobody late, as few unreliable ones as agreement across rounds allows: but the earlier
   decision is of round 0 and the next proposer is the Byzantine one, and two nodes finalize different blocks.
   */
  lemma ByzantineProposerBreaksRoundZero()
    returns (states: seq<State>, events: seq<Event>, block: FinalizedBlock, block': FinalizedBlock)
    ensures var cfg := Four();
            && WellFormed(cfg) && IsTimelyRun(cfg, states, events, {})
            && var last := states[|events|];
            && Byzantine(cfg, last) == {1} && FewUnreliable(cfg, last, {}) && QuorumsMeetHonestly(cfg, last)
            && DecidedIn(last, 0, 0, block) && DecidedIn(last, 2, 1, block') && block.raw != block'.raw
  {
    FourFacts();
    var cfg := Four();
    var s;
    s, block, block' := ByzantineDecision(cfg);
    OneByzantine(cfg, s);
    BlocksDiffer();
    states, events :| IsTimelyRun(cfg, states, events, {}) && states[|events|] == s;
  }

  // ---------- an honest proposal that is rejected ----------

  /** A verified round change to round 2 of validator a is around. */
  ghost predicate ToRoundTwo(cfg: Config, s: State, rc: RoundChangeMsg, a: Address) {
    && rc.view == View(HEIGHT, 2) && rc.Signer() == Some(a)
    && ValidRoundChange(cfg, rc, HEIGHT) && KnownMetadata(s, rc.Metadata())
  }

  lemma ToRoundTwoOn(cfg: Config, s: State, s': State, rc: RoundChangeMsg, a: Address)
    requires ToRoundTwo(cfg, s, rc, a) && Grows(s, s')
    ensures ToRoundTwo(cfg, s', rc, a)
  {
    KnownGrows(s, s');
  }

  /** Validator x prepares p, hears the prepare of y, and commits. */
  lemma CommitsAfter(cfg: Config, s: State, x: Address, y: Address, p: ProposalMsg) returns (s': State)
    requires Reached(cfg, {}, s) && x in s.nodes && x != y && y in cfg.validators(s.height) && cfg.quorum(s.height) <= 3
    requires Idle(s.nodes[x], p.view.round) && Offered(cfg, s, p) && cfg.proposer(p.view) != x
    requires cfg.proposer(p.view) != y
    requires MayHaveSigned(s, y, PrepareDigest(p.view, p.digest))
    ensures Moves(cfg, {}, s, s', x) && Stays(s.nodes[x], s'.nodes[x]) && Committing(s'.nodes[x], p.digest)
  {
    ReachedSane(cfg, {}, s, x);
    var s1 := Follows(cfg, {}, s, x, p);
    KnownGrows(s, s1);
    s' := CommitsWith(cfg, {}, s1, x, p.digest, y);
    MovesOn(cfg, {}, s, s1, s', x);
  }

  /** y prepares p; x prepares and commits it alone, and moves on with the certificate. */
  lemma CertifiesAlone(cfg: Config, s: State, x: Address, y: Address, p: ProposalMsg, raw: RawBlock, round: nat)
    returns (s': State, rc: RoundChangeMsg)
    requires Reached(cfg, {}, s) && s.height == HEIGHT && x in s.nodes && y in s.nodes && x != y && round < MAX_ROUND
    requires IsFour(cfg) && y in All && p.view == View(HEIGHT, round) && p.digest == BlockDigest(raw, round)
    requires Offered(cfg, s, p)
    requires Idle(s.nodes[x], round) && Idle(s.nodes[y], round) && cfg.proposer(p.view) != x
    requires cfg.proposer(p.view) != y
    ensures Leads(cfg, {}, s, s', x, y, y)
    ensures Idle(s'.nodes[x], round + 1) && Entered(cfg, s'.nodes[x], rc) && s'.nodes[x].latest == Some(rc)
    ensures Stays(s.nodes[y], s'.nodes[y]) && Voting(s'.nodes[y], p.digest, {y})
    ensures rc.view == View(HEIGHT, round + 1) && rc.Signer() == Some(x) && ValidRoundChange(cfg, rc, HEIGHT)
    ensures KnownMetadata(s', rc.Metadata()) && Certified(rc, raw, round)
  {
    ReachedSane(cfg, {}, s, x);
    ReachedSane(cfg, {}, s, y);
    var s1 := Follows(cfg, {}, s, y, p);
    KnownGrows(s, s1);
    Unmoved(cfg, {}, s, s1, y, x);
    var s2 := CommitsAfter(cfg, s1, x, y, p);
    s', rc := LeavesCertified(cfg, s2, x, raw, round);
    MovesOn(cfg, {}, s1, s2, s', x);
    Unmoved(cfg, {}, s1, s', x, y);
  }

  /** Round 0: validator 3 alone gets a certificate for block A. */
  lemma CertifiesA(cfg: Config) returns (s: State, rc: RoundChangeMsg)
    requires IsFour(cfg)
    ensures Reached(cfg, {}, s) && s.height == HEIGHT && s.nodes.Keys == All
    ensures Idle(s.nodes[3], 1) && s.nodes[3].latest == Some(rc) && Certified(rc, BlockA, 0)
    ensures Leaving(s.nodes[0]) && Leaving(s.nodes[1]) && Leaving(s.nodes[2])
    ensures s.nodes[0].phase.AwaitPrepares? && s.nodes[1].phase.AwaitProposal? && s.nodes[2].phase.AwaitPrepares?
  {
    var s0, p := FirstProposal(cfg, {}, All);
    assert JustBegun(s0.nodes[1]) && JustBegun(s0.nodes[2]) && JustBegun(s0.nodes[3]);
    BegunLeaves(s0.nodes[1]);
    VoterLeaves(s0.nodes[0], p.digest, {});
    s, rc := CertifiesAlone(cfg, s0, 3, 2, p, BlockA, 0);
    VoterLeaves(s.nodes[2], p.digest, {2});
  }

  /** ... and goes to round 2 with it. */
  lemma CarriesA(cfg: Config) returns (s: State, rc: RoundChangeMsg)
    requires IsFour(cfg)
    ensures Reached(cfg, {}, s) && s.height == HEIGHT && s.nodes.Keys == All
    ensures ToRoundTwo(cfg, s, rc, 3) && Certified(rc, BlockA, 0)
    ensures Leaving(s.nodes[0]) && Leaving(s.nodes[1]) && Leaving(s.nodes[2])
    ensures !s.nodes[0].phase.CommitSent? && !s.nodes[1].phase.CommitSent? && !s.nodes[2].phase.CommitSent?
  {
    var s0, rc1 := CertifiesA(cfg);
    ReachedSane(cfg, {}, s0, 3);
    s, rc := TimesOut(cfg, {}, s0, 3);
    Unmoved(cfg, {}, s0, s, 3, 0);
    Unmoved(cfg, {}, s0, s, 3, 1);
    Unmoved(cfg, {}, s0, s, 3, 2);
  }

  /** The others move on without a certificate and validator 1 proposes block B in round 1. */
  lemma ProposesB(cfg: Config, s0: State, carried: RoundChangeMsg) returns (s: State, p: ProposalMsg)
    requires IsFour(cfg) && Reached(cfg, {}, s0) && s0.height == HEIGHT && s0.nodes.Keys == All
    requires ToRoundTwo(cfg, s0, carried, 3)
    requires Leaving(s0.nodes[0]) && Leaving(s0.nodes[1]) && Leaving(s0.nodes[2])
    requires !s0.nodes[0].phase.CommitSent? && !s0.nodes[1].phase.CommitSent? && !s0.nodes[2].phase.CommitSent?
    ensures Reached(cfg, {}, s) && s.height == HEIGHT && s.nodes.Keys == All && ToRoundTwo(cfg, s, carried, 3)
    ensures Idle(s.nodes[0], 1) && Idle(s.nodes[2], 1) && s.nodes[0].latest.Some?
    ensures s.nodes[0].latest.value.prepared.None?
    ensures p.view == View(HEIGHT, 1) && p.digest == BlockDigest(BlockB, 1) && Offered(cfg, s, p)
  {
    var a, b := 0, 2;
    var s1, rc1, rc, rc' := AllLeave(cfg, {}, s0, a, b);
    ToRoundTwoOn(cfg, s0, s1, carried, 3);
    s, p := StartsOver(cfg, {}, s1, rc1, rc, a, rc', b);
    ToRoundTwoOn(cfg, s1, s, carried, 3);
    Unmoved(cfg, {}, s1, s, 1, a);
    Unmoved(cfg, {}, s1, s, 1, b);
  }

  /** Round 1: validator 2, who proposes next, alone gets a certificate for block B; validator 0 has none. */
  lemma CarriesB(cfg: Config, s0: State, p: ProposalMsg, carried: RoundChangeMsg)
    returns (s: State, rc: RoundChangeMsg, rc0: RoundChangeMsg)
    requires IsFour(cfg) && Reached(cfg, {}, s0) && s0.height == HEIGHT && s0.nodes.Keys == All
    requires ToRoundTwo(cfg, s0, carried, 3)
    requires Idle(s0.nodes[0], 1) && Idle(s0.nodes[2], 1) && s0.nodes[0].latest.Some?
    requires s0.nodes[0].latest.value.prepared.None?
    requires p.view == View(HEIGHT, 1) && p.digest == BlockDigest(BlockB, 1) && Offered(cfg, s0, p)
    ensures Reached(cfg, {}, s) && s.height == HEIGHT && s.nodes.Keys == All && ToRoundTwo(cfg, s, carried, 3)
    ensures Idle(s.nodes[2], 2) && Entered(cfg, s.nodes[2], rc)
    ensures ToRoundTwo(cfg, s, rc, 2) && Certified(rc, BlockB, 1) && ToRoundTwo(cfg, s, rc0, 0) && rc0.prepared.None?
  {
    var s1;
    s1, rc := CertifiesAlone(cfg, s0, 2, 0, p, BlockB, 1);
    ToRoundTwoOn(cfg, s0, s1, carried, 3);
    ReachedSane(cfg, {}, s1, 0);
    s, rc0 := TimesOut(cfg, {}, s1, 0);
    ToRoundTwoOn(cfg, s1, s, carried, 3);
    ToRoundTwoOn(cfg, s1, s, rc, 2);
    Unmoved(cfg, {}, s1, s, 0, 2);
  }

  lemma HeldInAnyOrder(n: Node, x: RoundChangeMsg, y: RoundChangeMsg, z: RoundChangeMsg)
    requires Held(n, [x, y, z])
    ensures Held(n, [y, x, z])
  {
    var rcs, swapped := [x, y, z], [y, x, z];
    assert HeldOne(n, rcs[0]) && HeldOne(n, rcs[1]) && HeldOne(n, rcs[2]);
    assert rcs[0].Signer() != rcs[1].Signer() && rcs[0].Signer() != rcs[2].Signer()
        && rcs[1].Signer() != rcs[2].Signer();
    forall slot | slot in n.store.roundChanges && slot.view == n.Current()
      ensures exists i :: 0 <= i < |swapped| && swapped[i].Signer() == Some(slot.sender)
    {
      var i :| 0 <= i < |rcs| && rcs[i].Signer() == Some(slot.sender);
      assert swapped[if i == 0 then 1 else if i == 1 then 0 else 2].Signer() == Some(slot.sender);
    }
  }

  /** The proposal built of these round changes takes up block A, while every follower looks for block B. */
  lemma FirstIsNotHighest(cfg: Config, view: View, rcA: RoundChangeMsg, rcB: RoundChangeMsg, rc0: RoundChangeMsg,
                          self: Address)
    requires Collected(cfg, view, [rcA, rcB, rc0]) && Certified(rcA, BlockA, 0) && Certified(rcB, BlockB, 1)
    requires rc0.prepared.None?
    ensures var p := BuildProposal(view, [rcA, rcB, rc0], None, self);
            p.Some? && p.value.block.raw == BlockA && CheckProposal1(cfg, p.value).Reject?
  {
    BlocksDiffer();
    var rcs := [rcA, rcB, rc0];
    assert FirstPrepared(rcs) == Some(0);
    var p := BuildProposal(view, rcs, None, self).value;
    var list := Listed(rcs);
    assert list == [rc0, rcB, rcA];
    assert MetadataOf(list)[0] == rc0.Metadata() && MetadataOf(list)[1] == rcB.Metadata()
        && MetadataOf(list)[2] == rcA.Metadata();
    assert FirstOfMaximalRound(MetadataOf(list), 1);
    AcceptedExactlyWhenAgreed(cfg, view, rcs, None, self);
  }

  lemma HoldsAllThree(cfg: Config) returns (s: State, rcA: RoundChangeMsg, rcB: RoundChangeMsg, rc0: RoundChangeMsg)
    requires IsFour(cfg)
    ensures Reached(cfg, {}, s) && s.height == HEIGHT && s.nodes.Keys == All
    ensures Idle(s.nodes[2], 2) && Held(s.nodes[2], [rcA, rcB, rc0]) && Collected(cfg, View(HEIGHT, 2), [rcA, rcB, rc0])
    ensures Certified(rcA, BlockA, 0) && Certified(rcB, BlockB, 1) && rc0.prepared.None?
  {
    var s0, s1, s2, p;
    s0, rcA := CarriesA(cfg);
    s1, p := ProposesB(cfg, s0, rcA);
    s2, rcB, rc0 := CarriesB(cfg, s1, p, rcA);
    ReachedSane(cfg, {}, s2, 2);
    s := HearsBoth(cfg, {}, s2, 2, rcB, rcA, 3, rc0, 0);
    HeldInAnyOrder(s.nodes[2], rcB, rcA, rc0);
    ThreeCollected(cfg, View(HEIGHT, 2), rcA, rcB, rc0);
  }

  /**
   A run of honest nodes without late timeouts in which an honest proposer sends a proposal that no one will accept.
   */
  lemma HonestProposalIsRejected() returns (states: seq<State>, events: seq<Event>, p: ProposalMsg)
    ensures var cfg := Four();
            && WellFormed(cfg) && IsTimelyRun(cfg, states, events, {})
            && var last := states[|events|];
            && Byzantine(cfg, last) == {} && FewUnreliable(cfg, last, {})
            && 2 in last.nodes && last.nodes[2].phase == ProposalSent(p) && CheckProposal1(cfg, p).Reject?
  {
    FourFacts();
    var cfg := Four();
    var s, rcA, rcB, rc0 := HoldsAllThree(cfg);
    ReachedSane(cfg, {}, s, 2);
    FirstIsNotHighest(cfg, View(HEIGHT, 2), rcA, rcB, rc0, 2);
    p := BuildProposal(View(HEIGHT, 2), [rcA, rcB, rc0], None, 2).value;
    var s' := TakesChanges(cfg, {}, s, 2, [rcA, rcB, rc0], None, p);
    AllReliable(cfg, s');
    states, events :| IsTimelyRun(cfg, states, events, {}) && states[|events|] == s';
  }
}

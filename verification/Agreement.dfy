/**
 Safety of the engine.

 Within one view: no two digests are prepared and no two are committed, as long as two quorums
 overlap in more validators than are Byzantine.  Across rounds: decisions carry one raw block, with
 `3 * quorum - 2 * n` validators that may be Byzantine or may time out between a commit broadcast and
 the update of the run state; a decision of round 0 moreover needs honest proposers after it.
 */
module Agreement {
  import opened Types
  import opened Configuration
  import opened Verification
  import opened Stores
  import opened Nodes
  import opened NodeInvariant
  import opened NodeSteps
  import opened Systems
  import opened SystemSteps
  import opened Quorums

  // ---------- one view, Byzantine validators ----------

  function Byzantine(cfg: Config, s: State): set<Address> {
    cfg.validators(s.height) - s.nodes.Keys
  }

  ghost predicate QuorumsMeetHonestly(cfg: Config, s: State) {
    2 * cfg.quorum(s.height) > |cfg.validators(s.height)| + |Byzantine(cfg, s)|
  }

  /** An accepted certificate is the work of the proposer and `quorum - 1` other validators. */
  lemma CertificateIsPrepared(cfg: Config, s: State, certificate: PreparedCertificate, limit: nat)
    requires KnownCertificate(s, certificate)
    requires ValidCertificate(cfg, certificate, certificate.proposal.view.height, limit)
    ensures Prepared(cfg, s, certificate.proposal.view, certificate.proposal.digest)
  {
    var view, digest := certificate.proposal.view, certificate.proposal.digest;
    var prepares := certificate.prepares;
    var signers := seq(|prepares|, i requires 0 <= i < |prepares| => prepares[i].Signer());
    assert forall i :: 0 <= i < |prepares| ==> CountsFor(cfg, certificate, prepares[i]);
    MembersCount(signers);
    forall a | a in Members(signers) ensures a in PrepareSigners(cfg, s, view, digest) {
      var i :| 0 <= i < |prepares| && signers[i] == Some(a);
      assert Known(s, prepares[i].signature);
    }
    SubsetSize(Members(signers), PrepareSigners(cfg, s, view, digest));
    assert Known(s, certificate.proposal.signature);
  }

  /** Every node that follows the code casts each vote once. */
  ghost predicate AllVoteOnce(s: State) {
    forall i :: i in s.nodes ==> s.nodes[i].height == s.height && VotesOnce(s.nodes[i])
  }

  lemma InvVotesOnce(cfg: Config, s: State)
    requires Inv(cfg, s)
    ensures AllVoteOnce(s)
  {
    forall i | i in s.nodes ensures s.nodes[i].height == s.height && VotesOnce(s.nodes[i]) {
      assert NodeInv(cfg, s, i);
    }
  }

  /** At most one digest is prepared in a view: honest validators propose or prepare once. */
  lemma PreparedOnce(cfg: Config, s: State, view: View, d: Digest, e: Digest)
    requires WellFormed(cfg) && AllVoteOnce(s) && view.height == s.height && QuorumsMeetHonestly(cfg, s)
    requires Prepared(cfg, s, view, d) && Prepared(cfg, s, view, e)
    ensures d == e
  {
    var proposer, all := cfg.proposer(view), cfg.validators(s.height);
    var voters, voters' := PrepareSigners(cfg, s, view, d) + {proposer}, PrepareSigners(cfg, s, view, e) + {proposer};
    assert proposer in all;
    assert |voters| >= cfg.quorum(s.height) && |voters'| >= cfg.quorum(s.height);
    var a := CommonMember(all, Byzantine(cfg, s), voters, voters', cfg.quorum(s.height));
    OneVote(s.nodes[a], view, d, e);
  }

  lemma OneVote(n: Node, view: View, d: Digest, e: Digest)
    requires VotesOnce(n) && view.height == n.height
    requires || (ProposalDigest(view, d) in n.signed && ProposalDigest(view, e) in n.signed)
             || (PrepareDigest(view, d) in n.signed && PrepareDigest(view, e) in n.signed)
    ensures d == e
  {
    assert SameVote(ProposalDigest(view, d), ProposalDigest(view, e));
    assert SameVote(PrepareDigest(view, d), PrepareDigest(view, e));
  }

  /** Two accepted certificates of one view carry the same digest. */
  lemma CertificatesAgree(cfg: Config, s: State, c: PreparedCertificate, c': PreparedCertificate, limit: nat,
                          limit': nat)
    requires WellFormed(cfg) && Inv(cfg, s) && QuorumsMeetHonestly(cfg, s)
    requires KnownCertificate(s, c) && KnownCertificate(s, c') && c.proposal.view == c'.proposal.view
    requires ValidCertificate(cfg, c, s.height, limit) && ValidCertificate(cfg, c', s.height, limit')
    ensures c.proposal.digest == c'.proposal.digest
  {
    InvVotesOnce(cfg, s);
    CertificateIsPrepared(cfg, s, c, limit);
    CertificateIsPrepared(cfg, s, c', limit');
    PreparedOnce(cfg, s, c.proposal.view, c.proposal.digest, c'.proposal.digest);
  }

  /** At most one digest gathers a commit quorum in a view. */
  lemma CommittedOnce(cfg: Config, s: State, view: View, d: Digest, e: Digest)
    requires AllVoteOnce(s) && view.height == s.height && QuorumsMeetHonestly(cfg, s)
    requires CommitQuorum(cfg, s, view, d) && CommitQuorum(cfg, s, view, e)
    ensures d == e
  {
    var a := CommonMember(cfg.validators(s.height), Byzantine(cfg, s),
      CommitSigners(cfg, s, view, d), CommitSigners(cfg, s, view, e), cfg.quorum(s.height));
    assert SameVote(CommitDigest(view, d, Signature(a, d)), CommitDigest(view, e, Signature(a, e)));
  }

  ghost predicate DecidedIn(s: State, i: Address, round: nat, block: FinalizedBlock) {
    i in s.nodes && s.nodes[i].status == Decided(block) && s.nodes[i].round == round
  }

  lemma DecisionHasQuorum(cfg: Config, s: State, i: Address, round: nat, block: FinalizedBlock)
    requires Inv(cfg, s) && DecidedIn(s, i, round, block)
    ensures CommitQuorum(cfg, s, View(s.height, round), BlockDigest(block.raw, block.round))
  {
    assert NodeInv(cfg, s, i);
  }

  /** Two honest nodes that finalize in the same view return the same block with the same proof round. */
  lemma SingleViewAgreement(cfg: Config, states: seq<State>, events: seq<Event>, k: nat,
                            i: Address, j: Address, round: nat, block: FinalizedBlock, block': FinalizedBlock)
    requires IsRun(cfg, states, events) && k < |states|
    requires QuorumsMeetHonestly(cfg, states[k])
    requires DecidedIn(states[k], i, round, block) && DecidedIn(states[k], j, round, block')
    ensures block.raw == block'.raw && block.round == block'.round
  {
    RunKeeps(cfg, states, events, k);
    DecisionHasQuorum(cfg, states[k], i, round, block);
    DecisionHasQuorum(cfg, states[k], j, round, block');
    InvVotesOnce(cfg, states[k]);
    CommittedOnce(cfg, states[k], View(states[k].height, round),
      BlockDigest(block.raw, block.round), BlockDigest(block'.raw, block'.round));
  }

  // ---------- certificates are retained across rounds ----------

  ghost predicate QuorumBetween(cfg: Config, s: State, low: nat, high: nat) {
    exists r: nat :: low < r < high && RoundChangeQuorum(cfg, s, View(s.height, r))
  }

  predicate IsCommit(d: Digest, height: nat) {
    d.CommitDigest? && d.view.height == height
  }

  /** A round change that forgot a round the node had committed in was preceded by a round change quorum. */
  ghost predicate SentRetains(cfg: Config, s: State, n: Node) {
    forall c, d :: c in n.signed && d in n.signed && IsCommit(c, n.height) && IsRoundChange(d, n.height)
                   && CertificateRound(d.certificate) < c.view.round < d.view.round
                   ==> QuorumBetween(cfg, s, c.view.round, d.view.round)
  }

  /** The same for the certificate the node would send next. */
  ghost predicate HeldRetains(cfg: Config, s: State, n: Node) {
    forall c :: c in n.signed && IsCommit(c, n.height) && LatestRound(n) < c.view.round < n.round ==>
      QuorumBetween(cfg, s, c.view.round, n.round + 1)
  }

  /** Kept by every node that never timed out between its commit broadcast and `state.update(Commit)`. */
  ghost predicate RetainInv(cfg: Config, s: State, late: set<Address>) {
    forall i :: i in s.nodes && i !in late ==> SentRetains(cfg, s, s.nodes[i]) && HeldRetains(cfg, s, s.nodes[i])
  }

  /** Only the late nodes time out between a commit broadcast and the run state update after it. */
  ghost predicate InTime(s: State, e: Event, late: set<Address>) {
    e.node in s.nodes && (e.action.Timeout? && s.nodes[e.node].phase.CommitSent? ==> e.node in late)
  }

  ghost predicate IsTimelyRun(cfg: Config, states: seq<State>, events: seq<Event>, late: set<Address>) {
    && IsRun(cfg, states, events)
    && (forall k :: 0 <= k < |events| ==> InTime(states[k], events[k], late))
  }

  lemma QuorumBetweenGrows(cfg: Config, s: State, s': State, low: nat, high: nat, high': nat)
    requires Grows(s, s') && QuorumBetween(cfg, s, low, high) && high <= high'
    ensures QuorumBetween(cfg, s', low, high')
  {
    var r: nat :| low < r < high && RoundChangeQuorum(cfg, s, View(s.height, r));
    RoundChangeQuorumGrows(cfg, s, s', View(s.height, r));
  }

  lemma RetainsGrows(cfg: Config, s: State, s': State, n: Node)
    requires Grows(s, s') && SentRetains(cfg, s, n) && HeldRetains(cfg, s, n)
    ensures SentRetains(cfg, s', n) && HeldRetains(cfg, s', n)
  {
    forall low: nat, high: nat | QuorumBetween(cfg, s, low, high) ensures QuorumBetween(cfg, s', low, high) {
      QuorumBetweenGrows(cfg, s, s', low, high, high);
    }
  }

  /** A node only jumps to a round for which a quorum sent round changes. */
  lemma JumpNeedsQuorum(cfg: Config, s: State, n: Node, a: Action)
    requires LocalInv(cfg, n) && StoreKnown(s, n.store) && Enabled(cfg, n, a)
    requires a.JumpToProposal? || a.JumpToRoundChanges?
    ensures RoundChangeQuorum(cfg, s, View(n.height, a.round))
  {
    var view := View(n.height, a.round);
    if a.JumpToProposal? {
      assert ProposalAt(n.store, view).Some?;
      assert cfg.proposer(view) != n.self;
      AcceptedIsVerified(cfg, n, view);
      StoredProposalSigned(cfg, s, n, view);
      var p := ProposalAt(n.store, view).value;
      AcceptsExactly(cfg, p);
      ListedAreQuorum(cfg, s, view, p.certificate.value);
    } else {
      VerifiedHere(cfg, s, n, a.round);
      CountedAreQuorum(cfg, s, view, At(VerifiedRoundChanges(cfg, n, a.round).roundChanges, view));
    }
  }

  lemma JumpRetains(cfg: Config, s: State, n: Node, n': Node)
    requires SentRetains(cfg, s, n) && n'.signed == n.signed && n'.latest == n.latest
    requires n'.height == n.height == s.height && RoundChangeQuorum(cfg, s, n'.Current())
    ensures SentRetains(cfg, s, n') && HeldRetains(cfg, s, n')
  {
  }

  /** Steps within a round sign at most a commit of that round. */
  lemma StayRetains(cfg: Config, s: State, n: Node, n': Node)
    requires LocalInv(cfg, n) && SentRetains(cfg, s, n) && HeldRetains(cfg, s, n)
    requires n'.height == n.height && n'.round == n.round && n'.latest == n.latest
    requires forall d :: d in n'.signed && d !in n.signed ==>
               !IsRoundChange(d, n.height) && (IsCommit(d, n.height) ==> d.view.round == n.round)
    ensures SentRetains(cfg, s, n') && HeldRetains(cfg, s, n')
  {
    forall d | d in n.signed && IsRoundChange(d, n.height) ensures d.view.round <= n.round {
      assert VoteInTime(cfg, n, d);
    }
  }

  /** On a timeout the next round change carries the new certificate, or what was carried before. */
  lemma TimeoutRetains(cfg: Config, s: State, n: Node, n': Node, rc: RoundChangeMsg)
    requires LocalInv(cfg, n) && SentRetains(cfg, s, n) && HeldRetains(cfg, s, n) && n.height == s.height
    requires n'.height == n.height && n'.round == n.round + 1 && n'.latest == Some(rc)
    requires rc.view == View(n.height, n.round + 1)
    requires n'.signed == n.signed + {RoundChangeDigest(rc.view, rc.Certificate())}
    requires || CertificateRound(rc.Certificate()) == n.round
             || (CertificateRound(rc.Certificate()) == LatestRound(n) && !HasCommitted(n.phase))
    ensures SentRetains(cfg, s, n') && HeldRetains(cfg, s, n')
  {
    var sent := RoundChangeDigest(rc.view, rc.Certificate());
    forall c | c in n.signed && IsCommit(c, n.height) && CertificateRound(sent.certificate) < c.view.round
      ensures QuorumBetween(cfg, s, c.view.round, n.round + 1)
    {
      assert VoteInTime(cfg, n, c);
    }
    forall c | c in n.signed && IsCommit(c, n.height) && LatestRound(n') < c.view.round < n'.round
      ensures QuorumBetween(cfg, s, c.view.round, n'.round + 1)
    {
      QuorumBetweenGrows(cfg, s, s, c.view.round, n.round + 1, n'.round + 1);
    }
  }

  lemma StepSigns(cfg: Config, n: Node, a: Action)
    requires Enabled(cfg, n, a) && !a.Timeout? && !a.JumpToProposal? && !a.JumpToRoundChanges?
    requires n.phase.AwaitPrepares? ==> n.phase.digest.BlockDigest?
    ensures var n' := Step(cfg, n, a);
            && n'.round == n.round && n'.latest == n.latest
            && forall d :: d in n'.signed && d !in n.signed ==>
                 !IsRoundChange(d, n.height) && (IsCommit(d, n.height) ==> d.view.round == n.round)
  {
  }

  /** What `handle_timeout` sends. */
  lemma TimeoutSends(cfg: Config, n: Node, order: seq<Slot>) returns (rc: RoundChangeMsg)
    requires LocalInv(cfg, n) && Enabled(cfg, n, Timeout(order))
    ensures var n' := StepTimeout(cfg, n, order);
            && n'.round == n.round + 1 && n'.latest == Some(rc) && rc.view == View(n.height, n.round + 1)
            && n'.signed == n.signed + {RoundChangeDigest(rc.view, rc.Certificate())}
            && CertificateRound(rc.Certificate()) ==
                 if RunStateOf(n.phase).InCommit? then n.round else LatestRound(n)
  {
    if RunStateOf(n.phase).InCommit? {
      rc := TimeoutInCommitSends(cfg, n, order);
    } else {
      rc := TimeoutElseSends(cfg, n, order);
    }
  }

  lemma JumpFrame(cfg: Config, n: Node, a: Action)
    requires Enabled(cfg, n, a) && (a.JumpToProposal? || a.JumpToRoundChanges?)
    ensures var n' := Step(cfg, n, a);
            n'.signed == n.signed && n'.latest == n.latest && n'.round == a.round && n'.height == n.height
  {
  }

  lemma TimeoutStepRetains(cfg: Config, s: State, n: Node, order: seq<Slot>)
    requires LocalInv(cfg, n) && n.height == s.height && Enabled(cfg, n, Timeout(order)) && !n.phase.CommitSent?
    requires SentRetains(cfg, s, n) && HeldRetains(cfg, s, n)
    ensures var n' := StepTimeout(cfg, n, order); SentRetains(cfg, s, n') && HeldRetains(cfg, s, n')
  {
    var rc := TimeoutSends(cfg, n, order);
    StepFrame(cfg, n, Timeout(order));
    TimeoutRetains(cfg, s, n, StepTimeout(cfg, n, order), rc);
  }

  lemma StepRetains(cfg: Config, s: State, n: Node, a: Action)
    requires LocalInv(cfg, n) && n.height == s.height && StoreKnown(s, n.store) && Enabled(cfg, n, a)
    requires SentRetains(cfg, s, n) && HeldRetains(cfg, s, n)
    requires a.Timeout? ==> !n.phase.CommitSent?
    ensures SentRetains(cfg, s, Step(cfg, n, a)) && HeldRetains(cfg, s, Step(cfg, n, a))
  {
    if a.Timeout? {
      TimeoutStepRetains(cfg, s, n, a.order);
    } else if a.JumpToProposal? || a.JumpToRoundChanges? {
      JumpNeedsQuorum(cfg, s, n, a);
      JumpFrame(cfg, n, a);
      JumpRetains(cfg, s, n, Step(cfg, n, a));
    } else {
      StepSigns(cfg, n, a);
      StepFrame(cfg, n, a);
      StayRetains(cfg, s, n, Step(cfg, n, a));
    }
  }

  lemma NextRetains(cfg: Config, s: State, e: Event, late: set<Address>)
    requires Inv(cfg, s) && RetainInv(cfg, s, late) && Allowed(cfg, s, e) && InTime(s, e, late)
    ensures RetainInv(cfg, Next(cfg, s, e), late)
  {
    var s' := Next(cfg, s, e);
    NextGrows(cfg, s, e);
    forall i | i in s'.nodes && i !in late
      ensures SentRetains(cfg, s', s'.nodes[i]) && HeldRetains(cfg, s', s'.nodes[i])
    {
      if i == e.node {
        StepperRetains(cfg, s, e);
      }
      RetainsGrows(cfg, s, s', s'.nodes[i]);
    }
  }

  lemma StepperRetains(cfg: Config, s: State, e: Event)
    requires Inv(cfg, s) && Allowed(cfg, s, e) && InTime(s, e, {})
    requires SentRetains(cfg, s, s.nodes[e.node]) && HeldRetains(cfg, s, s.nodes[e.node])
    ensures var n' := Step(cfg, s.nodes[e.node], e.action); SentRetains(cfg, s, n') && HeldRetains(cfg, s, n')
  {
    assert NodeInv(cfg, s, e.node);
    StepRetains(cfg, s, s.nodes[e.node], e.action);
  }

  lemma InitRetains(cfg: Config, s: State, late: set<Address>)
    requires Init(cfg, s)
    ensures RetainInv(cfg, s, late)
  {
  }

  lemma TimelyStepRetains(cfg: Config, states: seq<State>, events: seq<Event>, late: set<Address>, k: nat)
    requires IsTimelyRun(cfg, states, events, late) && 0 < k < |states| && RetainInv(cfg, states[k - 1], late)
    ensures RetainInv(cfg, states[k], late)
  {
    RunKeeps(cfg, states, events, k - 1);
    assert StepsAt(cfg, states, events, k - 1);
    NextRetains(cfg, states[k - 1], events[k - 1], late);
  }

  lemma {:induction false} RetainedThroughout(cfg: Config, states: seq<State>, events: seq<Event>, late: set<Address>,
                                              k: nat)
    requires IsTimelyRun(cfg, states, events, late) && k < |states|
    ensures RetainInv(cfg, states[k], late)
    decreases k
  {
    if k == 0 {
      InitRetains(cfg, states[k], late);
    } else {
      RetainedThroughout(cfg, states, events, late, k - 1);
      TimelyStepRetains(cfg, states, events, late, k);
    }
  }

  lemma TimelyRunRetains(cfg: Config, states: seq<State>, events: seq<Event>, late: set<Address>, k: nat)
    requires IsTimelyRun(cfg, states, events, late) && k < |states|
    ensures Inv(cfg, states[k]) && RetainInv(cfg, states[k], late)
  {
    RunKeeps(cfg, states, events, k);
    RetainedThroughout(cfg, states, events, late, k);
  }

  // ---------- all rounds ----------

  /** Validators whose round changes need not carry what they committed. */
  function Unreliable(cfg: Config, s: State, late: set<Address>): set<Address> {
    Byzantine(cfg, s) + late
  }

  /** Nodes that sent no round change for a round after `low`, as those that decided in round `low`. */
  ghost predicate Quiet(cfg: Config, s: State, low: nat, quiet: set<Address>) {
    && quiet <= s.nodes.Keys
    && quiet <= cfg.validators(s.height)
    && (forall a, d :: a in quiet && d in s.nodes[a].signed && IsRoundChange(d, s.height) ==> d.view.round <= low)
  }

  /** A commit quorum and two round change quorums of later rounds meet in a reliable validator. */
  ghost predicate ReliablyMeet(cfg: Config, s: State, low: nat, quiet: set<Address>, late: set<Address>) {
    && Quiet(cfg, s, low, quiet)
    && 3 * cfg.quorum(s.height) + |quiet| > 2 * |cfg.validators(s.height)| + |Unreliable(cfg, s, late)|
  }

  /** The proposers of the rounds after `low` up to `high` follow the code. */
  ghost predicate ProposersFollow(cfg: Config, s: State, low: nat, high: nat) {
    forall r: nat :: low < r <= high ==> cfg.proposer(View(s.height, r)) in s.nodes
  }

  /**
   Who carries a block committed in round `low` on to round `high`: the honest proposers, who pick the first
   prepared block they find; or from round 1 on one honest follower, who checks the highest certificate.
   */
  ghost predicate Carried(cfg: Config, s: State, low: nat, high: nat) {
    || ((low == 0 || cfg.quorum(s.height) == 1) && ProposersFollow(cfg, s, low, high))
    || (low >= 1 && cfg.quorum(s.height) >= |Byzantine(cfg, s)| + 2)
  }

  lemma {:induction false} FirstQuorumAfter(cfg: Config, s: State, low: nat, high: nat) returns (first: nat)
    requires low < high && RoundChangeQuorum(cfg, s, View(s.height, high))
    ensures low < first <= high && RoundChangeQuorum(cfg, s, View(s.height, first))
    ensures !QuorumBetween(cfg, s, low, first)
    decreases high
  {
    first := high;
    if QuorumBetween(cfg, s, low, high) {
      var r: nat :| low < r < high && RoundChangeQuorum(cfg, s, View(s.height, r));
      first := FirstQuorumAfter(cfg, s, low, r);
    }
  }

  /** One node that committed in round `low` and changed round at `first` and again at or after it. */
  lemma NodeRetains(cfg: Config, s: State, n: Node, low: nat, digest: Digest, first: nat, d: Digest)
    requires SentRetains(cfg, s, n) && CertificatesGrow(n) && n.height == s.height
    requires CommitDigest(View(n.height, low), digest, Signature(n.self, digest)) in n.signed
    requires low < first && !QuorumBetween(cfg, s, low, first) && SentRoundChange(n, View(n.height, first))
    requires d in n.signed && IsRoundChange(d, n.height) && first <= d.view.round
    ensures CertificateRound(d.certificate) >= low
  {
    var c := CommitDigest(View(n.height, low), digest, Signature(n.self, digest));
    assert IsCommit(c, n.height);
    var certificate :| RoundChangeDigest(View(n.height, first), certificate) in n.signed;
    var sent := RoundChangeDigest(View(n.height, first), certificate);
    assert IsRoundChange(sent, n.height);
    assert CertificateRound(sent.certificate) >= low;
  }

  ghost predicate AllRetain(cfg: Config, s: State, late: set<Address>) {
    forall i :: i in s.nodes && i !in late ==>
      && s.nodes[i].self == i && s.nodes[i].height == s.height
      && SentRetains(cfg, s, s.nodes[i]) && CertificatesGrow(s.nodes[i])
  }

  lemma InvRetains(cfg: Config, s: State, late: set<Address>)
    requires Inv(cfg, s) && RetainInv(cfg, s, late)
    ensures AllRetain(cfg, s, late)
  {
    forall i | i in s.nodes && i !in late
      ensures s.nodes[i].self == i && s.nodes[i].height == s.height
      ensures SentRetains(cfg, s, s.nodes[i]) && CertificatesGrow(s.nodes[i])
    {
      assert NodeInv(cfg, s, i);
    }
  }

  /** Quiet nodes are neither among the senders of a later round change quorum nor listed in a later certificate. */
  lemma QuietAreAbsent(cfg: Config, s: State, low: nat, quiet: set<Address>, first: nat, view: View,
                       list: seq<RoundChangeMetadata>)
    requires Quiet(cfg, s, low, quiet) && low < first && low < view.round && view.height == s.height
    requires forall i :: 0 <= i < |list| ==> list[i].view == view && KnownMetadata(s, list[i])
    ensures RoundChangeSigners(cfg, s, View(s.height, first)) !! quiet && ListSigners(list) !! quiet
  {
    forall a | a in RoundChangeSigners(cfg, s, View(s.height, first)) && a in s.nodes ensures a !in quiet {
      var certificate :| RoundChangeDigest(View(s.height, first), certificate) in s.nodes[a].signed;
      assert IsRoundChange(RoundChangeDigest(View(s.height, first), certificate), s.height);
    }
    forall a | a in ListSigners(list) && a in s.nodes ensures a !in quiet {
      var i :| 0 <= i < |list| && list[i].Signer() == Some(a);
      assert Known(s, list[i].signature);
      assert IsRoundChange(RoundChangeDigest(view, list[i].certificate), s.height);
    }
  }

  /** A reliable validator that committed in round `low`, changed round at `first`, and is listed. */
  lemma SharedSigner(cfg: Config, s: State, low: nat, digest: Digest, quiet: set<Address>, late: set<Address>,
                     first: nat, view: View, list: seq<RoundChangeMetadata>)
    returns (a: Address, i: nat)
    requires ReliablyMeet(cfg, s, low, quiet, late) && low < first && low < view.round && view.height == s.height
    requires CommitQuorum(cfg, s, View(s.height, low), digest)
    requires RoundChangeQuorum(cfg, s, View(s.height, first))
    requires ListSigners(list) <= cfg.validators(s.height) && |ListSigners(list)| >= cfg.quorum(s.height)
    requires forall i :: 0 <= i < |list| ==> list[i].view == view && KnownMetadata(s, list[i])
    ensures a in s.nodes && a !in late && i < |list| && list[i].Signer() == Some(a)
    ensures MayHaveCommitted(s, a, View(s.height, low), digest)
    ensures SentRoundChange(s.nodes[a], View(s.height, first))
  {
    QuietAreAbsent(cfg, s, low, quiet, first, view, list);
    a := CommonMemberOfThree(cfg.validators(s.height), quiet, Unreliable(cfg, s, late),
      CommitSigners(cfg, s, View(s.height, low), digest),
      RoundChangeSigners(cfg, s, View(s.height, first)),
      ListSigners(list), cfg.quorum(s.height));
    i :| 0 <= i < |list| && list[i].Signer() == Some(a);
  }

  /** After a commit quorum, every round change quorum of a later round carries a certificate at least as recent. */
  lemma CertificateRetained(cfg: Config, s: State, low: nat, digest: Digest, quiet: set<Address>, late: set<Address>,
                            view: View, list: seq<RoundChangeMetadata>)
    returns (i: nat)
    requires AllRetain(cfg, s, late) && ReliablyMeet(cfg, s, low, quiet, late)
    requires CommitQuorum(cfg, s, View(s.height, low), digest)
    requires view.height == s.height && low < view.round && QuorumOfRoundChanges(cfg, list, view)
    requires forall j :: 0 <= j < |list| ==> KnownMetadata(s, list[j])
    ensures i < |list| && RoundAt(list, i) >= low
  {
    ListedAreQuorum(cfg, s, view, list);
    var first := FirstQuorumAfter(cfg, s, low, view.round);
    var a;
    a, i := SharedSigner(cfg, s, low, digest, quiet, late, first, view, list);
    ListedRetains(cfg, s, s.nodes[a], low, digest, first, view, list[i]);
  }

  lemma ListedRetains(cfg: Config, s: State, n: Node, low: nat, digest: Digest, first: nat, view: View,
                      rc: RoundChangeMetadata)
    requires SentRetains(cfg, s, n) && CertificatesGrow(n) && n.height == s.height == view.height
    requires n.self in s.nodes && s.nodes[n.self] == n
    requires MayHaveCommitted(s, n.self, View(s.height, low), digest)
    requires low < first <= view.round && !QuorumBetween(cfg, s, low, first)
    requires SentRoundChange(n, View(s.height, first))
    requires rc.view == view && rc.Signer() == Some(n.self) && KnownMetadata(s, rc)
    ensures CertificateRound(rc.certificate) >= low
  {
    assert Known(s, rc.signature);
    NodeRetains(cfg, s, n, low, digest, first, RoundChangeDigest(view, rc.certificate));
  }

  /** What the proof across rounds uses of the invariant. */
  ghost predicate Sound(cfg: Config, s: State, late: set<Address>) {
    && WellFormed(cfg) && QuorumsMeetHonestly(cfg, s)
    && AllVoteOnce(s) && AllRetain(cfg, s, late)
    && (forall i, d :: i in s.nodes && d in s.nodes[i].signed && IsVote(d, s.height) ==> Justified(cfg, s, d))
  }

  lemma InvIsSound(cfg: Config, s: State, late: set<Address>)
    requires WellFormed(cfg) && QuorumsMeetHonestly(cfg, s)
    requires Inv(cfg, s) && RetainInv(cfg, s, late)
    ensures Sound(cfg, s, late)
  {
    InvVotesOnce(cfg, s);
    InvRetains(cfg, s, late);
    forall i, d | i in s.nodes && d in s.nodes[i].signed && IsVote(d, s.height) ensures Justified(cfg, s, d) {
      assert NodeInv(cfg, s, i);
    }
  }

  /** More validators than are Byzantine include one that follows the code. */
  lemma HonestMember(cfg: Config, s: State, some: set<Address>) returns (a: Address)
    requires some <= cfg.validators(s.height) && |some| > |Byzantine(cfg, s)|
    ensures a in some && a in s.nodes
  {
    if some <= Byzantine(cfg, s) {
      SubsetSize(some, Byzantine(cfg, s));
    }
    a :| a in some && a !in Byzantine(cfg, s);
  }

  /** A commit quorum has an honest member, so its digest was prepared and is a block's. */
  lemma CommittedIsPrepared(cfg: Config, s: State, late: set<Address>, view: View, digest: Digest)
    requires Sound(cfg, s, late) && view.height == s.height && CommitQuorum(cfg, s, view, digest)
    ensures Prepared(cfg, s, view, digest) && digest.BlockDigest?
  {
    SubsetSize(CommitSigners(cfg, s, view, digest), cfg.validators(s.height));
    var a := HonestMember(cfg, s, CommitSigners(cfg, s, view, digest));
    var d := CommitDigest(view, digest, Signature(a, digest));
    assert d in s.nodes[a].signed && IsVote(d, s.height);
    assert Justified(cfg, s, d);
  }

  lemma ProposalHasBasis(cfg: Config, s: State, late: set<Address>, view: View, digest: Digest)
    returns (rcs: seq<RoundChangeMsg>)
    requires Sound(cfg, s, late) && view.height == s.height && view.round >= 1 && Prepared(cfg, s, view, digest)
    requires cfg.proposer(view) in s.nodes
    ensures ProposalBasis(cfg, s, view, digest, rcs)
  {
    var vote := ProposalDigest(view, digest);
    assert vote in s.nodes[cfg.proposer(view)].signed && IsVote(vote, s.height);
    assert Justified(cfg, s, vote);
    rcs :| ProposalBasis(cfg, s, view, digest, rcs);
  }

  lemma PrepareHasBasis(cfg: Config, s: State, late: set<Address>, view: View, digest: Digest) returns (p: ProposalMsg)
    requires Sound(cfg, s, late) && view.height == s.height && view.round >= 1 && Prepared(cfg, s, view, digest)
    requires cfg.quorum(s.height) >= |Byzantine(cfg, s)| + 2
    ensures PrepareBasis(cfg, s, view, digest, p)
  {
    var a := HonestMember(cfg, s, PrepareSigners(cfg, s, view, digest));
    var vote := PrepareDigest(view, digest);
    assert vote in s.nodes[a].signed && IsVote(vote, s.height);
    assert Justified(cfg, s, vote);
    p :| PrepareBasis(cfg, s, view, digest, p);
  }

  /** The block an honest proposer picks up is certified; it need not be the most recent one. */
  lemma ChosenCertificate(cfg: Config, s: State, low: nat, view: View, digest: Digest, rcs: seq<RoundChangeMsg>, i: nat)
    returns (certificate: PreparedCertificate)
    requires ProposalBasis(cfg, s, view, digest, rcs)
    requires i < |rcs| && CertificateRound(rcs[i].Certificate()) >= low
    requires low == 0 || |rcs| == 1
    ensures KnownCertificate(s, certificate) && ValidCertificate(cfg, certificate, view.height, view.round)
    ensures certificate.proposal.view.round >= low
    ensures digest.BlockDigest? && certificate.proposal.digest.BlockDigest?
    ensures certificate.proposal.digest.raw == digest.raw
  {
    var pos := FirstPrepared(rcs).value;
    certificate := rcs[pos].prepared.value.certificate;
    assert KnownMetadata(s, rcs[pos].Metadata()) && ValidRoundChange(cfg, rcs[pos], view.height);
  }

  /** The proposer's side: it re-proposes a block some round change of its basis is certified for. */
  lemma ProposerKeepsBlock(cfg: Config, s: State, low: nat, digest: Digest, quiet: set<Address>, late: set<Address>,
                           view: View, later: Digest)
    requires Sound(cfg, s, late) && ReliablyMeet(cfg, s, low, quiet, late)
    requires CommitQuorum(cfg, s, View(s.height, low), digest)
    requires view.height == s.height && low < view.round && Prepared(cfg, s, view, later)
    requires (low == 0 || cfg.quorum(s.height) == 1) && ProposersFollow(cfg, s, low, view.round)
    ensures later.BlockDigest? && digest.BlockDigest? && later.raw == digest.raw
    decreases view.round, 0
  {
    assert cfg.proposer(View(s.height, view.round)) in s.nodes;
    var rcs := ProposalHasBasis(cfg, s, late, view, later);
    var i := CertificateRetained(cfg, s, low, digest, quiet, late, view, MetadataOf(rcs));
    if cfg.quorum(s.height) == 1 {
      OnlyOne(cfg, view, MetadataOf(rcs));
    }
    var certificate := ChosenCertificate(cfg, s, low, view, later, rcs, i);
    CertificateIsPrepared(cfg, s, certificate, view.round);
    BlockKept(cfg, s, low, digest, quiet, late, certificate.proposal.view, certificate.proposal.digest);
  }

  /** With a quorum of one there is one validator, so a certificate lists one round change. */
  lemma OnlyOne(cfg: Config, view: View, list: seq<RoundChangeMetadata>)
    requires 2 * cfg.quorum(view.height) > |cfg.validators(view.height)| && cfg.quorum(view.height) == 1
    requires QuorumOfRoundChanges(cfg, list, view)
    ensures |list| == 1
  {
    if |list| > 1 {
      var all, two := cfg.validators(view.height), {list[0].Signer().value, list[1].Signer().value};
      assert list[0].Signer() != list[1].Signer();
      SubsetSize(two, all);
    }
  }

  /** The follower's side: it checked the block against the certificate of highest round. */
  lemma FollowerKeepsBlock(cfg: Config, s: State, low: nat, digest: Digest, quiet: set<Address>, late: set<Address>,
                           view: View, later: Digest)
    requires Sound(cfg, s, late) && ReliablyMeet(cfg, s, low, quiet, late)
    requires CommitQuorum(cfg, s, View(s.height, low), digest)
    requires view.height == s.height && low < view.round && Prepared(cfg, s, view, later)
    requires low >= 1 && cfg.quorum(s.height) >= |Byzantine(cfg, s)| + 2
    ensures later.BlockDigest? && digest.BlockDigest? && later.raw == digest.raw
    decreases view.round, 0
  {
    var p := PrepareHasBasis(cfg, s, late, view, later);
    var list := p.certificate.value;
    var i := CertificateRetained(cfg, s, low, digest, quiet, late, view, list);
    var k :| 0 <= k < |list| && FirstOfMaximalRound(list, k) && Certifies(cfg, p, list, k);
    assert KnownMetadata(s, list[k]);
    assert RoundAt(list, k) >= RoundAt(list, i);
    var certificate := list[k].certificate.value;
    CertificateIsPrepared(cfg, s, certificate, view.round);
    BlockKept(cfg, s, low, digest, quiet, late, certificate.proposal.view, certificate.proposal.digest);
  }

  /** Once a quorum committed a block, every digest prepared in that or a later round is that block's. */
  lemma {:induction false} BlockKept(cfg: Config, s: State, low: nat, digest: Digest, quiet: set<Address>,
                                     late: set<Address>,
                                     view: View, later: Digest)
    requires Sound(cfg, s, late) && ReliablyMeet(cfg, s, low, quiet, late)
    requires CommitQuorum(cfg, s, View(s.height, low), digest)
    requires view.height == s.height && low <= view.round && Prepared(cfg, s, view, later)
    requires Carried(cfg, s, low, view.round)
    ensures later.BlockDigest? && digest.BlockDigest? && later.raw == digest.raw
    decreases view.round, 1
  {
    CommittedIsPrepared(cfg, s, late, View(s.height, low), digest);
    if low == view.round {
      PreparedOnce(cfg, s, view, digest, later);
    } else if low >= 1 && cfg.quorum(s.height) >= |Byzantine(cfg, s)| + 2 {
      FollowerKeepsBlock(cfg, s, low, digest, quiet, late, view, later);
    } else {
      ProposerKeepsBlock(cfg, s, low, digest, quiet, late, view, later);
    }
  }

  /** Two commit quorums of a height, the earlier one carried on to the later one, are for the same raw block. */
  lemma CommitQuorumsAgree(cfg: Config, s: State, quiet: set<Address>, late: set<Address>,
                           round: nat, digest: Digest, round': nat, digest': Digest)
    requires Sound(cfg, s, late) && ReliablyMeet(cfg, s, round, quiet, late)
    requires round <= round' && Carried(cfg, s, round, round')
    requires CommitQuorum(cfg, s, View(s.height, round), digest)
    requires CommitQuorum(cfg, s, View(s.height, round'), digest')
    ensures digest.BlockDigest? && digest'.BlockDigest? && digest.raw == digest'.raw
  {
    CommittedIsPrepared(cfg, s, late, View(s.height, round'), digest');
    BlockKept(cfg, s, round, digest, quiet, late, View(s.height, round'), digest');
  }

  // ---------- decisions ----------

  /** No more validators are unreliable than a commit quorum and two round change quorums have in common at least. */
  ghost predicate FewUnreliable(cfg: Config, s: State, late: set<Address>) {
    3 * cfg.quorum(s.height) >= 2 * |cfg.validators(s.height)| + |Unreliable(cfg, s, late)|
  }

  lemma FewUnreliableSuffice(cfg: Config, s: State, late: set<Address>, i: Address, j: Address)
    requires FewUnreliable(cfg, s, late) && s.nodes.Keys <= cfg.validators(s.height)
    requires i in s.nodes && j in s.nodes && i != j
    ensures QuorumsMeetHonestly(cfg, s)
    ensures cfg.quorum(s.height) >= |Byzantine(cfg, s)| + 2
    ensures 3 * cfg.quorum(s.height) + |{i}| > 2 * |cfg.validators(s.height)| + |Unreliable(cfg, s, late)|
  {
    var all, byzantine := cfg.validators(s.height), Byzantine(cfg, s);
    SubsetSize(byzantine, Unreliable(cfg, s, late));
    assert all == byzantine + s.nodes.Keys && |all| == |byzantine| + |s.nodes.Keys|;
    SubsetSize({i, j}, s.nodes.Keys);
    assert |{i, j}| == 2;
  }

  lemma NodesAreValidators(cfg: Config, s: State)
    requires Inv(cfg, s)
    ensures s.nodes.Keys <= cfg.validators(s.height)
  {
    forall i | i in s.nodes ensures i in cfg.validators(s.height) {
      assert NodeInv(cfg, s, i);
    }
  }

  /** A node that decided stays in its round. */
  lemma DeciderIsQuiet(cfg: Config, s: State, i: Address, round: nat, block: FinalizedBlock)
    requires Inv(cfg, s) && DecidedIn(s, i, round, block)
    ensures Quiet(cfg, s, round, {i})
  {
    assert NodeInv(cfg, s, i);
    forall d | d in s.nodes[i].signed && IsRoundChange(d, s.height) ensures d.view.round <= round {
      assert VoteInTime(cfg, s.nodes[i], d);
    }
  }

  lemma DecisionIsSound(cfg: Config, s: State, late: set<Address>, i: Address, j: Address, round: nat,
                        block: FinalizedBlock)
    requires WellFormed(cfg) && Inv(cfg, s) && RetainInv(cfg, s, late) && FewUnreliable(cfg, s, late)
    requires DecidedIn(s, i, round, block) && j in s.nodes && i != j
    ensures Sound(cfg, s, late) && ReliablyMeet(cfg, s, round, {i}, late)
    ensures cfg.quorum(s.height) >= |Byzantine(cfg, s)| + 2
  {
    NodesAreValidators(cfg, s);
    FewUnreliableSuffice(cfg, s, late, i, j);
    InvIsSound(cfg, s, late);
    DeciderIsQuiet(cfg, s, i, round, block);
  }

  lemma DecisionsAgree(cfg: Config, s: State, late: set<Address>,
                       i: Address, round: nat, block: FinalizedBlock,
                       j: Address, round': nat, block': FinalizedBlock)
    requires Sound(cfg, s, late) && ReliablyMeet(cfg, s, round, {i}, late)
    requires cfg.quorum(s.height) >= |Byzantine(cfg, s)| + 2
    requires CommitQuorum(cfg, s, View(s.height, round), BlockDigest(block.raw, block.round))
    requires CommitQuorum(cfg, s, View(s.height, round'), BlockDigest(block'.raw, block'.round))
    requires round <= round' && (round >= 1 || ProposersFollow(cfg, s, round, round'))
    ensures block.raw == block'.raw
  {
    CommitQuorumsAgree(cfg, s, {i}, late,
      round, BlockDigest(block.raw, block.round), round', BlockDigest(block'.raw, block'.round));
  }

  /**
   Any two nodes that finalize the height, in any two rounds, finalize the same raw block: with up to
   `3 * quorum - 2 * n` validators that are Byzantine or time out between commit broadcast and state update,
   and, if the earlier decision is of round 0, proposers that follow the code from there to the later one.
   */
  lemma CrossRoundAgreement(cfg: Config, states: seq<State>, events: seq<Event>, late: set<Address>, k: nat,
                            i: Address, round: nat, block: FinalizedBlock,
                            j: Address, round': nat, block': FinalizedBlock)
    requires WellFormed(cfg) && IsTimelyRun(cfg, states, events, late) && k < |states|
    requires FewUnreliable(cfg, states[k], late)
    requires DecidedIn(states[k], i, round, block) && DecidedIn(states[k], j, round', block')
    requires round <= round' && (round >= 1 || ProposersFollow(cfg, states[k], round, round'))
    ensures block.raw == block'.raw
  {
    if i != j {
      TimelyRunRetains(cfg, states, events, late, k);
      DecisionIsSound(cfg, states[k], late, i, j, round, block);
      DecisionHasQuorum(cfg, states[k], i, round, block);
      DecisionHasQuorum(cfg, states[k], j, round', block');
      DecisionsAgree(cfg, states[k], late, i, round, block, j, round', block');
    }
  }

  /** Without Byzantine validators and without timeouts in that window `3 * quorum >= 2 * n` is all it takes. */
  lemma CrashOnlyAgreement(cfg: Config, states: seq<State>, events: seq<Event>, k: nat,
                           i: Address, round: nat, block: FinalizedBlock,
                           j: Address, round': nat, block': FinalizedBlock)
    requires WellFormed(cfg) && IsTimelyRun(cfg, states, events, {}) && k < |states|
    requires states[k].nodes.Keys == cfg.validators(states[k].height)
    requires 3 * cfg.quorum(states[k].height) >= 2 * |cfg.validators(states[k].height)|
    requires DecidedIn(states[k], i, round, block) && DecidedIn(states[k], j, round', block')
    ensures block.raw == block'.raw
  {
    assert Unreliable(cfg, states[k], {}) == {};
    if round <= round' {
      CrossRoundAgreement(cfg, states, events, {}, k, i, round, block, j, round', block');
    } else {
      CrossRoundAgreement(cfg, states, events, {}, k, j, round', block', i, round, block);
    }
  }
}

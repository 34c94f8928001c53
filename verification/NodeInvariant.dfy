/**
 What every step of a node keeps, whatever is delivered to it and in whatever order:
 the store holds only checked messages with truthful cached verdicts, votes are cast once per
 view, a node past the prepare state can still find what its timeout and finish handlers take,
 and the round change it carries verifies.
 */
module NodeInvariant {
  import opened Types
  import opened Configuration
  import opened Verification
  import opened Stores
  import opened Nodes

  // ---------- the store ----------

  predicate ProposalChecked(cfg: Config, view: View, proposal: ProposalMsg) {
    proposal.view == view && view.round <= MAX_ROUND && proposal.Signer() == Some(cfg.proposer(view))
  }

  /** A cached verdict on a peer's proposal is the verifier's. */
  predicate VerdictTruthful(cfg: Config, self: Address, view: View, entry: ProposalEntry) {
    entry.verdict.Some? && cfg.proposer(view) != self ==> entry.verdict.value == CheckProposal1(cfg, entry.proposal)
  }

  predicate PrepareChecked(cfg: Config, slot: Slot, prepare: PrepareMsg) {
    && prepare.view == slot.view && slot.view.round <= MAX_ROUND
    && prepare.Signer() == Some(slot.sender)
    && slot.sender in cfg.validators(slot.view.height)
    && slot.sender != cfg.proposer(slot.view)
  }

  predicate CommitChecked(cfg: Config, slot: Slot, commit: CommitMsg) {
    && commit.view == slot.view && slot.view.round <= MAX_ROUND
    && commit.Signer() == Some(slot.sender)
    && commit.SealSigner() == Some(slot.sender)
    && slot.sender in cfg.validators(slot.view.height)
  }

  /** A set flag is only ever on a round change that verifies. */
  predicate RoundChangeChecked(cfg: Config, slot: Slot, entry: RoundChangeEntry) {
    && entry.message.view == slot.view && 1 <= slot.view.round <= MAX_ROUND
    && entry.message.Signer() == Some(slot.sender)
    && slot.sender in cfg.validators(slot.view.height)
    && (entry.verified ==> ValidRoundChange(cfg, entry.message, slot.view.height))
  }

  ghost predicate ProposalsWf(cfg: Config, self: Address, st: Store) {
    && (forall h :: h in st.proposals0 ==> ProposalChecked(cfg, View(h, 0), st.proposals0[h]))
    && (forall view :: view in st.proposals1 ==>
          && view.round >= 1
          && ProposalChecked(cfg, view, st.proposals1[view].proposal)
          && VerdictTruthful(cfg, self, view, st.proposals1[view]))
  }

  ghost predicate VotesWf(cfg: Config, st: Store) {
    && (forall slot :: slot in st.prepares ==> PrepareChecked(cfg, slot, st.prepares[slot]))
    && (forall slot :: slot in st.commits ==> CommitChecked(cfg, slot, st.commits[slot]))
    && (forall slot :: slot in st.roundChanges ==> RoundChangeChecked(cfg, slot, st.roundChanges[slot]))
  }

  // ---------- what was signed ----------

  predicate HasProposed(phase: Phase) {
    phase.ProposalSent? || phase.AwaitPrepares? || phase.CommitSent? || phase.AwaitCommits? || phase.Sealed?
  }

  predicate HasPrepared(phase: Phase) {
    phase.PrepareSent? || phase.AwaitPrepares? || phase.CommitSent? || phase.AwaitCommits? || phase.Sealed?
  }

  predicate HasCommitted(phase: Phase) {
    phase.CommitSent? || phase.AwaitCommits? || phase.Sealed?
  }

  predicate HasStoredProposal(phase: Phase) {
    phase.AwaitPrepares? || phase.CommitSent? || phase.AwaitCommits? || phase.Sealed?
  }

  predicate IsVote(d: Digest, height: nat) {
    !d.BlockDigest? && !d.UnknownDigest? && d.view.height == height
  }

  /** Two messages of one kind for one view. */
  predicate SameVote(d: Digest, e: Digest) {
    || (d.ProposalDigest? && e.ProposalDigest? && d.view == e.view)
    || (d.PrepareDigest? && e.PrepareDigest? && d.view == e.view)
    || (d.CommitDigest? && e.CommitDigest? && d.view == e.view)
    || (d.RoundChangeDigest? && e.RoundChangeDigest? && d.view == e.view)
  }

  predicate VoteInTime(cfg: Config, n: Node, d: Digest) {
    match d
    case ProposalDigest(view, _) =>
      cfg.proposer(view) == n.self && view.round <= n.round && (view.round == n.round ==> HasProposed(n.phase))
    case PrepareDigest(view, _) =>
      cfg.proposer(view) != n.self && view.round <= n.round && (view.round == n.round ==> HasPrepared(n.phase))
    case CommitDigest(view, _, _) =>
      view.round <= n.round && (view.round == n.round ==> HasCommitted(n.phase))
    case RoundChangeDigest(view, _) =>
      1 <= view.round <= n.round
    case _ => true
  }

  ghost predicate VotesInTime(cfg: Config, n: Node) {
    forall d :: d in n.signed && IsVote(d, n.height) ==> VoteInTime(cfg, n, d)
  }

  /** At most one proposal, prepare, commit and round change per view. */
  ghost predicate VotesOnce(n: Node) {
    forall d, e :: d in n.signed && e in n.signed && IsVote(d, n.height) && SameVote(d, e) ==> d == e
  }

  // ---------- the carried round change ----------

  predicate IsRoundChange(d: Digest, height: nat) {
    d.RoundChangeDigest? && d.view.height == height
  }

  function LatestRound(n: Node): int {
    if n.latest.Some? then CertificateRound(n.latest.value.Certificate()) else -1
  }

  ghost predicate LatestWf(cfg: Config, n: Node) {
    && (n.latest.Some? ==>
          var rc := n.latest.value;
          && rc.view.height == n.height
          && 1 <= rc.view.round <= n.round
          && rc.Signer() == Some(n.self)
          && RoundChangeDigest(rc.view, rc.Certificate()) in n.signed
          && ValidRoundChange(cfg, rc, n.height))
    && (forall d :: d in n.signed && IsRoundChange(d, n.height) ==>
          n.latest.Some? && CertificateRound(d.certificate) <= LatestRound(n))
  }

  /** Later round changes never carry an older certificate. */
  ghost predicate CertificatesGrow(n: Node) {
    forall d, e :: d in n.signed && e in n.signed && IsRoundChange(d, n.height) && IsRoundChange(e, n.height)
                   && d.view.round <= e.view.round
                   ==> CertificateRound(d.certificate) <= CertificateRound(e.certificate)
  }

  // ---------- the round task ----------

  /** The proposal of the current view is stored under this digest, and the digest is its block's. */
  predicate Agreed(n: Node, digest: Digest) {
    var proposal := ProposalAt(n.store, n.Current());
    proposal.Some? && proposal.value.digest == digest && proposal.value.DigestMatches()
  }

  function MatchingPrepares(n: Node, digest: Digest): map<Slot, PrepareMsg> {
    At(RetainPrepares(n.store, n.Current(), digest).prepares, n.Current())
  }

  /** `quorum - 1` matching prepares of the current view are stored. */
  predicate Backed(cfg: Config, n: Node, digest: Digest) {
    |MatchingPrepares(n, digest)| + 1 >= cfg.quorum(n.height)
  }

  /** Enough seals over this digest, each recovering to a different validator. */
  predicate SealsProve(cfg: Config, height: nat, digest: Digest, seals: seq<Signature>) {
    && |seals| >= cfg.quorum(height)
    && (forall i :: 0 <= i < |seals| ==>
          Recover(seals[i], digest).Some? && Recover(seals[i], digest).value in cfg.validators(height))
    && (forall i, j :: 0 <= i < j < |seals| ==> Recover(seals[i], digest) != Recover(seals[j], digest))
  }

  predicate PhaseWf(cfg: Config, n: Node) {
    var view := n.Current();
    match n.phase
    case AwaitProposal => true
    case Failed => true
    case ProposalSent(p) =>
      && p.view == view && cfg.proposer(view) == n.self && p.Signer() == Some(n.self) && p.DigestMatches()
      && ProposalDigest(view, p.digest) in n.signed
    case PrepareSent(m) =>
      m == NewPrepare(view, m.digest, n.self) && cfg.proposer(view) != n.self && Agreed(n, m.digest)
    case AwaitPrepares(d) => Agreed(n, d)
    case CommitSent(c) => c == NewCommit(view, c.digest, n.self) && Agreed(n, c.digest) && Backed(cfg, n, c.digest)
    case AwaitCommits(d) => Agreed(n, d) && Backed(cfg, n, d)
    case Sealed(d, seals) => Agreed(n, d) && Backed(cfg, n, d) && SealsProve(cfg, n.height, d, seals)
  }

  /** Own proposals are only stored by the round that made them. */
  ghost predicate OwnProposals(cfg: Config, n: Node) {
    forall view :: ProposalAt(n.store, view).Some? && cfg.proposer(view) == n.self ==>
      && view.height == n.height && view.round <= n.round
      && (view.round == n.round ==> HasStoredProposal(n.phase))
  }

  // ---------- together ----------

  ghost predicate StoreInv(cfg: Config, self: Address, st: Store) {
    ProposalsWf(cfg, self, st) && VotesWf(cfg, st)
  }

  ghost predicate SignedInv(cfg: Config, n: Node) {
    VotesInTime(cfg, n) && VotesOnce(n) && LatestWf(cfg, n) && CertificatesGrow(n)
  }

  ghost predicate TaskInv(cfg: Config, n: Node) {
    && !n.status.Panicked?
    && n.round <= (if n.status.Dead? then MAX_ROUND + 1 else MAX_ROUND)
    && (n.status.Running? ==> PhaseWf(cfg, n) && OwnProposals(cfg, n))
    && (n.status.Decided? ==>
          var block := n.status.block;
          SealsProve(cfg, n.height, BlockDigest(block.raw, block.round), block.seals))
  }

  ghost predicate LocalInv(cfg: Config, n: Node) {
    && n.self in cfg.validators(n.height)
    && n.finalized < n.height
    && StoreInv(cfg, n.self, n.store)
    && SignedInv(cfg, n)
    && TaskInv(cfg, n)
  }

  // ---------- cardinalities ----------

  lemma SmallerMap<T>(m: map<Slot, T>, larger: map<Slot, T>)
    requires m.Keys <= larger.Keys
    ensures |m| <= |larger|
  {
    SubsetSize(m.Keys, larger.Keys);
  }

  lemma {:induction false} SubsetSize<T>(a: set<T>, b: set<T>)
    requires a <= b
    ensures |a| <= |b|
  {
    assert b == a + (b - a);
    assert |b| == |a| + |b - a|;
  }

  // ---------- the store functions keep the store invariant ----------

  lemma AddProposalKeeps(cfg: Config, self: Address, st: Store, proposal: ProposalMsg, sender: Address)
    requires StoreInv(cfg, self, st)
    requires ProposalChecked(cfg, proposal.view, proposal) && proposal.Signer() == Some(sender)
    ensures StoreInv(cfg, self, AddProposal(st, self, proposal, sender))
  {
    AddProposalKeepsProposals(cfg, self, st, proposal, sender);
  }

  lemma AddProposalKeepsProposals(cfg: Config, self: Address, st: Store, proposal: ProposalMsg, sender: Address)
    requires ProposalsWf(cfg, self, st)
    requires ProposalChecked(cfg, proposal.view, proposal) && proposal.Signer() == Some(sender)
    ensures ProposalsWf(cfg, self, AddProposal(st, self, proposal, sender))
  {
  }

  lemma AddPrepareKeeps(cfg: Config, self: Address, st: Store, prepare: PrepareMsg, sender: Address)
    requires StoreInv(cfg, self, st) && PrepareChecked(cfg, Slot(prepare.view, sender), prepare)
    ensures StoreInv(cfg, self, AddPrepare(st, prepare, sender))
  {
  }

  lemma AddCommitKeeps(cfg: Config, self: Address, st: Store, commit: CommitMsg, sender: Address)
    requires StoreInv(cfg, self, st) && CommitChecked(cfg, Slot(commit.view, sender), commit)
    ensures StoreInv(cfg, self, AddCommit(st, commit, sender))
  {
  }

  lemma AddRoundChangeKeeps(cfg: Config, self: Address, st: Store, rc: RoundChangeMsg, sender: Address)
    requires StoreInv(cfg, self, st)
    requires RoundChangeChecked(cfg, Slot(rc.view, sender), RoundChangeEntry(rc, sender == self))
    ensures StoreInv(cfg, self, AddRoundChange(st, self, rc, sender))
  {
  }

  lemma HandleKeepsStore(cfg: Config, self: Address, finalized: nat, st: Store, message: Received)
    requires StoreInv(cfg, self, st)
    ensures StoreInv(cfg, self, Handle(cfg, self, finalized, st, message))
  {
    if Judge(cfg, self, finalized, message).Stored? {
      var sender := message.Signer().value;
      match message
      case GotProposal(m) => AddProposalKeeps(cfg, self, st, m, sender);
      case GotPrepare(m) => AddPrepareKeeps(cfg, self, st, m, sender);
      case GotCommit(m) => AddCommitKeeps(cfg, self, st, m, sender);
      case GotRoundChange(m) => AddRoundChangeKeeps(cfg, self, st, m, sender);
    }
  }

  lemma PruneKeepsStore(cfg: Config, self: Address, st: Store, part: Part, height: nat)
    requires StoreInv(cfg, self, st)
    ensures StoreInv(cfg, self, PrunePart(st, part, height))
  {
  }

  lemma CacheKeepsStore(cfg: Config, self: Address, st: Store, view: View)
    requires StoreInv(cfg, self, st)
    ensures StoreInv(cfg, self, CacheVerdict(st, view, ProposalVerifier(cfg, view.round)))
  {
  }

  lemma VerifyKeepsStore(cfg: Config, self: Address, st: Store, view: View)
    requires StoreInv(cfg, self, st)
    ensures StoreInv(cfg, self, VerifyRoundChanges(st, view, RoundChangeVerifier(cfg, view.height)))
  {
  }

  // ---------- steps that only touch the store ----------

  /** The store keeps what the round task of n relies on. */
  ghost predicate Serves(cfg: Config, n: Node, st: Store) {
    && (ProposalAt(n.store, n.Current()).Some? ==> ProposalAt(st, n.Current()) == ProposalAt(n.store, n.Current()))
    && (forall view :: cfg.proposer(view) == n.self && ProposalAt(st, view).Some? ==> ProposalAt(n.store, view).Some?)
    && (forall slot :: slot in n.store.prepares && slot.view == n.Current() ==>
          slot in st.prepares && st.prepares[slot] == n.store.prepares[slot])
  }

  lemma StoreStepKeeps(cfg: Config, n: Node, st: Store)
    requires LocalInv(cfg, n) && StoreInv(cfg, n.self, st)
    requires n.status.Running? && Serves(cfg, n, st)
    ensures LocalInv(cfg, n.(store := st))
  {
    var n' := n.(store := st);
    assert SignedInv(cfg, n') by {
      assert forall d :: VoteInTime(cfg, n, d) ==> VoteInTime(cfg, n', d);
    }
    forall digest ensures Backed(cfg, n, digest) ==> Backed(cfg, n', digest) {
      SmallerMap(MatchingPrepares(n, digest), MatchingPrepares(n', digest));
    }
    assert PhaseWf(cfg, n');
  }

  lemma HandleServes(cfg: Config, n: Node, message: Received)
    ensures Serves(cfg, n, Handle(cfg, n.self, n.finalized, n.store, message))
  {
    match message
    case GotProposal(m) =>
    case GotPrepare(m) =>
    case GotCommit(m) =>
    case GotRoundChange(m) =>
  }

  lemma DeliverKeeps(cfg: Config, n: Node, message: Received)
    requires LocalInv(cfg, n) && Enabled(cfg, n, Deliver(message))
    ensures LocalInv(cfg, Step(cfg, n, Deliver(message)))
  {
    HandleKeepsStore(cfg, n.self, n.finalized, n.store, message);
    HandleServes(cfg, n, message);
    StoreStepKeeps(cfg, n, Handle(cfg, n.self, n.finalized, n.store, message));
  }

  lemma PruneServes(cfg: Config, n: Node, part: Part, below: nat)
    requires below <= n.height
    ensures Serves(cfg, n, PrunePart(n.store, part, below))
  {
  }

  lemma PruneKeeps(cfg: Config, n: Node, part: Part, below: nat)
    requires LocalInv(cfg, n) && Enabled(cfg, n, Prune(part, below))
    ensures LocalInv(cfg, Step(cfg, n, Prune(part, below)))
  {
    PruneKeepsStore(cfg, n.self, n.store, part, below);
    PruneServes(cfg, n, part, below);
    StoreStepKeeps(cfg, n, PrunePart(n.store, part, below));
  }

  lemma CacheServes(cfg: Config, n: Node, view: View)
    ensures Serves(cfg, n, CachedProposal(cfg, n, view).1)
  {
  }

  lemma QueryProposalKeeps(cfg: Config, n: Node, view: View)
    requires LocalInv(cfg, n) && n.status.Running?
    ensures LocalInv(cfg, n.(store := CachedProposal(cfg, n, view).1))
  {
    CacheKeepsStore(cfg, n.self, n.store, view);
    CacheServes(cfg, n, view);
    StoreStepKeeps(cfg, n, CachedProposal(cfg, n, view).1);
  }

  lemma VerifyServes(cfg: Config, n: Node, round: nat)
    ensures Serves(cfg, n, VerifiedRoundChanges(cfg, n, round))
  {
  }

  lemma QueryRoundChangesKeeps(cfg: Config, n: Node, round: nat)
    requires LocalInv(cfg, n) && n.status.Running?
    ensures LocalInv(cfg, n.(store := VerifiedRoundChanges(cfg, n, round)))
  {
    VerifyKeepsStore(cfg, n.self, n.store, View(n.height, round));
    VerifyServes(cfg, n, round);
    StoreStepKeeps(cfg, n, VerifiedRoundChanges(cfg, n, round));
  }
}

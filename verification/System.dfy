/**
 The validators of one height and the network between them.

 `nodes` are the validators that follow the code; every other validator is Byzantine.  The network
 may lose, delay, duplicate, reorder and alter messages, and may deliver anything at all, except that
 it cannot forge: a signature of a node in `nodes` inside a delivered message was made by that node.
 A crashed node is one that takes no further steps.
 */
module Systems {
  import opened Types
  import opened Configuration
  import opened Verification
  import opened Stores
  import opened Nodes
  import opened NodeInvariant

  datatype State = State(height: nat, nodes: map<Address, Node>)

  // ---------- what the network may deliver ----------

  predicate MayHaveSigned(s: State, a: Address, d: Digest) {
    a in s.nodes ==> d in s.nodes[a].signed
  }

  predicate Known(s: State, signature: Signature) {
    MayHaveSigned(s, signature.signer, signature.prehash)
  }

  predicate KnownCertificate(s: State, certificate: PreparedCertificate) {
    && Known(s, certificate.proposal.signature)
    && (forall i :: 0 <= i < |certificate.prepares| ==> Known(s, certificate.prepares[i].signature))
  }

  predicate KnownMetadata(s: State, rc: RoundChangeMetadata) {
    Known(s, rc.signature) && (rc.certificate.Some? ==> KnownCertificate(s, rc.certificate.value))
  }

  predicate KnownProposal(s: State, p: ProposalMsg) {
    && Known(s, p.signature)
    && (p.certificate.Some? ==>
          forall i :: 0 <= i < |p.certificate.value| ==> KnownMetadata(s, p.certificate.value[i]))
  }

  predicate KnownMessage(s: State, message: Received) {
    match message
    case GotProposal(m) => KnownProposal(s, m)
    case GotPrepare(m) => Known(s, m.signature)
    case GotCommit(m) => Known(s, m.signature) && Known(s, m.seal)
    case GotRoundChange(m) => KnownMetadata(s, m.Metadata())
  }

  // ---------- runs ----------

  ghost predicate Init(cfg: Config, s: State) {
    forall i :: i in s.nodes ==>
      && i in cfg.validators(s.height)
      && var n := s.nodes[i];
      && n == Node(i, s.height, n.finalized, EmptyStore, 0, AwaitProposal, None, Running, n.signed)
      && n.finalized < s.height
      && (forall d :: d in n.signed ==> !IsVote(d, s.height))  // other heights are arbitrary
  }

  datatype Event = Event(node: Address, action: Action)

  predicate Allowed(cfg: Config, s: State, e: Event) {
    && e.node in s.nodes
    && Enabled(cfg, s.nodes[e.node], e.action)
    && (e.action.Deliver? ==> KnownMessage(s, e.action.message))
  }

  function Next(cfg: Config, s: State, e: Event): State
    requires Allowed(cfg, s, e)
  {
    s.(nodes := s.nodes[e.node := Step(cfg, s.nodes[e.node], e.action)])
  }

  ghost predicate IsRun(cfg: Config, states: seq<State>, events: seq<Event>) {
    && |states| == |events| + 1
    && Init(cfg, states[0])
    && forall k :: 0 <= k < |events| ==> StepsAt(cfg, states, events, k)
  }

  ghost predicate StepsAt(cfg: Config, states: seq<State>, events: seq<Event>, k: nat)
    requires |states| == |events| + 1 && k < |events|
  {
    Allowed(cfg, states[k], events[k]) && states[k + 1] == Next(cfg, states[k], events[k])
  }

  // ---------- evidence: facts about what was signed, which stay true ----------

  /** Validators other than the proposer that may have prepared this digest. */
  function PrepareSigners(cfg: Config, s: State, view: View, digest: Digest): set<Address> {
    set a | a in cfg.validators(view.height) && a != cfg.proposer(view)
        && MayHaveSigned(s, a, PrepareDigest(view, digest))
  }

  predicate Prepared(cfg: Config, s: State, view: View, digest: Digest) {
    && MayHaveSigned(s, cfg.proposer(view), ProposalDigest(view, digest))
    && |PrepareSigners(cfg, s, view, digest)| + 1 >= cfg.quorum(view.height)
  }

  predicate MayHaveCommitted(s: State, a: Address, view: View, digest: Digest) {
    MayHaveSigned(s, a, CommitDigest(view, digest, Signature(a, digest)))
  }

  function CommitSigners(cfg: Config, s: State, view: View, digest: Digest): set<Address> {
    set a | a in cfg.validators(view.height) && MayHaveCommitted(s, a, view, digest)
  }

  predicate CommitQuorum(cfg: Config, s: State, view: View, digest: Digest) {
    |CommitSigners(cfg, s, view, digest)| >= cfg.quorum(view.height)
  }

  ghost predicate SentRoundChange(n: Node, view: View) {
    exists certificate :: RoundChangeDigest(view, certificate) in n.signed
  }

  ghost function RoundChangeSigners(cfg: Config, s: State, view: View): set<Address> {
    set a | a in cfg.validators(view.height) && (a in s.nodes ==> SentRoundChange(s.nodes[a], view))
  }

  ghost predicate RoundChangeQuorum(cfg: Config, s: State, view: View) {
    |RoundChangeSigners(cfg, s, view)| >= cfg.quorum(view.height)
  }

  /** The round changes an honest proposer built its proposal on. */
  ghost predicate ProposalBasis(cfg: Config, s: State, view: View, digest: Digest, rcs: seq<RoundChangeMsg>) {
    && QuorumOfRoundChanges(cfg, MetadataOf(rcs), view)
    && (forall i :: 0 <= i < |rcs| ==>
          KnownMetadata(s, rcs[i].Metadata()) && ValidRoundChange(cfg, rcs[i], view.height))
    && var pos := FirstPrepared(rcs);
    pos.Some? ==> digest == BlockDigest(rcs[pos.value].prepared.value.block.raw, view.round)
  }

  /** The proposal a follower of a later round verified before it prepared. */
  ghost predicate PrepareBasis(cfg: Config, s: State, view: View, digest: Digest, p: ProposalMsg) {
    KnownProposal(s, p) && p.view == view && p.digest == digest && Acceptable(cfg, p)
  }

  ghost predicate Justified(cfg: Config, s: State, d: Digest) {
    match d
    case ProposalDigest(view, digest) =>
      view.round >= 1 ==> exists rcs :: ProposalBasis(cfg, s, view, digest, rcs)
    case PrepareDigest(view, digest) =>
      && MayHaveSigned(s, cfg.proposer(view), ProposalDigest(view, digest))
      && digest.BlockDigest?
      && (view.round == 0 ==> cfg.verifyBlock(digest.raw))
      && (view.round >= 1 ==> exists p :: PrepareBasis(cfg, s, view, digest, p))
    case CommitDigest(view, digest, seal) =>
      Prepared(cfg, s, view, digest) && digest.BlockDigest?
    case RoundChangeDigest(view, certificate) =>
      certificate.Some? ==>
        KnownCertificate(s, certificate.value) && ValidCertificate(cfg, certificate.value, view.height, view.round)
    case _ => true
  }

  ghost predicate StoreKnown(s: State, st: Store) {
    && (forall h :: h in st.proposals0 ==> KnownProposal(s, st.proposals0[h]))
    && (forall v :: v in st.proposals1 ==> KnownProposal(s, st.proposals1[v].proposal))
    && (forall slot :: slot in st.prepares ==> Known(s, st.prepares[slot].signature))
    && (forall slot :: slot in st.commits ==> Known(s, st.commits[slot].signature) && Known(s, st.commits[slot].seal))
    && (forall slot :: slot in st.roundChanges ==> KnownMetadata(s, st.roundChanges[slot].message.Metadata()))
  }

  ghost predicate HeldKnown(cfg: Config, s: State, n: Node) {
    && (n.latest.Some? ==> KnownMetadata(s, n.latest.value.Metadata()))
    && match n.phase
       case ProposalSent(p) => KnownProposal(s, p)
       case PrepareSent(m) => Known(s, m.signature)
       case CommitSent(c) => Known(s, c.signature) && Known(s, c.seal)
       case Sealed(d, _) => CommitQuorum(cfg, s, n.Current(), d)
       case _ => true
  }

  ghost predicate NodeJustified(cfg: Config, s: State, n: Node) {
    && StoreKnown(s, n.store)
    && HeldKnown(cfg, s, n)
    && (forall d :: d in n.signed && IsVote(d, s.height) ==> Justified(cfg, s, d))
    && (n.status.Decided? ==>
          CommitQuorum(cfg, s, n.Current(), BlockDigest(n.status.block.raw, n.status.block.round)))
  }

  ghost predicate NodeInv(cfg: Config, s: State, i: Address)
    requires i in s.nodes
  {
    var n := s.nodes[i];
    n.self == i && n.height == s.height && LocalInv(cfg, n) && NodeJustified(cfg, s, n)
  }

  ghost predicate Inv(cfg: Config, s: State) {
    forall i :: i in s.nodes ==> NodeInv(cfg, s, i)
  }

  // ---------- evidence stays true as more is signed ----------

  ghost predicate Grows(s: State, s': State) {
    && s'.height == s.height
    && s'.nodes.Keys == s.nodes.Keys
    && (forall i :: i in s.nodes ==> s.nodes[i].signed <= s'.nodes[i].signed)
  }

  lemma KnownGrows(s: State, s': State)
    requires Grows(s, s')
    ensures forall a, d :: MayHaveSigned(s, a, d) ==> MayHaveSigned(s', a, d)
    ensures forall x :: Known(s, x) ==> Known(s', x)
    ensures forall x :: KnownCertificate(s, x) ==> KnownCertificate(s', x)
    ensures forall x :: KnownMetadata(s, x) ==> KnownMetadata(s', x)
    ensures forall x :: KnownProposal(s, x) ==> KnownProposal(s', x)
  {
  }

  lemma SignersGrow(cfg: Config, s: State, s': State, view: View, digest: Digest)
    requires Grows(s, s')
    ensures Prepared(cfg, s, view, digest) ==> Prepared(cfg, s', view, digest)
    ensures CommitQuorum(cfg, s, view, digest) ==> CommitQuorum(cfg, s', view, digest)
  {
    KnownGrows(s, s');
    SubsetSize(PrepareSigners(cfg, s, view, digest), PrepareSigners(cfg, s', view, digest));
    SubsetSize(CommitSigners(cfg, s, view, digest), CommitSigners(cfg, s', view, digest));
  }

  lemma RoundChangeQuorumGrows(cfg: Config, s: State, s': State, view: View)
    requires Grows(s, s')
    ensures RoundChangeQuorum(cfg, s, view) ==> RoundChangeQuorum(cfg, s', view)
  {
    SubsetSize(RoundChangeSigners(cfg, s, view), RoundChangeSigners(cfg, s', view));
  }

  lemma JustifiedGrows(cfg: Config, s: State, s': State, d: Digest)
    requires Grows(s, s') && Justified(cfg, s, d)
    ensures Justified(cfg, s', d)
  {
    KnownGrows(s, s');
    match d
    case ProposalDigest(view, digest) =>
      if view.round >= 1 {
        var rcs :| ProposalBasis(cfg, s, view, digest, rcs);
        assert ProposalBasis(cfg, s', view, digest, rcs);
      }
    case PrepareDigest(view, digest) =>
      if view.round >= 1 {
        var p :| PrepareBasis(cfg, s, view, digest, p);
        assert PrepareBasis(cfg, s', view, digest, p);
      }
    case CommitDigest(view, digest, seal) => SignersGrow(cfg, s, s', view, digest);
    case RoundChangeDigest(view, certificate) =>
    case _ =>
  }

  lemma NodeJustifiedGrows(cfg: Config, s: State, s': State, n: Node)
    requires Grows(s, s') && NodeJustified(cfg, s, n)
    ensures NodeJustified(cfg, s', n)
  {
    KnownGrows(s, s');
    forall d | d in n.signed && IsVote(d, s.height) ensures Justified(cfg, s', d) {
      JustifiedGrows(cfg, s, s', d);
    }
    if n.phase.Sealed? {
      SignersGrow(cfg, s, s', n.Current(), n.phase.digest);
    }
    if n.status.Decided? {
      SignersGrow(cfg, s, s', n.Current(), BlockDigest(n.status.block.raw, n.status.block.round));
    }
  }
}

/** Every step of the system keeps the invariant: whatever a node signs is backed by what others signed. */
module SystemSteps {
  import opened Types
  import opened Configuration
  import opened Verification
  import opened Stores
  import opened Nodes
  import opened NodeInvariant
  import opened NodeSteps
  import opened Systems
  import opened Quorums

  // ---------- the store functions keep only what the network can deliver ----------

  lemma AddProposalKnown(s: State, st: Store, self: Address, proposal: ProposalMsg, sender: Address)
    requires StoreKnown(s, st) && KnownProposal(s, proposal)
    ensures StoreKnown(s, AddProposal(st, self, proposal, sender))
  {
  }

  lemma AddVoteKnown(s: State, st: Store, prepare: PrepareMsg, commit: CommitMsg, sender: Address)
    requires StoreKnown(s, st)
    ensures Known(s, prepare.signature) ==> StoreKnown(s, AddPrepare(st, prepare, sender))
    ensures Known(s, commit.signature) && Known(s, commit.seal) ==> StoreKnown(s, AddCommit(st, commit, sender))
  {
  }

  lemma AddRoundChangeKnown(s: State, st: Store, self: Address, rc: RoundChangeMsg, sender: Address)
    requires StoreKnown(s, st) && KnownMetadata(s, rc.Metadata())
    ensures StoreKnown(s, AddRoundChange(st, self, rc, sender))
  {
  }

  lemma HandleKnown(cfg: Config, s: State, self: Address, finalized: nat, st: Store, message: Received)
    requires StoreKnown(s, st) && KnownMessage(s, message)
    ensures StoreKnown(s, Handle(cfg, self, finalized, st, message))
  {
    if Judge(cfg, self, finalized, message).Stored? {
      var sender := message.Signer().value;
      match message
      case GotProposal(m) => AddProposalKnown(s, st, self, m, sender);
      case GotPrepare(m) => AddVoteKnown(s, st, m, NewCommit(m.view, m.digest, sender), sender);
      case GotCommit(m) => AddVoteKnown(s, st, NewPrepare(m.view, m.digest, sender), m, sender);
      case GotRoundChange(m) => AddRoundChangeKnown(s, st, self, m, sender);
    }
  }

  /** All messages of st' are in st. */
  ghost predicate Within(st': Store, st: Store) {
    && (forall h :: h in st'.proposals0 ==> h in st.proposals0 && st'.proposals0[h] == st.proposals0[h])
    && (forall v :: v in st'.proposals1 ==>
        v in st.proposals1 && st'.proposals1[v].proposal == st.proposals1[v].proposal)
    && (forall k :: k in st'.prepares ==> k in st.prepares && st'.prepares[k] == st.prepares[k])
    && (forall k :: k in st'.commits ==> k in st.commits && st'.commits[k] == st.commits[k])
    && (forall k :: k in st'.roundChanges ==>
        k in st.roundChanges && st'.roundChanges[k].message == st.roundChanges[k].message)
  }

  lemma WithinKnown(s: State, st: Store, st': Store)
    requires StoreKnown(s, st) && Within(st', st)
    ensures StoreKnown(s, st')
  {
  }

  lemma QueriesWithin(cfg: Config, n: Node, view: View)
    ensures Within(CachedProposal(cfg, n, view).1, n.store)
    ensures Within(VerifiedRoundChanges(cfg, n, view.round), n.store)
  {
  }

  lemma PruningWithin(st: Store, part: Part, height: nat)
    ensures Within(PrunePart(st, part, height), st)
  {
  }

  lemma TakingWithin(st: Store, view: View)
    ensures Within(DropProposal(st, view), st)
    ensures Within(DropProposal(st, view).(prepares := Without(st.prepares, view)), st)
  {
  }

  lemma EnterRoundKnown(cfg: Config, s: State, n: Node, round: nat)
    requires StoreKnown(s, n.store) && (n.latest.Some? ==> KnownMetadata(s, n.latest.value.Metadata()))
    ensures StoreKnown(s, EnterRound(cfg, n, round).store)
  {
  }

  // ---------- what justifies each vote ----------

  /** Stored prepares of distinct senders make the digest prepared. */
  lemma BackedIsPrepared(cfg: Config, s: State, n: Node, digest: Digest)
    requires LocalInv(cfg, n) && StoreKnown(s, n.store)
    requires Agreed(n, digest) && Backed(cfg, n, digest)
    ensures Prepared(cfg, s, n.Current(), digest)
  {
    var view, here := n.Current(), MatchingPrepares(n, digest);
    var senders := set slot | slot in here :: slot.sender;
    SendersCount(here, view);
    forall a | a in senders ensures a in PrepareSigners(cfg, s, view, digest) {
      var slot :| slot in here && slot.sender == a;
      assert PrepareChecked(cfg, slot, n.store.prepares[slot]);
      assert Known(s, n.store.prepares[slot].signature);
    }
    SubsetSize(senders, PrepareSigners(cfg, s, view, digest));
    StoredProposalSigned(cfg, s, n, view);
  }

  lemma StoredProposalSigned(cfg: Config, s: State, n: Node, view: View)
    requires LocalInv(cfg, n) && StoreKnown(s, n.store) && ProposalAt(n.store, view).Some?
    ensures var p := ProposalAt(n.store, view).value;
            p.view == view && KnownProposal(s, p)
                && MayHaveSigned(s, cfg.proposer(view), ProposalDigest(view, p.digest))
  {
    var p := ProposalAt(n.store, view).value;
    assert ProposalChecked(cfg, view, p);
    assert Known(s, p.signature);
  }

  /** A view's messages have as many senders as slots. */
  lemma {:induction false} SendersCount<T>(here: map<Slot, T>, view: View)
    requires forall slot :: slot in here ==> slot.view == view
    ensures |set slot | slot in here :: slot.sender| == |here|
    decreases |here|
  {
    var senders := set slot | slot in here :: slot.sender;
    if here.Keys == {} {
      assert senders == {};
      assert |here| == |here.Keys|;
    } else {
      var slot :| slot in here;
      var rest := here - {slot};
      assert here.Keys == rest.Keys + {slot};
      assert |here| == |here.Keys| == |rest.Keys| + 1 == |rest| + 1;
      SendersCount(rest, view);
      var others := set x | x in rest :: x.sender;
      assert senders == others + {slot.sender};
    }
  }

  /** Stored commits of distinct senders make a commit quorum. */
  lemma TakenCommitsAreQuorum(cfg: Config, s: State, n: Node, digest: Digest)
    requires VotesWf(cfg, n.store) && StoreKnown(s, n.store)
    requires |At(RetainCommits(n.store, n.Current(), digest).commits, n.Current())| >= cfg.quorum(n.height)
    ensures CommitQuorum(cfg, s, n.Current(), digest)
  {
    var view := n.Current();
    var here := At(RetainCommits(n.store, view, digest).commits, view);
    var senders := set slot | slot in here :: slot.sender;
    SendersCount(here, view);
    forall a | a in senders ensures a in CommitSigners(cfg, s, view, digest) {
      var slot :| slot in here && slot.sender == a;
      assert CommitChecked(cfg, slot, n.store.commits[slot]);
      assert Known(s, n.store.commits[slot].signature);
    }
    SubsetSize(senders, CommitSigners(cfg, s, view, digest));
  }

  /** Verified round changes of one view, in any order, are a quorum a proposal can be based on. */
  lemma CollectedAreQuorum(cfg: Config, s: State, view: View, here: map<Slot, RoundChangeEntry>, order: seq<Slot>)
    requires forall slot :: slot in here ==>
               && slot.view == view && here[slot].verified && RoundChangeChecked(cfg, slot, here[slot])
               && KnownMetadata(s, here[slot].message.Metadata())
    requires Orders(order, here) && |here| >= cfg.quorum(view.height)
    ensures var rcs := Messages(Values(order, here));
            && QuorumOfRoundChanges(cfg, MetadataOf(rcs), view)
            && (forall i :: 0 <= i < |rcs| ==>
                  KnownMetadata(s, rcs[i].Metadata()) && ValidRoundChange(cfg, rcs[i], view.height))
  {
    OrderIsAsLong(order, here);
    var rcs := Messages(Values(order, here));
    forall i | 0 <= i < |rcs|
      ensures order[i] in here && order[i].view == view && rcs[i] == here[order[i]].message
      ensures rcs[i].Metadata().Signer() == Some(order[i].sender)
    {
      assert order[i] in here;
    }
    var list := MetadataOf(rcs);
    forall i, j | 0 <= i < j < |list| ensures list[i].Signer() != list[j].Signer() {
      assert order[i] != order[j];
    }
  }

  /** A stored quorum of verified round changes was sent by a quorum. */
  lemma CountedAreQuorum(cfg: Config, s: State, view: View, here: map<Slot, RoundChangeEntry>)
    requires forall slot :: slot in here ==>
               && slot.view == view && RoundChangeChecked(cfg, slot, here[slot])
               && KnownMetadata(s, here[slot].message.Metadata())
    requires |here| >= cfg.quorum(view.height)
    ensures RoundChangeQuorum(cfg, s, view)
  {
    var senders := set slot | slot in here :: slot.sender;
    SendersCount(here, view);
    forall a | a in senders ensures a in RoundChangeSigners(cfg, s, view) {
      var slot :| slot in here && slot.sender == a;
      var rc := here[slot].message;
      assert Known(s, rc.signature);
      assert rc.signature == Signature(a, RoundChangeDigest(view, rc.Certificate()));
    }
    SubsetSize(senders, RoundChangeSigners(cfg, s, view));
  }

  /** The round changes inside an acceptable proposal were sent by a quorum. */
  lemma ListedAreQuorum(cfg: Config, s: State, view: View, list: seq<RoundChangeMetadata>)
    requires QuorumOfRoundChanges(cfg, list, view)
    requires forall i :: 0 <= i < |list| ==> KnownMetadata(s, list[i])
    ensures RoundChangeQuorum(cfg, s, view)
    ensures ListSigners(list) <= RoundChangeSigners(cfg, s, view)
    ensures |ListSigners(list)| >= cfg.quorum(view.height)
  {
    var signers := seq(|list|, i requires 0 <= i < |list| => list[i].Signer());
    MembersCount(signers);
    forall a | a in Members(signers) ensures a in RoundChangeSigners(cfg, s, view) {
      var i :| 0 <= i < |list| && signers[i] == Some(a);
      assert Known(s, list[i].signature);
      assert list[i].signature == Signature(a, RoundChangeDigest(view, list[i].certificate));
    }
    SubsetSize(Members(signers), RoundChangeSigners(cfg, s, view));
  }

  function ListSigners(list: seq<RoundChangeMetadata>): set<Address> {
    Members(seq(|list|, i requires 0 <= i < |list| => list[i].Signer()))
  }

  // ---------- the steps ----------

  /** A step that signs nothing new only has to answer for what the node now holds. */
  lemma SilentStep(cfg: Config, s: State, n: Node, n': Node)
    requires NodeJustified(cfg, s, n) && n'.signed == n.signed && !n'.status.Decided?
    requires StoreKnown(s, n'.store) && HeldKnown(cfg, s, n')
    ensures NodeJustified(cfg, s, n')
  {
  }

  /** A step that casts vote d (and perhaps a commit seal). */
  lemma VotingStep(cfg: Config, s: State, n: Node, n': Node, seal: Digest, d: Digest)
    requires NodeJustified(cfg, s, n) && n'.signed == n.signed + {seal} + {d} && !n'.status.Decided?
    requires seal.BlockDigest? || seal == d
    requires Justified(cfg, s, d)
    requires StoreKnown(s, n'.store) && HeldKnown(cfg, s, n')
    ensures NodeJustified(cfg, s, n')
  {
  }

  lemma StoringJustified(cfg: Config, s: State, n: Node)
    requires NodeJustified(cfg, s, n) && n.status.Running?
    ensures n.phase.ProposalSent? ==> NodeJustified(cfg, s, StepStoreProposal(n))
    ensures n.phase.PrepareSent? ==> NodeJustified(cfg, s, StepStorePrepare(n))
    ensures n.phase.CommitSent? ==> NodeJustified(cfg, s, StepStoreCommit(n))
  {
    match n.phase
    case ProposalSent(p) =>
      AddProposalKnown(s, n.store, n.self, p, n.self);
      SilentStep(cfg, s, n, StepStoreProposal(n));
    case PrepareSent(m) =>
      AddVoteKnown(s, n.store, m, NewCommit(m.view, m.digest, n.self), n.self);
      SilentStep(cfg, s, n, StepStorePrepare(n));
    case CommitSent(c) =>
      AddVoteKnown(s, n.store, NewPrepare(c.view, c.digest, n.self), c, n.self);
      SilentStep(cfg, s, n, StepStoreCommit(n));
    case _ =>
  }

  lemma JumpJustified(cfg: Config, s: State, n: Node, st: Store, round: nat)
    requires NodeJustified(cfg, s, n) && n.status.Running? && Within(st, n.store)
    ensures NodeJustified(cfg, s, EnterRound(cfg, n.(store := st), round))
  {
    WithinKnown(s, n.store, st);
    EnterRoundKnown(cfg, s, n.(store := st), round);
    SilentStep(cfg, s, n, EnterRound(cfg, n.(store := st), round));
  }

  lemma ProposeFirstJustified(cfg: Config, s: State, n: Node, built: Option<RawBlock>)
    requires NodeJustified(cfg, s, n) && n.status.Running? && n.round == 0
    requires n.self in s.nodes && s.nodes[n.self] == StepProposeFirst(n, built)
    ensures NodeJustified(cfg, s, StepProposeFirst(n, built))
  {
    if built.Some? {
      var p := NewProposal(n.Current(), built.value, None, n.self);
      var d := ProposalDigest(p.view, p.digest);
      VotingStep(cfg, s, n, Announce(n, p), d, d);
    }
  }

  /** One pass over verified round changes `here` of the current view. */
  lemma ProposeJustified(cfg: Config, s: State, n: Node, rcs: seq<RoundChangeMsg>, built: Option<RawBlock>)
    requires NodeJustified(cfg, s, n) && n.status.Running?
    requires QuorumOfRoundChanges(cfg, MetadataOf(rcs), n.Current())
    requires forall i :: 0 <= i < |rcs| ==>
               KnownMetadata(s, rcs[i].Metadata()) && ValidRoundChange(cfg, rcs[i], n.height)
    requires BuildProposal(n.Current(), rcs, built, n.self).Some?
    requires var p := BuildProposal(n.Current(), rcs, built, n.self).value;
             MayHaveSigned(s, n.self, ProposalDigest(p.view, p.digest))
    ensures NodeJustified(cfg, s, Announce(n, BuildProposal(n.Current(), rcs, built, n.self).value))
  {
    var p := BuildProposal(n.Current(), rcs, built, n.self).value;
    var d := ProposalDigest(p.view, p.digest);
    BasedProposal(cfg, s, n.Current(), rcs, built, n.self);
    VotingStep(cfg, s, n, Announce(n, p), d, d);
  }

  lemma BasedProposal(cfg: Config, s: State, view: View, rcs: seq<RoundChangeMsg>, built: Option<RawBlock>,
                      self: Address)
    requires QuorumOfRoundChanges(cfg, MetadataOf(rcs), view)
    requires forall i :: 0 <= i < |rcs| ==>
               KnownMetadata(s, rcs[i].Metadata()) && ValidRoundChange(cfg, rcs[i], view.height)
    requires BuildProposal(view, rcs, built, self).Some?
    requires var p := BuildProposal(view, rcs, built, self).value;
             MayHaveSigned(s, self, ProposalDigest(p.view, p.digest))
    ensures var p := BuildProposal(view, rcs, built, self).value;
            KnownProposal(s, p) && Justified(cfg, s, ProposalDigest(p.view, p.digest))
  {
    var p := BuildProposal(view, rcs, built, self).value;
    assert ProposalBasis(cfg, s, view, p.digest, rcs);
  }

  lemma VerifiedHere(cfg: Config, s: State, n: Node, round: nat)
    requires LocalInv(cfg, n) && StoreKnown(s, n.store)
    ensures var st := VerifiedRoundChanges(cfg, n, round);
            && StoreKnown(s, st)
            && forall slot :: slot in At(st.roundChanges, View(n.height, round)) ==>
                 st.roundChanges[slot].verified && RoundChangeChecked(cfg, slot, st.roundChanges[slot])
  {
    VerifyKeepsStore(cfg, n.self, n.store, View(n.height, round));
    WithinKnown(s, n.store, VerifiedRoundChanges(cfg, n, round));
  }

  /** What a pass over round changes that are verified and known makes of the node. */
  lemma CollectJustified(cfg: Config, s: State, n: Node, order: seq<Slot>, built: Option<RawBlock>)
    requires NodeJustified(cfg, s, n) && Enabled(cfg, n, CollectRoundChanges(order, built))
    requires n.self in s.nodes && s.nodes[n.self] == StepCollect(cfg, n, order, built)
    requires var st := VerifiedRoundChanges(cfg, n, n.round);
             && StoreKnown(s, st)
             && forall slot :: slot in At(st.roundChanges, n.Current()) ==>
                  st.roundChanges[slot].verified && RoundChangeChecked(cfg, slot, st.roundChanges[slot])
    ensures NodeJustified(cfg, s, StepCollect(cfg, n, order, built))
  {
    var view := n.Current();
    var st := VerifiedRoundChanges(cfg, n, n.round);
    var here := At(st.roundChanges, view);
    var verified := n.(store := st);
    SilentStep(cfg, s, n, verified);
    if |here| >= cfg.quorum(n.height) {
      CollectedAreQuorum(cfg, s, view, here, order);
      TakenJustified(cfg, s, verified, Messages(Values(order, here)), built);
    }
  }

  lemma TakenJustified(cfg: Config, s: State, n: Node, rcs: seq<RoundChangeMsg>, built: Option<RawBlock>)
    requires NodeJustified(cfg, s, n) && n.status.Running?
    requires QuorumOfRoundChanges(cfg, MetadataOf(rcs), n.Current())
    requires forall i :: 0 <= i < |rcs| ==>
               KnownMetadata(s, rcs[i].Metadata()) && ValidRoundChange(cfg, rcs[i], n.height)
    requires var p := BuildProposal(n.Current(), rcs, built, n.self);
             p.Some? ==> MayHaveSigned(s, n.self, ProposalDigest(p.value.view, p.value.digest))
    ensures var taken := n.(store := n.store.(roundChanges := Without(n.store.roundChanges, n.Current())));
            var p := BuildProposal(n.Current(), rcs, built, n.self);
            NodeJustified(cfg, s, if p.None? then taken.(phase := Failed) else Announce(taken, p.value))
  {
    var taken := n.(store := n.store.(roundChanges := Without(n.store.roundChanges, n.Current())));
    WithinKnown(s, n.store, taken.store);
    SilentStep(cfg, s, n, taken);
    if BuildProposal(n.Current(), rcs, built, n.self).Some? {
      ProposeJustified(cfg, s, taken, rcs, built);
    } else {
      SilentStep(cfg, s, n, taken.(phase := Failed));
    }
  }

  lemma PrepareIsJustified(cfg: Config, s: State, n: Node)
    requires LocalInv(cfg, n) && StoreKnown(s, n.store) && cfg.proposer(n.Current()) != n.self
    requires CachedProposal(cfg, n, n.Current()).0 == Some(Accept)
    ensures ProposalAt(n.store, n.Current()).Some?
    ensures Justified(cfg, s, PrepareDigest(n.Current(), ProposalAt(n.store, n.Current()).value.digest))
  {
    var view := n.Current();
    AcceptedIsVerified(cfg, n, view);
    StoredProposalSigned(cfg, s, n, view);
    var p := ProposalAt(n.store, view).value;
    AcceptsExactly(cfg, p);
    if view.round >= 1 {
      assert PrepareBasis(cfg, s, view, p.digest, p);
    }
  }

  lemma CheckProposalJustified(cfg: Config, s: State, n: Node)
    requires NodeJustified(cfg, s, n) && n.status.Running?
    requires n.self in s.nodes && s.nodes[n.self] == StepCheckProposal(cfg, n)
    requires CachedProposal(cfg, n, n.Current()).0 == Some(Accept) ==>
               && ProposalAt(n.store, n.Current()).Some?
               && Justified(cfg, s, PrepareDigest(n.Current(), ProposalAt(n.store, n.Current()).value.digest))
    ensures NodeJustified(cfg, s, StepCheckProposal(cfg, n))
  {
    var n', view := StepCheckProposal(cfg, n), n.Current();
    WithinKnown(s, n.store, n'.store);
    if CachedProposal(cfg, n, view).0 == Some(Accept) {
      var d := PrepareDigest(view, ProposalAt(n.store, view).value.digest);
      VotingStep(cfg, s, n, n', d, d);
    } else {
      SilentStep(cfg, s, n, n');
    }
  }

  lemma CheckPreparesJustified(cfg: Config, s: State, n: Node)
    requires NodeJustified(cfg, s, n) && n.status.Running? && n.phase.AwaitPrepares?
    requires n.self in s.nodes && s.nodes[n.self] == StepCheckPrepares(cfg, n)
    requires n.phase.digest.BlockDigest?
    requires Backed(cfg, n, n.phase.digest) ==> Prepared(cfg, s, n.Current(), n.phase.digest)
    ensures NodeJustified(cfg, s, StepCheckPrepares(cfg, n))
  {
    var n' := StepCheckPrepares(cfg, n);
    var view, digest := n.Current(), n.phase.digest;
    WithinKnown(s, n.store, n'.store);
    if n'.phase.CommitSent? {
      assert Backed(cfg, n, digest);
      VotingStep(cfg, s, n, n', digest, CommitDigest(view, digest, Signature(n.self, digest)));
    } else {
      SilentStep(cfg, s, n, n');
    }
  }

  lemma CheckCommitsJustified(cfg: Config, s: State, n: Node, order: seq<Slot>)
    requires NodeJustified(cfg, s, n) && Enabled(cfg, n, CheckCommits(order))
    requires |At(RetainCommits(n.store, n.Current(), n.phase.digest).commits, n.Current())| >= cfg.quorum(n.height) ==>
               CommitQuorum(cfg, s, n.Current(), n.phase.digest)
    ensures NodeJustified(cfg, s, StepCheckCommits(cfg, n, order))
  {
    var n' := StepCheckCommits(cfg, n, order);
    WithinKnown(s, n.store, n'.store);
    SilentStep(cfg, s, n, n');
  }

  lemma FinishJustified(cfg: Config, s: State, n: Node)
    requires NodeJustified(cfg, s, n) && n.status.Running? && n.phase.Sealed? && Agreed(n, n.phase.digest)
    ensures NodeJustified(cfg, s, StepFinish(n))
  {
    WithinKnown(s, n.store, StepFinish(n).store);
  }

  lemma ComposedCertificateKnown(cfg: Config, s: State, n: Node, digest: Digest, order: seq<Slot>)
    requires LocalInv(cfg, n) && StoreKnown(s, n.store) && Agreed(n, digest)
    requires Orders(order, MatchingPrepares(n, digest))
    ensures KnownCertificate(s, NewPreparedProposed(ProposalAt(n.store, n.Current()).value,
                                                    Values(order, MatchingPrepares(n, digest))).certificate)
  {
    StoredProposalSigned(cfg, s, n, n.Current());
    var prepares := Values(order, MatchingPrepares(n, digest));
    forall i | 0 <= i < |prepares| ensures Known(s, prepares[i].signature) {
      assert order[i] in MatchingPrepares(n, digest);
    }
  }

  lemma ChangeRoundJustified(cfg: Config, s: State, n: Node, st: Store, rc: RoundChangeMsg)
    requires NodeJustified(cfg, s, n) && Within(st, n.store) && n.height == s.height && n.status.Running?
    requires n.self in s.nodes && s.nodes[n.self] == ChangeRound(cfg, n.(store := st), rc)
    requires rc.view == View(n.height, n.round + 1) && rc.Signer() == Some(n.self)
    requires rc.prepared.Some? ==> KnownCertificate(s, rc.Certificate().value)
    requires ValidRoundChange(cfg, rc, n.height)
    ensures NodeJustified(cfg, s, ChangeRound(cfg, n.(store := st), rc))
  {
    var d := RoundChangeDigest(rc.view, rc.Certificate());
    WithinKnown(s, n.store, st);
    EnterRoundKnown(cfg, s, Sign(n.(store := st), d).(latest := Some(rc)), n.round + 1);
    VotingStep(cfg, s, n, ChangeRound(cfg, n.(store := st), rc), d, d);
  }

  lemma TimeoutJustified(cfg: Config, s: State, n: Node, order: seq<Slot>)
    requires LocalInv(cfg, n) && NodeJustified(cfg, s, n) && n.height == s.height
    requires Enabled(cfg, n, Timeout(order))
    requires n.self in s.nodes && s.nodes[n.self] == StepTimeout(cfg, n, order)
    ensures NodeJustified(cfg, s, StepTimeout(cfg, n, order))
  {
    if RunStateOf(n.phase).InCommit? {
      var rc := TimeoutInCommitSends(cfg, n, order);
      ComposedCertificateKnown(cfg, s, n, ProposalAt(n.store, n.Current()).value.digest, order);
      TakingWithin(n.store, n.Current());
      ChangeRoundJustified(cfg, s, n, LeftByTimeout(n), rc);
    } else {
      var rc := TimeoutElseSends(cfg, n, order);
      ChangeRoundJustified(cfg, s, n, n.store, rc);
    }
  }

  lemma QuietStepJustified(cfg: Config, s: State, n: Node, a: Action)
    requires NodeJustified(cfg, s, n) && Enabled(cfg, n, a) && (a.Deliver? ==> KnownMessage(s, a.message))
    requires a.Deliver? || a.Prune? || a.QueryProposal? || a.QueryRoundChanges? || a.Cancel?
    ensures NodeJustified(cfg, s, Step(cfg, n, a))
  {
    var n' := Step(cfg, n, a);
    if a.Deliver? {
      HandleKnown(cfg, s, n.self, n.finalized, n.store, a.message);
    } else {
      if a.Prune? {
        PruningWithin(n.store, a.part, a.below);
      }
      WithinKnown(s, n.store, n'.store);
    }
    SilentStep(cfg, s, n, n');
  }

  lemma RoundStepJustified(cfg: Config, s: State, n: Node, a: Action)
    requires LocalInv(cfg, n) && NodeJustified(cfg, s, n)
    requires Enabled(cfg, n, a)
    requires n.self in s.nodes && s.nodes[n.self] == Step(cfg, n, a)
    requires a.CollectRoundChanges? || a.CheckProposal? || a.CheckPrepares? || a.CheckCommits?
    ensures NodeJustified(cfg, s, Step(cfg, n, a))
  {
    match a
    case CollectRoundChanges(order, built) =>
      VerifiedHere(cfg, s, n, n.round);
      CollectJustified(cfg, s, n, order, built);
    case CheckProposal =>
      if CachedProposal(cfg, n, n.Current()).0 == Some(Accept) {
        PrepareIsJustified(cfg, s, n);
      }
      CheckProposalJustified(cfg, s, n);
    case CheckPrepares =>
      if Backed(cfg, n, n.phase.digest) {
        BackedIsPrepared(cfg, s, n, n.phase.digest);
      }
      CheckPreparesJustified(cfg, s, n);
    case CheckCommits(order) =>
      if |At(RetainCommits(n.store, n.Current(), n.phase.digest).commits, n.Current())| >= cfg.quorum(n.height) {
        TakenCommitsAreQuorum(cfg, s, n, n.phase.digest);
      }
      CheckCommitsJustified(cfg, s, n, order);
  }

  lemma OwnStepJustified(cfg: Config, s: State, n: Node, a: Action)
    requires LocalInv(cfg, n) && NodeJustified(cfg, s, n) && n.height == s.height && Enabled(cfg, n, a)
    requires n.self in s.nodes && s.nodes[n.self] == Step(cfg, n, a)
    requires a.ProposeFirst? || a.StoreProposal? || a.StorePrepare? || a.StoreCommit?
    ensures NodeJustified(cfg, s, Step(cfg, n, a))
  {
    match a
    case ProposeFirst(built) => ProposeFirstJustified(cfg, s, n, built);
    case StoreProposal | StorePrepare | StoreCommit => StoringJustified(cfg, s, n);
  }

  lemma LeavingStepJustified(cfg: Config, s: State, n: Node, a: Action)
    requires LocalInv(cfg, n) && NodeJustified(cfg, s, n) && n.height == s.height && Enabled(cfg, n, a)
    requires n.self in s.nodes && s.nodes[n.self] == Step(cfg, n, a)
    requires a.Finish? || a.Timeout? || a.JumpToProposal? || a.JumpToRoundChanges?
    ensures NodeJustified(cfg, s, Step(cfg, n, a))
  {
    match a
    case Finish => FinishJustified(cfg, s, n);
    case Timeout(order) => TimeoutJustified(cfg, s, n, order);
    case JumpToProposal(round) =>
      QueriesWithin(cfg, n, View(n.height, round));
      JumpJustified(cfg, s, n, CachedProposal(cfg, n, View(n.height, round)).1, round);
    case JumpToRoundChanges(round) =>
      QueriesWithin(cfg, n, View(n.height, round));
      JumpJustified(cfg, s, n, VerifiedRoundChanges(cfg, n, round), round);
  }

  /** n takes step a and ends up in s, where everything n had is justified. */
  lemma StepJustified(cfg: Config, s: State, n: Node, a: Action)
    requires LocalInv(cfg, n) && NodeJustified(cfg, s, n) && n.height == s.height
    requires Enabled(cfg, n, a) && (a.Deliver? ==> KnownMessage(s, a.message))
    requires n.self in s.nodes && s.nodes[n.self] == Step(cfg, n, a)
    ensures NodeJustified(cfg, s, Step(cfg, n, a))
  {
    if a.ProposeFirst? || a.StoreProposal? || a.StorePrepare? || a.StoreCommit? {
      OwnStepJustified(cfg, s, n, a);
    } else if a.CollectRoundChanges? || a.CheckProposal? || a.CheckPrepares? || a.CheckCommits? {
      RoundStepJustified(cfg, s, n, a);
    } else if a.Finish? || a.Timeout? || a.JumpToProposal? || a.JumpToRoundChanges? {
      LeavingStepJustified(cfg, s, n, a);
    } else {
      QuietStepJustified(cfg, s, n, a);
    }
  }

  // ---------- all runs ----------

  lemma StepFrame(cfg: Config, n: Node, a: Action)
    requires Enabled(cfg, n, a)
    ensures var n' := Step(cfg, n, a);
            n'.self == n.self && n'.height == n.height && n.signed <= n'.signed && n'.round >= n.round
  {
  }

  lemma StepperKeeps(cfg: Config, s: State, s': State, n: Node, a: Action)
    requires Grows(s, s') && n.self in s'.nodes && n.height == s.height
    requires LocalInv(cfg, n) && NodeJustified(cfg, s, n)
    requires Enabled(cfg, n, a) && (a.Deliver? ==> KnownMessage(s, a.message))
    requires s'.nodes[n.self] == Step(cfg, n, a)
    ensures LocalInv(cfg, Step(cfg, n, a)) && NodeJustified(cfg, s', Step(cfg, n, a))
  {
    KnownGrows(s, s');
    NodeJustifiedGrows(cfg, s, s', n);
    StepKeeps(cfg, n, a);
    StepJustified(cfg, s', n, a);
  }

  lemma NextGrows(cfg: Config, s: State, e: Event)
    requires Allowed(cfg, s, e)
    ensures Grows(s, Next(cfg, s, e))
  {
    StepFrame(cfg, s.nodes[e.node], e.action);
  }

  lemma NodeKeeps(cfg: Config, s: State, e: Event, i: Address)
    requires Allowed(cfg, s, e) && i in s.nodes && NodeInv(cfg, s, i)
    ensures NodeInv(cfg, Next(cfg, s, e), i)
  {
    var s' := Next(cfg, s, e);
    NextGrows(cfg, s, e);
    if i == e.node {
      StepFrame(cfg, s.nodes[i], e.action);
      StepperKeeps(cfg, s, s', s.nodes[i], e.action);
    } else {
      NodeJustifiedGrows(cfg, s, s', s.nodes[i]);
    }
  }

  lemma NextKeeps(cfg: Config, s: State, e: Event)
    requires Inv(cfg, s) && Allowed(cfg, s, e)
    ensures Inv(cfg, Next(cfg, s, e))
  {
    forall i | i in s.nodes ensures NodeInv(cfg, Next(cfg, s, e), i) {
      NodeKeeps(cfg, s, e, i);
    }
  }

  lemma InitHolds(cfg: Config, s: State)
    requires Init(cfg, s)
    ensures Inv(cfg, s)
  {
  }

  /** The invariant holds in every state of every run. */
  lemma {:induction false} RunKeeps(cfg: Config, states: seq<State>, events: seq<Event>, k: nat)
    requires IsRun(cfg, states, events) && k < |states|
    ensures Inv(cfg, states[k])
  {
    if k == 0 {
      InitHolds(cfg, states[0]);
    } else {
      RunKeeps(cfg, states, events, k - 1);
      assert StepsAt(cfg, states, events, k - 1);
      NextKeeps(cfg, states[k - 1], events[k - 1]);
    }
  }
}

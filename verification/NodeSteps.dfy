/** Every step of a node keeps its invariant. */
module NodeSteps {
  import opened Types
  import opened Configuration
  import opened Verification
  import opened Stores
  import opened Nodes
  import opened NodeInvariant

  // ---------- signing ----------

  /** Casting a vote that is in time and was not cast before. */
  lemma VoteKeepsSigned(cfg: Config, n: Node, phase: Phase, d: Digest)
    requires SignedInv(cfg, n)
    requires IsVote(d, n.height) && !d.RoundChangeDigest?
    requires VoteInTime(cfg, n.(phase := phase), d)
    requires forall e :: e in n.signed ==> !SameVote(d, e)
    requires forall e :: VoteInTime(cfg, n, e) ==> VoteInTime(cfg, n.(phase := phase), e)
    ensures SignedInv(cfg, Sign(n, d).(phase := phase))
  {
    var n' := Sign(n, d).(phase := phase);
    forall e | e in n'.signed && IsVote(e, n.height) ensures VoteInTime(cfg, n', e) {
      assert VoteInTime(cfg, n.(phase := phase), e);
    }
    assert LatestWf(cfg, n');
  }

  /** Moving on to another phase or store without signing. */
  lemma PhaseKeepsSigned(cfg: Config, n: Node, n': Node)
    requires SignedInv(cfg, n)
    requires n' == n.(phase := n'.phase, store := n'.store, status := n'.status)
    requires forall d :: VoteInTime(cfg, n, d) ==> VoteInTime(cfg, n', d)
    ensures SignedInv(cfg, n')
  {
    assert LatestWf(cfg, n');
  }

  /** A later round, nothing sent in it yet. */
  lemma RoundKeepsSigned(cfg: Config, n: Node, round: nat)
    requires SignedInv(cfg, n) && n.round < round
    ensures SignedInv(cfg, n.(round := round, phase := AwaitProposal))
  {
    var n' := n.(round := round, phase := AwaitProposal);
    assert forall d :: VoteInTime(cfg, n, d) ==> VoteInTime(cfg, n', d);
    assert LatestWf(cfg, n');
  }

  /** The round change for the next round: it verifies and its certificate is at least as recent as all before. */
  lemma RoundChangeKeepsSigned(cfg: Config, n: Node, rc: RoundChangeMsg)
    requires SignedInv(cfg, n)
    requires rc.view == View(n.height, n.round + 1) && rc.Signer() == Some(n.self)
    requires ValidRoundChange(cfg, rc, n.height)
    requires LatestRound(n) <= CertificateRound(rc.Certificate())
    ensures var d := RoundChangeDigest(rc.view, rc.Certificate());
            SignedInv(cfg, Sign(n, d).(latest := Some(rc), round := n.round + 1, phase := AwaitProposal))
  {
    RoundKeepsSigned(cfg, n, n.round + 1);
    var d := RoundChangeDigest(rc.view, rc.Certificate());
    var n' := Sign(n, d).(latest := Some(rc), round := n.round + 1, phase := AwaitProposal);
    forall e | e in n.signed && IsVote(e, n.height) ensures VoteInTime(cfg, n', e) && !SameVote(d, e) {
      assert VoteInTime(cfg, n, e);
    }
    assert LatestWf(cfg, n');
    assert CertificatesGrow(n');
    assert VotesOnce(n');
  }

  // ---------- entering a round ----------

  lemma EnterRoundKeeps(cfg: Config, n: Node, round: nat)
    requires n.self in cfg.validators(n.height) && n.finalized < n.height && n.status.Running?
    requires StoreInv(cfg, n.self, n.store)
    requires SignedInv(cfg, n.(round := round, phase := AwaitProposal))
    requires round <= MAX_ROUND + 1
    requires forall view :: ProposalAt(n.store, view).Some? && cfg.proposer(view) == n.self ==>
                              view.height == n.height && view.round < round
    ensures LocalInv(cfg, EnterRound(cfg, n, round))
  {
    var n' := EnterRound(cfg, n, round);
    PhaseKeepsSigned(cfg, n.(round := round, phase := AwaitProposal), n');
    if round <= MAX_ROUND && n'.store != n.store {
      AddRoundChangeKeeps(cfg, n.self, n.store, n.latest.value, n.self);
    }
  }

  lemma JumpKeeps(cfg: Config, n: Node, round: nat)
    requires LocalInv(cfg, n) && n.status.Running? && n.round < round <= MAX_ROUND
    ensures LocalInv(cfg, EnterRound(cfg, n, round))
  {
    RoundKeepsSigned(cfg, n, round);
    EnterRoundKeeps(cfg, n, round);
  }

  // ---------- proposing ----------

  lemma AnnounceKeeps(cfg: Config, n: Node, proposal: ProposalMsg)
    requires LocalInv(cfg, n) && n.status.Running? && n.phase.AwaitProposal?
    requires cfg.proposer(n.Current()) == n.self
    requires proposal.view == n.Current() && proposal.Signer() == Some(n.self) && proposal.DigestMatches()
    ensures LocalInv(cfg, Announce(n, proposal))
  {
    var d := ProposalDigest(proposal.view, proposal.digest);
    forall e | e in n.signed ensures !SameVote(d, e) {
      assert IsVote(e, n.height) ==> VoteInTime(cfg, n, e);
    }
    VoteKeepsSigned(cfg, n, ProposalSent(proposal), d);
  }

  lemma FailKeeps(cfg: Config, n: Node)
    requires LocalInv(cfg, n) && n.status.Running? && n.phase.AwaitProposal?
    ensures LocalInv(cfg, n.(phase := Failed))
  {
    PhaseKeepsSigned(cfg, n, n.(phase := Failed));
  }

  lemma BuiltProposalIsOwn(view: View, rcs: seq<RoundChangeMsg>, built: Option<RawBlock>, self: Address)
    requires BuildProposal(view, rcs, built, self).Some?
    ensures var p := BuildProposal(view, rcs, built, self).value;
            p.view == view && p.Signer() == Some(self) && p.DigestMatches()
  {
  }

  lemma TakeRoundChangesKeeps(cfg: Config, n: Node, view: View)
    requires LocalInv(cfg, n) && n.status.Running?
    ensures LocalInv(cfg, n.(store := n.store.(roundChanges := Without(n.store.roundChanges, view))))
  {
    var st := n.store.(roundChanges := Without(n.store.roundChanges, view));
    assert StoreInv(cfg, n.self, st);
    assert forall v :: ProposalAt(st, v) == ProposalAt(n.store, v);
    StoreStepKeeps(cfg, n, st);
  }

  lemma CollectKeeps(cfg: Config, n: Node, order: seq<Slot>, built: Option<RawBlock>)
    requires LocalInv(cfg, n) && Enabled(cfg, n, CollectRoundChanges(order, built))
    ensures LocalInv(cfg, StepCollect(cfg, n, order, built))
  {
    QueryRoundChangesKeeps(cfg, n, n.round);
    var view := n.Current();
    var verified := n.(store := VerifiedRoundChanges(cfg, n, n.round));
    var here := At(verified.store.roundChanges, view);
    if |here| >= cfg.quorum(n.height) {
      TakeRoundChangesKeeps(cfg, verified, view);
      var taken := verified.(store := verified.store.(roundChanges := Without(verified.store.roundChanges, view)));
      ProposeKeeps(cfg, taken, Messages(Values(order, here)), built);
    }
  }

  lemma ProposeKeeps(cfg: Config, n: Node, rcs: seq<RoundChangeMsg>, built: Option<RawBlock>)
    requires LocalInv(cfg, n) && n.status.Running? && n.phase.AwaitProposal? && cfg.proposer(n.Current()) == n.self
    ensures var proposal := BuildProposal(n.Current(), rcs, built, n.self);
            LocalInv(cfg, if proposal.None? then n.(phase := Failed) else Announce(n, proposal.value))
  {
    if BuildProposal(n.Current(), rcs, built, n.self).None? {
      FailKeeps(cfg, n);
    } else {
      BuiltProposalIsOwn(n.Current(), rcs, built, n.self);
      AnnounceKeeps(cfg, n, BuildProposal(n.Current(), rcs, built, n.self).value);
    }
  }

  lemma StoreProposalKeepsTask(cfg: Config, n: Node)
    requires TaskInv(cfg, n) && Enabled(cfg, n, StoreProposal)
    ensures TaskInv(cfg, StepStoreProposal(n))
  {
    var n' := StepStoreProposal(n);
    assert ProposalAt(n.store, n.Current()).None?;
    assert ProposalAt(n'.store, n.Current()) == Some(n.phase.proposal);
    forall view | view != n.Current() ensures ProposalAt(n'.store, view) == ProposalAt(n.store, view) {
    }
  }

  lemma StoreProposalKeeps(cfg: Config, n: Node)
    requires LocalInv(cfg, n) && Enabled(cfg, n, StoreProposal)
    ensures LocalInv(cfg, StepStoreProposal(n))
  {
    StoreProposalKeepsTask(cfg, n);
    AddProposalKeeps(cfg, n.self, n.store, n.phase.proposal, n.self);
    PhaseKeepsSigned(cfg, n, StepStoreProposal(n));
  }

  // ---------- preparing ----------

  /** A proposal the follower accepts passed the plain verifier, cached or not. */
  lemma AcceptedIsVerified(cfg: Config, n: Node, view: View)
    requires LocalInv(cfg, n) && cfg.proposer(view) != n.self
    requires CachedProposal(cfg, n, view).0.Some?
    ensures ProposalAt(n.store, view).Some?
    ensures CachedProposal(cfg, n, view).0.value ==
              if view.round == 0 then CheckProposal0(cfg, ProposalAt(n.store, view).value)
              else CheckProposal1(cfg, ProposalAt(n.store, view).value)
    ensures CachedProposal(cfg, n, view).0.value.Accept? <==> Passes(cfg, ProposalAt(n.store, view).value)
    ensures CachedProposal(cfg, n, view).0.value.Accept? ==> ProposalAt(n.store, view).value.DigestMatches()
  {
    AcceptsExactly(cfg, ProposalAt(n.store, view).value);
  }

  lemma CheckProposalKeeps(cfg: Config, n: Node)
    requires LocalInv(cfg, n) && Enabled(cfg, n, CheckProposal)
    ensures LocalInv(cfg, StepCheckProposal(cfg, n))
  {
    var view := n.Current();
    QueryProposalKeeps(cfg, n, view);
    var (verdict, st) := CachedProposal(cfg, n, view);
    var n1 := n.(store := st);
    if verdict.Some? {
      AcceptedIsVerified(cfg, n, view);
      if verdict.value.Reject? {
        FailKeeps(cfg, n1);
      } else {
        assert ProposalAt(st, view) == ProposalAt(n.store, view);
        SendPrepareKeeps(cfg, n1, ProposalAt(n.store, view).value.digest);
      }
    }
  }

  lemma SendPrepareKeeps(cfg: Config, n: Node, digest: Digest)
    requires LocalInv(cfg, n) && n.status.Running? && n.phase.AwaitProposal? && cfg.proposer(n.Current()) != n.self
    requires Agreed(n, digest)
    ensures LocalInv(cfg, Sign(n, PrepareDigest(n.Current(), digest))
                          .(phase := PrepareSent(NewPrepare(n.Current(), digest, n.self))))
  {
    var d := PrepareDigest(n.Current(), digest);
    forall e | e in n.signed ensures !SameVote(d, e) {
      assert IsVote(e, n.height) ==> VoteInTime(cfg, n, e);
    }
    VoteKeepsSigned(cfg, n, PrepareSent(NewPrepare(n.Current(), digest, n.self)), d);
  }

  /** Adding an own vote leaves the proposals and the other prepares in place. */
  lemma StorePrepareKeepsTask(cfg: Config, n: Node)
    requires TaskInv(cfg, n) && Enabled(cfg, n, StorePrepare)
    ensures TaskInv(cfg, StepStorePrepare(n))
  {
    assert forall view :: ProposalAt(StepStorePrepare(n).store, view) == ProposalAt(n.store, view);
  }

  lemma StorePrepareKeepsStore(cfg: Config, n: Node)
    requires StoreInv(cfg, n.self, n.store) && n.self in cfg.validators(n.height)
    requires n.round <= MAX_ROUND && n.phase.PrepareSent? && PhaseWf(cfg, n)
    ensures StoreInv(cfg, n.self, StepStorePrepare(n).store)
  {
    AddPrepareKeeps(cfg, n.self, n.store, n.phase.prepare, n.self);
  }

  lemma StorePrepareKeepsSigned(cfg: Config, n: Node)
    requires SignedInv(cfg, n) && n.phase.PrepareSent?
    ensures SignedInv(cfg, StepStorePrepare(n))
  {
    PhaseKeepsSigned(cfg, n, StepStorePrepare(n));
  }

  lemma StorePrepareKeeps(cfg: Config, n: Node)
    requires LocalInv(cfg, n) && Enabled(cfg, n, StorePrepare)
    ensures LocalInv(cfg, StepStorePrepare(n))
  {
    StorePrepareKeepsTask(cfg, n);
    StorePrepareKeepsStore(cfg, n);
    StorePrepareKeepsSigned(cfg, n);
  }

  // ---------- committing ----------

  lemma RetainPreparesKeepsStore(cfg: Config, self: Address, st: Store, view: View, digest: Digest)
    requires StoreInv(cfg, self, st)
    ensures StoreInv(cfg, self, RetainPrepares(st, view, digest))
  {
  }

  /** A commit seal is no vote: it does not name a view. */
  lemma SealKeepsSigned(cfg: Config, n: Node, digest: Digest)
    requires SignedInv(cfg, n) && digest.BlockDigest?
    ensures SignedInv(cfg, Sign(n, digest))
  {
    assert forall e :: VoteInTime(cfg, n, e) ==> VoteInTime(cfg, Sign(n, digest), e);
    assert LatestWf(cfg, Sign(n, digest));
  }

  lemma CommitKeepsSigned(cfg: Config, n: Node, digest: Digest)
    requires SignedInv(cfg, n) && n.phase.AwaitPrepares? && digest.BlockDigest?
    ensures var commit := NewCommit(n.Current(), digest, n.self);
            SignedInv(cfg,
                Sign(Sign(n, digest), CommitDigest(n.Current(), digest, commit.seal)).(phase := CommitSent(commit)))
  {
    var commit := NewCommit(n.Current(), digest, n.self);
    var d := CommitDigest(n.Current(), digest, commit.seal);
    SealKeepsSigned(cfg, n, digest);
    forall e | e in Sign(n, digest).signed ensures !SameVote(d, e) {
      assert IsVote(e, n.height) ==> VoteInTime(cfg, n, e);
    }
    VoteKeepsSigned(cfg, Sign(n, digest), CommitSent(commit), d);
  }

  lemma CommitKeepsTask(cfg: Config, n: Node)
    requires TaskInv(cfg, n) && n.status.Running? && n.phase.AwaitPrepares? && Backed(cfg, n, n.phase.digest)
    ensures var commit := NewCommit(n.Current(), n.phase.digest, n.self);
            TaskInv(cfg, Sign(Sign(n, n.phase.digest), CommitDigest(n.Current(), n.phase.digest, commit.seal))
                         .(phase := CommitSent(commit)))
  {
  }

  lemma CountPreparesKeeps(cfg: Config, n: Node)
    requires LocalInv(cfg, n) && n.status.Running? && n.phase.AwaitPrepares?
    ensures LocalInv(cfg, n.(store := RetainPrepares(n.store, n.Current(), n.phase.digest)))
  {
    RetainPreparesKeepsStore(cfg, n.self, n.store, n.Current(), n.phase.digest);
    PhaseKeepsSigned(cfg, n, n.(store := RetainPrepares(n.store, n.Current(), n.phase.digest)));
    RetainPreparesKeepsTask(cfg, n);
  }

  lemma SendCommitKeeps(cfg: Config, n: Node)
    requires LocalInv(cfg, n) && n.status.Running? && n.phase.AwaitPrepares?
    requires n.phase.digest.BlockDigest? && Backed(cfg, n, n.phase.digest)
    ensures var commit := NewCommit(n.Current(), n.phase.digest, n.self);
            LocalInv(cfg, Sign(Sign(n, n.phase.digest), CommitDigest(n.Current(), n.phase.digest, commit.seal))
                          .(phase := CommitSent(commit)))
  {
    CommitKeepsSigned(cfg, n, n.phase.digest);
    CommitKeepsTask(cfg, n);
  }

  lemma CheckPreparesStep(cfg: Config, n: Node)
    requires n.phase.AwaitPrepares?
    ensures var view, digest := n.Current(), n.phase.digest;
            var counted, commit := n.(store := RetainPrepares(n.store, view, digest)), NewCommit(view, digest, n.self);
            StepCheckPrepares(cfg, n) ==
              if Backed(cfg, counted, digest)
              then Sign(Sign(counted, digest), CommitDigest(view, digest, commit.seal)).(phase := CommitSent(commit))
              else counted
  {
    var view, digest := n.Current(), n.phase.digest;
    var counted := n.(store := RetainPrepares(n.store, view, digest));
    assert MatchingPrepares(counted, digest) == At(counted.store.prepares, view);
  }

  lemma CheckPreparesKeeps(cfg: Config, n: Node)
    requires LocalInv(cfg, n) && Enabled(cfg, n, CheckPrepares)
    ensures LocalInv(cfg, StepCheckPrepares(cfg, n))
  {
    CountPreparesKeeps(cfg, n);
    RetainPreparesKeepsTask(cfg, n);
    CheckPreparesStep(cfg, n);
    var counted := n.(store := RetainPrepares(n.store, n.Current(), n.phase.digest));
    if Backed(cfg, counted, n.phase.digest) {
      SendCommitKeeps(cfg, counted);
    }
  }

  lemma RetainPreparesKeepsTask(cfg: Config, n: Node)
    requires TaskInv(cfg, n) && n.status.Running? && n.phase.AwaitPrepares?
    ensures TaskInv(cfg, n.(store := RetainPrepares(n.store, n.Current(), n.phase.digest)))
    ensures n.phase.digest.BlockDigest?
  {
    var st := RetainPrepares(n.store, n.Current(), n.phase.digest);
    assert forall v :: ProposalAt(st, v) == ProposalAt(n.store, v);
  }

  lemma StoreCommitKeepsTask(cfg: Config, n: Node)
    requires TaskInv(cfg, n) && Enabled(cfg, n, StoreCommit)
    ensures TaskInv(cfg, StepStoreCommit(n))
  {
    var n' := StepStoreCommit(n);
    assert forall view :: ProposalAt(n'.store, view) == ProposalAt(n.store, view);
    assert MatchingPrepares(n', n'.phase.digest) == MatchingPrepares(n, n'.phase.digest);
  }

  lemma StoreCommitKeeps(cfg: Config, n: Node)
    requires LocalInv(cfg, n) && Enabled(cfg, n, StoreCommit)
    ensures LocalInv(cfg, StepStoreCommit(n))
  {
    StoreCommitKeepsTask(cfg, n);
    AddCommitKeeps(cfg, n.self, n.store, n.phase.commit, n.self);
    PhaseKeepsSigned(cfg, n, StepStoreCommit(n));
  }

  lemma CommitsKeepStore(cfg: Config, self: Address, st: Store, view: View, digest: Digest)
    requires StoreInv(cfg, self, st)
    ensures StoreInv(cfg, self, RetainCommits(st, view, digest))
    ensures var left := RetainCommits(st, view, digest);
            StoreInv(cfg, self, left.(commits := Without(left.commits, view)))
  {
  }

  lemma CommitStoreStepKeeps(cfg: Config, n: Node, commits: map<Slot, CommitMsg>)
    requires LocalInv(cfg, n) && n.status.Running? && StoreInv(cfg, n.self, n.store.(commits := commits))
    ensures LocalInv(cfg, n.(store := n.store.(commits := commits)))
  {
    StoreStepKeeps(cfg, n, n.store.(commits := commits));
  }

  /** The seals of checked commits of one view come from different validators. */
  lemma TakenSealsProve(cfg: Config, view: View, digest: Digest, here: map<Slot, CommitMsg>, order: seq<Slot>)
    requires forall slot :: slot in here ==>
               slot.view == view && here[slot].digest == digest && CommitChecked(cfg, slot, here[slot])
    requires Orders(order, here) && |here| >= cfg.quorum(view.height)
    ensures SealsProve(cfg, view.height, digest, Seals(Values(order, here)))
  {
    OrderIsAsLong(order, here);
    var seals := Seals(Values(order, here));
    forall i | 0 <= i < |seals|
      ensures Recover(seals[i], digest) == Some(order[i].sender) && order[i].sender in cfg.validators(view.height)
      ensures order[i].view == view
    {
      assert order[i] in here;
    }
    forall i, j | 0 <= i < j < |seals| ensures Recover(seals[i], digest) != Recover(seals[j], digest) {
      assert order[i] != order[j];
    }
  }

  lemma SealKeeps(cfg: Config, n: Node, seals: seq<Signature>)
    requires LocalInv(cfg, n) && n.status.Running? && n.phase.AwaitCommits?
    requires SealsProve(cfg, n.height, n.phase.digest, seals)
    ensures LocalInv(cfg, n.(phase := Sealed(n.phase.digest, seals)))
  {
    PhaseKeepsSigned(cfg, n, n.(phase := Sealed(n.phase.digest, seals)));
  }

  lemma CheckCommitsKeeps(cfg: Config, n: Node, order: seq<Slot>)
    requires LocalInv(cfg, n) && Enabled(cfg, n, CheckCommits(order))
    ensures LocalInv(cfg, StepCheckCommits(cfg, n, order))
  {
    var view, digest := n.Current(), n.phase.digest;
    CommitsKeepStore(cfg, n.self, n.store, view, digest);
    var st := RetainCommits(n.store, view, digest);
    var here := At(st.commits, view);
    if |here| < cfg.quorum(n.height) {
      CommitStoreStepKeeps(cfg, n, st.commits);
    } else {
      TakenSealsProve(cfg, view, digest, here, order);
      CommitStoreStepKeeps(cfg, n, Without(st.commits, view));
      SealKeeps(cfg, n.(store := n.store.(commits := Without(st.commits, view))), Seals(Values(order, here)));
    }
  }

  // ---------- leaving the round ----------

  lemma DropKeepsStore(cfg: Config, self: Address, st: Store, view: View)
    requires StoreInv(cfg, self, st)
    ensures StoreInv(cfg, self, DropProposal(st, view))
  {
  }

  lemma TakePreparesKeepsStore(cfg: Config, self: Address, st: Store, view: View)
    requires StoreInv(cfg, self, st)
    ensures StoreInv(cfg, self, st.(prepares := Without(st.prepares, view)))
  {
  }

  lemma DroppedProposals(st: Store, view: View)
    ensures forall v :: ProposalAt(DropProposal(st, view), v).Some? ==> ProposalAt(st, v).Some?
  {
  }

  /** The proposal is still there when the round finished. */
  lemma FinishKeeps(cfg: Config, n: Node)
    requires LocalInv(cfg, n) && Enabled(cfg, n, Finish)
    ensures LocalInv(cfg, StepFinish(n)) && StepFinish(n).status.Decided?
  {
    DropKeepsStore(cfg, n.self, n.store, n.Current());
    PhaseKeepsSigned(cfg, n, StepFinish(n));
  }

  /** The certificate a timeout in the commit state composes verifies for every later round. */
  lemma ComposedCertificateVerifies(cfg: Config, n: Node, digest: Digest, order: seq<Slot>)
    requires StoreInv(cfg, n.self, n.store) && Agreed(n, digest) && Backed(cfg, n, digest)
    requires Orders(order, MatchingPrepares(n, digest))
    ensures ProposalAt(n.store, n.Current()).value.view == n.Current()
    ensures var p := ProposalAt(n.store, n.Current()).value;
            var prepared := NewPreparedProposed(p, Values(order, MatchingPrepares(n, digest)));
            && prepared.certificate.proposal.digest == prepared.block.Digest()
            && (forall limit: nat :: limit > n.round ==> ValidCertificate(cfg, prepared.certificate, n.height, limit))
  {
    var p := ProposalAt(n.store, n.Current()).value;
    var here := MatchingPrepares(n, digest);
    var prepared := NewPreparedProposed(p, Values(order, here));
    OrderIsAsLong(order, here);
    var prepares := prepared.certificate.prepares;
    forall i | 0 <= i < |prepares|
      ensures CountsFor(cfg, prepared.certificate, prepares[i]) && prepares[i].Signer() == Some(order[i].sender)
      ensures order[i].view == n.Current()
    {
      assert order[i] in here;
      assert PrepareChecked(cfg, order[i], n.store.prepares[order[i]]);
    }
    forall i, j | 0 <= i < j < |prepares| ensures prepares[i].Signer() != prepares[j].Signer() {
      assert order[i] != order[j];
    }
  }

  /** Past the prepare state, what the timeout handler takes is there. */
  lemma CommitPhaseHolds(cfg: Config, n: Node)
    requires TaskInv(cfg, n) && n.status.Running? && RunStateOf(n.phase).InCommit?
    ensures ProposalAt(n.store, n.Current()).Some?
    ensures var digest := ProposalAt(n.store, n.Current()).value.digest; Agreed(n, digest) && Backed(cfg, n, digest)
  {
  }

  lemma LatestIsOlder(cfg: Config, n: Node)
    requires LatestWf(cfg, n)
    ensures LatestRound(n) < n.round || LatestRound(n) == -1
  {
  }

  function LeftByTimeout(n: Node): Store {
    DropProposal(n.store, n.Current()).(prepares := Without(n.store.prepares, n.Current()))
  }

  lemma TimeoutInCommitStep(cfg: Config, n: Node, order: seq<Slot>)
    requires Enabled(cfg, n, Timeout(order)) && RunStateOf(n.phase).InCommit?
    requires ProposalAt(n.store, n.Current()).Some? && Backed(cfg, n, ProposalAt(n.store, n.Current()).value.digest)
    ensures var p := ProposalAt(n.store, n.Current()).value;
            var here := MatchingPrepares(n, p.digest);
            var rc := NewRoundChange(View(n.height, n.round + 1), Some(NewPreparedProposed(p, Values(order, here))),
                n.self);
            Orders(order, here) && StepTimeout(cfg, n, order) == ChangeRound(cfg, n.(store := LeftByTimeout(n)), rc)
  {
  }

  lemma TimeoutInCommitSends(cfg: Config, n: Node, order: seq<Slot>) returns (rc: RoundChangeMsg)
    requires StoreInv(cfg, n.self, n.store) && TaskInv(cfg, n)
    requires Enabled(cfg, n, Timeout(order)) && RunStateOf(n.phase).InCommit?
    ensures ProposalAt(n.store, n.Current()).Some?
    ensures var p := ProposalAt(n.store, n.Current()).value;
            var here := MatchingPrepares(n, p.digest);
            && Agreed(n, p.digest) && p.view == n.Current() && Orders(order, here)
            && rc == NewRoundChange(View(n.height, n.round + 1), Some(NewPreparedProposed(p, Values(order, here))),
                n.self)
    ensures StepTimeout(cfg, n, order) == ChangeRound(cfg, n.(store := LeftByTimeout(n)), rc)
    ensures ValidRoundChange(cfg, rc, n.height)
    ensures CertificateRound(rc.Certificate()) == n.round
  {
    CommitPhaseHolds(cfg, n);
    TimeoutInCommitStep(cfg, n, order);
    var p := ProposalAt(n.store, n.Current()).value;
    ComposedCertificateVerifies(cfg, n, p.digest, order);
    rc := NewRoundChange(View(n.height, n.round + 1),
                         Some(NewPreparedProposed(p, Values(order, MatchingPrepares(n, p.digest)))), n.self);
  }

  lemma TimeoutElseSends(cfg: Config, n: Node, order: seq<Slot>) returns (rc: RoundChangeMsg)
    requires LatestWf(cfg, n) && Enabled(cfg, n, Timeout(order)) && !RunStateOf(n.phase).InCommit?
    ensures rc == if n.latest.Some? then Resign(n.latest.value, n.round + 1, n.self)
                  else NewRoundChange(View(n.height, n.round + 1), None, n.self)
    ensures StepTimeout(cfg, n, order) == ChangeRound(cfg, n, rc)
    ensures rc.view == View(n.height, n.round + 1) && ValidRoundChange(cfg, rc, n.height)
    ensures CertificateRound(rc.Certificate()) == LatestRound(n)
  {
    rc := if n.latest.Some? then Resign(n.latest.value, n.round + 1, n.self)
          else NewRoundChange(View(n.height, n.round + 1), None, n.self);
  }

  lemma LeavingKeepsStore(cfg: Config, n: Node)
    requires StoreInv(cfg, n.self, n.store)
    ensures StoreInv(cfg, n.self, LeftByTimeout(n))
    ensures forall v :: ProposalAt(LeftByTimeout(n), v).Some? ==> ProposalAt(n.store, v).Some?
  {
    var view := n.Current();
    DropKeepsStore(cfg, n.self, n.store, view);
    TakePreparesKeepsStore(cfg, n.self, DropProposal(n.store, view), view);
    DroppedProposals(n.store, view);
    assert forall v :: ProposalAt(LeftByTimeout(n), v) == ProposalAt(DropProposal(n.store, view), v);
  }

  lemma TimeoutKeeps(cfg: Config, n: Node, order: seq<Slot>)
    requires LocalInv(cfg, n) && Enabled(cfg, n, Timeout(order))
    ensures LocalInv(cfg, StepTimeout(cfg, n, order))
  {
    if RunStateOf(n.phase).InCommit? {
      var rc := TimeoutInCommitSends(cfg, n, order);
      LatestIsOlder(cfg, n);
      LeavingKeepsStore(cfg, n);
      ChangeRoundKeeps(cfg, n, LeftByTimeout(n), rc);
    } else {
      var rc := TimeoutElseSends(cfg, n, order);
      ChangeRoundKeeps(cfg, n, n.store, rc);
    }
  }

  lemma ChangeRoundKeeps(cfg: Config, n: Node, st: Store, rc: RoundChangeMsg)
    requires LocalInv(cfg, n) && n.status.Running?
    requires StoreInv(cfg, n.self, st)
    requires forall view :: ProposalAt(st, view).Some? ==> ProposalAt(n.store, view).Some?
    requires rc.view == View(n.height, n.round + 1) && rc.Signer() == Some(n.self)
    requires ValidRoundChange(cfg, rc, n.height)
    requires LatestRound(n) <= CertificateRound(rc.Certificate())
    ensures LocalInv(cfg, ChangeRound(cfg, n.(store := st), rc))
  {
    var d := RoundChangeDigest(rc.view, rc.Certificate());
    RoundChangeKeepsSigned(cfg, n, rc);
    var n1 := Sign(n.(store := st), d).(latest := Some(rc));
    PhaseKeepsSigned(cfg,
      Sign(n, d).(latest := Some(rc), round := n.round + 1, phase := AwaitProposal),
      n1.(round := n.round + 1, phase := AwaitProposal));
    EnterRoundKeeps(cfg, n1, n.round + 1);
  }

  // ---------- all steps ----------

  lemma QuietStepKeeps(cfg: Config, n: Node, a: Action)
    requires LocalInv(cfg, n) && Enabled(cfg, n, a)
    requires a.Deliver? || a.Prune? || a.QueryProposal? || a.QueryRoundChanges? || a.Cancel?
    ensures LocalInv(cfg, Step(cfg, n, a))
  {
    match a
    case Deliver(message) => DeliverKeeps(cfg, n, message);
    case Prune(part, below) => PruneKeeps(cfg, n, part, below);
    case QueryProposal(round) => QueryProposalKeeps(cfg, n, View(n.height, round));
    case QueryRoundChanges(round) => QueryRoundChangesKeeps(cfg, n, round);
    case Cancel => PhaseKeepsSigned(cfg, n, n.(status := Cancelled));
  }

  lemma LeavingStepKeeps(cfg: Config, n: Node, a: Action)
    requires LocalInv(cfg, n) && Enabled(cfg, n, a)
    requires a.Finish? || a.Timeout? || a.JumpToProposal? || a.JumpToRoundChanges?
    ensures LocalInv(cfg, Step(cfg, n, a))
  {
    match a
    case Finish => FinishKeeps(cfg, n);
    case Timeout(order) => TimeoutKeeps(cfg, n, order);
    case JumpToProposal(round) =>
      QueryProposalKeeps(cfg, n, View(n.height, round));
      JumpKeeps(cfg, n.(store := CachedProposal(cfg, n, View(n.height, round)).1), round);
    case JumpToRoundChanges(round) =>
      QueryRoundChangesKeeps(cfg, n, round);
      JumpKeeps(cfg, n.(store := VerifiedRoundChanges(cfg, n, round)), round);
  }

  lemma ProposeFirstKeeps(cfg: Config, n: Node, built: Option<RawBlock>)
    requires LocalInv(cfg, n) && Enabled(cfg, n, ProposeFirst(built))
    ensures LocalInv(cfg, StepProposeFirst(n, built))
  {
    if built.Some? {
      AnnounceKeeps(cfg, n, NewProposal(n.Current(), built.value, None, n.self));
    } else {
      FailKeeps(cfg, n);
    }
  }

  lemma OwnStepKeeps(cfg: Config, n: Node, a: Action)
    requires LocalInv(cfg, n) && Enabled(cfg, n, a)
    requires a.ProposeFirst? || a.StoreProposal? || a.StorePrepare? || a.StoreCommit?
    ensures LocalInv(cfg, Step(cfg, n, a))
  {
    match a
    case ProposeFirst(built) => ProposeFirstKeeps(cfg, n, built);
    case StoreProposal => StoreProposalKeeps(cfg, n);
    case StorePrepare => StorePrepareKeeps(cfg, n);
    case StoreCommit => StoreCommitKeeps(cfg, n);
  }

  lemma RoundStepKeeps(cfg: Config, n: Node, a: Action)
    requires LocalInv(cfg, n) && Enabled(cfg, n, a)
    requires a.CollectRoundChanges? || a.CheckProposal? || a.CheckPrepares? || a.CheckCommits?
    ensures LocalInv(cfg, Step(cfg, n, a))
  {
    match a
    case CollectRoundChanges(order, built) => CollectKeeps(cfg, n, order, built);
    case CheckProposal => CheckProposalKeeps(cfg, n);
    case CheckPrepares => CheckPreparesKeeps(cfg, n);
    case CheckCommits(order) => CheckCommitsKeeps(cfg, n, order);
  }

  /** Whatever a node does, its invariant holds afterwards. */
  lemma StepKeeps(cfg: Config, n: Node, a: Action)
    requires LocalInv(cfg, n) && Enabled(cfg, n, a)
    ensures LocalInv(cfg, Step(cfg, n, a))
  {
    if a.ProposeFirst? || a.StoreProposal? || a.StorePrepare? || a.StoreCommit? {
      OwnStepKeeps(cfg, n, a);
    } else if a.CollectRoundChanges? || a.CheckProposal? || a.CheckPrepares? || a.CheckCommits? {
      RoundStepKeeps(cfg, n, a);
    } else if a.Finish? || a.Timeout? || a.JumpToProposal? || a.JumpToRoundChanges? {
      LeavingStepKeeps(cfg, n, a);
    } else {
      QuietStepKeeps(cfg, n, a);
    }
  }
}

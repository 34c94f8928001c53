/**
 What each step of a node does, told by what is stored and what verifies: which messages stay, go and come, and
 where the round task stands afterwards.
 */
module Effects {
  import opened Types
  import opened Configuration
  import opened Verification
  import opened Stores
  import opened Nodes
  import opened NodeInvariant
  import opened NodeSteps
  import opened SystemSteps
  import opened Caching
  import opened Proposals

  // ---------- who sent what ----------

  /** Senders of the stored prepares of a view for a digest. */
  function PrepareSenders(st: Store, view: View, digest: Digest): set<Address> {
    set slot | slot in st.prepares && slot.view == view && st.prepares[slot].digest == digest :: slot.sender
  }

  function CommitSenders(st: Store, view: View, digest: Digest): set<Address> {
    set slot | slot in st.commits && slot.view == view && st.commits[slot].digest == digest :: slot.sender
  }

  /** Senders of the stored round changes of a view that verify. */
  function ChangeSenders(cfg: Config, st: Store, view: View): set<Address> {
    set slot | slot in st.roundChanges && slot.view == view
               && ValidRoundChange(cfg, st.roundChanges[slot].message, view.height) :: slot.sender
  }

  lemma PreparesCount(n: Node, digest: Digest)
    ensures |MatchingPrepares(n, digest)| == |PrepareSenders(n.store, n.Current(), digest)|
  {
    var here := MatchingPrepares(n, digest);
    SendersCount(here, n.Current());
    assert (set slot | slot in here :: slot.sender) == PrepareSenders(n.store, n.Current(), digest);
  }

  lemma CommitsCount(st: Store, view: View, digest: Digest)
    ensures |At(RetainCommits(st, view, digest).commits, view)| == |CommitSenders(st, view, digest)|
  {
    var here := At(RetainCommits(st, view, digest).commits, view);
    SendersCount(here, view);
    assert (set slot | slot in here :: slot.sender) == CommitSenders(st, view, digest) by {
      assert forall slot :: slot in here <==>
          slot in st.commits && slot.view == view && st.commits[slot].digest == digest;
    }
  }

  lemma ChangesCount(cfg: Config, n: Node, round: nat)
    requires VotesWf(cfg, n.store)
    ensures var view := View(n.height, round);
            |At(VerifiedRoundChanges(cfg, n, round).roundChanges, view)| == |ChangeSenders(cfg, n.store, view)|
  {
    var view := View(n.height, round);
    var here := At(VerifiedRoundChanges(cfg, n, round).roundChanges, view);
    SendersCount(here, view);
    forall slot: Slot | slot.view == view
      ensures slot in here <==>
                slot in n.store.roundChanges && ValidRoundChange(cfg, n.store.roundChanges[slot].message, n.height)
    {
      assert slot in n.store.roundChanges ==> RoundChangeChecked(cfg, slot, n.store.roundChanges[slot]);
    }
    assert (set slot | slot in here :: slot.sender) == ChangeSenders(cfg, n.store, view);
  }

  // ---------- what the handler lets in ----------

  /** A checked message of another validator, not finalized yet and in round bounds. */
  predicate Welcome(cfg: Config, self: Address, finalized: nat, message: Received) {
    var (view, signer) := (message.View(), message.Signer());
    && finalized < view.height && view.round <= MAX_ROUND && signer.Some? && signer.value != self
    && match message
       case GotProposal(_) => signer.value == cfg.proposer(view)
       case GotPrepare(_) => signer.value in cfg.validators(view.height) && signer.value != cfg.proposer(view)
       case GotCommit(commit) => signer.value in cfg.validators(view.height) && commit.SealSigner() == signer
       case GotRoundChange(_) => signer.value in cfg.validators(view.height) && view.round >= 1
  }

  lemma JudgedExactly(cfg: Config, self: Address, finalized: nat, message: Received)
    ensures Judge(cfg, self, finalized, message).Stored? <==> Welcome(cfg, self, finalized, message)
    ensures Judge(cfg, self, finalized, message).Stale? <==> message.View().height <= finalized
  {
  }

  // ---------- which stored messages a step takes away ----------

  predicate CommitState(n: Node) {
    n.phase.AwaitCommits? || n.phase.Sealed?
  }

  predicate Prunes(a: Action, part: Part, view: View) {
    a.Prune? && a.part == part && view.height < a.below
  }

  predicate DropsPrepare(n: Node, a: Action, slot: Slot)
    requires slot in n.store.prepares
  {
    || Prunes(a, Prepares, slot.view)
    || (slot.view == n.Current() && a.Timeout? && CommitState(n))
    || (slot.view == n.Current() && a.CheckPrepares? && n.phase.AwaitPrepares?
        && n.store.prepares[slot].digest != n.phase.digest)
  }

  predicate DropsCommit(cfg: Config, n: Node, a: Action, slot: Slot)
    requires slot in n.store.commits
  {
    || Prunes(a, Commits, slot.view)
    || (slot.view == n.Current() && a.CheckCommits? && n.phase.AwaitCommits?
        && (|| n.store.commits[slot].digest != n.phase.digest
            || |CommitSenders(n.store, n.Current(), n.phase.digest)| >= cfg.quorum(n.height)))
  }

  predicate DropsChange(cfg: Config, n: Node, a: Action, slot: Slot)
    requires slot in n.store.roundChanges
  {
    || Prunes(a, RoundChanges, slot.view)
    || (AsksChanges(n, a, slot.view) && !ValidRoundChange(cfg, n.store.roundChanges[slot].message, n.height))
    || (slot.view == n.Current() && a.CollectRoundChanges?
        && |ChangeSenders(cfg, n.store, n.Current())| >= cfg.quorum(n.height))
  }

  predicate DropsProposal(n: Node, a: Action, view: View) {
    || Prunes(a, if view.round == 0 then FirstProposals else LaterProposals, view)
    || (view == n.Current() && (a.Finish? || (a.Timeout? && CommitState(n))))
  }

  // ---------- which messages a step brings ----------

  predicate BringsPrepare(cfg: Config, n: Node, a: Action, slot: Slot) {
    || (a.Deliver? && a.message.GotPrepare? && Welcome(cfg, n.self, n.finalized, a.message)
        && slot == Slot(a.message.prepare.view, a.message.Signer().value))
    || (a.StorePrepare? && n.phase.PrepareSent? && slot == Slot(n.phase.prepare.view, n.self))
  }

  predicate BringsCommit(cfg: Config, n: Node, a: Action, slot: Slot) {
    || (a.Deliver? && a.message.GotCommit? && Welcome(cfg, n.self, n.finalized, a.message)
        && slot == Slot(a.message.commit.view, a.message.Signer().value))
    || (a.StoreCommit? && n.phase.CommitSent? && slot == Slot(n.phase.commit.view, n.self))
  }

  /** A timeout stores the own round change exactly for the proposer of the next round. */
  predicate BringsChange(cfg: Config, n: Node, a: Action, slot: Slot) {
    || (a.Deliver? && a.message.GotRoundChange? && Welcome(cfg, n.self, n.finalized, a.message)
        && slot == Slot(a.message.roundChange.view, a.message.Signer().value))
    || (a.Timeout? && n.round < MAX_ROUND && slot == Slot(View(n.height, n.round + 1), n.self)
        && cfg.proposer(slot.view) == n.self)
  }

  predicate BringsProposal(cfg: Config, n: Node, a: Action, view: View) {
    || (a.Deliver? && a.message.GotProposal? && Welcome(cfg, n.self, n.finalized, a.message)
        && view == a.message.View())
    || (a.StoreProposal? && n.phase.ProposalSent? && view == n.phase.proposal.view)
  }

  // ---------- the store after a step, entry by entry ----------

  /** What was stored stays unless it is dropped and is never overwritten; what is new was brought. */
  ghost predicate PrepareFollows(cfg: Config, n: Node, a: Action, slot: Slot, st': Store) {
    if slot in n.store.prepares then
      && (slot in st'.prepares <==> !DropsPrepare(n, a, slot))
      && (slot in st'.prepares ==> st'.prepares[slot] == n.store.prepares[slot])
    else
      && (slot in st'.prepares <==> BringsPrepare(cfg, n, a, slot))
      && (slot in st'.prepares ==>
            st'.prepares[slot] == if a.StorePrepare? then n.phase.prepare else a.message.prepare)
  }

  ghost predicate CommitFollows(cfg: Config, n: Node, a: Action, slot: Slot, st': Store) {
    if slot in n.store.commits then
      && (slot in st'.commits <==> !DropsCommit(cfg, n, a, slot))
      && (slot in st'.commits ==> st'.commits[slot] == n.store.commits[slot])
    else
      && (slot in st'.commits <==> BringsCommit(cfg, n, a, slot))
      && (slot in st'.commits ==> st'.commits[slot] == if a.StoreCommit? then n.phase.commit else a.message.commit)
  }

  ghost predicate ChangeFollows(cfg: Config, n: Node, a: Action, slot: Slot, n': Node) {
    var (changes, changes') := (n.store.roundChanges, n'.store.roundChanges);
    if slot in changes then
      && (slot in changes' <==> !DropsChange(cfg, n, a, slot))
      && (slot in changes' ==> changes'[slot].message == changes[slot].message)
    else
      && (slot in changes' <==> BringsChange(cfg, n, a, slot))
      && (slot in changes' ==>
            if a.Timeout? then n'.latest.Some? && changes'[slot] == RoundChangeEntry(n'.latest.value, true)
            else changes'[slot] == RoundChangeEntry(a.message.roundChange, false))
  }

  ghost predicate ProposalFollows(cfg: Config, n: Node, a: Action, view: View, st': Store) {
    if ProposalAt(n.store, view).Some? then
      ProposalAt(st', view) == if DropsProposal(n, a, view) then None else ProposalAt(n.store, view)
    else
      && (ProposalAt(st', view).Some? <==> BringsProposal(cfg, n, a, view))
      && (ProposalAt(st', view).Some? ==>
            ProposalAt(st', view).value == if a.StoreProposal? then n.phase.proposal else a.message.proposal)
      && (ProposalAt(st', view).Some? && view.round >= 1 ==>
            st'.proposals1[view].verdict == if a.StoreProposal? then Some(Accept) else None)
  }

  // ---------- steps one by one ----------

  /** Entering the next round adds at most the own round change. */
  lemma ChangeRoundStore(cfg: Config, n: Node, rc: RoundChangeMsg)
    requires rc.view == View(n.height, n.round + 1)
    ensures var st', adds := ChangeRound(cfg, n, rc).store, n.round < MAX_ROUND && cfg.proposer(rc.view) == n.self;
            st' == n.store.(roundChanges :=
              if adds then Insert(n.store.roundChanges, Slot(rc.view, n.self), RoundChangeEntry(rc, true))
              else n.store.roundChanges)
    ensures ChangeRound(cfg, n, rc).latest == Some(rc)
  {
  }

  ghost function TimeoutLeaves(n: Node): Store {
    if CommitState(n) then LeftByTimeout(n) else n.store
  }

  lemma TimeoutStore(cfg: Config, n: Node, order: seq<Slot>) returns (rc: RoundChangeMsg)
    requires LocalInv(cfg, n) && Enabled(cfg, n, Timeout(order))
    ensures rc.view == View(n.height, n.round + 1) && StepTimeout(cfg, n, order).latest == Some(rc)
    ensures var left, adds := TimeoutLeaves(n), n.round < MAX_ROUND && cfg.proposer(rc.view) == n.self;
            StepTimeout(cfg, n, order).store == left.(roundChanges :=
              if adds then Insert(n.store.roundChanges, Slot(rc.view, n.self), RoundChangeEntry(rc, true))
              else n.store.roundChanges)
  {
    if CommitState(n) {
      rc := TimeoutInCommitSends(cfg, n, order);
    } else {
      rc := TimeoutElseSends(cfg, n, order);
    }
    ChangeRoundStore(cfg, n.(store := TimeoutLeaves(n)), rc);
  }

  lemma JumpStore(cfg: Config, n: Node, a: Action)
    requires LatestWf(cfg, n) && Enabled(cfg, n, a) && (a.JumpToProposal? || a.JumpToRoundChanges?)
    ensures Step(cfg, n, a).store == if a.JumpToProposal? then CachedProposal(cfg, n, View(n.height, a.round)).1
                                     else VerifiedRoundChanges(cfg, n, a.round)
  {
    JumpAddsNothing(cfg, n.(store := CachedProposal(cfg, n, View(n.height, a.round)).1), a.round);
    JumpAddsNothing(cfg, n.(store := VerifiedRoundChanges(cfg, n, a.round)), a.round);
  }

  lemma DeliveryFollows(cfg: Config, n: Node, message: Received, slot: Slot)
    requires Enabled(cfg, n, Deliver(message))
    ensures var a := Deliver(message);
            && PrepareFollows(cfg, n, a, slot, Step(cfg, n, a).store)
            && CommitFollows(cfg, n, a, slot, Step(cfg, n, a).store)
            && ChangeFollows(cfg, n, a, slot, Step(cfg, n, a))
  {
    JudgedExactly(cfg, n.self, n.finalized, message);
  }

  lemma DeliveredProposalFollows(cfg: Config, n: Node, message: Received, view: View)
    requires Enabled(cfg, n, Deliver(message))
    ensures ProposalFollows(cfg, n, Deliver(message), view, Step(cfg, n, Deliver(message)).store)
  {
    JudgedExactly(cfg, n.self, n.finalized, message);
  }

  lemma PruneFollows(cfg: Config, n: Node, part: Part, below: nat, slot: Slot)
    requires Enabled(cfg, n, Prune(part, below))
    ensures var a := Prune(part, below);
            && PrepareFollows(cfg, n, a, slot, Step(cfg, n, a).store)
            && CommitFollows(cfg, n, a, slot, Step(cfg, n, a).store)
            && ChangeFollows(cfg, n, a, slot, Step(cfg, n, a))
            && ProposalFollows(cfg, n, a, slot.view, Step(cfg, n, a).store)
  {
  }

  predicate Votes(a: Action) {
    a.StorePrepare? || a.CheckPrepares? || a.StoreCommit? || a.CheckCommits?
  }

  /** Jumps and proposals leave the votes alone. */
  lemma MovesLeaveVotes(cfg: Config, n: Node, a: Action)
    requires Enabled(cfg, n, a) && (a.JumpToProposal? || a.JumpToRoundChanges? || a.CollectRoundChanges?)
    ensures Step(cfg, n, a).store.prepares == n.store.prepares && Step(cfg, n, a).store.commits == n.store.commits
  {
    if a.CollectRoundChanges? {
      CollectLeavesVotes(cfg, n, a.order, a.built);
    }
  }

  lemma CollectLeavesVotes(cfg: Config, n: Node, order: seq<Slot>, built: Option<RawBlock>)
    requires Enabled(cfg, n, CollectRoundChanges(order, built))
    ensures StepCollect(cfg, n, order, built).store ==
              n.store.(roundChanges := StepCollect(cfg, n, order, built).store.roundChanges)
  {
  }

  /** Only storing and recounting touch the votes, apart from arrivals, pruning and timeouts. */
  lemma PreparesUntouched(cfg: Config, n: Node, a: Action)
    requires Enabled(cfg, n, a) && !a.Deliver? && !a.Prune? && !a.Timeout? && !a.StorePrepare? && !a.CheckPrepares?
    ensures Step(cfg, n, a).store.prepares == n.store.prepares
  {
    if a.JumpToProposal? || a.JumpToRoundChanges? || a.CollectRoundChanges? {
      MovesLeaveVotes(cfg, n, a);
    }
  }

  lemma CommitsUntouched(cfg: Config, n: Node, a: Action)
    requires Enabled(cfg, n, a) && !a.Deliver? && !a.Prune? && !a.Timeout? && !a.StoreCommit? && !a.CheckCommits?
    ensures Step(cfg, n, a).store.commits == n.store.commits
  {
    if a.JumpToProposal? || a.JumpToRoundChanges? || a.CollectRoundChanges? {
      MovesLeaveVotes(cfg, n, a);
    }
  }

  lemma VotingFollows(cfg: Config, n: Node, a: Action, slot: Slot)
    requires Enabled(cfg, n, a) && Votes(a)
    ensures a.StorePrepare? || a.CheckPrepares? ==> PrepareFollows(cfg, n, a, slot, Step(cfg, n, a).store)
    ensures a.StoreCommit? || a.CheckCommits? ==> CommitFollows(cfg, n, a, slot, Step(cfg, n, a).store)
  {
    if a.CheckCommits? {
      CommitsCount(n.store, n.Current(), n.phase.digest);
    }
  }

  lemma TimeoutVotes(cfg: Config, n: Node, order: seq<Slot>, slot: Slot)
    requires LocalInv(cfg, n) && Enabled(cfg, n, Timeout(order))
    ensures PrepareFollows(cfg, n, Timeout(order), slot, Step(cfg, n, Timeout(order)).store)
    ensures CommitFollows(cfg, n, Timeout(order), slot, Step(cfg, n, Timeout(order)).store)
  {
    var _ := TimeoutStore(cfg, n, order);
  }

  lemma PrepareAfter(cfg: Config, n: Node, a: Action, slot: Slot)
    requires LocalInv(cfg, n) && Enabled(cfg, n, a)
    ensures PrepareFollows(cfg, n, a, slot, Step(cfg, n, a).store)
  {
    match a
    case Deliver(message) => DeliveryFollows(cfg, n, message, slot);
    case Prune(part, below) => PruneFollows(cfg, n, part, below, slot);
    case Timeout(order) => TimeoutVotes(cfg, n, order, slot);
    case StorePrepare => VotingFollows(cfg, n, a, slot);
    case CheckPrepares => VotingFollows(cfg, n, a, slot);
    case _ => PreparesUntouched(cfg, n, a);
  }

  lemma CommitAfter(cfg: Config, n: Node, a: Action, slot: Slot)
    requires LocalInv(cfg, n) && Enabled(cfg, n, a)
    ensures CommitFollows(cfg, n, a, slot, Step(cfg, n, a).store)
  {
    match a
    case Deliver(message) => DeliveryFollows(cfg, n, message, slot);
    case Prune(part, below) => PruneFollows(cfg, n, part, below, slot);
    case Timeout(order) => TimeoutVotes(cfg, n, order, slot);
    case StoreCommit => VotingFollows(cfg, n, a, slot);
    case CheckCommits(_) => VotingFollows(cfg, n, a, slot);
    case _ => CommitsUntouched(cfg, n, a);
  }

  lemma TimeoutChange(cfg: Config, n: Node, order: seq<Slot>, slot: Slot)
    requires LocalInv(cfg, n) && Enabled(cfg, n, Timeout(order))
    ensures ChangeFollows(cfg, n, Timeout(order), slot, Step(cfg, n, Timeout(order)))
  {
    var rc := TimeoutStore(cfg, n, order);
    OneMoreChange(cfg, n, order, rc, Step(cfg, n, Timeout(order)), slot);
  }

  lemma OneMoreChange(cfg: Config, n: Node, order: seq<Slot>, rc: RoundChangeMsg, n': Node, slot: Slot)
    requires rc.view == View(n.height, n.round + 1) && n'.latest == Some(rc)
    requires n'.store.roundChanges ==
               if n.round < MAX_ROUND && cfg.proposer(rc.view) == n.self
               then Insert(n.store.roundChanges, Slot(rc.view, n.self), RoundChangeEntry(rc, true))
               else n.store.roundChanges
    ensures ChangeFollows(cfg, n, Timeout(order), slot, n')
  {
  }

  /** A set flag tells the truth, so filtering by flag and verifier is filtering by the verifier. */
  lemma VerifiedEntry(cfg: Config, n: Node, round: nat, slot: Slot)
    requires VotesWf(cfg, n.store)
    ensures var view, after := View(n.height, round), VerifiedRoundChanges(cfg, n, round).roundChanges;
            && (slot in after <==>
                  && slot in n.store.roundChanges
                  && (slot.view == view ==> ValidRoundChange(cfg, n.store.roundChanges[slot].message, n.height)))
            && (slot in after ==> after[slot].message == n.store.roundChanges[slot].message)
  {
    if slot in n.store.roundChanges {
      assert RoundChangeChecked(cfg, slot, n.store.roundChanges[slot]);
    }
  }

  /** Asking drops what does not verify. */
  lemma AskingFollows(cfg: Config, n: Node, a: Action, slot: Slot)
    requires VotesWf(cfg, n.store) && LatestWf(cfg, n) && Enabled(cfg, n, a)
    requires a.QueryRoundChanges? || a.JumpToRoundChanges?
    ensures ChangeFollows(cfg, n, a, slot, Step(cfg, n, a))
  {
    VerifiedEntry(cfg, n, a.round, slot);
    if a.JumpToRoundChanges? {
      JumpStore(cfg, n, a);
    }
  }

  lemma CollectTakes(cfg: Config, n: Node, order: seq<Slot>, built: Option<RawBlock>)
    requires Enabled(cfg, n, CollectRoundChanges(order, built))
    ensures var after, view := VerifiedRoundChanges(cfg, n, n.round).roundChanges, n.Current();
            StepCollect(cfg, n, order, built).store.roundChanges ==
              if |At(after, view)| < cfg.quorum(n.height) then after else Without(after, view)
  {
  }

  lemma CollectStore(cfg: Config, n: Node, order: seq<Slot>, built: Option<RawBlock>)
    requires VotesWf(cfg, n.store) && Enabled(cfg, n, CollectRoundChanges(order, built))
    ensures var after, view := VerifiedRoundChanges(cfg, n, n.round).roundChanges, n.Current();
            Step(cfg, n, CollectRoundChanges(order, built)).store.roundChanges ==
              if |ChangeSenders(cfg, n.store, view)| < cfg.quorum(n.height) then after else Without(after, view)
  {
    CollectTakes(cfg, n, order, built);
    ChangesCount(cfg, n, n.round);
  }

  /** A proposer moreover takes a quorum away. */
  lemma CollectingFollows(cfg: Config, n: Node, order: seq<Slot>, built: Option<RawBlock>, slot: Slot)
    requires VotesWf(cfg, n.store) && Enabled(cfg, n, CollectRoundChanges(order, built))
    ensures var a := CollectRoundChanges(order, built); ChangeFollows(cfg, n, a, slot, Step(cfg, n, a))
  {
    VerifiedEntry(cfg, n, n.round, slot);
    CollectStore(cfg, n, order, built);
  }

  predicate AsksForChanges(a: Action) {
    a.QueryRoundChanges? || a.JumpToRoundChanges? || a.CollectRoundChanges?
  }

  lemma ChangesUntouched(cfg: Config, n: Node, a: Action)
    requires LatestWf(cfg, n) && Enabled(cfg, n, a) && !a.Deliver? && !a.Prune? && !a.Timeout? && !AsksForChanges(a)
    ensures Step(cfg, n, a).store.roundChanges == n.store.roundChanges
  {
    if a.JumpToProposal? {
      JumpStore(cfg, n, a);
    }
  }

  lemma ChangeFollowsInRound(cfg: Config, n: Node, a: Action, slot: Slot)
    requires VotesWf(cfg, n.store) && LatestWf(cfg, n) && Enabled(cfg, n, a) && !a.Timeout?
    ensures ChangeFollows(cfg, n, a, slot, Step(cfg, n, a))
  {
    if a.Deliver? {
      DeliveryFollows(cfg, n, a.message, slot);
    } else if a.Prune? {
      PruneFollows(cfg, n, a.part, a.below, slot);
    } else if a.CollectRoundChanges? {
      CollectingFollows(cfg, n, a.order, a.built, slot);
    } else if AsksForChanges(a) {
      AskingFollows(cfg, n, a, slot);
    } else {
      ChangesUntouched(cfg, n, a);
    }
  }

  lemma ChangeAfter(cfg: Config, n: Node, a: Action, slot: Slot)
    requires LocalInv(cfg, n) && Enabled(cfg, n, a)
    ensures ChangeFollows(cfg, n, a, slot, Step(cfg, n, a))
  {
    if a.Timeout? {
      TimeoutChange(cfg, n, a.order, slot);
    } else {
      ChangeFollowsInRound(cfg, n, a, slot);
    }
  }

  /** Taking a proposal removes it and no other. */
  lemma Dropped(st: Store, view: View, other: View)
    ensures ProposalAt(DropProposal(st, view), other) == if other == view then None else ProposalAt(st, other)
  {
  }

  lemma TimeoutProposal(cfg: Config, n: Node, order: seq<Slot>, view: View)
    requires LocalInv(cfg, n) && Enabled(cfg, n, Timeout(order))
    ensures ProposalFollows(cfg, n, Timeout(order), view, Step(cfg, n, Timeout(order)).store)
  {
    var _ := TimeoutStore(cfg, n, order);
    Dropped(n.store, n.Current(), view);
    LeftProposals(n, view);
  }

  lemma LeftProposals(n: Node, view: View)
    ensures ProposalAt(LeftByTimeout(n), view) == ProposalAt(DropProposal(n.store, n.Current()), view)
  {
  }

  /** Asking for a proposal keeps it, whatever the answer. */
  lemma AskedProposalStays(cfg: Config, n: Node, asked: View, view: View)
    ensures ProposalAt(CachedProposal(cfg, n, asked).1, view) == ProposalAt(n.store, view)
  {
  }

  lemma ProposalsUntouched(cfg: Config, n: Node, a: Action, view: View)
    requires LatestWf(cfg, n) && Enabled(cfg, n, a)
    requires !a.Deliver? && !a.Prune? && !a.Timeout? && !a.Finish? && !a.StoreProposal?
    ensures ProposalAt(Step(cfg, n, a).store, view) == ProposalAt(n.store, view)
  {
    if a.JumpToProposal? || a.JumpToRoundChanges? {
      JumpStore(cfg, n, a);
    }
    if a.JumpToProposal? || a.QueryProposal? {
      AskedProposalStays(cfg, n, View(n.height, a.round), view);
    } else if a.CheckProposal? {
      AskedProposalStays(cfg, n, n.Current(), view);
    }
  }

  lemma OwnProposalFollows(cfg: Config, n: Node, a: Action, view: View)
    requires Enabled(cfg, n, a) && (a.StoreProposal? || (a.Finish? && ProposalAt(n.store, n.Current()).Some?))
    ensures ProposalFollows(cfg, n, a, view, Step(cfg, n, a).store)
  {
  }

  lemma ProposalAfter(cfg: Config, n: Node, a: Action, view: View)
    requires LocalInv(cfg, n) && Enabled(cfg, n, a)
    ensures ProposalFollows(cfg, n, a, view, Step(cfg, n, a).store)
  {
    if a.Deliver? {
      DeliveredProposalFollows(cfg, n, a.message, view);
    } else if a.Prune? {
      PruneFollows(cfg, n, a.part, a.below, Slot(view, n.self));
    } else if a.Timeout? {
      TimeoutProposal(cfg, n, a.order, view);
    } else if a.Finish? || a.StoreProposal? {
      OwnProposalFollows(cfg, n, a, view);
    } else {
      ProposalsUntouched(cfg, n, a, view);
    }
  }

  // ---------- where the round task stands ----------

  /** Arrivals, pruning and questions of the monitors change the store alone, a cancel only stops the node. */
  lemma BackgroundOutcome(cfg: Config, n: Node, a: Action)
    requires Enabled(cfg, n, a)
    ensures a.Deliver? || a.Prune? || a.QueryProposal? || a.QueryRoundChanges? ==>
              Step(cfg, n, a) == n.(store := Step(cfg, n, a).store)
    ensures a.Cancel? ==> Step(cfg, n, a) == n.(status := Cancelled)
  {
  }

  /** Without a block nothing is proposed; otherwise the block goes out for round 0 without a certificate. */
  lemma ProposeFirstOutcome(cfg: Config, n: Node, built: Option<RawBlock>)
    requires Enabled(cfg, n, ProposeFirst(built))
    ensures var n' := Step(cfg, n, ProposeFirst(built));
            if built.None? then n' == n.(phase := Failed)
            else
              var digest := BlockDigest(built.value, n.round);
              var vote := ProposalDigest(View(n.height, n.round), digest);
              n' == n.(signed := n.signed + {vote},
                       phase := ProposalSent(ProposalMsg(View(n.height, n.round), ProposedBlock(built.value, n.round),
                                                         digest, None, Signature(n.self, vote))))
  {
  }

  /** All these round changes, in any order, are listed; the block is one they prepared, or a fresh one. */
  ghost predicate BuiltOn(p: ProposalMsg, view: View, here: map<Slot, RoundChangeEntry>, built: Option<RawBlock>) {
    && p.view == view && p.block.round == view.round && p.DigestMatches()
    && p.certificate.Some? && |p.certificate.value| == |here|
    && (forall slot :: slot in here ==> here[slot].message.Metadata() in p.certificate.value)
    && (|| (exists slot :: slot in here && here[slot].message.prepared.Some?
                           && here[slot].message.prepared.value.block.raw == p.block.raw)
        || (NonePrepared(here) && built == Some(p.block.raw)))
  }

  predicate NonePrepared(here: map<Slot, RoundChangeEntry>) {
    forall slot :: slot in here ==> here[slot].message.prepared.None?
  }

  lemma TakenAre(here: map<Slot, RoundChangeEntry>, order: seq<Slot>)
    requires Orders(order, here)
    ensures forall slot :: slot in here ==> here[slot].message in Messages(Values(order, here))
    ensures forall rc :: rc in Messages(Values(order, here)) ==> exists slot :: slot in here && here[slot].message == rc
  {
    var rcs := Messages(Values(order, here));
    forall slot | slot in here ensures here[slot].message in rcs {
      var i :| 0 <= i < |order| && order[i] == slot;
      assert rcs[i] == here[slot].message;
    }
    forall rc | rc in rcs ensures exists slot :: slot in here && here[slot].message == rc {
      var i :| 0 <= i < |rcs| && rcs[i] == rc;
      assert order[i] in here;
    }
  }

  lemma ListedAll(rcs: seq<RoundChangeMsg>, rc: RoundChangeMsg)
    requires rc in rcs
    ensures rc.Metadata() in MetadataOf(Listed(rcs))
  {
    var i :| 0 <= i < |rcs| && rcs[i] == rc;
    var pos := FirstPrepared(rcs);
    var at := if pos.None? then i else if i == pos.value then |rcs| - 1 else if i == |rcs| - 1 then pos.value else i;
    assert MetadataOf(Listed(rcs))[at] == rc.Metadata();
  }

  lemma BuildFails(view: View, here: map<Slot, RoundChangeEntry>, order: seq<Slot>, built: Option<RawBlock>,
                   self: Address)
    requires Orders(order, here)
    ensures BuildProposal(view, Messages(Values(order, here)), built, self).None? <==> built.None? && NonePrepared(here)
    ensures FirstPrepared(Messages(Values(order, here))).None? <==> NonePrepared(here)
  {
    TakenAre(here, order);
  }

  lemma BuiltOnTaken(view: View, here: map<Slot, RoundChangeEntry>, order: seq<Slot>, built: Option<RawBlock>,
                     self: Address)
    requires Orders(order, here) && BuildProposal(view, Messages(Values(order, here)), built, self).Some?
    ensures BuiltOn(BuildProposal(view, Messages(Values(order, here)), built, self).value, view, here, built)
  {
    var rcs := Messages(Values(order, here));
    var p := BuildProposal(view, rcs, built, self).value;
    OrderIsAsLong(order, here);
    BuildFails(view, here, order, built, self);
    BuiltFrom(view, rcs, built, self);
    TakenAre(here, order);
    forall slot | slot in here ensures here[slot].message.Metadata() in p.certificate.value {
      ListedAll(rcs, here[slot].message);
    }
    if FirstPrepared(rcs).Some? {
      assert rcs[FirstPrepared(rcs).value] in rcs;
    }
  }

  lemma BuildOutcome(view: View, here: map<Slot, RoundChangeEntry>, order: seq<Slot>, built: Option<RawBlock>,
                     self: Address)
    requires Orders(order, here)
    ensures var p := BuildProposal(view, Messages(Values(order, here)), built, self);
            && (p.None? <==> built.None? && NonePrepared(here))
            && (p.Some? ==> BuiltOn(p.value, view, here, built))
  {
    var rcs := Messages(Values(order, here));
    BuildFails(view, here, order, built, self);
    if BuildProposal(view, rcs, built, self).Some? {
      BuiltOnTaken(view, here, order, built, self);
    }
  }

  /** A quorum of round changes that verify is turned into a proposal on all of them; below it the node waits. */
  lemma CollectOutcome(cfg: Config, n: Node, order: seq<Slot>, built: Option<RawBlock>)
    requires LocalInv(cfg, n) && Enabled(cfg, n, CollectRoundChanges(order, built))
    ensures var n', view := Step(cfg, n, CollectRoundChanges(order, built)), n.Current();
            if |ChangeSenders(cfg, n.store, view)| < cfg.quorum(n.height) then n' == n.(store := n'.store)
            else if n'.phase.Failed? then n' == n.(store := n'.store, phase := Failed)
            else n'.phase.ProposalSent?
                 && n' == n.(store := n'.store, phase := n'.phase,
                             signed := n.signed + {ProposalDigest(view, n'.phase.proposal.digest)})
    ensures var n', here := Step(cfg, n, CollectRoundChanges(order, built)), Valids(cfg, n.store, n.Current());
            |ChangeSenders(cfg, n.store, n.Current())| >= cfg.quorum(n.height) ==>
              if built.None? && NonePrepared(here) then n'.phase.Failed?
              else n'.phase.ProposalSent? && BuiltOn(n'.phase.proposal, n.Current(), here, built)
  {
    var view := n.Current();
    var here := At(VerifiedRoundChanges(cfg, n, n.round).roundChanges, view);
    ChangesCount(cfg, n, n.round);
    ValidsAre(cfg, n);
    BuildOutcome(view, here, order, built, n.self);
    SameMessages(Valids(cfg, n.store, view), here, view, built);
  }

  /** The stored round changes of a view that verify. */
  function Valids(cfg: Config, st: Store, view: View): map<Slot, RoundChangeEntry> {
    map slot | slot in st.roundChanges && slot.view == view
               && ValidRoundChange(cfg, st.roundChanges[slot].message, view.height) :: st.roundChanges[slot]
  }

  lemma CheckProposalOutcome(cfg: Config, n: Node)
    requires LocalInv(cfg, n) && Enabled(cfg, n, CheckProposal)
    ensures var n', view, p := Step(cfg, n, CheckProposal), n.Current(), ProposalAt(n.store, n.Current());
            if p.None? then n' == n
            else if !Passes(cfg, p.value) then n' == n.(store := n'.store, phase := Failed)
            else
              var vote := PrepareDigest(view, p.value.digest);
              n' == n.(store := n'.store, signed := n.signed + {vote},
                       phase := PrepareSent(PrepareMsg(view, p.value.digest, Signature(n.self, vote))))
  {
    if ProposalAt(n.store, n.Current()).Some? {
      AcceptedIsVerified(cfg, n, n.Current());
    }
  }

  /** What was broadcast is stored, and the next state of the round begins. */
  lemma StoringOutcome(cfg: Config, n: Node, a: Action)
    requires Enabled(cfg, n, a) && (a.StoreProposal? || a.StorePrepare? || a.StoreCommit?)
    ensures var n' := Step(cfg, n, a); n' == n.(store := n'.store, phase := n'.phase)
    ensures a.StoreProposal? ==> Step(cfg, n, a).phase == AwaitPrepares(n.phase.proposal.digest)
    ensures a.StorePrepare? ==> Step(cfg, n, a).phase == AwaitPrepares(n.phase.prepare.digest)
    ensures a.StoreCommit? ==> Step(cfg, n, a).phase == AwaitCommits(n.phase.commit.digest)
  {
  }

  /** A commit goes out exactly when `quorum - 1` validators prepared the digest. */
  lemma CheckPreparesOutcome(cfg: Config, n: Node)
    requires Enabled(cfg, n, CheckPrepares)
    ensures var n', view, digest := Step(cfg, n, CheckPrepares), n.Current(), n.phase.digest;
            if |PrepareSenders(n.store, view, digest)| + 1 < cfg.quorum(n.height) then n' == n.(store := n'.store)
            else
              var seal := Signature(n.self, digest);
              var vote := CommitDigest(view, digest, seal);
              n' == n.(store := n'.store, signed := n.signed + {digest} + {vote},
                       phase := CommitSent(CommitMsg(view, digest, seal, Signature(n.self, vote))))
  {
    PreparesCount(n, n.phase.digest);
  }

  /** The round is sealed exactly when a quorum committed the digest, with one seal of each. */
  lemma CheckCommitsOutcome(cfg: Config, n: Node, order: seq<Slot>)
    requires Enabled(cfg, n, CheckCommits(order))
    ensures var n', view, digest := Step(cfg, n, CheckCommits(order)), n.Current(), n.phase.digest;
            var senders := CommitSenders(n.store, view, digest);
            if |senders| < cfg.quorum(n.height) then n' == n.(store := n'.store)
            else
              && n'.phase.Sealed? && n' == n.(store := n'.store, phase := Sealed(digest, n'.phase.seals))
              && |n'.phase.seals| == |senders|
              && (forall a :: a in senders ==> n.store.commits[Slot(view, a)].seal in n'.phase.seals)
  {
    var view, digest := n.Current(), n.phase.digest;
    var here := At(RetainCommits(n.store, view, digest).commits, view);
    CommitsCount(n.store, view, digest);
    OrderIsAsLong(order, here);
    forall a | a in CommitSenders(n.store, view, digest)
      ensures n.store.commits[Slot(view, a)].seal in Seals(Values(order, here))
    {
      assert Slot(view, a) in here;
      var i :| 0 <= i < |order| && order[i] == Slot(view, a);
      assert Seals(Values(order, here))[i] == n.store.commits[Slot(view, a)].seal;
    }
  }

  /** The stored block with the taken seals is the result. */
  lemma FinishOutcome(cfg: Config, n: Node)
    requires LocalInv(cfg, n) && Enabled(cfg, n, Finish)
    ensures ProposalAt(n.store, n.Current()).Some?
    ensures var n', block := Step(cfg, n, Finish), ProposalAt(n.store, n.Current()).value.block;
            n' == n.(store := n'.store, status := Decided(FinalizedBlock(block.raw, block.round, n.phase.seals)))
  {
  }

  /** The certificate of this proposal with every stored prepare for it, once each. */
  ghost predicate Certificate(n: Node, p: ProposalMsg, prepared: PreparedProposed) {
    var prepares, senders := prepared.certificate.prepares, PrepareSenders(n.store, n.Current(), p.digest);
    && prepared.block == p.block
    && prepared.certificate.proposal == ProposalMetadata(n.Current(), p.digest, p.signature)
    && |prepares| == |senders|
    && (forall a :: a in senders ==> n.store.prepares[Slot(n.Current(), a)] in prepares)
  }

  /** The next round begins, or the rounds have run out; one round change goes out for it. */
  lemma TimeoutOutcome(cfg: Config, n: Node, order: seq<Slot>) returns (rc: RoundChangeMsg)
    requires LocalInv(cfg, n) && Enabled(cfg, n, Timeout(order))
    ensures rc.view == View(n.height, n.round + 1) && rc.Signer() == Some(n.self)
    ensures !CommitState(n) ==> rc.prepared == if n.latest.Some? then n.latest.value.prepared else None
    ensures CommitState(n) ==>
              var p := ProposalAt(n.store, n.Current());
              p.Some? && rc.prepared.Some? && Certificate(n, p.value, rc.prepared.value)
    ensures var n' := Step(cfg, n, Timeout(order));
            n' == n.(store := n'.store, round := n.round + 1, phase := AwaitProposal, latest := Some(rc),
                     status := if n.round < MAX_ROUND then Running else Dead,
                     signed := n.signed + {RoundChangeDigest(rc.view, rc.Certificate())})
  {
    if CommitState(n) {
      rc := TimeoutInCommitSends(cfg, n, order);
      PreparesListed(n, ProposalAt(n.store, n.Current()).value.digest, order);
    } else {
      rc := TimeoutElseSends(cfg, n, order);
    }
  }

  lemma PreparesListed(n: Node, digest: Digest, order: seq<Slot>)
    requires Orders(order, MatchingPrepares(n, digest))
    ensures var prepares := Values(order, MatchingPrepares(n, digest));
            var senders := PrepareSenders(n.store, n.Current(), digest);
            |prepares| == |senders| && forall a :: a in senders ==> n.store.prepares[Slot(n.Current(), a)] in prepares
  {
    var here := MatchingPrepares(n, digest);
    PreparesCount(n, digest);
    OrderIsAsLong(order, here);
    forall a | a in PrepareSenders(n.store, n.Current(), digest)
      ensures n.store.prepares[Slot(n.Current(), a)] in Values(order, here)
    {
      assert Slot(n.Current(), a) in here;
      var i :| 0 <= i < |order| && order[i] == Slot(n.Current(), a);
      assert Values(order, here)[i] == n.store.prepares[Slot(n.Current(), a)];
    }
  }

  /** A node jumps to any later round, whatever its phase, exactly when an acceptable proposal of it is stored. */
  lemma ProposalJumpsExactly(cfg: Config, n: Node, round: nat)
    requires LocalInv(cfg, n) && n.status.Running? && n.round < round <= MAX_ROUND
    ensures var p := ProposalAt(n.store, View(n.height, round));
            Enabled(cfg, n, JumpToProposal(round)) <==> p.Some? && Acceptable(cfg, p.value)
  {
    var view := View(n.height, round);
    if ProposalAt(n.store, view).Some? {
      StoredIsPeers(cfg, n, view);
      AcceptedIsVerified(cfg, n, view);
    }
  }

  /** A stored proposal of a later round is by a peer. */
  lemma StoredIsPeers(cfg: Config, n: Node, view: View)
    requires LocalInv(cfg, n) && n.status.Running? && view.round > n.round && ProposalAt(n.store, view).Some?
    ensures cfg.proposer(view) != n.self && ProposalAt(n.store, view).value.view == view
  {
  }

  lemma ChangeJumpsCount(cfg: Config, n: Node, round: nat)
    requires n.status.Running? && n.round < round <= MAX_ROUND
    ensures var view := View(n.height, round);
            Enabled(cfg, n, JumpToRoundChanges(round)) <==>
              |At(VerifiedRoundChanges(cfg, n, round).roundChanges, view)| >= cfg.quorum(n.height)
  {
  }

  /** ... or exactly when a quorum of validators left for that round. */
  lemma ChangeJumpsExactly(cfg: Config, n: Node, round: nat)
    requires VotesWf(cfg, n.store) && n.status.Running? && n.round < round <= MAX_ROUND
    ensures Enabled(cfg, n, JumpToRoundChanges(round)) <==>
              |ChangeSenders(cfg, n.store, View(n.height, round))| >= cfg.quorum(n.height)
  {
    ChangeJumpsCount(cfg, n, round);
    ChangesCount(cfg, n, round);
  }

  lemma JumpOutcome(cfg: Config, n: Node, a: Action)
    requires LocalInv(cfg, n) && Enabled(cfg, n, a) && (a.JumpToProposal? || a.JumpToRoundChanges?)
    ensures Step(cfg, n, a) == n.(store := Step(cfg, n, a).store, round := a.round, phase := AwaitProposal)
  {
  }

  lemma ValidsAre(cfg: Config, n: Node)
    requires VotesWf(cfg, n.store)
    ensures var view := n.Current();
            var here := At(VerifiedRoundChanges(cfg, n, n.round).roundChanges, view);
            var valids := Valids(cfg, n.store, view);
            here.Keys == valids.Keys && forall slot :: slot in here ==> here[slot].message == valids[slot].message
  {
    forall slot: Slot {
      VerifiedEntry(cfg, n, n.round, slot);
    }
  }

  /** What is built does not depend on flags. */
  lemma SameMessages(here: map<Slot, RoundChangeEntry>, here': map<Slot, RoundChangeEntry>, view: View,
                     built: Option<RawBlock>)
    requires here.Keys == here'.Keys && forall slot :: slot in here ==> here[slot].message == here'[slot].message
    ensures NonePrepared(here) <==> NonePrepared(here')
    ensures forall p :: BuiltOn(p, view, here', built) ==> BuiltOn(p, view, here, built)
  {
    assert |here| == |here.Keys| == |here'.Keys| == |here'|;
  }
}

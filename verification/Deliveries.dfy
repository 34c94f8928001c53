/**
 Nothing is lost.  In every run a message that a node stored early is still there, and counts, when the node comes to
 its round, whatever happened in between: timeouts, jumps, pruning, other rounds, other messages.  A message of a
 validator that follows the code is always let in.
 */
module Deliveries {
  import opened Types
  import opened Configuration
  import opened Verification
  import opened Stores
  import opened Nodes
  import opened NodeInvariant
  import opened Systems
  import opened SystemSteps
  import opened Effects

  // ---------- one node in a run ----------

  /** Between two states of a run a node stays as it is or takes a step. */
  lemma NodeMoves(cfg: Config, states: seq<State>, events: seq<Event>, k: nat, i: Address)
    requires IsRun(cfg, states, events) && k < |events| && i in states[k].nodes
    ensures i in states[k + 1].nodes && states[k + 1].height == states[k].height
    ensures NodeInv(cfg, states[k], i) && NodeInv(cfg, states[k + 1], i)
    ensures var n, n', e := states[k].nodes[i], states[k + 1].nodes[i], events[k];
            if e.node == i then Enabled(cfg, n, e.action) && n' == Step(cfg, n, e.action) else n' == n
  {
    RunKeeps(cfg, states, events, k);
    RunKeeps(cfg, states, events, k + 1);
    assert StepsAt(cfg, states, events, k);
  }

  // ---------- on the way to a round ----------

  /** Not past the wait for prepares of this digest in round r. */
  predicate BeforePrepares(n: Node, r: nat, digest: Digest) {
    && n.status.Running?
    && (n.round < r || (n.round == r && (n.phase.AwaitProposal? || n.phase.ProposalSent? || n.phase.PrepareSent?
                                         || n.phase == AwaitPrepares(digest))))
  }

  /** Not past the wait for commits of this digest in round r. */
  predicate BeforeCommits(n: Node, r: nat, digest: Digest) {
    && n.status.Running?
    && (n.round < r || (n.round == r && !n.phase.Sealed? && !n.phase.Failed?
                        && (n.phase.AwaitCommits? ==> n.phase.digest == digest)))
  }

  /** Not past the wait for round changes of round r. */
  predicate BeforeChanges(n: Node, r: nat) {
    n.status.Running? && (n.round < r || (n.round == r && n.phase.AwaitProposal?))
  }

  /** Not past round r. */
  predicate BeforeEnd(n: Node, r: nat) {
    n.status.Running? && n.round <= r
  }

  /** A node that has not come so far after a step had not before. */
  lemma WasBefore(cfg: Config, n: Node, a: Action, r: nat, digest: Digest)
    requires Enabled(cfg, n, a)
    ensures BeforePrepares(Step(cfg, n, a), r, digest) ==> BeforePrepares(n, r, digest)
    ensures BeforeCommits(Step(cfg, n, a), r, digest) ==> BeforeCommits(n, r, digest)
    ensures BeforeChanges(Step(cfg, n, a), r) ==> BeforeChanges(n, r)
    ensures BeforeEnd(Step(cfg, n, a), r) ==> BeforeEnd(n, r)
  {
  }

  // ---------- one step keeps what is on the way ----------

  lemma StepKeepsPrepare(cfg: Config, n: Node, a: Action, slot: Slot)
    requires LocalInv(cfg, n) && Enabled(cfg, n, a) && slot in n.store.prepares && slot.view.height == n.height
    requires BeforePrepares(Step(cfg, n, a), slot.view.round, n.store.prepares[slot].digest)
    ensures slot in Step(cfg, n, a).store.prepares && Step(cfg, n, a).store.prepares[slot] == n.store.prepares[slot]
  {
    WasBefore(cfg, n, a, slot.view.round, n.store.prepares[slot].digest);
    PrepareAfter(cfg, n, a, slot);
    if a.Timeout? {
      var _ := TimeoutOutcome(cfg, n, a.order);
    }
  }

  lemma StepKeepsCommit(cfg: Config, n: Node, a: Action, slot: Slot)
    requires LocalInv(cfg, n) && Enabled(cfg, n, a) && slot in n.store.commits && slot.view.height == n.height
    requires BeforeCommits(Step(cfg, n, a), slot.view.round, n.store.commits[slot].digest)
    ensures slot in Step(cfg, n, a).store.commits && Step(cfg, n, a).store.commits[slot] == n.store.commits[slot]
  {
    WasBefore(cfg, n, a, slot.view.round, n.store.commits[slot].digest);
    CommitAfter(cfg, n, a, slot);
    if a.CheckCommits? {
      CheckCommitsOutcome(cfg, n, a.order);
    }
  }

  lemma StepKeepsChange(cfg: Config, n: Node, a: Action, slot: Slot)
    requires LocalInv(cfg, n) && Enabled(cfg, n, a) && slot in n.store.roundChanges && slot.view.height == n.height
    requires ValidRoundChange(cfg, n.store.roundChanges[slot].message, n.height)
    requires BeforeChanges(Step(cfg, n, a), slot.view.round)
    ensures slot in Step(cfg, n, a).store.roundChanges
    ensures Step(cfg, n, a).store.roundChanges[slot].message == n.store.roundChanges[slot].message
  {
    ChangeAfter(cfg, n, a, slot);
    if a.CollectRoundChanges? {
      CollectOutcome(cfg, n, a.order, a.built);
    }
  }

  lemma StepKeepsProposal(cfg: Config, n: Node, a: Action, view: View)
    requires LocalInv(cfg, n) && Enabled(cfg, n, a) && ProposalAt(n.store, view).Some? && view.height == n.height
    requires BeforeEnd(Step(cfg, n, a), view.round)
    ensures ProposalAt(Step(cfg, n, a).store, view) == ProposalAt(n.store, view)
  {
    ProposalAfter(cfg, n, a, view);
    if a.Timeout? {
      var _ := TimeoutOutcome(cfg, n, a.order);
    } else if a.Finish? {
      FinishOutcome(cfg, n);
    }
  }

  // ---------- over whole runs ----------

  /** Who takes part does not change. */
  lemma {:induction false} MembersStay(cfg: Config, states: seq<State>, events: seq<Event>, j: nat, k: nat)
    requires IsRun(cfg, states, events) && j <= k < |states|
    ensures states[k].nodes.Keys == states[j].nodes.Keys && states[k].height == states[j].height
    decreases k
  {
    if j < k {
      MembersStay(cfg, states, events, j, k - 1);
      assert StepsAt(cfg, states, events, k - 1);
    }
  }

  /** An early prepare is there when the node counts the prepares of its round. */
  lemma {:induction false} PrepareStays(cfg: Config, states: seq<State>, events: seq<Event>, j: nat, k: nat,
                                        i: Address, slot: Slot)
    requires IsRun(cfg, states, events) && j <= k < |states| && i in states[j].nodes && i in states[k].nodes
    requires slot in states[j].nodes[i].store.prepares && slot.view.height == states[j].height
    requires BeforePrepares(states[k].nodes[i], slot.view.round, states[j].nodes[i].store.prepares[slot].digest)
    ensures slot in states[k].nodes[i].store.prepares
    ensures states[k].nodes[i].store.prepares[slot] == states[j].nodes[i].store.prepares[slot]
    decreases k
  {
    if j < k {
      MembersStay(cfg, states, events, j, k - 1);
      NodeMoves(cfg, states, events, k - 1, i);
      var n := states[k - 1].nodes[i];
      if events[k - 1].node == i {
        WasBefore(cfg, n, events[k - 1].action, slot.view.round, states[j].nodes[i].store.prepares[slot].digest);
      }
      PrepareStays(cfg, states, events, j, k - 1, i, slot);
      if events[k - 1].node == i {
        StepKeepsPrepare(cfg, n, events[k - 1].action, slot);
      }
    }
  }

  /** An early commit is there when the node counts the commits of its round. */
  lemma {:induction false} CommitStays(cfg: Config, states: seq<State>, events: seq<Event>, j: nat, k: nat,
                                        i: Address, slot: Slot)
    requires IsRun(cfg, states, events) && j <= k < |states| && i in states[j].nodes && i in states[k].nodes
    requires slot in states[j].nodes[i].store.commits && slot.view.height == states[j].height
    requires BeforeCommits(states[k].nodes[i], slot.view.round, states[j].nodes[i].store.commits[slot].digest)
    ensures slot in states[k].nodes[i].store.commits
    ensures states[k].nodes[i].store.commits[slot] == states[j].nodes[i].store.commits[slot]
    decreases k
  {
    if j < k {
      MembersStay(cfg, states, events, j, k - 1);
      NodeMoves(cfg, states, events, k - 1, i);
      var n := states[k - 1].nodes[i];
      if events[k - 1].node == i {
        WasBefore(cfg, n, events[k - 1].action, slot.view.round, states[j].nodes[i].store.commits[slot].digest);
      }
      CommitStays(cfg, states, events, j, k - 1, i, slot);
      if events[k - 1].node == i {
        StepKeepsCommit(cfg, n, events[k - 1].action, slot);
      }
    }
  }

  /** An early round change that verifies is there when the node collects those of its round, or could jump to it. */
  lemma {:induction false} ChangeStays(cfg: Config, states: seq<State>, events: seq<Event>, j: nat, k: nat,
                                        i: Address, slot: Slot)
    requires IsRun(cfg, states, events) && j <= k < |states| && i in states[j].nodes && i in states[k].nodes
    requires slot in states[j].nodes[i].store.roundChanges && slot.view.height == states[j].height
    requires ValidRoundChange(cfg, states[j].nodes[i].store.roundChanges[slot].message, states[j].height)
    requires BeforeChanges(states[k].nodes[i], slot.view.round)
    ensures slot in states[k].nodes[i].store.roundChanges
    ensures states[k].nodes[i].store.roundChanges[slot].message ==
              states[j].nodes[i].store.roundChanges[slot].message
    decreases k
  {
    if j < k {
      MembersStay(cfg, states, events, j, k - 1);
      NodeMoves(cfg, states, events, k - 1, i);
      var n := states[k - 1].nodes[i];
      if events[k - 1].node == i {
        WasBefore(cfg, n, events[k - 1].action, slot.view.round, UnknownDigest(0));
      }
      ChangeStays(cfg, states, events, j, k - 1, i, slot);
      if events[k - 1].node == i {
        StepKeepsChange(cfg, n, events[k - 1].action, slot);
      }
    }
  }

  /** An early proposal is there until its round is over. */
  lemma {:induction false} ProposalStays(cfg: Config, states: seq<State>, events: seq<Event>, j: nat, k: nat,
                                         i: Address, view: View)
    requires IsRun(cfg, states, events) && j <= k < |states| && i in states[j].nodes && i in states[k].nodes
    requires ProposalAt(states[j].nodes[i].store, view).Some? && view.height == states[j].height
    requires BeforeEnd(states[k].nodes[i], view.round)
    ensures ProposalAt(states[k].nodes[i].store, view) == ProposalAt(states[j].nodes[i].store, view)
    decreases k
  {
    if j < k {
      MembersStay(cfg, states, events, j, k - 1);
      NodeMoves(cfg, states, events, k - 1, i);
      var n := states[k - 1].nodes[i];
      if events[k - 1].node == i {
        WasBefore(cfg, n, events[k - 1].action, view.round, UnknownDigest(0));
      }
      ProposalStays(cfg, states, events, j, k - 1, i, view);
      if events[k - 1].node == i {
        StepKeepsProposal(cfg, n, events[k - 1].action, view);
      }
    }
  }

  // ---------- votes of validators that follow the code ----------

  /** Before event k, node i was handed this message of another validator. */
  ghost predicate Heard(events: seq<Event>, k: nat, i: Address, message: Received)
    requires k <= |events|
  {
    exists j :: 0 <= j < k && events[j] == Event(i, Deliver(message))
  }

  /** What is stored and what was signed, as far as votes go. */
  ghost predicate VotesTrue(cfg: Config, s: State, n: Node, signer: Node) {
    VotesWf(cfg, n.store) && StoreKnown(s, n.store) && VotesOnce(signer) && signer.height == s.height
  }

  lemma InvVotesTrue(cfg: Config, s: State, i: Address, a: Address)
    requires Inv(cfg, s) && i in s.nodes && a in s.nodes
    ensures VotesTrue(cfg, s, s.nodes[i], s.nodes[a])
  {
    assert NodeInv(cfg, s, i) && NodeInv(cfg, s, a);
  }

  /** A prepare stored under the name of an honest validator is its one prepare of the view. */
  lemma StoredPrepareIsTheVote(cfg: Config, s: State, n: Node, a: Address, view: View, digest: Digest)
    requires a in s.nodes && VotesTrue(cfg, s, n, s.nodes[a]) && view.height == s.height
    requires Slot(view, a) in n.store.prepares && PrepareDigest(view, digest) in s.nodes[a].signed
    ensures n.store.prepares[Slot(view, a)].digest == digest
  {
    var slot := Slot(view, a);
    assert PrepareChecked(cfg, slot, n.store.prepares[slot]) && Known(s, n.store.prepares[slot].signature);
    assert SameVote(PrepareDigest(view, digest), PrepareDigest(view, n.store.prepares[slot].digest));
  }

  lemma StoredCommitIsTheVote(cfg: Config, s: State, n: Node, a: Address, view: View, digest: Digest)
    requires a in s.nodes && VotesTrue(cfg, s, n, s.nodes[a]) && view.height == s.height
    requires Slot(view, a) in n.store.commits && CommitDigest(view, digest, Signature(a, digest)) in s.nodes[a].signed
    ensures n.store.commits[Slot(view, a)].digest == digest
  {
    var slot := Slot(view, a);
    var commit := n.store.commits[slot];
    assert CommitChecked(cfg, slot, commit) && Known(s, commit.signature);
    assert SameVote(CommitDigest(view, digest, Signature(a, digest)), CommitDigest(view, commit.digest, commit.seal));
  }

  /** No honest vote of the height is refused by a peer. */
  lemma HonestVotesAreWelcome(cfg: Config, s: State, i: Address, a: Address, message: Received)
    requires Inv(cfg, s) && i in s.nodes && a in s.nodes && a != i && KnownMessage(s, message)
    requires message.Signer() == Some(a) && message.View().height == s.height && message.View().round <= MAX_ROUND
    requires message.GotPrepare? || (message.GotCommit? && message.commit.SealSigner() == Some(a))
    ensures Welcome(cfg, s.nodes[i].self, s.nodes[i].finalized, message)
  {
    assert NodeInv(cfg, s, i) && NodeInv(cfg, s, a);
    if message.GotPrepare? {
      var d := PrepareDigest(message.prepare.view, message.prepare.digest);
      assert d in s.nodes[a].signed && VoteInTime(cfg, s.nodes[a], d);
    }
  }

  /** A prepare of an honest validator is let in, whatever came before it. */
  lemma HonestPrepareIsStored(cfg: Config, states: seq<State>, events: seq<Event>, j: nat, i: Address, m: PrepareMsg,
                              a: Address)
    requires IsRun(cfg, states, events) && j < |events| && i in states[j].nodes && a in states[j].nodes && a != i
    requires events[j] == Event(i, Deliver(GotPrepare(m))) && m.Signer() == Some(a)
    requires m.view.height == states[j].height && m.view.round <= MAX_ROUND
    ensures i in states[j + 1].nodes
    ensures var st, slot := states[j + 1].nodes[i].store, Slot(m.view, a);
            slot in st.prepares && st.prepares[slot].digest == m.digest
  {
    var n := states[j].nodes[i];
    NodeMoves(cfg, states, events, j, i);
    RunKeeps(cfg, states, events, j);
    assert StepsAt(cfg, states, events, j);
    HonestVotesAreWelcome(cfg, states[j], i, a, GotPrepare(m));
    DeliveryFollows(cfg, n, GotPrepare(m), Slot(m.view, a));
    if Slot(m.view, a) in n.store.prepares {
      InvVotesTrue(cfg, states[j], i, a);
      StoredPrepareIsTheVote(cfg, states[j], n, a, m.view, m.digest);
    }
  }

  lemma HonestCommitIsStored(cfg: Config, states: seq<State>, events: seq<Event>, j: nat, i: Address, m: CommitMsg,
                             a: Address)
    requires IsRun(cfg, states, events) && j < |events| && i in states[j].nodes && a in states[j].nodes && a != i
    requires events[j] == Event(i, Deliver(GotCommit(m))) && m.Signer() == Some(a) && m.SealSigner() == Some(a)
    requires m.view.height == states[j].height && m.view.round <= MAX_ROUND
    ensures i in states[j + 1].nodes
    ensures var st, slot := states[j + 1].nodes[i].store, Slot(m.view, a);
            slot in st.commits && st.commits[slot].digest == m.digest
  {
    var n := states[j].nodes[i];
    NodeMoves(cfg, states, events, j, i);
    RunKeeps(cfg, states, events, j);
    assert StepsAt(cfg, states, events, j);
    HonestVotesAreWelcome(cfg, states[j], i, a, GotCommit(m));
    DeliveryFollows(cfg, n, GotCommit(m), Slot(m.view, a));
    if Slot(m.view, a) in n.store.commits {
      InvVotesTrue(cfg, states[j], i, a);
      StoredCommitIsTheVote(cfg, states[j], n, a, m.view, m.digest);
    }
  }

  /** However early it came, an honest prepare counts when its round waits for prepares. */
  lemma HeardPrepareCounts(cfg: Config, states: seq<State>, events: seq<Event>, k: nat, i: Address, m: PrepareMsg,
                           a: Address)
    requires IsRun(cfg, states, events) && k < |states| && i in states[k].nodes && a in states[k].nodes && a != i
    requires Heard(events, k, i, GotPrepare(m)) && m.Signer() == Some(a)
    requires var n := states[k].nodes[i];
             n.status.Running? && n.phase == AwaitPrepares(m.digest) && m.view == n.Current()
    ensures a in PrepareSenders(states[k].nodes[i].store, m.view, m.digest)
  {
    var j :| 0 <= j < k && events[j] == Event(i, Deliver(GotPrepare(m)));
    MembersStay(cfg, states, events, j, k);
    MembersStay(cfg, states, events, j + 1, k);
    RunKeeps(cfg, states, events, k);
    assert NodeInv(cfg, states[k], i);
    HonestPrepareIsStored(cfg, states, events, j, i, m, a);
    PrepareStays(cfg, states, events, j + 1, k, i, Slot(m.view, a));
    assert Slot(m.view, a) in states[k].nodes[i].store.prepares;
  }

  lemma HeardCommitCounts(cfg: Config, states: seq<State>, events: seq<Event>, k: nat, i: Address, m: CommitMsg,
                          a: Address)
    requires IsRun(cfg, states, events) && k < |states| && i in states[k].nodes && a in states[k].nodes && a != i
    requires Heard(events, k, i, GotCommit(m)) && m.Signer() == Some(a) && m.SealSigner() == Some(a)
    requires var n := states[k].nodes[i];
             n.status.Running? && n.phase == AwaitCommits(m.digest) && m.view == n.Current()
    ensures a in CommitSenders(states[k].nodes[i].store, m.view, m.digest)
  {
    var j :| 0 <= j < k && events[j] == Event(i, Deliver(GotCommit(m)));
    MembersStay(cfg, states, events, j, k);
    MembersStay(cfg, states, events, j + 1, k);
    RunKeeps(cfg, states, events, k);
    assert NodeInv(cfg, states[k], i);
    HonestCommitIsStored(cfg, states, events, j, i, m, a);
    CommitStays(cfg, states, events, j + 1, k, i, Slot(m.view, a));
    assert Slot(m.view, a) in states[k].nodes[i].store.commits;
  }

  // ---------- own votes ----------

  /** How a node comes to wait for prepares and for commits, and that it then waits for the same. */
  lemma WaitsForVotes(cfg: Config, n: Node, a: Action)
    requires Enabled(cfg, n, a)
    ensures var n' := Step(cfg, n, a);
            n'.phase.AwaitPrepares? ==>
              || (n.phase == n'.phase && n'.round == n.round) || (a.StoreProposal? && n'.round == n.round)
              || (a.StorePrepare? && n'.round == n.round && n'.phase.digest == n.phase.prepare.digest)
    ensures var n' := Step(cfg, n, a);
            n'.phase.AwaitCommits? ==>
              || (n.phase == n'.phase && n'.round == n.round)
              || (a.StoreCommit? && n'.round == n.round && n'.phase.digest == n.phase.commit.digest)
    ensures Step(cfg, n, a).self == n.self && Step(cfg, n, a).height == n.height
  {
  }

  /** The own prepare is stored under its own name, for the digest it was cast for. */
  lemma OwnPrepareStored(cfg: Config, s: State, i: Address)
    requires i in s.nodes && NodeInv(cfg, s, i) && Enabled(cfg, s.nodes[i], StorePrepare)
    ensures var m, n' := s.nodes[i].phase.prepare, Step(cfg, s.nodes[i], StorePrepare);
            i in PrepareSenders(n'.store, s.nodes[i].Current(), m.digest)
  {
    var n := s.nodes[i];
    var m, slot := n.phase.prepare, Slot(n.Current(), i);
    assert PhaseWf(cfg, n) && Known(s, m.signature);
    VotingFollows(cfg, n, StorePrepare, slot);
    if slot in n.store.prepares {
      StoredPrepareIsTheVote(cfg, s, n, i, n.Current(), m.digest);
    }
    assert slot in Step(cfg, n, StorePrepare).store.prepares;
  }

  lemma OwnCommitStored(cfg: Config, s: State, i: Address)
    requires i in s.nodes && NodeInv(cfg, s, i) && Enabled(cfg, s.nodes[i], StoreCommit)
    ensures var m, n' := s.nodes[i].phase.commit, Step(cfg, s.nodes[i], StoreCommit);
            i in CommitSenders(n'.store, s.nodes[i].Current(), m.digest)
  {
    var n := s.nodes[i];
    var m, slot := n.phase.commit, Slot(n.Current(), i);
    assert PhaseWf(cfg, n) && Known(s, m.signature);
    VotingFollows(cfg, n, StoreCommit, slot);
    if slot in n.store.commits {
      StoredCommitIsTheVote(cfg, s, n, i, n.Current(), m.digest);
    }
    assert slot in Step(cfg, n, StoreCommit).store.commits;
  }

  lemma ProposerStores(cfg: Config, n: Node)
    requires TaskInv(cfg, n) && Enabled(cfg, n, StoreProposal)
    ensures cfg.proposer(n.Current()) == n.self
  {
  }

  /** A follower that waits for prepares counts its own. */
  lemma {:induction false} OwnPrepareCounts(cfg: Config, states: seq<State>, events: seq<Event>, k: nat, i: Address)
    requires IsRun(cfg, states, events) && k < |states| && i in states[k].nodes
    requires var n := states[k].nodes[i];
             n.status.Running? && n.phase.AwaitPrepares? && cfg.proposer(n.Current()) != i
    ensures var n := states[k].nodes[i]; i in PrepareSenders(n.store, n.Current(), n.phase.digest)
    decreases k
  {
    if k > 0 {
      MembersStay(cfg, states, events, k - 1, k);
      NodeMoves(cfg, states, events, k - 1, i);
      var n, a := states[k - 1].nodes[i], events[k - 1].action;
      if events[k - 1].node != i {
        OwnPrepareCounts(cfg, states, events, k - 1, i);
      } else {
        WaitsForVotes(cfg, n, a);
        if a.StorePrepare? {
          OwnPrepareStored(cfg, states[k - 1], i);
        } else {
          if a.StoreProposal? {
            ProposerStores(cfg, n);
          }
          OwnPrepareCounts(cfg, states, events, k - 1, i);
          StepKeepsPrepare(cfg, n, a, Slot(n.Current(), i));
        }
      }
    }
  }

  /** Whoever waits for commits counts its own. */
  lemma {:induction false} OwnCommitCounts(cfg: Config, states: seq<State>, events: seq<Event>, k: nat, i: Address)
    requires IsRun(cfg, states, events) && k < |states| && i in states[k].nodes
    requires states[k].nodes[i].status.Running? && states[k].nodes[i].phase.AwaitCommits?
    ensures var n := states[k].nodes[i]; i in CommitSenders(n.store, n.Current(), n.phase.digest)
    decreases k
  {
    if k > 0 {
      MembersStay(cfg, states, events, k - 1, k);
      NodeMoves(cfg, states, events, k - 1, i);
      var n, a := states[k - 1].nodes[i], events[k - 1].action;
      if events[k - 1].node != i {
        OwnCommitCounts(cfg, states, events, k - 1, i);
      } else {
        WaitsForVotes(cfg, n, a);
        if a.StoreCommit? {
          OwnCommitStored(cfg, states[k - 1], i);
        } else {
          OwnCommitCounts(cfg, states, events, k - 1, i);
          StepKeepsCommit(cfg, n, a, Slot(n.Current(), i));
        }
      }
    }
  }

  // ---------- quorums that were heard are acted on ----------

  /** Node i cast it itself, or was handed the prepare of an honest validator before event k. */
  ghost predicate HasPrepareOf(cfg: Config, s: State, events: seq<Event>, k: nat, i: Address, a: Address, view: View,
                               digest: Digest)
    requires k <= |events|
  {
    if a == i then cfg.proposer(view) != i
    else a in s.nodes && exists m: PrepareMsg ::
      Heard(events, k, i, GotPrepare(m)) && m.Signer() == Some(a) && m.view == view && m.digest == digest
  }

  ghost predicate HasCommitOf(s: State, events: seq<Event>, k: nat, i: Address, a: Address, view: View, digest: Digest)
    requires k <= |events|
  {
    a != i ==> a in s.nodes && exists m: CommitMsg ::
      Heard(events, k, i, GotCommit(m)) && m.Signer() == Some(a) && m.SealSigner() == Some(a)
      && m.view == view && m.digest == digest
  }

  /** With `quorum - 1` honest prepares heard, however early and in whatever order, the next recount commits. */
  lemma HeardQuorumCommits(cfg: Config, states: seq<State>, events: seq<Event>, k: nat, i: Address, who: set<Address>)
    requires IsRun(cfg, states, events) && k < |states| && i in states[k].nodes
    requires var n := states[k].nodes[i];
             && n.status.Running? && n.phase.AwaitPrepares? && |who| + 1 >= cfg.quorum(n.height)
             && forall a :: a in who ==> HasPrepareOf(cfg, states[k], events, k, i, a, n.Current(), n.phase.digest)
    ensures var n := states[k].nodes[i];
            Step(cfg, n, CheckPrepares).phase == CommitSent(NewCommit(n.Current(), n.phase.digest, n.self))
  {
    var n := states[k].nodes[i];
    var senders := PrepareSenders(n.store, n.Current(), n.phase.digest);
    forall a | a in who ensures a in senders {
      assert HasPrepareOf(cfg, states[k], events, k, i, a, n.Current(), n.phase.digest);
      if a == i {
        OwnPrepareCounts(cfg, states, events, k, i);
      } else {
        var m: PrepareMsg :| Heard(events, k, i, GotPrepare(m)) && m.Signer() == Some(a) && m.view == n.Current()
                             && m.digest == n.phase.digest;
        HeardPrepareCounts(cfg, states, events, k, i, m, a);
      }
    }
    SubsetSize(who, senders);
    CheckPreparesOutcome(cfg, n);
  }

  /** With a quorum of honest commits heard, the next take seals the round. */
  lemma HeardQuorumSeals(cfg: Config, states: seq<State>, events: seq<Event>, k: nat, i: Address, who: set<Address>,
                         order: seq<Slot>)
    requires IsRun(cfg, states, events) && k < |states| && i in states[k].nodes
    requires var n := states[k].nodes[i];
             && n.status.Running? && n.phase.AwaitCommits? && |who| >= cfg.quorum(n.height)
             && Enabled(cfg, n, CheckCommits(order))
             && forall a :: a in who ==> HasCommitOf(states[k], events, k, i, a, n.Current(), n.phase.digest)
    ensures Step(cfg, states[k].nodes[i], CheckCommits(order)).phase.Sealed?
  {
    var n := states[k].nodes[i];
    var senders := CommitSenders(n.store, n.Current(), n.phase.digest);
    forall a | a in who ensures a in senders {
      assert HasCommitOf(states[k], events, k, i, a, n.Current(), n.phase.digest);
      if a == i {
        OwnCommitCounts(cfg, states, events, k, i);
      } else {
        var m: CommitMsg :| Heard(events, k, i, GotCommit(m)) && m.Signer() == Some(a) && m.SealSigner() == Some(a)
                            && m.view == n.Current() && m.digest == n.phase.digest;
        HeardCommitCounts(cfg, states, events, k, i, m, a);
      }
    }
    SubsetSize(who, senders);
    CheckCommitsOutcome(cfg, n, order);
  }

  // ---------- proposals and round changes ----------

  /** An acceptable proposal of a later round lets the node jump there, until it comes to that round otherwise. */
  lemma StoredProposalJumps(cfg: Config, states: seq<State>, events: seq<Event>, j: nat, k: nat, i: Address,
                            round: nat)
    requires IsRun(cfg, states, events) && j <= k < |states| && i in states[j].nodes && i in states[k].nodes
    requires var p := ProposalAt(states[j].nodes[i].store, View(states[j].height, round));
             p.Some? && Acceptable(cfg, p.value)
    requires states[k].nodes[i].status.Running? && states[k].nodes[i].round < round <= MAX_ROUND
    ensures var n := states[k].nodes[i];
            && Enabled(cfg, n, JumpToProposal(round))
            && Step(cfg, n, JumpToProposal(round)).round == round
            && Step(cfg, n, JumpToProposal(round)).phase.AwaitProposal?
  {
    ProposalStays(cfg, states, events, j, k, i, View(states[j].height, round));
    MembersStay(cfg, states, events, j, k);
    RunKeeps(cfg, states, events, k);
    assert NodeInv(cfg, states[k], i);
    ProposalJumpsExactly(cfg, states[k].nodes[i], round);
    JumpOutcome(cfg, states[k].nodes[i], JumpToProposal(round));
  }

  /** A follower that comes to the round of a stored proposal prepares it exactly when it passes, and else gives up. */
  lemma StoredProposalIsAnswered(cfg: Config, states: seq<State>, events: seq<Event>, j: nat, k: nat, i: Address)
    requires IsRun(cfg, states, events) && j <= k < |states| && i in states[j].nodes && i in states[k].nodes
    requires Enabled(cfg, states[k].nodes[i], CheckProposal)
    requires ProposalAt(states[j].nodes[i].store, states[k].nodes[i].Current()).Some?
    ensures var n, p := states[k].nodes[i], ProposalAt(states[j].nodes[i].store, states[k].nodes[i].Current()).value;
            Step(cfg, n, CheckProposal).phase ==
              if Passes(cfg, p) then PrepareSent(NewPrepare(n.Current(), p.digest, i)) else Failed
  {
    MembersStay(cfg, states, events, j, k);
    RunKeeps(cfg, states, events, k);
    assert NodeInv(cfg, states[k], i);
    ProposalStays(cfg, states, events, j, k, i, states[k].nodes[i].Current());
    CheckProposalOutcome(cfg, states[k].nodes[i]);
  }

  /** Senders whose verified round change of the view node i had stored at some state up to k. */
  ghost predicate HadChangeOf(cfg: Config, states: seq<State>, k: nat, i: Address, a: Address, view: View)
    requires k < |states|
  {
    exists j :: 0 <= j <= k && HasChangeOf(cfg, states[j], i, a, view)
  }

  ghost predicate HasChangeOf(cfg: Config, s: State, i: Address, a: Address, view: View) {
    && i in s.nodes && Slot(view, a) in s.nodes[i].store.roundChanges
    && ValidRoundChange(cfg, s.nodes[i].store.roundChanges[Slot(view, a)].message, view.height)
  }

  lemma ChangesGathered(cfg: Config, states: seq<State>, events: seq<Event>, k: nat, i: Address, who: set<Address>,
                        round: nat)
    requires IsRun(cfg, states, events) && k < |states| && i in states[k].nodes
    requires BeforeChanges(states[k].nodes[i], round)
    requires forall a :: a in who ==> HadChangeOf(cfg, states, k, i, a, View(states[k].height, round))
    ensures |who| <= |ChangeSenders(cfg, states[k].nodes[i].store, View(states[k].height, round))|
  {
    var view := View(states[k].height, round);
    var senders := ChangeSenders(cfg, states[k].nodes[i].store, view);
    forall a | a in who ensures a in senders {
      assert HadChangeOf(cfg, states, k, i, a, view);
      var j :| 0 <= j <= k && HasChangeOf(cfg, states[j], i, a, view);
      MembersStay(cfg, states, events, j, k);
      ChangeStays(cfg, states, events, j, k, i, Slot(view, a));
      assert Slot(view, a) in states[k].nodes[i].store.roundChanges;
    }
    SubsetSize(who, senders);
  }

  /** A quorum of verified round changes, stored at whatever times, lets a node jump to their round. */
  lemma GatheredQuorumJumps(cfg: Config, states: seq<State>, events: seq<Event>, k: nat, i: Address,
                            who: set<Address>, round: nat)
    requires IsRun(cfg, states, events) && k < |states| && i in states[k].nodes
    requires states[k].nodes[i].status.Running? && states[k].nodes[i].round < round <= MAX_ROUND
    requires forall a :: a in who ==> HadChangeOf(cfg, states, k, i, a, View(states[k].height, round))
    requires |who| >= cfg.quorum(states[k].height)
    ensures Enabled(cfg, states[k].nodes[i], JumpToRoundChanges(round))
  {
    ChangesGathered(cfg, states, events, k, i, who, round);
    RunKeeps(cfg, states, events, k);
    assert NodeInv(cfg, states[k], i);
    ChangeJumpsExactly(cfg, states[k].nodes[i], round);
  }

  /** ... and lets the proposer of that round propose on them. */
  lemma GatheredQuorumProposes(cfg: Config, states: seq<State>, events: seq<Event>, k: nat, i: Address,
                               who: set<Address>, order: seq<Slot>, raw: RawBlock)
    requires IsRun(cfg, states, events) && k < |states| && i in states[k].nodes
    requires Enabled(cfg, states[k].nodes[i], CollectRoundChanges(order, Some(raw)))
    requires forall a :: a in who ==> HadChangeOf(cfg, states, k, i, a, states[k].nodes[i].Current())
    requires |who| >= cfg.quorum(states[k].height)
    ensures Step(cfg, states[k].nodes[i], CollectRoundChanges(order, Some(raw))).phase.ProposalSent?
  {
    RunKeeps(cfg, states, events, k);
    assert NodeInv(cfg, states[k], i);
    ChangesGathered(cfg, states, events, k, i, who, states[k].nodes[i].round);
    CollectOutcome(cfg, states[k].nodes[i], order, Some(raw));
  }
}

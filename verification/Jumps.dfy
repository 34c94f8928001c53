/** After a jump to a future round, what triggered the jump is still there when the new round asks for it. */
module Jumps {
  import opened Types
  import opened Configuration
  import opened Verification
  import opened Stores
  import opened Nodes
  import opened NodeInvariant
  import opened NodeRuns

  /** A verified proposal of the current round is stored. */
  predicate ProposalReady(n: Node) {
    && n.round >= 1
    && n.Current() in n.store.proposals1
    && n.store.proposals1[n.Current()].verdict == Some(Accept)
  }

  function Flagged(m: map<Slot, RoundChangeEntry>, view: View): map<Slot, RoundChangeEntry> {
    map slot | slot in m && slot.view == view && m[slot].verified :: m[slot]
  }

  /** A quorum of verified round changes of the current round is stored. */
  predicate QuorumReady(cfg: Config, n: Node) {
    |Flagged(n.store.roundChanges, n.Current())| >= cfg.quorum(n.height)
  }

  lemma JumpFindsProposal(cfg: Config, n: Node, round: nat)
    requires LocalInv(cfg, n) && Enabled(cfg, n, JumpToProposal(round))
    ensures ProposalReady(Step(cfg, n, JumpToProposal(round)))
    ensures cfg.proposer(View(n.height, round)) != n.self
  {
    assert ProposalAt(n.store, View(n.height, round)).Some?;
  }

  lemma JumpFindsQuorum(cfg: Config, n: Node, round: nat)
    requires Enabled(cfg, n, JumpToRoundChanges(round))
    ensures QuorumReady(cfg, Step(cfg, n, JumpToRoundChanges(round)))
  {
    var view := View(n.height, round);
    var st := VerifiedRoundChanges(cfg, n, round);
    var n' := Step(cfg, n, JumpToRoundChanges(round));
    SmallerMap(At(st.roundChanges, view), Flagged(n'.store.roundChanges, view));
  }

  /** The round task has not moved on yet. */
  predicate Waits(n: Node, n': Node) {
    n.phase.AwaitProposal? && n'.phase.AwaitProposal? && n'.round == n.round && n'.status.Running?
  }

  lemma ProposalStaysReady(cfg: Config, n: Node, a: Action)
    requires Enabled(cfg, n, a) && ProposalReady(n) && Waits(n, Step(cfg, n, a))
    ensures ProposalReady(Step(cfg, n, a))
  {
    var n' := Step(cfg, n, a);
    assert || a.Deliver? || a.Prune? || a.QueryProposal? || a.QueryRoundChanges? || a.CollectRoundChanges?
           || a.CheckProposal?;
  }

  /** The flagged round changes of the view are still there, still flagged. */
  ghost predicate KeepsFlagged(st: Store, st': Store, view: View) {
    forall slot :: slot in Flagged(st.roundChanges, view) ==> slot in Flagged(st'.roundChanges, view)
  }

  lemma DeliveryKeepsFlagged(cfg: Config, n: Node, message: Received)
    ensures KeepsFlagged(n.store, Handle(cfg, n.self, n.finalized, n.store, message), n.Current())
  {
  }

  lemma PruneKeepsFlagged(n: Node, part: Part, below: nat)
    requires below <= n.height
    ensures KeepsFlagged(n.store, PrunePart(n.store, part, below), n.Current())
  {
  }

  lemma FlagsStay(cfg: Config, n: Node, a: Action)
    requires Enabled(cfg, n, a) && Waits(n, Step(cfg, n, a))
    requires QuorumReady(cfg, n)
    ensures KeepsFlagged(n.store, Step(cfg, n, a).store, n.Current())
  {
    if a.CollectRoundChanges? {
      QuorumIsTaken(cfg, n, a.order, a.built);
    } else if a.Deliver? {
      DeliveryKeepsFlagged(cfg, n, a.message);
    } else if a.Prune? {
      PruneKeepsFlagged(n, a.part, a.below);
    } else {
      assert a.QueryProposal? || a.QueryRoundChanges? || a.CheckProposal?;
    }
  }

  lemma QuorumStaysReady(cfg: Config, n: Node, a: Action)
    requires Enabled(cfg, n, a) && QuorumReady(cfg, n) && Waits(n, Step(cfg, n, a))
    ensures QuorumReady(cfg, Step(cfg, n, a))
  {
    FlagsStay(cfg, n, a);
    SmallerMap(Flagged(n.store.roundChanges, n.Current()), Flagged(Step(cfg, n, a).store.roundChanges, n.Current()));
  }

  /** With a ready quorum `wait_rcc` does not wait: it proposes, or fails only because no block could be built. */
  lemma QuorumIsTaken(cfg: Config, n: Node, order: seq<Slot>, built: Option<RawBlock>)
    requires Enabled(cfg, n, CollectRoundChanges(order, built)) && QuorumReady(cfg, n)
    ensures var n' := StepCollect(cfg, n, order, built);
            n'.phase.ProposalSent? || (n'.phase.Failed? && built.None?)
  {
    var view := n.Current();
    var here := At(VerifiedRoundChanges(cfg, n, n.round).roundChanges, view);
    SmallerMap(Flagged(n.store.roundChanges, view), here);
  }

  /** With a ready proposal the first query answers with its digest. */
  lemma ProposalIsTaken(cfg: Config, n: Node)
    requires Enabled(cfg, n, CheckProposal) && ProposalReady(n)
    ensures StepCheckProposal(cfg, n).phase ==
              PrepareSent(NewPrepare(n.Current(), n.store.proposals1[n.Current()].proposal.digest, n.self))
  {
  }

  // ---------- over whole runs of a node ----------

  ghost predicate WaitsAt(nodes: seq<Node>, k: nat)
    requires k + 1 < |nodes|
  {
    Waits(nodes[k], nodes[k + 1])
  }

  /** The node has been waiting since position `from`. */
  ghost predicate WaitsSince(nodes: seq<Node>, from: nat, k: nat) {
    from <= k < |nodes| && forall j :: from <= j < k ==> WaitsAt(nodes, j)
  }

  lemma {:induction false} ProposalReadyUntilAsked(cfg: Config, nodes: seq<Node>, actions: seq<Action>, from: nat,
                                                   k: nat)
    requires IsNodeRun(cfg, nodes, actions) && WaitsSince(nodes, from, k) && ProposalReady(nodes[from])
    ensures ProposalReady(nodes[k])
    decreases k
  {
    if from < k {
      ProposalReadyUntilAsked(cfg, nodes, actions, from, k - 1);
      assert WaitsAt(nodes, k - 1) && NodeStepsAt(cfg, nodes, actions, k - 1);
      ProposalStaysReady(cfg, nodes[k - 1], actions[k - 1]);
    }
  }

  lemma {:induction false} QuorumReadyUntilAsked(cfg: Config, nodes: seq<Node>, actions: seq<Action>, from: nat, k: nat)
    requires IsNodeRun(cfg, nodes, actions) && WaitsSince(nodes, from, k) && QuorumReady(cfg, nodes[from])
    ensures QuorumReady(cfg, nodes[k])
    decreases k
  {
    if from < k {
      QuorumReadyUntilAsked(cfg, nodes, actions, from, k - 1);
      assert WaitsAt(nodes, k - 1) && NodeStepsAt(cfg, nodes, actions, k - 1);
      QuorumStaysReady(cfg, nodes[k - 1], actions[k - 1]);
    }
  }

  lemma PruneLeavesCurrent(n: Node, part: Part, below: nat)
    requires below <= n.height
    ensures ProposalAt(PrunePart(n.store, part, below), n.Current()) == ProposalAt(n.store, n.Current())
  {
  }

  lemma DeliveryLeavesCurrent(cfg: Config, n: Node, message: Received)
    requires ProposalAt(n.store, n.Current()).Some?
    ensures ProposalAt(Handle(cfg, n.self, n.finalized, n.store, message), n.Current()) ==
            ProposalAt(n.store, n.Current())
  {
  }

  /** Whatever proposal of the current round is stored stays stored while the node waits for one. */
  lemma StoredProposalStays(cfg: Config, n: Node, a: Action)
    requires Enabled(cfg, n, a) && Waits(n, Step(cfg, n, a)) && ProposalAt(n.store, n.Current()).Some?
    ensures ProposalAt(Step(cfg, n, a).store, n.Current()) == ProposalAt(n.store, n.Current())
  {
    if a.Prune? {
      PruneLeavesCurrent(n, a.part, a.below);
    } else if a.Deliver? {
      DeliveryLeavesCurrent(cfg, n, a.message);
    } else {
      assert a.QueryProposal? || a.QueryRoundChanges? || a.CollectRoundChanges? || a.CheckProposal?;
    }
  }

  /** So the query after a proposal notice finds it: its `expect` does not fire. */
  lemma {:induction false} QueryAfterNoticeAnswers(cfg: Config, nodes: seq<Node>, actions: seq<Action>, from: nat,
                                                   k: nat)
    requires IsNodeRun(cfg, nodes, actions) && WaitsSince(nodes, from, k)
    requires ProposalAt(nodes[from].store, nodes[from].Current()).Some?
    ensures nodes[k].Current() == nodes[from].Current()
    ensures ProposalAt(nodes[k].store, nodes[k].Current()) == ProposalAt(nodes[from].store, nodes[from].Current())
    ensures CachedProposal(cfg, nodes[k], nodes[k].Current()).0.Some?
    decreases k
  {
    if from < k {
      QueryAfterNoticeAnswers(cfg, nodes, actions, from, k - 1);
      assert WaitsAt(nodes, k - 1) && NodeStepsAt(cfg, nodes, actions, k - 1);
      StoredProposalStays(cfg, nodes[k - 1], actions[k - 1]);
      StepKeepsHeight(cfg, nodes[k - 1], actions[k - 1]);
    }
  }

  lemma StepKeepsHeight(cfg: Config, n: Node, a: Action)
    requires Enabled(cfg, n, a)
    ensures Step(cfg, n, a).height == n.height
  {
  }

  /** After a future-proposal jump the first query of the new round, however late, yields the verified digest. */
  lemma ProposalJumpLandsReady(cfg: Config, nodes: seq<Node>, actions: seq<Action>, j: nat, k: nat)
    requires IsNodeRun(cfg, nodes, actions) && j < k && WaitsSince(nodes, j + 1, k)
    requires LocalInv(cfg, nodes[j]) && actions[j].JumpToProposal?
    requires Enabled(cfg, nodes[k], CheckProposal)
    ensures StepCheckProposal(cfg, nodes[k]).phase.PrepareSent?
  {
    assert NodeStepsAt(cfg, nodes, actions, j);
    JumpFindsProposal(cfg, nodes[j], actions[j].round);
    ProposalReadyUntilAsked(cfg, nodes, actions, j + 1, k);
    ProposalIsTaken(cfg, nodes[k]);
  }

  /** After a future-RCC jump the proposer of the new round proposes at its first pass, however late. */
  lemma QuorumJumpLandsReady(cfg: Config, nodes: seq<Node>, actions: seq<Action>, j: nat, k: nat,
                             order: seq<Slot>, built: RawBlock)
    requires IsNodeRun(cfg, nodes, actions) && j < k && WaitsSince(nodes, j + 1, k)
    requires actions[j].JumpToRoundChanges?
    requires Enabled(cfg, nodes[k], CollectRoundChanges(order, Some(built)))
    ensures StepCollect(cfg, nodes[k], order, Some(built)).phase.ProposalSent?
  {
    assert NodeStepsAt(cfg, nodes, actions, j);
    JumpFindsQuorum(cfg, nodes[j], actions[j].round);
    QuorumReadyUntilAsked(cfg, nodes, actions, j + 1, k);
    QuorumIsTaken(cfg, nodes[k], order, Some(built));
  }
}

/** Over any run of a node, as long as a stored message survives, it is verified at most once. */
module Caching {
  import opened Types
  import opened Configuration
  import opened Stores
  import opened Nodes
  import opened NodeRuns
  import opened NodeInvariant
  import opened NodeSteps

  // ---------- which steps verify what ----------

  predicate AsksProposal(n: Node, a: Action, view: View) {
    match a
    case QueryProposal(round) => view == View(n.height, round)
    case JumpToProposal(round) => view == View(n.height, round)
    case CheckProposal => view == n.Current()
    case _ => false
  }

  /** The step runs the proposal verifier on the stored later-round proposal of this view. */
  predicate VerifiesProposal(n: Node, a: Action, view: View) {
    AsksProposal(n, a, view) && view in n.store.proposals1 && view.round >= 1 && n.store.proposals1[view].verdict.None?
  }

  predicate AsksChanges(n: Node, a: Action, view: View) {
    match a
    case QueryRoundChanges(round) => view == View(n.height, round)
    case JumpToRoundChanges(round) => view == View(n.height, round)
    case CollectRoundChanges(_, _) => view == n.Current()
    case _ => false
  }

  /** The step runs the round change verifier on this stored round change. */
  predicate VerifiesChange(n: Node, a: Action, slot: Slot) {
    AsksChanges(n, a, slot.view) && slot in n.store.roundChanges && !n.store.roundChanges[slot].verified
  }

  // ---------- one step ----------

  /** What was stored before and still is, is the same message with the same verdict. */
  ghost predicate SameEntries(st: Store, st': Store) {
    && (forall view :: view in st.proposals1 && view in st'.proposals1 ==> st'.proposals1[view] == st.proposals1[view])
    && (forall slot :: slot in st.roundChanges && slot in st'.roundChanges ==>
        st'.roundChanges[slot] == st.roundChanges[slot])
  }

  lemma EnterKeeps(cfg: Config, n: Node, st: Store, round: nat)
    requires SameEntries(st, n.store) && n.store.roundChanges == st.roundChanges
    ensures SameEntries(st, EnterRound(cfg, n, round).store)
  {
  }

  lemma ChangeKeepsEntries(cfg: Config, n: Node, st: Store, rc: RoundChangeMsg)
    requires SameEntries(n.store, st) && st.roundChanges == n.store.roundChanges
    ensures SameEntries(n.store, ChangeRound(cfg, n.(store := st), rc).store)
  {
    EnterKeeps(cfg, Sign(n.(store := st), RoundChangeDigest(rc.view, rc.Certificate())).(latest := Some(rc)), n.store,
        n.round + 1);
  }

  lemma TimeoutKeepsEntries(cfg: Config, n: Node, order: seq<Slot>)
    requires Enabled(cfg, n, Timeout(order))
    ensures SameEntries(n.store, StepTimeout(cfg, n, order).store)
  {
    if RunStateOf(n.phase).InCommit? {
      TimeoutInCommitKeepsEntries(cfg, n, order);
    } else {
      ChangeKeepsEntries(cfg, n, n.store,
        if n.latest.Some? then Resign(n.latest.value, n.round + 1, n.self)
        else NewRoundChange(View(n.height, n.round + 1), None, n.self));
    }
  }

  lemma TimeoutInCommitKeepsEntries(cfg: Config, n: Node, order: seq<Slot>)
    requires Enabled(cfg, n, Timeout(order)) && RunStateOf(n.phase).InCommit?
    ensures SameEntries(n.store, StepTimeout(cfg, n, order).store)
  {
    var proposal := ProposalAt(n.store, n.Current());
    if proposal.Some? {
      var here := MatchingPrepares(n, proposal.value.digest);
      ChangeKeepsEntries(cfg, n, LeftByTimeout(n),
        NewRoundChange(View(n.height, n.round + 1), Some(NewPreparedProposed(proposal.value, Values(order, here))),
            n.self));
    }
  }

  predicate Asks(a: Action) {
    || a.QueryProposal? || a.JumpToProposal? || a.CheckProposal?
    || a.QueryRoundChanges? || a.JumpToRoundChanges? || a.CollectRoundChanges?
  }

  /** Only questions touch verdicts. */
  lemma OthersKeepEntries(cfg: Config, n: Node, a: Action)
    requires Enabled(cfg, n, a) && !Asks(a)
    ensures SameEntries(n.store, Step(cfg, n, a).store)
  {
    if a.Timeout? {
      TimeoutKeepsEntries(cfg, n, a.order);
    }
  }

  /** A later-round proposal stays as it is and keeps its verdict; asked for, it has one. */
  ghost predicate VerdictKept(n: Node, a: Action, st: Store, view: View) {
    view in n.store.proposals1 && view in st.proposals1 ==>
      && st.proposals1[view].proposal == n.store.proposals1[view].proposal
      && (n.store.proposals1[view].verdict.Some? ==> st.proposals1[view].verdict == n.store.proposals1[view].verdict)
      && (VerifiesProposal(n, a, view) ==> st.proposals1[view].verdict.Some?)
  }

  ghost predicate FlagKept(n: Node, a: Action, st: Store, slot: Slot) {
    slot in n.store.roundChanges && slot in st.roundChanges ==>
      && st.roundChanges[slot].message == n.store.roundChanges[slot].message
      && (n.store.roundChanges[slot].verified ==> st.roundChanges[slot].verified)
      && (VerifiesChange(n, a, slot) ==> st.roundChanges[slot].verified)
  }

  lemma QuestionKeepsVerdicts(cfg: Config, n: Node, a: Action, view: View)
    requires Enabled(cfg, n, a) && Asks(a)
    ensures VerdictKept(n, a, Step(cfg, n, a).store, view)
  {
    if a.JumpToProposal? {
      EnterKeepsProposals(cfg, n.(store := CachedProposal(cfg, n, View(n.height, a.round)).1), a.round);
    } else if a.JumpToRoundChanges? {
      EnterKeepsProposals(cfg, n.(store := VerifiedRoundChanges(cfg, n, a.round)), a.round);
    }
  }

  lemma EnterKeepsProposals(cfg: Config, n: Node, round: nat)
    ensures EnterRound(cfg, n, round).store.proposals1 == n.store.proposals1
  {
  }

  /** The own round change is added only for the round it was made for, and jumps go further. */
  lemma JumpAddsNothing(cfg: Config, n: Node, round: nat)
    requires LatestWf(cfg, n) && n.round < round
    ensures EnterRound(cfg, n, round).store == n.store
  {
  }

  lemma CollectKeepsFlags(cfg: Config, n: Node, order: seq<Slot>, built: Option<RawBlock>, slot: Slot)
    requires Enabled(cfg, n, CollectRoundChanges(order, built))
    ensures FlagKept(n, CollectRoundChanges(order, built), StepCollect(cfg, n, order, built).store, slot)
  {
  }

  lemma QuestionKeepsFlags(cfg: Config, n: Node, a: Action, slot: Slot)
    requires LatestWf(cfg, n) && Enabled(cfg, n, a) && Asks(a)
    ensures FlagKept(n, a, Step(cfg, n, a).store, slot)
  {
    if a.CollectRoundChanges? {
      CollectKeepsFlags(cfg, n, a.order, a.built, slot);
    } else if a.JumpToProposal? {
      JumpAddsNothing(cfg, n.(store := CachedProposal(cfg, n, View(n.height, a.round)).1), a.round);
    } else if a.JumpToRoundChanges? {
      JumpAddsNothing(cfg, n.(store := VerifiedRoundChanges(cfg, n, a.round)), a.round);
    }
  }

  lemma ProposalStep(cfg: Config, n: Node, a: Action, view: View)
    requires Enabled(cfg, n, a)
    ensures VerdictKept(n, a, Step(cfg, n, a).store, view)
  {
    if Asks(a) {
      QuestionKeepsVerdicts(cfg, n, a, view);
    } else {
      OthersKeepEntries(cfg, n, a);
    }
  }

  lemma ChangeStep(cfg: Config, n: Node, a: Action, slot: Slot)
    requires LatestWf(cfg, n) && Enabled(cfg, n, a)
    ensures FlagKept(n, a, Step(cfg, n, a).store, slot)
  {
    if Asks(a) {
      QuestionKeepsFlags(cfg, n, a, slot);
    } else {
      OthersKeepEntries(cfg, n, a);
    }
  }

  // ---------- whole runs ----------

  lemma {:induction false} NodeRunKeeps(cfg: Config, nodes: seq<Node>, actions: seq<Action>, k: nat)
    requires IsNodeRun(cfg, nodes, actions) && k < |nodes| && LocalInv(cfg, nodes[0])
    ensures LocalInv(cfg, nodes[k])
    decreases k
  {
    if k > 0 {
      NodeRunKeeps(cfg, nodes, actions, k - 1);
      assert NodeStepsAt(cfg, nodes, actions, k - 1);
      StepKeeps(cfg, nodes[k - 1], actions[k - 1]);
    }
  }

  lemma ChangeStepAt(cfg: Config, nodes: seq<Node>, actions: seq<Action>, slot: Slot, k: nat)
    requires IsNodeRun(cfg, nodes, actions) && LocalInv(cfg, nodes[0]) && k < |actions|
    ensures FlagKept(nodes[k], actions[k], nodes[k + 1].store, slot)
  {
    NodeRunKeeps(cfg, nodes, actions, k);
    assert NodeStepsAt(cfg, nodes, actions, k);
    ChangeStep(cfg, nodes[k], actions[k], slot);
  }

  ghost predicate ProposalSurvives(nodes: seq<Node>, view: View, j: nat, k: nat) {
    j <= k < |nodes| && forall m :: j <= m <= k ==> view in nodes[m].store.proposals1
  }

  ghost predicate ChangeSurvives(nodes: seq<Node>, slot: Slot, j: nat, k: nat) {
    j <= k < |nodes| && forall m :: j <= m <= k ==> slot in nodes[m].store.roundChanges
  }

  lemma {:induction false} ProposalKept(cfg: Config, nodes: seq<Node>, actions: seq<Action>, view: View, j: nat, k: nat)
    requires IsNodeRun(cfg, nodes, actions) && ProposalSurvives(nodes, view, j, k)
    ensures var entry, entry' := nodes[j].store.proposals1[view], nodes[k].store.proposals1[view];
            entry'.proposal == entry.proposal && (entry.verdict.Some? ==> entry'.verdict == entry.verdict)
    decreases k
  {
    if j < k {
      ProposalKept(cfg, nodes, actions, view, j, k - 1);
      assert NodeStepsAt(cfg, nodes, actions, k - 1);
      ProposalStep(cfg, nodes[k - 1], actions[k - 1], view);
    }
  }

  lemma {:induction false} ChangeKept(cfg: Config, nodes: seq<Node>, actions: seq<Action>, slot: Slot, j: nat, k: nat)
    requires IsNodeRun(cfg, nodes, actions) && LocalInv(cfg, nodes[0]) && ChangeSurvives(nodes, slot, j, k)
    ensures var entry, entry' := nodes[j].store.roundChanges[slot], nodes[k].store.roundChanges[slot];
            entry'.message == entry.message && (entry.verified ==> entry'.verified)
    decreases k
  {
    if j < k {
      ChangeKept(cfg, nodes, actions, slot, j, k - 1);
      ChangeStepAt(cfg, nodes, actions, slot, k - 1);
    }
  }

  /** A surviving proposal that was verified once stays as it was, keeps its verdict and is never verified again. */
  lemma ProposalVerifiedOnce(cfg: Config, nodes: seq<Node>, actions: seq<Action>, view: View, j: nat, k: nat)
    requires IsNodeRun(cfg, nodes, actions) && j < k < |actions| && ProposalSurvives(nodes, view, j, k)
    requires VerifiesProposal(nodes[j], actions[j], view)
    ensures nodes[k].store.proposals1[view].proposal == nodes[j].store.proposals1[view].proposal
    ensures nodes[j + 1].store.proposals1[view].verdict.Some?
    ensures nodes[k].store.proposals1[view].verdict == nodes[j + 1].store.proposals1[view].verdict
    ensures !VerifiesProposal(nodes[k], actions[k], view)
  {
    assert NodeStepsAt(cfg, nodes, actions, j);
    ProposalStep(cfg, nodes[j], actions[j], view);
    ProposalKept(cfg, nodes, actions, view, j + 1, k);
  }

  /** The same for a round change, which is dropped at once when it does not verify. */
  lemma ChangeVerifiedOnce(cfg: Config, nodes: seq<Node>, actions: seq<Action>, slot: Slot, j: nat, k: nat)
    requires IsNodeRun(cfg, nodes, actions) && LocalInv(cfg, nodes[0])
    requires j < k < |actions| && ChangeSurvives(nodes, slot, j, k)
    requires VerifiesChange(nodes[j], actions[j], slot)
    ensures nodes[k].store.roundChanges[slot] == RoundChangeEntry(nodes[j].store.roundChanges[slot].message, true)
    ensures !VerifiesChange(nodes[k], actions[k], slot)
  {
    ChangeStepAt(cfg, nodes, actions, slot, j);
    ChangeKept(cfg, nodes, actions, slot, j + 1, k);
  }
}

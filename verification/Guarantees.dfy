/** What holds in every state of every run, whatever the network and the Byzantine validators do. */
module Guarantees {
  import opened Types
  import opened Configuration
  import opened Verification
  import opened Stores
  import opened Nodes
  import opened NodeInvariant
  import opened NodeSteps
  import opened Systems
  import opened SystemSteps

  lemma RunNode(cfg: Config, states: seq<State>, events: seq<Event>, k: nat, i: Address)
    requires IsRun(cfg, states, events) && k < |states| && i in states[k].nodes
    ensures LocalInv(cfg, states[k].nodes[i])
  {
    RunKeeps(cfg, states, events, k);
    assert NodeInv(cfg, states[k], i);
  }

  /** No `expect` or `assert` of the timeout and finish handlers ever fires. */
  lemma NeverPanics(cfg: Config, states: seq<State>, events: seq<Event>, k: nat, i: Address)
    requires IsRun(cfg, states, events) && k < |states| && i in states[k].nodes
    ensures !states[k].nodes[i].status.Panicked?
  {
    RunNode(cfg, states, events, k, i);
  }

  /** In the commit state the agreed proposal and `quorum - 1` matching prepares are still stored. */
  lemma CommitStateHolds(cfg: Config, states: seq<State>, events: seq<Event>, k: nat, i: Address)
    requires IsRun(cfg, states, events) && k < |states| && i in states[k].nodes
    requires var n := states[k].nodes[i]; n.status.Running? && RunStateOf(n.phase).InCommit?
    ensures var n := states[k].nodes[i]; Agreed(n, n.phase.digest) && Backed(cfg, n, n.phase.digest)
  {
    RunNode(cfg, states, events, k, i);
  }

  // ---------- round changes verify everywhere ----------

  /** Verification of a carried certificate survives any resigning to a later round. */
  lemma ResignedVerifies(cfg: Config, rc: RoundChangeMsg, height: nat, round: nat, signer: Address)
    requires ValidRoundChange(cfg, rc, height) && rc.view.round <= round
    ensures ValidRoundChange(cfg, Resign(rc, round, signer), height)
    ensures Resign(rc, round, signer).Certificate() == rc.Certificate()
  {
  }

  /** The round change a timeout in the commit state composes, and all its later resigned forms. */
  lemma TimeoutCertificateVerifies(cfg: Config, states: seq<State>, events: seq<Event>, k: nat, i: Address,
                                   order: seq<Slot>, round: nat)
    returns (rc: RoundChangeMsg)
    requires IsRun(cfg, states, events) && k < |states| && i in states[k].nodes
    requires var n := states[k].nodes[i];
             n.status.Running? && RunStateOf(n.phase).InCommit? && Enabled(cfg, n, Timeout(order)) && round > n.round
    ensures var n := states[k].nodes[i];
            && StepTimeout(cfg, n, order).latest == Some(rc)
            && rc.prepared.Some? && rc.prepared.value.certificate.proposal.view == n.Current()
            && (forall m :: m in rc.prepared.value.certificate.prepares ==>
                m.Signer() != Some(cfg.proposer(n.Current())))
            && ValidRoundChange(cfg, Resign(rc, round, i), n.height)
  {
    RunNode(cfg, states, events, k, i);
    var n := states[k].nodes[i];
    rc := TimeoutInCommitSends(cfg, n, order);
    ResignedVerifies(cfg, rc, n.height, round, i);
    var certificate := rc.prepared.value.certificate;
    forall m | m in certificate.prepares ensures m.Signer() != Some(cfg.proposer(n.Current())) {
      assert CountsFor(cfg, certificate, m);
    }
  }

  /** Whatever round change a node carries would pass every verifier. */
  lemma CarriedRoundChangeVerifies(cfg: Config, states: seq<State>, events: seq<Event>, k: nat, i: Address)
    requires IsRun(cfg, states, events) && k < |states| && i in states[k].nodes
    requires states[k].nodes[i].latest.Some?
    ensures ValidRoundChange(cfg, states[k].nodes[i].latest.value, states[k].nodes[i].height)
  {
    RunNode(cfg, states, events, k, i);
  }

  // ---------- finalization proofs ----------

  /** A finalized block carries its own proof: a quorum of seals over it by different validators. */
  lemma FinalizationProofStandsAlone(cfg: Config, states: seq<State>, events: seq<Event>, k: nat, i: Address)
    requires IsRun(cfg, states, events) && k < |states| && i in states[k].nodes
    requires states[k].nodes[i].status.Decided?
    ensures var block := states[k].nodes[i].status.block;
            SealsProve(cfg, states[k].nodes[i].height, BlockDigest(block.raw, block.round), block.seals)
  {
    RunNode(cfg, states, events, k, i);
  }

  // ---------- cached verdicts ----------

  /** Asking the caching store about a peer's proposal is asking the verifier. */
  lemma CachedAnswerIsPlain(cfg: Config, states: seq<State>, events: seq<Event>, k: nat, i: Address, view: View)
    requires IsRun(cfg, states, events) && k < |states| && i in states[k].nodes
    requires cfg.proposer(view) != i
    ensures var n := states[k].nodes[i];
            var p := ProposalAt(n.store, view);
            CachedProposal(cfg, n, view).0 ==
              if p.None? then None
              else if view.round == 0 then Some(CheckProposal0(cfg, p.value))
              else Some(CheckProposal1(cfg, p.value))
    ensures var n := states[k].nodes[i];
            var p := ProposalAt(n.store, view);
            CachedProposal(cfg, n, view).0 == Some(Accept) <==> p.Some? && Passes(cfg, p.value)
  {
    RunKeeps(cfg, states, events, k);
    assert NodeInv(cfg, states[k], i);
    var n := states[k].nodes[i];
    if CachedProposal(cfg, n, view).0.Some? {
      AcceptedIsVerified(cfg, n, view);
    }
  }

  /** Filtering with flags keeps exactly the round changes that verify. */
  lemma FlaggedFilterIsPlain(cfg: Config, states: seq<State>, events: seq<Event>, k: nat, i: Address, round: nat,
                             slot: Slot)
    requires IsRun(cfg, states, events) && k < |states| && i in states[k].nodes
    ensures var n := states[k].nodes[i];
            slot in VerifiedRoundChanges(cfg, n, round).roundChanges <==>
              && slot in n.store.roundChanges
              && (slot.view == View(n.height, round) ==>
                  ValidRoundChange(cfg, n.store.roundChanges[slot].message, n.height))
  {
    RunNode(cfg, states, events, k, i);
    var n := states[k].nodes[i];
    if slot in n.store.roundChanges {
      assert RoundChangeChecked(cfg, slot, n.store.roundChanges[slot]);
    }
  }

  /** Every stored message can index the round arrays. */
  lemma StoredRoundsInBounds(cfg: Config, states: seq<State>, events: seq<Event>, k: nat, i: Address)
    requires IsRun(cfg, states, events) && k < |states| && i in states[k].nodes
    ensures var st := states[k].nodes[i].store;
            && (forall view :: view in st.proposals1 ==> view.round < ROUND_ARRAY_SIZE)
            && (forall slot :: slot in st.roundChanges ==> slot.view.round < ROUND_ARRAY_SIZE)
            && (forall slot :: slot in st.prepares ==> slot.view.round < ROUND_ARRAY_SIZE)
            && (forall slot :: slot in st.commits ==> slot.view.round < ROUND_ARRAY_SIZE)
  {
    RunNode(cfg, states, events, k, i);
  }

  // ---------- rounds only go up ----------

  /** Within a height rounds and carried certificates never go back; leaving a round goes strictly forward. */
  lemma StepProgresses(cfg: Config, n: Node, a: Action)
    requires LocalInv(cfg, n) && Enabled(cfg, n, a)
    ensures var n' := Step(cfg, n, a);
            && n.round <= n'.round && LatestRound(n) <= LatestRound(n')
            && (a.Timeout? || a.JumpToProposal? || a.JumpToRoundChanges? ==> n.round < n'.round)
            && (n'.status.Running? ==> n'.round <= MAX_ROUND)
  {
    StepKeeps(cfg, n, a);
    if a.Timeout? {
      TimeoutProgresses(cfg, n, a.order);
    } else {
      OtherStepsProgress(cfg, n, a);
    }
  }

  lemma OtherStepsProgress(cfg: Config, n: Node, a: Action)
    requires Enabled(cfg, n, a) && !a.Timeout?
    ensures var n' := Step(cfg, n, a);
            && n.round <= n'.round && n'.latest == n.latest
            && (a.JumpToProposal? || a.JumpToRoundChanges? ==> n.round < n'.round)
  {
  }

  lemma TimeoutProgresses(cfg: Config, n: Node, order: seq<Slot>)
    requires LocalInv(cfg, n) && Enabled(cfg, n, Timeout(order))
    ensures var n' := StepTimeout(cfg, n, order); n'.round == n.round + 1 && LatestRound(n) <= LatestRound(n')
  {
    if RunStateOf(n.phase).InCommit? {
      var rc := TimeoutInCommitSends(cfg, n, order);
      LatestIsOlder(cfg, n);
    } else {
      var rc := TimeoutElseSends(cfg, n, order);
    }
  }

  lemma {:induction false} RoundsProgress(cfg: Config, states: seq<State>, events: seq<Event>, j: nat, k: nat,
                                          i: Address)
    requires IsRun(cfg, states, events) && j <= k < |states| && i in states[j].nodes
    ensures i in states[k].nodes
    ensures var n, n' := states[j].nodes[i], states[k].nodes[i];
            && n.round <= n'.round && LatestRound(n) <= LatestRound(n')
            && (n'.status.Running? ==> n'.round <= MAX_ROUND)
            && (n.status.Decided? ==> n' == n)
    decreases k
  {
    if j == k {
      RunNode(cfg, states, events, j, i);
    } else {
      RoundsProgress(cfg, states, events, j, k - 1, i);
      RunNode(cfg, states, events, k - 1, i);
      assert StepsAt(cfg, states, events, k - 1);
      var s, e := states[k - 1], events[k - 1];
      if e.node == i {
        StepProgresses(cfg, s.nodes[i], e.action);
      }
    }
  }
}

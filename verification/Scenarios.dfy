/**
 Building blocks for particular runs: what a few consecutive steps of one node do when nothing else is
 stored for its round.  Each block extends a run by steps of one node.
 */
module Scenarios {
  import opened Types
  import opened Configuration
  import opened Verification
  import opened Stores
  import opened Nodes
  import opened NodeInvariant
  import opened NodeSteps
  import opened Systems
  import opened SystemSteps
  import opened Agreement
  import opened Proposals

  // ---------- runs by their last state ----------

  /** Some run in which only `late` nodes time out in the commit window ends in s. */
  ghost predicate Reached(cfg: Config, late: set<Address>, s: State) {
    exists states, events :: IsTimelyRun(cfg, states, events, late) && states[|events|] == s
  }

  lemma ReachedKeeps(cfg: Config, late: set<Address>, s: State, i: Address)
    requires Reached(cfg, late, s) && i in s.nodes
    ensures NodeInv(cfg, s, i)
  {
    var states, events :| IsTimelyRun(cfg, states, events, late) && states[|events|] == s;
    RunKeeps(cfg, states, events, |events|);
  }

  function Beginning(height: nat, nodes: set<Address>): State {
    State(height, map i | i in nodes :: Node(i, height, 0, EmptyStore, 0, AwaitProposal, None, Running, {}))
  }

  lemma Begin(cfg: Config, late: set<Address>, height: nat, nodes: set<Address>)
    requires height >= 1 && nodes <= cfg.validators(height)
    ensures Reached(cfg, late, Beginning(height, nodes))
    ensures forall i :: i in nodes ==> Idle(Beginning(height, nodes).nodes[i], 0)
  {
    var s, events: seq<Event> := Beginning(height, nodes), [];
    assert IsTimelyRun(cfg, [s], events, late);
    assert [s][|events|] == s;
  }

  /** From s the run goes on to s' by steps of node i alone. */
  ghost predicate Moves(cfg: Config, late: set<Address>, s: State, s': State, i: Address) {
    && Reached(cfg, late, s') && Grows(s, s')
    && i in s.nodes && i in s'.nodes && s'.nodes == s.nodes[i := s'.nodes[i]]
    && s'.nodes[i].height == s.nodes[i].height && s'.nodes[i].self == s.nodes[i].self
    && s'.nodes[i].finalized == s.nodes[i].finalized
  }

  lemma MovesOn(cfg: Config, late: set<Address>, s: State, s1: State, s2: State, i: Address)
    requires Moves(cfg, late, s, s1, i) && Moves(cfg, late, s1, s2, i)
    ensures Moves(cfg, late, s, s2, i)
  {
    assert s2.nodes == s.nodes[i := s2.nodes[i]];
  }

  lemma Act(cfg: Config, late: set<Address>, s: State, i: Address, a: Action) returns (s': State)
    requires Reached(cfg, late, s) && Allowed(cfg, s, Event(i, a)) && InTime(s, Event(i, a), late)
    ensures Moves(cfg, late, s, s', i) && s'.nodes[i] == Step(cfg, s.nodes[i], a)
  {
    s' := Next(cfg, s, Event(i, a));
    ReachesNext(cfg, late, s, Event(i, a));
    StepIdentity(cfg, s.nodes[i], a);
    Replaced(cfg, late, s, i, Step(cfg, s.nodes[i], a));
  }

  /** Who a node is does not change, and what it signed stays signed. */
  predicate SameNode(n: Node, n': Node) {
    n'.self == n.self && n'.height == n.height && n'.finalized == n.finalized && n.signed <= n'.signed
  }

  lemma StepIdentity(cfg: Config, n: Node, a: Action)
    requires Enabled(cfg, n, a)
    ensures SameNode(n, Step(cfg, n, a))
  {
  }

  lemma Replaced(cfg: Config, late: set<Address>, s: State, i: Address, n: Node)
    requires i in s.nodes && SameNode(s.nodes[i], n) && Reached(cfg, late, s.(nodes := s.nodes[i := n]))
    ensures Moves(cfg, late, s, s.(nodes := s.nodes[i := n]), i)
  {
  }

  lemma ReachesNext(cfg: Config, late: set<Address>, s: State, e: Event)
    requires Reached(cfg, late, s) && Allowed(cfg, s, e) && InTime(s, e, late)
    ensures Reached(cfg, late, Next(cfg, s, e))
  {
    var states, events :| IsTimelyRun(cfg, states, events, late) && states[|events|] == s;
    Append(cfg, late, states, events, e);
  }

  lemma Append(cfg: Config, late: set<Address>, states: seq<State>, events: seq<Event>, e: Event)
    requires IsTimelyRun(cfg, states, events, late)
    requires Allowed(cfg, states[|events|], e) && InTime(states[|events|], e, late)
    ensures Reached(cfg, late, Next(cfg, states[|events|], e))
  {
    var states', events' := states + [Next(cfg, states[|events|], e)], events + [e];
    forall k | 0 <= k < |events'| ensures StepsAt(cfg, states', events', k) && InTime(states'[k], events'[k], late) {
      if k < |events| {
        assert StepsAt(cfg, states, events, k);
        assert states'[k] == states[k] && states'[k + 1] == states[k + 1] && events'[k] == events[k];
      }
    }
    assert IsTimelyRun(cfg, states', events', late);
    assert states'[|events'|] == Next(cfg, states[|events|], e);
  }

  // ---------- what a node has stored for its round ----------

  /** Nothing for this round or later ones, round changes apart. */
  ghost predicate Blank(st: Store, round: nat) {
    && (round == 0 ==> st.proposals0 == map[])
    && (forall view :: view in st.proposals1 ==> view.round < round)
    && (forall slot :: slot in st.prepares ==> slot.view.round < round)
    && (forall slot :: slot in st.commits ==> slot.view.round < round)
  }

  ghost predicate NoLaterChanges(st: Store, round: nat) {
    forall slot :: slot in st.roundChanges ==> slot.view.round <= round
  }

  ghost predicate Tidy(n: Node) {
    n.status.Running? && Blank(n.store, n.round + 1) && NoLaterChanges(n.store, n.round)
  }

  ghost predicate Idle(n: Node, round: nat) {
    && n.status.Running? && n.round == round && n.phase.AwaitProposal?
    && Blank(n.store, round) && NoLaterChanges(n.store, round)
  }

  /** Waiting for prepares, with exactly those of the voters stored, all for this digest. */
  ghost predicate Voting(n: Node, digest: Digest, voters: set<Address>) {
    && Tidy(n) && n.phase == AwaitPrepares(digest)
    && (forall slot :: slot in n.store.commits ==> slot.view.round < n.round)
    && (forall slot :: slot in n.store.prepares && slot.view == n.Current() ==>
          slot.sender in voters && n.store.prepares[slot].digest == digest)
    && (forall a :: a in voters ==> Slot(n.Current(), a) in n.store.prepares)
  }

  ghost predicate Committing(n: Node, digest: Digest) {
    && Tidy(n) && n.phase == CommitSent(NewCommit(n.Current(), digest, n.self))
    && (forall slot :: slot in n.store.commits ==> slot.view.round < n.round)
  }

  /** Waiting for commits, with exactly those of the sealers stored, all for this digest. */
  ghost predicate Sealing(n: Node, digest: Digest, sealers: set<Address>) {
    && Tidy(n) && n.phase == AwaitCommits(digest)
    && (forall slot :: slot in n.store.commits && slot.view == n.Current() ==>
          slot.sender in sealers && n.store.commits[slot].digest == digest)
    && (forall a :: a in sealers ==> Slot(n.Current(), a) in n.store.commits)
  }

  /** Exactly these round changes are stored for the current round. */
  ghost predicate Held(n: Node, rcs: seq<RoundChangeMsg>) {
    && (forall i :: 0 <= i < |rcs| ==> HeldOne(n, rcs[i]))
    && (forall i, j :: 0 <= i < j < |rcs| ==> rcs[i].Signer() != rcs[j].Signer())
    && (forall slot :: slot in n.store.roundChanges && slot.view == n.Current() ==>
          exists i :: 0 <= i < |rcs| && rcs[i].Signer() == Some(slot.sender))
  }

  predicate HeldOne(n: Node, rc: RoundChangeMsg) {
    && rc.view == n.Current() && rc.Signer().Some?
    && Slot(n.Current(), rc.Signer().value) in n.store.roundChanges
    && n.store.roundChanges[Slot(n.Current(), rc.Signer().value)].message == rc
  }

  /** This message of another validator would be stored by a running node. */
  predicate Fits(cfg: Config, n: Node, sender: Address) {
    sender != n.self && sender in cfg.validators(n.height)
  }

  /** What every node of a run satisfies and the steps below rely on. */
  ghost predicate Sane(cfg: Config, n: Node) {
    n.finalized < n.height && n.self in cfg.validators(n.height) && (n.status.Running? ==> n.round <= MAX_ROUND)
  }

  lemma ReachedSane(cfg: Config, late: set<Address>, s: State, i: Address)
    requires Reached(cfg, late, s) && i in s.nodes
    ensures Sane(cfg, s.nodes[i]) && s.nodes[i].self == i && s.nodes[i].height == s.height
  {
    ReachedKeeps(cfg, late, s, i);
  }

  /** Same node in the same round, with at least what it signed before. */
  predicate Stays(n: Node, n': Node) {
    && n'.self == n.self && n'.height == n.height && n'.round == n.round
    && n'.latest == n.latest && n.signed <= n'.signed
  }

  // ---------- proposing and preparing ----------

  lemma ProposeStep(cfg: Config, n: Node, raw: RawBlock)
    requires Idle(n, 0) && cfg.proposer(n.Current()) == n.self
    ensures Enabled(cfg, n, ProposeFirst(Some(raw)))
    ensures var n' := Step(cfg, n, ProposeFirst(Some(raw)));
            && Stays(n, n') && n'.status.Running? && n'.store == n.store
            && n'.phase == ProposalSent(NewProposal(n.Current(), raw, None, n.self))
            && ProposalDigest(n.Current(), BlockDigest(raw, 0)) in n'.signed
  {
  }

  lemma StoreStep(cfg: Config, n: Node, p: ProposalMsg)
    requires n.status.Running? && n.phase == ProposalSent(p) && p.view == n.Current()
    requires Blank(n.store, n.round) && NoLaterChanges(n.store, n.round)
    ensures var n' := Step(cfg, n, StoreProposal); Stays(n, n') && Voting(n', p.digest, {})
  {
  }

  /** Waiting to store its own proposal. */
  ghost predicate Proposing(n: Node, p: ProposalMsg) {
    && n.status.Running? && n.phase == ProposalSent(p) && p.view == n.Current()
    && Blank(n.store, n.round) && NoLaterChanges(n.store, n.round)
  }

  lemma Proposes(cfg: Config, late: set<Address>, s: State, i: Address, raw: RawBlock) returns (s': State)
    requires Reached(cfg, late, s) && i in s.nodes && Idle(s.nodes[i], 0) && cfg.proposer(s.nodes[i].Current()) == i
    ensures Moves(cfg, late, s, s', i) && Stays(s.nodes[i], s'.nodes[i])
    ensures Proposing(s'.nodes[i], NewProposal(s.nodes[i].Current(), raw, None, i))
  {
    ReachedSane(cfg, late, s, i);
    ProposeStep(cfg, s.nodes[i], raw);
    s' := Act(cfg, late, s, i, ProposeFirst(Some(raw)));
  }

  lemma SentIsKnown(cfg: Config, late: set<Address>, s: State, i: Address)
    requires Reached(cfg, late, s) && i in s.nodes && s.nodes[i].phase.ProposalSent?
    ensures KnownProposal(s, s.nodes[i].phase.proposal)
  {
    ReachedKeeps(cfg, late, s, i);
  }

  lemma StoresProposal(cfg: Config, late: set<Address>, s: State, i: Address, p: ProposalMsg) returns (s': State)
    requires Reached(cfg, late, s) && i in s.nodes && Proposing(s.nodes[i], p)
    ensures Moves(cfg, late, s, s', i) && Stays(s.nodes[i], s'.nodes[i])
    ensures Voting(s'.nodes[i], p.digest, {}) && KnownProposal(s', p)
  {
    SentIsKnown(cfg, late, s, i);
    StoreStep(cfg, s.nodes[i], p);
    s' := Act(cfg, late, s, i, StoreProposal);
    KnownGrows(s, s');
  }

  lemma ProposesFirst(cfg: Config, late: set<Address>, s: State, i: Address, raw: RawBlock) returns (s': State)
    requires Reached(cfg, late, s) && i in s.nodes && Idle(s.nodes[i], 0) && cfg.proposer(s.nodes[i].Current()) == i
    ensures Moves(cfg, late, s, s', i) && Stays(s.nodes[i], s'.nodes[i])
    ensures Voting(s'.nodes[i], BlockDigest(raw, 0), {})
    ensures KnownProposal(s', NewProposal(s.nodes[i].Current(), raw, None, i))
  {
    var s1 := Proposes(cfg, late, s, i, raw);
    s' := StoresProposal(cfg, late, s1, i, NewProposal(s.nodes[i].Current(), raw, None, i));
    MovesOn(cfg, late, s, s1, s', i);
  }

  lemma HearProposalStep(cfg: Config, n: Node, p: ProposalMsg)
    requires Sane(cfg, n) && Idle(n, p.view.round) && p.view == n.Current()
    requires p.Signer() == Some(cfg.proposer(p.view)) && cfg.proposer(p.view) != n.self
    ensures var n' := Step(cfg, n, Deliver(GotProposal(p)));
            && Stays(n, n') && n'.status.Running? && n'.phase.AwaitProposal? && n'.store.prepares == n.store.prepares
            && ProposalAt(n'.store, p.view) == Some(p)
            && (p.view.round >= 1 ==> n'.store.proposals1[p.view].verdict.None?)
            && Tidy(n') && Unvoted(n')
  {
  }

  /** No vote of the current round is stored. */
  ghost predicate Unvoted(n: Node) {
    && (forall slot :: slot in n.store.prepares ==> slot.view.round < n.round)
    && (forall slot :: slot in n.store.commits ==> slot.view.round < n.round)
  }

  lemma PrepareStep(cfg: Config, n: Node, p: ProposalMsg)
    requires Tidy(n) && Unvoted(n) && n.phase.AwaitProposal? && p.view == n.Current() && cfg.proposer(p.view) != n.self
    requires ProposalAt(n.store, p.view) == Some(p) && (p.view.round >= 1 ==> n.store.proposals1[p.view].verdict.None?)
    requires ProposalVerifier(cfg, p.view.round)(p).Accept?
    ensures var n' := Step(cfg, n, CheckProposal);
            && Stays(n, n') && Tidy(n') && Unvoted(n') && n'.phase == PrepareSent(NewPrepare(p.view, p.digest, n.self))
            && PrepareDigest(p.view, p.digest) in n'.signed
  {
  }

  lemma StorePrepareStep(cfg: Config, n: Node, digest: Digest)
    requires Tidy(n) && Unvoted(n) && n.phase == PrepareSent(NewPrepare(n.Current(), digest, n.self))
    ensures var n' := Step(cfg, n, StorePrepare); Stays(n, n') && Voting(n', digest, {n.self})
  {
  }

  /** The proposal of its round is stored and not verified yet. */
  ghost predicate Asking(n: Node, p: ProposalMsg) {
    && Tidy(n) && Unvoted(n) && n.phase.AwaitProposal? && p.view == n.Current()
    && ProposalAt(n.store, p.view) == Some(p) && (p.view.round >= 1 ==> n.store.proposals1[p.view].verdict.None?)
  }

  ghost predicate Preparing(n: Node, digest: Digest) {
    Tidy(n) && Unvoted(n) && n.phase == PrepareSent(NewPrepare(n.Current(), digest, n.self))
  }

  lemma HearsProposal(cfg: Config, late: set<Address>, s: State, i: Address, p: ProposalMsg) returns (s': State)
    requires Reached(cfg, late, s) && i in s.nodes && Idle(s.nodes[i], p.view.round)
    requires p.view == s.nodes[i].Current() && p.Signer() == Some(cfg.proposer(p.view)) && cfg.proposer(p.view) != i
    requires KnownProposal(s, p)
    ensures Moves(cfg, late, s, s', i) && Stays(s.nodes[i], s'.nodes[i]) && Asking(s'.nodes[i], p)
  {
    ReachedSane(cfg, late, s, i);
    HearProposalStep(cfg, s.nodes[i], p);
    s' := Act(cfg, late, s, i, Deliver(GotProposal(p)));
  }

  lemma Prepares(cfg: Config, late: set<Address>, s: State, i: Address, p: ProposalMsg) returns (s': State)
    requires Reached(cfg, late, s) && i in s.nodes && Asking(s.nodes[i], p) && cfg.proposer(p.view) != i
    requires ProposalVerifier(cfg, p.view.round)(p).Accept?
    ensures Moves(cfg, late, s, s', i) && Stays(s.nodes[i], s'.nodes[i])
    ensures Preparing(s'.nodes[i], p.digest) && PrepareDigest(p.view, p.digest) in s'.nodes[i].signed
  {
    ReachedSane(cfg, late, s, i);
    PrepareStep(cfg, s.nodes[i], p);
    s' := Act(cfg, late, s, i, CheckProposal);
  }

  lemma StoresPrepare(cfg: Config, late: set<Address>, s: State, i: Address, digest: Digest) returns (s': State)
    requires Reached(cfg, late, s) && i in s.nodes && Preparing(s.nodes[i], digest)
    ensures Moves(cfg, late, s, s', i) && Stays(s.nodes[i], s'.nodes[i]) && Voting(s'.nodes[i], digest, {i})
  {
    ReachedSane(cfg, late, s, i);
    StorePrepareStep(cfg, s.nodes[i], digest);
    s' := Act(cfg, late, s, i, StorePrepare);
  }

  /** A node that was waiting for this acceptable proposal prepares it. */
  lemma Follows(cfg: Config, late: set<Address>, s: State, i: Address, p: ProposalMsg) returns (s': State)
    requires Reached(cfg, late, s) && i in s.nodes && Idle(s.nodes[i], p.view.round)
    requires p.view == s.nodes[i].Current() && p.Signer() == Some(cfg.proposer(p.view)) && cfg.proposer(p.view) != i
    requires KnownProposal(s, p) && ProposalVerifier(cfg, p.view.round)(p).Accept?
    ensures Moves(cfg, late, s, s', i) && Stays(s.nodes[i], s'.nodes[i])
    ensures Voting(s'.nodes[i], p.digest, {i}) && PrepareDigest(p.view, p.digest) in s'.nodes[i].signed
  {
    var s1 := HearsProposal(cfg, late, s, i, p);
    var s2 := Prepares(cfg, late, s1, i, p);
    MovesOn(cfg, late, s, s1, s2, i);
    s' := StoresPrepare(cfg, late, s2, i, p.digest);
    MovesOn(cfg, late, s, s2, s', i);
  }

  lemma HearPrepareStep(cfg: Config, n: Node, digest: Digest, voters: set<Address>, a: Address)
    requires Sane(cfg, n) && Voting(n, digest, voters) && a !in voters && Fits(cfg, n, a)
    requires cfg.proposer(n.Current()) != a
    ensures var n' := Step(cfg, n, Deliver(GotPrepare(NewPrepare(n.Current(), digest, a))));
            Stays(n, n') && Voting(n', digest, voters + {a})
  {
  }

  lemma HearsPrepare(cfg: Config, late: set<Address>, s: State, i: Address, digest: Digest, voters: set<Address>,
                     a: Address)
    returns (s': State)
    requires Reached(cfg, late, s) && i in s.nodes && Voting(s.nodes[i], digest, voters) && a !in voters
    requires Fits(cfg, s.nodes[i], a) && cfg.proposer(s.nodes[i].Current()) != a
    requires MayHaveSigned(s, a, PrepareDigest(s.nodes[i].Current(), digest))
    ensures Moves(cfg, late, s, s', i) && Stays(s.nodes[i], s'.nodes[i])
    ensures Voting(s'.nodes[i], digest, voters + {a})
  {
    ReachedSane(cfg, late, s, i);
    HearPrepareStep(cfg, s.nodes[i], digest, voters, a);
    s' := Act(cfg, late, s, i, Deliver(GotPrepare(NewPrepare(s.nodes[i].Current(), digest, a))));
  }

  // ---------- committing ----------

  lemma VotersCounted(n: Node, digest: Digest, voters: set<Address>)
    requires Voting(n, digest, voters)
    ensures |MatchingPrepares(n, digest)| == |voters|
  {
    var here := MatchingPrepares(n, digest);
    assert (set slot | slot in here :: slot.sender) == voters by {
      forall a | a in voters ensures a in set slot | slot in here :: slot.sender {
        assert Slot(n.Current(), a) in here;
      }
    }
    SendersCount(here, n.Current());
  }

  lemma CommitStep(cfg: Config, n: Node, digest: Digest, voters: set<Address>)
    requires Voting(n, digest, voters) && |voters| + 1 >= cfg.quorum(n.height)
    ensures var n' := Step(cfg, n, CheckPrepares);
            && Stays(n, n') && Committing(n', digest) && digest in n'.signed
            && CommitDigest(n.Current(), digest, Signature(n.self, digest)) in n'.signed
  {
    VotersCounted(n, digest, voters);
    assert MatchingPrepares(n, digest) == At(RetainPrepares(n.store, n.Current(), digest).prepares, n.Current());
  }

  lemma SendsCommit(cfg: Config, late: set<Address>, s: State, i: Address, digest: Digest, voters: set<Address>)
    returns (s': State)
    requires Reached(cfg, late, s) && i in s.nodes && Voting(s.nodes[i], digest, voters)
    requires |voters| + 1 >= cfg.quorum(s.height)
    ensures Moves(cfg, late, s, s', i) && Stays(s.nodes[i], s'.nodes[i])
    ensures Committing(s'.nodes[i], digest) && digest in s'.nodes[i].signed
    ensures MayHaveCommitted(s', i, s.nodes[i].Current(), digest)
  {
    ReachedSane(cfg, late, s, i);
    CommitStep(cfg, s.nodes[i], digest, voters);
    s' := Act(cfg, late, s, i, CheckPrepares);
  }

  lemma StoreCommitStep(cfg: Config, n: Node, digest: Digest)
    requires Committing(n, digest)
    ensures var n' := Step(cfg, n, StoreCommit); Stays(n, n') && Sealing(n', digest, {n.self})
  {
  }

  lemma StoresCommit(cfg: Config, late: set<Address>, s: State, i: Address, digest: Digest) returns (s': State)
    requires Reached(cfg, late, s) && i in s.nodes && Committing(s.nodes[i], digest)
    ensures Moves(cfg, late, s, s', i) && Stays(s.nodes[i], s'.nodes[i])
    ensures Sealing(s'.nodes[i], digest, {i})
  {
    ReachedSane(cfg, late, s, i);
    StoreCommitStep(cfg, s.nodes[i], digest);
    s' := Act(cfg, late, s, i, StoreCommit);
  }

  lemma HearCommitStep(cfg: Config, n: Node, digest: Digest, sealers: set<Address>, a: Address)
    requires Sane(cfg, n) && Sealing(n, digest, sealers) && a !in sealers && Fits(cfg, n, a)
    ensures var n' := Step(cfg, n, Deliver(GotCommit(NewCommit(n.Current(), digest, a))));
            Stays(n, n') && Sealing(n', digest, sealers + {a})
  {
  }

  lemma HearsCommit(cfg: Config, late: set<Address>, s: State, i: Address, digest: Digest, sealers: set<Address>,
                    a: Address)
    returns (s': State)
    requires Reached(cfg, late, s) && i in s.nodes && Sealing(s.nodes[i], digest, sealers) && a !in sealers
    requires Fits(cfg, s.nodes[i], a) && MayHaveSigned(s, a, digest)
    requires MayHaveCommitted(s, a, s.nodes[i].Current(), digest)
    ensures Moves(cfg, late, s, s', i) && Stays(s.nodes[i], s'.nodes[i])
    ensures Sealing(s'.nodes[i], digest, sealers + {a})
  {
    ReachedSane(cfg, late, s, i);
    HearCommitStep(cfg, s.nodes[i], digest, sealers, a);
    s' := Act(cfg, late, s, i, Deliver(GotCommit(NewCommit(s.nodes[i].Current(), digest, a))));
  }

  lemma SealersCounted(n: Node, digest: Digest, sealers: set<Address>)
    requires Sealing(n, digest, sealers)
    ensures |At(RetainCommits(n.store, n.Current(), digest).commits, n.Current())| == |sealers|
  {
    var here := At(RetainCommits(n.store, n.Current(), digest).commits, n.Current());
    assert (set slot | slot in here :: slot.sender) == sealers by {
      forall a | a in sealers ensures a in set slot | slot in here :: slot.sender {
        assert Slot(n.Current(), a) in here;
      }
    }
    SendersCount(here, n.Current());
  }

  lemma TakeSealsStep(cfg: Config, n: Node, digest: Digest, sealers: set<Address>, order: seq<Slot>)
    requires Sealing(n, digest, sealers) && |sealers| >= cfg.quorum(n.height)
    requires Orders(order, At(RetainCommits(n.store, n.Current(), digest).commits, n.Current()))
    ensures var n' := Step(cfg, n, CheckCommits(order));
            n'.status.Running? && n'.phase.Sealed? && n'.phase.digest == digest && n'.round == n.round
  {
    SealersCounted(n, digest, sealers);
  }

  lemma FinishStep(cfg: Config, n: Node, raw: RawBlock, round: nat)
    requires n.status.Running? && n.phase.Sealed? && n.phase.digest == BlockDigest(raw, round)
    requires Agreed(n, n.phase.digest)
    ensures var n' := Step(cfg, n, Finish); n'.status.Decided? && n'.status.block.raw == raw && n'.round == n.round
  {
  }

  lemma TakesSeals(cfg: Config, late: set<Address>, s: State, i: Address, digest: Digest, sealers: set<Address>)
    returns (s': State)
    requires Reached(cfg, late, s) && i in s.nodes && Sealing(s.nodes[i], digest, sealers)
    requires |sealers| >= cfg.quorum(s.height)
    ensures Moves(cfg, late, s, s', i) && s'.nodes[i].round == s.nodes[i].round
    ensures s'.nodes[i].status.Running? && s'.nodes[i].phase.Sealed? && s'.nodes[i].phase.digest == digest
  {
    ReachedSane(cfg, late, s, i);
    var n := s.nodes[i];
    var order := SomeOrder(At(RetainCommits(n.store, n.Current(), digest).commits, n.Current()));
    TakeSealsStep(cfg, n, digest, sealers, order);
    s' := Act(cfg, late, s, i, CheckCommits(order));
  }

  lemma SealedIsAgreed(cfg: Config, late: set<Address>, s: State, i: Address)
    requires Reached(cfg, late, s) && i in s.nodes && s.nodes[i].status.Running? && s.nodes[i].phase.Sealed?
    ensures Agreed(s.nodes[i], s.nodes[i].phase.digest)
  {
    ReachedKeeps(cfg, late, s, i);
  }

  /** A quorum of commits: the node takes the seals and finalizes the agreed block. */
  lemma Finalizes(cfg: Config, late: set<Address>, s: State, i: Address, raw: RawBlock, round: nat,
                  sealers: set<Address>)
    returns (s': State, block: FinalizedBlock)
    requires Reached(cfg, late, s) && i in s.nodes && Sealing(s.nodes[i], BlockDigest(raw, round), sealers)
    requires |sealers| >= cfg.quorum(s.height)
    ensures Moves(cfg, late, s, s', i)
    ensures DecidedIn(s', i, s.nodes[i].round, block) && block.raw == raw
  {
    var s1 := TakesSeals(cfg, late, s, i, BlockDigest(raw, round), sealers);
    SealedIsAgreed(cfg, late, s1, i);
    FinishStep(cfg, s1.nodes[i], raw, round);
    s' := Act(cfg, late, s1, i, Finish);
    MovesOn(cfg, late, s, s1, s', i);
    block := s'.nodes[i].status.block;
  }

  // ---------- changing the round ----------

  /** The own round change is stored at once by the proposer of the next round. */
  ghost predicate Entered(cfg: Config, n: Node, rc: RoundChangeMsg) {
    Held(n, if cfg.proposer(n.Current()) == n.self then [rc] else [])
  }

  lemma EntersIdle(cfg: Config, n: Node, st: Store, rc: RoundChangeMsg)
    requires n.status.Running? && n.round < MAX_ROUND && Blank(st, n.round + 1) && NoLaterChanges(st, n.round)
    requires rc.view == View(n.height, n.round + 1) && rc.Signer() == Some(n.self)
    ensures var n' := ChangeRound(cfg, n.(store := st), rc);
            Idle(n', n.round + 1) && Entered(cfg, n', rc) && n'.latest == Some(rc)
  {
    var n' := ChangeRound(cfg, n.(store := st), rc);
    assert Slot(n'.Current(), n.self) !in st.roundChanges;
    if cfg.proposer(n'.Current()) == n.self {
      assert n'.store == AddRoundChange(st, n.self, rc, n.self);
      assert HeldOne(n', [rc][0]);
      forall slot | slot in n'.store.roundChanges && slot.view == n'.Current()
        ensures exists k :: 0 <= k < |[rc]| && [rc][k].Signer() == Some(slot.sender)
      {
        assert [rc][0].Signer() == Some(slot.sender);
      }
    }
  }

  /** A timeout before the commit state, or in the window. */
  lemma TimesOut(cfg: Config, late: set<Address>, s: State, i: Address) returns (s': State, rc: RoundChangeMsg)
    requires Reached(cfg, late, s) && i in s.nodes && Tidy(s.nodes[i]) && s.nodes[i].round < MAX_ROUND
    requires !RunStateOf(s.nodes[i].phase).InCommit? && (s.nodes[i].phase.CommitSent? ==> i in late)
    ensures Moves(cfg, late, s, s', i)
    ensures Idle(s'.nodes[i], s.nodes[i].round + 1) && Entered(cfg, s'.nodes[i], rc) && s'.nodes[i].latest == Some(rc)
    ensures rc.view == View(s.nodes[i].height, s.nodes[i].round + 1) && rc.Signer() == Some(i)
    ensures rc.prepared == if s.nodes[i].latest.Some? then s.nodes[i].latest.value.prepared else None
    ensures ValidRoundChange(cfg, rc, s.nodes[i].height) && KnownMetadata(s', rc.Metadata())
  {
    ReachedKeeps(cfg, late, s, i);
    rc := TimeoutElseSends(cfg, s.nodes[i], []);
    EntersIdle(cfg, s.nodes[i], s.nodes[i].store, rc);
    s' := Act(cfg, late, s, i, Timeout([]));
    ReachedKeeps(cfg, late, s', i);
  }

  lemma LeftIsBlank(n: Node)
    requires Tidy(n)
    ensures Blank(LeftByTimeout(n), n.round + 1) && NoLaterChanges(LeftByTimeout(n), n.round)
  {
  }

  /** A timeout in the commit state. */
  lemma TimesOutCertified(cfg: Config, late: set<Address>, s: State, i: Address, raw: RawBlock, sealers: set<Address>)
    returns (s': State, rc: RoundChangeMsg)
    requires Reached(cfg, late, s) && i in s.nodes && Sealing(s.nodes[i], BlockDigest(raw, s.nodes[i].round), sealers)
    requires s.nodes[i].round < MAX_ROUND
    ensures Moves(cfg, late, s, s', i)
    ensures Idle(s'.nodes[i], s.nodes[i].round + 1) && Entered(cfg, s'.nodes[i], rc) && s'.nodes[i].latest == Some(rc)
    ensures rc.view == View(s.nodes[i].height, s.nodes[i].round + 1) && rc.Signer() == Some(i)
    ensures rc.prepared.Some? && rc.prepared.value.block == ProposedBlock(raw, s.nodes[i].round)
    ensures rc.prepared.value.certificate.proposal.view == s.nodes[i].Current()
    ensures ValidRoundChange(cfg, rc, s.nodes[i].height) && KnownMetadata(s', rc.Metadata())
  {
    ReachedKeeps(cfg, late, s, i);
    var n := s.nodes[i];
    var order := SomeOrder(MatchingPrepares(n, BlockDigest(raw, n.round)));
    rc := TimeoutInCommitSends(cfg, n, order);
    LeftIsBlank(n);
    EntersIdle(cfg, n, LeftByTimeout(n), rc);
    s' := Act(cfg, late, s, i, Timeout(order));
    ReachedKeeps(cfg, late, s', i);
  }

  lemma HearsChange(cfg: Config, late: set<Address>, s: State, i: Address, rcs: seq<RoundChangeMsg>, rc: RoundChangeMsg,
                    a: Address)
    returns (s': State)
    requires Reached(cfg, late, s) && i in s.nodes && Idle(s.nodes[i], rc.view.round) && Held(s.nodes[i], rcs)
    requires rc.view == s.nodes[i].Current() && rc.view.round >= 1 && rc.Signer() == Some(a) && Fits(cfg, s.nodes[i], a)
    requires KnownMetadata(s, rc.Metadata()) && forall k :: 0 <= k < |rcs| ==> rcs[k].Signer() != Some(a)
    ensures Moves(cfg, late, s, s', i) && s'.nodes[i].latest == s.nodes[i].latest
    ensures Idle(s'.nodes[i], rc.view.round) && Held(s'.nodes[i], rcs + [rc])
  {
    ReachedKeeps(cfg, late, s, i);
    s' := Act(cfg, late, s, i, Deliver(GotRoundChange(rc)));
    HoldsOneMore(s.nodes[i], s'.nodes[i], rcs, rc, a);
  }

  lemma HoldsOneMore(n: Node, n': Node, rcs: seq<RoundChangeMsg>, rc: RoundChangeMsg, a: Address)
    requires Held(n, rcs) && rc.view == n.Current() && rc.Signer() == Some(a)
    requires forall k :: 0 <= k < |rcs| ==> rcs[k].Signer() != Some(a)
    requires n' == n.(store := AddRoundChange(n.store, n.self, rc, a))
    ensures Held(n', rcs + [rc])
  {
    var all := rcs + [rc];
    assert Slot(n.Current(), a) !in n.store.roundChanges;
    forall k | 0 <= k < |all| ensures HeldOne(n', all[k]) {
      assert k < |rcs| ==> HeldOne(n, rcs[k]);
    }
    forall slot | slot in n'.store.roundChanges && slot.view == n.Current()
      ensures exists k :: 0 <= k < |all| && all[k].Signer() == Some(slot.sender)
    {
      if slot in n.store.roundChanges {
        var k :| 0 <= k < |rcs| && rcs[k].Signer() == Some(slot.sender);
        assert all[k].Signer() == Some(slot.sender);
      } else {
        assert all[|rcs|].Signer() == Some(slot.sender);
      }
    }
  }

  /** The order in which a hash map lists the held round changes is any. */
  function SlotsOf(n: Node, rcs: seq<RoundChangeMsg>): (order: seq<Slot>)
    requires forall i :: 0 <= i < |rcs| ==> rcs[i].Signer().Some?
    ensures |order| == |rcs|
    ensures forall i :: 0 <= i < |rcs| ==> order[i] == Slot(n.Current(), rcs[i].Signer().value)
  {
    seq(|rcs|, i requires 0 <= i < |rcs| => Slot(n.Current(), rcs[i].Signer().value))
  }

  lemma HeldAreListed(cfg: Config, n: Node, rcs: seq<RoundChangeMsg>)
    requires Held(n, rcs) && forall i :: 0 <= i < |rcs| ==> ValidRoundChange(cfg, rcs[i], n.height)
    ensures var here := At(VerifiedRoundChanges(cfg, n, n.round).roundChanges, n.Current());
            Orders(SlotsOf(n, rcs), here) && Messages(Values(SlotsOf(n, rcs), here)) == rcs && |here| == |rcs|
  {
    var here, order := At(VerifiedRoundChanges(cfg, n, n.round).roundChanges, n.Current()), SlotsOf(n, rcs);
    forall slot | slot in order ensures slot in here {
      var i :| 0 <= i < |order| && order[i] == slot;
      assert HeldOne(n, rcs[i]);
    }
    forall slot | slot in here ensures slot in order {
      var i :| 0 <= i < |rcs| && rcs[i].Signer() == Some(slot.sender);
      assert order[i] == slot;
    }
    forall i, j | 0 <= i < j < |order| ensures order[i] != order[j] {
      assert rcs[i].Signer() != rcs[j].Signer();
    }
    OrderIsAsLong(order, here);
    forall i | 0 <= i < |rcs| ensures Messages(Values(order, here))[i] == rcs[i] {
      assert HeldOne(n, rcs[i]);
      assert order[i] in order;
    }
  }

  lemma CollectStep(cfg: Config, n: Node, rcs: seq<RoundChangeMsg>, built: Option<RawBlock>, p: ProposalMsg)
    requires n.round >= 1 && Idle(n, n.round) && Held(n, rcs) && Collected(cfg, n.Current(), rcs)
    requires cfg.proposer(n.Current()) == n.self && BuildProposal(n.Current(), rcs, built, n.self) == Some(p)
    ensures var a := CollectRoundChanges(SlotsOf(n, rcs), built);
            && Enabled(cfg, n, a)
            && var n' := Step(cfg, n, a); Stays(n, n') && Proposing(n', p)
  {
    HeldAreListed(cfg, n, rcs);
    BuiltProposalIsOwn(n.Current(), rcs, built, n.self);
    TakenStep(cfg, n, SlotsOf(n, rcs), rcs, built, p);
  }

  lemma TakenStep(cfg: Config, n: Node, order: seq<Slot>, rcs: seq<RoundChangeMsg>, built: Option<RawBlock>,
                  p: ProposalMsg)
    requires Enabled(cfg, n, CollectRoundChanges(order, built)) && Idle(n, n.round) && p.view == n.Current()
    requires var here := At(VerifiedRoundChanges(cfg, n, n.round).roundChanges, n.Current());
             |here| >= cfg.quorum(n.height) && Messages(Values(order, here)) == rcs
    requires BuildProposal(n.Current(), rcs, built, n.self) == Some(p)
    ensures var n' := StepCollect(cfg, n, order, built); Stays(n, n') && Proposing(n', p)
  {
  }

  lemma TakesChanges(cfg: Config, late: set<Address>, s: State, i: Address, rcs: seq<RoundChangeMsg>,
                     built: Option<RawBlock>, p: ProposalMsg)
    returns (s': State)
    requires Reached(cfg, late, s) && i in s.nodes && s.nodes[i].round >= 1 && Idle(s.nodes[i], s.nodes[i].round)
    requires Held(s.nodes[i], rcs) && Collected(cfg, s.nodes[i].Current(), rcs)
    requires cfg.proposer(s.nodes[i].Current()) == i
    requires BuildProposal(s.nodes[i].Current(), rcs, built, i) == Some(p)
    ensures Moves(cfg, late, s, s', i) && Stays(s.nodes[i], s'.nodes[i]) && Proposing(s'.nodes[i], p)
  {
    ReachedSane(cfg, late, s, i);
    CollectStep(cfg, s.nodes[i], rcs, built, p);
    s' := Act(cfg, late, s, i, CollectRoundChanges(SlotsOf(s.nodes[i], rcs), built));
  }

  /** The proposer takes its quorum, proposes and stores its proposal. */
  lemma Collects(cfg: Config, late: set<Address>, s: State, i: Address, rcs: seq<RoundChangeMsg>,
                 built: Option<RawBlock>, p: ProposalMsg)
    returns (s': State)
    requires Reached(cfg, late, s) && i in s.nodes && s.nodes[i].round >= 1 && Idle(s.nodes[i], s.nodes[i].round)
    requires Held(s.nodes[i], rcs) && Collected(cfg, s.nodes[i].Current(), rcs)
    requires cfg.proposer(s.nodes[i].Current()) == i
    requires BuildProposal(s.nodes[i].Current(), rcs, built, i) == Some(p)
    ensures Moves(cfg, late, s, s', i) && Stays(s.nodes[i], s'.nodes[i])
    ensures Voting(s'.nodes[i], p.digest, {}) && KnownProposal(s', p)
  {
    var s1 := TakesChanges(cfg, late, s, i, rcs, built, p);
    s' := StoresProposal(cfg, late, s1, i, p);
    MovesOn(cfg, late, s, s1, s', i);
  }

  // ---------- several nodes ----------

  /** From s the run goes on to s' by steps of these nodes alone. */
  ghost predicate Leads(cfg: Config, late: set<Address>, s: State, s': State, x: Address, y: Address, z: Address) {
    && Reached(cfg, late, s') && Grows(s, s')
    && (forall j :: j in s.nodes && j != x && j != y && j != z ==> s'.nodes[j] == s.nodes[j])
  }

  lemma Unmoved(cfg: Config, late: set<Address>, s: State, s': State, i: Address, j: Address)
    requires Moves(cfg, late, s, s', i) && j in s.nodes && j != i
    ensures j in s'.nodes && s'.nodes[j] == s.nodes[j]
  {
  }

  lemma LeadsOn(cfg: Config, late: set<Address>, s: State, s1: State, s2: State, x: Address, y: Address, z: Address,
                i: Address)
    requires Leads(cfg, late, s, s1, x, y, z) && Moves(cfg, late, s1, s2, i) && (i == x || i == y || i == z)
    ensures Leads(cfg, late, s, s2, x, y, z)
  {
  }

  /** The prepare, the seal and the commit of this validator for the digest are around. */
  predicate Backs(s: State, a: Address, view: View, digest: Digest) {
    && MayHaveSigned(s, a, PrepareDigest(view, digest)) && MayHaveSigned(s, a, digest)
    && MayHaveCommitted(s, a, view, digest)
  }

  lemma BacksOn(cfg: Config, late: set<Address>, s: State, s': State, i: Address, a: Address, view: View,
                digest: Digest)
    requires Moves(cfg, late, s, s', i) && Backs(s, a, view, digest)
    ensures Backs(s', a, view, digest)
  {
    KnownGrows(s, s');
  }

  /** An acceptable proposal of its view's proposer is around. */
  ghost predicate Offered(cfg: Config, s: State, p: ProposalMsg) {
    && p.view.height == s.height && p.Signer() == Some(cfg.proposer(p.view)) && KnownProposal(s, p)
    && ProposalVerifier(cfg, p.view.round)(p).Accept?
  }

  /** A node that prepared hears one more prepare and commits, with a quorum of three. */
  lemma CommitsWith(cfg: Config, late: set<Address>, s: State, i: Address, digest: Digest, a: Address)
    returns (s': State)
    requires Reached(cfg, late, s) && i in s.nodes && Voting(s.nodes[i], digest, {i}) && cfg.quorum(s.height) <= 3
    requires Fits(cfg, s.nodes[i], a) && cfg.proposer(s.nodes[i].Current()) != a && a != i
    requires MayHaveSigned(s, a, PrepareDigest(s.nodes[i].Current(), digest))
    ensures Moves(cfg, late, s, s', i) && Stays(s.nodes[i], s'.nodes[i])
    ensures Committing(s'.nodes[i], digest) && digest in s'.nodes[i].signed
    ensures MayHaveCommitted(s', i, s.nodes[i].Current(), digest)
  {
    var s1 := HearsPrepare(cfg, late, s, i, digest, {i}, a);
    s' := SendsCommit(cfg, late, s1, i, digest, {i} + {a});
    MovesOn(cfg, late, s, s1, s', i);
  }

  /** Two nodes prepare an acceptable proposal, hear one another and commit, with a quorum of three. */
  lemma PairCommits(cfg: Config, late: set<Address>, s: State, b: Address, c: Address, p: ProposalMsg)
    returns (s': State)
    requires Reached(cfg, late, s) && b in s.nodes && c in s.nodes && b != c && cfg.quorum(s.height) <= 3
    requires Idle(s.nodes[b], p.view.round) && Idle(s.nodes[c], p.view.round)
    requires Offered(cfg, s, p) && cfg.proposer(p.view) != b && cfg.proposer(p.view) != c
    ensures Leads(cfg, late, s, s', b, c, c)
    ensures Stays(s.nodes[b], s'.nodes[b]) && Stays(s.nodes[c], s'.nodes[c])
    ensures Committing(s'.nodes[b], p.digest) && Committing(s'.nodes[c], p.digest)
    ensures Backs(s', b, p.view, p.digest) && Backs(s', c, p.view, p.digest)
  {
    ReachedSane(cfg, late, s, b);
    ReachedSane(cfg, late, s, c);
    var s1 := Follows(cfg, late, s, b, p);
    LeadsOn(cfg, late, s, s, s1, b, c, c, b);
    KnownGrows(s, s1);
    var s2 := Follows(cfg, late, s1, c, p);
    LeadsOn(cfg, late, s, s1, s2, b, c, c, c);
    var s3 := CommitsWith(cfg, late, s2, b, p.digest, c);
    LeadsOn(cfg, late, s, s2, s3, b, c, c, b);
    s' := CommitsWith(cfg, late, s3, c, p.digest, b);
    LeadsOn(cfg, late, s, s3, s', b, c, c, c);
  }

  /** With two more commits around, a node in the window finishes the round. */
  lemma SealsWith(cfg: Config, late: set<Address>, s: State, i: Address, raw: RawBlock, round: nat, a: Address,
                  b: Address)
    returns (s': State, block: FinalizedBlock)
    requires Reached(cfg, late, s) && i in s.nodes && Committing(s.nodes[i], BlockDigest(raw, round))
    requires cfg.quorum(s.height) <= 3 && Fits(cfg, s.nodes[i], a) && Fits(cfg, s.nodes[i], b) && i != a && i != b
    requires a != b
    requires Backs(s, a, s.nodes[i].Current(), BlockDigest(raw, round))
    requires Backs(s, b, s.nodes[i].Current(), BlockDigest(raw, round))
    ensures Moves(cfg, late, s, s', i)
    ensures DecidedIn(s', i, s.nodes[i].round, block) && block.raw == raw
  {
    var view, digest := s.nodes[i].Current(), BlockDigest(raw, round);
    var s1 := StoresCommit(cfg, late, s, i, digest);
    BacksOn(cfg, late, s, s1, i, a, view, digest);
    BacksOn(cfg, late, s, s1, i, b, view, digest);
    var s2 := HearsCommit(cfg, late, s1, i, digest, {i}, a);
    MovesOn(cfg, late, s, s1, s2, i);
    BacksOn(cfg, late, s1, s2, i, b, view, digest);
    var s3 := HearsCommit(cfg, late, s2, i, digest, {i} + {a}, b);
    MovesOn(cfg, late, s, s2, s3, i);
    assert {i} + {a} + {b} == {i, a, b} && |{i, a, b}| == 3;
    s', block := Finalizes(cfg, late, s3, i, raw, round, {i, a, b});
    MovesOn(cfg, late, s, s3, s', i);
  }

  /** With two prepares around, the proposer commits. */
  lemma ProposerCommits(cfg: Config, late: set<Address>, s: State, i: Address, digest: Digest, a: Address, b: Address)
    returns (s': State)
    requires Reached(cfg, late, s) && i in s.nodes && Voting(s.nodes[i], digest, {}) && cfg.quorum(s.height) <= 3
    requires cfg.proposer(s.nodes[i].Current()) == i && Fits(cfg, s.nodes[i], a) && Fits(cfg, s.nodes[i], b) && i != a
    requires i != b && a != b
    requires Backs(s, a, s.nodes[i].Current(), digest) && Backs(s, b, s.nodes[i].Current(), digest)
    ensures Moves(cfg, late, s, s', i) && Stays(s.nodes[i], s'.nodes[i]) && Committing(s'.nodes[i], digest)
    ensures Backs(s', a, s.nodes[i].Current(), digest) && Backs(s', b, s.nodes[i].Current(), digest)
  {
    var view := s.nodes[i].Current();
    var s1 := HearsPrepare(cfg, late, s, i, digest, {}, a);
    BacksOn(cfg, late, s, s1, i, b, view, digest);
    var s2 := HearsPrepare(cfg, late, s1, i, digest, {} + {a}, b);
    MovesOn(cfg, late, s, s1, s2, i);
    assert |{} + {a} + {b}| == 2;
    s' := SendsCommit(cfg, late, s2, i, digest, {} + {a} + {b});
    MovesOn(cfg, late, s, s2, s', i);
    BacksOn(cfg, late, s, s', i, a, view, digest);
    BacksOn(cfg, late, s, s', i, b, view, digest);
  }

  /** With two prepares and two commits around, the proposer decides. */
  lemma ProposerDecides(cfg: Config, late: set<Address>, s: State, i: Address, raw: RawBlock, round: nat, a: Address,
                        b: Address)
    returns (s': State, block: FinalizedBlock)
    requires Reached(cfg, late, s) && i in s.nodes && Voting(s.nodes[i], BlockDigest(raw, round), {})
    requires cfg.quorum(s.height) <= 3
    requires cfg.proposer(s.nodes[i].Current()) == i && Fits(cfg, s.nodes[i], a) && Fits(cfg, s.nodes[i], b) && i != a
    requires i != b && a != b
    requires Backs(s, a, s.nodes[i].Current(), BlockDigest(raw, round))
    requires Backs(s, b, s.nodes[i].Current(), BlockDigest(raw, round))
    ensures Moves(cfg, late, s, s', i)
    ensures DecidedIn(s', i, s.nodes[i].round, block) && block.raw == raw
  {
    var s1 := ProposerCommits(cfg, late, s, i, BlockDigest(raw, round), a, b);
    s', block := SealsWith(cfg, late, s1, i, raw, round, a, b);
    MovesOn(cfg, late, s, s1, s', i);
  }

  /** Two nodes commit the proposal of a third, and that one decides. */
  lemma DecidesWith(cfg: Config, late: set<Address>, s: State, i: Address, a: Address, b: Address, p: ProposalMsg,
                    raw: RawBlock)
    returns (s': State, block: FinalizedBlock)
    requires Reached(cfg, late, s) && i in s.nodes && a in s.nodes && b in s.nodes && i != a && i != b && a != b
    requires cfg.quorum(s.height) <= 3 && p.view.round == s.nodes[i].round
    requires Offered(cfg, s, p) && cfg.proposer(p.view) == i && p.digest == BlockDigest(raw, p.view.round)
    requires Voting(s.nodes[i], p.digest, {}) && Idle(s.nodes[a], p.view.round) && Idle(s.nodes[b], p.view.round)
    ensures Leads(cfg, late, s, s', i, a, b) && DecidedIn(s', i, p.view.round, block) && block.raw == raw
    ensures Committing(s'.nodes[a], p.digest) && Stays(s.nodes[a], s'.nodes[a])
    ensures Committing(s'.nodes[b], p.digest) && Stays(s.nodes[b], s'.nodes[b])
  {
    ReachedSane(cfg, late, s, i);
    ReachedSane(cfg, late, s, a);
    ReachedSane(cfg, late, s, b);
    var s1 := PairCommits(cfg, late, s, a, b, p);
    assert s1.nodes[i] == s.nodes[i];
    s', block := ProposerDecides(cfg, late, s1, i, raw, p.view.round, a, b);
    LeadsOn(cfg, late, s, s1, s', i, a, b, i);
  }

  /** A proposer that holds its own round change hears two more. */
  lemma HearsBoth(cfg: Config, late: set<Address>, s: State, i: Address,
                  own: RoundChangeMsg, rc: RoundChangeMsg, a: Address, rc': RoundChangeMsg, b: Address)
    returns (s': State)
    requires Reached(cfg, late, s) && i in s.nodes && Idle(s.nodes[i], own.view.round) && Held(s.nodes[i], [own])
    requires own.view == rc.view == rc'.view == s.nodes[i].Current() && own.view.round >= 1
    requires own.Signer() == Some(i) && rc.Signer() == Some(a) && rc'.Signer() == Some(b) && i != a && i != b && a != b
    requires Fits(cfg, s.nodes[i], a) && Fits(cfg, s.nodes[i], b)
    requires KnownMetadata(s, rc.Metadata()) && KnownMetadata(s, rc'.Metadata())
    ensures Moves(cfg, late, s, s', i) && s'.nodes[i].latest == s.nodes[i].latest
    ensures Idle(s'.nodes[i], own.view.round) && Held(s'.nodes[i], [own, rc, rc'])
  {
    var s1 := HearsChange(cfg, late, s, i, [own], rc, a);
    KnownGrows(s, s1);
    assert [own] + [rc] == [own, rc];
    s' := HearsChange(cfg, late, s1, i, [own, rc], rc', b);
    assert [own, rc] + [rc'] == [own, rc, rc'];
    MovesOn(cfg, late, s, s1, s', i);
  }

  lemma ThreeCollected(cfg: Config, view: View, x: RoundChangeMsg, y: RoundChangeMsg, z: RoundChangeMsg)
    requires cfg.quorum(view.height) <= 3 && x.view == y.view == z.view == view
    requires x.Signer().Some? && y.Signer().Some? && z.Signer().Some?
    requires x.Signer() != y.Signer() && x.Signer() != z.Signer() && y.Signer() != z.Signer()
    requires {x.Signer().value, y.Signer().value, z.Signer().value} <= cfg.validators(view.height)
    requires ValidRoundChange(cfg, x, view.height) && ValidRoundChange(cfg, y, view.height)
    requires ValidRoundChange(cfg, z, view.height)
    ensures Collected(cfg, view, [x, y, z])
  {
    var list := MetadataOf([x, y, z]);
    assert list == [x.Metadata(), y.Metadata(), z.Metadata()];
  }

  predicate NoneCertified(rcs: seq<RoundChangeMsg>) {
    forall k :: 0 <= k < |rcs| ==> rcs[k].prepared.None?
  }

  /** From round changes without a certificate the proposer makes a fresh proposal, which is acceptable. */
  lemma ProposesAfresh(cfg: Config, late: set<Address>, s: State, i: Address, rcs: seq<RoundChangeMsg>, raw: RawBlock)
    returns (s': State, p: ProposalMsg)
    requires Reached(cfg, late, s) && i in s.nodes && s.nodes[i].round >= 1 && Idle(s.nodes[i], s.nodes[i].round)
    requires Held(s.nodes[i], rcs) && Collected(cfg, s.nodes[i].Current(), rcs)
    requires NoneCertified(rcs) && cfg.proposer(s.nodes[i].Current()) == i && cfg.verifyBlock(raw)
    ensures Moves(cfg, late, s, s', i) && Stays(s.nodes[i], s'.nodes[i])
    ensures Voting(s'.nodes[i], BlockDigest(raw, s.nodes[i].round), {})
    ensures p.view == s.nodes[i].Current() && p.digest == BlockDigest(raw, s.nodes[i].round) && Offered(cfg, s', p)
  {
    ReachedSane(cfg, late, s, i);
    var view := s.nodes[i].Current();
    assert FirstPrepared(rcs).None?;
    p := BuildProposal(view, rcs, Some(raw), i).value;
    OneCertifiedBlockIsAccepted(cfg, view, rcs, Some(raw), i);
    s' := Collects(cfg, late, s, i, rcs, Some(raw), p);
  }
}

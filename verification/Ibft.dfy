/**
 The run of one height as an object (ibft.rs): the methods of the engine over the message store
 object, each proved to take exactly the step of module Nodes that the protocol theorems are about.
 */
module Ibft {
  import opened Types
  import opened Configuration
  import opened Verification
  import opened Stores
  import opened ConsensusStore
  import opened Nodes
  import opened NodeInvariant
  import opened Effects

  lemma DropAbsent(st: Store, view: View)
    requires ProposalAt(st, view).None?
    ensures DropProposal(st, view) == st
  {
    if view.round == 0 {
      assert Remove(st.proposals0, view.height) == st.proposals0;
    } else {
      assert Remove(st.proposals1, view) == st.proposals1;
    }
  }

  /** A question about a later round leaves all but the store, or moves the node there. */
  predicate Tried(n: Node, n': Node, future: nat, jumped: bool) {
    n' == if jumped then n.(store := n'.store, round := future, phase := AwaitProposal) else n.(store := n'.store)
  }

  lemma ProposalTried(cfg: Config, n: Node, future: nat, jumped: bool)
    requires n.status.Running? && n.round < future <= MAX_ROUND
    requires jumped <==> Enabled(cfg, n, JumpToProposal(future))
    ensures Tried(n, Step(cfg, n, if jumped then JumpToProposal(future) else QueryProposal(future)), future, jumped)
    ensures LocalInv(cfg, n) ==>
              var p := ProposalAt(n.store, View(n.height, future)); jumped <==> p.Some? && Acceptable(cfg, p.value)
  {
    if LocalInv(cfg, n) {
      ProposalJumpsExactly(cfg, n, future);
    }
  }

  lemma ChangesTried(cfg: Config, n: Node, future: nat, jumped: bool)
    requires n.status.Running? && n.round < future <= MAX_ROUND
    requires jumped <==> Enabled(cfg, n, JumpToRoundChanges(future))
    ensures Tried(n, Step(cfg, n, if jumped then JumpToRoundChanges(future) else QueryRoundChanges(future)), future,
                  jumped)
    ensures LocalInv(cfg, n) ==>
              (jumped <==> |ChangeSenders(cfg, n.store, View(n.height, future))| >= cfg.quorum(n.height))
  {
    if LocalInv(cfg, n) {
      ChangeJumpsExactly(cfg, n, future);
    }
  }

  /** The tail of `wait_rcc` with the choice of block in `run_proposal_1`. */
  method ComposeProposal(view: View, rcs: seq<RoundChangeMsg>, built: Option<RawBlock>, self: Address)
    returns (proposal: Option<ProposalMsg>)
    ensures proposal == BuildProposal(view, rcs, built, self)
  {
    var pos := 0;
    while pos < |rcs| && rcs[pos].prepared.None?
      invariant 0 <= pos <= |rcs|
      invariant forall i :: 0 <= i < pos ==> rcs[i].prepared.None?
    {
      pos := pos + 1;
    }
    if pos < |rcs| {
      var chosen := rcs[pos];
      var others := rcs[pos := rcs[|rcs| - 1]][..|rcs| - 1];  // swap_remove
      var list := MetadataOf(others) + [chosen.Metadata()];
      assert FirstPrepared(rcs) == Some(pos);
      assert list == MetadataOf(ChosenLast(rcs, pos));
      proposal := Some(NewProposal(view, chosen.prepared.value.block.raw, Some(list), self));
    } else {
      assert FirstPrepared(rcs) == None;
      proposal := if built.Some? then Some(NewProposal(view, built.value, Some(MetadataOf(rcs)), self)) else None;
    }
  }

  class HeightRun {
    const messages: ConsensusMessages
    const cfg: Config
    const self: Address
    const height: nat
    const finalized: nat
    var round: nat
    var latest: Option<RoundChangeMsg>
    var phase: Phase
    var status: Status
    var signed: set<Digest>

    ghost predicate Valid()
      reads this, messages
    {
      && messages.Valid() && messages.self == self
      && (status.Running? ==> round <= MAX_ROUND)
      && (phase.ProposalSent? ==> phase.proposal.view.round <= MAX_ROUND)
    }

    /** The run as the value the protocol theorems speak of. */
    ghost function Now(): Node
      reads this, messages
    {
      Node(self, height, finalized, messages.contents, round, phase, latest, status, signed)
    }

    constructor (messages: ConsensusMessages, cfg: Config, height: nat, finalized: nat)
      requires messages.Valid()
      ensures Valid() && this.messages == messages && this.cfg == cfg
      ensures Now() == Node(messages.self, height, finalized, messages.contents, 0, AwaitProposal, None, Running, {})
    {
      this.messages, this.cfg, this.self := messages, cfg, messages.self;
      this.height, this.finalized := height, finalized;
      round, latest, phase, status, signed := 0, None, AwaitProposal, Running, {};
    }

    /** Top of the loop in `run`, with `start_ibft_round`. */
    method EnterRound(next: nat)
      requires messages.Valid() && messages.self == self
      modifies this, messages
      ensures Valid() && Now() == Nodes.EnterRound(cfg, old(Now()), next)
    {
      round, phase := next, AwaitProposal;
      if next > MAX_ROUND {
        status := Dead;
        return;
      }
      var view := View(height, next);
      if latest.Some? && latest.value.view == view && cfg.proposer(view) == self {
        messages.AddRoundChange(latest.value, self);
      }
    }

    /** `run_proposal_0`, proposer side, up to the broadcast; `built` is what the block service returned. */
    method ProposeFirst(built: Option<RawBlock>)
      requires Valid() && status.Running? && phase.AwaitProposal? && round == 0 && cfg.proposer(View(height, 0)) == self
      modifies this
      ensures Valid() && Enabled(cfg, old(Now()), Action.ProposeFirst(built))
      ensures Now() == Step(cfg, old(Now()), Action.ProposeFirst(built))
    {
      if built.None? {
        phase := Failed;
      } else {
        var proposal := NewProposal(View(height, round), built.value, None, self);
        signed, phase := signed + {ProposalDigest(proposal.view, proposal.digest)}, ProposalSent(proposal);
      }
    }

    /** One take in `wait_rcc`; on a quorum the proposal is built and broadcast. */
    method CollectRoundChanges(built: Option<RawBlock>) returns (ghost order: seq<Slot>)
      requires Valid() && status.Running? && phase.AwaitProposal? && round >= 1
      requires cfg.proposer(View(height, round)) == self
      modifies this, messages
      ensures Valid() && Enabled(cfg, old(Now()), Action.CollectRoundChanges(order, built))
      ensures Now() == Step(cfg, old(Now()), Action.CollectRoundChanges(order, built))
    {
      var view, quorum := View(height, round), cfg.quorum(height);
      ghost var here := At(VerifiedRoundChanges(cfg, Now(), round).roundChanges, view);
      var taken, count;
      taken, count, order := messages.TakeValidRoundChanges(view, RoundChangeVerifier(cfg, height), quorum);
      if count < quorum {
        order := SomeOrder(here);
        return;
      }
      var proposal := ComposeProposal(view, Nodes.Messages(taken.value), built, self);
      if proposal.None? {
        phase := Failed;
      } else {
        signed := signed + {ProposalDigest(proposal.value.view, proposal.value.digest)};
        phase := ProposalSent(proposal.value);
      }
    }

    method StoreProposal()
      requires Valid() && status.Running? && phase.ProposalSent?
      modifies this, messages
      ensures Valid() && Enabled(cfg, old(Now()), Action.StoreProposal)
      ensures Now() == Step(cfg, old(Now()), Action.StoreProposal)
    {
      messages.AddProposal(phase.proposal, self);
      phase := AwaitPrepares(phase.proposal.digest);
    }

    /** Follower side of `run_proposal_0` and `run_proposal_1`: one query, up to the prepare broadcast. */
    method CheckProposal()
      requires Valid() && status.Running? && phase.AwaitProposal? && cfg.proposer(View(height, round)) != self
      modifies this, messages
      ensures Valid() && Enabled(cfg, old(Now()), Action.CheckProposal)
      ensures Now() == Step(cfg, old(Now()), Action.CheckProposal)
    {
      var view := View(height, round);
      var verdict, digest := messages.GetValidProposal(view, ProposalVerifier(cfg, round));
      if verdict.None? {
        return;
      }
      if verdict.value.Reject? {
        phase := Failed;
        return;
      }
      var prepare := NewPrepare(view, digest.value, self);
      signed, phase := signed + {PrepareDigest(view, prepare.digest)}, PrepareSent(prepare);
    }

    method StorePrepare()
      requires Valid() && status.Running? && phase.PrepareSent?
      modifies this, messages
      ensures Valid() && Enabled(cfg, old(Now()), Action.StorePrepare)
      ensures Now() == Step(cfg, old(Now()), Action.StorePrepare)
    {
      messages.AddPrepare(phase.prepare, self);
      phase := AwaitPrepares(phase.prepare.digest);
    }

    /** One recount in `run_prepare`; on a quorum the commit is broadcast. */
    method CheckPrepares()
      requires Valid() && status.Running? && phase.AwaitPrepares?
      modifies this, messages
      ensures Valid() && Enabled(cfg, old(Now()), Action.CheckPrepares)
      ensures Now() == Step(cfg, old(Now()), Action.CheckPrepares)
    {
      var view, digest := View(height, round), phase.digest;
      var count := messages.GetValidPrepareCount(view, (m: PrepareMsg) => m.digest == digest);
      if count + 1 >= cfg.quorum(height) {
        var commit := NewCommit(view, digest, self);
        signed := signed + {digest} + {CommitDigest(view, digest, commit.seal)};
        phase := CommitSent(commit);
      }
    }

    method StoreCommit()
      requires Valid() && status.Running? && phase.CommitSent?
      modifies this, messages
      ensures Valid() && Enabled(cfg, old(Now()), Action.StoreCommit)
      ensures Now() == Step(cfg, old(Now()), Action.StoreCommit)
    {
      messages.AddCommit(phase.commit, self);
      phase := AwaitCommits(phase.commit.digest);
    }

    /** One take in `run_commit`. */
    method CheckCommits() returns (ghost order: seq<Slot>)
      requires Valid() && status.Running? && phase.AwaitCommits?
      modifies this, messages
      ensures Valid() && Enabled(cfg, old(Now()), Action.CheckCommits(order))
      ensures Now() == Step(cfg, old(Now()), Action.CheckCommits(order))
    {
      var view, digest, quorum := View(height, round), phase.digest, cfg.quorum(height);
      ghost var here := At(RetainCommits(messages.contents, view, digest).commits, view);
      var taken, count;
      taken, count, order := messages.TakeValidCommits(view, (m: CommitMsg) => m.digest == digest, quorum);
      if count < quorum {
        order := SomeOrder(here);
        return;
      }
      phase := Sealed(digest, Seals(taken.value));
    }

    /** `handle_round_finish`. */
    method Finish() returns (block: Option<FinalizedBlock>)
      requires Valid() && status.Running? && phase.Sealed?
      modifies this, messages
      ensures Valid() && Enabled(cfg, old(Now()), Action.Finish)
      ensures Now() == Step(cfg, old(Now()), Action.Finish)
      ensures block.Some? ==> status == Decided(block.value)
      ensures block.None? ==> status.Panicked?
    {
      var proposal := messages.TakeProposal(View(height, round));
      if proposal.None? {
        DropAbsent(old(messages.contents), View(height, round));
        status := Panicked;
        return None;
      }
      var proposed := proposal.value.block;
      block := Some(FinalizedBlock(proposed.raw, proposed.round, phase.seals));
      status := Decided(block.value);
    }

    /** The commit case of `handle_timeout`: the proposal and its matching prepares, when they suffice. */
    method TakeCertificate() returns (prepared: Option<PreparedProposed>, ghost order: seq<Slot>)
      requires Valid()
      modifies messages
      ensures Valid()
      ensures var view, st := View(height, round), old(messages.contents);
              var proposal := ProposalAt(st, view);
              if proposal.None? then prepared == None && messages.contents == st
              else
                var here := At(RetainPrepares(st, view, proposal.value.digest).prepares, view);
                && Orders(order, here)
                && prepared == (if |here| + 1 < cfg.quorum(height) then None
                                else Some(NewPreparedProposed(proposal.value, Values(order, here))))
                && messages.contents == DropProposal(st, view).(prepares := Without(st.prepares, view))
    {
      order := [];
      var view := View(height, round);
      var proposal := messages.TakeProposal(view);
      if proposal.None? {
        DropAbsent(old(messages.contents), view);
        return None, order;
      }
      var digest := proposal.value.digest;
      var prepares;
      prepares, order := messages.TakeValidPrepares(view, (m: PrepareMsg) => m.digest == digest);
      ghost var here := At(RetainPrepares(old(messages.contents), view, digest).prepares, view);
      OrderIsAsLong(order, here);
      prepared := if |prepares| + 1 < cfg.quorum(height) then None
                  else Some(NewPreparedProposed(proposal.value, prepares));
    }

    /** Broadcasts and keeps the round change, then starts the next round. */
    method ChangeRound(rc: RoundChangeMsg)
      requires messages.Valid() && messages.self == self
      modifies this, messages
      ensures Valid() && Now() == Nodes.ChangeRound(cfg, old(Now()), rc)
    {
      latest := Some(rc);
      signed := signed + {RoundChangeDigest(rc.view, rc.Certificate())};
      EnterRound(round + 1);
    }

    /** The commit case of `handle_timeout`. */
    method LeaveCommitState() returns (ghost order: seq<Slot>)
      requires Valid() && status.Running? && RunStateOf(phase).InCommit?
      modifies this, messages
      ensures Valid() && Enabled(cfg, old(Now()), Action.Timeout(order))
      ensures Now() == StepTimeout(cfg, old(Now()), order)
    {
      var prepared;
      prepared, order := TakeCertificate();
      if prepared.None? {
        status := Panicked;
        return;
      }
      ChangeRound(NewRoundChange(View(height, round + 1), prepared, self));
    }

    /** `handle_timeout`, then the next round. */
    method HandleTimeout() returns (ghost order: seq<Slot>)
      requires Valid() && status.Running?
      modifies this, messages
      ensures Valid() && Enabled(cfg, old(Now()), Action.Timeout(order))
      ensures Now() == Step(cfg, old(Now()), Action.Timeout(order))
    {
      order := [];
      if RunStateOf(phase).InCommit? {
        order := LeaveCommitState();
      } else if latest.Some? {
        ChangeRound(Resign(latest.value, round + 1, self));
      } else {
        ChangeRound(NewRoundChange(View(height, round + 1), None, self));
      }
    }

    /** A jump on a future proposal: the query in `wait_future_proposal`, then the new round if it was positive. */
    method TryFutureProposal(future: nat) returns (jumped: bool)
      requires Valid() && status.Running? && round < future <= MAX_ROUND
      modifies this, messages
      ensures Valid() && (jumped <==> Enabled(cfg, old(Now()), JumpToProposal(future)))
      ensures Now() == Step(cfg, old(Now()), if jumped then JumpToProposal(future) else QueryProposal(future))
      ensures old(LocalInv(cfg, Now())) ==>
                var p := ProposalAt(old(messages.contents), View(height, future));
                jumped <==> p.Some? && Acceptable(cfg, p.value)
      ensures if jumped then round == future && phase == AwaitProposal && status == Running
              else unchanged(this)
    {
      ghost var n := Now();
      var verdict, _ := messages.GetValidProposal(View(height, future), ProposalVerifier(cfg, future));
      jumped := verdict == Some(Accept);
      if jumped {
        EnterRound(future);
      }
      ProposalTried(cfg, n, future, jumped);
    }

    /** A jump on a future round change quorum: the count in `wait_future_rcc`, then the new round if it is enough. */
    method TryFutureRoundChanges(future: nat) returns (jumped: bool)
      requires Valid() && status.Running? && round < future <= MAX_ROUND
      modifies this, messages
      ensures Valid() && (jumped <==> Enabled(cfg, old(Now()), JumpToRoundChanges(future)))
      ensures Now() == Step(cfg, old(Now()), if jumped then JumpToRoundChanges(future) else QueryRoundChanges(future))
      ensures old(LocalInv(cfg, Now())) ==>
                (jumped <==>
                   |ChangeSenders(cfg, old(messages.contents), View(height, future))| >= cfg.quorum(height))
      ensures if jumped then round == future && phase == AwaitProposal && status == Running
              else unchanged(this)
    {
      ghost var n := Now();
      var count := messages.GetValidRoundChangeCount(View(height, future), RoundChangeVerifier(cfg, height));
      jumped := count >= cfg.quorum(height);
      if jumped {
        EnterRound(future);
      }
      ChangesTried(cfg, n, future, jumped);
    }
  }
}

/**
 One honest node running one height (ibft.rs `run`), as the steps its tasks can take.

 The round task is cut at its await points, so that a timeout, a jump or a delivery can fall
 between a broadcast and the local bookkeeping that follows it.  Every `expect`, `assert` and
 `panic!` on the way is a step into status Panicked (or Dead, when the rounds run out).
 */
module Nodes {
  import opened Types
  import opened Configuration
  import opened Verification
  import opened Stores

  /** Where the round task stands. */
  datatype Phase =
    | AwaitProposal                              // waiting for, or about to build, the proposal
    | ProposalSent(proposal: ProposalMsg)        // own proposal broadcast, not stored yet
    | PrepareSent(prepare: PrepareMsg)           // own prepare broadcast, not stored yet
    | AwaitPrepares(digest: Digest)              // run_prepare
    | CommitSent(commit: CommitMsg)              // own commit broadcast, run state still Prepare
    | AwaitCommits(digest: Digest)               // run_commit
    | Sealed(digest: Digest, seals: seq<Signature>)  // round task finished, result not picked up yet
    | Failed                                     // round task returned an error

  datatype RunState = InProposal | InPrepare | InCommit

  /** What SharedRunState holds at each point of the round task. */
  function RunStateOf(phase: Phase): RunState {
    match phase
    case AwaitProposal | ProposalSent(_) | PrepareSent(_) | Failed => InProposal
    case AwaitPrepares(_) | CommitSent(_) => InPrepare
    case AwaitCommits(_) | Sealed(_, _) => InCommit
  }

  datatype Status = Running | Decided(block: FinalizedBlock) | Cancelled | Dead | Panicked

  /** `signed` is everything this node ever signed and broadcast. */
  datatype Node = Node(
    self: Address,
    height: nat,
    finalized: nat,
    store: Store,
    round: nat,
    phase: Phase,
    latest: Option<RoundChangeMsg>,
    status: Status,
    signed: set<Digest>)
  {
    function Current(): View { View(height, round) }
  }

  datatype Action =
    | Deliver(message: Received)
    | Prune(part: Part, below: nat)
    | QueryProposal(round: nat)
    | QueryRoundChanges(round: nat)
    | ProposeFirst(built: Option<RawBlock>)
    | CollectRoundChanges(order: seq<Slot>, built: Option<RawBlock>)
    | StoreProposal
    | CheckProposal
    | StorePrepare
    | CheckPrepares
    | StoreCommit
    | CheckCommits(order: seq<Slot>)
    | Finish
    | Timeout(order: seq<Slot>)
    | JumpToProposal(round: nat)
    | JumpToRoundChanges(round: nat)
    | Cancel

  function ProposalVerifier(cfg: Config, round: nat): ProposalMsg -> Verdict {
    if round == 0 then (p: ProposalMsg) => CheckProposal0(cfg, p) else (p: ProposalMsg) => CheckProposal1(cfg, p)
  }

  function RoundChangeVerifier(cfg: Config, height: nat): RoundChangeMsg -> bool {
    (rc: RoundChangeMsg) => ValidRoundChange(cfg, rc, height)
  }

  // ---------- pieces of the steps ----------

  function Sign(n: Node, digest: Digest): Node {
    n.(signed := n.signed + {digest})
  }

  /** Top of the loop in `run` with `start_ibft_round`: a new round, the own round change added for its proposer. */
  function EnterRound(cfg: Config, n: Node, round: nat): Node {
    if round > MAX_ROUND then n.(round := round, phase := AwaitProposal, status := Dead)
    else
      var view := View(n.height, round);
      var add := n.latest.Some? && n.latest.value.view == view && cfg.proposer(view) == n.self;
      n.(round := round,
         phase := AwaitProposal,
         store := if add then AddRoundChange(n.store, n.self, n.latest.value, n.self) else n.store)
  }

  function CachedProposal(cfg: Config, n: Node, view: View): (Option<Verdict>, Store) {
    (ProposalVerdict(n.store, view, ProposalVerifier(cfg, view.round)),
     CacheVerdict(n.store, view, ProposalVerifier(cfg, view.round)))
  }

  function VerifiedRoundChanges(cfg: Config, n: Node, round: nat): Store {
    VerifyRoundChanges(n.store, View(n.height, round), RoundChangeVerifier(cfg, n.height))
  }

  function CountAt<T>(m: map<Slot, T>, view: View): nat { |At(m, view)| }

  /** Position of the first round change that carries a prepared block. */
  function FirstPrepared(rcs: seq<RoundChangeMsg>): (pos: Option<nat>)
    ensures pos.Some? ==> pos.value < |rcs| && rcs[pos.value].prepared.Some?
    ensures pos.Some? ==> forall i :: 0 <= i < pos.value ==> rcs[i].prepared.None?
    ensures pos.None? ==> forall i :: 0 <= i < |rcs| ==> rcs[i].prepared.None?
  {
    if |rcs| == 0 then None
    else if rcs[0].prepared.Some? then Some(0)
    else
      var rest := FirstPrepared(rcs[1..]);
      if rest.Some? then Some(rest.value + 1) else None
  }

  function MetadataOf(rcs: seq<RoundChangeMsg>): (list: seq<RoundChangeMetadata>)
    ensures |list| == |rcs|
    ensures forall i :: 0 <= i < |rcs| ==> list[i] == rcs[i].Metadata()
  {
    seq(|rcs|, i requires 0 <= i < |rcs| => rcs[i].Metadata())
  }

  /** `swap_remove` of the chosen round change, pushed back at the end: it trades places with the last one. */
  function ChosenLast(rcs: seq<RoundChangeMsg>, pos: nat): (list: seq<RoundChangeMsg>)
    requires pos < |rcs|
    ensures |list| == |rcs|
    ensures forall i :: 0 <= i < |rcs| ==>
              list[i] == if i == |rcs| - 1 then rcs[pos] else if i == pos then rcs[|rcs| - 1] else rcs[i]
  {
    rcs[pos := rcs[|rcs| - 1]][..|rcs| - 1] + [rcs[pos]]
  }

  /** The proposal built from a round change quorum: the first prepared block found, or a fresh one. */
  function BuildProposal(view: View, rcs: seq<RoundChangeMsg>, built: Option<RawBlock>,
                         self: Address): Option<ProposalMsg> {
    var pos := FirstPrepared(rcs);
    if pos.Some? then
      Some(NewProposal(view, rcs[pos.value].prepared.value.block.raw,
                       Some(MetadataOf(ChosenLast(rcs, pos.value))), self))
    else if built.Some? then
      Some(NewProposal(view, built.value, Some(MetadataOf(rcs)), self))
    else
      None
  }

  function Announce(n: Node, proposal: ProposalMsg): Node {
    Sign(n, ProposalDigest(proposal.view, proposal.digest)).(phase := ProposalSent(proposal))
  }

  // ---------- which steps are possible ----------

  predicate Enabled(cfg: Config, n: Node, a: Action) {
    var view := n.Current();
    var quorum := cfg.quorum(n.height);
    && n.status.Running?
    && match a
       case Deliver(_) => true
       case Prune(_, below) => below <= n.height
       case QueryProposal(round) => n.round < round <= MAX_ROUND
       case QueryRoundChanges(round) => n.round < round <= MAX_ROUND
       case ProposeFirst(_) => n.round == 0 && n.phase.AwaitProposal? && cfg.proposer(view) == n.self
       case CollectRoundChanges(order, _) =>
         && n.round >= 1 && n.phase.AwaitProposal? && cfg.proposer(view) == n.self
         && Orders(order, At(VerifiedRoundChanges(cfg, n, n.round).roundChanges, view))
       case StoreProposal => n.phase.ProposalSent?
       case CheckProposal => n.phase.AwaitProposal? && cfg.proposer(view) != n.self
       case StorePrepare => n.phase.PrepareSent?
       case CheckPrepares => n.phase.AwaitPrepares?
       case StoreCommit => n.phase.CommitSent?
       case CheckCommits(order) =>
         && n.phase.AwaitCommits?
         && Orders(order, At(RetainCommits(n.store, view, n.phase.digest).commits, view))
       case Finish => n.phase.Sealed?
       case Timeout(order) =>
         (RunStateOf(n.phase).InCommit? && ProposalAt(n.store, view).Some?) ==>
           Orders(order, At(RetainPrepares(n.store, view, ProposalAt(n.store, view).value.digest).prepares, view))
       case JumpToProposal(round) =>
         && n.round < round <= MAX_ROUND
         && CachedProposal(cfg, n, View(n.height, round)).0 == Some(Accept)
       case JumpToRoundChanges(round) =>
         && n.round < round <= MAX_ROUND
         && CountAt(VerifiedRoundChanges(cfg, n, round).roundChanges, View(n.height, round)) >= quorum
       case Cancel => true
  }

  // ---------- the steps ----------

  function StepProposeFirst(n: Node, built: Option<RawBlock>): Node {
    if built.None? then n.(phase := Failed)
    else Announce(n, NewProposal(n.Current(), built.value, None, n.self))
  }

  /** One pass of `wait_rcc`: verify and count; on a quorum take the round changes and propose. */
  function StepCollect(cfg: Config, n: Node, order: seq<Slot>, built: Option<RawBlock>): Node
    requires Enabled(cfg, n, CollectRoundChanges(order, built))
  {
    var view := n.Current();
    var st := VerifiedRoundChanges(cfg, n, n.round);
    var here := At(st.roundChanges, view);
    if |here| < cfg.quorum(n.height) then n.(store := st)
    else
      var rcs := Messages(Values(order, here));
      var taken := n.(store := st.(roundChanges := Without(st.roundChanges, view)));
      var proposal := BuildProposal(view, rcs, built, n.self);
      if proposal.None? then taken.(phase := Failed) else Announce(taken, proposal.value)
  }

  function Messages(entries: seq<RoundChangeEntry>): (rcs: seq<RoundChangeMsg>)
    ensures |rcs| == |entries|
    ensures forall i :: 0 <= i < |entries| ==> rcs[i] == entries[i].message
  {
    seq(|entries|, i requires 0 <= i < |entries| => entries[i].message)
  }

  function Seals(commits: seq<CommitMsg>): (seals: seq<Signature>)
    ensures |seals| == |commits|
    ensures forall i :: 0 <= i < |commits| ==> seals[i] == commits[i].seal
  {
    seq(|commits|, i requires 0 <= i < |commits| => commits[i].seal)
  }

  function StepStoreProposal(n: Node): Node
    requires n.phase.ProposalSent?
  {
    var proposal := n.phase.proposal;
    n.(store := AddProposal(n.store, n.self, proposal, n.self), phase := AwaitPrepares(proposal.digest))
  }

  /** A follower asks for the proposal of its view: waits, gives up, or prepares. */
  function StepCheckProposal(cfg: Config, n: Node): Node {
    var view := n.Current();
    var (verdict, st) := CachedProposal(cfg, n, view);
    if verdict.None? then n.(store := st)
    else if verdict.value.Reject? then n.(store := st, phase := Failed)
    else if ProposalAt(n.store, view).None? then n
    else
      var prepare := NewPrepare(view, ProposalAt(n.store, view).value.digest, n.self);
      Sign(n, PrepareDigest(view, prepare.digest)).(store := st, phase := PrepareSent(prepare))
  }

  function StepStorePrepare(n: Node): Node
    requires n.phase.PrepareSent?
  {
    n.(store := AddPrepare(n.store, n.phase.prepare, n.self), phase := AwaitPrepares(n.phase.prepare.digest))
  }

  /** One recount in `run_prepare`. */
  function StepCheckPrepares(cfg: Config, n: Node): Node
    requires n.phase.AwaitPrepares?
  {
    var view, digest := n.Current(), n.phase.digest;
    var counted := n.(store := RetainPrepares(n.store, view, digest));
    if CountAt(counted.store.prepares, view) + 1 < cfg.quorum(n.height) then counted
    else
      var commit := NewCommit(view, digest, n.self);
      Sign(Sign(counted, digest), CommitDigest(view, digest, commit.seal)).(phase := CommitSent(commit))
  }

  function StepStoreCommit(n: Node): Node
    requires n.phase.CommitSent?
  {
    n.(store := AddCommit(n.store, n.phase.commit, n.self), phase := AwaitCommits(n.phase.commit.digest))
  }

  /** One recount in `run_commit`. */
  function StepCheckCommits(cfg: Config, n: Node, order: seq<Slot>): Node
    requires Enabled(cfg, n, CheckCommits(order))
  {
    var view, digest := n.Current(), n.phase.digest;
    var st := RetainCommits(n.store, view, digest);
    var here := At(st.commits, view);
    if |here| < cfg.quorum(n.height) then n.(store := st)
    else n.(store := st.(commits := Without(st.commits, view)), phase := Sealed(digest, Seals(Values(order, here))))
  }

  /** `handle_round_finish`. */
  function StepFinish(n: Node): Node
    requires n.phase.Sealed?
  {
    var proposal := ProposalAt(n.store, n.Current());
    if proposal.None? then n.(status := Panicked)
    else
      var block := proposal.value.block;
      n.(store := DropProposal(n.store, n.Current()),
         status := Decided(FinalizedBlock(block.raw, block.round, n.phase.seals)))
  }

  /** `handle_timeout` up to the next round. */
  function StepTimeout(cfg: Config, n: Node, order: seq<Slot>): Node
    requires Enabled(cfg, n, Timeout(order))
  {
    var view := n.Current();
    if RunStateOf(n.phase).InCommit? then
      var proposal := ProposalAt(n.store, view);
      if proposal.None? then n.(status := Panicked)
      else
        var here := At(RetainPrepares(n.store, view, proposal.value.digest).prepares, view);
        var left := DropProposal(n.store, view).(prepares := Without(n.store.prepares, view));
        if |here| + 1 < cfg.quorum(n.height) then n.(store := left, status := Panicked)
        else
          var prepared := NewPreparedProposed(proposal.value, Values(order, here));
          ChangeRound(cfg, n.(store := left), NewRoundChange(View(n.height, n.round + 1), Some(prepared), n.self))
    else if n.latest.Some? then
      ChangeRound(cfg, n, Resign(n.latest.value, n.round + 1, n.self))
    else
      ChangeRound(cfg, n, NewRoundChange(View(n.height, n.round + 1), None, n.self))
  }

  function ChangeRound(cfg: Config, n: Node, rc: RoundChangeMsg): Node {
    EnterRound(cfg, Sign(n, RoundChangeDigest(rc.view, rc.Certificate())).(latest := Some(rc)), n.round + 1)
  }

  function Step(cfg: Config, n: Node, a: Action): Node
    requires Enabled(cfg, n, a)
  {
    match a
    case Deliver(message) => n.(store := Handle(cfg, n.self, n.finalized, n.store, message))
    case Prune(part, below) => n.(store := PrunePart(n.store, part, below))
    case QueryProposal(round) => n.(store := CachedProposal(cfg, n, View(n.height, round)).1)
    case QueryRoundChanges(round) => n.(store := VerifiedRoundChanges(cfg, n, round))
    case ProposeFirst(built) => StepProposeFirst(n, built)
    case CollectRoundChanges(order, built) => StepCollect(cfg, n, order, built)
    case StoreProposal => StepStoreProposal(n)
    case CheckProposal => StepCheckProposal(cfg, n)
    case StorePrepare => StepStorePrepare(n)
    case CheckPrepares => StepCheckPrepares(cfg, n)
    case StoreCommit => StepStoreCommit(n)
    case CheckCommits(order) => StepCheckCommits(cfg, n, order)
    case Finish => StepFinish(n)
    case Timeout(order) => StepTimeout(cfg, n, order)
    case JumpToProposal(round) =>
      EnterRound(cfg, n.(store := CachedProposal(cfg, n, View(n.height, round)).1), round)
    case JumpToRoundChanges(round) => EnterRound(cfg, n.(store := VerifiedRoundChanges(cfg, n, round)), round)
    case Cancel => n.(status := Cancelled)
  }
}

/** Runs of a single node, whatever is delivered to it. */
module NodeRuns {
  import opened Configuration
  import opened Stores
  import opened Nodes

  ghost predicate NodeStepsAt(cfg: Config, nodes: seq<Node>, actions: seq<Action>, k: nat)
    requires |nodes| == |actions| + 1 && k < |actions|
  {
    Enabled(cfg, nodes[k], actions[k]) && nodes[k + 1] == Step(cfg, nodes[k], actions[k])
  }

  ghost predicate IsNodeRun(cfg: Config, nodes: seq<Node>, actions: seq<Action>) {
    && |nodes| == |actions| + 1
    && forall k :: 0 <= k < |actions| ==> NodeStepsAt(cfg, nodes, actions, k)
  }

  /** Some run of the node leads from n to n'. */
  ghost predicate Runs(cfg: Config, n: Node, n': Node) {
    exists nodes, actions :: IsNodeRun(cfg, nodes, actions) && nodes[0] == n && nodes[|actions|] == n'
  }

  lemma RunsNowhere(cfg: Config, n: Node)
    ensures Runs(cfg, n, n)
  {
    var actions: seq<Action> := [];
    assert IsNodeRun(cfg, [n], actions);
    assert [n][0] == n && [n][|actions|] == n;
  }

  lemma RunsOn(cfg: Config, n: Node, n': Node, a: Action)
    requires Runs(cfg, n, n') && Enabled(cfg, n', a)
    ensures Runs(cfg, n, Step(cfg, n', a))
  {
    var nodes, actions :| IsNodeRun(cfg, nodes, actions) && nodes[0] == n && nodes[|actions|] == n';
    var nodes', actions' := nodes + [Step(cfg, n', a)], actions + [a];
    forall k | 0 <= k < |actions'| ensures NodeStepsAt(cfg, nodes', actions', k) {
      if k < |actions| {
        assert NodeStepsAt(cfg, nodes, actions, k);
        assert nodes'[k] == nodes[k] && nodes'[k + 1] == nodes[k + 1] && actions'[k] == actions[k];
      }
    }
    assert IsNodeRun(cfg, nodes', actions');
    assert nodes'[0] == n && nodes'[|actions'|] == Step(cfg, n', a);
  }

  lemma {:induction false} RunsThroughDeliveries(cfg: Config, n: Node, st: Store, batch: seq<Received>)
    requires n.status.Running? && Runs(cfg, n, n.(store := st))
    ensures Runs(cfg, n, n.(store := HandleAll(cfg, n.self, n.finalized, st, batch)))
    decreases |batch|
  {
    if |batch| > 0 {
      var last := |batch| - 1;
      RunsThroughDeliveries(cfg, n, st, batch[..last]);
      var handled := HandleAll(cfg, n.self, n.finalized, st, batch[..last]);
      RunsOn(cfg, n, n.(store := handled), Deliver(batch[last]));
    }
  }
}

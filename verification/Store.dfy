/**
 The message store of a node (messages.rs) as a value: one entry per height or view for
 proposals, one per view and sender for everything else.  Class ConsensusMessages keeps the
 nested maps of the source and is proved to do exactly what these functions say.
 */
module Stores {
  import opened Types
  import opened Configuration
  import opened Verification

  datatype Slot = Slot(view: View, sender: Address)

  datatype ProposalEntry = ProposalEntry(proposal: ProposalMsg, verdict: Option<Verdict>)
  datatype RoundChangeEntry = RoundChangeEntry(message: RoundChangeMsg, verified: bool)

  datatype Store = Store(
    proposals0: map<nat, ProposalMsg>,
    proposals1: map<View, ProposalEntry>,
    prepares: map<Slot, PrepareMsg>,
    commits: map<Slot, CommitMsg>,
    roundChanges: map<Slot, RoundChangeEntry>)

  const EmptyStore := Store(map[], map[], map[], map[], map[])

  // ---------- maps keyed by view and sender ----------

  /** The messages of one view. */
  function At<T>(m: map<Slot, T>, view: View): map<Slot, T> {
    map slot | slot in m && slot.view == view :: m[slot]
  }

  /** `retain` on the messages of one view. */
  function Retain<T>(m: map<Slot, T>, view: View, keep: T -> bool): map<Slot, T> {
    map slot | slot in m && (slot.view == view ==> keep(m[slot])) :: m[slot]
  }

  /** `mem::take` or `remove` of one view. */
  function Without<T>(m: map<Slot, T>, view: View): map<Slot, T> {
    map slot | slot in m && slot.view != view :: m[slot]
  }

  function HeightsFrom<T>(m: map<nat, T>, height: nat): map<nat, T> {
    map h | h in m && h >= height :: m[h]
  }

  function ViewsFrom<T>(m: map<View, T>, height: nat): map<View, T> {
    map view | view in m && view.height >= height :: m[view]
  }

  function SlotsFrom<T>(m: map<Slot, T>, height: nat): map<Slot, T> {
    map slot | slot in m && slot.view.height >= height :: m[slot]
  }

  function Insert<K, V>(m: map<K, V>, key: K, value: V): map<K, V> {
    if key in m then m else m[key := value]
  }

  function Remove<K, V>(m: map<K, V>, key: K): map<K, V> {
    map other | other in m && other != key :: m[other]
  }

  /** An order in which a hash map may list its values. */
  predicate Orders<T>(order: seq<Slot>, m: map<Slot, T>) {
    && (forall i, j :: 0 <= i < j < |order| ==> order[i] != order[j])
    && (forall slot :: slot in order ==> slot in m)
    && (forall slot :: slot in m ==> slot in order)
  }

  /** A hash map can be listed in some order. */
  lemma SomeOrder<T>(m: map<Slot, T>) returns (order: seq<Slot>)
    ensures Orders(order, m)
    decreases |m|
  {
    if m == map[] {
      return [];
    }
    var slot :| slot in m;
    var rest := SomeOrder(m - {slot});
    order := [slot] + rest;
  }

  lemma {:induction false} OrderIsAsLong<T>(order: seq<Slot>, m: map<Slot, T>)
    requires Orders(order, m)
    ensures |order| == |m|
  {
    if |order| == 0 {
      assert m.Keys == {};
      assert |m| == |m.Keys|;
    } else {
      var first := order[0];
      var rest := map slot | slot in m && slot != first :: m[slot];
      assert m.Keys == rest.Keys + {first};
      assert |m.Keys| == |rest.Keys| + 1;
      forall slot | slot in rest ensures slot in order[1..] {
        assert slot in order;
      }
      OrderIsAsLong(order[1..], rest);
    }
  }

  function Values<T>(order: seq<Slot>, m: map<Slot, T>): (values: seq<T>)
    requires forall slot :: slot in order ==> slot in m
    ensures |values| == |order|
    ensures forall i :: 0 <= i < |order| ==> values[i] == m[order[i]]
  {
    seq(|order|, i requires 0 <= i < |order| => m[order[i]])
  }

  // ---------- adding ----------

  /** First proposal of its view wins; a later-round proposal of our own counts as verified. */
  function AddProposal(st: Store, self: Address, proposal: ProposalMsg, sender: Address): Store {
    if proposal.view.round == 0 then
      st.(proposals0 := Insert(st.proposals0, proposal.view.height, proposal))
    else
      var verdict := if sender == self then Some(Accept) else None;
      st.(proposals1 := Insert(st.proposals1, proposal.view, ProposalEntry(proposal, verdict)))
  }

  function AddPrepare(st: Store, prepare: PrepareMsg, sender: Address): Store {
    st.(prepares := Insert(st.prepares, Slot(prepare.view, sender), prepare))
  }

  function AddCommit(st: Store, commit: CommitMsg, sender: Address): Store {
    st.(commits := Insert(st.commits, Slot(commit.view, sender), commit))
  }

  function AddRoundChange(st: Store, self: Address, rc: RoundChangeMsg, sender: Address): Store {
    st.(roundChanges := Insert(st.roundChanges, Slot(rc.view, sender), RoundChangeEntry(rc, sender == self)))
  }

  // ---------- querying, taking, pruning ----------

  /** The five maps are locked and pruned one after another. */
  datatype Part = FirstProposals | LaterProposals | Prepares | Commits | RoundChanges

  function PrunePart(st: Store, part: Part, height: nat): Store {
    match part
    case FirstProposals => st.(proposals0 := HeightsFrom(st.proposals0, height))
    case LaterProposals => st.(proposals1 := ViewsFrom(st.proposals1, height))
    case Prepares => st.(prepares := SlotsFrom(st.prepares, height))
    case Commits => st.(commits := SlotsFrom(st.commits, height))
    case RoundChanges => st.(roundChanges := SlotsFrom(st.roundChanges, height))
  }

  function PruneStore(st: Store, height: nat): Store {
    Store(
      HeightsFrom(st.proposals0, height),
      ViewsFrom(st.proposals1, height),
      SlotsFrom(st.prepares, height),
      SlotsFrom(st.commits, height),
      SlotsFrom(st.roundChanges, height))
  }

  function ProposalAt(st: Store, view: View): Option<ProposalMsg> {
    if view.round == 0 then
      if view.height in st.proposals0 then Some(st.proposals0[view.height]) else None
    else
      if view in st.proposals1 then Some(st.proposals1[view].proposal) else None
  }

  /** What `get_valid_proposal_digest` answers: nothing stored, or the (possibly cached) verdict. */
  function ProposalVerdict(st: Store, view: View, verify: ProposalMsg -> Verdict): Option<Verdict> {
    if ProposalAt(st, view).None? then None
    else if view.round == 0 then Some(verify(st.proposals0[view.height]))
    else if st.proposals1[view].verdict.Some? then st.proposals1[view].verdict
    else Some(verify(st.proposals1[view].proposal))
  }

  /** ... and the store it leaves: later-round verdicts are cached. */
  function CacheVerdict(st: Store, view: View, verify: ProposalMsg -> Verdict): Store {
    if view.round == 0 || view !in st.proposals1 then st
    else
      var verdict := ProposalVerdict(st, view, verify);
      st.(proposals1 := st.proposals1[view := ProposalEntry(st.proposals1[view].proposal, verdict)])
  }

  function DropProposal(st: Store, view: View): Store {
    if view.round == 0 then
      st.(proposals0 := Remove(st.proposals0, view.height))
    else
      st.(proposals1 := Remove(st.proposals1, view))
  }

  function RetainPrepares(st: Store, view: View, digest: Digest): Store {
    st.(prepares := Retain(st.prepares, view, (m: PrepareMsg) => m.digest == digest))
  }

  function RetainCommits(st: Store, view: View, digest: Digest): Store {
    st.(commits := Retain(st.commits, view, (m: CommitMsg) => m.digest == digest))
  }

  /** Drops what does not verify in one view and flags the rest, verifying only what is not flagged yet. */
  function VerifyView(m: map<Slot, RoundChangeEntry>, view: View, verify: RoundChangeMsg -> bool):
    map<Slot, RoundChangeEntry>
  {
    map slot | slot in m && (slot.view == view ==> m[slot].verified || verify(m[slot].message)) ::
      if slot.view == view then RoundChangeEntry(m[slot].message, true) else m[slot]
  }

  function VerifyRoundChanges(st: Store, view: View, verify: RoundChangeMsg -> bool): Store {
    st.(roundChanges := VerifyView(st.roundChanges, view, verify))
  }

  // ---------- the peer message handler ----------

  datatype Received =
    | GotProposal(proposal: ProposalMsg)
    | GotPrepare(prepare: PrepareMsg)
    | GotCommit(commit: CommitMsg)
    | GotRoundChange(roundChange: RoundChangeMsg)
  {
    function View(): View {
      match this
      case GotProposal(m) => m.view
      case GotPrepare(m) => m.view
      case GotCommit(m) => m.view
      case GotRoundChange(m) => m.view
    }
    function Signer(): Option<Address> {
      match this
      case GotProposal(m) => m.Signer()
      case GotPrepare(m) => m.Signer()
      case GotCommit(m) => m.Signer()
      case GotRoundChange(m) => m.Signer()
    }
  }

  /** `Stale` is the silent return for finalized heights, `Refused` an error return. */
  datatype Handling = Stored | Stale | Refused

  function Judge(cfg: Config, self: Address, finalized: nat, message: Received): Handling {
    var view, signer := message.View(), message.Signer();
    if view.height <= finalized then Stale
    else if message.GotRoundChange? && view.round == 0 then Refused
    else if view.round > MAX_ROUND then Refused
    else if signer.None? || signer.value == self then Refused
    else
      match message
      case GotProposal(_) => if signer.value == cfg.proposer(view) then Stored else Refused
      case GotPrepare(_) =>
        if signer.value in cfg.validators(view.height) && signer.value != cfg.proposer(view) then Stored else Refused
      case GotCommit(commit) =>
        if signer.value in cfg.validators(view.height) && commit.SealSigner() == signer then Stored else Refused
      case GotRoundChange(_) => if signer.value in cfg.validators(view.height) then Stored else Refused
  }

  function Handle(cfg: Config, self: Address, finalized: nat, st: Store, message: Received): Store {
    if !Judge(cfg, self, finalized, message).Stored? then st
    else
      var sender := message.Signer().value;
      match message
      case GotProposal(proposal) => AddProposal(st, self, proposal, sender)
      case GotPrepare(prepare) => AddPrepare(st, prepare, sender)
      case GotCommit(commit) => AddCommit(st, commit, sender)
      case GotRoundChange(rc) => AddRoundChange(st, self, rc, sender)
  }

  /** Peer messages one after another. */
  function HandleAll(cfg: Config, self: Address, finalized: nat, st: Store, batch: seq<Received>): Store
    decreases |batch|
  {
    if |batch| == 0 then st
    else
      var last := |batch| - 1;
      Handle(cfg, self, finalized, HandleAll(cfg, self, finalized, st, batch[..last]), batch[last])
  }
}

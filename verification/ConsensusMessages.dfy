/** The message store and the peer message handler as objects (messages.rs, engine.rs). */
module ConsensusStore {
  import opened Types
  import opened Configuration
  import opened Verification
  import opened Stores
  import opened NestedMaps

  class ConsensusMessages {
    const self: Address

    var proposals0: map<nat, ProposalMsg>
    var proposals1: ByView<ProposalEntry>
    var prepares: BySender<PrepareMsg>
    var commits: BySender<CommitMsg>
    var roundChanges: BySender<RoundChangeEntry>

    // What the four broadcast channels carried so far.
    var proposalNotices: seq<View>
    var prepareNotices: seq<View>
    var commitNotices: seq<View>
    var roundChangeNotices: seq<View>

    constructor (address: Address)
      ensures self == address && Valid() && contents == EmptyStore
    {
      self := address;
      proposals0, proposals1, prepares, commits, roundChanges := map[], map[], map[], map[], map[];
      proposalNotices, prepareNotices, commitNotices, roundChangeNotices := [], [], [], [];
      contents := EmptyStore;
    }

    // The store without its nesting; empty inner maps do not show.
    ghost var contents: Store

    ghost predicate Valid()
      reads this
    {
      && contents.proposals0 == proposals0
      && RepresentsViews(contents.proposals1, proposals1)
      && Represents(contents.prepares, prepares)
      && Represents(contents.commits, commits)
      && Represents(contents.roundChanges, roundChanges)
      && RoundsBounded(proposals1) && RoundsBounded(roundChanges)
      && (forall view :: view in roundChangeNotices ==> view.round < ROUND_ARRAY_SIZE)
    }

    method Prune(height: nat)
      requires Valid()
      modifies this
      ensures Valid()
      ensures unchanged(this`proposalNotices, this`prepareNotices, this`commitNotices, this`roundChangeNotices)
      ensures contents == PruneStore(old(contents), height)
    {
      FromViewsRepresents(contents.proposals1, proposals1, height);
      FromRepresents(contents.prepares, prepares, height);
      FromRepresents(contents.commits, commits, height);
      FromRepresents(contents.roundChanges, roundChanges, height);
      proposals0 := HeightsFrom(proposals0, height);
      proposals1 := HeightsFrom(proposals1, height);
      prepares := HeightsFrom(prepares, height);
      commits := HeightsFrom(commits, height);
      roundChanges := HeightsFrom(roundChanges, height);
      contents := PruneStore(contents, height);
    }

    // ---------- adding ----------

    method AddProposal(proposal: ProposalMsg, sender: Address)
      requires Valid()
      requires proposal.view.round <= MAX_ROUND
      modifies this
      ensures Valid()
      ensures unchanged(this`prepareNotices, this`commitNotices, this`roundChangeNotices)
      ensures contents == Stores.AddProposal(old(contents), self, proposal, sender)
      ensures proposalNotices ==
                if ProposalAt(old(contents), proposal.view).None? then old(proposalNotices) + [proposal.view]
                else old(proposalNotices)
    {
      if proposal.view.round == 0 {
        AddFirstProposal(proposal);
      } else {
        AddLaterProposal(proposal, sender == self);
      }
    }

    /** Round 0: one proposal per height. */
    method AddFirstProposal(proposal: ProposalMsg)
      requires Valid() && proposal.view.round == 0
      modifies this
      ensures Valid()
      ensures unchanged(this`prepareNotices, this`commitNotices, this`roundChangeNotices)
      ensures contents == old(contents).(proposals0 := Insert(old(contents).proposals0, proposal.view.height, proposal))
      ensures proposalNotices ==
                if proposal.view.height in old(contents).proposals0 then old(proposalNotices)
                else old(proposalNotices) + [proposal.view]
    {
      var view := proposal.view;
      if view.height !in proposals0 {
        proposals0 := proposals0[view.height := proposal];
        proposalNotices := proposalNotices + [view];
      }
      contents := contents.(proposals0 := Insert(contents.proposals0, view.height, proposal));
    }

    /** Later rounds: one proposal per view, an own one counts as verified. */
    method AddLaterProposal(proposal: ProposalMsg, own: bool)
      requires Valid() && 1 <= proposal.view.round <= MAX_ROUND
      modifies this
      ensures Valid()
      ensures unchanged(this`prepareNotices, this`commitNotices, this`roundChangeNotices)
      ensures var entry := ProposalEntry(proposal, if own then Some(Accept) else None);
              contents == old(contents).(proposals1 := Insert(old(contents).proposals1, proposal.view, entry))
      ensures proposalNotices ==
                if proposal.view in old(contents).proposals1 then old(proposalNotices)
                else old(proposalNotices) + [proposal.view]
    {
      var view := proposal.view;
      var entry := ProposalEntry(proposal, if own then Some(Accept) else None);
      assert HasView(proposals1, view) <==> view in contents.proposals1;
      if view.round !in RoundsAt(proposals1, view.height) {
        SetViewRepresents(contents.proposals1, proposals1, view, entry);
        proposals1 := SetAt(proposals1, view, entry);
        proposalNotices := proposalNotices + [view];
      }
      contents := contents.(proposals1 := Insert(contents.proposals1, view, entry));
    }

    method AddPrepare(prepare: PrepareMsg, sender: Address)
      requires Valid()
      modifies this
      ensures Valid()
      ensures unchanged(this`proposalNotices, this`commitNotices, this`roundChangeNotices)
      ensures contents == Stores.AddPrepare(old(contents), prepare, sender)
      ensures prepareNotices ==
                if Slot(prepare.view, sender) in old(contents).prepares then old(prepareNotices)
                else old(prepareNotices) + [prepare.view]
    {
      var view := prepare.view;
      var inbox := InboxAt(prepares, view);
      InsertRepresents(contents.prepares, prepares, view, sender, prepare);
      if sender in inbox {
        prepares := SetAt(prepares, view, inbox);
      } else {
        prepares := SetAt(prepares, view, inbox[sender := prepare]);
        prepareNotices := prepareNotices + [view];
      }
      contents := Stores.AddPrepare(contents, prepare, sender);
    }

    method AddCommit(commit: CommitMsg, sender: Address)
      requires Valid()
      modifies this
      ensures Valid()
      ensures unchanged(this`proposalNotices, this`prepareNotices, this`roundChangeNotices)
      ensures contents == Stores.AddCommit(old(contents), commit, sender)
      ensures commitNotices ==
                if Slot(commit.view, sender) in old(contents).commits then old(commitNotices)
                else old(commitNotices) + [commit.view]
    {
      var view := commit.view;
      var inbox := InboxAt(commits, view);
      InsertRepresents(contents.commits, commits, view, sender, commit);
      if sender in inbox {
        commits := SetAt(commits, view, inbox);
      } else {
        commits := SetAt(commits, view, inbox[sender := commit]);
        commitNotices := commitNotices + [view];
      }
      contents := Stores.AddCommit(contents, commit, sender);
    }

    method AddRoundChange(rc: RoundChangeMsg, sender: Address)
      requires Valid()
      requires rc.view.round <= MAX_ROUND
      modifies this
      ensures Valid()
      ensures unchanged(this`proposalNotices, this`prepareNotices, this`commitNotices)
      ensures contents == Stores.AddRoundChange(old(contents), self, rc, sender)
      ensures roundChangeNotices ==
                if Slot(rc.view, sender) in old(contents).roundChanges then old(roundChangeNotices)
                else old(roundChangeNotices) + [rc.view]
    {
      var view := rc.view;
      var inbox := InboxAt(roundChanges, view);
      var entry := RoundChangeEntry(rc, sender == self);
      InsertRepresents(contents.roundChanges, roundChanges, view, sender, entry);
      if sender in inbox {
        roundChanges := SetAt(roundChanges, view, inbox);
      } else {
        roundChanges := SetAt(roundChanges, view, inbox[sender := entry]);
        roundChangeNotices := roundChangeNotices + [view];
      }
      contents := Stores.AddRoundChange(contents, self, rc, sender);
    }

    // ---------- querying ----------

    /** `get_valid_proposal_digest`: the verdict, with the digest when it is positive. */
    method GetValidProposal(view: View, verify: ProposalMsg -> Verdict)
      returns (verdict: Option<Verdict>, digest: Option<Digest>)
      requires Valid()
      modifies this
      ensures Valid()
      ensures unchanged(this`proposalNotices, this`prepareNotices, this`commitNotices, this`roundChangeNotices)
      ensures verdict == ProposalVerdict(old(contents), view, verify)
      ensures contents == CacheVerdict(old(contents), view, verify)
      ensures digest == if verdict == Some(Accept) then Some(ProposalAt(old(contents), view).value.digest) else None
    {
      assert HasView(proposals1, view) <==> view in contents.proposals1;
      digest := None;
      if view.round == 0 {
        if view.height !in proposals0 {
          return None, None;
        }
        var proposal := proposals0[view.height];
        verdict := Some(verify(proposal));
        digest := if verdict.value.Accept? then Some(proposal.digest) else None;
      } else {
        var rounds := RoundsAt(proposals1, view.height);
        if view.round !in rounds {
          return None, None;
        }
        var entry := rounds[view.round];
        verdict := if entry.verdict.Some? then entry.verdict else Some(verify(entry.proposal));
        SetViewRepresents(contents.proposals1, proposals1, view, ProposalEntry(entry.proposal, verdict));
        proposals1 := SetAt(proposals1, view, ProposalEntry(entry.proposal, verdict));
        digest := if verdict.value.Accept? then Some(entry.proposal.digest) else None;
        contents := CacheVerdict(contents, view, verify);
      }
    }

    method GetValidPrepareCount(view: View, keep: PrepareMsg -> bool) returns (count: nat)
      requires Valid()
      modifies this
      ensures Valid()
      ensures unchanged(this`proposalNotices, this`prepareNotices, this`commitNotices, this`roundChangeNotices)
      ensures contents == old(contents).(prepares := Retain(old(contents).prepares, view, keep))
      ensures count == |At(contents.prepares, view)|
    {
      RetainRepresents(contents.prepares, prepares, view, keep);
      prepares := SetAt(prepares, view, Kept(InboxAt(prepares, view), keep));
      contents := contents.(prepares := Retain(contents.prepares, view, keep));
      InboxRepresents(contents.prepares, prepares, view);
      count := |InboxAt(prepares, view)|;
    }

    /** Verifies and flags in place, then counts. */
    method GetValidRoundChangeCount(view: View, verify: RoundChangeMsg -> bool) returns (count: nat)
      requires Valid()
      requires view.round <= MAX_ROUND
      modifies this
      ensures Valid()
      ensures unchanged(this`proposalNotices, this`prepareNotices, this`commitNotices, this`roundChangeNotices)
      ensures contents == VerifyRoundChanges(old(contents), view, verify)
      ensures count == |At(contents.roundChanges, view)|
    {
      VerifyRepresents(contents.roundChanges, roundChanges, view, verify);
      roundChanges := SetAt(roundChanges, view, Verified(InboxAt(roundChanges, view), verify));
      contents := VerifyRoundChanges(contents, view, verify);
      InboxRepresents(contents.roundChanges, roundChanges, view);
      count := |InboxAt(roundChanges, view)|;
    }

    // ---------- taking ----------

    method TakeProposal(view: View) returns (proposal: Option<ProposalMsg>)
      requires Valid()
      modifies this
      ensures Valid()
      ensures unchanged(this`proposalNotices, this`prepareNotices, this`commitNotices, this`roundChangeNotices)
      ensures proposal == ProposalAt(old(contents), view)
      ensures contents == DropProposal(old(contents), view)
    {
      assert HasView(proposals1, view) <==> view in contents.proposals1;
      if view.round == 0 {
        proposal := if view.height in proposals0 then Some(proposals0[view.height]) else None;
        proposals0 := Remove(proposals0, view.height);
      } else {
        var rounds := RoundsAt(proposals1, view.height);
        proposal := if view.round in rounds then Some(rounds[view.round].proposal) else None;
        RemoveViewRepresents(contents.proposals1, proposals1, view);
        proposals1 := RemoveAt(proposals1, view);
      }
      contents := DropProposal(contents, view);
    }

    /** Removes all prepares of the view and returns those that pass, in any order. */
    method TakeValidPrepares(view: View, keep: PrepareMsg -> bool)
      returns (taken: seq<PrepareMsg>, ghost order: seq<Slot>)
      requires Valid()
      modifies this
      ensures Valid()
      ensures unchanged(this`proposalNotices, this`prepareNotices, this`commitNotices, this`roundChangeNotices)
      ensures contents == old(contents).(prepares := Without(old(contents).prepares, view))
      ensures var here := At(Retain(old(contents).prepares, view, keep), view);
              Orders(order, here) && taken == Values(order, here)
    {
      RetainRepresents(contents.prepares, prepares, view, keep);
      var kept := SetAt(prepares, view, Kept(InboxAt(prepares, view), keep));
      InboxRepresents(Retain(contents.prepares, view, keep), kept, view);
      taken, order := Drain(InboxAt(kept, view), view, At(Retain(contents.prepares, view, keep), view));
      RemoveRepresents(contents.prepares, prepares, view);
      prepares := RemoveAt(prepares, view);
      contents := contents.(prepares := Without(contents.prepares, view));
    }

    /** Prunes what does not pass; on a quorum takes all commits of the view and returns their seals. */
    method TakeValidCommits(view: View, keep: CommitMsg -> bool, quorum: nat)
      returns (taken: Option<seq<CommitMsg>>, count: nat, ghost order: seq<Slot>)
      requires Valid()
      modifies this
      ensures Valid()
      ensures unchanged(this`proposalNotices, this`prepareNotices, this`commitNotices, this`roundChangeNotices)
      ensures var kept := Retain(old(contents).commits, view, keep);
              var here := At(kept, view);
              && count == |here|
              && (count >= quorum ==> Orders(order, here) && taken == Some(Values(order, here)))
              && (count < quorum ==> taken == None)
              && contents == old(contents).(commits := if count >= quorum then Without(kept, view) else kept)
    {
      RetainRepresents(contents.commits, commits, view, keep);
      commits := SetAt(commits, view, Kept(InboxAt(commits, view), keep));
      contents := contents.(commits := Retain(contents.commits, view, keep));
      InboxRepresents(contents.commits, commits, view);
      count, order, taken := |InboxAt(commits, view)|, [], None;
      if count >= quorum {
        taken, order := TakeAllCommits(view);
      }
    }

    method TakeAllCommits(view: View) returns (taken: Option<seq<CommitMsg>>, ghost order: seq<Slot>)
      requires Valid()
      modifies this
      ensures Valid()
      ensures unchanged(this`proposalNotices, this`prepareNotices, this`commitNotices, this`roundChangeNotices)
      ensures var here := At(old(contents).commits, view); Orders(order, here) && taken == Some(Values(order, here))
      ensures contents == old(contents).(commits := Without(old(contents).commits, view))
    {
      InboxRepresents(contents.commits, commits, view);
      EmptyRepresents(contents.commits, commits, view);
      var values;
      values, order := Drain(InboxAt(commits, view), view, At(contents.commits, view));
      commits := SetAt(commits, view, map[]);
      taken := Some(values);
      contents := contents.(commits := Without(contents.commits, view));
    }

    /** Verifies, flags and prunes; on a quorum takes all round changes of the view. */
    method TakeValidRoundChanges(view: View, verify: RoundChangeMsg -> bool, quorum: nat)
      returns (taken: Option<seq<RoundChangeEntry>>, count: nat, ghost order: seq<Slot>)
      requires Valid()
      requires view.round <= MAX_ROUND
      modifies this
      ensures Valid()
      ensures unchanged(this`proposalNotices, this`prepareNotices, this`commitNotices, this`roundChangeNotices)
      ensures var st := VerifyRoundChanges(old(contents), view, verify);
              var here := At(st.roundChanges, view);
              && count == |here|
              && (count >= quorum ==> Orders(order, here) && taken == Some(Values(order, here)))
              && (count < quorum ==> taken == None)
              && contents == if count >= quorum then st.(roundChanges := Without(st.roundChanges, view)) else st
    {
      count := GetValidRoundChangeCount(view, verify);
      order, taken := [], None;
      if count >= quorum {
        taken, order := TakeAllRoundChanges(view);
      }
    }

    method TakeAllRoundChanges(view: View) returns (taken: Option<seq<RoundChangeEntry>>, ghost order: seq<Slot>)
      requires Valid()
      requires view.round <= MAX_ROUND
      modifies this
      ensures Valid()
      ensures unchanged(this`proposalNotices, this`prepareNotices, this`commitNotices, this`roundChangeNotices)
      ensures var here := At(old(contents).roundChanges, view);
              Orders(order, here) && taken == Some(Values(order, here))
      ensures contents == old(contents).(roundChanges := Without(old(contents).roundChanges, view))
    {
      InboxRepresents(contents.roundChanges, roundChanges, view);
      EmptyRepresents(contents.roundChanges, roundChanges, view);
      var values;
      values, order := Drain(InboxAt(roundChanges, view), view, At(contents.roundChanges, view));
      roundChanges := SetAt(roundChanges, view, map[]);
      taken := Some(values);
      contents := contents.(roundChanges := Without(contents.roundChanges, view));
    }

    // ---------- per-round arrays ----------

    /** Which rounds have a proposal not known to be invalid. */
    method HasProposalByRound(height: nat) returns (has: array<bool>)
      requires Valid()
      ensures fresh(has) && has.Length == ROUND_ARRAY_SIZE
      ensures forall r :: 0 <= r < has.Length ==>
                (has[r] <==>
                   && View(height, r) in contents.proposals1
                   && !(contents.proposals1[View(height, r)].verdict.Some?
                       && contents.proposals1[View(height, r)].verdict.value.Reject?))
    {
      has := new bool[ROUND_ARRAY_SIZE](_ => false);
      var rounds := RoundsAt(proposals1, height);
      var left := rounds.Keys;
      while left != {}
        invariant left <= rounds.Keys
        invariant forall r :: 0 <= r < has.Length ==>
                    (has[r] <==>
                       && r in rounds && r !in left
                       && !(rounds[r].verdict.Some? && rounds[r].verdict.value.Reject?))
        decreases left
      {
        var r :| r in left;
        assert HasView(proposals1, View(height, r));
        left := left - {r};
        if !(rounds[r].verdict.Some? && rounds[r].verdict.value.Reject?) {
          has[r] := true;
        }
      }
      forall r | 0 <= r < has.Length
        ensures r in rounds <==> View(height, r) in contents.proposals1
        ensures r in rounds ==> contents.proposals1[View(height, r)] == rounds[r]
      {
        assert HasView(proposals1, View(height, r)) <==> r in rounds;
      }
    }

    /** How many round changes each round has. */
    method RoundChangeCountByRound(height: nat) returns (counts: array<nat>)
      requires Valid()
      ensures fresh(counts) && counts.Length == ROUND_ARRAY_SIZE
      ensures forall r :: 0 <= r < counts.Length ==> counts[r] == |At(contents.roundChanges, View(height, r))|
    {
      counts := new nat[ROUND_ARRAY_SIZE](_ => 0);
      var rounds := RoundsAt(roundChanges, height);
      var left := rounds.Keys;
      while left != {}
        invariant left <= rounds.Keys
        invariant forall r :: 0 <= r < counts.Length ==>
                  counts[r] == if r in rounds && r !in left then |rounds[r]| else 0
        decreases left
      {
        var r :| r in left;
        left := left - {r};
        counts[r] := |rounds[r]|;
      }
      forall r | 0 <= r < counts.Length ensures counts[r] == |At(contents.roundChanges, View(height, r))| {
        InboxRepresents(contents.roundChanges, roundChanges, View(height, r));
      }
    }
  }

  function Verified(inbox: Inbox<RoundChangeEntry>, verify: RoundChangeMsg -> bool): Inbox<RoundChangeEntry> {
    map a | a in inbox && (inbox[a].verified || verify(inbox[a].message)) :: RoundChangeEntry(inbox[a].message, true)
  }

  lemma VerifyRepresents(flat: map<Slot, RoundChangeEntry>, m: BySender<RoundChangeEntry>, view: View,
                         verify: RoundChangeMsg -> bool)
    requires Represents(flat, m)
    ensures Represents(VerifyView(flat, view, verify), SetAt(m, view, Verified(InboxAt(m, view), verify)))
  {
    InboxRepresents(flat, m, view);
    forall slot: Slot | slot.view == view
      ensures slot in VerifyView(flat, view, verify) <==> slot.sender in Verified(InboxAt(m, view), verify)
      ensures slot in VerifyView(flat, view, verify) ==>
                VerifyView(flat, view, verify)[slot] == Verified(InboxAt(m, view), verify)[slot.sender]
    {
      assert slot in At(flat, view) <==> slot in flat;
    }
    SetInboxRepresents(flat, m, view, Verified(InboxAt(m, view), verify), VerifyView(flat, view, verify));
  }

  // ---------- notices ----------

  /** What the store gained in any view since then, the channel carried. */
  ghost predicate Announces<T>(m: map<Slot, T>, notices: seq<View>, m': map<Slot, T>, notices': seq<View>) {
    notices <= notices' && forall view :: |At(m', view)| <= |At(m, view)| + multiset(notices'[|notices|..])[view]
  }

  lemma SilenceAnnounces<T>(m: map<Slot, T>, notices: seq<View>)
    ensures Announces(m, notices, m, notices)
  {
  }

  lemma InsertAnnounces<T>(m: map<Slot, T>, notices: seq<View>, slot: Slot, value: T)
    ensures Announces(m, notices, Insert(m, slot, value), if slot in m then notices else notices + [slot.view])
  {
    if slot !in m {
      var m' := Insert(m, slot, value);
      assert (notices + [slot.view])[|notices|..] == [slot.view];
      forall view ensures |At(m', view)| <= |At(m, view)| + (if view == slot.view then 1 else 0) {
        if view == slot.view {
          assert At(m', view) == At(m, view)[slot := value];
        } else {
          assert At(m', view) == At(m, view);
        }
      }
    }
  }

  /** A view has a proposal exactly if it had one or one was announced; what was stored is still the same. */
  ghost predicate AnnouncesProposals(st: Store, notices: seq<View>, st': Store, notices': seq<View>) {
    && notices <= notices'
    && (forall view :: ProposalAt(st', view).Some? <==> ProposalAt(st, view).Some? || view in notices'[|notices|..])
    && (forall view :: ProposalAt(st, view).Some? ==> SameProposal(st, st', view))
  }

  /** The same proposal with the same verdict. */
  ghost predicate SameProposal(st: Store, st': Store, view: View) {
    && ProposalAt(st', view) == ProposalAt(st, view)
    && (view in st.proposals1 && view.round >= 1 ==>
          view in st'.proposals1 && st'.proposals1[view] == st.proposals1[view])
  }

  lemma SilenceAnnouncesProposals(st: Store, notices: seq<View>)
    ensures forall st': Store :: st'.proposals0 == st.proposals0 && st'.proposals1 == st.proposals1 ==>
              AnnouncesProposals(st, notices, st', notices)
  {
  }

  lemma AddAnnouncesProposal(st: Store, self: Address, notices: seq<View>, proposal: ProposalMsg, sender: Address)
    ensures AnnouncesProposals(st, notices, AddProposal(st, self, proposal, sender),
                               if ProposalAt(st, proposal.view).None? then notices + [proposal.view] else notices)
  {
    var st' := AddProposal(st, self, proposal, sender);
    if ProposalAt(st, proposal.view).None? {
      assert (notices + [proposal.view])[|notices|..] == [proposal.view];
    } else {
      assert notices[|notices|..] == [];
    }
    forall view
      ensures ProposalAt(st', view).Some? <==> ProposalAt(st, view).Some? || view == proposal.view
      ensures ProposalAt(st, view).Some? ==> SameProposal(st, st', view)
    {
      AddedProposal(st, self, proposal, sender, view);
    }
  }

  lemma AddedProposal(st: Store, self: Address, proposal: ProposalMsg, sender: Address, view: View)
    ensures var st' := AddProposal(st, self, proposal, sender);
            && (ProposalAt(st', view).Some? <==> ProposalAt(st, view).Some? || view == proposal.view)
            && (ProposalAt(st, view).Some? ==> SameProposal(st, st', view))
  {
  }

  /** The peer message handler and its finalized height. */
  class MessageHandler {
    const messages: ConsensusMessages
    const cfg: Config
    const address: Address
    var height: nat

    constructor (messages: ConsensusMessages, cfg: Config, height: nat, address: Address)
      ensures this.messages == messages && this.cfg == cfg && this.height == height && this.address == address
    {
      this.messages, this.cfg, this.height, this.address := messages, cfg, height, address;
    }

    /** `handle_consensus_message`: the checks in the order of the source. */
    method HandleMessage(message: Received) returns (handling: Handling)
      requires messages.self == address && messages.Valid()
      modifies messages
      ensures messages.Valid()
      ensures handling == Judge(cfg, address, height, message)
      ensures messages.contents == Handle(cfg, address, height, old(messages.contents), message)
      ensures Announces(old(messages.contents.prepares), old(messages.prepareNotices), messages.contents.prepares,
          messages.prepareNotices)
      ensures Announces(old(messages.contents.commits), old(messages.commitNotices), messages.contents.commits,
          messages.commitNotices)
      ensures Announces(old(messages.contents.roundChanges), old(messages.roundChangeNotices),
                        messages.contents.roundChanges, messages.roundChangeNotices)
      ensures AnnouncesProposals(old(messages.contents), old(messages.proposalNotices), messages.contents,
                                 messages.proposalNotices)
    {
      SilenceAnnouncesProposals(messages.contents, messages.proposalNotices);
      SilenceAnnounces(messages.contents.prepares, messages.prepareNotices);
      SilenceAnnounces(messages.contents.commits, messages.commitNotices);
      SilenceAnnounces(messages.contents.roundChanges, messages.roundChangeNotices);
      var view := message.View();
      if view.height <= height {
        return Stale;
      }
      if (message.GotRoundChange? && view.round == 0) || view.round > MAX_ROUND {
        return Refused;
      }
      var signer := message.Signer();
      if signer.None? || signer.value == address {
        return Refused;
      }
      var sender := signer.value;
      match message {
        case GotProposal(proposal) =>
          if sender != cfg.proposer(view) {
            return Refused;
          }
          AddAnnouncesProposal(messages.contents, address, messages.proposalNotices, proposal, sender);
          messages.AddProposal(proposal, sender);
        case GotPrepare(prepare) =>
          if sender !in cfg.validators(view.height) || sender == cfg.proposer(view) {
            return Refused;
          }
          InsertAnnounces(messages.contents.prepares, messages.prepareNotices, Slot(view, sender), prepare);
          messages.AddPrepare(prepare, sender);
        case GotCommit(commit) =>
          if sender !in cfg.validators(view.height) || commit.SealSigner() != Some(sender) {
            return Refused;
          }
          InsertAnnounces(messages.contents.commits, messages.commitNotices, Slot(view, sender), commit);
          messages.AddCommit(commit, sender);
        case GotRoundChange(rc) =>
          if sender !in cfg.validators(view.height) {
            return Refused;
          }
          InsertAnnounces(messages.contents.roundChanges, messages.roundChangeNotices, Slot(view, sender),
              RoundChangeEntry(rc, false));
          messages.AddRoundChange(rc, sender);
      }
      return Stored;
    }

    /** `update_height`: panics unless the height grows. */
    method UpdateHeight(height: nat) returns (panics: bool)
      modifies this
      ensures panics <==> height <= old(this.height)
      ensures this.height == if panics then old(this.height) else height
    {
      panics := height <= this.height;
      if !panics {
        this.height := height;
      }
    }

    /** `prune`: everything up to the finalized height goes. */
    method PruneMessages()
      requires messages.Valid()
      modifies messages
      ensures messages.Valid()
      ensures messages.contents == PruneStore(old(messages.contents), height + 1)
    {
      messages.Prune(height + 1);
    }

    /** engine.rs `run_height`, given what the run of the height returned. */
    method FinishHeight(height: nat, finalized: Option<FinalizedBlock>)
      returns (result: Option<FinalizedBlock>, panics: bool)
      requires messages.Valid()
      modifies this, messages
      ensures messages.Valid()
      ensures panics <==> finalized.Some? && height <= old(this.height)
      ensures !panics ==> result == finalized
      ensures this.height == if finalized.Some? && !panics then height else old(this.height)
      ensures messages.contents ==
                if finalized.Some? && !panics then PruneStore(old(messages.contents), height + 1)
                else old(messages.contents)
    {
      result, panics := None, false;
      if finalized.Some? {
        panics := UpdateHeight(height);
        if panics {
          return;
        }
        PruneMessages();
      }
      result := finalized;
    }
  }

  /** Pruning map by map ends as pruning at once. */
  lemma PruneInTurn(st: Store, height: nat)
    ensures var st1 := PrunePart(PrunePart(st, FirstProposals, height), LaterProposals, height);
            var st2 := PrunePart(PrunePart(st1, Prepares, height), Commits, height);
            PrunePart(st2, RoundChanges, height) == PruneStore(st, height)
  {
  }

  /** Nothing of this view is stored. */
  ghost predicate Gone(st: Store, view: View) {
    && ProposalAt(st, view).None?
    && At(st.prepares, view) == map[] && At(st.commits, view) == map[] && At(st.roundChanges, view) == map[]
  }

  /** Once a height is finished nothing of it is left, and no message of it is stored again. */
  lemma FinishedHeightIsClosed(cfg: Config, self: Address, height: nat, st: Store, message: Received)
    requires message.View().height <= height
    ensures Gone(PruneStore(st, height + 1), message.View())
    ensures Handle(cfg, self, height, PruneStore(st, height + 1), message) == PruneStore(st, height + 1)
  {
    var pruned, view := PruneStore(st, height + 1), message.View();
    assert At(pruned.prepares, view) == map[] && At(pruned.commits, view) == map[]
        && At(pruned.roundChanges, view) == map[];
  }
}

/** The loops of ibft.rs that wait for a proposal, of the current round and of later ones, over the store object. */
module ProposalWaits {
  import opened Types
  import opened Verification
  import opened Configuration
  import opened Stores
  import opened ConsensusStore
  import opened Nodes
  import opened NodeRuns
  import opened Waiting
  import opened NestedMaps

  // ---------- the proposal of the round ----------

  /** Waiting for the proposal of somebody else. */
  ghost predicate Follows(cfg: Config, n: Node) {
    n.status.Running? && n.phase.AwaitProposal? && cfg.proposer(n.Current()) != n.self
  }

  /** The node after its question was answered: it has broadcast its prepare, or given up. */
  function Answered(n: Node, st: Store, digest: Option<Digest>): Node {
    if digest.Some? then
      Sign(n.(store := st), PrepareDigest(n.Current(), digest.value))
        .(phase := PrepareSent(NewPrepare(n.Current(), digest.value, n.self)))
    else n.(store := st, phase := Failed)
  }

  /** Still waiting, with a proposal stored exactly if a notice of it is unread; or done. */
  ghost predicate ProposalTurn(cfg: Config, n: Node, st: Store, notices: seq<View>, read: nat,
                               answer: Option<Verdict>, digest: Option<Digest>) {
    && read <= |notices|
    && if answer.None? then
         Runs(cfg, n, n.(store := st)) && (ProposalAt(st, n.Current()).Some? <==> n.Current() in notices[read..])
       else
         Runs(cfg, n, Answered(n, st, digest)) && ProposalAt(st, n.Current()).Some?
         && digest == if answer.value.Accept? then Some(ProposalAt(st, n.Current()).value.digest) else None
  }

  /** One `get_valid_proposal_digest`: with nothing stored the node stays as it is. */
  method AskProposal(handler: MessageHandler, ghost n: Node, view: View)
    returns (answer: Option<Verdict>, digest: Option<Digest>)
    requires Ready(handler) && Drives(handler, n) && Follows(handler.cfg, n) && view == n.Current()
    requires Runs(handler.cfg, n, n.(store := handler.messages.contents))
    modifies handler.messages
    ensures Ready(handler) && handler.messages.proposalNotices == old(handler.messages.proposalNotices)
    ensures answer.None? <==> ProposalAt(old(handler.messages.contents), view).None?
    ensures answer.None? ==> digest.None?
    ensures answer.None? ==>
              var asked := n.(store := old(handler.messages.contents));
              Step(handler.cfg, asked, CheckProposal) == asked && handler.messages.contents == asked.store
    ensures answer.Some? ==>
              ProposalTurn(handler.cfg, n, handler.messages.contents, handler.messages.proposalNotices, 0, answer,
                           digest)
  {
    ghost var before := n.(store := handler.messages.contents);
    answer, digest := handler.messages.GetValidProposal(view, ProposalVerifier(handler.cfg, view.round));
    RunsOn(handler.cfg, n, before, CheckProposal);
  }

  /** What arrives before the next notice is read. */
  method AwaitProposalNotice(handler: MessageHandler, ghost n: Node, ghost read: nat, batch: seq<Received>)
    requires Ready(handler) && Drives(handler, n)
    requires ProposalTurn(handler.cfg, n, handler.messages.contents, handler.messages.proposalNotices, read, None, None)
    modifies handler.messages
    ensures Ready(handler)
    ensures ProposalTurn(handler.cfg, n, handler.messages.contents, handler.messages.proposalNotices, read, None, None)
  {
    ghost var st, before := handler.messages.contents, handler.messages.proposalNotices;
    Arrive(handler, batch);
    RunsThroughDeliveries(handler.cfg, n, st, batch);
    ghost var after := handler.messages.proposalNotices;
    assert after[read..] == before[read..] + after[|before|..];
  }

  /** One notice: if it is of the view, the proposal is there and the question is answered. */
  method ReadProposalNotice(handler: MessageHandler, ghost n: Node, view: View, read: nat)
    returns (answer: Option<Verdict>, digest: Option<Digest>)
    requires Ready(handler) && Drives(handler, n) && Follows(handler.cfg, n) && view == n.Current()
    requires read < |handler.messages.proposalNotices|
    requires ProposalTurn(handler.cfg, n, handler.messages.contents, handler.messages.proposalNotices, read, None, None)
    modifies handler.messages
    ensures Ready(handler) && handler.messages.proposalNotices == old(handler.messages.proposalNotices)
    ensures ProposalTurn(handler.cfg, n, handler.messages.contents, handler.messages.proposalNotices, read + 1, answer,
                         digest)
    ensures answer.Some? <==> handler.messages.proposalNotices[read] == view
    ensures answer.None? ==> digest.None?
  {
    ghost var notices := handler.messages.proposalNotices;
    assert notices[read..] == [notices[read]] + notices[read + 1..];
    answer, digest := None, None;
    if handler.messages.proposalNotices[read] == view {
      answer, digest := AskProposal(handler, n, view);
    }
  }

  /**
   The follower's wait in run_proposal_0 and run_proposal_1.  The question after a notice is always answered, so its
   `expect` does not fire.  Otherwise, when nothing arrives any more, the loop is blocked with every notice read, and no
   proposal of the view is stored.  Either way deliveries and proposal checks of the protocol model lead there: the node
   waits, has prepared, or gave up.
   */
  method WaitProposal(handler: MessageHandler, ghost n: Node, view: View, early: seq<Received>,
                      schedule: seq<seq<Received>>)
    returns (answer: Option<Verdict>, digest: Option<Digest>, read: nat)
    requires Ready(handler) && Drives(handler, n) && n.store == handler.messages.contents
    requires Follows(handler.cfg, n) && view == n.Current()
    modifies handler.messages
    ensures Ready(handler)
    ensures ProposalTurn(handler.cfg, n, handler.messages.contents, handler.messages.proposalNotices, read, answer,
                         digest)
    ensures answer.None? ==>
              read == |handler.messages.proposalNotices| && ProposalAt(handler.messages.contents, view).None?
  {
    read := |handler.messages.proposalNotices|;
    Settle(handler, n, early);
    answer, digest := AskProposal(handler, n, view);
    var k := 0;
    while answer.None? && (k < |schedule| || read < |handler.messages.proposalNotices|)
      invariant Ready(handler)
      invariant ProposalTurn(handler.cfg, n, handler.messages.contents, handler.messages.proposalNotices, read, answer,
                             digest)
      invariant answer.None? ==> digest.None?
      invariant k <= |schedule|
      decreases |schedule| - k, |handler.messages.proposalNotices| - read
    {
      if k < |schedule| {
        AwaitProposalNotice(handler, n, read, schedule[k]);
        k := k + 1;
      }
      if read < |handler.messages.proposalNotices| {
        answer, digest := ReadProposalNotice(handler, n, view, read);
        read := read + 1;
      }
    }
  }

  // ---------- proposals of later rounds ----------

  /** Asking for a proposal changes no later answer. */
  lemma CachingIsInvisible(st: Store, asked: View, view: View, verify: ProposalMsg -> Verdict)
    ensures ProposalVerdict(CacheVerdict(st, asked, verify), view, verify) == ProposalVerdict(st, view, verify)
    ensures CacheVerdict(st, asked, verify).proposals1.Keys == st.proposals1.Keys
  {
  }

  ghost predicate AcceptableAt(cfg: Config, st: Store, view: View) {
    ProposalVerdict(st, view, ProposalVerifier(cfg, 1)) == Some(Accept)
  }

  /** Every acceptable proposal of a later round has an unread notice, or is still to be asked for. */
  ghost predicate Caught(cfg: Config, st: Store, notices: seq<View>, read: nat, height: nat, current: nat, todo: nat,
                         has: seq<bool>) {
    && read <= |notices| && |has| == ROUND_ARRAY_SIZE
    && forall r: nat :: current < r && AcceptableAt(cfg, st, View(height, r)) ==>
         View(height, r) in notices[read..] || (r < todo && r < |has| && has[r])
  }

  lemma ArrivalsCaught(cfg: Config, st: Store, n: seq<View>, st': Store, n': seq<View>, read: nat, height: nat,
                       current: nat, todo: nat, has: seq<bool>)
    requires Caught(cfg, st, n, read, height, current, todo, has) && AnnouncesProposals(st, n, st', n')
    ensures Caught(cfg, st', n', read, height, current, todo, has)
  {
    assert n'[read..] == n[read..] + n'[|n|..];
    forall r: nat | current < r && AcceptableAt(cfg, st', View(height, r))
      ensures View(height, r) in n'[read..] || (r < todo && r < |has| && has[r])
    {
      var view := View(height, r);
      if ProposalAt(st, view).Some? {
        assert SameProposal(st, st', view);
        assert AcceptableAt(cfg, st, view);
      }
    }
  }

  method Advance(handler: MessageHandler, height: nat, current: nat, ghost todo: nat, ghost has: seq<bool>,
                 ghost read: nat, batch: seq<Received>)
    requires Ready(handler)
    requires Caught(handler.cfg, handler.messages.contents, handler.messages.proposalNotices, read, height, current,
                    todo, has)
    modifies handler.messages
    ensures Ready(handler)
    ensures Caught(handler.cfg, handler.messages.contents, handler.messages.proposalNotices, read, height, current,
                   todo, has)
  {
    ghost var st, n := handler.messages.contents, handler.messages.proposalNotices;
    Arrive(handler, batch);
    ArrivalsCaught(handler.cfg, st, n, handler.messages.contents, handler.messages.proposalNotices, read, height,
                   current, todo, has);
  }

  /** One question about a later round; no other answer changes. */
  method AskLater(handler: MessageHandler, view: View) returns (accepted: bool)
    requires Ready(handler)
    modifies handler.messages
    ensures Ready(handler) && handler.messages.proposalNotices == old(handler.messages.proposalNotices)
    ensures accepted <==> AcceptableAt(handler.cfg, handler.messages.contents, view)
    ensures forall other :: AcceptableAt(handler.cfg, handler.messages.contents, other) <==>
                              AcceptableAt(handler.cfg, old(handler.messages.contents), other)
  {
    ghost var st := handler.messages.contents;
    forall other {
      CachingIsInvisible(st, view, other, ProposalVerifier(handler.cfg, 1));
    }
    var verdict, _ := handler.messages.GetValidProposal(view, ProposalVerifier(handler.cfg, 1));
    accepted := verdict == Some(Accept);
  }

  /** `has_proposal_by_round` leaves out no acceptable proposal. */
  method Candidates(handler: MessageHandler, height: nat, current: nat, ghost read: nat) returns (has: array<bool>)
    requires Ready(handler) && read <= |handler.messages.proposalNotices|
    ensures fresh(has) && has.Length == ROUND_ARRAY_SIZE
    ensures Caught(handler.cfg, handler.messages.contents, handler.messages.proposalNotices, read, height, current,
                   ROUND_ARRAY_SIZE, has[..])
  {
    has := handler.messages.HasProposalByRound(height);
    forall r: nat | current < r && AcceptableAt(handler.cfg, handler.messages.contents, View(height, r))
      ensures r < has.Length && has[r]
    {
      assert HasView(handler.messages.proposals1, View(height, r));
    }
  }

  /** One turn of the scan: asks about round r if it was marked. */
  method ScanTurn(handler: MessageHandler, height: nat, current: nat, r: nat, marked: bool, ghost has: seq<bool>,
                  ghost read: nat)
    returns (accepted: bool)
    requires Ready(handler) && current < r < |has| && marked == has[r]
    requires Caught(handler.cfg, handler.messages.contents, handler.messages.proposalNotices, read, height, current,
                    r + 1, has)
    modifies handler.messages
    ensures Ready(handler) && handler.messages.proposalNotices == old(handler.messages.proposalNotices)
    ensures accepted ==> AcceptableAt(handler.cfg, handler.messages.contents, View(height, r))
    ensures Caught(handler.cfg, handler.messages.contents, handler.messages.proposalNotices, read, height,
                   if accepted then r else current, r, has)
  {
    accepted := false;
    if marked {
      accepted := AskLater(handler, View(height, r));
    }
  }

  /**
   First part of wait_future_proposal: from the highest round down, with arrivals between the questions.  Of the rounds
   above the one it returns, only those with an unread notice have an acceptable proposal.
   */
  method ScanProposals(handler: MessageHandler, height: nat, current: nat, early: seq<Received>,
                       schedule: seq<seq<Received>>)
    returns (round: Option<nat>, read: nat, next: nat, ghost has: seq<bool>)
    requires Ready(handler)
    modifies handler.messages
    ensures Ready(handler) && next <= |schedule|
    ensures round.Some? ==>
              current < round.value && AcceptableAt(handler.cfg, handler.messages.contents, View(height, round.value))
    ensures Caught(handler.cfg, handler.messages.contents, handler.messages.proposalNotices, read, height,
                   if round.Some? then round.value else current, 0, has)
  {
    var messages := handler.messages;
    read := |messages.proposalNotices|;
    Arrive(handler, early);
    var flags := Candidates(handler, height, current, read);
    has := flags[..];
    next, round := 0, None;
    var r: nat := ROUND_ARRAY_SIZE;
    while r > current + 1
      invariant Ready(handler) && fresh(flags) && flags[..] == has && r <= ROUND_ARRAY_SIZE && next <= |schedule|
      invariant Caught(handler.cfg, messages.contents, messages.proposalNotices, read, height, current, r, has)
    {
      if next < |schedule| {
        Advance(handler, height, current, r, has, read, schedule[next]);
        next := next + 1;
      }
      r := r - 1;
      assert flags[r] == has[r];
      var accepted := ScanTurn(handler, height, current, r, flags[r], has, read);
      if accepted {
        round := Some(r);
        return;
      }
    }
  }

  /** One turn of the notice loop: a notice of a later round of the height is followed by the question. */
  method TakeProposalNotice(handler: MessageHandler, height: nat, current: nat, read: nat, ghost has: seq<bool>)
    returns (round: Option<nat>)
    requires Ready(handler) && read < |handler.messages.proposalNotices|
    requires Caught(handler.cfg, handler.messages.contents, handler.messages.proposalNotices, read, height, current, 0,
                    has)
    modifies handler.messages
    ensures Ready(handler) && handler.messages.proposalNotices == old(handler.messages.proposalNotices)
    ensures round.Some? ==>
              current < round.value && AcceptableAt(handler.cfg, handler.messages.contents, View(height, round.value))
    ensures round.None? ==> Caught(handler.cfg, handler.messages.contents, handler.messages.proposalNotices, read + 1,
                                   height, current, 0, has)
  {
    ghost var notices := handler.messages.proposalNotices;
    assert notices[read..] == [notices[read]] + notices[read + 1..];
    round := None;
    var view := handler.messages.proposalNotices[read];
    if view.height == height && view.round > current {
      var accepted := AskLater(handler, view);
      if accepted {
        round := Some(view.round);
      }
    }
  }

  /**
   wait_future_proposal.  A round is returned only with an acceptable proposal stored; otherwise, when nothing arrives
   any more, the loop is blocked with every notice read, and no acceptable proposal of a later round is stored.
   */
  method WaitFutureProposals(handler: MessageHandler, height: nat, current: nat, early: seq<Received>,
                             schedule: seq<seq<Received>>)
    returns (round: Option<nat>, read: nat)
    requires Ready(handler)
    modifies handler.messages
    ensures Ready(handler) && read <= |handler.messages.proposalNotices|
    ensures round.Some? ==>
              current < round.value && AcceptableAt(handler.cfg, handler.messages.contents, View(height, round.value))
    ensures round.None? ==> read == |handler.messages.proposalNotices|
    ensures round.None? ==>
              forall r: nat :: current < r ==> !AcceptableAt(handler.cfg, handler.messages.contents, View(height, r))
  {
    var messages := handler.messages;
    var next;
    ghost var has;
    round, read, next, has := ScanProposals(handler, height, current, early, schedule);
    while round.None? && (next < |schedule| || read < |messages.proposalNotices|)
      invariant Ready(handler) && next <= |schedule| && read <= |messages.proposalNotices|
      invariant round.None? ==>
                  Caught(handler.cfg, messages.contents, messages.proposalNotices, read, height, current, 0, has)
      invariant round.Some? ==>
                  current < round.value && AcceptableAt(handler.cfg, messages.contents, View(height, round.value))
      decreases |schedule| - next, |messages.proposalNotices| - read
    {
      if next < |schedule| {
        Advance(handler, height, current, 0, has, read, schedule[next]);
        next := next + 1;
      }
      if read < |messages.proposalNotices| {
        round := TakeProposalNotice(handler, height, current, read, has);
        read := read + 1;
      }
    }
  }
}

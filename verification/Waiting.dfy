/**
 The wait loops of ibft.rs over the store object.  Each loop subscribes first, counts once, then adds
 one per notice of its view and recounts only when its optimistic counter reaches the threshold.

 A schedule says which peer messages the handler takes before each turn of the loop, so a statement
 for all schedules covers every interleaving of the loop with the message handler.
 */
module Waiting {
  import opened Types
  import opened Configuration
  import opened Stores
  import opened ConsensusStore
  import opened Nodes
  import opened NodeRuns

  ghost predicate Ready(handler: MessageHandler)
    reads handler, handler.messages
  {
    handler.messages.Valid() && handler.messages.self == handler.address
  }

  /** The run of this node is the one whose messages the handler takes. */
  ghost predicate Drives(handler: MessageHandler, n: Node)
    reads handler
  {
    n.self == handler.address && n.finalized == handler.height && n.status.Running?
  }

  // ---------- counters and notices ----------

  /** Stored messages of the view that no unread notice stands for. */
  ghost function Owed<T>(m: map<Slot, T>, notices: seq<View>, read: nat, view: View): int
    requires read <= |notices|
  {
    |At(m, view)| - multiset(notices[read..])[view]
  }

  lemma AnnouncesOnward<T>(m: map<Slot, T>, n: seq<View>, m1: map<Slot, T>, n1: seq<View>, m2: map<Slot, T>,
                           n2: seq<View>)
    requires Announces(m, n, m1, n1) && Announces(m1, n1, m2, n2)
    ensures Announces(m, n, m2, n2)
  {
    assert n2[|n|..] == n1[|n|..] + n2[|n1|..];
    assert multiset(n2[|n|..]) == multiset(n1[|n|..]) + multiset(n2[|n1|..]);
  }

  /** Arrivals are announced, so they leave nothing owed. */
  lemma ArrivalsOwed<T>(m: map<Slot, T>, n: seq<View>, m': map<Slot, T>, n': seq<View>, read: nat, view: View)
    requires Announces(m, n, m', n') && read <= |n|
    ensures Owed(m', n', read, view) <= Owed(m, n, read, view)
  {
    assert n'[read..] == n[read..] + n'[|n|..];
    assert multiset(n'[read..]) == multiset(n[read..]) + multiset(n'[|n|..]);
  }

  /** Reading a notice of the view takes one counter step. */
  lemma NoticeOwed<T>(m: map<Slot, T>, notices: seq<View>, read: nat, view: View)
    requires read < |notices|
    ensures Owed(m, notices, read + 1, view) == Owed(m, notices, read, view) + if notices[read] == view then 1 else 0
  {
    assert notices[read..] == [notices[read]] + notices[read + 1..];
    assert multiset(notices[read..]) == multiset{notices[read]} + multiset(notices[read + 1..]);
  }

  /** With every notice read, what is stored is at most what was counted. */
  lemma DrainedOwed<T>(m: map<Slot, T>, notices: seq<View>, read: nat, view: View)
    requires read <= |notices|
    ensures Owed(m, notices, read, view) <= |At(m, view)|
    ensures read == |notices| ==> Owed(m, notices, read, view) == |At(m, view)|
  {
  }

  lemma FewerAt<T>(m: map<Slot, T>, m': map<Slot, T>)
    requires m'.Keys <= m.Keys
    ensures |m'| <= |m|
  {
    assert m.Keys == m'.Keys + (m.Keys - m'.Keys);
    assert |m.Keys| == |m'.Keys| + |m.Keys - m'.Keys|;
  }

  lemma RetainedAt<T>(m: map<Slot, T>, view: View, keep: T -> bool)
    ensures |At(Retain(m, view, keep), view)| <= |At(m, view)|
  {
    FewerAt(At(m, view), At(Retain(m, view, keep), view));
  }

  lemma PreparesDrained(st: Store, notices: seq<View>, read: nat, view: View, digest: Digest)
    requires read <= |notices|
    ensures read == |notices| ==>
              |At(RetainPrepares(st, view, digest).prepares, view)| <= Owed(st.prepares, notices, read, view)
  {
    DrainedOwed(st.prepares, notices, read, view);
    RetainedAt(st.prepares, view, (m: PrepareMsg) => m.digest == digest);
  }

  lemma CommitsDrained(st: Store, notices: seq<View>, read: nat, view: View, digest: Digest)
    requires read <= |notices|
    ensures read == |notices| ==>
              |At(RetainCommits(st, view, digest).commits, view)| <= Owed(st.commits, notices, read, view)
  {
    DrainedOwed(st.commits, notices, read, view);
    RetainedAt(st.commits, view, (m: CommitMsg) => m.digest == digest);
  }

  lemma VerifiedAt(m: map<Slot, RoundChangeEntry>, view: View, verify: RoundChangeMsg -> bool, other: View)
    ensures |At(VerifyView(m, view, verify), other)| <= |At(m, other)|
  {
    FewerAt(At(m, other), At(VerifyView(m, view, verify), other));
  }

  lemma ProposalsOnward(st: Store, n: seq<View>, st1: Store, n1: seq<View>, st2: Store, n2: seq<View>)
    requires AnnouncesProposals(st, n, st1, n1) && AnnouncesProposals(st1, n1, st2, n2)
    ensures AnnouncesProposals(st, n, st2, n2)
  {
    assert n2[|n|..] == n1[|n|..] + n2[|n1|..];
  }

  /** The message handler at work between two turns of a loop. */
  method Arrive(handler: MessageHandler, batch: seq<Received>)
    requires Ready(handler)
    modifies handler.messages
    ensures Ready(handler)
    ensures Announces(old(handler.messages.contents.prepares), old(handler.messages.prepareNotices),
                      handler.messages.contents.prepares, handler.messages.prepareNotices)
    ensures Announces(old(handler.messages.contents.commits), old(handler.messages.commitNotices),
                      handler.messages.contents.commits, handler.messages.commitNotices)
    ensures Announces(old(handler.messages.contents.roundChanges), old(handler.messages.roundChangeNotices),
                      handler.messages.contents.roundChanges, handler.messages.roundChangeNotices)
    ensures AnnouncesProposals(old(handler.messages.contents), old(handler.messages.proposalNotices),
                               handler.messages.contents, handler.messages.proposalNotices)
    ensures handler.messages.contents ==
            HandleAll(handler.cfg, handler.address, handler.height, old(handler.messages.contents), batch)
  {
    var messages := handler.messages;
    ghost var st, n0, n1, n2, n3 := messages.contents, messages.proposalNotices, messages.prepareNotices,
        messages.commitNotices, messages.roundChangeNotices;
    SilenceAnnouncesProposals(st, n0);
    SilenceAnnounces(st.prepares, n1);
    SilenceAnnounces(st.commits, n2);
    SilenceAnnounces(st.roundChanges, n3);
    for k := 0 to |batch|
      invariant Ready(handler)
      invariant Announces(st.prepares, n1, messages.contents.prepares, messages.prepareNotices)
      invariant Announces(st.commits, n2, messages.contents.commits, messages.commitNotices)
      invariant Announces(st.roundChanges, n3, messages.contents.roundChanges, messages.roundChangeNotices)
      invariant AnnouncesProposals(st, n0, messages.contents, messages.proposalNotices)
      invariant messages.contents == HandleAll(handler.cfg, handler.address, handler.height, st, batch[..k])
    {
      assert batch[..k + 1][..k] == batch[..k];
      ghost var s1, c0, c1, c2, c3 := messages.contents, messages.proposalNotices, messages.prepareNotices,
          messages.commitNotices, messages.roundChangeNotices;
      var _ := handler.HandleMessage(batch[k]);
      ProposalsOnward(st, n0, s1, c0, messages.contents, messages.proposalNotices);
      AnnouncesOnward(st.prepares, n1, s1.prepares, c1, messages.contents.prepares, messages.prepareNotices);
      AnnouncesOnward(st.commits, n2, s1.commits, c2, messages.contents.commits, messages.commitNotices);
      AnnouncesOnward(st.roundChanges, n3, s1.roundChanges, c3, messages.contents.roundChanges,
          messages.roundChangeNotices);
    }
    assert batch[..|batch|] == batch;
  }

  /** What arrives between the subscription and the first count. */
  method Settle(handler: MessageHandler, ghost n: Node, batch: seq<Received>)
    requires Ready(handler) && Drives(handler, n) && n.store == handler.messages.contents
    modifies handler.messages
    ensures Ready(handler) && Runs(handler.cfg, n, n.(store := handler.messages.contents))
    ensures |handler.messages.prepareNotices| >= |old(handler.messages.prepareNotices)|
    ensures |handler.messages.commitNotices| >= |old(handler.messages.commitNotices)|
    ensures |handler.messages.roundChangeNotices| >= |old(handler.messages.roundChangeNotices)|
    ensures AnnouncesProposals(old(handler.messages.contents), old(handler.messages.proposalNotices),
                               handler.messages.contents, handler.messages.proposalNotices)
  {
    RunsNowhere(handler.cfg, n);
    assert n.(store := handler.messages.contents) == n;
    Arrive(handler, batch);
    RunsThroughDeliveries(handler.cfg, n, n.store, batch);
  }

  // ---------- one view ----------

  /** So many prepares of the view are stored, and all are for this digest. */
  ghost predicate AllMatch(st: Store, view: View, digest: Digest, count: nat) {
    && |At(st.prepares, view)| == count
    && (forall slot :: slot in At(st.prepares, view) ==> st.prepares[slot].digest == digest)
  }

  /** The loop of run_prepare is waiting: its counter covers what is stored, up to unread notices. */
  ghost predicate PreparesCounted(cfg: Config, n: Node, st: Store, notices: seq<View>, read: nat, count: nat) {
    read <= |notices| && Runs(cfg, n, n.(store := st)) && Owed(st.prepares, notices, read, n.Current()) <= count
  }

  ghost predicate CommitsCounted(cfg: Config, n: Node, st: Store, notices: seq<View>, read: nat, count: nat) {
    read <= |notices| && Runs(cfg, n, n.(store := st)) && Owed(st.commits, notices, read, n.Current()) <= count
  }

  ghost predicate ChangesCounted(cfg: Config, n: Node, st: Store, notices: seq<View>, read: nat, count: nat) {
    read <= |notices| && Runs(cfg, n, n.(store := st)) && Owed(st.roundChanges, notices, read, n.Current()) <= count
  }

  /** It found so many prepares, all matching, and the commit is broadcast. */
  ghost predicate PreparesFound(cfg: Config, n: Node, st: Store, digest: Digest, count: nat) {
    AllMatch(st, n.Current(), digest, count) && Runs(cfg, n, Committing(n, st, digest))
  }

  /** The loop of run_prepare between two turns: still counting, or done. */
  ghost predicate PrepareTurn(cfg: Config, n: Node, st: Store, notices: seq<View>, read: nat, digest: Digest,
                              count: nat) {
    if count + 1 < cfg.quorum(n.height) then PreparesCounted(cfg, n, st, notices, read, count)
    else read <= |notices| && PreparesFound(cfg, n, st, digest, count)
  }

  /** Blocked with every notice read, fewer than `quorum - 1` matching prepares are stored. */
  lemma PreparesBlocked(cfg: Config, n: Node, st: Store, notices: seq<View>, read: nat, digest: Digest, count: nat)
    requires PrepareTurn(cfg, n, st, notices, read, digest, count) && count + 1 < cfg.quorum(n.height)
    requires read == |notices|
    ensures |At(RetainPrepares(st, n.Current(), digest).prepares, n.Current())| + 1 < cfg.quorum(n.height)
  {
    PreparesDrained(st, notices, read, n.Current(), digest);
  }

  /** The node after a recount that reached the quorum: it has broadcast its commit. */
  function Committing(n: Node, st: Store, digest: Digest): Node {
    var commit := NewCommit(n.Current(), digest, n.self);
    Sign(Sign(n.(store := st), digest), CommitDigest(n.Current(), digest, commit.seal)).(phase := CommitSent(commit))
  }

  /** One `get_valid_prepare_count` of the loop. */
  method CountPrepares(handler: MessageHandler, ghost n: Node, view: View, digest: Digest, quorum: nat, ghost read: nat)
    returns (count: nat)
    requires Ready(handler) && Drives(handler, n) && n.phase == AwaitPrepares(digest) && view == n.Current()
    requires quorum == handler.cfg.quorum(n.height) && read <= |handler.messages.prepareNotices|
    requires Runs(handler.cfg, n, n.(store := handler.messages.contents))
    modifies handler.messages
    ensures Ready(handler) && handler.messages.prepareNotices == old(handler.messages.prepareNotices)
    ensures PrepareTurn(handler.cfg, n, handler.messages.contents, handler.messages.prepareNotices, read, digest, count)
  {
    ghost var before := n.(store := handler.messages.contents);
    count := handler.messages.GetValidPrepareCount(view, (m: PrepareMsg) => m.digest == digest);
    DrainedOwed(handler.messages.contents.prepares, handler.messages.prepareNotices, read, view);
    RunsOn(handler.cfg, n, before, CheckPrepares);
    assert handler.messages.contents == RetainPrepares(before.store, view, digest);
  }

  /** The wait for the next notice: more may have arrived meanwhile. */
  method AwaitPrepareNotice(handler: MessageHandler, ghost n: Node, ghost read: nat, digest: Digest, ghost count: nat,
                            batch: seq<Received>)
    requires Ready(handler) && Drives(handler, n) && count + 1 < handler.cfg.quorum(n.height)
    requires PrepareTurn(handler.cfg, n, handler.messages.contents, handler.messages.prepareNotices, read, digest,
        count)
    modifies handler.messages
    ensures Ready(handler)
    ensures PrepareTurn(handler.cfg, n, handler.messages.contents, handler.messages.prepareNotices, read, digest, count)
  {
    ghost var st, before := handler.messages.contents, handler.messages.prepareNotices;
    Arrive(handler, batch);
    RunsThroughDeliveries(handler.cfg, n, st, batch);
    ArrivalsOwed(st.prepares, before, handler.messages.contents.prepares, handler.messages.prepareNotices, read,
        n.Current());
  }

  method AwaitCommitNotice(handler: MessageHandler, ghost n: Node, ghost read: nat, ghost count: nat,
                           batch: seq<Received>)
    requires Ready(handler) && Drives(handler, n)
    requires CommitsCounted(handler.cfg, n, handler.messages.contents, handler.messages.commitNotices, read, count)
    modifies handler.messages
    ensures Ready(handler)
    ensures CommitsCounted(handler.cfg, n, handler.messages.contents, handler.messages.commitNotices, read, count)
  {
    ghost var st, before := handler.messages.contents, handler.messages.commitNotices;
    Arrive(handler, batch);
    RunsThroughDeliveries(handler.cfg, n, st, batch);
    ArrivalsOwed(st.commits, before, handler.messages.contents.commits, handler.messages.commitNotices, read,
        n.Current());
  }

  method AwaitRoundChangeNotice(handler: MessageHandler, ghost n: Node, ghost read: nat, ghost count: nat,
                                batch: seq<Received>)
    requires Ready(handler) && Drives(handler, n)
    requires ChangesCounted(handler.cfg, n, handler.messages.contents, handler.messages.roundChangeNotices, read, count)
    modifies handler.messages
    ensures Ready(handler)
    ensures ChangesCounted(handler.cfg, n, handler.messages.contents, handler.messages.roundChangeNotices, read, count)
  {
    ghost var st, before := handler.messages.contents, handler.messages.roundChangeNotices;
    Arrive(handler, batch);
    RunsThroughDeliveries(handler.cfg, n, st, batch);
    ArrivalsOwed(st.roundChanges, before, handler.messages.contents.roundChanges, handler.messages.roundChangeNotices,
        read, n.Current());
  }

  /** One notice: one counter step if it is of the view, and a recount when the counter reaches the threshold. */
  method ReadPrepareNotice(handler: MessageHandler, ghost n: Node, view: View, digest: Digest, quorum: nat, read: nat,
                           count: nat)
    returns (count': nat)
    requires Ready(handler) && Drives(handler, n) && n.phase == AwaitPrepares(digest) && view == n.Current()
    requires quorum == handler.cfg.quorum(n.height) && count + 1 < quorum && read < |handler.messages.prepareNotices|
    requires PrepareTurn(handler.cfg, n, handler.messages.contents, handler.messages.prepareNotices, read, digest,
        count)
    modifies handler.messages
    ensures Ready(handler) && handler.messages.prepareNotices == old(handler.messages.prepareNotices)
    ensures PrepareTurn(handler.cfg, n, handler.messages.contents, handler.messages.prepareNotices, read + 1, digest,
        count')
  {
    NoticeOwed(handler.messages.contents.prepares, handler.messages.prepareNotices, read, view);
    count' := count;
    if handler.messages.prepareNotices[read] == view {
      count' := count + 1;
      if count' + 1 == quorum {
        count' := CountPrepares(handler, n, view, digest, quorum, read + 1);
      }
    }
  }

  /**
   The loop of run_prepare.  It ends only after a recount that found `quorum - 1` matching prepares and no other
   stored.  Otherwise, when nothing arrives any more, it is blocked with every notice read, and fewer than that are
   stored.  Either way the node got there by deliveries and recounts of the protocol model.
   */
  method WaitPrepares(handler: MessageHandler, ghost n: Node, view: View, digest: Digest, quorum: nat,
                      early: seq<Received>, schedule: seq<seq<Received>>)
    returns (count: nat, read: nat)
    requires Ready(handler) && Drives(handler, n) && n.store == handler.messages.contents
    requires n.phase == AwaitPrepares(digest) && view == n.Current() && quorum == handler.cfg.quorum(n.height)
    modifies handler.messages
    ensures Ready(handler)
    ensures PrepareTurn(handler.cfg, n, handler.messages.contents, handler.messages.prepareNotices, read, digest, count)
    ensures count + 1 < quorum ==>
              && read == |handler.messages.prepareNotices|
              && |At(RetainPrepares(handler.messages.contents, view, digest).prepares, view)| + 1 < quorum
  {
    read := |handler.messages.prepareNotices|;
    Settle(handler, n, early);
    count := CountPrepares(handler, n, view, digest, quorum, read);
    var k := 0;
    while count + 1 < quorum && (k < |schedule| || read < |handler.messages.prepareNotices|)
      invariant Ready(handler)
      invariant PrepareTurn(handler.cfg, n, handler.messages.contents, handler.messages.prepareNotices,
                            read, digest, count)
      invariant k <= |schedule|
      decreases |schedule| - k, |handler.messages.prepareNotices| - read
    {
      if k < |schedule| {
        AwaitPrepareNotice(handler, n, read, digest, count, schedule[k]);
        k := k + 1;
      }
      if read < |handler.messages.prepareNotices| {
        count := ReadPrepareNotice(handler, n, view, digest, quorum, read, count);
        read := read + 1;
      }
    }
    if count + 1 < quorum {
      PreparesBlocked(handler.cfg, n, handler.messages.contents, handler.messages.prepareNotices, read, digest, count);
    }
  }

  /** A take that reached the quorum handed out that many commits, all matching, and sealed the round. */
  ghost predicate Sealed(cfg: Config, n: Node, st: Store, digest: Digest, taken: Option<seq<CommitMsg>>, quorum: nat) {
    && taken.Some? && |taken.value| >= quorum && (forall m :: m in taken.value ==> m.digest == digest)
    && Runs(cfg, n, n.(store := st, phase := Phase.Sealed(digest, Seals(taken.value))))
  }

  ghost predicate CommitTurn(cfg: Config, n: Node, st: Store, notices: seq<View>, read: nat, digest: Digest,
                             taken: Option<seq<CommitMsg>>, count: nat)
  {
    if count < cfg.quorum(n.height) then CommitsCounted(cfg, n, st, notices, read, count)
    else read <= |notices| && Sealed(cfg, n, st, digest, taken, cfg.quorum(n.height))
  }

  lemma CommitsBlocked(cfg: Config, n: Node, st: Store, notices: seq<View>, read: nat, digest: Digest,
                       taken: Option<seq<CommitMsg>>, count: nat)
    requires CommitTurn(cfg, n, st, notices, read, digest, taken, count) && count < cfg.quorum(n.height)
    requires read == |notices|
    ensures |At(RetainCommits(st, n.Current(), digest).commits, n.Current())| < cfg.quorum(n.height)
  {
    CommitsDrained(st, notices, read, n.Current(), digest);
  }

  /** One `take_valid_commit_seals` of the loop. */
  method TakeCommits(handler: MessageHandler, ghost n: Node, view: View, digest: Digest, quorum: nat, ghost read: nat)
    returns (taken: Option<seq<CommitMsg>>, count: nat)
    requires Ready(handler) && Drives(handler, n) && n.phase == AwaitCommits(digest) && view == n.Current()
    requires quorum == handler.cfg.quorum(n.height) && read <= |handler.messages.commitNotices|
    requires Runs(handler.cfg, n, n.(store := handler.messages.contents))
    modifies handler.messages
    ensures Ready(handler) && handler.messages.commitNotices == old(handler.messages.commitNotices)
    ensures CommitTurn(handler.cfg, n, handler.messages.contents, handler.messages.commitNotices, read, digest, taken,
        count)
  {
    var messages := handler.messages;
    ghost var before := n.(store := messages.contents);
    ghost var here := At(RetainCommits(messages.contents, view, digest).commits, view);
    ghost var order;
    taken, count, order := messages.TakeValidCommits(view, (m: CommitMsg) => m.digest == digest, quorum);
    if count >= quorum {
      OrderIsAsLong(order, here);
      MatchingValues(here, order, digest);
    } else {
      order := SomeOrder(here);
      DrainedOwed(messages.contents.commits, messages.commitNotices, read, view);
    }
    RunsOn(handler.cfg, n, before, CheckCommits(order));
  }

  lemma MatchingValues(here: map<Slot, CommitMsg>, order: seq<Slot>, digest: Digest)
    requires Orders(order, here) && forall slot :: slot in here ==> here[slot].digest == digest
    ensures forall m :: m in Values(order, here) ==> m.digest == digest
  {
    forall m | m in Values(order, here) ensures m.digest == digest {
      var i :| 0 <= i < |order| && Values(order, here)[i] == m;
      assert order[i] in order;
    }
  }

  method ReadCommitNotice(handler: MessageHandler, ghost n: Node, view: View, digest: Digest, quorum: nat, read: nat,
                          count: nat)
    returns (taken: Option<seq<CommitMsg>>, count': nat)
    requires Ready(handler) && Drives(handler, n) && n.phase == AwaitCommits(digest) && view == n.Current()
    requires quorum == handler.cfg.quorum(n.height) && count < quorum && read < |handler.messages.commitNotices|
    requires CommitsCounted(handler.cfg, n, handler.messages.contents, handler.messages.commitNotices, read, count)
    modifies handler.messages
    ensures Ready(handler) && handler.messages.commitNotices == old(handler.messages.commitNotices)
    ensures CommitTurn(handler.cfg, n, handler.messages.contents, handler.messages.commitNotices, read + 1, digest,
        taken, count')
  {
    NoticeOwed(handler.messages.contents.commits, handler.messages.commitNotices, read, view);
    taken, count' := None, count;
    if handler.messages.commitNotices[read] == view {
      count' := count + 1;
      if count' == quorum {
        taken, count' := TakeCommits(handler, n, view, digest, quorum, read + 1);
      }
    }
  }

  /** The loop of run_commit: when it ends, the last take did hand out a quorum of matching commits. */
  method WaitCommits(handler: MessageHandler, ghost n: Node, view: View, digest: Digest, quorum: nat,
                     early: seq<Received>, schedule: seq<seq<Received>>)
    returns (taken: Option<seq<CommitMsg>>, count: nat, read: nat)
    requires Ready(handler) && Drives(handler, n) && n.store == handler.messages.contents
    requires n.phase == AwaitCommits(digest) && view == n.Current() && quorum == handler.cfg.quorum(n.height)
    modifies handler.messages
    ensures Ready(handler)
    ensures CommitTurn(handler.cfg, n, handler.messages.contents, handler.messages.commitNotices,
                       read, digest, taken, count)
    ensures count < quorum ==>
              && read == |handler.messages.commitNotices|
              && |At(RetainCommits(handler.messages.contents, view, digest).commits, view)| < quorum
  {
    read := |handler.messages.commitNotices|;
    Settle(handler, n, early);
    taken, count := TakeCommits(handler, n, view, digest, quorum, read);
    var k := 0;
    while count < quorum && (k < |schedule| || read < |handler.messages.commitNotices|)
      invariant Ready(handler)
      invariant CommitTurn(handler.cfg, n, handler.messages.contents, handler.messages.commitNotices,
                           read, digest, taken, count)
      invariant k <= |schedule|
      decreases |schedule| - k, |handler.messages.commitNotices| - read
    {
      if k < |schedule| {
        AwaitCommitNotice(handler, n, read, count, schedule[k]);
        k := k + 1;
      }
      if read < |handler.messages.commitNotices| {
        taken, count := ReadCommitNotice(handler, n, view, digest, quorum, read, count);
        read := read + 1;
      }
    }
    if count < quorum {
      CommitsBlocked(handler.cfg, n, handler.messages.contents, handler.messages.commitNotices, read, digest, taken,
          count);
    }
  }

  /** What the node does with the round changes it took. */
  function Proposing(n: Node, st: Store, rcs: seq<RoundChangeMsg>, built: Option<RawBlock>): Node {
    var proposal := BuildProposal(n.Current(), rcs, built, n.self);
    if proposal.None? then n.(store := st, phase := Failed) else Announce(n.(store := st), proposal.value)
  }

  /** A take that reached the quorum handed out that many verified round changes, and the node proposes on them. */
  ghost predicate Collected(cfg: Config, n: Node, st: Store, taken: Option<seq<RoundChangeEntry>>, quorum: nat) {
    && taken.Some? && |taken.value| >= quorum && (forall rc :: rc in taken.value ==> rc.verified)
    && (forall built :: Runs(cfg, n, Proposing(n, st, Messages(taken.value), built)))
  }

  /** Waiting for round changes as the proposer of a later round. */
  ghost predicate Collects(cfg: Config, n: Node) {
    1 <= n.round <= MAX_ROUND && n.phase.AwaitProposal? && cfg.proposer(n.Current()) == n.self
  }

  ghost predicate ChangeTurn(cfg: Config, n: Node, st: Store, notices: seq<View>, read: nat,
                             taken: Option<seq<RoundChangeEntry>>, count: nat)
  {
    if count < cfg.quorum(n.height) then ChangesCounted(cfg, n, st, notices, read, count)
    else read <= |notices| && Collected(cfg, n, st, taken, cfg.quorum(n.height))
  }

  lemma ChangesBlocked(cfg: Config, n: Node, st: Store, notices: seq<View>, read: nat,
                       taken: Option<seq<RoundChangeEntry>>, count: nat)
    requires ChangeTurn(cfg, n, st, notices, read, taken, count) && count < cfg.quorum(n.height) && read == |notices|
    ensures |At(VerifiedRoundChanges(cfg, n.(store := st), n.round).roundChanges, n.Current())| < cfg.quorum(n.height)
  {
    DrainedOwed(st.roundChanges, notices, read, n.Current());
    VerifiedAt(st.roundChanges, n.Current(), RoundChangeVerifier(cfg, n.height), n.Current());
  }

  /** One `take_valid_round_change_messages` of the loop. */
  method TakeChanges(handler: MessageHandler, ghost n: Node, view: View, quorum: nat, ghost read: nat)
    returns (taken: Option<seq<RoundChangeEntry>>, count: nat)
    requires Ready(handler) && Drives(handler, n) && Collects(handler.cfg, n) && view == n.Current()
    requires quorum == handler.cfg.quorum(n.height) && read <= |handler.messages.roundChangeNotices|
    requires Runs(handler.cfg, n, n.(store := handler.messages.contents))
    modifies handler.messages
    ensures Ready(handler) && handler.messages.roundChangeNotices == old(handler.messages.roundChangeNotices)
    ensures ChangeTurn(handler.cfg, n, handler.messages.contents, handler.messages.roundChangeNotices, read, taken,
        count)
  {
    var messages := handler.messages;
    var verify := RoundChangeVerifier(handler.cfg, view.height);
    ghost var before := n.(store := messages.contents);
    ghost var here := At(VerifyRoundChanges(messages.contents, view, verify).roundChanges, view);
    ghost var order;
    taken, count, order := messages.TakeValidRoundChanges(view, verify, quorum);
    if count >= quorum {
      OrderIsAsLong(order, here);
      FlaggedValues(here, order);
    } else {
      order := SomeOrder(here);
      DrainedOwed(messages.contents.roundChanges, messages.roundChangeNotices, read, view);
    }
    CollectRuns(handler.cfg, n, before.store, order);
  }

  /** The take as a step of the protocol model, whatever block could be built. */
  lemma CollectRuns(cfg: Config, n: Node, st: Store, order: seq<Slot>)
    requires n.status.Running? && Collects(cfg, n) && Runs(cfg, n, n.(store := st))
    requires Orders(order, At(VerifiedRoundChanges(cfg, n.(store := st), n.round).roundChanges, n.Current()))
    ensures var st' := VerifiedRoundChanges(cfg, n.(store := st), n.round);
            var here := At(st'.roundChanges, n.Current());
            if |here| < cfg.quorum(n.height) then Runs(cfg, n, n.(store := st'))
            else
              forall built :: Runs(cfg, n, Proposing(n, st'.(roundChanges := Without(st'.roundChanges, n.Current())),
                                                    Messages(Values(order, here)), built))
  {
    var st' := VerifiedRoundChanges(cfg, n.(store := st), n.round);
    var here := At(st'.roundChanges, n.Current());
    if |here| < cfg.quorum(n.height) {
      RunsOn(cfg, n, n.(store := st), CollectRoundChanges(order, None));
    } else {
      forall built ensures Runs(cfg, n, Proposing(n, st'.(roundChanges := Without(st'.roundChanges, n.Current())),
                                                 Messages(Values(order, here)), built))
      {
        RunsOn(cfg, n, n.(store := st), CollectRoundChanges(order, built));
      }
    }
  }

  lemma FlaggedValues(here: map<Slot, RoundChangeEntry>, order: seq<Slot>)
    requires Orders(order, here) && forall slot :: slot in here ==> here[slot].verified
    ensures forall rc :: rc in Values(order, here) ==> rc.verified
  {
    forall rc | rc in Values(order, here) ensures rc.verified {
      var i :| 0 <= i < |order| && Values(order, here)[i] == rc;
      assert order[i] in order;
    }
  }

  method ReadRoundChangeNotice(handler: MessageHandler, ghost n: Node, view: View, quorum: nat, read: nat, count: nat)
    returns (taken: Option<seq<RoundChangeEntry>>, count': nat)
    requires Ready(handler) && Drives(handler, n) && Collects(handler.cfg, n) && view == n.Current()
    requires quorum == handler.cfg.quorum(n.height) && count < quorum && read < |handler.messages.roundChangeNotices|
    requires ChangesCounted(handler.cfg, n, handler.messages.contents, handler.messages.roundChangeNotices, read, count)
    modifies handler.messages
    ensures Ready(handler) && handler.messages.roundChangeNotices == old(handler.messages.roundChangeNotices)
    ensures ChangeTurn(handler.cfg, n, handler.messages.contents, handler.messages.roundChangeNotices, read + 1, taken,
        count')
  {
    NoticeOwed(handler.messages.contents.roundChanges, handler.messages.roundChangeNotices, read, view);
    taken, count' := None, count;
    if handler.messages.roundChangeNotices[read] == view {
      count' := count + 1;
      if count' == quorum {
        taken, count' := TakeChanges(handler, n, view, quorum, read + 1);
      }
    }
  }

  /** The loop of wait_rcc: when it ends, the last take did hand out a quorum of verified round changes. */
  method WaitRoundChanges(handler: MessageHandler, ghost n: Node, view: View, quorum: nat,
                          early: seq<Received>, schedule: seq<seq<Received>>)
    returns (taken: Option<seq<RoundChangeEntry>>, count: nat, read: nat)
    requires Ready(handler) && Drives(handler, n) && n.store == handler.messages.contents
    requires Collects(handler.cfg, n) && view == n.Current() && quorum == handler.cfg.quorum(n.height)
    modifies handler.messages
    ensures Ready(handler)
    ensures ChangeTurn(handler.cfg, n, handler.messages.contents, handler.messages.roundChangeNotices,
                       read, taken, count)
    ensures count < quorum ==>
              && read == |handler.messages.roundChangeNotices|
              && |At(VerifiedRoundChanges(handler.cfg, n.(store := handler.messages.contents), n.round).roundChanges,
                  view)| < quorum
  {
    read := |handler.messages.roundChangeNotices|;
    Settle(handler, n, early);
    taken, count := TakeChanges(handler, n, view, quorum, read);
    var k := 0;
    while count < quorum && (k < |schedule| || read < |handler.messages.roundChangeNotices|)
      invariant Ready(handler)
      invariant ChangeTurn(handler.cfg, n, handler.messages.contents, handler.messages.roundChangeNotices,
                           read, taken, count)
      invariant k <= |schedule|
      decreases |schedule| - k, |handler.messages.roundChangeNotices| - read
    {
      if k < |schedule| {
        AwaitRoundChangeNotice(handler, n, read, count, schedule[k]);
        k := k + 1;
      }
      if read < |handler.messages.roundChangeNotices| {
        taken, count := ReadRoundChangeNotice(handler, n, view, quorum, read, count);
        read := read + 1;
      }
    }
    if count < quorum {
      ChangesBlocked(handler.cfg, n, handler.messages.contents, handler.messages.roundChangeNotices, read, taken,
          count);
    }
  }

  // ---------- all later rounds ----------

  /** In every later round the counter covers what is stored, up to unread notices. */
  ghost predicate Covers(st: Store, notices: seq<View>, read: nat, height: nat, current: nat, counts: seq<nat>) {
    && read <= |notices| && |counts| == ROUND_ARRAY_SIZE
    && forall r :: current < r < |counts| ==> Owed(st.roundChanges, notices, read, View(height, r)) <= counts[r]
  }

  ghost predicate BelowQuorum(counts: seq<nat>, quorum: nat, current: nat, from: nat) {
    forall r :: current < r && from <= r < |counts| ==> counts[r] < quorum
  }

  /** A later round with a quorum of stored round changes, all verified. */
  ghost predicate HasQuorum(st: Store, height: nat, current: nat, quorum: nat, round: nat) {
    && current < round <= MAX_ROUND && |At(st.roundChanges, View(height, round))| >= quorum
    && (forall slot :: slot in At(st.roundChanges, View(height, round)) ==> st.roundChanges[slot].verified)
  }

  lemma ArrivalsCovered(st: Store, n: seq<View>, st': Store, n': seq<View>, read: nat, height: nat, current: nat,
                        counts: seq<nat>)
    requires Covers(st, n, read, height, current, counts) && Announces(st.roundChanges, n, st'.roundChanges, n')
    ensures Covers(st', n', read, height, current, counts)
  {
    forall r | current < r < |counts| ensures Owed(st'.roundChanges, n', read, View(height, r)) <= counts[r] {
      ArrivalsOwed(st.roundChanges, n, st'.roundChanges, n', read, View(height, r));
    }
  }

  lemma NoticeCovered(st: Store, n: seq<View>, read: nat, height: nat, current: nat, counts: seq<nat>,
                      counts': seq<nat>)
    requires Covers(st, n, read, height, current, counts) && read < |n| && |counts'| == |counts|
    requires forall r :: 0 <= r < |counts| ==>
               counts'[r] == counts[r] + if n[read] == View(height, r) && r > current then 1 else 0
    ensures Covers(st, n, read + 1, height, current, counts')
  {
    forall r | current < r < |counts| ensures Owed(st.roundChanges, n, read + 1, View(height, r)) <= counts'[r] {
      NoticeOwed(st.roundChanges, n, read, View(height, r));
    }
  }

  lemma RecountCovered(st: Store, n: seq<View>, read: nat, height: nat, current: nat, counts: seq<nat>, round: nat,
                       verify: RoundChangeMsg -> bool, counts': seq<nat>)
    requires Covers(st, n, read, height, current, counts) && round < |counts| && |counts'| == |counts|
    requires counts'[round] == |At(VerifyRoundChanges(st, View(height, round), verify).roundChanges,
        View(height, round))|
    requires forall r :: 0 <= r < |counts| && r != round ==> counts'[r] == counts[r]
    ensures Covers(VerifyRoundChanges(st, View(height, round), verify), n, read, height, current, counts')
  {
    var st' := VerifyRoundChanges(st, View(height, round), verify);
    forall r | current < r < |counts| ensures Owed(st'.roundChanges, n, read, View(height, r)) <= counts'[r] {
      VerifiedAt(st.roundChanges, View(height, round), verify, View(height, r));
    }
  }

  /** `get_valid_round_change_count` written back into the counter of its round. */
  method Recount(handler: MessageHandler, height: nat, current: nat, quorum: nat, verify: RoundChangeMsg -> bool,
                 counts: array<nat>, round: nat, ghost read: nat)
    requires Ready(handler) && current < round < counts.Length == ROUND_ARRAY_SIZE
    requires Covers(handler.messages.contents, handler.messages.roundChangeNotices, read, height, current, counts[..])
    modifies handler.messages, counts
    ensures Ready(handler) && handler.messages.roundChangeNotices == old(handler.messages.roundChangeNotices)
    ensures Covers(handler.messages.contents, handler.messages.roundChangeNotices, read, height, current, counts[..])
    ensures forall r :: 0 <= r < counts.Length && r != round ==> counts[r] == old(counts[r])
    ensures counts[round] >= quorum ==> HasQuorum(handler.messages.contents, height, current, quorum, round)
  {
    ghost var st, before := handler.messages.contents, counts[..];
    counts[round] := handler.messages.GetValidRoundChangeCount(View(height, round), verify);
    RecountCovered(st, handler.messages.roundChangeNotices, read, height, current, before, round, verify, counts[..]);
  }

  method Advance(handler: MessageHandler, height: nat, current: nat, counts: array<nat>, read: nat,
                 batch: seq<Received>)
    requires Ready(handler)
    requires Covers(handler.messages.contents, handler.messages.roundChangeNotices, read, height, current, counts[..])
    modifies handler.messages
    ensures Ready(handler) && counts[..] == old(counts[..])
    ensures Covers(handler.messages.contents, handler.messages.roundChangeNotices, read, height, current, counts[..])
  {
    ghost var st, n := handler.messages.contents, handler.messages.roundChangeNotices;
    Arrive(handler, batch);
    ArrivalsCovered(st, n, handler.messages.contents, handler.messages.roundChangeNotices, read, height, current,
        counts[..]);
  }

  /** One turn of the scan: a counter that reached the quorum is recounted. */
  method ScanTurn(handler: MessageHandler, height: nat, current: nat, quorum: nat, verify: RoundChangeMsg -> bool,
                  counts: array<nat>, r: nat, ghost read: nat)
    returns (enough: bool)
    requires Ready(handler) && current < r < counts.Length == ROUND_ARRAY_SIZE
    requires Covers(handler.messages.contents, handler.messages.roundChangeNotices, read, height, current, counts[..])
    requires BelowQuorum(counts[..], quorum, current, r + 1)
    modifies handler.messages, counts
    ensures Ready(handler) && handler.messages.roundChangeNotices == old(handler.messages.roundChangeNotices)
    ensures Covers(handler.messages.contents, handler.messages.roundChangeNotices, read, height, current, counts[..])
    ensures enough ==> HasQuorum(handler.messages.contents, height, current, quorum, r)
    ensures !enough ==> BelowQuorum(counts[..], quorum, current, r)
  {
    if counts[r] >= quorum {
      Recount(handler, height, current, quorum, verify, counts, r, read);
    }
    enough := counts[r] >= quorum;
  }

  /** First part of wait_future_rcc: the counters by round, then the scan from the highest round down. */
  method ScanDown(handler: MessageHandler, height: nat, current: nat, quorum: nat, verify: RoundChangeMsg -> bool,
                  early: seq<Received>, schedule: seq<seq<Received>>)
    returns (round: Option<nat>, counts: array<nat>, read: nat, next: nat)
    requires Ready(handler)
    modifies handler.messages
    ensures Ready(handler) && fresh(counts) && next <= |schedule|
    ensures Covers(handler.messages.contents, handler.messages.roundChangeNotices, read, height, current, counts[..])
    ensures round.Some? ==> HasQuorum(handler.messages.contents, height, current, quorum, round.value)
    ensures round.None? ==> BelowQuorum(counts[..], quorum, current, 0)
  {
    var messages := handler.messages;
    read := |messages.roundChangeNotices|;
    Arrive(handler, early);
    counts := messages.RoundChangeCountByRound(height);
    next, round := 0, None;
    var r: nat := ROUND_ARRAY_SIZE;
    while r > current + 1
      invariant Ready(handler) && fresh(counts) && r <= ROUND_ARRAY_SIZE && next <= |schedule|
      invariant Covers(messages.contents, messages.roundChangeNotices, read, height, current, counts[..])
      invariant BelowQuorum(counts[..], quorum, current, r)
    {
      if next < |schedule| {
        Advance(handler, height, current, counts, read, schedule[next]);
        next := next + 1;
      }
      r := r - 1;
      var enough := ScanTurn(handler, height, current, quorum, verify, counts, r, read);
      if enough {
        round := Some(r);
        return;
      }
    }
  }

  /** The notice at `read` steps the counter of its round exactly when it is of this height and later. */
  method CountNotice(handler: MessageHandler, height: nat, current: nat, counts: array<nat>, read: nat)
    returns (ours: bool)
    requires Ready(handler) && read < |handler.messages.roundChangeNotices|
    requires Covers(handler.messages.contents, handler.messages.roundChangeNotices, read, height, current, counts[..])
    modifies counts
    ensures Covers(handler.messages.contents, handler.messages.roundChangeNotices, read + 1, height, current,
        counts[..])
    ensures var view := handler.messages.roundChangeNotices[read];
            && (ours <==> view.height == height && view.round > current)
            && (ours ==> view.round < counts.Length)
            && (forall r :: 0 <= r < counts.Length && !(ours && r == view.round) ==> counts[r] == old(counts[r]))
  {
    ghost var before := counts[..];
    var view := handler.messages.roundChangeNotices[read];
    ours := view.height == height && view.round > current;
    assert view in handler.messages.roundChangeNotices;
    if ours {
      counts[view.round] := counts[view.round] + 1;
    }
    NoticeCovered(handler.messages.contents, handler.messages.roundChangeNotices, read, height, current, before,
        counts[..]);
  }

  /**
   One turn of the notice loop: the notice at `read` steps the counter of its round, and a reached quorum is
   recounted.
   */
  method TakeNotice(handler: MessageHandler, height: nat, current: nat, quorum: nat, verify: RoundChangeMsg -> bool,
                    counts: array<nat>, read: nat)
    returns (round: Option<nat>)
    requires Ready(handler) && read < |handler.messages.roundChangeNotices|
    requires Covers(handler.messages.contents, handler.messages.roundChangeNotices, read, height, current, counts[..])
    requires BelowQuorum(counts[..], quorum, current, 0)
    modifies handler.messages, counts
    ensures Ready(handler) && handler.messages.roundChangeNotices == old(handler.messages.roundChangeNotices)
    ensures Covers(handler.messages.contents, handler.messages.roundChangeNotices, read + 1, height, current,
        counts[..])
    ensures round.Some? ==> HasQuorum(handler.messages.contents, height, current, quorum, round.value)
    ensures round.None? ==> BelowQuorum(counts[..], quorum, current, 0)
  {
    round := None;
    var view := handler.messages.roundChangeNotices[read];
    var ours := CountNotice(handler, height, current, counts, read);
    if ours && counts[view.round] >= quorum {
      Recount(handler, height, current, quorum, verify, counts, view.round, read + 1);
      if counts[view.round] >= quorum {
        round := Some(view.round);
      }
    }
  }

  /**
   wait_future_rcc.  A round is returned only with a quorum of verified round changes stored; otherwise, when nothing
   arrives any more, the loop is blocked with every notice read, and no later round has a quorum that verifies.
   */
  method WaitFutureRoundChanges(handler: MessageHandler, height: nat, current: nat, quorum: nat,
                                verify: RoundChangeMsg -> bool,
                                early: seq<Received>, schedule: seq<seq<Received>>)
    returns (round: Option<nat>, read: nat)
    requires Ready(handler)
    modifies handler.messages
    ensures Ready(handler) && read <= |handler.messages.roundChangeNotices|
    ensures round.Some? ==> HasQuorum(handler.messages.contents, height, current, quorum, round.value)
    ensures round.None? ==> read == |handler.messages.roundChangeNotices|
    ensures round.None? ==>
              forall r :: current < r <= MAX_ROUND ==>
                |At(VerifyRoundChanges(handler.messages.contents, View(height, r), verify).roundChanges,
                    View(height, r))| < quorum
  {
    var messages := handler.messages;
    var counts, next;
    round, counts, read, next := ScanDown(handler, height, current, quorum, verify, early, schedule);
    while round.None? && (next < |schedule| || read < |messages.roundChangeNotices|)
      invariant Ready(handler) && fresh(counts) && next <= |schedule|
      invariant Covers(messages.contents, messages.roundChangeNotices, read, height, current, counts[..])
      invariant round.Some? ==> HasQuorum(messages.contents, height, current, quorum, round.value)
      invariant round.None? ==> BelowQuorum(counts[..], quorum, current, 0)
      decreases |schedule| - next, |messages.roundChangeNotices| - read
    {
      if next < |schedule| {
        Advance(handler, height, current, counts, read, schedule[next]);
        next := next + 1;
      }
      if read < |messages.roundChangeNotices| {
        round := TakeNotice(handler, height, current, quorum, verify, counts, read);
        read := read + 1;
      }
    }
    if round.None? {
      forall r | current < r <= MAX_ROUND
        ensures |At(VerifyRoundChanges(messages.contents, View(height, r), verify).roundChanges,
            View(height, r))| < quorum
      {
        DrainedOwed(messages.contents.roundChanges, messages.roundChangeNotices, read, View(height, r));
        VerifiedAt(messages.contents.roundChanges, View(height, r), verify, View(height, r));
        assert counts[..][r] < quorum;
      }
    }
  }
}

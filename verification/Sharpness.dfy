/**
 The bound on unreliable validators is exact.  For every configuration with `2 * n <= 3 * quorum < 3 * n` there is a
 run with one late validator more than `Agreement.CrossRoundAgreement` allows, all validators honest, in which two
 nodes finalize different blocks.

 The validators are split into the decider d and the sets late, kept, jumped and idle.  d, late, kept and jumped commit
 block A in round 0 and d decides it.  late, kept and idle change to round 1, only kept with certificates.  That quorum
 makes jumped jump and forget.  Then late, jumped and idle, a quorum without certificates, start over in round 2.
 */
module Sharpness {
  import opened Types
  import opened Configuration
  import opened Verification
  import opened Stores
  import opened Nodes
  import opened NodeInvariant
  import opened Systems
  import opened SystemSteps
  import opened Agreement
  import opened Proposals
  import opened Caching
  import opened Mocks
  import opened Scenarios

  // ---------- many nodes, one after another ----------

  /** From s the run goes on to s' by steps of these nodes alone. */
  ghost predicate Works(cfg: Config, late: set<Address>, s: State, s': State, who: set<Address>) {
    && Reached(cfg, late, s') && Grows(s, s')
    && (forall j :: j in s.nodes && j !in who ==> s'.nodes[j] == s.nodes[j])
  }

  lemma WorksOn(cfg: Config, late: set<Address>, s: State, s1: State, s2: State, who: set<Address>, x: Address)
    requires Works(cfg, late, s, s1, who - {x}) && Moves(cfg, late, s1, s2, x) && x in who
    ensures Works(cfg, late, s, s2, who)
  {
  }

  lemma WorksThen(cfg: Config, late: set<Address>, s: State, s1: State, s2: State, who: set<Address>,
                  others: set<Address>)
    requires Works(cfg, late, s, s1, who) && Works(cfg, late, s1, s2, others)
    ensures Works(cfg, late, s, s2, who + others)
  {
  }

  /** No certificate is carried. */
  predicate Bare(n: Node) {
    n.latest.Some? ==> n.latest.value.prepared.None?
  }

  ghost predicate Waiting(n: Node, round: nat) {
    Idle(n, round) && Bare(n)
  }

  ghost predicate AllWait(s: State, who: set<Address>, round: nat) {
    forall x :: x in who ==> x in s.nodes && Waiting(s.nodes[x], round)
  }

  // ---------- preparing ----------

  ghost predicate Voted(n: Node, digest: Digest, round: nat) {
    && Voting(n, digest, {n.self}) && n.round == round && Bare(n)
    && PrepareDigest(n.Current(), digest) in n.signed
  }

  ghost predicate AllVoted(s: State, who: set<Address>, digest: Digest, round: nat) {
    forall x :: x in who ==> x in s.nodes && Voted(s.nodes[x], digest, round)
  }

  lemma OfferedOn(cfg: Config, s: State, s': State, p: ProposalMsg)
    requires Offered(cfg, s, p) && Grows(s, s')
    ensures Offered(cfg, s', p)
  {
    KnownGrows(s, s');
  }

  lemma FollowsBare(cfg: Config, late: set<Address>, s: State, x: Address, p: ProposalMsg) returns (s': State)
    requires Reached(cfg, late, s) && x in s.nodes && Waiting(s.nodes[x], p.view.round)
    requires Offered(cfg, s, p) && x != cfg.proposer(p.view)
    ensures Moves(cfg, late, s, s', x) && Voted(s'.nodes[x], p.digest, p.view.round)
  {
    ReachedSane(cfg, late, s, x);
    s' := Follows(cfg, late, s, x, p);
    ReachedSane(cfg, late, s', x);
  }

  lemma {:induction false} AllFollow(cfg: Config, late: set<Address>, s: State, who: set<Address>, p: ProposalMsg)
    returns (s': State)
    requires Reached(cfg, late, s) && AllWait(s, who, p.view.round) && Offered(cfg, s, p)
    requires cfg.proposer(p.view) !in who
    ensures Works(cfg, late, s, s', who) && AllVoted(s', who, p.digest, p.view.round)
    decreases |who|
  {
    s' := s;
    if who != {} {
      var x :| x in who;
      var s1 := AllFollow(cfg, late, s, who - {x}, p);
      OfferedOn(cfg, s, s1, p);
      s' := FollowsBare(cfg, late, s1, x, p);
      WorksOn(cfg, late, s, s1, s', who, x);
      forall y | y in who - {x} ensures y in s'.nodes && Voted(s'.nodes[y], p.digest, p.view.round) {
        Unmoved(cfg, late, s1, s', x, y);
      }
    }
  }

  // ---------- committing ----------

  ghost predicate PreparesOut(s: State, who: set<Address>, view: View, digest: Digest) {
    forall a :: a in who ==> MayHaveSigned(s, a, PrepareDigest(view, digest))
  }

  ghost predicate CommitsOut(s: State, who: set<Address>, view: View, digest: Digest) {
    forall a :: a in who ==> MayHaveSigned(s, a, digest) && MayHaveCommitted(s, a, view, digest)
  }

  lemma VotesStayOut(s: State, s': State, who: set<Address>, view: View, digest: Digest)
    requires Grows(s, s')
    ensures PreparesOut(s, who, view, digest) ==> PreparesOut(s', who, view, digest)
    ensures CommitsOut(s, who, view, digest) ==> CommitsOut(s', who, view, digest)
  {
    KnownGrows(s, s');
  }

  lemma VotedIsOut(cfg: Config, late: set<Address>, s: State, who: set<Address>, digest: Digest, round: nat)
    requires Reached(cfg, late, s) && AllVoted(s, who, digest, round)
    ensures PreparesOut(s, who, View(s.height, round), digest)
  {
    forall a | a in who ensures MayHaveSigned(s, a, PrepareDigest(View(s.height, round), digest)) {
      assert Voted(s.nodes[a], digest, round);
      ReachedSane(cfg, late, s, a);
    }
  }

  lemma MovesNowhere(cfg: Config, late: set<Address>, s: State, i: Address)
    requires Reached(cfg, late, s) && i in s.nodes
    ensures Moves(cfg, late, s, s, i) && Stays(s.nodes[i], s.nodes[i])
  {
    assert s.nodes[i := s.nodes[i]] == s.nodes;
  }

  lemma HearsOneMore(cfg: Config, late: set<Address>, s: State, i: Address, digest: Digest,
                     voters: set<Address>, who: set<Address>, x: Address)
    returns (s': State)
    requires Reached(cfg, late, s) && i in s.nodes && Voting(s.nodes[i], digest, voters + (who - {x})) && x in who
    requires x !in voters
    requires i !in who && who <= cfg.validators(s.height) && cfg.proposer(s.nodes[i].Current()) !in who
    requires PreparesOut(s, who, s.nodes[i].Current(), digest)
    ensures Moves(cfg, late, s, s', i) && Stays(s.nodes[i], s'.nodes[i]) && Voting(s'.nodes[i], digest, voters + who)
  {
    ReachedSane(cfg, late, s, i);
    s' := HearsPrepare(cfg, late, s, i, digest, voters + (who - {x}), x);
    assert voters + (who - {x}) + {x} == voters + who;
  }

  lemma {:induction false} HearsPrepares(cfg: Config, late: set<Address>, s: State, i: Address, digest: Digest,
                                         voters: set<Address>, who: set<Address>)
    returns (s': State)
    requires Reached(cfg, late, s) && i in s.nodes && Voting(s.nodes[i], digest, voters) && voters !! who && i !in who
    requires who <= cfg.validators(s.height) && cfg.proposer(s.nodes[i].Current()) !in who
    requires PreparesOut(s, who, s.nodes[i].Current(), digest)
    ensures Moves(cfg, late, s, s', i) && Stays(s.nodes[i], s'.nodes[i]) && Voting(s'.nodes[i], digest, voters + who)
    decreases |who|
  {
    ReachedSane(cfg, late, s, i);
    if who == {} {
      s' := s;
      MovesNowhere(cfg, late, s, i);
      assert voters + who == voters;
    } else {
      var x :| x in who;
      var s1 := HearsPrepares(cfg, late, s, i, digest, voters, who - {x});
      VotesStayOut(s, s1, who, s.nodes[i].Current(), digest);
      s' := HearsOneMore(cfg, late, s1, i, digest, voters, who, x);
      MovesOn(cfg, late, s, s1, s', i);
    }
  }

  ghost predicate Committed(n: Node, digest: Digest, round: nat) {
    && Committing(n, digest) && n.round == round && Bare(n) && digest in n.signed
    && CommitDigest(n.Current(), digest, Signature(n.self, digest)) in n.signed
  }

  ghost predicate AllCommitted(s: State, who: set<Address>, digest: Digest, round: nat) {
    forall x :: x in who ==> x in s.nodes && Committed(s.nodes[x], digest, round)
  }

  lemma SizeWithout(who: set<Address>, x: Address)
    requires x in who
    ensures |{x} + (who - {x})| == |who| && {x} + (who - {x}) == who
  {
    assert {x} + (who - {x}) == who;
  }

  /** A node that prepared hears all the others and commits. */
  lemma CommitsWithAll(cfg: Config, late: set<Address>, s: State, x: Address, all: set<Address>, digest: Digest,
                       round: nat)
    returns (s': State)
    requires Reached(cfg, late, s) && x in s.nodes && Voted(s.nodes[x], digest, round) && x in all
    requires all <= cfg.validators(s.height) && cfg.proposer(View(s.height, round)) !in all
    requires |all| + 1 >= cfg.quorum(s.height)
    requires PreparesOut(s, all, View(s.height, round), digest)
    ensures Moves(cfg, late, s, s', x) && Committed(s'.nodes[x], digest, round)
  {
    ReachedSane(cfg, late, s, x);
    SizeWithout(all, x);
    var s1 := HearsPrepares(cfg, late, s, x, digest, {x}, all - {x});
    s' := SendsCommit(cfg, late, s1, x, digest, {x} + (all - {x}));
    MovesOn(cfg, late, s, s1, s', x);
    ReachedSane(cfg, late, s', x);
  }

  lemma {:induction false} AllCommit(cfg: Config, late: set<Address>, s: State, who: set<Address>, all: set<Address>,
                                     digest: Digest, round: nat)
    returns (s': State)
    requires Reached(cfg, late, s) && AllVoted(s, who, digest, round) && who <= all
    requires all <= cfg.validators(s.height) && cfg.proposer(View(s.height, round)) !in all
    requires |all| + 1 >= cfg.quorum(s.height)
    requires PreparesOut(s, all, View(s.height, round), digest)
    ensures Works(cfg, late, s, s', who) && AllCommitted(s', who, digest, round)
    decreases |who|
  {
    s' := s;
    if who != {} {
      var x :| x in who;
      var s1 := AllCommit(cfg, late, s, who - {x}, all, digest, round);
      VotesStayOut(s, s1, all, View(s.height, round), digest);
      s' := CommitsWithAll(cfg, late, s1, x, all, digest, round);
      WorksOn(cfg, late, s, s1, s', who, x);
      forall y | y in who - {x} ensures y in s'.nodes && Committed(s'.nodes[y], digest, round) {
        Unmoved(cfg, late, s1, s', x, y);
      }
    }
  }

  lemma CommittedIsOut(cfg: Config, late: set<Address>, s: State, who: set<Address>, digest: Digest, round: nat)
    requires Reached(cfg, late, s) && AllCommitted(s, who, digest, round)
    ensures CommitsOut(s, who, View(s.height, round), digest)
  {
    forall a | a in who
      ensures MayHaveSigned(s, a, digest) && MayHaveCommitted(s, a, View(s.height, round), digest)
    {
      assert Committed(s.nodes[a], digest, round);
      ReachedSane(cfg, late, s, a);
    }
  }

  // ---------- deciding ----------

  lemma HearsOneMoreCommit(cfg: Config, late: set<Address>, s: State, i: Address, digest: Digest,
                           sealers: set<Address>, who: set<Address>, x: Address)
    returns (s': State)
    requires Reached(cfg, late, s) && i in s.nodes && Sealing(s.nodes[i], digest, sealers + (who - {x})) && x in who
    requires x !in sealers
    requires i !in who && who <= cfg.validators(s.height) && CommitsOut(s, who, s.nodes[i].Current(), digest)
    ensures Moves(cfg, late, s, s', i) && Stays(s.nodes[i], s'.nodes[i]) && Sealing(s'.nodes[i], digest, sealers + who)
  {
    ReachedSane(cfg, late, s, i);
    s' := HearsCommit(cfg, late, s, i, digest, sealers + (who - {x}), x);
    assert sealers + (who - {x}) + {x} == sealers + who;
  }

  lemma {:induction false} HearsCommits(cfg: Config, late: set<Address>, s: State, i: Address, digest: Digest,
                                        sealers: set<Address>, who: set<Address>)
    returns (s': State)
    requires Reached(cfg, late, s) && i in s.nodes && Sealing(s.nodes[i], digest, sealers) && sealers !! who
    requires i !in who
    requires who <= cfg.validators(s.height) && CommitsOut(s, who, s.nodes[i].Current(), digest)
    ensures Moves(cfg, late, s, s', i) && Stays(s.nodes[i], s'.nodes[i]) && Sealing(s'.nodes[i], digest, sealers + who)
    decreases |who|
  {
    ReachedSane(cfg, late, s, i);
    if who == {} {
      s' := s;
      MovesNowhere(cfg, late, s, i);
      assert sealers + who == sealers;
    } else {
      var x :| x in who;
      var s1 := HearsCommits(cfg, late, s, i, digest, sealers, who - {x});
      VotesStayOut(s, s1, who, s.nodes[i].Current(), digest);
      s' := HearsOneMoreCommit(cfg, late, s1, i, digest, sealers, who, x);
      MovesOn(cfg, late, s, s1, s', i);
    }
  }

  /** With all prepares around, the proposer commits and stores its commit. */
  lemma ProposerSeals(cfg: Config, late: set<Address>, s: State, i: Address, who: set<Address>, digest: Digest)
    returns (s': State)
    requires Reached(cfg, late, s) && i in s.nodes && Voting(s.nodes[i], digest, {})
    requires cfg.proposer(s.nodes[i].Current()) == i
    requires who <= cfg.validators(s.height) && i !in who && |who| + 1 >= cfg.quorum(s.height)
    requires PreparesOut(s, who, s.nodes[i].Current(), digest)
    ensures Moves(cfg, late, s, s', i) && Stays(s.nodes[i], s'.nodes[i]) && Sealing(s'.nodes[i], digest, {i})
  {
    var s1 := HearsPrepares(cfg, late, s, i, digest, {}, who);
    assert {} + who == who;
    var s2 := SendsCommit(cfg, late, s1, i, digest, {} + who);
    MovesOn(cfg, late, s, s1, s2, i);
    s' := StoresCommit(cfg, late, s2, i, digest);
    MovesOn(cfg, late, s, s2, s', i);
  }

  lemma ProposerFinalizes(cfg: Config, late: set<Address>, s: State, i: Address, who: set<Address>, raw: RawBlock,
                          round: nat)
    returns (s': State, block: FinalizedBlock)
    requires Reached(cfg, late, s) && i in s.nodes && Sealing(s.nodes[i], BlockDigest(raw, round), {i})
    requires s.nodes[i].round == round
    requires who <= cfg.validators(s.height) && i !in who && |who| + 1 >= cfg.quorum(s.height)
    requires CommitsOut(s, who, View(s.height, round), BlockDigest(raw, round))
    ensures Moves(cfg, late, s, s', i) && DecidedIn(s', i, round, block) && block.raw == raw
  {
    ReachedSane(cfg, late, s, i);
    var s1 := HearsCommits(cfg, late, s, i, BlockDigest(raw, round), {i}, who);
    assert |{i} + who| == |who| + 1;
    s', block := Finalizes(cfg, late, s1, i, raw, round, {i} + who);
    MovesOn(cfg, late, s, s1, s', i);
  }

  /** The nodes prepare and commit the proposal of i. */
  lemma QuorumCommits(cfg: Config, late: set<Address>, s: State, who: set<Address>, p: ProposalMsg) returns (s': State)
    requires Reached(cfg, late, s) && AllWait(s, who, p.view.round) && Offered(cfg, s, p)
    requires cfg.proposer(p.view) !in who
    requires who <= cfg.validators(s.height) && |who| + 1 >= cfg.quorum(s.height)
    ensures Works(cfg, late, s, s', who) && AllCommitted(s', who, p.digest, p.view.round)
    ensures PreparesOut(s', who, p.view, p.digest) && CommitsOut(s', who, p.view, p.digest)
  {
    var s1 := AllFollow(cfg, late, s, who, p);
    VotedIsOut(cfg, late, s1, who, p.digest, p.view.round);
    s' := AllCommit(cfg, late, s1, who, who, p.digest, p.view.round);
    VotesStayOut(s1, s', who, p.view, p.digest);
    CommittedIsOut(cfg, late, s', who, p.digest, p.view.round);
    WorksThen(cfg, late, s, s1, s', who, who);
    assert who + who == who;
  }

  /** ... and i decides. */
  lemma QuorumDecides(cfg: Config, late: set<Address>, s: State, i: Address, who: set<Address>, p: ProposalMsg,
                      raw: RawBlock)
    returns (s': State, block: FinalizedBlock)
    requires Reached(cfg, late, s) && AllWait(s, who, p.view.round) && Offered(cfg, s, p) && cfg.proposer(p.view) == i
    requires who <= cfg.validators(s.height) && |who| + 1 >= cfg.quorum(s.height) && i !in who && i in s.nodes
    requires p.digest == BlockDigest(raw, p.view.round) && Voting(s.nodes[i], p.digest, {})
    requires s.nodes[i].round == p.view.round
    ensures Works(cfg, late, s, s', who + {i}) && AllCommitted(s', who, p.digest, p.view.round)
    ensures DecidedIn(s', i, p.view.round, block) && block.raw == raw
  {
    var s1 := QuorumCommits(cfg, late, s, who, p);
    assert s1.nodes[i] == s.nodes[i];
    ReachedSane(cfg, late, s1, i);
    var s2 := ProposerSeals(cfg, late, s1, i, who, p.digest);
    VotesStayOut(s1, s2, who, p.view, p.digest);
    s', block := ProposerFinalizes(cfg, late, s2, i, who, raw, p.view.round);
    MovesOn(cfg, late, s1, s2, s', i);
    forall y | y in who ensures y in s'.nodes && Committed(s'.nodes[y], p.digest, p.view.round) {
      Unmoved(cfg, late, s1, s', i, y);
    }
  }

  // ---------- leaving a round ----------

  /** A verified round change of a to this round is around. */
  ghost predicate Change(cfg: Config, s: State, rc: RoundChangeMsg, a: Address, round: nat) {
    && rc.view == View(s.height, round) && rc.Signer() == Some(a)
    && ValidRoundChange(cfg, rc, s.height) && KnownMetadata(s, rc.Metadata())
  }

  ghost predicate Changes(cfg: Config, s: State, who: set<Address>, round: nat, rcs: map<Address, RoundChangeMsg>) {
    forall a :: a in who ==> a in rcs && Change(cfg, s, rcs[a], a, round)
  }

  ghost predicate BareChanges(who: set<Address>, rcs: map<Address, RoundChangeMsg>) {
    forall a :: a in who ==> a in rcs && rcs[a].prepared.None?
  }

  lemma ChangesStay(cfg: Config, s: State, s': State, who: set<Address>, round: nat, rcs: map<Address, RoundChangeMsg>)
    requires Grows(s, s') && Changes(cfg, s, who, round, rcs)
    ensures Changes(cfg, s', who, round, rcs)
  {
    KnownGrows(s, s');
  }

  /** A node of this round without a certificate, or in the window as a late one. */
  ghost predicate Leaving(n: Node, round: nat, late: set<Address>) {
    && Tidy(n) && n.round == round && Bare(n) && !RunStateOf(n.phase).InCommit?
    && (n.phase.CommitSent? ==> n.self in late)
  }

  ghost predicate AllLeaving(s: State, who: set<Address>, round: nat, late: set<Address>) {
    forall x :: x in who ==> x in s.nodes && Leaving(s.nodes[x], round, late)
  }

  ghost predicate Arrived(cfg: Config, n: Node, rc: RoundChangeMsg, round: nat) {
    Waiting(n, round) && Entered(cfg, n, rc) && rc.prepared.None?
  }

  lemma Leaves(cfg: Config, late: set<Address>, s: State, x: Address, round: nat)
    returns (s': State, rc: RoundChangeMsg)
    requires Reached(cfg, late, s) && x in s.nodes && Leaving(s.nodes[x], round, late) && round < MAX_ROUND
    ensures Moves(cfg, late, s, s', x) && Arrived(cfg, s'.nodes[x], rc, round + 1) && Change(cfg, s', rc, x, round + 1)
  {
    ReachedSane(cfg, late, s, x);
    s', rc := TimesOut(cfg, late, s, x);
  }

  ghost predicate AllArrived(cfg: Config, s: State, who: set<Address>, round: nat, rcs: map<Address, RoundChangeMsg>) {
    forall x :: x in who ==> x in s.nodes && x in rcs && Arrived(cfg, s.nodes[x], rcs[x], round)
  }

  lemma OneMoreChange(cfg: Config, s: State, who: set<Address>, x: Address, round: nat,
                      rcs: map<Address, RoundChangeMsg>, rc: RoundChangeMsg)
    requires Changes(cfg, s, who - {x}, round, rcs) && Change(cfg, s, rc, x, round)
    ensures Changes(cfg, s, who, round, rcs[x := rc])
  {
  }

  lemma OneMoreArrived(cfg: Config, late: set<Address>, s: State, s': State, who: set<Address>, x: Address, round: nat,
                       rcs: map<Address, RoundChangeMsg>, rc: RoundChangeMsg)
    requires AllArrived(cfg, s, who - {x}, round, rcs) && Moves(cfg, late, s, s', x)
    requires Arrived(cfg, s'.nodes[x], rc, round)
    ensures AllArrived(cfg, s', who, round, rcs[x := rc])
  {
    forall y | y in who - {x} ensures y in s'.nodes && Arrived(cfg, s'.nodes[y], rcs[y], round) {
      Unmoved(cfg, late, s, s', x, y);
    }
  }

  lemma {:induction false} AllLeave(cfg: Config, late: set<Address>, s: State, who: set<Address>, round: nat)
    returns (s': State, rcs: map<Address, RoundChangeMsg>)
    requires Reached(cfg, late, s) && AllLeaving(s, who, round, late) && round < MAX_ROUND
    ensures Works(cfg, late, s, s', who) && AllArrived(cfg, s', who, round + 1, rcs)
    ensures Changes(cfg, s', who, round + 1, rcs)
    decreases |who|
  {
    s', rcs := s, map[];
    if who != {} {
      var x :| x in who;
      var s1, before := AllLeave(cfg, late, s, who - {x}, round);
      var rc;
      s', rc := Leaves(cfg, late, s1, x, round);
      rcs := before[x := rc];
      WorksOn(cfg, late, s, s1, s', who, x);
      ChangesStay(cfg, s1, s', who - {x}, round + 1, before);
      OneMoreChange(cfg, s', who, x, round + 1, before, rc);
      OneMoreArrived(cfg, late, s1, s', who, x, round + 1, before, rc);
    }
  }

  /** A committed node that is not late stores its commit and times out with the certificate. */
  lemma LeavesCertified(cfg: Config, late: set<Address>, s: State, x: Address, raw: RawBlock, round: nat)
    returns (s': State, rc: RoundChangeMsg)
    requires Reached(cfg, late, s) && x in s.nodes && Committed(s.nodes[x], BlockDigest(raw, round), round)
    requires round < MAX_ROUND
    ensures Moves(cfg, late, s, s', x) && Change(cfg, s', rc, x, round + 1)
  {
    ReachedSane(cfg, late, s, x);
    var s1 := StoresCommit(cfg, late, s, x, BlockDigest(raw, round));
    s', rc := TimesOutCertified(cfg, late, s1, x, raw, {x});
    MovesOn(cfg, late, s, s1, s', x);
  }

  lemma {:induction false} AllLeaveCertified(cfg: Config, late: set<Address>, s: State, who: set<Address>,
                                             raw: RawBlock, round: nat)
    returns (s': State, rcs: map<Address, RoundChangeMsg>)
    requires Reached(cfg, late, s) && AllCommitted(s, who, BlockDigest(raw, round), round) && round < MAX_ROUND
    ensures Works(cfg, late, s, s', who) && Changes(cfg, s', who, round + 1, rcs)
    decreases |who|
  {
    s', rcs := s, map[];
    if who != {} {
      var x :| x in who;
      var s1, before := AllLeaveCertified(cfg, late, s, who - {x}, raw, round);
      var rc;
      s', rc := LeavesCertified(cfg, late, s1, x, raw, round);
      rcs := before[x := rc];
      WorksOn(cfg, late, s, s1, s', who, x);
      ChangesStay(cfg, s1, s', who - {x}, round + 1, before);
      OneMoreChange(cfg, s', who, x, round + 1, before, rc);
    }
  }

  // ---------- jumping ----------

  /**
   A node of an earlier round that holds exactly the round changes of these senders for the given round, all valid.
   */
  ghost predicate Gathers(cfg: Config, n: Node, round: nat, senders: set<Address>) {
    && n.status.Running? && n.round < round && Bare(n) && Blank(n.store, round) && NoLaterChanges(n.store, round)
    && (forall slot :: slot in n.store.roundChanges && slot.view == View(n.height, round) ==>
          slot.sender in senders && ValidRoundChange(cfg, n.store.roundChanges[slot].message, n.height))
    && (forall a :: a in senders ==> Slot(View(n.height, round), a) in n.store.roundChanges)
  }

  lemma GatherStep(cfg: Config, n: Node, round: nat, senders: set<Address>, rc: RoundChangeMsg, a: Address)
    requires Sane(cfg, n) && Gathers(cfg, n, round, senders) && a !in senders && Fits(cfg, n, a)
    requires 1 <= round <= MAX_ROUND
    requires rc.view == View(n.height, round) && rc.Signer() == Some(a) && ValidRoundChange(cfg, rc, n.height)
    ensures var n' := Step(cfg, n, Deliver(GotRoundChange(rc)));
            SameNode(n, n') && Gathers(cfg, n', round, senders + {a})
  {
  }

  lemma HearsFuture(cfg: Config, late: set<Address>, s: State, i: Address, round: nat, who: set<Address>, x: Address,
                    rc: RoundChangeMsg)
    returns (s': State)
    requires Reached(cfg, late, s) && i in s.nodes && Gathers(cfg, s.nodes[i], round, who - {x}) && x in who && x != i
    requires x in cfg.validators(s.height) && 1 <= round <= MAX_ROUND && Change(cfg, s, rc, x, round)
    ensures Moves(cfg, late, s, s', i) && Gathers(cfg, s'.nodes[i], round, who)
  {
    ReachedSane(cfg, late, s, i);
    GatherStep(cfg, s.nodes[i], round, who - {x}, rc, x);
    s' := Act(cfg, late, s, i, Deliver(GotRoundChange(rc)));
    assert who - {x} + {x} == who;
  }

  lemma {:induction false} HearsFutures(cfg: Config, late: set<Address>, s: State, i: Address, round: nat,
                                        who: set<Address>,
                                        rcs: map<Address, RoundChangeMsg>)
    returns (s': State)
    requires Reached(cfg, late, s) && i in s.nodes && Gathers(cfg, s.nodes[i], round, {}) && i !in who
    requires who <= cfg.validators(s.height) && 1 <= round <= MAX_ROUND && Changes(cfg, s, who, round, rcs)
    ensures Moves(cfg, late, s, s', i) && Gathers(cfg, s'.nodes[i], round, who)
    decreases |who|
  {
    if who == {} {
      s' := s;
      MovesNowhere(cfg, late, s, i);
    } else {
      var x :| x in who;
      var s1 := HearsFutures(cfg, late, s, i, round, who - {x}, rcs);
      ChangesStay(cfg, s, s1, who, round, rcs);
      s' := HearsFuture(cfg, late, s1, i, round, who, x, rcs[x]);
      MovesOn(cfg, late, s, s1, s', i);
    }
  }

  lemma GatheredCount(cfg: Config, n: Node, round: nat, senders: set<Address>)
    requires Gathers(cfg, n, round, senders)
    ensures CountAt(VerifiedRoundChanges(cfg, n, round).roundChanges, View(n.height, round)) == |senders|
  {
    var view := View(n.height, round);
    var here := At(VerifiedRoundChanges(cfg, n, round).roundChanges, view);
    assert (set slot | slot in here :: slot.sender) == senders by {
      forall a | a in senders ensures a in set slot | slot in here :: slot.sender {
        assert Slot(view, a) in here;
      }
    }
    SendersCount(here, view);
  }

  lemma JumpStep(cfg: Config, n: Node, round: nat, senders: set<Address>)
    requires LatestWf(cfg, n) && Gathers(cfg, n, round, senders) && round <= MAX_ROUND
    requires |senders| >= cfg.quorum(n.height)
    ensures Enabled(cfg, n, JumpToRoundChanges(round)) && Waiting(Step(cfg, n, JumpToRoundChanges(round)), round)
  {
    GatheredCount(cfg, n, round, senders);
    JumpAddsNothing(cfg, n.(store := VerifiedRoundChanges(cfg, n, round)), round);
  }

  lemma CommittedGathers(cfg: Config, n: Node, digest: Digest, round: nat)
    requires Committed(n, digest, round)
    ensures Gathers(cfg, n, round + 1, {})
  {
  }

  lemma JumpsNow(cfg: Config, late: set<Address>, s: State, x: Address, round: nat, who: set<Address>)
    returns (s': State)
    requires Reached(cfg, late, s) && x in s.nodes && Gathers(cfg, s.nodes[x], round, who)
    requires round <= MAX_ROUND && |who| >= cfg.quorum(s.height)
    ensures Moves(cfg, late, s, s', x) && Waiting(s'.nodes[x], round)
  {
    ReachedSane(cfg, late, s, x);
    ReachedLatest(cfg, late, s, x);
    JumpStep(cfg, s.nodes[x], round, who);
    s' := Act(cfg, late, s, x, JumpToRoundChanges(round));
  }

  /** A node hears a quorum of round changes of a later round, jumps there, and forgets what it committed. */
  lemma Jumps(cfg: Config, late: set<Address>, s: State, x: Address, who: set<Address>,
              rcs: map<Address, RoundChangeMsg>, round: nat)
    returns (s': State)
    requires Reached(cfg, late, s) && x in s.nodes && Gathers(cfg, s.nodes[x], round, {}) && x !in who
    requires 1 <= round <= MAX_ROUND
    requires who <= cfg.validators(s.height) && |who| >= cfg.quorum(s.height) && Changes(cfg, s, who, round, rcs)
    ensures Moves(cfg, late, s, s', x) && Waiting(s'.nodes[x], round)
  {
    var s1 := HearsFutures(cfg, late, s, x, round, who, rcs);
    s' := JumpsNow(cfg, late, s1, x, round, who);
    MovesOn(cfg, late, s, s1, s', x);
  }

  ghost predicate AllGather(cfg: Config, s: State, who: set<Address>, round: nat) {
    forall x :: x in who ==> x in s.nodes && Gathers(cfg, s.nodes[x], round, {})
  }

  lemma AllCommittedGather(cfg: Config, s: State, who: set<Address>, digest: Digest, round: nat)
    requires AllCommitted(s, who, digest, round)
    ensures AllGather(cfg, s, who, round + 1)
  {
    forall x | x in who ensures x in s.nodes && Gathers(cfg, s.nodes[x], round + 1, {}) {
      CommittedGathers(cfg, s.nodes[x], digest, round);
    }
  }

  lemma ReachedLatest(cfg: Config, late: set<Address>, s: State, i: Address)
    requires Reached(cfg, late, s) && i in s.nodes
    ensures LatestWf(cfg, s.nodes[i])
  {
    ReachedKeeps(cfg, late, s, i);
  }

  lemma {:induction false} AllJump(cfg: Config, late: set<Address>, s: State, jumpers: set<Address>, who: set<Address>,
                                   rcs: map<Address, RoundChangeMsg>, round: nat)
    returns (s': State)
    requires Reached(cfg, late, s) && AllGather(cfg, s, jumpers, round) && jumpers !! who && 1 <= round <= MAX_ROUND
    requires who <= cfg.validators(s.height) && |who| >= cfg.quorum(s.height) && Changes(cfg, s, who, round, rcs)
    ensures Works(cfg, late, s, s', jumpers) && AllWait(s', jumpers, round)
    decreases |jumpers|
  {
    s' := s;
    if jumpers != {} {
      var x :| x in jumpers;
      var s1 := AllJump(cfg, late, s, jumpers - {x}, who, rcs, round);
      ChangesStay(cfg, s, s1, who, round, rcs);
      s' := Jumps(cfg, late, s1, x, who, rcs, round);
      WorksOn(cfg, late, s, s1, s', jumpers, x);
      forall y | y in jumpers - {x} ensures y in s'.nodes && Waiting(s'.nodes[y], round) {
        Unmoved(cfg, late, s1, s', x, y);
      }
    }
  }

  // ---------- starting over ----------

  /** These round changes are held, one of each sender, none with a certificate. */
  ghost predicate HeldOf(cfg: Config, n: Node, list: seq<RoundChangeMsg>, senders: set<Address>) {
    && Held(n, list) && |list| == |senders|
    && (forall k :: 0 <= k < |list| ==>
          && list[k].Signer().Some? && list[k].Signer().value in senders
          && list[k].prepared.None? && ValidRoundChange(cfg, list[k], n.height))
  }

  /** A proposer of this round that has these round changes and waits for more. */
  ghost predicate Collecting(cfg: Config, n: Node, round: nat, list: seq<RoundChangeMsg>, senders: set<Address>) {
    n.round == round && 1 <= round && Idle(n, round) && HeldOf(cfg, n, list, senders)
  }

  lemma HearsBareChange(cfg: Config, late: set<Address>, s: State, i: Address, round: nat, list: seq<RoundChangeMsg>,
                        senders: set<Address>, rc: RoundChangeMsg, a: Address)
    returns (s': State)
    requires Reached(cfg, late, s) && i in s.nodes && Collecting(cfg, s.nodes[i], round, list, senders - {a})
    requires a in senders && a != i && a in cfg.validators(s.height) && Change(cfg, s, rc, a, round)
    requires rc.prepared.None?
    ensures Moves(cfg, late, s, s', i) && Collecting(cfg, s'.nodes[i], round, list + [rc], senders)
  {
    ReachedSane(cfg, late, s, i);
    s' := HearsChange(cfg, late, s, i, list, rc, a);
    ReachedSane(cfg, late, s', i);
  }

  lemma HearsOneBare(cfg: Config, late: set<Address>, s: State, i: Address, round: nat, list: seq<RoundChangeMsg>,
                     who: set<Address>, x: Address, rcs: map<Address, RoundChangeMsg>)
    returns (s': State)
    requires Reached(cfg, late, s) && i in s.nodes && Collecting(cfg, s.nodes[i], round, list, {i} + (who - {x}))
    requires i !in who && x in who && who <= cfg.validators(s.height)
    requires Changes(cfg, s, who, round, rcs) && BareChanges(who, rcs)
    ensures Moves(cfg, late, s, s', i) && Collecting(cfg, s'.nodes[i], round, list + [rcs[x]], {i} + who)
  {
    assert {i} + (who - {x}) == {i} + who - {x};
    s' := HearsBareChange(cfg, late, s, i, round, list, {i} + who, rcs[x], x);
  }

  lemma {:induction false} HearsBareChanges(cfg: Config, late: set<Address>, s: State, i: Address, round: nat,
                                            own: RoundChangeMsg,
                                            who: set<Address>, rcs: map<Address, RoundChangeMsg>)
    returns (s': State, list: seq<RoundChangeMsg>)
    requires Reached(cfg, late, s) && i in s.nodes && Collecting(cfg, s.nodes[i], round, [own], {i})
    requires i !in who && who <= cfg.validators(s.height) && Changes(cfg, s, who, round, rcs) && BareChanges(who, rcs)
    ensures Moves(cfg, late, s, s', i) && Collecting(cfg, s'.nodes[i], round, list, {i} + who)
    decreases |who|
  {
    if who == {} {
      s', list := s, [own];
      MovesNowhere(cfg, late, s, i);
      assert {i} + who == {i};
    } else {
      var x :| x in who;
      var s1, before := HearsBareChanges(cfg, late, s, i, round, own, who - {x}, rcs);
      ChangesStay(cfg, s, s1, who, round, rcs);
      s' := HearsOneBare(cfg, late, s1, i, round, before, who, x, rcs);
      list := before + [rcs[x]];
      MovesOn(cfg, late, s, s1, s', i);
    }
  }

  lemma HeldIsCollected(cfg: Config, n: Node, list: seq<RoundChangeMsg>, senders: set<Address>)
    requires HeldOf(cfg, n, list, senders) && senders <= cfg.validators(n.height) && |senders| >= cfg.quorum(n.height)
    ensures Collected(cfg, n.Current(), list) && NoneCertified(list)
  {
    forall k | 0 <= k < |list| ensures list[k].view == n.Current() {
      assert HeldOne(n, list[k]);
    }
  }

  /** The proposer of a later round hears the others and proposes afresh. */
  lemma StartsOver(cfg: Config, late: set<Address>, s: State, i: Address, round: nat, own: RoundChangeMsg,
                   who: set<Address>,
                   rcs: map<Address, RoundChangeMsg>, raw: RawBlock)
    returns (s': State, p: ProposalMsg)
    requires Reached(cfg, late, s) && i in s.nodes && Collecting(cfg, s.nodes[i], round, [own], {i})
    requires i !in who && who <= cfg.validators(s.height) && Changes(cfg, s, who, round, rcs) && BareChanges(who, rcs)
    requires |who| + 1 >= cfg.quorum(s.height) && cfg.proposer(View(s.height, round)) == i && cfg.verifyBlock(raw)
    ensures Moves(cfg, late, s, s', i) && s'.nodes[i].round == round && Voting(s'.nodes[i], BlockDigest(raw, round), {})
    ensures p.view == View(s.height, round) && p.digest == BlockDigest(raw, round) && Offered(cfg, s', p)
  {
    var s1, list := HearsBareChanges(cfg, late, s, i, round, own, who, rcs);
    ReachedSane(cfg, late, s1, i);
    assert |{i} + who| == |who| + 1;
    HeldIsCollected(cfg, s1.nodes[i], list, {i} + who);
    s', p := ProposesAfresh(cfg, late, s1, i, list, raw);
    MovesOn(cfg, late, s, s1, s', i);
  }

  // ---------- the run ----------

  datatype Parts = Parts(decider: Address, late: set<Address>, kept: set<Address>, jumped: set<Address>,
                         idle: set<Address>)
  {
    /** Who commits block A besides the decider, who changes to round 1, who starts over in round 2. */
    function Committers(): set<Address> { late + kept + jumped }
    function First(): set<Address> { kept + (late + idle) }
    function Second(): set<Address> { late + idle + jumped }
  }

  /** The validators are divided so that each of these groups is as large as it must be. */
  ghost predicate Divided(cfg: Config, height: nat, parts: Parts) {
    var (d, all) := (parts.decider, cfg.validators(height));
    && d in all && parts.Committers() <= all && parts.idle <= all && all == {d} + parts.Committers() + parts.idle
    && d !in parts.Committers() && d !in parts.idle
    && parts.late !! parts.kept && parts.late !! parts.jumped && parts.kept !! parts.jumped
        && parts.Committers() !! parts.idle
    && |parts.Committers()| + 1 >= cfg.quorum(height)
    && |parts.First()| >= cfg.quorum(height) && |parts.Second()| >= cfg.quorum(height)
  }

  ghost predicate Setting(cfg: Config, height: nat, parts: Parts, e: Address, a: RawBlock, b: RawBlock) {
    && height >= 1 && Divided(cfg, height, parts) && e in parts.late
    && cfg.proposer(View(height, 0)) == parts.decider && cfg.proposer(View(height, 2)) == e
    && cfg.verifyBlock(a) && cfg.verifyBlock(b)
  }

  lemma FirstProposal(cfg: Config, late: set<Address>, height: nat, d: Address, a: RawBlock)
    returns (s: State, p: ProposalMsg)
    requires height >= 1 && d in cfg.validators(height) && cfg.proposer(View(height, 0)) == d && cfg.verifyBlock(a)
    ensures Reached(cfg, late, s) && s.height == height && s.nodes.Keys == cfg.validators(height)
    ensures AllWait(s, cfg.validators(height) - {d}, 0)
    ensures Voting(s.nodes[d], BlockDigest(a, 0), {}) && s.nodes[d].round == 0
    ensures p.view == View(height, 0) && p.digest == BlockDigest(a, 0) && Offered(cfg, s, p)
  {
    var s0 := Beginning(height, cfg.validators(height));
    p := NewProposal(View(height, 0), a, None, d);
    Begin(cfg, late, height, cfg.validators(height));
    s := ProposesFirst(cfg, late, s0, d, a);
    forall x | x in cfg.validators(height) - {d} ensures x in s.nodes && Waiting(s.nodes[x], 0) {
      Unmoved(cfg, late, s0, s, d, x);
    }
  }

  /** Round 0: the decider decides block a. */
  lemma DecidesFirst(cfg: Config, height: nat, parts: Parts, e: Address, a: RawBlock, b: RawBlock)
    returns (s: State, block: FinalizedBlock)
    requires Setting(cfg, height, parts, e, a, b)
    ensures Reached(cfg, parts.late, s) && s.height == height && s.nodes.Keys == cfg.validators(height)
    ensures DecidedIn(s, parts.decider, 0, block) && block.raw == a
    ensures AllCommitted(s, parts.Committers(), BlockDigest(a, 0), 0) && AllWait(s, parts.idle, 0)
  {
    var s0, p := FirstProposal(cfg, parts.late, height, parts.decider, a);
    s, block := QuorumDecides(cfg, parts.late, s0, parts.decider, parts.Committers(), p, a);
    forall x | x in parts.idle ensures x in s.nodes && Waiting(s.nodes[x], 0) {
      assert s.nodes[x] == s0.nodes[x];
    }
  }

  lemma CommittedLeaves(n: Node, digest: Digest, late: set<Address>)
    requires Committed(n, digest, 0) && n.self in late
    ensures Leaving(n, 0, late)
  {
  }

  lemma WaitingLeaves(n: Node, round: nat, late: set<Address>)
    requires Waiting(n, round)
    ensures Leaving(n, round, late)
  {
  }

  lemma AllWaitingLeave(s: State, who: set<Address>, round: nat, late: set<Address>)
    requires AllWait(s, who, round)
    ensures AllLeaving(s, who, round, late)
  {
    forall x | x in who ensures x in s.nodes && Leaving(s.nodes[x], round, late) {
      WaitingLeaves(s.nodes[x], round, late);
    }
  }

  lemma LateAndIdleLeave(cfg: Config, s: State, late: set<Address>, idle: set<Address>, digest: Digest)
    requires Reached(cfg, late, s) && AllCommitted(s, late, digest, 0) && AllWait(s, idle, 0)
    ensures AllLeaving(s, late + idle, 0, late)
  {
    forall x | x in late + idle ensures x in s.nodes && Leaving(s.nodes[x], 0, late) {
      if x in late {
        ReachedSane(cfg, late, s, x);
        CommittedLeaves(s.nodes[x], digest, late);
      } else {
        WaitingLeaves(s.nodes[x], 0, late);
      }
    }
  }

  lemma ChangesTogether(cfg: Config, s: State, who: set<Address>, others: set<Address>, round: nat,
                        rcs: map<Address, RoundChangeMsg>, rcs': map<Address, RoundChangeMsg>)
    returns (both: map<Address, RoundChangeMsg>)
    requires Changes(cfg, s, who, round, rcs) && Changes(cfg, s, others, round, rcs')
    ensures Changes(cfg, s, who + others, round, both)
  {
    both := map x | x in who + others :: if x in who then rcs[x] else rcs'[x];
  }

  lemma ArrivedWait(cfg: Config, s: State, who: set<Address>, round: nat, rcs: map<Address, RoundChangeMsg>)
    requires AllArrived(cfg, s, who, round, rcs)
    ensures AllWait(s, who, round) && BareChanges(who, rcs)
  {
    forall x | x in who ensures x in s.nodes && Waiting(s.nodes[x], round) && x in rcs && rcs[x].prepared.None? {
      assert Arrived(cfg, s.nodes[x], rcs[x], round);
    }
  }

  lemma StillCommitted(cfg: Config, late: set<Address>, s: State, s': State, who: set<Address>, others: set<Address>,
                       digest: Digest, round: nat)
    requires AllCommitted(s, who, digest, round) && Works(cfg, late, s, s', others) && who !! others
    ensures AllCommitted(s', who, digest, round)
  {
    forall x | x in who ensures x in s'.nodes && Committed(s'.nodes[x], digest, round) {
      assert s'.nodes[x] == s.nodes[x];
    }
  }

  lemma StillWait(cfg: Config, late: set<Address>, s: State, s': State, who: set<Address>, others: set<Address>,
                  round: nat)
    requires AllWait(s, who, round) && Works(cfg, late, s, s', others) && who !! others
    ensures AllWait(s', who, round)
  {
    forall x | x in who ensures x in s'.nodes && Waiting(s'.nodes[x], round) {
      assert s'.nodes[x] == s.nodes[x];
    }
  }

  lemma StillDecided(cfg: Config, late: set<Address>, s: State, s': State, others: set<Address>, d: Address, round: nat,
                     block: FinalizedBlock)
    requires DecidedIn(s, d, round, block) && Works(cfg, late, s, s', others) && d !in others
    ensures DecidedIn(s', d, round, block)
  {
    assert s'.nodes[d] == s.nodes[d];
  }

  lemma KeptLeave(cfg: Config, late: set<Address>, s: State, kept: set<Address>, idle: set<Address>, a: RawBlock)
    returns (s': State, rcs: map<Address, RoundChangeMsg>)
    requires Reached(cfg, late, s) && kept !! late && kept !! idle && AllWait(s, idle, 0)
    requires AllCommitted(s, kept, BlockDigest(a, 0), 0) && AllCommitted(s, late, BlockDigest(a, 0), 0)
    ensures Works(cfg, late, s, s', kept) && Changes(cfg, s', kept, 1, rcs) && AllLeaving(s', late + idle, 0, late)
  {
    s', rcs := AllLeaveCertified(cfg, late, s, kept, a, 0);
    StillCommitted(cfg, late, s, s', late, kept, BlockDigest(a, 0), 0);
    StillWait(cfg, late, s, s', idle, kept, 0);
    LateAndIdleLeave(cfg, s', late, idle, BlockDigest(a, 0));
  }

  lemma OthersLeave(cfg: Config, late: set<Address>, s: State, kept: set<Address>, others: set<Address>,
                    before: map<Address, RoundChangeMsg>)
    returns (s': State, rcs: map<Address, RoundChangeMsg>)
    requires Reached(cfg, late, s) && AllLeaving(s, others, 0, late) && Changes(cfg, s, kept, 1, before)
    ensures Works(cfg, late, s, s', others) && Changes(cfg, s', kept + others, 1, rcs) && AllWait(s', others, 1)
  {
    var after;
    s', after := AllLeave(cfg, late, s, others, 0);
    ArrivedWait(cfg, s', others, 1, after);
    ChangesStay(cfg, s, s', kept, 1, before);
    rcs := ChangesTogether(cfg, s', kept, others, 1, before, after);
  }

  /** The first group changes to round 1; only what was kept goes with certificates. */
  lemma FirstChange(cfg: Config, late: set<Address>, s: State, kept: set<Address>, idle: set<Address>, a: RawBlock)
    returns (s': State, rcs: map<Address, RoundChangeMsg>)
    requires Reached(cfg, late, s) && kept !! late && kept !! idle && AllWait(s, idle, 0)
    requires AllCommitted(s, kept, BlockDigest(a, 0), 0) && AllCommitted(s, late, BlockDigest(a, 0), 0)
    ensures Works(cfg, late, s, s', kept + (late + idle))
    ensures Changes(cfg, s', kept + (late + idle), 1, rcs) && AllWait(s', late + idle, 1)
  {
    var s1, before := KeptLeave(cfg, late, s, kept, idle, a);
    s', rcs := OthersLeave(cfg, late, s1, kept, late + idle, before);
    WorksThen(cfg, late, s, s1, s', kept, late + idle);
  }

  lemma WaitTogether(s: State, who: set<Address>, others: set<Address>, round: nat)
    requires AllWait(s, who, round) && AllWait(s, others, round)
    ensures AllWait(s, who + others, round)
  {
  }

  /** The jumped ones follow that quorum and forget. */
  lemma JumpedJump(cfg: Config, late: set<Address>, s: State, jumped: set<Address>, first: set<Address>,
                   others: set<Address>,
                   a: RawBlock, rcs: map<Address, RoundChangeMsg>)
    returns (s': State)
    requires Reached(cfg, late, s) && jumped !! first && jumped !! others && first <= cfg.validators(s.height)
    requires |first| >= cfg.quorum(s.height) && AllCommitted(s, jumped, BlockDigest(a, 0), 0)
    requires Changes(cfg, s, first, 1, rcs) && AllWait(s, others, 1)
    ensures Works(cfg, late, s, s', jumped) && AllWait(s', others + jumped, 1)
  {
    AllCommittedGather(cfg, s, jumped, BlockDigest(a, 0), 0);
    s' := AllJump(cfg, late, s, jumped, first, rcs, 1);
    StillWait(cfg, late, s, s', others, jumped, 1);
    WaitTogether(s', others, jumped, 1);
  }

  /** Then the second group changes to round 2 without a certificate. */
  lemma SecondChange(cfg: Config, late: set<Address>, s: State, jumped: set<Address>, first: set<Address>,
                     others: set<Address>,
                     a: RawBlock, rcs: map<Address, RoundChangeMsg>)
    returns (s': State, rcs': map<Address, RoundChangeMsg>)
    requires Reached(cfg, late, s) && jumped !! first && jumped !! others && first <= cfg.validators(s.height)
    requires |first| >= cfg.quorum(s.height) && AllCommitted(s, jumped, BlockDigest(a, 0), 0)
    requires Changes(cfg, s, first, 1, rcs) && AllWait(s, others, 1)
    ensures Works(cfg, late, s, s', others + jumped)
    ensures AllArrived(cfg, s', others + jumped, 2, rcs') && Changes(cfg, s', others + jumped, 2, rcs')
  {
    var s1 := JumpedJump(cfg, late, s, jumped, first, others, a, rcs);
    AllWaitingLeave(s1, others + jumped, 1, late);
    s', rcs' := AllLeave(cfg, late, s1, others + jumped, 1);
    WorksThen(cfg, late, s, s1, s', jumped, others + jumped);
    assert jumped + (others + jumped) == others + jumped;
  }

  lemma ArrivedHolds(cfg: Config, s: State, e: Address, rc: RoundChangeMsg)
    requires e in s.nodes && Arrived(cfg, s.nodes[e], rc, 2) && s.nodes[e].self == e && s.nodes[e].height == s.height
    requires cfg.proposer(View(s.height, 2)) == e && Change(cfg, s, rc, e, 2)
    ensures Collecting(cfg, s.nodes[e], 2, [rc], {e})
  {
  }

  /** Its proposer e makes block b of it, and decides it. */
  lemma DecidesAgain(cfg: Config, late: set<Address>, s: State, second: set<Address>, e: Address,
                     rcs: map<Address, RoundChangeMsg>, b: RawBlock)
    returns (s': State, block: FinalizedBlock)
    requires Reached(cfg, late, s) && e in second && second <= cfg.validators(s.height)
    requires |second| >= cfg.quorum(s.height)
    requires cfg.proposer(View(s.height, 2)) == e && cfg.verifyBlock(b)
    requires AllArrived(cfg, s, second, 2, rcs) && Changes(cfg, s, second, 2, rcs)
    ensures Works(cfg, late, s, s', second)
    ensures DecidedIn(s', e, 2, block) && block.raw == b
  {
    var others := second - {e};
    ReachedSane(cfg, late, s, e);
    assert Arrived(cfg, s.nodes[e], rcs[e], 2) && Change(cfg, s, rcs[e], e, 2);
    ArrivedHolds(cfg, s, e, rcs[e]);
    ArrivedWait(cfg, s, second, 2, rcs);
    assert |second| == |others| + 1;
    var s1, p := StartsOver(cfg, late, s, e, 2, rcs[e], others, rcs, b);
    forall x | x in others ensures x in s1.nodes && Waiting(s1.nodes[x], 2) {
      Unmoved(cfg, late, s, s1, e, x);
    }
    s', block := QuorumDecides(cfg, late, s1, e, others, p, b);
    WorksLater(cfg, late, s, s1, s', second, e);
  }

  lemma WorksLater(cfg: Config, late: set<Address>, s: State, s1: State, s2: State, who: set<Address>, e: Address)
    requires Moves(cfg, late, s, s1, e) && Works(cfg, late, s1, s2, who - {e} + {e}) && e in who
    ensures Works(cfg, late, s, s2, who)
  {
  }

  /** Rounds 0 and 1: the decider decided block a, and the second group is in round 2 without a certificate. */
  lemma ForgetsFirst(cfg: Config, height: nat, parts: Parts, e: Address, a: RawBlock, b: RawBlock)
    returns (s: State, block: FinalizedBlock, rcs: map<Address, RoundChangeMsg>)
    requires Setting(cfg, height, parts, e, a, b)
    ensures Reached(cfg, parts.late, s) && s.height == height && s.nodes.Keys == cfg.validators(height)
    ensures DecidedIn(s, parts.decider, 0, block) && block.raw == a
    ensures AllArrived(cfg, s, parts.Second(), 2, rcs) && Changes(cfg, s, parts.Second(), 2, rcs)
  {
    var late, kept, jumped, idle, d := parts.late, parts.kept, parts.jumped, parts.idle, parts.decider;
    var s0, s1, before;
    s0, block := DecidesFirst(cfg, height, parts, e, a, b);
    assert AllCommitted(s0, kept, BlockDigest(a, 0), 0) && AllCommitted(s0, late, BlockDigest(a, 0), 0);
    assert AllCommitted(s0, jumped, BlockDigest(a, 0), 0);
    s1, before := FirstChange(cfg, late, s0, kept, idle, a);
    StillDecided(cfg, late, s0, s1, parts.First(), d, 0, block);
    StillCommitted(cfg, late, s0, s1, jumped, parts.First(), BlockDigest(a, 0), 0);
    s, rcs := SecondChange(cfg, late, s1, jumped, parts.First(), late + idle, a, before);
    StillDecided(cfg, late, s1, s, parts.Second(), d, 0, block);
  }

  /** Whenever the validators can be divided like that, two nodes finalize different blocks. */
  lemma DividedDisagree(cfg: Config, height: nat, parts: Parts, e: Address, a: RawBlock, b: RawBlock)
    returns (s: State, block: FinalizedBlock, block': FinalizedBlock)
    requires Setting(cfg, height, parts, e, a, b)
    ensures Reached(cfg, parts.late, s) && s.height == height && s.nodes.Keys == cfg.validators(height)
    ensures DecidedIn(s, parts.decider, 0, block) && block.raw == a
    ensures DecidedIn(s, e, 2, block') && block'.raw == b
  {
    var s0, rcs;
    s0, block, rcs := ForgetsFirst(cfg, height, parts, e, a, b);
    s, block' := DecidesAgain(cfg, parts.late, s0, parts.Second(), e, rcs, b);
    StillDecided(cfg, parts.late, s0, s, parts.Second(), parts.decider, 0, block);
  }

  // ---------- dividing the validators ----------

  lemma {:induction false} Take(pool: set<Address>, size: nat) returns (taken: set<Address>)
    requires size <= |pool|
    ensures taken <= pool && |taken| == size && |pool - taken| == |pool| - size
    decreases size
  {
    taken := {};
    if size > 0 {
      var x :| x in pool;
      var rest := Take(pool - {x}, size - 1);
      taken := rest + {x};
      assert pool - taken == pool - {x} - rest;
    }
  }

  lemma DividedSizes(parts: Parts)
    requires parts.late !! parts.kept && parts.late !! parts.jumped && parts.kept !! parts.jumped
    requires parts.idle !! parts.late && parts.idle !! parts.kept && parts.idle !! parts.jumped
    ensures |parts.Committers()| == |parts.late| + |parts.kept| + |parts.jumped|
    ensures |parts.First()| == |parts.kept| + |parts.late| + |parts.idle|
    ensures |parts.Second()| == |parts.late| + |parts.idle| + |parts.jumped|
  {
  }

  lemma WithoutTwo(all: set<Address>, d: Address, e: Address)
    requires d in all && e in all && d != e
    ensures |all - {d} - {e}| == |all| - 2 && all == {d} + {e} + (all - {d} - {e})
  {
  }

  /** The pool of the others, cut into four. */
  lemma CutPool(pool: set<Address>, x: nat, y: nat)
    returns (some: set<Address>, kept: set<Address>, jumped: set<Address>, idle: set<Address>)
    requires x + 2 * y <= |pool|
    ensures pool == some + kept + jumped + idle
    ensures some !! kept && some !! jumped && some !! idle && kept !! jumped && kept !! idle && jumped !! idle
    ensures |some| == x && |kept| == |jumped| == y && |idle| == |pool| - x - 2 * y
  {
    some := Take(pool, x);
    kept := Take(pool - some, y);
    jumped := Take(pool - some - kept, y);
    idle := pool - some - kept - jumped;
  }

  /** One late validator more than agreement allows is just enough to divide the others. */
  lemma Divide(cfg: Config, height: nat, d: Address, e: Address) returns (parts: Parts)
    requires d in cfg.validators(height) && e in cfg.validators(height) && d != e
    requires 2 * |cfg.validators(height)| <= 3 * cfg.quorum(height) && cfg.quorum(height) < |cfg.validators(height)|
    ensures Divided(cfg, height, parts) && parts.decider == d && e in parts.late
    ensures |parts.late| == 3 * cfg.quorum(height) - 2 * |cfg.validators(height)| + 1
  {
    var all, n, q := cfg.validators(height), |cfg.validators(height)|, cfg.quorum(height);
    WithoutTwo(all, d, e);
    var some, kept, jumped, idle := CutPool(all - {d} - {e}, 3 * q - 2 * n, n - q - 1);
    parts := Parts(d, some + {e}, kept, jumped, idle);
    assert |parts.late| == |some| + 1;
    DividedSizes(parts);
    DividedMembers(all, parts, e, some);
  }

  lemma DividedMembers(all: set<Address>, parts: Parts, e: Address, some: set<Address>)
    requires parts.decider in all && e in all && parts.decider != e && parts.late == some + {e}
    requires all - {parts.decider} - {e} == some + parts.kept + parts.jumped + parts.idle
    ensures all == {parts.decider} + parts.Committers() + parts.idle
    ensures parts.Committers() <= all && parts.idle <= all
    ensures parts.decider !in parts.Committers() && parts.decider !in parts.idle
  {
    var rest := some + parts.kept + parts.jumped + parts.idle;
    forall x | x in rest ensures x in all && x != parts.decider {
      assert x in all - {parts.decider} - {e};
    }
    forall x | x in all ensures x in {parts.decider} + parts.Committers() + parts.idle {
      assert x == parts.decider || x == e || x in all - {parts.decider} - {e};
    }
  }

  // ---------- the bound is exact ----------

  /**
   Everything agreement across rounds assumes holds, but one more validator is late: two nodes finalize
   different blocks.
   */
  lemma BoundIsExact(cfg: Config, height: nat, a: RawBlock, b: RawBlock)
    returns (states: seq<State>, events: seq<Event>, late: set<Address>,
             i: Address, block: FinalizedBlock, j: Address, block': FinalizedBlock)
    requires WellFormed(cfg) && height >= 1 && cfg.verifyBlock(a) && cfg.verifyBlock(b) && a != b
    requires cfg.proposer(View(height, 0)) != cfg.proposer(View(height, 2))
    requires 2 * |cfg.validators(height)| <= 3 * cfg.quorum(height) && cfg.quorum(height) < |cfg.validators(height)|
    ensures IsTimelyRun(cfg, states, events, late)
    ensures var last := states[|events|];
            && last.height == height && last.nodes.Keys == cfg.validators(height)
            && 3 * cfg.quorum(height) == 2 * |cfg.validators(height)| + |Unreliable(cfg, last, late)| - 1
            && DecidedIn(last, i, 0, block) && DecidedIn(last, j, 2, block') && block.raw != block'.raw
  {
    i, j := cfg.proposer(View(height, 0)), cfg.proposer(View(height, 2));
    assert i in cfg.validators(View(height, 0).height) && j in cfg.validators(View(height, 2).height);
    var parts := Divide(cfg, height, i, j);
    late := parts.late;
    var s;
    s, block, block' := DividedDisagree(cfg, height, parts, j, a, b);
    OnlyLateUnreliable(cfg, s, late);
    states, events :| IsTimelyRun(cfg, states, events, late) && states[|events|] == s;
  }

  /** The rotation with quorum 2n/3 + 1 is such a configuration for every n from 4 on. */
  lemma MockBoundIsExact(validators: seq<Address>, height: nat)
    returns (states: seq<State>, events: seq<Event>, late: set<Address>,
             i: Address, block: FinalizedBlock, j: Address, block': FinalizedBlock)
    requires IsMock(validators) && |validators| >= 4 && height >= 1
    ensures var cfg := MockConfig(validators, (raw: RawBlock) => true);
            && IsTimelyRun(cfg, states, events, late) && |late| == Spare(|validators|) + 1
            && var last := states[|events|];
            && Byzantine(cfg, last) == {}
            && DecidedIn(last, i, 0, block) && DecidedIn(last, j, 2, block') && block.raw != block'.raw
  {
    var cfg := MockConfig(validators, (raw: RawBlock) => true);
    var a: RawBlock, b: RawBlock := [0], [1];
    assert a[0] != b[0];
    MockSuits(validators, height);
    states, events, late, i, block, j, block' := BoundIsExact(cfg, height, a, b);
    OnlyLateUnreliable(cfg, states[|events|], late);
  }

  lemma OnlyLateUnreliable(cfg: Config, s: State, late: set<Address>)
    requires s.nodes.Keys == cfg.validators(s.height)
    ensures Byzantine(cfg, s) == {} && Unreliable(cfg, s, late) == late
  {
  }

  lemma MockSuits(validators: seq<Address>, height: nat)
    requires IsMock(validators) && |validators| >= 4
    ensures var cfg, n := MockConfig(validators, (raw: RawBlock) => true), |validators|;
            && WellFormed(cfg) && |cfg.validators(height)| == n
            && cfg.quorum(height) < n && 3 * cfg.quorum(height) == 2 * n + Spare(n) && Spare(n) >= 1
            && cfg.proposer(View(height, 0)) != cfg.proposer(View(height, 2))
  {
    MockIsWellFormed(validators);
    ValidatorCount(validators);
    QuorumRule(|validators|);
    ProposersDiffer(validators, height);
  }

  lemma MockIsWellFormed(validators: seq<Address>)
    requires IsMock(validators)
    ensures WellFormed(MockConfig(validators, (raw: RawBlock) => true))
  {
    MockMeetsAssumptions(validators, (raw: RawBlock) => true, State(0, map[]), {});
  }

  lemma ProposersDiffer(validators: seq<Address>, height: nat)
    requires IsMock(validators) && |validators| >= 3
    ensures validators[(height + 0) % |validators|] != validators[(height + 2) % |validators|]
  {
    Shift(height, 2, |validators|);
    var x, y := height % |validators|, (height + 2) % |validators|;
    assert x != y;
    assert x < y || y < x;
  }
}

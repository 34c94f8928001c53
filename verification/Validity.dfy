/**
 No block is finalized that nobody verified.  An honest validator prepares in round 0 only after the block passed the
 block service, and later only on such a block or on one certified in an earlier round.  So with
 `quorum >= Byzantine + 2` every committed block passed; with one validator fewer an honest proposer can have any
 block finalized, because it does not verify what it builds.
 */
module Validity {
  import opened Types
  import opened Configuration
  import opened Verification
  import opened NodeInvariant
  import opened Systems
  import opened SystemSteps
  import opened Agreement
  import opened Scenarios
  import opened Sharpness

  /** At least one prepare behind every certificate is honest. */
  ghost predicate HonestPrepares(cfg: Config, s: State) {
    cfg.quorum(s.height) >= |Byzantine(cfg, s)| + 2
  }

  lemma HonestPreparer(cfg: Config, s: State, view: View, digest: Digest) returns (a: Address)
    requires HonestPrepares(cfg, s) && view.height == s.height && Prepared(cfg, s, view, digest)
    ensures a in s.nodes && PrepareDigest(view, digest) in s.nodes[a].signed
  {
    var signers := PrepareSigners(cfg, s, view, digest);
    if signers <= Byzantine(cfg, s) {
      SubsetSize(signers, Byzantine(cfg, s));
      assert false;
    }
    a :| a in signers && a !in Byzantine(cfg, s);
  }

  /** What the honest preparer saw: the block passed, or was prepared in an earlier round. */
  lemma PreparerChecked(cfg: Config, s: State, a: Address, view: View, digest: Digest)
    requires Inv(cfg, s) && a in s.nodes && view.height == s.height && PrepareDigest(view, digest) in s.nodes[a].signed
    ensures digest.BlockDigest?
    ensures || cfg.verifyBlock(digest.raw)
            || exists r: nat :: r < view.round && Prepared(cfg, s, View(view.height, r), BlockDigest(digest.raw, r))
  {
    assert NodeInv(cfg, s, a) && IsVote(PrepareDigest(view, digest), s.height);
    assert Justified(cfg, s, PrepareDigest(view, digest));
    if view.round >= 1 {
      var p :| PrepareBasis(cfg, s, view, digest, p);
      var rcs := p.certificate.value;
      if k :| 0 <= k < |rcs| && FirstOfMaximalRound(rcs, k) && Certifies(cfg, p, rcs, k) {
        var certificate := rcs[k].certificate.value;
        assert KnownMetadata(s, rcs[k]);
        CertificateIsPrepared(cfg, s, certificate, view.round);
        assert certificate.proposal.view == View(view.height, certificate.proposal.view.round);
      }
    }
  }

  /** Whatever was prepared passed the block service. */
  lemma {:induction false} PreparedIsValid(cfg: Config, s: State, view: View, digest: Digest)
    requires Inv(cfg, s) && HonestPrepares(cfg, s) && view.height == s.height && Prepared(cfg, s, view, digest)
    ensures digest.BlockDigest? && cfg.verifyBlock(digest.raw)
    decreases view.round
  {
    var a := HonestPreparer(cfg, s, view, digest);
    PreparerChecked(cfg, s, a, view, digest);
    if !cfg.verifyBlock(digest.raw) {
      var r: nat :| r < view.round && Prepared(cfg, s, View(view.height, r), BlockDigest(digest.raw, r));
      PreparedIsValid(cfg, s, View(view.height, r), BlockDigest(digest.raw, r));
    }
  }

  /** Whatever a quorum committed passed the block service. */
  lemma CommittedIsValid(cfg: Config, s: State, view: View, digest: Digest)
    requires Inv(cfg, s) && HonestPrepares(cfg, s) && view.height == s.height && CommitQuorum(cfg, s, view, digest)
    ensures digest.BlockDigest? && cfg.verifyBlock(digest.raw)
  {
    var signers := CommitSigners(cfg, s, view, digest);
    if signers <= Byzantine(cfg, s) {
      SubsetSize(signers, Byzantine(cfg, s));
      assert false;
    }
    var a :| a in signers && a !in Byzantine(cfg, s);
    var d := CommitDigest(view, digest, Signature(a, digest));
    assert NodeInv(cfg, s, a) && IsVote(d, s.height) && Justified(cfg, s, d);
    PreparedIsValid(cfg, s, view, digest);
  }

  /** In every run an honest validator prepares in round 0 only a block that passed. */
  lemma FirstPrepareIsVerified(cfg: Config, states: seq<State>, events: seq<Event>, k: nat, i: Address, digest: Digest)
    requires IsRun(cfg, states, events) && k < |states| && i in states[k].nodes
    requires PrepareDigest(View(states[k].height, 0), digest) in states[k].nodes[i].signed
    ensures digest.BlockDigest? && cfg.verifyBlock(digest.raw)
  {
    RunKeeps(cfg, states, events, k);
    PreparerChecked(cfg, states[k], i, View(states[k].height, 0), digest);
  }

  /** In every run each finalized block passed, when one honest prepare stands behind every certificate. */
  lemma FinalizedIsValid(cfg: Config, states: seq<State>, events: seq<Event>, k: nat, i: Address, round: nat,
                         block: FinalizedBlock)
    requires IsRun(cfg, states, events) && k < |states| && HonestPrepares(cfg, states[k])
    requires DecidedIn(states[k], i, round, block)
    ensures cfg.verifyBlock(block.raw)
  {
    RunKeeps(cfg, states, events, k);
    DecisionHasQuorum(cfg, states[k], i, round, block);
    CommittedIsValid(cfg, states[k], View(states[k].height, round), BlockDigest(block.raw, block.round));
  }

  /** The proposer hears the Byzantine prepares and commits, and no one verifies its block. */
  lemma ProposerAlone(cfg: Config, height: nat, honest: set<Address>, raw: RawBlock)
    returns (s: State, block: FinalizedBlock)
    requires WellFormed(cfg) && height >= 1 && honest <= cfg.validators(height)
    requires cfg.proposer(View(height, 0)) in honest
    requires cfg.quorum(height) < |cfg.validators(height) - honest| + 2
    ensures Reached(cfg, {}, s) && s.height == height && s.nodes.Keys == honest
    ensures DecidedIn(s, cfg.proposer(View(height, 0)), 0, block) && block.raw == raw
  {
    var i, others, digest := cfg.proposer(View(height, 0)), cfg.validators(height) - honest, BlockDigest(raw, 0);
    Begin(cfg, {}, height, honest);
    var s1 := ProposesFirst(cfg, {}, Beginning(height, honest), i, raw);
    var s2 := ProposerSeals(cfg, {}, s1, i, others, digest);
    s, block := ProposerFinalizes(cfg, {}, s2, i, others, raw, 0);
  }

  /** With fewer honest validators in a quorum, an honest proposer gets whatever it built finalized. */
  lemma UnverifiedIsFinalized(cfg: Config, height: nat, honest: set<Address>, raw: RawBlock)
    returns (states: seq<State>, events: seq<Event>, block: FinalizedBlock)
    requires WellFormed(cfg) && height >= 1 && honest <= cfg.validators(height)
    requires cfg.proposer(View(height, 0)) in honest
    requires cfg.quorum(height) < |cfg.validators(height) - honest| + 2
    ensures IsTimelyRun(cfg, states, events, {})
    ensures var last := states[|events|];
            && last.height == height && last.nodes.Keys == honest
            && DecidedIn(last, cfg.proposer(View(height, 0)), 0, block) && block.raw == raw
  {
    var s;
    s, block := ProposerAlone(cfg, height, honest, raw);
    states, events :| IsTimelyRun(cfg, states, events, {}) && states[|events|] == s;
  }
}

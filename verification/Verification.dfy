/** The message verifiers of ibft.rs: as loops, as the functions they compute and as what they decide. */
module Verification {
  import opened Types
  import opened Configuration

  datatype IbftError =
    | IncorrectProposalDigest
    | InvalidProposalBlock
    | MissingRoundChangeCertificate
    | RoundChangeCertificateQuorumNotReached
    | InvalidRoundChangeInCertificate
    | DuplicateRoundChangeInCertificate

  datatype Verdict = Accept | Reject(error: IbftError)

  // ---------- prepared certificates ----------

  predicate CountsFor(cfg: Config, certificate: PreparedCertificate, prepare: PrepareMsg) {
    var proposal := certificate.proposal;
    && prepare.view == proposal.view
    && prepare.digest == proposal.digest
    && prepare.Signer().Some?
    && prepare.Signer().value != cfg.proposer(proposal.view)
    && prepare.Signer().value in cfg.validators(proposal.view.height)
  }

  /** The proposer of an earlier round proposed this digest, and `quorum - 1` other validators prepared it. */
  predicate ValidCertificate(cfg: Config, certificate: PreparedCertificate, height: nat, limit: nat) {
    var proposal, prepares := certificate.proposal, certificate.prepares;
    && proposal.view.height == height
    && proposal.view.round < limit
    && proposal.Signer() == Some(cfg.proposer(proposal.view))
    && |prepares| + 1 >= cfg.quorum(height)
    && (forall i :: 0 <= i < |prepares| ==> CountsFor(cfg, certificate, prepares[i]))
    && (forall i, j :: 0 <= i < j < |prepares| ==> prepares[i].Signer() != prepares[j].Signer())
  }

  method VerifyPreparedCertificate(cfg: Config, certificate: PreparedCertificate, height: nat, limit: nat)
    returns (ok: bool)
    requires cfg.quorum(height) >= 1
    ensures ok <==> ValidCertificate(cfg, certificate, height, limit)
  {
    var proposal := certificate.proposal;
    if proposal.view.height != height || proposal.view.round >= limit {
      return false;
    }
    var proposer := proposal.Signer();
    if proposer.None? || proposer.value != cfg.proposer(proposal.view) {
      return false;
    }
    var prepares := certificate.prepares;
    if |prepares| < cfg.quorum(height) - 1 {
      return false;
    }
    var seen: set<Address> := {};
    for k := 0 to |prepares|
      invariant forall i :: 0 <= i < k ==> CountsFor(cfg, certificate, prepares[i])
      invariant forall i :: 0 <= i < k ==> prepares[i].Signer().value in seen
      invariant forall a :: a in seen ==> exists i :: 0 <= i < k && prepares[i].Signer() == Some(a)
      invariant forall i, j :: 0 <= i < j < k ==> prepares[i].Signer() != prepares[j].Signer()
    {
      var prepare := prepares[k];
      if prepare.view != proposal.view || prepare.digest != proposal.digest {
        return false;
      }
      var validator := prepare.Signer();
      if validator.None? || validator.value == proposer.value
         || validator.value !in cfg.validators(proposal.view.height) {
        return false;
      }
      if validator.value in seen {
        return false;
      }
      seen := seen + {validator.value};
    }
    return true;
  }

  // ---------- round changes ----------

  predicate ValidRoundChange(cfg: Config, rc: RoundChangeMsg, height: nat) {
    rc.prepared.Some? ==>
      && rc.prepared.value.certificate.proposal.digest == rc.prepared.value.block.Digest()
      && ValidCertificate(cfg, rc.prepared.value.certificate, height, rc.view.round)
  }

  // ---------- proposals of round 0 ----------

  function CheckProposal0(cfg: Config, proposal: ProposalMsg): (verdict: Verdict)
    ensures verdict.Accept? <==> proposal.DigestMatches() && cfg.verifyBlock(proposal.block.raw)
    ensures verdict == Reject(IncorrectProposalDigest) <==> !proposal.DigestMatches()
  {
    if !proposal.DigestMatches() then Reject(IncorrectProposalDigest)
    else if !cfg.verifyBlock(proposal.block.raw) then Reject(InvalidProposalBlock)
    else Accept
  }

  // ---------- proposals of later rounds ----------

  /** Why the k-th round change cannot stand in a certificate, given those before it. */
  function FaultAt(cfg: Config, rcs: seq<RoundChangeMetadata>, view: View, k: nat): Option<IbftError>
    requires k < |rcs|
  {
    var signer := rcs[k].Signer();
    if rcs[k].view != view || signer.None? || signer.value !in cfg.validators(view.height) then
      Some(InvalidRoundChangeInCertificate)
    else if exists j :: 0 <= j < k && rcs[j].Signer() == signer then
      Some(DuplicateRoundChangeInCertificate)
    else
      None
  }

  function FirstFault(cfg: Config, rcs: seq<RoundChangeMetadata>, view: View, k: nat): Option<IbftError>
    requires k <= |rcs|
    decreases |rcs| - k
  {
    if k == |rcs| then None
    else if FaultAt(cfg, rcs, view, k).Some? then FaultAt(cfg, rcs, view, k)
    else FirstFault(cfg, rcs, view, k + 1)
  }

  function RoundAt(rcs: seq<RoundChangeMetadata>, k: nat): int
    requires k < |rcs|
  {
    CertificateRound(rcs[k].certificate)
  }

  /** Position of the certificate that the running maximum (started at 0, strict) holds after n messages. */
  function Highest(rcs: seq<RoundChangeMetadata>, n: nat): (best: Option<nat>)
    requires n <= |rcs|
    ensures best.Some? ==> best.value < n && RoundAt(rcs, best.value) >= 1
  {
    if n == 0 then None
    else
      var before := Highest(rcs, n - 1);
      var bar := if before.Some? then RoundAt(rcs, before.value) else 0;
      if RoundAt(rcs, n - 1) > bar then Some(n - 1) else before
  }

  /** The proposed block against the certificate the running maximum ended on. */
  function JudgeBlock(cfg: Config, proposal: ProposalMsg, rcs: seq<RoundChangeMetadata>, best: Option<nat>): Verdict
    requires best.Some? ==> best.value < |rcs| && RoundAt(rcs, best.value) >= 1
  {
    if best.Some? then
      var certificate := rcs[best.value].certificate.value;
      if BlockDigest(proposal.block.raw, certificate.proposal.view.round) != certificate.proposal.digest
         || !ValidCertificate(cfg, certificate, proposal.view.height, proposal.view.round)
      then Reject(InvalidRoundChangeInCertificate)
      else Accept
    else if !cfg.verifyBlock(proposal.block.raw) then Reject(InvalidProposalBlock)
    else Accept
  }

  function CheckProposal1(cfg: Config, proposal: ProposalMsg): Verdict {
    if !proposal.DigestMatches() then Reject(IncorrectProposalDigest)
    else if proposal.certificate.None? then Reject(MissingRoundChangeCertificate)
    else
      var rcs := proposal.certificate.value;
      if |rcs| < cfg.quorum(proposal.view.height) then Reject(RoundChangeCertificateQuorumNotReached)
      else if FirstFault(cfg, rcs, proposal.view, 0).Some? then Reject(FirstFault(cfg, rcs, proposal.view, 0).value)
      else JudgeBlock(cfg, proposal, rcs, Highest(rcs, |rcs|))
  }

  // What acceptance means, without the scan.

  /** At least `quorum` round changes for this view, from pairwise distinct validators. */
  predicate QuorumOfRoundChanges(cfg: Config, rcs: seq<RoundChangeMetadata>, view: View) {
    && |rcs| >= cfg.quorum(view.height)
    && (forall i :: 0 <= i < |rcs| ==>
          rcs[i].view == view && rcs[i].Signer().Some? && rcs[i].Signer().value in cfg.validators(view.height))
    && (forall i, j :: 0 <= i < j < |rcs| ==> rcs[i].Signer() != rcs[j].Signer())
  }

  /** The first certificate of maximal round, that round being at least 1. */
  predicate FirstOfMaximalRound(rcs: seq<RoundChangeMetadata>, k: nat) {
    && k < |rcs|
    && RoundAt(rcs, k) >= 1
    && (forall j :: 0 <= j < |rcs| ==> RoundAt(rcs, j) <= RoundAt(rcs, k))
    && (forall j :: 0 <= j < k ==> RoundAt(rcs, j) < RoundAt(rcs, k))
  }

  /** Certificate k verifies and certifies this block at the certificate's own round. */
  predicate Certifies(cfg: Config, proposal: ProposalMsg, rcs: seq<RoundChangeMetadata>, k: nat)
    requires k < |rcs| && rcs[k].certificate.Some?
  {
    var certificate := rcs[k].certificate.value;
    && BlockDigest(proposal.block.raw, certificate.proposal.view.round) == certificate.proposal.digest
    && ValidCertificate(cfg, certificate, proposal.view.height, proposal.view.round)
  }

  predicate Acceptable(cfg: Config, proposal: ProposalMsg) {
    && proposal.DigestMatches()
    && proposal.certificate.Some?
    && var rcs := proposal.certificate.value;
    && QuorumOfRoundChanges(cfg, rcs, proposal.view)
    && (|| (exists k :: 0 <= k < |rcs| && FirstOfMaximalRound(rcs, k) && Certifies(cfg, proposal, rcs, k))
        || ((forall j :: 0 <= j < |rcs| ==> RoundAt(rcs, j) < 1) && cfg.verifyBlock(proposal.block.raw)))
  }

  /** What a proposal of its round must pass: the block itself in round 0, its round changes later. */
  predicate Passes(cfg: Config, proposal: ProposalMsg) {
    if proposal.view.round == 0 then proposal.DigestMatches() && cfg.verifyBlock(proposal.block.raw)
    else Acceptable(cfg, proposal)
  }

  lemma {:induction false} FirstFaultDecides(cfg: Config, rcs: seq<RoundChangeMetadata>, view: View, k: nat)
    requires k <= |rcs|
    ensures FirstFault(cfg, rcs, view, k).None? <==> forall i :: k <= i < |rcs| ==> FaultAt(cfg, rcs, view, i).None?
    decreases |rcs| - k
  {
    if k < |rcs| {
      FirstFaultDecides(cfg, rcs, view, k + 1);
    }
  }

  lemma {:induction false} HighestIsFirstMaximum(rcs: seq<RoundChangeMetadata>, n: nat)
    requires n <= |rcs|
    ensures Highest(rcs, n).None? ==> forall j :: 0 <= j < n ==> RoundAt(rcs, j) < 1
    ensures Highest(rcs, n).Some? ==>
              && (forall j :: 0 <= j < n ==> RoundAt(rcs, j) <= RoundAt(rcs, Highest(rcs, n).value))
              && (forall j :: 0 <= j < Highest(rcs, n).value ==> RoundAt(rcs, j) < RoundAt(rcs, Highest(rcs, n).value))
  {
    if n > 0 {
      HighestIsFirstMaximum(rcs, n - 1);
    }
  }

  lemma NoFaultIsQuorum(cfg: Config, rcs: seq<RoundChangeMetadata>, view: View)
    requires |rcs| >= cfg.quorum(view.height)
    ensures FirstFault(cfg, rcs, view, 0).None? <==> QuorumOfRoundChanges(cfg, rcs, view)
  {
    FirstFaultDecides(cfg, rcs, view, 0);
    if FirstFault(cfg, rcs, view, 0).None? {
      forall i | 0 <= i < |rcs|
        ensures rcs[i].view == view && rcs[i].Signer().Some? && rcs[i].Signer().value in cfg.validators(view.height)
        ensures forall j :: 0 <= j < i ==> rcs[j].Signer() != rcs[i].Signer()
      {
        assert FaultAt(cfg, rcs, view, i).None?;
      }
    }
  }

  /** The scan with its running maximum accepts exactly the acceptable proposals. */
  lemma AcceptsExactly(cfg: Config, proposal: ProposalMsg)
    ensures CheckProposal1(cfg, proposal).Accept? <==> Acceptable(cfg, proposal)
  {
    if proposal.certificate.Some? && |proposal.certificate.value| >= cfg.quorum(proposal.view.height) {
      var rcs := proposal.certificate.value;
      NoFaultIsQuorum(cfg, rcs, proposal.view);
      HighestIsFirstMaximum(rcs, |rcs|);
      var best := Highest(rcs, |rcs|);
      if best.Some? {
        assert FirstOfMaximalRound(rcs, best.value);
        forall k | 0 <= k < |rcs| && FirstOfMaximalRound(rcs, k) ensures k == best.value {
          assert RoundAt(rcs, k) == RoundAt(rcs, best.value);
        }
      }
    }
  }

  /** Round change k is a validator's, for this view. */
  predicate Sound(cfg: Config, rcs: seq<RoundChangeMetadata>, view: View, k: nat)
    requires k < |rcs|
  {
    rcs[k].view == view && rcs[k].Signer().Some? && rcs[k].Signer().value in cfg.validators(view.height)
  }

  predicate Repeats(rcs: seq<RoundChangeMetadata>, k: nat)
    requires k < |rcs|
  {
    exists j :: 0 <= j < k && rcs[j].Signer() == rcs[k].Signer()
  }

  /** Round change k is the first that cannot stand: not sound, or by a validator seen before. */
  predicate FirstBad(cfg: Config, rcs: seq<RoundChangeMetadata>, view: View, k: nat) {
    && k < |rcs| && (!Sound(cfg, rcs, view, k) || Repeats(rcs, k))
    && (forall i :: 0 <= i < k ==> Sound(cfg, rcs, view, i) && !Repeats(rcs, i))
  }

  lemma {:induction false} FaultIsFirstBad(cfg: Config, rcs: seq<RoundChangeMetadata>, view: View, k: nat)
    requires k <= |rcs| && forall i :: 0 <= i < k ==> FaultAt(cfg, rcs, view, i).None?
    ensures FirstFault(cfg, rcs, view, k).Some? <==> exists j :: FirstBad(cfg, rcs, view, j)
    ensures forall j :: FirstBad(cfg, rcs, view, j) ==>
              FirstFault(cfg, rcs, view, k) == Some(if Sound(cfg, rcs, view, j) then DuplicateRoundChangeInCertificate
                                                    else InvalidRoundChangeInCertificate)
    decreases |rcs| - k
  {
    assert forall i :: 0 <= i < |rcs| ==>
        (FaultAt(cfg, rcs, view, i).None? <==> Sound(cfg, rcs, view, i) && !Repeats(rcs, i));
    if k < |rcs| {
      if FaultAt(cfg, rcs, view, k).None? {
        FaultIsFirstBad(cfg, rcs, view, k + 1);
      } else {
        assert FirstBad(cfg, rcs, view, k);
      }
    }
  }

  /** Which error a proposal of a later round is refused with. */
  lemma RefusedWith(cfg: Config, proposal: ProposalMsg)
    ensures CheckProposal1(cfg, proposal) == Reject(IncorrectProposalDigest) <==> !proposal.DigestMatches()
    ensures CheckProposal1(cfg, proposal) == Reject(MissingRoundChangeCertificate) <==>
              proposal.DigestMatches() && proposal.certificate.None?
    ensures proposal.DigestMatches() && proposal.certificate.Some? ==>
              var rcs, verdict := proposal.certificate.value, CheckProposal1(cfg, proposal);
              && (verdict == Reject(RoundChangeCertificateQuorumNotReached) <==>
                    |rcs| < cfg.quorum(proposal.view.height))
              && (verdict == Reject(DuplicateRoundChangeInCertificate) <==>
                    && |rcs| >= cfg.quorum(proposal.view.height)
                    && exists k :: FirstBad(cfg, rcs, proposal.view, k) && Sound(cfg, rcs, proposal.view, k))
              && (verdict == Reject(InvalidProposalBlock) <==>
                    && QuorumOfRoundChanges(cfg, rcs, proposal.view) && !cfg.verifyBlock(proposal.block.raw)
                    && forall j :: 0 <= j < |rcs| ==> RoundAt(rcs, j) < 1)
  {
    if proposal.DigestMatches() && proposal.certificate.Some? {
      var rcs := proposal.certificate.value;
      if |rcs| >= cfg.quorum(proposal.view.height) {
        FaultIsFirstBad(cfg, rcs, proposal.view, 0);
        NoFaultIsQuorum(cfg, rcs, proposal.view);
        HighestIsFirstMaximum(rcs, |rcs|);
      }
    }
  }

  /** The running `seen_validators` after k round changes. */
  ghost function SignersBefore(rcs: seq<RoundChangeMetadata>, k: nat): set<Address>
    requires k <= |rcs|
  {
    if k == 0 then {}
    else if rcs[k - 1].Signer().Some? then SignersBefore(rcs, k - 1) + {rcs[k - 1].Signer().value}
    else SignersBefore(rcs, k - 1)
  }

  lemma {:induction false} SeenBefore(rcs: seq<RoundChangeMetadata>, k: nat, a: Address)
    requires k <= |rcs|
    ensures a in SignersBefore(rcs, k) <==> exists j :: 0 <= j < k && rcs[j].Signer() == Some(a)
  {
    if k > 0 {
      SeenBefore(rcs, k - 1, a);
    }
  }

  /** The loop of `proposal_1_verify_fn`: the first fault, or else the certificate of highest round. */
  method ScanRoundChanges(cfg: Config, rcs: seq<RoundChangeMetadata>, view: View)
    returns (fault: Option<IbftError>, highestRound: nat, highest: Option<PreparedCertificate>)
    ensures fault == FirstFault(cfg, rcs, view, 0)
    ensures fault.None? ==>
              && highest == (if Highest(rcs, |rcs|).Some? then rcs[Highest(rcs, |rcs|).value].certificate else None)
              && highestRound == (if Highest(rcs, |rcs|).Some? then RoundAt(rcs, Highest(rcs, |rcs|).value) else 0)
  {
    highestRound, highest := 0, None;
    var seen: set<Address> := {};
    for k := 0 to |rcs|
      invariant FirstFault(cfg, rcs, view, 0) == FirstFault(cfg, rcs, view, k)
      invariant seen == SignersBefore(rcs, k)
      invariant highest == if Highest(rcs, k).Some? then rcs[Highest(rcs, k).value].certificate else None
      invariant highestRound == if Highest(rcs, k).Some? then RoundAt(rcs, Highest(rcs, k).value) else 0
    {
      var rc := rcs[k];
      var validator := rc.Signer();
      if rc.view != view || validator.None? || validator.value !in cfg.validators(view.height) {
        return Some(InvalidRoundChangeInCertificate), highestRound, highest;
      }
      SeenBefore(rcs, k, validator.value);
      if validator.value in seen {
        return Some(DuplicateRoundChangeInCertificate), highestRound, highest;
      }
      seen := seen + {validator.value};
      if rc.certificate.Some? && rc.certificate.value.proposal.view.round > highestRound {
        highestRound := rc.certificate.value.proposal.view.round;
        highest := rc.certificate;
      }
    }
    fault := None;
  }

  /** `proposal_1_verify_fn`. */
  method VerifyProposal1(cfg: Config, proposal: ProposalMsg) returns (verdict: Verdict)
    requires cfg.quorum(proposal.view.height) >= 1
    ensures verdict == CheckProposal1(cfg, proposal)
    ensures verdict.Accept? <==> Acceptable(cfg, proposal)
  {
    AcceptsExactly(cfg, proposal);
    if !proposal.DigestMatches() {
      return Reject(IncorrectProposalDigest);
    }
    if proposal.certificate.None? {
      return Reject(MissingRoundChangeCertificate);
    }
    var rcs, view := proposal.certificate.value, proposal.view;
    if |rcs| < cfg.quorum(view.height) {
      return Reject(RoundChangeCertificateQuorumNotReached);
    }
    var fault, highestRound, highest := ScanRoundChanges(cfg, rcs, view);
    if fault.Some? {
      return Reject(fault.value);
    }
    if highest.Some? {
      if BlockDigest(proposal.block.raw, highestRound) != highest.value.proposal.digest {
        return Reject(InvalidRoundChangeInCertificate);
      }
      var ok := VerifyPreparedCertificate(cfg, highest.value, view.height, view.round);
      if !ok {
        return Reject(InvalidRoundChangeInCertificate);
      }
    } else if !cfg.verifyBlock(proposal.block.raw) {
      return Reject(InvalidProposalBlock);
    }
    return Accept;
  }
}

/** When followers accept the proposal an honest proposer builds from the round changes it collected. */
module Proposals {
  import opened Types
  import opened Configuration
  import opened Verification
  import opened Nodes

  /** The round changes in the order in which the proposal lists them. */
  function Listed(rcs: seq<RoundChangeMsg>): (list: seq<RoundChangeMsg>)
    ensures |list| == |rcs|
  {
    var pos := FirstPrepared(rcs);
    if pos.Some? then ChosenLast(rcs, pos.value) else rcs
  }

  /** What wait_rcc hands over: a quorum of verified round changes of the view. */
  predicate Collected(cfg: Config, view: View, rcs: seq<RoundChangeMsg>) {
    && QuorumOfRoundChanges(cfg, MetadataOf(rcs), view)
    && (forall i :: 0 <= i < |rcs| ==> ValidRoundChange(cfg, rcs[i], view.height))
  }

  /** Round change k of the list prepared block `raw` in the very round its certificate is from. */
  predicate PreparedBlock(list: seq<RoundChangeMsg>, k: nat, raw: RawBlock)
    requires k < |list| && list[k].prepared.Some?
  {
    var prepared := list[k].prepared.value;
    prepared.block.raw == raw && prepared.block.round == prepared.certificate.proposal.view.round
  }

  /**
   A follower accepts exactly when the block equals the one prepared in the highest certified
   round (from round 1 on), or, if no certificate is that recent, when the block itself verifies.
   The proposer chose the first certified block it found, so this can fail.
   */
  predicate FollowersAgree(cfg: Config, rcs: seq<RoundChangeMsg>, raw: RawBlock) {
    var list := Listed(rcs);
    && (forall k :: 0 <= k < |list| && FirstOfMaximalRound(MetadataOf(list), k) ==>
          list[k].prepared.Some? && PreparedBlock(list, k, raw))
    && ((forall k :: 0 <= k < |list| ==> RoundAt(MetadataOf(list), k) < 1) ==> cfg.verifyBlock(raw))
  }

  /** Trading two places keeps a list of round changes a quorum. */
  lemma ListedIsQuorum(cfg: Config, view: View, rcs: seq<RoundChangeMsg>)
    requires Collected(cfg, view, rcs)
    ensures Collected(cfg, view, Listed(rcs))
  {
    var list, metadata := Listed(rcs), MetadataOf(rcs);
    if FirstPrepared(rcs).Some? {
      var pos, last := FirstPrepared(rcs).value, |rcs| - 1;
      forall i | 0 <= i < |list|
        ensures MetadataOf(list)[i] == metadata[if i == last then pos else if i == pos then last else i]
      {
      }
      forall i, j | 0 <= i < j < |list| ensures MetadataOf(list)[i].Signer() != MetadataOf(list)[j].Signer() {
        var i' := if i == last then pos else if i == pos then last else i;
        var j' := if j == last then pos else if j == pos then last else j;
        assert i' != j';
      }
    }
  }

  lemma BuiltFrom(view: View, rcs: seq<RoundChangeMsg>, built: Option<RawBlock>, self: Address)
    requires BuildProposal(view, rcs, built, self).Some?
    ensures var p := BuildProposal(view, rcs, built, self).value;
            && p.view == view && p.DigestMatches() && p.certificate == Some(MetadataOf(Listed(rcs)))
            && (FirstPrepared(rcs).Some? ==> p.block.raw == rcs[FirstPrepared(rcs).value].prepared.value.block.raw)
            && (FirstPrepared(rcs).None? ==> Some(p.block.raw) == built)
  {
  }

  lemma CertifiesIsPrepared(cfg: Config, view: View, list: seq<RoundChangeMsg>, p: ProposalMsg, k: nat)
    requires Collected(cfg, view, list) && p.view == view
    requires k < |list| && list[k].prepared.Some?
    ensures Certifies(cfg, p, MetadataOf(list), k) <==> PreparedBlock(list, k, p.block.raw)
  {
    assert ValidRoundChange(cfg, list[k], view.height);
    assert MetadataOf(list)[k].view == view;
  }

  lemma {:induction false} MaximumExists(list: seq<RoundChangeMetadata>)
    ensures || (forall k :: 0 <= k < |list| ==> RoundAt(list, k) < 1)
            || (exists k :: 0 <= k < |list| && FirstOfMaximalRound(list, k))
  {
    HighestIsFirstMaximum(list, |list|);
    var best := Highest(list, |list|);
    assert best.Some? ==> FirstOfMaximalRound(list, best.value);
  }

  lemma MaximumUnique(list: seq<RoundChangeMetadata>, k: nat, j: nat)
    requires k < |list| && j < |list| && FirstOfMaximalRound(list, k) && FirstOfMaximalRound(list, j)
    ensures k == j
  {
    assert RoundAt(list, k) == RoundAt(list, j);
  }

  /** Honest proposals are accepted exactly when the block picked up is the one the followers look for. */
  lemma AcceptedExactlyWhenAgreed(cfg: Config, view: View, rcs: seq<RoundChangeMsg>, built: Option<RawBlock>,
                                  self: Address)
    requires Collected(cfg, view, rcs) && BuildProposal(view, rcs, built, self).Some?
    ensures var p := BuildProposal(view, rcs, built, self).value;
            CheckProposal1(cfg, p).Accept? <==> FollowersAgree(cfg, rcs, p.block.raw)
  {
    var p := BuildProposal(view, rcs, built, self).value;
    var list := Listed(rcs);
    var metadata := MetadataOf(list);
    BuiltFrom(view, rcs, built, self);
    ListedIsQuorum(cfg, view, rcs);
    AcceptsExactly(cfg, p);
    MaximumExists(metadata);
    forall k | 0 <= k < |metadata| && FirstOfMaximalRound(metadata, k)
      ensures list[k].prepared.Some?
      ensures Certifies(cfg, p, metadata, k) <==> PreparedBlock(list, k, p.block.raw)
    {
      CertifiesIsPrepared(cfg, view, list, p, k);
    }
    forall k, j | 0 <= k < |metadata| && 0 <= j < |metadata| && FirstOfMaximalRound(metadata, k)
        && FirstOfMaximalRound(metadata, j)
      ensures k == j
    {
      MaximumUnique(metadata, k, j);
    }
  }

  /** The ordinary case: one certified block at most, block rounds as honest proposers set them. */
  lemma OneCertifiedBlockIsAccepted(cfg: Config, view: View, rcs: seq<RoundChangeMsg>, built: Option<RawBlock>,
                                    self: Address)
    requires Collected(cfg, view, rcs) && BuildProposal(view, rcs, built, self).Some?
    requires forall i, j :: 0 <= i < |rcs| && 0 <= j < |rcs| && rcs[i].prepared.Some? && rcs[j].prepared.Some? ==>
                              rcs[i].prepared.value.block.raw == rcs[j].prepared.value.block.raw
    requires forall i :: 0 <= i < |rcs| && rcs[i].prepared.Some? ==>
                           rcs[i].prepared.value.block.round == rcs[i].prepared.value.certificate.proposal.view.round
    requires cfg.verifyBlock(BuildProposal(view, rcs, built, self).value.block.raw)
    ensures CheckProposal1(cfg, BuildProposal(view, rcs, built, self).value).Accept?
  {
    var p := BuildProposal(view, rcs, built, self).value;
    BuiltFrom(view, rcs, built, self);
    AcceptedExactlyWhenAgreed(cfg, view, rcs, built, self);
    var list := Listed(rcs);
    forall k | 0 <= k < |list| && FirstOfMaximalRound(MetadataOf(list), k)
      ensures list[k].prepared.Some? && PreparedBlock(list, k, p.block.raw)
    {
      assert MetadataOf(list)[k] == list[k].Metadata();
      assert list[k] in rcs;
    }
  }
}

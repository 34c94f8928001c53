/**
 The messages and certificates of the IBFT engine (types.rs).

 Cryptography is ideal.  A digest is kept as the term that was hashed, so two digests
 are equal exactly when their preimages are (module Encoding shows that the byte strings
 that are hashed determine these terms).  A signature records who signed which digest,
 and recovery fails on every other digest.
 */
module Types {

  newtype byte = b: int | 0 <= b < 256

  type Address = nat
  type RawBlock = seq<byte>

  const MAX_ROUND: nat := 21
  const ROUND_ARRAY_SIZE: nat := MAX_ROUND + 1

  datatype Option<+T> = None | Some(value: T)

  datatype View = View(height: nat, round: nat)

  datatype Digest =
    | BlockDigest(raw: RawBlock, blockRound: nat)
    | ProposalDigest(view: View, block: Digest)
    | PrepareDigest(view: View, block: Digest)
    | CommitDigest(view: View, block: Digest, seal: Signature)
    | RoundChangeDigest(view: View, certificate: Option<PreparedCertificate>)
    | UnknownDigest(id: nat)  // 32 bytes that are nobody's hash

  datatype Signature = Signature(signer: Address, prehash: Digest)

  function Recover(signature: Signature, prehash: Digest): Option<Address> {
    if signature.prehash == prehash then Some(signature.signer) else None
  }

  datatype ProposedBlock = ProposedBlock(raw: RawBlock, round: nat)
  {
    function Digest(): Digest { BlockDigest(raw, round) }
  }

  datatype ProposalMetadata = ProposalMetadata(view: View, digest: Digest, signature: Signature)
  {
    function Signer(): Option<Address> { Recover(signature, ProposalDigest(view, digest)) }
  }

  datatype PrepareMsg = PrepareMsg(view: View, digest: Digest, signature: Signature)
  {
    function Signer(): Option<Address> { Recover(signature, PrepareDigest(view, digest)) }
  }

  datatype PreparedCertificate = PreparedCertificate(proposal: ProposalMetadata, prepares: seq<PrepareMsg>)

  datatype CommitMsg = CommitMsg(view: View, digest: Digest, seal: Signature, signature: Signature)
  {
    function Signer(): Option<Address> { Recover(signature, CommitDigest(view, digest, seal)) }
    function SealSigner(): Option<Address> { Recover(seal, digest) }
  }

  /** Round change as it travels inside a round change certificate: without the block. */
  datatype RoundChangeMetadata =
    RoundChangeMetadata(view: View, certificate: Option<PreparedCertificate>, signature: Signature)
  {
    function Signer(): Option<Address> { Recover(signature, RoundChangeDigest(view, certificate)) }
  }

  datatype PreparedProposed = PreparedProposed(block: ProposedBlock, certificate: PreparedCertificate)

  datatype RoundChangeMsg =
    RoundChangeMsg(view: View, prepared: Option<PreparedProposed>, signature: Signature)
  {
    function Certificate(): Option<PreparedCertificate> {
      if prepared.Some? then Some(prepared.value.certificate) else None
    }
    function Signer(): Option<Address> { Recover(signature, RoundChangeDigest(view, Certificate())) }
    function Metadata(): RoundChangeMetadata { RoundChangeMetadata(view, Certificate(), signature) }
  }

  datatype ProposalMsg = ProposalMsg(
    view: View,
    block: ProposedBlock,
    digest: Digest,
    certificate: Option<seq<RoundChangeMetadata>>,
    signature: Signature)
  {
    function Signer(): Option<Address> { Recover(signature, ProposalDigest(view, digest)) }
    predicate DigestMatches() { block.Digest() == digest }
    function Metadata(): ProposalMetadata { ProposalMetadata(view, digest, signature) }
  }

  datatype FinalizedBlock = FinalizedBlock(raw: RawBlock, round: nat, seals: seq<Signature>)

  // Messages as an honest signer builds them

  function NewProposal(view: View, raw: RawBlock, rcc: Option<seq<RoundChangeMetadata>>, signer: Address): ProposalMsg {
    var block := ProposedBlock(raw, view.round);
    ProposalMsg(view, block, block.Digest(), rcc, Signature(signer, ProposalDigest(view, block.Digest())))
  }

  function NewPrepare(view: View, digest: Digest, signer: Address): PrepareMsg {
    PrepareMsg(view, digest, Signature(signer, PrepareDigest(view, digest)))
  }

  function NewCommit(view: View, digest: Digest, signer: Address): CommitMsg {
    var seal := Signature(signer, digest);
    CommitMsg(view, digest, seal, Signature(signer, CommitDigest(view, digest, seal)))
  }

  function NewRoundChange(view: View, prepared: Option<PreparedProposed>, signer: Address): RoundChangeMsg {
    var certificate := if prepared.Some? then Some(prepared.value.certificate) else None;
    RoundChangeMsg(view, prepared, Signature(signer, RoundChangeDigest(view, certificate)))
  }

  function NewPreparedProposed(proposal: ProposalMsg, prepares: seq<PrepareMsg>): PreparedProposed {
    PreparedProposed(proposal.block, PreparedCertificate(proposal.Metadata(), prepares))
  }

  /** `update_and_resign`: same certificate, new round, new signature. */
  function Resign(rc: RoundChangeMsg, round: nat, signer: Address): RoundChangeMsg {
    NewRoundChange(View(rc.view.height, round), rc.prepared, signer)
  }

  /** Round of a carried certificate, -1 when there is none. */
  function CertificateRound(certificate: Option<PreparedCertificate>): int {
    if certificate.Some? then certificate.value.proposal.view.round else -1
  }
}

/** What a node is configured with: the validator manager and the block verifier (backend.rs). */
module Configuration {
  import opened Types

  datatype Config = Config(
    validators: nat -> set<Address>,
    proposer: View -> Address,
    quorum: nat -> nat,
    verifyBlock: RawBlock -> bool)

  /** Every view has one proposer, a validator of its height, and the quorum is not zero. */
  ghost predicate WellFormed(cfg: Config) {
    && (forall view: View :: cfg.proposer(view) in cfg.validators(view.height))
    && (forall height: nat :: cfg.quorum(height) >= 1)
  }
}

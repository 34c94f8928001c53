/**
 From hashed bytes back to the terms that stand for them in `Types.Digest`.

 A real hash cannot be injective on all byte strings.  What is proved needs no more than that it does not
 collide on the byte strings that were hashed: among those messages, equal 32-byte digests mean equal terms,
 nested certificates and signatures included.
 */
module Hashing {
  import opened Types
  import opened Encoding
  import opened Layout

  /** Hash, signature, and the 32-byte strings that are nobody's hash. */
  datatype Crypto = Crypto(hash: Bytes -> Hash, sign: (Address, Hash) -> SignatureBytes, unknown: nat -> Hash)

  // ---------- what the Rust types admit ----------

  predicate Encodable(d: Digest)
    decreases d
  {
    match d
    case BlockDigest(raw, round) => |raw| < U32_LIMIT && round < 256
    case ProposalDigest(view, block) => IsView(view) && Encodable(block)
    case PrepareDigest(view, block) => IsView(view) && Encodable(block)
    case CommitDigest(view, block, seal) => IsView(view) && Encodable(block) && Encodable(seal.prehash)
    case RoundChangeDigest(view, None) => IsView(view)
    case RoundChangeDigest(view, Some(certificate)) => IsView(view) && EncodableCertificate(certificate)
    case UnknownDigest(_) => true
  }

  predicate EncodableCertificate(certificate: PreparedCertificate)
    decreases certificate
  {
    var proposal := certificate.proposal;
    && IsView(proposal.view) && Encodable(proposal.digest) && Encodable(proposal.signature.prehash)
    && |certificate.prepares| < U32_LIMIT
    && (forall i :: 0 <= i < |certificate.prepares| ==> EncodablePrepare(certificate.prepares[i]))
  }

  predicate EncodablePrepare(m: PrepareMsg)
    decreases m
  {
    IsView(m.view) && Encodable(m.digest) && Encodable(m.signature.prehash)
  }

  // ---------- terms to bytes ----------

  /** The 32 bytes a digest term stands for. */
  function HashOf(c: Crypto, d: Digest): Hash
    requires Encodable(d)
    decreases d, 1
  {
    if d.UnknownDigest? then c.unknown(d.id) else c.hash(Encode(PreimageOf(c, d)))
  }

  function SignatureOf(c: Crypto, signature: Signature): SignatureBytes
    requires Encodable(signature.prehash)
    decreases signature, 1
  {
    c.sign(signature.signer, HashOf(c, signature.prehash))
  }

  function PreimageOf(c: Crypto, d: Digest): (p: Preimage)
    requires Encodable(d) && !d.UnknownDigest?
    ensures Fits(p)
    decreases d, 0
  {
    match d
    case BlockDigest(raw, round) => BlockBytes(raw, round)
    case ProposalDigest(view, block) => ProposalBytes(view, HashOf(c, block))
    case PrepareDigest(view, block) => PrepareBytes(view, HashOf(c, block))
    case CommitDigest(view, block, seal) => CommitBytes(view, HashOf(c, block), SignatureOf(c, seal))
    case RoundChangeDigest(view, None) => RoundChangeBytes(view, None)
    case RoundChangeDigest(view, Some(certificate)) => RoundChangeBytes(view, Some(WireOf(c, certificate)))
  }

  function WireOf(c: Crypto, certificate: PreparedCertificate): (wire: WireCertificate)
    requires EncodableCertificate(certificate)
    ensures IsCertificate(wire) && |wire.prepares| == |certificate.prepares|
    decreases certificate, 0
  {
    var proposal, prepares := certificate.proposal, certificate.prepares;
    WireCertificate(
      SignedVote(proposal.view, HashOf(c, proposal.digest), SignatureOf(c, proposal.signature)),
      seq(|prepares|, i requires 0 <= i < |prepares| => VoteOf(c, prepares[i])))
  }

  function VoteOf(c: Crypto, m: PrepareMsg): (vote: SignedVote)
    requires EncodablePrepare(m)
    ensures IsVote(vote)
    decreases m, 0
  {
    SignedVote(m.view, HashOf(c, m.digest), SignatureOf(c, m.signature))
  }

  /** View, 32-byte digest and signature of a signed message, at this place. */
  predicate SignedAt(c: Crypto, b: Bytes, at: nat, view: View, digest: Digest, signature: Signature)
    requires Encodable(digest) && Encodable(signature.prehash)
  {
    && at + 106 <= |b| && ViewAt(b, at, view)
    && b[at + 9..at + 41] == HashOf(c, digest) && b[at + 41..at + 106] == SignatureOf(c, signature)
  }

  predicate PrepareAt(c: Crypto, b: Bytes, at: nat, m: PrepareMsg)
    requires EncodablePrepare(m)
  {
    SignedAt(c, b, at, m.view, m.digest, m.signature)
  }

  /** The proposal, the number of prepares, and the prepares one after another. */
  predicate CertificateHashed(c: Crypto, certificate: PreparedCertificate, b: Bytes)
    requires EncodableCertificate(certificate) && |b| == 121 + 106 * |certificate.prepares|
  {
    var proposal, prepares := certificate.proposal, certificate.prepares;
    && SignedAt(c, b, 11, proposal.view, proposal.digest, proposal.signature)
    && U32At(b, 117) == |prepares|
    && (forall i :: 0 <= i < |prepares| ==> PrepareAt(c, b, 121 + 106 * i, prepares[i]))
  }

  /** The bytes a digest term is the hash of, field by field. */
  predicate Hashed(c: Crypto, d: Digest, b: Bytes)
    requires Encodable(d) && !d.UnknownDigest?
  {
    match d
    case BlockDigest(raw, round) =>
      |b| == 5 + |raw| && U32At(b, 0) == |raw| && b[4..4 + |raw|] == raw && b[4 + |raw|] as nat == round
    case ProposalDigest(view, block) => |b| == 42 && b[0] == 0 && ViewAt(b, 1, view) && b[10..42] == HashOf(c, block)
    case PrepareDigest(view, block) => |b| == 42 && b[0] == 1 && ViewAt(b, 1, view) && b[10..42] == HashOf(c, block)
    case CommitDigest(view, block, seal) =>
      && |b| == 107 && b[0] == 2 && ViewAt(b, 1, view)
      && b[10..42] == HashOf(c, block) && b[42..107] == SignatureOf(c, seal)
    case RoundChangeDigest(view, None) => |b| == 11 && b[0] == 3 && ViewAt(b, 1, view) && b[10] == 0
    case RoundChangeDigest(view, Some(certificate)) =>
      && |b| == 121 + 106 * |certificate.prepares| && b[0] == 3 && ViewAt(b, 1, view) && b[10] == 1
      && CertificateHashed(c, certificate, b)
  }

  lemma WireHashed(c: Crypto, certificate: PreparedCertificate, b: Bytes)
    requires EncodableCertificate(certificate) && |b| == 121 + 106 * |certificate.prepares|
    requires var wire := WireOf(c, certificate);
             VoteAt(b, 11, wire.proposal) && U32At(b, 117) == |wire.prepares| && VotesAt(b, 121, wire.prepares)
    ensures CertificateHashed(c, certificate, b)
  {
    var wire, prepares := WireOf(c, certificate), certificate.prepares;
    forall i | 0 <= i < |prepares| ensures PrepareAt(c, b, 121 + 106 * i, prepares[i]) {
      assert VoteAt(b, 121 + 106 * i, wire.prepares[i]) && wire.prepares[i] == VoteOf(c, prepares[i]);
    }
  }

  /** What is hashed for each term: tag, view and fields in the order of the Rust structs. */
  lemma HashedBytes(c: Crypto, d: Digest)
    requires Encodable(d) && !d.UnknownDigest?
    ensures exists b :: HashOf(c, d) == c.hash(b) && Hashed(c, d, b)
  {
    var b := Encode(PreimageOf(c, d));
    EncodedInPlace(PreimageOf(c, d));
    if d.RoundChangeDigest? && d.certificate.Some? {
      WireHashed(c, d.certificate.value, b);
    }
    assert HashOf(c, d) == c.hash(b) && Hashed(c, d, b);
  }

  // ---------- what was hashed and signed ----------

  /** Digests and signatures that occur directly in a term. */
  ghost predicate DigestIn(x: Digest, d: Digest) {
    match d
    case ProposalDigest(_, block) => x == block
    case PrepareDigest(_, block) => x == block
    case CommitDigest(_, block, _) => x == block
    case RoundChangeDigest(_, Some(certificate)) =>
      x == certificate.proposal.digest || exists m :: m in certificate.prepares && x == m.digest
    case _ => false
  }

  ghost predicate SignatureIn(x: Signature, d: Digest) {
    match d
    case CommitDigest(_, _, seal) => x == seal
    case RoundChangeDigest(_, Some(certificate)) =>
      x == certificate.proposal.signature || exists m :: m in certificate.prepares && x == m.signature
    case _ => false
  }

  /** All these terms can be encoded, and with a term come the digests, signatures and signers in it. */
  ghost predicate Closed(terms: set<Digest>, signers: set<Address>) {
    && (forall d :: d in terms ==> Encodable(d))
    && (forall d, x :: d in terms && DigestIn(x, d) ==> x in terms)
    && (forall d, x :: d in terms && SignatureIn(x, d) ==> x.prehash in terms && x.signer in signers)
  }

  /** Among these terms the hash does not collide, and a signature tells who signed what. */
  ghost predicate NoCollision(c: Crypto, terms: set<Digest>, signers: set<Address>)
    requires Closed(terms, signers)
  {
    && (forall d, e :: d in terms && e in terms && !d.UnknownDigest? && !e.UnknownDigest?
                       && HashOf(c, d) == HashOf(c, e)
                       ==> Encode(PreimageOf(c, d)) == Encode(PreimageOf(c, e)))
    && (forall d, e :: d in terms && e in terms && d.UnknownDigest? && HashOf(c, d) == HashOf(c, e) ==> d == e)
    && (forall a, b, d, e :: a in signers && b in signers && d in terms && e in terms
                             && c.sign(a, HashOf(c, d)) == c.sign(b, HashOf(c, e))
                             ==> a == b && HashOf(c, d) == HashOf(c, e))
  }

  // ---------- bytes determine terms ----------

  /** Equal 32-byte digests stand for equal terms. */
  lemma {:induction false} HashesDetermineTerms(c: Crypto, terms: set<Digest>, signers: set<Address>, d: Digest,
                                                e: Digest)
    requires Closed(terms, signers) && NoCollision(c, terms, signers)
    requires d in terms && e in terms && HashOf(c, d) == HashOf(c, e)
    ensures d == e
    decreases d, 1
  {
    if !d.UnknownDigest? && !e.UnknownDigest? {
      PreimagesAreUnambiguous(PreimageOf(c, d), PreimageOf(c, e));
      PreimagesDetermineTerms(c, terms, signers, d, e);
    }
  }

  lemma {:induction false} PreimagesDetermineTerms(c: Crypto, terms: set<Digest>, signers: set<Address>, d: Digest,
                                                   e: Digest)
    requires Closed(terms, signers) && NoCollision(c, terms, signers) && d in terms && e in terms
    requires !d.UnknownDigest? && !e.UnknownDigest? && PreimageOf(c, d) == PreimageOf(c, e)
    ensures d == e
    decreases d, 0
  {
    match d
    case BlockDigest(_, _) =>
    case ProposalDigest(_, block) =>
      assert DigestIn(block, d) && DigestIn(e.block, e);
      HashesDetermineTerms(c, terms, signers, block, e.block);
    case PrepareDigest(_, block) =>
      assert DigestIn(block, d) && DigestIn(e.block, e);
      HashesDetermineTerms(c, terms, signers, block, e.block);
    case CommitDigest(_, block, seal) =>
      assert DigestIn(block, d) && DigestIn(e.block, e) && SignatureIn(seal, d) && SignatureIn(e.seal, e);
      HashesDetermineTerms(c, terms, signers, block, e.block);
      SignaturesDetermineTerms(c, terms, signers, seal, e.seal);
    case RoundChangeDigest(_, None) =>
    case RoundChangeDigest(_, Some(certificate)) =>
      CertificatesDetermineTerms(c, terms, signers, d, e);
  }

  lemma {:induction false} SignaturesDetermineTerms(c: Crypto, terms: set<Digest>, signers: set<Address>, x: Signature,
                                                    y: Signature)
    requires Closed(terms, signers) && NoCollision(c, terms, signers)
    requires x.prehash in terms && x.signer in signers && y.prehash in terms && y.signer in signers
    requires SignatureOf(c, x) == SignatureOf(c, y)
    ensures x == y
    decreases x, 1
  {
    HashesDetermineTerms(c, terms, signers, x.prehash, y.prehash);
  }

  lemma {:induction false} CertificatesDetermineTerms(c: Crypto, terms: set<Digest>, signers: set<Address>, d: Digest,
                                                      e: Digest)
    requires Closed(terms, signers) && NoCollision(c, terms, signers) && d in terms && e in terms
    requires d.RoundChangeDigest? && d.certificate.Some? && e.RoundChangeDigest? && e.certificate.Some?
    requires d.view == e.view && WireOf(c, d.certificate.value) == WireOf(c, e.certificate.value)
    ensures d == e
    decreases d.certificate, 0
  {
    var x, y := d.certificate.value, e.certificate.value;
    assert DigestIn(x.proposal.digest, d) && DigestIn(y.proposal.digest, e);
    assert SignatureIn(x.proposal.signature, d) && SignatureIn(y.proposal.signature, e);
    HashesDetermineTerms(c, terms, signers, x.proposal.digest, y.proposal.digest);
    SignaturesDetermineTerms(c, terms, signers, x.proposal.signature, y.proposal.signature);
    var wire, wire' := WireOf(c, x), WireOf(c, y);
    forall i | 0 <= i < |x.prepares| ensures x.prepares[i] == y.prepares[i] {
      var m, m' := x.prepares[i], y.prepares[i];
      assert wire.prepares[i] == VoteOf(c, m) && wire'.prepares[i] == VoteOf(c, m');
      assert m in x.prepares && m' in y.prepares;
      assert DigestIn(m.digest, d) && DigestIn(m'.digest, e);
      assert SignatureIn(m.signature, d) && SignatureIn(m'.signature, e);
      HashesDetermineTerms(c, terms, signers, m.digest, m'.digest);
      SignaturesDetermineTerms(c, terms, signers, m.signature, m'.signature);
    }
    assert x.prepares == y.prepares;
  }
}

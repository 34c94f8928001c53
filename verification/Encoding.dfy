/**
 The byte strings that are hashed (types.rs digest_*, Borsh): fixed-width little-endian integers,
 a one-byte message tag, 32-byte digests, 65-byte signatures, u32 length prefixes, one-byte options.
 The five encoders are injective and pairwise disjoint, so a digest names one message only.
 */
module Encoding {
  import opened Types

  type Bytes = seq<byte>

  const U32_LIMIT: nat := 0x1_0000_0000
  const U64_LIMIT: nat := 0x1_0000_0000_0000_0000

  // ---------- integers ----------

  function LittleEndian(value: nat, width: nat): (bytes: Bytes)
    ensures |bytes| == width
  {
    if width == 0 then [] else [(value % 256) as byte] + LittleEndian(value / 256, width - 1)
  }

  function Limit(width: nat): nat {
    if width == 0 then 1 else 256 * Limit(width - 1)
  }

  lemma {:induction false} LittleEndianInjective(a: nat, b: nat, width: nat)
    requires a < Limit(width) && b < Limit(width) && LittleEndian(a, width) == LittleEndian(b, width)
    ensures a == b
  {
    if width > 0 {
      var x, y := LittleEndian(a, width), LittleEndian(b, width);
      assert x[0] == y[0] && x[1..] == y[1..];
      LittleEndianInjective(a / 256, b / 256, width - 1);
    }
  }

  lemma Limits()
    ensures Limit(4) == U32_LIMIT && Limit(8) == U64_LIMIT
  {
    assert Limit(2) == 0x1_0000;
    assert Limit(4) == 0x1_0000_0000;
    assert Limit(6) == 0x1_0000_0000_0000;
  }

  // ---------- the wire forms ----------

  predicate IsView(view: View) { view.height < U64_LIMIT && view.round < 256 }

  type Hash = h: Bytes | |h| == 32 witness seq(32, _ => 0)
  type SignatureBytes = s: Bytes | |s| == 65 witness seq(65, _ => 0)

  /** A view, a digest and a signature: proposal metadata, and a signed prepare. */
  datatype SignedVote = SignedVote(view: View, digest: Hash, signature: SignatureBytes)

  datatype WireCertificate = WireCertificate(proposal: SignedVote, prepares: seq<SignedVote>)

  predicate IsVote(vote: SignedVote) { IsView(vote.view) }

  predicate IsCertificate(certificate: WireCertificate) {
    && IsVote(certificate.proposal)
    && |certificate.prepares| < U32_LIMIT
    && (forall i :: 0 <= i < |certificate.prepares| ==> IsVote(certificate.prepares[i]))
  }

  function EncodeView(view: View): (bytes: Bytes)
    requires IsView(view)
    ensures |bytes| == 9
  {
    LittleEndian(view.height, 8) + [view.round as byte]
  }

  function EncodeVote(vote: SignedVote): (bytes: Bytes)
    requires IsVote(vote)
    ensures |bytes| == 106
  {
    EncodeView(vote.view) + vote.digest + vote.signature
  }

  function EncodeVotes(votes: seq<SignedVote>): (bytes: Bytes)
    requires forall i :: 0 <= i < |votes| ==> IsVote(votes[i])
    ensures |bytes| == 106 * |votes|
  {
    if |votes| == 0 then [] else EncodeVote(votes[0]) + EncodeVotes(votes[1..])
  }

  function EncodeCertificate(certificate: WireCertificate): (bytes: Bytes)
    requires IsCertificate(certificate)
    ensures |bytes| == 110 + 106 * |certificate.prepares|
  {
    EncodeVote(certificate.proposal) + LittleEndian(|certificate.prepares|, 4) + EncodeVotes(certificate.prepares)
  }

  function EncodeOption(certificate: Option<WireCertificate>): (bytes: Bytes)
    requires certificate.Some? ==> IsCertificate(certificate.value)
    ensures |bytes| == if certificate.Some? then 111 + 106 * |certificate.value.prepares| else 1
  {
    if certificate.Some? then [1] + EncodeCertificate(certificate.value) else [0]
  }

  // ---------- the five preimages ----------

  datatype Preimage =
    | ProposalBytes(view: View, digest: Hash)
    | PrepareBytes(view: View, digest: Hash)
    | CommitBytes(view: View, digest: Hash, seal: SignatureBytes)
    | RoundChangeBytes(view: View, certificate: Option<WireCertificate>)
    | BlockBytes(raw: Bytes, round: nat)

  /** What the Rust types and Borsh's u32 lengths admit. */
  predicate Fits(p: Preimage) {
    match p
    case ProposalBytes(view, _) => IsView(view)
    case PrepareBytes(view, _) => IsView(view)
    case CommitBytes(view, _, _) => IsView(view)
    case RoundChangeBytes(view, certificate) =>
      IsView(view) && (certificate.Some? ==> IsCertificate(certificate.value))
    case BlockBytes(raw, round) => |raw| < U32_LIMIT && round < 256
  }

  function Encode(p: Preimage): Bytes
    requires Fits(p)
  {
    match p
    case ProposalBytes(view, digest) => [0] + EncodeView(view) + digest
    case PrepareBytes(view, digest) => [1] + EncodeView(view) + digest
    case CommitBytes(view, digest, seal) => [2] + EncodeView(view) + digest + seal
    case RoundChangeBytes(view, certificate) => [3] + EncodeView(view) + EncodeOption(certificate)
    case BlockBytes(raw, round) => LittleEndian(|raw|, 4) + raw + [round as byte]
  }

  /** The buffer sizes the source fills are the exact encoded lengths. */
  function EncodedLength(p: Preimage): nat {
    match p
    case ProposalBytes(_, _) => 42
    case PrepareBytes(_, _) => 42
    case CommitBytes(_, _, _) => 107
    case RoundChangeBytes(_, certificate) => if certificate.Some? then 121 + 106 * |certificate.value.prepares| else 11
    case BlockBytes(raw, _) => 5 + |raw|
  }

  lemma BuffersAreFilledExactly(p: Preimage)
    requires Fits(p)
    ensures |Encode(p)| == EncodedLength(p)
  {
    if p.RoundChangeBytes? {
      assert |EncodeOption(p.certificate)| ==
             if p.certificate.Some? then 111 + 106 * |p.certificate.value.prepares| else 1;
    }
  }

  // ---------- injectivity ----------

  /** Splitting two equal concatenations at equal lengths. */
  lemma Split(a: Bytes, b: Bytes, a': Bytes, b': Bytes)
    requires a + b == a' + b' && |a| == |a'|
    ensures a == a' && b == b'
  {
    assert (a + b)[..|a|] == a && (a' + b')[..|a|] == a';
    assert (a + b)[|a|..] == b && (a' + b')[|a|..] == b';
  }

  lemma ViewInjective(v: View, w: View)
    requires IsView(v) && IsView(w) && EncodeView(v) == EncodeView(w)
    ensures v == w
  {
    Split(LittleEndian(v.height, 8), [v.round as byte], LittleEndian(w.height, 8), [w.round as byte]);
    assert [v.round as byte][0] == [w.round as byte][0];
    Limits();
    LittleEndianInjective(v.height, w.height, 8);
  }

  lemma VoteInjective(v: SignedVote, w: SignedVote)
    requires IsVote(v) && IsVote(w) && EncodeVote(v) == EncodeVote(w)
    ensures v == w
  {
    Split(EncodeView(v.view) + v.digest, v.signature, EncodeView(w.view) + w.digest, w.signature);
    Split(EncodeView(v.view), v.digest, EncodeView(w.view), w.digest);
    ViewInjective(v.view, w.view);
  }

  lemma {:induction false} VotesInjective(v: seq<SignedVote>, w: seq<SignedVote>)
    requires forall i :: 0 <= i < |v| ==> IsVote(v[i])
    requires forall i :: 0 <= i < |w| ==> IsVote(w[i])
    requires |v| == |w| && EncodeVotes(v) == EncodeVotes(w)
    ensures v == w
  {
    if |v| > 0 {
      Split(EncodeVote(v[0]), EncodeVotes(v[1..]), EncodeVote(w[0]), EncodeVotes(w[1..]));
      VoteInjective(v[0], w[0]);
      VotesInjective(v[1..], w[1..]);
      assert v == [v[0]] + v[1..] && w == [w[0]] + w[1..];
    }
  }

  lemma CertificateInjective(c: WireCertificate, d: WireCertificate)
    requires IsCertificate(c) && IsCertificate(d) && EncodeCertificate(c) == EncodeCertificate(d)
    ensures c == d
  {
    var (n, m) := (LittleEndian(|c.prepares|, 4), LittleEndian(|d.prepares|, 4));
    Split(EncodeVote(c.proposal) + n, EncodeVotes(c.prepares), EncodeVote(d.proposal) + m, EncodeVotes(d.prepares));
    Split(EncodeVote(c.proposal), n, EncodeVote(d.proposal), m);
    VoteInjective(c.proposal, d.proposal);
    Limits();
    LittleEndianInjective(|c.prepares|, |d.prepares|, 4);
    VotesInjective(c.prepares, d.prepares);
  }

  lemma OptionInjective(c: Option<WireCertificate>, d: Option<WireCertificate>)
    requires c.Some? ==> IsCertificate(c.value)
    requires d.Some? ==> IsCertificate(d.value)
    requires EncodeOption(c) == EncodeOption(d)
    ensures c == d
  {
    assert EncodeOption(c)[0] == EncodeOption(d)[0];
    if c.Some? {
      Split([1], EncodeCertificate(c.value), [1], EncodeCertificate(d.value));
      CertificateInjective(c.value, d.value);
    }
  }

  /** Same kind of message, same bytes: same message. */
  lemma SameKindInjective(p: Preimage, q: Preimage)
    requires Fits(p) && Fits(q) && Encode(p) == Encode(q)
    requires (p.ProposalBytes? && q.ProposalBytes?) || (p.PrepareBytes? && q.PrepareBytes?)
    ensures p == q
  {
    var tag: byte := if p.ProposalBytes? then 0 else 1;
    Split([tag] + EncodeView(p.view), p.digest, [tag] + EncodeView(q.view), q.digest);
    Split([tag], EncodeView(p.view), [tag], EncodeView(q.view));
    ViewInjective(p.view, q.view);
  }

  lemma CommitInjective(p: Preimage, q: Preimage)
    requires Fits(p) && Fits(q) && Encode(p) == Encode(q) && p.CommitBytes? && q.CommitBytes?
    ensures p == q
  {
    Split([2] + EncodeView(p.view) + p.digest, p.seal, [2] + EncodeView(q.view) + q.digest, q.seal);
    Split([2] + EncodeView(p.view), p.digest, [2] + EncodeView(q.view), q.digest);
    Split([2], EncodeView(p.view), [2], EncodeView(q.view));
    ViewInjective(p.view, q.view);
  }

  lemma RoundChangeInjective(p: Preimage, q: Preimage)
    requires Fits(p) && Fits(q) && Encode(p) == Encode(q) && p.RoundChangeBytes? && q.RoundChangeBytes?
    ensures p == q
  {
    Split([3] + EncodeView(p.view), EncodeOption(p.certificate), [3] + EncodeView(q.view), EncodeOption(q.certificate));
    Split([3], EncodeView(p.view), [3], EncodeView(q.view));
    ViewInjective(p.view, q.view);
    OptionInjective(p.certificate, q.certificate);
  }

  lemma BlockInjective(p: Preimage, q: Preimage)
    requires Fits(p) && Fits(q) && Encode(p) == Encode(q) && p.BlockBytes? && q.BlockBytes?
    ensures p == q
  {
    var (n, m) := (LittleEndian(|p.raw|, 4), LittleEndian(|q.raw|, 4));
    BuffersAreFilledExactly(p);
    BuffersAreFilledExactly(q);
    Split(n + p.raw, [p.round as byte], m + q.raw, [q.round as byte]);
    Split(n, p.raw, m, q.raw);
    assert [p.round as byte][0] == [q.round as byte][0];
  }

  // ---------- disjointness ----------

  /** The tag of the four message kinds; the low length byte of a block. */
  lemma FirstByte(p: Preimage)
    requires Fits(p)
    ensures |Encode(p)| > 0
    ensures Encode(p)[0] as int ==
              match p
              case ProposalBytes(_, _) => 0
              case PrepareBytes(_, _) => 1
              case CommitBytes(_, _, _) => 2
              case RoundChangeBytes(_, _) => 3
              case BlockBytes(raw, _) => |raw| % 256
  {
  }

  /** A block preimage is never the preimage of a message, because its length betrays it. */
  lemma BlockIsNoMessage(p: Preimage, q: Preimage)
    requires Fits(p) && Fits(q) && p.BlockBytes? && !q.BlockBytes?
    ensures Encode(p) != Encode(q)
  {
    FirstByte(p);
    FirstByte(q);
    BuffersAreFilledExactly(p);
    BuffersAreFilledExactly(q);
  }

  /** Equal preimages are preimages of the same message. */
  lemma PreimagesAreUnambiguous(p: Preimage, q: Preimage)
    requires Fits(p) && Fits(q) && Encode(p) == Encode(q)
    ensures p == q
  {
    FirstByte(p);
    FirstByte(q);
    if p.BlockBytes? && !q.BlockBytes? {
      BlockIsNoMessage(p, q);
    } else if q.BlockBytes? && !p.BlockBytes? {
      BlockIsNoMessage(q, p);
    } else {
      match p
      case ProposalBytes(_, _) => SameKindInjective(p, q);
      case PrepareBytes(_, _) => SameKindInjective(p, q);
      case CommitBytes(_, _, _) => CommitInjective(p, q);
      case RoundChangeBytes(_, _) => RoundChangeInjective(p, q);
      case BlockBytes(_, _) => BlockInjective(p, q);
    }
  }
}

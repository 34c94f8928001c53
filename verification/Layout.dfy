/**
 The hashed byte strings position by position, as Borsh writes the fields in declaration order: the tag, the height as
 eight bytes with the lowest first, the round, then digest, seal or certificate.
 */
module Layout {
  import opened Types
  import opened Encoding

  // ---------- reading at a position ----------

  function U32At(b: Bytes, at: nat): nat
    requires at + 4 <= |b|
  {
    b[at] as nat + 0x100 * b[at + 1] as nat + 0x1_0000 * b[at + 2] as nat + 0x100_0000 * b[at + 3] as nat
  }

  function U64At(b: Bytes, at: nat): nat
    requires at + 8 <= |b|
  {
    U32At(b, at) + 0x1_0000_0000 * U32At(b, at + 4)
  }

  predicate ViewAt(b: Bytes, at: nat, view: View) {
    at + 9 <= |b| && U64At(b, at) == view.height && b[at + 8] as nat == view.round
  }

  /** View, digest, signature. */
  predicate VoteAt(b: Bytes, at: nat, vote: SignedVote) {
    && at + 106 <= |b|
    && ViewAt(b, at, vote.view) && b[at + 9..at + 41] == vote.digest && b[at + 41..at + 106] == vote.signature
  }

  predicate VotesAt(b: Bytes, at: nat, votes: seq<SignedVote>) {
    forall i :: 0 <= i < |votes| ==> VoteAt(b, at + 106 * i, votes[i])
  }

  /** The byte string b holds exactly the fields of p, each at its place. */
  predicate LaidOut(p: Preimage, b: Bytes) {
    match p
    case ProposalBytes(view, digest) => |b| == 42 && b[0] == 0 && ViewAt(b, 1, view) && b[10..42] == digest
    case PrepareBytes(view, digest) => |b| == 42 && b[0] == 1 && ViewAt(b, 1, view) && b[10..42] == digest
    case CommitBytes(view, digest, seal) =>
      |b| == 107 && b[0] == 2 && ViewAt(b, 1, view) && b[10..42] == digest && b[42..107] == seal
    case RoundChangeBytes(view, None) => |b| == 11 && b[0] == 3 && ViewAt(b, 1, view) && b[10] == 0
    case RoundChangeBytes(view, Some(certificate)) =>
      && |b| == 121 + 106 * |certificate.prepares| && b[0] == 3 && ViewAt(b, 1, view) && b[10] == 1
      && VoteAt(b, 11, certificate.proposal)
      && U32At(b, 117) == |certificate.prepares| && VotesAt(b, 121, certificate.prepares)
    case BlockBytes(raw, round) =>
      |b| == 5 + |raw| && U32At(b, 0) == |raw| && b[4..4 + |raw|] == raw && b[4 + |raw|] as nat == round
  }

  // ---------- integers ----------

  /** What is left above the lowest bytes. */
  function Above(value: nat, bytes: nat): nat {
    if bytes == 0 then value else Above(value / 256, bytes - 1)
  }

  lemma {:induction false} LowThenHigh(value: nat, low: nat, high: nat)
    ensures LittleEndian(value, low + high) == LittleEndian(value, low) + LittleEndian(Above(value, low), high)
  {
    if low > 0 {
      LowThenHigh(value / 256, low - 1, high);
    }
  }

  lemma FourBytes(value: nat)
    ensures value == U32At(LittleEndian(value, 4), 0) + 0x1_0000_0000 * Above(value, 4)
  {
    var v1 := value / 256;
    var v2 := v1 / 256;
    var v3 := v2 / 256;
    assert LittleEndian(value, 4) == [(value % 256) as byte] + LittleEndian(v1, 3);
    assert LittleEndian(v1, 3) == [(v1 % 256) as byte] + LittleEndian(v2, 2);
    assert LittleEndian(v2, 2) == [(v2 % 256) as byte] + LittleEndian(v3, 1);
    assert LittleEndian(v3, 1)[0] == (v3 % 256) as byte;
    assert Above(value, 4) == Above(v1, 3) == Above(v2, 2) == Above(v3, 1) == v3 / 256;
  }

  lemma U64Is(value: nat)
    requires value < U64_LIMIT
    ensures U64At(LittleEndian(value, 8), 0) == value
  {
    var high := Above(value, 4);
    LowThenHigh(value, 4, 4);
    FourBytes(value);
    FourBytes(high);
    assert LittleEndian(value, 8)[4..] == LittleEndian(high, 4);
  }

  lemma U32Is(value: nat)
    requires value < U32_LIMIT
    ensures U32At(LittleEndian(value, 4), 0) == value
  {
    FourBytes(value);
  }

  // ---------- moving a part into the whole ----------

  /** What can be read inside a part can be read at its place in the whole. */
  lemma Moved(pre: Bytes, part: Bytes, post: Bytes)
    ensures var b := pre + part + post;
            && (forall i :: 0 <= i < |part| ==> b[|pre| + i] == part[i])
            && (forall i, j :: 0 <= i <= j <= |part| ==> b[|pre| + i..|pre| + j] == part[i..j])
  {
    var b := pre + part + post;
    assert b[|pre|..|pre| + |part|] == part;
    forall i, j | 0 <= i <= j <= |part| ensures b[|pre| + i..|pre| + j] == part[i..j] {
    }
  }

  lemma ViewMoved(pre: Bytes, view: View, post: Bytes)
    requires IsView(view)
    ensures ViewAt(pre + EncodeView(view) + post, |pre|, view)
  {
    U64Is(view.height);
    var b := pre + EncodeView(view) + post;
    assert b[|pre|..|pre| + 8] == LittleEndian(view.height, 8);
    forall i | 0 <= i < 8 ensures b[|pre| + i] == LittleEndian(view.height, 8)[i] {
      assert b[|pre|..|pre| + 8][i] == b[|pre| + i];
    }
  }

  lemma VoteMoved(pre: Bytes, vote: SignedVote, post: Bytes)
    requires IsVote(vote)
    ensures VoteAt(pre + EncodeVote(vote) + post, |pre|, vote)
  {
    var b := pre + EncodeVote(vote) + post;
    ViewMoved(pre, vote.view, vote.digest + vote.signature + post);
    assert b == pre + EncodeView(vote.view) + (vote.digest + vote.signature + post);
  }

  lemma OneMoreVoteAt(b: Bytes, at: nat, votes: seq<SignedVote>)
    requires |votes| > 0 && VoteAt(b, at, votes[0]) && VotesAt(b, at + 106, votes[1..])
    ensures VotesAt(b, at, votes)
  {
    forall i | 0 <= i < |votes| ensures VoteAt(b, at + 106 * i, votes[i]) {
      if i > 0 {
        assert VoteAt(b, at + 106 + 106 * (i - 1), votes[1..][i - 1]);
      }
    }
  }

  lemma {:induction false} VotesMoved(pre: Bytes, votes: seq<SignedVote>)
    requires forall i :: 0 <= i < |votes| ==> IsVote(votes[i])
    ensures VotesAt(pre + EncodeVotes(votes), |pre|, votes)
    decreases |votes|
  {
    if |votes| > 0 {
      var first, rest := EncodeVote(votes[0]), EncodeVotes(votes[1..]);
      assert pre + EncodeVotes(votes) == pre + first + rest;
      VoteMoved(pre, votes[0], rest);
      VotesMoved(pre + first, votes[1..]);
      OneMoreVoteAt(pre + first + rest, |pre|, votes);
    }
  }

  // ---------- the five preimages ----------

  /** Tag, view and option byte. */
  function Head(view: View): (head: Bytes)
    requires IsView(view)
    ensures |head| == 11
  {
    [3] + EncodeView(view) + [1]
  }

  lemma HeadInPlace(view: View, rest: Bytes)
    requires IsView(view)
    ensures var b := Head(view) + rest; b[0] == 3 && ViewAt(b, 1, view) && b[10] == 1
  {
    ViewMoved([3], view, [1] + rest);
    assert Head(view) + rest == [3] + EncodeView(view) + ([1] + rest);
  }

  lemma CountInPlace(pre: Bytes, count: nat, rest: Bytes)
    requires count < U32_LIMIT
    ensures U32At(pre + LittleEndian(count, 4) + rest, |pre|) == count
  {
    U32Is(count);
    Moved(pre, LittleEndian(count, 4), rest);
  }

  lemma CertificateLaidOut(view: View, certificate: WireCertificate)
    requires IsView(view) && IsCertificate(certificate)
    ensures LaidOut(RoundChangeBytes(view, Some(certificate)), Encode(RoundChangeBytes(view, Some(certificate))))
  {
    var b := Encode(RoundChangeBytes(view, Some(certificate)));
    var (head, vote) := (Head(view), EncodeVote(certificate.proposal));
    var (count, votes) := (LittleEndian(|certificate.prepares|, 4), EncodeVotes(certificate.prepares));
    assert b == head + (vote + count + votes);
    HeadInPlace(view, vote + count + votes);
    assert b == head + vote + (count + votes);
    VoteMoved(head, certificate.proposal, count + votes);
    assert b == (head + vote) + count + votes;
    CountInPlace(head + vote, |certificate.prepares|, votes);
    assert b == (head + vote + count) + votes;
    VotesMoved(head + vote + count, certificate.prepares);
  }

  lemma FixedLaidOut(p: Preimage)
    requires Fits(p) && (p.ProposalBytes? || p.PrepareBytes? || p.CommitBytes?)
    ensures LaidOut(p, Encode(p))
  {
    var tag: byte := if p.ProposalBytes? then 0 else if p.PrepareBytes? then 1 else 2;
    var rest := if p.CommitBytes? then p.digest + p.seal else p.digest;
    ViewMoved([tag], p.view, rest);
    var b := [tag] + EncodeView(p.view) + rest;
    assert Encode(p) == b;
    assert b[10..] == rest;
  }

  lemma BlockLaidOut(raw: Bytes, round: nat)
    requires Fits(BlockBytes(raw, round))
    ensures LaidOut(BlockBytes(raw, round), Encode(BlockBytes(raw, round)))
  {
    var count, end := LittleEndian(|raw|, 4), [round as byte];
    var b := count + raw + end;
    U32Is(|raw|);
    assert b[..4] == count && b[4..4 + |raw|] == raw && b[4 + |raw|..] == end;
    assert U32At(b, 0) == U32At(b[..4], 0);
    assert b[4 + |raw|] == end[0];
  }

  /** Every hashed byte string has each field at its place. */
  lemma EncodedInPlace(p: Preimage)
    requires Fits(p)
    ensures LaidOut(p, Encode(p))
  {
    match p
    case ProposalBytes(_, _) => FixedLaidOut(p);
    case PrepareBytes(_, _) => FixedLaidOut(p);
    case CommitBytes(_, _, _) => FixedLaidOut(p);
    case RoundChangeBytes(view, None) => ViewMoved([3], view, [0]);
    case RoundChangeBytes(view, Some(certificate)) => CertificateLaidOut(view, certificate);
    case BlockBytes(raw, round) => BlockLaidOut(raw, round);
  }

  // ---------- the places determine the bytes ----------

  lemma SameU32(b: Bytes, c: Bytes, at: nat)
    requires at + 4 <= |b| && at + 4 <= |c| && U32At(b, at) == U32At(c, at)
    ensures b[at] == c[at] && b[at + 1] == c[at + 1] && b[at + 2] == c[at + 2] && b[at + 3] == c[at + 3]
  {
    var (x, y, z) := (b[at + 1] as nat, b[at + 2] as nat, b[at + 3] as nat);
    var (x', y', z') := (c[at + 1] as nat, c[at + 2] as nat, c[at + 3] as nat);
    LowByte(b[at], x + 256 * (y + 256 * z), c[at], x' + 256 * (y' + 256 * z'));
    LowByte(b[at + 1], y + 256 * z, c[at + 1], y' + 256 * z');
    LowByte(b[at + 2], z, c[at + 2], z');
  }

  lemma LowByte(x: byte, high: nat, x': byte, high': nat)
    requires x as nat + 256 * high == x' as nat + 256 * high'
    ensures x == x' && high == high'
  {
  }

  lemma SameView(b: Bytes, c: Bytes, at: nat, view: View)
    requires ViewAt(b, at, view) && ViewAt(c, at, view)
    ensures forall i :: at <= i < at + 9 ==> b[i] == c[i]
  {
    U32Bound(b, at);
    U32Bound(c, at);
    SameU32(b, c, at);
    SameU32(b, c, at + 4);
  }

  lemma U32Bound(b: Bytes, at: nat)
    requires at + 4 <= |b|
    ensures U32At(b, at) < 0x1_0000_0000
  {
  }

  lemma SameVote(b: Bytes, c: Bytes, at: nat, vote: SignedVote)
    requires VoteAt(b, at, vote) && VoteAt(c, at, vote)
    ensures forall i :: at <= i < at + 106 ==> b[i] == c[i]
  {
    SameView(b, c, at, vote.view);
    forall i | at <= i < at + 106 ensures b[i] == c[i] {
      if at + 9 <= i < at + 41 {
        assert b[at + 9..at + 41][i - (at + 9)] == c[at + 9..at + 41][i - (at + 9)];
      } else if at + 41 <= i {
        assert b[at + 41..at + 106][i - (at + 41)] == c[at + 41..at + 106][i - (at + 41)];
      }
    }
  }

  lemma SameVotes(b: Bytes, c: Bytes, at: nat, votes: seq<SignedVote>)
    requires |b| == |c| == at + 106 * |votes| && VotesAt(b, at, votes) && VotesAt(c, at, votes)
    ensures forall i :: at <= i < |b| ==> b[i] == c[i]
  {
    forall i | at <= i < |b| ensures b[i] == c[i] {
      var k := (i - at) / 106;
      assert VoteAt(b, at + 106 * k, votes[k]) && VoteAt(c, at + 106 * k, votes[k]);
      SameVote(b, c, at + 106 * k, votes[k]);
    }
  }

  lemma SameVoteLayout(p: Preimage, b: Bytes, c: Bytes)
    requires LaidOut(p, b) && LaidOut(p, c) && (p.ProposalBytes? || p.PrepareBytes? || p.CommitBytes?)
    ensures b == c
  {
    SameView(b, c, 1, p.view);
    forall i | 0 <= i < |b| ensures b[i] == c[i] {
      if 10 <= i < 42 {
        assert b[10..42][i - 10] == c[10..42][i - 10];
      } else if 42 <= i {
        assert b[42..107][i - 42] == c[42..107][i - 42];
      }
    }
  }

  lemma SameChangeLayout(p: Preimage, b: Bytes, c: Bytes)
    requires LaidOut(p, b) && LaidOut(p, c) && p.RoundChangeBytes?
    ensures b == c
  {
    SameView(b, c, 1, p.view);
    if p.certificate.Some? {
      SameVote(b, c, 11, p.certificate.value.proposal);
      SameU32(b, c, 117);
      SameVotes(b, c, 121, p.certificate.value.prepares);
    }
    assert forall i :: 0 <= i < |b| ==> b[i] == c[i];
  }

  lemma SameBlockLayout(p: Preimage, b: Bytes, c: Bytes)
    requires LaidOut(p, b) && LaidOut(p, c) && p.BlockBytes?
    ensures b == c
  {
    SameU32(b, c, 0);
    forall i | 0 <= i < |b| ensures b[i] == c[i] {
      if 4 <= i < 4 + |p.raw| {
        assert b[4..4 + |p.raw|][i - 4] == c[4..4 + |p.raw|][i - 4];
      }
    }
  }

  /** A byte string is the hashed one of a message exactly when it holds each field at its place. */
  lemma InPlaceExactly(p: Preimage, b: Bytes)
    requires Fits(p)
    ensures b == Encode(p) <==> LaidOut(p, b)
  {
    EncodedInPlace(p);
    if LaidOut(p, b) {
      if p.BlockBytes? {
        SameBlockLayout(p, b, Encode(p));
      } else if p.RoundChangeBytes? {
        SameChangeLayout(p, b, Encode(p));
      } else {
        SameVoteLayout(p, b, Encode(p));
      }
    }
  }

  // ---------- the fixed buffers ----------

  /** `serialize_to` into a buffer slice: copies the bytes and fails when they do not fit. */
  method Write(buffer: array<byte>, at: nat, bytes: Bytes) returns (next: nat)
    requires at + |bytes| <= buffer.Length
    modifies buffer
    ensures next == at + |bytes|
    ensures buffer[at..next] == bytes
    ensures buffer[..at] == old(buffer[..at]) && buffer[next..] == old(buffer[next..])
  {
    next := at + |bytes|;
    for i := 0 to |bytes|
      invariant buffer[at..at + i] == bytes[..i]
      invariant buffer[..at] == old(buffer[..at]) && buffer[next..] == old(buffer[next..])
    {
      buffer[at + i] := bytes[i];
    }
  }

  /** The buffers of digest_proposal, digest_prepare and digest_commit end up with every field at its place. */
  method FillBuffer(p: Preimage) returns (buffer: array<byte>)
    requires Fits(p) && (p.ProposalBytes? || p.PrepareBytes? || p.CommitBytes?)
    ensures fresh(buffer) && buffer.Length == EncodedLength(p) && buffer[..] == Encode(p)
    ensures LaidOut(p, buffer[..])
  {
    EncodedInPlace(p);
    BuffersAreFilledExactly(p);
    buffer := new byte[EncodedLength(p)](_ => 0);
    var tag: byte := if p.ProposalBytes? then 0 else if p.PrepareBytes? then 1 else 2;
    var at := Write(buffer, 0, [tag]);
    at := Write(buffer, at, EncodeView(p.view));
    assert buffer[..at] == [tag] + EncodeView(p.view);
    at := Write(buffer, at, p.digest);
    assert buffer[..at] == [tag] + EncodeView(p.view) + p.digest;
    if p.CommitBytes? {
      at := Write(buffer, at, p.seal);
      assert buffer[..at] == [tag] + EncodeView(p.view) + p.digest + p.seal;
    }
    assert buffer[..at] == buffer[..];
  }
}

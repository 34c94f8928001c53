/** Quorum arithmetic, lifted to sets of validators. */
module Quorums {
  import opened Types

  lemma Overlap<T>(all: set<T>, a: set<T>, b: set<T>)
    requires a <= all && b <= all
    ensures |a * b| >= |a| + |b| - |all|
  {
    assert |a + b| == |a| + |b| - |a * b|;
    assert all == (a + b) + (all - (a + b));
    assert |all| == |a + b| + |all - (a + b)|;
  }

  /** Two quorums share a member outside any faulty set that is small enough. */
  lemma CommonMember<T>(all: set<T>, faulty: set<T>, a: set<T>, b: set<T>, quorum: nat) returns (x: T)
    requires a <= all && b <= all && |a| >= quorum && |b| >= quorum
    requires 2 * quorum > |all| + |faulty|
    ensures x in a && x in b && x !in faulty
  {
    Overlap(all, a, b);
    assert a * b == (a * b - faulty) + (a * b * faulty);
    assert faulty == (a * b * faulty) + (faulty - a * b * faulty);
    assert |a * b - faulty| > 0;
    x :| x in a * b - faulty;
  }

  /**
   Three quorums, two of them without the quiet members, share a member outside any faulty set that is small enough.
   */
  lemma CommonMemberOfThree<T>(all: set<T>, quiet: set<T>, faulty: set<T>, a: set<T>, b: set<T>, c: set<T>, quorum: nat)
    returns (x: T)
    requires a <= all && b <= all - quiet && c <= all - quiet && quiet <= all
    requires |a| >= quorum && |b| >= quorum && |c| >= quorum
    requires 3 * quorum + |quiet| > 2 * |all| + |faulty|
    ensures x in a && x in b && x in c && x !in faulty
  {
    var loud, a' := all - quiet, a - quiet;
    assert all == loud + quiet && |all| == |loud| + |quiet|;
    assert |a'| >= quorum - |quiet| by {
      assert a == a' + a * quiet && |a| == |a'| + |a * quiet|;
      assert quiet == a * quiet + (quiet - a) && |quiet| == |a * quiet| + |quiet - a|;
    }
    Overlap(loud, a', b);
    Overlap(loud, a' * b, c);
    var common := a' * b * c;
    assert common - faulty != {} by {
      assert common == (common - faulty) + common * faulty && |common| == |common - faulty| + |common * faulty|;
      assert faulty == common * faulty + (faulty - common) && |faulty| == |common * faulty| + |faulty - common|;
    }
    x :| x in common - faulty;
  }

  /** The addresses in a list of recovered signers. */
  function Members(signers: seq<Option<Address>>): (members: set<Address>)
    ensures forall a :: a in members <==> Some(a) in signers
  {
    set x | x in signers && x.Some? :: x.value
  }

  /** Pairwise distinct signers count as many validators as there are signatures. */
  lemma {:induction false} MembersCount(signers: seq<Option<Address>>)
    requires forall i :: 0 <= i < |signers| ==> signers[i].Some?
    requires forall i, j :: 0 <= i < j < |signers| ==> signers[i] != signers[j]
    ensures |Members(signers)| == |signers|
  {
    if |signers| > 0 {
      var rest, last := signers[..|signers| - 1], signers[|signers| - 1];
      MembersCount(rest);
      assert signers == rest + [last];
      assert Members(signers) == Members(rest) + {last.value};
    }
  }
}

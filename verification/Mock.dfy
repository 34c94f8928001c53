/** The one concrete validator manager (sim_tests/mock.rs): rotation by height plus round, quorum 2n/3 + 1. */
module Mocks {
  import opened Types
  import opened Configuration
  import opened Systems
  import opened Agreement

  predicate IsMock(validators: seq<Address>) {
    |validators| > 0 && forall i, j :: 0 <= i < j < |validators| ==> validators[i] != validators[j]
  }

  function MockQuorum(n: nat): nat { n * 2 / 3 + 1 }

  function MockConfig(validators: seq<Address>, verifyBlock: RawBlock -> bool): Config
    requires |validators| > 0
  {
    Config(
      (height: nat) => ValidatorSet(validators),
      (view: View) => validators[(view.height + view.round) % |validators|],
      (height: nat) => MockQuorum(|validators|),
      verifyBlock)
  }

  function ValidatorSet(validators: seq<Address>): set<Address> { set a | a in validators }

  lemma {:induction false} ValidatorCount(validators: seq<Address>)
    requires forall i, j :: 0 <= i < j < |validators| ==> validators[i] != validators[j]
    ensures |ValidatorSet(validators)| == |validators|
  {
    if |validators| > 0 {
      var rest, last := validators[..|validators| - 1], validators[|validators| - 1];
      ValidatorCount(rest);
      assert validators == rest + [last];
      assert ValidatorSet(validators) == ValidatorSet(rest) + {last};
      assert last !in ValidatorSet(rest);
    } else {
      assert ValidatorSet(validators) == {};
    }
  }

  /** With n validators and f = (n - 1) / 3: quorums overlap in more than f, survive f failures, and meet by threes. */
  lemma QuorumRule(n: nat)
    requires n >= 1
    ensures var q, f := MockQuorum(n), (n - 1) / 3;
            1 <= q <= n - f && 2 * q > n + f && 3 * q == 2 * n + Spare(n) && Spare(n) >= 1
  {
    assert n * 2 == 3 * (n * 2 / 3) + n * 2 % 3;
  }

  /** By how much three quorums overlap. */
  function Spare(n: nat): int { 3 - n * 2 % 3 }

  /**
   The rule discharges every assumption of the agreement theorems: within one view for up to (n - 1) / 3
   Byzantine validators, across rounds for one, two or three unreliable ones, depending on n.
   */
  lemma MockMeetsAssumptions(validators: seq<Address>, verifyBlock: RawBlock -> bool, s: State, late: set<Address>)
    requires IsMock(validators)
    ensures var cfg := MockConfig(validators, verifyBlock);
            && WellFormed(cfg)
            && (3 * |Byzantine(cfg, s)| < |validators| ==> QuorumsMeetHonestly(cfg, s))
            && (FewUnreliable(cfg, s, late) <==> |Unreliable(cfg, s, late)| <= Spare(|validators|))
  {
    var cfg := MockConfig(validators, verifyBlock);
    ValidatorCount(validators);
    QuorumRule(|validators|);
    assert cfg.quorum(s.height) == MockQuorum(|validators|);
    assert cfg.validators(s.height) == ValidatorSet(validators);
    forall view: View ensures cfg.proposer(view) in cfg.validators(view.height) {
      assert validators[(view.height + view.round) % |validators|] in validators;
    }
  }

  /** The one round within `start .. start + n` in which the validator at `index` proposes. */
  lemma RotationIsFair(validators: seq<Address>, verifyBlock: RawBlock -> bool, height: nat, start: nat, index: nat)
    returns (round: nat)
    requires IsMock(validators) && index < |validators|
    ensures start <= round < start + |validators|
    ensures forall r :: start <= r < start + |validators| ==>
              (MockConfig(validators, verifyBlock).proposer(View(height, r)) == validators[index] <==> r == round)
  {
    var n := |validators|;
    var now := (height + start) % n;
    round := if index >= now then start + (index - now) else start + (n - now) + index;
    forall r | start <= r < start + n
      ensures MockConfig(validators, verifyBlock).proposer(View(height, r)) == validators[index] <==> r == round
    {
      Shift(height + start, r - start, n);
      var at := (height + r) % n;
      assert at == if now + (r - start) < n then now + (r - start) else now + (r - start) - n;
      assert validators[at] == validators[index] <==> at == index;
    }
  }

  /** The validator after this one in the list, cyclically. */
  function After(validators: seq<Address>, index: nat): Address
    requires index < |validators|
  {
    if index + 1 < |validators| then validators[index + 1] else validators[0]
  }

  /** The first validator starts; each round and each height pass the turn to the next one. */
  lemma TurnsPassOn(validators: seq<Address>, verifyBlock: RawBlock -> bool, height: nat, round: nat)
    returns (index: nat)
    requires IsMock(validators)
    ensures var cfg := MockConfig(validators, verifyBlock);
            && cfg.proposer(View(0, 0)) == validators[0]
            && index < |validators| && cfg.proposer(View(height, round)) == validators[index]
            && cfg.proposer(View(height, round + 1)) == After(validators, index)
            && cfg.proposer(View(height + 1, round)) == After(validators, index)
  {
    index := (height + round) % |validators|;
    if |validators| > 1 {
      Shift(height + round, 1, |validators|);
    }
  }

  lemma Shift(a: nat, d: nat, n: nat)
    requires 0 < n && d < n
    ensures (a + d) % n == if a % n + d < n then a % n + d else a % n + d - n
  {
    var k, m := a / n, a % n;
    assert a == n * k + m;
    if m + d < n {
      assert a + d == n * k + (m + d);
      Remainder(k, m + d, n);
    } else {
      assert a + d == n * (k + 1) + (m + d - n);
      Remainder(k + 1, m + d - n, n);
    }
  }

  lemma Remainder(k: nat, m: nat, n: nat)
    requires m < n
    ensures (n * k + m) % n == m
  {
    var x := n * k + m;
    NoMultipleBetween(n, k - x / n, x % n - m);
  }

  lemma NoMultipleBetween(n: int, d: int, e: int)
    requires n * d == e && -n < e < n
    ensures e == 0
  {
    assert d >= 1 ==> n * d >= n;
    assert d <= -1 ==> n * d <= -n;
  }
}

/** Round timeouts (ibft.rs get_round_timeout): the base time doubled every round, saturating. */
module Timeouts {
  import opened Types

  /** Duration::MAX in nanoseconds: u64::MAX seconds and 999_999_999 nanoseconds. */
  const DURATION_MAX: nat := 0xFFFF_FFFF_FFFF_FFFF * 1_000_000_000 + 999_999_999

  function Pow2(n: nat): nat {
    if n == 0 then 1 else 2 * Pow2(n - 1)
  }

  /** The compile-time table: `1 << i` for every round, each fitting a u32. */
  method MultiplierTable() returns (table: array<nat>)
    ensures fresh(table) && table.Length == ROUND_ARRAY_SIZE
    ensures forall i :: 0 <= i < table.Length ==> table[i] == Pow2(i) && table[i] < 0x1_0000_0000
  {
    table := Shifts(ROUND_ARRAY_SIZE);
    forall j | 0 <= j < table.Length ensures Pow2(j) < 0x1_0000_0000 {
      SmallPowers(j);
    }
  }

  method Shifts(size: nat) returns (table: array<nat>)
    ensures fresh(table) && table.Length == size
    ensures forall i :: 0 <= i < size ==> table[i] == Pow2(i)
  {
    table := new nat[size](_ => 0);
    var shifted := 1;
    for i := 0 to size
      invariant shifted == Pow2(i)
      invariant forall j {:trigger table[j]} :: 0 <= j < i ==> table[j] == Pow2(j)
    {
      table[i] := shifted;
      shifted := 2 * shifted;
    }
  }

  lemma SmallPowers(i: nat)
    requires i < ROUND_ARRAY_SIZE
    ensures Pow2(i) < 0x1_0000_0000
  {
    PowersGrow(i, MAX_ROUND);
    assert Pow2(7) == 128;
    assert Pow2(14) == 16384;
    assert Pow2(21) == 2097152;
  }

  lemma {:induction false} PowersGrow(i: nat, j: nat)
    requires i <= j
    ensures 1 <= Pow2(i) <= Pow2(j)
    decreases j
  {
    if i < j {
      PowersGrow(i, j - 1);
    } else if i > 0 {
      PowersGrow(i - 1, i - 1);
    }
  }

  function Timeout(base: nat, round: nat): nat {
    if base * Pow2(round) > DURATION_MAX then DURATION_MAX else base * Pow2(round)
  }

  /** Time until the timeout of round `round - 1`: all rounds before `round` together. */
  function TotalBefore(base: nat, round: nat): nat {
    if round == 0 then 0 else TotalBefore(base, round - 1) + Timeout(base, round - 1)
  }

  lemma DoublingStep(base: nat, round: nat)
    requires round > 0
    ensures base * Pow2(round) == 2 * (base * Pow2(round - 1))
  {
    assert Pow2(round) == 2 * Pow2(round - 1);
    assert base * (2 * Pow2(round - 1)) == 2 * (base * Pow2(round - 1));
  }

  lemma {:induction false} TotalIsPowers(base: nat, round: nat)
    ensures base * Pow2(round) <= DURATION_MAX ==> TotalBefore(base, round) + base == base * Pow2(round)
    ensures base * Pow2(round) > DURATION_MAX ==> TotalBefore(base, round) + base > DURATION_MAX
  {
    if round > 0 {
      DoublingStep(base, round);
      TotalIsPowers(base, round - 1);
    }
  }

  /** A round lasts exactly one base time longer than all earlier rounds together, unless it saturates. */
  lemma OutlastsAllEarlierRounds(base: nat, round: nat)
    ensures Timeout(base, round) == TotalBefore(base, round) + base <==> base * Pow2(round) <= DURATION_MAX
  {
    TotalIsPowers(base, round);
  }

  const SECOND: nat := 1_000_000_000
  const DAY: nat := 86_400 * SECOND

  lemma LargePowers()
    ensures Pow2(22) == 0x40_0000 && Pow2(64) == 0x1_0000_0000_0000_0000
  {
    assert Pow2(8) == 0x100;
    assert Pow2(16) == 0x1_0000;
    assert Pow2(22) == 0x40_0000;
    assert Pow2(32) == 0x1_0000_0000;
    assert Pow2(40) == 0x100_0000_0000;
    assert Pow2(48) == 0x1_0000_0000_0000;
    assert Pow2(56) == 0x100_0000_0000_0000;
  }

  /** A timeout is cut off exactly when its seconds no longer fit 64 bits. */
  lemma SaturatesExactly(base: nat, round: nat)
    ensures Timeout(base, round) == base * Pow2(round) <==> base * Pow2(round) < Pow2(64) * SECOND
    ensures Timeout(base, round) < Pow2(64) * SECOND
  {
    LargePowers();
  }

  /** With two seconds for round 0, the rounds of a height run out after 97 days. */
  lemma DeadAfter97Days()
    ensures 97 * DAY <= TotalBefore(2 * SECOND, ROUND_ARRAY_SIZE) < 98 * DAY
  {
    LargePowers();
    TotalIsPowers(2 * SECOND, ROUND_ARRAY_SIZE);
  }
}

/** Arithmetic of the numeric substitution ops: floors, overflow, and how a
    ladder of percentage shares splits a balance. */
module Ladder {
  import opened Prelude
  import opened Types
  import opened Decimal
  import opened Materialize

  const BPS: nat := 10_000

  /** q is the floor of n / d. */
  predicate IsFloor(q: nat, n: nat, d: nat) {
    q <= n && d * q <= n < d * q + d
  }

  /** Exactness of DivU128, with its error cases: it fails on an unreadable value first,
      on a zero denominator next, and else prints the floor. */
  lemma DivIsFloor(saved: Bytes, denominator: u128, reference: string)
    ensures
      var r := ApplySubstitutionOp(saved, DivU128(denominator), reference);
      var n := ParseU128Json(saved);
      && (r == Err(UnparseableSavedResult(reference, "DivU128")) <==> n.None?)
      && (r == Err(InvalidBps(0)) <==> n.Some? && denominator == 0)
      && (r.Ok? <==> n.Some? && denominator != 0)
      && (r.Ok? ==> ParseU128Json(r.value).Some? && IsFloor(ParseU128Json(r.value).value, n.value, denominator))
  {
    hide ParseU128Json, Print, Quote;
    var n := ParseU128Json(saved);
    if n.Some? && denominator != 0 {
      var q := Floor(n.value, denominator);
      PrintReadsBack(q);
    }
  }

  lemma Floor(n: u128, d: u128) returns (q: u128)
    requires d > 0
    ensures q == n / d && IsFloor(q, n, d)
  {
    q := n / d;
    FloorBounds(n, d);
  }

  lemma FloorBounds(n: nat, d: nat)
    requires d > 0
    ensures IsFloor(n / d, n, d)
  {
    var q := n / d;
    assert n == d * q + n % d;
    ProductAtLeast(d, q);
  }

  lemma ProductAtLeast(d: nat, q: nat)
    requires d > 0
    ensures q <= d * q
  {
    var rest := (d - 1) * q;
    assert d * q == rest + q;
  }

  /** Exactness of PercentU128, with its error cases. */
  lemma PercentIsFloor(saved: Bytes, bps: u32, reference: string)
    ensures
      var r := ApplySubstitutionOp(saved, PercentU128(bps), reference);
      var n := ParseU128Json(saved);
      && (r == Err(InvalidBps(bps)) <==> bps > BPS)
      && (bps <= BPS ==>
           && (r == Err(UnparseableSavedResult(reference, "PercentU128")) <==> n.None?)
           && (r == Err(NumericOverflow(reference, "PercentU128")) <==> n.Some? && n.value * bps >= TWO_128)
           && (r.Ok? <==> n.Some? && n.value * bps < TWO_128)
           && (r.Ok? ==>
                var q := ParseU128Json(r.value);
                && q.Some? && q.value <= n.value
                && BPS * q.value <= n.value * bps < BPS * (q.value + 1)))
  {
    hide ParseU128Json, Print, Quote;
    var n := ParseU128Json(saved);
    if bps <= BPS && n.Some? && n.value * bps < TWO_128 {
      var product := Product(n.value, bps);
      assert product <= n.value * BPS;
      PrintReadsBack(product / BPS);
    }
  }

  function Share(n: nat, bps: nat): nat {
    n * bps / BPS
  }

  function SumOf(parts: seq<nat>): nat {
    if parts == [] then 0 else parts[0] + SumOf(parts[1..])
  }

  function Shares(n: nat, ladder: seq<nat>): nat {
    if ladder == [] then 0 else Share(n, ladder[0]) + Shares(n, ladder[1..])
  }

  lemma {:induction false} SharesBounds(n: nat, ladder: seq<nat>)
    ensures BPS * Shares(n, ladder) <= n * SumOf(ladder)
    ensures ladder != [] ==> n * SumOf(ladder) < BPS * (Shares(n, ladder) + |ladder|)
  {
    if ladder != [] {
      SharesBounds(n, ladder[1..]);
      var product := n * ladder[0];
      assert n * SumOf(ladder) == product + n * SumOf(ladder[1..]);
      if ladder[1..] == [] {
        assert SumOf(ladder[1..]) == 0;
      }
    }
  }

  // --- A ladder of PercentU128 steps over one saved value ---

  /** What the outputs of the ladder's steps parse to, if none of them fails. */
  function Paid(saved: Bytes, ladder: seq<u32>, reference: string): Option<seq<u128>> {
    if ladder == [] then Some([])
    else
      var r := ApplySubstitutionOp(saved, PercentU128(ladder[0]), reference);
      var rest := Paid(saved, ladder[1..], reference);
      if r.Err? || ParseU128Json(r.value).None? || rest.None? then None
      else Some([ParseU128Json(r.value).value] + rest.value)
  }

  lemma PercentIsShare(saved: Bytes, bps: u32, reference: string)
    ensures
      var r := ApplySubstitutionOp(saved, PercentU128(bps), reference);
      var n := ParseU128Json(saved);
      && (r.Ok? <==> bps <= BPS && n.Some? && n.value * bps < TWO_128)
      && (r.Ok? ==> ParseU128Json(r.value).Some? && ParseU128Json(r.value).value == Share(n.value, bps))
  {
    hide ApplySubstitutionOp, ParseU128Json;
    PercentIsFloor(saved, bps, reference);
    var r, n := ApplySubstitutionOp(saved, PercentU128(bps), reference), ParseU128Json(saved);
    if r.Ok? {
      FloorUnique(n.value * bps, ParseU128Json(r.value).value);
    }
  }

  lemma FloorUnique(product: nat, q: nat)
    requires BPS * q <= product < BPS * (q + 1)
    ensures q == product / BPS
  {
  }

  lemma {:induction false} PaidIsShares(saved: Bytes, ladder: seq<u32>, reference: string)
    requires ladder != []
    ensures
      var n, paid := ParseU128Json(saved), Paid(saved, ladder, reference);
      && (paid.Some? <==> n.Some? && forall i | 0 <= i < |ladder| :: ladder[i] <= BPS && Product(n.value, ladder[i]) < TWO_128)
      && (paid.Some? ==> |paid.value| == |ladder| && SumOf(paid.value) == Shares(n.value, ladder))
    decreases |ladder|
  {
    hide ApplySubstitutionOp, ParseU128Json, Share;
    var n, rest := ParseU128Json(saved), ladder[1..];
    PercentIsShare(saved, ladder[0], reference);
    if rest == [] {
      assert Paid(saved, rest, reference) == Some([]);
    } else {
      PaidIsShares(saved, rest, reference);
      assert forall i | 0 < i < |ladder| :: ladder[i] == rest[i - 1];
    }
    var paid := Paid(saved, ladder, reference);
    if paid.Some? {
      assert paid.value[1..] == Paid(saved, rest, reference).value;
    }
  }

  lemma {:induction false} RungsWithinSum(ladder: seq<u32>, i: nat)
    requires i < |ladder|
    ensures ladder[i] <= SumOf(ladder)
    decreases |ladder|
  {
    if i > 0 {
      RungsWithinSum(ladder[1..], i - 1);
    }
  }

  /** A ladder of percentage steps over one saved value, its rungs totalling 100%: all
      steps go through exactly if the value is readable and no rung's product overflows,
      and what they print then adds up to at most the value and strands less than one
      unit per rung. */
  lemma LadderSplitsBalance(saved: Bytes, ladder: seq<u32>, reference: string)
    requires SumOf(ladder) == BPS
    ensures
      var n, paid := ParseU128Json(saved), Paid(saved, ladder, reference);
      && (paid.Some? <==> n.Some? && forall i | 0 <= i < |ladder| :: Product(n.value, ladder[i]) < TWO_128)
      && (paid.Some? ==>
            |paid.value| == |ladder| && SumOf(paid.value) <= n.value && n.value - SumOf(paid.value) < |ladder|)
  {
    hide ParseU128Json, Paid;
    forall i | 0 <= i < |ladder|
      ensures ladder[i] <= BPS
    {
      RungsWithinSum(ladder, i);
    }
    PaidIsShares(saved, ladder, reference);
    var n := ParseU128Json(saved);
    if n.Some? {
      SharesBounds(n.value, ladder);
      assert n.value * SumOf(ladder) == n.value * BPS;
    }
  }
}

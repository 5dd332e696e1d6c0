/** The three-way range decision of a pre-dispatch gate. */
module PreGates {
  import opened Prelude
  import opened Types
  import opened Decimal

  datatype PreGateOutcome = InRange | BelowMin | AboveMax | ComparisonError

  /** Byte strings in lexicographic order; a proper prefix comes first. */
  predicate LexLess(a: Bytes, b: Bytes) {
    if b == "" then false
    else if a == "" then true
    else a[0] < b[0] || (a[0] == b[0] && LexLess(a[1..], b[1..]))
  }

  function ParseNumber(bytes: Bytes, comparison: ComparisonKind): Option<int> {
    match comparison
    case U128Json => (var n := ParseU128Json(bytes); if n.Some? then Some(n.value) else None)
    case I128Json => ParseI128Json(bytes)
    case LexBytes => None
  }

  function EvaluatePreGate(actual: Bytes, minBytes: Option<Bytes>, maxBytes: Option<Bytes>,
                           comparison: ComparisonKind): PreGateOutcome
  {
    if comparison == LexBytes then
      if minBytes.Some? && LexLess(actual, minBytes.value) then BelowMin
      else if maxBytes.Some? && LexLess(maxBytes.value, actual) then AboveMax
      else InRange
    else
      var a := ParseNumber(actual, comparison);
      if a.None? then ComparisonError
      else
        var low := if minBytes.Some? then ParseNumber(minBytes.value, comparison) else None;
        if minBytes.Some? && low.None? then ComparisonError
        else if minBytes.Some? && a.value < low.value then BelowMin
        else
          var high := if maxBytes.Some? then ParseNumber(maxBytes.value, comparison) else None;
          if maxBytes.Some? && high.None? then ComparisonError
          else if maxBytes.Some? && high.value < a.value then AboveMax
          else InRange
  }

  // --- A reference reading: an order on the values the bytes denote ---

  /** What the bytes denote under a comparison kind, if anything. */
  datatype Meaning = Number(n: int) | Text(s: Bytes) | Unreadable

  function MeaningOf(bytes: Bytes, comparison: ComparisonKind): Meaning {
    if comparison == LexBytes then Text(bytes)
    else if ParseNumber(bytes, comparison).Some? then Number(ParseNumber(bytes, comparison).value)
    else Unreadable
  }

  predicate AtMost(a: Meaning, b: Meaning) {
    match (a, b)
    case (Number(m), Number(n)) => m <= n
    case (Text(s), Text(t)) => s == t || LexLess(s, t)
    case _ => false
  }

  lemma {:induction false} LexTotal(a: Bytes, b: Bytes)
    ensures LexLess(a, b) || a == b || LexLess(b, a)
    ensures LexLess(a, b) ==> a != b && !LexLess(b, a)
  {
    if a != "" && b != "" && a[0] == b[0] {
      LexTotal(a[1..], b[1..]);
      assert a == [a[0]] + a[1..] && b == [b[0]] + b[1..];
    }
  }

  lemma {:induction false} LexTransitive(a: Bytes, b: Bytes, c: Bytes)
    requires LexLess(a, b) && LexLess(b, c)
    ensures LexLess(a, c)
  {
    if a != "" && a[0] == b[0] == c[0] {
      LexTransitive(a[1..], b[1..], c[1..]);
    }
  }

  /** A gate lets the step through iff the reply denotes a value between the
      denotations of whichever bounds are present. */
  lemma InRangeIff(actual: Bytes, minBytes: Option<Bytes>, maxBytes: Option<Bytes>, comparison: ComparisonKind)
    ensures EvaluatePreGate(actual, minBytes, maxBytes, comparison) == InRange <==>
            var a := MeaningOf(actual, comparison);
            && !a.Unreadable?
            && (minBytes.Some? ==> AtMost(MeaningOf(minBytes.value, comparison), a))
            && (maxBytes.Some? ==> AtMost(a, MeaningOf(maxBytes.value, comparison)))
  {
    if minBytes.Some? {
      LexTotal(actual, minBytes.value);
    }
    if maxBytes.Some? {
      LexTotal(actual, maxBytes.value);
    }
  }

  /** The other outcomes: an unreadable reply is always an error; the lower bound
      is judged before the upper one is even read. */
  lemma RejectedIff(actual: Bytes, minBytes: Option<Bytes>, maxBytes: Option<Bytes>, comparison: ComparisonKind)
    ensures
      var outcome := EvaluatePreGate(actual, minBytes, maxBytes, comparison);
      var a := MeaningOf(actual, comparison);
      var low := if minBytes.Some? then MeaningOf(minBytes.value, comparison) else a;
      var high := if maxBytes.Some? then MeaningOf(maxBytes.value, comparison) else a;
      && (outcome == BelowMin <==> !a.Unreadable? && !low.Unreadable? && !AtMost(low, a))
      && (outcome == AboveMax <==> AtMost(low, a) && !high.Unreadable? && !AtMost(a, high))
      && (outcome == ComparisonError <==> a.Unreadable? || low.Unreadable? || (AtMost(low, a) && high.Unreadable?))
  {
    if minBytes.Some? {
      LexTotal(actual, minBytes.value);
    }
    if maxBytes.Some? {
      LexTotal(actual, maxBytes.value);
    }
  }

  lemma NumberGate(actual: Bytes, low: Bytes, high: Bytes, a: int, l: int, h: int)
    requires ParseNumber(actual, U128Json) == Some(a)
    requires ParseNumber(low, U128Json) == Some(l)
    requires ParseNumber(high, U128Json) == Some(h)
    ensures EvaluatePreGate(actual, Some(low), Some(high), U128Json) ==
            if a < l then BelowMin else if h < a then AboveMax else InRange
  {
  }

  lemma PrintedNumber(n: u128)
    ensures ParseNumber(Quote(Print(n)), U128Json) == Some(n)
  {
    PrintReadsBack(n);
  }

  /** On numbers as contracts print them, the u128 gate is the closed interval test. */
  lemma PrintedNumbers(actual: u128, low: u128, high: u128)
    ensures EvaluatePreGate(Quote(Print(actual)), Some(Quote(Print(low))), Some(Quote(Print(high))), U128Json) ==
            if actual < low then BelowMin else if high < actual then AboveMax else InRange
  {
    PrintedNumber(actual);
    PrintedNumber(low);
    PrintedNumber(high);
    NumberGate(Quote(Print(actual)), Quote(Print(low)), Quote(Print(high)), actual, low, high);
  }

  /** Bytes are compared at the first place where they differ. */
  lemma {:induction false} LexLessIff(a: Bytes, b: Bytes)
    ensures LexLess(a, b) <==>
            exists k :: 0 <= k <= |a| && k < |b| && a[..k] == b[..k] && (k == |a| || a[k] < b[k])
  {
    if a != "" && b != "" && a[0] == b[0] {
      LexLessIff(a[1..], b[1..]);
      assert a == [a[0]] + a[1..] && b == [b[0]] + b[1..];
      if k :| 0 <= k <= |a[1..]| && k < |b[1..]| && a[1..][..k] == b[1..][..k]
              && (k == |a[1..]| || a[1..][k] < b[1..][k]) {
        assert a[..k + 1] == [a[0]] + a[1..][..k] == b[..k + 1];
      }
      if k :| 0 <= k <= |a| && k < |b| && a[..k] == b[..k] && (k == |a| || a[k] < b[k]) {
        assert k > 0;
        assert a[1..][..k - 1] == a[..k][1..] == b[..k][1..] == b[1..][..k - 1];
      }
    } else if b != "" {
      assert a[..0] == b[..0];
    }
  }

  /** A signed number as contracts print it. */
  function PrintSigned(n: int): string {
    if n < 0 then "-" + Print(0 - n) else Print(n)
  }

  lemma SignedNumber(n: int)
    requires 0 - TWO_127 <= n < TWO_127
    ensures MeaningOf(Quote(PrintSigned(n)), I128Json) == Number(n)
  {
    if n < 0 {
      PrintReadsBackSigned(0 - n);
    } else {
      PrintReadsBackSigned(n);
    }
  }

  /** On signed numbers in range the i128 gate is the closed interval test. */
  lemma PrintedSignedNumbers(actual: int, low: int, high: int)
    requires 0 - TWO_127 <= actual < TWO_127 && 0 - TWO_127 <= low < TWO_127 && 0 - TWO_127 <= high < TWO_127
    ensures EvaluatePreGate(Quote(PrintSigned(actual)), Some(Quote(PrintSigned(low))), Some(Quote(PrintSigned(high))),
                            I128Json) ==
            if actual < low then BelowMin else if high < actual then AboveMax else InRange
  {
    hide PrintSigned, Quote, EvaluatePreGate;
    SignedNumber(actual);
    SignedNumber(low);
    SignedNumber(high);
    RejectedIff(Quote(PrintSigned(actual)), Some(Quote(PrintSigned(low))), Some(Quote(PrintSigned(high))), I128Json);
    InRangeIff(Quote(PrintSigned(actual)), Some(Quote(PrintSigned(low))), Some(Quote(PrintSigned(high))), I128Json);
  }
}

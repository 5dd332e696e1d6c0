/** Pairing callback rows of a trace with the data receipts that woke them, and the
    row order the pairing runs on. */
module Correlate {
  import opened Prelude
  import opened PreGates

  datatype RowKind =
    | Action(methodName: Option<string>, receiver: string)
    | Data(dataId: string, isPromiseResume: bool, receiver: string, utf8: Option<string>)

  datatype Row = Row(block: u64, timestamp: u64, receiptId: string, kind: RowKind,
                     resumedBy: Option<string>, resumedUtf8: Option<string>, isYieldResume: bool)

  // --- The rules ---

  const RESUME_METHOD := "on_step_resumed"

  predicate IsCallback(row: Row) {
    row.kind.Action? && row.kind.methodName.Some? && "on_" <= row.kind.methodName.value
  }

  predicate ExpectsResume(row: Row) {
    row.kind.Action? && row.kind.methodName == Some(RESUME_METHOD)
  }

  /** The data row may have woken the callback row. */
  predicate May(callback: Row, data: Row) {
    IsCallback(callback) && data.kind.Data? && data.kind.receiver == callback.kind.receiver && data.block <= callback.block
  }

  /** Strictly preferred: a later block, or the same block and only this one's flag fits. */
  predicate Preferred(callback: Row, data: Row, other: Row)
    requires data.kind.Data? && other.kind.Data?
  {
    || data.block > other.block
    || (data.block == other.block
        && data.kind.isPromiseResume == ExpectsResume(callback) && other.kind.isPromiseResume != ExpectsResume(callback))
  }

  // --- The greedy pairing as a function ---

  /** The data rows among the first n, in row order. */
  function Catalog(rows: seq<Row>, n: nat): (catalog: seq<nat>)
    requires n <= |rows|
    ensures forall j | 0 <= j < |catalog| :: catalog[j] < n && rows[catalog[j]].kind.Data?
    ensures forall d: nat | d < n && rows[d].kind.Data? :: d in catalog
  {
    if n == 0 then []
    else Catalog(rows, n - 1) + (if rows[n - 1].kind.Data? then [n - 1] else [])
  }

  ghost predicate DataIndices(rows: seq<Row>, catalog: seq<nat>) {
    forall j | 0 <= j < |catalog| :: catalog[j] < |rows| && rows[catalog[j]].kind.Data?
  }

  /** The best unclaimed candidate among the first j data rows. */
  function Best(rows: seq<Row>, catalog: seq<nat>, claimed: set<nat>, i: nat, j: nat): (best: Option<nat>)
    requires DataIndices(rows, catalog) && i < |rows| && j <= |catalog|
    ensures best.Some? ==> best.value < |rows| && rows[best.value].kind.Data?
  {
    if j == 0 then None
    else
      var best := Best(rows, catalog, claimed, i, j - 1);
      var d := catalog[j - 1];
      if d !in claimed && May(rows[i], rows[d]) && (best.None? || Preferred(rows[i], rows[d], rows[best.value])) then Some(d)
      else best
  }

  /** The pairing after the first n rows: callback row to data row. */
  function Greedy(rows: seq<Row>, n: nat): map<nat, nat>
    requires n <= |rows|
  {
    if n == 0 then map[]
    else
      var before := Greedy(rows, n - 1);
      var catalog := Catalog(rows, |rows|);
      var best := if IsCallback(rows[n - 1]) then Best(rows, catalog, before.Values, n - 1, |catalog|) else None;
      if best.Some? then before[n - 1 := best.value] else before
  }

  // --- What the pairing leaves in the rows ---

  function MarkCallback(row: Row, data: Row): Row
    requires data.kind.Data?
  {
    row.(resumedBy := Some(data.kind.dataId), resumedUtf8 := data.kind.utf8,
         isYieldResume := row.isYieldResume || (ExpectsResume(row) && data.kind.isPromiseResume))
  }

  function MarkData(row: Row): Row
    requires row.kind.Data?
  {
    row.(resumedBy := Some(row.kind.dataId))
  }

  /** Pairs join callbacks to data rows. */
  ghost predicate WellPaired(rows: seq<Row>, pairs: map<nat, nat>) {
    forall i | i in pairs :: i < |rows| && pairs[i] < |rows| && May(rows[i], rows[pairs[i]])
  }

  function Annotated(rows: seq<Row>, pairs: map<nat, nat>): (marked: seq<Row>)
    requires WellPaired(rows, pairs)
    ensures |marked| == |rows|
  {
    seq(|rows|, i requires 0 <= i < |rows| =>
      if i in pairs then MarkCallback(rows[i], rows[pairs[i]])
      else if i in pairs.Values && rows[i].kind.Data? then MarkData(rows[i])
      else rows[i])
  }

  // --- Facts about the pairing ---

  /** The best candidate is an unclaimed one that nothing unclaimed is preferred to;
      there is none exactly if no data row qualifies. */
  lemma {:induction false} BestIsBest(rows: seq<Row>, catalog: seq<nat>, claimed: set<nat>, i: nat, j: nat)
    requires DataIndices(rows, catalog) && i < |rows| && j <= |catalog|
    ensures
      var best := Best(rows, catalog, claimed, i, j);
      && (best.None? <==> forall m | 0 <= m < j :: catalog[m] in claimed || !May(rows[i], rows[catalog[m]]))
      && (best.Some? ==>
            && best.value in catalog[..j] && best.value !in claimed && May(rows[i], rows[best.value])
            && forall m | 0 <= m < j && catalog[m] !in claimed && May(rows[i], rows[catalog[m]]) ::
                 !Preferred(rows[i], rows[catalog[m]], rows[best.value]))
    decreases j
  {
    if j > 0 {
      BestIsBest(rows, catalog, claimed, i, j - 1);
      assert catalog[..j] == catalog[..j - 1] + [catalog[j - 1]];
    }
  }

  /** Each pair obeys the rules, and no data row is in two of them. */
  ghost predicate PairsObey(rows: seq<Row>, n: nat, pairs: map<nat, nat>)
    requires n <= |rows|
  {
    && (forall i | i in pairs :: i < n && pairs[i] < |rows| && May(rows[i], rows[pairs[i]]))
    && (forall i, i' | i in pairs && i' in pairs && pairs[i] == pairs[i'] :: i == i')
  }

  /** A data row still free was refused by nobody it could have woken: each such
      callback took another row, to which this one was not preferred. */
  ghost predicate FreeIsWorse(rows: seq<Row>, n: nat, pairs: map<nat, nat>, i: nat, d: nat)
    requires n <= |rows| && PairsObey(rows, n, pairs)
  {
    i < n && d < |rows| && May(rows[i], rows[d]) && d !in pairs.Values ==>
      i in pairs && !Preferred(rows[i], rows[d], rows[pairs[i]])
  }

  /** What the greedy choice amounts to, without saying how it is made. */
  ghost predicate GreedyChoice(rows: seq<Row>, n: nat, pairs: map<nat, nat>)
    requires n <= |rows|
  {
    PairsObey(rows, n, pairs) && forall i: nat, d: nat :: FreeIsWorse(rows, n, pairs, i, d)
  }

  lemma {:induction false} GreedyChooses(rows: seq<Row>, n: nat)
    requires n <= |rows|
    ensures GreedyChoice(rows, n, Greedy(rows, n))
  {
    if n == 0 {
    } else {
      hide Greedy, PairsObey, FreeIsWorse;
      GreedyChooses(rows, n - 1);
      PairedOnce(rows, n);
      forall i: nat, d: nat
        ensures FreeIsWorse(rows, n, Greedy(rows, n), i, d)
      {
        NothingBetter(rows, n, i, d);
      }
    }
  }

  lemma NothingBetter(rows: seq<Row>, n: nat, i: nat, d: nat)
    requires 0 < n <= |rows| && GreedyChoice(rows, n - 1, Greedy(rows, n - 1))
    requires PairsObey(rows, n, Greedy(rows, n))
    ensures FreeIsWorse(rows, n, Greedy(rows, n), i, d)
  {
    hide GreedyChoice, Best, Preferred, May, PairsObey;
    var before, pairs := Greedy(rows, n - 1), Greedy(rows, n);
    var catalog := Catalog(rows, |rows|);
    BestIsBest(rows, catalog, before.Values, n - 1, |catalog|);
    forall k | k in before
      ensures before[k] in pairs.Values
    {
      ChosenBefore(rows, n, k);
      assert pairs[k] in pairs.Values;
    }
    if i < n && d < |rows| && May(rows[i], rows[d]) && d !in pairs.Values {
      if i < n - 1 {
        ChoiceAt(rows, n - 1, before, i, d);
        ChosenBefore(rows, n, i);
      } else {
        CallbackOnly(rows[i], rows[d]);
        var m :| 0 <= m < |catalog| && catalog[m] == d;
      }
    }
  }

  lemma CallbackOnly(callback: Row, data: Row)
    requires May(callback, data)
    ensures IsCallback(callback) && data.kind.Data?
  {
  }

  /** Later rows do not undo a pair. */
  lemma ChosenBefore(rows: seq<Row>, n: nat, k: nat)
    requires 0 < n <= |rows| && GreedyChoice(rows, n - 1, Greedy(rows, n - 1)) && k in Greedy(rows, n - 1)
    ensures k in Greedy(rows, n) && Greedy(rows, n)[k] == Greedy(rows, n - 1)[k]
  {
  }

  lemma ChoiceAt(rows: seq<Row>, n: nat, pairs: map<nat, nat>, i: nat, d: nat)
    requires n <= |rows| && GreedyChoice(rows, n, pairs)
    requires i < n && d < |rows| && May(rows[i], rows[d]) && d !in pairs.Values
    ensures i in pairs && pairs[i] < |rows| && rows[pairs[i]].kind.Data? && !Preferred(rows[i], rows[d], rows[pairs[i]])
  {
    assert FreeIsWorse(rows, n, pairs, i, d);
  }

  lemma PairedOnce(rows: seq<Row>, n: nat)
    requires 0 < n <= |rows| && GreedyChoice(rows, n - 1, Greedy(rows, n - 1))
    ensures PairsObey(rows, n, Greedy(rows, n))
  {
    hide FreeIsWorse, Preferred, IsCallback, May, Best, Catalog;
    var before := Greedy(rows, n - 1);
    var catalog := Catalog(rows, |rows|);
    BestIsBest(rows, catalog, before.Values, n - 1, |catalog|);
    forall i | i in before
      ensures before[i] in before.Values
    {
    }
  }

  // --- The pairing is a maximum one ---

  /** Any pairing under the same rules, greedy or not. */
  ghost predicate Pairing(rows: seq<Row>, pairs: map<nat, nat>) {
    WellPaired(rows, pairs) && forall i, i' | i in pairs && i' in pairs && pairs[i] == pairs[i'] :: i == i'
  }

  /** Some data row nobody took could have woken this callback. */
  ghost predicate LeftOver(rows: seq<Row>, pairs: map<nat, nat>, i: nat)
    requires i < |rows|
  {
    exists d: nat :: d < |rows| && May(rows[i], rows[d]) && d !in pairs.Values
  }

  /** Where the callback goes in the greedy pairing: it keeps its own place if some row
      is left over for it, and else takes the place of whoever took its data row. */
  ghost function Place(rows: seq<Row>, pairs: map<nat, nat>, other: map<nat, nat>, i: nat): nat
    requires i in other
  {
    if i < |rows| && LeftOver(rows, pairs, i) then i
    else if other[i] in pairs.Values then TakerOf(pairs, other[i])
    else 0
  }

  ghost function TakerOf(pairs: map<nat, nat>, d: nat): (i: nat)
    requires d in pairs.Values
    ensures i in pairs && pairs[i] == d
  {
    var i :| i in pairs && pairs[i] == d;
    i
  }

  lemma PlaceIsTaken(rows: seq<Row>, pairs: map<nat, nat>, other: map<nat, nat>, i: nat)
    requires GreedyChoice(rows, |rows|, pairs) && Pairing(rows, other) && i in other
    ensures Place(rows, pairs, other, i) in pairs
    ensures !LeftOver(rows, pairs, i) ==> other[i] in pairs.Values
  {
    if !LeftOver(rows, pairs, i) {
      assert May(rows[i], rows[other[i]]);
    } else {
      var d: nat :| d < |rows| && May(rows[i], rows[d]) && d !in pairs.Values;
      ChoiceAt(rows, |rows|, pairs, i, d);
    }
  }

  lemma PlacesDiffer(rows: seq<Row>, pairs: map<nat, nat>, other: map<nat, nat>, i: nat, i': nat)
    requires GreedyChoice(rows, |rows|, pairs) && Pairing(rows, other) && i in other && i' in other
    requires Place(rows, pairs, other, i) == Place(rows, pairs, other, i')
    ensures i == i'
  {
    PlaceIsTaken(rows, pairs, other, i);
    PlaceIsTaken(rows, pairs, other, i');
    if LeftOver(rows, pairs, i) && !LeftOver(rows, pairs, i') {
      MixedPlaces(rows, pairs, other, i, i');
    } else if !LeftOver(rows, pairs, i) && LeftOver(rows, pairs, i') {
      MixedPlaces(rows, pairs, other, i', i);
    }
  }

  /** A callback with a row left over never took a row from one without. */
  lemma MixedPlaces(rows: seq<Row>, pairs: map<nat, nat>, other: map<nat, nat>, i: nat, i': nat)
    requires GreedyChoice(rows, |rows|, pairs) && Pairing(rows, other) && i in other && i' in other
    requires LeftOver(rows, pairs, i) && !LeftOver(rows, pairs, i')
    ensures Place(rows, pairs, other, i) != Place(rows, pairs, other, i')
  {
    PlaceIsTaken(rows, pairs, other, i');
    var d: nat :| d < |rows| && May(rows[i], rows[d]) && d !in pairs.Values;
    ChoiceAt(rows, |rows|, pairs, i, d);
    assert rows[d].block <= rows[pairs[i]].block;
    if TakerOf(pairs, other[i']) == i {
      assert May(rows[i'], rows[d]);
    }
  }

  lemma {:induction false} InjectionBound(f: map<nat, nat>, target: set<nat>)
    requires forall i | i in f :: f[i] in target
    requires forall i, i' | i in f && i' in f && f[i] == f[i'] :: i == i'
    ensures |f| <= |target|
    decreases |f|
  {
    if f != map[] {
      var i :| i in f;
      var rest := f - {i};
      assert f == rest[i := f[i]];
      InjectionBound(rest, target - {f[i]});
    }
  }

  ghost function Places(rows: seq<Row>, pairs: map<nat, nat>, other: map<nat, nat>): map<nat, nat> {
    map i | i in other :: Place(rows, pairs, other, i)
  }

  lemma PlacesInject(rows: seq<Row>, pairs: map<nat, nat>, other: map<nat, nat>)
    requires GreedyChoice(rows, |rows|, pairs) && Pairing(rows, other)
    ensures |other| <= |pairs|
  {
    hide GreedyChoice, Pairing, Place;
    var f := Places(rows, pairs, other);
    forall i | i in f
      ensures f[i] in pairs.Keys
    {
      PlaceIsTaken(rows, pairs, other, i);
    }
    forall i, i' | i in f && i' in f && f[i] == f[i']
      ensures i == i'
    {
      PlacesDiffer(rows, pairs, other, i, i');
    }
    InjectionBound(f, pairs.Keys);
    assert f.Keys == other.Keys;
  }

  /** Whatever the order of the rows, no pairing that respects receivers and blocks
      and uses every data row at most once pairs more callbacks than the greedy one. */
  lemma GreedyIsMaximum(rows: seq<Row>, other: map<nat, nat>)
    requires Pairing(rows, other)
    ensures |other| <= |Greedy(rows, |rows|)|
  {
    GreedyChooses(rows, |rows|);
    PlacesInject(rows, Greedy(rows, |rows|), other);
  }

  /** The greedy pairing is one of the pairings it is compared with. */
  lemma GreedyIsPairing(rows: seq<Row>)
    ensures Pairing(rows, Greedy(rows, |rows|))
  {
    GreedyChooses(rows, |rows|);
  }

  // --- The choice in the trace's own terms ---

  /** The rules a pair obeys: an `on_` callback and a data receipt for the same receiver,
      no later than the callback. */
  predicate CouldWake(callback: Row, data: Row) {
    && callback.kind.Action? && callback.kind.methodName.Some?
    && |callback.kind.methodName.value| >= 3 && callback.kind.methodName.value[..3] == "on_"
    && data.kind.Data? && callback.kind.receiver == data.kind.receiver && !(callback.block < data.block)
  }

  /** A promise resume is looked for by `on_step_resumed`, plain data by the others. */
  predicate FlagFits(callback: Row, data: Row) {
    callback.kind.Action? && data.kind.Data? &&
    (data.kind.isPromiseResume <==> callback.kind.methodName == Some("on_step_resumed"))
  }

  /** No callback above row i was paired with data row d. */
  ghost predicate FreeAt(pairs: map<nat, nat>, i: nat, d: nat) {
    forall k | k in pairs && k < i :: pairs[k] != d
  }

  /** Row d is no worse a partner for the callback than row e: of a later block, or of the
      same block with the better flag, or of the same block, equally flagged and first. */
  predicate NoWorse(rows: seq<Row>, i: nat, d: nat, e: nat)
    requires i < |rows| && d < |rows| && e < |rows|
  {
    var dFits, eFits := FlagFits(rows[i], rows[d]), FlagFits(rows[i], rows[e]);
    || rows[e].block < rows[d].block
    || (rows[e].block == rows[d].block && dFits && !eFits)
    || (rows[e].block == rows[d].block && dFits == eFits && d <= e)
  }

  lemma {:induction false} CatalogAscends(rows: seq<Row>, n: nat)
    requires n <= |rows|
    ensures forall j, k | 0 <= j < k < |Catalog(rows, n)| :: Catalog(rows, n)[j] < Catalog(rows, n)[k]
  {
    if n > 0 {
      CatalogAscends(rows, n - 1);
    }
  }

  lemma CouldIsMay(callback: Row, data: Row)
    ensures CouldWake(callback, data) <==> May(callback, data)
  {
  }

  lemma PreferredIsBetter(rows: seq<Row>, i: nat, d: nat, e: nat)
    requires i < |rows| && d < |rows| && e < |rows| && rows[i].kind.Action? && rows[d].kind.Data? && rows[e].kind.Data?
    ensures Preferred(rows[i], rows[e], rows[d]) ==> NoWorse(rows, i, e, d) && !NoWorse(rows, i, d, e)
    ensures !Preferred(rows[i], rows[e], rows[d]) && d <= e ==> NoWorse(rows, i, d, e)
  {
  }

  lemma NoWorseOrders(rows: seq<Row>, i: nat, d: nat, e: nat, f: nat)
    requires i < |rows| && d < |rows| && e < |rows| && f < |rows|
    requires NoWorse(rows, i, d, e) && NoWorse(rows, i, e, f)
    ensures NoWorse(rows, i, d, f)
  {
  }

  /** The best candidate is no worse than any other. */
  lemma {:induction false} BestNoWorse(rows: seq<Row>, catalog: seq<nat>, claimed: set<nat>, i: nat, j: nat, m: nat)
    requires DataIndices(rows, catalog) && i < |rows| && m < j <= |catalog|
    requires forall a, b | 0 <= a < b < |catalog| :: catalog[a] < catalog[b]
    requires catalog[m] !in claimed && May(rows[i], rows[catalog[m]])
    ensures
      var best := Best(rows, catalog, claimed, i, j);
      best.Some? && May(rows[i], rows[best.value]) && NoWorse(rows, i, best.value, catalog[m])
    decreases j
  {
    hide Preferred, NoWorse;
    var before, d := Best(rows, catalog, claimed, i, j - 1), catalog[j - 1];
    BestIsBest(rows, catalog, claimed, i, j - 1);
    if m < j - 1 {
      BestNoWorse(rows, catalog, claimed, i, j - 1, m);
      CallbackOnly(rows[i], rows[before.value]);
      PreferredIsBetter(rows, i, before.value, d);
      if Preferred(rows[i], rows[d], rows[before.value]) {
        NoWorseOrders(rows, i, d, before.value, catalog[m]);
      }
    } else if before.Some? {
      var k :| 0 <= k < j - 1 && catalog[k] == before.value;
      PreferredIsBetter(rows, i, before.value, d);
      NoWorseItself(rows, i, d);
    } else {
      NoWorseItself(rows, i, d);
    }
  }

  lemma NoWorseItself(rows: seq<Row>, i: nat, d: nat)
    requires i < |rows| && d < |rows|
    ensures NoWorse(rows, i, d, d)
  {
  }

  lemma {:induction false} GreedyGrows(rows: seq<Row>, n: nat, m: nat)
    requires n <= m <= |rows|
    ensures forall k :: k in Greedy(rows, n) <==> k in Greedy(rows, m) && k < n
    ensures forall k | k in Greedy(rows, n) :: Greedy(rows, m)[k] == Greedy(rows, n)[k]
    decreases m
  {
    GreedyChooses(rows, n);
    if n < m {
      GreedyGrows(rows, n, m - 1);
    }
  }

  lemma FreeIsUnclaimed(rows: seq<Row>, i: nat, d: nat)
    requires i < |rows|
    ensures FreeAt(Greedy(rows, |rows|), i, d) <==> d !in Greedy(rows, i).Values
  {
    hide Greedy;
    GreedyGrows(rows, i, |rows|);
    var before := Greedy(rows, i);
    if d in before.Values {
      var k :| k in before && before[k] == d;
      assert k in Greedy(rows, |rows|);
    }
    forall k | k in before
      ensures before[k] in before.Values
    {
    }
  }

  lemma ChoiceOf(rows: seq<Row>, i: nat)
    requires i < |rows|
    ensures
      var catalog := Catalog(rows, |rows|);
      var best := if IsCallback(rows[i]) then Best(rows, catalog, Greedy(rows, i).Values, i, |catalog|) else None;
      && (i in Greedy(rows, |rows|) <==> best.Some?)
      && (best.Some? ==> Greedy(rows, |rows|)[i] == best.value)
  {
    GreedyChooses(rows, i);
    GreedyGrows(rows, i + 1, |rows|);
  }

  /** Rows are served from the top. A callback is left unpaired exactly if no data row
      that could have woken it is still free; otherwise it takes, of those, one of the
      latest block, in that block one with the flag it looks for if there is one, and
      the first of these. */
  lemma PairingChoice(rows: seq<Row>, i: nat, e: nat)
    requires i < |rows|
    ensures
      var pairs := Greedy(rows, |rows|);
      && (i in pairs ==> pairs[i] < |rows| && CouldWake(rows[i], rows[pairs[i]]) && FreeAt(pairs, i, pairs[i]))
      && (e < |rows| && CouldWake(rows[i], rows[e]) && FreeAt(pairs, i, e) ==>
            i in pairs && NoWorse(rows, i, pairs[i], e))
  {
    hide Greedy, Best, May, CouldWake, Preferred, NoWorse, FreeAt, IsCallback;
    var catalog, before := Catalog(rows, |rows|), Greedy(rows, i);
    CatalogAscends(rows, |rows|);
    ChoiceOf(rows, i);
    BestIsBest(rows, catalog, before.Values, i, |catalog|);
    if i in Greedy(rows, |rows|) {
      var d := Greedy(rows, |rows|)[i];
      CouldIsMay(rows[i], rows[d]);
      FreeIsUnclaimed(rows, i, d);
    }
    if e < |rows| && CouldWake(rows[i], rows[e]) && FreeAt(Greedy(rows, |rows|), i, e) {
      CouldIsMay(rows[i], rows[e]);
      CallbackOnly(rows[i], rows[e]);
      FreeIsUnclaimed(rows, i, e);
      var m :| 0 <= m < |catalog| && catalog[m] == e;
      BestNoWorse(rows, catalog, before.Values, i, |catalog|, m);
    }
  }

  /** What a row says in the end: a paired callback the id and the text of its data row,
      and that it is a yield's resumption exactly if `on_step_resumed` was woken by a
      promise resume; a data row in a pair its own id; every other row what it said. */
  lemma MarkedRows(rows: seq<Row>, i: nat)
    requires i < |rows|
    ensures
      var pairs := Greedy(rows, |rows|);
      WellPaired(rows, pairs) &&
      var row, marked := rows[i], Annotated(rows, pairs)[i];
      && (i in pairs ==>
            && rows[pairs[i]].kind.Data?
            && marked.resumedBy == Some(rows[pairs[i]].kind.dataId) && marked.resumedUtf8 == rows[pairs[i]].kind.utf8)
      && (i !in pairs && i in pairs.Values ==>
            row.kind.Data? && marked.resumedBy == Some(row.kind.dataId) && marked.resumedUtf8 == row.resumedUtf8)
      && (i !in pairs && i !in pairs.Values ==> marked.resumedBy == row.resumedBy && marked.resumedUtf8 == row.resumedUtf8)
      && (marked.isYieldResume <==> row.isYieldResume || ResumesYield(rows, pairs, i))
      && marked == row.(resumedBy := marked.resumedBy, resumedUtf8 := marked.resumedUtf8,
                        isYieldResume := marked.isYieldResume)
  {
    hide Greedy;
    GreedyChooses(rows, |rows|);
  }

  /** The row is `on_step_resumed`, paired with a promise resume. */
  predicate ResumesYield(rows: seq<Row>, pairs: map<nat, nat>, i: nat) {
    && i < |rows| && i in pairs && pairs[i] < |rows|
    && rows[i].kind.Action? && rows[i].kind.methodName == Some("on_step_resumed")
    && rows[pairs[i]].kind.Data? && rows[pairs[i]].kind.isPromiseResume
  }

  // --- The loop ---

  lemma PairValues(pairs: map<nat, nat>, i: nat, d: nat)
    requires i !in pairs
    ensures pairs[i := d].Values == pairs.Values + {d}
  {
    forall v | v in pairs.Values
      ensures v in pairs[i := d].Values
    {
      var k :| k in pairs && pairs[k] == v;
      assert k in pairs[i := d] && pairs[i := d][k] == v;
    }
    assert i in pairs[i := d] && pairs[i := d][i] == d;
  }

  lemma AnnotatedStep(rows: seq<Row>, pairs: map<nat, nat>, i: nat, d: nat)
    requires WellPaired(rows, pairs) && i < |rows| && d < |rows| && May(rows[i], rows[d])
    requires i !in pairs && d !in pairs.Values
    ensures WellPaired(rows, pairs[i := d])
    ensures
      var marked := Annotated(rows, pairs);
      && marked[i] == rows[i] && marked[d] == rows[d]
      && Annotated(rows, pairs[i := d]) == marked[d := MarkData(rows[d])][i := MarkCallback(rows[i], rows[d])]
  {
    var marked := Annotated(rows, pairs);
    PairValues(pairs, i, d);
    forall k | k in pairs
      ensures pairs[k] != i
    {
      assert rows[pairs[k]].kind.Data?;
    }
  }

  /** Rows differ from the original at most in their annotations. */
  ghost predicate SameContent(row: Row, was: Row) {
    row.kind == was.kind && row.block == was.block
  }

  /** The pairing after one more row. */
  lemma GreedyNext(rows: seq<Row>, i: nat, best: Option<nat>)
    requires i < |rows|
    requires
      var catalog := Catalog(rows, |rows|);
      best == if IsCallback(rows[i]) then Best(rows, catalog, Greedy(rows, i).Values, i, |catalog|) else None
    ensures Greedy(rows, i + 1) == if best.Some? then Greedy(rows, i)[i := best.value] else Greedy(rows, i)
    ensures WellPaired(rows, Greedy(rows, i)) && i !in Greedy(rows, i)
    ensures best.Some? ==> best.value < |rows| && May(rows[i], rows[best.value]) && best.value !in Greedy(rows, i).Values
  {
    GreedyChooses(rows, i);
    BestIsBest(rows, Catalog(rows, |rows|), Greedy(rows, i).Values, i, |Catalog(rows, |rows|)|);
  }

  lemma AnnotatedContent(rows: seq<Row>, pairs: map<nat, nat>)
    requires WellPaired(rows, pairs)
    ensures forall k | 0 <= k < |rows| :: SameContent(Annotated(rows, pairs)[k], rows[k])
  {
  }

  lemma SameKind(row: Row, was: Row)
    requires SameContent(row, was)
    ensures IsCallback(row) == IsCallback(was)
  {
  }

  lemma MayData(callback: Row, data: Row)
    requires May(callback, data)
    ensures data.kind.Data?
  {
  }

  lemma AnnotatedNothing(rows: seq<Row>)
    ensures Greedy(rows, 0) == map[] && WellPaired(rows, map[]) && Annotated(rows, map[]) == rows
  {
  }

  method DataRows(rows: array<Row>) returns (catalog: seq<nat>)
    ensures catalog == Catalog(rows[..], rows.Length)
  {
    catalog := [];
    for idx := 0 to rows.Length
      invariant catalog == Catalog(rows[..], idx)
    {
      if rows[idx].kind.Data? {
        catalog := catalog + [idx];
      }
    }
  }

  /** Write one pair into the rows. */
  method Claim(rows: array<Row>, i: nat, d: nat)
    requires i < rows.Length && d < rows.Length && rows[d].kind.Data?
    modifies rows
    ensures rows[..] == old(rows[..])[d := MarkData(old(rows[d]))][i := MarkCallback(old(rows[i]), old(rows[d]))]
  {
    var row, data := rows[i], rows[d];
    rows[d] := MarkData(data);
    rows[i] := MarkCallback(row, data);
  }

  /** The in-place loop over the rows. */
  method CorrelateResumes(rows: array<Row>)
    modifies rows
    ensures
      var was := old(rows[..]);
      && WellPaired(was, Greedy(was, |was|))
      && rows[..] == Annotated(was, Greedy(was, |was|))
      && ((forall i | 0 <= i < |was| :: !was[i].isYieldResume) ==>
            forall i | 0 <= i < |was| :: rows[i].isYieldResume <==> ResumesYield(was, Greedy(was, |was|), i))
  {
    hide ResumesYield, Best, Annotated, WellPaired, May, MarkCallback, MarkData, IsCallback, Greedy, Catalog;
    var n := rows.Length;
    ghost var was := rows[..];
    var catalog := DataRows(rows);
    var claimed: set<nat> := {};
    AnnotatedNothing(was);
    for i := 0 to n
      invariant WellPaired(was, Greedy(was, i))
      invariant claimed == Greedy(was, i).Values
      invariant rows[..] == Annotated(was, Greedy(was, i))
    {
      ghost var pairs := Greedy(was, i);
      AnnotatedContent(was, pairs);
      var row := rows[i];
      assert row == rows[..][i];
      SameKind(row, was[i]);
      var best: Option<nat> := None;
      if IsCallback(row) {
        best := FindBest(rows, catalog, claimed, i, was);
      }
      GreedyNext(was, i, best);
      if best.Some? {
        var d := best.value;
        AnnotatedStep(was, pairs, i, d);
        PairValues(pairs, i, d);
        assert rows[..][d] == was[d] && rows[..][i] == was[i];
        MayData(was[i], was[d]);
        claimed := claimed + {d};
        Claim(rows, i, d);
      }
    }
    forall i | 0 <= i < n
      ensures rows[i].isYieldResume <==> was[i].isYieldResume || ResumesYield(was, Greedy(was, n), i)
    {
      MarkedRows(was, i);
      assert rows[..][i] == rows[i];
    }
  }

  method FindBest(rows: array<Row>, catalog: seq<nat>, claimed: set<nat>, i: nat, ghost was: seq<Row>)
    returns (best: Option<nat>)
    requires rows.Length == |was| && i < |was| && DataIndices(was, catalog)
    requires forall k | 0 <= k < rows.Length :: SameContent(rows[k], was[k])
    ensures best == Best(was, catalog, claimed, i, |catalog|)
  {
    best := None;
    for j := 0 to |catalog|
      invariant best == Best(was, catalog, claimed, i, j)
    {
      var d := catalog[j];
      assert SameContent(rows[d], was[d]) && SameContent(rows[i], was[i]);
      if d !in claimed && May(rows[i], rows[d]) {
        if best.None? || Preferred(rows[i], rows[d], rows[best.value]) {
          best := Some(d);
        }
      }
    }
  }

  // --- The row order ---

  /** By block, then timestamp, then receipt id. */
  predicate RowLe(a: Row, b: Row) {
    || a.block < b.block
    || (a.block == b.block && a.timestamp < b.timestamp)
    || (a.block == b.block && a.timestamp == b.timestamp && !LexLess(b.receiptId, a.receiptId))
  }

  predicate SameKey(a: Row, b: Row) {
    RowLe(a, b) && RowLe(b, a)
  }

  /** Insert a row behind every row it does not precede. */
  function Insert(sorted: seq<Row>, row: Row): seq<Row> {
    if sorted == [] || RowLe(sorted[|sorted| - 1], row) then sorted + [row]
    else Insert(sorted[..|sorted| - 1], row) + [sorted[|sorted| - 1]]
  }

  /** A stable sort, standing for the library's. */
  function SortRows(rows: seq<Row>): seq<Row> {
    if rows == [] then [] else Insert(SortRows(rows[..|rows| - 1]), rows[|rows| - 1])
  }

  ghost predicate Sorted(rows: seq<Row>) {
    forall i, j | 0 <= i < j < |rows| :: RowLe(rows[i], rows[j])
  }

  function WithKey(rows: seq<Row>, key: Row): seq<Row> {
    if rows == [] then []
    else WithKey(rows[..|rows| - 1], key) + (if SameKey(rows[|rows| - 1], key) then [rows[|rows| - 1]] else [])
  }

  lemma RowLeOrder(a: Row, b: Row, c: Row)
    ensures RowLe(a, b) || RowLe(b, a)
    ensures RowLe(a, b) && RowLe(b, c) ==> RowLe(a, c)
    ensures SameKey(a, b) ==> a.receiptId == b.receiptId
  {
    LexTotal(a.receiptId, b.receiptId);
    LexTotal(b.receiptId, c.receiptId);
    LexTotal(a.receiptId, c.receiptId);
    if LexLess(c.receiptId, a.receiptId) {
      if LexLess(a.receiptId, b.receiptId) {
        LexTransitive(c.receiptId, a.receiptId, b.receiptId);
      }
    }
  }

  lemma {:induction false} InsertSorts(sorted: seq<Row>, row: Row)
    requires Sorted(sorted)
    ensures Sorted(Insert(sorted, row)) && multiset(Insert(sorted, row)) == multiset(sorted) + multiset{row}
  {
    hide RowLe;
    var r := Insert(sorted, row);
    if sorted == [] {
    } else if RowLe(sorted[|sorted| - 1], row) {
      forall i | 0 <= i < |sorted|
        ensures RowLe(sorted[i], row)
      {
        RowLeOrder(sorted[i], sorted[|sorted| - 1], row);
      }
    } else {
      var last := sorted[|sorted| - 1];
      var front := sorted[..|sorted| - 1];
      assert sorted == front + [last];
      InsertSorts(front, row);
      RowLeOrder(row, last, last);
      var inner := Insert(front, row);
      forall i | 0 <= i < |inner|
        ensures RowLe(inner[i], last)
      {
        assert inner[i] in multiset(inner);
        assert inner[i] in front || inner[i] == row;
      }
    }
  }

  lemma {:induction false} SortSorts(rows: seq<Row>)
    ensures Sorted(SortRows(rows)) && multiset(SortRows(rows)) == multiset(rows)
  {
    if rows != [] {
      SortSorts(rows[..|rows| - 1]);
      InsertSorts(SortRows(rows[..|rows| - 1]), rows[|rows| - 1]);
      assert rows == rows[..|rows| - 1] + [rows[|rows| - 1]];
    }
  }

  /** Read off the sorted rows: blocks never go back, nor timestamps within a block, nor
      receipt ids where both are equal. */
  lemma RowOrder(rows: seq<Row>, i: nat, j: nat)
    requires i < j < |SortRows(rows)|
    ensures
      var a, b := SortRows(rows)[i], SortRows(rows)[j];
      && a.block <= b.block && (a.block == b.block ==> a.timestamp <= b.timestamp)
      && (a.block == b.block && a.timestamp == b.timestamp ==> a.receiptId == b.receiptId || LexLess(a.receiptId, b.receiptId))
  {
    SortSorts(rows);
    var a, b := SortRows(rows)[i], SortRows(rows)[j];
    assert RowLe(a, b);
    LexTotal(a.receiptId, b.receiptId);
  }

  lemma WithKeySnoc(rows: seq<Row>, row: Row, key: Row)
    ensures WithKey(rows + [row], key) == WithKey(rows, key) + (if SameKey(row, key) then [row] else [])
  {
    assert (rows + [row])[..|rows|] == rows;
  }

  lemma {:induction false} InsertStable(sorted: seq<Row>, row: Row, key: Row)
    ensures WithKey(Insert(sorted, row), key) == WithKey(sorted + [row], key)
  {
    hide RowLe, SameKey, WithKey;
    if sorted == [] || RowLe(sorted[|sorted| - 1], row) {
    } else {
      var last := sorted[|sorted| - 1];
      var front := sorted[..|sorted| - 1];
      InsertStable(front, row, key);
      WithKeySnoc(Insert(front, row), last, key);
      WithKeySnoc(front, row, key);
      WithKeySnoc(front, last, key);
      WithKeySnoc(sorted, row, key);
      assert sorted == front + [last];
      KeysDiffer(last, row, key);
    }
  }

  lemma KeysDiffer(a: Row, b: Row, key: Row)
    requires !RowLe(a, b)
    ensures !(SameKey(a, key) && SameKey(b, key))
  {
    RowLeOrder(a, key, b);
  }

  /** Rows with the same key keep their relative order. */
  lemma {:induction false} SortStable(rows: seq<Row>, key: Row)
    ensures WithKey(SortRows(rows), key) == WithKey(rows, key)
  {
    if rows != [] {
      var front, last := rows[..|rows| - 1], rows[|rows| - 1];
      SortStable(front, key);
      InsertStable(SortRows(front), last, key);
      WithKeySnoc(SortRows(front), last, key);
      WithKeySnoc(front, last, key);
      assert rows == front + [last];
    }
  }

  /** What is asked of a stable sort: sorted, and rows with the same key in their order. */
  ghost predicate StablySorted(rows: seq<Row>, sorted: seq<Row>) {
    Sorted(sorted) && forall key :: WithKey(sorted, key) == WithKey(rows, key)
  }

  lemma {:induction false} WithKeyMembers(rows: seq<Row>, key: Row, row: Row)
    ensures row in WithKey(rows, key) <==> row in rows && SameKey(row, key)
    decreases |rows|
  {
    hide SameKey;
    if rows != [] {
      var front, last := rows[..|rows| - 1], rows[|rows| - 1];
      WithKeyMembers(front, key, row);
      assert rows == front + [last];
    }
  }

  lemma LastBelow(a: seq<Row>, b: seq<Row>)
    requires Sorted(b) && a != [] && WithKey(a, a[|a| - 1]) == WithKey(b, a[|a| - 1])
    ensures b != [] && RowLe(a[|a| - 1], b[|b| - 1])
  {
    hide RowLe, WithKey;
    var x := a[|a| - 1];
    RowLeOrder(x, x, x);
    WithKeyMembers(a, x, x);
    WithKeyMembers(b, x, x);
    var i :| 0 <= i < |b| && b[i] == x;
  }

  /** Two stable results end with the same row. */
  lemma StableLast(a: seq<Row>, b: seq<Row>)
    requires Sorted(a) && Sorted(b) && a != [] && forall key :: WithKey(a, key) == WithKey(b, key)
    ensures b != [] && a[|a| - 1] == b[|b| - 1]
  {
    hide RowLe, WithKey, Sorted;
    var x := a[|a| - 1];
    assert WithKey(a, x) == WithKey(b, x);
    LastBelow(a, b);
    var y := b[|b| - 1];
    assert WithKey(a, y) == WithKey(b, y);
    LastBelow(b, a);
    RowLeOrder(x, x, x);
    WithKeyLast(a, x);
    WithKeyLast(b, x);
  }

  lemma WithKeyLast(rows: seq<Row>, key: Row)
    requires rows != [] && SameKey(rows[|rows| - 1], key)
    ensures WithKey(rows, key) != [] && WithKey(rows, key)[|WithKey(rows, key)| - 1] == rows[|rows| - 1]
  {
  }

  lemma WithKeyUnfolds(rows: seq<Row>, key: Row)
    requires rows != []
    ensures WithKey(rows, key) ==
            WithKey(rows[..|rows| - 1], key) + (if SameKey(rows[|rows| - 1], key) then [rows[|rows| - 1]] else [])
  {
  }

  lemma WithKeyFront(a: seq<Row>, b: seq<Row>, key: Row)
    requires a != [] && b != [] && a[|a| - 1] == b[|b| - 1] && WithKey(a, key) == WithKey(b, key)
    ensures WithKey(a[..|a| - 1], key) == WithKey(b[..|b| - 1], key)
  {
    hide SameKey, WithKey;
    WithKeyUnfolds(a, key);
    WithKeyUnfolds(b, key);
    var tail := if SameKey(a[|a| - 1], key) then [a[|a| - 1]] else [];
    var front, front' := WithKey(a[..|a| - 1], key), WithKey(b[..|b| - 1], key);
    assert front == (front + tail)[..|front|] == (front' + tail)[..|front'|];
  }

  lemma SortedFront(a: seq<Row>)
    requires a != [] && Sorted(a)
    ensures Sorted(a[..|a| - 1]) && a == a[..|a| - 1] + [a[|a| - 1]]
  {
    hide RowLe;
    var front := a[..|a| - 1];
    forall i, j | 0 <= i < j < |front|
      ensures RowLe(front[i], front[j])
    {
      assert RowLe(a[i], a[j]);
    }
  }

  lemma {:induction false} StableUnique(a: seq<Row>, b: seq<Row>)
    requires Sorted(a) && Sorted(b) && forall key :: WithKey(a, key) == WithKey(b, key)
    ensures a == b
    decreases |a|
  {
    hide Sorted, WithKey;
    if a == [] {
      if b != [] {
        NothingWithKey(b);
      }
    } else {
      StableLast(a, b);
      SortedFront(a);
      SortedFront(b);
      var front, front' := a[..|a| - 1], b[..|b| - 1];
      forall key
        ensures WithKey(front, key) == WithKey(front', key)
      {
        WithKeyFront(a, b, key);
      }
      StableUnique(front, front');
    }
  }

  lemma NothingWithKey(b: seq<Row>)
    requires b != []
    ensures WithKey([], b[0]) != WithKey(b, b[0])
  {
    RowLeOrder(b[0], b[0], b[0]);
    WithKeyMembers(b, b[0], b[0]);
  }

  /** Any stable sort, the library's included, gives these rows and no others. */
  lemma AnyStableSortAgrees(rows: seq<Row>, sorted: seq<Row>)
    ensures StablySorted(rows, sorted) <==> sorted == SortRows(rows)
  {
    hide Sorted, WithKey;
    SortSorts(rows);
    forall key
      ensures WithKey(SortRows(rows), key) == WithKey(rows, key)
    {
      SortStable(rows, key);
    }
    if StablySorted(rows, sorted) {
      StableUnique(sorted, SortRows(rows));
    }
  }

  /** No two different rows share a receipt id. */
  ghost predicate DistinctReceipts(rows: seq<Row>) {
    forall r, r' | r in rows && r' in rows && r.receiptId == r'.receiptId :: r == r'
  }

  /** Sorted permutations end with the same row. */
  lemma SameLast(a: seq<Row>, b: seq<Row>)
    requires Sorted(a) && Sorted(b) && multiset(a) == multiset(b) && DistinctReceipts(a) && a != []
    ensures |a| == |b| && a[|a| - 1] == b[|b| - 1]
  {
    hide RowLe;
    assert |a| == |multiset(a)| == |multiset(b)| == |b|;
    var n := |a| - 1;
    var x, y := a[n], b[n];
    assert x in multiset(b) && y in multiset(a);
    var i :| 0 <= i <= n && b[i] == x;
    var j :| 0 <= j <= n && a[j] == y;
    RowLeOrder(x, x, x);
    RowLeOrder(x, y, x);
    assert SameKey(x, y);
  }

  lemma FrontOf(a: seq<Row>)
    requires a != [] && Sorted(a) && DistinctReceipts(a)
    ensures
      var front := a[..|a| - 1];
      && Sorted(front) && DistinctReceipts(front)
      && a == front + [a[|a| - 1]] && multiset(a) == multiset(front) + multiset{a[|a| - 1]}
  {
    hide RowLe;
    var front := a[..|a| - 1];
    assert a == front + [a[|a| - 1]];
    forall i, j | 0 <= i < j < |front|
      ensures RowLe(front[i], front[j])
    {
      assert RowLe(a[i], a[j]);
    }
  }

  lemma DistinctCarries(a: seq<Row>, b: seq<Row>)
    requires DistinctReceipts(a) && multiset(a) == multiset(b)
    ensures DistinctReceipts(b)
  {
    forall r | r in b
      ensures r in a
    {
      assert r in multiset(b);
    }
  }

  lemma {:induction false} SortedIsUnique(a: seq<Row>, b: seq<Row>)
    requires Sorted(a) && Sorted(b) && multiset(a) == multiset(b) && DistinctReceipts(a)
    ensures a == b
    decreases |a|
  {
    hide Sorted, DistinctReceipts;
    if a == [] {
      assert |multiset(b)| == |b|;
    } else {
      SameLast(a, b);
      DistinctCarries(a, b);
      FrontOf(a);
      FrontOf(b);
      assert multiset(a[..|a| - 1]) == multiset(a) - multiset{a[|a| - 1]};
      assert multiset(b[..|b| - 1]) == multiset(b) - multiset{b[|b| - 1]};
      SortedIsUnique(a[..|a| - 1], b[..|b| - 1]);
    }
  }

  /** The rows a trace ends up with: sorted, then paired. */
  function TraceRows(rows: seq<Row>): seq<Row>
    requires WellPaired(SortRows(rows), Greedy(SortRows(rows), |SortRows(rows)|))
  {
    Annotated(SortRows(rows), Greedy(SortRows(rows), |SortRows(rows)|))
  }

  /** The trace does not depend on the order in which the rows were fetched. */
  lemma TraceIsDeterministic(rows: seq<Row>, rows': seq<Row>)
    requires multiset(rows) == multiset(rows') && DistinctReceipts(rows)
    ensures WellPaired(SortRows(rows), Greedy(SortRows(rows), |SortRows(rows)|))
    ensures SortRows(rows) == SortRows(rows') && TraceRows(rows) == TraceRows(rows')
  {
    hide Sorted, Greedy, Annotated, WellPaired, DistinctReceipts;
    GreedyIsPairing(SortRows(rows));
    SortSorts(rows);
    SortSorts(rows');
    DistinctCarries(rows, SortRows(rows));
    SortedIsUnique(SortRows(rows), SortRows(rows'));
  }
}

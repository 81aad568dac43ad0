/** How a gap is cut into known_gaps rows, in machine arithmetic and in exact arithmetic. */
module KnownGaps {
  import opened Machine
  import opened Tables

  /** The int chunk counter, from the quotient and remainder: the conversion and the increment can wrap. */
  function ChunkCounter(quotient: int, remainder: int): GoInt {
    var chunks := ToInt(quotient);
    if remainder != 0 then ToInt(chunks + 1) else chunks
  }

  function ChunkCount(start: Slot, end: Slot, inc: Increment): GoInt {
    var total, u := ToSlot(end - start), ToSlot(inc);
    ChunkCounter(total / u, total % u)
  }

  lemma CounterValue(q: nat, r: nat)
    requires q < WORD
    ensures var n := if r == 0 then q else q + 1;
            if n < HALF then ChunkCounter(q, r) == n else ChunkCounter(q, r) <= 0
  {
  }

  /** The i-th row the chunking loop builds. */
  function ChunkRow(start: Slot, end: Slot, inc: Increment, i: nat): Range {
    Range(PlusInt(start, ToInt(i * inc)),
          if i + 1 == ChunkCount(start, end, inc) then end else PlusInt(start, ToInt((i + 1) * inc)))
  }

  /** All rows built for a gap, in order. */
  function ChunkRows(start: Slot, end: Slot, inc: Increment): seq<Range> {
    if ToSlot(end - start) <= ToSlot(inc) then [Range(start, end)]
    else
      var n := ChunkCount(start, end, inc);
      seq(if n < 0 then 0 else n, i requires 0 <= i => ChunkRow(start, end, inc, i))
  }

  // ---- The same rows over unbounded integers ----

  /** How many rows a well-ordered gap needs. */
  function RowsNeeded(start: Slot, end: Slot, u: nat): nat
    requires start <= end && u > 0
  {
    var n := CeilDiv(end - start, u);
    if n == 0 then 1 else n
  }

  function ExactRow(start: Slot, end: int, u: nat, i: nat): (int, int) {
    (start + i * u, if start + (i + 1) * u < end then start + (i + 1) * u else end)
  }

  /** The machine's chunk counter does not wrap. */
  predicate CountFits(start: Slot, end: Slot, inc: Increment) {
    CeilDiv(ToSlot(end - start), ToSlot(inc)) < HALF
  }

  lemma RowsNeededBounds(start: Slot, end: Slot, u: nat)
    requires start <= end && u > 0
    ensures var n := RowsNeeded(start, end, u);
            (n - 1) * u <= end - start <= n * u && (start < end ==> (n - 1) * u < end - start)
  {
    var d := end - start;
    DivBounds(d, u);
    if d > 0 && d / u == 0 {
      assert CeilDiv(d, u) == 1;
    }
  }

  lemma QuotientInWord(d: nat, u: nat)
    requires u > 0 && d < WORD
    ensures 0 <= d / u <= d
  {
    DivBounds(d, u);
    if d / u < 0 { MulMono(d / u + 1, 0, u); }
    MulMono(1, u, d / u);
  }

  /** Inside the gap, the wrapped product and sum come out exact. */
  lemma WrappedSumIsExact(start: Slot, end: Slot, inc: Increment, i: nat)
    requires i * ToSlot(inc) <= end - start
    ensures PlusInt(start, ToInt(i * inc)) == start + i * ToSlot(inc)
  {
    hide PlusInt, ToInt, ToSlot;
    PlusIntIsModular(start, inc, i);
    MulMono(0, i, ToSlot(inc));
    WordRemainder(start + i * ToSlot(inc));
  }

  lemma WordRemainder(x: int)
    requires 0 <= x < WORD
    ensures x % WORD == x
  {
  }

  lemma RowIsExact(start: Slot, end: Slot, inc: Increment, i: nat, n: nat)
    requires start <= end && i < n
    requires n == ChunkCount(start, end, inc)
    requires (n - 1) * ToSlot(inc) <= end - start <= n * ToSlot(inc)
    ensures var r := ChunkRow(start, end, inc, i); (r.start, r.end) == ExactRow(start, end, ToSlot(inc), i)
  {
    hide PlusInt, ToInt, ToSlot, ChunkCount;
    var u := ToSlot(inc);
    assert i * u <= (n - 1) * u by { MulMono(i, n - 1, u); }
    WrappedSumIsExact(start, end, inc, i);
    if i + 1 < n {
      assert (i + 1) * u <= (n - 1) * u by { MulMono(i + 1, n - 1, u); }
      WrappedSumIsExact(start, end, inc, i + 1);
    }
  }

  lemma CounterIsCeil(d: nat, u: nat)
    requires u > 0 && d < WORD && CeilDiv(d, u) < HALF
    ensures ChunkCounter(d / u, d % u) == CeilDiv(d, u)
  {
    QuotientInWord(d, u);
    CounterValue(d / u, d % u);
  }

  lemma SmallGapNeedsOneRow(start: Slot, end: Slot, u: nat)
    requires start <= end && end - start <= u && u > 0
    ensures RowsNeeded(start, end, u) == 1
  {
    var d := end - start;
    if d == u {
      DivUnique(d, u, 1);
    } else {
      DivUnique(d, u, 0);
    }
    DivBounds(d, u);
  }

  lemma CountIsExact(start: Slot, end: Slot, inc: Increment)
    requires start <= end && CountFits(start, end, inc)
    ensures |ChunkRows(start, end, inc)| == RowsNeeded(start, end, ToSlot(inc))
    ensures end - start > ToSlot(inc) ==> ChunkCount(start, end, inc) == RowsNeeded(start, end, ToSlot(inc))
  {
    var d, u := end - start, ToSlot(inc);
    assert u > 0;
    assert ToSlot(end - start) == d;
    if d > u {
      CounterIsCeil(d, u);
      QuotientInWord(d, u);
    } else {
      SmallGapNeedsOneRow(start, end, u);
    }
  }

  /** The rows are the exact ones. */
  ghost predicate AreExact(start: Slot, end: Slot, u: nat, rows: seq<Range>) {
    forall i :: 0 <= i < |rows| ==> (rows[i].start, rows[i].end) == ExactRow(start, end, u, i)
  }

  /** Where the counter fits, every row computed with wrapping products and sums is the exact row. */
  lemma MachineRefinesExact(start: Slot, end: Slot, inc: Increment)
    requires start <= end && CountFits(start, end, inc)
    ensures |ChunkRows(start, end, inc)| == RowsNeeded(start, end, ToSlot(inc))
    ensures AreExact(start, end, ToSlot(inc), ChunkRows(start, end, inc))
  {
    hide CountFits, ChunkCount;
    var u, rows := ToSlot(inc), ChunkRows(start, end, inc);
    CountIsExact(start, end, inc);
    RowsNeededBounds(start, end, u);
    forall i | 0 <= i < |rows| ensures (rows[i].start, rows[i].end) == ExactRow(start, end, u, i) {
      if end - start > u {
        RowIsExact(start, end, inc, i, |rows|);
        assert rows[i] == ChunkRow(start, end, inc, i);
      } else {
        assert rows == [Range(start, end)];
        assert ExactRow(start, end, u, 0) == (start + 0, end);
      }
    }
  }

  /** Where it does not fit, the counter is negative and not one row is recorded. */
  lemma CounterOverflowRecordsNothing(start: Slot, end: Slot, inc: Increment)
    requires !CountFits(start, end, inc)
    ensures ChunkRows(start, end, inc) == []
  {
    var d, u := ToSlot(end - start), ToSlot(inc);
    DivBounds(d, u);
    assert u > 0;
    if d <= u {
      if d == u {
        DivUnique(d, u, 1);
      } else {
        DivUnique(d, u, 0);
      }
      assert false;
    }
    QuotientInWord(d, u);
    CounterValue(d / u, d % u);
  }

  /** A slot lies in the i-th exact row exactly when the quotient says so. */
  lemma InExactRow(start: Slot, end: int, u: nat, i: nat, x: int)
    requires start <= x <= end && u > 0
    ensures var e := ExactRow(start, end, u, i); var d := x - start;
            e.0 <= x <= e.1 <==> (i == d / u || (d % u == 0 && i + 1 == d / u))
  {
    var d := x - start;
    DivBounds(d, u);
    var q := d / u;
    if i < q {
      MulMono(i + 1, q, u);
      if i + 1 < q {
        assert (i + 2) * u == (i + 1) * u + u;
        MulMono(i + 2, q, u);
      }
    } else if i > q {
      MulMono(q + 1, i, u);
    }
  }

  /** How many of the rows hold the slot. */
  function TimesHeld(rows: seq<Range>, x: Slot): nat {
    if rows == [] then 0
    else TimesHeld(rows[..|rows| - 1], x) + if Holds(rows[|rows| - 1], x) then 1 else 0
  }

  ghost predicate Reached(rows: seq<Range>, x: Slot) {
    exists i :: 0 <= i < |rows| && Holds(rows[i], x)
  }

  lemma {:induction false} TimesHeldPositive(rows: seq<Range>, x: Slot)
    ensures TimesHeld(rows, x) > 0 <==> Reached(rows, x)
  {
    if rows != [] {
      var front := rows[..|rows| - 1];
      TimesHeldPositive(front, x);
      if Reached(rows, x) {
        var i :| 0 <= i < |rows| && Holds(rows[i], x);
        assert i < |front| ==> Holds(front[i], x);
      }
      if i :| 0 <= i < |front| && Holds(front[i], x) {
        assert Holds(rows[i], x);
      }
    }
  }

  /** The slot is an end shared by two neighbouring rows. */
  predicate SharedBoundary(start: Slot, end: Slot, u: nat, x: Slot)
    requires u > 0
  {
    start < x < end && (x - start) % u == 0
  }

  lemma {:induction false} HeldByPrefix(start: Slot, end: Slot, u: nat, rows: seq<Range>, x: Slot)
    requires start <= x <= end && u > 0
    requires AreExact(start, end, u, rows)
    ensures var q := (x - start) / u;
            TimesHeld(rows, x) == (if q < |rows| then 1 else 0)
                                  + (if (x - start) % u == 0 && 1 <= q <= |rows| then 1 else 0)
  {
    DivBounds(x - start, u);
    assert (x - start) / u >= 0 by {
      if (x - start) / u < 0 { MulMono((x - start) / u + 1, 0, u); }
    }
    if rows != [] {
      var m := |rows| - 1;
      HeldByPrefix(start, end, u, rows[..m], x);
      InExactRow(start, end, u, m, x);
      assert (rows[m].start, rows[m].end) == ExactRow(start, end, u, m);
    }
  }

  /** Outside the gap no exact row reaches. */
  lemma {:induction false} NotHeldOutside(start: Slot, end: Slot, u: nat, rows: seq<Range>, x: Slot)
    requires start <= end && u > 0 && !(start <= x <= end)
    requires AreExact(start, end, u, rows)
    ensures TimesHeld(rows, x) == 0
  {
    if rows != [] {
      var m := |rows| - 1;
      NotHeldOutside(start, end, u, rows[..m], x);
      MulMono(0, m, u);
      assert (rows[m].start, rows[m].end) == ExactRow(start, end, u, m);
    }
  }

  /** The number of rows holding a slot of the gap. */
  lemma BoundaryCount(start: Slot, end: Slot, u: nat, rows: seq<Range>, x: Slot)
    requires start <= x <= end && u > 0 && |rows| == RowsNeeded(start, end, u)
    requires AreExact(start, end, u, rows)
    ensures TimesHeld(rows, x) == if SharedBoundary(start, end, u, x) then 2 else 1
  {
    var n, d := |rows|, x - start;
    HeldByPrefix(start, end, u, rows, x);
    RowsNeededBounds(start, end, u);
    DivBounds(d, u);
    QuotientInWord(d, u);
    QuotientAgainstCount(d, end - start, u, n);
  }

  lemma QuotientAgainstCount(d: nat, total: nat, u: nat, n: nat)
    requires d <= total && u > 0 && n > 0
    requires (n - 1) * u <= total <= n * u && (total > 0 ==> (n - 1) * u < total)
    ensures d / u <= n
    ensures d / u == n ==> d == total && d % u == 0
    ensures d / u < n && d % u == 0 && d == total ==> d == 0
    ensures d / u == 0 && d % u == 0 ==> d == 0
  {
    DivBounds(d, u);
    var q := d / u;
    if q >= n {
      MulMono(n, q, u);
      if q > n { MulMono(n + 1, q, u); }
    } else {
      MulMono(q, n - 1, u);
    }
  }

  lemma ExactRowsAscend(start: Slot, end: Slot, u: nat, rows: seq<Range>, i: nat, j: nat)
    requires start <= end && u > 0 && |rows| == RowsNeeded(start, end, u)
    requires AreExact(start, end, u, rows)
    requires i < j < |rows|
    ensures rows[i].start < rows[j].start && rows[i].end < rows[j].end
  {
    RowsNeededBounds(start, end, u);
    assert (rows[i].start, rows[i].end) == ExactRow(start, end, u, i);
    assert (rows[j].start, rows[j].end) == ExactRow(start, end, u, j);
    assert (i + 1) * u == i * u + u;
    assert (j + 1) * u == j * u + u;
    MulMono(i + 1, j, u);
    MulMono(i + 1, |rows| - 1, u);
  }

  lemma ExactRowSpan(start: Slot, end: Slot, u: nat, rows: seq<Range>, i: nat)
    requires start <= end && u > 0 && |rows| == RowsNeeded(start, end, u)
    requires AreExact(start, end, u, rows)
    requires i < |rows|
    ensures rows[i].start <= rows[i].end <= rows[i].start + u
  {
    RowsNeededBounds(start, end, u);
    assert (rows[i].start, rows[i].end) == ExactRow(start, end, u, i);
    assert (i + 1) * u == i * u + u;
    MulMono(i, |rows| - 1, u);
  }

  /**
   Exact coverage: the rows hold precisely the gap's slots, a slot shared by two neighbours twice and
   every other slot once; each spans at most the increment; and they strictly ascend.
   */
  lemma ChunkRowsCoverExactly(start: Slot, end: Slot, inc: Increment)
    requires start <= end && CountFits(start, end, inc)
    ensures forall x: Slot :: TimesHeld(ChunkRows(start, end, inc), x) ==
                              if !(start <= x <= end) then 0
                              else if SharedBoundary(start, end, ToSlot(inc), x) then 2 else 1
    ensures var rows := ChunkRows(start, end, inc);
            forall i :: 0 <= i < |rows| ==> rows[i].start <= rows[i].end <= rows[i].start + ToSlot(inc)
    ensures var rows := ChunkRows(start, end, inc);
            forall i, j :: 0 <= i < j < |rows| ==> rows[i].start < rows[j].start && rows[i].end < rows[j].end
  {
    var u, rows := ToSlot(inc), ChunkRows(start, end, inc);
    assert u > 0;
    MachineRefinesExact(start, end, inc);
    forall x: Slot
      ensures TimesHeld(rows, x) == if !(start <= x <= end) then 0
                                    else if SharedBoundary(start, end, u, x) then 2 else 1
    {
      if start <= x <= end {
        BoundaryCount(start, end, u, rows, x);
      } else {
        NotHeldOutside(start, end, u, rows, x);
      }
    }
    forall i | 0 <= i < |rows| ensures rows[i].start <= rows[i].end <= rows[i].start + u {
      ExactRowSpan(start, end, u, rows, i);
    }
    forall i, j | 0 <= i < j < |rows| ensures rows[i].start < rows[j].start && rows[i].end < rows[j].end {
      ExactRowsAscend(start, end, u, rows, i, j);
    }
  }

  /** The rows of a well-ordered gap reach each of its slots exactly when the chunk counter fits. */
  lemma GapRecordedIffCountFits(start: Slot, end: Slot, inc: Increment)
    requires start <= end
    ensures (forall x: Slot :: Reached(ChunkRows(start, end, inc), x) <==> start <= x <= end)
            <==> CountFits(start, end, inc)
  {
    var rows := ChunkRows(start, end, inc);
    if CountFits(start, end, inc) {
      ChunkRowsCoverExactly(start, end, inc);
      forall x: Slot ensures Reached(rows, x) <==> start <= x <= end {
        TimesHeldPositive(rows, x);
      }
    } else {
      CounterOverflowRecordsNothing(start, end, inc);
      assert !Reached(rows, start);
    }
  }

  // ---- Gaps whose start lies beyond their end ----

  /** The slots from the start round to the end, past the last slot: how far apart they are. */
  function Around(start: Slot, end: Slot): int {
    end - start + WORD
  }

  lemma OnceAround(start: Slot, end: Slot)
    ensures ToSlot(end + WORD) == end
    ensures end < start ==> ToSlot(end - start) == Around(start, end)
  {
    ModAbsorbs(end, 1);
  }

  lemma WrappedCount(start: Slot, end: Slot, inc: Increment)
    requires end < start && ToSlot(inc) < Around(start, end) && CountFits(start, end, inc)
    ensures var n, u, total := ChunkCount(start, end, inc), ToSlot(inc), Around(start, end);
            n == |ChunkRows(start, end, inc)| && n >= 2 && (n - 1) * u < total <= n * u
  {
    var u, total := ToSlot(inc), Around(start, end);
    assert ToSlot(end - start) == total;
    CounterIsCeil(total, u);
    DivBounds(total, u);
    QuotientInWord(total, u);
    if CeilDiv(total, u) < 2 { MulMono(CeilDiv(total, u), 1, u); }
  }

  lemma RowAt(start: Slot, end: Slot, inc: Increment, i: nat)
    requires ToSlot(inc) < ToSlot(end - start) && i < |ChunkRows(start, end, inc)|
    ensures var row := ChunkRows(start, end, inc)[i];
            && row.start == ToSlot(start + i * ToSlot(inc))
            && row.end == if i + 1 == |ChunkRows(start, end, inc)| then end else ToSlot(start + (i + 1) * ToSlot(inc))
  {
    hide PlusInt, ToInt;
    PlusIntIsModular(start, inc, i);
    PlusIntIsModular(start, inc, i + 1);
    assert ChunkRows(start, end, inc)[i] == ChunkRow(start, end, inc, i);
  }

  lemma WrappedRow(start: Slot, end: Slot, inc: Increment, i: nat)
    requires end < start && ToSlot(inc) < Around(start, end) && CountFits(start, end, inc)
    requires i < |ChunkRows(start, end, inc)|
    ensures var row, e := ChunkRows(start, end, inc)[i], ExactRow(start, end + WORD, ToSlot(inc), i);
            row.start == ToSlot(e.0) && row.end == ToSlot(e.1)
  {
    hide ChunkRows, CountFits, ToSlot, ChunkCount;
    var u, n := ToSlot(inc), |ChunkRows(start, end, inc)|;
    OnceAround(start, end);
    WrappedCount(start, end, inc);
    RowAt(start, end, inc, i);
    if i + 1 < n { MulMono(i + 1, n - 1, u); }
  }

  /** The row that straddles the last slot ends before it starts and holds nothing. */
  lemma WrappedRowHolds(start: Slot, end: Slot, inc: Increment, i: nat, x: Slot)
    requires end < start && ToSlot(inc) < Around(start, end) && CountFits(start, end, inc)
    requires i < |ChunkRows(start, end, inc)|
    ensures var e := ExactRow(start, end + WORD, ToSlot(inc), i);
            Holds(ChunkRows(start, end, inc)[i], x) <==>
            (e.0 <= x <= e.1 < WORD) || (WORD <= e.0 <= x + WORD <= e.1)
  {
    var u, n := ToSlot(inc), |ChunkRows(start, end, inc)|;
    WrappedCount(start, end, inc);
    WrappedRow(start, end, inc, i);
    MulMono(0, i, u);
    MulMono(i, n - 1, u);
    assert (i + 1) * u == i * u + u;
    WordOf(start + i * u);
    WordOf(if start + (i + 1) * u < end + WORD then start + (i + 1) * u else end + WORD);
  }

  lemma WordOf(x: int)
    requires 0 <= x < 2 * WORD
    ensures ToSlot(x) == if x < WORD then x else x - WORD
  {
    if x >= WORD { ModAbsorbs(x - WORD, 1); }
  }

  /** How many whole rows fit between the start and the last slot. */
  function RowsBeforeWrap(start: Slot, inc: Increment): int {
    (WORD - 1 - start) / ToSlot(inc)
  }

  /** What the rows of such a gap hold: the whole rows before the wrap, and those after the row that straddles it. */
  predicate InWrappedGap(start: Slot, end: Slot, inc: Increment, x: Slot) {
    var u, k := ToSlot(inc), RowsBeforeWrap(start, inc);
    var low := start + (k + 1) * u - WORD;
    (k > 0 && start <= x <= start + k * u) || (low < end && low <= x <= end)
  }

  lemma RowsBeforeWrapBounds(start: Slot, inc: Increment, i: nat)
    ensures var u, k := ToSlot(inc), RowsBeforeWrap(start, inc);
            && 0 <= k && start + k * u < WORD <= start + (k + 1) * u
            && (i < k ==> start + (i + 1) * u <= start + k * u)
            && (i == k ==> start + i * u < WORD <= start + (i + 1) * u)
            && (i > k ==> start + (k + 1) * u <= start + i * u)
  {
    var u, k := ToSlot(inc), RowsBeforeWrap(start, inc);
    assert u > 0;
    DivBounds(WORD - 1 - start, u);
    QuotientInWord(WORD - 1 - start, u);
    if i < k { MulMono(i + 1, k, u); }
    if i > k { MulMono(k + 1, i, u); }
  }

  lemma HeldIsInWrappedGap(start: Slot, end: Slot, inc: Increment, i: nat, x: Slot)
    requires end < start && ToSlot(inc) < Around(start, end) && CountFits(start, end, inc)
    requires i < |ChunkRows(start, end, inc)| && Holds(ChunkRows(start, end, inc)[i], x)
    ensures InWrappedGap(start, end, inc, x)
  {
    var u, n := ToSlot(inc), |ChunkRows(start, end, inc)|;
    WrappedCount(start, end, inc);
    WrappedRowHolds(start, end, inc, i, x);
    RowsBeforeWrapBounds(start, inc, i);
    MulMono(0, i, u);
    MulMono(i, n - 1, u);
  }

  lemma QuotientInRange(d: int, u: nat, low: nat, high: nat)
    requires u > 0 && low < high && low * u <= d <= high * u
    ensures low <= d / u <= high && (d / u == high ==> d == high * u && d % u == 0)
  {
    DivBounds(d, u);
    if d / u < low { MulMono(d / u + 1, low, u); }
    if d / u > high { MulMono(high + 1, d / u, u); }
  }

  /** An exact row that holds the position, among those from low up to high. */
  lemma RowAround(start: Slot, end: int, u: nat, low: nat, high: nat, y: int) returns (i: nat)
    requires u > 0 && low < high && start + low * u <= y <= start + high * u && start <= y <= end
    ensures low <= i < high && ExactRow(start, end, u, i).0 <= y <= ExactRow(start, end, u, i).1
  {
    var d := y - start;
    QuotientInRange(d, u, low, high);
    i := if d / u == high then high - 1 else d / u;
    InExactRow(start, end, u, i, y);
  }

  lemma LessTimes(a: nat, b: nat, u: nat)
    requires a * u < b * u
    ensures a < b
  {
    if b <= a { MulMono(b, a, u); }
  }

  lemma HighSlotIsHeld(start: Slot, end: Slot, inc: Increment, x: Slot)
    requires end < start && ToSlot(inc) < Around(start, end) && CountFits(start, end, inc)
    requires var k := RowsBeforeWrap(start, inc); k > 0 && start <= x <= start + k * ToSlot(inc)
    ensures Reached(ChunkRows(start, end, inc), x)
  {
    var u, n := ToSlot(inc), |ChunkRows(start, end, inc)|;
    var k := RowsBeforeWrap(start, inc);
    WrappedCount(start, end, inc);
    RowsBeforeWrapBounds(start, inc, 0);
    LessTimes(k, n, u);
    var i := RowAround(start, end + WORD, u, 0, k, x);
    RowsBeforeWrapBounds(start, inc, i);
    WrappedRowHolds(start, end, inc, i, x);
    assert Holds(ChunkRows(start, end, inc)[i], x);
  }

  lemma LowSlotIsHeld(start: Slot, end: Slot, inc: Increment, x: Slot)
    requires end < start && ToSlot(inc) < Around(start, end) && CountFits(start, end, inc)
    requires var low := start + (RowsBeforeWrap(start, inc) + 1) * ToSlot(inc) - WORD; low < end && low <= x <= end
    ensures Reached(ChunkRows(start, end, inc), x)
  {
    var u, n := ToSlot(inc), |ChunkRows(start, end, inc)|;
    var k := RowsBeforeWrap(start, inc);
    WrappedCount(start, end, inc);
    RowsBeforeWrapBounds(start, inc, 0);
    LessTimes(k + 1, n, u);
    var i := RowAround(start, end + WORD, u, k + 1, n, x + WORD);
    RowsBeforeWrapBounds(start, inc, i);
    WrappedRowHolds(start, end, inc, i, x);
    assert Holds(ChunkRows(start, end, inc)[i], x);
  }

  /** Exactly what a gap whose start lies beyond its end records, if it takes more than one row and its counter fits. */
  lemma WrappedGapReaches(start: Slot, end: Slot, inc: Increment, x: Slot)
    requires end < start && ToSlot(inc) < Around(start, end) && CountFits(start, end, inc)
    ensures Reached(ChunkRows(start, end, inc), x) <==> InWrappedGap(start, end, inc, x)
  {
    if Reached(ChunkRows(start, end, inc), x) {
      var i :| 0 <= i < |ChunkRows(start, end, inc)| && Holds(ChunkRows(start, end, inc)[i], x);
      HeldIsInWrappedGap(start, end, inc, i, x);
    }
    var u := ToSlot(inc);
    var k := RowsBeforeWrap(start, inc);
    if InWrappedGap(start, end, inc, x) {
      if k > 0 && start <= x <= start + k * u {
        HighSlotIsHeld(start, end, inc, x);
      } else {
        LowSlotIsHeld(start, end, inc, x);
      }
    }
  }

  /** It reaches from its start up to one increment from the last slot. */
  lemma WrappedGapGoesUp(start: Slot, end: Slot, inc: Increment, x: Slot)
    requires start <= x && x + ToSlot(inc) < WORD
    ensures InWrappedGap(start, end, inc, x)
  {
    hide RowsBeforeWrap, ToSlot;
    RowsBeforeWrapBounds(start, inc, 0);
    assert (RowsBeforeWrap(start, inc) + 1) * ToSlot(inc) == RowsBeforeWrap(start, inc) * ToSlot(inc) + ToSlot(inc);
  }

  /** Such a gap records something at all exactly when it takes more than one row and the chunk counter fits. */
  lemma WrappedGapRecordsIff(start: Slot, end: Slot, inc: Increment)
    requires end < start
    ensures (exists x: Slot :: Reached(ChunkRows(start, end, inc), x)) <==>
            ToSlot(inc) < Around(start, end) && CountFits(start, end, inc)
  {
    var u := ToSlot(inc);
    assert ToSlot(end - start) == Around(start, end);
    if !CountFits(start, end, inc) {
      CounterOverflowRecordsNothing(start, end, inc);
    } else if u < Around(start, end) {
      RowsBeforeWrapBounds(start, inc, 0);
      var k := RowsBeforeWrap(start, inc);
      var x: Slot := if k > 0 then start else end;
      assert k == 0 ==> (k + 1) * u == u;
      assert k > 0 ==> start <= start + k * u by { if k > 0 { MulMono(0, k, u); } }
      WrappedGapReaches(start, end, inc, x);
    } else {
      assert ChunkRows(start, end, inc) == [Range(start, end)];
    }
  }

  /** The overflow is real: an increment of one over the whole slot range. */
  lemma CounterCanOverflow()
    ensures ChunkRows(0, WORD - 1, 1) == []
  {
    CounterOverflowRecordsNothing(0, WORD - 1, 1);
  }

  /** An increment of three or more never overflows the counter. */
  lemma CountFitsFromThree(start: Slot, end: Slot, inc: Increment)
    requires start <= end && ToSlot(inc) >= 3
    ensures CountFits(start, end, inc)
  {
    var d, u := end - start, ToSlot(inc);
    DivBounds(d, u);
    QuotientInWord(d, u);
    MulMono(3, u, d / u);
  }

  // ---- Writing the rows ----

  /** Upsert the rows one after another; rows already present stay as they are. */
  function InsertGaps(w: Work, rows: seq<Range>, row: WorkRow): Work {
    if rows == [] then w
    else InsertMissing(InsertGaps(w, rows[..|rows| - 1], row), rows[|rows| - 1], row)
  }

  lemma OneMoreRow(w: Work, front: seq<Range>, last: Range, row: WorkRow)
    ensures InsertMissing((map k | k in front :: row) + w, last, row) == (map k | k in front + [last] :: row) + w
  {
    assert forall k :: k in front + [last] <==> k in front || k == last;
  }

  lemma {:induction false} InsertGapsIsUnion(w: Work, rows: seq<Range>, row: WorkRow)
    ensures InsertGaps(w, rows, row) == (map k | k in rows :: row) + w
  {
    if rows == [] {
      assert (map k | k in rows :: row) + w == w;
    } else {
      var front, last := rows[..|rows| - 1], rows[|rows| - 1];
      InsertGapsIsUnion(w, front, row);
      OneMoreRow(w, front, last, row);
      assert rows == front + [last];
    }
  }

  /** Upserting rows covers what they reach and uncovers nothing. */
  lemma InsertGapsReaches(w: Work, rows: seq<Range>, row: WorkRow, x: Slot)
    ensures Covered(InsertGaps(w, rows, row), x) <==> Covered(w, x) || Reached(rows, x)
    ensures RowsKept(w, InsertGaps(w, rows, row))
  {
    InsertGapsIsUnion(w, rows, row);
    var after := InsertGaps(w, rows, row);
    assert forall k :: k in after <==> k in w || k in rows;
    if Covered(w, x) {
      var k :| k in w && Holds(k, x);
      assert k in after;
    }
    if Reached(rows, x) {
      var i :| 0 <= i < |rows| && Holds(rows[i], x);
      assert rows[i] in after;
    }
    if Covered(after, x) && !Covered(w, x) {
      var k :| k in after && Holds(k, x);
      var i :| 0 <= i < |rows| && rows[i] == k;
      assert Holds(rows[i], x);
    }
  }

  /** Recording a gap whose counter fits adds exactly the gap's slots to what is covered. */
  lemma RecordedGapCovers(w: Work, start: Slot, end: Slot, inc: Increment, row: WorkRow)
    requires start <= end && CountFits(start, end, inc)
    ensures forall x: Slot :: Covered(InsertGaps(w, ChunkRows(start, end, inc), row), x)
                              <==> Covered(w, x) || start <= x <= end
  {
    GapRecordedIffCountFits(start, end, inc);
    forall x: Slot ensures Covered(InsertGaps(w, ChunkRows(start, end, inc), row), x)
                           <==> Covered(w, x) || start <= x <= end
    {
      InsertGapsReaches(w, ChunkRows(start, end, inc), row, x);
    }
  }

  lemma UnfittingGapAddsNothing(w: Work, start: Slot, end: Slot, inc: Increment, row: WorkRow)
    requires !CountFits(start, end, inc)
    ensures InsertGaps(w, ChunkRows(start, end, inc), row) == w
  {
    CounterOverflowRecordsNothing(start, end, inc);
  }

  lemma GapReachesSlot(w: Work, start: Slot, end: Slot, inc: Increment, row: WorkRow, x: Slot)
    requires start <= x <= end && CountFits(start, end, inc)
    ensures Covered(InsertGaps(w, ChunkRows(start, end, inc), row), x)
  {
    RecordedGapCovers(w, start, end, inc, row);
  }

  /** A one-slot gap is always exactly one row, whatever the increment. */
  lemma SingleSlotGap(w: Work, s: Slot, inc: Increment, row: WorkRow)
    ensures ChunkRows(s, s, inc) == [Range(s, s)]
    ensures InsertGaps(w, ChunkRows(s, s, inc), row) == InsertMissing(w, Range(s, s), row)
  {
    var rows := [Range(s, s)];
    assert rows[..0] == [];
    assert InsertGaps(w, [], row) == w;
  }
}

/** The gap between the highest stored slot and the first head, recorded at every start. */
module StartUpGap {
  import opened Machine
  import opened Tables
  import opened KnownGaps

  ghost function Maximum(s: set<Slot>): (m: Slot)
    ensures forall x :: x in s ==> x <= m
    ensures m == 0 || m in s
    decreases |s|
  {
    if s == {} then 0
    else
      var x :| x in s;
      var m := Maximum(s - {x});
      assert s == (s - {x}) + {x};
      if m < x then x else m
  }

  /** The highest stored slot, 0 when none is stored. */
  ghost function Highest(t: Tables): Slot {
    Maximum(set k | k in t.slots :: k.0)
  }

  /** writeStartUpGaps, given the highest slot it has read. */
  function StartUpGaps(t: Tables, inc: Increment, first: Slot, highest: Slot): Tables {
    var last := ToSlot(first - 1);
    if highest < last then
      t.(knownGaps := InsertGaps(t.knownGaps, ChunkRows(if highest == 0 then 0 else highest + 1, last, inc),
                                 NewGap(Blank, StartUp)))
    else t
  }

  /** The slot is stored or lies in some known gap. */
  ghost predicate Recorded(t: Tables, x: Slot) {
    SlotKnown(t, x) || Covered(t.knownGaps, x)
  }

  /** The start-up gap, if one is written, is cut without overflowing the chunk counter. */
  predicate StartUpFits(inc: Increment, first: Slot, highest: Slot)
    requires first >= 1
  {
    highest < first - 1 ==> CountFits(if highest == 0 then 0 else highest + 1, first - 1, inc)
  }

  lemma CeilGrows(d: nat, d': nat, u: nat)
    requires d <= d' && u > 0
    ensures CeilDiv(d, u) <= CeilDiv(d', u)
  {
    DivBounds(d, u);
    DivBounds(d', u);
    if d / u > d' / u {
      MulMono(d' / u + 1, d / u, u);
    }
  }

  /** A gap that starts later fits too. */
  lemma StartUpStillFits(inc: Increment, first: Slot, highest: Slot, highest': Slot)
    requires first >= 1 && StartUpFits(inc, first, highest) && highest <= highest'
    ensures StartUpFits(inc, first, highest')
  {
    if highest' < first - 1 {
      var from: Slot, from': Slot := if highest == 0 then 0 else highest + 1, if highest' == 0 then 0 else highest' + 1;
      CeilGrows(first - 1 - from', first - 1 - from, ToSlot(inc));
    }
  }

  /** What it adds: the slots after the highest stored one and before the first head, and slot 0 on an empty table. */
  lemma StartUpAdds(t: Tables, inc: Increment, first: Slot, highest: Slot, x: Slot)
    requires first >= 1 && StartUpFits(inc, first, highest)
    ensures var after := StartUpGaps(t, inc, first, highest);
            && after.slots == t.slots
            && (Covered(after.knownGaps, x) <==>
                  || Covered(t.knownGaps, x)
                  || (highest < first - 1 && (if highest == 0 then 0 else highest + 1) <= x < first))
  {
    var last: Slot := first - 1;
    assert ToSlot(first - 1) == last;
    if highest < last {
      var from: Slot := if highest == 0 then 0 else highest + 1;
      RecordedGapCovers(t.knownGaps, from, last, inc, NewGap(Blank, StartUp));
      assert StartUpGaps(t, inc, first, highest).knownGaps
          == InsertGaps(t.knownGaps, ChunkRows(from, last, inc), NewGap(Blank, StartUp));
    }
  }

  lemma HighestBounds(t: Tables)
    ensures Highest(t) > 0 ==> SlotKnown(t, Highest(t))
    ensures forall k :: k in t.slots ==> k.0 <= Highest(t)
  {
    var present := set k | k in t.slots :: k.0;
    if Highest(t) > 0 {
      assert Highest(t) in present;
    }
    forall k | k in t.slots ensures k.0 <= Highest(t) {
      assert k.0 in present;
    }
  }

  /**
   Restart safety. If everything up to the highest stored slot is recorded, then after the start-up gap
   everything below the first head is, unless that head is slot 1 and slot 0 was never recorded; and no slot
   at or above the first head was added.
   */
  lemma StartUpIsSafe(t: Tables, inc: Increment, first: Slot)
    requires first >= 1 && StartUpFits(inc, first, Highest(t))
    requires forall x: Slot :: 0 < x <= Highest(t) ==> Recorded(t, x)
    requires Highest(t) > 0 ==> Recorded(t, 0)
    ensures var after := StartUpGaps(t, inc, first, Highest(t));
            && ((forall x: Slot :: x < first ==> Recorded(after, x)) <==> first != 1 || Recorded(t, 0))
            && (forall x: Slot :: x >= first ==> (Covered(after.knownGaps, x) <==> Covered(t.knownGaps, x)))
  {
    var highest := Highest(t);
    var after := StartUpGaps(t, inc, first, highest);
    forall x: Slot
      ensures x >= first ==> (Covered(after.knownGaps, x) <==> Covered(t.knownGaps, x))
      ensures Recorded(t, x) ==> Recorded(after, x)
      ensures x < first && (first != 1 || highest > 0) ==> Recorded(after, x)
    {
      StartUpAdds(t, inc, first, highest, x);
      assert SlotKnown(t, x) <==> SlotKnown(after, x);
    }
    if first == 1 && highest == 0 {
      assert after == t;
    }
  }

  /**
   Exactly which unrecorded slots below the first head get recorded: those above the highest slot stored at the
   moment of the query. A task for a later head that commits before the query therefore hides the whole gap.
   */
  lemma StartUpRecordsIff(t: Tables, inc: Increment, first: Slot, x: Slot)
    requires x < first && StartUpFits(inc, first, Highest(t)) && !Recorded(t, x)
    ensures Recorded(StartUpGaps(t, inc, first, Highest(t)), x) <==>
            Highest(t) < x || (Highest(t) == x == 0 && first > 1)
  {
    var after := StartUpGaps(t, inc, first, Highest(t));
    StartUpAdds(t, inc, first, Highest(t), x);
    assert SlotKnown(t, x) <==> SlotKnown(after, x);
  }

  /**
   With a first head at slot 0 the subtraction wraps: the gap runs from the highest stored slot to the end of the slot
   range, if that is where it is cut without overflowing the chunk counter.
   */
  lemma FirstHeadAtZeroOverflows(t: Tables, inc: Increment, x: Slot)
    ensures var highest := Highest(t);
            var from: Slot := if highest == 0 || highest == WORD - 1 then 0 else highest + 1;
            Covered(StartUpGaps(t, inc, 0, highest).knownGaps, x) <==>
            || Covered(t.knownGaps, x)
            || (highest < WORD - 1 && from <= x && CountFits(from, WORD - 1, inc))
  {
    hide CountFits, ChunkRows;
    var highest := Highest(t);
    if highest < WORD - 1 {
      var from: Slot := if highest == 0 then 0 else highest + 1;
      var rows := ChunkRows(from, WORD - 1, inc);
      InsertGapsReaches(t.knownGaps, rows, NewGap(Blank, StartUp), x);
      GapRecordedIffCountFits(from, WORD - 1, inc);
      if !CountFits(from, WORD - 1, inc) { CounterOverflowRecordsNothing(from, WORD - 1, inc); }
    }
  }
}

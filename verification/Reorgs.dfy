/** Marking forks: what one reorg transaction does to the tables, and the algebra of many. */
module Reorgs {
  import opened Machine
  import opened Tables
  import opened KnownGaps

  type SlotTable = map<(Slot, Root), SlotRow>

  const MISSING_ROW := NewGap(Text("Unable to find properly proposed row in DB"), ReorgStep)

  /** Every row of the slot under another root becomes forked. */
  function MarkForked(slots: SlotTable, slot: Slot, root: Root): SlotTable {
    map k | k in slots :: if k.0 == slot && k.1 != root then slots[k].(status := Forked) else slots[k]
  }

  /** The row of the slot under this root, if there is one, becomes proposed. */
  function MarkProposed(slots: SlotTable, slot: Slot, root: Root): SlotTable {
    map k | k in slots :: if k.0 == slot && k.1 == root then slots[k].(status := Proposed) else slots[k]
  }

  /** A reorg transaction that meets no fault. */
  function Reorg(t: Tables, slot: Slot, root: Root): Tables {
    var marked := t.(slots := MarkProposed(MarkForked(t.slots, slot, root), slot, root));
    if (slot, root) in t.slots then marked
    else marked.(knownGaps := InsertGaps(t.knownGaps, ChunkRows(slot, slot, 1), MISSING_ROW))
  }

  /** Both updates together: the named row is proposed, its rivals forked, other slots untouched. */
  function Refork(slots: SlotTable, slot: Slot, root: Root): SlotTable {
    map k | k in slots ::
      if k.0 == slot then slots[k].(status := if k.1 == root then Proposed else Forked) else slots[k]
  }

  /** The whole transaction in one equation. */
  lemma ReorgReforks(t: Tables, slot: Slot, root: Root)
    ensures Reorg(t, slot, root) ==
            t.(slots := Refork(t.slots, slot, root),
               knownGaps := if (slot, root) in t.slots then t.knownGaps
                            else InsertMissing(t.knownGaps, Range(slot, slot), MISSING_ROW))
  {
    assert MarkProposed(MarkForked(t.slots, slot, root), slot, root) == Refork(t.slots, slot, root);
    SingleSlotGap(t.knownGaps, slot, 1, MISSING_ROW);
  }

  lemma ReorgGapKeys(t: Tables, slot: Slot, root: Root, k: Range)
    ensures k in Reorg(t, slot, root).knownGaps <==>
            k in t.knownGaps || (k == Range(slot, slot) && (slot, root) !in t.slots)
  {
    ReorgReforks(t, slot, root);
    InsertMissingKeys(t.knownGaps, Range(slot, slot), MISSING_ROW);
  }

  lemma ReorgKeepsRows(t: Tables, slot: Slot, root: Root)
    ensures RowsKept(t.knownGaps, Reorg(t, slot, root).knownGaps)
  {
    ReorgReforks(t, slot, root);
  }

  /** How many rows the proposed update touches: the branch for more than one is unreachable. */
  lemma AtMostOneRowProposed(t: Tables, slot: Slot, root: Root)
    ensures |set k | k in t.slots && k.0 == slot && k.1 == root| == if (slot, root) in t.slots then 1 else 0
  {
    var touched := set k | k in t.slots && k.0 == slot && k.1 == root;
    assert touched == if (slot, root) in t.slots then {(slot, root)} else {};
  }

  datatype ReorgEvent = ReorgEvent(slot: Slot, root: Root)

  function ApplyReorgs(t: Tables, events: seq<ReorgEvent>): Tables {
    if events == [] then t
    else
      var last := events[|events| - 1];
      Reorg(ApplyReorgs(t, events[..|events| - 1]), last.slot, last.root)
  }

  /** The root named by the last event for the slot. */
  function LastNamed(events: seq<ReorgEvent>, slot: Slot): Option<Root> {
    if events == [] then None
    else
      var last := events[|events| - 1];
      if last.slot == slot then Some(last.root) else LastNamed(events[..|events| - 1], slot)
  }

  /** Each row's status depends only on the last event naming its slot; nothing else about it changes. */
  lemma {:induction false} StatusByLastEvent(t: Tables, events: seq<ReorgEvent>)
    ensures ApplyReorgs(t, events).slots.Keys == t.slots.Keys
    ensures forall k :: k in t.slots ==>
      ApplyReorgs(t, events).slots[k] ==
        match LastNamed(events, k.0)
          case None => t.slots[k]
          case Some(root) => t.slots[k].(status := if k.1 == root then Proposed else Forked)
  {
    if events != [] {
      var front, last := events[..|events| - 1], events[|events| - 1];
      StatusByLastEvent(t, front);
      ReorgReforks(ApplyReorgs(t, front), last.slot, last.root);
    }
  }

  /** The gap is of a slot some event named with a root the table lacks. */
  ghost predicate RecordedBy(t: Tables, events: seq<ReorgEvent>, k: Range) {
    exists i :: 0 <= i < |events| && k == Range(events[i].slot, events[i].slot)
                && (events[i].slot, events[i].root) !in t.slots
  }

  /** Besides statuses, reorgs change only known_gaps, and no row that was there. */
  lemma {:induction false} ReorgsOnlyAddGaps(t: Tables, events: seq<ReorgEvent>)
    ensures ApplyReorgs(t, events) ==
            t.(slots := ApplyReorgs(t, events).slots, knownGaps := ApplyReorgs(t, events).knownGaps)
    ensures forall k :: k in t.knownGaps ==>
      k in ApplyReorgs(t, events).knownGaps && ApplyReorgs(t, events).knownGaps[k] == t.knownGaps[k]
  {
    if events != [] {
      var front, last := events[..|events| - 1], events[|events| - 1];
      ReorgsOnlyAddGaps(t, front);
      ReorgReforks(ApplyReorgs(t, front), last.slot, last.root);
    }
  }

  /** The gaps they add are exactly the [slot,slot] gaps of the events whose root is absent. */
  lemma {:induction false} AbsentRootsAreRecorded(t: Tables, events: seq<ReorgEvent>, k: Range)
    ensures k in ApplyReorgs(t, events).knownGaps <==> k in t.knownGaps || RecordedBy(t, events, k)
  {
    if events != [] {
      var front, last := events[..|events| - 1], events[|events| - 1];
      AbsentRootsAreRecorded(t, front, k);
      StatusByLastEvent(t, front);
      ReorgGapKeys(ApplyReorgs(t, front), last.slot, last.root, k);
      assert events == front + [last];
      RecordedByLast(t, front, last, k);
    }
  }

  lemma RecordedByLast(t: Tables, front: seq<ReorgEvent>, last: ReorgEvent, k: Range)
    ensures RecordedBy(t, front + [last], k) <==>
            RecordedBy(t, front, k) || (k == Range(last.slot, last.slot) && (last.slot, last.root) !in t.slots)
  {
    var events := front + [last];
    if RecordedBy(t, front, k) {
      var i :| 0 <= i < |front| && k == Range(front[i].slot, front[i].slot)
               && (front[i].slot, front[i].root) !in t.slots;
      assert events[i] == front[i];
    }
    assert events[|front|] == last;
  }

  /** Events on different slots commute, down to every table. */
  lemma ReorgsCommute(t: Tables, a: ReorgEvent, b: ReorgEvent)
    requires a.slot != b.slot
    ensures Reorg(Reorg(t, a.slot, a.root), b.slot, b.root) == Reorg(Reorg(t, b.slot, b.root), a.slot, a.root)
  {
    TwoReorgs(t, a, b);
    TwoReorgs(t, b, a);
    ReforksCommute(t.slots, a, b);
    InsertsCommute(t.knownGaps, Range(a.slot, a.slot), Range(b.slot, b.slot), MISSING_ROW);
  }

  lemma TwoReorgs(t: Tables, a: ReorgEvent, b: ReorgEvent)
    requires a.slot != b.slot
    ensures Reorg(Reorg(t, a.slot, a.root), b.slot, b.root) ==
            t.(slots := Refork(Refork(t.slots, a.slot, a.root), b.slot, b.root),
               knownGaps :=
                 var first := if (a.slot, a.root) in t.slots then t.knownGaps
                              else InsertMissing(t.knownGaps, Range(a.slot, a.slot), MISSING_ROW);
                 if (b.slot, b.root) in t.slots then first
                 else InsertMissing(first, Range(b.slot, b.slot), MISSING_ROW))
  {
    ReorgReforks(t, a.slot, a.root);
    ReorgReforks(Reorg(t, a.slot, a.root), b.slot, b.root);
  }

  lemma ReforksCommute(slots: SlotTable, a: ReorgEvent, b: ReorgEvent)
    requires a.slot != b.slot
    ensures Refork(Refork(slots, a.slot, a.root), b.slot, b.root) ==
            Refork(Refork(slots, b.slot, b.root), a.slot, a.root)
  {
  }

  lemma InsertsCommute<K, V>(m: map<K, V>, k: K, j: K, v: V)
    ensures InsertMissing(InsertMissing(m, k, v), j, v) == InsertMissing(InsertMissing(m, j, v), k, v)
  {
  }

  /** Repeating an event changes nothing. */
  lemma ReorgRepeats(t: Tables, e: ReorgEvent)
    ensures Reorg(Reorg(t, e.slot, e.root), e.slot, e.root) == Reorg(t, e.slot, e.root)
  {
    var once := Reorg(t, e.slot, e.root);
    ReorgReforks(t, e.slot, e.root);
    ReorgReforks(once, e.slot, e.root);
    assert Refork(once.slots, e.slot, e.root) == once.slots;
  }
}

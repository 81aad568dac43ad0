/** The loops of batch processing run alone: checking rows out, sending slots out, booking errors. */
module BatchProcess {
  import opened Machine
  import opened Tables
  import opened KnownGaps
  import opened WorkQueue
  import opened Pipeline
  import opened DatabaseWrite

  // ---- The checkout loop ----

  function EligibleRows(w: Work, minimum: Slot): set<Range> {
    set r | r in w && Eligible(w, minimum, r)
  }

  lemma {:induction false} BestExists(w: Work, rows: set<Range>) returns (best: Range)
    requires rows != {} && forall r :: r in rows ==> r in w
    ensures best in rows && forall r :: r in rows ==> w[best].priority <= w[r].priority
  {
    best :| best in rows;
    if rows != {best} {
      var rest := BestExists(w, rows - {best});
      assert forall r :: r in rows ==> r == best || r in rows - {best};
      if w[rest].priority < w[best].priority {
        best := rest;
      }
    }
  }

  /** Lock a sequence of rows, one after another. */
  ghost predicate LockedExactly(before: Work, after: Work, rows: seq<Range>, node: int) {
    && after.Keys == before.Keys
    && forall r :: r in before ==>
         after[r] == if r in rows then before[r].(checkedOut := true, checkedOutBy := Some(node)) else before[r]
  }

  /** Rows come out in nondecreasing priority and none twice. */
  ghost predicate InPriorityOrder(w: Work, rows: seq<Range>) {
    && (forall r :: r in rows ==> r in w)
    && (forall i, j :: 0 <= i < j < |rows| ==> rows[i] != rows[j] && w[rows[i]].priority <= w[rows[j]].priority)
  }

  /** What the checkout loop has done so far. */
  ghost predicate CheckedOut(before: Work, now: Work, rows: seq<Range>, node: int, minimum: Slot) {
    && LockedExactly(before, now, rows, node)
    && InPriorityOrder(before, rows)
    && (forall r :: r in rows ==> Eligible(before, minimum, r))
    && (forall r, o :: r in rows && o in before && Eligible(now, minimum, o) ==>
          before[r].priority <= before[o].priority)
  }

  lemma CheckoutExtends(before: Work, now: Work, rows: seq<Range>, node: int, minimum: Slot, r: Range)
    requires CheckedOut(before, now, rows, node, minimum) && Selected(now, minimum, r)
    ensures r in EligibleRows(now, minimum) && r in now
    ensures CheckedOut(before, Lock(now, r, node), rows + [r], node, minimum)
    ensures EligibleRows(Lock(now, r, node), minimum) == EligibleRows(now, minimum) - {r}
  {
    var after, rows' := Lock(now, r, node), rows + [r];
    assert r !in rows;
    assert forall o :: o in rows' <==> o in rows || o == r;
    forall o | o in before && Eligible(after, minimum, o) ensures Eligible(now, minimum, o) && o != r {
    }
    forall o | o in rows ensures before[o].priority <= before[r].priority {
    }
  }

  lemma NothingYet(w: Work, node: int, minimum: Slot)
    ensures CheckedOut(w, w, [], node, minimum)
  {
  }

  lemma CheckedOutRows(before: Work, now: Work, rows: seq<Range>, node: int, minimum: Slot)
    requires CheckedOut(before, now, rows, node, minimum)
    ensures LockedExactly(before, now, rows, node) && InPriorityOrder(before, rows)
    ensures forall r :: r in rows ==> Eligible(before, minimum, r)
    ensures forall r, o :: r in rows && Eligible(now, minimum, o) ==> before[r].priority <= before[o].priority
    ensures forall r, o :: r in rows && Eligible(now, minimum, o) ==> r in before && o in before
  {
  }

  lemma NothingLeft(before: Work, now: Work, rows: seq<Range>, node: int, minimum: Slot)
    requires CheckedOut(before, now, rows, node, minimum) && EligibleRows(now, minimum) == {}
    ensures forall r :: Eligible(before, minimum, r) ==> r in rows
  {
    forall r | Eligible(before, minimum, r) ensures r in rows {
      assert r !in EligibleRows(now, minimum);
    }
  }

  /** The selecting query; the database picks among rows of equal priority. */
  method SelectRow(w: Work, minimum: Slot) returns (r: Range)
    requires EligibleRows(w, minimum) != {}
    ensures Selected(w, minimum, r)
  {
    ghost var best := BestExists(w, EligibleRows(w, minimum));
    assert Selected(w, minimum, best);
    r :| r in w && Selected(w, minimum, r);
  }

  /** How many of the first n passes fail. */
  function FailedPasses(passFails: nat -> bool, n: nat): nat {
    if n == 0 then 0 else FailedPasses(passFails, n - 1) + if passFails(n - 1) then 1 else 0
  }

  /**
   The loop with no other writer, until no row is eligible or five errors have piled up: it dispatches every
   eligible row exactly once, in nondecreasing priority, and touches no other row. Each failed pass (a query,
   a lock or a commit) counts as one error and changes nothing.
   */
  method GetBatchProcessRow(db: Database, kind: Kind, node: int, minimum: Slot, passFails: nat -> bool)
    returns (dispatched: seq<Range>, errCount: nat)
    modifies db
    ensures db.tables == WithWork(old(db.tables), kind, WorkOf(db.tables, kind))
    ensures LockedExactly(WorkOf(old(db.tables), kind), WorkOf(db.tables, kind), dispatched, node)
    ensures InPriorityOrder(WorkOf(old(db.tables), kind), dispatched)
    ensures forall r :: r in dispatched ==> Eligible(WorkOf(old(db.tables), kind), minimum, r)
    ensures forall r, o :: r in dispatched && Eligible(WorkOf(db.tables, kind), minimum, o) ==>
              WorkOf(old(db.tables), kind)[r].priority <= WorkOf(old(db.tables), kind)[o].priority
    ensures errCount <= 5 && errCount == FailedPasses(passFails, |dispatched| + errCount)
    ensures errCount < 5 ==> forall r :: Eligible(WorkOf(old(db.tables), kind), minimum, r) ==> r in dispatched
  {
    hide CheckedOut, Eligible, EligibleRows, Selected, Lock, LockedExactly, InPriorityOrder;
    ghost var before := WorkOf(db.tables, kind);
    NothingYet(before, node, minimum);
    dispatched, errCount := [], 0;
    var pass: nat := 0;
    var w := WorkOf(db.tables, kind);
    while errCount < 5 && EligibleRows(w, minimum) != {}
      invariant errCount <= 5 && pass == |dispatched| + errCount && errCount == FailedPasses(passFails, pass)
      invariant db.tables == WithWork(old(db.tables), kind, w)
      invariant CheckedOut(before, w, dispatched, node, minimum)
      decreases 5 - errCount + |EligibleRows(w, minimum)|
    {
      if passFails(pass) {
        errCount := errCount + 1;
      } else {
        var r := SelectRow(w, minimum);
        CheckoutExtends(before, w, dispatched, node, minimum, r);
        w := Lock(w, r, node);
        db.tables := WithWork(db.tables, kind, w);
        dispatched := dispatched + [r];
      }
      pass := pass + 1;
    }
    CheckedOutRows(before, w, dispatched, node, minimum);
    if errCount < 5 {
      NothingLeft(before, w, dispatched, node, minimum);
    }
  }

  /** The row is eligible once the node's own locks are gone. */
  predicate EligibleAtStart(w: Work, node: int, minimum: Slot, r: Range) {
    r in w && (!w[r].checkedOut || w[r].checkedOutBy == Some(node)) && r.end >= minimum
  }

  /** releaseDbLocks: the node's own rows become eligible again, nobody else's; or it fails and all is as before. */
  method ReleaseDbLocks(db: Database, kind: Kind, node: int, fails: bool) returns (ok: bool)
    modifies db
    ensures ok <==> !fails
    ensures !ok ==> db.tables == old(db.tables)
    ensures db.tables == WithWork(old(db.tables), kind, WorkOf(db.tables, kind))
    ensures WorkOf(db.tables, kind).Keys == WorkOf(old(db.tables), kind).Keys
    ensures forall r :: r in WorkOf(db.tables, kind) ==>
              WorkOf(db.tables, kind)[r].priority == WorkOf(old(db.tables), kind)[r].priority
    ensures ok ==> forall minimum, r :: Eligible(WorkOf(db.tables, kind), minimum, r) <==>
                                        EligibleAtStart(WorkOf(old(db.tables), kind), node, minimum, r)
    ensures forall r :: r in WorkOf(db.tables, kind) && WorkOf(old(db.tables), kind)[r].checkedOutBy != Some(node) ==>
              WorkOf(db.tables, kind)[r] == WorkOf(old(db.tables), kind)[r]
  {
    if fails {
      return false;
    }
    db.tables := WithWork(db.tables, kind, Release(WorkOf(db.tables, kind), node));
    ok := true;
  }

  /**
   The start of batch processing: the node's own locks are released and rows are checked out. Rows an earlier run of
   the node left locked are dispatched again, each once, with the free ones; another node's rows are not touched.
   */
  method StartBatch(db: Database, kind: Kind, node: int, minimum: Slot, releaseFails: bool, passFails: nat -> bool)
    returns (dispatched: seq<Range>, errCount: nat)
    modifies db
    ensures db.tables == WithWork(old(db.tables), kind, WorkOf(db.tables, kind))
    ensures InPriorityOrder(WorkOf(old(db.tables), kind), dispatched)
    ensures !releaseFails ==> forall r :: r in dispatched ==>
              EligibleAtStart(WorkOf(old(db.tables), kind), node, minimum, r)
    ensures !releaseFails && errCount < 5 ==>
              forall r :: EligibleAtStart(WorkOf(old(db.tables), kind), node, minimum, r) ==> r in dispatched
    ensures forall r :: r in WorkOf(old(db.tables), kind) && r !in dispatched
                        && WorkOf(old(db.tables), kind)[r].checkedOutBy != Some(node) ==>
              r in WorkOf(db.tables, kind) && WorkOf(db.tables, kind)[r] == WorkOf(old(db.tables), kind)[r]
    ensures forall r :: r in dispatched ==>
              r in WorkOf(db.tables, kind) && WorkOf(db.tables, kind)[r].checkedOutBy == Some(node)
  {
    var _ := ReleaseDbLocks(db, kind, node, releaseFails);
    dispatched, errCount := GetBatchProcessRow(db, kind, node, minimum, passFails);
  }

  // ---- The distributor ----

  /** What the distributor puts on its channels. */
  datatype Output = Work(slot: Slot) | Problem(slot: Slot) | Removable(range: Range)

  /** The slots of a well-ordered range, ascending. */
  function SlotsOf(r: Range): seq<Slot> {
    if r.start > r.end then [] else seq(r.end - r.start + 1, k requires 0 <= k <= r.end - r.start => r.start + k)
  }

  function AsWork(slots: seq<Slot>): seq<Output> {
    seq(|slots|, k requires 0 <= k < |slots| => Work(slots[k]))
  }

  /**
   One range: its slots go out ascending, each once, strictly before it becomes removable; a reversed range
   raises exactly two errors and never becomes removable.
   */
  method Distribute(r: Range) returns (out: seq<Output>)
    requires r.start < r.end ==> r.end < WORD - 1
    ensures r.start <= r.end ==> out == AsWork(SlotsOf(r)) + [Removable(r)]
    ensures r.start > r.end ==> out == [Problem(r.start), Problem(r.end)]
  {
    if r.start > r.end {
      return [Problem(r.start), Problem(r.end)];
    }
    if r.start == r.end {
      return [Work(r.start), Removable(r)];
    }
    ghost var all := AsWork(SlotsOf(r));
    out := [];
    var i := r.start;
    while i <= r.end
      invariant r.start <= i <= r.end + 1
      invariant out == all[..i - r.start]
      decreases r.end + 1 - i
    {
      out := out + [Work(i)];
      i := ToSlot(i + 1);
    }
    assert all[..|all|] == all;
    out := out + [Removable(r)];
  }

  /** All slots sent for a sequence of ranges. */
  function SentForAll(rows: seq<Range>): seq<Slot> {
    if rows == [] then [] else SentForAll(rows[..|rows| - 1]) + SlotsOf(rows[|rows| - 1])
  }

  lemma SentOnce(r: Range, x: Slot)
    ensures multiset(SlotsOf(r))[x] == if Holds(r, x) then 1 else 0
  {
    var s := SlotsOf(r);
    if Holds(r, x) {
      var k := x - r.start;
      assert s == s[..k] + [x] + s[k + 1..];
      assert x !in s[..k] && x !in s[k + 1..];
    }
  }

  lemma {:induction false} SentAsOftenAsHeld(rows: seq<Range>, x: Slot)
    ensures multiset(SentForAll(rows))[x] == TimesHeld(rows, x)
  {
    if rows != [] {
      SentAsOftenAsHeld(rows[..|rows| - 1], x);
      SentOnce(rows[|rows| - 1], x);
    }
  }

  /** Over all rows of one gap each of its slots is sent once, and once more if two rows share it. */
  lemma GapIsSentExactly(start: Slot, end: Slot, inc: Increment, x: Slot)
    requires start <= end && CountFits(start, end, inc)
    ensures multiset(SentForAll(ChunkRows(start, end, inc)))[x] ==
            if !(start <= x <= end) then 0 else if SharedBoundary(start, end, ToSlot(inc), x) then 2 else 1
  {
    ChunkRowsCoverExactly(start, end, inc);
    SentAsOftenAsHeld(ChunkRows(start, end, inc), x);
  }

  // ---- The known-gaps error handler ----

  /** An error the handler receives, and what fails while it books it: look-up, update, or a statement of the insert. */
  datatype Booking = Booking(slot: Slot, error: Text, reason: Process, lookFails: bool, updateFails: bool, budget: nat)

  predicate Faultless(b: Booking) {
    !b.lookFails && !b.updateFails
  }

  /** The handler's look-up and settling steps on one error. */
  function BookError(t: Tables, b: Booking): Tables {
    SettleError(t, AfterLook(t, Looking(b.slot, b.error, b.reason), b.lookFails), b.updateFails)
  }

  /** Booking the error ends the process: the insert is chosen and one of its statements or its commit fails. */
  predicate BookingDies(t: Tables, b: Booking) {
    (b.lookFails || Range(b.slot, b.slot) !in t.knownGaps) && b.budget <= 1
  }

  function BookErrors(t: Tables, bookings: seq<Booking>): Tables {
    if bookings == [] then t else BookError(BookErrors(t, bookings[..|bookings| - 1]), bookings[|bookings| - 1])
  }

  lemma BookedGaps(t: Tables, b: Booking)
    ensures var w, r := t.knownGaps, Range(b.slot, b.slot);
            BookError(t, b) ==
            t.(knownGaps := if b.lookFails || r !in w then InsertMissing(w, r, NewGap(b.error, b.reason))
                            else if b.updateFails then w else RaisePriority(w, b.slot, b.error))
  {
    SingleSlotGap(t.knownGaps, b.slot, 1, NewGap(b.error, b.reason));
  }

  /** One error, no remover about: its row is there afterwards; one already there is raised unless a fault hid it. */
  lemma ErrorIsBooked(t: Tables, b: Booking, k: Range)
    ensures BookError(t, b) == t.(knownGaps := BookError(t, b).knownGaps)
    ensures var w, w' := t.knownGaps, BookError(t, b).knownGaps;
            if k != Range(b.slot, b.slot) then (k in w' <==> k in w) && (k in w ==> w'[k] == w[k])
            else if k !in w then k in w' && w'[k] == NewGap(b.error, b.reason)
            else k in w' && w'[k] == if !Faultless(b) then w[k]
                                     else w[k].(reprocessingError := b.error, priority := w[k].priority + 1)
  {
    hide BookError;
    BookedGaps(t, b);
  }

  /** How often the slot failed. */
  function FailuresOf(bookings: seq<Booking>, k: Range): nat {
    if bookings == [] then 0
    else FailuresOf(bookings[..|bookings| - 1], k)
         + if k == Range(bookings[|bookings| - 1].slot, bookings[|bookings| - 1].slot) then 1 else 0
  }

  /** How often the slot failed, with look-up and update working, when its row was already there. */
  function RaisesOf(bookings: seq<Booking>, k: Range, present: bool): nat {
    if bookings == [] then 0
    else
      var front, last := bookings[..|bookings| - 1], bookings[|bookings| - 1];
      RaisesOf(front, k, present)
      + if k == Range(last.slot, last.slot) && Faultless(last) && (present || FailuresOf(front, k) > 0) then 1 else 0
  }

  /** Faults only ever suppress raises; without them every failure but the one that inserts the row raises it. */
  lemma {:induction false} RaisesAreFailures(bookings: seq<Booking>, k: Range, present: bool)
    ensures RaisesOf(bookings, k, present) <= FailuresOf(bookings, k)
    ensures (forall b :: b in bookings ==> Faultless(b)) ==>
              RaisesOf(bookings, k, present) == if present || FailuresOf(bookings, k) == 0 then FailuresOf(bookings, k)
                                                else FailuresOf(bookings, k) - 1
  {
    if bookings != [] {
      RaisesAreFailures(bookings[..|bookings| - 1], k, present);
    }
  }

  /**
   After any sequence of failures, whatever look-ups and updates fail: a row is there exactly if it was before or its
   slot failed; its priority has risen by exactly the failures that found it present; an old row's lock has not
   changed and a new row is free.
   */
  lemma {:induction false} ErrorsAreBooked(t: Tables, bookings: seq<Booking>, k: Range)
    ensures BookErrors(t, bookings) == t.(knownGaps := BookErrors(t, bookings).knownGaps)
    ensures k in BookErrors(t, bookings).knownGaps <==> k in t.knownGaps || FailuresOf(bookings, k) > 0
    ensures k in t.knownGaps ==>
      var row := BookErrors(t, bookings).knownGaps[k];
      && row.priority == t.knownGaps[k].priority + RaisesOf(bookings, k, true)
      && row.checkedOut == t.knownGaps[k].checkedOut && row.checkedOutBy == t.knownGaps[k].checkedOutBy
    ensures k !in t.knownGaps && FailuresOf(bookings, k) > 0 ==>
      var row := BookErrors(t, bookings).knownGaps[k];
      row.priority == RaisesOf(bookings, k, false) && !row.checkedOut && row.checkedOutBy == None
  {
    hide BookError;
    if bookings != [] {
      var front, last := bookings[..|bookings| - 1], bookings[|bookings| - 1];
      ErrorsAreBooked(t, front, k);
      ErrorIsBooked(BookErrors(t, front), last, k);
      RaisesAreFailures(front, k, false);
    }
  }

  /** The look-up; a failing one finds nothing. */
  method RowExists(db: Database, slot: Slot, fails: bool) returns (found: bool)
    ensures found <==> !fails && Range(slot, slot) in db.tables.knownGaps
  {
    found := !fails && Range(slot, slot) in db.tables.knownGaps;
  }

  /** One error: raise the row if the look-up finds it, insert it otherwise. */
  method BookReceived(db: Database, b: Booking) returns (fatal: bool)
    modifies db
    ensures fatal <==> BookingDies(old(db.tables), b)
    ensures db.tables == if fatal then old(db.tables) else BookError(old(db.tables), b)
  {
    fatal := false;
    SingleSlotGap(db.tables.knownGaps, b.slot, 1, NewGap(b.error, b.reason));
    var found := RowExists(db, b.slot, b.lookFails);
    if found {
      if !b.updateFails {
        db.tables := db.tables.(knownGaps := RaisePriority(db.tables.knownGaps, b.slot, b.error));
      }
    } else {
      fatal := WriteKnownGaps(db, 1, b.slot, b.slot, b.error, b.reason, b.budget);
    }
  }

  /**
   handleProcessingErrors for known gaps over the errors it receives, with any faults: it books them all, or the
   process ends at the first whose insert fails, with the errors before it booked.
   */
  method HandleProcessingErrors(db: Database, bookings: seq<Booking>) returns (fatal: bool, booked: nat)
    modifies db
    ensures booked <= |bookings| && db.tables == BookErrors(old(db.tables), bookings[..booked])
    ensures fatal <==> booked < |bookings|
    ensures fatal ==> BookingDies(db.tables, bookings[booked])
    ensures forall k :: 0 <= k < booked ==> !BookingDies(BookErrors(old(db.tables), bookings[..k]), bookings[k])
  {
    hide BookError, BookingDies;
    fatal, booked := false, 0;
    while booked < |bookings|
      invariant booked <= |bookings| && db.tables == BookErrors(old(db.tables), bookings[..booked])
      invariant forall k :: 0 <= k < booked ==> !BookingDies(BookErrors(old(db.tables), bookings[..k]), bookings[k])
    {
      fatal := BookReceived(db, bookings[booked]);
      if fatal {
        return;
      }
      assert bookings[..booked + 1][..booked] == bookings[..booked];
      booked := booked + 1;
    }
  }
}

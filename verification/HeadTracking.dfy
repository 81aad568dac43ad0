/** The loop over head messages. */
module HeadTracking {
  import opened Machine
  import opened Tables
  import opened KnownGaps
  import opened SlotWrite
  import opened DatabaseWrite
  import opened Indexer

  /** A head message; the slot is None when its text is not a number. */
  datatype Message = Message(slot: Option<Slot>, block: Root, stateRoot: Root)

  function HeadAfter(h: Head, inc: Increment, m: Message): Head {
    match m.slot
    case None => h.(errorSlots := h.errorSlots + 1)
    case Some(slot) => OnHead(h, inc, slot, m.block, m.stateRoot)
  }

  function TablesAfterMessage(t: Tables, h: Head, inc: Increment, m: Message): Tables {
    match m.slot
    case None => t
    case Some(slot) => BadHeadGap(t, h, inc, slot)
  }

  /** Head and tables after a sequence of messages. */
  function AfterMessages(t: Tables, h: Head, inc: Increment, messages: seq<Message>): (Tables, Head) {
    if messages == [] then (t, h)
    else
      var (t1, h1) := AfterMessages(t, h, inc, messages[..|messages| - 1]);
      var last := messages[|messages| - 1];
      (TablesAfterMessage(t1, h1, inc, last), HeadAfter(h1, inc, last))
  }

  /** The gap for a stretch of bad messages meets a fault. */
  predicate GapDies(h: Head, inc: Increment, slot: Slot, budget: nat) {
    h.errorSlots != 0 && h.previousSlot != 0 && budget <= |ChunkRows(ToSlot(h.previousSlot + 1), slot, inc)|
  }

  /** The i-th message ends the process, given how many statements of its gap transaction succeed. */
  ghost predicate Dies(t: Tables, inc: Increment, messages: seq<Message>, i: nat, budget: nat) {
    && i < |messages| && messages[i].slot.Some?
    && GapDies(AfterMessages(t, NO_HEAD, inc, messages[..i]).1, inc, messages[i].slot.value, budget)
  }

  // ---- What the tracker makes of the messages ----

  /** The good messages among them, in order. */
  function Good(messages: seq<Message>): seq<Message> {
    if messages == [] then []
    else
      var last := messages[|messages| - 1];
      Good(messages[..|messages| - 1]) + if last.slot.Some? then [last] else []
  }

  lemma {:induction false} GoodHaveSlots(messages: seq<Message>)
    ensures forall n :: 0 <= n < |Good(messages)| ==> Good(messages)[n].slot.Some?
  {
    if messages != [] {
      GoodHaveSlots(messages[..|messages| - 1]);
    }
  }

  /** The task spawned for this good message, given the good message before it, if any. */
  ghost predicate SpawnedFor(task: Task, m: Message, before: Option<Message>, inc: Increment) {
    && m.slot == Some(task.args.slot) && task.args.blockRoot == m.block && task.args.stateRoot == m.stateRoot
    && task.args.head && task.args.increment == inc
    && match before
       case None => task.first && task.args.previousSlot == 0 && task.args.previousRoot == Blank
       case Some(b) => !task.first && b.slot == Some(task.args.previousSlot) && task.args.previousRoot == b.block
  }

  function Before(messages: seq<Message>, n: nat): Option<Message>
    requires n <= |messages|
  {
    if n == 0 then None else Some(messages[n - 1])
  }

  /** Each task is spawned for one good message and knows the one before it. */
  ghost predicate TasksFollow(tasks: seq<Task>, good: seq<Message>, inc: Increment) {
    && |tasks| == |good|
    && forall n :: 0 <= n < |good| ==> SpawnedFor(tasks[n], good[n], Before(good, n), inc)
  }

  /** The tracker remembers the first, the last and the highest good head. */
  ghost predicate HeadFollows(h: Head, good: seq<Message>) {
    if good == [] then h.first == None && h.previousSlot == 0 && h.previousRoot == Blank
    else
      var last := good[|good| - 1];
      && h.first == good[0].slot && last.slot == Some(h.previousSlot) && h.previousRoot == last.block
      && (exists n :: 0 <= n < |good| && good[n].slot == Some(h.highest))
      && (forall n :: 0 <= n < |good| && good[n].slot.Some? ==> good[n].slot.value <= h.highest)
  }

  lemma OneMoreTask(h: Head, inc: Increment, good: seq<Message>, m: Message)
    requires m.slot.Some? && forall n :: 0 <= n < |good| ==> good[n].slot.Some?
    requires TasksFollow(h.tasks, good, inc) && HeadFollows(h, good)
    ensures TasksFollow(HeadAfter(h, inc, m).tasks, good + [m], inc)
  {
    var tasks', good' := HeadAfter(h, inc, m).tasks, good + [m];
    forall n | 0 <= n < |good'| ensures SpawnedFor(tasks'[n], good'[n], Before(good', n), inc) {
      if n < |good| {
        assert SpawnedFor(h.tasks[n], good[n], Before(good, n), inc);
      }
    }
  }

  lemma OneMoreHead(h: Head, inc: Increment, good: seq<Message>, m: Message)
    requires m.slot.Some? && (forall n :: 0 <= n < |good| ==> good[n].slot.Some?) && HeadFollows(h, good)
    ensures HeadFollows(HeadAfter(h, inc, m), good + [m])
  {
    var h', good' := HeadAfter(h, inc, m), good + [m];
    assert good'[|good|] == m;
    if good != [] && h'.highest == h.highest {
      var n :| 0 <= n < |good| && good[n].slot == Some(h.highest);
      assert good'[n].slot == Some(h'.highest);
    } else {
      assert good'[|good|].slot == Some(h'.highest);
    }
  }

  lemma NothingHeard(inc: Increment)
    ensures TasksFollow(NO_HEAD.tasks, [], inc) && HeadFollows(NO_HEAD, [])
  {
  }

  lemma BadHeadIsCounted(h: Head, inc: Increment, good: seq<Message>, m: Message)
    requires m.slot.None? && TasksFollow(h.tasks, good, inc) && HeadFollows(h, good)
    ensures TasksFollow(HeadAfter(h, inc, m).tasks, good + [], inc) && HeadFollows(HeadAfter(h, inc, m), good + [])
  {
    assert good + [] == good;
  }

  /** For every sequence of messages: the tasks, and the fields that the next message meets. */
  lemma {:induction false} TasksFollowMessages(t: Tables, inc: Increment, messages: seq<Message>)
    ensures TasksFollow(AfterMessages(t, NO_HEAD, inc, messages).1.tasks, Good(messages), inc)
    ensures HeadFollows(AfterMessages(t, NO_HEAD, inc, messages).1, Good(messages))
  {
    hide TablesAfterMessage, HeadFollows, TasksFollow, OnHead;
    if messages == [] {
      NothingHeard(inc);
    } else {
      var front, last := messages[..|messages| - 1], messages[|messages| - 1];
      TasksFollowMessages(t, inc, front);
      GoodHaveSlots(front);
      if last.slot.Some? {
        OneMoreTask(AfterMessages(t, NO_HEAD, inc, front).1, inc, Good(front), last);
        OneMoreHead(AfterMessages(t, NO_HEAD, inc, front).1, inc, Good(front), last);
      } else {
        BadHeadIsCounted(AfterMessages(t, NO_HEAD, inc, front).1, inc, Good(front), last);
      }
    }
  }

  // ---- What a good head after bad ones records ----

  /** The slots that the gap from the previous head to this one makes known gaps, wherever the two lie. */
  predicate StretchReaches(previous: Slot, slot: Slot, inc: Increment, x: Slot) {
    if previous < slot then CountFits(previous + 1, slot, inc) && previous < x <= slot
    else if previous == WORD - 1 then CountFits(0, slot, inc) && x <= slot
    else
      && ToSlot(inc) < Around(previous + 1, slot) && CountFits(previous + 1, slot, inc)
      && InWrappedGap(previous + 1, slot, inc, x)
  }

  lemma StretchRows(previous: Slot, slot: Slot, inc: Increment, x: Slot)
    ensures Reached(ChunkRows(ToSlot(previous + 1), slot, inc), x) <==> StretchReaches(previous, slot, inc, x)
  {
    hide CountFits, InWrappedGap, ChunkRows;
    var from := ToSlot(previous + 1);
    if from <= slot {
      GapRecordedIffCountFits(from, slot, inc);
      if !CountFits(from, slot, inc) { CounterOverflowRecordsNothing(from, slot, inc); }
    } else if ToSlot(inc) < Around(from, slot) && CountFits(from, slot, inc) {
      WrappedGapReaches(from, slot, inc, x);
    } else {
      WrappedGapRecordsIff(from, slot, inc);
    }
  }

  /**
   Exactly what a good message adds once a head has been seen and bad messages have come since, before its task is
   even spawned: the whole stretch from the previous head up to itself; or, at or below the previous head, nearly
   all slots from the previous head on, past the last one and round to its own.
   */
  lemma BadStretchIsRecorded(t: Tables, h: Head, inc: Increment, m: Message, x: Slot)
    requires h.errorSlots != 0 && h.previousSlot != 0 && m.slot.Some?
    ensures Covered(TablesAfterMessage(t, h, inc, m).knownGaps, x) <==>
            Covered(t.knownGaps, x) || StretchReaches(h.previousSlot, m.slot.value, inc, x)
  {
    var rows := ChunkRows(ToSlot(h.previousSlot + 1), m.slot.value, inc);
    InsertGapsReaches(t.knownGaps, rows, NewGap(Text("Bad Head Messages"), HeadProcessing), x);
    StretchRows(h.previousSlot, m.slot.value, inc, x);
  }

  /**
   Exactly when that is the stretch and nothing else: for a head above the previous one if the chunk counter fits; for
   any other head only if no row comes out, or a single one, which is reversed.
   */
  lemma StretchIsExactIff(previous: Slot, slot: Slot, inc: Increment)
    ensures (forall x: Slot :: StretchReaches(previous, slot, inc, x) <==> previous < x <= slot) <==>
            if previous < slot then CountFits(previous + 1, slot, inc)
            else !CountFits(ToSlot(previous + 1), slot, inc)
                 || (previous < WORD - 1 && Around(previous + 1, slot) <= ToSlot(inc))
  {
    hide CountFits, InWrappedGap;
    if previous < slot {
      assert StretchReaches(previous, slot, inc, slot) <==> CountFits(previous + 1, slot, inc);
    } else {
      LateStretchReachesIff(previous, slot, inc);
    }
  }

  lemma LateStretchReachesIff(previous: Slot, slot: Slot, inc: Increment)
    requires slot <= previous
    ensures (exists x: Slot :: StretchReaches(previous, slot, inc, x)) <==>
            && CountFits(ToSlot(previous + 1), slot, inc)
            && (previous < WORD - 1 ==> ToSlot(inc) < Around(previous + 1, slot))
  {
    hide CountFits, InWrappedGap, ChunkRows, Around;
    if previous == WORD - 1 {
      assert StretchReaches(previous, slot, inc, 0) <==> CountFits(0, slot, inc);
    } else {
      assert ToSlot(previous + 1) == previous + 1;
      WrappedGapRecordsIff(previous + 1, slot, inc);
      var rows := ChunkRows(previous + 1, slot, inc);
      if x: Slot :| Reached(rows, x) {
        StretchRows(previous, slot, inc, x);
        assert StretchReaches(previous, slot, inc, x);
      } else {
        forall x: Slot ensures !StretchReaches(previous, slot, inc, x) {
          StretchRows(previous, slot, inc, x);
        }
      }
    }
  }

  /** So an ordinary fork head after a bad message makes every future slot, up to one increment from the last, a gap. */
  lemma LateHeadFloodsGaps(t: Tables, h: Head, inc: Increment, m: Message, x: Slot)
    requires h.errorSlots != 0 && h.previousSlot != 0 && m.slot.Some? && m.slot.value <= h.previousSlot
    requires CountFits(ToSlot(h.previousSlot + 1), m.slot.value, inc)
    requires h.previousSlot < x && x + ToSlot(inc) < WORD
    ensures Covered(TablesAfterMessage(t, h, inc, m).knownGaps, x)
  {
    hide CountFits, InWrappedGap;
    BadStretchIsRecorded(t, h, inc, m, x);
    WrappedGapGoesUp(h.previousSlot + 1, m.slot.value, inc, x);
  }

  /** The slot of the last good message, 0 before the first. */
  function LastGood(messages: seq<Message>): Slot {
    if messages == [] then 0
    else
      var last := messages[|messages| - 1];
      if last.slot.Some? then last.slot.value else LastGood(messages[..|messages| - 1])
  }

  /** The i-th message resets the error counter if it has to: it is good, and so was one before it, not for slot 0. */
  predicate Resets(messages: seq<Message>, i: nat)
    requires i < |messages|
  {
    messages[i].slot.Some? && LastGood(messages[..i]) != 0
  }

  function BadCount(messages: seq<Message>): nat {
    if messages == [] then 0
    else BadCount(messages[..|messages| - 1]) + if messages[|messages| - 1].slot.None? then 1 else 0
  }

  lemma {:induction false} PreviousIsLastGood(t: Tables, inc: Increment, messages: seq<Message>)
    ensures AfterMessages(t, NO_HEAD, inc, messages).1.previousSlot == LastGood(messages)
  {
    if messages != [] {
      PreviousIsLastGood(t, inc, messages[..|messages| - 1]);
    }
  }

  lemma ResetsPrefix(messages: seq<Message>, n: nat, j: nat)
    requires j < n <= |messages|
    ensures Resets(messages[..n], j) <==> Resets(messages, j)
  {
    assert messages[..n][..j] == messages[..j];
  }

  /**
   What the error counter says, for every sequence of messages: the number of bad ones after the last message that
   could reset it. A good head for slot 0, or the very first good head, does not.
   */
  lemma {:induction false} ErrorsSinceReset(t: Tables, inc: Increment, messages: seq<Message>, k: nat)
    requires k <= |messages| && (k > 0 ==> Resets(messages, k - 1))
    requires forall j :: k <= j < |messages| ==> !Resets(messages, j)
    ensures AfterMessages(t, NO_HEAD, inc, messages).1.errorSlots == BadCount(messages[k..])
    decreases |messages|
  {
    hide TablesAfterMessage;
    if messages != [] {
      var n := |messages| - 1;
      var front := messages[..n];
      PreviousIsLastGood(t, inc, front);
      if k <= n {
        forall j | k <= j < n ensures !Resets(front, j) {
          ResetsPrefix(messages, n, j);
        }
        if k > 0 {
          ResetsPrefix(messages, n, k - 1);
        }
        ErrorsSinceReset(t, inc, front, k);
        assert !Resets(messages, n);
        assert messages[k..] == front[k..] + [messages[n]];
        assert messages[k..][..n - k] == front[k..];
      }
    }
  }

  /** The tracker's fields. */
  class BeaconClient {
    const db: Database
    const increment: Increment
    var startingSlot: Slot
    var previousSlot: Slot
    var previousBlockRoot: Root
    var errorSlots: nat
    var spawned: seq<Task>
    ghost var highest: Slot
    ghost var first: Option<Slot>

    constructor (db: Database, increment: Increment)
      ensures this.db == db && this.increment == increment && AsHead() == NO_HEAD
    {
      this.db, this.increment := db, increment;
      startingSlot, previousSlot, previousBlockRoot, errorSlots, spawned := 0, 0, Blank, 0, [];
      highest, first := 0, None;
    }

    ghost function AsHead(): Head
      reads this
    {
      Head(previousSlot, previousBlockRoot, errorSlots, first, highest, spawned)
    }

    /** One good message: record a stretch of bad ones, spawn the task on the old fields, then move on. */
    method OnGoodHead(slot: Slot, block: Root, stateRoot: Root, budget: nat) returns (fatal: bool)
      requires first.None? <==> |spawned| == 0
      modifies this, db
      ensures fatal <==> GapDies(old(AsHead()), increment, slot, budget)
      ensures fatal ==> db.tables == old(db.tables)
      ensures !fatal ==> startingSlot == if old(previousSlot) == 0 && old(previousBlockRoot) == Blank then slot
                                         else old(startingSlot)
      ensures !fatal ==> db.tables == BadHeadGap(old(db.tables), old(AsHead()), increment, slot)
                         && AsHead() == OnHead(old(AsHead()), increment, slot, block, stateRoot)
    {
      if errorSlots != 0 && previousSlot != 0 {
        fatal := WriteKnownGaps(db, increment, ToSlot(previousSlot + 1), slot, Text("Bad Head Messages"),
                                HeadProcessing, budget);
        if fatal {
          return;
        }
        errorSlots := 0;
      }
      if previousSlot == 0 && previousBlockRoot == Blank {
        startingSlot := slot;
      }
      var args := Args(slot, block, stateRoot, previousSlot, previousBlockRoot, increment, true);
      var phase := if previousSlot == 0 && previousBlockRoot == Blank then BeforeStartUp else BeforeQuery;
      ghost var isFirst := first.None?;
      spawned := spawned + [Task(args, |spawned| == 0, phase)];
      highest := if isFirst || slot > highest then slot else highest;
      first := if isFirst then Some(slot) else first;
      previousSlot := slot;
      previousBlockRoot := block;
      fatal := false;
    }

    /**
     handleHead over a finite stretch of the message stream, with a fault of its own for every gap it writes: it
     handles all messages, or the process ends at the first whose gap meets its fault.
     */
    method HandleHead(messages: seq<Message>, budgets: seq<nat>) returns (fatal: bool, handled: nat)
      requires AsHead() == NO_HEAD && |budgets| == |messages|
      modifies this, db
      ensures handled <= |messages| && (fatal <==> handled < |messages|)
      ensures fatal ==> Dies(old(db.tables), increment, messages, handled, budgets[handled])
      ensures forall k: nat :: k < handled ==> !Dies(old(db.tables), increment, messages, k, budgets[k])
      ensures db.tables == AfterMessages(old(db.tables), NO_HEAD, increment, messages[..handled]).0
      ensures !fatal ==> AsHead() == AfterMessages(old(db.tables), NO_HEAD, increment, messages).1
    {
      fatal, handled := false, 0;
      while handled < |messages|
        invariant 0 <= handled <= |messages| && (first.None? <==> |spawned| == 0)
        invariant forall k: nat :: k < handled ==> !Dies(old(db.tables), increment, messages, k, budgets[k])
        invariant (db.tables, AsHead()) == AfterMessages(old(db.tables), NO_HEAD, increment, messages[..handled])
      {
        var m := messages[handled];
        assert messages[..handled + 1][..handled] == messages[..handled];
        if m.slot == None {
          errorSlots := errorSlots + 1;
        } else {
          fatal := OnGoodHead(m.slot.value, m.block, m.stateRoot, budgets[handled]);
          if fatal {
            return;
          }
        }
        handled := handled + 1;
      }
      assert messages[..handled] == messages;
    }
  }
}

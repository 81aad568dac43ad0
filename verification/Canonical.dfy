/** Which fork is canonical: at most one proposed row per slot while heads are committed one at a time. */
module Canonical {
  import opened Machine
  import opened Tables
  import opened Reorgs
  import opened SlotWrite
  import opened Indexer

  predicate IsProposed(slots: SlotTable, slot: Slot, root: Root) {
    (slot, root) in slots && slots[(slot, root)].status == Proposed
  }

  ghost predicate OneProposedAt(slots: SlotTable, slot: Slot) {
    forall a, b :: IsProposed(slots, slot, a) && IsProposed(slots, slot, b) ==> a == b
  }

  ghost predicate OneProposed(slots: SlotTable) {
    forall slot: Slot :: OneProposedAt(slots, slot)
  }

  ghost predicate RowsBelow(slots: SlotTable, bound: int) {
    forall k :: k in slots ==> k.0 < bound
  }

  lemma ReforkIsCanonical(slots: SlotTable, slot: Slot, root: Root, other: Slot)
    ensures other != slot ==>
              forall r :: IsProposed(Refork(slots, slot, root), other, r) <==> IsProposed(slots, other, r)
    ensures forall r :: IsProposed(Refork(slots, slot, root), slot, r) <==> r == root && (slot, root) in slots
  {
  }

  /** A refork makes its slot canonical and leaves every other slot's proposed rows alone. */
  lemma ReforkKeepsCanonical(slots: SlotTable, slot: Slot, root: Root, other: Slot)
    requires other == slot || OneProposedAt(slots, other)
    ensures OneProposedAt(Refork(slots, slot, root), other)
  {
    ReforkIsCanonical(slots, slot, root, other);
  }

  /** A chain_reorg event keeps every slot canonical. */
  lemma ReorgIsCanonical(t: Tables, slot: Slot, root: Root)
    requires OneProposed(t.slots)
    ensures OneProposed(Reorg(t, slot, root).slots)
    ensures forall k :: k in Reorg(t, slot, root).slots <==> k in t.slots
  {
    ReorgReforks(t, slot, root);
    forall other: Slot ensures OneProposedAt(Reorg(t, slot, root).slots, other) {
      ReforkKeepsCanonical(t.slots, slot, root, other);
    }
  }

  /** The commit proposes no new row, or its fork check settles which row is proposed. */
  predicate ForkHandled(job: Job) {
    job.got.skipped || LinkOf(job).Fork?
  }

  ghost predicate NoRowAt(slots: SlotTable, slot: Slot) {
    forall k :: k in slots ==> k.0 != slot
  }

  lemma InsertIsCanonical(slots: SlotTable, k: (Slot, Root), row: SlotRow, other: Slot)
    requires OneProposedAt(slots, other)
    requires other != k.0 || row.status != Proposed || NoRowAt(slots, k.0)
    ensures OneProposedAt(InsertMissing(slots, k, row), other)
  {
    var after := InsertMissing(slots, k, row);
    forall a, b | IsProposed(after, other, a) && IsProposed(after, other, b) ensures a == b {
      assert (other, a) != k ==> IsProposed(slots, other, a);
      assert (other, b) != k ==> IsProposed(slots, other, b);
    }
  }

  /** A commit onto a fresh slot, or with the fork check, keeps every slot canonical. */
  lemma CommitIsCanonical(t: Tables, job: Job)
    requires OneProposed(t.slots) && (NoRowAt(t.slots, job.args.slot) || ForkHandled(job))
    ensures OneProposed(Committed(t, job).slots)
  {
    CommittedSlots(t, job);
    var slot := job.args.slot;
    var before := InsertMissing(t.slots, SlotKey(job), SlotRowOf(job));
    forall other: Slot ensures OneProposedAt(Committed(t, job).slots, other) {
      if other != slot || !LinkOf(job).Fork? {
        InsertIsCanonical(t.slots, SlotKey(job), SlotRowOf(job), other);
      }
      match LinkOf(job)
      case Fork =>
        ReforkKeepsCanonical(before, slot, job.args.blockRoot, other);
      case Mismatch(parent) => ReforkKeepsCanonical(before, job.args.previousSlot, parent, other);
      case _ =>
    }
  }

  /** The head just committed is the proposed one. */
  lemma CommittedHeadIsProposed(t: Tables, job: Job)
    requires job.args.blockRoot != Blank && !job.got.skipped
    requires NoRowAt(t.slots, job.args.slot) || LinkOf(job).Fork?
    ensures IsProposed(Committed(t, job).slots, job.args.slot, job.args.blockRoot)
  {
    CommittedSlots(t, job);
    var slot := job.args.slot;
    var before := InsertMissing(t.slots, SlotKey(job), SlotRowOf(job));
    assert SlotKey(job) == (slot, job.args.blockRoot) && SlotKey(job) in before;
    match LinkOf(job)
    case Fork => ReforkIsCanonical(before, slot, job.args.blockRoot, slot);
    case Mismatch(parent) => ReforkIsCanonical(before, job.args.previousSlot, parent, slot);
    case _ =>
  }

  /**
   When a second root is committed for a slot that has a proposed row, one proposed row is left exactly when
   the fork check runs: with block processing off, a first head at slot 0 or an empty previous root it does not.
   */
  lemma SecondForkIsCanonicalIff(t: Tables, job: Job, root: Root)
    requires OneProposed(t.slots) && IsProposed(t.slots, job.args.slot, root)
    requires !job.got.skipped && SlotKey(job) !in t.slots
    ensures OneProposedAt(Committed(t, job).slots, job.args.slot) <==> LinkOf(job).Fork?
  {
    var slot := job.args.slot;
    CommittedSlots(t, job);
    if LinkOf(job).Fork? {
      CommitIsCanonical(t, job);
    } else {
      var before := InsertMissing(t.slots, SlotKey(job), SlotRowOf(job));
      assert IsProposed(before, slot, root) && IsProposed(before, slot, FinalBlockRoot(job));
      if LinkOf(job).Mismatch? {
        ReforkIsCanonical(before, job.args.previousSlot, LinkOf(job).parent, slot);
      }
      assert IsProposed(Committed(t, job).slots, slot, root);
      assert IsProposed(Committed(t, job).slots, slot, FinalBlockRoot(job));
    }
  }

  // ---- Over whole runs ----

  ghost predicate AllEnded(h: Head) {
    forall n :: 0 <= n < |h.tasks| ==> h.tasks[n].phase.Ended?
  }

  /**
   Heads are processed one at a time, with nondecreasing slots from 1 on and nonempty roots, and no rows at or
   above the first head when it arrives; chain_reorg events and bad messages come at any moment.
   */
  ghost predicate OneHeadAtATime(s: State, e: Event) {
    && !e.PipeStep? && !e.Join?
    && (e.GoodMessage? ==>
          && AllEnded(s.head) && e.block != Blank && e.slot >= 1 && e.slot >= s.head.previousSlot
          && (s.head.first.None? ==> RowsBelow(s.tables.slots, e.slot)))
  }

  ghost predicate Sequential(states: seq<State>, events: seq<Event>) {
    |states| == |events| + 1 && forall i :: 0 <= i < |events| ==> OneHeadAtATime(states[i], events[i])
  }

  /** The one unfinished task, if any, is the last: no rows are above it, nor beside it unless its slot repeats. */
  ghost predicate TaskCanon(slots: SlotTable, task: Task) {
    var a := task.args;
    && a.head && a.blockRoot != Blank
    && (task.first || a.previousSlot < a.slot ==> RowsBelow(slots, a.slot))
    && (!task.first ==> 1 <= a.previousSlot <= a.slot && a.previousRoot != Blank)
    && (task.phase.BeforeWrite? ==>
          task.phase.job.args == a && (task.phase.job.got.skipped || task.phase.job.got.block.Some?))
  }

  ghost predicate CanonInv(s: State) {
    var h, slots := s.head, s.tables.slots;
    && OneProposed(slots)
    && (h.first.None? ==> h.tasks == [])
    && (h.first.Some? ==> RowsBelow(slots, h.previousSlot + 1) && h.previousSlot >= 1 && h.previousRoot != Blank)
    && (forall n :: 0 <= n < |h.tasks| && !h.tasks[n].phase.Ended? ==>
          n == |h.tasks| - 1 && h.tasks[n].args.slot == h.previousSlot && TaskCanon(slots, h.tasks[n]))
  }

  lemma CommittedRows(t: Tables, job: Job, bound: int)
    requires RowsBelow(t.slots, bound) && job.args.slot < bound
    ensures RowsBelow(Committed(t, job).slots, bound)
  {
    CommittedSlots(t, job);
  }

  lemma TaskForkHandled(slots: SlotTable, task: Task, job: Job)
    requires TaskCanon(slots, task) && task.phase == BeforeWrite(job)
    ensures NoRowAt(slots, job.args.slot) || ForkHandled(job)
    ensures !job.got.skipped ==> NoRowAt(slots, job.args.slot) || LinkOf(job).Fork?
  {
    if !(task.first || job.args.previousSlot < job.args.slot) && !job.got.skipped {
      assert LinkOf(job) == Fork;
    }
  }

  /** A task's own step on the slots table. */
  lemma TaskSlots(t: Tables, task: Task, te: TaskEvent)
    requires TaskEnabled(t, task, te)
    ensures !te.RunWrite? ==> TaskTables(t, task, te).slots == t.slots
    ensures te.RunWrite? && Execute(t, task.phase.job, te.faults).0 != Done ==> TaskTables(t, task, te) == t
    ensures te.RunWrite? && Execute(t, task.phase.job, te.faults).0 == Done ==>
              TaskTables(t, task, te) == Committed(t, task.phase.job)
  {
  }

  lemma TaskStepIsCanonical(s: State, setup: Setup, e: Event)
    requires CanonInv(s) && Possible(s, setup, e) && e.TaskStep? && setup.cfg.blocks
    ensures CanonInv(Step(s, setup, e))
  {
    var t, t', task := s.tables, Step(s, setup, e).tables, s.head.tasks[e.n];
    assert !task.phase.Ended?;
    TaskSlots(t, task, e.te);
    if e.te.RunWrite? && Execute(t, task.phase.job, e.te.faults).0 == Done {
      TaskForkHandled(t.slots, task, task.phase.job);
      CommitIsCanonical(t, task.phase.job);
      CommittedRows(t, task.phase.job, s.head.previousSlot + 1);
    }
  }

  lemma HeadStepIsCanonical(s: State, setup: Setup, e: Event)
    requires CanonInv(s) && e.GoodMessage? && OneHeadAtATime(s, e)
    ensures CanonInv(Step(s, setup, e))
  {
    hide BadHeadGap;
    BadHeadGapKeepsRows(s.tables, s.head, setup.inc, e.slot);
    assert Step(s, setup, e).tables.slots == s.tables.slots;
  }

  lemma StepIsCanonical(s: State, setup: Setup, e: Event)
    requires CanonInv(s) && Possible(s, setup, e) && OneHeadAtATime(s, e) && setup.cfg.blocks
    ensures CanonInv(Step(s, setup, e))
  {
    if e.TaskStep? {
      TaskStepIsCanonical(s, setup, e);
    } else if e.GoodMessage? {
      HeadStepIsCanonical(s, setup, e);
    } else if e.ReorgMessage? {
      ReorgIsCanonical(s.tables, e.slot, e.root);
    } else {
      assert Step(s, setup, e).tables.slots == s.tables.slots;
    }
  }

  /** At most one fork of any slot is canonical, in every reachable state. */
  lemma {:induction false} AtMostOneForkIsCanonical(setup: Setup, states: seq<State>, events: seq<Event>, i: nat)
    requires Run(setup, states, events) && Sequential(states, events) && setup.cfg.blocks && i < |states|
    requires OneProposed(states[0].tables.slots)
    ensures CanonInv(states[i]) && OneProposed(states[i].tables.slots)
  {
    if i > 0 {
      AtMostOneForkIsCanonical(setup, states, events, i - 1);
      assert Follows(setup, states, events, i - 1);
      assert OneHeadAtATime(states[i - 1], events[i - 1]);
      StepIsCanonical(states[i - 1], setup, events[i - 1]);
    }
  }

  /** And right after a head that has a block is committed, its root is the one proposed row of its slot. */
  lemma CommittedHeadIsCanonical(setup: Setup, states: seq<State>, events: seq<Event>, i: nat)
    requires Run(setup, states, events) && Sequential(states, events) && setup.cfg.blocks && i < |events|
    requires OneProposed(states[0].tables.slots)
    requires Follows(setup, states, events, i) && events[i].TaskStep? && events[i].te.RunWrite?
    requires var job := states[i].head.tasks[events[i].n].phase.job;
             Execute(states[i].tables, job, events[i].te.faults).0 == Done && !job.got.skipped
    ensures var args := states[i].head.tasks[events[i].n].args;
            && IsProposed(states[i + 1].tables.slots, args.slot, args.blockRoot)
            && OneProposedAt(states[i + 1].tables.slots, args.slot)
  {
    var s, e := states[i], events[i];
    var task := s.head.tasks[e.n];
    var job := task.phase.job;
    AtMostOneForkIsCanonical(setup, states, events, i);
    AtMostOneForkIsCanonical(setup, states, events, i + 1);
    TaskForkHandled(s.tables.slots, task, job);
    CommittedHeadIsProposed(s.tables, job);
    TaskSlots(s.tables, task, e.te);
  }
}

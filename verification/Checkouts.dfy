/** Who may work on a row: a checked-out row is not handed out again before it is released or deleted. */
module Checkouts {
  import opened Machine
  import opened Tables
  import opened KnownGaps
  import opened Reorgs
  import opened SlotWrite
  import opened WorkQueue
  import opened Pipeline
  import opened Indexer

  /** Rows keep their locks, and rows that appear are free. */
  ghost predicate LockFrame(w: Work, w': Work) {
    && (forall k :: k in w ==>
          k in w' && w'[k].checkedOut == w[k].checkedOut && w'[k].checkedOutBy == w[k].checkedOutBy)
    && (forall k :: k in w' && k !in w ==> !w'[k].checkedOut && w'[k].checkedOutBy == None)
  }

  lemma InsertGapsFrame(w: Work, rows: seq<Range>, error: Text, process: Process)
    ensures LockFrame(w, InsertGaps(w, rows, NewGap(error, process)))
  {
    InsertGapsIsUnion(w, rows, NewGap(error, process));
  }

  lemma ReorgFrame(t: Tables, slot: Slot, root: Root)
    ensures LockFrame(t.knownGaps, Reorg(t, slot, root).knownGaps) && Reorg(t, slot, root).historic == t.historic
  {
    ReorgReforks(t, slot, root);
  }

  lemma CommitFrame(t: Tables, job: Job)
    ensures LockFrame(t.knownGaps, Committed(t, job).knownGaps) && Committed(t, job).historic == t.historic
  {
    var full, a := FullSlot(t, job), job.args;
    FullSlotFrame(t, job);
    CommitKeepsRows(t, job);
    match LinkOf(job)
    case Fork => ReorgFrame(full, a.slot, a.blockRoot);
    case Mismatch(parent) => ReorgFrame(full, a.previousSlot, parent);
    case Jump =>
      var rows := ChunkRows(ToSlot(a.previousSlot + 1), ToSlot(a.slot - 1), a.increment);
      InsertGapsFrame(full.knownGaps, rows, Text("gaps during head processing"), HeadGaps);
    case _ =>
  }

  /** Any number of statements of a slot transaction: nothing, or the commit. */
  lemma ExecuteFrame(t: Tables, job: Job, faults: Faults)
    ensures var t' := Execute(t, job, faults).1;
            LockFrame(t.knownGaps, t'.knownGaps) && LockFrame(t.historic, t'.historic)
  {
    CommitFrame(t, job);
  }

  lemma StartUpFrame(t: Tables, inc: Increment, first: Slot, highest: Slot)
    ensures var t' := StartUpGap.StartUpGaps(t, inc, first, highest);
            LockFrame(t.knownGaps, t'.knownGaps) && t'.historic == t.historic
  {
    var last := ToSlot(first - 1);
    if highest < last {
      InsertGapsFrame(t.knownGaps, ChunkRows(if highest == 0 then 0 else highest + 1, last, inc), Blank, StartUp);
    }
  }

  lemma TaskFrame(t: Tables, task: Task, te: TaskEvent)
    requires TaskEnabled(t, task, te)
    ensures var t' := TaskTables(t, task, te);
            LockFrame(t.knownGaps, t'.knownGaps) && LockFrame(t.historic, t'.historic)
  {
    var inc, slot := task.args.increment, task.args.slot;
    match te
    case RunStartUp =>
      StartUpFrame(t, inc, slot, StartUpGap.Highest(t));
    case RunQuery(_, _) =>
    case RunWrite(faults) => ExecuteFrame(t, task.phase.job, faults);
    case RunRecord(error) => InsertGapsFrame(t.knownGaps, ChunkRows(slot, slot, inc), error, task.phase.reason);
  }

  lemma PipeFrame(t: Tables, p: Pipe, cfg: Config, e: PipeEvent)
    requires Enabled(t, p, cfg, e) && !e.Checkout? && !e.Delete?
    ensures var t' := NextTables(t, p, cfg, e);
            LockFrame(t.knownGaps, t'.knownGaps) && LockFrame(t.historic, t'.historic)
  {
    match e
    case Write(j, faults) => ExecuteFrame(t, p.workers[j].phase.job, faults);
    case Settle(fails) =>
      if p.handler.Inserting? {
        InsertGapsFrame(t.knownGaps, ChunkRows(p.handler.slot, p.handler.slot, 1), p.handler.error, p.handler.reason);
      }
    case _ =>
  }

  /** The event hands the row of that table to a node. */
  ghost predicate Dispatches(s: State, e: Event, kind: Kind, r: Range) {
    e.PipeStep? && e.i < |s.pipes| && s.pipes[e.i].kind == kind && e.e == PipeEvent.Checkout(r)
  }

  /** The event deletes the row, or is the restart of the node that holds it. */
  ghost predicate Frees(s: State, e: Event, kind: Kind, r: Range) {
    || (e.PipeStep? && e.i < |s.pipes| && s.pipes[e.i].kind == kind && e.e.Delete?
        && e.e.remover < |s.pipes[e.i].removers| && s.pipes[e.i].removers[e.e.remover].range == r)
    || (e.Join? && !e.releaseFails && e.kind == kind && r in WorkOf(s.tables, kind)
        && WorkOf(s.tables, kind)[r].checkedOutBy == Some(e.node))
  }

  ghost predicate Locked(t: Tables, kind: Kind, r: Range) {
    r in WorkOf(t, kind) && WorkOf(t, kind)[r].checkedOut
  }

  /** All steps but check-outs, deletions and restarts leave both lock columns alone. */
  lemma StepFrame(s: State, setup: Setup, e: Event)
    requires Possible(s, setup, e) && !e.Join? && (e.PipeStep? ==> !e.e.Checkout? && !e.e.Delete?)
    ensures var t' := Step(s, setup, e).tables;
            LockFrame(s.tables.knownGaps, t'.knownGaps) && LockFrame(s.tables.historic, t'.historic)
  {
    var t := s.tables;
    match e
    case PipeStep(i, pe) => PipeFrame(t, s.pipes[i], CfgOf(setup, s.pipes[i]), pe);
    case TaskStep(n, te) => TaskFrame(t, s.head.tasks[n], te);
    case ReorgMessage(slot, root) => ReorgFrame(t, slot, root);
    case GoodMessage(slot, _, _) =>
      InsertGapsFrame(t.knownGaps, ChunkRows(ToSlot(s.head.previousSlot + 1), slot, setup.inc),
                      Text("Bad Head Messages"), HeadProcessing);
    case _ =>
  }

  ghost predicate BothPaired(t: Tables) {
    LocksPaired(t.knownGaps) && LocksPaired(t.historic)
  }

  ghost predicate LockedIn(w: Work, r: Range) {
    r in w && w[r].checkedOut
  }

  lemma FrameKeepsLocks(w: Work, w': Work, r: Range)
    requires LockFrame(w, w')
    ensures LocksPaired(w) ==> LocksPaired(w')
    ensures LockedIn(w, r) ==> LockedIn(w', r)
  {
  }

  lemma LockKeepsLocks(w: Work, q: Range, node: int, r: Range)
    requires q in w
    ensures LocksPaired(w) ==> LocksPaired(Lock(w, q, node))
    ensures LockedIn(w, r) ==> LockedIn(Lock(w, q, node), r)
    ensures LockedIn(Lock(w, q, node), q)
  {
  }

  lemma ReleaseKeepsLocks(w: Work, node: int, r: Range)
    requires LocksPaired(w)
    ensures LocksPaired(Release(w, node))
    ensures LockedIn(w, r) && w[r].checkedOutBy != Some(node) ==> LockedIn(Release(w, node), r)
  {
  }

  lemma DeletionKeepsLocks(w: Work, q: Range, r: Range)
    ensures LocksPaired(w) ==> LocksPaired(w - {q})
    ensures LockedIn(w, r) && r != q ==> LockedIn(w - {q}, r)
  {
  }

  /** A restart touches the locks of its own table only. */
  lemma JoinKeepsLocks(s: State, setup: Setup, e: Event, kind: Kind, r: Range)
    requires Possible(s, setup, e) && BothPaired(s.tables) && e.Join?
    ensures BothPaired(Step(s, setup, e).tables)
    ensures Locked(s.tables, kind, r) && !Frees(s, e, kind, r) ==> Locked(Step(s, setup, e).tables, kind, r)
  {
    ReleaseKeepsLocks(WorkOf(s.tables, e.kind), e.node, r);
  }

  /** So do a check-out and a deletion. */
  lemma PipeStepKeepsLocks(s: State, setup: Setup, e: Event, kind: Kind, r: Range)
    requires Possible(s, setup, e) && BothPaired(s.tables)
    requires e.PipeStep? && (e.e.Checkout? || e.e.Delete?)
    ensures BothPaired(Step(s, setup, e).tables)
    ensures Locked(s.tables, kind, r) && !Frees(s, e, kind, r) ==> Locked(Step(s, setup, e).tables, kind, r)
  {
    var p := s.pipes[e.i];
    var w := WorkOf(s.tables, p.kind);
    if e.e.Checkout? {
      LockKeepsLocks(w, e.e.range, p.node, r);
    } else {
      DeletionKeepsLocks(w, p.removers[e.e.remover].range, r);
    }
  }

  /** One step: a locked row stays locked unless the step frees it; locks stay paired with their owners. */
  lemma StepKeepsLocks(s: State, setup: Setup, e: Event, kind: Kind, r: Range)
    requires Possible(s, setup, e) && BothPaired(s.tables)
    ensures BothPaired(Step(s, setup, e).tables)
    ensures Locked(s.tables, kind, r) && !Frees(s, e, kind, r) ==> Locked(Step(s, setup, e).tables, kind, r)
  {
    if e.Join? {
      JoinKeepsLocks(s, setup, e, kind, r);
    } else if e.PipeStep? && (e.e.Checkout? || e.e.Delete?) {
      PipeStepKeepsLocks(s, setup, e, kind, r);
    } else {
      StepFrame(s, setup, e);
      var t' := Step(s, setup, e).tables;
      FrameKeepsLocks(s.tables.knownGaps, t'.knownGaps, r);
      FrameKeepsLocks(s.tables.historic, t'.historic, r);
    }
  }

  lemma DispatchLocks(s: State, setup: Setup, e: Event, kind: Kind, r: Range)
    requires Possible(s, setup, e) && Dispatches(s, e, kind, r)
    ensures !Locked(s.tables, kind, r) && Locked(Step(s, setup, e).tables, kind, r)
  {
  }

  /** checked_out holds exactly when checked_out_by is set, in every reachable state. */
  lemma {:induction false} LocksHaveOwners(setup: Setup, states: seq<State>, events: seq<Event>, i: nat)
    requires Run(setup, states, events) && i < |states|
    ensures BothPaired(states[i].tables)
  {
    if i > 0 {
      LocksHaveOwners(setup, states, events, i - 1);
      assert Follows(setup, states, events, i - 1);
      StepKeepsLocks(states[i - 1], setup, events[i - 1], HistoricRows, Range(0, 0));
    }
  }

  lemma RunStepKeepsLock(setup: Setup, states: seq<State>, events: seq<Event>, j: nat, kind: Kind, r: Range)
    requires Run(setup, states, events) && j < |events|
    ensures Locked(states[j].tables, kind, r) && !Frees(states[j], events[j], kind, r) ==>
              Locked(states[j + 1].tables, kind, r)
    ensures Dispatches(states[j], events[j], kind, r) ==>
              !Locked(states[j].tables, kind, r) && Locked(states[j + 1].tables, kind, r)
  {
    LocksHaveOwners(setup, states, events, j);
    assert Follows(setup, states, events, j);
    StepKeepsLocks(states[j], setup, events[j], kind, r);
    if Dispatches(states[j], events[j], kind, r) {
      DispatchLocks(states[j], setup, events[j], kind, r);
    }
  }

  lemma {:induction false} LockedUntilFreed(setup: Setup, states: seq<State>, events: seq<Event>, i: nat, j: nat,
                                            kind: Kind, r: Range)
    requires Run(setup, states, events) && i < j <= |events| && Dispatches(states[i], events[i], kind, r)
    requires forall m :: i < m < j ==> !Frees(states[m], events[m], kind, r)
    ensures Locked(states[j].tables, kind, r)
  {
    RunStepKeepsLock(setup, states, events, j - 1, kind, r);
    if i < j - 1 {
      LockedUntilFreed(setup, states, events, i, j - 1, kind, r);
    }
  }

  /**
   Exclusive checkout: between two dispatches of the same row, whoever made them, the row was deleted or
   released by a restart of the node that held it.
   */
  lemma RowsAreDispatchedOnce(setup: Setup, states: seq<State>, events: seq<Event>, i: nat, j: nat, kind: Kind,
                              r: Range)
    requires Run(setup, states, events) && i < j < |events|
    requires Dispatches(states[i], events[i], kind, r) && Dispatches(states[j], events[j], kind, r)
    ensures exists m :: i < m < j && Frees(states[m], events[m], kind, r)
  {
    RunStepKeepsLock(setup, states, events, j, kind, r);
    if forall m :: i < m < j ==> !Frees(states[m], events[m], kind, r) {
      LockedUntilFreed(setup, states, events, i, j, kind, r);
    }
  }

  // ---- Rows that are not retried ----

  lemma {:induction false} KnownSlotsStay(setup: Setup, states: seq<State>, events: seq<Event>, i: nat, j: nat, x: Slot)
    requires Run(setup, states, events) && Working(setup) && i <= j < |states|
    requires SlotKnown(states[i].tables, x)
    ensures SlotKnown(states[j].tables, x)
  {
    hide Step, Possible, Inv, SlotKnown;
    if i < j {
      KnownSlotsStay(setup, states, events, i, j - 1, x);
      RunKeepsInv(setup, states, events, j - 1);
      assert Follows(setup, states, events, j - 1);
      StepKeepsKnown(states[j - 1], setup, events[j - 1], x);
    }
  }

  lemma StepKeepsKnown(s: State, setup: Setup, e: Event, x: Slot)
    requires Inv(s) && Possible(s, setup, e) && Working(setup) && SlotKnown(s.tables, x)
    ensures SlotKnown(Step(s, setup, e).tables, x)
  {
    hide Enabled, NextTables, NextPipe, TaskEnabled, TaskTables, NextTask, PipeOk, Integrity, WorkOk, HeadOk, SlotKnown;
    if e.PipeStep? {
      StepIsSound(s.tables, s.pipes[e.i], CfgOf(setup, s.pipes[e.i]), e.e);
    } else {
      OtherTablesAreSafe(s, setup, e);
    }
  }

  /** A node restarts, without its lock release failing, while it holds the row. */
  ghost predicate HolderRestarts(s: State, e: Event, kind: Kind, r: Range) {
    && e.Join? && !e.releaseFails && e.kind == kind && r in WorkOf(s.tables, kind)
    && WorkOf(s.tables, kind)[r].checkedOutBy == Some(e.node)
  }

  lemma FreedRowIsStored(setup: Setup, states: seq<State>, events: seq<Event>, m: nat, j: nat, kind: Kind, r: Range)
    requires Run(setup, states, events) && Working(setup) && m <= j < |states| && m < |events|
    requires Frees(states[m], events[m], kind, r) && !HolderRestarts(states[m], events[m], kind, r)
    ensures SlotKnown(states[j].tables, r.start) && SlotKnown(states[j].tables, r.end)
  {
    hide Step, Integrity, WorkOk, HeadOk;
    var s, e := states[m], events[m];
    RunKeepsInv(setup, states, events, m);
    assert Follows(setup, states, events, m);
    assert PipeOk(s.tables, s.pipes[e.i]) && RemoverOk(s.tables, s.pipes[e.i].removers[e.e.remover]);
    KnownSlotsStay(setup, states, events, m, j, r.start);
    KnownSlotsStay(setup, states, events, m, j, r.end);
  }

  /**
   A dispatched row is not handed out again while one of its ends is missing, unless a node that holds it restarts: it
   stays in its table, locked. In particular a [slot,slot] gap whose slot failed is never retried in the same run,
   however its priority is raised.
   */
  lemma FailedRowsAreNotRetried(setup: Setup, states: seq<State>, events: seq<Event>, i: nat, j: nat, kind: Kind,
                                r: Range)
    requires Run(setup, states, events) && Working(setup) && i < j <= |events|
    requires Dispatches(states[i], events[i], kind, r)
    requires !SlotKnown(states[j].tables, r.start) || !SlotKnown(states[j].tables, r.end)
    requires forall m :: i < m < j ==> !HolderRestarts(states[m], events[m], kind, r)
    ensures Locked(states[j].tables, kind, r)
    ensures j < |events| ==> !Dispatches(states[j], events[j], kind, r)
  {
    hide Step, Frees, HolderRestarts, SlotKnown;
    forall m | i < m < j ensures !Frees(states[m], events[m], kind, r) {
      if Frees(states[m], events[m], kind, r) {
        FreedRowIsStored(setup, states, events, m, j, kind, r);
      }
    }
    LockedUntilFreed(setup, states, events, i, j, kind, r);
    if j < |events| {
      RunStepKeepsLock(setup, states, events, j, kind, r);
    }
  }
}

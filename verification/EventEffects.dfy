/** What each event of a run does to the tables and the head tracker, and what it leaves alone. */
module EventEffects {
  import opened Machine
  import opened Tables
  import opened KnownGaps
  import opened Reorgs
  import opened SlotWrite
  import opened WorkQueue
  import opened Pipeline
  import opened Indexer
  import opened SlotEffects
  import opened HeadTracking
  import Reachable

  // ---- Reorgs ----

  /** A chain_reorg event settles its slot at once, whatever else is going on. */
  lemma ReorgTakesEffect(setup: Setup, states: seq<State>, events: seq<Event>, i: nat)
    requires Run(setup, states, events) && i < |events| && events[i].ReorgMessage?
    ensures Reorganized(states[i].tables, states[i + 1].tables, events[i].slot, events[i].root)
  {
    assert Follows(setup, states, events, i);
    ReorgReorganizes(states[i].tables, events[i].slot, events[i].root);
  }

  /** The root named by the last reorg event for the slot from the i-th event up to the j-th. */
  function LastReorg(events: seq<Event>, i: nat, j: nat, slot: Slot): Option<Root>
    requires i <= j <= |events|
  {
    if i == j then None
    else if events[j - 1].ReorgMessage? && events[j - 1].slot == slot then Some(events[j - 1].root)
    else LastReorg(events, i, j - 1, slot)
  }

  /** A head for the slot, or for the one whose previous head it was, is being committed. */
  ghost predicate HeadWrites(s: State, e: Event, slot: Slot) {
    && e.TaskStep? && e.te.RunWrite? && e.n < |s.head.tasks|
    && (s.head.tasks[e.n].args.slot == slot || s.head.tasks[e.n].args.previousSlot == slot)
  }

  lemma WriteKeepsStatus(t: Tables, job: Job, faults: Faults, k: (Slot, Root))
    requires k in t.slots
    requires !job.args.head || (job.args.slot != k.0 && job.args.previousSlot != k.0)
    ensures k in Execute(t, job, faults).1.slots && Execute(t, job, faults).1.slots[k] == t.slots[k]
  {
    CommittedSlots(t, job);
  }

  lemma PipeKeepsStatus(t: Tables, p: Pipe, cfg: Config, pe: PipeEvent, k: (Slot, Root))
    requires PipeOk(t, p) && Enabled(t, p, cfg, pe) && k in t.slots
    ensures k in NextTables(t, p, cfg, pe).slots && NextTables(t, p, cfg, pe).slots[k] == t.slots[k]
  {
    hide Execute, Prepare;
    if pe.Write? {
      assert WorkerOk(p.workers[pe.worker]);
      WriteKeepsStatus(t, p.workers[pe.worker].phase.job, pe.faults, k);
    } else {
      Reachable.PipeStepRows(t, p, cfg, pe);
    }
  }

  lemma TaskKeepsStatus(t: Tables, task: Task, te: TaskEvent, k: (Slot, Root))
    requires TaskOk(task) && TaskEnabled(t, task, te) && k in t.slots
    requires te.RunWrite? ==> task.args.slot != k.0 && task.args.previousSlot != k.0
    ensures k in TaskTables(t, task, te).slots && TaskTables(t, task, te).slots[k] == t.slots[k]
  {
    hide Execute;
    if te.RunWrite? {
      WriteKeepsStatus(t, task.phase.job, te.faults, k);
    }
  }

  lemma StepKeepsStatus(s: State, setup: Setup, e: Event, k: (Slot, Root))
    requires Inv(s) && Possible(s, setup, e) && k in s.tables.slots
    requires !HeadWrites(s, e, k.0) && !(e.ReorgMessage? && e.slot == k.0)
    ensures k in Step(s, setup, e).tables.slots && Step(s, setup, e).tables.slots[k] == s.tables.slots[k]
  {
    hide Enabled, NextTables, NextPipe, TaskEnabled, TaskTables, PipeOk, Integrity, WorkOk, Reorg, InsertGaps;
    match e
    case PipeStep(i, pe) => PipeKeepsStatus(s.tables, s.pipes[i], CfgOf(setup, s.pipes[i]), pe, k);
    case TaskStep(n, te) => TaskKeepsStatus(s.tables, s.head.tasks[n], te, k);
    case ReorgMessage(slot, root) => ReorgReorganizes(s.tables, slot, root);
    case _ =>
  }

  /**
   A row of the slots table changes by reorg events and head commits only: over any stretch of a run in which no head
   of its slot or of the following one commits, its status is that of the last reorg event naming its slot.
   */
  lemma {:induction false} RowsFollowReorgs(setup: Setup, states: seq<State>, events: seq<Event>, i: nat, j: nat,
                                            k: (Slot, Root))
    requires Run(setup, states, events) && Working(setup) && i <= j <= |events| && k in states[i].tables.slots
    requires forall m :: i <= m < j ==> !HeadWrites(states[m], events[m], k.0)
    ensures var row, slots := states[i].tables.slots[k], states[j].tables.slots;
            && k in slots
            && slots[k] == match LastReorg(events, i, j, k.0)
                           case None => row
                           case Some(root) =>
                             SlotRow(row.epoch, row.stateRoot, if k.1 == root then Proposed else Forked)
  {
    hide Step, Possible, Inv, HeadWrites;
    if i < j {
      RowsFollowReorgs(setup, states, events, i, j - 1, k);
      RunKeepsInv(setup, states, events, j - 1);
      assert Follows(setup, states, events, j - 1);
      if events[j - 1].ReorgMessage? && events[j - 1].slot == k.0 {
        ReorgTakesEffect(setup, states, events, j - 1);
      } else {
        StepKeepsStatus(states[j - 1], setup, events[j - 1], k);
      }
    }
  }

  // ---- Work rows ----

  /** What a step of a pipe makes of a row of its own table or of known_gaps; None if it is deleted. */
  function RowAfterPipe(p: Pipe, pe: PipeEvent, kind: Kind, k: Range, row: WorkRow): Option<WorkRow> {
    match pe
    case Checkout(r) =>
      Some(if kind == p.kind && k == r then row.(checkedOut := true, checkedOutBy := Some(p.node)) else row)
    case Delete(j) => if kind == p.kind && j < |p.removers| && p.removers[j].range == k then None else Some(row)
    case Settle(fails) =>
      var h := p.handler;
      Some(if kind == GapRows && h.Updating? && !fails && k == Range(h.slot, h.slot)
           then row.(reprocessingError := h.error, priority := row.priority + 1) else row)
    case _ => Some(row)
  }

  /** What an event makes of a row that is in a work table. */
  function RowAfter(s: State, e: Event, kind: Kind, k: Range, row: WorkRow): Option<WorkRow> {
    match e
    case PipeStep(i, pe) => if i < |s.pipes| then RowAfterPipe(s.pipes[i], pe, kind, k, row) else Some(row)
    case Join(joining, node, _, _, fails) =>
      Some(if kind == joining && !fails && row.checkedOutBy == Some(node)
           then row.(checkedOut := false, checkedOutBy := None) else row)
    case _ => Some(row)
  }

  /** The work table holds the row as given, or not at all. */
  predicate Holding(w: Work, k: Range, row: Option<WorkRow>) {
    if row.Some? then k in w && w[k] == row.value else k !in w
  }

  lemma TaskKeepsRows(t: Tables, task: Task, te: TaskEvent)
    requires TaskEnabled(t, task, te)
    ensures RowsKept(t.knownGaps, TaskTables(t, task, te).knownGaps)
    ensures TaskTables(t, task, te).historic == t.historic
  {
    hide Execute, StartUpGap.StartUpGaps, RecordFailure;
    match te
    case RunStartUp => StartUpTables(t, task.args.increment, task.args.slot, StartUpGap.Highest(t));
    case RunQuery(_, _) =>
    case RunWrite(faults) => ExecuteKeepsRows(t, task.phase.job, faults);
    case RunRecord(error) => RecordTables(t, task.args.slot, task.args.increment, error, task.phase.reason);
  }

  lemma SettleChangesRow(t: Tables, h: Handler, fails: bool, k: Range)
    requires k in t.knownGaps && (h.Updating? || h.Inserting?)
    ensures SettleError(t, h, fails).historic == t.historic && k in SettleError(t, h, fails).knownGaps
    ensures var row := t.knownGaps[k];
            SettleError(t, h, fails).knownGaps[k] ==
            if h.Updating? && !fails && k == Range(h.slot, h.slot)
            then row.(reprocessingError := h.error, priority := row.priority + 1) else row
  {
    if h.Inserting? {
      RecordTables(t, h.slot, 1, h.error, h.reason);
    }
  }

  lemma SettleKeepsHistoric(t: Tables, h: Handler, fails: bool)
    ensures SettleError(t, h, fails).historic == t.historic
  {
  }

  lemma PipeChangesRow(t: Tables, p: Pipe, cfg: Config, pe: PipeEvent, kind: Kind, k: Range)
    requires Enabled(t, p, cfg, pe) && k in WorkOf(t, kind)
    ensures Holding(WorkOf(NextTables(t, p, cfg, pe), kind), k, RowAfterPipe(p, pe, kind, k, WorkOf(t, kind)[k]))
  {
    hide Execute, Prepare, SettleError;
    match pe
    case Write(j, faults) => ExecuteKeepsRows(t, p.workers[j].phase.job, faults);
    case Settle(fails) =>
      SettleKeepsHistoric(t, p.handler, fails);
      if kind == GapRows {
        SettleChangesRow(t, p.handler, fails, k);
      }
    case Checkout(r) => OtherTableStays(t, p.kind, Lock(WorkOf(t, p.kind), r, p.node), kind);
    case Delete(j) => OtherTableStays(t, p.kind, WorkOf(t, p.kind) - {p.removers[j].range}, kind);
    case _ =>
  }

  lemma OtherTableStays(t: Tables, kind: Kind, w: Work, other: Kind)
    ensures WorkOf(WithWork(t, kind, w), other) == if other == kind then w else WorkOf(t, other)
  {
  }

  lemma ExecuteKeepsRows(t: Tables, job: Job, faults: Faults)
    ensures RowsKept(t.knownGaps, Execute(t, job, faults).1.knownGaps)
    ensures Execute(t, job, faults).1.historic == t.historic
  {
    CommitKeepsRows(t, job);
  }

  /**
   Exactly what happens to a work row: a check-out locks it for the node, its remover deletes it, a failed retry notes
   its error and moves it back by one, a joining pipeline of its holder frees it; no other event touches it.
   */
  lemma RowsChangeOnlySo(s: State, setup: Setup, e: Event, kind: Kind, k: Range)
    requires Possible(s, setup, e) && k in WorkOf(s.tables, kind)
    ensures Holding(WorkOf(Step(s, setup, e).tables, kind), k, RowAfter(s, e, kind, k, WorkOf(s.tables, kind)[k]))
  {
    hide Enabled, NextTables, NextPipe, TaskEnabled, TaskTables, RowAfterPipe, Reorg, BadHeadGap, WithWork;
    match e
    case Join(joining, node, _, _, _) =>
      OtherTableStays(s.tables, joining, Release(WorkOf(s.tables, joining), node), kind);
    case AddWork(added, r, priority) =>
      OtherTableStays(s.tables, added, InsertMissing(WorkOf(s.tables, added), r, AddedWork(priority)), kind);
    case PipeStep(i, pe) => PipeChangesRow(s.tables, s.pipes[i], CfgOf(setup, s.pipes[i]), pe, kind, k);
    case TaskStep(n, te) => TaskKeepsRows(s.tables, s.head.tasks[n], te);
    case ReorgMessage(slot, root) =>
      ReorgKeepsRows(s.tables, slot, root);
      ReorgReforks(s.tables, slot, root);
    case GoodMessage(slot, _, _) => BadHeadGapKeepsRows(s.tables, s.head, setup.inc, slot);
    case _ =>
  }

  /** A gap row that a step of a head task adds. */
  predicate TaskWrote(task: Task, te: TaskEvent, k: Range, row: WorkRow) {
    match te
    case RunStartUp => FreshGap(row, Blank, StartUp)
    case RunQuery(_, _) => false
    case RunWrite(_) =>
      || FreshGap(row, Text("gaps during head processing"), HeadGaps)
      || FreshGap(row, NO_PROPOSED_ROW, ReorgStep)
    case RunRecord(error) =>
      && task.phase.BeforeRecord? && k == Range(task.args.slot, task.args.slot)
      && FreshGap(row, error, task.phase.reason)
  }

  /** A gap row that a step of a pipe adds. */
  predicate PipeWrote(p: Pipe, pe: PipeEvent, k: Range, row: WorkRow) {
    && pe.Settle? && p.handler.Inserting? && k == Range(p.handler.slot, p.handler.slot)
    && FreshGap(row, p.handler.error, p.handler.reason)
  }

  /** Who wrote a row that was not there before, and what it says. */
  ghost predicate WrittenBy(s: State, e: Event, kind: Kind, k: Range, row: WorkRow) {
    match e
    case AddWork(_, r, priority) =>
      kind == e.kind && k == r && !row.checkedOut && row.checkedOutBy == None && row.priority == priority
    case GoodMessage(_, _, _) => kind == GapRows && FreshGap(row, Text("Bad Head Messages"), HeadProcessing)
    case ReorgMessage(slot, _) =>
      kind == GapRows && k == Range(slot, slot) && FreshGap(row, NO_PROPOSED_ROW, ReorgStep)
    case TaskStep(n, te) => kind == GapRows && n < |s.head.tasks| && TaskWrote(s.head.tasks[n], te, k, row)
    case PipeStep(i, pe) => kind == GapRows && i < |s.pipes| && PipeWrote(s.pipes[i], pe, k, row)
    case _ => false
  }

  lemma CommitWritesGaps(t: Tables, job: Job, k: Range)
    requires k !in t.knownGaps && k in Committed(t, job).knownGaps
    ensures job.args.head
    ensures var row := Committed(t, job).knownGaps[k];
            FreshGap(row, Text("gaps during head processing"), HeadGaps) || FreshGap(row, NO_PROPOSED_ROW, ReorgStep)
  {
    hide FullSlot, ChunkRows, InsertGaps, Reorg, ToSlot, FreshGap;
    var full, a := FullSlot(t, job), job.args;
    FullSlotFrame(t, job);
    match LinkOf(job)
    case Fork => ReorgReorganizes(full, a.slot, a.blockRoot);
    case Mismatch(parent) => ReorgReorganizes(full, a.previousSlot, parent);
    case Jump =>
      GapIsWritten(full.knownGaps, ToSlot(a.previousSlot + 1), ToSlot(a.slot - 1), a.increment,
                   Text("gaps during head processing"), HeadGaps);
    case _ =>
  }

  lemma ExecuteWritesGaps(t: Tables, job: Job, faults: Faults, k: Range)
    requires k !in t.knownGaps && k in Execute(t, job, faults).1.knownGaps
    ensures job.args.head
    ensures var row := Execute(t, job, faults).1.knownGaps[k];
            FreshGap(row, Text("gaps during head processing"), HeadGaps) || FreshGap(row, NO_PROPOSED_ROW, ReorgStep)
  {
    hide Committed, FreshGap;
    CommitWritesGaps(t, job, k);
  }

  lemma StartUpWritesGaps(t: Tables, inc: Increment, first: Slot, highest: Slot, k: Range)
    requires var t' := StartUpGap.StartUpGaps(t, inc, first, highest); k !in t.knownGaps && k in t'.knownGaps
    ensures FreshGap(StartUpGap.StartUpGaps(t, inc, first, highest).knownGaps[k], Blank, StartUp)
  {
    hide ChunkRows, FreshGap;
    var last := ToSlot(first - 1);
    if highest < last {
      GapIsWritten(t.knownGaps, if highest == 0 then 0 else highest + 1, last, inc, Blank, StartUp);
    }
  }

  lemma TaskWritesGaps(t: Tables, task: Task, te: TaskEvent, k: Range)
    requires TaskEnabled(t, task, te) && k !in t.knownGaps && k in TaskTables(t, task, te).knownGaps
    ensures TaskWrote(task, te, k, TaskTables(t, task, te).knownGaps[k])
  {
    hide Execute, ChunkRows;
    match te
    case RunStartUp => StartUpWritesGaps(t, task.args.increment, task.args.slot, StartUpGap.Highest(t), k);
    case RunQuery(_, _) =>
    case RunWrite(faults) => ExecuteWritesGaps(t, task.phase.job, faults, k);
    case RunRecord(error) =>
      SingleSlotGap(t.knownGaps, task.args.slot, task.args.increment, NewGap(error, task.phase.reason));
  }

  lemma SettleWritesGaps(t: Tables, h: Handler, fails: bool, k: Range)
    requires k !in t.knownGaps && k in SettleError(t, h, fails).knownGaps
    ensures h.Inserting? && k == Range(h.slot, h.slot)
    ensures FreshGap(SettleError(t, h, fails).knownGaps[k], h.error, h.reason)
  {
    if h.Inserting? {
      SingleSlotGap(t.knownGaps, h.slot, 1, NewGap(h.error, h.reason));
    }
  }

  lemma PipeWritesGaps(t: Tables, p: Pipe, cfg: Config, pe: PipeEvent, kind: Kind, k: Range)
    requires PipeOk(t, p) && Enabled(t, p, cfg, pe)
    requires k !in WorkOf(t, kind) && k in WorkOf(NextTables(t, p, cfg, pe), kind)
    ensures kind == GapRows && PipeWrote(p, pe, k, NextTables(t, p, cfg, pe).knownGaps[k])
  {
    hide Execute, Prepare, SettleError, FreshGap, WithWork;
    match pe
    case Write(j, faults) =>
      assert WorkerOk(p.workers[j]);
      ExecuteKeepsRows(t, p.workers[j].phase.job, faults);
      ExecuteWritesGaps(t, p.workers[j].phase.job, faults, k);
    case Settle(fails) =>
      SettleKeepsHistoric(t, p.handler, fails);
      SettleWritesGaps(t, p.handler, fails, k);
    case Checkout(r) => OtherTableStays(t, p.kind, Lock(WorkOf(t, p.kind), r, p.node), kind);
    case Delete(j) => OtherTableStays(t, p.kind, WorkOf(t, p.kind) - {p.removers[j].range}, kind);
    case _ =>
  }

  lemma BadStretchWritesGaps(t: Tables, h: Head, inc: Increment, slot: Slot, k: Range)
    requires k !in t.knownGaps && k in BadHeadGap(t, h, inc, slot).knownGaps
    ensures FreshGap(BadHeadGap(t, h, inc, slot).knownGaps[k], Text("Bad Head Messages"), HeadProcessing)
  {
    hide ChunkRows;
    GapIsWritten(t.knownGaps, ToSlot(h.previousSlot + 1), slot, inc, Text("Bad Head Messages"), HeadProcessing);
  }

  lemma TaskSaysWhy(s: State, setup: Setup, e: Event, kind: Kind, k: Range)
    requires Possible(s, setup, e) && e.TaskStep?
    requires k !in WorkOf(s.tables, kind) && k in WorkOf(Step(s, setup, e).tables, kind)
    ensures WrittenBy(s, e, kind, k, WorkOf(Step(s, setup, e).tables, kind)[k])
  {
    hide TaskEnabled, TaskTables, TaskWrote;
    TaskKeepsRows(s.tables, s.head.tasks[e.n], e.te);
    if kind == GapRows {
      TaskWritesGaps(s.tables, s.head.tasks[e.n], e.te, k);
    }
  }

  lemma PipeSaysWhy(s: State, setup: Setup, e: Event, kind: Kind, k: Range)
    requires Inv(s) && Possible(s, setup, e) && e.PipeStep?
    requires k !in WorkOf(s.tables, kind) && k in WorkOf(Step(s, setup, e).tables, kind)
    ensures WrittenBy(s, e, kind, k, WorkOf(Step(s, setup, e).tables, kind)[k])
  {
    hide Enabled, NextTables, NextPipe, PipeWrote, Integrity, WorkOk, HeadOk, PipeOk, HandedOut;
    PipeWritesGaps(s.tables, s.pipes[e.i], CfgOf(setup, s.pipes[e.i]), e.e, kind, k);
  }

  lemma MessageSaysWhy(s: State, setup: Setup, e: Event, kind: Kind, k: Range)
    requires Possible(s, setup, e) && (e.GoodMessage? || e.ReorgMessage?)
    requires k !in WorkOf(s.tables, kind) && k in WorkOf(Step(s, setup, e).tables, kind)
    ensures WrittenBy(s, e, kind, k, WorkOf(Step(s, setup, e).tables, kind)[k])
  {
    hide BadHeadGap, Reorg, FreshGap, OnHead;
    if e.ReorgMessage? {
      ReorgReorganizes(s.tables, e.slot, e.root);
    } else {
      BadHeadGapKeepsRows(s.tables, s.head, setup.inc, e.slot);
      if kind == GapRows {
        BadStretchWritesGaps(s.tables, s.head, setup.inc, e.slot, k);
      }
    }
  }

  lemma OtherSaysWhy(s: State, setup: Setup, e: Event, kind: Kind, k: Range)
    requires Possible(s, setup, e) && (e.Join? || e.AddWork? || e.BadMessage?)
    requires k !in WorkOf(s.tables, kind) && k in WorkOf(Step(s, setup, e).tables, kind)
    ensures WrittenBy(s, e, kind, k, WorkOf(Step(s, setup, e).tables, kind)[k])
  {
    hide FreshGap, TaskWrote, PipeWrote, NewPipe;
  }

  /** Every work row says who wrote it and why: only these events add one, with these columns. */
  lemma RowsSayWhy(setup: Setup, states: seq<State>, events: seq<Event>, i: nat, kind: Kind, k: Range)
    requires Run(setup, states, events) && Working(setup) && i < |events|
    requires k !in WorkOf(states[i].tables, kind) && k in WorkOf(states[i + 1].tables, kind)
    ensures WrittenBy(states[i], events[i], kind, k, WorkOf(states[i + 1].tables, kind)[k])
  {
    hide Inv, Possible, Step, WrittenBy;
    RunKeepsInv(setup, states, events, i);
    assert Follows(setup, states, events, i);
    if events[i].TaskStep? {
      TaskSaysWhy(states[i], setup, events[i], kind, k);
    } else if events[i].PipeStep? {
      PipeSaysWhy(states[i], setup, events[i], kind, k);
    } else if events[i].GoodMessage? || events[i].ReorgMessage? {
      MessageSaysWhy(states[i], setup, events[i], kind, k);
    } else {
      OtherSaysWhy(states[i], setup, events[i], kind, k);
    }
  }

  /** A check-out takes a free row that ends at or above the minimum, none of them of smaller priority. */
  lemma CheckoutTakesTheBest(s: State, setup: Setup, i: nat, r: Range)
    requires Possible(s, setup, PipeStep(i, PipeEvent.Checkout(r)))
    ensures var p, w := s.pipes[i], WorkOf(s.tables, s.pipes[i].kind);
            && r in w && !w[r].checkedOut && p.minimum <= r.end
            && (forall o :: o in w && !w[o].checkedOut && p.minimum <= o.end ==> w[r].priority <= w[o].priority)
    ensures Step(s, setup, PipeStep(i, PipeEvent.Checkout(r))).pipes[i].offered == Some(r)
  {
    var w := WorkOf(s.tables, s.pipes[i].kind);
    assert Selected(w, s.pipes[i].minimum, r);
    forall o | o in w && !w[o].checkedOut && s.pipes[i].minimum <= o.end ensures w[r].priority <= w[o].priority {
      assert Eligible(w, s.pipes[i].minimum, o);
    }
  }

  // ---- Joining, outside rows, reversed ranges ----

  /** A pipeline that joins starts idle. */
  lemma PipelineJoins(s: State, setup: Setup, e: Event)
    requires e.Join?
    ensures var pipes := Step(s, setup, e).pipes;
            && |pipes| == |s.pipes| + 1 && (forall i :: 0 <= i < |s.pipes| ==> pipes[i] == s.pipes[i])
            && var p := pipes[|s.pipes|];
               && p.kind == e.kind && p.node == e.node && p.minimum == e.minimum && |p.workers| == e.workers
               && p.offered == None && p.dist == Waiting && p.handler == Listening && p.removers == []
               && forall j :: 0 <= j < |p.workers| ==> p.workers[j] == Idle
  {
  }

  /** A row from outside is there afterwards. */
  lemma OutsideRowIsAdded(s: State, setup: Setup, e: Event)
    requires e.AddWork?
    ensures e.range in WorkOf(Step(s, setup, e).tables, e.kind)
  {
  }

  ghost predicate StartRaised(s: State) {
    forall i :: 0 <= i < |s.pipes| && s.pipes[i].dist.WrongEnd? ==> Firm(s, s.pipes[i].dist.range.start)
  }

  lemma RaisedSlotIsInHand(s: State, i: nat, x: Slot)
    requires i < |s.pipes| && InHand(s.pipes[i], x)
    ensures Firm(s, x)
  {
  }

  lemma StepKeepsRaised(s: State, setup: Setup, e: Event)
    requires Inv(s) && Possible(s, setup, e) && Working(setup) && StartRaised(s)
    ensures StartRaised(Step(s, setup, e))
    ensures e.PipeStep? && e.e.Raise? && s.pipes[e.i].dist.WrongEnd? ==>
              var r, s' := s.pipes[e.i].dist.range, Step(s, setup, e);
              Firm(s', r.start) && Firm(s', r.end)
  {
    hide Firm, Execute, Prepare, Inv, TablesAfter, PipesOk;
    var s' := Step(s, setup, e);
    StepKeepsPipes(s, setup, e);
    if e.PipeStep? && e.e.Raise? {
      RaisedSlotIsInHand(s', e.i, s'.pipes[e.i].handler.slot);
    }
    forall i | 0 <= i < |s'.pipes| && s'.pipes[i].dist.WrongEnd? ensures Firm(s', s'.pipes[i].dist.range.start) {
      if i < |s.pipes| && s.pipes[i].dist.WrongEnd? {
        assert s'.pipes[i].dist == s.pipes[i].dist;
      }
    }
  }

  lemma {:induction false} RunKeepsRaised(setup: Setup, states: seq<State>, events: seq<Event>, i: nat)
    requires Run(setup, states, events) && Working(setup) && i < |states|
    ensures StartRaised(states[i])
  {
    hide Step, Possible, Inv, StartRaised;
    if i > 0 {
      RunKeepsRaised(setup, states, events, i - 1);
      RunKeepsInv(setup, states, events, i - 1);
      assert Follows(setup, states, events, i - 1);
      StepKeepsRaised(states[i - 1], setup, events[i - 1]);
    } else {
      NothingRaised(states[0]);
    }
  }

  lemma NothingRaised(s: State)
    requires Init(s)
    ensures StartRaised(s)
  {
  }

  /** When the distributor is through with a reversed range, both its ends are stored, gaps of their own, or in hand. */
  lemma ReversedEndsAreKept(setup: Setup, states: seq<State>, events: seq<Event>, i: nat)
    requires Run(setup, states, events) && Working(setup) && i < |events| && Follows(setup, states, events, i)
    requires events[i].PipeStep? && events[i].e.Raise? && states[i].pipes[events[i].i].dist.WrongEnd?
    ensures var r := states[i].pipes[events[i].i].dist.range;
            Firm(states[i + 1], r.start) && Firm(states[i + 1], r.end)
  {
    hide Firm, Inv, Step, StartRaised;
    RunKeepsRaised(setup, states, events, i);
    RunKeepsInv(setup, states, events, i);
    StepKeepsRaised(states[i], setup, events[i]);
  }

  // ---- Head messages ----

  function MessageOf(e: Event): Message
    requires e.GoodMessage? || e.BadMessage?
  {
    if e.GoodMessage? then Message(Some(e.slot), e.block, e.stateRoot) else Message(None, Blank, Blank)
  }

  /** All head messages of the first n events, good and bad. */
  function Heard(events: seq<Event>, n: nat): seq<Message>
    requires n <= |events|
  {
    if n == 0 then []
    else
      var e := events[n - 1];
      Heard(events, n - 1) + if e.GoodMessage? || e.BadMessage? then [MessageOf(e)] else []
  }

  /** Tasks that differ at most in how far they have got. */
  ghost predicate SameTasks(tasks: seq<Task>, tasks': seq<Task>) {
    |tasks| == |tasks'|
    && forall n :: 0 <= n < |tasks| ==> tasks[n].args == tasks'[n].args && tasks[n].first == tasks'[n].first
  }

  lemma StepHears(s: State, setup: Setup, e: Event, h: Head)
    requires Possible(s, setup, e) && s.head == h.(tasks := s.head.tasks) && SameTasks(s.head.tasks, h.tasks)
    ensures var h' := if e.GoodMessage? || e.BadMessage? then HeadAfter(h, setup.inc, MessageOf(e)) else h;
            var head := Step(s, setup, e).head;
            head == h'.(tasks := head.tasks) && SameTasks(head.tasks, h'.tasks)
  {
    hide TablesAfter;
  }

  /** In every run the head tracker is where the messages heard so far have brought it. */
  lemma {:induction false} RunHearsMessages(setup: Setup, states: seq<State>, events: seq<Event>, i: nat)
    requires Run(setup, states, events) && i < |states|
    ensures var h, head := AfterMessages(EMPTY, NO_HEAD, setup.inc, Heard(events, i)).1, states[i].head;
            head == h.(tasks := head.tasks) && SameTasks(head.tasks, h.tasks)
  {
    hide Step, Possible;
    if i > 0 {
      var s, e := states[i - 1], events[i - 1];
      RunHearsMessages(setup, states, events, i - 1);
      assert Follows(setup, states, events, i - 1);
      StepHears(s, setup, e, AfterMessages(EMPTY, NO_HEAD, setup.inc, Heard(events, i - 1)).1);
      var heard := Heard(events, i - 1);
      if e.GoodMessage? || e.BadMessage? {
        assert (heard + [MessageOf(e)])[..|heard|] == heard;
      } else {
        assert Heard(events, i) == heard;
      }
    }
  }

  lemma SameTasksFollow(tasks: seq<Task>, tasks': seq<Task>, good: seq<Message>, inc: Increment)
    requires SameTasks(tasks', tasks) && TasksFollow(tasks, good, inc)
    ensures TasksFollow(tasks', good, inc)
  {
    forall n | 0 <= n < |good|
      ensures SpawnedFor(tasks'[n], good[n], Before(good, n), inc)
    {
      assert SpawnedFor(tasks[n], good[n], Before(good, n), inc);
    }
  }

  /** So each head task of a run works on its own message and knows the good message before it. */
  lemma TasksWorkOnMessages(setup: Setup, states: seq<State>, events: seq<Event>, i: nat)
    requires Run(setup, states, events) && i < |states|
    ensures TasksFollow(states[i].head.tasks, Good(Heard(events, i)), setup.inc)
    ensures HeadFollows(states[i].head, Good(Heard(events, i)))
  {
    hide AfterMessages, Follows, Init, SpawnedFor, Good, Heard, TasksFollow, SameTasks;
    RunHearsMessages(setup, states, events, i);
    TasksFollowMessages(EMPTY, setup.inc, Heard(events, i));
    SameTasksFollow(AfterMessages(EMPTY, NO_HEAD, setup.inc, Heard(events, i)).1.tasks, states[i].head.tasks,
                    Good(Heard(events, i)), setup.inc);
  }

  /** A good message in a run records the stretch since the previous head exactly when bad ones came in between. */
  lemma GoodMessageRecords(s: State, setup: Setup, e: Event, x: Slot)
    requires e.GoodMessage?
    ensures Covered(Step(s, setup, e).tables.knownGaps, x) <==>
            || Covered(s.tables.knownGaps, x)
            || (s.head.errorSlots != 0 && s.head.previousSlot != 0
                && StretchReaches(s.head.previousSlot, e.slot, setup.inc, x))
    ensures Step(s, setup, e).tables == s.tables.(knownGaps := Step(s, setup, e).tables.knownGaps)
  {
    hide StretchReaches, ChunkRows;
    if s.head.errorSlots != 0 && s.head.previousSlot != 0 {
      BadStretchIsRecorded(s.tables, s.head, setup.inc, MessageOf(e), x);
    }
  }
}

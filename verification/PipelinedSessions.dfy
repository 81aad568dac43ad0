/** Sessions whose inputs stay behind the front: then no pipeline gets ahead of it, and restarts leave no gap. */
module PipelinedSessions {
  import opened Machine
  import opened Tables
  import opened KnownGaps
  import opened Reorgs
  import opened SlotWrite
  import opened Pipeline
  import opened Indexer
  import opened StartUpGap
  import opened Restarts

  predicate Within(front: Slot, r: Range) {
    r.start <= front && r.end <= front
  }

  ghost predicate RowsWithin(front: Slot, w: Work) {
    forall r :: r in w ==> Within(front, r)
  }

  /**
   What comes from outside stays behind the front: reorg events and inserted rows; a good message after bad ones is
   above the previous head. While the start-up gap is owed no head task writes or records and no bad stretch is
   recorded.
   */
  ghost predicate InputBehind(m: Slot, s: State, e: Event) {
    && RealHead(e)
    && (e.GoodMessage? && s.head.errorSlots != 0 && s.head.previousSlot != 0 ==>
          s.head.previousSlot < e.slot && !StartUpPending(s.head))
    && (e.ReorgMessage? ==> e.slot <= Front(m, s.head))
    && (e.AddWork? ==> Within(Front(m, s.head), e.range))
    && (e.TaskStep? && (e.te.RunWrite? || e.te.RunRecord?) ==> !StartUpPending(s.head))
  }

  ghost predicate InputsBehind(m: Slot, s: Session) {
    |s.states| == |s.events| + 1 && forall i :: 0 <= i < |s.events| ==> InputBehind(m, s.states[i], s.events[i])
  }

  /** A session with any pipelines over both work tables, all of whose rows are within the bound at the start. */
  ghost predicate SessionWithin(setup: Setup, m: Slot, s: Session) {
    && Settled(setup, s) && InputsBehind(m, s)
    && RowsWithin(m, First(s).tables.knownGaps) && RowsWithin(m, First(s).tables.historic)
  }

  // ---- Everything stays behind the front ----

  ghost predicate PipeWithin(front: Slot, p: Pipe) {
    && (p.offered.Some? ==> Within(front, p.offered.value))
    && (!p.dist.Waiting? ==> Within(front, p.dist.range))
    && (forall j :: 0 <= j < |p.workers| && p.workers[j].Busy? ==> p.workers[j].slot <= front)
    && (!p.handler.Listening? ==> p.handler.slot <= front)
  }

  ghost predicate AllWithin(front: Slot, s: State) {
    && RowsWithin(front, s.tables.knownGaps) && RowsWithin(front, s.tables.historic)
    && forall i :: 0 <= i < |s.pipes| ==> PipeWithin(front, s.pipes[i])
  }

  lemma ChunksWithin(start: Slot, end: Slot, inc: Increment)
    requires start <= end
    ensures forall r :: r in ChunkRows(start, end, inc) ==> Within(end, r)
  {
    var rows := ChunkRows(start, end, inc);
    if CountFits(start, end, inc) {
      ChunkRowsCoverExactly(start, end, inc);
      forall i | 0 <= i < |rows| ensures Within(end, rows[i]) {
        assert Holds(rows[i], rows[i].end) && Reached(rows, rows[i].end);
        TimesHeldPositive(rows, rows[i].end);
      }
    } else {
      CounterOverflowRecordsNothing(start, end, inc);
    }
  }

  lemma InsertedGapsWithin(front: Slot, w: Work, start: Slot, end: Slot, inc: Increment, row: WorkRow)
    requires RowsWithin(front, w) && start <= end <= front
    ensures RowsWithin(front, InsertGaps(w, ChunkRows(start, end, inc), row))
  {
    ChunksWithin(start, end, inc);
    InsertGapsIsUnion(w, ChunkRows(start, end, inc), row);
  }

  lemma ReorgWithin(front: Slot, t: Tables, slot: Slot, root: Root)
    requires RowsWithin(front, t.knownGaps) && slot <= front
    ensures RowsWithin(front, Reorg(t, slot, root).knownGaps) && Reorg(t, slot, root).historic == t.historic
  {
    ReorgReforks(t, slot, root);
  }

  lemma ExecuteWithin(front: Slot, t: Tables, job: Job, faults: Faults)
    requires RowsWithin(front, t.knownGaps) && RowsWithin(front, t.historic) && job.args.slot <= front
    ensures var t' := Execute(t, job, faults).1;
            && RowsWithin(front, t'.knownGaps) && RowsWithin(front, t'.historic)
            && forall k :: k in t'.slots && k !in t.slots ==> k.0 == job.args.slot
  {
    var full, a := FullSlot(t, job), job.args;
    FullSlotFrame(t, job);
    FullSlotKeys(t, job);
    CheckPreviousFrame(full, job);
    CheckWithin(front, full, job);
  }

  lemma CheckWithin(front: Slot, t: Tables, job: Job)
    requires RowsWithin(front, t.knownGaps) && job.args.slot <= front
    ensures RowsWithin(front, CheckPrevious(t, job).knownGaps) && CheckPrevious(t, job).historic == t.historic
  {
    var a := job.args;
    match LinkOf(job)
    case Fork => ReorgWithin(front, t, a.slot, a.blockRoot);
    case Mismatch(parent) => ReorgWithin(front, t, a.previousSlot, parent);
    case Jump =>
      InsertedGapsWithin(front, t.knownGaps, ToSlot(a.previousSlot + 1), ToSlot(a.slot - 1), a.increment, HEAD_GAP);
    case _ =>
  }

  /** A step of a head task. */
  lemma TaskWithin(front: Slot, t: Tables, task: Task, te: TaskEvent)
    requires RowsWithin(front, t.knownGaps) && RowsWithin(front, t.historic) && TaskEnabled(t, task, te) && TaskOk(task)
    requires te.RunQuery? || (task.args.slot <= front && (te.RunStartUp? ==> 1 <= task.args.slot))
    ensures var t' := TaskTables(t, task, te);
            && RowsWithin(front, t'.knownGaps) && RowsWithin(front, t'.historic)
            && forall k :: k in t'.slots && k !in t.slots ==> te.RunWrite? && k.0 == task.args.slot
  {
    hide Execute;
    match te
    case RunStartUp =>
      var highest, last := Highest(t), ToSlot(task.args.slot - 1);
      if highest < last {
        InsertedGapsWithin(front, t.knownGaps, if highest == 0 then 0 else highest + 1, last, task.args.increment,
                           NewGap(Blank, StartUp));
      }
    case RunQuery(_, _) =>
    case RunWrite(faults) => ExecuteWithin(front, t, task.phase.job, faults);
    case RunRecord(error) =>
      InsertedGapsWithin(front, t.knownGaps, task.args.slot, task.args.slot, task.args.increment,
                         NewGap(error, task.phase.reason));
  }

  lemma SettleWithin(front: Slot, t: Tables, h: Handler, fails: bool)
    requires RowsWithin(front, t.knownGaps) && (!h.Listening? ==> h.slot <= front)
    ensures RowsWithin(front, SettleError(t, h, fails).knownGaps)
    ensures SettleError(t, h, fails).historic == t.historic && SettleError(t, h, fails).slots == t.slots
  {
    if h.Inserting? {
      InsertedGapsWithin(front, t.knownGaps, h.slot, h.slot, 1, NewGap(h.error, h.reason));
    }
  }

  /** A step of a pipe. */
  lemma PipeTablesWithin(front: Slot, t: Tables, p: Pipe, cfg: Config, e: PipeEvent)
    requires RowsWithin(front, t.knownGaps) && RowsWithin(front, t.historic)
    requires PipeWithin(front, p) && PipeOk(t, p) && Enabled(t, p, cfg, e)
    ensures var t' := NextTables(t, p, cfg, e);
            && RowsWithin(front, t'.knownGaps) && RowsWithin(front, t'.historic)
            && forall k :: k in t'.slots && k !in t.slots ==> k.0 <= front
  {
    hide Execute, Prepare, SettleError;
    match e
    case Write(j, faults) =>
      assert WorkerOk(p.workers[j]);
      ExecuteWithin(front, t, p.workers[j].phase.job, faults);
    case Settle(fails) => SettleWithin(front, t, p.handler, fails);
    case _ =>
  }

  lemma NextPipeWithin(front: Slot, t: Tables, p: Pipe, cfg: Config, e: PipeEvent)
    requires RowsWithin(front, t.knownGaps) && RowsWithin(front, t.historic)
    requires PipeWithin(front, p) && PipeOk(t, p) && Enabled(t, p, cfg, e)
    ensures PipeWithin(front, NextPipe(t, p, cfg, e))
  {
    hide Execute, Prepare;
  }

  /** Steps of a head task; the start-up step moves the front to the highest head. */
  lemma TaskStepWithin(setup: Setup, m: Slot, s: State, e: Event)
    requires TasksShaped(setup, s.head) && Possible(s, setup, e) && e.TaskStep? && InputBehind(m, s, e)
    requires AllWithin(Front(m, s.head), s)
    ensures TablesWithin(Front(m, s.head), Front(m, Step(s, setup, e).head), s.tables, TablesAfter(s, setup, e))
  {
    hide Step, TaskTables;
    var task, front := s.head.tasks[e.n], Front(m, Step(s, setup, e).head);
    TaskStepKeepsShape(setup, s, e);
    FrontOnlyAdvances(setup, m, s, e);
    TaskWithin(front, s.tables, task, e.te);
  }

  /** All rows are within the later front, and the new slots were within the earlier one. */
  ghost predicate TablesWithin(front: Slot, front': Slot, t: Tables, t': Tables) {
    && RowsWithin(front', t'.knownGaps) && RowsWithin(front', t'.historic)
    && forall k :: k in t'.slots && k !in t.slots ==> k.0 <= front
  }

  lemma BadStretchWithin(t: Tables, h: Head, inc: Increment, front: Slot, slot: Slot)
    requires RowsWithin(front, t.knownGaps) && slot <= front
    requires h.errorSlots != 0 && h.previousSlot != 0 ==> h.previousSlot < slot
    ensures RowsWithin(front, BadHeadGap(t, h, inc, slot).knownGaps)
    ensures BadHeadGap(t, h, inc, slot).historic == t.historic && BadHeadGap(t, h, inc, slot).slots == t.slots
  {
    hide ToSlot, ChunkRows, InsertGaps;
    if h.errorSlots != 0 && h.previousSlot != 0 {
      SlotIsItself(h.previousSlot + 1);
      InsertedGapsWithin(front, t.knownGaps, h.previousSlot + 1, slot, inc,
                         NewGap(Text("Bad Head Messages"), HeadProcessing));
    }
  }

  lemma HeadMessageWithin(setup: Setup, m: Slot, s: State, e: Event)
    requires TasksShaped(setup, s.head) && e.GoodMessage? && InputBehind(m, s, e)
    requires RowsWithin(Front(m, s.head), s.tables.knownGaps) && RowsWithin(Front(m, s.head), s.tables.historic)
    ensures TablesWithin(Front(m, s.head), Front(m, Step(s, setup, e).head), s.tables, TablesAfter(s, setup, e))
  {
    hide BadHeadGap;
    var front' := Front(m, Step(s, setup, e).head);
    FrontOnlyAdvances(setup, m, s, e);
    if s.head.errorSlots != 0 && s.head.previousSlot != 0 {
      BadStretchWithin(s.tables, s.head, setup.inc, front', e.slot);
    } else {
      NoBadStretch(s.tables, s.head, setup.inc, e.slot);
    }
  }

  lemma NoBadStretch(t: Tables, h: Head, inc: Increment, slot: Slot)
    requires h.errorSlots == 0 || h.previousSlot == 0
    ensures BadHeadGap(t, h, inc, slot) == t
  {
  }

  lemma WorkWithin(front: Slot, t: Tables, kind: Kind, w: Work)
    requires RowsWithin(front, t.knownGaps) && RowsWithin(front, t.historic) && RowsWithin(front, w)
    ensures TablesWithin(front, front, t, WithWork(t, kind, w))
  {
  }

  lemma OtherTablesWithin(setup: Setup, front: Slot, s: State, e: Event)
    requires PipesOk(s) && Possible(s, setup, e) && !e.TaskStep? && !e.GoodMessage? && AllWithin(front, s)
    requires (e.ReorgMessage? ==> e.slot <= front) && (e.AddWork? ==> Within(front, e.range))
    ensures TablesWithin(front, front, s.tables, TablesAfter(s, setup, e))
  {
    hide Enabled, NextTables, WithWork, Reorg, BadHeadGap, TaskTables;
    var t := s.tables;
    match e
    case PipeStep(i, pe) => PipeTablesWithin(front, t, s.pipes[i], CfgOf(setup, s.pipes[i]), pe);
    case ReorgMessage(slot, root) =>
      ReorgWithin(front, t, slot, root);
      ReorgReforks(t, slot, root);
    case Join(kind, node, _, _, fails) =>
      if !fails {
        WorkWithin(front, t, kind, WorkQueue.Release(WorkOf(t, kind), node));
      }
    case AddWork(kind, r, priority) =>
      WorkWithin(front, t, kind, InsertMissing(WorkOf(t, kind), r, AddedWork(priority)));
    case _ =>
  }

  lemma PipesWithin(setup: Setup, m: Slot, s: State, e: Event)
    requires TasksShaped(setup, s.head) && Inv(s) && Possible(s, setup, e) && InputBehind(m, s, e)
    requires AllWithin(Front(m, s.head), s)
    ensures var s' := Step(s, setup, e);
            forall i :: 0 <= i < |s'.pipes| ==> PipeWithin(Front(m, s'.head), s'.pipes[i])
  {
    hide Enabled, NextPipe, TablesAfter, Front, Integrity, WorkOk, HeadOk, TasksShaped;
    var s', front := Step(s, setup, e), Front(m, s.head);
    FrontOnlyAdvances(setup, m, s, e);
    if e.PipeStep? {
      NextPipeWithin(front, s.tables, s.pipes[e.i], CfgOf(setup, s.pipes[e.i]), e.e);
    }
    forall i | 0 <= i < |s'.pipes| ensures PipeWithin(Front(m, s'.head), s'.pipes[i]) {
      assert PipeWithin(front, s'.pipes[i]);
    }
  }

  lemma StepStaysBehind(setup: Setup, m: Slot, s: State, e: Event)
    requires TasksShaped(setup, s.head) && Inv(s) && Possible(s, setup, e) && InputBehind(m, s, e)
    requires AllWithin(Front(m, s.head), s)
    ensures AllWithin(Front(m, Step(s, setup, e).head), Step(s, setup, e)) && StoresBehind(m, s, Step(s, setup, e))
  {
    hide Possible, Front, TasksShaped, TablesAfter, Integrity, WorkOk, HeadOk, PipeWithin;
    PipesWithin(setup, m, s, e);
    FrontOnlyAdvances(setup, m, s, e);
    if e.TaskStep? {
      TaskStepWithin(setup, m, s, e);
    } else if e.GoodMessage? {
      HeadMessageWithin(setup, m, s, e);
    } else {
      OtherTablesWithin(setup, Front(m, s.head), s, e);
    }
  }

  // ---- Sessions ----

  lemma {:induction false} SessionStaysBehind(setup: Setup, m: Slot, s: Session, i: nat)
    requires SessionWithin(setup, m, s) && Working(setup) && i < |s.states|
    ensures TasksShaped(setup, s.states[i].head) && AllWithin(Front(m, s.states[i].head), s.states[i])
    ensures i > 0 ==> StoresBehind(m, s.states[i - 1], s.states[i])
  {
    hide Step, Inv, StoresBehind;
    if i > 0 {
      SessionStaysBehind(setup, m, s, i - 1);
      RunKeepsInv(setup, s.states, s.events, i - 1);
      assert InputBehind(m, s.states[i - 1], s.events[i - 1]) && Follows(setup, s.states, s.events, i - 1);
      StepStaysBehind(setup, m, s.states[i - 1], s.events[i - 1]);
      StepKeepsShape(setup, s.states[i - 1], s.events[i - 1]);
    }
  }

  /** Such a session stores nothing ahead of the front, and its rows are within the bound it reaches. */
  lemma SessionsWithinStayBehind(setup: Setup, m: Slot, s: Session)
    requires SessionWithin(setup, m, s) && Working(setup)
    ensures SessionBehind(setup, m, s)
    ensures var end := Last(s).tables;
            RowsWithin(BoundAfter(m, s), end.knownGaps) && RowsWithin(BoundAfter(m, s), end.historic)
  {
    hide StoresBehind;
    forall i | 0 <= i < |s.events| ensures StoresBehind(m, s.states[i], s.states[i + 1]) {
      SessionStaysBehind(setup, m, s, i + 1);
    }
    SessionStaysBehind(setup, m, s, |s.states| - 1);
  }

  /** Successive sessions whose inputs stay behind the front that the earlier ones have reached. */
  ghost predicate AllInputsBehind(setup: Setup, m: Slot, sessions: seq<Session>) {
    && Successive(sessions)
    && forall i :: 0 <= i < |sessions| ==>
         Settled(setup, sessions[i]) && InputsBehind(BoundAfterAll(m, sessions[..i]), sessions[i])
  }

  lemma FrontInputsBehind(setup: Setup, m: Slot, sessions: seq<Session>)
    requires sessions != [] && AllInputsBehind(setup, m, sessions)
    ensures AllInputsBehind(setup, m, sessions[..|sessions| - 1])
  {
    hide Settled, InputsBehind;
    var front := sessions[..|sessions| - 1];
    forall i | 0 <= i < |front|
      ensures Settled(setup, front[i]) && InputsBehind(BoundAfterAll(m, front[..i]), front[i])
    {
      assert front[..i] == sessions[..i];
    }
  }

  /**
   Restarts with pipelines. Start with all rows within a bound up to which nothing is missing, and let every session
   run any pipelines, historic and known-gaps, beside its head tracker: as long as the inputs stay behind the front
   and each session comes to rest, nothing up to the bound and the highest heads is ever missing afterwards.
   */
  lemma {:induction false} PipelinedRestartsLeaveNoGap(setup: Setup, historicToo: bool, m: Slot, sessions: seq<Session>)
    requires sessions != [] && AllInputsBehind(setup, m, sessions) && Working(setup)
    requires RowsWithin(m, First(sessions[0]).tables.knownGaps) && RowsWithin(m, First(sessions[0]).tables.historic)
    requires MayStart(historicToo, First(sessions[0]).tables, m, Last(sessions[0]).head.first)
    ensures var end, reached := Last(sessions[|sessions| - 1]).tables, BoundAfterAll(m, sessions);
            && NotedUpTo(historicToo, end, reached) && Highest(end) <= reached
            && RowsWithin(reached, end.knownGaps) && RowsWithin(reached, end.historic)
  {
    hide Settled, InputsBehind, MayStart, NotedUpTo, RowsWithin, Highest, SessionBehind;
    var front, last := sessions[..|sessions| - 1], sessions[|sessions| - 1];
    var reached := BoundAfterAll(m, front);
    if front != [] {
      FrontInputsBehind(setup, m, sessions);
      PipelinedRestartsLeaveNoGap(setup, historicToo, m, front);
      assert First(last).tables == Last(front[|front| - 1]).tables;
      NotedTablesMayStart(historicToo, First(last).tables, reached, Last(last).head.first);
    }
    LastSession(setup, historicToo, reached, last);
  }

  lemma LastSession(setup: Setup, historicToo: bool, m: Slot, s: Session)
    requires Settled(setup, s) && InputsBehind(m, s) && Working(setup)
    requires RowsWithin(m, First(s).tables.knownGaps) && RowsWithin(m, First(s).tables.historic)
    requires MayStart(historicToo, First(s).tables, m, Last(s).head.first)
    ensures var end, reached := Last(s).tables, BoundAfter(m, s);
            && NotedUpTo(historicToo, end, reached) && Highest(end) <= reached
            && RowsWithin(reached, end.knownGaps) && RowsWithin(reached, end.historic)
  {
    hide Settled, InputBehind, MayStart, RowsWithin, SessionBehind;
    SessionsWithinStayBehind(setup, m, s);
    SessionLeavesNoGap(setup, historicToo, m, s);
  }
}

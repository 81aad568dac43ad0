/**
 The whole indexer: the head tracker with its concurrent tasks, the reorg handler and any number of batch
 pipelines over any number of nodes, all on the same tables, as one state machine.
 */
module Indexer {
  import opened Machine
  import opened Tables
  import opened KnownGaps
  import opened Reorgs
  import opened SlotWrite
  import opened WorkQueue
  import opened Pipeline
  import StartUpGap

  datatype TaskPhase =
    | BeforeStartUp
    | BeforeQuery
    | BeforeWrite(job: Job)
    | BeforeRecord(reason: Process)
    | Ended(jumpRecorded: bool)

  /** A processHeadSlot goroutine; first marks the one spawned for the first good head. */
  datatype Task = Task(args: Args, first: bool, phase: TaskPhase)

  /** The tracker's fields, with the first and the highest good head as history. */
  datatype Head = Head(previousSlot: Slot, previousRoot: Root, errorSlots: nat,
                       first: Option<Slot>, highest: Slot, tasks: seq<Task>)

  /** Besides the running parts, the set of all work rows that were ever in the two tables. */
  datatype State = State(tables: Tables, pipes: seq<Pipe>, head: Head, ever: set<Range>)

  /** The head tracker's configuration and gap increment, and the configuration of each node that runs pipelines. */
  datatype Setup = Setup(cfg: Config, inc: Increment, nodes: int -> Config)

  function CfgOf(setup: Setup, p: Pipe): Config {
    setup.nodes(p.node)
  }

  /** Everyone processes blocks, states or both. */
  ghost predicate Working(setup: Setup) {
    && (setup.cfg.blocks || setup.cfg.states)
    && forall node: int :: setup.nodes(node).blocks || setup.nodes(node).states
  }

  datatype TaskEvent =
    | RunStartUp
    | RunQuery(answers: Answers, checkFails: bool)
    | RunWrite(faults: Faults)
    | RunRecord(error: Text)

  datatype Event =
    | PipeStep(i: nat, e: PipeEvent)
    | Join(kind: Kind, node: int, minimum: Slot, workers: nat, releaseFails: bool)
    | AddWork(kind: Kind, range: Range, priority: int)
    | BadMessage
    | GoodMessage(slot: Slot, block: Root, stateRoot: Root)
    | TaskStep(n: nat, te: TaskEvent)
    | ReorgMessage(slot: Slot, root: Root)

  const NO_HEAD := Head(0, Blank, 0, None, 0, [])

  ghost predicate Init(s: State) {
    && Integrity(s.tables) && LocksPaired(s.tables.knownGaps) && LocksPaired(s.tables.historic)
    && s.pipes == [] && s.head == NO_HEAD
    && s.ever == s.tables.knownGaps.Keys + s.tables.historic.Keys
  }

  // ---- Head tasks ----

  ghost predicate TaskEnabled(t: Tables, task: Task, te: TaskEvent) {
    match te
    case RunStartUp => task.phase.BeforeStartUp?
    case RunQuery(_, _) => task.phase.BeforeQuery?
    case RunWrite(faults) => task.phase.BeforeWrite? && Execute(t, task.phase.job, faults).0 != Fatal
    case RunRecord(_) => task.phase.BeforeRecord?
  }

  /**
   The commit's rows reach every slot strictly between the previous head and this one: the head's block was found,
   the tracker knows a previous head, and the chunk counter fits.
   */
  predicate JumpRecorded(job: Job) {
    var a := job.args;
    && a.head && a.previousSlot != 0 && a.previousRoot != Blank && !job.got.skipped && job.got.block.Some?
    && a.previousSlot + 1 < a.slot && CountFits(a.previousSlot + 1, a.slot - 1, a.increment)
  }

  lemma JumpLink(job: Job)
    requires job.args.previousSlot + 1 < job.args.slot
    ensures ToSlot(job.args.previousSlot + 1) == job.args.previousSlot + 1
    ensures ToSlot(job.args.slot - 1) == job.args.slot - 1
    ensures JumpRecorded(job) <==>
              LinkOf(job).Jump? && CountFits(job.args.previousSlot + 1, job.args.slot - 1, job.args.increment)
    ensures !LinkOf(job).Fork? && !LinkOf(job).Mismatch?
  {
    hide ToSlot, CountFits;
    SlotIsItself(job.args.previousSlot + 1);
    SlotIsItself(job.args.slot - 1);
  }

  function TaskAfterQuery(t: Tables, cfg: Config, args: Args, a: Answers, checkFails: bool): TaskPhase {
    match Prepare(t, cfg, args, a, false, checkFails)
    case Cancelled => Ended(false)
    case Refused(reason) => BeforeRecord(reason)
    case AlreadyStored => Ended(false)
    case Ready(job) => BeforeWrite(job)
  }

  function TaskAfterWrite(job: Job, outcome: Outcome): TaskPhase {
    if outcome.Failed? then BeforeRecord(outcome.reason) else Ended(JumpRecorded(job))
  }

  ghost function NextTask(t: Tables, task: Task, cfg: Config, te: TaskEvent): Task
    requires TaskEnabled(t, task, te)
  {
    match te
    case RunStartUp => task.(phase := BeforeQuery)
    case RunQuery(a, checkFails) => task.(phase := TaskAfterQuery(t, cfg, task.args, a, checkFails))
    case RunWrite(faults) =>
      task.(phase := TaskAfterWrite(task.phase.job, Execute(t, task.phase.job, faults).0))
    case RunRecord(_) => task.(phase := Ended(false))
  }

  ghost function TaskTables(t: Tables, task: Task, te: TaskEvent): Tables
    requires TaskEnabled(t, task, te)
  {
    match te
    case RunStartUp => StartUpGap.StartUpGaps(t, task.args.increment, task.args.slot, StartUpGap.Highest(t))
    case RunQuery(_, _) => t
    case RunWrite(faults) => Execute(t, task.phase.job, faults).1
    case RunRecord(error) => RecordFailure(t, task.args.slot, task.args.increment, error, task.phase.reason)
  }

  predicate TaskOk(task: Task) {
    task.phase.BeforeWrite? ==> task.phase.job.args == task.args
  }

  /** The slots a later head skipped over. */
  predicate InJump(task: Task, x: Slot) {
    !task.first && task.args.previousSlot < x < task.args.slot
  }

  /** A task that has not ended owes its slot and the slots it skipped. */
  predicate Owes(task: Task, x: Slot) {
    !task.phase.Ended? && (x == task.args.slot || InJump(task, x))
  }

  /** A task that ended without recording the slots it skipped. */
  predicate Dropped(task: Task, x: Slot) {
    task.phase == Ended(false) && InJump(task, x)
  }

  lemma QueryStepPays(t: Tables, task: Task, cfg: Config, te: TaskEvent, x: Slot)
    requires Integrity(t) && TaskOk(task) && TaskEnabled(t, task, te) && te.RunQuery? && (cfg.blocks || cfg.states)
    ensures TaskOk(NextTask(t, task, cfg, te))
    ensures var task' := NextTask(t, task, cfg, te);
            Owes(task, x) ==> Owes(task', x) || Accounted(t, x) || Dropped(task', x)
  {
    var prepared := Prepare(t, cfg, task.args, te.answers, false, te.checkFails);
    if prepared.AlreadyStored? {
      StoredImpliesKnown(t, cfg, Job(task.args, Fetch(cfg, te.answers).value));
    }
  }

  lemma JumpWritesRows(t: Tables, job: Job)
    requires LinkOf(job).Jump?
    ensures CheckPrevious(t, job).knownGaps ==
            InsertGaps(t.knownGaps, ChunkRows(ToSlot(job.args.previousSlot + 1), ToSlot(job.args.slot - 1),
                                              job.args.increment), HEAD_GAP)
  {
  }

  lemma JumpIsCovered(t: Tables, job: Job, x: Slot)
    requires JumpRecorded(job) && job.args.previousSlot < x < job.args.slot
    ensures Covered(Committed(t, job).knownGaps, x)
  {
    hide ToSlot, CountFits, ChunkRows, InsertGaps, FullSlot, CheckPrevious, LinkOf;
    var from, to := ToSlot(job.args.previousSlot + 1), ToSlot(job.args.slot - 1);
    JumpLink(job);
    GapReachesSlot(FullSlot(t, job).knownGaps, from, to, job.args.increment, HEAD_GAP, x);
    JumpWritesRows(FullSlot(t, job), job);
  }

  lemma UnrecordedJumpAddsNothing(t: Tables, job: Job)
    requires job.args.previousSlot + 1 < job.args.slot && !JumpRecorded(job)
    ensures CheckPrevious(t, job).knownGaps == t.knownGaps
  {
    hide ToSlot, CountFits, ChunkRows, InsertGaps, JumpRecorded, LinkOf;
    JumpLink(job);
    if LinkOf(job).Jump? {
      JumpWritesRows(t, job);
      var from, to := ToSlot(job.args.previousSlot + 1), ToSlot(job.args.slot - 1);
      UnfittingGapAddsNothing(t.knownGaps, from, to, job.args.increment, HEAD_GAP);
    }
  }

  /** Exactly when a commit records the slots its head skipped: none of them otherwise. */
  lemma JumpIsRecordedIff(t: Tables, job: Job, x: Slot)
    requires job.args.previousSlot < x < job.args.slot && !Covered(t.knownGaps, x)
    ensures Covered(Committed(t, job).knownGaps, x) <==> JumpRecorded(job)
  {
    FullSlotFrame(t, job);
    if JumpRecorded(job) {
      JumpIsCovered(t, job, x);
    } else {
      UnrecordedJumpAddsNothing(FullSlot(t, job), job);
    }
  }

  lemma WriteStepPays(t: Tables, task: Task, cfg: Config, te: TaskEvent, x: Slot)
    requires Integrity(t) && TaskOk(task) && TaskEnabled(t, task, te) && te.RunWrite?
    ensures var t', task' := TaskTables(t, task, te), NextTask(t, task, cfg, te);
            Owes(task, x) ==> Owes(task', x) || Accounted(t', x) || Covered(t'.knownGaps, x) || Dropped(task', x)
  {
    var job := task.phase.job;
    ExecuteIsSafe(t, job, te.faults);
    if Execute(t, job, te.faults).0 == Done && JumpRecorded(job) && InJump(task, x) {
      JumpIsCovered(t, job, x);
    }
  }

  lemma StartUpTables(t: Tables, inc: Increment, first: Slot, highest: Slot)
    ensures var t' := StartUpGap.StartUpGaps(t, inc, first, highest);
            t' == t.(knownGaps := t'.knownGaps) && RowsKept(t.knownGaps, t'.knownGaps)
  {
    var last := ToSlot(first - 1);
    if highest < last {
      var rows := ChunkRows(if highest == 0 then 0 else highest + 1, last, inc);
      InsertGapsReaches(t.knownGaps, rows, NewGap(Blank, StartUp), first);
    }
  }

  lemma RecordTables(t: Tables, slot: Slot, inc: Increment, error: Text, reason: Process)
    ensures var t' := RecordFailure(t, slot, inc, error, reason);
            && t' == t.(knownGaps := InsertMissing(t.knownGaps, Range(slot, slot), NewGap(error, reason)))
            && Accounted(t', slot)
  {
    SingleSlotGap(t.knownGaps, slot, inc, NewGap(error, reason));
  }

  /** What a step of a task does to the tables as far as everyone else is concerned. */
  lemma TaskTablesAreSafe(t: Tables, task: Task, te: TaskEvent)
    requires Integrity(t) && TaskEnabled(t, task, te)
    ensures var t' := TaskTables(t, task, te); Integrity(t') && Safe(t, t') && KeepsRows(t, t')
  {
    var t' := TaskTables(t, task, te);
    match te
    case RunStartUp =>
      StartUpTables(t, task.args.increment, task.args.slot, StartUpGap.Highest(t));
      SameKeysKeepIntegrity(t, t');
      GrowingIsSafe(t, t');
    case RunQuery(_, _) => UnchangedIsSafe(t);
    case RunWrite(faults) =>
      ExecuteIsSafe(t, task.phase.job, faults);
      GrowingIsSafe(t, t');
    case RunRecord(error) =>
      RecordTables(t, task.args.slot, task.args.increment, error, task.phase.reason);
      SameKeysKeepIntegrity(t, t');
      GrowingIsSafe(t, t');
  }

  /** No step of a task forgets a slot the task owes. */
  lemma TaskPays(t: Tables, task: Task, cfg: Config, te: TaskEvent, x: Slot)
    requires Integrity(t) && TaskOk(task) && TaskEnabled(t, task, te) && (cfg.blocks || cfg.states)
    ensures var t', task' := TaskTables(t, task, te), NextTask(t, task, cfg, te);
            && TaskOk(task')
            && (Owes(task, x) ==> Owes(task', x) || Accounted(t', x) || Covered(t'.knownGaps, x) || Dropped(task', x))
            && !Dropped(task, x)
  {
    match te
    case RunStartUp =>
    case RunQuery(_, _) => QueryStepPays(t, task, cfg, te, x);
    case RunWrite(_) => WriteStepPays(t, task, cfg, te, x);
    case RunRecord(error) => RecordTables(t, task.args.slot, task.args.increment, error, task.phase.reason);
  }

  // ---- Steps of the whole ----

  ghost predicate Possible(s: State, setup: Setup, e: Event) {
    match e
    case PipeStep(i, pe) => i < |s.pipes| && Enabled(s.tables, s.pipes[i], CfgOf(setup, s.pipes[i]), pe)
    case TaskStep(n, te) => n < |s.head.tasks| && TaskEnabled(s.tables, s.head.tasks[n], te)
    case _ => true
  }

  function BadHeadGap(t: Tables, h: Head, inc: Increment, slot: Slot): Tables {
    if h.errorSlots != 0 && h.previousSlot != 0 then
      t.(knownGaps := InsertGaps(t.knownGaps, ChunkRows(ToSlot(h.previousSlot + 1), slot, inc),
                                 NewGap(Text("Bad Head Messages"), HeadProcessing)))
    else t
  }

  /** handleHead on a message it can parse. */
  function OnHead(h: Head, inc: Increment, slot: Slot, block: Root, stateRoot: Root): Head {
    var args := Args(slot, block, stateRoot, h.previousSlot, h.previousRoot, inc, true);
    var phase := if h.previousSlot == 0 && h.previousRoot == Blank then BeforeStartUp else BeforeQuery;
    Head(slot, block, if h.errorSlots != 0 && h.previousSlot != 0 then 0 else h.errorSlots,
         if h.first.None? then Some(slot) else h.first,
         if h.first.None? || slot > h.highest then slot else h.highest,
         h.tasks + [Task(args, h.first.None?, phase)])
  }

  /** releaseDbLocks; a failure is only logged. */
  function Released(t: Tables, kind: Kind, node: int, fails: bool): Tables {
    if fails then t else WithWork(t, kind, Release(WorkOf(t, kind), node))
  }

  function AddedWork(priority: int): WorkRow {
    WorkRow(false, None, priority, Blank, Blank, None)
  }

  ghost function TablesAfter(s: State, setup: Setup, e: Event): Tables
    requires Possible(s, setup, e)
  {
    var t := s.tables;
    match e
    case PipeStep(i, pe) => NextTables(t, s.pipes[i], CfgOf(setup, s.pipes[i]), pe)
    case Join(kind, node, _, _, fails) => Released(t, kind, node, fails)
    case AddWork(kind, r, priority) => WithWork(t, kind, InsertMissing(WorkOf(t, kind), r, AddedWork(priority)))
    case BadMessage => t
    case GoodMessage(slot, _, _) => BadHeadGap(t, s.head, setup.inc, slot)
    case TaskStep(n, te) => TaskTables(t, s.head.tasks[n], te)
    case ReorgMessage(slot, root) => Reorg(t, slot, root)
  }

  ghost function Step(s: State, setup: Setup, e: Event): State
    requires Possible(s, setup, e)
  {
    var t := TablesAfter(s, setup, e);
    var pipes :=
      match e
      case PipeStep(i, pe) => s.pipes[i := NextPipe(s.tables, s.pipes[i], CfgOf(setup, s.pipes[i]), pe)]
      case Join(kind, node, minimum, workers, _) => s.pipes + [NewPipe(kind, node, minimum, workers)]
      case _ => s.pipes;
    var head :=
      match e
      case BadMessage => s.head.(errorSlots := s.head.errorSlots + 1)
      case GoodMessage(slot, block, stateRoot) => OnHead(s.head, setup.inc, slot, block, stateRoot)
      case TaskStep(n, te) =>
        s.head.(tasks := s.head.tasks[n := NextTask(s.tables, s.head.tasks[n], setup.cfg, te)])
      case _ => s.head;
    State(t, pipes, head, s.ever + t.knownGaps.Keys + t.historic.Keys)
  }

  /** The i-th event is possible in the i-th state and leads to the next. */
  ghost predicate Follows(setup: Setup, states: seq<State>, events: seq<Event>, i: nat)
    requires i < |events| < |states|
  {
    Possible(states[i], setup, events[i]) && states[i + 1] == Step(states[i], setup, events[i])
  }

  /** A run: the states it passes through and the events between them. */
  ghost predicate Run(setup: Setup, states: seq<State>, events: seq<Event>) {
    && |states| == |events| + 1 && Init(states[0])
    && forall i :: 0 <= i < |events| ==> Follows(setup, states, events, i)
  }

  // ---- Where a slot can be ----

  ghost predicate SomeoneHolds(pipes: seq<Pipe>, x: Slot) {
    exists i :: 0 <= i < |pipes| && InHand(pipes[i], x)
  }

  /** Stored, recorded as a one-slot gap, or in the hands of a worker or error handler. */
  ghost predicate Firm(s: State, x: Slot) {
    Accounted(s.tables, x) || SomeoneHolds(s.pipes, x)
  }

  ghost predicate Safeguarded(s: State, x: Slot) {
    Firm(s, x) || Covered(s.tables.knownGaps, x) || Covered(s.tables.historic, x)
  }

  /** The tables alone account for the slot: it is stored or covered by a work row. */
  ghost predicate OnRecord(t: Tables, x: Slot) {
    SlotKnown(t, x) || Covered(t.knownGaps, x) || Covered(t.historic, x)
  }

  ghost predicate SomeTaskOwes(tasks: seq<Task>, x: Slot) {
    exists n :: 0 <= n < |tasks| && Owes(tasks[n], x)
  }

  ghost predicate SomeTaskDropped(tasks: seq<Task>, x: Slot) {
    exists n :: 0 <= n < |tasks| && Dropped(tasks[n], x)
  }

  ghost predicate HeadCovered(s: State, x: Slot) {
    || Firm(s, x)
    || Covered(s.tables.knownGaps, x)
    || SomeTaskOwes(s.head.tasks, x)
    || SomeTaskDropped(s.head.tasks, x)
  }

  ghost predicate PipesOk(s: State) {
    && (forall i :: 0 <= i < |s.pipes| ==> PipeOk(s.tables, s.pipes[i]))
    && (forall i, x: Slot :: 0 <= i < |s.pipes| && HandedOut(s.pipes[i], x) ==> Firm(s, x))
  }

  ghost predicate WorkOk(s: State) {
    && s.tables.knownGaps.Keys <= s.ever && s.tables.historic.Keys <= s.ever
    && (forall r, x: Slot :: r in s.ever && Holds(r, x) ==> Safeguarded(s, x))
  }

  ghost predicate HeadOk(s: State) {
    && (forall n :: 0 <= n < |s.head.tasks| ==> TaskOk(s.head.tasks[n]))
    && (s.head.first.Some? ==>
          && s.head.first.value <= s.head.highest
          && s.head.previousSlot <= s.head.highest
          && forall x: Slot :: s.head.first.value <= x <= s.head.highest ==> HeadCovered(s, x))
  }

  ghost predicate Inv(s: State) {
    Integrity(s.tables) && PipesOk(s) && WorkOk(s) && HeadOk(s)
  }

  /** What a step must not take away. */
  ghost predicate Preserves(s: State, s': State) {
    && (forall x: Slot :: Firm(s, x) ==> Firm(s', x))
    && (forall x: Slot :: Covered(s.tables.knownGaps, x) ==> Covered(s'.tables.knownGaps, x) || Firm(s', x))
    && (forall x: Slot :: Covered(s.tables.historic, x) ==> Covered(s'.tables.historic, x) || Firm(s', x))
  }

  lemma KeptRowsStayCovered(w: Work, w': Work, x: Slot)
    requires w.Keys <= w'.Keys && Covered(w, x)
    ensures Covered(w', x)
  {
    var r :| r in w && Holds(r, x);
    assert r in w';
  }

  /** Steps that leave the pipes alone (or add an idle one), keep all rows and are safe. */
  lemma QuietStepKeepsPipes(s: State, s': State)
    requires Integrity(s.tables) && PipesOk(s) && Safe(s.tables, s'.tables) && KeepsRows(s.tables, s'.tables)
    requires |s.pipes| <= |s'.pipes| && forall i :: 0 <= i < |s.pipes| ==> s'.pipes[i] == s.pipes[i]
    requires forall i :: |s.pipes| <= i < |s'.pipes| ==>
               PipeOk(s'.tables, s'.pipes[i]) && forall x: Slot :: !HandedOut(s'.pipes[i], x)
    ensures PipesOk(s') && Preserves(s, s')
  {
    forall x: Slot | Firm(s, x) ensures Firm(s', x) {
      if SomeoneHolds(s.pipes, x) {
        var i :| 0 <= i < |s.pipes| && InHand(s.pipes[i], x);
        assert InHand(s'.pipes[i], x);
      }
    }
    forall i | 0 <= i < |s'.pipes| ensures PipeOk(s'.tables, s'.pipes[i]) {
      if i < |s.pipes| {
        SafeKeepsPipeOk(s.tables, s'.tables, s.pipes[i]);
      }
    }
    forall x: Slot | Covered(s.tables.knownGaps, x) ensures Covered(s'.tables.knownGaps, x) {
      KeptRowsStayCovered(s.tables.knownGaps, s'.tables.knownGaps, x);
    }
    forall x: Slot | Covered(s.tables.historic, x) ensures Covered(s'.tables.historic, x) {
      KeptRowsStayCovered(s.tables.historic, s'.tables.historic, x);
    }
  }

  lemma PipeStepKeepsFirm(s: State, i: nat, t': Tables, p': Pipe, s': State, x: Slot)
    requires i < |s.pipes| && LocallySound(s.tables, s.pipes[i], t', p')
    requires s'.tables == t' && s'.pipes == s.pipes[i := p']
    requires Firm(s, x)
    ensures Firm(s', x)
  {
    if SomeoneHolds(s.pipes, x) && !Accounted(t', x) {
      var j :| 0 <= j < |s.pipes| && InHand(s.pipes[j], x);
      assert InHand(s'.pipes[j], x);
    }
  }

  /** A step of one pipe keeps every pipe's invariant and everybody's slots. */
  lemma PipeStepKeepsPipes(s: State, setup: Setup, e: Event)
    requires Inv(s) && Possible(s, setup, e) && e.PipeStep? && Working(setup)
    ensures var s' := Step(s, setup, e); PipesOk(s') && Preserves(s, s') && Integrity(s'.tables)
  {
    var s' := Step(s, setup, e);
    var t, t', i, p, p' := s.tables, s'.tables, e.i, s.pipes[e.i], s'.pipes[e.i];
    StepIsSound(t, p, CfgOf(setup, p), e.e);
    forall x: Slot | Firm(s, x) ensures Firm(s', x) {
      PipeStepKeepsFirm(s, i, t', p', s', x);
    }
    forall j | 0 <= j < |s'.pipes| ensures PipeOk(t', s'.pipes[j]) {
      if j != i {
        SafeKeepsPipeOk(t, t', s.pipes[j]);
      }
    }
    forall j, x: Slot | 0 <= j < |s'.pipes| && HandedOut(s'.pipes[j], x) ensures Firm(s', x) {
      if j != i {
        assert HandedOut(s.pipes[j], x);
      } else if InHand(p', x) {
        assert SomeoneHolds(s'.pipes, x);
      } else {
        assert HandedOut(s.pipes[i], x);
      }
    }
    forall x: Slot
      ensures Covered(t.knownGaps, x) ==> Covered(t'.knownGaps, x) || Firm(s', x)
      ensures Covered(t.historic, x) ==> Covered(t'.historic, x) || Firm(s', x)
    {
      PipeStepKeepsCover(s, setup, e, x);
    }
  }

  lemma DeletionKeepsCover(w: Work, r: Range, x: Slot)
    requires Covered(w, x) && !Holds(r, x)
    ensures Covered(w - {r}, x)
  {
    var k :| k in w && Holds(k, x);
    assert k in w - {r};
  }

  lemma PipeStepKeepsCover(s: State, setup: Setup, e: Event, x: Slot)
    requires Inv(s) && Possible(s, setup, e) && e.PipeStep? && Working(setup)
    requires Firm(s, x) ==> Firm(Step(s, setup, e), x)
    ensures var s' := Step(s, setup, e);
            && (Covered(s.tables.knownGaps, x) ==> Covered(s'.tables.knownGaps, x) || Firm(s', x))
            && (Covered(s.tables.historic, x) ==> Covered(s'.tables.historic, x) || Firm(s', x))
  {
    var t, p := s.tables, s.pipes[e.i];
    StepIsSound(t, p, CfgOf(setup, p), e.e);
    if e.e.Delete? {
      var r := p.removers[e.e.remover].range;
      if Holds(r, x) {
        assert HandedOut(s.pipes[e.i], x);
      } else {
        if Covered(t.knownGaps, x) { DeletionKeepsCover(t.knownGaps, r, x); }
        if Covered(t.historic, x) { DeletionKeepsCover(t.historic, r, x); }
      }
    } else {
      var t' := NextTables(t, p, CfgOf(setup, p), e.e);
      if Covered(t.knownGaps, x) { KeptRowsStayCovered(t.knownGaps, t'.knownGaps, x); }
      if Covered(t.historic, x) { KeptRowsStayCovered(t.historic, t'.historic, x); }
    }
  }

  /** Every other event. */
  lemma OtherStepKeepsPipes(s: State, setup: Setup, e: Event)
    requires Inv(s) && Possible(s, setup, e) && !e.PipeStep?
    ensures var s' := Step(s, setup, e); PipesOk(s') && Preserves(s, s') && Integrity(s'.tables)
  {
    var s' := Step(s, setup, e);
    var t, t' := s.tables, s'.tables;
    OtherTablesAreSafe(s, setup, e);
    QuietStepKeepsPipes(s, s');
  }

  lemma OtherTablesAreSafe(s: State, setup: Setup, e: Event)
    requires Inv(s) && Possible(s, setup, e) && !e.PipeStep?
    ensures var t' := TablesAfter(s, setup, e);
            Integrity(t') && Safe(s.tables, t') && KeepsRows(s.tables, t')
  {
    var t, t' := s.tables, TablesAfter(s, setup, e);
    match e
    case TaskStep(n, te) => TaskTablesAreSafe(t, s.head.tasks[n], te);
    case ReorgMessage(slot, root) =>
      ReorgKeepsRows(t, slot, root);
      ReorgReforks(t, slot, root);
      GrowthIsSafe(t, t');
    case GoodMessage(slot, _, _) =>
      BadHeadGapKeepsRows(t, s.head, setup.inc, slot);
      GrowthIsSafe(t, t');
    case Join(kind, node, _, _, fails) => JoinIsSafe(t, kind, node, fails);
    case AddWork(kind, r, priority) => AddWorkIsSafe(t, kind, r, AddedWork(priority));
    case BadMessage => UnchangedIsSafe(t);
  }

  lemma JoinIsSafe(t: Tables, kind: Kind, node: int, fails: bool)
    requires Integrity(t)
    ensures var t' := Released(t, kind, node, fails);
            Integrity(t') && Safe(t, t') && KeepsRows(t, t')
  {
    GrowthIsSafe(t, Released(t, kind, node, fails));
  }

  lemma AddWorkIsSafe(t: Tables, kind: Kind, r: Range, row: WorkRow)
    requires Integrity(t)
    ensures var t' := WithWork(t, kind, InsertMissing(WorkOf(t, kind), r, row));
            Integrity(t') && Safe(t, t') && KeepsRows(t, t')
  {
    InsertMissingKeys(WorkOf(t, kind), r, row);
    GrowthIsSafe(t, WithWork(t, kind, InsertMissing(WorkOf(t, kind), r, row)));
  }

  lemma GrowthIsSafe(t: Tables, t': Tables)
    requires Integrity(t) && t' == t.(slots := t'.slots, knownGaps := t'.knownGaps, historic := t'.historic)
    requires t.slots.Keys <= t'.slots.Keys && KeepsRows(t, t')
    ensures Integrity(t') && Safe(t, t')
  {
    SameKeysKeepIntegrity(t, t');
    GrowingIsSafe(t, t');
  }

  lemma BadHeadGapKeepsRows(t: Tables, h: Head, inc: Increment, slot: Slot)
    ensures var t' := BadHeadGap(t, h, inc, slot);
            t' == t.(knownGaps := t'.knownGaps) && RowsKept(t.knownGaps, t'.knownGaps)
  {
    InsertGapsReaches(t.knownGaps, ChunkRows(ToSlot(h.previousSlot + 1), slot, inc),
                      NewGap(Text("Bad Head Messages"), HeadProcessing), slot);
  }

  lemma StepKeepsPipes(s: State, setup: Setup, e: Event)
    requires Inv(s) && Possible(s, setup, e) && Working(setup)
    ensures var s' := Step(s, setup, e); PipesOk(s') && Preserves(s, s') && Integrity(s'.tables)
  {
    if e.PipeStep? {
      PipeStepKeepsPipes(s, setup, e);
    } else {
      OtherStepKeepsPipes(s, setup, e);
    }
  }

  lemma StepKeepsWork(s: State, setup: Setup, e: Event)
    requires Inv(s) && Possible(s, setup, e) && Preserves(s, Step(s, setup, e))
    ensures WorkOk(Step(s, setup, e))
  {
    var s' := Step(s, setup, e);
    forall r, x: Slot | r in s'.ever && Holds(r, x) ensures Safeguarded(s', x) {
      if r in s.ever {
        assert Safeguarded(s, x);
      } else if r in s'.tables.knownGaps {
        assert Covered(s'.tables.knownGaps, x);
      } else {
        assert Covered(s'.tables.historic, x);
      }
    }
  }

  lemma TasksKeepOwing(tasks: seq<Task>, tasks': seq<Task>, x: Slot)
    requires |tasks| <= |tasks'| && forall n :: 0 <= n < |tasks| ==> tasks'[n] == tasks[n]
    ensures SomeTaskOwes(tasks, x) ==> SomeTaskOwes(tasks', x)
    ensures SomeTaskDropped(tasks, x) ==> SomeTaskDropped(tasks', x)
  {
    if SomeTaskOwes(tasks, x) {
      var n :| 0 <= n < |tasks| && Owes(tasks[n], x);
      assert Owes(tasks'[n], x);
    }
    if SomeTaskDropped(tasks, x) {
      var n :| 0 <= n < |tasks| && Dropped(tasks[n], x);
      assert Dropped(tasks'[n], x);
    }
  }

  lemma TaskStepKeepsCover(s: State, setup: Setup, e: Event, x: Slot)
    requires Inv(s) && Possible(s, setup, e) && e.TaskStep? && Working(setup)
    requires Preserves(s, Step(s, setup, e)) && HeadCovered(s, x)
    ensures HeadCovered(Step(s, setup, e), x)
  {
    var s' := Step(s, setup, e);
    var tasks, tasks' := s.head.tasks, s'.head.tasks;
    TaskPays(s.tables, tasks[e.n], setup.cfg, e.te, x);
    if SomeTaskOwes(tasks, x) {
      var n :| 0 <= n < |tasks| && Owes(tasks[n], x);
      if n != e.n {
        assert Owes(tasks'[n], x);
      } else if Dropped(tasks'[n], x) {
        assert SomeTaskDropped(tasks', x);
      } else if Owes(tasks'[n], x) {
        assert SomeTaskOwes(tasks', x);
      }
    }
    if SomeTaskDropped(tasks, x) {
      var n :| 0 <= n < |tasks| && Dropped(tasks[n], x);
      assert Dropped(tasks'[n], x);
    }
  }

  /** A covered slot stays covered, whatever happens. */
  lemma StepKeepsCover(s: State, setup: Setup, e: Event, x: Slot)
    requires Inv(s) && Possible(s, setup, e) && Working(setup)
    requires Preserves(s, Step(s, setup, e)) && HeadCovered(s, x)
    ensures HeadCovered(Step(s, setup, e), x)
  {
    if e.TaskStep? {
      TaskStepKeepsCover(s, setup, e, x);
    } else {
      TasksKeepOwing(s.head.tasks, Step(s, setup, e).head.tasks, x);
    }
  }

  /** The task spawned for a new head owes every slot from the previous highest head to this one. */
  lemma NewHeadOwes(h: Head, inc: Increment, slot: Slot, block: Root, stateRoot: Root, x: Slot)
    requires h.first.Some? ==> h.previousSlot <= h.highest
    requires if h.first.Some? then h.highest < x <= slot else x == slot
    ensures SomeTaskOwes(OnHead(h, inc, slot, block, stateRoot).tasks, x)
  {
    var tasks := OnHead(h, inc, slot, block, stateRoot).tasks;
    assert Owes(tasks[|tasks| - 1], x);
  }

  lemma StepKeepsHead(s: State, setup: Setup, e: Event)
    requires Inv(s) && Possible(s, setup, e) && Working(setup)
    requires Preserves(s, Step(s, setup, e))
    ensures HeadOk(Step(s, setup, e))
  {
    var s' := Step(s, setup, e);
    var h, h' := s.head, s'.head;
    forall n | 0 <= n < |h'.tasks| ensures TaskOk(h'.tasks[n]) {
      if e.TaskStep? && e.n == n {
        TaskPays(s.tables, h.tasks[n], setup.cfg, e.te, 0);
      }
    }
    if h'.first.Some? {
      forall x: Slot | h'.first.value <= x <= h'.highest ensures HeadCovered(s', x) {
        if h.first.Some? && x <= h.highest {
          StepKeepsCover(s, setup, e, x);
        } else {
          NewHeadOwes(h, setup.inc, e.slot, e.block, e.stateRoot, x);
        }
      }
    }
  }

  lemma StepKeepsInv(s: State, setup: Setup, e: Event)
    requires Inv(s) && Possible(s, setup, e) && Working(setup)
    ensures Inv(Step(s, setup, e))
  {
    StepKeepsPipes(s, setup, e);
    StepKeepsWork(s, setup, e);
    StepKeepsHead(s, setup, e);
  }

  lemma InitHasInv(s: State)
    requires Init(s)
    ensures Inv(s)
  {
    forall r, x: Slot | r in s.ever && Holds(r, x) ensures Safeguarded(s, x) {
      if r in s.tables.knownGaps {
        assert Covered(s.tables.knownGaps, x);
      } else {
        assert Covered(s.tables.historic, x);
      }
    }
  }

  lemma {:induction false} RunKeepsInv(setup: Setup, states: seq<State>, events: seq<Event>, i: nat)
    requires Run(setup, states, events) && Working(setup) && i < |states|
    ensures Inv(states[i])
  {
    hide Step;
    if i == 0 {
      InitHasInv(states[0]);
    } else {
      RunKeepsInv(setup, states, events, i - 1);
      assert Follows(setup, states, events, i - 1);
      StepKeepsInv(states[i - 1], setup, events[i - 1]);
    }
  }

  // ---- The promises ----

  /**
   No slot is lost. In every reachable state of an uncancelled run, every slot of every well-ordered row that
   was ever in a work table is stored, covered by a work row, or in the hands of a worker or error handler.
   */
  lemma NoSlotIsLost(setup: Setup, states: seq<State>, events: seq<Event>, i: nat, r: Range, x: Slot)
    requires Run(setup, states, events) && Working(setup) && i < |states|
    requires r in states[i].ever && Holds(r, x)
    ensures OnRecord(states[i].tables, x) || SomeoneHolds(states[i].pipes, x)
  {
    RunKeepsInv(setup, states, events, i);
    assert Safeguarded(states[i], x);
    if Range(x, x) in states[i].tables.knownGaps {
      assert Holds(Range(x, x), x);
    }
  }

  /** Every worker and error handler is idle. */
  predicate Quiescent(s: State) {
    forall i :: 0 <= i < |s.pipes| ==>
      && s.pipes[i].handler.Listening?
      && forall j :: 0 <= j < |s.pipes[i].workers| ==> s.pipes[i].workers[j].Idle?
  }

  lemma QuietPipesHoldNothing(s: State, x: Slot)
    requires Quiescent(s)
    ensures !SomeoneHolds(s.pipes, x)
  {
  }

  /** At quiescence only the tables are left to account for them. */
  lemma NoSlotIsLostAtRest(setup: Setup, states: seq<State>, events: seq<Event>, i: nat, r: Range, x: Slot)
    requires Run(setup, states, events) && Working(setup) && i < |states|
    requires Quiescent(states[i]) && r in states[i].ever && Holds(r, x)
    ensures OnRecord(states[i].tables, x)
  {
    NoSlotIsLost(setup, states, events, i, r, x);
    QuietPipesHoldNothing(states[i], x);
  }

  /** A row is removed on the strength of its two end slots, yet all its slots are stored, one-slot gaps or in hand. */
  lemma RemovedRowsAreHandled(setup: Setup, states: seq<State>, events: seq<Event>, i: nat, x: Slot)
    requires Run(setup, states, events) && Working(setup) && i < |events|
    requires Follows(setup, states, events, i) && events[i].PipeStep? && events[i].e.Delete?
    requires Holds(states[i].pipes[events[i].i].removers[events[i].e.remover].range, x)
    ensures Accounted(states[i + 1].tables, x) || SomeoneHolds(states[i + 1].pipes, x)
  {
    var s, e := states[i], events[i];
    RunKeepsInv(setup, states, events, i);
    PipeStepKeepsPipes(s, setup, e);
    DeleteIsSound(s.tables, s.pipes[e.i], CfgOf(setup, s.pipes[e.i]), e.e);
    assert HandedOut(s.pipes[e.i], x) && Firm(s, x);
  }

  /** A row once in a work table stays on the record. */
  lemma {:induction false} EverOnlyGrows(setup: Setup, states: seq<State>, events: seq<Event>, i: nat, j: nat)
    requires Run(setup, states, events) && i <= j < |states|
    ensures states[i].tables.knownGaps.Keys + states[i].tables.historic.Keys <= states[i].ever <= states[j].ever
  {
    if i < j {
      EverOnlyGrows(setup, states, events, i, j - 1);
      assert Follows(setup, states, events, j - 1);
    } else if i > 0 {
      assert Follows(setup, states, events, i - 1);
    }
  }

  /**
   Head coverage, with tasks committing in any order and pipelines draining known_gaps meanwhile: every slot
   from the first head to the highest is stored, covered by known_gaps, in the hands of a worker or error
   handler, owed by a pending task, or inside the jump of a task that ended without recording it.
   */
  lemma HeadsAreCovered(setup: Setup, states: seq<State>, events: seq<Event>, i: nat, x: Slot)
    requires Run(setup, states, events) && Working(setup) && i < |states|
    requires states[i].head.first.Some? && states[i].head.first.value <= x <= states[i].head.highest
    ensures var s := states[i];
            || SlotKnown(s.tables, x) || Covered(s.tables.knownGaps, x)
            || SomeoneHolds(s.pipes, x)
            || SomeTaskOwes(s.head.tasks, x) || SomeTaskDropped(s.head.tasks, x)
  {
    RunKeepsInv(setup, states, events, i);
    assert HeadCovered(states[i], x);
    if Range(x, x) in states[i].tables.knownGaps {
      assert Holds(Range(x, x), x);
    }
  }

  /** Every task has ended, and each that skipped slots recorded them. */
  predicate HeadsSettled(h: Head) {
    forall n :: 0 <= n < |h.tasks| ==>
      && h.tasks[n].phase.Ended?
      && (h.tasks[n].phase.jumpRecorded || h.tasks[n].first || h.tasks[n].args.slot <= h.tasks[n].args.previousSlot + 1)
  }

  /** With no such exception, a settled head tracker with quiet pipelines leaves every slot stored or a known gap. */
  lemma SettledHeadsAreRecorded(setup: Setup, states: seq<State>, events: seq<Event>, i: nat, x: Slot)
    requires Run(setup, states, events) && Working(setup) && i < |states|
    requires HeadsSettled(states[i].head) && Quiescent(states[i])
    requires states[i].head.first.Some? && states[i].head.first.value <= x <= states[i].head.highest
    ensures SlotKnown(states[i].tables, x) || Covered(states[i].tables.knownGaps, x)
  {
    HeadsAreCovered(setup, states, events, i, x);
    QuietPipesHoldNothing(states[i], x);
  }
}

/** The steps of the state machine, taken without interruption, amount to the calls the code makes. */
module Uninterrupted {
  import opened Tables
  import opened KnownGaps
  import opened SlotWrite
  import opened Pipeline
  import opened Indexer
  import opened SlotEffects

  /**
   A worker that queries and writes without interruption makes one attempt at its slot: same tables, and it is
   idle again or about to report exactly the attempt's error.
   */
  lemma WorkerMakesAnAttempt(t: Tables, p: Pipe, cfg: Config, j: nat, a: Answers, faults: Faults)
    requires j < |p.workers| && p.workers[j].Busy? && p.workers[j].phase.Querying?
    requires Attempt(t, cfg, HistoricArgs(p.workers[j].slot), a, false, faults).0 != Fatal
    ensures var slot := p.workers[j].slot;
            var (outcome, t') := Attempt(t, cfg, HistoricArgs(slot), a, false, faults);
            var settled := if outcome.Failed? then Busy(slot, Reporting(outcome.reason)) else Idle;
            var query, write := Query(j, a, faults.check), PipeEvent.Write(j, faults);
            var t1, p1 := NextTables(t, p, cfg, query), NextPipe(t, p, cfg, query);
            if Enabled(t1, p1, cfg, write)
            then NextTables(t1, p1, cfg, write) == t' && NextPipe(t1, p1, cfg, write).workers[j] == settled
            else t1 == t' && p1.workers[j] == settled
  {
    hide Execute, Committed;
    var slot := p.workers[j].slot;
    var p1 := NextPipe(t, p, cfg, Query(j, a, faults.check));
    assert p1.workers[j] == AfterQuery(t, cfg, slot, a, faults.check);
  }

  // ---- Errors ----

  /** Looking an error up and settling it. */
  lemma LookedUpErrorIsSettled(t: Tables, h: Handler, lookFails: bool, updateFails: bool)
    requires h.Looking?
    ensures var k, t' := Range(h.slot, h.slot), SettleError(t, AfterLook(t, h, lookFails), updateFails);
            && t' == t.(knownGaps := t'.knownGaps)
            && if k !in t.knownGaps then OneSlotGap(t.knownGaps, t'.knownGaps, h.slot, h.error, h.reason)
               else
                 var row := t.knownGaps[k];
                 t'.knownGaps ==
                   if lookFails || updateFails then t.knownGaps
                   else t.knownGaps[k := row.(reprocessingError := h.error, priority := row.priority + 1)]
  {
    SingleSlotGap(t.knownGaps, h.slot, 1, NewGap(h.error, h.reason));
  }

  /**
   An error of known-gaps processing: reported, looked up and settled, it leaves its slot's row there: fresh with the
   error and its reason if it was missing, otherwise with the new error and one priority further back, unless the
   look-up or the update fails. Every other row and table is as before, and the handler listens again.
   */
  lemma GapErrorIsBooked(t: Tables, p: Pipe, cfg: Config, j: nat, error: Text, lookFails: bool, updateFails: bool)
    requires p.kind == GapRows && p.handler.Listening?
    requires j < |p.workers| && p.workers[j].Busy? && p.workers[j].phase.Reporting?
    ensures var k, reason := Range(p.workers[j].slot, p.workers[j].slot), p.workers[j].phase.reason;
            var p1 := NextPipe(t, p, cfg, Report(j, error));
            && NextTables(t, p, cfg, Report(j, error)) == t && Enabled(t, p1, cfg, Look(lookFails))
            && var p2 := NextPipe(t, p1, cfg, Look(lookFails));
               && NextTables(t, p1, cfg, Look(lookFails)) == t && Enabled(t, p2, cfg, Settle(updateFails))
               && var t', p3 := NextTables(t, p2, cfg, Settle(updateFails)), NextPipe(t, p2, cfg, Settle(updateFails));
                  && p3 == p.(workers := p.workers[j := Idle]) && t' == t.(knownGaps := t'.knownGaps)
                  && if k !in t.knownGaps then OneSlotGap(t.knownGaps, t'.knownGaps, k.start, error, reason)
                     else
                       var row := t.knownGaps[k];
                       t'.knownGaps ==
                         if lookFails || updateFails then t.knownGaps
                         else t.knownGaps[k := row.(reprocessingError := error, priority := row.priority + 1)]
  {
    hide SettleError, OneSlotGap;
    LookedUpErrorIsSettled(t, Looking(p.workers[j].slot, error, p.workers[j].phase.reason), lookFails, updateFails);
  }

  /** An error of historic processing: a fresh row in known_gaps unless the slot has one, which is left as it is. */
  lemma HistoricErrorIsBooked(t: Tables, p: Pipe, cfg: Config, j: nat, error: Text, fails: bool)
    requires p.kind == HistoricRows && p.handler.Listening?
    requires j < |p.workers| && p.workers[j].Busy? && p.workers[j].phase.Reporting?
    ensures var p1 := NextPipe(t, p, cfg, Report(j, error));
            && NextTables(t, p, cfg, Report(j, error)) == t && Enabled(t, p1, cfg, Settle(fails))
            && var t', p2 := NextTables(t, p1, cfg, Settle(fails)), NextPipe(t, p1, cfg, Settle(fails));
               && p2 == p.(workers := p.workers[j := Idle]) && t' == t.(knownGaps := t'.knownGaps)
               && OneSlotGap(t.knownGaps, t'.knownGaps, p.workers[j].slot, error, p.workers[j].phase.reason)
  {
    SingleSlotGap(t.knownGaps, p.workers[j].slot, 1, NewGap(error, p.workers[j].phase.reason));
  }

  /**
   A reversed range: its start is raised first, then its end, each as an error named after the wrong order, which
   known-gaps processing looks up and historic processing inserts; then the distributor waits for the next range.
   */
  lemma ReversedRangeIsRaised(t: Tables, p: Pipe, cfg: Config, r: Range, error: Text, error': Text)
    requires r.end < r.start && p.dist == Start(r) && p.handler.Listening?
    ensures var p1 := NextPipe(t, p, cfg, Raise(error)).(handler := Listening);
            var p2 := NextPipe(t, p1, cfg, Raise(error'));
            && NextTables(t, p, cfg, Raise(error)) == t && Enabled(t, p1, cfg, Raise(error'))
            && NextTables(t, p1, cfg, Raise(error')) == t
            && p2 == p.(dist := Waiting, handler := p2.handler)
            && NextPipe(t, p, cfg, Raise(error)).handler ==
               (if p.kind == GapRows then Looking(r.start, error, RangeOrder)
                else Inserting(r.start, error, RangeOrder))
            && p2.handler ==
               (if p.kind == GapRows then Looking(r.end, error', RangeOrder)
                else Inserting(r.end, error', RangeOrder))
  {
  }

  // ---- Head tasks ----

  /** A head task run to its end without interruption; a fatal write stops it. */
  ghost function RunTask(t: Tables, task: Task, cfg: Config, a: Answers, faults: Faults, error: Text): Tables
    decreases match task.phase
              case BeforeStartUp => 4
              case BeforeQuery => 3
              case BeforeWrite(_) => 2
              case BeforeRecord(_) => 1
              case Ended(_) => 0
  {
    if task.phase.Ended? then t
    else
      var te := match task.phase
                case BeforeStartUp => RunStartUp
                case BeforeQuery => RunQuery(a, faults.check)
                case BeforeWrite(_) => RunWrite(faults)
                case _ => RunRecord(error);
      if TaskEnabled(t, task, te) then
        RunTask(TaskTables(t, task, te), NextTask(t, task, cfg, te), cfg, a, faults, error)
      else t
  }

  lemma RecordedTask(t: Tables, task: Task, cfg: Config, a: Answers, faults: Faults, error: Text)
    requires task.phase.BeforeRecord?
    ensures RunTask(t, task, cfg, a, faults, error) ==
            RecordFailure(t, task.args.slot, task.args.increment, error, task.phase.reason)
  {
  }

  lemma WrittenTask(t: Tables, task: Task, cfg: Config, a: Answers, faults: Faults, error: Text)
    requires task.phase.BeforeWrite? && Execute(t, task.phase.job, faults).0 != Fatal
    ensures var (outcome, t') := Execute(t, task.phase.job, faults);
            RunTask(t, task, cfg, a, faults, error) ==
            if outcome.Failed? then RecordFailure(t', task.args.slot, task.args.increment, error, outcome.reason)
            else t'
  {
    hide Execute;
    var t', task' := TaskTables(t, task, RunWrite(faults)), NextTask(t, task, cfg, RunWrite(faults));
    assert RunTask(t, task, cfg, a, faults, error) == RunTask(t', task', cfg, a, faults, error);
    if task'.phase.BeforeRecord? {
      RecordedTask(t', task', cfg, a, faults, error);
    }
  }

  lemma QueriedTask(t: Tables, task: Task, cfg: Config, a: Answers, faults: Faults, error: Text)
    requires task.phase.BeforeQuery?
    requires Attempt(t, cfg, task.args, a, false, faults).0 != Fatal
    ensures RunTask(t, task, cfg, a, faults, error) ==
            AttemptAndRecord(t, cfg, task.args, a, false, faults, error).1
  {
    hide Execute, Prepare;
    var te := RunQuery(a, faults.check);
    var task' := NextTask(t, task, cfg, te);
    assert TaskTables(t, task, te) == t;
    assert RunTask(t, task, cfg, a, faults, error) == RunTask(t, task', cfg, a, faults, error);
    match Prepare(t, cfg, task.args, a, false, faults.check)
    case Ready(job) => WrittenTask(t, task', cfg, a, faults, error);
    case Refused(_) => RecordedTask(t, task', cfg, a, faults, error);
    case _ =>
  }

  /** The tables once the start-up gap is written, for a task that has to. */
  ghost function Begun(t: Tables, task: Task): Tables {
    if !task.phase.BeforeStartUp? then t
    else StartUpGap.StartUpGaps(t, task.args.increment, task.args.slot, StartUpGap.Highest(t))
  }

  /** A head task run without interruption does what processHeadSlot does: start-up gap, attempt, gap for a failure. */
  lemma TaskIsProcessHeadSlot(t: Tables, task: Task, cfg: Config, a: Answers, faults: Faults, error: Text)
    requires task.phase.BeforeStartUp? || task.phase.BeforeQuery?
    requires Attempt(Begun(t, task), cfg, task.args, a, false, faults).0 != Fatal
    ensures RunTask(t, task, cfg, a, faults, error) ==
            AttemptAndRecord(Begun(t, task), cfg, task.args, a, false, faults, error).1
  {
    if task.phase.BeforeStartUp? {
      var t', task' := TaskTables(t, task, RunStartUp), NextTask(t, task, cfg, RunStartUp);
      assert RunTask(t, task, cfg, a, faults, error) == RunTask(t', task', cfg, a, faults, error);
      QueriedTask(t', task', cfg, a, faults, error);
    } else {
      QueriedTask(t, task, cfg, a, faults, error);
    }
  }
}

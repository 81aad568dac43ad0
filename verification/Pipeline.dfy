/**
 One batch pipeline: the checkout loop, the distributor, the workers, the error handler and one remover per
 finished range, joined by unbuffered channels. A send and its receive are one step.
 */
module Pipeline {
  import opened Machine
  import opened Tables
  import opened KnownGaps
  import opened SlotWrite
  import opened WorkQueue

  datatype Kind = HistoricRows | GapRows

  datatype WorkerPhase = Querying | Writing(job: Job) | Reporting(reason: Process)

  datatype Worker = Idle | Busy(slot: Slot, phase: WorkerPhase)

  datatype Distributor =
    | Waiting
    | Sending(range: Range, next: Slot)   // next goes to a worker
    | Finishing(range: Range)             // all slots sent, the range goes to the remover
    | WrongStart(range: Range)            // a reversed range: two errors to raise
    | WrongEnd(range: Range)

  datatype Handler =
    | Listening
    | Looking(slot: Slot, error: Text, reason: Process)     // known gaps only: is there a [slot,slot] row?
    | Updating(slot: Slot, error: Text, reason: Process)
    | Inserting(slot: Slot, error: Text, reason: Process)

  datatype RemoverPhase = Polling | StartSeen | Cleared

  datatype Remover = Remover(range: Range, phase: RemoverPhase)

  datatype Pipe = Pipe(kind: Kind, node: int, minimum: Slot, offered: Option<Range>, dist: Distributor,
                       workers: seq<Worker>, handler: Handler, removers: seq<Remover>)

  datatype PipeEvent =
    | Checkout(range: Range)
    | Accept
    | Raise(error: Text)
    | Send(worker: nat)
    | Finish
    | Query(worker: nat, answers: Answers, checkFails: bool)
    | Write(worker: nat, faults: Faults)
    | Report(worker: nat, error: Text)
    | Look(fails: bool)
    | Settle(fails: bool)
    | PollStart(remover: nat)
    | PollEnd(remover: nat)
    | Delete(remover: nat)

  function WorkOf(t: Tables, kind: Kind): Work {
    match kind
    case HistoricRows => t.historic
    case GapRows => t.knownGaps
  }

  function WithWork(t: Tables, kind: Kind, w: Work): Tables {
    match kind
    case HistoricRows => t.(historic := w)
    case GapRows => t.(knownGaps := w)
  }

  function NewPipe(kind: Kind, node: int, minimum: Slot, workers: nat): Pipe {
    Pipe(kind, node, minimum, None, Waiting, seq(workers, _ => Idle), Listening, [])
  }

  /** What the distributor does with a received range. */
  function Start(r: Range): Distributor {
    if r.start > r.end then WrongStart(r) else Sending(r, r.start)
  }

  /** After sending a slot; the loop variable is a uint64 and wraps. */
  function Advance(r: Range, next: Slot): Distributor {
    if r.start == r.end || ToSlot(next + 1) > r.end then Finishing(r) else Sending(r, ToSlot(next + 1))
  }

  /** The distributor's state after sending n slots. */
  function AfterSends(r: Range, n: nat): Distributor
    requires r.start <= r.end
  {
    if n == 0 then Start(r)
    else
      var d := AfterSends(r, n - 1);
      if d.Sending? then Advance(r, d.next) else d
  }

  lemma AdvanceValue(r: Range, next: Slot)
    requires r.start <= next <= r.end && (r.end < WORD - 1 || r.start == r.end)
    ensures Advance(r, next) == if next < r.end then Sending(r, next + 1) else Finishing(r)
  {
  }

  /** The step relation of the pipeline sends the same slots in the same order, then finishes. */
  lemma {:induction false} StepsSendTheRange(r: Range, n: nat)
    requires r.start <= r.end && (r.end < WORD - 1 || r.start == r.end)
    ensures AfterSends(r, n) == if n <= r.end - r.start then Sending(r, r.start + n) else Finishing(r)
  {
    if n > 0 {
      StepsSendTheRange(r, n - 1);
      if n - 1 <= r.end - r.start {
        AdvanceValue(r, r.start + n - 1);
      }
    }
  }

  /** A range that ends at the last uint64 is sent over and over. */
  lemma {:induction false} EndlessRangeGoesOn(r: Range, n: nat)
    requires r.start < r.end == WORD - 1
    ensures AfterSends(r, n).Sending? && AfterSends(r, n).range == r
  {
    if n > 0 {
      EndlessRangeGoesOn(r, n - 1);
    }
  }

  /** The distributor finishes a range exactly when it is one slot or does not reach the last uint64. */
  lemma SendingEndsIff(r: Range)
    requires r.start <= r.end
    ensures (exists n: nat :: AfterSends(r, n).Finishing?) <==> r.start == r.end || r.end < WORD - 1
  {
    if r.start == r.end || r.end < WORD - 1 {
      StepsSendTheRange(r, r.end - r.start + 1);
    } else {
      forall n: nat ensures !AfterSends(r, n).Finishing? {
        EndlessRangeGoesOn(r, n);
      }
    }
  }

  /** An error goes straight to an insert for historic rows, through a look-up for known gaps. */
  function Receive(kind: Kind, slot: Slot, error: Text, reason: Process): Handler {
    match kind
    case HistoricRows => Inserting(slot, error, reason)
    case GapRows => Looking(slot, error, reason)
  }

  ghost predicate Enabled(t: Tables, p: Pipe, cfg: Config, e: PipeEvent) {
    match e
    case Checkout(r) => p.offered.None? && Selected(WorkOf(t, p.kind), p.minimum, r)
    case Accept => p.offered.Some? && p.dist.Waiting?
    case Raise(_) => (p.dist.WrongStart? || p.dist.WrongEnd?) && p.handler.Listening?
    case Send(j) => p.dist.Sending? && j < |p.workers| && p.workers[j].Idle?
    case Finish => p.dist.Finishing?
    case Query(j, _, _) => j < |p.workers| && p.workers[j].Busy? && p.workers[j].phase.Querying?
    case Write(j, faults) =>
      && j < |p.workers| && p.workers[j].Busy? && p.workers[j].phase.Writing?
      && Execute(t, p.workers[j].phase.job, faults).0 != Fatal
    case Report(j, _) => j < |p.workers| && p.workers[j].Busy? && p.workers[j].phase.Reporting? && p.handler.Listening?
    case Look(_) => p.handler.Looking?
    case Settle(_) => p.handler.Updating? || p.handler.Inserting?
    case PollStart(k) => k < |p.removers| && p.removers[k].phase.Polling?
    case PollEnd(k) => k < |p.removers| && p.removers[k].phase.StartSeen?
    case Delete(k) => k < |p.removers| && p.removers[k].phase.Cleared?
  }

  function AfterQuery(t: Tables, cfg: Config, slot: Slot, a: Answers, checkFails: bool): Worker {
    match Prepare(t, cfg, HistoricArgs(slot), a, false, checkFails)
    case Cancelled => Idle
    case Refused(reason) => Busy(slot, Reporting(reason))
    case AlreadyStored => Idle
    case Ready(job) => Busy(slot, Writing(job))
  }

  function AfterWrite(slot: Slot, outcome: Outcome): Worker {
    if outcome.Failed? then Busy(slot, Reporting(outcome.reason)) else Idle
  }

  function RaiseReversed(p: Pipe, error: Text): Pipe {
    match p.dist
    case WrongStart(r) => p.(dist := WrongEnd(r), handler := Receive(p.kind, r.start, error, RangeOrder))
    case WrongEnd(r) => p.(dist := Waiting, handler := Receive(p.kind, r.end, error, RangeOrder))
    case _ => p
  }

  /** A failed retry: note its error on the [slot,slot] row and move the row back by one priority; no row, no change. */
  function RaisePriority(w: Work, slot: Slot, error: Text): Work {
    var r := Range(slot, slot);
    if r in w then w[r := w[r].(reprocessingError := error, priority := w[r].priority + 1)] else w
  }

  function SettleError(t: Tables, h: Handler, fails: bool): Tables {
    match h
    case Updating(slot, error, _) => if fails then t else t.(knownGaps := RaisePriority(t.knownGaps, slot, error))
    case Inserting(slot, error, reason) => RecordFailure(t, slot, 1, error, reason)
    case _ => t
  }

  function AfterLook(t: Tables, h: Handler, fails: bool): Handler
    requires h.Looking?
  {
    if !fails && Range(h.slot, h.slot) in t.knownGaps then Updating(h.slot, h.error, h.reason)
    else Inserting(h.slot, h.error, h.reason)
  }

  ghost function PollPhase(t: Tables, slot: Slot, next: RemoverPhase): RemoverPhase {
    if SlotKnown(t, slot) then next else Polling
  }

  ghost function NextPipe(t: Tables, p: Pipe, cfg: Config, e: PipeEvent): Pipe
    requires Enabled(t, p, cfg, e)
  {
    match e
    case Checkout(r) => p.(offered := Some(r))
    case Accept => p.(offered := None, dist := Start(p.offered.value))
    case Raise(error) => RaiseReversed(p, error)
    case Send(j) =>
      p.(dist := Advance(p.dist.range, p.dist.next), workers := p.workers[j := Busy(p.dist.next, Querying)])
    case Finish => p.(dist := Waiting, removers := p.removers + [Remover(p.dist.range, Polling)])
    case Query(j, a, checkFails) =>
      p.(workers := p.workers[j := AfterQuery(t, cfg, p.workers[j].slot, a, checkFails)])
    case Write(j, faults) =>
      p.(workers := p.workers[j := AfterWrite(p.workers[j].slot, Execute(t, p.workers[j].phase.job, faults).0)])
    case Report(j, error) =>
      p.(workers := p.workers[j := Idle],
         handler := Receive(p.kind, p.workers[j].slot, error, p.workers[j].phase.reason))
    case Look(fails) => p.(handler := AfterLook(t, p.handler, fails))
    case Settle(_) => p.(handler := Listening)
    case PollStart(k) =>
      p.(removers := p.removers[k := p.removers[k].(phase := PollPhase(t, p.removers[k].range.start, StartSeen))])
    case PollEnd(k) =>
      p.(removers := p.removers[k := p.removers[k].(phase := PollPhase(t, p.removers[k].range.end, Cleared))])
    case Delete(k) => p.(removers := p.removers[..k] + p.removers[k + 1..])
  }

  ghost function NextTables(t: Tables, p: Pipe, cfg: Config, e: PipeEvent): Tables
    requires Enabled(t, p, cfg, e)
  {
    match e
    case Checkout(r) => WithWork(t, p.kind, Lock(WorkOf(t, p.kind), r, p.node))
    case Write(j, faults) => Execute(t, p.workers[j].phase.job, faults).1
    case Settle(fails) => SettleError(t, p.handler, fails)
    case Delete(k) => WithWork(t, p.kind, WorkOf(t, p.kind) - {p.removers[k].range})
    case _ => t
  }

  // ---- What a pipe owes ----

  /** A worker or the error handler has the slot in hand. */
  ghost predicate InHand(p: Pipe, x: Slot) {
    || (exists j :: 0 <= j < |p.workers| && p.workers[j].Busy? && p.workers[j].slot == x)
    || (!p.handler.Listening? && p.handler.slot == x)
  }

  /** The slot was handed out for a range that is still being distributed or waits for removal. */
  ghost predicate HandedOut(p: Pipe, x: Slot) {
    || (p.dist.Sending? && p.dist.range.start <= x < p.dist.next)
    || (p.dist.Finishing? && Holds(p.dist.range, x))
    || (exists k :: 0 <= k < |p.removers| && Holds(p.removers[k].range, x))
  }

  /** The distributor's loop variable is where it should be; a range ending at 2^64-1 may have wrapped. */
  predicate DistributorOk(d: Distributor) {
    match d
    case Sending(r, next) =>
      r.start <= next <= r.end || (next <= r.end && r.start < r.end == WORD - 1)
    case _ => true
  }

  ghost predicate RemoverOk(t: Tables, r: Remover) {
    && (r.phase.StartSeen? || r.phase.Cleared? ==> SlotKnown(t, r.range.start))
    && (r.phase.Cleared? ==> SlotKnown(t, r.range.end))
  }

  /** A handler that decided to update still finds the row, unless its slot has been stored meanwhile. */
  ghost predicate HandlerOk(t: Tables, h: Handler) {
    h.Updating? ==> Accounted(t, h.slot)
  }

  /** A worker about to write has its own slot's job. */
  predicate WorkerOk(w: Worker) {
    w.Busy? && w.phase.Writing? ==> w.phase.job.args == HistoricArgs(w.slot)
  }

  ghost predicate PipeOk(t: Tables, p: Pipe) {
    && DistributorOk(p.dist)
    && (forall k :: 0 <= k < |p.removers| ==> RemoverOk(t, p.removers[k]))
    && HandlerOk(t, p.handler)
    && (forall j :: 0 <= j < |p.workers| ==> WorkerOk(p.workers[j]))
  }

  /** Slots stay stored, and a one-slot gap disappears only once its slot is stored. */
  ghost predicate Safe(t: Tables, t': Tables) {
    && (forall x: Slot :: SlotKnown(t, x) ==> SlotKnown(t', x))
    && (forall x: Slot :: Accounted(t, x) ==> Accounted(t', x))
  }

  /** No work row disappears. */
  ghost predicate KeepsRows(t: Tables, t': Tables) {
    t.knownGaps.Keys <= t'.knownGaps.Keys && t.historic.Keys <= t'.historic.Keys
  }

  /** What one step of a pipe may change, seen from outside. */
  ghost predicate LocallySound(t: Tables, p: Pipe, t': Tables, p': Pipe) {
    && Integrity(t') && PipeOk(t', p') && Safe(t, t')
    && (forall x: Slot :: InHand(p, x) ==> InHand(p', x) || Accounted(t', x))
    && (forall x: Slot :: HandedOut(p', x) ==> HandedOut(p, x) || InHand(p', x))
  }

  lemma UnchangedIsSafe(t: Tables)
    ensures Safe(t, t) && KeepsRows(t, t)
  {
  }

  lemma GrowingIsSafe(t: Tables, t': Tables)
    requires t.slots.Keys <= t'.slots.Keys && t.knownGaps.Keys <= t'.knownGaps.Keys
    ensures Safe(t, t')
  {
    forall x: Slot | SlotKnown(t, x) ensures SlotKnown(t', x) {
      var r :| (x, r) in t.slots;
      assert (x, r) in t'.slots;
    }
  }

  /** Safe changes keep what pipes rely on. */
  lemma SafeKeepsPipeOk(t: Tables, t': Tables, p: Pipe)
    requires PipeOk(t, p) && Safe(t, t')
    ensures PipeOk(t', p)
  {
    forall k | 0 <= k < |p.removers| ensures RemoverOk(t', p.removers[k]) {
      assert RemoverOk(t, p.removers[k]);
    }
  }

  lemma WorkerUpdate(p: Pipe, j: nat, w: Worker, x: Slot)
    requires j < |p.workers|
    ensures InHand(p, x) ==>
              InHand(p.(workers := p.workers[j := w]), x) || (p.workers[j].Busy? && p.workers[j].slot == x)
    ensures w.Busy? ==> InHand(p.(workers := p.workers[j := w]), w.slot)
  {
    var p' := p.(workers := p.workers[j := w]);
    assert p'.workers[j] == w;
    if i :| 0 <= i < |p.workers| && p.workers[i].Busy? && p.workers[i].slot == x {
      assert i != j ==> p'.workers[i] == p.workers[i];
    }
  }

  lemma CheckoutIsSound(t: Tables, p: Pipe, cfg: Config, e: PipeEvent)
    requires Integrity(t) && PipeOk(t, p) && Enabled(t, p, cfg, e) && (e.Checkout? || e.Accept?)
    ensures LocallySound(t, p, NextTables(t, p, cfg, e), NextPipe(t, p, cfg, e))
    ensures KeepsRows(t, NextTables(t, p, cfg, e))
  {
    var t' := NextTables(t, p, cfg, e);
    SameKeysKeepIntegrity(t, t');
    GrowingIsSafe(t, t');
    SafeKeepsPipeOk(t, t', p);
  }

  lemma AdvanceHandsOut(r: Range, next: Slot)
    requires DistributorOk(Sending(r, next))
    ensures DistributorOk(Advance(r, next))
    ensures Advance(r, next).Finishing? ==> next == r.end && r.start <= next
    ensures Advance(r, next).Sending? && r.start < Advance(r, next).next ==>
              Advance(r, next).next == next + 1
  {
  }

  lemma SendIsSound(t: Tables, p: Pipe, cfg: Config, e: PipeEvent)
    requires Integrity(t) && PipeOk(t, p) && Enabled(t, p, cfg, e) && e.Send?
    ensures LocallySound(t, p, NextTables(t, p, cfg, e), NextPipe(t, p, cfg, e))
  {
    var r, next := p.dist.range, p.dist.next;
    var p' := NextPipe(t, p, cfg, e);
    UnchangedIsSafe(t);
    AdvanceHandsOut(r, next);
    forall x: Slot ensures InHand(p, x) ==> InHand(p', x) {
      WorkerUpdate(p, e.worker, Busy(next, Querying), x);
    }
    WorkerUpdate(p, e.worker, Busy(next, Querying), next);
    forall x: Slot | HandedOut(p', x) ensures HandedOut(p, x) || x == next {
      assert p'.removers == p.removers;
    }
  }

  lemma FinishIsSound(t: Tables, p: Pipe, cfg: Config, e: PipeEvent)
    requires Integrity(t) && PipeOk(t, p) && Enabled(t, p, cfg, e) && (e.Finish? || e.Raise?)
    ensures LocallySound(t, p, NextTables(t, p, cfg, e), NextPipe(t, p, cfg, e))
  {
    var p' := NextPipe(t, p, cfg, e);
    UnchangedIsSafe(t);
    forall x: Slot | HandedOut(p', x) ensures HandedOut(p, x) {
      if k :| 0 <= k < |p'.removers| && Holds(p'.removers[k].range, x) {
        if k < |p.removers| {
          assert p'.removers[k] == p.removers[k];
        }
      }
    }
  }

  lemma QueryIsSound(t: Tables, p: Pipe, cfg: Config, e: PipeEvent)
    requires Integrity(t) && PipeOk(t, p) && Enabled(t, p, cfg, e) && e.Query? && (cfg.blocks || cfg.states)
    ensures LocallySound(t, p, NextTables(t, p, cfg, e), NextPipe(t, p, cfg, e))
  {
    var j, slot := e.worker, p.workers[e.worker].slot;
    var w := AfterQuery(t, cfg, slot, e.answers, e.checkFails);
    UnchangedIsSafe(t);
    if w.Idle? {
      StoredImpliesKnown(t, cfg, Job(HistoricArgs(slot), Fetch(cfg, e.answers).value));
    }
    forall x: Slot | InHand(p, x) ensures InHand(NextPipe(t, p, cfg, e), x) || Accounted(t, x) {
      WorkerUpdate(p, j, w, x);
    }
  }

  lemma ExecuteIsSafe(t: Tables, job: Job, faults: Faults)
    requires Integrity(t) && Execute(t, job, faults).0 != Fatal
    ensures var (outcome, t') := Execute(t, job, faults);
            && Integrity(t') && t.slots.Keys <= t'.slots.Keys && KeepsRows(t, t')
            && (outcome == Done ==> SlotKnown(t', job.args.slot))
  {
    CommitKeepsIntegrity(t, job);
    CommitKeepsRows(t, job);
    assert SlotKey(job).0 == job.args.slot;
  }

  /** The fork and gap step leaves every existing work row exactly as it was. */
  lemma CheckPreviousKeepsRows(t: Tables, job: Job)
    ensures RowsKept(t.knownGaps, CheckPrevious(t, job).knownGaps)
  {
    var a := job.args;
    match LinkOf(job)
    case Fork => Reorgs.ReorgKeepsRows(t, a.slot, a.blockRoot);
    case Mismatch(parent) => Reorgs.ReorgKeepsRows(t, a.previousSlot, parent);
    case Jump =>
      var rows := ChunkRows(ToSlot(a.previousSlot + 1), ToSlot(a.slot - 1), a.increment);
      InsertGapsReaches(t.knownGaps, rows, HEAD_GAP, a.slot);
    case _ =>
  }

  lemma CommitKeepsRows(t: Tables, job: Job)
    ensures RowsKept(t.knownGaps, Committed(t, job).knownGaps)
    ensures Committed(t, job).historic == t.historic
  {
    var full := FullSlot(t, job);
    FullSlotFrame(t, job);
    CheckPreviousKeepsRows(full, job);
    CheckPreviousFrame(full, job);
  }

  lemma WriteIsSound(t: Tables, p: Pipe, cfg: Config, e: PipeEvent)
    requires Integrity(t) && PipeOk(t, p) && Enabled(t, p, cfg, e) && e.Write?
    ensures LocallySound(t, p, NextTables(t, p, cfg, e), NextPipe(t, p, cfg, e))
    ensures KeepsRows(t, NextTables(t, p, cfg, e))
  {
    var j := e.worker;
    var job, slot := p.workers[j].phase.job, p.workers[j].slot;
    assert WorkerOk(p.workers[j]);
    var t' := NextTables(t, p, cfg, e);
    ExecuteIsSafe(t, job, e.faults);
    GrowingIsSafe(t, t');
    SafeKeepsPipeOk(t, t', p);
    forall x: Slot | InHand(p, x) ensures InHand(NextPipe(t, p, cfg, e), x) || Accounted(t', x) {
      WorkerUpdate(p, j, AfterWrite(slot, Execute(t, job, e.faults).0), x);
    }
  }

  lemma ReportIsSound(t: Tables, p: Pipe, cfg: Config, e: PipeEvent)
    requires Integrity(t) && PipeOk(t, p) && Enabled(t, p, cfg, e) && (e.Report? || e.Look?)
    ensures LocallySound(t, p, NextTables(t, p, cfg, e), NextPipe(t, p, cfg, e))
  {
    var p' := NextPipe(t, p, cfg, e);
    UnchangedIsSafe(t);
    forall x: Slot | InHand(p, x) ensures InHand(p', x) {
      if e.Report? {
        WorkerUpdate(p, e.worker, Idle, x);
      }
    }
  }

  lemma SettledErrorIsAccounted(t: Tables, h: Handler, fails: bool)
    requires HandlerOk(t, h) && (h.Updating? || h.Inserting?)
    ensures var t' := SettleError(t, h, fails);
            && t' == t.(knownGaps := t'.knownGaps)
            && t.knownGaps.Keys <= t'.knownGaps.Keys
            && Accounted(t', h.slot)
  {
    if h.Inserting? {
      SingleSlotGap(t.knownGaps, h.slot, 1, NewGap(h.error, h.reason));
      InsertMissingKeys(t.knownGaps, Range(h.slot, h.slot), NewGap(h.error, h.reason));
    } else {
      GrowingIsSafe(t, SettleError(t, h, fails));
    }
  }

  lemma SettleIsSound(t: Tables, p: Pipe, cfg: Config, e: PipeEvent)
    requires Integrity(t) && PipeOk(t, p) && Enabled(t, p, cfg, e) && e.Settle?
    ensures LocallySound(t, p, NextTables(t, p, cfg, e), NextPipe(t, p, cfg, e))
    ensures KeepsRows(t, NextTables(t, p, cfg, e))
  {
    var t' := NextTables(t, p, cfg, e);
    SettledErrorIsAccounted(t, p.handler, e.fails);
    SameKeysKeepIntegrity(t, t');
    GrowingIsSafe(t, t');
    SafeKeepsPipeOk(t, t', p);
  }

  lemma PollIsSound(t: Tables, p: Pipe, cfg: Config, e: PipeEvent)
    requires Integrity(t) && PipeOk(t, p) && Enabled(t, p, cfg, e) && (e.PollStart? || e.PollEnd?)
    ensures LocallySound(t, p, NextTables(t, p, cfg, e), NextPipe(t, p, cfg, e))
  {
    var p' := NextPipe(t, p, cfg, e);
    UnchangedIsSafe(t);
    assert RemoverOk(t, p.removers[e.remover]);
    forall x: Slot | HandedOut(p', x) ensures HandedOut(p, x) {
      if k :| 0 <= k < |p'.removers| && Holds(p'.removers[k].range, x) {
        assert p'.removers[k].range == p.removers[k].range;
      }
    }
  }

  /** The deleted row is the remover's, both of whose ends are stored. */
  lemma DeleteIsSound(t: Tables, p: Pipe, cfg: Config, e: PipeEvent)
    requires Integrity(t) && PipeOk(t, p) && Enabled(t, p, cfg, e) && e.Delete?
    ensures LocallySound(t, p, NextTables(t, p, cfg, e), NextPipe(t, p, cfg, e))
    ensures forall x: Slot :: Holds(p.removers[e.remover].range, x) ==> HandedOut(p, x)
  {
    var t', p' := NextTables(t, p, cfg, e), NextPipe(t, p, cfg, e);
    var r := p.removers[e.remover];
    assert RemoverOk(t, r);
    SameKeysKeepIntegrity(t, t');
    DeletionIsSafe(t, p.kind, r.range);
    SafeKeepsPipeOk(t, t', p);
    forall k | 0 <= k < |p'.removers| ensures RemoverOk(t', p'.removers[k]) {
      assert p'.removers[k] == p.removers[if k < e.remover then k else k + 1];
    }
    forall x: Slot | HandedOut(p', x) ensures HandedOut(p, x) {
      if k :| 0 <= k < |p'.removers| && Holds(p'.removers[k].range, x) {
        assert p'.removers[k] == p.removers[if k < e.remover then k else k + 1];
      }
    }
  }

  lemma DeletionIsSafe(t: Tables, kind: Kind, r: Range)
    requires SlotKnown(t, r.start) && SlotKnown(t, r.end)
    ensures Safe(t, WithWork(t, kind, WorkOf(t, kind) - {r}))
  {
    var t' := WithWork(t, kind, WorkOf(t, kind) - {r});
    forall x: Slot | SlotKnown(t, x) ensures SlotKnown(t', x) {
      var root :| (x, root) in t.slots;
      assert (x, root) in t'.slots;
    }
  }

  /** Every step is locally sound, and only a deletion removes a row: its remover's own. */
  lemma StepIsSound(t: Tables, p: Pipe, cfg: Config, e: PipeEvent)
    requires Integrity(t) && PipeOk(t, p) && Enabled(t, p, cfg, e) && (cfg.blocks || cfg.states)
    ensures LocallySound(t, p, NextTables(t, p, cfg, e), NextPipe(t, p, cfg, e))
    ensures !e.Delete? ==> KeepsRows(t, NextTables(t, p, cfg, e))
    ensures e.Delete? ==> forall x: Slot :: Holds(p.removers[e.remover].range, x) ==> HandedOut(p, x)
  {
    match e
    case Checkout(_) => CheckoutIsSound(t, p, cfg, e);
    case Accept => CheckoutIsSound(t, p, cfg, e);
    case Raise(_) => FinishIsSound(t, p, cfg, e);
    case Send(_) => SendIsSound(t, p, cfg, e);
    case Finish => FinishIsSound(t, p, cfg, e);
    case Query(_, _, _) => QueryIsSound(t, p, cfg, e);
    case Write(_, _) => WriteIsSound(t, p, cfg, e);
    case Report(_, _) => ReportIsSound(t, p, cfg, e);
    case Look(_) => ReportIsSound(t, p, cfg, e);
    case Settle(_) => SettleIsSound(t, p, cfg, e);
    case PollStart(_) => PollIsSound(t, p, cfg, e);
    case PollEnd(_) => PollIsSound(t, p, cfg, e);
    case Delete(_) => DeleteIsSound(t, p, cfg, e);
  }
}

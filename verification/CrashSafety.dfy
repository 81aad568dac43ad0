/** What a crash can lose: which rows may be removed while a slot of theirs is only in a worker's hands. */
module CrashSafety {
  import opened Machine
  import opened Tables
  import opened KnownGaps
  import opened SlotWrite
  import opened HistoricOrder
  import opened WorkQueue
  import opened Pipeline
  import opened Indexer
  import opened Runs

  /** At most two slots, or none: the remover looks at all of them. */
  predicate Short(r: Range) {
    r.end <= r.start + 1
  }

  /** The distributor never gets to the end of the range. */
  predicate Endless(r: Range) {
    r.start < r.end == WORD - 1
  }

  /** The distributor sends all slots of the range and hands it to a remover. */
  predicate Sendable(r: Range) {
    r.start <= r.end && !Endless(r)
  }

  /** The event removes the row from its table. */
  ghost predicate Removes(s: State, e: Event, kind: Kind, r: Range) {
    && e.PipeStep? && e.i < |s.pipes| && s.pipes[e.i].kind == kind && e.e.Delete?
    && e.e.remover < |s.pipes[e.i].removers| && s.pipes[e.i].removers[e.e.remover].range == r
  }

  /** Every pipeline has this many workers. */
  predicate Pools(events: seq<Event>, workers: nat) {
    forall i :: 0 <= i < |events| && events[i].Join? ==> events[i].workers == workers
  }

  /** Whenever the row is removed, in any run with that many workers, the tables alone account for all its slots. */
  ghost predicate CrashSafe(setup: Setup, workers: nat, kind: Kind, r: Range) {
    forall states: seq<State>, events: seq<Event>, i: nat, x: Slot ::
      Run(setup, states, events) && Pools(events, workers)
      && i < |events| && Removes(states[i], events[i], kind, r) && Holds(r, x)
      ==> OnRecord(states[i + 1].tables, x)
  }

  // ---- Short rows are safe ----

  /** Both ends were seen stored, and there is nothing between them. */
  lemma ShortRowIsStored(setup: Setup, states: seq<State>, events: seq<Event>, i: nat, kind: Kind, r: Range, x: Slot)
    requires Run(setup, states, events) && Working(setup) && i < |events|
    requires Removes(states[i], events[i], kind, r) && Short(r) && Holds(r, x)
    ensures SlotKnown(states[i + 1].tables, x)
  {
    var s, e := states[i], events[i];
    RunKeepsInv(setup, states, events, i);
    assert Follows(setup, states, events, i);
    ClearedRowIsStored(s.tables, s.pipes[e.i], CfgOf(setup, s.pipes[e.i]), e.e, x);
  }

  lemma ClearedRowIsStored(t: Tables, p: Pipe, cfg: Config, e: PipeEvent, x: Slot)
    requires Integrity(t) && PipeOk(t, p) && Enabled(t, p, cfg, e) && e.Delete? && (cfg.blocks || cfg.states)
    requires var r := p.removers[e.remover].range; Short(r) && Holds(r, x)
    ensures SlotKnown(NextTables(t, p, cfg, e), x)
  {
    assert RemoverOk(t, p.removers[e.remover]);
    StepIsSound(t, p, cfg, e);
  }

  // ---- Reversed and endless rows are never removed ----

  ghost predicate OnlySendable(p: Pipe) {
    && (p.dist.Sending? ==> p.dist.range.start <= p.dist.range.end)
    && (p.dist.Finishing? ==> Sendable(p.dist.range))
    && (forall k :: 0 <= k < |p.removers| ==> Sendable(p.removers[k].range))
  }

  lemma StepKeepsSendable(t: Tables, p: Pipe, cfg: Config, e: PipeEvent)
    requires Enabled(t, p, cfg, e) && OnlySendable(p)
    ensures OnlySendable(NextPipe(t, p, cfg, e))
  {
    hide Execute, Prepare;
    var p' := NextPipe(t, p, cfg, e);
    forall k | 0 <= k < |p'.removers| ensures Sendable(p'.removers[k].range) {
      if e.Delete? {
        assert p'.removers[k] == p.removers[if k < e.remover then k else k + 1];
      } else if k < |p.removers| {
        assert p'.removers[k].range == p.removers[k].range;
      }
    }
  }

  lemma {:induction false} RemoversAreSendable(setup: Setup, states: seq<State>, events: seq<Event>, n: nat)
    requires Run(setup, states, events) && n < |states|
    ensures forall i :: 0 <= i < |states[n].pipes| ==> OnlySendable(states[n].pipes[i])
  {
    if n > 0 {
      RemoversAreSendable(setup, states, events, n - 1);
      var s, e := states[n - 1], events[n - 1];
      assert Follows(setup, states, events, n - 1);
      if e.PipeStep? {
        StepKeepsSendable(s.tables, s.pipes[e.i], CfgOf(setup, s.pipes[e.i]), e.e);
      }
    }
  }

  /** A reversed or endless row that is once in a work table is there for ever. */
  lemma {:induction false} UnsendableRowsStay(setup: Setup, states: seq<State>, events: seq<Event>, i: nat, j: nat,
                                              kind: Kind, r: Range)
    requires Run(setup, states, events) && Working(setup) && i <= j < |states|
    requires !Sendable(r) && r in WorkOf(states[i].tables, kind)
    ensures r in WorkOf(states[j].tables, kind)
  {
    hide Step, Inv;
    if i < j {
      UnsendableRowsStay(setup, states, events, i, j - 1, kind, r);
      RunKeepsInv(setup, states, events, j - 1);
      RemoversAreSendable(setup, states, events, j - 1);
      assert Follows(setup, states, events, j - 1);
      UnsendableRowStays(states[j - 1], setup, events[j - 1], kind, r);
    }
  }

  lemma UnsendableRowStays(s: State, setup: Setup, e: Event, kind: Kind, r: Range)
    requires Inv(s) && Possible(s, setup, e) && Working(setup)
    requires forall i :: 0 <= i < |s.pipes| ==> OnlySendable(s.pipes[i])
    requires !Sendable(r) && r in WorkOf(s.tables, kind)
    ensures r in WorkOf(Step(s, setup, e).tables, kind)
  {
    hide LocallySound, PipeOk, Safe, NextPipe, TaskTables;
    if e.PipeStep? {
      StepIsSound(s.tables, s.pipes[e.i], CfgOf(setup, s.pipes[e.i]), e.e);
    } else {
      OtherTablesAreSafe(s, setup, e);
    }
  }

  // ---- Longer rows are not safe ----

  const SKIP := Answers(NotFound, StateOk(Blank, true))
  const REFUSAL := Answers(BlockError, StateError)

  /** All slots of the row but these are stored. */
  function AllBut(r: Range, lost: seq<Slot>): Tables {
    EMPTY.(slots := map x: Slot | r.start <= x <= r.end && x !in lost ::
                      (x, Blank) := SlotRow(x / SLOTS_PER_EPOCH, Blank, Status.Skipped))
  }

  function WithRow(kind: Kind, r: Range, lost: seq<Slot>, row: WorkRow): Tables {
    WithWork(AllBut(r, lost), kind, map[r := row])
  }

  /** The second and later workers: those after the first have the first of the lost slots in hand. */
  function OtherWorkers(workers: nat, lost: seq<Slot>, c: nat): seq<Worker>
    requires 0 < workers && c <= |lost|
  {
    seq(workers - 1, j requires 0 <= j < workers - 1 => if j + 1 < c then Busy(lost[j + 1], Querying) else Idle)
  }

  /** The handler has the first lost slot in hand. */
  function FirstInHandler(kind: Kind, lost: seq<Slot>, c: nat): Handler
    requires c <= |lost|
  {
    if c == 0 then Listening else Receive(kind, lost[0], Blank, ProcessSlotStep)
  }

  /** One pipe, its first worker and the others, which have taken c of the lost slots with the handler. */
  function Loss(kind: Kind, r: Range, workers: nat, lost: seq<Slot>, c: nat, t: Tables, offered: Option<Range>,
                dist: Distributor, first: Worker, removers: seq<Remover>): State
    requires 0 < workers && c <= |lost|
  {
    State(t, [Pipe(kind, 1, 0, offered, dist, [first] + OtherWorkers(workers, lost, c), FirstInHandler(kind, lost, c),
                   removers)], NO_HEAD, {r})
  }

  function Sent(kind: Kind, r: Range, workers: nat, lost: seq<Slot>, c: nat, dist: Distributor, first: Worker): State
    requires 0 < workers && c <= |lost|
  {
    Loss(kind, r, workers, lost, c, WithRow(kind, r, lost, HELD_ROW), None, dist, first, [])
  }

  function Removing(kind: Kind, r: Range, workers: nat, lost: seq<Slot>, phase: RemoverPhase): State
    requires 0 < workers
  {
    Loss(kind, r, workers, lost, |lost|, WithRow(kind, r, lost, HELD_ROW), None, Waiting, Idle, [Remover(r, phase)])
  }

  function Removed(kind: Kind, r: Range, workers: nat, lost: seq<Slot>): State
    requires 0 < workers
  {
    Loss(kind, r, workers, lost, |lost|, AllBut(r, lost), None, Waiting, Idle, [])
  }

  lemma RowTables(kind: Kind, r: Range, lost: seq<Slot>, row: WorkRow)
    ensures var t := WithRow(kind, r, lost, row);
            && t.knownGaps.Keys + t.historic.Keys == {r}
            && WithWork(t, kind, WorkOf(t, kind) - {r}) == AllBut(r, lost)
    ensures var t := WithRow(kind, r, lost, FREE_ROW);
            WithWork(t, kind, Lock(WorkOf(t, kind), r, 1)) == WithRow(kind, r, lost, HELD_ROW)
  {
  }

  lemma StoredBut(kind: Kind, r: Range, lost: seq<Slot>, row: WorkRow, x: Slot)
    ensures SlotKnown(WithRow(kind, r, lost, row), x) <==> r.start <= x <= r.end && x !in lost
    ensures SlotKnown(AllBut(r, lost), x) <==> r.start <= x <= r.end && x !in lost
  {
    if r.start <= x <= r.end && x !in lost {
      assert (x, Blank) in WithRow(kind, r, lost, row).slots && (x, Blank) in AllBut(r, lost).slots;
    }
  }

  lemma RowHandedOut(setup: Setup, kind: Kind, r: Range, workers: nat, lost: seq<Slot>)
    returns (states: seq<State>, events: seq<Event>)
    requires 0 < workers && r.start <= r.end
    ensures Part(setup, states, events) && Init(states[0]) && Pools(events, workers)
    ensures states[|events|] == Sent(kind, r, workers, lost, 0, Start(r), Idle)
  {
    var t, t' := WithRow(kind, r, lost, FREE_ROW), WithRow(kind, r, lost, HELD_ROW);
    var s0, s1 := State(t, [], NO_HEAD, {r}), Loss(kind, r, workers, lost, 0, t, None, Waiting, Idle, []);
    var s2, s3 := Loss(kind, r, workers, lost, 0, t', Some(r), Waiting, Idle, []),
                  Sent(kind, r, workers, lost, 0, Start(r), Idle);
    RowTables(kind, r, lost, FREE_ROW);
    RowTables(kind, r, lost, HELD_ROW);
    assert seq(workers, _ => Idle) == [Idle] + OtherWorkers(workers, lost, 0);
    assert Leads(setup, s0, Join(kind, 1, 0, workers, true), s1);
    PipeLeads(setup, s1.tables, s1.pipes[0], {r}, PipeEvent.Checkout(r), s2.tables, s2.pipes[0]);
    PipeLeads(setup, s2.tables, s2.pipes[0], {r}, Accept, s3.tables, s3.pipes[0]);
    states := [s0, s1, s2, s3];
    events := [Join(kind, 1, 0, workers, true), PipeStep(0, PipeEvent.Checkout(r)), PipeStep(0, Accept)];
  }

  lemma FirstWorker(w: Worker, w': Worker, rest: seq<Worker>)
    ensures ([w] + rest)[0] == w && ([w] + rest)[0 := w'] == [w'] + rest
  {
  }

  /** A step of the first worker, the pipe's other parts unchanged but for the distributor. */
  lemma FirstWorkerLeads(setup: Setup, kind: Kind, r: Range, workers: nat, lost: seq<Slot>, c: nat, dist: Distributor,
                         w: Worker, e: PipeEvent, dist': Distributor, w': Worker)
    requires 0 < workers && c <= |lost|
    requires var s, s' := Sent(kind, r, workers, lost, c, dist, w), Sent(kind, r, workers, lost, c, dist', w');
             && Enabled(s.tables, s.pipes[0], setup.nodes(1), e)
             && NextTables(s.tables, s.pipes[0], setup.nodes(1), e) == s.tables
             && NextPipe(s.tables, s.pipes[0], setup.nodes(1), e) ==
                s.pipes[0].(dist := dist', workers := s.pipes[0].workers[0 := w'])
    ensures Leads(setup, Sent(kind, r, workers, lost, c, dist, w), PipeStep(0, e),
                  Sent(kind, r, workers, lost, c, dist', w'))
  {
    var s, s' := Sent(kind, r, workers, lost, c, dist, w), Sent(kind, r, workers, lost, c, dist', w');
    RowTables(kind, r, lost, HELD_ROW);
    FirstWorker(w, w', OtherWorkers(workers, lost, c));
    PipeLeads(setup, s.tables, s.pipes[0], {r}, e, s'.tables, s'.pipes[0]);
  }

  lemma SlotToFirst(setup: Setup, kind: Kind, r: Range, workers: nat, lost: seq<Slot>, c: nat, x: Slot)
    requires 0 < workers && c <= |lost|
    ensures Leads(setup, Sent(kind, r, workers, lost, c, Sending(r, x), Idle), PipeStep(0, Send(0)),
                  Sent(kind, r, workers, lost, c, Advance(r, x), Busy(x, Querying)))
  {
    FirstWorkerLeads(setup, kind, r, workers, lost, c, Sending(r, x), Idle, Send(0), Advance(r, x), Busy(x, Querying));
  }

  function StoredJob(cfg: Config, x: Slot): Job {
    Job(HistoricArgs(x), Fetched(cfg.blocks, None, Blank, Blank))
  }

  /** The slot is stored already, so its commit changes nothing. */
  lemma SkipChangesNothing(setup: Setup, kind: Kind, r: Range, lost: seq<Slot>, x: Slot)
    requires Working(setup) && Holds(r, x) && x !in lost
    ensures var t := WithRow(kind, r, lost, HELD_ROW);
            && Prepare(t, setup.nodes(1), HistoricArgs(x), SKIP, false, false) == Ready(StoredJob(setup.nodes(1), x))
            && Execute(t, StoredJob(setup.nodes(1), x), NO_FAULT) == (Done, t)
  {
    var t, job := WithRow(kind, r, lost, HELD_ROW), StoredJob(setup.nodes(1), x);
    assert LinkOf(job) == Unlinked && SlotKey(job) == (x, Blank);
    assert FullSlot(t, job) == t;
  }

  /** The first worker processes a slot that is stored already. */
  lemma SlotPasses(setup: Setup, kind: Kind, r: Range, workers: nat, lost: seq<Slot>, c: nat, x: Slot)
    returns (states: seq<State>, events: seq<Event>)
    requires 0 < workers && c <= |lost| && Working(setup) && Holds(r, x) && x !in lost
    ensures Part(setup, states, events) && Pools(events, workers)
    ensures states[0] == Sent(kind, r, workers, lost, c, Sending(r, x), Idle)
    ensures states[|events|] == Sent(kind, r, workers, lost, c, Advance(r, x), Idle)
  {
    hide Prepare, Execute, StoredJob;
    var d, query, write := Advance(r, x), Query(0, SKIP, false), PipeEvent.Write(0, NO_FAULT);
    var w := Busy(x, Writing(StoredJob(setup.nodes(1), x)));
    SkipChangesNothing(setup, kind, r, lost, x);
    SlotToFirst(setup, kind, r, workers, lost, c, x);
    FirstWorkerLeads(setup, kind, r, workers, lost, c, d, Busy(x, Querying), query, d, w);
    FirstWorkerLeads(setup, kind, r, workers, lost, c, d, w, write, d, Idle);
    states := [Sent(kind, r, workers, lost, c, Sending(r, x), Idle),
               Sent(kind, r, workers, lost, c, d, Busy(x, Querying)),
               Sent(kind, r, workers, lost, c, d, w), Sent(kind, r, workers, lost, c, d, Idle)];
    events := [PipeStep(0, Send(0)), PipeStep(0, query), PipeStep(0, write)];
  }

  /** The first lost slot: the first worker's query fails and the handler gets the error. */
  lemma FirstSlotIsTaken(setup: Setup, kind: Kind, r: Range, workers: nat, lost: seq<Slot>)
    returns (states: seq<State>, events: seq<Event>)
    requires 0 < workers && lost != [] && Working(setup)
    ensures Part(setup, states, events) && Pools(events, workers)
    ensures states[0] == Sent(kind, r, workers, lost, 0, Sending(r, lost[0]), Idle)
    ensures states[|events|] == Sent(kind, r, workers, lost, 1, Advance(r, lost[0]), Idle)
  {
    var x, d, query := lost[0], Advance(r, lost[0]), Query(0, REFUSAL, false);
    var w := Busy(x, Reporting(ProcessSlotStep));
    var s, s' := Sent(kind, r, workers, lost, 0, d, w), Sent(kind, r, workers, lost, 1, d, Idle);
    SlotToFirst(setup, kind, r, workers, lost, 0, x);
    FirstWorkerLeads(setup, kind, r, workers, lost, 0, d, Busy(x, Querying), query, d, w);
    RowTables(kind, r, lost, HELD_ROW);
    FirstWorker(w, Idle, OtherWorkers(workers, lost, 0));
    assert OtherWorkers(workers, lost, 0) == OtherWorkers(workers, lost, 1);
    PipeLeads(setup, s.tables, s.pipes[0], {r}, Report(0, Blank), s'.tables, s'.pipes[0]);
    states := [Sent(kind, r, workers, lost, 0, Sending(r, x), Idle),
               Sent(kind, r, workers, lost, 0, d, Busy(x, Querying)), s, s'];
    events := [PipeStep(0, Send(0)), PipeStep(0, query), PipeStep(0, Report(0, Blank))];
  }

  /** Every further lost slot gets a worker of its own, which does not get to its query. */
  lemma NextSlotIsTaken(setup: Setup, kind: Kind, r: Range, workers: nat, lost: seq<Slot>, c: nat)
    requires 1 <= c < |lost| <= workers
    ensures Leads(setup, Sent(kind, r, workers, lost, c, Sending(r, lost[c]), Idle), PipeStep(0, Send(c)),
                  Sent(kind, r, workers, lost, c + 1, Advance(r, lost[c]), Idle))
  {
    var s := Sent(kind, r, workers, lost, c, Sending(r, lost[c]), Idle);
    var s' := Sent(kind, r, workers, lost, c + 1, Advance(r, lost[c]), Idle);
    RowTables(kind, r, lost, HELD_ROW);
    assert s.pipes[0].workers[c := Busy(lost[c], Querying)] == s'.pipes[0].workers;
    PipeLeads(setup, s.tables, s.pipes[0], {r}, Send(c), s'.tables, s'.pipes[0]);
  }

  predicate Ascending(xs: seq<Slot>) {
    forall i, j :: 0 <= i < j < |xs| ==> xs[i] < xs[j]
  }

  /** The first c of the lost slots lie below the next slot to send. */
  predicate Split(lost: seq<Slot>, c: nat, next: int) {
    && c <= |lost|
    && (forall i :: 0 <= i < c ==> lost[i] < next) && (c < |lost| ==> next <= lost[c])
  }

  /** One more slot is sent: taken if it is to be lost, processed otherwise. */
  lemma OneMoreSent(setup: Setup, kind: Kind, r: Range, workers: nat, lost: seq<Slot>, c: nat, x: Slot)
    returns (states: seq<State>, events: seq<Event>, c': nat)
    requires 0 < workers && |lost| <= workers && Working(setup) && Holds(r, x)
    requires Ascending(lost) && Split(lost, c, x)
    ensures Part(setup, states, events) && Pools(events, workers) && Split(lost, c', x + 1)
    ensures states[0] == Sent(kind, r, workers, lost, c, Sending(r, x), Idle)
    ensures states[|events|] == Sent(kind, r, workers, lost, c', Advance(r, x), Idle)
  {
    hide Leads, Sent, Advance;
    if c == |lost| || lost[c] != x {
      c' := c;
      states, events := SlotPasses(setup, kind, r, workers, lost, c, x);
    } else if c == 0 {
      c' := 1;
      states, events := FirstSlotIsTaken(setup, kind, r, workers, lost);
    } else {
      c' := c + 1;
      NextSlotIsTaken(setup, kind, r, workers, lost, c);
      states := [Sent(kind, r, workers, lost, c, Sending(r, x), Idle),
                 Sent(kind, r, workers, lost, c', Advance(r, x), Idle)];
      events := [PipeStep(0, Send(c))];
    }
  }

  lemma {:induction false} SlotsAreSent(setup: Setup, kind: Kind, r: Range, workers: nat, lost: seq<Slot>, n: nat)
    returns (states: seq<State>, events: seq<Event>, c: nat)
    requires 0 < workers && |lost| <= workers && Working(setup) && Ascending(lost)
    requires Sendable(r) && n <= r.end - r.start + 1 && forall i :: 0 <= i < |lost| ==> r.start <= lost[i]
    ensures Part(setup, states, events) && Pools(events, workers) && Split(lost, c, r.start + n)
    ensures states[0] == Sent(kind, r, workers, lost, 0, Start(r), Idle)
    ensures states[|events|] == Sent(kind, r, workers, lost, c, AfterSends(r, n), Idle)
  {
    hide Leads, Sent, Advance;
    if n == 0 {
      states, events, c := [Sent(kind, r, workers, lost, 0, Start(r), Idle)], [], 0;
    } else {
      states, events, c := SlotsAreSent(setup, kind, r, workers, lost, n - 1);
      StepsSendTheRange(r, n - 1);
      var states1, events1, c1 := OneMoreSent(setup, kind, r, workers, lost, c, r.start + n - 1);
      JoinParts(setup, states, events, states1, events1);
      states, events, c := states + states1[1..], events + events1, c1;
    }
  }

  lemma RemoverStarts(setup: Setup, kind: Kind, r: Range, workers: nat, lost: seq<Slot>)
    requires 0 < workers
    ensures Leads(setup, Sent(kind, r, workers, lost, |lost|, Finishing(r), Idle), PipeStep(0, Finish),
                  Removing(kind, r, workers, lost, Polling))
  {
    var s := Sent(kind, r, workers, lost, |lost|, Finishing(r), Idle);
    var s' := Removing(kind, r, workers, lost, Polling);
    RowTables(kind, r, lost, HELD_ROW);
    PipeLeads(setup, s.tables, s.pipes[0], {r}, Finish, s'.tables, s'.pipes[0]);
  }

  lemma RemoverPolls(setup: Setup, kind: Kind, r: Range, workers: nat, lost: seq<Slot>)
    requires 0 < workers && r.start <= r.end && r.start !in lost && r.end !in lost
    ensures Leads(setup, Removing(kind, r, workers, lost, Polling), PipeStep(0, PollStart(0)),
                  Removing(kind, r, workers, lost, StartSeen))
    ensures Leads(setup, Removing(kind, r, workers, lost, StartSeen), PipeStep(0, PollEnd(0)),
                  Removing(kind, r, workers, lost, Cleared))
  {
    var s, s' := Removing(kind, r, workers, lost, Polling), Removing(kind, r, workers, lost, StartSeen);
    var s'' := Removing(kind, r, workers, lost, Cleared);
    RowTables(kind, r, lost, HELD_ROW);
    StoredBut(kind, r, lost, HELD_ROW, r.start);
    StoredBut(kind, r, lost, HELD_ROW, r.end);
    OneRemover(Remover(r, Polling), Remover(r, StartSeen));
    PipeLeads(setup, s.tables, s.pipes[0], {r}, PollStart(0), s'.tables, s'.pipes[0]);
    OneRemover(Remover(r, StartSeen), Remover(r, Cleared));
    PipeLeads(setup, s'.tables, s'.pipes[0], {r}, PollEnd(0), s''.tables, s''.pipes[0]);
  }

  lemma RowGoes(setup: Setup, kind: Kind, r: Range, workers: nat, lost: seq<Slot>)
    requires 0 < workers
    ensures Leads(setup, Removing(kind, r, workers, lost, Cleared), PipeStep(0, Delete(0)),
                  Removed(kind, r, workers, lost))
    ensures Removes(Removing(kind, r, workers, lost, Cleared), PipeStep(0, Delete(0)), kind, r)
  {
    var s, s' := Removing(kind, r, workers, lost, Cleared), Removed(kind, r, workers, lost);
    RowTables(kind, r, lost, HELD_ROW);
    OneRemover(Remover(r, Cleared), Remover(r, Cleared));
    PipeLeads(setup, s.tables, s.pipes[0], {r}, Delete(0), s'.tables, s'.pipes[0]);
  }

  lemma LostSlotsAreInHand(kind: Kind, r: Range, workers: nat, lost: seq<Slot>, i: nat)
    requires 0 < workers && i < |lost| <= workers
    ensures !OnRecord(Removed(kind, r, workers, lost).tables, lost[i])
    ensures SomeoneHolds(Removed(kind, r, workers, lost).pipes, lost[i])
  {
    var p := Removed(kind, r, workers, lost).pipes[0];
    StoredBut(kind, r, lost, HELD_ROW, lost[i]);
    if i > 0 {
      assert p.workers[i] == Busy(lost[i], Querying);
    }
    assert InHand(p, lost[i]);
  }

  /** Once all slots are sent the row goes to a remover and is removed. */
  lemma RemoverClears(setup: Setup, kind: Kind, r: Range, workers: nat, lost: seq<Slot>)
    returns (states: seq<State>, events: seq<Event>)
    requires 0 < workers && r.start <= r.end && r.start !in lost && r.end !in lost
    ensures Part(setup, states, events) && Pools(events, workers) && events != []
    ensures states[0] == Sent(kind, r, workers, lost, |lost|, Finishing(r), Idle)
    ensures Removes(states[|events| - 1], events[|events| - 1], kind, r)
    ensures states[|events|] == Removed(kind, r, workers, lost)
  {
    hide Leads, Sent, Removing, Removed, Removes;
    RemoverStarts(setup, kind, r, workers, lost);
    RemoverPolls(setup, kind, r, workers, lost);
    RowGoes(setup, kind, r, workers, lost);
    states := [Sent(kind, r, workers, lost, |lost|, Finishing(r), Idle), Removing(kind, r, workers, lost, Polling),
               Removing(kind, r, workers, lost, StartSeen), Removing(kind, r, workers, lost, Cleared),
               Removed(kind, r, workers, lost)];
    events := [PipeStep(0, Finish), PipeStep(0, PollStart(0)), PipeStep(0, PollEnd(0)), PipeStep(0, Delete(0))];
  }

  /** A run that removes the row, with these inner slots in hand and nowhere else. */
  lemma RowCanBeRemoved(setup: Setup, kind: Kind, r: Range, workers: nat, lost: seq<Slot>)
    returns (states: seq<State>, events: seq<Event>)
    requires 0 < workers && |lost| <= workers && Working(setup) && Ascending(lost)
    requires Sendable(r) && forall i :: 0 <= i < |lost| ==> r.start < lost[i] < r.end
    ensures Run(setup, states, events) && Pools(events, workers) && events != []
    ensures Removes(states[|events| - 1], events[|events| - 1], kind, r)
    ensures states[|events|] == Removed(kind, r, workers, lost)
  {
    hide Leads, Sent, Removed, Init, Removes;
    states, events := RowHandedOut(setup, kind, r, workers, lost);
    var states1, events1, c := SlotsAreSent(setup, kind, r, workers, lost, r.end - r.start + 1);
    StepsSendTheRange(r, r.end - r.start + 1);
    JoinParts(setup, states, events, states1, events1);
    states, events := states + states1[1..], events + events1;
    var states2, events2 := RemoverClears(setup, kind, r, workers, lost);
    JoinParts(setup, states, events, states2, events2);
    states, events := states + states2[1..], events + events2;
    PartFromInitIsRun(setup, states, events);
  }

  /** The slots of a set in ascending order. */
  lemma {:induction false} Sorted(s: set<Slot>) returns (xs: seq<Slot>)
    ensures Ascending(xs) && |xs| == |s| && forall x :: x in xs <==> x in s
  {
    if s == {} {
      xs := [];
    } else {
      var x :| x in s;
      var m := StartUpGap.Maximum(s);
      assert x <= m;
      var rest := Sorted(s - {m});
      xs := rest + [m];
      assert forall x :: x in xs <==> x in rest || x == m;
      assert forall i :: 0 <= i < |rest| ==> rest[i] in s - {m};
    }
  }

  /**
   However many workers a pipeline has, for every row that the distributor gets through and every set of at most so
   many of its inner slots there is a run that removes the row while each of them is with a worker or the error
   handler and nowhere else.
   */
  lemma InnerSlotsCanBeLost(setup: Setup, workers: nat, kind: Kind, r: Range, lost: set<Slot>)
    returns (states: seq<State>, events: seq<Event>)
    requires 0 < workers && |lost| <= workers && Working(setup)
    requires Sendable(r) && forall x :: x in lost ==> r.start < x < r.end
    ensures Run(setup, states, events) && Pools(events, workers) && events != []
    ensures Removes(states[|events| - 1], events[|events| - 1], kind, r)
    ensures forall x :: x in lost ==>
              !OnRecord(states[|events|].tables, x) && SomeoneHolds(states[|events|].pipes, x)
  {
    hide Follows, Init, Removes, Removed, OnRecord, SomeoneHolds;
    var xs := Sorted(lost);
    assert forall i :: 0 <= i < |xs| ==> xs[i] in lost;
    states, events := RowCanBeRemoved(setup, kind, r, workers, xs);
    forall x | x in lost
      ensures !OnRecord(states[|events|].tables, x) && SomeoneHolds(states[|events|].pipes, x)
    {
      assert x in xs;
      var i :| 0 <= i < |xs| && xs[i] == x;
      LostSlotsAreInHand(kind, r, workers, xs, i);
    }
  }

  /** Exactly the rows that are neither reversed nor endless are removed by some run. */
  lemma RowIsRemovableIff(setup: Setup, workers: nat, kind: Kind, r: Range)
    requires 0 < workers && Working(setup)
    ensures (exists states: seq<State>, events: seq<Event>, i: nat ::
               Run(setup, states, events) && Pools(events, workers) && i < |events|
               && Removes(states[i], events[i], kind, r))
            <==> Sendable(r)
  {
    if Sendable(r) {
      var states, events := InnerSlotsCanBeLost(setup, workers, kind, r, {});
      assert Removes(states[|events| - 1], events[|events| - 1], kind, r);
    } else {
      forall states: seq<State>, events: seq<Event>, i: nat | Run(setup, states, events) && i < |events|
        ensures !Removes(states[i], events[i], kind, r)
      {
        RemoversAreSendable(setup, states, events, i);
      }
    }
  }

  lemma LongRowIsNotCrashSafe(setup: Setup, workers: nat, kind: Kind, r: Range)
    requires 0 < workers && Working(setup) && !Short(r) && Sendable(r)
    ensures !CrashSafe(setup, workers, kind, r)
  {
    hide Follows, Init, Removes, OnRecord;
    var states, events := InnerSlotsCanBeLost(setup, workers, kind, r, {r.start + 1});
    var i: nat, x: Slot := |events| - 1, r.start + 1;
    assert Holds(r, x) && !OnRecord(states[i + 1].tables, x);
  }

  /**
   Exactly which rows a crash at their removal cannot hurt, for any number of workers: those of at most two slots,
   whose slots the remover has both seen stored, and those that are never removed.
   */
  lemma CrashSafeIff(setup: Setup, workers: nat, kind: Kind, r: Range)
    requires 0 < workers && Working(setup)
    ensures CrashSafe(setup, workers, kind, r) <==> Short(r) || r.end == WORD - 1
  {
    if Short(r) || r.end == WORD - 1 {
      forall states: seq<State>, events: seq<Event>, i: nat, x: Slot
        | Run(setup, states, events) && i < |events| && Removes(states[i], events[i], kind, r) && Holds(r, x)
        ensures OnRecord(states[i + 1].tables, x)
      {
        RemoversAreSendable(setup, states, events, i);
        assert Sendable(r);
        ShortRowIsStored(setup, states, events, i, kind, r, x);
      }
    } else {
      LongRowIsNotCrashSafe(setup, workers, kind, r);
    }
  }

  // ---- Increment one: nothing to lose ----

  ghost predicate ShortRows(w: Work) {
    forall r :: r in w ==> Short(r)
  }

  lemma UnitSum(start: Slot, i: nat)
    ensures PlusInt(start, ToInt(i * 1)) == ToSlot(start + i)
  {
    hide PlusInt, ToInt;
    PlusIntIsModular(start, 1, i);
    assert ToSlot(1) == 1;
  }

  lemma NextSlotIsShort(x: nat)
    ensures ToSlot(x + 1) <= ToSlot(x) + 1
  {
  }

  lemma UnitCount(start: Slot, end: Slot)
    requires ToSlot(end - start) > 1 && ChunkCount(start, end, 1) > 0
    ensures ToSlot(start + ChunkCount(start, end, 1)) == end
  {
    var total := ToSlot(end - start);
    assert total / 1 == total && total % 1 == 0;
    assert ChunkCount(start, end, 1) == total;
  }

  lemma UnitRowIsShort(start: Slot, end: Slot, i: nat)
    requires ToSlot(end - start) > 1 && i < ChunkCount(start, end, 1)
    ensures Short(ChunkRow(start, end, 1, i))
  {
    hide PlusInt, ToInt, ToSlot, ChunkCount;
    UnitSum(start, i);
    UnitSum(start, i + 1);
    NextSlotIsShort(start + i);
    UnitCount(start, end);
    assert start + (i + 1) == start + i + 1;
  }

  /** A gap cut with increment 1, whether it is well-ordered and its counter fits or not. */
  lemma UnitChunksAreShort(start: Slot, end: Slot)
    ensures forall r :: r in ChunkRows(start, end, 1) ==> Short(r)
  {
    var rows := ChunkRows(start, end, 1);
    forall i | 0 <= i < |rows| ensures Short(rows[i]) {
      if ToSlot(end - start) > 1 {
        UnitRowIsShort(start, end, i);
      } else {
        assert rows == [Range(start, end)];
      }
    }
  }

  lemma InsertedGapsAreShort(w: Work, start: Slot, end: Slot, row: WorkRow)
    requires ShortRows(w)
    ensures ShortRows(InsertGaps(w, ChunkRows(start, end, 1), row))
  {
    UnitChunksAreShort(start, end);
    InsertGapsIsUnion(w, ChunkRows(start, end, 1), row);
  }

  /** All work rows are short, and whoever cuts gaps cuts them with increment 1. */
  ghost predicate ShortState(s: State) {
    && ShortRows(s.tables.knownGaps) && ShortRows(s.tables.historic)
    && forall n :: 0 <= n < |s.head.tasks| ==> s.head.tasks[n].args.increment == 1
  }

  lemma ReorgKeepsShort(t: Tables, slot: Slot, root: Root)
    requires ShortRows(t.knownGaps)
    ensures ShortRows(Reorgs.Reorg(t, slot, root).knownGaps) && Reorgs.Reorg(t, slot, root).historic == t.historic
  {
    Reorgs.ReorgReforks(t, slot, root);
  }

  lemma ExecuteKeepsShort(t: Tables, job: Job, faults: Faults)
    requires ShortRows(t.knownGaps) && ShortRows(t.historic) && job.args.increment == 1
    ensures var t' := Execute(t, job, faults).1; ShortRows(t'.knownGaps) && ShortRows(t'.historic)
  {
    hide FullSlot;
    var full, a := FullSlot(t, job), job.args;
    FullSlotFrame(t, job);
    match LinkOf(job)
    case Fork => ReorgKeepsShort(full, a.slot, a.blockRoot);
    case Mismatch(parent) => ReorgKeepsShort(full, a.previousSlot, parent);
    case Jump => InsertedGapsAreShort(full.knownGaps, ToSlot(a.previousSlot + 1), ToSlot(a.slot - 1), HEAD_GAP);
    case _ =>
  }

  lemma TaskKeepsShort(t: Tables, task: Task, te: TaskEvent)
    requires ShortRows(t.knownGaps) && ShortRows(t.historic) && TaskEnabled(t, task, te) && TaskOk(task)
    requires task.args.increment == 1
    ensures var t' := TaskTables(t, task, te); ShortRows(t'.knownGaps) && ShortRows(t'.historic)
  {
    hide Execute;
    match te
    case RunStartUp =>
      var highest, last := StartUpGap.Highest(t), ToSlot(task.args.slot - 1);
      if highest < last {
        InsertedGapsAreShort(t.knownGaps, if highest == 0 then 0 else highest + 1, last, NewGap(Blank, StartUp));
      }
    case RunQuery(_, _) =>
    case RunWrite(faults) => ExecuteKeepsShort(t, task.phase.job, faults);
    case RunRecord(error) =>
      InsertedGapsAreShort(t.knownGaps, task.args.slot, task.args.slot, NewGap(error, task.phase.reason));
  }

  lemma PipeKeepsShort(t: Tables, p: Pipe, cfg: Config, e: PipeEvent)
    requires ShortRows(t.knownGaps) && ShortRows(t.historic) && Enabled(t, p, cfg, e) && PipeOk(t, p)
    ensures var t' := NextTables(t, p, cfg, e); ShortRows(t'.knownGaps) && ShortRows(t'.historic)
  {
    hide Execute, Prepare;
    match e
    case Write(j, faults) =>
      assert WorkerOk(p.workers[j]);
      ExecuteKeepsShort(t, p.workers[j].phase.job, faults);
    case Settle(_) =>
      InsertedGapsAreShort(t.knownGaps, p.handler.slot, p.handler.slot, NewGap(p.handler.error, p.handler.reason));
    case _ =>
  }

  lemma TablesStayShort(s: State, setup: Setup, e: Event)
    requires Inv(s) && ShortState(s) && Possible(s, setup, e) && setup.inc == 1 && (e.AddWork? ==> Short(e.range))
    ensures var t' := TablesAfter(s, setup, e); ShortRows(t'.knownGaps) && ShortRows(t'.historic)
  {
    hide Enabled, NextTables, TaskEnabled, TaskTables, Integrity, WorkOk;
    var t := s.tables;
    match e
    case PipeStep(i, pe) => PipeKeepsShort(t, s.pipes[i], CfgOf(setup, s.pipes[i]), pe);
    case TaskStep(n, te) => TaskKeepsShort(t, s.head.tasks[n], te);
    case ReorgMessage(slot, root) => ReorgKeepsShort(t, slot, root);
    case GoodMessage(slot, _, _) =>
      InsertedGapsAreShort(t.knownGaps, ToSlot(s.head.previousSlot + 1), slot,
                           NewGap(Text("Bad Head Messages"), HeadProcessing));
    case _ =>
  }

  lemma StepKeepsShort(s: State, setup: Setup, e: Event)
    requires Inv(s) && ShortState(s) && Possible(s, setup, e) && setup.inc == 1 && (e.AddWork? ==> Short(e.range))
    ensures ShortState(Step(s, setup, e))
  {
    hide Enabled, NextPipe, TaskEnabled, TablesAfter;
    TablesStayShort(s, setup, e);
    if e.TaskStep? {
      assert NextTask(s.tables, s.head.tasks[e.n], setup.cfg, e.te).args == s.head.tasks[e.n].args;
    }
  }

  lemma DeletionKeepsRecord(t: Tables, p: Pipe, cfg: Config, e: PipeEvent, x: Slot)
    requires Integrity(t) && PipeOk(t, p) && Enabled(t, p, cfg, e) && e.Delete? && (cfg.blocks || cfg.states)
    requires ShortRows(t.knownGaps) && ShortRows(t.historic) && OnRecord(t, x)
    ensures OnRecord(NextTables(t, p, cfg, e), x)
  {
    hide Integrity, PipeOk;
    var r := p.removers[e.remover].range;
    StepIsSound(t, p, cfg, e);
    if r in WorkOf(t, p.kind) && Holds(r, x) {
      ClearedRowIsStored(t, p, cfg, e, x);
    } else if r in WorkOf(t, p.kind) {
      if Covered(t.knownGaps, x) { DeletionKeepsCover(t.knownGaps, r, x); }
      if Covered(t.historic, x) { DeletionKeepsCover(t.historic, r, x); }
    } else {
      assert WorkOf(t, p.kind) - {r} == WorkOf(t, p.kind);
    }
  }

  /** What the tables account for they go on accounting for, whoever has it in hand. */
  lemma StepKeepsRecord(s: State, setup: Setup, e: Event, x: Slot)
    requires Inv(s) && ShortState(s) && Possible(s, setup, e) && Working(setup)
    requires OnRecord(s.tables, x)
    ensures OnRecord(Step(s, setup, e).tables, x)
  {
    var t, t' := s.tables, TablesAfter(s, setup, e);
    if e.PipeStep? && e.e.Delete? {
      DeletionKeepsRecord(t, s.pipes[e.i], CfgOf(setup, s.pipes[e.i]), e.e, x);
    } else {
      if e.PipeStep? {
        StepIsSound(t, s.pipes[e.i], CfgOf(setup, s.pipes[e.i]), e.e);
      } else {
        OtherTablesAreSafe(s, setup, e);
      }
      RecordIsKept(t, t', x);
    }
  }

  lemma RecordIsKept(t: Tables, t': Tables, x: Slot)
    requires Safe(t, t') && KeepsRows(t, t') && OnRecord(t, x)
    ensures OnRecord(t', x)
  {
    if Covered(t.knownGaps, x) { KeptRowsStayCovered(t.knownGaps, t'.knownGaps, x); }
    if Covered(t.historic, x) { KeptRowsStayCovered(t.historic, t'.historic, x); }
  }

  /**
   With increment 1 and only short rows from outside, a crash at any moment loses nothing: in every reachable state
   the tables alone account for every slot of every row that was ever in a work table.
   */
  lemma {:induction false} CrashLosesNothing(setup: Setup, states: seq<State>, events: seq<Event>, i: nat)
    requires Run(setup, states, events) && Working(setup) && i < |states|
    requires setup.inc == 1 && ShortRows(states[0].tables.knownGaps) && ShortRows(states[0].tables.historic)
    requires forall k :: 0 <= k < |events| && events[k].AddWork? ==> Short(events[k].range)
    ensures ShortState(states[i])
    ensures forall r, x: Slot :: r in states[i].ever && Holds(r, x) ==> OnRecord(states[i].tables, x)
  {
    hide Step;
    if i == 0 {
      EverIsOnRecord(states[0]);
    } else {
      var s, e := states[i - 1], events[i - 1];
      CrashLosesNothing(setup, states, events, i - 1);
      RunKeepsInv(setup, states, events, i - 1);
      assert Follows(setup, states, events, i - 1);
      StepKeepsShort(s, setup, e);
      forall r, x: Slot | r in states[i].ever && Holds(r, x) ensures OnRecord(states[i].tables, x) {
        StepRecords(s, setup, e, r, x);
      }
    }
  }

  lemma EverIsOnRecord(s: State)
    requires Init(s)
    ensures forall r, x: Slot :: r in s.ever && Holds(r, x) ==> OnRecord(s.tables, x)
  {
    forall r, x: Slot | r in s.ever && Holds(r, x) ensures OnRecord(s.tables, x) {
      assert r in s.tables.knownGaps || r in s.tables.historic;
    }
  }

  lemma StepRecords(s: State, setup: Setup, e: Event, r: Range, x: Slot)
    requires Inv(s) && ShortState(s) && Possible(s, setup, e) && Working(setup)
    requires forall k, y: Slot :: k in s.ever && Holds(k, y) ==> OnRecord(s.tables, y)
    requires r in Step(s, setup, e).ever && Holds(r, x)
    ensures OnRecord(Step(s, setup, e).tables, x)
  {
    if r in s.ever {
      StepKeepsRecord(s, setup, e, x);
    } else {
      var t' := Step(s, setup, e).tables;
      assert r in t'.knownGaps || r in t'.historic;
    }
  }
}

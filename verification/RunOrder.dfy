/**
 Worker order over whole runs: however the workers of any number of pipelines interleave, what they leave in the
 tables is decided by the set of slots they finished.
 */
module RunOrder {
  import opened Machine
  import opened Tables
  import opened SlotWrite
  import opened HistoricOrder
  import opened WorkQueue
  import opened Pipeline
  import opened Indexer
  import opened Reachable
  import opened Runs

  /** The tables slots are stored in, without the work tables. */
  function Stored4(t: Tables): Tables {
    t.(knownGaps := map[], historic := map[])
  }

  /**
   Pipelines joining, their steps and rows from outside; a query is answered by the node, and all pipelines that step
   are configured alike.
   */
  ghost predicate BatchEvent(setup: Setup, s: State, e: Event, node: Node) {
    && !e.GoodMessage? && !e.ReorgMessage?
    && (e.PipeStep? && e.i < |s.pipes| ==> CfgOf(setup, s.pipes[e.i]) == setup.cfg)
    && (e.PipeStep? && e.e.Query? && e.i < |s.pipes| && e.e.worker < |s.pipes[e.i].workers| ==>
          var w := s.pipes[e.i].workers[e.e.worker]; w.Busy? ==> e.e.answers == node(w.slot))
  }

  ghost predicate BatchPart(setup: Setup, node: Node, states: seq<State>, events: seq<Event>) {
    Part(setup, states, events) && forall i :: 0 <= i < |events| ==> BatchEvent(setup, states[i], events[i], node)
  }

  /** A run of batch processing alone, with any number of pipes and workers and any faults. */
  ghost predicate BatchRun(setup: Setup, node: Node, states: seq<State>, events: seq<Event>) {
    Run(setup, states, events) && BatchPart(setup, node, states, events)
  }

  /** The slot, if any, that a worker is done with after this event, without an error. */
  ghost function FinishedBy(s: State, setup: Setup, e: Event): (finished: seq<Slot>)
    requires Possible(s, setup, e)
    ensures |finished| <= 1
  {
    if e.PipeStep? && (e.e.Query? || e.e.Write?)
       && NextPipe(s.tables, s.pipes[e.i], CfgOf(setup, s.pipes[e.i]), e.e).workers[e.e.worker].Idle?
    then [s.pipes[e.i].workers[e.e.worker].slot]
    else []
  }

  /** All slots finished by the first n events, in the order in which they were, repeats included. */
  ghost function Finished(setup: Setup, states: seq<State>, events: seq<Event>, n: nat): seq<Slot>
    requires Part(setup, states, events) && n <= |events|
  {
    if n == 0 then []
    else
      assert Leads(setup, states[n - 1], events[n - 1], states[n]);
      Finished(setup, states, events, n - 1) + FinishedBy(states[n - 1], setup, events[n - 1])
  }

  ghost function FinishedIn(setup: Setup, states: seq<State>, events: seq<Event>): seq<Slot>
    requires Part(setup, states, events)
  {
    Finished(setup, states, events, |events|)
  }

  // ---- A run leaves what the finished slots, processed one by one, leave ----

  /** A worker about to write has the node's reply, and its slot is not one the shortcut takes for stored. */
  predicate JobFromNode(t: Tables, cfg: Config, node: Node, w: Worker) {
    w.Busy? && w.phase.Writing? ==>
      && w.phase.job.args == HistoricArgs(w.slot) && Fetch(cfg, node(w.slot)) == Some(w.phase.job.got)
      && !Blind(t, cfg, w.slot)
  }

  /** No head task, and every worker about to write has such a job. */
  ghost predicate WorkersFromNode(cfg: Config, node: Node, s: State) {
    && s.head.tasks == []
    && forall i, j :: 0 <= i < |s.pipes| && 0 <= j < |s.pipes[i].workers| ==>
         JobFromNode(s.tables, cfg, node, s.pipes[i].workers[j])
  }

  lemma StepKeepsBlind(setup: Setup, node: Node, s: State, e: Event)
    requires WorkersFromNode(setup.cfg, node, s) && Possible(s, setup, e) && BatchEvent(setup, s, e, node)
    ensures SameBlind(s.tables, Step(s, setup, e).tables, setup.cfg)
  {
    var t, t' := s.tables, Step(s, setup, e).tables;
    if e.PipeStep? && e.e.Write? {
      var w := s.pipes[e.i].workers[e.e.worker];
      assert JobFromNode(t, setup.cfg, node, w);
      forall x: Slot ensures Blind(t', setup.cfg, x) <==> Blind(t, setup.cfg, x) {
        CommitKeepsBlind(t, setup.cfg, w.slot, w.phase.job.got, node(w.slot), x);
      }
    } else if e.PipeStep? {
      PipeStepRows(t, s.pipes[e.i], CfgOf(setup, s.pipes[e.i]), e.e);
    } else {
      OtherStepRows(s, setup, e);
    }
  }

  lemma QueriedJob(t: Tables, cfg: Config, node: Node, slot: Slot, checkFails: bool)
    ensures JobFromNode(t, cfg, node, AfterQuery(t, cfg, slot, node(slot), checkFails))
  {
    if Fetch(cfg, node(slot)).Some? && Blind(t, cfg, slot) {
      BlindIsStored(t, cfg, slot, Fetch(cfg, node(slot)).value, node(slot));
    }
  }

  lemma StepKeepsWorkers(setup: Setup, node: Node, s: State, e: Event)
    requires WorkersFromNode(setup.cfg, node, s) && Possible(s, setup, e) && BatchEvent(setup, s, e, node)
    ensures WorkersFromNode(setup.cfg, node, Step(s, setup, e))
  {
    hide Execute, Blind, Prepare;
    var s' := Step(s, setup, e);
    StepKeepsBlind(setup, node, s, e);
    forall i, j | 0 <= i < |s'.pipes| && 0 <= j < |s'.pipes[i].workers|
      ensures JobFromNode(s'.tables, setup.cfg, node, s'.pipes[i].workers[j])
    {
      if i < |s.pipes| && j < |s.pipes[i].workers| {
        assert JobFromNode(s.tables, setup.cfg, node, s.pipes[i].workers[j]);
        if e.PipeStep? && e.i == i && e.e.Query? && e.e.worker == j {
          QueriedJob(s.tables, setup.cfg, node, s.pipes[i].workers[j].slot, e.e.checkFails);
        }
      }
    }
  }

  lemma BlindIgnoresWork(t: Tables, cfg: Config)
    ensures forall x: Slot :: Blind(Stored4(t), cfg, x) <==> Blind(t, cfg, x)
  {
  }

  lemma MergeOfStored(t: Tables, d: Tables)
    ensures Stored4(Merge(t, d)) == Merge(Stored4(t), d)
  {
  }

  lemma HistoricCommit(t: Tables, slot: Slot, got: Fetched)
    ensures Committed(t, Job(HistoricArgs(slot), got)) == FullSlot(t, Job(HistoricArgs(slot), got))
  {
    hide FullSlot;
    assert LinkOf(Job(HistoricArgs(slot), got)) == Unlinked;
  }

  /** A historic commit is a merge of the slot's own rows. */
  lemma CommitMerges(t: Tables, cfg: Config, node: Node, slot: Slot)
    requires Fetch(cfg, node(slot)).Some?
    ensures var job := Job(HistoricArgs(slot), Fetch(cfg, node(slot)).value);
            Stored4(Committed(t, job)) == Merge(Stored4(t), DeltaOf(Plain(cfg), node, slot))
  {
    hide Committed, FullSlot, Delta, Merge, Stored4;
    var got := Fetch(cfg, node(slot)).value;
    HistoricCommit(t, slot, got);
    FullSlotMerges(t, Job(HistoricArgs(slot), got));
    MergeOfStored(t, Delta(Job(HistoricArgs(slot), got)));
    assert Fetch(Plain(cfg), node(slot)) == Fetch(cfg, node(slot));
  }

  lemma StoredSlotMerges(t: Tables, cfg: Config, node: Node, slot: Slot)
    requires Integrity(t) && cfg.checkDb && !Blind(t, cfg, slot)
    requires (cfg.blocks || cfg.states) && Fetch(cfg, node(slot)).Some?
    requires Stored(t, cfg, Job(HistoricArgs(slot), Fetch(cfg, node(slot)).value))
    ensures Merge(Stored4(t), DeltaOf(Plain(cfg), node, slot)) == Stored4(t)
  {
    var job := Job(HistoricArgs(slot), Fetch(cfg, node(slot)).value);
    assert OnlyStates(cfg) ==> SlotKey(job) == StateKey(job) == (slot, Blank);
    StoredWriteIsNoOp(t, cfg, slot, node(slot));
    CommitMerges(t, cfg, node, slot);
  }

  /** What finishing a slot does: its rows are merged in, unless the shortcut wrongly took it for stored. */
  function MergeFinished(stored: Tables, t: Tables, cfg: Config, node: Node, x: seq<Slot>): Tables {
    if x == [] || Blind(t, cfg, x[0]) then stored else Merge(stored, DeltaOf(Plain(cfg), node, x[0]))
  }

  /** One worker step: the tables are as before, or one slot was finished. */
  lemma WorkerStepMerges(setup: Setup, node: Node, s: State, e: Event)
    requires Integrity(s.tables) && WorkersFromNode(setup.cfg, node, s)
    requires Working(setup)
    requires Possible(s, setup, e) && BatchEvent(setup, s, e, node) && e.PipeStep? && (e.e.Query? || e.e.Write?)
    ensures var t' := Stored4(Step(s, setup, e).tables);
            var x := FinishedBy(s, setup, e);
            && (x != [] ==> Fetch(setup.cfg, node(x[0])).Some?)
            && t' == MergeFinished(Stored4(s.tables), s.tables, setup.cfg, node, x)
  {
    hide Blind;
    var w := s.pipes[e.i].workers[e.e.worker];
    assert JobFromNode(s.tables, setup.cfg, node, w);
    if FinishedBy(s, setup, e) != [] {
      if e.e.Write? {
        CommitMerges(s.tables, setup.cfg, node, w.slot);
      } else if !Blind(s.tables, setup.cfg, w.slot) {
        StoredSlotMerges(s.tables, setup.cfg, node, w.slot);
      }
    }
  }

  lemma SettleKeepsStored(t: Tables, h: Handler, fails: bool)
    ensures Stored4(SettleError(t, h, fails)) == Stored4(t)
  {
  }

  lemma WorkKeepsStored(t: Tables, kind: Kind, w: Work)
    ensures Stored4(WithWork(t, kind, w)) == Stored4(t)
  {
  }

  lemma OtherPipeStep(t: Tables, p: Pipe, cfg: Config, e: PipeEvent)
    requires Enabled(t, p, cfg, e) && !e.Query? && !e.Write?
    ensures Stored4(NextTables(t, p, cfg, e)) == Stored4(t)
  {
    hide Execute, Prepare, SettleError, WithWork, Stored4;
    match e
    case Checkout(r) => WorkKeepsStored(t, p.kind, Lock(WorkOf(t, p.kind), r, p.node));
    case Delete(k) => WorkKeepsStored(t, p.kind, WorkOf(t, p.kind) - {p.removers[k].range});
    case Settle(fails) => SettleKeepsStored(t, p.handler, fails);
    case _ =>
  }

  lemma OtherStepKeepsStored(setup: Setup, s: State, e: Event)
    requires Possible(s, setup, e) && !e.GoodMessage? && !e.ReorgMessage? && s.head.tasks == []
    requires e.PipeStep? ==> !e.e.Query? && !e.e.Write?
    ensures Stored4(Step(s, setup, e).tables) == Stored4(s.tables) && FinishedBy(s, setup, e) == []
  {
    hide Enabled, NextTables, NextPipe, Release, InsertMissing;
    match e
    case PipeStep(i, pe) => OtherPipeStep(s.tables, s.pipes[i], CfgOf(setup, s.pipes[i]), pe);
    case _ =>
  }

  /** One step of a batch run, as a merge. */
  lemma StepMerges(setup: Setup, node: Node, s: State, e: Event)
    requires Integrity(s.tables) && WorkersFromNode(setup.cfg, node, s)
    requires Working(setup)
    requires Possible(s, setup, e) && BatchEvent(setup, s, e, node)
    ensures var t', x := Stored4(Step(s, setup, e).tables), FinishedBy(s, setup, e);
            && (x != [] ==> Fetch(setup.cfg, node(x[0])).Some?)
            && t' == MergeFinished(Stored4(s.tables), s.tables, setup.cfg, node, x)
  {
    hide Step, FinishedBy, Possible, Merge, DeltaOf, Stored4;
    if e.PipeStep? && (e.e.Query? || e.e.Write?) {
      WorkerStepMerges(setup, node, s, e);
    } else {
      OtherStepKeepsStored(setup, s, e);
    }
  }

  lemma HistoricExtends(t: Tables, cfg: Config, node: Node, xs: seq<Slot>, x: seq<Slot>)
    requires |x| <= 1
    ensures Historic(t, Plain(cfg), node, Sighted(t, cfg, xs + x)) ==
            MergeFinished(Historic(t, Plain(cfg), node, Sighted(t, cfg, xs)), t, cfg, node, x)
  {
    hide Attempt, Blind, Merge, DeltaOf;
    if x == [] {
      assert xs + x == xs;
    } else {
      assert x == [x[0]];
      SightedNext(t, cfg, xs, x[0]);
      HistoricNext(t, Plain(cfg), node, Sighted(t, cfg, xs), x[0]);
      AttemptMerges(Historic(t, Plain(cfg), node, Sighted(t, cfg, xs)), Plain(cfg), node, x[0]);
    }
  }

  lemma BatchRunFacts(setup: Setup, node: Node, states: seq<State>, events: seq<Event>, n: nat)
    requires BatchRun(setup, node, states, events) && Working(setup) && n < |events|
    ensures Integrity(states[n].tables)
    ensures Possible(states[n], setup, events[n]) && BatchEvent(setup, states[n], events[n], node)
    ensures states[n + 1] == Step(states[n], setup, events[n])
  {
    RunKeepsInv(setup, states, events, n);
    assert Follows(setup, states, events, n);
  }

  lemma {:induction false} RunKeepsWorkers(setup: Setup, node: Node, states: seq<State>, events: seq<Event>, n: nat)
    requires BatchRun(setup, node, states, events) && Working(setup) && n <= |events|
    ensures WorkersFromNode(setup.cfg, node, states[n]) && SameBlind(states[0].tables, states[n].tables, setup.cfg)
  {
    hide Step, Possible, BatchEvent, Integrity, Blind;
    if n > 0 {
      RunKeepsWorkers(setup, node, states, events, n - 1);
      BatchRunFacts(setup, node, states, events, n - 1);
      StepKeepsWorkers(setup, node, states[n - 1], events[n - 1]);
      StepKeepsBlind(setup, node, states[n - 1], events[n - 1]);
    }
  }

  /**
   The tables after n events are those of the slots finished so far, processed one after another; of all slots but
   those that a bare state row without a bare slots row made the shortcut take for stored from the start.
   */
  ghost predicate AsOneByOne(setup: Setup, node: Node, states: seq<State>, events: seq<Event>, n: nat)
    requires Part(setup, states, events) && n <= |events|
  {
    && (forall x :: x in Finished(setup, states, events, n) ==> Fetch(setup.cfg, node(x)).Some?)
    && Stored4(states[n].tables) ==
       Historic(Stored4(states[0].tables), Plain(setup.cfg), node,
                Sighted(Stored4(states[0].tables), setup.cfg, Finished(setup, states, events, n)))
  }

  lemma FinishedGrows(setup: Setup, states: seq<State>, events: seq<Event>, n: nat)
    requires Part(setup, states, events) && n < |events|
    ensures Possible(states[n], setup, events[n])
    ensures Finished(setup, states, events, n + 1) ==
            Finished(setup, states, events, n) + FinishedBy(states[n], setup, events[n])
  {
    hide FinishedBy, Step, Possible;
    assert Leads(setup, states[n], events[n], states[n + 1]);
  }

  lemma NextIsOneByOne(setup: Setup, node: Node, states: seq<State>, events: seq<Event>, n: nat)
    requires BatchRun(setup, node, states, events) && Working(setup) && n < |events|
    requires AsOneByOne(setup, node, states, events, n)
    ensures AsOneByOne(setup, node, states, events, n + 1)
  {
    hide Step, FinishedBy, Finished, Possible, Merge, DeltaOf, Historic, Sighted, BatchEvent, Integrity, Fetch,
         WorkersFromNode, Leads, Blind, Stored4;
    BatchRunFacts(setup, node, states, events, n);
    RunKeepsWorkers(setup, node, states, events, n);
    BlindIgnoresWork(states[0].tables, setup.cfg);
    FinishedGrows(setup, states, events, n);
    StepMerges(setup, node, states[n], events[n]);
    var start, x := Stored4(states[0].tables), FinishedBy(states[n], setup, events[n]);
    HistoricExtends(start, setup.cfg, node, Finished(setup, states, events, n), x);
    assert x != [] ==> (Blind(states[n].tables, setup.cfg, x[0]) <==> Blind(start, setup.cfg, x[0]));
  }

  lemma {:induction false} RunIsHistoric(setup: Setup, node: Node, states: seq<State>, events: seq<Event>, n: nat)
    requires BatchRun(setup, node, states, events) && Working(setup) && n <= |events|
    ensures AsOneByOne(setup, node, states, events, n)
  {
    hide Step, FinishedBy, Leads, BatchEvent;
    if n > 0 {
      RunIsHistoric(setup, node, states, events, n - 1);
      NextIsOneByOne(setup, node, states, events, n - 1);
    }
  }

  lemma SightedSets(t: Tables, cfg: Config, t': Tables, cfg': Config, xs: seq<Slot>, ys: seq<Slot>)
    requires SetOf(xs) == SetOf(ys) && forall x :: x in xs ==> (Blind(t, cfg, x) <==> Blind(t', cfg', x))
    ensures SetOf(Sighted(t, cfg, xs)) == SetOf(Sighted(t', cfg', ys)) <= SetOf(xs)
  {
    hide Blind;
    forall x ensures x in SetOf(Sighted(t, cfg, xs)) <==> x in SetOf(Sighted(t', cfg', ys))
             ensures x in SetOf(Sighted(t, cfg, xs)) ==> x in SetOf(xs)
    {
      SightedSet(t, cfg, xs, x);
      SightedSet(t', cfg', ys, x);
      assert x in xs <==> x in SetOf(xs);
      assert x in ys <==> x in SetOf(ys);
    }
  }

  /** The two runs agree about CheckDb, or the shortcut is right about the finished slots from the start. */
  ghost predicate ShortcutsAgree(cfg: Config, cfg': Config, start: Tables, finished: set<Slot>) {
    cfg == cfg' || !OnlyStates(cfg) || forall x :: x in finished ==> BareStateBacked(start, x)
  }

  /**
   Worker order, repeats and interleaving do not matter. Two runs of batch processing over the same stored slots,
   with whatever pipes, workers, work rows and faults, with or without the CheckDb shortcut, that finished the same
   set of slots end with the same slots, blocks, states and bytes if equal roots carry equal bytes and the shortcuts
   agree.
   */
  lemma FinishedSetDecides(setup: Setup, setup': Setup, node: Node, states: seq<State>, events: seq<Event>,
                           states': seq<State>, events': seq<Event>)
    requires BatchRun(setup, node, states, events) && BatchRun(setup', node, states', events')
    requires Plain(setup.cfg) == Plain(setup'.cfg) && Working(setup) && Working(setup')
    requires Stored4(states[0].tables) == Stored4(states'[0].tables)
    requires SetOf(FinishedIn(setup, states, events)) == SetOf(FinishedIn(setup', states', events'))
    requires EqualRootsEqualBytes(Plain(setup.cfg), node, SetOf(FinishedIn(setup, states, events)))
    requires ShortcutsAgree(setup.cfg, setup'.cfg, states[0].tables, SetOf(FinishedIn(setup, states, events)))
    ensures Stored4(states[|events|].tables) == Stored4(states'[|events'|].tables)
  {
    hide Finished, Historic, Sighted, Step, Possible;
    var start, xs, ys := Stored4(states[0].tables), FinishedIn(setup, states, events),
                         FinishedIn(setup', states', events');
    RunIsHistoric(setup, node, states, events, |events|);
    RunIsHistoric(setup', node, states', events', |events'|);
    assert forall x :: x in xs ==> x in SetOf(xs);
    SightedSets(start, setup.cfg, start, setup'.cfg, xs, ys);
    SameSetSameTables(start, Plain(setup.cfg), node, Sighted(start, setup.cfg, xs), Sighted(start, setup'.cfg, ys));
  }

  /** A slot that was blind from the start has no slots row of its own in the end. */
  lemma BlindSlotIsMissing(setup: Setup, setup': Setup, node: Node, states: seq<State>, events: seq<Event>,
                           states': seq<State>, events': seq<Event>, x: Slot)
    requires BatchRun(setup, node, states, events) && BatchRun(setup', node, states', events')
    requires setup'.cfg == Plain(setup.cfg) && Working(setup) && Working(setup')
    requires Blind(states[0].tables, setup.cfg, x) && x in FinishedIn(setup', states', events')
    ensures Stored4(states[|events|].tables) != Stored4(states'[|events'|].tables)
  {
    hide Finished, Historic, Step, Possible;
    var start, xs := Stored4(states'[0].tables), FinishedIn(setup', states', events');
    RunKeepsWorkers(setup, node, states, events, |events|);
    RunIsHistoric(setup', node, states', events', |events'|);
    SightedSet(start, setup'.cfg, xs, x);
    assert Plain(setup'.cfg) == setup'.cfg;
    PlainStores(start, setup'.cfg, node, Sighted(start, setup'.cfg, xs), x);
    assert Blind(states[|events|].tables, setup.cfg, x);
  }

  /** The condition on the shortcuts cannot be dropped: without it the two runs end differently. */
  lemma FinishedSetDecidesIff(setup: Setup, setup': Setup, node: Node, states: seq<State>, events: seq<Event>,
                              states': seq<State>, events': seq<Event>)
    requires BatchRun(setup, node, states, events) && BatchRun(setup', node, states', events')
    requires Plain(setup.cfg) == Plain(setup'.cfg) && Working(setup) && Working(setup')
    requires Stored4(states[0].tables) == Stored4(states'[0].tables)
    requires SetOf(FinishedIn(setup, states, events)) == SetOf(FinishedIn(setup', states', events'))
    requires EqualRootsEqualBytes(Plain(setup.cfg), node, SetOf(FinishedIn(setup, states, events)))
    ensures Stored4(states[|events|].tables) == Stored4(states'[|events'|].tables) <==>
            ShortcutsAgree(setup.cfg, setup'.cfg, states[0].tables, SetOf(FinishedIn(setup, states, events)))
  {
    hide Finished, Step, Possible, EqualRootsEqualBytes;
    var finished := SetOf(FinishedIn(setup, states, events));
    if ShortcutsAgree(setup.cfg, setup'.cfg, states[0].tables, finished) {
      FinishedSetDecides(setup, setup', node, states, events, states', events');
    } else {
      var x :| x in finished && !BareStateBacked(states[0].tables, x);
      assert BareStateBacked(states'[0].tables, x) <==> BareStateBacked(Stored4(states'[0].tables), x);
      assert BareStateBacked(states[0].tables, x) <==> BareStateBacked(Stored4(states[0].tables), x);
      assert x in SetOf(FinishedIn(setup', states', events'));
      if setup.cfg.checkDb {
        BlindSlotIsMissing(setup, setup', node, states, events, states', events', x);
      } else {
        BlindSlotIsMissing(setup', setup, node, states', events', states, events, x);
      }
    }
  }

  /** The run finishes exactly these slots and takes the one stored tables to the other. */
  ghost predicate LeavesBy(setup: Setup, node: Node, s: set<Slot>, start: Tables, end: Tables,
                           states: seq<State>, events: seq<Event>) {
    && BatchRun(setup, node, states, events) && SetOf(FinishedIn(setup, states, events)) == s
    && Stored4(states[0].tables) == start && Stored4(states[|events|].tables) == end
  }

  ghost predicate Leaves(setup: Setup, node: Node, s: set<Slot>, start: Tables, end: Tables) {
    exists states: seq<State>, events: seq<Event> :: LeavesBy(setup, node, s, start, end, states, events)
  }

  /** What runs that finish these slots leave is decided by where they start. */
  ghost predicate InterleavingIrrelevant(setup: Setup, node: Node, s: set<Slot>) {
    forall start, end, end' :: Leaves(setup, node, s, start, end) && Leaves(setup, node, s, start, end') ==> end == end'
  }

  lemma LeavesTheSame(setup: Setup, node: Node, s: set<Slot>, start: Tables, end: Tables, states: seq<State>,
                      events: seq<Event>, end': Tables, states': seq<State>, events': seq<Event>)
    requires Working(setup) && EqualRootsEqualBytes(Plain(setup.cfg), node, s)
    requires LeavesBy(setup, node, s, start, end, states, events)
    requires LeavesBy(setup, node, s, start, end', states', events')
    ensures end == end'
  {
    hide Run, BatchPart, Stored4, Finished;
    FinishedSetDecides(setup, setup, node, states, events, states', events');
  }

  lemma DecidedByTheSet(setup: Setup, node: Node, s: set<Slot>)
    requires Working(setup) && EqualRootsEqualBytes(Plain(setup.cfg), node, s)
    ensures InterleavingIrrelevant(setup, node, s)
  {
    hide LeavesBy, EqualRootsEqualBytes;
    forall start, end, end' | Leaves(setup, node, s, start, end) && Leaves(setup, node, s, start, end')
      ensures end == end'
    {
      var states: seq<State>, events: seq<Event> :| LeavesBy(setup, node, s, start, end, states, events);
      var states': seq<State>, events': seq<Event> :| LeavesBy(setup, node, s, start, end', states', events');
      LeavesTheSame(setup, node, s, start, end, states, events, end', states', events');
    }
  }
}

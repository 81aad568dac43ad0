/** What holds of the tables in every reachable state, and the CheckDb shortcut there. */
module Reachable {
  import opened Machine
  import opened Tables
  import opened SlotWrite
  import opened Pipeline
  import opened Indexer

  /** Referential integrity in every reachable state. */
  lemma ReachableTablesHaveIntegrity(setup: Setup, states: seq<State>, events: seq<Event>, i: nat)
    requires Run(setup, states, events) && Working(setup) && i < |states|
    ensures var t := states[i].tables;
            && (forall k :: k in t.signedBlock ==> k in t.slots)
            && (forall k :: k in t.state ==> SlotKnown(t, k.0))
            && (forall k :: k in t.signedBlock ==> t.signedBlock[k].mhKey in t.blocks)
            && (forall k :: k in t.state ==> t.state[k].mhKey in t.blocks)
  {
    RunKeepsInv(setup, states, events, i);
  }

  /** No head message gives a block root with an empty state root, unless blocks are fetched. */
  predicate MessageBacked(cfg: Config, e: Event) {
    e.GoodMessage? ==> cfg.blocks || e.block == Blank || e.stateRoot != Blank
  }

  predicate JobBacked(task: Task) {
    task.phase.BeforeWrite? ==> BareStateOnlyIfBareBlock(task.phase.job)
  }

  predicate ArgsBacked(cfg: Config, a: Args) {
    cfg.blocks || a.blockRoot == Blank || a.stateRoot != Blank
  }

  ghost predicate Backed(t: Tables) {
    forall slot: Slot :: BareStateBacked(t, slot)
  }

  ghost predicate BackedInv(cfg: Config, s: State) {
    && Backed(s.tables)
    && (forall n :: 0 <= n < |s.head.tasks| ==> ArgsBacked(cfg, s.head.tasks[n].args) && JobBacked(s.head.tasks[n]))
  }

  lemma ExecuteKeepsBacking(t: Tables, job: Job, faults: Faults)
    requires Backed(t) && BareStateOnlyIfBareBlock(job)
    ensures Backed(Execute(t, job, faults).1)
  {
    forall slot: Slot ensures BareStateBacked(Execute(t, job, faults).1, slot) {
      assert BareStateBacked(t, slot);
      CommitKeepsBareStates(t, job, slot);
    }
  }

  /** Steps that leave the slots keys and the state table alone keep backing. */
  lemma SameRowsKeepBacking(t: Tables, t': Tables)
    requires Backed(t) && t.slots.Keys <= t'.slots.Keys && t'.state == t.state
    ensures Backed(t')
  {
    forall slot: Slot ensures BareStateBacked(t', slot) {
      assert BareStateBacked(t, slot);
    }
  }

  lemma TaskStepKeepsBacking(setup: Setup, s: State, e: Event)
    requires Inv(s) && BackedInv(setup.cfg, s) && Possible(s, setup, e) && e.TaskStep?
    ensures BackedInv(setup.cfg, Step(s, setup, e))
  {
    var task := s.head.tasks[e.n];
    var s' := Step(s, setup, e);
    assert TaskOk(task) && JobBacked(task) && ArgsBacked(setup.cfg, task.args);
    if e.te.RunWrite? {
      ExecuteKeepsBacking(s.tables, task.phase.job, e.te.faults);
    } else {
      SameRowsKeepBacking(s.tables, s'.tables);
    }
    assert JobBacked(s'.head.tasks[e.n]);
  }

  lemma SettleRows(t: Tables, h: Handler, fails: bool)
    ensures SettleError(t, h, fails).slots == t.slots && SettleError(t, h, fails).state == t.state
  {
  }

  lemma PipeStepRows(t: Tables, p: Pipe, cfg: Config, e: PipeEvent)
    requires Enabled(t, p, cfg, e) && !e.Write?
    ensures NextTables(t, p, cfg, e).slots == t.slots && NextTables(t, p, cfg, e).state == t.state
  {
    hide Prepare, Execute;
    if e.Settle? {
      SettleRows(t, p.handler, e.fails);
    }
  }

  ghost predicate SameSlotKeysAndStates(t: Tables, t': Tables) {
    t'.slots.Keys == t.slots.Keys && t'.state == t.state
  }

  lemma ReorgRows(t: Tables, slot: Slot, root: Root)
    ensures SameSlotKeysAndStates(t, Reorgs.Reorg(t, slot, root))
  {
    Reorgs.ReorgReforks(t, slot, root);
  }

  lemma OtherStepRows(s: State, setup: Setup, e: Event)
    requires Possible(s, setup, e) && !e.PipeStep? && !e.TaskStep?
    ensures SameSlotKeysAndStates(s.tables, TablesAfter(s, setup, e))
  {
    match e
    case ReorgMessage(slot, root) => ReorgRows(s.tables, slot, root);
    case GoodMessage(slot, _, _) => BadHeadGapKeepsRows(s.tables, s.head, setup.inc, slot);
    case _ =>
  }

  lemma PipeStepKeepsBacking(setup: Setup, s: State, e: Event)
    requires Inv(s) && BackedInv(setup.cfg, s) && Possible(s, setup, e) && e.PipeStep?
    ensures BackedInv(setup.cfg, Step(s, setup, e))
  {
    var p := s.pipes[e.i];
    if e.e.Write? {
      assert PipeOk(s.tables, p) && WorkerOk(p.workers[e.e.worker]);
      ExecuteKeepsBacking(s.tables, p.workers[e.e.worker].phase.job, e.e.faults);
    } else {
      PipeStepRows(s.tables, p, CfgOf(setup, p), e.e);
      SameRowsKeepBacking(s.tables, Step(s, setup, e).tables);
    }
  }

  lemma OtherStepKeepsBacking(setup: Setup, s: State, e: Event)
    requires Inv(s) && BackedInv(setup.cfg, s) && Possible(s, setup, e) && MessageBacked(setup.cfg, e)
    requires !e.PipeStep? && !e.TaskStep?
    ensures BackedInv(setup.cfg, Step(s, setup, e))
  {
    OtherStepRows(s, setup, e);
    SameRowsKeepBacking(s.tables, Step(s, setup, e).tables);
  }

  /** With such messages only, bare states are backed in every reachable state. */
  lemma {:induction false} ReachableTablesAreBacked(setup: Setup, states: seq<State>, events: seq<Event>, i: nat)
    requires Run(setup, states, events) && Working(setup) && i < |states|
    requires Backed(states[0].tables)
    requires forall k :: 0 <= k < |events| ==> MessageBacked(setup.cfg, events[k])
    ensures BackedInv(setup.cfg, states[i])
  {
    hide Step;
    if i > 0 {
      ReachableTablesAreBacked(setup, states, events, i - 1);
      RunKeepsInv(setup, states, events, i - 1);
      var s, e := states[i - 1], events[i - 1];
      assert Follows(setup, states, events, i - 1);
      if e.TaskStep? {
        TaskStepKeepsBacking(setup, s, e);
      } else if e.PipeStep? {
        PipeStepKeepsBacking(setup, s, e);
      } else {
        OtherStepKeepsBacking(setup, s, e);
      }
    }
  }

  /**
   In every such state a historic attempt of any node, whatever its configuration, leaves the same tables with the
   CheckDb shortcut as without. With blocks processed the state need not be one of those.
   */
  lemma CheckDbIsInvisible(setup: Setup, states: seq<State>, events: seq<Event>, i: nat, cfg: Config, slot: Slot,
                           a: Answers)
    requires Run(setup, states, events) && Working(setup) && i < |states| && (cfg.blocks || cfg.states)
    requires OnlyStates(cfg) ==>
               Backed(states[0].tables) && forall k :: 0 <= k < |events| ==> MessageBacked(setup.cfg, events[k])
    ensures var faults := Faults(false, false, 9);
            Attempt(states[i].tables, cfg.(checkDb := true), HistoricArgs(slot), a, false, faults)
            == Attempt(states[i].tables, cfg.(checkDb := false), HistoricArgs(slot), a, false, faults)
  {
    RunKeepsInv(setup, states, events, i);
    if OnlyStates(cfg) {
      ReachableTablesAreBacked(setup, states, events, i);
      assert BareStateBacked(states[i].tables, slot);
    }
    if Fetch(cfg, a).Some? {
      CheckDbRefinesFullWrite(states[i].tables, cfg, slot, a, Faults(false, false, 9));
    }
  }
}

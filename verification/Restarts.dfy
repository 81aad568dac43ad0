/** Any number of sessions one after another, head tracking with pipelines beside it, leave no slot unrecorded. */
module Restarts {
  import opened Machine
  import opened Tables
  import opened Pipeline
  import opened Indexer
  import opened StartUpGap
  import Reachable

  datatype Stretch = Stretch(states: seq<State>, events: seq<Event>)

  /** One session of the program: the states it passes through and the events between them. */
  type Session = s: Stretch | s.states != [] witness Stretch([State(EMPTY, [], NO_HEAD, {})], [])

  /** Stored or a known gap; rows of historic_process count too if the system runs their pipeline. */
  ghost predicate Noted(historicToo: bool, t: Tables, x: Slot) {
    StartUpGap.Recorded(t, x) || (historicToo && Covered(t.historic, x))
  }

  ghost predicate NotedUpTo(historicToo: bool, t: Tables, m: Slot) {
    forall x: Slot :: x <= m ==> Noted(historicToo, t, x)
  }

  /**
   Tables a session may start from, with a bound on what is stored and given its first head: nothing up to the
   bound is missing. Slot 0 may be as long as the bound is 0, unless the first head is slot 1.
   */
  ghost predicate MayStart(historicToo: bool, t: Tables, m: Slot, first: Option<Slot>) {
    && Highest(t) <= m
    && (forall x: Slot :: 0 < x <= m ==> Noted(historicToo, t, x))
    && (m > 0 || first == Some(1) ==> Noted(historicToo, t, 0))
  }

  predicate StartUpPending(h: Head) {
    h.tasks == [] || h.tasks[0].phase.BeforeStartUp?
  }

  /** How far slots may be stored: up to the bound, and once the start-up gap is written up to the highest head. */
  function Front(m: Slot, h: Head): Slot {
    if StartUpPending(h) || h.highest <= m then m else h.highest
  }

  /** The step stores no slot ahead of the front. */
  ghost predicate StoresBehind(m: Slot, s: State, s': State) {
    forall k :: k in s'.tables.slots && k !in s.tables.slots ==> k.0 <= Front(m, s.head)
  }

  predicate RealHead(e: Event) {
    e.GoodMessage? ==> e.slot >= 1 && e.block != Blank
  }

  function First(s: Session): State {
    s.states[0]
  }

  function Last(s: Session): State {
    s.states[|s.states| - 1]
  }

  /** A session that saw a head, has come to rest, and recorded every jump. */
  ghost predicate Settled(setup: Setup, s: Session) {
    && Indexer.Run(setup, s.states, s.events)
    && (forall i :: 0 <= i < |s.events| ==> RealHead(s.events[i]))
    && Last(s).head.first.Some? && HeadsSettled(Last(s).head) && Quiescent(Last(s))
    && (Last(s).head.first.value >= 1 ==>
          StartUpFits(setup.inc, Last(s).head.first.value, Highest(First(s).tables)))
  }

  /** It may run any pipelines, as long as none stores a slot ahead of the front. */
  ghost predicate SessionBehind(setup: Setup, m: Slot, s: Session) {
    Settled(setup, s) && forall i :: 0 <= i < |s.events| ==> StoresBehind(m, s.states[i], s.states[i + 1])
  }

  // ---- The shape of the task list ----

  ghost predicate TasksShaped(setup: Setup, h: Head) {
    && (h.first.None? <==> h.tasks == [])
    && (h.first.None? ==> h.previousSlot == 0 && h.previousRoot == Blank)
    && (h.first.Some? ==> 1 <= h.first.value <= h.highest && 1 <= h.previousSlot <= h.highest)
    && (forall n :: 0 <= n < |h.tasks| ==>
          && TaskOk(h.tasks[n]) && h.tasks[n].args.slot <= h.highest
          && (h.tasks[n].phase.BeforeStartUp? ==> n == 0))
    && (h.tasks != [] ==> h.tasks[0].args.slot == h.first.value && h.tasks[0].args.increment == setup.inc)
  }

  lemma TaskStepKeepsShape(setup: Setup, s: State, e: Event)
    requires TasksShaped(setup, s.head) && Possible(s, setup, e) && e.TaskStep?
    ensures TasksShaped(setup, Step(s, setup, e).head)
    ensures StartUpPending(Step(s, setup, e).head) <==> StartUpPending(s.head) && !(e.n == 0 && e.te.RunStartUp?)
    ensures Step(s, setup, e).head.first == s.head.first && Step(s, setup, e).head.highest == s.head.highest
  {
  }

  lemma HeadStepKeepsShape(setup: Setup, s: State, e: Event)
    requires TasksShaped(setup, s.head) && e.GoodMessage? && RealHead(e)
    ensures TasksShaped(setup, Step(s, setup, e).head)
    ensures StartUpPending(Step(s, setup, e).head) <==> StartUpPending(s.head)
    ensures s.head.first.Some? ==> Step(s, setup, e).head.first == s.head.first
    ensures s.head.first.Some? ==> s.head.highest <= Step(s, setup, e).head.highest
  {
  }

  lemma StepKeepsShape(setup: Setup, s: State, e: Event)
    requires TasksShaped(setup, s.head) && Possible(s, setup, e) && RealHead(e)
    ensures TasksShaped(setup, Step(s, setup, e).head)
    ensures StartUpPending(Step(s, setup, e).head) <==>
            StartUpPending(s.head) && !(e.TaskStep? && e.n == 0 && e.te.RunStartUp?)
    ensures s.head.first.Some? ==> Step(s, setup, e).head.first == s.head.first
                                   && s.head.highest <= Step(s, setup, e).head.highest
  {
    if e.TaskStep? {
      TaskStepKeepsShape(setup, s, e);
    } else if e.GoodMessage? {
      HeadStepKeepsShape(setup, s, e);
    }
  }

  lemma FrontOnlyAdvances(setup: Setup, m: Slot, s: State, e: Event)
    requires TasksShaped(setup, s.head) && Possible(s, setup, e) && RealHead(e)
    ensures Front(m, s.head) <= Front(m, Step(s, setup, e).head)
  {
    StepKeepsShape(setup, s, e);
  }

  // ---- One session ----

  /** Noted, or in the hands of a worker or error handler. */
  ghost predicate Held(historicToo: bool, s: State, x: Slot) {
    Noted(historicToo, s.tables, x) || SomeoneHolds(s.pipes, x)
  }

  /**
   Nothing noted is lost and all stored slots are behind the front; once the start-up gap is written everything below
   the first head is held.
   */
  ghost predicate SessionInv(setup: Setup, historicToo: bool, m: Slot, s0: State, s: State) {
    && TasksShaped(setup, s.head)
    && s0.tables.slots.Keys <= s.tables.slots.Keys
    && (forall k :: k in s.tables.slots ==> k.0 <= Front(m, s.head))
    && (forall x: Slot :: Noted(historicToo, s0.tables, x) ==> Held(historicToo, s, x))
    && (!StartUpPending(s.head) ==> forall x: Slot :: x < s.head.first.value ==> Held(historicToo, s, x))
  }

  lemma HeldStays(historicToo: bool, s: State, s': State, x: Slot)
    requires Preserves(s, s') && Held(historicToo, s, x)
    ensures Held(historicToo, s', x)
  {
    assert SlotKnown(s.tables, x) || SomeoneHolds(s.pipes, x) ==> Firm(s, x);
    if Firm(s', x) && Range(x, x) in s'.tables.knownGaps {
      assert Holds(Range(x, x), x);
    }
  }

  lemma SlotsOnlyGrow(s: State, setup: Setup, e: Event)
    requires Inv(s) && Possible(s, setup, e)
    ensures s.tables.slots.Keys <= Step(s, setup, e).tables.slots.Keys
  {
    match e
    case PipeStep(i, pe) =>
      if pe.Write? {
        ExecuteIsSafe(s.tables, s.pipes[i].workers[pe.worker].phase.job, pe.faults);
      } else {
        Reachable.PipeStepRows(s.tables, s.pipes[i], CfgOf(setup, s.pipes[i]), pe);
      }
    case TaskStep(n, te) =>
      if te.RunWrite? {
        ExecuteIsSafe(s.tables, s.head.tasks[n].phase.job, te.faults);
      }
    case _ => Reachable.OtherStepRows(s, setup, e);
  }

  lemma HighestIsBelow(t: Tables, m: Slot)
    requires forall k :: k in t.slots ==> k.0 <= m
    ensures Highest(t) <= m
  {
    HighestBounds(t);
  }

  lemma HighestGrows(t: Tables, t': Tables)
    requires t.slots.Keys <= t'.slots.Keys
    ensures Highest(t) <= Highest(t')
  {
    HighestBounds(t);
    HighestBounds(t');
    if Highest(t) > 0 {
      var r :| (Highest(t), r) in t.slots;
      assert (Highest(t), r) in t'.slots;
    }
  }

  /** The start-up step records everything below the first head, if it comes while all stored slots are in bounds. */
  lemma StartUpStepRecords(setup: Setup, historicToo: bool, m: Slot, s0: State, s: State, e: Event, x: Slot)
    requires SessionInv(setup, historicToo, m, s0, s) && Possible(s, setup, e)
    requires e.TaskStep? && e.n == 0 && e.te.RunStartUp? && Preserves(s, Step(s, setup, e))
    requires MayStart(historicToo, s0.tables, m, s.head.first)
    requires StartUpFits(setup.inc, s.head.first.value, Highest(s0.tables))
    requires x < s.head.first.value
    ensures Held(historicToo, Step(s, setup, e), x)
  {
    var first, highest := s.head.first.value, Highest(s.tables);
    HighestIsBelow(s.tables, m);
    HighestGrows(s0.tables, s.tables);
    StartUpStillFits(setup.inc, first, Highest(s0.tables), highest);
    StartUpAdds(s.tables, setup.inc, first, highest, x);
    if !Covered(Step(s, setup, e).tables.knownGaps, x) {
      assert Noted(historicToo, s0.tables, x);
      HeldStays(historicToo, s, Step(s, setup, e), x);
    }
  }

  lemma SessionStep(setup: Setup, historicToo: bool, m: Slot, s0: State, s: State, e: Event)
    requires Inv(s) && SessionInv(setup, historicToo, m, s0, s) && Possible(s, setup, e) && RealHead(e)
    requires Working(setup)
    requires StoresBehind(m, s, Step(s, setup, e))
    requires s.head.first.Some? ==>
               && MayStart(historicToo, s0.tables, m, s.head.first)
               && StartUpFits(setup.inc, s.head.first.value, Highest(s0.tables))
    ensures SessionInv(setup, historicToo, m, s0, Step(s, setup, e))
  {
    hide Possible, Step, Inv, Preserves, Held, Noted, MayStart;
    var s' := Step(s, setup, e);
    StepKeepsPipes(s, setup, e);
    StepKeepsShape(setup, s, e);
    FrontOnlyAdvances(setup, m, s, e);
    SlotsOnlyGrow(s, setup, e);
    forall x: Slot | Held(historicToo, s, x) ensures Held(historicToo, s', x) {
      HeldStays(historicToo, s, s', x);
    }
    if StartUpPending(s.head) && !StartUpPending(s'.head) {
      PendingHasFirst(setup, s, e);
      forall x: Slot | x < s'.head.first.value ensures Held(historicToo, s', x) {
        StartUpStepRecords(setup, historicToo, m, s0, s, e, x);
      }
    }
  }

  lemma PendingHasFirst(setup: Setup, s: State, e: Event)
    requires TasksShaped(setup, s.head) && Possible(s, setup, e) && e.TaskStep?
    ensures s.head.first.Some?
  {
  }

  lemma {:induction false} FirstNeverChanges(setup: Setup, s: Session, i: nat)
    requires Settled(setup, s) && i < |s.states| && TasksShaped(setup, s.states[i].head)
    requires s.states[i].head.first.Some?
    ensures s.states[i].head.first == Last(s).head.first
    decreases |s.states| - i
  {
    hide Step;
    if i < |s.events| {
      assert RealHead(s.events[i]) && Follows(setup, s.states, s.events, i);
      StepKeepsShape(setup, s.states[i], s.events[i]);
      FirstNeverChanges(setup, s, i + 1);
    }
  }

  lemma {:induction false} SessionKeepsInv(setup: Setup, historicToo: bool, m: Slot, s: Session, i: nat)
    requires SessionBehind(setup, m, s) && Working(setup) && i < |s.states|
    requires MayStart(historicToo, First(s).tables, m, Last(s).head.first)
    ensures SessionInv(setup, historicToo, m, First(s), s.states[i])
  {
    hide Step, Inv, StoresBehind;
    if i == 0 {
      HighestBounds(First(s).tables);
    } else {
      SessionKeepsInv(setup, historicToo, m, s, i - 1);
      RunKeepsInv(setup, s.states, s.events, i - 1);
      assert RealHead(s.events[i - 1]) && Follows(setup, s.states, s.events, i - 1);
      assert StoresBehind(m, s.states[i - 1], s.states[i]);
      if s.states[i - 1].head.first.Some? {
        FirstNeverChanges(setup, s, i - 1);
      }
      SessionStep(setup, historicToo, m, First(s), s.states[i - 1], s.events[i - 1]);
    }
  }

  /** The bound at the end of a session. */
  function BoundAfter(m: Slot, s: Session): Slot {
    if Last(s).head.highest <= m then m else Last(s).head.highest
  }

  /**
   One session, pipelines included, takes tables with nothing missing up to the bound, empty ones too, to tables
   with nothing missing up to the larger of the bound and the highest head, and nothing stored beyond.
   */
  lemma SessionLeavesNoGap(setup: Setup, historicToo: bool, m: Slot, s: Session)
    requires SessionBehind(setup, m, s) && Working(setup)
    requires MayStart(historicToo, First(s).tables, m, Last(s).head.first)
    ensures NotedUpTo(historicToo, Last(s).tables, BoundAfter(m, s))
    ensures Highest(Last(s).tables) <= BoundAfter(m, s)
  {
    hide MayStart;
    var i := |s.states| - 1;
    var end := s.states[i];
    SessionKeepsInv(setup, historicToo, m, s, i);
    assert end.head.tasks[0].phase.Ended?;
    HighestIsBelow(end.tables, BoundAfter(m, s));
    forall x: Slot | x <= BoundAfter(m, s) ensures Noted(historicToo, end.tables, x) {
      if end.head.first.value <= x <= end.head.highest {
        SettledHeadsAreRecorded(setup, s.states, s.events, i, x);
      } else {
        StartWasNoted(historicToo, First(s).tables, m, Last(s).head.first, x);
        assert Held(historicToo, end, x);
        QuietPipesHoldNothing(end, x);
      }
    }
  }

  lemma StartWasNoted(historicToo: bool, t: Tables, m: Slot, first: Option<Slot>, x: Slot)
    requires MayStart(historicToo, t, m, first)
    ensures 0 < x <= m ==> Noted(historicToo, t, x)
  {
  }

  // ---- Any number of sessions ----

  ghost predicate Successive(sessions: seq<Session>) {
    forall i, j :: 0 <= i && j == i + 1 < |sessions| ==> First(sessions[j]).tables == Last(sessions[i]).tables
  }

  /** The bound after all sessions: the largest of the first bound and the highest heads. */
  function BoundAfterAll(m: Slot, sessions: seq<Session>): Slot {
    if sessions == [] then m else BoundAfter(BoundAfterAll(m, sessions[..|sessions| - 1]), sessions[|sessions| - 1])
  }

  ghost predicate AllBehind(setup: Setup, m: Slot, sessions: seq<Session>) {
    forall i :: 0 <= i < |sessions| ==> SessionBehind(setup, BoundAfterAll(m, sessions[..i]), sessions[i])
  }

  lemma FrontSessionsBehind(setup: Setup, m: Slot, sessions: seq<Session>)
    requires sessions != [] && Successive(sessions) && AllBehind(setup, m, sessions)
    ensures var front, last := sessions[..|sessions| - 1], sessions[|sessions| - 1];
            && Successive(front) && AllBehind(setup, m, front) && SessionBehind(setup, BoundAfterAll(m, front), last)
            && (front != [] ==> First(last).tables == Last(front[|front| - 1]).tables)
  {
    hide SessionBehind;
    var front := sessions[..|sessions| - 1];
    forall i | 0 <= i < |front| ensures SessionBehind(setup, BoundAfterAll(m, front[..i]), front[i]) {
      assert front[..i] == sessions[..i];
    }
  }

  lemma NotedTablesMayStart(historicToo: bool, t: Tables, m: Slot, first: Option<Slot>)
    requires NotedUpTo(historicToo, t, m) && Highest(t) <= m
    ensures MayStart(historicToo, t, m, first)
  {
  }

  /** Over any number of sessions nothing up to the bound, the stored slots and the highest heads goes missing. */
  lemma {:induction false} RestartsLeaveNoGap(setup: Setup, historicToo: bool, m: Slot, sessions: seq<Session>)
    requires sessions != [] && Successive(sessions) && AllBehind(setup, m, sessions)
    requires Working(setup)
    requires MayStart(historicToo, First(sessions[0]).tables, m, Last(sessions[0]).head.first)
    ensures var end := Last(sessions[|sessions| - 1]).tables;
            NotedUpTo(historicToo, end, BoundAfterAll(m, sessions)) && Highest(end) <= BoundAfterAll(m, sessions)
  {
    hide SessionBehind, AllBehind, MayStart, NotedUpTo, Highest;
    var front, last := sessions[..|sessions| - 1], sessions[|sessions| - 1];
    FrontSessionsBehind(setup, m, sessions);
    if front != [] {
      RestartsLeaveNoGap(setup, historicToo, m, front);
      NotedTablesMayStart(historicToo, First(last).tables, BoundAfterAll(m, front), Last(last).head.first);
    }
    SessionLeavesNoGap(setup, historicToo, BoundAfterAll(m, front), last);
  }
}

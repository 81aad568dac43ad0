/** Every sequence of slots is finished by some run, one slot after another; hence exactly when order matters. */
module OneByOne {
  import opened Machine
  import opened Tables
  import opened SlotWrite
  import opened HistoricOrder
  import opened WorkQueue
  import opened Pipeline
  import opened Indexer
  import opened Runs
  import opened RunOrder

  /** All nodes are configured alike. */
  ghost predicate Uniform(setup: Setup) {
    forall node: int :: setup.nodes(node) == setup.cfg
  }

  /** A pipe with one worker and a work table that holds at most one row. */
  function Stage(t: Tables, w: Work, ever: set<Range>, offered: Option<Range>, dist: Distributor, worker: Worker,
                 removers: seq<Remover>): State {
    State(t.(knownGaps := w), [Pipe(GapRows, 1, 0, offered, dist, [worker], Listening, removers)], NO_HEAD, ever)
  }

  function Resting(t: Tables, ever: set<Range>): State {
    Stage(t, map[], ever, None, Waiting, Idle, [])
  }

  function OneRow(r: Range): Work {
    map[r := HELD_ROW]
  }

  /** The stretch contains no worker's query or write. */
  predicate QuietPart(events: seq<Event>) {
    forall i :: 0 <= i < |events| && events[i].PipeStep? ==> !events[i].e.Query? && !events[i].e.Write?
  }

  lemma QuietEventFinishesNothing(setup: Setup, s: State, e: Event)
    requires Possible(s, setup, e) && (e.PipeStep? ==> !e.e.Query? && !e.e.Write?)
    ensures FinishedBy(s, setup, e) == []
  {
  }

  lemma {:induction false} QuietPartFinishesNothing(setup: Setup, states: seq<State>, events: seq<Event>, n: nat)
    requires Part(setup, states, events) && n <= |events| && QuietPart(events)
    ensures Finished(setup, states, events, n) == []
  {
    hide FinishedBy, Step, Possible;
    if n > 0 {
      QuietPartFinishesNothing(setup, states, events, n - 1);
      assert Leads(setup, states[n - 1], events[n - 1], states[n]);
      QuietEventFinishesNothing(setup, states[n - 1], events[n - 1]);
    }
  }

  // ---- Joining stretches ----

  lemma {:induction false} FinishedPrefix(setup: Setup, states: seq<State>, events: seq<Event>, states': seq<State>,
                                          events': seq<Event>, n: nat)
    requires Part(setup, states, events) && Part(setup, states', events') && n <= |events|
    requires |events| <= |events'| && events == events'[..|events|] && states == states'[..|states|]
    ensures Finished(setup, states, events, n) == Finished(setup, states', events', n)
  {
    hide FinishedBy, Step, Possible;
    if n > 0 {
      FinishedPrefix(setup, states, events, states', events', n - 1);
      assert Leads(setup, states[n - 1], events[n - 1], states[n]);
      assert events[n - 1] == events'[n - 1] && states[n - 1] == states'[n - 1];
    }
  }

  lemma {:induction false} FinishedSuffix(setup: Setup, states: seq<State>, events: seq<Event>, states': seq<State>,
                                          events': seq<Event>, k: nat, n: nat)
    requires Part(setup, states, events) && Part(setup, states', events') && k + n <= |events'|
    requires |events| == |events'| - k && events == events'[k..] && states == states'[k..]
    ensures Finished(setup, states', events', k + n) ==
            Finished(setup, states', events', k) + Finished(setup, states, events, n)
  {
    hide FinishedBy, Step, Possible;
    if n > 0 {
      FinishedSuffix(setup, states, events, states', events', k, n - 1);
      assert Leads(setup, states[n - 1], events[n - 1], states[n]);
      assert events[n - 1] == events'[k + n - 1] && states[n - 1] == states'[k + n - 1];
    }
  }

  lemma JoinBatchParts(setup: Setup, node: Node, states: seq<State>, events: seq<Event>, states': seq<State>,
                       events': seq<Event>)
    requires BatchPart(setup, node, states, events) && BatchPart(setup, node, states', events')
    requires states[|events|] == states'[0]
    ensures BatchPart(setup, node, states + states'[1..], events + events')
    ensures (states + states'[1..])[|events + events'|] == states'[|events'|]
    ensures FinishedIn(setup, states + states'[1..], events + events') ==
            FinishedIn(setup, states, events) + FinishedIn(setup, states', events')
  {
    hide FinishedBy, Step, Possible, BatchEvent, Finished;
    var all, es := states + states'[1..], events + events';
    JoinParts(setup, states, events, states', events');
    assert es[..|events|] == events && all[..|states|] == states;
    assert es[|events|..] == events' && all[|events|..] == states';
    FinishedPrefix(setup, states, events, all, es, |events|);
    FinishedSuffix(setup, states', events', all, es, |events|, |events'|);
    forall i | 0 <= i < |es| ensures BatchEvent(setup, all[i], es[i], node) {
      if i < |events| {
        assert BatchEvent(setup, states[i], events[i], node);
      } else {
        assert all[i] == states'[i - |events|];
        assert BatchEvent(setup, states'[i - |events|], events'[i - |events|], node);
      }
    }
  }

  // ---- One slot ----

  lemma RowIsAdded(setup: Setup, t: Tables, ever: set<Range>, r: Range)
    requires t.historic.Keys <= ever
    ensures Leads(setup, Resting(t, ever), AddWork(GapRows, r, 0),
                  Stage(t, map[r := FREE_ROW], ever + {r}, None, Waiting, Idle, []))
  {
    var free: Work := map[r := FREE_ROW];
    assert free.Keys == {r};
    assert ever + {r} + t.historic.Keys == ever + {r};
  }

  lemma RowIsCheckedOut(setup: Setup, t: Tables, ever: set<Range>, r: Range)
    requires r in ever && t.historic.Keys <= ever
    ensures Leads(setup, Stage(t, map[r := FREE_ROW], ever, None, Waiting, Idle, []),
                  PipeStep(0, PipeEvent.Checkout(r)),
                  Stage(t, OneRow(r), ever, Some(r), Waiting, Idle, []))
  {
    var s := Stage(t, map[r := FREE_ROW], ever, None, Waiting, Idle, []);
    var s' := Stage(t, OneRow(r), ever, Some(r), Waiting, Idle, []);
    assert Lock(s.tables.knownGaps, r, 1) == OneRow(r);
    PipeLeads(setup, s.tables, s.pipes[0], ever, PipeEvent.Checkout(r), s'.tables, s'.pipes[0]);
  }

  lemma RowIsAccepted(setup: Setup, t: Tables, ever: set<Range>, x: Slot)
    requires Range(x, x) in ever && t.historic.Keys <= ever
    ensures var r := Range(x, x);
            Leads(setup, Stage(t, OneRow(r), ever, Some(r), Waiting, Idle, []), PipeStep(0, Accept),
                  Stage(t, OneRow(r), ever, None, Sending(r, x), Idle, []))
  {
    var r := Range(x, x);
    var s := Stage(t, OneRow(r), ever, Some(r), Waiting, Idle, []);
    var s' := Stage(t, OneRow(r), ever, None, Sending(r, x), Idle, []);
    PipeLeads(setup, s.tables, s.pipes[0], ever, Accept, s'.tables, s'.pipes[0]);
  }

  lemma OneWorker(w: Worker, w': Worker)
    ensures [w][0 := w'] == [w']
  {
  }

  lemma SlotGoesToWorker(setup: Setup, t: Tables, ever: set<Range>, x: Slot)
    requires Range(x, x) in ever && t.historic.Keys <= ever
    ensures var r := Range(x, x);
            Leads(setup, Stage(t, OneRow(r), ever, None, Sending(r, x), Idle, []), PipeStep(0, Send(0)),
                  Stage(t, OneRow(r), ever, None, Finishing(r), Busy(x, Querying), []))
  {
    var r := Range(x, x);
    var s, s' := Stage(t, OneRow(r), ever, None, Sending(r, x), Idle, []),
                 Stage(t, OneRow(r), ever, None, Finishing(r), Busy(x, Querying), []);
    OneWorker(Idle, Busy(x, Querying));
    PipeLeads(setup, s.tables, s.pipes[0], ever, Send(0), s'.tables, s'.pipes[0]);
  }

  /** A row for the slot is added, checked out, and its slot handed to the worker. */
  lemma SlotIsSent(setup: Setup, node: Node, t: Tables, ever: set<Range>, x: Slot)
    returns (states: seq<State>, events: seq<Event>)
    requires t.historic.Keys <= ever && Uniform(setup)
    ensures var r := Range(x, x);
            && BatchPart(setup, node, states, events) && FinishedIn(setup, states, events) == []
            && states[0] == Resting(t, ever)
            && states[|events|] == Stage(t, OneRow(r), ever + {r}, None, Finishing(r), Busy(x, Querying), [])
  {
    hide Leads, Stage, OneRow, FinishedBy, Step, Possible;
    var r := Range(x, x);
    states := [Resting(t, ever),
               Stage(t, map[r := FREE_ROW], ever + {r}, None, Waiting, Idle, []),
               Stage(t, OneRow(r), ever + {r}, Some(r), Waiting, Idle, []),
               Stage(t, OneRow(r), ever + {r}, None, Sending(r, x), Idle, []),
               Stage(t, OneRow(r), ever + {r}, None, Finishing(r), Busy(x, Querying), [])];
    events := [AddWork(GapRows, r, 0), PipeStep(0, PipeEvent.Checkout(r)), PipeStep(0, Accept), PipeStep(0, Send(0))];
    RowIsAdded(setup, t, ever, r);
    RowIsCheckedOut(setup, t, ever + {r}, r);
    RowIsAccepted(setup, t, ever + {r}, x);
    SlotGoesToWorker(setup, t, ever + {r}, x);
    assert Part(setup, states, events);
    QuietPartFinishesNothing(setup, states, events, |events|);
  }

  lemma FullSlotIgnoresGaps(t: Tables, w: Work, job: Job)
    ensures FullSlot(t.(knownGaps := w), job) == FullSlot(t, job).(knownGaps := w)
  {
    hide FullSlot, Delta;
    FullSlotMerges(t, job);
    FullSlotMerges(t.(knownGaps := w), job);
  }

  lemma CommitIgnoresGaps(t: Tables, w: Work, slot: Slot, got: Fetched)
    ensures var job := Job(HistoricArgs(slot), got);
            Committed(t.(knownGaps := w), job) == Committed(t, job).(knownGaps := w)
  {
    hide Committed, FullSlot;
    HistoricCommit(t, slot, got);
    HistoricCommit(t.(knownGaps := w), slot, got);
    FullSlotIgnoresGaps(t, w, Job(HistoricArgs(slot), got));
  }

  /** The worker's query, and whether it finishes the slot. */
  lemma QueryLeads(setup: Setup, node: Node, t: Tables, ever: set<Range>, x: Slot)
    requires Range(x, x) in ever && t.historic.Keys <= ever && Uniform(setup)
    ensures var r, w := Range(x, x), AfterQuery(t, setup.cfg, x, node(x), false);
            var e := PipeStep(0, Query(0, node(x), false));
            var s := Stage(t, OneRow(r), ever, None, Finishing(r), Busy(x, Querying), []);
            && Leads(setup, s, e, Stage(t, OneRow(r), ever, None, Finishing(r), w, []))
            && FinishedBy(s, setup, e) == (if w.Idle? then [x] else []) && BatchEvent(setup, s, e, node)
  {
    var r, w := Range(x, x), AfterQuery(t, setup.cfg, x, node(x), false);
    var s := Stage(t, OneRow(r), ever, None, Finishing(r), Busy(x, Querying), []);
    var s' := Stage(t, OneRow(r), ever, None, Finishing(r), w, []);
    OneWorker(Busy(x, Querying), w);
    assert w == AfterQuery(s.tables, setup.cfg, x, node(x), false);
    PipeLeads(setup, s.tables, s.pipes[0], ever, Query(0, node(x), false), s'.tables, s'.pipes[0]);
  }

  /** A write that meets no fault. */
  lemma WriteLeads(setup: Setup, node: Node, t: Tables, ever: set<Range>, x: Slot, got: Fetched)
    requires Range(x, x) in ever && t.historic.Keys <= ever
    ensures var r, job, e := Range(x, x), Job(HistoricArgs(x), got), PipeStep(0, PipeEvent.Write(0, NO_FAULT));
            var s := Stage(t, OneRow(r), ever, None, Finishing(r), Busy(x, Writing(job)), []);
            && Leads(setup, s, e, Stage(Committed(t, job), OneRow(r), ever, None, Finishing(r), Idle, []))
            && FinishedBy(s, setup, e) == [x]
  {
    hide Committed;
    var r, job := Range(x, x), Job(HistoricArgs(x), got);
    var s := Stage(t, OneRow(r), ever, None, Finishing(r), Busy(x, Writing(job)), []);
    var s' := Stage(Committed(t, job), OneRow(r), ever, None, Finishing(r), Idle, []);
    OneWorker(Busy(x, Writing(job)), Idle);
    CommitIgnoresGaps(t, OneRow(r), x, got);
    CommitKeepsRows(t, job);
    assert LinkOf(job) == Unlinked;
    assert Execute(s.tables, job, NO_FAULT) == (Done, s'.tables);
    PipeLeads(setup, s.tables, s.pipes[0], ever, PipeEvent.Write(0, NO_FAULT), s'.tables, s'.pipes[0]);
  }

  lemma OneStepFinishes(setup: Setup, states: seq<State>, events: seq<Event>)
    requires Part(setup, states, events) && |events| == 1
    ensures Possible(states[0], setup, events[0])
    ensures FinishedIn(setup, states, events) == FinishedBy(states[0], setup, events[0])
  {
    hide FinishedBy, Step, Possible;
    assert Leads(setup, states[0], events[0], states[1]);
    assert Finished(setup, states, events, 0) == [];
  }

  /** The worker finishes its slot: by the CheckDb test, or by a write that meets no fault. */
  lemma SlotIsFinished(setup: Setup, node: Node, t: Tables, ever: set<Range>, x: Slot)
    returns (states: seq<State>, events: seq<Event>, t': Tables)
    requires t.historic.Keys <= ever && Range(x, x) in ever && Integrity(t)
    requires Working(setup) && Uniform(setup) && Fetch(setup.cfg, node(x)).Some?
    ensures var r := Range(x, x);
            && BatchPart(setup, node, states, events) && FinishedIn(setup, states, events) == [x]
            && states[0] == Stage(t, OneRow(r), ever, None, Finishing(r), Busy(x, Querying), [])
            && states[|events|] == Stage(t', OneRow(r), ever, None, Finishing(r), Idle, [])
            && t'.historic == t.historic && SlotKnown(t', x) && Integrity(t')
  {
    hide Stage, OneRow, FinishedBy, Step, Possible, Committed, BatchEvent;
    var r, got := Range(x, x), Fetch(setup.cfg, node(x)).value;
    var job, w := Job(HistoricArgs(x), got), AfterQuery(t, setup.cfg, x, node(x), false);
    QueryLeads(setup, node, t, ever, x);
    states := [Stage(t, OneRow(r), ever, None, Finishing(r), Busy(x, Querying), []),
               Stage(t, OneRow(r), ever, None, Finishing(r), w, [])];
    events := [PipeStep(0, Query(0, node(x), false))];
    OneStepFinishes(setup, states, events);
    t' := t;
    if w.Idle? {
      StoredImpliesKnown(t, setup.cfg, job);
    } else {
      assert w == Busy(x, Writing(job));
      WriteLeads(setup, node, t, ever, x, got);
      t' := Committed(t, job);
      CommitKeepsIntegrity(t, job);
      CommitKeepsRows(t, job);
      assert SlotKey(job).0 == x;
      var written := [states[1], Stage(t', OneRow(r), ever, None, Finishing(r), Idle, [])];
      var write := [PipeStep(0, PipeEvent.Write(0, NO_FAULT))];
      WriteIsBatch(setup, states[1], node);
      OneStepFinishes(setup, written, write);
      JoinBatchParts(setup, node, states, events, written, write);
      states, events := states + written[1..], events + write;
    }
  }

  lemma WriteIsBatch(setup: Setup, s: State, node: Node)
    requires Uniform(setup)
    ensures BatchEvent(setup, s, PipeStep(0, PipeEvent.Write(0, NO_FAULT)), node)
  {
  }

  function Polled(t: Tables, x: Slot, ever: set<Range>, phase: RemoverPhase): State {
    Stage(t, OneRow(Range(x, x)), ever, None, Waiting, Idle, [Remover(Range(x, x), phase)])
  }

  lemma RangeIsFinished(setup: Setup, t: Tables, ever: set<Range>, x: Slot)
    requires Range(x, x) in ever && t.historic.Keys <= ever
    ensures Leads(setup, Stage(t, OneRow(Range(x, x)), ever, None, Finishing(Range(x, x)), Idle, []),
                  PipeStep(0, Finish), Polled(t, x, ever, Polling))
  {
    var s := Stage(t, OneRow(Range(x, x)), ever, None, Finishing(Range(x, x)), Idle, []);
    var s' := Polled(t, x, ever, Polling);
    PipeLeads(setup, s.tables, s.pipes[0], ever, Finish, s'.tables, s'.pipes[0]);
  }

  lemma EndsAreSeen(setup: Setup, t: Tables, ever: set<Range>, x: Slot)
    requires Range(x, x) in ever && t.historic.Keys <= ever && SlotKnown(t, x)
    ensures Leads(setup, Polled(t, x, ever, Polling), PipeStep(0, PollStart(0)), Polled(t, x, ever, StartSeen))
    ensures Leads(setup, Polled(t, x, ever, StartSeen), PipeStep(0, PollEnd(0)), Polled(t, x, ever, Cleared))
  {
    var s, s', s'' := Polled(t, x, ever, Polling), Polled(t, x, ever, StartSeen), Polled(t, x, ever, Cleared);
    var root :| (x, root) in t.slots;
    assert (x, root) in s.tables.slots;
    OneRemover(s.pipes[0].removers[0], s'.pipes[0].removers[0]);
    PipeLeads(setup, s.tables, s.pipes[0], ever, PollStart(0), s'.tables, s'.pipes[0]);
    OneRemover(s'.pipes[0].removers[0], s''.pipes[0].removers[0]);
    PipeLeads(setup, s'.tables, s'.pipes[0], ever, PollEnd(0), s''.tables, s''.pipes[0]);
  }

  lemma RowIsDeleted(setup: Setup, t: Tables, ever: set<Range>, x: Slot)
    requires Range(x, x) in ever && t.historic.Keys <= ever
    ensures Leads(setup, Polled(t, x, ever, Cleared), PipeStep(0, Delete(0)), Resting(t, ever))
  {
    var s, s' := Polled(t, x, ever, Cleared), Resting(t, ever);
    OneRemover(s.pipes[0].removers[0], s.pipes[0].removers[0]);
    assert OneRow(Range(x, x)) - {Range(x, x)} == map[];
    PipeLeads(setup, s.tables, s.pipes[0], ever, Delete(0), s'.tables, s'.pipes[0]);
  }

  /** The range goes to the remover, which finds the slot stored and deletes the row. */
  lemma RowIsCleared(setup: Setup, node: Node, t: Tables, ever: set<Range>, x: Slot)
    returns (states: seq<State>, events: seq<Event>)
    requires Range(x, x) in ever && t.historic.Keys <= ever && SlotKnown(t, x) && Uniform(setup)
    ensures BatchPart(setup, node, states, events) && FinishedIn(setup, states, events) == []
    ensures states[0] == Stage(t, OneRow(Range(x, x)), ever, None, Finishing(Range(x, x)), Idle, [])
    ensures states[|events|] == Resting(t, ever)
  {
    hide Leads, Stage, Polled, Resting, OneRow, FinishedBy, Step, Possible;
    states := [Stage(t, OneRow(Range(x, x)), ever, None, Finishing(Range(x, x)), Idle, []), Polled(t, x, ever, Polling),
               Polled(t, x, ever, StartSeen), Polled(t, x, ever, Cleared), Resting(t, ever)];
    events := [PipeStep(0, Finish), PipeStep(0, PollStart(0)), PipeStep(0, PollEnd(0)), PipeStep(0, Delete(0))];
    RangeIsFinished(setup, t, ever, x);
    EndsAreSeen(setup, t, ever, x);
    RowIsDeleted(setup, t, ever, x);
    assert Part(setup, states, events);
    QuietPartFinishesNothing(setup, states, events, |events|);
  }

  /** A resting pipe finishes any slot the node answers for and rests again. */
  lemma OneSlot(setup: Setup, node: Node, t: Tables, ever: set<Range>, x: Slot)
    returns (states: seq<State>, events: seq<Event>, t': Tables, ever': set<Range>)
    requires t.historic.Keys <= ever && Integrity(t)
    requires Working(setup) && Uniform(setup) && Fetch(setup.cfg, node(x)).Some?
    ensures BatchPart(setup, node, states, events) && FinishedIn(setup, states, events) == [x]
    ensures states[0] == Resting(t, ever) && states[|events|] == Resting(t', ever')
    ensures t'.historic.Keys <= ever' && Integrity(t')
  {
    hide FinishedIn, Resting, Stage, OneRow, Leads, BatchEvent;
    ever' := ever + {Range(x, x)};
    states, events := SlotIsSent(setup, node, t, ever, x);
    var states1, events1, t1 := SlotIsFinished(setup, node, t, ever', x);
    t' := t1;
    var states2, events2 := RowIsCleared(setup, node, t', ever', x);
    JoinBatchParts(setup, node, states, events, states1, events1);
    states, events := states + states1[1..], events + events1;
    JoinBatchParts(setup, node, states, events, states2, events2);
    states, events := states + states2[1..], events + events2;
  }

  lemma RestingStarts(setup: Setup, node: Node)
    returns (states: seq<State>, events: seq<Event>)
    ensures BatchPart(setup, node, states, events) && FinishedIn(setup, states, events) == []
    ensures Init(states[0]) && states[0].tables == EMPTY
    ensures states[|events|] == Resting(EMPTY, {})
  {
    var start := State(EMPTY, [], NO_HEAD, {});
    states, events := [start, Resting(EMPTY, {})], [Join(GapRows, 1, 0, 1, true)];
    assert EMPTY.(knownGaps := map[]) == EMPTY;
    assert seq(1, _ => Idle) == [Idle];
    assert Leads(setup, start, events[0], states[1]);
    QuietPartFinishesNothing(setup, states, events, 1);
  }

  /** Any sequence of slots the node answers for, repeats included, is finished by some run in exactly this order. */
  lemma {:induction false} AnySequenceIsFinished(setup: Setup, node: Node, xs: seq<Slot>)
    returns (states: seq<State>, events: seq<Event>, t: Tables, ever: set<Range>)
    requires Working(setup) && Uniform(setup) && forall x :: x in xs ==> Fetch(setup.cfg, node(x)).Some?
    ensures BatchPart(setup, node, states, events) && FinishedIn(setup, states, events) == xs
    ensures Init(states[0]) && states[0].tables == EMPTY
    ensures states[|events|] == Resting(t, ever) && t.historic.Keys <= ever && Integrity(t)
  {
    hide FinishedIn, Resting, Leads, BatchEvent, Init, Fetch;
    if xs == [] {
      t, ever := EMPTY, {};
      states, events := RestingStarts(setup, node);
    } else {
      var front, x := xs[..|xs| - 1], xs[|xs| - 1];
      states, events, t, ever := AnySequenceIsFinished(setup, node, front);
      var states1, events1, t1, ever1 := OneSlot(setup, node, t, ever, x);
      JoinBatchParts(setup, node, states, events, states1, events1);
      states, events, t, ever := states + states1[1..], events + events1, t1, ever1;
      assert xs == front + [x];
    }
  }

  /** So some run from empty tables leaves what these slots, processed one by one in this order, leave. */
  lemma SequenceIsLeft(setup: Setup, node: Node, xs: seq<Slot>)
    requires Working(setup) && Uniform(setup) && forall x :: x in xs ==> Fetch(setup.cfg, node(x)).Some?
    ensures Leaves(setup, node, SetOf(xs), EMPTY, Historic(EMPTY, Plain(setup.cfg), node, xs))
  {
    hide Historic, Resting, Leads, Fetch, Finished;
    var states, events, _, _ := AnySequenceIsFinished(setup, node, xs);
    PartFromInitIsRun(setup, states, events);
    RunIsHistoric(setup, node, states, events, |events|);
    AllSighted(EMPTY, setup.cfg, xs);
    assert LeavesBy(setup, node, SetOf(xs), EMPTY, Historic(EMPTY, Plain(setup.cfg), node, xs), states, events);
  }

  lemma FinishedSlotsWereFetched(setup: Setup, node: Node, s: set<Slot>, start: Tables, end: Tables, x: Slot)
    requires Working(setup) && Uniform(setup) && x in s && Leaves(setup, node, s, start, end)
    ensures Fetch(setup.cfg, node(x)).Some?
  {
    hide Run, Stored4, Fetch, Finished;
    var states: seq<State>, events: seq<Event> :| LeavesBy(setup, node, s, start, end, states, events);
    RunIsHistoric(setup, node, states, events, |events|);
    assert x in SetOf(FinishedIn(setup, states, events));
  }

  lemma SomeOrdersDiffer(setup: Setup, node: Node, s: set<Slot>)
    requires Working(setup) && Uniform(setup) && forall x :: x in s ==> Fetch(setup.cfg, node(x)).Some?
    requires !EqualRootsEqualBytes(Plain(setup.cfg), node, s)
    ensures !InterleavingIrrelevant(setup, node, s)
  {
    hide Leaves, Fetch, Historic, DeltaOf;
    var f := BytesOf(Plain(setup.cfg), node);
    var x, y, k :| x in s && y in s && k in f(x) && k in f(y) && f(x)[k] != f(y)[k];
    var xs, ys := OrdersDiffer(Plain(setup.cfg), node, s, x, y, k);
    assert forall z :: z in xs || z in ys ==> z in SetOf(xs) || z in SetOf(ys);
    SequenceIsLeft(setup, node, xs);
    SequenceIsLeft(setup, node, ys);
  }

  /**
   Exactly when the interleaving does not matter: equal roots carry equal bytes among the node's replies for the
   slots, or there is a slot without a usable reply, so that no run finishes them all.
   */
  lemma InterleavingIrrelevantIff(setup: Setup, node: Node, s: set<Slot>)
    requires Working(setup) && Uniform(setup)
    ensures InterleavingIrrelevant(setup, node, s) <==>
            EqualRootsEqualBytes(Plain(setup.cfg), node, s) || exists x :: x in s && Fetch(setup.cfg, node(x)).None?
  {
    hide Leaves, Fetch, EqualRootsEqualBytes;
    if EqualRootsEqualBytes(Plain(setup.cfg), node, s) {
      DecidedByTheSet(setup, node, s);
    } else if x :| x in s && Fetch(setup.cfg, node(x)).None? {
      forall start, end | Leaves(setup, node, s, start, end) ensures false {
        FinishedSlotsWereFetched(setup, node, s, start, end, x);
      }
    } else {
      SomeOrdersDiffer(setup, node, s);
    }
  }
}

/** Concrete runs: the exceptions in the promises are really needed. */
module Witnesses {
  import opened Machine
  import opened Tables
  import opened SlotWrite
  import opened HistoricOrder
  import opened Indexer
  import opened Runs

  const SETUP := Setup(Config(false, true, false), 1000, _ => Config(false, true, false))
  const SKIPPED := Answers(NotFound, StateError)

  /** The row and the tables a skipped slot's commit leaves. */
  function WithSkipped(t: Tables, slot: Slot): Tables {
    t.(slots := InsertMissing(t.slots, (slot, Blank), SlotRow(slot / SLOTS_PER_EPOCH, Blank, Status.Skipped)))
  }

  function SkippedJob(args: Args): Job {
    Job(args, Fetched(true, None, Blank, Blank))
  }

  lemma SkippedCommit(t: Tables, args: Args)
    ensures Prepare(t, SETUP.cfg, args, SKIPPED, false, false) == Ready(SkippedJob(args))
    ensures Execute(t, SkippedJob(args), NO_FAULT) == (Done, WithSkipped(t, args.slot))
  {
  }

  // ---- The start-up race ----

  const A := Text("0xa")
  const RACE_TABLES := WithSkipped(EMPTY, 5)
  const FIRST_ARGS := Args(100, A, A, 0, Blank, 1000, true)
  const SECOND_ARGS := Args(101, A, A, 100, A, 1000, true)

  function RaceState(t: Tables, highest: Slot, first: TaskPhase, rest: seq<Task>): State {
    State(t, [], Head(highest, A, 0, Some(100), highest, [Task(FIRST_ARGS, true, first)] + rest), {})
  }

  lemma RaceHeads()
    ensures Init(State(RACE_TABLES, [], NO_HEAD, {}))
    ensures Leads(SETUP, State(RACE_TABLES, [], NO_HEAD, {}), GoodMessage(100, A, A),
                  RaceState(RACE_TABLES, 100, BeforeStartUp, []))
    ensures Leads(SETUP, RaceState(RACE_TABLES, 100, BeforeStartUp, []), GoodMessage(101, A, A),
                  RaceState(RACE_TABLES, 101, BeforeStartUp, [Task(SECOND_ARGS, false, BeforeQuery)]))
  {
  }

  lemma RaceSecondCommits()
    ensures var job, t' := SkippedJob(SECOND_ARGS), WithSkipped(RACE_TABLES, 101);
            var s0 := RaceState(RACE_TABLES, 101, BeforeStartUp, [Task(SECOND_ARGS, false, BeforeQuery)]);
            var s1 := RaceState(RACE_TABLES, 101, BeforeStartUp, [Task(SECOND_ARGS, false, BeforeWrite(job))]);
            && Leads(SETUP, s0, TaskStep(1, RunQuery(SKIPPED, false)), s1)
            && Leads(SETUP, s1, TaskStep(1, RunWrite(NO_FAULT)),
                     RaceState(t', 101, BeforeStartUp, [Task(SECOND_ARGS, false, Ended(false))]))
  {
    SkippedCommit(RACE_TABLES, SECOND_ARGS);
  }

  lemma RaceStartUp()
    ensures var t', rest := WithSkipped(RACE_TABLES, 101), [Task(SECOND_ARGS, false, Ended(false))];
            Leads(SETUP, RaceState(t', 101, BeforeStartUp, rest), TaskStep(0, RunStartUp),
                  RaceState(t', 101, BeforeQuery, rest))
  {
    var t := WithSkipped(RACE_TABLES, 101);
    StartUpGap.HighestBounds(t);
    assert (101, Blank) in t.slots;
  }

  /**
   Slot 5 is stored; heads 100 and 101 arrive, and 101 commits before the task for 100 has asked for the highest
   slot. The start-up gap is then never written: slot 50, say, is nowhere.
   */
  lemma StartUpGapCanBeMissed() returns (states: seq<State>, events: seq<Event>)
    ensures Run(SETUP, states, events)
    ensures var s := states[|events|];
            && |s.head.tasks| == 2 && s.head.first == Some(100) && s.head.tasks[0].phase == BeforeQuery
            && SlotKnown(s.tables, 5) && !StartUpGap.Recorded(s.tables, 50)
  {
    RaceHeads();
    RaceSecondCommits();
    RaceStartUp();
    var t' := WithSkipped(RACE_TABLES, 101);
    var job := SkippedJob(SECOND_ARGS);
    states := [State(RACE_TABLES, [], NO_HEAD, {}),
               RaceState(RACE_TABLES, 100, BeforeStartUp, []),
               RaceState(RACE_TABLES, 101, BeforeStartUp, [Task(SECOND_ARGS, false, BeforeQuery)]),
               RaceState(RACE_TABLES, 101, BeforeStartUp, [Task(SECOND_ARGS, false, BeforeWrite(job))]),
               RaceState(t', 101, BeforeStartUp, [Task(SECOND_ARGS, false, Ended(false))]),
               RaceState(t', 101, BeforeQuery, [Task(SECOND_ARGS, false, Ended(false))])];
    events := [GoodMessage(100, A, A), GoodMessage(101, A, A), TaskStep(1, RunQuery(SKIPPED, false)),
               TaskStep(1, RunWrite(NO_FAULT)), TaskStep(0, RunStartUp)];
    assert (5, Blank) in t'.slots;
    assert Part(SETUP, states, events);
    PartFromInitIsRun(SETUP, states, events);
  }
}

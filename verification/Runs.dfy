/** Putting runs together: one step, a stretch of steps, stretches joined to a run. */
module Runs {
  import opened Tables
  import opened Pipeline
  import opened Indexer

  /** The event leads from one state to the next. */
  ghost predicate Leads(setup: Setup, s: State, e: Event, s': State) {
    Possible(s, setup, e) && Step(s, setup, e) == s'
  }

  /** A stretch of a run. */
  ghost predicate Part(setup: Setup, states: seq<State>, events: seq<Event>) {
    |states| == |events| + 1 && forall i :: 0 <= i < |events| ==> Leads(setup, states[i], events[i], states[i + 1])
  }

  lemma JoinParts(setup: Setup, states: seq<State>, events: seq<Event>, states': seq<State>, events': seq<Event>)
    requires Part(setup, states, events) && Part(setup, states', events') && states[|events|] == states'[0]
    ensures Part(setup, states + states'[1..], events + events')
    ensures (states + states'[1..])[|events + events'|] == states'[|events'|]
  {
    var all, es := states + states'[1..], events + events';
    forall i | 0 <= i < |es| ensures Leads(setup, all[i], es[i], all[i + 1]) {
      if i >= |events| {
        assert all[i] == states'[i - |events|];
      }
    }
  }

  lemma PartFromInitIsRun(setup: Setup, states: seq<State>, events: seq<Event>)
    requires Part(setup, states, events) && Init(states[0])
    ensures Run(setup, states, events)
  {
    forall i | 0 <= i < |events| ensures Follows(setup, states, events, i) {
      assert Leads(setup, states[i], events[i], states[i + 1]);
    }
  }

  // ---- Runs with one pipe ----

  const FREE_ROW := AddedWork(0)
  const HELD_ROW := FREE_ROW.(checkedOut := true, checkedOutBy := Some(1))

  lemma OneRemover(r: Remover, r': Remover)
    ensures [r][0 := r'] == [r'] && [r][..0] + [r][1..] == []
  {
  }

  /** A step of the only pipe, with no new row about. */
  lemma PipeLeads(setup: Setup, t: Tables, p: Pipe, ever: set<Range>, e: PipeEvent, t': Tables, p': Pipe)
    requires Enabled(t, p, CfgOf(setup, p), e)
    requires NextTables(t, p, CfgOf(setup, p), e) == t' && NextPipe(t, p, CfgOf(setup, p), e) == p'
    requires t'.knownGaps.Keys <= ever && t'.historic.Keys <= ever
    ensures Leads(setup, State(t, [p], NO_HEAD, ever), PipeStep(0, e), State(t', [p'], NO_HEAD, ever))
  {
    assert [p][0 := p'] == [p'];
    assert ever + t'.knownGaps.Keys + t'.historic.Keys == ever;
  }
}

/** Pipelines come to rest: a bound on the work between two check-outs, and a way to rest from every reachable state. */
module Progress {
  import opened Tables
  import opened SlotWrite
  import opened HistoricOrder
  import opened Pipeline
  import opened Indexer
  import opened Runs
  import opened CrashSafety

  // ---- How much a pipe has still to do ----

  function WorkerWeight(w: Worker): nat {
    match w
    case Idle => 0
    case Busy(_, Querying) => 5
    case Busy(_, Writing(_)) => 4
    case Busy(_, Reporting(_)) => 3
  }

  function WorkersWeight(ws: seq<Worker>): nat {
    if ws == [] then 0 else WorkersWeight(ws[..|ws| - 1]) + WorkerWeight(ws[|ws| - 1])
  }

  function HandlerWeight(h: Handler): nat {
    match h
    case Listening => 0
    case Looking(_, _, _) => 2
    case _ => 1
  }

  function DistributorWeight(d: Distributor): nat {
    match d
    case Waiting => 0
    case Sending(r, next) => if next <= r.end then 6 * (r.end - next + 1) + 4 else 4
    case Finishing(_) => 4
    case WrongStart(_) => 6
    case WrongEnd(_) => 3
  }

  function RemoversWeight(rs: seq<Remover>): nat {
    if rs == [] then 0
    else RemoversWeight(rs[..|rs| - 1]) + if rs[|rs| - 1].phase.Cleared? then 1 else 2
  }

  function OfferedWeight(offered: Option<Range>): nat {
    match offered
    case None => 0
    case Some(r) => DistributorWeight(Start(r)) + 1
  }

  function Weight(p: Pipe): nat {
    OfferedWeight(p.offered) + DistributorWeight(p.dist) + WorkersWeight(p.workers) + HandlerWeight(p.handler)
    + RemoversWeight(p.removers)
  }

  lemma {:induction false} WorkersUpdate(ws: seq<Worker>, j: nat, w: Worker)
    requires j < |ws|
    ensures WorkersWeight(ws[j := w]) == WorkersWeight(ws) - WorkerWeight(ws[j]) + WorkerWeight(w)
  {
    var front := ws[..|ws| - 1];
    if j < |front| {
      WorkersUpdate(front, j, w);
      assert ws[j := w][..|ws| - 1] == front[j := w];
    } else {
      assert ws[j := w][..|ws| - 1] == front;
    }
  }

  lemma {:induction false} RemoversUpdate(rs: seq<Remover>, k: nat, r: Remover)
    requires k < |rs|
    ensures RemoversWeight(rs[k := r]) == RemoversWeight(rs) - RemoversWeight([rs[k]]) + RemoversWeight([r])
    ensures RemoversWeight(rs[..k] + rs[k + 1..]) == RemoversWeight(rs) - RemoversWeight([rs[k]])
  {
    var front := rs[..|rs| - 1];
    if k < |front| {
      RemoversUpdate(front, k, r);
      assert rs[k := r][..|rs| - 1] == front[k := r];
      assert (rs[..k] + rs[k + 1..])[..|rs| - 2] == front[..k] + front[k + 1..];
    } else {
      assert rs[k := r][..|rs| - 1] == front;
      assert rs[..k] + rs[k + 1..] == front;
    }
  }

  /** A remover that looks again, and does not find both ends stored. */
  ghost predicate Waits(t: Tables, p: Pipe, e: PipeEvent) {
    e.PollStart? || (e.PollEnd? && e.remover < |p.removers| && !SlotKnown(t, p.removers[e.remover].range.end))
  }

  /** Neither the range on offer nor the one being distributed is endless. */
  predicate NoneEndless(p: Pipe) {
    && (p.offered.Some? ==> !Endless(p.offered.value))
    && (!p.dist.Waiting? ==> !Endless(p.dist.range))
  }

  lemma StepKeepsNoneEndless(t: Tables, p: Pipe, cfg: Config, e: PipeEvent)
    requires Enabled(t, p, cfg, e) && !e.Checkout? && NoneEndless(p)
    ensures NoneEndless(NextPipe(t, p, cfg, e))
  {
    hide Execute, Prepare;
  }

  lemma WorkerStepWeight(t: Tables, p: Pipe, cfg: Config, e: PipeEvent)
    requires Enabled(t, p, cfg, e) && (e.Query? || e.Write? || e.Report?)
    ensures Weight(NextPipe(t, p, cfg, e)) < Weight(p)
  {
    hide Execute, Prepare, DistributorWeight, OfferedWeight, RemoversWeight, WorkersWeight;
    WorkersUpdate(p.workers, e.worker, NextPipe(t, p, cfg, e).workers[e.worker]);
  }

  lemma SendWeight(t: Tables, p: Pipe, cfg: Config, e: PipeEvent)
    requires Enabled(t, p, cfg, e) && e.Send? && DistributorOk(p.dist) && NoneEndless(p)
    ensures Weight(NextPipe(t, p, cfg, e)) < Weight(p)
  {
    hide OfferedWeight, RemoversWeight, WorkersWeight;
    AdvanceValue(p.dist.range, p.dist.next);
    WorkersUpdate(p.workers, e.worker, Busy(p.dist.next, Querying));
  }

  lemma RemoverStepWeight(t: Tables, p: Pipe, cfg: Config, e: PipeEvent)
    requires Enabled(t, p, cfg, e) && (e.PollStart? || e.PollEnd? || e.Delete?)
    ensures Weight(NextPipe(t, p, cfg, e)) == Weight(p) - if Waits(t, p, e) then 0 else 1
  {
    hide DistributorWeight, OfferedWeight, WorkersWeight;
    var r := if e.Delete? then p.removers[e.remover] else NextPipe(t, p, cfg, e).removers[e.remover];
    RemoversUpdate(p.removers, e.remover, r);
  }

  lemma OtherStepWeight(t: Tables, p: Pipe, cfg: Config, e: PipeEvent)
    requires Enabled(t, p, cfg, e) && (e.Accept? || e.Raise? || e.Finish? || e.Look? || e.Settle?)
    ensures Weight(NextPipe(t, p, cfg, e)) < Weight(p)
  {
    hide WorkersWeight;
    var p' := NextPipe(t, p, cfg, e);
    if e.Finish? {
      assert p'.removers[..|p.removers|] == p.removers;
    }
  }

  /** Every step but a check-out and a waiting poll brings the pipe nearer to rest, whatever fails. */
  lemma WeightFalls(t: Tables, p: Pipe, cfg: Config, e: PipeEvent)
    requires Enabled(t, p, cfg, e) && !e.Checkout? && DistributorOk(p.dist) && NoneEndless(p)
    ensures if Waits(t, p, e) then Weight(NextPipe(t, p, cfg, e)) == Weight(p)
            else Weight(NextPipe(t, p, cfg, e)) < Weight(p)
  {
    hide Enabled, NextPipe, Weight;
    match e
    case Query(_, _, _) => WorkerStepWeight(t, p, cfg, e);
    case Write(_, _) => WorkerStepWeight(t, p, cfg, e);
    case Report(_, _) => WorkerStepWeight(t, p, cfg, e);
    case Send(_) => SendWeight(t, p, cfg, e);
    case PollStart(_) => RemoverStepWeight(t, p, cfg, e);
    case PollEnd(_) => RemoverStepWeight(t, p, cfg, e);
    case Delete(_) => RemoverStepWeight(t, p, cfg, e);
    case _ => OtherStepWeight(t, p, cfg, e);
  }

  // ---- Between two check-outs the work is bounded ----

  /** The event is a step of the i-th pipe that is no waiting poll. */
  ghost predicate WorksOn(s: State, e: Event, i: nat) {
    e.PipeStep? && e.i == i && i < |s.pipes| && !Waits(s.tables, s.pipes[i], e.e)
  }

  /** How many of the events from the a-th up to the b-th are such steps. */
  ghost function Works(states: seq<State>, events: seq<Event>, i: nat, a: nat, b: nat): nat
    requires a <= b <= |events| <= |states|
  {
    if a == b then 0 else Works(states, events, i, a, b - 1) + if WorksOn(states[b - 1], events[b - 1], i) then 1 else 0
  }

  lemma PipeKeepsWeight(s: State, setup: Setup, e: Event, i: nat)
    requires Inv(s) && Possible(s, setup, e) && i < |s.pipes| && NoneEndless(s.pipes[i])
    requires e.PipeStep? && e.i == i ==> !e.e.Checkout?
    ensures var s' := Step(s, setup, e);
            && i < |s'.pipes| && NoneEndless(s'.pipes[i])
            && Weight(s'.pipes[i]) + (if WorksOn(s, e, i) then 1 else 0) <= Weight(s.pipes[i])
  {
    hide Enabled, NextPipe, TablesAfter, Weight, NoneEndless;
    if e.PipeStep? && e.i == i {
      assert PipeOk(s.tables, s.pipes[i]);
      WeightFalls(s.tables, s.pipes[i], CfgOf(setup, s.pipes[i]), e.e);
      StepKeepsNoneEndless(s.tables, s.pipes[i], CfgOf(setup, s.pipes[i]), e.e);
    }
  }

  /**
   In every run, however the others interleave and whatever fails, the steps of a pipe between two of its check-outs
   are bounded by its weight, apart from polls that wait for a slot.
   */
  lemma {:induction false} WorkIsBounded(setup: Setup, states: seq<State>, events: seq<Event>, i: nat, a: nat, b: nat)
    requires Run(setup, states, events) && Working(setup) && a <= b <= |events|
    requires i < |states[a].pipes| && NoneEndless(states[a].pipes[i])
    requires forall k :: a <= k < b && events[k].PipeStep? && events[k].i == i ==> !events[k].e.Checkout?
    ensures i < |states[b].pipes| && NoneEndless(states[b].pipes[i])
    ensures Works(states, events, i, a, b) + Weight(states[b].pipes[i]) <= Weight(states[a].pipes[i])
  {
    hide Step, Possible, Inv, Weight, NoneEndless, WorksOn;
    if a < b {
      WorkIsBounded(setup, states, events, i, a, b - 1);
      RunKeepsInv(setup, states, events, b - 1);
      assert Follows(setup, states, events, b - 1);
      PipeKeepsWeight(states[b - 1], setup, events[b - 1], i);
    }
  }

  // ---- A pipe that is not at rest can move ----

  /** Nothing in hand, and no remover left whose two ends are stored. */
  ghost predicate AtRest(t: Tables, p: Pipe) {
    && p.offered.None? && p.dist.Waiting? && p.handler.Listening?
    && (forall j :: 0 <= j < |p.workers| ==> p.workers[j].Idle?)
    && (forall k :: 0 <= k < |p.removers| ==>
          !SlotKnown(t, p.removers[k].range.start) || !SlotKnown(t, p.removers[k].range.end))
  }

  /** No check-out and no fault; the node answers. */
  predicate Smooth(p: Pipe, e: PipeEvent, node: Node) {
    match e
    case Checkout(_) => false
    case Query(j, a, checkFails) => j < |p.workers| && p.workers[j].Busy? && a == node(p.workers[j].slot) && !checkFails
    case Write(_, faults) => faults == NO_FAULT
    case Look(fails) => !fails
    case Settle(fails) => !fails
    case _ => true
  }

  function PollingCount(rs: seq<Remover>): nat {
    if rs == [] then 0 else PollingCount(rs[..|rs| - 1]) + if rs[|rs| - 1].phase.Polling? then 1 else 0
  }

  lemma {:induction false} PollingUpdate(rs: seq<Remover>, k: nat, r: Remover)
    requires k < |rs| && rs[k].phase.Polling? && !r.phase.Polling?
    ensures PollingCount(rs[k := r]) < PollingCount(rs)
  {
    var front := rs[..|rs| - 1];
    if k < |front| {
      PollingUpdate(front, k, r);
      assert rs[k := r][..|rs| - 1] == front[k := r];
    } else {
      assert rs[k := r][..|rs| - 1] == front;
    }
  }

  /** A remover whose two ends are stored can go on: it sees the one, sees the other, deletes. */
  lemma RemoverMoves(t: Tables, p: Pipe, cfg: Config, k: nat) returns (e: PipeEvent)
    requires k < |p.removers| && SlotKnown(t, p.removers[k].range.start) && SlotKnown(t, p.removers[k].range.end)
    ensures Enabled(t, p, cfg, e) && (e == PollStart(k) || e == PollEnd(k) || e == Delete(k))
    ensures Waits(t, p, e) ==> PollingCount(NextPipe(t, p, cfg, e).removers) < PollingCount(p.removers)
  {
    match p.removers[k].phase
    case Polling =>
      e := PollStart(k);
      PollingUpdate(p.removers, k, p.removers[k].(phase := StartSeen));
    case StartSeen => e := PollEnd(k);
    case Cleared => e := Delete(k);
  }

  lemma WorkerMoves(t: Tables, p: Pipe, cfg: Config, node: Node, j: nat) returns (e: PipeEvent)
    requires PipeOk(t, p) && p.handler.Listening? && j < |p.workers| && p.workers[j].Busy?
    ensures Enabled(t, p, cfg, e) && Smooth(p, e, node) && !Waits(t, p, e)
  {
    assert WorkerOk(p.workers[j]);
    match p.workers[j].phase
    case Querying => e := Query(j, node(p.workers[j].slot), false);
    case Writing(job) =>
      e := PipeEvent.Write(j, NO_FAULT);
      assert LinkOf(job) == Unlinked;
    case Reporting(_) => e := Report(j, Blank);
  }

  /** Unless it is at rest a pipe with a worker has a fault-free step to take that gets it nearer to rest. */
  lemma SomethingMoves(t: Tables, p: Pipe, cfg: Config, node: Node) returns (e: PipeEvent)
    requires PipeOk(t, p) && p.workers != [] && !AtRest(t, p)
    ensures Enabled(t, p, cfg, e) && Smooth(p, e, node)
    ensures Waits(t, p, e) ==> PollingCount(NextPipe(t, p, cfg, e).removers) < PollingCount(p.removers)
  {
    hide PipeOk, Execute, Prepare;
    if !p.handler.Listening? {
      e := if p.handler.Looking? then Look(false) else Settle(false);
    } else if j :| 0 <= j < |p.workers| && p.workers[j].Busy? {
      e := WorkerMoves(t, p, cfg, node, j);
    } else {
      match p.dist
      case Sending(_, _) => e := Send(0);
      case Finishing(_) => e := Finish;
      case WrongStart(_) => e := Raise(Blank);
      case WrongEnd(_) => e := Raise(Blank);
      case Waiting =>
        if p.offered.Some? {
          e := Accept;
        } else {
          var k :| 0 <= k < |p.removers| && SlotKnown(t, p.removers[k].range.start)
                   && SlotKnown(t, p.removers[k].range.end);
          e := RemoverMoves(t, p, cfg, k);
        }
    }
  }

  // ---- Driving a pipe to rest ----

  /** Steps of the i-th pipe only, without check-out or fault. */
  ghost predicate SmoothPart(setup: Setup, node: Node, i: nat, states: seq<State>, events: seq<Event>) {
    && Part(setup, states, events)
    && forall k :: 0 <= k < |events| ==>
         && events[k].PipeStep? && events[k].i == i && i < |states[k].pipes|
         && Smooth(states[k].pipes[i], events[k].e, node)
  }

  lemma {:induction false} DrivenToRest(setup: Setup, node: Node, s: State, i: nat)
    returns (states: seq<State>, events: seq<Event>)
    requires Inv(s) && Working(setup)
    requires i < |s.pipes| && s.pipes[i].workers != [] && NoneEndless(s.pipes[i])
    ensures SmoothPart(setup, node, i, states, events) && states[0] == s && i < |states[|events|].pipes|
    ensures AtRest(states[|events|].tables, states[|events|].pipes[i])
    decreases Weight(s.pipes[i]), PollingCount(s.pipes[i].removers)
  {
    hide Inv, AtRest, Weight, NoneEndless, Possible, Step, Smooth;
    if AtRest(s.tables, s.pipes[i]) {
      states, events := [s], [];
    } else {
      var e, s' := NextSmooth(setup, node, s, i);
      var states1, events1 := DrivenToRest(setup, node, s', i);
      states, events := [s] + states1, [PipeStep(i, e)] + events1;
      forall k | 0 <= k < |events| ensures Leads(setup, states[k], events[k], states[k + 1]) {
        if k > 0 {
          assert Leads(setup, states1[k - 1], events1[k - 1], states1[k]);
        }
      }
    }
  }

  lemma NextSmooth(setup: Setup, node: Node, s: State, i: nat) returns (e: PipeEvent, s': State)
    requires Inv(s) && Working(setup)
    requires i < |s.pipes| && s.pipes[i].workers != [] && NoneEndless(s.pipes[i]) && !AtRest(s.tables, s.pipes[i])
    ensures Leads(setup, s, PipeStep(i, e), s') && Smooth(s.pipes[i], e, node)
    ensures Inv(s') && i < |s'.pipes| && s'.pipes[i].workers != [] && NoneEndless(s'.pipes[i])
    ensures var p, p' := s.pipes[i], s'.pipes[i];
            Weight(p') < Weight(p) || (Weight(p') == Weight(p) && PollingCount(p'.removers) < PollingCount(p.removers))
  {
    hide AtRest, Weight, NoneEndless, Enabled, NextPipe, TablesAfter;
    assert PipeOk(s.tables, s.pipes[i]);
    e := SomethingMoves(s.tables, s.pipes[i], CfgOf(setup, s.pipes[i]), node);
    s' := Step(s, setup, PipeStep(i, e));
    StepKeepsInv(s, setup, PipeStep(i, e));
    WeightFalls(s.tables, s.pipes[i], CfgOf(setup, s.pipes[i]), e);
    StepKeepsNoneEndless(s.tables, s.pipes[i], CfgOf(setup, s.pipes[i]), e);
    WorkersStay(s.tables, s.pipes[i], CfgOf(setup, s.pipes[i]), e);
  }

  lemma WorkersStay(t: Tables, p: Pipe, cfg: Config, e: PipeEvent)
    requires Enabled(t, p, cfg, e)
    ensures |NextPipe(t, p, cfg, e).workers| == |p.workers|
  {
    hide Execute, Prepare;
  }

  /**
   No deadlock: every run can be continued, by fault-free steps of any one pipe that has a worker and no endless range,
   whatever the node answers, so that this pipe comes to rest.
   */
  lemma RunComesToRest(setup: Setup, node: Node, states: seq<State>, events: seq<Event>, i: nat)
    returns (states': seq<State>, events': seq<Event>)
    requires Run(setup, states, events) && Working(setup)
    requires var s := states[|events|];
             i < |s.pipes| && s.pipes[i].workers != [] && NoneEndless(s.pipes[i])
    ensures SmoothPart(setup, node, i, states', events') && states'[0] == states[|events|]
    ensures Run(setup, states + states'[1..], events + events')
    ensures var end := states'[|events'|]; i < |end.pipes| && AtRest(end.tables, end.pipes[i])
  {
    hide Inv, AtRest, NoneEndless, Possible, Step, Smooth, Init;
    RunKeepsInv(setup, states, events, |events|);
    states', events' := DrivenToRest(setup, node, states[|events|], i);
    forall k | 0 <= k < |events| ensures Leads(setup, states[k], events[k], states[k + 1]) {
      assert Follows(setup, states, events, k);
    }
    JoinParts(setup, states, events, states', events');
    PartFromInitIsRun(setup, states + states'[1..], events + events');
  }
}

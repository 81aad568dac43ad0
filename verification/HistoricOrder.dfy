/** Historic processing of many slots: order, repeats and redispatch leave no trace in the tables. */
module HistoricOrder {
  import opened Machine
  import opened Tables
  import opened SlotWrite

  /** A deterministic beacon node: one reply per slot. */
  type Node = Slot -> Answers

  const NO_FAULT := Faults(false, false, 9)

  /** Process the slots one after another; failed slots are the error handler's business. */
  function Historic(t: Tables, cfg: Config, node: Node, slots: seq<Slot>): Tables {
    if slots == [] then t
    else
      var last := slots[|slots| - 1];
      Attempt(Historic(t, cfg, node, slots[..|slots| - 1]), cfg, HistoricArgs(last), node(last), false, NO_FAULT).1
  }

  ghost function SetOf(slots: seq<Slot>): set<Slot> {
    set s | s in slots
  }

  // ---- An attempt as a merge in which existing rows win ----

  predicate WritesBlock(job: Job) {
    !job.got.skipped && job.got.rawBlock != Blank
  }

  predicate WritesState(job: Job) {
    !job.got.skipped && job.got.rawState != Blank
  }

  /** What an attempt would add to empty tables. */
  function Delta(job: Job): Tables {
    Tables(map[SlotKey(job) := SlotRowOf(job)],
           if WritesBlock(job) then map[SlotKey(job) := BlockRowOf(job)] else map[],
           if WritesState(job) then map[StateKey(job) := StateRowOf(job)] else map[],
           (if WritesState(job) then map[MhKey(FinalStateRoot(job)) := job.got.rawState] else map[])
           + (if WritesBlock(job) then map[MhKey(FinalBlockRoot(job)) := job.got.rawBlock] else map[]),
           map[], map[])
  }

  function DeltaOf(cfg: Config, node: Node, s: Slot): Tables {
    match Fetch(cfg, node(s))
    case None => EMPTY
    case Some(got) => Delta(Job(HistoricArgs(s), got))
  }

  function Merge(t: Tables, d: Tables): Tables {
    Tables(d.slots + t.slots, d.signedBlock + t.signedBlock, d.state + t.state, d.blocks + t.blocks,
           t.knownGaps, t.historic)
  }

  lemma InsertIsMerge<K, V>(m: map<K, V>, k: K, v: V)
    ensures InsertMissing(m, k, v) == map[k := v] + m
    ensures map[] + m == m
  {
  }

  lemma TwoInsertsAreMerge<K, V>(m: map<K, V>, k: K, v: V, j: K, w: V)
    ensures InsertMissing(InsertMissing(m, k, v), j, w) == (map[j := w] + map[k := v]) + m
    ensures (map[j := w] + map[]) + m == map[j := w] + m
    ensures (map[] + map[k := v]) + m == map[k := v] + m
    ensures map[] + map[] + m == m
  {
  }

  lemma FullSlotMerges(t: Tables, job: Job)
    ensures FullSlot(t, job) == Merge(t, Delta(job))
  {
    InsertIsMerge(t.slots, SlotKey(job), SlotRowOf(job));
    InsertIsMerge(t.signedBlock, SlotKey(job), BlockRowOf(job));
    InsertIsMerge(t.state, StateKey(job), StateRowOf(job));
    TwoInsertsAreMerge(t.blocks, MhKey(FinalBlockRoot(job)), job.got.rawBlock,
                       MhKey(FinalStateRoot(job)), job.got.rawState);
    InsertIsMerge(t.blocks, MhKey(FinalBlockRoot(job)), job.got.rawBlock);
    InsertIsMerge(t.blocks, MhKey(FinalStateRoot(job)), job.got.rawState);
  }

  lemma MergeNothing(t: Tables)
    ensures Merge(t, EMPTY) == t
  {
    assert EMPTY.slots + t.slots == t.slots;
    assert EMPTY.signedBlock + t.signedBlock == t.signedBlock;
    assert EMPTY.state + t.state == t.state;
    assert EMPTY.blocks + t.blocks == t.blocks;
  }

  lemma AttemptMerges(t: Tables, cfg: Config, node: Node, s: Slot)
    requires !cfg.checkDb
    ensures Attempt(t, cfg, HistoricArgs(s), node(s), false, NO_FAULT).1 == Merge(t, DeltaOf(cfg, node, s))
  {
    match Fetch(cfg, node(s))
    case None => MergeNothing(t);
    case Some(got) =>
      var job := Job(HistoricArgs(s), got);
      assert LinkOf(job) == Unlinked;
      FullSlotMerges(t, job);
  }

  // ---- Folding merges over one map ----

  function MergeAll<K, V>(m: map<K, V>, f: Slot -> map<K, V>, xs: seq<Slot>): map<K, V> {
    if xs == [] then m else f(xs[|xs| - 1]) + MergeAll(m, f, xs[..|xs| - 1])
  }

  /** No two of the slots disagree about a key. */
  ghost predicate Agree<K(!new), V>(f: Slot -> map<K, V>, xs: set<Slot>) {
    forall x, y, k :: x in xs && y in xs && k in f(x) && k in f(y) ==> f(x)[k] == f(y)[k]
  }

  lemma {:induction false} MergeAllEntry<K(!new), V>(m: map<K, V>, f: Slot -> map<K, V>, xs: seq<Slot>, k: K)
    ensures k in MergeAll(m, f, xs) <==> k in m || exists x :: x in xs && k in f(x)
    ensures k in m ==> MergeAll(m, f, xs)[k] == m[k]
    ensures Agree(f, SetOf(xs)) && k !in m ==> forall x :: x in xs && k in f(x) ==> MergeAll(m, f, xs)[k] == f(x)[k]
  {
    if xs != [] {
      var front, last := xs[..|xs| - 1], xs[|xs| - 1];
      assert xs == front + [last];
      MergeAllEntry(m, f, front, k);
      assert forall x :: x in xs <==> x in front || x == last;
      assert SetOf(front) <= SetOf(xs);
      assert Agree(f, SetOf(xs)) ==> Agree(f, SetOf(front));
      assert last in SetOf(xs);
      if Agree(f, SetOf(xs)) && k !in m {
        forall x | x in xs && k in f(x) ensures MergeAll(m, f, xs)[k] == f(x)[k] {
          assert x in SetOf(xs);
          if k in MergeAll(m, f, front) {
            var y :| y in front && k in f(y);
            assert y in SetOf(xs);
          }
        }
      }
    }
  }

  lemma MergeAllBySet<K(!new), V>(m: map<K, V>, f: Slot -> map<K, V>, xs: seq<Slot>, ys: seq<Slot>)
    requires SetOf(xs) == SetOf(ys) && Agree(f, SetOf(xs))
    ensures MergeAll(m, f, xs) == MergeAll(m, f, ys)
  {
    var a, b := MergeAll(m, f, xs), MergeAll(m, f, ys);
    forall k ensures (k in a <==> k in b) && (k in a ==> a[k] == b[k]) {
      MergeAllEntry(m, f, xs, k);
      MergeAllEntry(m, f, ys, k);
      forall x ensures x in xs <==> x in ys {
        assert x in SetOf(xs) <==> x in SetOf(ys);
      }
    }
  }

  function SlotRowsOf(cfg: Config, node: Node): Slot -> map<(Slot, Root), SlotRow> {
    (s: Slot) => DeltaOf(cfg, node, s).slots
  }

  function SignedBlocksOf(cfg: Config, node: Node): Slot -> map<(Slot, Root), BlockRow> {
    (s: Slot) => DeltaOf(cfg, node, s).signedBlock
  }

  function StatesOf(cfg: Config, node: Node): Slot -> map<(Slot, Root), StateRow> {
    (s: Slot) => DeltaOf(cfg, node, s).state
  }

  function BytesOf(cfg: Config, node: Node): Slot -> map<MhKey, Bytes> {
    (s: Slot) => DeltaOf(cfg, node, s).blocks
  }

  lemma {:induction false} HistoricIsMerge(t: Tables, cfg: Config, node: Node, xs: seq<Slot>)
    requires !cfg.checkDb
    ensures Historic(t, cfg, node, xs) ==
            Tables(MergeAll(t.slots, SlotRowsOf(cfg, node), xs),
                   MergeAll(t.signedBlock, SignedBlocksOf(cfg, node), xs),
                   MergeAll(t.state, StatesOf(cfg, node), xs),
                   MergeAll(t.blocks, BytesOf(cfg, node), xs),
                   t.knownGaps, t.historic)
  {
    if xs != [] {
      var front, last := xs[..|xs| - 1], xs[|xs| - 1];
      HistoricIsMerge(t, cfg, node, front);
      AttemptMerges(Historic(t, cfg, node, front), cfg, node, last);
    }
  }

  /** Rows keyed by slot never clash between different slots. */
  lemma SlotKeyedRowsAgree(cfg: Config, node: Node, xs: set<Slot>)
    ensures Agree(SlotRowsOf(cfg, node), xs)
    ensures Agree(SignedBlocksOf(cfg, node), xs)
    ensures Agree(StatesOf(cfg, node), xs)
  {
  }

  // ---- Order does not matter ----

  /** Equal roots carry equal bytes among the objects the node returns for these slots. */
  ghost predicate EqualRootsEqualBytes(cfg: Config, node: Node, xs: set<Slot>) {
    Agree(BytesOf(cfg, node), xs)
  }

  /** From any tables, any two orders of these slots, with any repeats, end in the same tables. */
  ghost predicate OrderIrrelevant(cfg: Config, node: Node, s: set<Slot>) {
    forall t, xs, ys :: SetOf(xs) == s && SetOf(ys) == s ==> Historic(t, cfg, node, xs) == Historic(t, cfg, node, ys)
  }

  lemma SameSetSameTables(t: Tables, cfg: Config, node: Node, xs: seq<Slot>, ys: seq<Slot>)
    requires !cfg.checkDb && SetOf(xs) == SetOf(ys) && EqualRootsEqualBytes(cfg, node, SetOf(xs))
    ensures Historic(t, cfg, node, xs) == Historic(t, cfg, node, ys)
  {
    HistoricIsMerge(t, cfg, node, xs);
    HistoricIsMerge(t, cfg, node, ys);
    SlotKeyedRowsAgree(cfg, node, SetOf(xs));
    MergeAllBySet(t.slots, SlotRowsOf(cfg, node), xs, ys);
    MergeAllBySet(t.signedBlock, SignedBlocksOf(cfg, node), xs, ys);
    MergeAllBySet(t.state, StatesOf(cfg, node), xs, ys);
    MergeAllBySet(t.blocks, BytesOf(cfg, node), xs, ys);
  }

  lemma SetOfCons(x: Slot, xs: seq<Slot>)
    ensures SetOf([x] + xs) == {x} + SetOf(xs)
  {
  }

  lemma {:induction false} Enumeration(s: set<Slot>) returns (xs: seq<Slot>)
    ensures SetOf(xs) == s
  {
    if s == {} {
      xs := [];
    } else {
      var x :| x in s;
      var rest := Enumeration(s - {x});
      xs := [x] + rest;
      SetOfCons(x, rest);
    }
  }

  lemma {:induction false} MergeAllKeepsFirst<K(!new), V>(m: map<K, V>, f: Slot -> map<K, V>, xs: seq<Slot>, k: K)
    requires xs != [] && k !in m && k in f(xs[0])
    ensures k in MergeAll(m, f, xs) && MergeAll(m, f, xs)[k] == f(xs[0])[k]
  {
    if |xs| == 1 {
      assert xs[..0] == [];
    } else {
      MergeAllKeepsFirst(m, f, xs[..|xs| - 1], k);
    }
  }

  /** Two slots that disagree about some bytes: whichever comes first decides. */
  lemma OrdersDiffer(cfg: Config, node: Node, s: set<Slot>, x: Slot, y: Slot, k: MhKey)
    returns (xs: seq<Slot>, ys: seq<Slot>)
    requires !cfg.checkDb && x in s && y in s
    requires k in DeltaOf(cfg, node, x).blocks && k in DeltaOf(cfg, node, y).blocks
    requires DeltaOf(cfg, node, x).blocks[k] != DeltaOf(cfg, node, y).blocks[k]
    ensures SetOf(xs) == s == SetOf(ys)
    ensures Historic(EMPTY, cfg, node, xs).blocks != Historic(EMPTY, cfg, node, ys).blocks
  {
    var zs := Enumeration(s);
    xs, ys := [x] + zs, [y] + zs;
    SetOfCons(x, zs);
    SetOfCons(y, zs);
    assert {x} + s == s && {y} + s == s;
    FirstSlotDecides(cfg, node, xs, k);
    FirstSlotDecides(cfg, node, ys, k);
  }

  lemma DisagreementShows(cfg: Config, node: Node, s: set<Slot>, x: Slot, y: Slot, k: MhKey)
    requires !cfg.checkDb && x in s && y in s
    requires k in DeltaOf(cfg, node, x).blocks && k in DeltaOf(cfg, node, y).blocks
    requires DeltaOf(cfg, node, x).blocks[k] != DeltaOf(cfg, node, y).blocks[k]
    ensures !OrderIrrelevant(cfg, node, s)
  {
    var xs, ys := OrdersDiffer(cfg, node, s, x, y, k);
    OrderShows(cfg, node, s, xs, ys);
  }

  lemma OrderShows(cfg: Config, node: Node, s: set<Slot>, xs: seq<Slot>, ys: seq<Slot>)
    requires SetOf(xs) == s && SetOf(ys) == s
    requires Historic(EMPTY, cfg, node, xs).blocks != Historic(EMPTY, cfg, node, ys).blocks
    ensures !OrderIrrelevant(cfg, node, s)
  {
  }

  lemma FirstSlotDecides(cfg: Config, node: Node, xs: seq<Slot>, k: MhKey)
    requires !cfg.checkDb && xs != [] && k in DeltaOf(cfg, node, xs[0]).blocks
    ensures k in Historic(EMPTY, cfg, node, xs).blocks
    ensures Historic(EMPTY, cfg, node, xs).blocks[k] == DeltaOf(cfg, node, xs[0]).blocks[k]
  {
    HistoricIsMerge(EMPTY, cfg, node, xs);
    MergeAllKeepsFirst(EMPTY.blocks, BytesOf(cfg, node), xs, k);
  }

  /** The final tables depend only on the set of slots exactly when equal roots carry equal bytes. */
  lemma OrderIrrelevantIff(cfg: Config, node: Node, s: set<Slot>)
    requires !cfg.checkDb
    ensures OrderIrrelevant(cfg, node, s) <==> EqualRootsEqualBytes(cfg, node, s)
  {
    if EqualRootsEqualBytes(cfg, node, s) {
      forall t, xs, ys | SetOf(xs) == s && SetOf(ys) == s
        ensures Historic(t, cfg, node, xs) == Historic(t, cfg, node, ys)
      {
        SameSetSameTables(t, cfg, node, xs, ys);
      }
    } else {
      var f := BytesOf(cfg, node);
      var x, y, k :| x in s && y in s && k in f(x) && k in f(y) && f(x)[k] != f(y)[k];
      DisagreementShows(cfg, node, s, x, y, k);
    }
  }

  /**
   With block processing off every state is filed under the empty root, so two slots with different states
   already make the result depend on the order.
   */
  lemma StatesOnlyDependsOnOrder(node: Node, x: Slot, y: Slot)
    requires node(x).state.StateOk? && node(x).state.decodes && node(x).state.raw != Blank
    requires node(y).state.StateOk? && node(y).state.decodes && node(y).state.raw != Blank
    requires node(x).state.raw != node(y).state.raw
    ensures !OrderIrrelevant(Config(false, false, true), node, {x, y})
  {
    var cfg := Config(false, false, true);
    DisagreementShows(cfg, node, {x, y}, x, y, MhKey(Blank));
  }

  // ---- The CheckDb shortcut over whole sequences ----

  function Plain(cfg: Config): Config {
    cfg.(checkDb := false)
  }

  /** The slots that the shortcut does not wrongly take for stored. */
  function Sighted(t: Tables, cfg: Config, xs: seq<Slot>): seq<Slot> {
    if xs == [] then []
    else Sighted(t, cfg, xs[..|xs| - 1]) + if Blind(t, cfg, xs[|xs| - 1]) then [] else [xs[|xs| - 1]]
  }

  lemma {:induction false} SightedSet(t: Tables, cfg: Config, xs: seq<Slot>, x: Slot)
    ensures x in Sighted(t, cfg, xs) <==> x in xs && !Blind(t, cfg, x)
  {
    if xs != [] {
      assert xs == xs[..|xs| - 1] + [xs[|xs| - 1]];
      SightedSet(t, cfg, xs[..|xs| - 1], x);
    }
  }

  lemma SightedNext(t: Tables, cfg: Config, xs: seq<Slot>, x: Slot)
    ensures Sighted(t, cfg, xs + [x]) == if Blind(t, cfg, x) then Sighted(t, cfg, xs) else Sighted(t, cfg, xs) + [x]
  {
    assert (xs + [x])[..|xs|] == xs;
  }

  lemma HistoricNext(t: Tables, cfg: Config, node: Node, xs: seq<Slot>, x: Slot)
    ensures Historic(t, cfg, node, xs + [x]) ==
            Attempt(Historic(t, cfg, node, xs), cfg, HistoricArgs(x), node(x), false, NO_FAULT).1
  {
    assert (xs + [x])[..|xs|] == xs;
  }

  lemma {:induction false} AllSighted(t: Tables, cfg: Config, xs: seq<Slot>)
    requires forall x :: x in xs ==> !Blind(t, cfg, x)
    ensures Sighted(t, cfg, xs) == xs
  {
    if xs != [] {
      AllSighted(t, cfg, xs[..|xs| - 1]);
    }
  }

  /** The same slots are blind in both. */
  ghost predicate SameBlind(t: Tables, t': Tables, cfg: Config) {
    forall x: Slot :: Blind(t', cfg, x) <==> Blind(t, cfg, x)
  }

  lemma AttemptSkipsBlind(t: Tables, cfg: Config, node: Node, x: Slot)
    requires Integrity(t) && (cfg.blocks || cfg.states)
    ensures var t' := Attempt(t, cfg, HistoricArgs(x), node(x), false, NO_FAULT).1;
            && t' == (if Blind(t, cfg, x) then t
                      else Attempt(t, Plain(cfg), HistoricArgs(x), node(x), false, NO_FAULT).1)
            && Integrity(t') && SameBlind(t, t', cfg)
  {
    AttemptIsAtomic(t, cfg, HistoricArgs(x), node(x), false, NO_FAULT);
    if Fetch(cfg, node(x)).Some? {
      var got := Fetch(cfg, node(x)).value;
      FaultlessHistoricAttempt(t, cfg, x, node(x), NO_FAULT);
      if Blind(t, cfg, x) {
        BlindIsStored(t, cfg, x, got, node(x));
      } else {
        if cfg.checkDb {
          CheckDbRefinesFullWrite(t, cfg, x, node(x), NO_FAULT);
          assert cfg.(checkDb := true) == cfg;
        }
        forall y: Slot ensures Blind(Committed(t, Job(HistoricArgs(x), got)), cfg, y) <==> Blind(t, cfg, y) {
          CommitKeepsBlind(t, cfg, x, got, node(x), y);
        }
      }
    }
  }

  /** With the shortcut a sequence leaves what its sighted slots leave without it; no slot becomes blind or sighted. */
  lemma {:induction false} HistoricSkipsBlind(t: Tables, cfg: Config, node: Node, xs: seq<Slot>)
    requires Integrity(t) && (cfg.blocks || cfg.states)
    ensures var t' := Historic(t, cfg, node, xs);
            && t' == Historic(t, Plain(cfg), node, Sighted(t, cfg, xs))
            && Integrity(t') && SameBlind(t, t', cfg)
  {
    hide Attempt, Blind;
    if xs != [] {
      var front, last := xs[..|xs| - 1], xs[|xs| - 1];
      HistoricSkipsBlind(t, cfg, node, front);
      AttemptSkipsBlind(Historic(t, cfg, node, front), cfg, node, last);
      assert xs == front + [last];
      SightedNext(t, cfg, front, last);
      HistoricNext(t, Plain(cfg), node, Sighted(t, cfg, front), last);
    }
  }

  /** Leaving out slots without a usable reply changes nothing. */
  lemma {:induction false} FetchedAreEnough(t: Tables, cfg: Config, node: Node, xs: seq<Slot>)
    requires Integrity(t) && (cfg.blocks || cfg.states)
    requires forall x :: x in xs && Blind(t, cfg, x) ==> Fetch(cfg, node(x)).None?
    ensures Historic(t, Plain(cfg), node, Sighted(t, cfg, xs)) == Historic(t, Plain(cfg), node, xs)
  {
    hide Blind;
    if xs != [] {
      var front, last := xs[..|xs| - 1], xs[|xs| - 1];
      FetchedAreEnough(t, cfg, node, front);
      assert last in xs;
      assert Fetch(Plain(cfg), node(last)) == Fetch(cfg, node(last));
      assert xs == front + [last];
      SightedNext(t, cfg, front, last);
      HistoricNext(t, Plain(cfg), node, Sighted(t, cfg, front), last);
    }
  }

  /** Without the shortcut every slot with a usable reply ends up in the slots table. */
  lemma PlainStores(t: Tables, cfg: Config, node: Node, xs: seq<Slot>, x: Slot)
    requires !cfg.checkDb && x in xs && Fetch(cfg, node(x)).Some?
    ensures SlotKey(Job(HistoricArgs(x), Fetch(cfg, node(x)).value)) in Historic(t, cfg, node, xs).slots
  {
    HistoricIsMerge(t, cfg, node, xs);
    MergeAllEntry(t.slots, SlotRowsOf(cfg, node), xs, SlotKey(Job(HistoricArgs(x), Fetch(cfg, node(x)).value)));
  }

  lemma BlindSlotShows(t: Tables, t': Tables, cfg: Config, node: Node, xs: seq<Slot>, x: Slot)
    requires x in xs && Fetch(cfg, node(x)).Some? && Blind(t', cfg, x)
    ensures Historic(t, Plain(cfg), node, xs).slots != t'.slots
  {
    assert Fetch(Plain(cfg), node(x)) == Fetch(cfg, node(x));
    PlainStores(t, Plain(cfg), node, xs, x);
  }

  /**
   Exactly when the CheckDb shortcut does not change what a whole sequence leaves: blocks are processed too, or no
   slot with a usable reply has a bare state row without a bare slots row at the start.
   */
  lemma HistoricIgnoresCheckDbIff(t: Tables, cfg: Config, node: Node, xs: seq<Slot>)
    requires Integrity(t) && (cfg.blocks || cfg.states)
    ensures Historic(t, cfg.(checkDb := true), node, xs) == Historic(t, cfg.(checkDb := false), node, xs)
            <==> !OnlyStates(cfg) || forall x :: x in xs && Fetch(cfg, node(x)).Some? ==> BareStateBacked(t, x)
  {
    var with := cfg.(checkDb := true);
    assert Plain(with) == cfg.(checkDb := false);
    assert forall x :: Fetch(with, node(x)) == Fetch(cfg, node(x));
    HistoricSkipsBlind(t, with, node, xs);
    if !OnlyStates(cfg) || forall x :: x in xs && Fetch(cfg, node(x)).Some? ==> BareStateBacked(t, x) {
      FetchedAreEnough(t, with, node, xs);
    } else {
      var x :| x in xs && Fetch(cfg, node(x)).Some? && !BareStateBacked(t, x);
      assert Blind(t, with, x);
      BlindSlotShows(t, Historic(t, with, node, xs), with, node, xs, x);
    }
  }
}

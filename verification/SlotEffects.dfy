/** What an attempt leaves in the tables, said of its arguments, the node's reply and the tables before it alone. */
module SlotEffects {
  import opened Machine
  import opened Tables
  import opened KnownGaps
  import opened Reorgs
  import opened SlotWrite

  /** The row is filed under its key unless one is there; nothing else changes. */
  ghost predicate Filed<K(!new), V>(m: map<K, V>, m': map<K, V>, key: K, row: V) {
    && (forall k :: k in m' <==> k in m || k == key)
    && (forall k :: k in m ==> m'[k] == m[k])
    && (key !in m ==> m'[key] == row)
  }

  /** The slot's row under the root becomes proposed and its other rows forked; nothing else changes. */
  ghost predicate SlotSettled(slots: SlotTable, slots': SlotTable, slot: Slot, root: Root) {
    && (forall k :: k in slots' <==> k in slots)
    && (forall k :: k in slots ==>
          slots'[k] == if k.0 != slot then slots[k]
                       else SlotRow(slots[k].epoch, slots[k].stateRoot, if k.1 == root then Proposed else Forked))
  }

  /** A gap row as it is written: free, at the default priority, with its error and the step that recorded it. */
  predicate FreshGap(row: WorkRow, error: Text, process: Process) {
    && !row.checkedOut && row.checkedOutBy == None && row.priority == 0 && row.reprocessingError == Blank
    && row.entryError == error && row.entryProcess == Some(process)
  }

  /** The gap of one slot is recorded unless it was; nothing else changes. */
  ghost predicate OneSlotGap(w: Work, w': Work, slot: Slot, error: Text, process: Process) {
    && (forall k :: k in w' <==> k in w || k == Range(slot, slot))
    && (forall k :: k in w ==> w'[k] == w[k])
    && (Range(slot, slot) !in w ==> FreshGap(w'[Range(slot, slot)], error, process))
  }

  const NO_PROPOSED_ROW := Text("Unable to find properly proposed row in DB")

  /** What a reorg to this root does. */
  ghost predicate Reorganized(t: Tables, t': Tables, slot: Slot, root: Root) {
    && SlotSettled(t.slots, t'.slots, slot, root)
    && (if (slot, root) in t.slots then t'.knownGaps == t.knownGaps
        else OneSlotGap(t.knownGaps, t'.knownGaps, slot, NO_PROPOSED_ROW, ReorgStep))
    && t' == t.(slots := t'.slots, knownGaps := t'.knownGaps)
  }

  lemma ReorgReorganizes(t: Tables, slot: Slot, root: Root)
    ensures Reorganized(t, Reorg(t, slot, root), slot, root)
  {
    ReorgReforks(t, slot, root);
  }

  // ---- A slot with a block ----

  /** The slots a committed block's rows are filed in, before the check of the previous slot. */
  lemma BlockIsFiled(t: Tables, args: Args, b: Block, raw: Bytes, rawState: Bytes, root: Root, stateRoot: Root)
    requires root == if args.blockRoot != Blank then args.blockRoot else b.root
    requires stateRoot == if args.stateRoot != Blank then args.stateRoot else b.stateRoot
    ensures var t' := FullSlot(t, Job(args, Fetched(false, Some(b), raw, rawState)));
            && Filed(t.slots, t'.slots, (args.slot, root), SlotRow(args.slot / 32, stateRoot, Proposed))
            && (if raw == Blank then t'.signedBlock == t.signedBlock
                else Filed(t.signedBlock, t'.signedBlock, (args.slot, root),
                           BlockRow(b.parent, b.eth1, MhKey(root),
                                    if b.payload.Some? && b.payload.value.blockNumber != 0 then b.payload else None)))
            && (if rawState == Blank then t'.state == t.state
                else Filed(t.state, t'.state, (args.slot, stateRoot), StateRow(MhKey(stateRoot))))
            && BytesFiled(t.blocks, t'.blocks, root, raw, stateRoot, rawState)
            && t' == t.(slots := t'.slots, signedBlock := t'.signedBlock, state := t'.state, blocks := t'.blocks)
  {
    hide InsertMissing, Filed, BytesFiled;
    var job := Job(args, Fetched(false, Some(b), raw, rawState));
    InsertFiles(t.slots, SlotKey(job), SlotRowOf(job));
    InsertFiles(t.signedBlock, SlotKey(job), BlockRowOf(job));
    InsertFiles(t.state, StateKey(job), StateRowOf(job));
    BytesAreFiled(t.blocks, root, raw, stateRoot, rawState);
  }

  lemma InsertFiles<K(!new), V>(m: map<K, V>, k: K, v: V)
    ensures Filed(m, InsertMissing(m, k, v), k, v)
  {
  }

  lemma BytesAreFiled(m: map<MhKey, Bytes>, root: Root, raw: Bytes, stateRoot: Root, rawState: Bytes)
    ensures var withBlock := if raw == Blank then m else InsertMissing(m, MhKey(root), raw);
            var withBoth :=
              if rawState == Blank then withBlock else InsertMissing(withBlock, MhKey(stateRoot), rawState);
            BytesFiled(m, withBoth, root, raw, stateRoot, rawState)
  {
  }

  /** The block's bytes, then the state's, each unless they are empty or their key is taken. */
  ghost predicate BytesFiled(m: map<MhKey, Bytes>, m': map<MhKey, Bytes>, root: Root, raw: Bytes, stateRoot: Root,
                             rawState: Bytes) {
    && (forall k :: k in m' <==>
          k in m || (k == MhKey(root) && raw != Blank) || (k == MhKey(stateRoot) && rawState != Blank))
    && (forall k :: k in m ==> m'[k] == m[k])
    && (MhKey(root) !in m && raw != Blank ==> m'[MhKey(root)] == raw)
    && (MhKey(stateRoot) !in m && rawState != Blank && (stateRoot != root || raw == Blank) ==>
          m'[MhKey(stateRoot)] == rawState)
  }

  /** The attempt has something to write: the CheckDb test is off or finds one of the rows missing. */
  predicate SomethingMissing(t: Tables, cfg: Config, slot: Slot, root: Root, stateRoot: Root) {
    || !cfg.checkDb
    || (cfg.blocks && (slot, root) !in t.signedBlock)
    || (cfg.states && (slot, stateRoot) !in t.state)
  }

  /** A reply that gives the slot a block, and a state if one is asked for. */
  predicate BlockReply(cfg: Config, a: Answers, raw: Bytes, b: Block) {
    && cfg.blocks && a.block == BlockOk(raw, Some(b))
    && (cfg.states ==> a.state.StateOk? && a.state.decodes)
  }

  function RawState(cfg: Config, a: Answers): Bytes {
    if cfg.states && a.state.StateOk? then a.state.raw else Blank
  }

  /** A successful attempt with something to write commits these fetched fields. */
  lemma BlockAttemptCommits(t: Tables, cfg: Config, args: Args, a: Answers, faults: Faults, raw: Bytes, b: Block,
                            root: Root, stateRoot: Root)
    requires Attempt(t, cfg, args, a, false, faults).0 == Done && BlockReply(cfg, a, raw, b)
    requires root == if args.blockRoot != Blank then args.blockRoot else b.root
    requires stateRoot == if args.stateRoot != Blank then args.stateRoot else b.stateRoot
    requires SomethingMissing(t, cfg, args.slot, root, stateRoot)
    ensures Attempt(t, cfg, args, a, false, faults).1 ==
            Committed(t, Job(args, Fetched(false, Some(b), raw, RawState(cfg, a))))
  {
    hide Committed, SlotStatements, CheckStatements, FullSlot;
  }

  /**
   A historic slot with a block: after a successful attempt that had something to write all its rows are there, under
   the block's own root and its state root, with its parent, eth1 hash, payload and bytes; rows that were there win.
   */
  lemma HistoricBlockIsStored(t: Tables, cfg: Config, slot: Slot, a: Answers, faults: Faults, raw: Bytes, b: Block)
    requires Attempt(t, cfg, HistoricArgs(slot), a, false, faults).0 == Done && BlockReply(cfg, a, raw, b)
    requires SomethingMissing(t, cfg, slot, b.root, b.stateRoot)
    ensures var t', rawState := Attempt(t, cfg, HistoricArgs(slot), a, false, faults).1, RawState(cfg, a);
            && Filed(t.slots, t'.slots, (slot, b.root), SlotRow(slot / 32, b.stateRoot, Proposed))
            && (raw != Blank ==>
                  Filed(t.signedBlock, t'.signedBlock, (slot, b.root),
                        BlockRow(b.parent, b.eth1, MhKey(b.root),
                                 if b.payload.Some? && b.payload.value.blockNumber != 0 then b.payload else None)))
            && (rawState != Blank ==> Filed(t.state, t'.state, (slot, b.stateRoot), StateRow(MhKey(b.stateRoot))))
            && BytesFiled(t.blocks, t'.blocks, b.root, raw, b.stateRoot, rawState)
            && t'.knownGaps == t.knownGaps && t'.historic == t.historic
  {
    hide FullSlot, Execute, Prepare;
    var args, rawState := HistoricArgs(slot), RawState(cfg, a);
    BlockAttemptCommits(t, cfg, args, a, faults, raw, b, b.root, b.stateRoot);
    NotChecked(t, Job(args, Fetched(false, Some(b), raw, rawState)));
    BlockIsFiled(t, args, b, raw, rawState, b.root, b.stateRoot);
  }

  /**
   A head with a block: its rows are filed under the message's roots, where the message gives them. The statuses and
   gaps are the business of the check of the previous slot.
   */
  lemma HeadBlockIsStored(t: Tables, cfg: Config, args: Args, a: Answers, faults: Faults, raw: Bytes, b: Block)
    requires Attempt(t, cfg, args, a, false, faults).0 == Done && BlockReply(cfg, a, raw, b)
    requires args.blockRoot != Blank && args.stateRoot != Blank
    requires SomethingMissing(t, cfg, args.slot, args.blockRoot, args.stateRoot)
    ensures var t', rawState := Attempt(t, cfg, args, a, false, faults).1, RawState(cfg, a);
            && (forall k :: k in t'.slots <==> k in t.slots || k == (args.slot, args.blockRoot))
            && (forall k :: k in t.slots ==>
                  t'.slots[k].epoch == t.slots[k].epoch && t'.slots[k].stateRoot == t.slots[k].stateRoot)
            && ((args.slot, args.blockRoot) !in t.slots ==>
                  t'.slots[(args.slot, args.blockRoot)] == SlotRow(args.slot / 32, args.stateRoot, Proposed))
            && (raw != Blank ==>
                  Filed(t.signedBlock, t'.signedBlock, (args.slot, args.blockRoot),
                        BlockRow(b.parent, b.eth1, MhKey(args.blockRoot),
                                 if b.payload.Some? && b.payload.value.blockNumber != 0 then b.payload else None)))
            && (rawState != Blank ==>
                  Filed(t.state, t'.state, (args.slot, args.stateRoot), StateRow(MhKey(args.stateRoot))))
            && BytesFiled(t.blocks, t'.blocks, args.blockRoot, raw, args.stateRoot, rawState)
            && t'.historic == t.historic
  {
    hide FullSlot, Execute, Prepare, Committed, CheckPrevious;
    var rawState := RawState(cfg, a);
    var job := Job(args, Fetched(false, Some(b), raw, rawState));
    BlockAttemptCommits(t, cfg, args, a, faults, raw, b, args.blockRoot, args.stateRoot);
    BlockIsFiled(t, args, b, raw, rawState, args.blockRoot, args.stateRoot);
    CommittedIsChecked(t, job);
    CheckPreviousFrame(FullSlot(t, job), job);
    CommittedStatuses(t, job);
  }

  lemma CommittedIsChecked(t: Tables, job: Job)
    ensures Committed(t, job) == CheckPrevious(FullSlot(t, job), job)
  {
  }

  /** The fork check never touches a row's epoch or state root, and leaves the head's own row proposed. */
  lemma CommittedStatuses(t: Tables, job: Job)
    ensures var slots, slots' := FullSlot(t, job).slots, Committed(t, job).slots;
            && (forall k :: k in slots' <==> k in slots)
            && (forall k :: k in slots ==>
                  slots'[k].epoch == slots[k].epoch && slots'[k].stateRoot == slots[k].stateRoot)
            && (forall k :: k in slots && k == (job.args.slot, job.args.blockRoot) && slots[k].status == Proposed ==>
                  slots'[k].status == Proposed)
  {
    CommittedSlots(t, job);
    FullSlotSlots(t, job);
  }

  // ---- Slots without a block ----

  /** A skipped slot: one slots row under the empty root, and nothing else. */
  lemma SkippedSlotIsStored(t: Tables, cfg: Config, args: Args, a: Answers, faults: Faults)
    requires Attempt(t, cfg, args, a, false, faults).0 == Done
    requires cfg.blocks && (a.block.NotFound? || a.block.OtherSuccess?)
    requires SomethingMissing(t, cfg, args.slot, Blank, Blank)
    ensures var t' := Attempt(t, cfg, args, a, false, faults).1;
            && t' == t.(slots := t'.slots)
            && Filed(t.slots, t'.slots, (args.slot, Blank), SlotRow(args.slot / 32, Blank, Skipped))
  {
  }

  /** With block processing off: slots row and state under the message's roots, which are empty for historic slots. */
  lemma BareSlotIsStored(t: Tables, cfg: Config, args: Args, a: Answers, faults: Faults)
    requires Attempt(t, cfg, args, a, false, faults).0 == Done
    requires !cfg.blocks && (cfg.states ==> a.state.StateOk? && a.state.decodes)
    requires SomethingMissing(t, cfg, args.slot, args.blockRoot, args.stateRoot)
    ensures var t', rawState := Attempt(t, cfg, args, a, false, faults).1, RawState(cfg, a);
            && t' == t.(slots := t'.slots, state := t'.state, blocks := t'.blocks)
            && Filed(t.slots, t'.slots, (args.slot, args.blockRoot), SlotRow(args.slot / 32, args.stateRoot, Proposed))
            && (if rawState == Blank then t'.state == t.state && t'.blocks == t.blocks
                else Filed(t.state, t'.state, (args.slot, args.stateRoot), StateRow(MhKey(args.stateRoot)))
                     && Filed(t.blocks, t'.blocks, MhKey(args.stateRoot), rawState))
  {
  }

  // ---- Attempts that write nothing ----

  /** Exactly the replies an attempt cannot use: no decodable state where one is asked for, or no usable block reply. */
  predicate Unusable(cfg: Config, a: Answers) {
    || (cfg.states && (a.state.StateError? || !a.state.decodes))
    || (cfg.blocks && (a.block.BlockError? || (a.block.BlockOk? && a.block.decoded.None?)))
  }

  /** Why an attempt fails, for every reply and fault: the first thing that goes wrong names the error. */
  lemma FailuresAreNamed(t: Tables, cfg: Config, args: Args, a: Answers, faults: Faults)
    ensures var (outcome, t') := Attempt(t, cfg, args, a, false, faults);
            && (outcome != Done ==> t' == t)
            && (Unusable(cfg, a) ==> outcome == Failed(ProcessSlotStep))
            && (outcome == Failed(CheckDbStep) <==>
                  !Unusable(cfg, a) && cfg.checkDb && faults.check && (cfg.blocks || cfg.states))
            && (outcome == Failed(CommitStep) <==>
                  outcome != Done
                  && Attempt(t, cfg, args, a, false, faults.(statements := faults.statements + 1)).0 == Done)
            && (outcome.Failed? ==> outcome.reason in {ProcessSlotStep, CheckDbStep, CommitStep})
            && (faults.begin && outcome == Done ==> cfg.checkDb)
            && (outcome == Failed(ProcessSlotStep) && !Unusable(cfg, a) ==> faults.statements < 5)
            && (outcome == Fatal && !faults.begin ==>
                  args.head && args.previousSlot != 0 && args.previousRoot != Blank && cfg.blocks && a.block.BlockOk?)
  {
    hide Committed, FullSlot, CheckStatements, SlotStatements;
    if !Unusable(cfg, a) {
      var job := Job(args, Fetch(cfg, a).value);
      FewStatements(FullSlot(t, job), job);
    }
  }

  lemma FewStatements(t: Tables, job: Job)
    ensures SlotStatements(job) <= 5
    ensures CheckStatements(t, job) > 0 ==> Checks(job)
  {
    hide ReorgStatements, ChunkRows;
  }

  /** The CheckDb test: a slot whose rows are all there is left alone. */
  lemma StoredBlockIsLeftAlone(t: Tables, cfg: Config, args: Args, a: Answers, faults: Faults, raw: Bytes, b: Block,
                               root: Root, stateRoot: Root)
    requires BlockReply(cfg, a, raw, b) && !SomethingMissing(t, cfg, args.slot, root, stateRoot) && !faults.check
    requires root == if args.blockRoot != Blank then args.blockRoot else b.root
    requires stateRoot == if args.stateRoot != Blank then args.stateRoot else b.stateRoot
    ensures Attempt(t, cfg, args, a, false, faults) == (Done, t)
  {
  }

  lemma SkippedSlotIsLeftAlone(t: Tables, cfg: Config, args: Args, a: Answers, faults: Faults)
    requires cfg.blocks && (a.block.NotFound? || a.block.OtherSuccess?) && !Unusable(cfg, a) && !faults.check
    requires !SomethingMissing(t, cfg, args.slot, Blank, Blank)
    ensures Attempt(t, cfg, args, a, false, faults) == (Done, t)
  {
  }

  // ---- The check of the previous slot ----

  /** The check is made: a head with a block, and a previous head whose slot and root are known. */
  predicate Checks(job: Job) {
    && job.args.head && job.args.previousSlot != 0 && job.args.previousRoot != Blank
    && !job.got.skipped && job.got.block.Some?
  }

  /** Otherwise a commit changes no status and no gap. */
  lemma NotChecked(t: Tables, job: Job)
    requires !Checks(job)
    ensures Committed(t, job) == FullSlot(t, job)
  {
  }

  /** What the check finds, by the slots and the parent alone. */
  lemma LinkByFields(job: Job)
    requires Checks(job)
    ensures var a, parent := job.args, job.got.block.value.parent;
            LinkOf(job) ==
              if a.slot == a.previousSlot then Fork
              else if a.slot < a.previousSlot then Backwards
              else if a.slot != a.previousSlot + 1 then Jump
              else if parent == a.previousRoot then Adjacent
              else Mismatch(parent)
  {
    hide ToSlot;
    if job.args.previousSlot < job.args.slot {
      SlotIsItself(job.args.previousSlot + 1);
    }
  }

  /** The slot after the previous one, whose block names the previous root as its parent: nothing to settle. */
  lemma AdjacentHeadSettlesNothing(t: Tables, job: Job)
    requires Checks(job) && job.args.slot == job.args.previousSlot + 1
    requires job.got.block.value.parent == job.args.previousRoot
    ensures Committed(t, job) == FullSlot(t, job)
  {
    hide FullSlot, LinkOf, ToSlot, Reorg, ChunkRows, InsertGaps;
    LinkByFields(job);
  }

  /** The same, naming another parent: it becomes the previous slot's canonical root, or its absence is recorded. */
  lemma UnknownParentReforksPrevious(t: Tables, job: Job)
    requires Checks(job) && job.args.slot == job.args.previousSlot + 1
    requires job.got.block.value.parent != job.args.previousRoot
    ensures Reorganized(FullSlot(t, job), Committed(t, job), job.args.previousSlot, job.got.block.value.parent)
  {
    hide FullSlot, LinkOf, ToSlot, Reorg, ChunkRows, InsertGaps, Reorganized;
    LinkByFields(job);
    ReorgReorganizes(FullSlot(t, job), job.args.previousSlot, job.got.block.value.parent);
  }

  /** A second head for the slot: it becomes canonical. */
  lemma SameSlotReforks(t: Tables, job: Job)
    requires Checks(job) && job.args.slot == job.args.previousSlot
    ensures Reorganized(FullSlot(t, job), Committed(t, job), job.args.slot, job.args.blockRoot)
  {
    hide FullSlot, LinkOf, ToSlot, Reorg, ChunkRows, InsertGaps, Reorganized;
    LinkByFields(job);
    ReorgReorganizes(FullSlot(t, job), job.args.slot, job.args.blockRoot);
  }

  /** A head below the previous one is only logged. */
  lemma LowerHeadSettlesNothing(t: Tables, job: Job)
    requires Checks(job) && job.args.slot < job.args.previousSlot
    ensures Committed(t, job) == FullSlot(t, job)
  {
    hide FullSlot, LinkOf, ToSlot, Reorg, ChunkRows, InsertGaps;
    LinkByFields(job);
  }

  /** A head that skips slots: exactly the skipped slots become covered, by fresh gaps, if the chunk counter fits. */
  lemma SkippedSlotsAreRecorded(t: Tables, job: Job)
    requires Checks(job) && job.args.previousSlot + 1 < job.args.slot
    ensures var a, full, t' := job.args, FullSlot(t, job), Committed(t, job);
            && t' == full.(knownGaps := t'.knownGaps)
            && (forall x: Slot :: Covered(t'.knownGaps, x) <==>
                  || Covered(t.knownGaps, x)
                  || (CountFits(a.previousSlot + 1, a.slot - 1, a.increment) && a.previousSlot < x < a.slot))
            && (forall k :: k in t.knownGaps ==> k in t'.knownGaps && t'.knownGaps[k] == t.knownGaps[k])
            && (forall k :: k in t'.knownGaps && k !in t.knownGaps ==>
                  FreshGap(t'.knownGaps[k], Text("gaps during head processing"), HeadGaps))
  {
    hide FullSlot, ChunkRows, CountFits, LinkOf, ToSlot, InsertGaps, FreshGap, Reorg;
    var a, full := job.args, FullSlot(t, job);
    var from: Slot, to: Slot := a.previousSlot + 1, a.slot - 1;
    FullSlotFrame(t, job);
    LinkByFields(job);
    SlotIsItself(from);
    SlotIsItself(to);
    GapIsWritten(full.knownGaps, from, to, a.increment, Text("gaps during head processing"), HeadGaps);
    if CountFits(from, to, a.increment) {
      RecordedGapCovers(full.knownGaps, from, to, a.increment, HEAD_GAP);
    } else {
      UnfittingGapAddsNothing(full.knownGaps, from, to, a.increment, HEAD_GAP);
    }
  }

  /** The rows a gap is written with. */
  lemma GapIsWritten(w: Work, start: Slot, end: Slot, inc: Increment, error: Text, process: Process)
    ensures var w' := InsertGaps(w, ChunkRows(start, end, inc), NewGap(error, process));
            && (forall k :: k in w ==> k in w' && w'[k] == w[k])
            && (forall k :: k in w' && k !in w ==> FreshGap(w'[k], error, process))
  {
    hide ChunkRows;
    InsertGapsIsUnion(w, ChunkRows(start, end, inc), NewGap(error, process));
  }
}

/** What processing one slot does to the tables, statement by statement and as a whole. */
module SlotWrite {
  import opened Machine
  import opened Tables
  import opened KnownGaps
  import opened Reorgs

  const SLOTS_PER_EPOCH := 32

  datatype Config = Config(checkDb: bool, blocks: bool, states: bool)

  /** A decoded signed block; the payload is None off Bellatrix. */
  datatype Block = Block(root: HexRoot, parent: HexRoot, stateRoot: HexRoot, eth1: HexRoot, payload: Option<Payload>)

  /** The beacon node's reply to a block query: 200, another 2xx, 404, or any other failure. */
  datatype BlockAnswer = BlockOk(raw: Bytes, decoded: Option<Block>) | OtherSuccess | NotFound | BlockError

  datatype StateAnswer = StateOk(raw: Bytes, decodes: bool) | StateError

  datatype Answers = Answers(block: BlockAnswer, state: StateAnswer)

  /** What processFullSlot is called with; an empty root means "look it up by slot number". */
  datatype Args = Args(slot: Slot, blockRoot: Root, stateRoot: Root,
                       previousSlot: Slot, previousRoot: Root, increment: Increment, head: bool)

  function HistoricArgs(slot: Slot): Args {
    Args(slot, Blank, Blank, 0, Blank, 1, false)
  }

  /** What has been fetched for a slot: the fields of ProcessSlot once both queries are done. */
  datatype Fetched = Fetched(skipped: bool, block: Option<Block>, rawBlock: Bytes, rawState: Bytes)

  datatype Job = Job(args: Args, got: Fetched)

  /** Both queries, each only if its processing is on. None is a query or decoding error. */
  function Fetch(cfg: Config, a: Answers): Option<Fetched> {
    if cfg.states && !(a.state.StateOk? && a.state.decodes) then None
    else
      var rawState := if cfg.states then a.state.raw else Blank;
      if !cfg.blocks then Some(Fetched(false, None, Blank, rawState))
      else match a.block
        case BlockOk(raw, Some(b)) => Some(Fetched(false, Some(b), raw, rawState))
        case BlockOk(_, None) => None
        case OtherSuccess => Some(Fetched(true, None, Blank, rawState))
        case NotFound => Some(Fetched(true, None, Blank, rawState))
        case BlockError => None
  }

  function FinalBlockRoot(job: Job): Root {
    if job.got.skipped then Blank
    else if job.args.blockRoot != Blank then job.args.blockRoot
    else if job.got.block.Some? then job.got.block.value.root
    else Blank
  }

  function FinalStateRoot(job: Job): Root {
    if job.got.skipped then Blank
    else if job.args.stateRoot != Blank then job.args.stateRoot
    else if job.got.block.Some? then job.got.block.value.stateRoot
    else Blank
  }

  function StatusOf(job: Job): Status {
    if job.got.skipped then Skipped else Proposed
  }

  /** A zeroed pre-merge payload is not stored. */
  function StoredPayload(job: Job): Option<Payload> {
    match job.got.block
    case None => None
    case Some(b) => if b.payload.Some? && b.payload.value.blockNumber != 0 then b.payload else None
  }

  function SlotKey(job: Job): (Slot, Root) {
    (job.args.slot, FinalBlockRoot(job))
  }

  function StateKey(job: Job): (Slot, Root) {
    (job.args.slot, FinalStateRoot(job))
  }

  function SlotRowOf(job: Job): SlotRow {
    SlotRow(job.args.slot / SLOTS_PER_EPOCH, FinalStateRoot(job), StatusOf(job))
  }

  function BlockRowOf(job: Job): BlockRow {
    BlockRow(if job.got.block.Some? then job.got.block.value.parent else Blank,
             if job.got.block.Some? && !job.got.skipped then job.got.block.value.eth1 else Blank,
             MhKey(FinalBlockRoot(job)), StoredPayload(job))
  }

  function StateRowOf(job: Job): StateRow {
    StateRow(MhKey(FinalStateRoot(job)))
  }

  // ---- The slot transaction ----

  function WriteBlock(t: Tables, job: Job): Tables {
    if job.got.rawBlock == Blank then t
    else t.(blocks := InsertMissing(t.blocks, MhKey(FinalBlockRoot(job)), job.got.rawBlock),
            signedBlock := InsertMissing(t.signedBlock, SlotKey(job), BlockRowOf(job)))
  }

  function WriteState(t: Tables, job: Job): Tables {
    if job.got.rawState == Blank then t
    else t.(blocks := InsertMissing(t.blocks, MhKey(FinalStateRoot(job)), job.got.rawState),
            state := InsertMissing(t.state, StateKey(job), StateRowOf(job)))
  }

  /** transactFullSlot with no fault. */
  function FullSlot(t: Tables, job: Job): Tables {
    var withSlot := t.(slots := InsertMissing(t.slots, SlotKey(job), SlotRowOf(job)));
    if job.got.skipped then withSlot else WriteState(WriteBlock(withSlot, job), job)
  }

  /** What checkPreviousSlot finds. */
  datatype Link = Unlinked | Fork | Backwards | Jump | Mismatch(parent: Root) | Adjacent

  function LinkOf(job: Job): Link {
    var a := job.args;
    if !a.head || a.previousSlot == 0 || a.previousRoot == Blank || job.got.skipped || job.got.block.None? then Unlinked
    else if a.previousSlot == a.slot then Fork
    else if a.previousSlot > a.slot then Backwards
    else if ToSlot(a.previousSlot + 1) != a.slot then Jump
    else if a.previousRoot != job.got.block.value.parent then Mismatch(job.got.block.value.parent)
    else Adjacent
  }

  const HEAD_GAP := NewGap(Text("gaps during head processing"), HeadGaps)

  function CheckPrevious(t: Tables, job: Job): Tables {
    var a := job.args;
    match LinkOf(job)
    case Fork => Reorg(t, a.slot, a.blockRoot)
    case Jump => t.(knownGaps := InsertGaps(t.knownGaps,
                      ChunkRows(ToSlot(a.previousSlot + 1), ToSlot(a.slot - 1), a.increment), HEAD_GAP))
    case Mismatch(parent) => Reorg(t, a.previousSlot, parent)
    case _ => t
  }

  /** Everything a successful attempt commits. */
  function Committed(t: Tables, job: Job): Tables {
    CheckPrevious(FullSlot(t, job), job)
  }

  lemma FullSlotSlots(t: Tables, job: Job)
    ensures FullSlot(t, job).slots == InsertMissing(t.slots, SlotKey(job), SlotRowOf(job))
  {
    var withSlot := t.(slots := InsertMissing(t.slots, SlotKey(job), SlotRowOf(job)));
    assert WriteBlock(withSlot, job).slots == withSlot.slots;
  }

  /** The slots table after a commit, by what the fork check found. */
  lemma CommittedSlots(t: Tables, job: Job)
    ensures var before := InsertMissing(t.slots, SlotKey(job), SlotRowOf(job));
            Committed(t, job).slots ==
              match LinkOf(job)
              case Fork => Refork(before, job.args.slot, job.args.blockRoot)
              case Mismatch(parent) => Refork(before, job.args.previousSlot, parent)
              case _ => before
  {
    FullSlotSlots(t, job);
    var full := FullSlot(t, job);
    match LinkOf(job)
    case Fork => ReorgReforks(full, job.args.slot, job.args.blockRoot);
    case Mismatch(parent) => ReorgReforks(full, job.args.previousSlot, parent);
    case _ =>
  }

  // ---- Faults ----

  /**
   What goes wrong: the transaction cannot begin, the CheckDb query fails, or the given number of statements
   succeed and the next one fails. A failed statement aborts its transaction, so one number is enough.
   */
  datatype Faults = Faults(begin: bool, check: bool, statements: nat)

  /** Fatal stands for the process ending: log.Fatal, or a panic on a transaction that never began. */
  datatype Outcome = Done | Failed(reason: Process) | Fatal

  function SlotStatements(job: Job): nat {
    1 + if job.got.skipped then 0
        else (if job.got.rawBlock == Blank then 0 else 2) + (if job.got.rawState == Blank then 0 else 2)
  }

  function ReorgStatements(t: Tables, slot: Slot, root: Root): nat {
    if (slot, root) in t.slots then 2 else 3
  }

  function CheckStatements(t: Tables, job: Job): nat {
    var a := job.args;
    match LinkOf(job)
    case Fork => ReorgStatements(t, a.slot, a.blockRoot)
    case Jump => |ChunkRows(ToSlot(a.previousSlot + 1), ToSlot(a.slot - 1), a.increment)|
    case Mismatch(parent) => ReorgStatements(t, a.previousSlot, parent)
    case _ => 0
  }

  /** The transaction under faults. */
  function Execute(t: Tables, job: Job, faults: Faults): (Outcome, Tables) {
    var full := SlotStatements(job);
    var all := full + CheckStatements(FullSlot(t, job), job);
    if faults.begin then (Fatal, t)
    else if faults.statements < full then (Failed(ProcessSlotStep), t)
    else if faults.statements < all then (Fatal, t)
    else if faults.statements == all then (Failed(CommitStep), t)
    else (Done, Committed(t, job))
  }

  /** What happens before the transaction. */
  datatype Prepared = Cancelled | Refused(reason: Process) | AlreadyStored | Ready(job: Job)

  /** The CheckDb test: nothing that is being processed is missing. */
  predicate Stored(t: Tables, cfg: Config, job: Job) {
    && (cfg.blocks ==> SlotKey(job) in t.signedBlock)
    && (cfg.states ==> StateKey(job) in t.state)
  }

  function Prepare(t: Tables, cfg: Config, args: Args, a: Answers, cancelled: bool, checkFails: bool): Prepared {
    if cancelled then Cancelled
    else match Fetch(cfg, a)
      case None => Refused(ProcessSlotStep)
      case Some(got) =>
        var job := Job(args, got);
        if !cfg.checkDb then Ready(job)
        else if checkFails && (cfg.blocks || cfg.states) then Refused(CheckDbStep)
        else if Stored(t, cfg, job) then AlreadyStored
        else Ready(job)
  }

  /** processFullSlot. */
  function Attempt(t: Tables, cfg: Config, args: Args, a: Answers, cancelled: bool, faults: Faults): (Outcome, Tables) {
    match Prepare(t, cfg, args, a, cancelled, faults.check)
    case Cancelled => (Done, t)
    case Refused(reason) => (Failed(reason), t)
    case AlreadyStored => (Done, t)
    case Ready(job) => Execute(t, job, faults)
  }

  // ---- What one attempt guarantees ----

  lemma WriteBlockKeepsIntegrity(t: Tables, job: Job)
    requires Integrity(t) && SlotKey(job) in t.slots
    ensures Integrity(WriteBlock(t, job))
  {
    var t' := WriteBlock(t, job);
    forall j | j in t'.state ensures SlotKnown(t', j.0) {
      var r :| (j.0, r) in t.slots;
      assert (j.0, r) in t'.slots;
    }
  }

  lemma WriteStateKeepsIntegrity(t: Tables, job: Job)
    requires Integrity(t) && SlotKey(job) in t.slots
    ensures Integrity(WriteState(t, job))
  {
    var t' := WriteState(t, job);
    forall j | j in t'.state ensures SlotKnown(t', j.0) {
      if j in t.state {
        var r :| (j.0, r) in t.slots;
        assert (j.0, r) in t'.slots;
      } else {
        assert (j.0, FinalBlockRoot(job)) in t'.slots;
      }
    }
  }

  lemma FullSlotKeepsIntegrity(t: Tables, job: Job)
    requires Integrity(t)
    ensures Integrity(FullSlot(t, job)) && SlotKey(job) in FullSlot(t, job).slots
    ensures t.slots.Keys <= FullSlot(t, job).slots.Keys
  {
    var withSlot := t.(slots := InsertMissing(t.slots, SlotKey(job), SlotRowOf(job)));
    SameKeysKeepIntegrity(t, withSlot);
    if !job.got.skipped {
      WriteBlockKeepsIntegrity(withSlot, job);
      WriteStateKeepsIntegrity(WriteBlock(withSlot, job), job);
    }
  }

  lemma WritesFrame(t: Tables, job: Job)
    ensures WriteBlock(t, job).knownGaps == t.knownGaps && WriteBlock(t, job).historic == t.historic
    ensures WriteState(t, job).knownGaps == t.knownGaps && WriteState(t, job).historic == t.historic
  {
  }

  lemma FullSlotFrame(t: Tables, job: Job)
    ensures FullSlot(t, job).knownGaps == t.knownGaps && FullSlot(t, job).historic == t.historic
  {
    var withSlot := t.(slots := InsertMissing(t.slots, SlotKey(job), SlotRowOf(job)));
    WritesFrame(withSlot, job);
    WritesFrame(WriteBlock(withSlot, job), job);
  }

  /** The fork and gap step rewrites statuses and adds gaps; every other table and every key stays. */
  lemma CheckPreviousFrame(t: Tables, job: Job)
    ensures var t' := CheckPrevious(t, job);
            && t' == t.(slots := t'.slots, knownGaps := t'.knownGaps)
            && t'.slots.Keys == t.slots.Keys
  {
    match LinkOf(job)
    case Fork => ReorgReforks(t, job.args.slot, job.args.blockRoot);
    case Mismatch(parent) => ReorgReforks(t, job.args.previousSlot, parent);
    case _ =>
  }

  lemma SameKeysKeepIntegrity(t: Tables, t': Tables)
    requires Integrity(t) && t' == t.(slots := t'.slots, knownGaps := t'.knownGaps, historic := t'.historic)
    requires t.slots.Keys <= t'.slots.Keys
    ensures Integrity(t')
  {
    forall k | k in t'.state ensures SlotKnown(t', k.0) {
      var r :| (k.0, r) in t.slots;
      assert (k.0, r) in t'.slots;
    }
  }

  /** A commit keeps every slots row, adds the attempt's own, and keeps referential integrity. */
  lemma CommitKeepsIntegrity(t: Tables, job: Job)
    requires Integrity(t)
    ensures Integrity(Committed(t, job)) && SlotKey(job) in Committed(t, job).slots
    ensures t.slots.Keys <= Committed(t, job).slots.Keys
  {
    FullSlotKeepsIntegrity(t, job);
    CheckPreviousFrame(FullSlot(t, job), job);
    SameKeysKeepIntegrity(FullSlot(t, job), Committed(t, job));
  }

  /** "Slot already in the DB" is true: some slots row is for the slot. */
  lemma StoredImpliesKnown(t: Tables, cfg: Config, job: Job)
    requires Integrity(t) && (cfg.blocks || cfg.states) && Stored(t, cfg, job)
    ensures SlotKnown(t, job.args.slot)
  {
    if cfg.blocks {
      assert SlotKey(job) in t.slots;
    }
  }

  /**
   All or nothing: an attempt that does not report success changes no table, and one that does either
   commits slot, block, state, fork statuses and jump gaps together or found nothing to do.
   With some processing on and no cancellation, success means the slot is in the slots table.
   */
  lemma AttemptIsAtomic(t: Tables, cfg: Config, args: Args, a: Answers, cancelled: bool, faults: Faults)
    requires Integrity(t)
    ensures var (outcome, t') := Attempt(t, cfg, args, a, cancelled, faults);
            && Integrity(t')
            && (outcome != Done ==> t' == t)
            && (t' != t ==> exists job ::
                  Prepare(t, cfg, args, a, cancelled, faults.check) == Ready(job) && t' == Committed(t, job))
            && (outcome == Done && !cancelled && (cfg.blocks || cfg.states) ==> SlotKnown(t', args.slot))
  {
    match Prepare(t, cfg, args, a, cancelled, faults.check)
    case Ready(job) =>
      CommitKeepsIntegrity(t, job);
      assert SlotKey(job).0 == args.slot;
    case AlreadyStored =>
      if cfg.blocks || cfg.states {
        StoredImpliesKnown(t, cfg, Job(args, Fetch(cfg, a).value));
      }
    case _ =>
  }

  /** The callers' error handling: a failed attempt is followed by a [slot,slot] gap in its own transaction. */
  function RecordFailure(t: Tables, slot: Slot, inc: Increment, error: Text, reason: Process): Tables {
    t.(knownGaps := InsertGaps(t.knownGaps, ChunkRows(slot, slot, inc), NewGap(error, reason)))
  }

  /** The attempt leaves a trace: the slot is in the slots table or is a known gap of its own. */
  ghost predicate Accounted(t: Tables, slot: Slot) {
    SlotKnown(t, slot) || Range(slot, slot) in t.knownGaps
  }

  /** An attempt together with its caller's handling of a failure. */
  function AttemptAndRecord(t: Tables, cfg: Config, args: Args, a: Answers, cancelled: bool, faults: Faults,
                            error: Text): (Outcome, Tables) {
    var (outcome, t') := Attempt(t, cfg, args, a, cancelled, faults);
    match outcome
    case Failed(reason) => (outcome, RecordFailure(t', args.slot, args.increment, error, reason))
    case _ => (outcome, t')
  }

  /** The two ways in which an attempt reports success without leaving the slot anywhere. */
  predicate SilentlyLost(cfg: Config, cancelled: bool) {
    cancelled || (cfg.checkDb && !cfg.blocks && !cfg.states)
  }

  /**
   Every attempt that neither kills the process nor falls in those two cases ends with the slot accounted for;
   in those two it leaves the tables as they were.
   */
  lemma AttemptAccountsForSlot(t: Tables, cfg: Config, args: Args, a: Answers, cancelled: bool, faults: Faults,
                               error: Text)
    requires Integrity(t)
    requires AttemptAndRecord(t, cfg, args, a, cancelled, faults, error).0 != Fatal
    ensures var t' := AttemptAndRecord(t, cfg, args, a, cancelled, faults, error).1;
            && (Accounted(t', args.slot) <==> !SilentlyLost(cfg, cancelled) || Accounted(t, args.slot))
            && (SilentlyLost(cfg, cancelled) ==> t' == t)
  {
    AttemptIsAtomic(t, cfg, args, a, cancelled, faults);
    ghost var before := Attempt(t, cfg, args, a, cancelled, faults);
    if before.0.Failed? {
      SingleSlotGap(before.1.knownGaps, args.slot, args.increment, NewGap(error, before.0.reason));
    }
    if !cancelled && !cfg.blocks && !cfg.states {
      var got := Fetch(cfg, a).value;
      CommitKeepsIntegrity(t, Job(args, got));
      assert SlotKey(Job(args, got)).0 == args.slot;
    }
  }

  // ---- The CheckDb shortcut ----

  /** A state row stored under the empty root came with a slots row under the empty root. */
  predicate BareStateBacked(t: Tables, slot: Slot) {
    (slot, Blank) in t.state ==> (slot, Blank) in t.slots
  }

  /** Whether the historic CheckDb test is answered by a bare state row alone. */
  predicate OnlyStates(cfg: Config) {
    cfg.states && !cfg.blocks
  }

  /** The CheckDb test calls the slot stored although it has no slots row of its own. */
  predicate Blind(t: Tables, cfg: Config, slot: Slot) {
    cfg.checkDb && OnlyStates(cfg) && !BareStateBacked(t, slot)
  }

  lemma BlindIsStored(t: Tables, cfg: Config, slot: Slot, got: Fetched, a: Answers)
    requires Blind(t, cfg, slot) && Fetch(cfg, a) == Some(got)
    ensures Stored(t, cfg, Job(HistoricArgs(slot), got))
  {
  }

  /** A write whose slots, block and state rows are all there already changes nothing. */
  lemma StoredWriteIsNoOp(t: Tables, cfg: Config, slot: Slot, a: Answers)
    requires Integrity(t) && Fetch(cfg, a).Some?
    requires var job := Job(HistoricArgs(slot), Fetch(cfg, a).value); Stored(t, cfg, job) && SlotKey(job) in t.slots
    ensures var job := Job(HistoricArgs(slot), Fetch(cfg, a).value); Committed(t, job) == t
  {
    var job := Job(HistoricArgs(slot), Fetch(cfg, a).value);
    assert LinkOf(job) == Unlinked;
    assert WriteBlock(t, job) == t;
    assert WriteState(t, job) == t;
  }

  lemma FaultlessHistoricAttempt(t: Tables, cfg: Config, slot: Slot, a: Answers, faults: Faults)
    requires (cfg.blocks || cfg.states) && Fetch(cfg, a).Some?
    requires !faults.begin && !faults.check
    requires faults.statements > SlotStatements(Job(HistoricArgs(slot), Fetch(cfg, a).value))
    ensures var job := Job(HistoricArgs(slot), Fetch(cfg, a).value);
            Attempt(t, cfg, HistoricArgs(slot), a, false, faults)
            == (Done, if cfg.checkDb && Stored(t, cfg, job) then t else Committed(t, job))
  {
    assert LinkOf(Job(HistoricArgs(slot), Fetch(cfg, a).value)) == Unlinked;
  }

  /**
   In historic mode the shortcut and the full write leave the same tables exactly when the shortcut is not
   taken on the strength of a bare state row that has no bare slots row.
   */
  lemma CheckDbRefinesFullWrite(t: Tables, cfg: Config, slot: Slot, a: Answers, faults: Faults)
    requires Integrity(t) && (cfg.blocks || cfg.states) && Fetch(cfg, a).Some?
    requires !faults.begin && !faults.check
    requires faults.statements > SlotStatements(Job(HistoricArgs(slot), Fetch(cfg, a).value))
    ensures Attempt(t, cfg.(checkDb := true), HistoricArgs(slot), a, false, faults)
            == Attempt(t, cfg.(checkDb := false), HistoricArgs(slot), a, false, faults)
            <==> !OnlyStates(cfg) || BareStateBacked(t, slot)
  {
    var job := Job(HistoricArgs(slot), Fetch(cfg, a).value);
    FaultlessHistoricAttempt(t, cfg.(checkDb := true), slot, a, faults);
    FaultlessHistoricAttempt(t, cfg.(checkDb := false), slot, a, faults);
    assert OnlyStates(cfg) ==> SlotKey(job) == StateKey(job) == (slot, Blank);
    if Stored(t, cfg, job) {
      if SlotKey(job) in t.slots {
        StoredWriteIsNoOp(t, cfg, slot, a);
      } else {
        assert !cfg.blocks;
        FullSlotKeys(t, job);
        assert SlotKey(job) in Committed(t, job).slots;
      }
    }
  }

  /** The head message does not give a block root with an empty state root while blocks are not fetched. */
  predicate BareStateOnlyIfBareBlock(job: Job) {
    job.args.stateRoot == Blank && job.got.block.None? && !job.got.skipped ==> job.args.blockRoot == Blank
  }

  lemma BareStateKeyIsSlotKey(job: Job)
    requires BareStateOnlyIfBareBlock(job) && !job.got.skipped && FinalStateRoot(job) == Blank
    ensures FinalBlockRoot(job) == Blank
  {
    if job.got.block.Some? {
      var root: HexRoot := job.got.block.value.stateRoot;
      assert false;
    }
  }

  lemma FullSlotKeys(t: Tables, job: Job)
    ensures FullSlot(t, job).slots.Keys == t.slots.Keys + {SlotKey(job)}
    ensures FullSlot(t, job).state.Keys ==
            t.state.Keys + if job.got.skipped || job.got.rawState == Blank then {} else {StateKey(job)}
  {
    InsertMissingKeys(t.slots, SlotKey(job), SlotRowOf(job));
    InsertMissingKeys(t.state, StateKey(job), StateRowOf(job));
  }

  /** A commit of such a job keeps bare states backed for all slots; every historic job is one. */
  lemma CommitKeepsBareStates(t: Tables, job: Job, slot: Slot)
    requires BareStateBacked(t, slot) && BareStateOnlyIfBareBlock(job)
    ensures BareStateBacked(Committed(t, job), slot)
  {
    var full := FullSlot(t, job);
    CheckPreviousFrame(full, job);
    FullSlotKeys(t, job);
    if (slot, Blank) in full.state && (slot, Blank) !in t.state {
      BareStateKeyIsSlotKey(job);
    }
  }

  /** The commit of a slot that is not blind makes none blind and none sighted. */
  lemma CommitKeepsBlind(t: Tables, cfg: Config, slot: Slot, got: Fetched, a: Answers, x: Slot)
    requires Fetch(cfg, a) == Some(got) && !Blind(t, cfg, slot)
    ensures Blind(Committed(t, Job(HistoricArgs(slot), got)), cfg, x) <==> Blind(t, cfg, x)
  {
    var job := Job(HistoricArgs(slot), got);
    CheckPreviousFrame(FullSlot(t, job), job);
    FullSlotKeys(t, job);
    assert OnlyStates(cfg) ==> SlotKey(job) == StateKey(job) == (slot, Blank);
  }

  /** Such a head message does break the shortcut: its slot is then never given a bare slots row. */
  lemma BareStateHeadBreaksShortcut()
    ensures exists t, cfg, slot, a, faults ::
              && Integrity(t) && OnlyStates(cfg) && Fetch(cfg, a).Some?
              && t == Attempt(EMPTY, cfg, Args(slot, Text("0xb"), Blank, 0, Blank, 1, true), a, false, faults).1
              && Attempt(t, cfg.(checkDb := true), HistoricArgs(slot), a, false, faults)
                 != Attempt(t, cfg.(checkDb := false), HistoricArgs(slot), a, false, faults)
  {
    var cfg := Config(false, false, true);
    var a := Answers(NotFound, StateOk(Text("s"), true));
    var faults := Faults(false, false, 9);
    var head := Args(7, Text("0xb"), Blank, 0, Blank, 1, true);
    var t := Attempt(EMPTY, cfg, head, a, false, faults).1;
    AttemptIsAtomic(EMPTY, cfg, head, a, false, faults);
    var job := Job(head, Fetch(cfg, a).value);
    assert LinkOf(job) == Unlinked;
    assert t == Committed(EMPTY, job);
    assert (7, Blank) in t.state && (7, Blank) !in t.slots;
    CheckDbRefinesFullWrite(t, cfg, 7, a, faults);
  }
}

/** Processing one slot: fetch, check, write, settle forks and jumps, commit. */
module SlotProcessing {
  import opened Machine
  import opened Tables
  import opened KnownGaps
  import opened SlotWrite
  import opened DatabaseWrite

  /** The fields that are filled in while a slot is processed. */
  class ProcessSlot {
    const args: Args
    var status: Option<Status>
    var parentBlockRoot: Root
    var sszSignedBeaconBlock: Bytes
    var fullSignedBeaconBlock: Option<Block>
    var sszBeaconState: Bytes

    constructor (args: Args)
      ensures this.args == args && status == None && parentBlockRoot == Blank
      ensures sszSignedBeaconBlock == Blank && fullSignedBeaconBlock == None && sszBeaconState == Blank
    {
      this.args := args;
      status, parentBlockRoot := None, Blank;
      sszSignedBeaconBlock, fullSignedBeaconBlock, sszBeaconState := Blank, None, Blank;
    }

    /** The object as the specification sees it. */
    ghost function AsJob(): Job
      reads this
    {
      Job(args, Fetched(status == Some(Skipped), fullSignedBeaconBlock, sszSignedBeaconBlock, sszBeaconState))
    }

    ghost predicate Valid()
      reads this
    {
      && (status == None || status == Some(Skipped))
      && (status == Some(Skipped) ==> fullSignedBeaconBlock == None && sszSignedBeaconBlock == Blank)
      && parentBlockRoot == if fullSignedBeaconBlock.Some? then fullSignedBeaconBlock.value.parent else Blank
    }

    /** A 404 or an unusual success is a skipped slot, not an error. */
    method GetSignedBeaconBlock(answer: BlockAnswer) returns (ok: bool)
      requires Valid() && status == None && fullSignedBeaconBlock == None && sszSignedBeaconBlock == Blank
      modifies this`status, this`parentBlockRoot, this`sszSignedBeaconBlock, this`fullSignedBeaconBlock
      ensures ok ==> Valid()
      ensures ok <==> !answer.BlockError? && (answer.BlockOk? ==> answer.decoded.Some?)
      ensures status == Some(Skipped) <==> !ok || answer.NotFound? || answer.OtherSuccess?
      ensures ok && answer.BlockOk? ==>
                fullSignedBeaconBlock == answer.decoded && sszSignedBeaconBlock == answer.raw
    {
      match answer
      case BlockOk(raw, decoded) =>
        if decoded == None {
          status := Some(Skipped);
          return false;
        }
        fullSignedBeaconBlock, sszSignedBeaconBlock := decoded, raw;
        parentBlockRoot := decoded.value.parent;
        ok := true;
      case OtherSuccess =>
        status := Some(Skipped);
        ok := true;
      case NotFound =>
        status := Some(Skipped);
        ok := true;
      case BlockError =>
        status := Some(Skipped);
        ok := false;
    }

    method GetBeaconState(answer: StateAnswer) returns (ok: bool)
      modifies this`sszBeaconState
      ensures ok <==> answer.StateOk? && answer.decodes
      ensures sszBeaconState == if ok then answer.raw else old(sszBeaconState)
    {
      ok := answer.StateOk? && answer.decodes;
      if ok {
        sszBeaconState := answer.raw;
      }
    }

    /** Both queries; together they fetch what the specification says. */
    method FetchAll(cfg: Config, answers: Answers) returns (ok: bool)
      requires Valid() && AsJob() == Job(args, Fetched(false, None, Blank, Blank))
      modifies this
      ensures ok <==> Fetch(cfg, answers).Some?
      ensures ok ==> Valid() && AsJob() == Job(args, Fetch(cfg, answers).value)
    {
      if cfg.states {
        ok := GetBeaconState(answers.state);
        if !ok {
          return;
        }
      }
      ok := true;
      if cfg.blocks {
        ok := GetSignedBeaconBlock(answers.block);
      }
    }

    function ProvideFinalHash(): (r: (Root, Root, Text))
      requires Valid()
      reads this
      ensures r.0 == FinalBlockRoot(AsJob()) && r.1 == FinalStateRoot(AsJob())
      ensures r.2 == BlockRowOf(AsJob()).eth1
    {
      if status == Some(Skipped) then (Blank, Blank, Blank)
      else
        var block := fullSignedBeaconBlock;
        (if args.blockRoot != Blank then args.blockRoot else if block.Some? then block.value.root else Blank,
         if args.stateRoot != Blank then args.stateRoot else if block.Some? then block.value.stateRoot else Blank,
         if block.Some? then block.value.eth1 else Blank)
    }

    function ProvideExecutionPayloadDetails(): (r: Option<Payload>)
      reads this
      ensures r == StoredPayload(AsJob())
      ensures r.Some? ==> r.value.blockNumber != 0
    {
      if fullSignedBeaconBlock == None || fullSignedBeaconBlock.value.payload == None then None
      else if fullSignedBeaconBlock.value.payload.value.blockNumber == 0 then None
      else fullSignedBeaconBlock.value.payload
    }

    method CreateWriteObjects(tx: Tx) returns (dw: DatabaseWriter)
      requires Valid()
      ensures dw.tx == tx && dw.Writes(AsJob())
    {
      var finalStatus := if status.Some? then status.value else Proposed;
      var (blockRoot, stateRoot, eth1) := ProvideFinalHash();
      dw := new DatabaseWriter(tx, args.slot, stateRoot, blockRoot, parentBlockRoot, eth1,
                               ProvideExecutionPayloadDetails(), finalStatus, sszSignedBeaconBlock, sszBeaconState);
    }

    /** Compare the head with the one before it: same slot, jump, or a parent that is not the previous root. */
    method CheckPreviousSlot(tx: Tx) returns (fatal: bool)
      requires Valid() && args.head && args.previousSlot != 0 && args.previousRoot != Blank && status == None
      modifies tx
      ensures fatal <==> old(tx.budget) < CheckStatements(old(tx.view), AsJob())
      ensures tx.budget == if fatal then 0 else old(tx.budget) - CheckStatements(old(tx.view), AsJob())
      ensures !fatal ==> tx.view == CheckPrevious(old(tx.view), AsJob())
    {
      fatal := false;
      if fullSignedBeaconBlock == None {
        return;
      }
      var parentRoot := fullSignedBeaconBlock.value.parent;
      var slot, previousSlot := args.slot, args.previousSlot;
      if previousSlot == slot {
        fatal := TransactReorgs(tx, slot, args.blockRoot);
      } else if previousSlot > slot {
        // only logged
      } else if ToSlot(previousSlot + 1) != slot {
        fatal := TransactKnownGaps(tx, args.increment, ToSlot(previousSlot + 1), ToSlot(slot - 1),
                                   Text("gaps during head processing"), HeadGaps);
      } else if args.previousRoot != parentRoot {
        fatal := TransactReorgs(tx, previousSlot, parentRoot);
      }
    }
  }

  /** The CheckDb test with its own queries. */
  method NothingRequired(db: Database, cfg: Config, ps: ProcessSlot) returns (stored: bool)
    requires ps.Valid()
    ensures stored <==> Stored(db.tables, cfg, ps.AsJob())
  {
    var (blockRoot, stateRoot, _) := ps.ProvideFinalHash();
    var blockRequired, stateRequired := false, false;
    if cfg.blocks {
      blockRequired := (ps.args.slot, blockRoot) !in db.tables.signedBlock;
    }
    if cfg.states {
      stateRequired := (ps.args.slot, stateRoot) !in db.tables.state;
    }
    stored := !blockRequired && !stateRequired;
  }

  /** The transaction of one slot. */
  method WriteSlot(db: Database, ps: ProcessSlot, faults: Faults) returns (outcome: Outcome)
    requires ps.Valid()
    modifies db
    ensures (outcome, db.tables) == Execute(old(db.tables), ps.AsJob(), faults)
  {
    if faults.begin {
      return Fatal;
    }
    ghost var job := ps.AsJob();
    var tx := new Tx.Begin(db, faults.statements);
    var dw := ps.CreateWriteObjects(tx);
    var ok := dw.TransactFullSlot(job);
    if !ok {
      return Failed(ProcessSlotStep);
    }
    var a := ps.args;
    if a.head && a.previousSlot != 0 && a.previousRoot != Blank && ps.status != Some(Skipped) {
      var fatal := ps.CheckPreviousSlot(tx);
      if fatal {
        return Fatal;
      }
    }
    ok := tx.Commit();
    outcome := if ok then Done else Failed(CommitStep);
  }

  /** processFullSlot does to the database exactly what the specification of an attempt says. */
  method ProcessFullSlot(db: Database, cfg: Config, args: Args, answers: Answers, cancelled: bool, faults: Faults)
    returns (outcome: Outcome)
    modifies db
    ensures (outcome, db.tables) == Attempt(old(db.tables), cfg, args, answers, cancelled, faults)
  {
    if cancelled {
      return Done;
    }
    var ps := new ProcessSlot(args);
    var ok := ps.FetchAll(cfg, answers);
    if !ok {
      return Failed(ProcessSlotStep);
    }
    if cfg.checkDb {
      if faults.check && (cfg.blocks || cfg.states) {
        return Failed(CheckDbStep);
      }
      var stored := NothingRequired(db, cfg, ps);
      if stored {
        return Done;
      }
    }
    outcome := WriteSlot(db, ps, faults);
  }

  /**
   processHeadSlot: the start-up gap for the very first head, the attempt, a gap for a failed one. Unless the
   process dies, the head's slot ends up stored or as a gap of its own.
   */
  method ProcessHeadSlot(db: Database, cfg: Config, args: Args, answers: Answers, faults: Faults,
                         maxSlot: Slot, queryFails: bool, startUpBudget: nat, gapBudget: nat, error: Text)
    returns (fatal: bool)
    requires maxSlot == StartUpGap.Highest(db.tables)
    modifies db
    ensures var first := args.previousSlot == 0 && args.previousRoot == Blank;
            var begun := if first then StartUpGap.StartUpGaps(old(db.tables), args.increment, args.slot, maxSlot)
                         else old(db.tables);
            var (outcome, after) := AttemptAndRecord(begun, cfg, args, answers, false, faults, error);
            && (fatal <==> (first && StartUpDies(args.increment, args.slot, maxSlot, queryFails, startUpBudget))
                           || outcome == Fatal || (outcome.Failed? && gapBudget <= 1))
            && (!fatal ==> db.tables == after)
    ensures Integrity(old(db.tables)) && (cfg.blocks || cfg.states) && !fatal ==> Accounted(db.tables, args.slot)
  {
    ghost var before := db.tables;
    if args.previousSlot == 0 && args.previousRoot == Blank {
      fatal := WriteStartUpGaps(db, args.increment, args.slot, maxSlot, queryFails, startUpBudget);
      if fatal {
        return;
      }
    }
    ghost var begun := db.tables;
    assert begun == before.(knownGaps := begun.knownGaps);
    var outcome := ProcessFullSlot(db, cfg, args, answers, false, faults);
    fatal := outcome == Fatal;
    if outcome.Failed? {
      SingleSlotGap(db.tables.knownGaps, args.slot, args.increment, NewGap(error, outcome.reason));
      fatal := WriteKnownGaps(db, args.increment, args.slot, args.slot, error, outcome.reason, gapBudget);
    }
    if Integrity(before) && !fatal && (cfg.blocks || cfg.states) {
      SameKeysKeepIntegrity(before, begun);
      AttemptAccountsForSlot(begun, cfg, args, answers, false, faults, error);
    }
  }
}

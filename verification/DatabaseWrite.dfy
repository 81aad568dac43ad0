/** The statements that write, as the program issues them: transactions, gap chunks, reorgs, the slot write. */
module DatabaseWrite {
  import opened Machine
  import opened Tables
  import opened KnownGaps
  import opened Reorgs
  import opened SlotWrite
  import StartUpGap

  class Database {
    var tables: Tables

    constructor (tables: Tables)
      ensures this.tables == tables
    {
      this.tables := tables;
    }
  }

  /**
   A transaction: a private copy of the tables that is committed or dropped. The budget is how many more
   statements succeed; the one after that fails, and with it everything until the end of the transaction.
   */
  class Tx {
    const db: Database
    var view: Tables
    var budget: nat

    constructor Begin(db: Database, budget: nat)
      ensures this.db == db && view == db.tables && this.budget == budget
    {
      this.db := db;
      view := db.tables;
      this.budget := budget;
    }

    method Exec(result: Tables) returns (ok: bool)
      modifies this
      ensures ok <==> old(budget) > 0
      ensures view == if ok then result else old(view)
      ensures budget == if ok then old(budget) - 1 else 0
    {
      ok := budget > 0;
      if ok {
        view := result;
        budget := budget - 1;
      }
    }

    method Commit() returns (ok: bool)
      modifies db
      ensures ok <==> budget > 0
      ensures db.tables == if ok then view else old(db.tables)
    {
      ok := budget > 0;
      if ok {
        db.tables := view;
      }
    }
  }

  /** upsertKnownGaps; a failure is fatal to the process. */
  method UpsertKnownGaps(tx: Tx, range: Range, row: WorkRow) returns (fatal: bool)
    modifies tx
    ensures fatal <==> old(tx.budget) == 0
    ensures tx.budget == if fatal then 0 else old(tx.budget) - 1
    ensures tx.view == if fatal then old(tx.view)
                       else old(tx.view).(knownGaps := InsertMissing(old(tx.view).knownGaps, range, row))
  {
    var ok := tx.Exec(tx.view.(knownGaps := InsertMissing(tx.view.knownGaps, range, row)));
    fatal := !ok;
  }

  /**
   Cut a gap into rows and upsert each. The rows are those of the specification, which hold exactly the
   gap's slots; the process dies unless there are statements left for all of them.
   */
  method TransactKnownGaps(tx: Tx, inc: Increment, start: Slot, end: Slot, error: Text, process: Process)
    returns (fatal: bool)
    modifies tx
    ensures fatal <==> old(tx.budget) < |ChunkRows(start, end, inc)|
    ensures tx.budget == if fatal then 0 else old(tx.budget) - |ChunkRows(start, end, inc)|
    ensures !fatal ==> tx.view == old(tx.view).(knownGaps :=
                         InsertGaps(old(tx.view).knownGaps, ChunkRows(start, end, inc), NewGap(error, process)))
  {
    ghost var rows := ChunkRows(start, end, inc);
    var row := NewGap(error, process);
    if ToSlot(end - start) <= ToSlot(inc) {
      fatal := UpsertKnownGaps(tx, Range(start, end), row);
      assert rows[..0] == [];
      assert InsertGaps(old(tx.view).knownGaps, [], row) == old(tx.view).knownGaps;
    } else {
      var totalSlots := ToSlot(end - start);
      var chunks: GoInt := ToInt(totalSlots / ToSlot(inc));
      if totalSlots % ToSlot(inc) != 0 {
        chunks := ToInt(chunks + 1);
      }
      assert chunks == ChunkCount(start, end, inc);
      var i := 0;
      while i < chunks
        invariant 0 <= i <= |rows| && i <= old(tx.budget)
        invariant tx.budget == old(tx.budget) - i
        invariant tx.view == old(tx.view).(knownGaps := InsertGaps(old(tx.view).knownGaps, rows[..i], row))
      {
        var tempStart := PlusInt(start, ToInt(i * inc));
        var tempEnd: Slot;
        if i + 1 == chunks {
          tempEnd := end;
        } else {
          tempEnd := PlusInt(start, ToInt((i + 1) * inc));
        }
        assert rows[i] == Range(tempStart, tempEnd);
        fatal := UpsertKnownGaps(tx, Range(tempStart, tempEnd), row);
        if fatal {
          return;
        }
        assert rows[..i + 1][..i] == rows[..i];
        i := i + 1;
      }
      assert rows[..i] == rows;
      fatal := false;
    }
  }

  /** The same in a transaction of its own. */
  method WriteKnownGaps(db: Database, inc: Increment, start: Slot, end: Slot, error: Text, process: Process,
                        budget: nat)
    returns (fatal: bool)
    modifies db
    ensures fatal <==> budget <= |ChunkRows(start, end, inc)|
    ensures fatal ==> db.tables == old(db.tables)
    ensures !fatal ==> db.tables == old(db.tables).(knownGaps :=
                         InsertGaps(old(db.tables).knownGaps, ChunkRows(start, end, inc), NewGap(error, process)))
  {
    var tx := new Tx.Begin(db, budget);
    fatal := TransactKnownGaps(tx, inc, start, end, error, process);
    if !fatal {
      var committed := tx.Commit();
      fatal := !committed;
    }
  }

  /** The query for the highest slot fails, or the gap to be written meets a fault. */
  predicate StartUpDies(inc: Increment, firstSlot: Slot, maxSlot: Slot, queryFails: bool, budget: nat) {
    var before := ToSlot(firstSlot - 1);
    queryFails || (maxSlot < before && budget <= |ChunkRows(if maxSlot == 0 then 0 else maxSlot + 1, before, inc)|)
  }

  /** Record the gap from the highest stored slot to the first head, or end the process. */
  method WriteStartUpGaps(db: Database, inc: Increment, firstSlot: Slot, maxSlot: Slot, queryFails: bool, budget: nat)
    returns (fatal: bool)
    requires maxSlot == StartUpGap.Highest(db.tables)
    modifies db
    ensures fatal <==> StartUpDies(inc, firstSlot, maxSlot, queryFails, budget)
    ensures fatal ==> db.tables == old(db.tables)
    ensures !fatal ==> db.tables == StartUpGap.StartUpGaps(old(db.tables), inc, firstSlot, maxSlot)
  {
    if queryFails {
      return true;
    }
    var before := ToSlot(firstSlot - 1);
    fatal := false;
    if maxSlot != before {
      if maxSlot < before {
        if maxSlot == 0 {
          fatal := WriteKnownGaps(db, inc, maxSlot, before, Blank, StartUp, budget);
        } else {
          fatal := WriteKnownGaps(db, inc, maxSlot + 1, before, Blank, StartUp, budget);
        }
      }
    }
  }

  method UpdateForked(tx: Tx, slot: Slot, root: Root) returns (count: nat, ok: bool)
    modifies tx
    ensures ok <==> old(tx.budget) > 0
    ensures tx.budget == if ok then old(tx.budget) - 1 else 0
    ensures tx.view == if ok then old(tx.view).(slots := MarkForked(old(tx.view).slots, slot, root)) else old(tx.view)
    ensures count == if ok then |set k | k in old(tx.view).slots && k.0 == slot && k.1 != root| else 0
  {
    count := |set k | k in tx.view.slots && k.0 == slot && k.1 != root|;
    ok := tx.Exec(tx.view.(slots := MarkForked(tx.view.slots, slot, root)));
    count := if ok then count else 0;
  }

  method UpdateProposed(tx: Tx, slot: Slot, root: Root) returns (count: nat, ok: bool)
    modifies tx
    ensures ok <==> old(tx.budget) > 0
    ensures tx.budget == if ok then old(tx.budget) - 1 else 0
    ensures tx.view == if ok then old(tx.view).(slots := MarkProposed(old(tx.view).slots, slot, root)) else old(tx.view)
    ensures count == if ok && (slot, root) in old(tx.view).slots then 1 else 0
  {
    count := |set k | k in tx.view.slots && k.0 == slot && k.1 == root|;
    AtMostOneRowProposed(tx.view, slot, root);
    ok := tx.Exec(tx.view.(slots := MarkProposed(tx.view.slots, slot, root)));
    count := if ok then count else 0;
  }

  /**
   Fork the slot's other rows, propose the named one, record a gap if it is absent. A failed update leads to a
   gap insert in the aborted transaction and so to the end of the process. More than one proposed row cannot be.
   */
  method TransactReorgs(tx: Tx, slot: Slot, latestBlockRoot: Root) returns (fatal: bool)
    modifies tx
    ensures fatal <==> old(tx.budget) < ReorgStatements(old(tx.view), slot, latestBlockRoot)
    ensures tx.budget == if fatal then 0 else old(tx.budget) - ReorgStatements(old(tx.view), slot, latestBlockRoot)
    ensures !fatal ==> tx.view == Reorg(old(tx.view), slot, latestBlockRoot)
  {
    ghost var before := tx.view;
    SingleSlotGap(before.knownGaps, slot, 1, MISSING_ROW);
    var forkCount, forked := UpdateForked(tx, slot, latestBlockRoot);
    if !forked {
      fatal := TransactKnownGaps(tx, 1, slot, slot, Text("fork update failed"), ReorgStep);
      return;
    }
    var proposedCount, proposed := UpdateProposed(tx, slot, latestBlockRoot);
    if !proposed {
      fatal := TransactKnownGaps(tx, 1, slot, slot, Text("proposed update failed"), ReorgStep);
      return;
    }
    fatal := false;
    if proposedCount == 0 {
      fatal := TransactKnownGaps(tx, 1, slot, slot, Text("Unable to find properly proposed row in DB"), ReorgStep);
    }
  }

  /** A chain_reorg event: committed whole, or the process ends with the tables as they were. */
  method WriteReorgs(db: Database, slot: Slot, latestBlockRoot: Root, budget: nat) returns (fatal: bool)
    modifies db
    ensures fatal <==> budget <= ReorgStatements(old(db.tables), slot, latestBlockRoot)
    ensures db.tables == if fatal then old(db.tables) else Reorg(old(db.tables), slot, latestBlockRoot)
  {
    var tx := new Tx.Begin(db, budget);
    fatal := TransactReorgs(tx, slot, latestBlockRoot);
    if !fatal {
      var committed := tx.Commit();
      fatal := !committed;
    }
  }

  /** The prepared rows of one slot and the transaction they go into. */
  class DatabaseWriter {
    const tx: Tx
    const slotKey: (Slot, Root)
    const slotRow: SlotRow
    const blockRow: BlockRow
    const stateKey: (Slot, Root)
    const stateRow: StateRow
    const rawBlock: Bytes
    const rawState: Bytes

    constructor (tx: Tx, slot: Slot, stateRoot: Root, blockRoot: Root, parent: Root, eth1: Text,
                 payload: Option<Payload>, status: Status, rawBlock: Bytes, rawState: Bytes)
      ensures this.tx == tx
      ensures slotKey == (slot, blockRoot) && slotRow == SlotRow(slot / SLOTS_PER_EPOCH, stateRoot, status)
      ensures blockRow == BlockRow(parent, eth1, MhKey(blockRoot), payload)
      ensures stateKey == (slot, stateRoot) && stateRow == StateRow(MhKey(stateRoot))
      ensures this.rawBlock == rawBlock && this.rawState == rawState
    {
      this.tx := tx;
      slotKey := (slot, blockRoot);
      slotRow := SlotRow(slot / SLOTS_PER_EPOCH, stateRoot, status);
      blockRow := BlockRow(parent, eth1, MhKey(blockRoot), payload);
      stateKey := (slot, stateRoot);
      stateRow := StateRow(MhKey(stateRoot));
      this.rawBlock := rawBlock;
      this.rawState := rawState;
    }

    /** The writer holds the job's rows. */
    ghost predicate Writes(job: Job) {
      && slotKey == SlotKey(job) && slotRow == SlotRowOf(job) && blockRow == BlockRowOf(job)
      && stateKey == StateKey(job) && stateRow == StateRowOf(job)
      && rawBlock == job.got.rawBlock && rawState == job.got.rawState
    }

    method UpsertSlots() returns (ok: bool)
      modifies tx
      ensures ok <==> old(tx.budget) > 0
      ensures tx.budget == if ok then old(tx.budget) - 1 else 0
      ensures ok ==> tx.view == old(tx.view).(slots := InsertMissing(old(tx.view).slots, slotKey, slotRow))
    {
      ok := tx.Exec(tx.view.(slots := InsertMissing(tx.view.slots, slotKey, slotRow)));
    }

    method UpsertPublicBlocks(key: MhKey, data: Bytes) returns (ok: bool)
      modifies tx
      ensures ok <==> old(tx.budget) > 0
      ensures tx.budget == if ok then old(tx.budget) - 1 else 0
      ensures ok ==> tx.view == old(tx.view).(blocks := InsertMissing(old(tx.view).blocks, key, data))
    {
      ok := tx.Exec(tx.view.(blocks := InsertMissing(tx.view.blocks, key, data)));
    }

    method TransactSignedBeaconBlocks(ghost job: Job) returns (ok: bool)
      requires Writes(job)
      modifies tx
      ensures var n := if rawBlock == Blank then 0 else 2;
              (ok <==> old(tx.budget) >= n) && tx.budget == if ok then old(tx.budget) - n else 0
      ensures ok ==> tx.view == WriteBlock(old(tx.view), job)
    {
      ok := true;
      if rawBlock != Blank {
        ok := UpsertPublicBlocks(blockRow.mhKey, rawBlock);
        if ok {
          ok := tx.Exec(tx.view.(signedBlock := InsertMissing(tx.view.signedBlock, slotKey, blockRow)));
        }
      }
    }

    method TransactBeaconState(ghost job: Job) returns (ok: bool)
      requires Writes(job)
      modifies tx
      ensures var n := if rawState == Blank then 0 else 2;
              (ok <==> old(tx.budget) >= n) && tx.budget == if ok then old(tx.budget) - n else 0
      ensures ok ==> tx.view == WriteState(old(tx.view), job)
    {
      ok := true;
      if rawState != Blank {
        ok := UpsertPublicBlocks(stateRow.mhKey, rawState);
        if ok {
          ok := tx.Exec(tx.view.(state := InsertMissing(tx.view.state, stateKey, stateRow)));
        }
      }
    }

    /** All rows of the slot, or an error as soon as one statement fails. */
    method TransactFullSlot(ghost job: Job) returns (ok: bool)
      requires Writes(job)
      modifies tx
      ensures ok <==> old(tx.budget) >= SlotStatements(job)
      ensures tx.budget == if ok then old(tx.budget) - SlotStatements(job) else 0
      ensures ok ==> tx.view == FullSlot(old(tx.view), job)
    {
      ok := UpsertSlots();
      if !ok {
        return;
      }
      if slotRow.status != Skipped {
        ok := TransactSignedBeaconBlocks(job);
        if !ok {
          return;
        }
        ok := TransactBeaconState(job);
      }
    }
  }
}

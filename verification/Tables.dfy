/** The indexer's tables as maps, keyed as their ON CONFLICT clauses say. */
module Tables {
  import opened Machine

  datatype Option<+T> = None | Some(value: T)

  /** A string that is only compared or tested for being empty. */
  datatype Text = Blank | Text(chars: string)

  type Root = Text
  type Bytes = Text

  /** A hex-encoded root computed from a decoded object: never the empty string. */
  type HexRoot = r: Root | r != Blank witness Text("0x")

  /** Which step recorded a gap: the entry_process column and the error reasons that end up in it. */
  datatype Process =
    | ProcessSlotStep        // "processSlot"
    | CheckDbStep            // "checkDb"
    | CommitStep             // "transactionCommit"
    | RangeOrder
    | HeadGaps
    | HeadProcessing
    | StartUp
    | ReorgStep

  /** The multihash key of a root; a constructor, hence injective. */
  datatype MhKey = MhKey(root: Root)

  datatype Status = Proposed | Forked | Skipped

  datatype Payload = Payload(blockNumber: nat, fields: Text)

  /** A start and end slot, both inclusive: the key of a work row, and what the pipeline passes around. */
  datatype Range = Range(start: Slot, end: Slot)

  datatype SlotRow = SlotRow(epoch: int, stateRoot: Root, status: Status)
  datatype BlockRow = BlockRow(parent: Root, eth1: Text, mhKey: MhKey, payload: Option<Payload>)
  datatype StateRow = StateRow(mhKey: MhKey)

  /**
   A row of known_gaps or historic_process. The priority is counted from the column's default,
   and historic_process rows leave the last three columns empty.
   */
  datatype WorkRow = WorkRow(checkedOut: bool, checkedOutBy: Option<int>, priority: int,
                             reprocessingError: Text, entryError: Text, entryProcess: Option<Process>)

  type Work = map<Range, WorkRow>

  datatype Tables = Tables(
    slots: map<(Slot, Root), SlotRow>,
    signedBlock: map<(Slot, Root), BlockRow>,
    state: map<(Slot, Root), StateRow>,
    blocks: map<MhKey, Bytes>,
    knownGaps: Work,
    historic: Work)

  const EMPTY := Tables(map[], map[], map[], map[], map[], map[])

  /** An insert that leaves a row with the same key as it is. */
  function InsertMissing<K, V>(m: map<K, V>, k: K, v: V): map<K, V> {
    if k in m then m else m[k := v]
  }

  lemma InsertMissingKeys<K, V>(m: map<K, V>, k: K, v: V)
    ensures InsertMissing(m, k, v).Keys == m.Keys + {k}
  {
  }

  /** A freshly recorded gap: not checked out, at the default priority. */
  function NewGap(entryError: Text, entryProcess: Process): WorkRow {
    WorkRow(false, None, 0, Blank, entryError, Some(entryProcess))
  }

  /** Some row of the slots table is for this slot: what isSlotProcessed asks. */
  ghost predicate SlotKnown(t: Tables, s: Slot) {
    exists r :: (s, r) in t.slots
  }

  predicate Holds(r: Range, s: Slot) {
    r.start <= s <= r.end
  }

  /** Some row of the work table spans the slot. */
  ghost predicate Covered(w: Work, s: Slot) {
    exists r :: r in w && Holds(r, s)
  }

  /**
   Referential integrity: a block row and a state row have a slots row, and both resolve in public.blocks.
   */
  ghost predicate Integrity(t: Tables) {
    && (forall k :: k in t.signedBlock ==>
          k in t.slots && t.signedBlock[k].mhKey == MhKey(k.1) && MhKey(k.1) in t.blocks)
    && (forall k :: k in t.state ==>
          SlotKnown(t, k.0) && t.state[k].mhKey == MhKey(k.1) && MhKey(k.1) in t.blocks)
  }

  /** Every row of the first table is in the second, unchanged. */
  ghost predicate RowsKept(w: Work, w': Work) {
    forall k :: k in w ==> k in w' && w'[k] == w[k]
  }

  /** A row is checked out exactly when it says by whom. */
  ghost predicate LocksPaired(w: Work) {
    forall k :: k in w ==> (w[k].checkedOut <==> w[k].checkedOutBy.Some?)
  }
}

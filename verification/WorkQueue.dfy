/** The lock column of a work table: which rows may be checked out, locking, releasing. */
module WorkQueue {
  import opened Machine
  import opened Tables

  /** A row that may be checked out: nobody holds it and it does not end below the minimum. */
  predicate Eligible(w: Work, minimum: Slot, r: Range) {
    r in w && !w[r].checkedOut && r.end >= minimum
  }

  /** A row the selecting query may return: eligible and of least priority; ties are the database's choice. */
  predicate Selected(w: Work, minimum: Slot, r: Range) {
    && Eligible(w, minimum, r)
    && forall o :: o in w && Eligible(w, minimum, o) ==> w[r].priority <= w[o].priority
  }

  function Lock(w: Work, r: Range, node: int): Work
    requires r in w
  {
    w[r := w[r].(checkedOut := true, checkedOutBy := Some(node))]
  }

  function Release(w: Work, node: int): Work {
    map r | r in w :: if w[r].checkedOutBy == Some(node) then w[r].(checkedOut := false, checkedOutBy := None) else w[r]
  }

  /** Releasing frees exactly the node's own rows, which become eligible again; every other row is as before. */
  lemma ReleaseFreesOwnRows(w: Work, node: int, minimum: Slot)
    requires LocksPaired(w)
    ensures LocksPaired(Release(w, node)) && Release(w, node).Keys == w.Keys
    ensures forall r :: Eligible(Release(w, node), minimum, r) <==>
              Eligible(w, minimum, r) || (r in w && w[r].checkedOutBy == Some(node) && r.end >= minimum)
    ensures forall r :: r in w && w[r].checkedOutBy != Some(node) ==> Release(w, node)[r] == w[r]
    ensures forall r :: r in w ==> Release(w, node)[r].checkedOutBy != Some(node)
  {
  }
}

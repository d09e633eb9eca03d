/** Directory entries under rename, unlink and directory synchronisation.

    A rename or unlink is visible to every reader at once, but only a directory
    synchronisation makes it durable: until then a power loss may bring back any
    content the entry has had since the last synchronisation.  A cell therefore
    carries the visible content and the set of contents a power loss may reveal. */
module Durability {

  datatype Option<+T> = None | Some(value: T)

  /** How a replacing write or an unlink ends.
      `Done`: replaced and synchronised.  `Lost`: failed before the rename.
      `Unsynced`: renamed, then the synchronisation reported an error. */
  datatype Outcome = Done | Lost | Unsynced

  datatype Cell<T(==)> = Cell(visible: T, possible: set<T>) {

    predicate Valid() {
      visible in possible
    }

    /** The entry after the rename, before any synchronisation. */
    function Renamed(v: T): (c: Cell<T>)
      ensures c.Valid() && c.visible == v
      ensures possible <= c.possible
    {
      Cell(v, possible + {v})
    }

    /** The entry after a synchronisation of its directory. */
    function Synced(): (c: Cell<T>)
      ensures c.Valid() && c.visible == visible
      ensures forall v :: v in c.possible ==> v == visible
    {
      Cell(visible, {visible})
    }

    predicate Settled() {
      possible == {visible}
    }
  }
}

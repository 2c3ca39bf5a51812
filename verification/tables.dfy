/**
 * Go's `map[Priority]float64` (config.PriorityPMap): a reference to a mutable table.
 * Whoever holds the same table sees every later write to it; a nil map is `null`,
 * which reads like an empty table.
 */
module Tables {
  import opened Messages

  class PriorityTable {
    var entries: map<Priority, real>

    constructor (entries: map<Priority, real>)
      ensures this.entries == entries
    {
      this.entries := entries;
    }

    /** `m[k] = v` */
    method Set(k: Priority, v: real)
      modifies this
      ensures entries == old(entries)[k := v]
    {
      entries := entries[k := v];
    }
  }

  /** The entries of a possibly nil table. */
  function Entries(t: PriorityTable?): (m: map<Priority, real>)
    reads t
    ensures t == null ==> m == map[]
  {
    if t == null then map[] else t.entries
  }

  /** Go's plain index `m[k]`: the stored value, or the zero value 0 when `k` is absent. */
  function Lookup(t: PriorityTable?, k: Priority): (v: real)
    reads t
    ensures k in Entries(t) ==> v == Entries(t)[k]
    ensures k !in Entries(t) ==> v == 0.0
  {
    if k in Entries(t) then Entries(t)[k] else 0.0
  }
}

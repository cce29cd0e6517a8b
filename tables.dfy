/**
 * The labelled two-dimensional table the validators read.
 *
 * A table is its row labels (the index), its column labels, and the value
 * stored at every (row, column) pair, `None` where the value is missing.
 * The validators only read tables, so a table is a value.
 */
module Tables {
  import opened Outcomes

  datatype Table<!R, !C, V> = Table(rows: seq<R>, cols: seq<C>, cells: (R, C) -> Option<V>)

  /** The labels of a sequence, forgetting order and repetition. */
  function LabelSet<L>(s: seq<L>): set<L> {
    set x | x in s
  }

  /** Missing-value test on one cell. */
  predicate IsNull<V>(v: Option<V>) {
    v.None?
  }

  /** The row labels 0 .. n-1, as `range(n)` builds them. */
  function Range(n: nat): seq<int> {
    seq(n, i => i)
  }

  /** A table of labels `rows` x `cols` holding `v` in every cell. */
  function Filled<V>(rows: seq<int>, cols: seq<string>, v: V): Table<int, string, V> {
    Table(rows, cols, (r, c) => Some(v))
  }
}

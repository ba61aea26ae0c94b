/**
 * The memory table: rows of (category, content) kept in table (rowid) order.
 * `remember` appends a row; `recall` selects the contents of one category.
 */
module Memory {

  /** One row of the table: (category, content). */
  type Row = (string, string)

  /** The contents stored under `category`, in table (rowid) order, the order an unindexed scan returns them. */
  function Select(rows: seq<Row>, category: string): seq<string>
    decreases |rows|
  {
    if rows == [] then []
    else
      var last := rows[|rows| - 1];
      Select(rows[..|rows| - 1], category) + (if last.0 == category then [last.1] else [])
  }

  /** Appending one row adds its content to its own category and to no other. */
  lemma SelectAppend(rows: seq<Row>, row: Row, category: string)
    ensures Select(rows + [row], category)
         == Select(rows, category) + (if row.0 == category then [row.1] else [])
  {
    assert (rows + [row])[..|rows|] == rows;
  }

  /** Selecting over two stretches of rows selects over each in turn. */
  lemma {:induction false} SelectConcat(rows: seq<Row>, more: seq<Row>, category: string)
    ensures Select(rows + more, category) == Select(rows, category) + Select(more, category)
    decreases |more|
  {
    if more == [] {
      assert rows + more == rows;
    } else {
      var front := more[..|more| - 1];
      var last := more[|more| - 1];
      assert more == front + [last];
      assert rows + more == (rows + front) + [last];
      SelectConcat(rows, front, category);
      SelectAppend(rows + front, last, category);
      SelectAppend(front, last, category);
    }
  }

  /** A category that no row carries selects nothing. */
  lemma {:induction false} SelectUnwritten(rows: seq<Row>, category: string)
    requires forall k | 0 <= k < |rows| :: rows[k].0 != category
    ensures Select(rows, category) == []
    decreases |rows|
  {
    if rows != [] {
      SelectUnwritten(rows[..|rows| - 1], category);
    }
  }

  /** `t` is recalled under `category` exactly when the row (category, t) is in the table. */
  lemma {:induction false} SelectMembership(rows: seq<Row>, category: string, t: string)
    ensures t in Select(rows, category) <==> (category, t) in rows
    decreases |rows|
  {
    if rows != [] {
      var front := rows[..|rows| - 1];
      assert rows == front + [rows[|rows| - 1]];
      SelectMembership(front, category, t);
    }
  }

  /** Two writes to one category are recalled after what it held, in the order written. */
  lemma TwoWritesInOrder(rows: seq<Row>, category: string, t1: string, t2: string)
    ensures Select(rows + [(category, t1), (category, t2)], category)
         == Select(rows, category) + [t1, t2]
  {
    SelectConcat(rows, [(category, t1), (category, t2)], category);
    SelectAppend([(category, t1)], (category, t2), category);
    assert [(category, t1)] + [(category, t2)] == [(category, t1), (category, t2)];
    SelectAppend([], (category, t1), category);
  }

  /** On a category not yet written, two writes are all it recalls, in the order written. */
  lemma TwoWritesOnFreshCategory(rows: seq<Row>, category: string, t1: string, t2: string)
    requires forall k | 0 <= k < |rows| :: rows[k].0 != category
    ensures Select(rows + [(category, t1), (category, t2)], category) == [t1, t2]
  {
    SelectUnwritten(rows, category);
    TwoWritesInOrder(rows, category, t1, t2);
  }

  /**
   * The single table the assistant keeps. Rows are only ever appended; the
   * auto-incremented id of a row is its position.
   */
  class MemoryStore {
    var rows: seq<Row>

    /** Opens the table, keeping whatever rows it already holds. */
    constructor Open(existing: seq<Row>)
      ensures rows == existing
    {
      rows := existing;
    }

    /** `remember`: inserts one row at the end of the table. */
    method Remember(category: string, text: string)
      modifies this
      ensures rows == old(rows) + [(category, text)]
    {
      rows := rows + [(category, text)];
    }

    /** `recall`: the contents of the rows whose category is `category`, in table order. */
    method Recall(category: string) returns (contents: seq<string>)
      ensures contents == Select(rows, category)
      ensures forall t :: t in contents <==> (category, t) in rows
    {
      contents := [];
      var i := 0;
      while i < |rows|
        invariant 0 <= i <= |rows|
        invariant contents == Select(rows[..i], category)
      {
        assert rows[..i + 1] == rows[..i] + [rows[i]];
        SelectAppend(rows[..i], rows[i], category);
        if rows[i].0 == category {
          contents := contents + [rows[i].1];
        }
        i := i + 1;
      }
      assert rows[..i] == rows;
      forall t ensures t in contents <==> (category, t) in rows {
        SelectMembership(rows, category, t);
      }
    }

    /** Recall reads without writing, so two recalls in a row agree. */
    method RecallTwice(category: string) returns (first: seq<string>, second: seq<string>)
      ensures first == second == Select(rows, category)
    {
      first := Recall(category);
      second := Recall(category);
    }
  }
}

/**
  The transaction ledger and its cleaning step: the Amount column is coerced
  to numbers, rows whose amount does not coerce are dropped, and the Category
  column is taken as text.
 */
module Ledger {

  import opened Wrappers

  /** A cell of the Amount column as the spreadsheet reader delivers it. */
  datatype AmountCell =
    | Numeric(number: real)  // a cell that already holds a number
    | Text(text: string)     // a cell holding text, to be parsed
    | Empty                  // an empty cell (read as NaN)

  /** A row of the raw table; columns other than Category and Amount are not used. */
  datatype RawRow = RawRow(category: string, amount: AmountCell)

  /** A row of the cleaned table: its amount is always a number. */
  datatype Row = Row(category: string, amount: real)

  /**
    Coercion of one cell to a number with errors turned into a missing value.
    The grammar of numeric text is not modelled: `parse` stands for it, and
    None for the NaN it produces on failure.
   */
  function ToNumeric(cell: AmountCell, parse: string -> Option<real>): Option<real>
  {
    match cell
    case Numeric(v) => Some(v)
    case Text(t) => parse(t)
    case Empty => None
  }

  /** The cleaned table: the raw rows whose amount coerces, in their original order. */
  function Cleaned(raw: seq<RawRow>, parse: string -> Option<real>): (rows: seq<Row>)
    ensures |rows| <= |raw|
  {
    if raw == [] then []
    else
      var last := raw[|raw| - 1];
      Cleaned(raw[..|raw| - 1], parse) +
        (match ToNumeric(last.amount, parse)
         case Some(v) => [Row(last.category, v)]
         case None => [])
  }

  /**
    `idx` lists, in strictly increasing order, exactly the positions of the raw
    rows whose amount coerces, and `rows[k]` is raw row `idx[k]` with its amount
    replaced by the coerced number.
   */
  ghost predicate IsSelection(raw: seq<RawRow>, parse: string -> Option<real>, rows: seq<Row>, idx: seq<int>)
  {
    && |idx| == |rows|
    && (forall k :: 0 <= k < |idx| ==>
          && 0 <= idx[k] < |raw|
          && ToNumeric(raw[idx[k]].amount, parse) == Some(rows[k].amount)
          && rows[k].category == raw[idx[k]].category)
    && (forall k, l :: 0 <= k < l < |idx| ==> idx[k] < idx[l])
    && (forall j :: 0 <= j < |raw| && ToNumeric(raw[j].amount, parse).Some? ==> j in idx)
  }

  /**
    Cleaning keeps every row whose amount coerces, with that number, drops every
    other row entirely (no row is kept with a zero or missing amount), and keeps
    the survivors in their original relative order.
   */
  lemma {:induction false} CleanedSelection(raw: seq<RawRow>, parse: string -> Option<real>) returns (idx: seq<int>)
    ensures IsSelection(raw, parse, Cleaned(raw, parse), idx)
  {
    if raw == [] {
      idx := [];
    } else {
      var n := |raw| - 1;
      var pre := CleanedSelection(raw[..n], parse);
      match ToNumeric(raw[n].amount, parse)
      case Some(v) =>
        idx := pre + [n];
        SelectionSnoc(raw, parse, Cleaned(raw[..n], parse), pre, v);
      case None =>
        idx := pre;
        SelectionSkip(raw, parse, Cleaned(raw[..n], parse), pre);
    }
  }

  /** A selection of all rows but the last extends by a last row that coerces. */
  lemma SelectionSnoc(raw: seq<RawRow>, parse: string -> Option<real>, rows: seq<Row>, idx: seq<int>, v: real)
    requires raw != [] && IsSelection(raw[..|raw| - 1], parse, rows, idx)
    requires ToNumeric(raw[|raw| - 1].amount, parse) == Some(v)
    ensures IsSelection(raw, parse, rows + [Row(raw[|raw| - 1].category, v)], idx + [|raw| - 1])
  {
    var n := |raw| - 1;
    var rows', idx' := rows + [Row(raw[n].category, v)], idx + [n];
    forall k | 0 <= k < |idx'|
      ensures 0 <= idx'[k] < |raw|
      ensures ToNumeric(raw[idx'[k]].amount, parse) == Some(rows'[k].amount)
      ensures rows'[k].category == raw[idx'[k]].category
    {
      if k < |idx| {
        assert idx'[k] == idx[k] && rows'[k] == rows[k] && raw[idx[k]] == raw[..n][idx[k]];
      }
    }
    forall k, l | 0 <= k < l < |idx'| ensures idx'[k] < idx'[l] {
      assert idx'[k] == idx[k];
      if l < |idx| {
        assert idx'[l] == idx[l];
      }
    }
    forall j | 0 <= j < |raw| && ToNumeric(raw[j].amount, parse).Some? ensures j in idx' {
      if j < n {
        assert raw[..n][j] == raw[j];
        assert j in idx;
      }
    }
  }

  /** A selection of all rows but the last is one of all rows when the last row does not coerce. */
  lemma SelectionSkip(raw: seq<RawRow>, parse: string -> Option<real>, rows: seq<Row>, idx: seq<int>)
    requires raw != [] && IsSelection(raw[..|raw| - 1], parse, rows, idx)
    requires ToNumeric(raw[|raw| - 1].amount, parse) == None
    ensures IsSelection(raw, parse, rows, idx)
  {
    var n := |raw| - 1;
    forall k | 0 <= k < |idx|
      ensures 0 <= idx[k] < |raw|
      ensures ToNumeric(raw[idx[k]].amount, parse) == Some(rows[k].amount)
      ensures rows[k].category == raw[idx[k]].category
    {
      assert raw[idx[k]] == raw[..n][idx[k]];
    }
    forall j | 0 <= j < |raw| && ToNumeric(raw[j].amount, parse).Some? ensures j in idx {
      assert raw[..n][j] == raw[j];
    }
  }

  /** Cleaning distributes over concatenation of tables. */
  lemma {:induction false} CleanedAppend(a: seq<RawRow>, b: seq<RawRow>, parse: string -> Option<real>)
    ensures Cleaned(a + b, parse) == Cleaned(a, parse) + Cleaned(b, parse)
  {
    if b == [] {
      assert a + b == a;
    } else {
      var n := |b| - 1;
      var c, x := a + b[..n], b[n];
      var tail := match ToNumeric(x.amount, parse) case Some(v) => [Row(x.category, v)] case None => [];
      assert a + b == c + [x];
      assert (c + [x])[..|c + [x]| - 1] == c;
      assert Cleaned(a + b, parse) == Cleaned(c, parse) + tail;
      assert Cleaned(b, parse) == Cleaned(b[..n], parse) + tail;
      CleanedAppend(a, b[..n], parse);
      assert Cleaned(a, parse) + (Cleaned(b[..n], parse) + tail) == (Cleaned(a, parse) + Cleaned(b[..n], parse)) + tail;
    }
  }

  /** A row whose amount does not coerce leaves no trace in the cleaned table, wherever it stands. */
  lemma CleanedDropsUnparseable(a: seq<RawRow>, r: RawRow, b: seq<RawRow>, parse: string -> Option<real>)
    requires ToNumeric(r.amount, parse) == None
    ensures Cleaned(a + [r] + b, parse) == Cleaned(a + b, parse)
  {
    CleanedAppend(a + [r], b, parse);
    CleanedAppend(a, [r], parse);
    CleanedAppend(a, b, parse);
    assert [r][..0] == [];
  }

  /** A table in which no amount coerces (in particular an empty table) cleans to the empty table. */
  lemma {:induction false} CleanedNothingNumeric(raw: seq<RawRow>, parse: string -> Option<real>)
    requires forall j :: 0 <= j < |raw| ==> ToNumeric(raw[j].amount, parse) == None
    ensures Cleaned(raw, parse) == []
  {
    if raw != [] {
      CleanedNothingNumeric(raw[..|raw| - 1], parse);
    }
  }

  /**
    The cleaning step as the program performs it, column by column on the
    table: each amount is coerced and the rows left without a number are
    dropped.
   */
  method CleanTable(raw: seq<RawRow>, parse: string -> Option<real>) returns (rows: seq<Row>)
    ensures rows == Cleaned(raw, parse)
  {
    rows := [];
    for i := 0 to |raw|
      invariant rows == Cleaned(raw[..i], parse)
    {
      assert raw[..i + 1][..i] == raw[..i];
      var amount := ToNumeric(raw[i].amount, parse);
      if amount.Some? {
        rows := rows + [Row(raw[i].category, amount.value)];
      }
    }
    assert raw[..|raw|] == raw;
  }

}

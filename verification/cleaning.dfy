/**
 * Loading and cleaning the customer table: the column names are stripped of
 * surrounding whitespace, TotalCharges is coerced to a number (text that does
 * not parse becomes NaN) and the rows whose TotalCharges is NaN are dropped.
 * How a string is read as a number is left abstract: it is the `parse`
 * parameter.
 */
module Cleaning {
  import opened Wrappers
  import opened Seqs
  import opened Records

  /** The characters Python's `str.isspace` accepts, which `str.strip()` removes. */
  predicate IsWhitespace(c: char)
  {
    ('\t' <= c <= '\r') || ('\U{1C}' <= c <= ' ') || c == '\U{85}' || c == '\U{A0}'
    || c == '\U{1680}' || ('\U{2000}' <= c <= '\U{200A}') || c == '\U{2028}' || c == '\U{2029}'
    || c == '\U{202F}' || c == '\U{205F}' || c == '\U{3000}'
  }

  /** Every character of `s` from index `i` up to (not including) `j` is whitespace. */
  predicate WhitespaceBetween(s: string, i: nat, j: nat)
    requires i <= j <= |s|
  {
    forall m :: i <= m < j ==> IsWhitespace(s[m])
  }

  /** The first index at or after `i` that does not hold whitespace, or `|s|`. */
  function SkipLeading(s: string, i: nat): (k: nat)
    requires i <= |s|
    ensures i <= k <= |s| && WhitespaceBetween(s, i, k)
    ensures k == |s| || !IsWhitespace(s[k])
    decreases |s| - i
  {
    if i < |s| && IsWhitespace(s[i]) then SkipLeading(s, i + 1) else i
  }

  /** The end of `s[lo..j]` once its trailing whitespace is dropped. */
  function SkipTrailing(s: string, lo: nat, j: nat): (k: nat)
    requires lo <= j <= |s|
    ensures lo <= k <= j && WhitespaceBetween(s, k, j)
    ensures k == lo || !IsWhitespace(s[k - 1])
  {
    if lo < j && IsWhitespace(s[j - 1]) then SkipTrailing(s, lo, j - 1) else j
  }

  /**
   * Python's `str.strip()`: the infix of `s` left after removing whitespace
   * at both ends. It neither starts nor ends with whitespace, and what was
   * removed on either side is whitespace only.
   */
  function Strip(s: string): (r: string)
    ensures r == [] || (!IsWhitespace(r[0]) && !IsWhitespace(r[|r| - 1]))
    ensures exists i, j :: 0 <= i <= j <= |s| && r == s[i..j] && WhitespaceBetween(s, 0, i) && WhitespaceBetween(s, j, |s|)
  {
    var i := SkipLeading(s, 0);
    var j := SkipTrailing(s, i, |s|);
    s[i..j]
  }

  /**
   * The two properties in Strip's contract determine its result: any infix of
   * `s` framed by whitespace and not itself starting or ending with whitespace
   * is Strip(s).
   */
  lemma StripIsDetermined(s: string, r: string, i: nat, j: nat)
    requires i <= j <= |s| && r == s[i..j]
    requires WhitespaceBetween(s, 0, i) && WhitespaceBetween(s, j, |s|)
    requires r == [] || (!IsWhitespace(r[0]) && !IsWhitespace(r[|r| - 1]))
    ensures r == Strip(s)
  {
  }

  lemma StripIdempotent(s: string)
    ensures Strip(Strip(s)) == Strip(s)
  {
  }

  /** `df.columns.str.strip()`: the same number of columns, each name stripped in its place. */
  function StripColumns(columns: seq<string>): (r: seq<string>)
    ensures |r| == |columns|
    ensures forall k :: 0 <= k < |columns| ==> r[k] == Strip(columns[k])
  {
    seq(|columns|, k requires 0 <= k < |columns| => Strip(columns[k]))
  }

  /**
   * Stripping the header leaves no name with surrounding whitespace, and a
   * second strip changes nothing.
   */
  lemma StripColumnsProperties(columns: seq<string>)
    ensures forall name :: name in StripColumns(columns) ==>
      name == [] || (!IsWhitespace(name[0]) && !IsWhitespace(name[|name| - 1]))
    ensures StripColumns(StripColumns(columns)) == StripColumns(columns)
  {
    var once := StripColumns(columns);
    forall k | 0 <= k < |once|
      ensures StripColumns(once)[k] == once[k]
    {
      StripIdempotent(columns[k]);
    }
  }

  /** `pd.to_numeric(..., errors='coerce')` on one cell. */
  function ToNumeric(parse: string -> Option<real>, c: Cell): (r: Cell)
    ensures !r.Text?
    ensures c.Number? ==> r == c
    ensures c.Missing? ==> r.Missing?
    ensures c.Text? ==> (r.Number? <==> parse(c.s).Some?)
    ensures c.Text? && parse(c.s).Some? ==> r == Number(parse(c.s).value)
  {
    match c
    case Number(x) => Number(x)
    case Text(s) => (match parse(s) case Some(x) => Number(x) case None => Missing)
    case Missing => Missing
  }

  /** True when the row's TotalCharges survives the coercion, i.e. is not NaN afterwards. */
  predicate Parses(parse: string -> Option<real>, r: RawRecord)
  {
    !ToNumeric(parse, r.totalCharges).Missing?
  }

  /** Line 15: the TotalCharges column replaced by its coerced values, all else unchanged. */
  function CoerceTotals(parse: string -> Option<real>, rows: seq<RawRecord>): (r: seq<RawRecord>)
    ensures |r| == |rows|
    ensures forall i :: 0 <= i < |rows| ==>
      r[i].totalCharges == ToNumeric(parse, rows[i].totalCharges) && WithTotal(r[i], rows[i].totalCharges) == rows[i]
  {
    seq(|rows|, i requires 0 <= i < |rows| => rows[i].(totalCharges := ToNumeric(parse, rows[i].totalCharges)))
  }

  /** `dropna(subset=['TotalCharges'])`: the rows whose TotalCharges is not NaN, in order. */
  function DropMissingTotals(rows: seq<RawRecord>): (r: seq<RawRecord>)
    ensures |r| <= |rows|
    ensures forall x :: x in r ==> x in rows && !x.totalCharges.Missing?
  {
    if rows == [] then []
    else (if rows[0].totalCharges.Missing? then [] else [rows[0]]) + DropMissingTotals(rows[1..])
  }

  /** Number of rows whose TotalCharges does not survive the coercion. */
  function CountUnparsable(parse: string -> Option<real>, rows: seq<RawRecord>): nat
  {
    if rows == [] then 0
    else (if Parses(parse, rows[0]) then 0 else 1) + CountUnparsable(parse, rows[1..])
  }

  /** Lines 15-16 together. */
  function CleanRows(parse: string -> Option<real>, rows: seq<RawRecord>): (r: seq<RawRecord>)
    ensures |r| <= |rows|
    ensures forall x :: x in r ==> x.totalCharges.Number?
  {
    var coerced := CoerceTotals(parse, rows);
    assert forall x :: x in coerced ==> !x.totalCharges.Text? by {
      forall x | x in coerced ensures !x.totalCharges.Text? {
        var i :| 0 <= i < |coerced| && coerced[i] == x;
      }
    }
    DropMissingTotals(coerced)
  }

  /**
   * Cleaning keeps exactly the rows whose TotalCharges parses: the kept rows
   * are, in their original order, among the coerced rows, and there are as
   * many of them as there are parsable rows.
   */
  lemma {:induction false} CleanRowsKeepsParsed(parse: string -> Option<real>, rows: seq<RawRecord>)
    ensures |CleanRows(parse, rows)| == |rows| - CountUnparsable(parse, rows)
    ensures IsSubsequence(CleanRows(parse, rows), CoerceTotals(parse, rows))
  {
    var coerced := CoerceTotals(parse, rows);
    if rows != [] {
      CleanRowsKeepsParsed(parse, rows[1..]);
      assert coerced[1..] == CoerceTotals(parse, rows[1..]);
      var kept := CleanRows(parse, rows);
      assert kept == (if coerced[0].totalCharges.Missing? then [] else [coerced[0]]) + CleanRows(parse, rows[1..]);
      if !coerced[0].totalCharges.Missing? {
        assert kept[0] == coerced[0] && kept[1..] == CleanRows(parse, rows[1..]);
      } else {
        assert kept == CleanRows(parse, rows[1..]);
        if kept != [] {
          assert kept[0] in CleanRows(parse, rows[1..]);
          assert kept[0] != coerced[0];
        }
      }
    }
  }

  /** A cleaned table as the callbacks see it: every TotalCharges a number. */
  function ToCustomers(rows: seq<RawRecord>): (t: seq<Customer>)
    requires forall x :: x in rows ==> x.totalCharges.Number?
  {
    seq(|rows|, i requires 0 <= i < |rows| => WithTotal(rows[i], rows[i].totalCharges.x))
  }

  /** Nothing is lost in the projection: putting each number back into a cell gives the rows again. */
  lemma ToCustomersKeepsRows(rows: seq<RawRecord>)
    requires forall x :: x in rows ==> x.totalCharges.Number?
    ensures |ToCustomers(rows)| == |rows|
    ensures forall i :: 0 <= i < |rows| ==>
      WithTotal(ToCustomers(rows)[i], Number(ToCustomers(rows)[i].totalCharges)) == rows[i]
  {
  }

  /** The column name the cleaning looks up. */
  const TotalChargesColumn: string := "TotalCharges"

  /** The module-level `df` of the loading script, changed step by step. */
  class DataFrame {
    var columns: seq<string>
    var rows: seq<RawRecord>

    constructor (columns: seq<string>, rows: seq<RawRecord>)
      ensures this.columns == columns && this.rows == rows
    {
      this.columns := columns;
      this.rows := rows;
    }

    /** Line 12: `df.columns = df.columns.str.strip()`. */
    method StripColumnNames()
      modifies this
      ensures columns == StripColumns(old(columns))
      ensures rows == old(rows)
    {
      columns := StripColumns(columns);
    }

    /**
     * Line 15. `df['TotalCharges']` fails unless exactly one column has that
     * name: with none it raises a KeyError, with several it yields a frame,
     * which `pd.to_numeric` refuses. On failure nothing changes and `found`
     * is false.
     */
    method CoerceTotalCharges(parse: string -> Option<real>) returns (found: bool)
      modifies this
      ensures found <==> Occurrences(old(columns), TotalChargesColumn) == 1
      ensures columns == old(columns)
      ensures rows == if found then CoerceTotals(parse, old(rows)) else old(rows)
    {
      found := Occurrences(columns, TotalChargesColumn) == 1;
      if found {
        rows := CoerceTotals(parse, rows);
      }
    }

    /** Line 16: `df = df.dropna(subset=['TotalCharges'])`. */
    method DropMissingTotalCharges()
      modifies this
      ensures columns == old(columns)
      ensures rows == DropMissingTotals(old(rows))
    {
      rows := DropMissingTotals(rows);
    }

    /** Lines 12-16 in order; `ok` is false when the TotalCharges lookup fails. */
    method Clean(parse: string -> Option<real>) returns (ok: bool)
      modifies this
      ensures columns == StripColumns(old(columns))
      ensures ok <==> Occurrences(StripColumns(old(columns)), TotalChargesColumn) == 1
      ensures rows == if ok then CleanRows(parse, old(rows)) else old(rows)
      ensures ok ==> forall x :: x in rows ==> x.totalCharges.Number?
    {
      StripColumnNames();
      ok := CoerceTotalCharges(parse);
      if ok {
        DropMissingTotalCharges();
        CleanRowsKeepsParsed(parse, old(rows));
      }
    }
  }

  /**
   * Loading the table (line 9) from an already read header and rows, then
   * cleaning it: the base table every callback filters, or None when the
   * script would stop at line 15.
   */
  method LoadBaseTable(columns: seq<string>, rows: seq<RawRecord>, parse: string -> Option<real>)
    returns (table: Option<seq<Customer>>)
    ensures table.Some? <==> Occurrences(StripColumns(columns), TotalChargesColumn) == 1
    ensures table.Some? ==> |table.value| == |CleanRows(parse, rows)| == |rows| - CountUnparsable(parse, rows)
    ensures table.Some? ==> forall i :: 0 <= i < |table.value| ==>
      WithTotal(table.value[i], Number(table.value[i].totalCharges)) == CleanRows(parse, rows)[i]
  {
    var df := new DataFrame(columns, rows);
    var ok := df.Clean(parse);
    if ok {
      var cleaned := df.rows;
      assert cleaned == CleanRows(parse, rows);
      CleanRowsKeepsParsed(parse, rows);
      ToCustomersKeepsRows(cleaned);
      table := Some(ToCustomers(cleaned));
    } else {
      table := None;
    }
  }
}

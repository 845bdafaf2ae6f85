/**
 * The rows of the customer table. Only the columns the dashboard reads are
 * kept. The type parameter is the type of the TotalCharges column: a raw
 * `Cell` as read from the file, a `real` once the table has been cleaned.
 */
module Records {
  import opened Wrappers

  /** One cell of an untyped column: a number, a string, or NaN (an empty field). */
  datatype Cell = Number(x: real) | Text(s: string) | Missing

  datatype Record<T> = Record(
    gender: string,
    tenure: int,
    monthlyCharges: real,
    totalCharges: T,
    churn: Option<string>,      // None is a NaN in the Churn column
    internetService: string,
    contract: string,
    paymentMethod: string)

  type RawRecord = Record<Cell>
  type Customer = Record<real>

  /** The same row with its TotalCharges value replaced. */
  function WithTotal<T, U>(r: Record<T>, total: U): Record<U>
  {
    Record(r.gender, r.tenure, r.monthlyCharges, total, r.churn,
           r.internetService, r.contract, r.paymentMethod)
  }

  /** The `gender` column, in row order. */
  function Genders(t: seq<Customer>): seq<string>
  {
    seq(|t|, i requires 0 <= i < |t| => t[i].gender)
  }

  /** The `MonthlyCharges` column, in row order. */
  function MonthlyColumn(t: seq<Customer>): seq<real>
  {
    seq(|t|, i requires 0 <= i < |t| => t[i].monthlyCharges)
  }

  /** The `TotalCharges` column, in row order. */
  function TotalColumn(t: seq<Customer>): seq<real>
  {
    seq(|t|, i requires 0 <= i < |t| => t[i].totalCharges)
  }

  /** A value is in the MonthlyCharges column exactly when some row carries it. */
  lemma MonthlyColumnMembers(t: seq<Customer>)
    ensures forall v :: v in MonthlyColumn(t) <==> exists x :: x in t && x.monthlyCharges == v
  {
    forall v | v in MonthlyColumn(t) ensures exists x :: x in t && x.monthlyCharges == v {
      var i :| 0 <= i < |t| && MonthlyColumn(t)[i] == v;
      assert t[i] in t;
    }
    forall x | x in t ensures x.monthlyCharges in MonthlyColumn(t) {
      var i :| 0 <= i < |t| && t[i] == x;
      assert MonthlyColumn(t)[i] == x.monthlyCharges;
    }
  }

  /** A value is in the TotalCharges column exactly when some row carries it. */
  lemma TotalColumnMembers(t: seq<Customer>)
    ensures forall v :: v in TotalColumn(t) <==> exists x :: x in t && x.totalCharges == v
  {
    forall v | v in TotalColumn(t) ensures exists x :: x in t && x.totalCharges == v {
      var i :| 0 <= i < |t| && TotalColumn(t)[i] == v;
      assert t[i] in t;
    }
    forall x | x in t ensures x.totalCharges in TotalColumn(t) {
      var i :| 0 <= i < |t| && t[i] == x;
      assert TotalColumn(t)[i] == x.totalCharges;
    }
  }
}

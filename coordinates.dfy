/**
 * Zero-based text coordinates (entities/coordinates.rs).
 * Both are newtypes over `usize` in the server; here the inner value is a `nat`.
 */
module Coordinates {

  /** A column of a row. Equality and ordering are those of the inner value. */
  datatype Column = Column(value: nat) {

    /** `Column::from(usize)`. */
    static function From(n: nat): (c: Column)
      ensures c.value == n
    {
      Column(n)
    }

    /** `Column::column()`, the inner value: the one `From` rebuilds this column from. */
    function Get(): (n: nat)
      ensures From(n) == this
    {
      value
    }

    /** `PartialOrd::lt`, delegated to the inner value. */
    predicate Less(other: Column): (b: bool)
      ensures b <==> Get() < other.Get()
      ensures b ==> this != other
    {
      value < other.value
    }

    /** `PartialOrd::le`, delegated to the inner value. */
    predicate LessOrEqual(other: Column): (b: bool)
      ensures b <==> Less(other) || this == other
    {
      value <= other.value
    }
  }

  /** A row (zero-based line index) of a file. */
  datatype Row = Row(value: nat) {

    /** `Row::from(usize)`. */
    static function From(n: nat): (r: Row)
      ensures r.value == n
    {
      Row(n)
    }

    /** `Row::row()`, the inner value: the one `From` rebuilds this row from. */
    function Get(): (n: nat)
      ensures From(n) == this
    {
      value
    }
  }

  /** `Column::from` and `Column::column` are inverse to each other. */
  lemma ColumnRoundTrip(n: nat, c: Column)
    ensures Column.From(n).Get() == n
    ensures Column.From(c.Get()) == c
  {
  }

  /** `Row::from` and `Row::row` are inverse to each other. */
  lemma RowRoundTrip(n: nat, r: Row)
    ensures Row.From(n).Get() == n
    ensures Row.From(r.Get()) == r
  {
  }

  /** Two columns are equal exactly when their inner values are. */
  lemma ColumnEquality(a: Column, b: Column)
    ensures a == b <==> a.Get() == b.Get()
  {
  }

  /** Column ordering is total, antisymmetric and agrees with the order of the inner values. */
  lemma ColumnOrderIsTotal(a: Column, b: Column)
    ensures a.LessOrEqual(b) || b.LessOrEqual(a)
    ensures a.LessOrEqual(b) && b.LessOrEqual(a) ==> a == b
    ensures a.Less(b) <==> a.Get() < b.Get()
    ensures a.Less(b) <==> a.LessOrEqual(b) && a != b
  {
  }

  /** Two rows are equal exactly when their inner values are. */
  lemma RowEquality(a: Row, b: Row)
    ensures a == b <==> a.Get() == b.Get()
  {
  }
}

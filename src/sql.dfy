/** What the repositories hand to the SQL driver: statement text with `?` placeholders and the
    argument list bound to them, and the error wrapping they apply to driver failures. */
module Sql {
  import opened Wrappers
  import T = Text

  /** A bound argument. */
  datatype Arg = Str(s: string) | Int(i: int)

  /** A piece of statement text: literal SQL, or one `?` placeholder. */
  datatype Token = Text(sql: string) | Hole

  type Query = seq<Token>

  /** The number of `?` placeholders. */
  function Holes(q: Query): (n: nat)
    ensures n <= |q|
  {
    if q == [] then 0 else (if q[|q| - 1] == Hole then 1 else 0) + Holes(q[..|q| - 1])
  }

  lemma {:induction false} HolesAppend(a: Query, b: Query)
    ensures Holes(a + b) == Holes(a) + Holes(b)
    decreases |b|
  {
    if b == [] {
      assert a + b == a;
    } else {
      assert (a + b)[..|a + b| - 1] == a + b[..|b| - 1];
      HolesAppend(a, b[..|b| - 1]);
    }
  }

  /** A statement ready for the driver. */
  datatype Statement = Statement(query: Query, args: seq<Arg>)

  /** Every placeholder has exactly one argument: the driver accepts the statement. */
  predicate Bound(st: Statement)
  {
    Holes(st.query) == |st.args|
  }

  /** What `Rows.Scan` of database/sql reports when the column at `index`, named `column`, is
      NULL and the destination is a Go value of kind `goType`: the column first, then the
      conversion that was refused. */
  function NullScan(index: nat, column: string, goType: string): (o: Outcome)
    ensures o.Failure? && T.HasPrefix(o.message, "sql: Scan error on column index ")
  {
    Failure("sql: Scan error on column index " + T.Decimal(index) + ", name \"" + column + "\": "
      + "converting NULL to " + goType + " is unsupported")
  }

  /** `fmt.Errorf("failed to <what>: %w", err)` around a driver outcome. */
  function Wrap(what: string, o: Outcome): (e: Error)
    ensures e.None? <==> o.Success?
    ensures o.Failure? ==> e == Some("failed to " + what + ": " + o.message)
  {
    match o
    case Success => None
    case Failure(m) => Some("failed to " + what + ": " + m)
  }
}

/** The Python side's `inventory` table (one row per product_name, quantity and
    restock_threshold) and `add_product` (src/agents/inventory_agent.py), which
    checks its arguments before issuing a single INSERT. The table is a value:
    the rows in insertion order. */
module PyInventory {
  import opened Util

  datatype Row = Row(name: string, quantity: int, threshold: int)

  /** A Python argument passed where a product name is expected. */
  datatype Arg = StrArg(s: string) | NoneArg | OtherArg

  const DefaultRestockThreshold: int := 10

  /** The largest int sqlite3 binds as an INTEGER parameter (a signed 64-bit
      value); a larger one raises OverflowError before the INSERT runs. */
  const SqliteIntMax: int := 0x7FFF_FFFF_FFFF_FFFF

  const BadNameText: string := "El nombre del producto debe ser una cadena no vacía."
  const NegativeText: string := "La cantidad y el umbral de reposición deben ser mayores o iguales a 0."

  /** The value the name check lets through: a non-empty string. */
  predicate GoodName(name: Arg)
  {
    name.StrArg? && name.s != ""
  }

  /** A Python argument passed where a quantity or threshold is expected: an
      integer (a bool compares as 0 or 1), or a value such as a str or None that
      `< 0` cannot compare with an int. */
  datatype NumArg = IntNum(n: int) | NonNumeric

  /** `add_product(name, quantity, threshold)`: a name that is falsy or not a
      string raises ValueError; then `quantity < 0 or restock_threshold < 0` is
      evaluated left to right, so a quantity that does not compare raises
      TypeError, a negative one raises ValueError without the threshold being
      looked at, and only then is the threshold compared in the same way.
      Binding the parameters of the INSERT then raises OverflowError for a value
      past SQLite's 64-bit integers. No error inserts anything; otherwise the one
      row is appended. */
  function AddProduct(table: seq<Row>, name: Arg, quantity: NumArg, threshold: NumArg): (r: Result<seq<Row>>)
    ensures !GoodName(name) ==> r == Err(ValueError(BadNameText))
    ensures GoodName(name) && quantity.NonNumeric? ==> r == Err(TypeError)
    ensures GoodName(name) && quantity.IntNum? && quantity.n < 0 ==> r == Err(ValueError(NegativeText))
    ensures GoodName(name) && quantity.IntNum? && quantity.n >= 0 && threshold.NonNumeric? ==> r == Err(TypeError)
    ensures GoodName(name) && quantity.IntNum? && quantity.n >= 0 && threshold.IntNum? && threshold.n < 0 ==>
              r == Err(ValueError(NegativeText))
    ensures GoodName(name) && quantity.IntNum? && threshold.IntNum? && quantity.n >= 0 && threshold.n >= 0 ==>
              (quantity.n > SqliteIntMax || threshold.n > SqliteIntMax ==> r == Err(OverflowError))
    ensures r.Ok? <==> GoodName(name) && quantity.IntNum? && threshold.IntNum?
                       && 0 <= quantity.n <= SqliteIntMax && 0 <= threshold.n <= SqliteIntMax
    ensures r.Ok? ==> r.value == table + [Row(name.s, quantity.n, threshold.n)]
  {
    if !GoodName(name) then Err(ValueError(BadNameText))
    else if quantity.NonNumeric? then Err(TypeError)
    else if quantity.n < 0 then Err(ValueError(NegativeText))
    else if threshold.NonNumeric? then Err(TypeError)
    else if threshold.n < 0 then Err(ValueError(NegativeText))
    else if quantity.n > SqliteIntMax || threshold.n > SqliteIntMax then Err(OverflowError)
    else Ok(table + [Row(name.s, quantity.n, threshold.n)])
  }

  /** `add_product(name, quantity)`, with the threshold's default. */
  function AddProductDefault(table: seq<Row>, name: Arg, quantity: NumArg): (r: Result<seq<Row>>)
    ensures r.Ok? <==> GoodName(name) && quantity.IntNum? && 0 <= quantity.n <= SqliteIntMax
    ensures r.Ok? ==> r.value == table + [Row(name.s, quantity.n, 10)]
  {
    AddProduct(table, name, quantity, IntNum(DefaultRestockThreshold))
  }

  /** A call with a name and non-negative values inserts exactly one row and
      leaves the earlier rows as they were, unless a value is past SQLite's
      integers; zero quantity and zero threshold are accepted. */
  lemma AddProductInsertsOnce(table: seq<Row>, name: string, quantity: nat, threshold: nat)
    requires name != ""
    ensures var r := AddProduct(table, StrArg(name), IntNum(quantity), IntNum(threshold));
            if quantity <= SqliteIntMax && threshold <= SqliteIntMax then
              r.Ok? && |r.value| == |table| + 1 && r.value[..|table|] == table
              && r.value[|table|] == Row(name, quantity, threshold)
            else r == Err(OverflowError)
    ensures AddProduct(table, StrArg(name), IntNum(0), IntNum(0)) == Ok(table + [Row(name, 0, 0)])
  {
  }
}

/** `predict_restock` (src/agents/prediction_agent.py): the rows at or below
    their restock threshold, each with a restock amount of twice the threshold. */
module Prediction {
  import opened PyInventory
  import opened Helpers

  datatype Forecast = Forecast(productName: string, currentQuantity: int, restockAmount: int)

  /** The rows `quantity <= restock_threshold` selects, in table order. */
  function LowStockRows(table: seq<Row>): (r: seq<Row>)
    ensures |r| <= |table|
    ensures forall row :: row in r <==> row in table && row.quantity <= row.threshold
  {
    if table == [] then []
    else (if table[0].quantity <= table[0].threshold then [table[0]] else []) + LowStockRows(table[1..])
  }

  /** The query's condition is the reorder rule of `calculate_reorder_level`. */
  lemma QueryIsReorderRule(table: seq<Row>)
    ensures forall row :: row in LowStockRows(table) <==> row in table && CalculateReorderLevel(row.quantity, row.threshold)
  {
  }

  function ForecastOf(row: Row): Forecast
  {
    Forecast(row.name, row.quantity, row.threshold * 2)
  }

  /** One forecast per selected row, in the same order. */
  function Forecasts(table: seq<Row>): (r: seq<Forecast>)
    ensures var low := LowStockRows(table);
            |r| == |low| && forall i :: 0 <= i < |low| ==> r[i] == ForecastOf(low[i])
  {
    var low := LowStockRows(table);
    seq(|low|, i requires 0 <= i < |low| => ForecastOf(low[i]))
  }

  /** The loop over the query's result; nothing is forecast when no row is low. */
  method PredictRestock(table: seq<Row>) returns (predictions: seq<Forecast>)
    ensures predictions == Forecasts(table)
    ensures LowStockRows(table) == [] ==> predictions == []
  {
    var lowStockItems := LowStockRows(table);
    if lowStockItems == [] {
      return [];
    }
    predictions := [];
    var i := 0;
    while i < |lowStockItems|
      invariant 0 <= i <= |lowStockItems|
      invariant |predictions| == i
      invariant forall j :: 0 <= j < i ==> predictions[j] == ForecastOf(lowStockItems[j])
    {
      var row := lowStockItems[i];
      var restockAmount := row.threshold * 2;
      predictions := predictions + [Forecast(row.name, row.quantity, restockAmount)];
      i := i + 1;
    }
  }

  /** Every forecast restocks twice its row's threshold, and names a row that is low. */
  lemma ForecastMeaning(table: seq<Row>)
    ensures forall f :: f in Forecasts(table) ==>
              exists row :: row in table && row.quantity <= row.threshold
                            && f == Forecast(row.name, row.quantity, 2 * row.threshold)
  {
    var low := LowStockRows(table);
    forall f | f in Forecasts(table)
      ensures exists row :: row in table && row.quantity <= row.threshold
                            && f == Forecast(row.name, row.quantity, 2 * row.threshold)
    {
      var i :| 0 <= i < |Forecasts(table)| && Forecasts(table)[i] == f;
      assert low[i] in low;
    }
  }

  /** A product added with quantity 5 under the threshold 10 yields exactly one
      forecast, for that product. */
  lemma OneLowProduct()
    ensures var added := AddProduct([], StrArg("Producto Test"), IntNum(5), IntNum(10));
            added.Ok? && Forecasts(added.value) == [Forecast("Producto Test", 5, 20)]
  {
    var table := [Row("Producto Test", 5, 10)];
    assert table[1..] == [];
    assert LowStockRows(table) == table;
  }
}

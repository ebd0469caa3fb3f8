/** The inventory agent (src/AgentSystem/Agents/InventoryAgent.cs): answers
    stock-level queries, applies stock updates, and raises low-stock
    notifications to the alert and prediction agents. The inventory repository
    is an in-memory table. */
module Stock {
  import opened Util
  import opened Messages
  import opened Bus

  /** Constants.DefaultLowStockThreshold. */
  const DefaultLowStockThreshold: int32 := 10

  /** The threshold the constructor keeps: its argument when positive, the default otherwise. */
  function EffectiveThreshold(requested: int32): (r: int32)
    ensures r > 0
    ensures requested > 0 ==> r == requested
    ensures requested <= 0 ==> r == DefaultLowStockThreshold
  {
    if requested > 0 then requested else DefaultLowStockThreshold
  }

  /** The fields of a Products row that the agents read; None stands for null. */
  datatype Product = Product(code: Option<string>, name: Option<string>, category: Option<string>)

  /** A row of the Inventory table, with its product (None when the product
      row is missing). A null Location reads back as "". Times are ticks. */
  datatype InventoryRow = InventoryRow(id: int32, productId: int32, quantity: int32, minimumStock: int32,
                                       maximumStock: int32, location: string, lastUpdated: int,
                                       product: Option<Product>)

  const UnknownName: string := "Desconocido"

  /** `inventory.Product?.Name ?? "Desconocido"`. */
  function NameOf(row: InventoryRow): (r: string)
    ensures row.product.Some? && row.product.value.name.Some? ==> r == row.product.value.name.value
    ensures !(row.product.Some? && row.product.value.name.Some?) ==> r == UnknownName
  {
    if row.product.Some? && row.product.value.name.Some? then row.product.value.name.value else UnknownName
  }

  /** `is_low_stock`, and the trigger of a low-stock notification. */
  predicate IsLowStock(quantity: int, minimumStock: int)
  {
    quantity <= minimumStock
  }

  datatype Operation = Add | Subtract | Set

  /** The switch on `operation.ToLower()`: "add", "subtract", and anything else
      (including "set") as set. */
  function ParseOperation(op: string): (r: Operation)
    ensures r == Add <==> Lower(op) == "add"
    ensures r == Subtract <==> Lower(op) == "subtract"
  {
    var o := Lower(op);
    if o == "add" then Add else if o == "subtract" then Subtract else Set
  }

  /** The new quantity. C# `int` arithmetic is unchecked: `+=` and `-` wrap. */
  function Apply(op: Operation, current: int32, quantity: int32): (r: int32)
  {
    match op
    case Add => Wrap32(current + quantity)
    case Subtract => Max(0, Wrap32(current - quantity))
    case Set => Max(0, quantity)
  }

  /** Without wrap-around, add adds, subtract takes away down to zero and set
      sets a non-negative level; subtract and set never give a negative stock. */
  lemma ApplyMeaning(op: Operation, current: int32, quantity: int32)
    ensures op == Add && Int32Min <= current + quantity <= Int32Max ==> Apply(op, current, quantity) == current + quantity
    ensures op == Subtract && Int32Min <= current - quantity <= Int32Max ==>
              Apply(op, current, quantity) == Max(0, current - quantity)
    ensures op == Set ==> Apply(op, current, quantity) == Max(0, quantity)
    ensures op != Add ==> Apply(op, current, quantity) >= 0
  {
  }

  /** Past the int range, add and subtract wrap by 2^32: an add that overflows
      gives a negative stock level, one that underflows a positive one; a
      subtract that overflows is then clamped to zero, one that underflows
      gives a positive level. */
  lemma AddWraps(current: int32, quantity: int32)
    ensures current + quantity > Int32Max ==> Apply(Add, current, quantity) == current + quantity - Int32Span < 0
    ensures current + quantity < Int32Min ==> Apply(Add, current, quantity) == current + quantity + Int32Span >= 0
    ensures current - quantity > Int32Max ==> Apply(Subtract, current, quantity) == 0
    ensures current - quantity < Int32Min ==> Apply(Subtract, current, quantity) == current - quantity + Int32Span > 0
    ensures Apply(Add, Int32Max as int32, 1) == Int32Min
  {
  }

  /** The operation is matched without regard to ASCII case. */
  lemma ParseOperationIgnoresCase(a: string, b: string)
    requires Lower(a) == Lower(b)
    ensures ParseOperation(a) == ParseOperation(b)
  {
  }

  /** The first row of the product, as `GetByProductId` reads it. */
  function FindRow(rows: seq<InventoryRow>, productId: int32): (r: Option<nat>)
    ensures r.Some? ==> r.value < |rows| && rows[r.value].productId == productId
    ensures forall i :: 0 <= i < |rows| && (r.None? || i < r.value) ==> rows[i].productId != productId
  {
    if rows == [] then None
    else if rows[0].productId == productId then Some(0)
    else
      var t := FindRow(rows[1..], productId);
      if t.Some? then Some(t.value + 1) else None
  }

  function NoInventoryText(productId: int32): string
  {
    "No se encontró inventario para el producto con ID " + IntToString(productId)
  }

  /** The payload of the `low_stock_alert` message. */
  function LowStockContent(row: InventoryRow): Payload
  {
    map["product_id" := Int(row.productId), "product_name" := Str(NameOf(row)),
        "current_quantity" := Int(row.quantity), "minimum_stock" := Int(row.minimumStock)]
  }

  /** The alert agent reads back, with its own defaults, exactly the row's
      product, name, quantity and minimum. */
  lemma LowStockContentReadsBack(row: InventoryRow, nameDefault: string)
    ensures Lookup(LowStockContent(row), "product_id", IntKind, Int(0)) == Int(row.productId)
    ensures Lookup(LowStockContent(row), "product_name", StrKind, Str(nameDefault)) == Str(NameOf(row))
    ensures Lookup(LowStockContent(row), "current_quantity", IntKind, Int(0)) == Int(row.quantity)
    ensures Lookup(LowStockContent(row), "minimum_stock", IntKind, Int(0)) == Int(row.minimumStock)
  {
  }

  /** `GetLowStockItems(threshold)`: at or below the row's own minimum when the
      threshold is 0, at or below the threshold otherwise; in scan order. */
  function LowStockRows(rows: seq<InventoryRow>, threshold: int32): (r: seq<InventoryRow>)
    ensures |r| <= |rows|
    ensures forall row :: row in r <==>
              row in rows && (if threshold == 0 then IsLowStock(row.quantity, row.minimumStock)
                              else row.quantity <= threshold)
  {
    if rows == [] then []
    else
      var row := rows[0];
      var keep := if threshold == 0 then IsLowStock(row.quantity, row.minimumStock) else row.quantity <= threshold;
      (if keep then [row] else []) + LowStockRows(rows[1..], threshold)
  }

  /** One object of the `low_stock_items` list. */
  function ItemValue(row: InventoryRow): Value
  {
    Obj(map["ProductId" := Int(row.productId), "ProductName" := Str(NameOf(row)), "Quantity" := Int(row.quantity),
            "MinimumStock" := Int(row.minimumStock), "Location" := Str(row.location)])
  }

  function ItemList(rows: seq<InventoryRow>): (r: Value)
    ensures r.List? && |r.items| == |rows| && forall i :: 0 <= i < |rows| ==> r.items[i] == ItemValue(rows[i])
  {
    List(seq(|rows|, i requires 0 <= i < |rows| => ItemValue(rows[i])))
  }

  /** The payload of a `get_product_stock` answer. */
  function StockContent(productId: int32, row: InventoryRow): Payload
  {
    map["product_id" := Int(productId), "product_name" := Str(NameOf(row)), "quantity" := Int(row.quantity),
        "minimum_stock" := Int(row.minimumStock), "maximum_stock" := Int(row.maximumStock),
        "location" := Str(row.location), "last_updated" := Time(row.lastUpdated)]
  }

  method StockReply(m: Message, productId: int32, row: InventoryRow, ids: IdSource, now: int) returns (resp: Message)
    modifies ids
    ensures fresh(resp) && Responds(resp, m, StockContent(productId, row))
  {
    resp := m.CreateResponse(ids, now, None);
    resp.AddContent("product_id", Int(productId));
    resp.AddContent("product_name", Str(NameOf(row)));
    resp.AddContent("quantity", Int(row.quantity));
    resp.AddContent("minimum_stock", Int(row.minimumStock));
    resp.AddContent("maximum_stock", Int(row.maximumStock));
    resp.AddContent("location", Str(row.location));
    resp.AddContent("last_updated", Time(row.lastUpdated));
  }

  /** `after` is `before` with every row whose Id is `id` replaced by `row`. */
  ghost predicate Overwritten(before: seq<InventoryRow>, after: seq<InventoryRow>, id: int32, row: InventoryRow)
  {
    |after| == |before| && forall i :: 0 <= i < |after| ==> after[i] == if before[i].id == id then row else before[i]
  }

  /** The Inventory table, in scan order. */
  class InventoryTable {
    var rows: seq<InventoryRow>

    constructor (rows: seq<InventoryRow>)
      ensures this.rows == rows
    {
      this.rows := rows;
    }

    /** Stamps the row with `now` and writes it over every row with its Id. */
    method Update(row: InventoryRow, now: int) returns (stamped: InventoryRow)
      modifies this
      ensures stamped == row.(lastUpdated := now)
      ensures Overwritten(old(rows), rows, row.id, stamped)
    {
      stamped := row.(lastUpdated := now);
      var current := rows;
      rows := seq(|current|, i requires 0 <= i < |current| => if current[i].id == row.id then stamped else current[i]);
    }
  }

  method LowStockMessage(row: InventoryRow, ids: IdSource, now: int) returns (n: Message)
    modifies ids
    ensures fresh(n) && n.receiver == "alert_agent" && n.kind == Notification && n.subject == "low_stock_alert"
    ensures n.content == LowStockContent(row) && !n.isProcessed && n.replyTo == None
  {
    n := new Message.Blank(ids, now);
    n.receiver := "alert_agent";
    n.kind := Notification;
    n.subject := "low_stock_alert";
    n.AddContent("product_id", Int(row.productId));
    n.AddContent("product_name", Str(NameOf(row)));
    n.AddContent("current_quantity", Int(row.quantity));
    n.AddContent("minimum_stock", Int(row.minimumStock));
  }

  method ReorderMessage(row: InventoryRow, ids: IdSource, now: int) returns (n: Message)
    modifies ids
    ensures fresh(n) && n.receiver == "prediction_agent" && n.kind == Request && n.subject == "calculate_reorder"
    ensures n.content == map["product_id" := Int(row.productId)] && !n.isProcessed && n.replyTo == None
  {
    n := new Message.Blank(ids, now);
    n.receiver := "prediction_agent";
    n.kind := Request;
    n.subject := "calculate_reorder";
    n.AddContent("product_id", Int(row.productId));
  }

  /** What the found-row branch of `update_inventory` sends for `updated`,
      a row whose quantity was `oldQuantity`: the low-stock notifications when
      it is at or below its minimum, then the answer; `queue` is the broker's
      queue before. */
  ghost predicate AnsweredUpdate(a: Agent, m: Message, queue: seq<Message>, r: Outcome, sent: seq<Message>,
                                 productId: int32, oldQuantity: int32, updated: InventoryRow)
    reads a, a.comm, m, sent
  {
    var low := IsLowStock(updated.quantity, updated.minimumStock);
    && (low ==> 1 <= |sent| && sent[0].subject == "low_stock_alert" && sent[0].content == LowStockContent(updated))
    && (a.comm == null ==> r == Fail(InvalidOperation(NoBrokerText)) && |sent| == 1)
    && (a.comm != null ==>
          r == Pass && |sent| == (if low then 3 else 1) && Posted(a, queue, sent)
          && (low ==> sent[1].subject == "calculate_reorder")
          && Responds(sent[|sent| - 1], m, map["success" := Bool(true), "product_id" := Int(productId),
                                               "old_quantity" := Int(oldQuantity),
                                               "new_quantity" := Int(updated.quantity)]))
  }

  class InventoryAgent {
    const agent: Agent
    const table: InventoryTable
    const threshold: int32      // _lowStockThreshold
    var lastCheckTime: int      // _lastCheckTime, in ticks

    constructor (table: InventoryTable, lowStockThreshold: int32)
      ensures this.table == table && threshold == EffectiveThreshold(lowStockThreshold) && lastCheckTime == 0
      ensures fresh(agent) && agent.id == "inventory_agent" && agent.name == "Agente de Inventario"
      ensures agent.description == "Monitorea y gestiona el inventario"
      ensures agent.inbox == [] && !agent.isRunning && agent.comm == null
    {
      agent := new Agent("inventory_agent", "Agente de Inventario", "Monitorea y gestiona el inventario");
      this.table := table;
      threshold := EffectiveThreshold(lowStockThreshold);
      lastCheckTime := 0;   // DateTime.MinValue
    }

    /** Tells the alert agent, then the prediction agent, that the row is low;
        if the first send throws, the second message is not sent. */
    method NotifyLowStock(row: InventoryRow, ids: IdSource, now: int) returns (r: Outcome, sent: seq<Message>)
      modifies ids, (if agent.comm == null then {} else {agent.comm})`queue
      ensures 1 <= |sent| <= 2 && forall i :: 0 <= i < |sent| ==> fresh(sent[i])
      ensures sent[0].receiver == "alert_agent" && sent[0].kind == Notification && sent[0].subject == "low_stock_alert"
      ensures sent[0].content == LowStockContent(row)
      ensures agent.comm == null ==> r == Fail(InvalidOperation(NoBrokerText)) && |sent| == 1
      ensures agent.comm != null ==>
                r == Pass && |sent| == 2 && Posted(agent, old(agent.comm.queue), sent)
                && sent[1].receiver == "prediction_agent" && sent[1].kind == Request
                && sent[1].subject == "calculate_reorder" && sent[1].content == map["product_id" := Int(row.productId)]
    {
      var alertMessage := LowStockMessage(row, ids, now);
      r := agent.SendMessage(alertMessage);
      if r.Fail? {
        return r, [alertMessage];
      }
      var predictionMessage := ReorderMessage(row, ids, now);
      r := agent.SendMessage(predictionMessage);
      sent := [alertMessage, predictionMessage];
    }

    /** What `check_stock_level` leaves behind: the table as it was, and one
        answer with the product's quantity, minimum and whether it is low, or
        an error when it has no inventory row. */
    twostate predicate StockLevelAnswered(m: Message, r: Outcome, new sent: seq<Message>)
      reads this, table, agent, agent.comm, m, sent
    {
      var pid := m.GetInt("product_id", 0);
      var found := FindRow(table.rows, pid);
      && agent.comm == old(agent.comm) && table.rows == old(table.rows)
      && |sent| == 1 && fresh(sent[0])
      && (found.Some? ==>
            var row := table.rows[found.value];
            Responds(sent[0], m, map["product_id" := Int(pid), "quantity" := Int(row.quantity),
                                     "minimum_stock" := Int(row.minimumStock),
                                     "is_low_stock" := Bool(IsLowStock(row.quantity, row.minimumStock))]))
      && (found.None? ==> Responds(sent[0], m, map["error" := Str(NoInventoryText(pid))]))
      && (agent.comm == null ==> r == Fail(InvalidOperation(NoBrokerText)))
      && (agent.comm != null ==> r == Pass && Posted(agent, old(agent.comm.queue), sent))
    }

    /** `check_stock_level`: answers with the product's quantity, minimum and
        whether it is low, or with an error when it has no inventory row. */
    method ProcessCheckStockLevel(m: Message, ids: IdSource, now: int) returns (r: Outcome, sent: seq<Message>)
      modifies ids, (if agent.comm == null then {} else {agent.comm})`queue
      ensures StockLevelAnswered(m, r, sent)
    {
      var productId := m.GetInt("product_id", 0);
      var found := FindRow(table.rows, productId);
      var response;
      if found.Some? {
        var row := table.rows[found.value];
        response := Reply4(m, ids, now, "product_id", Int(productId), "quantity", Int(row.quantity),
                           "minimum_stock", Int(row.minimumStock),
                           "is_low_stock", Bool(IsLowStock(row.quantity, row.minimumStock)));
      } else {
        response := Reply1(m, ids, now, "error", Str(NoInventoryText(productId)));
      }
      ghost var content := response.content;
      r := agent.SendMessage(response);
      sent := [response];
      assert m.GetInt("product_id", 0) == productId && table.rows == old(table.rows);
      assert response.content == content;
    }

    /** What `update_inventory` leaves behind: the product's row with the
        operation applied and the answer (after the low-stock notifications when
        the row is low), or with no row the table as it was and an error answer. */
    twostate predicate UpdateHandled(m: Message, now: int, r: Outcome, new sent: seq<Message>)
      reads this, table, agent, agent.comm, m, sent
    {
      var pid := m.GetInt("product_id", 0);
      var found := FindRow(old(table.rows), pid);
      && agent.comm == old(agent.comm)
      && (found.None? ==>
            table.rows == old(table.rows) && |sent| == 1 && fresh(sent[0])
            && Responds(sent[0], m, map["success" := Bool(false), "error" := Str(NoInventoryText(pid))])
            && (agent.comm == null ==> r == Fail(InvalidOperation(NoBrokerText)))
            && (agent.comm != null ==> r == Pass && Posted(agent, old(agent.comm.queue), sent)))
      && (found.Some? ==>
            var before := old(table.rows)[found.value];
            var after := before.(quantity := Apply(ParseOperation(m.GetString("operation", "set")),
                                                   before.quantity, m.GetInt("quantity", 0)),
                                 lastUpdated := now);
            && Overwritten(old(table.rows), table.rows, before.id, after)
            && (forall i :: 0 <= i < |sent| ==> fresh(sent[i]))
            && AnsweredUpdate(agent, m, old(if agent.comm == null then [] else agent.comm.queue), r, sent,
                              pid, before.quantity, after))
    }

    /** `update_inventory`: applies the operation to the product's row, raises
        the low-stock notifications when the new quantity is at or below the
        minimum, then answers with the old and new quantity; with no row it
        changes nothing and answers with an error. */
    method ProcessUpdateInventory(m: Message, ids: IdSource, now: int) returns (r: Outcome, sent: seq<Message>)
      modifies table, ids, (if agent.comm == null then {} else {agent.comm})`queue
      ensures UpdateHandled(m, now, r, sent)
    {
      var productId := m.GetInt("product_id", 0);
      var quantity := m.GetInt("quantity", 0);
      var operation := m.GetString("operation", "set");
      var found := FindRow(table.rows, productId);
      if found.None? {
        r, sent := UpdateMissing(m, productId, ids, now);
        return;
      }
      r, sent := UpdateRow(m, table.rows[found.value], productId, ParseOperation(operation), quantity, ids, now);
      assert m.GetInt("product_id", 0) == productId && m.GetInt("quantity", 0) == quantity;
      assert m.GetString("operation", "set") == operation;
    }

    /** The no-row branch of `update_inventory`: an error answer. */
    method UpdateMissing(m: Message, productId: int32, ids: IdSource, now: int) returns (r: Outcome, sent: seq<Message>)
      modifies ids, (if agent.comm == null then {} else {agent.comm})`queue
      ensures |sent| == 1 && fresh(sent[0])
      ensures Responds(sent[0], m, map["success" := Bool(false), "error" := Str(NoInventoryText(productId))])
      ensures agent.comm == null ==> r == Fail(InvalidOperation(NoBrokerText))
      ensures agent.comm != null ==> r == Pass && Posted(agent, old(agent.comm.queue), sent)
    {
      var response := Reply2(m, ids, now, "success", Bool(false), "error", Str(NoInventoryText(productId)));
      ghost var content := response.content;
      r := agent.SendMessage(response);
      sent := [response];
      assert response.content == content;
    }

    /** The found-row branch of `update_inventory`. */
    method UpdateRow(m: Message, before: InventoryRow, productId: int32, op: Operation, quantity: int32,
                     ids: IdSource, now: int)
      returns (r: Outcome, sent: seq<Message>)
      modifies table, ids, (if agent.comm == null then {} else {agent.comm})`queue
      ensures var after := before.(quantity := Apply(op, before.quantity, quantity), lastUpdated := now);
              && Overwritten(old(table.rows), table.rows, before.id, after)
              && (forall i :: 0 <= i < |sent| ==> fresh(sent[i]))
              && AnsweredUpdate(agent, m, old(if agent.comm == null then [] else agent.comm.queue), r, sent,
                                productId, before.quantity, after)
    {
      var updated := before.(quantity := Apply(op, before.quantity, quantity), lastUpdated := now);
      updated := table.Update(updated, now);
      r, sent := AnswerUpdate(m, updated, productId, before.quantity, ids, now);
    }

    /** The messages of the found-row branch, for the row as updated: the
        low-stock notifications when it is at or below its minimum, then the answer. */
    method AnswerUpdate(m: Message, updated: InventoryRow, productId: int32, oldQuantity: int32, ids: IdSource, now: int)
      returns (r: Outcome, sent: seq<Message>)
      modifies ids, (if agent.comm == null then {} else {agent.comm})`queue
      ensures forall i :: 0 <= i < |sent| ==> fresh(sent[i])
      ensures AnsweredUpdate(agent, m, old(if agent.comm == null then [] else agent.comm.queue), r, sent,
                             productId, oldQuantity, updated)
    {
      var response := Reply4(m, ids, now, "success", Bool(true), "product_id", Int(productId),
                             "old_quantity", Int(oldQuantity), "new_quantity", Int(updated.quantity));
      ghost var content := response.content;
      sent := [];
      if IsLowStock(updated.quantity, updated.minimumStock) {
        r, sent := NotifyLowStock(updated, ids, now);
        if r.Fail? {
          return;
        }
      }
      r := agent.SendMessage(response);
      sent := sent + [response];
      assert response.content == content;
    }

    /** What `get_product_stock` leaves behind: the table as it was, and one
        answer with the product's row or an error. */
    twostate predicate ProductStockAnswered(m: Message, r: Outcome, new sent: seq<Message>)
      reads this, table, agent, agent.comm, m, sent
    {
      var pid := m.GetInt("product_id", 0);
      var found := FindRow(table.rows, pid);
      && agent.comm == old(agent.comm) && table.rows == old(table.rows)
      && |sent| == 1 && fresh(sent[0])
      && (found.Some? ==> Responds(sent[0], m, StockContent(pid, table.rows[found.value])))
      && (found.None? ==> Responds(sent[0], m, map["error" := Str(NoInventoryText(pid))]))
      && (agent.comm == null ==> r == Fail(InvalidOperation(NoBrokerText)))
      && (agent.comm != null ==> r == Pass && Posted(agent, old(agent.comm.queue), sent))
    }

    /** `get_product_stock`: answers with the product's row, or with an error. */
    method ProcessGetProductStock(m: Message, ids: IdSource, now: int) returns (r: Outcome, sent: seq<Message>)
      modifies ids, (if agent.comm == null then {} else {agent.comm})`queue
      ensures ProductStockAnswered(m, r, sent)
    {
      var productId := m.GetInt("product_id", 0);
      var found := FindRow(table.rows, productId);
      var response;
      if found.Some? {
        response := StockReply(m, productId, table.rows[found.value], ids, now);
      } else {
        response := Reply1(m, ids, now, "error", Str(NoInventoryText(productId)));
      }
      ghost var content := response.content;
      r := agent.SendMessage(response);
      sent := [response];
      assert m.GetInt("product_id", 0) == productId && table.rows == old(table.rows);
      assert response.content == content;
    }

    /** What `get_low_stock_items` leaves behind: the table as it was, and one
        answer with the low rows by the requested or the agent's threshold and
        their count. */
    twostate predicate LowStockItemsAnswered(m: Message, r: Outcome, new sent: seq<Message>)
      reads this, table, agent, agent.comm, m, sent
    {
      var items := LowStockRows(table.rows, m.GetInt("threshold", threshold));
      && agent.comm == old(agent.comm) && table.rows == old(table.rows)
      && |sent| == 1 && fresh(sent[0])
      && Responds(sent[0], m, map["low_stock_items" := ItemList(items), "count" := Int(Wrap32(|items|))])
      && (agent.comm == null ==> r == Fail(InvalidOperation(NoBrokerText)))
      && (agent.comm != null ==> r == Pass && Posted(agent, old(agent.comm.queue), sent))
    }

    /** `get_low_stock_items`: answers with the low rows, judged by the
        requested threshold or else the agent's own, and their count. */
    method ProcessGetLowStockItems(m: Message, ids: IdSource, now: int)
      returns (r: Outcome, sent: seq<Message>, items: seq<InventoryRow>)
      modifies ids, (if agent.comm == null then {} else {agent.comm})`queue
      ensures items == LowStockRows(table.rows, m.GetInt("threshold", threshold))
      ensures LowStockItemsAnswered(m, r, sent)
    {
      var limit := m.GetInt("threshold", threshold);
      items := LowStockRows(table.rows, limit);
      var response := Reply2(m, ids, now, "low_stock_items", ItemList(items), "count", Int(Wrap32(|items|)));
      r := agent.SendMessage(response);
      sent := [response];
    }

    /** ProcessMessage: each of the four subjects has its handler's effect;
        other subjects are ignored. */
    method ProcessMessage(m: Message, ids: IdSource, now: int) returns (r: Outcome, sent: seq<Message>)
      modifies table, ids, (if agent.comm == null then {} else {agent.comm})`queue
      ensures m.subject == "check_stock_level" ==> StockLevelAnswered(m, r, sent)
      ensures m.subject == "update_inventory" ==> UpdateHandled(m, now, r, sent)
      ensures m.subject == "get_product_stock" ==> ProductStockAnswered(m, r, sent)
      ensures m.subject == "get_low_stock_items" ==> LowStockItemsAnswered(m, r, sent)
      ensures m.subject !in {"check_stock_level", "update_inventory", "get_product_stock", "get_low_stock_items"} ==>
                r == Pass && sent == [] && table.rows == old(table.rows)
                && (agent.comm != null ==> agent.comm.queue == old(agent.comm.queue))
    {
      if m.subject == "check_stock_level" {
        r, sent := ProcessCheckStockLevel(m, ids, now);
      } else if m.subject == "update_inventory" {
        r, sent := ProcessUpdateInventory(m, ids, now);
      } else if m.subject == "get_product_stock" {
        r, sent := ProcessGetProductStock(m, ids, now);
      } else if m.subject == "get_low_stock_items" {
        var items;
        r, sent, items := ProcessGetLowStockItems(m, ids, now);
      } else {
        r, sent := Pass, [];
      }
    }
  }
}

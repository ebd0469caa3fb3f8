# Inventory agents: a Dafny model

This project models an inventory-management system made of cooperating agents.

On the C# side the agents run over an in-process message bus:
- A broker keeps a registry of agents and a FIFO queue of submitted messages. It dispatches each message to its receiver, or to every agent but the sender when the receiver is `"*"`.
- Each agent has its own inbox, a running flag and a processing loop. The loop hands one message at a time to the agent's handler and then runs the agent's periodic hook.
- A supervisor (`AgentManager`) owns the broker and starts and stops the agents.
- Three business agents sit on the bus:
  - the alert agent keeps the list of active alerts;
  - the inventory agent applies stock movements and raises low-stock notifications;
  - the report agent writes inventory and low-stock reports as JSON or CSV.

On the Python side the project models:
- product input validation (`add_product`, `validate_product_data`, `calculate_reorder_level`);
- the restock prediction (`predict_restock`);
- the report generator with its ABC classification and alert list (`generate_report`, `generate_pdf_report`).

The model is sequential:
- A dispatch step and an agent step are ordinary methods. No threads are modelled.
- Message ids come from a counter (`Messages.IdSource`). The clock is an integer tick parameter.
- Database tables are in-memory values or classes. C# `int` is the subtype `Util.int32`, and unchecked arithmetic is written out with `Util.Wrap32`.

Modules, one per source file (the Python table and its checks have modules of their own):

| module | file | models |
|---|---|---|
| `Util` | util.dfy | int32, Option/Result/Outcome, number text, ASCII lower-casing |
| `Messages` | message.dfy | `Message.cs` |
| `Bus` | bus.dfy | `Agent.cs`, `A2ACommunication.cs` |
| `Supervisor` | supervisor.dfy | `AgentManager.cs` |
| `Alerts` | alerts.dfy | `AlertAgent.cs` and the alert table |
| `Stock` | inventory.dfy | `InventoryAgent.cs` and the inventory table |
| `Reports` | report.dfy | `ReportAgent.cs` |
| `PyInventory` | py_inventory.dfy | `inventory_agent.py` |
| `Helpers` | helpers.dfy | `helpers.py` |
| `Prediction` | prediction.dfy | `prediction_agent.py` |
| `ReportGenerator` | report_generator.dfy | `report_generator.py` |

## Model

| member | source | states |
|---|---|---|
| Util.Wrap32 | src/AgentSystem/Agents/InventoryAgent.cs:102-104 | unchecked int arithmetic: the identity inside the int range, and always congruent to its argument modulo 2^32 |
| Util.ParseNatToString | src/AgentSystem/Agents/AlertAgent.cs:166 | the decimal text of an id interpolated into a message parses back to the id |
| Util.NatToStringInjective | src/AgentSystem/Agents/AlertAgent.cs:166 | distinct ids give distinct texts |
| Util.Lower | src/AgentSystem/Agents/InventoryAgent.cs:100 | `ToLower` keeps the length and lower-cases each ASCII capital, leaving other characters alone |
| Messages.UpsertSetsOnlyKey | src/AgentSystem/Core/Message.cs:43-53 | after an upsert the key maps to the new value, every other key keeps its value, and the key set gains only that key |
| Messages.UpsertIdempotent | src/AgentSystem/Core/Message.cs:43-53 | upserting the same key and value twice equals doing it once |
| Messages.Lookup | src/AgentSystem/Core/Message.cs:55-62 | the result has the requested kind or is the default; a missing key gives the default |
| Messages.LookupAfterUpsert | src/AgentSystem/Core/Message.cs:43-62 | reading a key just written gives the value if it has the requested kind, else the default |
| Messages.LookupOtherKey | src/AgentSystem/Core/Message.cs:43-62 | writing one key does not change what another key reads |
| Messages.IdSource.Fresh | src/AgentSystem/Core/Message.cs:28 | each id is issued once: the counter's old value, after which it advances |
| Messages.Message.Blank | src/AgentSystem/Core/Message.cs:26-32 | a new message has a fresh id, the creation time, empty content, no reply link, and is not processed |
| Messages.Message.constructor | src/AgentSystem/Core/Message.cs:34-41 | as Blank, plus the given sender, receiver, type and subject |
| Messages.Message.AddContent | src/AgentSystem/Core/Message.cs:43-53 | the content becomes the upsert of the key and value into the old content; an existing key is overwritten, never rejected |
| Messages.Message.GetInt | src/AgentSystem/Core/Message.cs:55-62 | the stored integer when the key holds one, else the default |
| Messages.Message.GetNullableInt | src/AgentSystem/Core/Message.cs:55-62 | the stored integer when the key holds one, else null |
| Messages.Message.GetString | src/AgentSystem/Core/Message.cs:55-62 | the stored string when the key holds one, else the default |
| Messages.Message.CreateResponse | src/AgentSystem/Core/Message.cs:64-75 | a fresh message: sender and receiver swapped, type Response, reply link to the original's id, subject "Re: " + the original's or the one given, empty content |
| Bus.Broker.StartAsWritten | src/AgentSystem/Core/A2ACommunication.cs:24-31 | the broker's dispatch state and outcome are those of Start as written |
| Bus.Dispatcher.StartAsWritten | src/AgentSystem/Core/A2ACommunication.cs:24-31 | Start as written: sets the flag, then starts the one thread object, which cannot be started twice |
| Bus.Dispatcher.Start | src/AgentSystem/Core/A2ACommunication.cs:24-31 | corrected Start: afterwards the flag is set; a stopped broker is dispatching; a running one is unchanged |
| Bus.Dispatcher.Stop | src/AgentSystem/Core/A2ACommunication.cs:33-40 | afterwards the flag is clear and nothing is dispatched; a stopped broker is unchanged |
| Bus.RestartAsWrittenFails | src/AgentSystem/Core/A2ACommunication.cs:16-31 | start, stop, start as written throws ThreadStateException and leaves the flag set with no dispatch thread |
| Bus.RestartDispatches | src/AgentSystem/Core/A2ACommunication.cs:24-40 | with the corrected Start, after any sequence of starts and stops the broker dispatches iff its flag is set, and after a final start it dispatches |
| Bus.Agent.constructor | src/AgentSystem/Core/Agent.cs:22-30 | id, name and description as given; empty inbox and processed list; not running; no broker |
| Bus.Agent.SetCommunicationSystem | src/AgentSystem/Core/Agent.cs:32-35 | binds the agent to the given broker |
| Bus.Agent.Start | src/AgentSystem/Core/Agent.cs:37-50 | no-op while running; throws and stays stopped with no broker; otherwise running and not faulted |
| Bus.Agent.Stop | src/AgentSystem/Core/Agent.cs:52-63 | afterwards not running; throws the processing Task's fault when a faulted loop is awaited, else passes |
| Bus.Agent.ReceiveMessage | src/AgentSystem/Core/Agent.cs:65-74 | the inbox gains the message at its tail iff it is addressed to this agent or to everyone; the running flag is not consulted |
| Bus.Agent.SendMessage | src/AgentSystem/Core/Agent.cs:76-83 | throws with no broker; otherwise signs the message with the agent's id and appends it to the broker's queue |
| Bus.Agent.Step | src/AgentSystem/Core/Agent.cs:85-120 | an inactive loop does nothing; otherwise the inbox head, if any, goes to the handler, then the periodic hook runs once; a handler that returns marks the message processed and records it; a throwing handler is swallowed and neither; a throwing periodic hook faults the loop |
| Bus.Broker.constructor | src/AgentSystem/Core/A2ACommunication.cs:16-22 | empty registry and queue, not running, no thread started |
| Bus.Broker.Start | src/AgentSystem/Core/A2ACommunication.cs:24-31 | the dispatcher becomes its corrected Start |
| Bus.Broker.Stop | src/AgentSystem/Core/A2ACommunication.cs:33-40 | the dispatcher becomes its Stop |
| Bus.Broker.RegisterAgent | src/AgentSystem/Core/A2ACommunication.cs:42-55 | null throws ArgumentNullException and a known id throws InvalidOperationException, both leaving the registry as it was; a new id adds exactly id→agent and binds the agent to this broker |
| Bus.Broker.UnregisterAgent | src/AgentSystem/Core/A2ACommunication.cs:57-66 | the registry loses the id if present and is otherwise unchanged |
| Bus.Broker.SendMessage | src/AgentSystem/Core/A2ACommunication.cs:68-77 | null throws and leaves the queue; otherwise the message is appended at the tail |
| Bus.Broker.DispatchStep | src/AgentSystem/Core/A2ACommunication.cs:79-101 | when not dispatching or the queue is empty, nothing changes; otherwise only the head is removed and delivered |
| Bus.Broker.DeliverMessage | src/AgentSystem/Core/A2ACommunication.cs:103-136 | every registered agent's inbox gains the message once if it is addressed to that agent and is otherwise unchanged: a broadcast reaches every registered agent except its sender, the same message object each time; a unicast reaches the named agent if it is registered and no other; an unknown receiver gets nothing |
| Bus.Broker.GetAgent | src/AgentSystem/Core/A2ACommunication.cs:146-156 | the registered agent, or null iff the id is not registered |
| Bus.Broker.GetAllAgents | src/AgentSystem/Core/A2ACommunication.cs:138-144 | each registered agent exactly once, and nothing else |
| Bus.Enumerate | src/AgentSystem/Core/A2ACommunication.cs:142 | the dictionary's keys in some order, each exactly once |
| Supervisor.AgentManager.constructor | src/AgentSystem/Core/AgentManager.cs:12-16 | a fresh broker and no managed agents |
| Supervisor.AgentManager.StartAsWritten | src/AgentSystem/Core/AgentManager.cs:18-27 | as written, on the broker's as-written Start: when that throws, ThreadStateException propagates and no agent is started; a manager whose broker was started and stopped always ends so; otherwise as Start |
| Supervisor.AgentManager.Start | src/AgentSystem/Core/AgentManager.cs:18-27 | corrected, on the broker's corrected Start: the broker is started before any agent, and a stopped or restarted broker dispatches again; then each managed agent is started once, in some order; the first agent that throws ends the loop |
| Supervisor.AgentManager.StartAgents | src/AgentSystem/Core/AgentManager.cs:22-26 | the loop of Start: distinct managed agents in order; all running when none throws |
| Supervisor.AgentManager.StartInOrder | src/AgentSystem/Core/AgentManager.cs:23-26 | the agents are started in the given key order, each recorded once, until the first one that throws |
| Supervisor.AgentManager.Stop | src/AgentSystem/Core/AgentManager.cs:29-38 | every managed agent is stopped once before the broker; the first agent whose Stop throws ends the loop, and the broker stays running |
| Supervisor.AgentManager.StopAgents | src/AgentSystem/Core/AgentManager.cs:32-35 | the loop of Stop: distinct managed agents in order; none running when none throws |
| Supervisor.AgentManager.StopInOrder | src/AgentSystem/Core/AgentManager.cs:32-35 | the agents are stopped in the given key order, each recorded once, until the first one whose Stop throws |
| Supervisor.AgentManager.RegisterAgent | src/AgentSystem/Core/AgentManager.cs:40-50 | null and a managed id are rejected with the managed set unchanged; otherwise the agent joins the managed set and the broker's registry |
| Supervisor.AgentManager.UnregisterAgent | src/AgentSystem/Core/AgentManager.cs:52-60 | a managed agent is stopped, then removed from both broker and managed set; an unknown id is a no-op |
| Supervisor.AgentManager.GetAgent | src/AgentSystem/Core/AgentManager.cs:62-69 | the managed agent, or null iff the id is not managed |
| Supervisor.AgentManager.GetAllAgents | src/AgentSystem/Core/AgentManager.cs:71-74 | each managed agent exactly once |
| Supervisor.AgentManager.SendBroadcastMessage | src/AgentSystem/Core/AgentManager.cs:76-88 | exactly one fresh message is appended to the queue, addressed to `"*"` with the given sender, type and subject, carrying the content or an empty one |
| Alerts.ParseType | src/AgentSystem/Agents/AlertAgent.cs:192-195 | `Enum.TryParse`, modelled as succeeding only on a member's exact name |
| Alerts.ParseTypeName | src/AgentSystem/Agents/AlertAgent.cs:128 | every type name parses back to its member, and parsing fails exactly on strings that are no member's name |
| Alerts.ParseSeverityName | src/AgentSystem/Agents/AlertAgent.cs:197-200 | the same for severities |
| Alerts.FirstLowStock | src/AgentSystem/Agents/AlertAgent.cs:85-88 | the first unresolved LowStock alert of the product, and none before it |
| Alerts.FirstWithId | src/AgentSystem/Agents/AlertAgent.cs:149 | the first alert with the id, and none before it |
| Alerts.Shown | src/AgentSystem/Agents/AlertAgent.cs:133-136 | exactly the unresolved, unexpired alerts of the requested type, or of any type when none is requested |
| Alerts.Expire | src/AgentSystem/Agents/AlertAgent.cs:67-71 | an expired alert is no longer live |
| Alerts.MarkStale | src/AgentSystem/Agents/AlertAgent.cs:63-71 | each unresolved alert older than seven days is expired and stamped; others untouched |
| Alerts.Unexpired | src/AgentSystem/Agents/AlertAgent.cs:74 | `RemoveAll(IsExpired)`: exactly the unexpired alerts remain |
| Alerts.SweepKeepsFresh | src/AgentSystem/Agents/AlertAgent.cs:59-75 | on live alerts the sweep keeps exactly the alerts that are not stale, in order, and none left is expired or stale |
| Alerts.AlertList | src/AgentSystem/Agents/AlertAgent.cs:138 | the `alerts` entry lists the shown alerts, in order |
| Alerts.NotificationContent | src/AgentSystem/Agents/AlertAgent.cs:238-242 | the notification carries exactly alert_id, alert_type, alert_severity, alert_message and product_id |
| Alerts.NotificationBuilt | src/AgentSystem/Agents/AlertAgent.cs:238-242 | the five AddContent calls on an empty payload build that content |
| Alerts.NotificationReadsBack | src/AgentSystem/Agents/AlertAgent.cs:238-242 | a reader gets the alert's id, type, severity, text and product back |
| Alerts.RowsUpdated | src/Data/Database/Repositories/AlertRepository.cs:111-142 | an update writes the row with the alert's id and no other |
| Alerts.AlertTable.Add | src/Data/Database/Repositories/AlertRepository.cs:86-109 | keeps the AUTOINCREMENT invariant that no row id exceeds the last one issued (src/Data/Database/DatabaseInitializer.cs:91-92); the row is inserted under the next row id, which no existing row has, with that id in its Id column when it fits an int; the id comes back, or OverflowException once it leaves the int range |
| Alerts.AlertTable.Update | src/Data/Database/Repositories/AlertRepository.cs:111-142 | the alert is stamped and written over its row; the row ids, and so the AUTOINCREMENT invariant, are kept |
| Alerts.AlertAgent.constructor | src/AgentSystem/Agents/AlertAgent.cs:15-30 | agent "alert_agent" with its name and description; the active list is what the active-alert query loaded |
| Alerts.AlertAgent.NewNotification | src/AgentSystem/Agents/AlertAgent.cs:231-242 | a fresh broadcast Notification with subject new_alert_notification and the alert's content |
| Alerts.AlertAgent.NotifyNewAlert | src/AgentSystem/Agents/AlertAgent.cs:228-245 | that notification is posted to the broker, or the send throws with no broker |
| Alerts.AlertAgent.Record | src/AgentSystem/Agents/AlertAgent.cs:113-117 | the alert is added to the table, then with its id to the active list, then announced |
| Alerts.AlertAgent.ProcessLowStockAlert | src/AgentSystem/Agents/AlertAgent.cs:77-118 | a product with an open LowStock alert gets that alert's text refreshed and no new alert; otherwise exactly one new live LowStock Warning alert is appended and announced |
| Alerts.AlertAgent.ProcessGetActiveAlerts | src/AgentSystem/Agents/AlertAgent.cs:120-142 | one response listing the live alerts of the requested type, with `count` their number |
| Alerts.AlertAgent.ProcessDismissAlert | src/AgentSystem/Agents/AlertAgent.cs:144-170 | an active id is resolved, written back, removed from the list, and answered success=true; an unknown id changes nothing and is answered success=false with the error text |
| Alerts.AlertAgent.DismissFound | src/AgentSystem/Agents/AlertAgent.cs:151-162 | the alert at the index is resolved and stamped, written over its row and removed from the active list; one success answer with the id is posted |
| Alerts.AlertAgent.DismissMissing | src/AgentSystem/Agents/AlertAgent.cs:163-169 | one failure answer naming the id is posted, and nothing else changes |
| Alerts.AlertAgent.ProcessCreateAlert | src/AgentSystem/Agents/AlertAgent.cs:172-226 | an empty text is refused with a failure response and no alert; otherwise one alert with the parsed type and severity (Other and Info when they do not parse) is recorded, announced, and its id answered |
| Alerts.AlertAgent.RecordAndConfirm | src/AgentSystem/Agents/AlertAgent.cs:215-225 | records and announces the alert, then answers success=true with its id |
| Alerts.AlertAgent.PeriodicBehavior | src/AgentSystem/Agents/AlertAgent.cs:59-75 | each stale alert is expired and written back, and the active list keeps exactly the alerts that were not stale |
| Alerts.AlertAgent.ProcessMessage | src/AgentSystem/Agents/AlertAgent.cs:32-57 | for each of low_stock_alert, get_active_alerts, dismiss_alert and create_alert, the whole effect of that handler on the active list, the table and the messages sent (the same predicate the handler ensures); an unknown subject sends nothing and changes nothing |
| Stock.EffectiveThreshold | src/AgentSystem/Agents/InventoryAgent.cs:23 | the argument when positive, else 10; always positive |
| Stock.NameOf | src/AgentSystem/Agents/InventoryAgent.cs:149 | the product's name, or "Desconocido" when the product or its name is null |
| Stock.ParseOperation | src/AgentSystem/Agents/InventoryAgent.cs:100-114 | add iff the lower-cased operation is "add", subtract iff "subtract", set otherwise |
| Stock.ApplyMeaning | src/AgentSystem/Agents/InventoryAgent.cs:100-114 | add adds, subtract floors at zero, set (and anything unrecognised) is max(0, quantity); only add can go negative |
| Stock.AddWraps | src/AgentSystem/Agents/InventoryAgent.cs:102-104 | for all stock levels and quantities: an add past int.MaxValue wraps by 2^32 to a negative level, one below int.MinValue to a non-negative one; a subtract past int.MaxValue is clamped to 0, one below int.MinValue wraps to a positive level; e.g. int.MaxValue + 1 is int.MinValue |
| Stock.ParseOperationIgnoresCase | src/AgentSystem/Agents/InventoryAgent.cs:100 | operations equal up to ASCII case select the same branch |
| Stock.FindRow | src/Data/Database/Repositories/InventoryRepository.cs:156-186 | the first row of the product, and none before it |
| Stock.LowStockContentReadsBack | src/AgentSystem/Agents/InventoryAgent.cs:205-209 | the alert agent reads back the row's product id, name, quantity and minimum |
| Stock.LowStockRows | src/Data/Database/Repositories/InventoryRepository.cs:188-226 | rows at or below their own minimum for threshold 0, else at or below the threshold |
| Stock.ItemList | src/AgentSystem/Agents/InventoryAgent.cs:170-178 | the list holds one object per low row, in order |
| Stock.StockReply | src/AgentSystem/Agents/InventoryAgent.cs:145-154 | a response to the request with the row's stock entries |
| Stock.InventoryTable.Update | src/Data/Database/Repositories/InventoryRepository.cs:109-136 | the row is stamped and written over the rows with its id; others unchanged |
| Stock.LowStockMessage | src/AgentSystem/Agents/InventoryAgent.cs:199-209 | a Notification to alert_agent, subject low_stock_alert, with the row's content |
| Stock.ReorderMessage | src/AgentSystem/Agents/InventoryAgent.cs:214-220 | a Request to prediction_agent, subject calculate_reorder, with product_id |
| Stock.InventoryAgent.constructor | src/AgentSystem/Agents/InventoryAgent.cs:18-25 | agent "inventory_agent"; the threshold is the effective one |
| Stock.InventoryAgent.NotifyLowStock | src/AgentSystem/Agents/InventoryAgent.cs:196-224 | posts the low_stock_alert to alert_agent, then calculate_reorder to prediction_agent, both carrying product_id; the first send throws with no broker |
| Stock.InventoryAgent.ProcessCheckStockLevel | src/AgentSystem/Agents/InventoryAgent.cs:64-84 | answers with quantity, minimum and is_low_stock (quantity ≤ minimum) for a known product, else an error entry |
| Stock.InventoryAgent.UpdateMissing | src/AgentSystem/Agents/InventoryAgent.cs:130-136 | one failure answer naming the product is posted |
| Stock.InventoryAgent.ProcessUpdateInventory | src/AgentSystem/Agents/InventoryAgent.cs:86-137 | a known product's quantity becomes the operation's result and the answer carries old and new quantity; a low-stock notification follows iff the new quantity is at or below the minimum; an unknown product is answered success=false and nothing changes |
| Stock.InventoryAgent.UpdateRow | src/AgentSystem/Agents/InventoryAgent.cs:96-128 | the found-row branch: writes the row, answers, then notifies when low |
| Stock.InventoryAgent.AnswerUpdate | src/AgentSystem/Agents/InventoryAgent.cs:118-136 | for the updated row: the two low-stock messages exactly when it is at or below its minimum, then the answer with the old and new quantity |
| Stock.InventoryAgent.ProcessGetProductStock | src/AgentSystem/Agents/InventoryAgent.cs:139-162 | answers with the product's row, or with an error entry |
| Stock.InventoryAgent.ProcessGetLowStockItems | src/AgentSystem/Agents/InventoryAgent.cs:164-184 | answers with the low rows by the requested threshold (the agent's by default) and their count |
| Stock.InventoryAgent.ProcessMessage | src/AgentSystem/Agents/InventoryAgent.cs:27-52 | for each of check_stock_level, update_inventory, get_product_stock and get_low_stock_items, the whole effect of that handler on the table and the messages sent (the same predicate the handler ensures); an unknown subject sends nothing and changes nothing |
| Reports.Status | src/AgentSystem/Agents/ReportAgent.cs:95-96 | "Bajo" iff quantity ≤ minimum, "Exceso" iff above the minimum and at least the maximum, "Normal" iff strictly between |
| Reports.Deficit | src/AgentSystem/Agents/ReportAgent.cs:179 | minimum minus quantity, in unchecked int arithmetic |
| Reports.DeficitOfLowRow | src/AgentSystem/Agents/ReportAgent.cs:179 | on a low row whose subtraction does not wrap, the deficit is non-negative and tops the quantity up to the minimum; for extreme rows the unchecked int subtraction can give a negative deficit |
| Reports.ByCategory | src/AgentSystem/Agents/ReportAgent.cs:78-81 | an empty category keeps every row; otherwise exactly the rows of that category |
| Reports.InventoryRecord | src/AgentSystem/Agents/ReportAgent.cs:84-97 | ten cells, the last of them the row's status |
| Reports.LowStockRecord | src/AgentSystem/Agents/ReportAgent.cs:171-182 | nine cells, the seventh of them the deficit |
| Reports.InventoryRecords | src/AgentSystem/Agents/ReportAgent.cs:84-97 | one record per row, in order |
| Reports.LowStockRecords | src/AgentSystem/Agents/ReportAgent.cs:171-182 | one record per row, in order |
| Reports.CsvLines | src/AgentSystem/Agents/ReportAgent.cs:284-312 | nothing for no records; otherwise the header line, then one line per record |
| Reports.ReadEscaped | src/AgentSystem/Agents/ReportAgent.cs:306 | a string with its quotes doubled, then a closing quote, reads back whole (section 2 of RFC 4180, rule 7) |
| Reports.EscapeNoQuotes | src/AgentSystem/Agents/ReportAgent.cs:306 | text without quotes is written as it is |
| Reports.ReadCell | src/AgentSystem/Agents/ReportAgent.cs:298-309 | one encoded cell reads back as its text: null as empty, strings whole, other values by their text |
| Reports.RecordLineReadsBack | src/AgentSystem/Agents/ReportAgent.cs:298-311 | a record line reads back as its cells' texts, one field per cell |
| Reports.HeaderReadsBack | src/AgentSystem/Agents/ReportAgent.cs:293 | the header line reads back as the property names |
| Reports.CsvReadsBack | src/AgentSystem/Agents/ReportAgent.cs:284-312 | every line of a written file reads back with as many fields as there are columns |
| Reports.ReportAgent.constructor | src/AgentSystem/Agents/ReportAgent.cs:21-36 | agent "report_agent" with the reports folder and no files written |
| Reports.ReportAgent.GenerateCsvReport | src/AgentSystem/Agents/ReportAgent.cs:279-315 | the file at the path holds the CSV lines; for no records no file is written |
| Reports.ReportAgent.GenerateReport | src/AgentSystem/Agents/ReportAgent.cs:251-277 | the path is the folder plus name_timestamp.lower(format); json always writes that file; csv writes it when there is at least one record; any other format throws NotSupportedException and writes nothing |
| Reports.ReportAgent.Publish | src/AgentSystem/Agents/ReportAgent.cs:103-109 | answers success, report_path, report_format and item_count equal to the number of records |
| Reports.ReportAgent.ProcessGenerateInventoryReport | src/AgentSystem/Agents/ReportAgent.cs:70-110 | one record per row of the requested category (every row by default), in the requested format (json by default) |
| Reports.ReportAgent.ProcessGenerateLowStockReport | src/AgentSystem/Agents/ReportAgent.cs:163-195 | one record per row at or below the requested threshold (10 by default) |
| Reports.ReportAgent.ProcessMessage | src/AgentSystem/Agents/ReportAgent.cs:38-59 | generate_inventory_report and generate_low_stock_report each publish their report: the file written for the format, or NotSupportedException for another, and the answer with path, format and size (the same predicate Publish ensures); an unknown subject sends nothing and writes nothing |
| PyInventory.AddProduct | src/agents/inventory_agent.py:5-16 | checks in source order, nothing inserted on any error: a name that is empty or not a string raises ValueError; a quantity that does not compare with 0 raises TypeError, a negative one ValueError without the threshold being examined; then the same for the threshold; binding a value past SQLite's 64-bit integers raises OverflowError; it succeeds iff every check passes, appending exactly the one row |
| PyInventory.AddProductDefault | src/agents/inventory_agent.py:5 | the threshold defaults to 10; it succeeds iff the name is good and the quantity an int from 0 to 2^63−1 |
| PyInventory.AddProductInsertsOnce | src/agents/inventory_agent.py:9-15 | a call with a name and values from 0 to 2^63−1 adds one row at the end and keeps the earlier rows; a larger value raises OverflowError; zero quantity and threshold are accepted |
| Helpers.FirstMissing | src/utils/helpers.py:3-6 | none iff every field is a key; else the first field, in order, that is not |
| Helpers.FirstMissingRequired | src/utils/helpers.py:3-6 | the check tries id, name, quantity, price in that order |
| Helpers.ValidateProductData | src/utils/helpers.py:1-7 | true iff id, name, quantity and price are all keys; otherwise ValueError naming the first one missing |
| Helpers.ExtraKeysIrrelevant | src/utils/helpers.py:3-6 | keys outside the checked fields do not change the first missing one |
| Helpers.ValidateIgnoresExtraKeys | src/utils/helpers.py:1-7 | extra keys do not change the outcome |
| Prediction.LowStockRows | src/agents/prediction_agent.py:9-13 | exactly the rows with quantity ≤ threshold |
| Prediction.QueryIsReorderRule | src/utils/helpers.py:13-15 | the query's condition is `calculate_reorder_level` |
| Prediction.Forecasts | src/agents/prediction_agent.py:21-28 | one forecast per low row, in row order |
| Prediction.PredictRestock | src/agents/prediction_agent.py:5-31 | the loop returns those forecasts, and the empty list when no row is low |
| Prediction.ForecastMeaning | src/agents/prediction_agent.py:22-27 | each forecast names a low row, its current quantity, and a restock amount of twice its threshold |
| Prediction.OneLowProduct | tests/test_prediction_agent.py:11-18 | a product with quantity 5 under threshold 10 yields exactly one forecast, for it |
| ReportGenerator.InsertSpec | src/services/report_generator.py:11 | an insertion step adds exactly the one row, and the new head is that row or the old head |
| ReportGenerator.InsertMembers | src/services/report_generator.py:11 | after an insertion step the rows are the old ones and the new one |
| ReportGenerator.InsertSorted | src/services/report_generator.py:11 | an insertion step keeps a list sorted by descending quantity |
| ReportGenerator.SortSpec | src/services/report_generator.py:11 | the sort is a permutation of its input, by quantity descending |
| ReportGenerator.SortPermutes | src/services/report_generator.py:11 | the sort is a permutation of its input |
| ReportGenerator.SortOrders | src/services/report_generator.py:11 | the sort orders by quantity, largest first |
| ReportGenerator.SortIsStable | src/services/report_generator.py:11 | rows of equal quantity keep their order, as Python's stable sort does |
| ReportGenerator.Entries | src/services/report_generator.py:17-30 | each entry copies its row's name, quantity and threshold, with class A below a_cut, B below b_cut, else C |
| ReportGenerator.BelowRowsMembers | src/services/report_generator.py:31 | exactly the rows strictly below their threshold, and no more rows than there are products |
| ReportGenerator.Alerts | src/services/report_generator.py:31-33 | one alert text per row below its threshold, in order |
| ReportGenerator.AlertsAppend | src/services/report_generator.py:31-33 | the loop's step: a row adds an alert iff it is below its threshold |
| ReportGenerator.GenerateReport | src/services/report_generator.py:8-39 | the loop yields the classified entries and the alerts of the sorted products |
| ReportGenerator.ClassifyAndAlert | src/services/report_generator.py:17-33 | the loop over the sorted products yields exactly their classified entries and their alerts |
| ReportGenerator.ReportEntriesArePermutation | src/services/report_generator.py:11-30 | one entry per product, a permutation of the products, in descending quantity |
| ReportGenerator.ClassesOfEntries | src/services/report_generator.py:13-23 | a_cut ≤ b_cut ≤ total; the classes are a_cut A's, then b_cut − a_cut B's, then the rest C's |
| ReportGenerator.ReportClasses | src/services/report_generator.py:12-23 | the same along the report |
| ReportGenerator.AlertsPerProduct | src/services/report_generator.py:31-33 | the alerted rows are the products below their threshold, with multiplicity, one alert each |
| ReportGenerator.NoAlertsExactly | src/services/report_generator.py:62-71 | "No hay alertas." is the alert section exactly when no product is below its threshold |
| ReportGenerator.GeneratePdfReport | src/services/report_generator.py:46-99 | the PDF's alert section and table use the same sort, alerts and classification as the JSON report |
| ReportGenerator.PdfAlerts | src/services/report_generator.py:62-71 | the loop with its `hay_alertas` flag yields a red line per alert, or the one green line |
| ReportGenerator.PdfTable | src/services/report_generator.py:85-96 | the table loop yields the classified entries |

## Left out

- Threads, locks, sleeps, cancellation and `Task.Run`/`Wait`: the broker's dispatch loop and an agent's processing loop are single-step methods (`Bus.Broker.DispatchStep`, `Bus.Agent.Step`); interleavings are not modelled.
- The handler and periodic hook of `Bus.Agent.Step` are abstract: only whether each throws is a parameter, and the concrete agents' handlers are their own methods.
- Guid and `DateTime.Now`: message ids come from a counter, and the clock is an integer tick parameter. The report timestamp string and `DateTime.ToString()` of a row are parameters too.
- SQLite access: the alert, inventory and product tables are in-memory classes and values. The SQL text, connections and `SaveChanges` are not modelled.
- Alerts.AlertAgent.constructor: the active-alert query it runs is its `loaded` argument.
- Null strings are modelled as "". In report cells null and "" both give an empty quoted field, as in the source.
- Bus.Broker.DeliverMessage: a null receiver is modelled as "" and dropped like any unknown receiver. A blank `new Message()` has a null receiver, and so does the response to a request that has no sender. For such a message the source's `TryGetValue` throws ArgumentNullException (src/AgentSystem/Core/A2ACommunication.cs:124). The dispatch loop (lines 79-101) does not catch it, so the exception ends dispatching. Bus.Broker.DispatchStep inherits this gap: it keeps dispatching after such a message.
- `Enum.TryParse` is modelled on exact member names only. Not accepted here, though .NET accepts them: numeric strings, names padded with whitespace, and comma-separated lists of names. The overload used matches names case-sensitively, as the model does.
- `ToLower` is modelled for ASCII letters only.
- JSON serialisation is abstract: a JSON report file is its columns and records (`Reports.FileContent.JsonFile`), not its text.
- Alert and item lists in responses are object projections of the alerts and rows, so aliasing with the stored objects is not modelled.
- Messages.Message.AddContent: a value that is itself a mutable object is stored by value, so later changes to it are not seen.
- Supervisor.AgentManager.SendBroadcastMessage: the message's content is a copy of the caller's dictionary, though the source stores the caller's dictionary itself (src/AgentSystem/Core/AgentManager.cs:85), so later changes the caller makes to it are not seen.
- Supervisor.AgentManager.Start: runs on the corrected broker Start. As written (`Supervisor.AgentManager.StartAsWritten`), starting a manager whose broker was started and stopped throws ThreadStateException before any agent starts.
- PyInventory.AddProduct: float quantities and thresholds, which Python compares and passes on to the INSERT, are not modelled.
- Time-gated periodic behaviours are left out, because the clock trigger is I/O:
  - `InventoryAgent.PeriodicBehavior` and `CheckLowStockLevels`;
  - `ReportAgent.PeriodicBehavior` and `GenerateWeeklyReports`;
  - the reading and updating of `_lastCheckTime`. The field `Stock.InventoryAgent.lastCheckTime` is kept with its initial value (`DateTime.MinValue`, modelled as 0), but no modelled operation reads or changes it.
- Reports.ReportAgent.ProcessMessage: `generate_transactions_report` is not modelled (decimal amounts and transaction queries), so that subject is excluded by its precondition.
- PredictionAgent.cs, PredictionService.cs and the reorder math are floating-point arithmetic with seeded `Random`.
- ReportGenerator.ACut: `int(total * 0.2)` is modelled as `total / 5` and `int(total * 0.5)` as `total / 2`. These agree for every total below 2^52. Totals are list lengths, so they are never negative. Above 2^52 the float product can round up across an integer: for 8857236082003289, `int(total * 0.2)` is 1771447216400658 but `total / 5` is 1771447216400657.
- File output is the methods' results:
  - `data/report.json` and the PDF file;
  - fonts, headers and layout of the PDF;
  - creation of the reports folder.
- `format_currency` (float formatting) and `parse_json_file` (file I/O) in helpers.py.
- `calculate_reorder_level` is the predicate `Helpers.CalculateReorderLevel`. Its property is `Prediction.QueryIsReorderRule`.
- The Python module's other functions are not modelled: `update_product`, `check_inventory`, `delete_product` and `search_product` in inventory_agent.py.
- Alert model conflict: src/Data/Models/Alert.cs lacks fields that AlertAgent.cs and AlertRepository.cs use. The alert record here has the fields the agent uses.
- `AlertSeverity` has no definition among the source files. `Alerts.Severity` gives it only the two values the agent uses, `Info` and `Warning` (src/AgentSystem/Agents/AlertAgent.cs:104, 199).
- tests/test_agents.py, tests/test_services.py and tests/test_database.py call functions that do not exist, so they constrain nothing here.
- tests/test_prediction_agent.py cannot pass as written, so it constrains nothing here either. `initialize_database` creates the tables on its own `':memory:'` connection and closes it (src/database/db_manager.py:51, 86). `execute_query` then opens a fresh, empty memory database (src/database/db_manager.py:21), so the test's INSERT finds no inventory table.
- UI, network and OpenAI agents, the event logger and the configuration wrapper.

## Findings

| source | as written | input that shows it | evidently intended | confidence | as-written member | corrected member |
|---|---|---|---|---|---|---|
| src/AgentSystem/Core/A2ACommunication.cs:16-31 | the constructor makes one dispatch `Thread`, and `Start` sets `_isRunning` then calls `Start()` on that same thread | Start, Stop, Start: the second `Thread.Start` throws ThreadStateException, leaving `_isRunning` true and no thread dispatching | a restarted broker dispatches again, e.g. with a new thread per Start | not executed | Bus.RestartAsWrittenFails | Bus.RestartDispatches |
| src/AgentSystem/Core/AgentManager.cs:18-27 | `Start` calls the broker's `Start` before starting any agent | manager `Start`, `Stop`, `Start`: ThreadStateException from the broker's second `Start` escapes, and no agent starts | a restarted manager starts its broker and agents again | not executed | Supervisor.AgentManager.StartAsWritten | Supervisor.AgentManager.Start |

/** The alert agent (src/AgentSystem/Agents/AlertAgent.cs): keeps the list of
    active alerts, deduplicates low-stock alerts per product, dismisses and
    creates alerts on request, expires stale ones, and announces new ones.
    The alert repository is an in-memory table. */
module Alerts {
  import opened Util
  import opened Messages
  import opened Bus

  datatype AlertType = LowStock | OutOfStock | ExcessStock | PriceChange | ExpirationDate | Other

  datatype Severity = Info | Warning

  /** `Enum.ToString()`. */
  function TypeName(t: AlertType): string
  {
    match t
    case LowStock => "LowStock"
    case OutOfStock => "OutOfStock"
    case ExcessStock => "ExcessStock"
    case PriceChange => "PriceChange"
    case ExpirationDate => "ExpirationDate"
    case Other => "Other"
  }

  function SeverityName(s: Severity): string
  {
    match s
    case Info => "Info"
    case Warning => "Warning"
  }

  /** `Enum.TryParse<AlertType>`, on member names (case-sensitive). */
  function ParseType(s: string): (r: Option<AlertType>)
    ensures r.Some? ==> TypeName(r.value) == s
  {
    if s == "LowStock" then Some(LowStock)
    else if s == "OutOfStock" then Some(OutOfStock)
    else if s == "ExcessStock" then Some(ExcessStock)
    else if s == "PriceChange" then Some(PriceChange)
    else if s == "ExpirationDate" then Some(ExpirationDate)
    else if s == "Other" then Some(Other)
    else None
  }

  function ParseSeverity(s: string): (r: Option<Severity>)
    ensures r.Some? ==> SeverityName(r.value) == s
  {
    if s == "Info" then Some(Info) else if s == "Warning" then Some(Warning) else None
  }

  /** Every name parses back to its member, so parsing fails exactly on the
      strings that are no member's name. */
  lemma ParseTypeName(t: AlertType, s: string)
    ensures ParseType(TypeName(t)) == Some(t)
    ensures ParseType(s).None? <==> forall u: AlertType :: TypeName(u) != s
  {
  }

  lemma ParseSeverityName(v: Severity, s: string)
    ensures ParseSeverity(SeverityName(v)) == Some(v)
    ensures ParseSeverity(s).None? <==> forall u: Severity :: SeverityName(u) != s
  {
  }

  /** The fields of an alert that the agent reads and writes; times are ticks. */
  datatype Alert = Alert(id: int32, productId: Option<int32>, kind: AlertType, severity: Severity,
                         text: string, createdAt: int, updatedAt: int, resolvedAt: Option<int>,
                         isResolved: bool, isExpired: bool)

  /** Neither resolved nor expired: what the active list and a query for
      active alerts hold. */
  predicate Live(a: Alert)
  {
    !a.isResolved && !a.isExpired
  }

  const TicksPerDay: int := 864_000_000_000

  /** Unresolved and more than seven days old at `now`. */
  predicate Stale(a: Alert, now: int)
  {
    !a.isResolved && now - a.createdAt > 7 * TicksPerDay
  }

  const UnknownProduct: string := "Producto desconocido"
  const EmptyMessageText: string := "El mensaje de alerta no puede estar vacío"

  function LowStockText(productName: string, quantity: int32, minimum: int32): string
  {
    "Stock bajo para " + productName + ": " + IntToString(quantity) + " unidades (mínimo: " + IntToString(minimum) + ")"
  }

  function NotFoundText(alertId: int32): string
  {
    "No se encontró una alerta activa con ID " + IntToString(alertId)
  }

  /** The first unresolved LowStock alert of the product, as FirstOrDefault finds it. */
  function FirstLowStock(s: seq<Alert>, productId: int32): (r: Option<nat>)
    ensures r.Some? ==> r.value < |s| && s[r.value].productId == Some(productId)
                        && s[r.value].kind == LowStock && !s[r.value].isResolved
    ensures forall i :: 0 <= i < |s| && (r.None? || i < r.value) ==>
              !(s[i].productId == Some(productId) && s[i].kind == LowStock && !s[i].isResolved)
  {
    if s == [] then None
    else if s[0].productId == Some(productId) && s[0].kind == LowStock && !s[0].isResolved then Some(0)
    else
      var t := FirstLowStock(s[1..], productId);
      if t.Some? then Some(t.value + 1) else None
  }

  /** The first alert with the id. */
  function FirstWithId(s: seq<Alert>, alertId: int32): (r: Option<nat>)
    ensures r.Some? ==> r.value < |s| && s[r.value].id == alertId
    ensures forall i :: 0 <= i < |s| && (r.None? || i < r.value) ==> s[i].id != alertId
  {
    if s == [] then None
    else if s[0].id == alertId then Some(0)
    else
      var t := FirstWithId(s[1..], alertId);
      if t.Some? then Some(t.value + 1) else None
  }

  /** The filter of `get_active_alerts`: live alerts, of the given type if one is given. */
  predicate Selected(a: Alert, kind: Option<AlertType>)
  {
    Live(a) && (kind.None? || a.kind == kind.value)
  }

  function Shown(s: seq<Alert>, kind: Option<AlertType>): (r: seq<Alert>)
    ensures |r| <= |s|
    ensures forall a :: a in r <==> a in s && Selected(a, kind)
  {
    if s == [] then []
    else (if Selected(s[0], kind) then [s[0]] else []) + Shown(s[1..], kind)
  }

  /** The type filter a request asks for: none when the `alert_type` entry is
      missing, not a string, empty or not a type name. */
  function RequestedType(typeText: string): Option<AlertType>
  {
    if typeText == "" then None else ParseType(typeText)
  }

  /** What the periodic sweep makes of one alert. */
  function Expire(a: Alert, now: int): (r: Alert)
    ensures r.isExpired && !Live(r)
    ensures r == a.(isExpired := true, updatedAt := now)
  {
    a.(isExpired := true, updatedAt := now)
  }

  /** The list after the marking loop: every stale alert is expired and stamped. */
  function MarkStale(s: seq<Alert>, now: int): (r: seq<Alert>)
    ensures |r| == |s|
    ensures forall i :: 0 <= i < |s| ==> r[i] == if Stale(s[i], now) then Expire(s[i], now) else s[i]
  {
    seq(|s|, i requires 0 <= i < |s| => if Stale(s[i], now) then Expire(s[i], now) else s[i])
  }

  /** `RemoveAll(a => a.IsExpired)`. */
  function Unexpired(s: seq<Alert>): (r: seq<Alert>)
    ensures |r| <= |s|
    ensures forall a :: a in r <==> a in s && !a.isExpired
  {
    if s == [] then []
    else (if s[0].isExpired then [] else [s[0]]) + Unexpired(s[1..])
  }

  /** The alerts of `s` that are not stale, in order. */
  function NotStale(s: seq<Alert>, now: int): (r: seq<Alert>)
  {
    if s == [] then []
    else (if Stale(s[0], now) then [] else [s[0]]) + NotStale(s[1..], now)
  }

  /** On a list of live alerts the sweep keeps exactly the alerts that are not
      stale, in their order, untouched; so none of its alerts is expired or stale. */
  lemma {:induction false} SweepKeepsFresh(s: seq<Alert>, now: int)
    requires forall i :: 0 <= i < |s| ==> Live(s[i])
    ensures Unexpired(MarkStale(s, now)) == NotStale(s, now)
    ensures forall a :: a in NotStale(s, now) ==> Live(a) && !Stale(a, now) && a in s
  {
    if s != [] {
      assert MarkStale(s, now) == [MarkStale(s, now)[0]] + MarkStale(s[1..], now);
      SweepKeepsFresh(s[1..], now);
    }
  }

  /** An Alert object placed in a payload, by its properties. */
  function AlertValue(a: Alert): Value
  {
    Obj(map["Id" := Int(a.id), "ProductId" := (if a.productId.Some? then Int(a.productId.value) else Null),
            "Type" := Str(TypeName(a.kind)), "Severity" := Str(SeverityName(a.severity)), "Message" := Str(a.text),
            "CreatedAt" := Time(a.createdAt), "UpdatedAt" := Time(a.updatedAt),
            "ResolvedAt" := (if a.resolvedAt.Some? then Time(a.resolvedAt.value) else Null),
            "IsResolved" := Bool(a.isResolved), "IsExpired" := Bool(a.isExpired)])
  }

  /** The `alerts` entry of a `get_active_alerts` answer: the list, in order. */
  function AlertList(s: seq<Alert>): (r: Value)
    ensures r.List? && |r.items| == |s| && forall i :: 0 <= i < |s| ==> r.items[i] == AlertValue(s[i])
  {
    List(seq(|s|, i requires 0 <= i < |s| => AlertValue(s[i])))
  }

  /** The new-alert notification's payload. */
  function NotificationContent(a: Alert): (c: Payload)
    ensures c.Keys == {"alert_id", "alert_type", "alert_severity", "alert_message", "product_id"}
  {
    map["alert_id" := Int(a.id), "alert_type" := Str(TypeName(a.kind)),
        "alert_severity" := Str(SeverityName(a.severity)), "alert_message" := Str(a.text),
        "product_id" := if a.productId.Some? then Int(a.productId.value) else Null]
  }

  /** The five AddContent calls of NotifyNewAlert, on an empty payload, build it. */
  lemma NotificationBuilt(a: Alert)
    ensures Upsert(Upsert(Upsert(Upsert(Upsert(map[], "alert_id", Int(a.id)), "alert_type", Str(TypeName(a.kind))),
                   "alert_severity", Str(SeverityName(a.severity))), "alert_message", Str(a.text)),
                   "product_id", if a.productId.Some? then Int(a.productId.value) else Null)
            == NotificationContent(a)
  {
  }

  /** A reader of the notification gets the alert's fields back. */
  lemma NotificationReadsBack(a: Alert)
    ensures Lookup(NotificationContent(a), "alert_id", IntKind, Null) == Int(a.id)
    ensures ParseType(Lookup(NotificationContent(a), "alert_type", StrKind, Null).s) == Some(a.kind)
    ensures ParseSeverity(Lookup(NotificationContent(a), "alert_severity", StrKind, Null).s) == Some(a.severity)
    ensures Lookup(NotificationContent(a), "alert_message", StrKind, Null) == Str(a.text)
    ensures a.productId.Some? ==> Lookup(NotificationContent(a), "product_id", IntKind, Null) == Int(a.productId.value)
    ensures a.productId.None? ==> Lookup(NotificationContent(a), "product_id", IntKind, Null) == Null
  {
    ParseTypeName(a.kind, "");
    ParseSeverityName(a.severity, "");
  }

  /** The row written by `Update`, if a row with the alert's id exists. */
  function RowsUpdated(rows: map<int, Alert>, a: Alert): (r: map<int, Alert>)
    ensures r.Keys == rows.Keys
    ensures forall k :: k in rows && k != a.id ==> r[k] == rows[k]
    ensures a.id in rows ==> r[a.id] == a
  {
    if a.id in rows then rows[a.id := a] else rows
  }

  /** The table after the sweep has written each stale alert of `s`, in order. */
  function RowsAfterSweep(rows: map<int, Alert>, s: seq<Alert>, now: int): (r: map<int, Alert>)
    ensures r.Keys == rows.Keys
  {
    if s == [] then rows
    else
      var before := RowsAfterSweep(rows, s[..|s| - 1], now);
      var last := s[|s| - 1];
      if Stale(last, now) then RowsUpdated(before, Expire(last, now)) else before
  }

  /** The row an INSERT leaves under `rowId`: its Id column is the row id, so
      reading it back gives the alert with that id when it fits an int. */
  function Stored(a: Alert, rowId: int): (s: Alert)
    ensures Int32Min <= rowId <= Int32Max ==> s.id as int == rowId
    ensures s.(id := a.id) == a
  {
    if Int32Min <= rowId <= Int32Max then a.(id := rowId as int32) else a
  }

  /** The alerts table, keyed by its Id column. */
  class AlertTable {
    var rows: map<int, Alert>
    var lastRowId: int              // the AUTOINCREMENT counter

    /** AUTOINCREMENT never hands out an id at or below one it has used. */
    ghost predicate Valid()
      reads this
    {
      forall k :: k in rows ==> k <= lastRowId
    }

    constructor (rows: map<int, Alert>, lastRowId: int)
      requires forall k :: k in rows ==> k <= lastRowId
      ensures Valid() && this.rows == rows && this.lastRowId == lastRowId
    {
      this.rows, this.lastRowId := rows, lastRowId;
    }

    /** INSERT, then `Convert.ToInt32(last_insert_rowid())`, which throws once
        row ids leave the int range; the row is inserted either way, under an
        id no row had. */
    method Add(a: Alert) returns (r: Result<int32>)
      requires Valid()
      modifies this
      ensures Valid() && old(lastRowId) + 1 !in old(rows)
      ensures lastRowId == old(lastRowId) + 1 && rows == old(rows)[lastRowId := Stored(a, lastRowId)]
      ensures Int32Min <= lastRowId <= Int32Max ==> r == Ok(lastRowId as int32)
      ensures !(Int32Min <= lastRowId <= Int32Max) ==> r == Err(Overflow)
    {
      lastRowId := lastRowId + 1;
      rows := rows[lastRowId := Stored(a, lastRowId)];
      if Int32Min <= lastRowId <= Int32Max {
        r := Ok(lastRowId as int32);
      } else {
        r := Err(Overflow);
      }
    }

    /** Stamps the alert with `now` and writes it over the row with its id. */
    method Update(a: Alert, now: int) returns (stamped: Alert)
      requires Valid()
      modifies this`rows
      ensures Valid()
      ensures stamped == a.(updatedAt := now)
      ensures rows == RowsUpdated(old(rows), stamped)
    {
      stamped := a.(updatedAt := now);
      if stamped.id in rows {
        rows := rows[stamped.id := stamped];
      }
    }
  }

  class AlertAgent {
    const agent: Agent
    const table: AlertTable
    var active: seq<Alert>    // _activeAlerts

    /** The active list holds live alerts only, and the table its
        AUTOINCREMENT invariant. */
    ghost predicate Valid()
      reads this, table
    {
      table.Valid() && forall i :: 0 <= i < |active| ==> Live(active[i])
    }

    /** `loaded` is what the repository's active-alert query returns. */
    constructor (table: AlertTable, loaded: seq<Alert>)
      requires table.Valid() && forall i :: 0 <= i < |loaded| ==> Live(loaded[i])
      ensures Valid() && this.table == table && active == loaded
      ensures fresh(agent) && agent.id == "alert_agent" && agent.name == "Agente de Alertas"
      ensures agent.description == "Gestiona y notifica alertas del sistema"
      ensures agent.inbox == [] && !agent.isRunning && agent.comm == null
    {
      agent := new Agent("alert_agent", "Agente de Alertas", "Gestiona y notifica alertas del sistema");
      this.table := table;
      active := loaded;
    }

    static ghost predicate Announces(n: Message, a: Alert)
      reads n
    {
      n.receiver == BroadcastId && n.kind == Notification && n.subject == "new_alert_notification"
      && n.content == NotificationContent(a) && !n.isProcessed && n.replyTo == None
    }

    /** The notification NotifyNewAlert builds for the alert. */
    static method NewNotification(a: Alert, ids: IdSource, now: int) returns (n: Message)
      modifies ids
      ensures fresh(n) && Announces(n, a)
    {
      n := new Message.Blank(ids, now);
      n.receiver := BroadcastId;
      n.kind := Notification;
      n.subject := "new_alert_notification";
      n.AddContent("alert_id", Int(a.id));
      n.AddContent("alert_type", Str(TypeName(a.kind)));
      n.AddContent("alert_severity", Str(SeverityName(a.severity)));
      n.AddContent("alert_message", Str(a.text));
      n.AddContent("product_id", if a.productId.Some? then Int(a.productId.value) else Null);
      NotificationBuilt(a);
    }

    /** Broadcasts a notification of the new alert. */
    method NotifyNewAlert(a: Alert, ids: IdSource, now: int) returns (r: Outcome, n: Message)
      modifies ids, (if agent.comm == null then {} else {agent.comm})`queue
      ensures fresh(n) && Announces(n, a)
      ensures agent.comm == null ==> r == Fail(InvalidOperation(NoBrokerText))
      ensures agent.comm != null ==> r == Pass && Posted(agent, old(agent.comm.queue), [n])
    {
      n := NewNotification(a, ids, now);
      r := agent.SendMessage(n);
    }

    /** Adds the alert to the table, then (once it has its id) to the active
        list, and announces it. */
    method Record(alert: Alert, ids: IdSource, now: int) returns (r: Outcome, sent: seq<Message>)
      requires Valid() && Live(alert)
      modifies this`active, table, ids, (if agent.comm == null then {} else {agent.comm})`queue
      ensures Valid()
      ensures table.lastRowId == old(table.lastRowId) + 1 && table.rows == old(table.rows)[table.lastRowId := Stored(alert, table.lastRowId)]
      ensures !(Int32Min <= table.lastRowId <= Int32Max) ==> r == Fail(Overflow) && sent == [] && active == old(active)
      ensures Int32Min <= table.lastRowId <= Int32Max ==>
                var a := alert.(id := table.lastRowId as int32);
                active == old(active) + [a] && |sent| == 1 && fresh(sent[0]) && Announces(sent[0], a)
                && (agent.comm == null ==> r == Fail(InvalidOperation(NoBrokerText)))
                && (agent.comm != null ==> r == Pass && Posted(agent, old(agent.comm.queue), sent))
    {
      var added := table.Add(alert);
      if added.Err? {
        return Fail(added.error), [];
      }
      var a := alert.(id := added.value);
      active := active + [a];
      var n;
      r, n := NotifyNewAlert(a, ids, now);
      sent := [n];
    }

    /** What `low_stock_alert` leaves behind: the product's open LowStock alert
        with its text refreshed, or else one new alert recorded and announced. */
    twostate predicate LowStockHandled(m: Message, now: int, r: Outcome, new sent: seq<Message>)
      reads this, table, agent, agent.comm, m, sent
    {
      var pid := m.GetInt("product_id", 0);
      var text := LowStockText(m.GetString("product_name", UnknownProduct),
                               m.GetInt("current_quantity", 0), m.GetInt("minimum_stock", 0));
      var found := FirstLowStock(old(active), pid);
      var fresh0 := Alert(0, Some(pid), LowStock, Warning, text, now, now, None, false, false);
      && agent.comm == old(agent.comm)
      && (found.Some? ==>
            var a := old(active)[found.value].(text := text, updatedAt := now);
            r == Pass && sent == [] && active == old(active)[found.value := a]
            && table.rows == RowsUpdated(old(table.rows), a) && table.lastRowId == old(table.lastRowId))
      && (found.None? ==>
            table.lastRowId == old(table.lastRowId) + 1
            && table.rows == old(table.rows)[table.lastRowId := Stored(fresh0, table.lastRowId)])
      && (found.None? && !(Int32Min <= table.lastRowId <= Int32Max) ==>
            r == Fail(Overflow) && sent == [] && active == old(active))
      && (found.None? && Int32Min <= table.lastRowId <= Int32Max ==>
            var a := fresh0.(id := table.lastRowId as int32);
            active == old(active) + [a] && |sent| == 1 && fresh(sent[0]) && Announces(sent[0], a)
            && (agent.comm == null ==> r == Fail(InvalidOperation(NoBrokerText)))
            && (agent.comm != null ==> r == Pass && Posted(agent, old(agent.comm.queue), sent)))
    }

    /** `low_stock_alert`: refreshes the text of the product's open LowStock alert,
        or else records a new one and announces it. */
    method ProcessLowStockAlert(m: Message, ids: IdSource, now: int) returns (r: Outcome, sent: seq<Message>)
      requires Valid()
      modifies this`active, table, ids, (if agent.comm == null then {} else {agent.comm})`queue
      ensures Valid()
      ensures LowStockHandled(m, now, r, sent)
    {
      var productId := m.GetInt("product_id", 0);
      var productName := m.GetString("product_name", UnknownProduct);
      var quantity := m.GetInt("current_quantity", 0);
      var minimum := m.GetInt("minimum_stock", 0);
      var text := LowStockText(productName, quantity, minimum);
      var found := FirstLowStock(active, productId);
      if found.Some? {
        var existing := active[found.value].(text := text, updatedAt := now);
        existing := table.Update(existing, now);
        active := active[found.value := existing];
        r, sent := Pass, [];
      } else {
        var alert := Alert(0, Some(productId), LowStock, Warning, text, now, now, None, false, false);
        r, sent := Record(alert, ids, now);
      }
      assert m.GetInt("product_id", 0) == productId && m.GetString("product_name", UnknownProduct) == productName;
      assert m.GetInt("current_quantity", 0) == quantity && m.GetInt("minimum_stock", 0) == minimum;
    }

    /** What `get_active_alerts` leaves behind: the alerts and the table as they
        were, and one answer with the shown alerts and their count. */
    twostate predicate ActiveAlertsAnswered(m: Message, r: Outcome, new sent: seq<Message>)
      reads this, table, agent, agent.comm, m, sent
    {
      var shown := Shown(active, RequestedType(m.GetString("alert_type", "")));
      && agent.comm == old(agent.comm)
      && active == old(active) && table.rows == old(table.rows) && table.lastRowId == old(table.lastRowId)
      && |sent| == 1 && fresh(sent[0])
      && Responds(sent[0], m, map["alerts" := AlertList(shown), "count" := Int(Wrap32(|shown|))])
      && (agent.comm == null ==> r == Fail(InvalidOperation(NoBrokerText)))
      && (agent.comm != null ==> r == Pass && Posted(agent, old(agent.comm.queue), sent))
    }

    /** `get_active_alerts`: answers with the live alerts of the requested type
        (of any type when none is requested) and their count. */
    method ProcessGetActiveAlerts(m: Message, ids: IdSource, now: int)
      returns (r: Outcome, sent: seq<Message>, shown: seq<Alert>)
      modifies ids, (if agent.comm == null then {} else {agent.comm})`queue
      ensures shown == Shown(active, RequestedType(m.GetString("alert_type", "")))
      ensures ActiveAlertsAnswered(m, r, sent)
    {
      var typeText := m.GetString("alert_type", "");
      var kind := RequestedType(typeText);
      shown := Shown(active, kind);
      var response := Reply2(m, ids, now, "alerts", AlertList(shown), "count", Int(Wrap32(|shown|)));
      r := agent.SendMessage(response);
      sent := [response];
    }

    /** What `dismiss_alert` leaves behind: the active alert with the id resolved,
        written back and dropped from the active list, and an answer saying
        whether there was one. */
    twostate predicate DismissHandled(m: Message, now: int, r: Outcome, new sent: seq<Message>)
      reads this, table, agent, agent.comm, m, sent
    {
      var alertId := m.GetInt("alert_id", 0);
      var found := FirstWithId(old(active), alertId);
      && agent.comm == old(agent.comm) && table.lastRowId == old(table.lastRowId)
      && (found.Some? ==>
            var i := found.value;
            var a := old(active)[i].(isResolved := true, resolvedAt := Some(now), updatedAt := now);
            active == old(active)[..i] + old(active)[i + 1..]
            && table.rows == RowsUpdated(old(table.rows), a)
            && |sent| == 1 && Responds(sent[0], m, map["success" := Bool(true), "alert_id" := Int(alertId)]))
      && (found.None? ==>
            active == old(active) && table.rows == old(table.rows)
            && |sent| == 1 && Responds(sent[0], m, map["success" := Bool(false), "error" := Str(NotFoundText(alertId))]))
      && |sent| == 1 && fresh(sent[0])
      && (agent.comm == null ==> r == Fail(InvalidOperation(NoBrokerText)))
      && (agent.comm != null ==> r == Pass && Posted(agent, old(agent.comm.queue), sent))
    }

    /** `dismiss_alert`: resolves the active alert with the id and drops it
        from the active list; answers whether there was one. */
    method ProcessDismissAlert(m: Message, ids: IdSource, now: int) returns (r: Outcome, sent: seq<Message>)
      requires Valid()
      modifies this`active, table`rows, ids, (if agent.comm == null then {} else {agent.comm})`queue
      ensures Valid()
      ensures DismissHandled(m, now, r, sent)
    {
      var alertId := m.GetInt("alert_id", 0);
      var found := FirstWithId(active, alertId);
      if found.Some? {
        r, sent := DismissFound(m, found.value, alertId, ids, now);
      } else {
        r, sent := DismissMissing(m, alertId, ids, now);
      }
      assert m.GetInt("alert_id", 0) == alertId;
    }

    /** The found branch of `dismiss_alert`: the alert is resolved, written back
        and leaves the active list; the answer is success. */
    method DismissFound(m: Message, i: nat, alertId: int32, ids: IdSource, now: int) returns (r: Outcome, sent: seq<Message>)
      requires Valid() && i < |active|
      modifies this`active, table`rows, ids, (if agent.comm == null then {} else {agent.comm})`queue
      ensures Valid()
      ensures active == old(active)[..i] + old(active)[i + 1..]
      ensures table.rows == RowsUpdated(old(table.rows), old(active)[i].(isResolved := true, resolvedAt := Some(now), updatedAt := now))
      ensures |sent| == 1 && fresh(sent[0]) && Responds(sent[0], m, map["success" := Bool(true), "alert_id" := Int(alertId)])
      ensures agent.comm == null ==> r == Fail(InvalidOperation(NoBrokerText))
      ensures agent.comm != null ==> r == Pass && Posted(agent, old(agent.comm.queue), sent)
    {
      var alert := active[i].(isResolved := true, resolvedAt := Some(now), updatedAt := now);
      alert := table.Update(alert, now);
      active := active[..i] + active[i + 1..];
      var response := Reply2(m, ids, now, "success", Bool(true), "alert_id", Int(alertId));
      ghost var content, rows, now_active := response.content, table.rows, active;
      r := agent.SendMessage(response);
      sent := [response];
      assert response.content == content && table.rows == rows && active == now_active;
    }

    /** The other branch of `dismiss_alert`: nothing changes, and the answer is
        a failure naming the id. */
    method DismissMissing(m: Message, alertId: int32, ids: IdSource, now: int) returns (r: Outcome, sent: seq<Message>)
      modifies ids, (if agent.comm == null then {} else {agent.comm})`queue
      ensures |sent| == 1 && fresh(sent[0])
      ensures Responds(sent[0], m, map["success" := Bool(false), "error" := Str(NotFoundText(alertId))])
      ensures agent.comm == null ==> r == Fail(InvalidOperation(NoBrokerText))
      ensures agent.comm != null ==> r == Pass && Posted(agent, old(agent.comm.queue), sent)
    {
      var response := Reply2(m, ids, now, "success", Bool(false), "error", Str(NotFoundText(alertId)));
      ghost var content := response.content;
      r := agent.SendMessage(response);
      sent := [response];
      assert response.content == content;
    }

    /** What `create_alert` leaves behind: a refusal of an empty text, or the
        alert recorded with the requested type and severity (falling back to
        Other and Info), announced, and its id answered. */
    twostate predicate CreateHandled(m: Message, now: int, r: Outcome, new sent: seq<Message>)
      reads this, table, agent, agent.comm, m, sent
    {
      var text := old(m.GetString("message", ""));
      var a0 := Alert(0, old(m.GetNullableInt("product_id")),
                      ParseType(old(m.GetString("alert_type", "Other"))).GetOr(Other),
                      ParseSeverity(old(m.GetString("severity", "Info"))).GetOr(Info),
                      text, now, now, None, false, false);
      && agent.comm == old(agent.comm)
      && (text == "" ==>
            active == old(active) && table.rows == old(table.rows) && table.lastRowId == old(table.lastRowId)
            && |sent| == 1 && fresh(sent[0])
            && Responds(sent[0], m, map["success" := Bool(false), "error" := Str(EmptyMessageText)])
            && (agent.comm == null ==> r == Fail(InvalidOperation(NoBrokerText)))
            && (agent.comm != null ==> r == Pass && Posted(agent, old(agent.comm.queue), sent)))
      && (text != "" ==>
            table.lastRowId == old(table.lastRowId) + 1
            && table.rows == old(table.rows)[table.lastRowId := Stored(a0, table.lastRowId)])
      && (text != "" && !(Int32Min <= table.lastRowId <= Int32Max) ==>
            r == Fail(Overflow) && sent == [] && active == old(active))
      && (text != "" && Int32Min <= table.lastRowId <= Int32Max ==>
            var a := a0.(id := table.lastRowId as int32);
            active == old(active) + [a]
            && (agent.comm == null ==>
                  r == Fail(InvalidOperation(NoBrokerText)) && |sent| == 1 && fresh(sent[0]) && Announces(sent[0], a))
            && (agent.comm != null ==>
                  r == Pass && |sent| == 2 && fresh(sent[0]) && fresh(sent[1])
                  && Announces(sent[0], a)
                  && Responds(sent[1], m, map["success" := Bool(true), "alert_id" := Int(a.id)])
                  && Posted(agent, old(agent.comm.queue), sent)))
    }

    /** `create_alert`: refuses an empty text; otherwise records an alert with
        the requested type and severity, falling back to Other and Info, announces
        it, and answers with its id. */
    method ProcessCreateAlert(m: Message, ids: IdSource, now: int) returns (r: Outcome, sent: seq<Message>)
      requires Valid()
      modifies this`active, table, ids, (if agent.comm == null then {} else {agent.comm})`queue
      ensures Valid()
      ensures CreateHandled(m, now, r, sent)
    {
      var typeText := m.GetString("alert_type", "Other");
      var severityText := m.GetString("severity", "Info");
      var text := m.GetString("message", "");
      var productId := m.GetNullableInt("product_id");
      if text == "" {
        var response := Reply2(m, ids, now, "success", Bool(false), "error", Str(EmptyMessageText));
        r := agent.SendMessage(response);
        return r, [response];
      }
      var kind := ParseType(typeText).GetOr(Other);
      var severity := ParseSeverity(severityText).GetOr(Info);
      var alert := Alert(0, productId, kind, severity, text, now, now, None, false, false);
      r, sent := RecordAndConfirm(m, alert, ids, now);
    }

    /** The second half of `create_alert`: records and announces the alert,
        then answers with its id. */
    method RecordAndConfirm(m: Message, alert: Alert, ids: IdSource, now: int) returns (r: Outcome, sent: seq<Message>)
      requires Valid() && Live(alert)
      modifies this`active, table, ids, (if agent.comm == null then {} else {agent.comm})`queue
      ensures Valid()
      ensures table.lastRowId == old(table.lastRowId) + 1 && table.rows == old(table.rows)[table.lastRowId := Stored(alert, table.lastRowId)]
      ensures !(Int32Min <= table.lastRowId <= Int32Max) ==> r == Fail(Overflow) && sent == [] && active == old(active)
      ensures Int32Min <= table.lastRowId <= Int32Max ==>
                var a := alert.(id := table.lastRowId as int32);
                active == old(active) + [a]
                && (agent.comm == null ==>
                      r == Fail(InvalidOperation(NoBrokerText)) && |sent| == 1 && fresh(sent[0]) && Announces(sent[0], a))
                && (agent.comm != null ==>
                      r == Pass && |sent| == 2 && fresh(sent[0]) && fresh(sent[1])
                      && Announces(sent[0], a)
                      && Responds(sent[1], m, map["success" := Bool(true), "alert_id" := Int(a.id)])
                      && Posted(agent, old(agent.comm.queue), sent))
    {
      r, sent := Record(alert, ids, now);
      if r.Fail? {
        return;
      }
      var response := Reply2(m, ids, now, "success", Bool(true), "alert_id", Int(active[|active| - 1].id));
      r := agent.SendMessage(response);
      sent := sent + [response];
    }

    /** The expiry sweep: every stale alert is marked expired and written back,
        then expired alerts leave the active list. */
    method PeriodicBehavior(now: int)
      requires Valid()
      modifies this`active, table`rows
      ensures Valid()
      ensures active == Unexpired(MarkStale(old(active), now))
      ensures active == NotStale(old(active), now)
      ensures table.rows == RowsAfterSweep(old(table.rows), old(active), now)
    {
      var i := 0;
      while i < |active|
        invariant 0 <= i <= |active| == |old(active)|
        invariant forall j :: 0 <= j < i ==> active[j] == MarkStale(old(active), now)[j]
        invariant forall j :: i <= j < |active| ==> active[j] == old(active)[j]
        invariant table.rows == RowsAfterSweep(old(table.rows), old(active)[..i], now)
      {
        assert old(active)[..i + 1][..i] == old(active)[..i];
        if Stale(active[i], now) {
          var alert := active[i].(isExpired := true);
          alert := table.Update(alert, now);
          active := active[i := alert];
        }
        i := i + 1;
      }
      assert active == MarkStale(old(active), now);
      assert old(active)[..i] == old(active);
      SweepKeepsFresh(old(active), now);
      active := Unexpired(active);
    }

    /** ProcessMessage: each of the four subjects has its handler's effect;
        other subjects are ignored. */
    method ProcessMessage(m: Message, ids: IdSource, now: int) returns (r: Outcome, sent: seq<Message>)
      requires Valid()
      modifies this`active, table, ids, (if agent.comm == null then {} else {agent.comm})`queue
      ensures Valid()
      ensures m.subject == "low_stock_alert" ==> LowStockHandled(m, now, r, sent)
      ensures m.subject == "get_active_alerts" ==> ActiveAlertsAnswered(m, r, sent)
      ensures m.subject == "dismiss_alert" ==> DismissHandled(m, now, r, sent)
      ensures m.subject == "create_alert" ==> CreateHandled(m, now, r, sent)
      ensures m.subject !in {"low_stock_alert", "get_active_alerts", "dismiss_alert", "create_alert"} ==>
                r == Pass && sent == [] && active == old(active) && table.rows == old(table.rows)
                && (agent.comm != null ==> agent.comm.queue == old(agent.comm.queue))
    {
      if m.subject == "low_stock_alert" {
        r, sent := ProcessLowStockAlert(m, ids, now);
      } else if m.subject == "get_active_alerts" {
        var shown;
        r, sent, shown := ProcessGetActiveAlerts(m, ids, now);
      } else if m.subject == "dismiss_alert" {
        r, sent := ProcessDismissAlert(m, ids, now);
      } else if m.subject == "create_alert" {
        r, sent := ProcessCreateAlert(m, ids, now);
      } else {
        r, sent := Pass, [];
      }
    }
  }
}

/** `ReportGenerator` (src/services/report_generator.py): the inventory report
    with ABC classification by descending quantity and the list of products
    below their restock threshold, as JSON values and as the sections of the
    PDF report. The files written are the methods' results. */
module ReportGenerator {
  import opened PyInventory

  // ---------------------------------------------------------------------------
  // `sorted(products, key=quantity, reverse=True)`: stable, largest first

  predicate Descending(s: seq<Row>)
  {
    forall i, j :: 0 <= i < j < |s| ==> s[i].quantity >= s[j].quantity
  }

  /** Places `p` before the first row whose quantity does not exceed its own. */
  function Insert(p: Row, s: seq<Row>): seq<Row>
  {
    if s == [] || s[0].quantity <= p.quantity then [p] + s
    else [s[0]] + Insert(p, s[1..])
  }

  function SortByQuantity(s: seq<Row>): seq<Row>
  {
    if s == [] then [] else Insert(s[0], SortByQuantity(s[1..]))
  }

  /** One insertion adds exactly `p`, and puts `p` or the old head first. */
  lemma {:induction false} InsertSpec(p: Row, s: seq<Row>)
    ensures var r := Insert(p, s);
            && |r| == |s| + 1 && multiset(r) == multiset(s) + multiset{p}
            && (r[0] == p || (s != [] && r[0] == s[0]))
  {
    if s != [] && s[0].quantity > p.quantity {
      InsertSpec(p, s[1..]);
      assert s == [s[0]] + s[1..];
    }
  }

  lemma {:induction false} InsertMembers(p: Row, s: seq<Row>)
    ensures forall x :: x in Insert(p, s) <==> x == p || x in s
  {
    if s != [] && s[0].quantity > p.quantity {
      InsertMembers(p, s[1..]);
      assert s == [s[0]] + s[1..];
    }
  }

  /** Inserting into a descending list keeps it descending. */
  lemma {:induction false} InsertSorted(p: Row, s: seq<Row>)
    requires Descending(s)
    ensures Descending(Insert(p, s))
  {
    if s != [] && s[0].quantity > p.quantity {
      var tail := s[1..];
      assert Descending(tail) by {
        forall i, j | 0 <= i < j < |tail| ensures tail[i].quantity >= tail[j].quantity {
          assert tail[i] == s[i + 1] && tail[j] == s[j + 1];
        }
      }
      InsertSorted(p, tail);
      InsertMembers(p, tail);
      var t := Insert(p, tail);
      var r := [s[0]] + t;
      forall i, j | 0 <= i < j < |r| ensures r[i].quantity >= r[j].quantity {
        if i == 0 {
          var x := t[j - 1];
          assert x in t;
          if x != p {
            var k :| 0 <= k < |tail| && tail[k] == x;
            assert s[k + 1] == x;
          }
        } else {
          assert r[i] == t[i - 1] && r[j] == t[j - 1];
        }
      }
    }
  }

  /** The sort returns a permutation of its input, largest quantity first. */
  lemma SortSpec(s: seq<Row>)
    ensures var r := SortByQuantity(s);
            |r| == |s| && multiset(r) == multiset(s) && Descending(r)
  {
    SortPermutes(s);
    SortOrders(s);
  }

  lemma {:induction false} SortPermutes(s: seq<Row>)
    ensures |SortByQuantity(s)| == |s| && multiset(SortByQuantity(s)) == multiset(s)
  {
    if s != [] {
      var t := SortByQuantity(s[1..]);
      SortPermutes(s[1..]);
      InsertSpec(s[0], t);
      assert SortByQuantity(s) == Insert(s[0], t);
      assert multiset(s) == multiset(s[1..]) + multiset{s[0]} by {
        assert s == [s[0]] + s[1..];
      }
    }
  }

  lemma {:induction false} SortOrders(s: seq<Row>)
    ensures Descending(SortByQuantity(s))
  {
    if s != [] {
      var t := SortByQuantity(s[1..]);
      SortOrders(s[1..]);
      InsertSorted(s[0], t);
      assert SortByQuantity(s) == Insert(s[0], t);
    }
  }

  /** The rows of one quantity, in order. */
  function WithQuantity(s: seq<Row>, q: int): seq<Row>
  {
    if s == [] then [] else (if s[0].quantity == q then [s[0]] else []) + WithQuantity(s[1..], q)
  }

  lemma {:induction false} InsertKeepsTies(p: Row, s: seq<Row>, q: int)
    ensures WithQuantity(Insert(p, s), q) == (if p.quantity == q then [p] else []) + WithQuantity(s, q)
  {
    var mine := if p.quantity == q then [p] else [];
    if s == [] || s[0].quantity <= p.quantity {
      var r := [p] + s;
      assert r[0] == p && r[1..] == s;
      assert WithQuantity(r, q) == mine + WithQuantity(s, q);
    } else {
      var t := Insert(p, s[1..]);
      var r := [s[0]] + t;
      var head := if s[0].quantity == q then [s[0]] else [];
      assert r[0] == s[0] && r[1..] == t;
      InsertKeepsTies(p, s[1..], q);
      assert WithQuantity(r, q) == head + (mine + WithQuantity(s[1..], q));
      assert WithQuantity(s, q) == head + WithQuantity(s[1..], q);
      // p is strictly below s[0], so at most one of the two is of quantity q
      assert head == [] || mine == [];
      assert head + (mine + WithQuantity(s[1..], q)) == mine + (head + WithQuantity(s[1..], q));
    }
  }

  /** The sort is stable: rows of equal quantity keep their relative order. */
  lemma {:induction false} SortIsStable(s: seq<Row>, q: int)
    ensures WithQuantity(SortByQuantity(s), q) == WithQuantity(s, q)
  {
    if s != [] {
      SortIsStable(s[1..], q);
      InsertKeepsTies(s[0], SortByQuantity(s[1..]), q);
    }
  }

  // ---------------------------------------------------------------------------
  // ABC classification

  datatype Class = A | B | C

  /** `int(total * 0.2)` and `int(total * 0.5)`. */
  function ACut(total: nat): nat { total / 5 }
  function BCut(total: nat): nat { total / 2 }

  function Classify(idx: nat, total: nat): Class
  {
    if idx < ACut(total) then A else if idx < BCut(total) then B else C
  }

  function Repeat(c: Class, n: nat): (r: seq<Class>)
    ensures |r| == n && forall i :: 0 <= i < n ==> r[i] == c
  {
    seq(n, i => c)
  }

  // ---------------------------------------------------------------------------
  // The report's values

  /** One object of `inventario`: nombre, cantidad, umbral and clase. */
  datatype Entry = Entry(name: string, quantity: int, threshold: int, klass: Class)

  function Entries(sorted: seq<Row>): (r: seq<Entry>)
    ensures |r| == |sorted|
    ensures forall i :: 0 <= i < |sorted| ==>
              r[i] == Entry(sorted[i].name, sorted[i].quantity, sorted[i].threshold, Classify(i, |sorted|))
  {
    seq(|sorted|, i requires 0 <= i < |sorted| =>
      Entry(sorted[i].name, sorted[i].quantity, sorted[i].threshold, Classify(i, |sorted|)))
  }

  /** Strictly below the threshold (the restock query uses `<=`). */
  predicate Below(p: Row)
  {
    p.quantity < p.threshold
  }

  /** The rows below their threshold, in order. */
  function BelowRows(s: seq<Row>): seq<Row>
  {
    if s == [] then [] else (if Below(s[0]) then [s[0]] else []) + BelowRows(s[1..])
  }

  /** Exactly the rows below their threshold are kept. */
  lemma {:induction false} BelowRowsMembers(s: seq<Row>)
    ensures |BelowRows(s)| <= |s|
    ensures forall p :: p in BelowRows(s) <==> p in s && Below(p)
  {
    if s != [] {
      BelowRowsMembers(s[1..]);
      assert s == [s[0]] + s[1..];
    }
  }

  lemma {:induction false} BelowRowsAppend(s: seq<Row>, p: Row)
    ensures BelowRows(s + [p]) == BelowRows(s) + (if Below(p) then [p] else [])
  {
    if s == [] {
      assert s + [p] == [p];
      assert [p][1..] == [];
    } else {
      var sp := s + [p];
      var h := if Below(s[0]) then [s[0]] else [];
      assert sp[0] == s[0] && sp[1..] == s[1..] + [p];
      assert BelowRows(sp) == h + BelowRows(s[1..] + [p]);
      BelowRowsAppend(s[1..], p);
    }
  }

  function AlertText(name: string): string
  {
    "¡Alerta! El producto '" + name + "' está por debajo del umbral de reposición."
  }

  /** One alert per row below its threshold, in the rows' order. */
  function Alerts(s: seq<Row>): (r: seq<string>)
    ensures var below := BelowRows(s);
            |r| == |below| && forall i :: 0 <= i < |below| ==> r[i] == AlertText(below[i].name)
  {
    var below := BelowRows(s);
    seq(|below|, i requires 0 <= i < |below| => AlertText(below[i].name))
  }

  lemma AlertsAppend(s: seq<Row>, p: Row)
    ensures Alerts(s + [p]) == Alerts(s) + (if Below(p) then [AlertText(p.name)] else [])
  {
    BelowRowsAppend(s, p);
  }

  /** `generate_report`: every product, largest quantity first, with its class;
      then the alerts. */
  method GenerateReport(products: seq<Row>) returns (inventario: seq<Entry>, alertas: seq<string>)
    ensures inventario == Entries(SortByQuantity(products))
    ensures alertas == Alerts(SortByQuantity(products))
  {
    var productsSorted := SortByQuantity(products);
    inventario, alertas := ClassifyAndAlert(productsSorted);
  }

  /** The loop of `generate_report` over the sorted products. */
  method ClassifyAndAlert(productsSorted: seq<Row>) returns (inventario: seq<Entry>, alertas: seq<string>)
    ensures inventario == Entries(productsSorted)
    ensures alertas == Alerts(productsSorted)
  {
    var total := |productsSorted|;
    var aCut, bCut := total / 5, total / 2;
    inventario, alertas := [], [];
    var idx := 0;
    while idx < total
      invariant 0 <= idx <= total
      invariant |inventario| == idx
      invariant forall i :: 0 <= i < idx ==>
                  inventario[i] == Entry(productsSorted[i].name, productsSorted[i].quantity,
                                         productsSorted[i].threshold, Classify(i, total))
      invariant alertas == Alerts(productsSorted[..idx])
    {
      var product := productsSorted[idx];
      var clase := if idx < aCut then A else if idx < bCut then B else C;
      inventario := inventario + [Entry(product.name, product.quantity, product.threshold, clase)];
      ghost var seen := productsSorted[..idx + 1];
      assert seen == productsSorted[..idx] + [product];
      AlertsAppend(productsSorted[..idx], product);
      if product.quantity < product.threshold {
        alertas := alertas + [AlertText(product.name)];
        assert alertas == Alerts(seen);
      } else {
        assert alertas == Alerts(seen);
      }
      idx := idx + 1;
    }
    assert productsSorted[..total] == productsSorted;
  }

  /** The rows the entries were copied from, without their classes. */
  function Sources(entries: seq<Entry>): (r: seq<Row>)
    ensures |r| == |entries| && forall i :: 0 <= i < |entries| ==>
              r[i] == Row(entries[i].name, entries[i].quantity, entries[i].threshold)
  {
    seq(|entries|, i requires 0 <= i < |entries| => Row(entries[i].name, entries[i].quantity, entries[i].threshold))
  }

  function Classes(entries: seq<Entry>): (r: seq<Class>)
    ensures |r| == |entries| && forall i :: 0 <= i < |entries| ==> r[i] == entries[i].klass
  {
    seq(|entries|, i requires 0 <= i < |entries| => entries[i].klass)
  }

  /** The report has one entry per product, each copying its product's name,
      quantity and threshold, largest quantity first. */
  lemma ReportEntriesArePermutation(products: seq<Row>)
    ensures var entries := Entries(SortByQuantity(products));
            && multiset(Sources(entries)) == multiset(products)
            && forall i, j :: 0 <= i < j < |entries| ==> entries[i].quantity >= entries[j].quantity
  {
    SortSpec(products);
    var sorted := SortByQuantity(products);
    assert Sources(Entries(sorted)) == sorted;
  }

  /** `a_cut` A's, then `b_cut - a_cut` B's, then the rest C's. */
  function Bands(total: nat): seq<Class>
  {
    Repeat(A, ACut(total)) + Repeat(B, BCut(total) - ACut(total)) + Repeat(C, total - BCut(total))
  }

  lemma ClassesOfEntries(rows: seq<Row>)
    ensures ACut(|rows|) <= BCut(|rows|) <= |rows|
    ensures Classes(Entries(rows)) == Bands(|rows|)
  {
    var total := |rows|;
    var classes := Classes(Entries(rows));
    var a, b := ACut(total), BCut(total);
    var bands := Bands(total);
    var ab := Repeat(A, a) + Repeat(B, b - a);
    assert |bands| == total;
    forall i | 0 <= i < total
      ensures classes[i] == bands[i]
    {
      if i < b {
        assert bands[i] == ab[i];
      } else {
        assert bands[i] == Repeat(C, total - b)[i - b];
      }
    }
  }

  /** Along the sorted list the classes run all A, then all B, then all C:
      `a_cut` A's, `b_cut - a_cut` B's and the rest C's. */
  lemma ReportClasses(products: seq<Row>)
    ensures ACut(|products|) <= BCut(|products|) <= |products|
    ensures Classes(Entries(SortByQuantity(products))) == Bands(|products|)
  {
    var sorted := SortByQuantity(products);
    SortSpec(products);
    assert |sorted| == |products|;
    ClassesOfEntries(sorted);
  }

  lemma {:induction false} BelowRowsOfInsert(p: Row, s: seq<Row>)
    ensures multiset(BelowRows(Insert(p, s))) == multiset(BelowRows(s)) + (if Below(p) then multiset{p} else multiset{})
  {
    if s == [] || s[0].quantity <= p.quantity {
      assert ([p] + s)[1..] == s;
    } else {
      BelowRowsOfInsert(p, s[1..]);
      assert ([s[0]] + Insert(p, s[1..]))[1..] == Insert(p, s[1..]);
    }
  }

  /** Alerts are one per product below its threshold, counted with
      multiplicity: sorting neither adds nor drops any. */
  lemma {:induction false} AlertsPerProduct(products: seq<Row>)
    ensures multiset(BelowRows(SortByQuantity(products))) == multiset(BelowRows(products))
    ensures |Alerts(SortByQuantity(products))| == |BelowRows(products)|
  {
    if products != [] {
      AlertsPerProduct(products[1..]);
      BelowRowsOfInsert(products[0], SortByQuantity(products[1..]));
    }
    assert |multiset(BelowRows(SortByQuantity(products)))| == |multiset(BelowRows(products))|;
  }

  // ---------------------------------------------------------------------------
  // The PDF report

  datatype Ink = Red | Green

  datatype PdfLine = PdfLine(text: string, ink: Ink)

  const NoAlertsText: string := "No hay alertas."

  function RedLines(alerts: seq<string>): (r: seq<PdfLine>)
    ensures |r| == |alerts| && forall i :: 0 <= i < |alerts| ==> r[i] == PdfLine(alerts[i], Red)
  {
    if alerts == [] then [] else RedLines(alerts[..|alerts| - 1]) + [PdfLine(alerts[|alerts| - 1], Red)]
  }

  /** The alert section: each alert in red, or else one green line. */
  function AlertSection(sorted: seq<Row>): seq<PdfLine>
  {
    var alerts := Alerts(sorted);
    if alerts == [] then [PdfLine(NoAlertsText, Green)] else RedLines(alerts)
  }

  lemma {:induction false} NoneBelow(s: seq<Row>)
    requires forall p :: p in s ==> !Below(p)
    ensures BelowRows(s) == []
  {
    if s != [] {
      assert s[0] in s;
      assert forall p :: p in s[1..] ==> p in s;
      NoneBelow(s[1..]);
    }
  }

  /** "No hay alertas." is printed exactly when no product is below its threshold. */
  lemma NoAlertsExactly(products: seq<Row>)
    ensures AlertSection(SortByQuantity(products)) == [PdfLine(NoAlertsText, Green)]
            <==> forall p :: p in products ==> !Below(p)
  {
    SortSpec(products);
    var sorted := SortByQuantity(products);
    var below := BelowRows(sorted);
    BelowRowsMembers(sorted);
    if exists p :: p in products && Below(p) {
      var p :| p in products && Below(p);
      assert p in multiset(sorted);
      assert p in below;
      assert AlertSection(sorted)[0].ink == Red;
    } else {
      forall p | p in sorted ensures !Below(p) {
        assert p in multiset(products);
      }
      NoneBelow(sorted);
    }
  }

  /** `generate_pdf_report`: the alert section, then the table of the same
      classified entries as `generate_report`. */
  method GeneratePdfReport(products: seq<Row>) returns (alertLines: seq<PdfLine>, table: seq<Entry>)
    ensures alertLines == AlertSection(SortByQuantity(products))
    ensures table == Entries(SortByQuantity(products))
  {
    var productsSorted := SortByQuantity(products);
    alertLines := PdfAlerts(productsSorted);
    table := PdfTable(productsSorted);
  }

  /** The first loop of `generate_pdf_report`, with its `hay_alertas` flag. */
  method PdfAlerts(productsSorted: seq<Row>) returns (alertLines: seq<PdfLine>)
    ensures alertLines == AlertSection(productsSorted)
  {
    alertLines := [];
    var hayAlertas := false;
    var k := 0;
    while k < |productsSorted|
      invariant 0 <= k <= |productsSorted|
      invariant alertLines == RedLines(Alerts(productsSorted[..k]))
      invariant hayAlertas <==> alertLines != []
    {
      var product := productsSorted[k];
      ghost var seen := productsSorted[..k + 1];
      assert seen == productsSorted[..k] + [product];
      AlertsAppend(productsSorted[..k], product);
      ghost var before := Alerts(productsSorted[..k]);
      if product.quantity < product.threshold {
        ghost var after := before + [AlertText(product.name)];
        assert after[..|before|] == before;
        assert RedLines(after) == RedLines(before) + [PdfLine(AlertText(product.name), Red)];
        alertLines := alertLines + [PdfLine(AlertText(product.name), Red)];
        hayAlertas := true;
        assert alertLines == RedLines(Alerts(seen));
      } else {
        assert Alerts(seen) == before;
      }
      k := k + 1;
    }
    assert productsSorted[..k] == productsSorted;
    if !hayAlertas {
      alertLines := [PdfLine(NoAlertsText, Green)];
    }
  }

  /** The second loop of `generate_pdf_report`: one classified row per product. */
  method PdfTable(productsSorted: seq<Row>) returns (table: seq<Entry>)
    ensures table == Entries(productsSorted)
  {
    var total := |productsSorted|;
    var aCut, bCut := total / 5, total / 2;
    table := [];
    var idx := 0;
    while idx < total
      invariant 0 <= idx <= total
      invariant |table| == idx
      invariant forall i :: 0 <= i < idx ==> table[i] == Entries(productsSorted)[i]
    {
      var product := productsSorted[idx];
      var clase := if idx < aCut then A else if idx < bCut then B else C;
      table := table + [Entry(product.name, product.quantity, product.threshold, clase)];
      idx := idx + 1;
    }
  }
}

/** The checks of src/utils/helpers.py. A product record is seen through the
    set of its keys. */
module Helpers {
  import opened Util

  const RequiredFields: seq<string> := ["id", "name", "quantity", "price"]

  function MissingText(field: string): string
  {
    "Missing required field: " + field
  }

  /** The first of `fields`, in order, that is not a key. */
  function FirstMissing(fields: seq<string>, keys: set<string>): (r: Option<string>)
    ensures r.None? <==> forall i :: 0 <= i < |fields| ==> fields[i] in keys
    ensures r.Some? ==> exists i :: 0 <= i < |fields| && fields[i] == r.value && r.value !in keys
                                    && forall j :: 0 <= j < i ==> fields[j] in keys
  {
    if fields == [] then None
    else if fields[0] !in keys then Some(fields[0])
    else
      var r := FirstMissing(fields[1..], keys);
      assert forall i :: 1 <= i < |fields| ==> fields[i] == fields[1..][i - 1];
      r
  }

  /** The loop over the four required fields, unrolled. */
  lemma FirstMissingRequired(keys: set<string>)
    ensures FirstMissing(RequiredFields, keys)
         == if "id" !in keys then Some("id") else if "name" !in keys then Some("name")
            else if "quantity" !in keys then Some("quantity") else if "price" !in keys then Some("price") else None
  {
    var f0 := RequiredFields;
    var f1, f2, f3 := f0[1..], f0[2..], f0[3..];
    assert f1 == ["name", "quantity", "price"] && f2 == f1[1..] && f3 == f2[1..] && f3[1..] == [];
    assert FirstMissing(f3, keys) == if "price" !in keys then Some("price") else None;
    assert FirstMissing(f2, keys) == if "quantity" !in keys then Some("quantity") else FirstMissing(f3, keys);
    assert FirstMissing(f1, keys) == if "name" !in keys then Some("name") else FirstMissing(f2, keys);
  }

  /** `validate_product_data`: true when id, name, quantity and price are all
      keys; otherwise ValueError naming the first one missing. */
  function ValidateProductData(keys: set<string>): (r: Result<bool>)
    ensures r.Ok? <==> "id" in keys && "name" in keys && "quantity" in keys && "price" in keys
    ensures r.Ok? ==> r.value
    ensures "id" !in keys ==> r == Err(ValueError(MissingText("id")))
    ensures "id" in keys && "name" !in keys ==> r == Err(ValueError(MissingText("name")))
    ensures "id" in keys && "name" in keys && "quantity" !in keys ==> r == Err(ValueError(MissingText("quantity")))
    ensures "id" in keys && "name" in keys && "quantity" in keys && "price" !in keys ==>
              r == Err(ValueError(MissingText("price")))
  {
    var missing := FirstMissing(RequiredFields, keys);
    FirstMissingRequired(keys);
    if missing.Some? then Err(ValueError(MissingText(missing.value))) else Ok(true)
  }

  /** Keys other than the four required ones do not change the outcome. */
  lemma {:induction false} ExtraKeysIrrelevant(fields: seq<string>, keys: set<string>, extra: set<string>)
    requires forall f :: f in extra ==> f !in fields
    ensures FirstMissing(fields, keys + extra) == FirstMissing(fields, keys)
  {
    if fields != [] {
      ExtraKeysIrrelevant(fields[1..], keys, extra);
    }
  }

  lemma ValidateIgnoresExtraKeys(keys: set<string>, extra: set<string>)
    requires forall f :: f in extra ==> f !in RequiredFields
    ensures ValidateProductData(keys + extra) == ValidateProductData(keys)
  {
    ExtraKeysIrrelevant(RequiredFields, keys, extra);
  }

  /** `calculate_reorder_level`: time to reorder once stock has fallen to the
      safety stock. */
  predicate CalculateReorderLevel(currentStock: int, safetyStock: int)
  {
    currentStock <= safetyStock
  }
}

/** `src/components/BarcodeManager.tsx`: searching products, choosing which
    labels to print, and what a label encodes. */
module BarcodeManager {
  import opened JsText
  import opened Schema

  /** The name, or a non-empty barcode, contains the query, ignoring case. */
  predicate Matches(p: Product, search: string) {
    Includes(ToLower(p.name), ToLower(search))
    || (Truthy(p.barcode) && Includes(ToLower(p.barcode.value), ToLower(search)))
  }

  function FilteredProducts(products: seq<Product>, search: string): (r: seq<Product>)
    ensures |r| <= |products|
    ensures forall p :: p in r <==> p in products && Matches(p, search)
    ensures SubsequenceOf(r, products)
  {
    if products == [] then []
    else if Matches(products[0], search) then
      var rest := FilteredProducts(products[1..], search);
      assert ([products[0]] + rest)[1..] == rest;
      [products[0]] + rest
    else FilteredProducts(products[1..], search)
  }

  /** A product is found by its own barcode, in any letter case. */
  lemma {:induction false} FoundByOwnBarcode(products: seq<Product>, p: Product)
    requires p in products && Truthy(p.barcode)
    ensures p in FilteredProducts(products, p.barcode.value)
    ensures p in FilteredProducts(products, ToLower(p.barcode.value))
  {
    var b := ToLower(p.barcode.value);
    assert OccursAt(b, b, 0);
    IncludesAt(b, b);
    assert ToLower(b) == b by {
      forall i | 0 <= i < |b| ensures ToLower(b)[i] == b[i] {
        assert !IsUpper(b[i]);
      }
    }
  }

  /** `toggleSelect(id)`. */
  function Toggle(selected: seq<string>, id: string): seq<string> {
    if id in selected then Without(selected, id) else selected + [id]
  }

  /** `prev.filter(i => i !== id)`. */
  function Without(s: seq<string>, id: string): (r: seq<string>)
    ensures forall x :: x in r <==> x in s && x != id
    ensures NoDuplicates(s) ==> NoDuplicates(r)
    ensures SubsequenceOf(r, s)
  {
    if s == [] then []
    else if s[0] == id then Without(s[1..], id)
    else
      var rest := Without(s[1..], id);
      assert ([s[0]] + rest)[1..] == rest;
      assert s[0] !in s[1..] ==> s[0] !in rest;
      [s[0]] + rest
  }

  predicate NoDuplicates(s: seq<string>) {
    forall i, j :: 0 <= i < j < |s| ==> s[i] != s[j]
  }

  /** A toggle flips the membership of exactly one id and never duplicates an
      id; toggling twice gives back the same set of ids, and the very same list
      when the id was not selected. */
  lemma ToggleEffect(selected: seq<string>, id: string)
    ensures id in Toggle(selected, id) <==> id !in selected
    ensures forall x :: x != id ==> (x in Toggle(selected, id) <==> x in selected)
    ensures NoDuplicates(selected) ==> NoDuplicates(Toggle(selected, id))
    ensures id !in selected ==> Toggle(Toggle(selected, id), id) == selected
    ensures forall x :: x in Toggle(Toggle(selected, id), id) <==> x in selected
  {
    if id !in selected {
      WithoutAbsent(selected + [id], id, selected);
    }
  }

  lemma {:induction false} WithoutAbsent(s: seq<string>, id: string, prefix: seq<string>)
    requires s == prefix + [id] && id !in prefix
    ensures Without(s, id) == prefix
  {
    if prefix != [] {
      assert s[1..] == prefix[1..] + [id];
      WithoutAbsent(s[1..], id, prefix[1..]);
    }
  }

  function Ids(products: seq<Product>): (r: seq<string>)
    ensures |r| == |products|
    ensures forall i :: 0 <= i < |products| ==> r[i] == products[i].id
  {
    if products == [] then [] else [products[0].id] + Ids(products[1..])
  }

  /** `selectAll()`: clears when as many ids are selected as products are
      shown, else selects exactly the shown products. */
  function SelectAll(selected: seq<string>, shown: seq<Product>): seq<string> {
    if |selected| == |shown| then [] else Ids(shown)
  }

  /** The comparison is by count only: the selection is cleared exactly when
      its length equals the number shown, whatever ids it holds. */
  lemma SelectAllEffect(selected: seq<string>, shown: seq<Product>)
    ensures |selected| == |shown| ==> SelectAll(selected, shown) == []
    ensures |selected| != |shown| ==> forall x :: x in SelectAll(selected, shown) <==> exists p :: p in shown && p.id == x
  {
    if |selected| != |shown| {
      forall x ensures x in Ids(shown) <==> exists p :: p in shown && p.id == x {
        if x in Ids(shown) {
          var i :| 0 <= i < |shown| && Ids(shown)[i] == x;
          assert shown[i] in shown;
        }
        if exists p :: p in shown && p.id == x {
          var p :| p in shown && p.id == x;
          var i :| 0 <= i < |shown| && shown[i] == p;
          assert Ids(shown)[i] == x;
        }
      }
    }
  }

  /** `products.filter(p => selectedIds.includes(p.id))`. */
  function SelectedProducts(products: seq<Product>, selected: seq<string>): (r: seq<Product>)
    ensures |r| <= |products|
    ensures forall p :: p in r <==> p in products && p.id in selected
    ensures SubsequenceOf(r, products)
  {
    if products == [] then []
    else if products[0].id in selected then
      var rest := SelectedProducts(products[1..], selected);
      assert ([products[0]] + rest)[1..] == rest;
      [products[0]] + rest
    else SelectedProducts(products[1..], selected)
  }

  /** The labels depend only on which ids are selected, not on the order in
      which they were ticked or on repeats in the selection. */
  lemma {:induction false} SelectionOrderIrrelevant(products: seq<Product>, s1: seq<string>, s2: seq<string>)
    requires forall x :: x in s1 <==> x in s2
    ensures SelectedProducts(products, s1) == SelectedProducts(products, s2)
  {
    if products != [] {
      SelectionOrderIrrelevant(products[1..], s1, s2);
    }
  }

  /** `product.barcode || product.id`: the value the barcode or QR code encodes. */
  function LabelValue(p: Product): (v: string)
    ensures Truthy(p.barcode) ==> v == p.barcode.value
    ensures !Truthy(p.barcode) ==> v == p.id
  {
    Or(p.barcode, p.id)
  }

  /** `handleBulkGenerate(force)`: the ids and flag sent to the batch action, or
      nothing with an empty selection. */
  function BulkRequest(selected: seq<string>, force: bool): (r: Option<(seq<string>, bool)>)
    ensures r.None? <==> selected == []
    ensures r.Some? ==> r.value == (selected, force)
  {
    if |selected| == 0 then None else Some((selected, force))
  }
}

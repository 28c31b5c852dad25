/** `src/actions/product.ts`: creating and editing products from the product
    form, and generating barcodes one at a time or in batches. `Date.now()` and
    `Math.random()` are inputs; the form's numbers arrive already parsed
    (`None` where `parseFloat`/`parseInt` give NaN), money in cents. */
module ProductActions {
  import opened JsText
  import opened Schema
  import opened Store

  /** The fields the product form posts. */
  datatype ProductForm = ProductForm(
    name: string,
    description: Option<string>,
    kind: Option<string>,
    price: Option<int>,
    cost: Option<int>,
    stock: Option<int>,
    barcode: Option<string>)

  /** How an action ends: done, rejected with the message it throws, or with
      the database's own exception escaping. */
  datatype Outcome = Done | Rejected(message: string) | DbError

  const CreateError: string := "Error al crear el producto. Verifique los datos."
  const UpdateError: string := "Error al actualizar el producto."

  /** `parseFloat(x) || 0`, `parseInt(x) || 0`. */
  function OrZero(n: Option<int>): int {
    if n.Some? then n.value else 0
  }

  /** `(x as string) || null`. */
  function OrNull(s: Option<string>): Option<string> {
    if Truthy(s) then s else None
  }

  /** `PROD-${Date.now()}-${Math.floor(Math.random() * 1000)}`. */
  function AutoBarcode(now: nat, rand: nat): string {
    "PROD-" + NatToString(now) + "-" + NatToString(rand)
  }

  /** The row `createProduct` inserts. */
  function NewProduct(form: ProductForm, id: string, now: nat, rand: nat): Product {
    Product(id, form.name, OrNull(form.description), Or(form.kind, PRODUCT),
            OrZero(form.price), OrZero(form.cost), OrZero(form.stock),
            Some(if Truthy(form.barcode) then form.barcode.value else AutoBarcode(now, rand)))
  }

  /** No product other than `except` carries `code`. */
  predicate BarcodeFree(products: map<string, Product>, code: string, except: Option<string>) {
    forall id :: id in products && Some(id) != except ==> products[id].barcode != Some(code)
  }

  /** No two products share a barcode (the column is unique; NULLs may repeat). */
  predicate UniqueBarcodes(products: map<string, Product>) {
    forall a, b :: a in products && b in products && a != b && products[a].barcode.Some? ==>
      products[a].barcode != products[b].barcode
  }

  /** Defaults of a new product: type PRODUCT, 0 for an unparsable number, no
      description for an empty one, and the generated barcode when none is
      supplied. */
  lemma NewProductDefaults(form: ProductForm, id: string, now: nat, rand: nat)
    ensures var p := NewProduct(form, id, now, rand);
      && (!Truthy(form.kind) ==> p.kind == "PRODUCT")
      && (form.price.None? ==> p.price == 0) && (form.cost.None? ==> p.cost == 0) && (form.stock.None? ==> p.stock == 0)
      && (!Truthy(form.description) ==> p.description.None?)
      && p.barcode == Some(if Truthy(form.barcode) then form.barcode.value else AutoBarcode(now, rand))
  {
  }

  /** An automatic barcode is `PROD-`, the timestamp, `-` and the random
      number, both numbers written in decimal and reading back as the inputs. */
  lemma AutoBarcodeReadsBack(now: nat, rand: nat)
    ensures var code := AutoBarcode(now, rand);
      var n := |NatToString(now)|;
      && StartsWith(code, "PROD-")
      && |code| > 6 + n && code[5 + n] == '-'
      && code[5..5 + n] == NatToString(now) && code[6 + n..] == NatToString(rand)
    ensures ParseNat(NatToString(now)) == now && ParseNat(NatToString(rand)) == rand
  {
    ParseNatToString(now);
    ParseNatToString(rand);
    CodeParts(AutoBarcode(now, rand), NatToString(now), NatToString(rand));
  }

  /** The same split, for any two pieces. */
  lemma CodeParts(code: string, ts: string, rs: string)
    requires code == "PROD-" + ts + "-" + rs
    ensures && StartsWith(code, "PROD-")
      && |code| == 6 + |ts| + |rs| && code[5 + |ts|] == '-'
      && code[5..5 + |ts|] == ts && code[6 + |ts|..] == rs
  {
    assert code[..5] == "PROD-";
    assert code[5..5 + |ts|] == ts;
    assert code[6 + |ts|..] == rs;
  }

  /** `createProduct(formData)`: inserts the new row, or throws when the
      insert is refused (the id or the barcode is already taken). */
  method CreateProduct(db: Db, form: ProductForm, newId: string, now: nat, rand: nat) returns (r: Outcome)
    requires rand < 1000
    modifies db`products
    ensures var p := NewProduct(form, newId, now, rand);
      if newId in old(db.products) || !BarcodeFree(old(db.products), p.barcode.value, None)
      then r == Rejected(CreateError) && db.products == old(db.products)
      else r == Done && db.products == old(db.products)[newId := p]
    ensures old(UniqueBarcodes(db.products)) ==> UniqueBarcodes(db.products)
  {
    var p := NewProduct(form, newId, now, rand);
    if newId in db.products || !BarcodeFree(db.products, p.barcode.value, None) {
      return Rejected(CreateError);
    }
    db.products := db.products[newId := p];
    r := Done;
  }

  /** The row `updateProduct` writes: every form field, with the same
      defaults as creation, and the barcode only when a non-empty one is
      supplied. */
  function UpdatedProduct(old_: Product, form: ProductForm): Product {
    Product(old_.id, form.name, OrNull(form.description), Or(form.kind, PRODUCT),
            OrZero(form.price), OrZero(form.cost), OrZero(form.stock),
            if Truthy(form.barcode) then form.barcode else old_.barcode)
  }

  /** An update keeps the product's identity, and its barcode unless a
      non-empty one is supplied. */
  lemma UpdatedProductBarcode(p: Product, form: ProductForm)
    ensures UpdatedProduct(p, form).id == p.id
    ensures !Truthy(form.barcode) ==> UpdatedProduct(p, form).barcode == p.barcode
    ensures Truthy(form.barcode) ==> UpdatedProduct(p, form).barcode == form.barcode
    ensures UpdatedProduct(p, form).kind == Or(form.kind, "PRODUCT")
  {
  }

  /** `updateProduct(id, formData)`: throws when the row is missing or the new
      barcode belongs to another product. */
  method UpdateProduct(db: Db, id: string, form: ProductForm) returns (r: Outcome)
    modifies db`products
    ensures id !in old(db.products) ==> r == Rejected(UpdateError) && db.products == old(db.products)
    ensures id in old(db.products) ==>
      var p := UpdatedProduct(old(db.products)[id], form);
      if p.barcode.Some? && !BarcodeFree(old(db.products), p.barcode.value, Some(id))
      then r == Rejected(UpdateError) && db.products == old(db.products)
      else r == Done && db.products == old(db.products)[id := p]
    ensures old(UniqueBarcodes(db.products)) ==> UniqueBarcodes(db.products)
  {
    if id !in db.products {
      return Rejected(UpdateError);
    }
    var p := UpdatedProduct(db.products[id], form);
    if p.barcode.Some? && !BarcodeFree(db.products, p.barcode.value, Some(id)) {
      return Rejected(UpdateError);
    }
    db.products := db.products[id := p];
    r := Done;
  }

  // --------------------------------------------------------- numeric codes

  function Pow10(k: nat): nat {
    if k == 0 then 1 else 10 * Pow10(k - 1)
  }

  /** A number of at least `10^k` has more than `k` digits. */
  lemma {:induction false} LongNumber(n: nat, k: nat)
    requires n >= Pow10(k)
    ensures |NatToString(n)| > k
  {
    if k > 0 {
      LongNumber(n / 10, k - 1);
    }
  }

  /** A number below `10^k` has at most `k` digits. */
  lemma {:induction false} ShortNumber(n: nat, k: nat)
    requires 1 <= k && n < Pow10(k)
    ensures |NatToString(n)| <= k
  {
    if n >= 10 {
      assert k >= 2;
      assert n / 10 < Pow10(k - 1);
      ShortNumber(n / 10, k - 1);
    }
  }

  /** `${Date.now().toString().slice(-8)}${random.toString().padStart(4, '0')}`. */
  function GeneratedBarcode(now: nat, rand: nat): string
    requires rand < 10000
  {
    LastChars(NatToString(now), 8) + PadStart(NatToString(rand), 4, '0')
  }

  lemma {:induction false} ParseZeros(k: nat)
    ensures AllDigits(Repeat('0', k)) && ParseNat(Repeat('0', k)) == 0
  {
    if k > 0 {
      assert Repeat('0', k)[..k - 1] == Repeat('0', k - 1);
      ParseZeros(k - 1);
    }
  }

  /** Leading zeros do not change the value read. */
  lemma {:induction false} ParseLeadingZeros(k: nat, s: string)
    requires AllDigits(s)
    ensures AllDigits(Repeat('0', k) + s) && ParseNat(Repeat('0', k) + s) == ParseNat(s)
  {
    if s == [] {
      assert Repeat('0', k) + s == Repeat('0', k);
      ParseZeros(k);
    } else {
      var t := Repeat('0', k) + s;
      assert t[..|t| - 1] == Repeat('0', k) + s[..|s| - 1];
      ParseLeadingZeros(k, s[..|s| - 1]);
    }
  }

  /** A generated code is all digits and ends in four that read back as the
      random number. */
  lemma GeneratedBarcodeSuffix(now: nat, rand: nat)
    requires rand < 10000
    ensures var code := GeneratedBarcode(now, rand);
      && AllDigits(code) && |code| >= 5
      && ParseNat(code[|code| - 4..]) == rand
  {
    var ts := LastChars(NatToString(now), 8);
    assert AllDigits(ts);
    PaddedRand(rand);
    DigitsThenFour(ts, PadStart(NatToString(rand), 4, '0'));
  }

  /** The random number padded to four digits reads back as itself. */
  lemma PaddedRand(rand: nat)
    requires rand < 10000
    ensures var padded := PadStart(NatToString(rand), 4, '0');
      |padded| == 4 && AllDigits(padded) && ParseNat(padded) == rand
  {
    var digits := NatToString(rand);
    ShortNumber(rand, 4);
    var padded := PadStart(digits, 4, '0');
    assert padded == Repeat('0', 4 - |digits|) + digits;
    ParseLeadingZeros(4 - |digits|, digits);
    ParseNatToString(rand);
  }

  lemma DigitsThenFour(a: string, b: string)
    requires 1 <= |a| && AllDigits(a) && |b| == 4 && AllDigits(b)
    ensures var c := a + b; AllDigits(c) && |c| >= 5 && c[|c| - 4..] == b
  {
    var c := a + b;
    assert c[|c| - 4..] == b;
    assert forall i :: 0 <= i < |c| ==> c[i] == if i < |a| then a[i] else b[i - |a|];
  }

  /** From an eight-digit timestamp on, a generated code is exactly twelve
      digits, the timestamp's last eight first. */
  lemma GeneratedBarcodeLength(now: nat, rand: nat)
    requires rand < 10000 && now >= 10000000
    ensures |NatToString(now)| >= 8 && |GeneratedBarcode(now, rand)| == 12
    ensures GeneratedBarcode(now, rand)[..8] == NatToString(now)[|NatToString(now)| - 8..]
  {
    ShortNumber(rand, 4);
    LongNumber(now, 7);
  }

  /** `generateProductBarcode(id)`: stores a fresh code on the row; a missing
      row or a taken code makes the update throw. */
  method GenerateProductBarcode(db: Db, id: string, now: nat, rand: nat) returns (r: Outcome)
    requires rand < 10000
    modifies db`products
    ensures var code := GeneratedBarcode(now, rand);
      if id in old(db.products) && BarcodeFree(old(db.products), code, Some(id))
      then r == Done && db.products == old(db.products)[id := old(db.products)[id].(barcode := Some(code))]
      else r == DbError && db.products == old(db.products)
  {
    var code := GeneratedBarcode(now, rand);
    if id !in db.products || !BarcodeFree(db.products, code, Some(id)) {
      return DbError;
    }
    db.products := db.products[id := db.products[id].(barcode := Some(code))];
    r := Done;
  }

  // ----------------------------------------------------------------- batch

  /** `findMany({ where: { id: { in: ids }, barcode: null } })`: the listed
      products without a barcode, each once, in the order first listed. */
  function Unlabelled(ids: seq<string>, products: map<string, Product>): (r: seq<string>)
    ensures forall id :: id in r <==> id in ids && id in products && products[id].barcode.None?
    ensures forall i, j :: 0 <= i < j < |r| ==> r[i] != r[j]
  {
    if ids == [] then []
    else
      var rest := Unlabelled(ids[..|ids| - 1], products);
      var id := ids[|ids| - 1];
      assert ids == ids[..|ids| - 1] + [id];
      if id in products && products[id].barcode.None? && id !in rest then rest + [id] else rest
  }

  /** `productsToUpdate`: every given id when forced, else the unlabelled ones. */
  function Targets(ids: seq<string>, products: map<string, Product>, force: bool): (r: seq<string>)
    ensures |r| <= |ids|
  {
    if force then ids
    else
      var r := Unlabelled(ids, products);
      DistinctShorter(r, ids);
      r
  }

  /** A list without repeats drawn from `ids` is no longer than `ids`. */
  lemma DistinctShorter(r: seq<string>, ids: seq<string>)
    requires forall i, j :: 0 <= i < j < |r| ==> r[i] != r[j]
    requires forall x :: x in r ==> x in ids
    ensures |r| <= |ids|
  {
    var sr := set x | x in r;
    var si := set x | x in ids;
    assert si == sr + (si - sr);
    DistinctCard(r);
    SetCardBound(ids);
  }

  lemma {:induction false} DistinctCard(r: seq<string>)
    requires forall i, j :: 0 <= i < j < |r| ==> r[i] != r[j]
    ensures |set x | x in r| == |r|
  {
    if r != [] {
      var init := r[..|r| - 1];
      DistinctCard(init);
      assert (set x | x in r) == (set x | x in init) + {r[|r| - 1]};
      assert r[|r| - 1] !in init;
    }
  }

  lemma {:induction false} SetCardBound(s: seq<string>)
    ensures |set x | x in s| <= |s|
  {
    if s != [] {
      var init := s[..|s| - 1];
      SetCardBound(init);
      assert (set x | x in s) == (set x | x in init) + {s[|s| - 1]};
    }
  }

  /** The codes the loop generates, one per iteration. */
  function Codes(stamps: seq<nat>, rands: seq<nat>, n: nat): seq<string>
    requires n <= |stamps| && n <= |rands|
    requires forall i :: 0 <= i < |rands| ==> rands[i] < 10000
  {
    seq(n, i requires 0 <= i < n => GeneratedBarcode(stamps[i], rands[i]))
  }

  /** One `product.update`: the row must exist and the code must be free. */
  predicate CanLabel(products: map<string, Product>, id: string, code: string) {
    id in products && BarcodeFree(products, code, Some(id))
  }

  function Label(products: map<string, Product>, id: string, code: string): map<string, Product>
    requires id in products
  {
    products[id := products[id].(barcode := Some(code))]
  }

  /** The updates in turn; the first that throws stops the loop, the earlier
      ones staying written. The flag says whether all went through. */
  function BatchRun(products: map<string, Product>, targets: seq<string>, codes: seq<string>): (map<string, Product>, bool)
    requires |codes| >= |targets|
  {
    if targets == [] then (products, true)
    else if !CanLabel(products, targets[0], codes[0]) then (products, false)
    else BatchRun(Label(products, targets[0], codes[0]), targets[1..], codes[1..])
  }

  /** The `for (const id of productsToUpdate)` loop over one code per target. */
  method RunBatch(products0: map<string, Product>, targets: seq<string>, codes: seq<string>)
    returns (products: map<string, Product>, ok: bool)
    requires |codes| >= |targets|
    ensures (products, ok) == BatchRun(products0, targets, codes)
  {
    products := products0;
    for i := 0 to |targets|
      invariant BatchRun(products, targets[i..], codes[i..]) == BatchRun(products0, targets, codes)
    {
      BatchStep(products, targets[i..], codes[i..]);
      assert targets[i..][1..] == targets[i + 1..] && codes[i..][1..] == codes[i + 1..];
      if !CanLabel(products, targets[i], codes[i]) {
        return products, false;
      }
      products := Label(products, targets[i], codes[i]);
    }
    ok := true;
  }

  /** `generateBatchBarcodes(ids, force)`: the number of products labelled,
      or `None` when an update throws. */
  method GenerateBatchBarcodes(db: Db, ids: seq<string>, force: bool, stamps: seq<nat>, rands: seq<nat>)
    returns (count: Option<nat>)
    requires |stamps| >= |ids| && |rands| >= |ids|
    requires forall i :: 0 <= i < |rands| ==> rands[i] < 10000
    modifies db`products
    ensures var targets := Targets(ids, old(db.products), force);
      var run := BatchRun(old(db.products), targets, Codes(stamps, rands, |targets|));
      && db.products == run.0
      && count == (if run.1 then Some(|targets|) else None)
  {
    var targets := Targets(ids, db.products, force);
    var products, ok := RunBatch(db.products, targets, Codes(stamps, rands, |targets|));
    db.products := products;
    count := if ok then Some(|targets|) else None;
  }

  /** One step of the run. */
  lemma BatchStep(products: map<string, Product>, targets: seq<string>, codes: seq<string>)
    requires |codes| >= |targets| > 0
    ensures !CanLabel(products, targets[0], codes[0]) ==> BatchRun(products, targets, codes) == (products, false)
    ensures CanLabel(products, targets[0], codes[0]) ==>
      BatchRun(products, targets, codes) == BatchRun(Label(products, targets[0], codes[0]), targets[1..], codes[1..])
  {
  }

  /** Products that are not targeted are never touched, and no product
      appears or disappears. */
  lemma {:induction false} BatchOnlyTargets(products: map<string, Product>, targets: seq<string>, codes: seq<string>, id: string)
    requires |codes| >= |targets|
    ensures BatchRun(products, targets, codes).0.Keys == products.Keys
    ensures id in products && id !in targets ==> BatchRun(products, targets, codes).0[id] == products[id]
  {
    if targets != [] && CanLabel(products, targets[0], codes[0]) {
      BatchOnlyTargets(Label(products, targets[0], codes[0]), targets[1..], codes[1..], id);
    }
  }

  /** After a run that went through, each target carries its own code (the
      last one given, should an id repeat), and nothing else changed on it. */
  lemma {:induction false} BatchLabels(products: map<string, Product>, targets: seq<string>, codes: seq<string>, i: nat)
    requires |codes| >= |targets| && i < |targets|
    requires BatchRun(products, targets, codes).1
    requires forall j :: i < j < |targets| ==> targets[j] != targets[i]
    ensures targets[i] in products && targets[i] in BatchRun(products, targets, codes).0
    ensures BatchRun(products, targets, codes).0[targets[i]] == products[targets[i]].(barcode := Some(codes[i]))
  {
    var next := Label(products, targets[0], codes[0]);
    if i == 0 {
      BatchOnlyTargets(next, targets[1..], codes[1..], targets[0]);
    } else {
      BatchLabels(next, targets[1..], codes[1..], i - 1);
      BatchOnlyTargets(next, targets[1..], codes[1..], targets[i]);
    }
  }

  /** Labelling never makes two products share a barcode. */
  lemma {:induction false} BatchKeepsUnique(products: map<string, Product>, targets: seq<string>, codes: seq<string>)
    requires |codes| >= |targets|
    requires UniqueBarcodes(products)
    ensures UniqueBarcodes(BatchRun(products, targets, codes).0)
  {
    if targets != [] && CanLabel(products, targets[0], codes[0]) {
      var next := Label(products, targets[0], codes[0]);
      assert UniqueBarcodes(next) by {
        forall a, b | a in next && b in next && a != b && next[a].barcode.Some?
          ensures next[a].barcode != next[b].barcode
        {
          if a == targets[0] {
            assert next[b] == products[b];
          } else if b == targets[0] {
            assert next[a] == products[a];
          }
        }
      }
      BatchKeepsUnique(next, targets[1..], codes[1..]);
    }
  }

  /** Forced, every given id is targeted; otherwise exactly the given ids
      whose product has no barcode, each once. */
  lemma TargetsSpec(ids: seq<string>, products: map<string, Product>, force: bool)
    ensures force ==> Targets(ids, products, force) == ids
    ensures !force ==> forall id :: id in Targets(ids, products, force) <==>
      id in ids && id in products && products[id].barcode.None?
    ensures !force ==> forall i, j :: 0 <= i < j < |Targets(ids, products, force)| ==>
      Targets(ids, products, force)[i] != Targets(ids, products, force)[j]
  {
  }
}

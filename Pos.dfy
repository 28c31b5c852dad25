/** `src/components/POSInterface.tsx`: the cashier's cart, product search,
    camera rotation, barcode scans and the checkout payload. Each React state
    update `setCart(prev => ...)` is a function from the old cart to the new. */
module Pos {
  import opened JsText
  import opened Schema
  import SaleActions

  /** A cart line: the product as it was when first added, and its quantity. */
  datatype CartItem = CartItem(product: Product, quantity: int)

  predicate UniqueIds(cart: seq<CartItem>) {
    forall i, j :: 0 <= i < j < |cart| ==> cart[i].product.id != cart[j].product.id
  }

  /** The cart invariant the handlers keep: one line per product, each at least 1. */
  predicate CartValid(cart: seq<CartItem>) {
    UniqueIds(cart) && forall i :: 0 <= i < |cart| ==> cart[i].quantity >= 1
  }

  predicate InCart(cart: seq<CartItem>, id: string) {
    exists i :: 0 <= i < |cart| && cart[i].product.id == id
  }

  /** `prev.map(item => item.id === id ? { ...item, quantity: item.quantity + 1 } : item)`. */
  function Increment(cart: seq<CartItem>, id: string): (r: seq<CartItem>)
    ensures |r| == |cart|
    ensures forall i :: 0 <= i < |cart| ==> r[i].product == cart[i].product
    ensures forall i :: 0 <= i < |cart| ==>
      r[i].quantity == if cart[i].product.id == id then cart[i].quantity + 1 else cart[i].quantity
  {
    if cart == [] then []
    else
      var item := cart[0];
      [if item.product.id == id then item.(quantity := item.quantity + 1) else item] + Increment(cart[1..], id)
  }

  /** `addToCart(product)`. */
  function AddToCart(cart: seq<CartItem>, p: Product): seq<CartItem> {
    if InCart(cart, p.id) then Increment(cart, p.id) else cart + [CartItem(p, 1)]
  }

  /** `removeFromCart(id)`: `prev.filter(item => item.id !== id)`. */
  function RemoveFromCart(cart: seq<CartItem>, id: string): (r: seq<CartItem>)
    ensures |r| <= |cart|
    ensures forall x :: x in r <==> x in cart && x.product.id != id
    ensures SubsequenceOf(r, cart)
  {
    if cart == [] then []
    else if cart[0].product.id == id then RemoveFromCart(cart[1..], id)
    else
      var rest := RemoveFromCart(cart[1..], id);
      assert ([cart[0]] + rest)[1..] == rest;
      [cart[0]] + rest
  }

  /** `updateQuantity(id, delta)`: the matching line gets `Math.max(1, q + delta)`. */
  function UpdateQuantity(cart: seq<CartItem>, id: string, delta: int): (r: seq<CartItem>)
    ensures |r| == |cart|
    ensures forall i :: 0 <= i < |cart| ==> r[i].product == cart[i].product
    ensures forall i :: 0 <= i < |cart| ==>
      r[i].quantity == if cart[i].product.id == id then Max(1, cart[i].quantity + delta) else cart[i].quantity
  {
    if cart == [] then []
    else
      var item := cart[0];
      [if item.product.id == id then item.(quantity := Max(1, item.quantity + delta)) else item]
      + UpdateQuantity(cart[1..], id, delta)
  }

  function LineTotal(item: CartItem): int {
    item.product.price * item.quantity
  }

  /** `cart.reduce((sum, item) => sum + item.price * item.quantity, 0)`. */
  function Total(cart: seq<CartItem>): int {
    if cart == [] then 0 else LineTotal(cart[0]) + Total(cart[1..])
  }

  /** Adding a product raises the total by one unit of it: by the new product's
      price when it is new, by the stored line's price when it is already there.
      A new product goes last with quantity 1; a present one keeps its place. */
  lemma AddToCartEffect(cart: seq<CartItem>, p: Product)
    ensures !InCart(cart, p.id) ==> AddToCart(cart, p) == cart + [CartItem(p, 1)]
    ensures !InCart(cart, p.id) ==> Total(AddToCart(cart, p)) == Total(cart) + p.price
    ensures InCart(cart, p.id) ==> |AddToCart(cart, p)| == |cart|
  {
    if !InCart(cart, p.id) {
      TotalAppend(cart, CartItem(p, 1));
    }
  }

  lemma {:induction false} TotalAppend(cart: seq<CartItem>, item: CartItem)
    ensures Total(cart + [item]) == Total(cart) + LineTotal(item)
  {
    if cart != [] {
      assert (cart + [item])[1..] == cart[1..] + [item];
      TotalAppend(cart[1..], item);
    }
  }

  /** Adding a product already in a valid cart raises the total by that line's price. */
  lemma {:induction false} IncrementTotal(cart: seq<CartItem>, id: string, k: int)
    requires UniqueIds(cart) && 0 <= k < |cart| && cart[k].product.id == id
    ensures Total(Increment(cart, id)) == Total(cart) + cart[k].product.price
  {
    assert UniqueIds(cart[1..]) by {
      assert forall i :: 0 <= i < |cart| - 1 ==> cart[1..][i] == cart[i + 1];
    }
    if k == 0 {
      assert forall i :: 0 <= i < |cart| - 1 ==> cart[1..][i].product.id != id by {
        assert forall i :: 0 <= i < |cart| - 1 ==> cart[1..][i] == cart[i + 1];
      }
      IncrementAbsent(cart[1..], id);
    } else {
      assert cart[1..][k - 1] == cart[k];
      IncrementTotal(cart[1..], id, k - 1);
    }
  }

  lemma {:induction false} IncrementAbsent(cart: seq<CartItem>, id: string)
    requires forall i :: 0 <= i < |cart| ==> cart[i].product.id != id
    ensures Increment(cart, id) == cart
  {
    if cart != [] {
      assert forall i :: 0 <= i < |cart| - 1 ==> cart[1..][i] == cart[i + 1];
      IncrementAbsent(cart[1..], id);
    }
  }

  /** Adding keeps the cart valid. */
  lemma AddToCartValid(cart: seq<CartItem>, p: Product)
    requires CartValid(cart)
    ensures CartValid(AddToCart(cart, p))
    ensures InCart(AddToCart(cart, p), p.id)
  {
    if InCart(cart, p.id) {
      var k :| 0 <= k < |cart| && cart[k].product.id == p.id;
      assert Increment(cart, p.id)[k].product.id == p.id;
    } else {
      var r := cart + [CartItem(p, 1)];
      assert r[|cart|].product.id == p.id;
    }
  }

  /** Removing drops exactly the lines of that product and keeps the others,
      leaving a cart without the product untouched. */
  lemma {:induction false} RemoveFromCartEffect(cart: seq<CartItem>, id: string)
    ensures !InCart(RemoveFromCart(cart, id), id)
    ensures forall i :: 0 <= i < |cart| && cart[i].product.id != id ==> cart[i] in RemoveFromCart(cart, id)
    ensures !InCart(cart, id) ==> RemoveFromCart(cart, id) == cart
  {
    var r := RemoveFromCart(cart, id);
    assert forall j :: 0 <= j < |r| ==> r[j] in r;
    assert forall i :: 0 <= i < |cart| ==> cart[i] in cart;
    if !InCart(cart, id) {
      forall x | x in cart ensures x.product.id != id {
        var i :| 0 <= i < |cart| && cart[i] == x;
      }
      RemoveAbsent(cart, id);
    }
  }

  lemma {:induction false} RemoveAbsent(cart: seq<CartItem>, id: string)
    requires forall x :: x in cart ==> x.product.id != id
    ensures RemoveFromCart(cart, id) == cart
  {
    if cart != [] {
      assert cart[0] in cart;
      RemoveAbsent(cart[1..], id);
    }
  }

  /** The line total of the lines for `id`, 0 when absent. */
  function LineTotalOf(cart: seq<CartItem>, id: string): int {
    if cart == [] then 0
    else (if cart[0].product.id == id then LineTotal(cart[0]) else 0) + LineTotalOf(cart[1..], id)
  }

  /** Removing lowers the total by exactly the removed lines. */
  lemma {:induction false} RemoveFromCartTotal(cart: seq<CartItem>, id: string)
    ensures Total(RemoveFromCart(cart, id)) == Total(cart) - LineTotalOf(cart, id)
  {
    if cart != [] {
      RemoveFromCartTotal(cart[1..], id);
    }
  }

  /** Removing keeps a valid cart valid. */
  lemma {:induction false} RemoveFromCartValid(cart: seq<CartItem>, id: string)
    requires CartValid(cart)
    ensures CartValid(RemoveFromCart(cart, id))
  {
    if cart != [] {
      TailValid(cart);
      RemoveFromCartValid(cart[1..], id);
      var rest := RemoveFromCart(cart[1..], id);
      if cart[0].product.id != id {
        forall x | x in rest ensures x.product.id != cart[0].product.id {
          var j :| 0 <= j < |cart[1..]| && cart[1..][j] == x;
          assert cart[j + 1] == x;
        }
        ConsValid(cart[0], rest);
      }
    }
  }

  lemma TailValid(cart: seq<CartItem>)
    requires CartValid(cart) && cart != []
    ensures CartValid(cart[1..])
  {
    assert forall i :: 1 <= i < |cart| ==> cart[i] == cart[1..][i - 1];
  }

  lemma ConsValid(x: CartItem, rest: seq<CartItem>)
    requires CartValid(rest) && x.quantity >= 1
    requires forall y :: y in rest ==> y.product.id != x.product.id
    ensures CartValid([x] + rest)
  {
    var c := [x] + rest;
    assert forall j :: 1 <= j < |c| ==> c[j] == rest[j - 1] && c[j] in rest;
  }

  /** Changing a quantity keeps every line at least 1 and the ids unchanged,
      whatever the delta. */
  lemma UpdateQuantityValid(cart: seq<CartItem>, id: string, delta: int)
    requires CartValid(cart)
    ensures CartValid(UpdateQuantity(cart, id, delta))
  {
  }

  // ------------------------------------------------------------ search and cameras

  predicate NameMatches(p: Product, search: string) {
    Includes(ToLower(p.name), ToLower(search))
  }

  /** `products.filter(p => p.name.toLowerCase().includes(search.toLowerCase()))`. */
  function FilteredProducts(products: seq<Product>, search: string): (r: seq<Product>)
    ensures |r| <= |products|
    ensures forall p :: p in r <==> p in products && NameMatches(p, search)
    ensures SubsequenceOf(r, products)
  {
    if products == [] then []
    else if NameMatches(products[0], search) then
      var rest := FilteredProducts(products[1..], search);
      assert ([products[0]] + rest)[1..] == rest;
      [products[0]] + rest
    else FilteredProducts(products[1..], search)
  }

  /** An empty search shows the whole catalogue, in order. */
  lemma {:induction false} EmptySearchKeepsAll(products: seq<Product>)
    ensures FilteredProducts(products, "") == products
  {
    if products != [] {
      IncludesAt(ToLower(products[0].name), "");
      assert OccursAt(ToLower(products[0].name), "", 0);
      EmptySearchKeepsAll(products[1..]);
    }
  }

  /** `cameras.findIndex(c => c.id === currentCameraId)`; absent for a null id. */
  function CameraIndex(cameras: seq<string>, current: Option<string>): (r: int)
    ensures -1 <= r < |cameras|
    ensures r >= 0 ==> current == Some(cameras[r]) && forall j :: 0 <= j < r ==> Some(cameras[j]) != current
    ensures r == -1 ==> forall j :: 0 <= j < |cameras| ==> Some(cameras[j]) != current
  {
    if cameras == [] then -1
    else if current == Some(cameras[0]) then 0
    else
      var r := CameraIndex(cameras[1..], current);
      if r == -1 then -1 else r + 1
  }

  /** `switchCamera()`: the new current camera id. */
  function SwitchCamera(cameras: seq<string>, current: Option<string>): Option<string> {
    if |cameras| > 1 then Some(cameras[NextIndex(CameraIndex(cameras, current), |cameras|)]) else current
  }

  /** The index `switchCamera` moves to from `findIndex`'s answer `i`. */
  function NextIndex(i: int, n: int): (r: int)
    requires -1 <= i < n && n > 1
    ensures 0 <= r < n
    ensures r == if i == -1 then 1 else if i + 1 < n then i + 1 else 0
  {
    if i != -1 then (i + 1) % n else 1 % n
  }

  predicate DistinctCameras(cameras: seq<string>) {
    forall i, j :: 0 <= i < j < |cameras| ==> cameras[i] != cameras[j]
  }

  /** The current camera after pressing the switch button `k` times. */
  function SwitchTimes(cameras: seq<string>, current: Option<string>, k: nat): Option<string>
    decreases k
  {
    if k == 0 then current else SwitchTimes(cameras, SwitchCamera(cameras, current), k - 1)
  }

  /** With one camera or none nothing changes; from an unknown camera the
      second one is chosen. */
  lemma SwitchCameraStep(cameras: seq<string>, current: Option<string>)
    ensures |cameras| <= 1 ==> SwitchCamera(cameras, current) == current
    ensures |cameras| > 1 && (forall j :: 0 <= j < |cameras| ==> Some(cameras[j]) != current) ==>
      SwitchCamera(cameras, current) == Some(cameras[1])
  {
  }

  /** `i` taken round a ring of `n` positions, for `i < 2n`. */
  function Wrap(i: int, n: int): int {
    if i < n then i else i - n
  }

  /** From camera i the next one is chosen, wrapping around after the last. */
  lemma SwitchFromCamera(cameras: seq<string>, i: int)
    requires DistinctCameras(cameras) && |cameras| > 1 && 0 <= i < |cameras|
    ensures 0 <= Wrap(i + 1, |cameras|) < |cameras|
    ensures SwitchCamera(cameras, Some(cameras[i])) == Some(cameras[Wrap(i + 1, |cameras|)])
  {
    assert CameraIndex(cameras, Some(cameras[i])) == i;
  }

  /** Switching k ≤ n times from camera i lands on camera (i + k) mod n ... */
  lemma {:induction false} SwitchTimesFrom(cameras: seq<string>, i: int, k: nat)
    requires DistinctCameras(cameras) && |cameras| > 1 && 0 <= i < |cameras| && k <= |cameras|
    ensures 0 <= Wrap(i + k, |cameras|) < |cameras|
    ensures SwitchTimes(cameras, Some(cameras[i]), k) == Some(cameras[Wrap(i + k, |cameras|)])
    decreases k
  {
    if k > 0 {
      var n := |cameras|;
      SwitchFromCamera(cameras, i);
      SwitchTimesFrom(cameras, Wrap(i + 1, n), k - 1);
    }
  }

  /** ... so n switches come back to the camera one started from. */
  lemma SwitchCameraCycle(cameras: seq<string>, i: int)
    requires DistinctCameras(cameras) && |cameras| > 1 && 0 <= i < |cameras|
    ensures SwitchTimes(cameras, Some(cameras[i]), |cameras|) == Some(cameras[i])
  {
    SwitchTimesFrom(cameras, i, |cameras|);
  }

  // ------------------------------------------------------------ scanning and checkout

  /** `i` is the first position whose product carries barcode `code`. */
  predicate FirstWithBarcode(products: seq<Product>, code: string, i: int) {
    0 <= i < |products| && products[i].barcode == Some(code) &&
    forall j :: 0 <= j < i ==> products[j].barcode != Some(code)
  }

  /** `products.find(p => p.barcode === decodedText)`: the first match. */
  function FindByBarcode(products: seq<Product>, code: string): (r: Option<Product>)
    ensures r.Some? ==> r.value in products && r.value.barcode == Some(code)
    ensures r.None? <==> forall p :: p in products ==> p.barcode != Some(code)
    ensures r.Some? ==> exists i :: FirstWithBarcode(products, code, i) && products[i] == r.value
  {
    if products == [] then None
    else if products[0].barcode == Some(code) then Some(products[0])
    else
      var r := FindByBarcode(products[1..], code);
      assert r.Some? ==> exists i :: FirstWithBarcode(products, code, i) && products[i] == r.value by {
        if r.Some? {
          var i :| FirstWithBarcode(products[1..], code, i) && products[1..][i] == r.value;
          assert products[i + 1] == r.value;
          forall j | 0 <= j < i + 1 ensures products[j].barcode != Some(code) {
            if j > 0 { assert products[j] == products[1..][j - 1]; }
          }
        }
      }
      r
  }

  /** `onScanSuccess(code)`: the new cart and whether the scanner closes. */
  function OnScan(products: seq<Product>, cart: seq<CartItem>, code: string): (seq<CartItem>, bool) {
    var found := FindByBarcode(products, code);
    if found.Some? then (AddToCart(cart, found.value), true) else (cart, false)
  }

  /** A scan changes the cart exactly when some product carries that barcode,
      and then adds that product. */
  lemma OnScanEffect(products: seq<Product>, cart: seq<CartItem>, code: string)
    requires CartValid(cart)
    ensures var (r, close) := OnScan(products, cart, code);
      (close <==> exists p :: p in products && p.barcode == Some(code)) &&
      (!close ==> r == cart) &&
      (close ==> CartValid(r) && |r| >= |cart| && |r| > 0) &&
      (close ==> r == AddToCart(cart, FindByBarcode(products, code).value) &&
                 InCart(r, FindByBarcode(products, code).value.id))
  {
    var found := FindByBarcode(products, code);
    if found.Some? {
      AddToCartValid(cart, found.value);
      AddToCartEffect(cart, found.value);
    }
  }

  function CartLines(cart: seq<CartItem>): (r: seq<Line>)
    ensures |r| == |cart|
    ensures forall i :: 0 <= i < |cart| ==>
      r[i] == Line(cart[i].product.id, cart[i].quantity, cart[i].product.price)
  {
    if cart == [] then [] else CartLines(cart[..|cart| - 1]) + [Line(cart[|cart| - 1].product.id, cart[|cart| - 1].quantity, cart[|cart| - 1].product.price)]
  }

  /** `handleCheckout`'s `saleData`; nothing happens on an empty cart. */
  function Checkout(cart: seq<CartItem>, isQuote: bool, paymentMethod: string, selectedClient: string): Option<SaleActions.SaleInput> {
    if cart == [] then None
    else Some(SaleActions.SaleInput(CartLines(cart), Total(cart), paymentMethod,
                                    if isQuote then QUOTE else SALE,
                                    if selectedClient == "" then None else Some(selectedClient)))
  }

  /** The sum of `price * quantity` over sale lines. */
  function LinesTotal(lines: seq<Line>): int {
    if lines == [] then 0 else LinesTotal(lines[..|lines| - 1]) + lines[|lines| - 1].price * lines[|lines| - 1].quantity
  }

  /** The payload mirrors the cart line by line, its total is the total of its
      own lines, its type is QUOTE exactly for a quote, and no client is sent
      when none is selected. */
  lemma {:induction false} CheckoutPayload(cart: seq<CartItem>, isQuote: bool, paymentMethod: string, selectedClient: string)
    ensures var r := Checkout(cart, isQuote, paymentMethod, selectedClient);
      && (r.None? <==> cart == [])
      && (r.Some? ==> |r.value.items| == |cart| && r.value.total == LinesTotal(r.value.items))
      && (r.Some? ==> (r.value.saleType == QUOTE <==> isQuote) && r.value.paymentMethod == paymentMethod)
      && (r.Some? ==> (r.value.clientId.None? <==> selectedClient == ""))
      && (r.Some? ==> forall i :: 0 <= i < |cart| ==>
            r.value.items[i] == Line(cart[i].product.id, cart[i].quantity, cart[i].product.price))
  {
    CartLinesTotal(cart);
  }

  lemma {:induction false} CartLinesTotal(cart: seq<CartItem>)
    ensures LinesTotal(CartLines(cart)) == Total(cart)
  {
    if cart != [] {
      var init := cart[..|cart| - 1];
      CartLinesTotal(init);
      assert CartLines(cart)[..|cart| - 1] == CartLines(init);
      TotalAppend(init, cart[|cart| - 1]);
      assert init + [cart[|cart| - 1]] == cart;
    }
  }
}

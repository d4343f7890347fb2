/**
 * The cart page: it turns quantity edits and remove clicks into cart
 * actions, shows the cart total, and routes the checkout button.
 */
module CartPage {
  import opened CartSlice

  /** `handleQuantityChange`: a quantity below 1 removes the line, any other sets it. */
  function QuantityChange(productId: string, size: string, newQuantity: int): (a: CartAction)
    ensures newQuantity < 1 <==> a == RemoveFromCart(productId, size)
    ensures newQuantity >= 1 <==> a == UpdateCartItemQuantity(productId, size, newQuantity)
  {
    if newQuantity < 1 then RemoveFromCart(productId, size)
    else UpdateCartItemQuantity(productId, size, newQuantity)
  }

  /** The minus button of a line. */
  function Decrement(line: CartLine): CartAction
  {
    QuantityChange(line.productId, line.size, line.quantity - 1)
  }

  /** The plus button of a line. */
  function Increment(line: CartLine): CartAction
  {
    QuantityChange(line.productId, line.size, line.quantity + 1)
  }

  /** `handleRemoveItem` */
  function RemoveItem(productId: string, size: string): CartAction
  {
    RemoveFromCart(productId, size)
  }

  /** `calculateTotal`: price times quantity, summed left to right from 0. */
  function Total(items: seq<CartLine>): (t: int)
    ensures items == [] ==> t == 0
  {
    if items == [] then 0
    else Total(items[..|items| - 1]) + items[|items| - 1].price * items[|items| - 1].quantity
  }

  /** A one-line cart totals that line's price times its quantity. */
  lemma TotalSingle(line: CartLine)
    ensures Total([line]) == line.price * line.quantity
  {
    assert [line][..0] == [];
  }

  /** `handleCheckout`: a signed-out visitor is sent to the login page. */
  function CheckoutRoute(isAuthenticated: bool): (route: string)
    ensures isAuthenticated <==> route == "/checkout"
    ensures !isAuthenticated <==> route == "/login"
  {
    if isAuthenticated then "/checkout" else "/login"
  }

  predicate AllPositive(items: seq<CartLine>)
  {
    forall k :: 0 <= k < |items| ==> items[k].quantity >= 1
  }

  /**
   * Whatever quantity the page is handed, the action it dispatches keeps
   * every line at quantity 1 or more; in particular the +/- buttons never
   * leave a line below 1.
   */
  lemma QuantityChangeKeepsPositive(items: seq<CartLine>, productId: string, size: string, newQuantity: int)
    requires AllPositive(items)
    ensures AllPositive(Reduce(items, QuantityChange(productId, size, newQuantity)))
  {
    if newQuantity < 1 {
      var r := RemoveKey(items, productId, size);
      RemoveKeyDrops(items, productId, size);
      forall k | 0 <= k < |r|
        ensures r[k].quantity >= 1
      {
        assert r[k] in items;
      }
    }
  }

  /** The buttons of line `j` as a corollary: the minus on a line at 1 removes it. */
  lemma ButtonsKeepPositive(items: seq<CartLine>, j: nat)
    requires AllPositive(items) && j < |items|
    ensures AllPositive(Reduce(items, Increment(items[j])))
    ensures AllPositive(Reduce(items, Decrement(items[j])))
    ensures items[j].quantity == 1 ==> Decrement(items[j]) == RemoveFromCart(items[j].productId, items[j].size)
  {
    QuantityChangeKeepsPositive(items, items[j].productId, items[j].size, items[j].quantity + 1);
    QuantityChangeKeepsPositive(items, items[j].productId, items[j].size, items[j].quantity - 1);
  }

  /** The remove button leaves no line with that key and keeps every other line. */
  lemma RemoveItemRemovesLine(items: seq<CartLine>, productId: string, size: string)
    ensures var r := Reduce(items, RemoveItem(productId, size));
      && !ContainsKey(r, productId, size)
      && (forall l :: l in r <==> l in items && !HasKey(l, productId, size))
  {
    RemoveKeyDrops(items, productId, size);
  }

  /** The total of a concatenation is the sum of the totals. */
  lemma {:induction false} TotalAppend(a: seq<CartLine>, b: seq<CartLine>)
    ensures Total(a + b) == Total(a) + Total(b)
    decreases |b|
  {
    if b == [] {
      assert a + b == a;
    } else {
      var init := b[..|b| - 1];
      TotalAppend(a, init);
      assert (a + b)[..|a + b| - 1] == a + init;
    }
  }

  /** Replacing one line changes the total by exactly that line's difference. */
  lemma {:induction false} TotalUpdate(items: seq<CartLine>, i: nat, line: CartLine)
    requires i < |items|
    ensures Total(items[i := line]) == Total(items) - items[i].price * items[i].quantity + line.price * line.quantity
  {
    var before := items[..i];
    var after := items[i + 1..];
    assert items == before + [items[i]] + after;
    assert items[i := line] == before + [line] + after;
    TotalAppend(before + [items[i]], after);
    TotalAppend(before + [line], after);
    TotalAppend(before, [items[i]]);
    TotalAppend(before, [line]);
    assert Total([items[i]]) == items[i].price * items[i].quantity by {
      assert [items[i]][..0] == [];
    }
    assert Total([line]) == line.price * line.quantity by {
      assert [line][..0] == [];
    }
  }

  /**
   * Adding to the cart raises the total by the added quantity at the
   * price of the line it lands on: the existing line's price when the key
   * is already there, the new line's otherwise.
   */
  lemma {:induction false} AddToCartTotal(items: seq<CartLine>, line: CartLine)
    ensures var i := FindLine(items, line.productId, line.size);
      Total(AddLine(items, line)) ==
        Total(items) + (if i < |items| then items[i].price else line.price) * line.quantity
  {
    var i := FindLine(items, line.productId, line.size);
    if i < |items| {
      var merged := items[i].(quantity := items[i].quantity + line.quantity);
      assert AddLine(items, line) == items[i := merged];
      TotalUpdate(items, i, merged);
      assert merged.price * merged.quantity == items[i].price * items[i].quantity + items[i].price * line.quantity;
    } else {
      assert AddLine(items, line) == items + [line];
      assert (items + [line])[..|items|] == items;
    }
  }

  /** Lines with non-negative prices and quantities give a non-negative total. */
  lemma {:induction false} TotalNonNegative(items: seq<CartLine>)
    requires forall k :: 0 <= k < |items| ==> items[k].price >= 0 && items[k].quantity >= 0
    ensures Total(items) >= 0
  {
    if items != [] {
      TotalNonNegative(items[..|items| - 1]);
    }
  }
}

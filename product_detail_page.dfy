/**
 * The product page: the guards in front of add-to-cart and the quantity
 * stepper, which stays within 1..10.
 */
module ProductDetailPage {
  import opened Common
  import opened Entities
  import opened CartSlice

  const SelectSizeMessage: string := "Veuillez sélectionner une taille"
  const SoldOutMessage: string := "Cette taille est épuisée"

  /** What a click on add-to-cart does. */
  datatype AddAttempt =
    | Refused(message: string)   // an error toast, nothing dispatched
    | UnknownSize                // the size lookup finds nothing and the handler throws
    | Added(line: CartLine)      // exactly one add-to-cart dispatched with this payload

  /** `product.sizes.find(s => s.size === selectedSize)` */
  function FindSize(sizes: seq<SizeStock>, size: string): (r: Option<SizeStock>)
    ensures r.Some? ==> r.value in sizes && r.value.size == size
    ensures r.None? <==> forall k :: 0 <= k < |sizes| ==> sizes[k].size != size
  {
    if sizes == [] then None
    else if sizes[0].size == size then Some(sizes[0])
    else FindSize(sizes[1..], size)
  }

  /** `handleAddToCart` */
  function HandleAddToCart(product: Product, selectedSize: string, quantity: int): (a: AddAttempt)
    ensures selectedSize == "" <==> a == Refused(SelectSizeMessage)
    ensures a == Refused(SoldOutMessage) <==>
      selectedSize != "" && FindSize(product.sizes, selectedSize).Some? && FindSize(product.sizes, selectedSize).value.stock == 0
    ensures a.Added? ==>
      && a.line.productId == product.id && a.line.quantity == quantity && a.line.size == selectedSize
      && a.line.name == product.name && a.line.price == product.price
      && a.line.imageUrl == (if |product.images| > 0 then product.images[0] else "")
      && exists s :: s in product.sizes && s.size == selectedSize && s.stock != 0
    ensures a.Added? <==>
      selectedSize != "" && FindSize(product.sizes, selectedSize).Some? && FindSize(product.sizes, selectedSize).value.stock != 0
    ensures a == UnknownSize <==> selectedSize != "" && FindSize(product.sizes, selectedSize).None?
  {
    if selectedSize == "" then Refused(SelectSizeMessage)
    else match FindSize(product.sizes, selectedSize)
      case None => UnknownSize
      case Some(s) =>
        if s.stock == 0 then Refused(SoldOutMessage)
        else Added(CartLine(product.id, quantity, selectedSize, product.name, product.price,
                            if |product.images| > 0 then product.images[0] else ""))
  }

  /** Adding from the product page lands in the cart under the chosen key with the chosen quantity. */
  lemma AddedLineInCart(items: seq<CartLine>, product: Product, selectedSize: string, quantity: int)
    requires HandleAddToCart(product, selectedSize, quantity).Added?
    requires !ContainsKey(items, product.id, selectedSize)
    ensures var r := Reduce(items, AddToCart(HandleAddToCart(product, selectedSize, quantity).line));
      && |r| == |items| + 1
      && r[|items|].productId == product.id && r[|items|].size == selectedSize
      && r[|items|].quantity == quantity
  {
    AddAppendsNew(items, HandleAddToCart(product, selectedSize, quantity).line);
  }

  /** The minus button: `Math.max(1, quantity - 1)` */
  function Decrement(quantity: int): int
  {
    if quantity - 1 > 1 then quantity - 1 else 1
  }

  /** The plus button: `Math.min(10, quantity + 1)` */
  function Increment(quantity: int): int
  {
    if quantity + 1 < 10 then quantity + 1 else 10
  }

  /** The quantity after a sequence of presses, `true` for plus. */
  function Press(quantity: int, presses: seq<bool>): int
    decreases |presses|
  {
    if presses == [] then quantity
    else Press(if presses[0] then Increment(quantity) else Decrement(quantity), presses[1..])
  }

  /**
   * From its initial value 1, the quantity stays within 1..10 whatever
   * buttons are pressed; each press moves it by at most one.
   */
  lemma {:induction false} PressesStayInRange(quantity: int, presses: seq<bool>)
    requires 1 <= quantity <= 10
    ensures 1 <= Press(quantity, presses) <= 10
    decreases |presses|
  {
    if presses != [] {
      var next := if presses[0] then Increment(quantity) else Decrement(quantity);
      assert 1 <= next <= 10;
      PressesStayInRange(next, presses[1..]);
    }
  }

  /** One press changes an in-range quantity by at most one, and never leaves 1..10. */
  lemma StepperBounds(quantity: int)
    requires 1 <= quantity <= 10
    ensures 1 <= Decrement(quantity) <= quantity && quantity - Decrement(quantity) <= 1
    ensures quantity <= Increment(quantity) <= 10 && Increment(quantity) - quantity <= 1
    ensures quantity == 1 ==> Decrement(quantity) == 1
    ensures quantity == 10 ==> Increment(quantity) == 10
  {
  }

  /** The stepper's quantity, starting at 1, always gives a positive cart quantity. */
  lemma StepperQuantityPositive(presses: seq<bool>)
    ensures 1 <= Press(1, presses) <= 10
  {
    PressesStayInRange(1, presses);
  }
}

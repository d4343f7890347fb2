/**
 * The cart slice: a client-local list of lines keyed by (productId, size).
 * Lines are added (quantities add up), have their quantity set, are
 * removed, or the whole list is cleared. The slice never fails and never
 * touches its `loading` and `error` fields.
 */
module CartSlice {
  import opened Common

  /** A cart line; it is also the payload of the add-to-cart action. */
  datatype CartLine = CartLine(
    productId: string,
    quantity: int,
    size: string,
    name: string,
    price: int,
    imageUrl: string)

  predicate HasKey(line: CartLine, productId: string, size: string)
  {
    line.productId == productId && line.size == size
  }

  predicate ContainsKey(items: seq<CartLine>, productId: string, size: string)
  {
    exists j :: 0 <= j < |items| && HasKey(items[j], productId, size)
  }

  /** No two lines share a (productId, size) key. */
  predicate UniqueKeys(items: seq<CartLine>)
  {
    forall i, j :: 0 <= i < j < |items| ==>
      !HasKey(items[j], items[i].productId, items[i].size)
  }

  /**
   * The line `find` picks for a key: the position of the first line with
   * that key, or |items| when there is none.
   */
  function FindLine(items: seq<CartLine>, productId: string, size: string): (i: nat)
    ensures i <= |items|
    ensures i < |items| ==> HasKey(items[i], productId, size)
    ensures forall j :: 0 <= j < i ==> !HasKey(items[j], productId, size)
    ensures i == |items| <==> !ContainsKey(items, productId, size)
  {
    if items == [] then 0
    else if HasKey(items[0], productId, size) then 0
    else 1 + FindLine(items[1..], productId, size)
  }

  /** The lines after `addToCart` with payload `line`. */
  function AddLine(items: seq<CartLine>, line: CartLine): seq<CartLine>
  {
    var i := FindLine(items, line.productId, line.size);
    if i < |items| then items[i := items[i].(quantity := items[i].quantity + line.quantity)]
    else items + [line]
  }

  /** The lines after `updateCartItemQuantity`. */
  function SetQuantity(items: seq<CartLine>, productId: string, size: string, quantity: int): seq<CartLine>
  {
    var i := FindLine(items, productId, size);
    if i < |items| then items[i := items[i].(quantity := quantity)] else items
  }

  /** The lines after `removeFromCart`: those without the key, in order. */
  function RemoveKey(items: seq<CartLine>, productId: string, size: string): seq<CartLine>
  {
    if items == [] then []
    else (if HasKey(items[0], productId, size) then [] else [items[0]])
         + RemoveKey(items[1..], productId, size)
  }

  /** The actions the slice exports. */
  datatype CartAction =
    | AddToCart(line: CartLine)
    | UpdateCartItemQuantity(productId: string, size: string, quantity: int)
    | RemoveFromCart(productId: string, size: string)
    | ClearCart

  /** The slice's reducer on `items`. */
  function Reduce(items: seq<CartLine>, action: CartAction): seq<CartLine>
  {
    match action
    case AddToCart(line) => AddLine(items, line)
    case UpdateCartItemQuantity(p, s, q) => SetQuantity(items, p, s, q)
    case RemoveFromCart(p, s) => RemoveKey(items, p, s)
    case ClearCart => []
  }

  // ---------------------------------------------------------------------
  // The state record, updated in place by the reducers.

  class CartState {
    var items: seq<CartLine>
    var loading: bool
    var error: Option<ErrorPayload>

    constructor ()
      ensures items == [] && !loading && error == None
    {
      items := [];
      loading := false;
      error := None;
    }

    /** `addToCart`: merge into the line with the same key, or append. */
    method AddToCart(line: CartLine)
      modifies this
      ensures items == AddLine(old(items), line)
      ensures UniqueKeys(old(items)) ==> UniqueKeys(items)
      ensures loading == old(loading) && error == old(error)
    {
      var i := FindLine(items, line.productId, line.size);
      if i < |items| {
        var existing := items[i];
        items := items[i := existing.(quantity := existing.quantity + line.quantity)];
      } else {
        items := items + [line];
      }
      if UniqueKeys(old(items)) {
        AddKeepsUniqueKeys(old(items), line);
      }
    }

    /** `updateCartItemQuantity`: set the quantity of the line with the key, if any. */
    method UpdateCartItemQuantity(productId: string, size: string, quantity: int)
      modifies this
      ensures items == SetQuantity(old(items), productId, size, quantity)
      ensures |items| == |old(items)|
      ensures UniqueKeys(old(items)) ==> UniqueKeys(items)
      ensures loading == old(loading) && error == old(error)
    {
      SetQuantityKeepsUniqueKeys(items, productId, size, quantity);
      var i := FindLine(items, productId, size);
      if i < |items| {
        items := items[i := items[i].(quantity := quantity)];
      }
    }

    /** `removeFromCart`: keep the lines without the key. */
    method RemoveFromCart(productId: string, size: string)
      modifies this
      ensures items == RemoveKey(old(items), productId, size)
      ensures !ContainsKey(items, productId, size)
      ensures UniqueKeys(old(items)) ==> UniqueKeys(items)
      ensures loading == old(loading) && error == old(error)
    {
      RemoveKeyDrops(items, productId, size);
      if UniqueKeys(items) {
        RemoveKeyKeepsUniqueKeys(items, productId, size);
      }
      items := RemoveKey(items, productId, size);
    }

    /** `clearCart` */
    method ClearCart()
      modifies this
      ensures items == []
      ensures loading == old(loading) && error == old(error)
    {
      items := [];
    }
  }

  // ---------------------------------------------------------------------
  // Properties of the reducers.

  /** With unique keys, `find` lands on the one line that has the key. */
  lemma {:induction false} FindLineUnique(items: seq<CartLine>, j: nat)
    requires UniqueKeys(items)
    requires j < |items|
    ensures FindLine(items, items[j].productId, items[j].size) == j
  {
    var i := FindLine(items, items[j].productId, items[j].size);
    if i < j {
      assert HasKey(items[j], items[i].productId, items[i].size);
      assert false;
    }
  }

  /**
   * Adding a key that is already present raises that line's quantity by
   * the added amount and changes nothing else: no line is added.
   */
  lemma AddMergesExisting(items: seq<CartLine>, line: CartLine, j: nat)
    requires UniqueKeys(items)
    requires j < |items| && HasKey(items[j], line.productId, line.size)
    ensures var r := AddLine(items, line);
      && |r| == |items|
      && r[j] == items[j].(quantity := items[j].quantity + line.quantity)
      && forall k :: 0 <= k < |items| && k != j ==> r[k] == items[k]
  {
    FindLineUnique(items, j);
  }

  /** Adding a key that is absent appends exactly the given line at the end. */
  lemma AddAppendsNew(items: seq<CartLine>, line: CartLine)
    requires !ContainsKey(items, line.productId, line.size)
    ensures AddLine(items, line) == items + [line]
  {
  }

  /** `addToCart` keeps the (productId, size) keys unique. */
  lemma AddKeepsUniqueKeys(items: seq<CartLine>, line: CartLine)
    requires UniqueKeys(items)
    ensures UniqueKeys(AddLine(items, line))
  {
    var i := FindLine(items, line.productId, line.size);
    var r := AddLine(items, line);
    if i == |items| {
      assert r == items + [line];
      forall a, b | 0 <= a < b < |r|
        ensures !HasKey(r[b], r[a].productId, r[a].size)
      {
        if b == |items| {
          assert r[a] == items[a];
          assert !HasKey(items[a], line.productId, line.size);
        }
      }
    } else {
      forall a, b | 0 <= a < b < |r|
        ensures !HasKey(r[b], r[a].productId, r[a].size)
      {
        assert r[a].productId == items[a].productId && r[a].size == items[a].size;
        assert r[b].productId == items[b].productId && r[b].size == items[b].size;
      }
    }
  }

  /** A list without the key has no key in its tail either. */
  lemma NoKeyInTail(items: seq<CartLine>, productId: string, size: string)
    requires items != [] && !ContainsKey(items, productId, size)
    ensures !ContainsKey(items[1..], productId, size)
  {
    forall k | 0 <= k < |items| - 1
      ensures !HasKey(items[1..][k], productId, size)
    {
      assert items[1..][k] == items[k + 1];
    }
  }

  /** When no line has the key, `find` on the list with one more line stops at that line. */
  lemma {:induction false} FindLineAtEnd(items: seq<CartLine>, line: CartLine)
    requires !ContainsKey(items, line.productId, line.size)
    ensures FindLine(items + [line], line.productId, line.size) == |items|
  {
    if items != [] {
      assert (items + [line])[1..] == items[1..] + [line];
      assert !HasKey(items[0], line.productId, line.size);
      NoKeyInTail(items, line.productId, line.size);
      FindLineAtEnd(items[1..], line);
    }
  }

  /**
   * Adding q1 then q2 of a new (productId, size) gives one line holding
   * q1 + q2, carrying the fields of the first add.
   */
  lemma AddTwiceMerges(items: seq<CartLine>, first: CartLine, second: CartLine)
    requires !ContainsKey(items, first.productId, first.size)
    requires second.productId == first.productId && second.size == first.size
    ensures AddLine(AddLine(items, first), second)
         == items + [first.(quantity := first.quantity + second.quantity)]
  {
    AddAppendsNew(items, first);
    FindLineAtEnd(items, first);
  }

  /**
   * `updateCartItemQuantity` sets the quantity of the line with the key,
   * whatever the value (0 and negatives included), and leaves every other
   * line as it was.
   */
  lemma SetQuantityOnlyMatching(items: seq<CartLine>, productId: string, size: string, quantity: int)
    requires UniqueKeys(items)
    ensures var r := SetQuantity(items, productId, size, quantity);
      && |r| == |items|
      && forall k :: 0 <= k < |items| ==>
           r[k] == if HasKey(items[k], productId, size) then items[k].(quantity := quantity) else items[k]
  {
    var i := FindLine(items, productId, size);
    if i < |items| {
      forall k | 0 <= k < |items| && k != i
        ensures !HasKey(items[k], productId, size)
      {
        if k < i {
        } else {
          assert !HasKey(items[k], items[i].productId, items[i].size);
        }
      }
    }
  }

  /** Every action of the slice keeps the (productId, size) keys unique. */
  lemma ReduceKeepsUniqueKeys(items: seq<CartLine>, action: CartAction)
    requires UniqueKeys(items)
    ensures UniqueKeys(Reduce(items, action))
  {
    match action
    case AddToCart(line) => AddKeepsUniqueKeys(items, line);
    case UpdateCartItemQuantity(p, s, q) => SetQuantityKeepsUniqueKeys(items, p, s, q);
    case RemoveFromCart(p, s) => RemoveKeyKeepsUniqueKeys(items, p, s);
    case ClearCart =>
  }

  /** `updateCartItemQuantity` keeps the (productId, size) keys unique: it never touches a key. */
  lemma SetQuantityKeepsUniqueKeys(items: seq<CartLine>, productId: string, size: string, quantity: int)
    ensures UniqueKeys(items) ==> UniqueKeys(SetQuantity(items, productId, size, quantity))
  {
    var r := SetQuantity(items, productId, size, quantity);
    if UniqueKeys(items) {
      forall a, b | 0 <= a < b < |r|
        ensures !HasKey(r[b], r[a].productId, r[a].size)
      {
        assert r[a].productId == items[a].productId && r[a].size == items[a].size;
        assert r[b].productId == items[b].productId && r[b].size == items[b].size;
      }
    }
  }

  /** `updateCartItemQuantity` on an absent key changes nothing. */
  lemma SetQuantityAbsent(items: seq<CartLine>, productId: string, size: string, quantity: int)
    requires !ContainsKey(items, productId, size)
    ensures SetQuantity(items, productId, size, quantity) == items
  {
  }

  /**
   * `removeFromCart` keeps exactly the lines without the key: no line with
   * the key is left and every other line stays.
   */
  lemma {:induction false} RemoveKeyDrops(items: seq<CartLine>, productId: string, size: string)
    ensures var r := RemoveKey(items, productId, size);
      && !ContainsKey(r, productId, size)
      && (forall l :: l in r <==> l in items && !HasKey(l, productId, size))
      && |r| <= |items|
  {
    if items != [] {
      RemoveKeyDrops(items[1..], productId, size);
      var rest := RemoveKey(items[1..], productId, size);
      var head := if HasKey(items[0], productId, size) then [] else [items[0]];
      assert RemoveKey(items, productId, size) == head + rest;
      assert items == [items[0]] + items[1..];
      forall k | 0 <= k < |head + rest|
        ensures !HasKey((head + rest)[k], productId, size)
      {
        if k >= |head| {
          assert (head + rest)[k] == rest[k - |head|];
        }
      }
    }
  }

  /** `removeFromCart` keeps the (productId, size) keys unique. */
  lemma {:induction false} RemoveKeyKeepsUniqueKeys(items: seq<CartLine>, productId: string, size: string)
    requires UniqueKeys(items)
    ensures UniqueKeys(RemoveKey(items, productId, size))
  {
    if items != [] {
      var tail := items[1..];
      assert UniqueKeys(tail) by {
        forall a, b | 0 <= a < b < |tail|
          ensures !HasKey(tail[b], tail[a].productId, tail[a].size)
        {
          assert tail[a] == items[a + 1] && tail[b] == items[b + 1];
        }
      }
      RemoveKeyKeepsUniqueKeys(tail, productId, size);
      RemoveKeyDrops(tail, productId, size);
      var rest := RemoveKey(tail, productId, size);
      var head := if HasKey(items[0], productId, size) then [] else [items[0]];
      var r := head + rest;
      assert RemoveKey(items, productId, size) == r;
      forall a, b | 0 <= a < b < |r|
        ensures !HasKey(r[b], r[a].productId, r[a].size)
      {
        if a < |head| {
          assert r[a] == items[0];
          assert r[b] == rest[b - 1];
          assert r[b] in tail;
          var k :| 0 <= k < |tail| && tail[k] == r[b];
          assert tail[k] == items[k + 1];
        } else {
          assert r[a] == rest[a - |head|] && r[b] == rest[b - |head|];
        }
      }
    }
  }

  /** `removeFromCart` keeps the order of the remaining lines: it distributes over concatenation. */
  lemma {:induction false} RemoveKeyAppend(a: seq<CartLine>, b: seq<CartLine>, productId: string, size: string)
    ensures RemoveKey(a + b, productId, size) == RemoveKey(a, productId, size) + RemoveKey(b, productId, size)
  {
    if a == [] {
      assert a + b == b;
    } else {
      assert (a + b)[0] == a[0];
      assert (a + b)[1..] == a[1..] + b;
      RemoveKeyAppend(a[1..], b, productId, size);
    }
  }

  /** Removing a key that is absent changes nothing. */
  lemma {:induction false} RemoveKeyAbsent(items: seq<CartLine>, productId: string, size: string)
    requires !ContainsKey(items, productId, size)
    ensures RemoveKey(items, productId, size) == items
  {
    if items != [] {
      assert !HasKey(items[0], productId, size);
      NoKeyInTail(items, productId, size);
      RemoveKeyAbsent(items[1..], productId, size);
      assert items == [items[0]] + items[1..];
    }
  }

  /** Removing the same key twice is the same as removing it once. */
  lemma RemoveKeyIdempotent(items: seq<CartLine>, productId: string, size: string)
    ensures RemoveKey(RemoveKey(items, productId, size), productId, size) == RemoveKey(items, productId, size)
  {
    RemoveKeyDrops(items, productId, size);
    RemoveKeyAbsent(RemoveKey(items, productId, size), productId, size);
  }
}

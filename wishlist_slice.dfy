/**
 * The wishlist slice: a server-synced list of products. Adding and
 * removing wait for the server's acknowledgement before the local list
 * changes, and a failure leaves the list as it was.
 */
module WishlistSlice {
  import opened Common
  import opened Entities

  const AddFailedMessage: string := "Erreur lors de l'ajout à la wishlist"

  predicate HasId(items: seq<Product>, id: string)
  {
    exists k :: 0 <= k < |items| && items[k].id == id
  }

  /** No two products in the list share an id. */
  predicate NoDuplicateIds(items: seq<Product>)
  {
    forall i, j :: 0 <= i < j < |items| ==> items[i].id != items[j].id
  }

  // ---------------------------------------------------------------------
  // The operations' request handling; the response itself is an input.

  /** The message `addToWishlist` rejects with: `details`, else `message`, else the default. */
  function AddFailureMessage(f: Failure): (m: string)
    ensures m != ""
    ensures DataDetails(f) != "" ==> m == DataDetails(f)
    ensures DataDetails(f) == "" && DataMessage(f) != "" ==> m == DataMessage(f)
    ensures m == AddFailedMessage <== DataDetails(f) == "" && DataMessage(f) == ""
  {
    Or(DataDetails(f), Or(DataMessage(f), AddFailedMessage))
  }

  /**
   * `addToWishlist(product)`: posts the product's id. It resolves with the
   * product it was given, whatever the server's body.
   */
  function AddToWishlist(product: Product, response: Outcome<()>): (r: Result<Product, ErrorPayload>)
    ensures r.Ok? <==> response.Success?
    ensures r.Ok? ==> r.value == product
    ensures r.Err? ==> r.error == Text(AddFailureMessage(response.failure))
  {
    match response
    case Success(_) => Ok(product)
    case Failed(f) => Err(Text(AddFailureMessage(f)))
  }

  /**
   * `rejectWithValue(error.response.data)`: the error body, or `undefined`
   * when the server sent none or there was no response at all (the read of
   * `error.response.data` then throws, and the rejection carries no payload).
   */
  function RawErrorData(f: Failure): (p: ErrorPayload)
    ensures p.Body? <==> ResponseData(f).Some?
    ensures p.Body? ==> p.data == ResponseData(f).value
    ensures ResponseData(f).None? ==> p == Undefined
  {
    match ResponseData(f)
    case Some(b) => Body(b)
    case None => Undefined
  }

  /** `removeFromWishlist(productId)`: resolves with the id it was given. */
  function RemoveFromWishlist(productId: string, response: Outcome<()>): (r: Result<string, ErrorPayload>)
    ensures r.Ok? <==> response.Success?
    ensures r.Ok? ==> r.value == productId
    ensures r.Err? ==> r.error == RawErrorData(response.failure)
  {
    match response
    case Success(_) => Ok(productId)
    case Failed(f) => Err(RawErrorData(f))
  }

  /** `fetchWishlist()`: resolves with the server's list. */
  function FetchWishlist(response: Outcome<seq<Product>>): (r: Result<seq<Product>, ErrorPayload>)
    ensures r.Ok? <==> response.Success?
    ensures r.Ok? ==> r.value == response.body
    ensures r.Err? ==> r.error == RawErrorData(response.failure)
  {
    match response
    case Success(body) => Ok(body)
    case Failed(f) => Err(RawErrorData(f))
  }

  // ---------------------------------------------------------------------
  // What the fulfilled cases do to `items`.

  /** `addToWishlist.fulfilled`: append the product unless its id is already listed. */
  function AddIfAbsent(items: seq<Product>, product: Product): seq<Product>
  {
    if HasId(items, product.id) then items else items + [product]
  }

  /** `removeFromWishlist.fulfilled`: keep the products whose id differs, in order. */
  function WithoutId(items: seq<Product>, id: string): seq<Product>
  {
    if items == [] then []
    else (if items[0].id == id then [] else [items[0]]) + WithoutId(items[1..], id)
  }

  class WishlistState {
    var items: seq<Product>
    var loading: bool
    var error: Option<ErrorPayload>

    constructor ()
      ensures items == [] && !loading && error == None
    {
      items := [];
      loading := false;
      error := None;
    }

    /** The `pending` case of all three operations. */
    method Pending()
      modifies this
      ensures loading && error == None
      ensures items == old(items)
    {
      loading := true;
      error := None;
    }

    /** The `rejected` case of all three operations: no change to the list. */
    method Rejected(payload: ErrorPayload)
      modifies this
      ensures !loading && error == Some(payload)
      ensures items == old(items)
    {
      loading := false;
      error := Some(payload);
    }

    /** `addToWishlist.fulfilled` */
    method AddFulfilled(product: Product)
      modifies this
      ensures items == AddIfAbsent(old(items), product)
      ensures NoDuplicateIds(old(items)) ==> NoDuplicateIds(items)
      ensures !loading && error == old(error)
    {
      loading := false;
      if !HasId(items, product.id) {
        items := items + [product];
      }
      if NoDuplicateIds(old(items)) {
        AddKeepsNoDuplicates(old(items), product);
      }
    }

    /** `removeFromWishlist.fulfilled` */
    method RemoveFulfilled(productId: string)
      modifies this
      ensures items == WithoutId(old(items), productId)
      ensures !loading && error == old(error)
    {
      loading := false;
      items := WithoutId(items, productId);
    }

    /** `fetchWishlist.fulfilled`: the list is replaced wholesale. */
    method FetchFulfilled(list: seq<Product>)
      modifies this
      ensures items == list
      ensures !loading && error == old(error)
    {
      loading := false;
      items := list;
    }

    /** Dispatching `addToWishlist(product)` when the server answers `response`. */
    method DispatchAddToWishlist(product: Product, response: Outcome<()>)
      modifies this
      ensures response.Success? ==> items == AddIfAbsent(old(items), product) && error == None
      ensures response.Failed? ==> items == old(items) && error == Some(Text(AddFailureMessage(response.failure)))
      ensures !loading
    {
      Pending();
      match AddToWishlist(product, response)
      case Ok(p) => AddFulfilled(p);
      case Err(e) => Rejected(e);
    }

    /** Dispatching `removeFromWishlist(productId)` when the server answers `response`. */
    method DispatchRemoveFromWishlist(productId: string, response: Outcome<()>)
      modifies this
      ensures response.Success? ==> items == WithoutId(old(items), productId) && error == None
      ensures response.Failed? ==> items == old(items) && error == Some(RawErrorData(response.failure))
      ensures !loading
    {
      Pending();
      match RemoveFromWishlist(productId, response)
      case Ok(id) => RemoveFulfilled(id);
      case Err(e) => Rejected(e);
    }

    /** Dispatching `fetchWishlist()` when the server answers `response`. */
    method DispatchFetchWishlist(response: Outcome<seq<Product>>)
      modifies this
      ensures response.Success? ==> items == response.body && error == None
      ensures response.Failed? ==> items == old(items) && error == Some(RawErrorData(response.failure))
      ensures !loading
    {
      Pending();
      match FetchWishlist(response)
      case Ok(list) => FetchFulfilled(list);
      case Err(e) => Rejected(e);
    }
  }

  // ---------------------------------------------------------------------
  // Properties of the fulfilled cases.

  /**
   * The added product is listed afterwards; the list grows by one exactly
   * when its id was absent, and the earlier products stay in place.
   */
  lemma AddIfAbsentContents(items: seq<Product>, product: Product)
    ensures var r := AddIfAbsent(items, product);
      && HasId(r, product.id)
      && |r| == (if HasId(items, product.id) then |items| else |items| + 1)
      && r[..|items|] == items
  {
    if !HasId(items, product.id) {
      assert (items + [product])[|items|].id == product.id;
    }
  }

  /** A duplicate-free list stays duplicate-free after an add. */
  lemma AddKeepsNoDuplicates(items: seq<Product>, product: Product)
    requires NoDuplicateIds(items)
    ensures NoDuplicateIds(AddIfAbsent(items, product))
  {
    if !HasId(items, product.id) {
      var r := items + [product];
      forall i, j | 0 <= i < j < |r|
        ensures r[i].id != r[j].id
      {
        if j == |items| {
          assert r[i] == items[i];
        }
      }
    }
  }

  /** After removal no product with the id is left, and every other product stays. */
  lemma {:induction false} WithoutIdDrops(items: seq<Product>, id: string)
    ensures var r := WithoutId(items, id);
      && !HasId(r, id)
      && (forall p :: p in r <==> p in items && p.id != id)
  {
    if items != [] {
      WithoutIdDrops(items[1..], id);
      var head: seq<Product> := if items[0].id == id then [] else [items[0]];
      var rest := WithoutId(items[1..], id);
      assert items == [items[0]] + items[1..];
      forall k | 0 <= k < |head + rest|
        ensures (head + rest)[k].id != id
      {
        if k >= |head| {
          assert (head + rest)[k] == rest[k - |head|];
        }
      }
    }
  }

  /** Removal keeps the order of the remaining products: it distributes over concatenation. */
  lemma {:induction false} WithoutIdAppend(a: seq<Product>, b: seq<Product>, id: string)
    ensures WithoutId(a + b, id) == WithoutId(a, id) + WithoutId(b, id)
  {
    if a == [] {
      assert a + b == b;
    } else {
      assert (a + b)[0] == a[0];
      assert (a + b)[1..] == a[1..] + b;
      WithoutIdAppend(a[1..], b, id);
    }
  }

  /** Removing an id that is not listed changes nothing. */
  lemma {:induction false} WithoutAbsentId(items: seq<Product>, id: string)
    requires !HasId(items, id)
    ensures WithoutId(items, id) == items
  {
    if items != [] {
      assert items[0].id != id;
      assert !HasId(items[1..], id) by {
        forall k | 0 <= k < |items| - 1
          ensures items[1..][k].id != id
        {
          assert items[1..][k] == items[k + 1];
        }
      }
      WithoutAbsentId(items[1..], id);
      assert items == [items[0]] + items[1..];
    }
  }
}

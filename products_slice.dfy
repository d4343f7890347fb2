/**
 * The products slice: a cache of one catalogue page (fully replaced by
 * each successful fetch), a single-product slot, a category view and the
 * add-product submission.
 */
module ProductsSlice {
  import opened Common
  import opened Entities

  const NoDataMessage: string := "Aucune donnée reçue"
  const BadFormatMessage: string := "Format de réponse incorrect"
  const NotArrayMessage: string := "Format des produits incorrect"
  const MissingFieldsMessage: string := "Certains produits ont des champs manquants"
  const FetchFailedMessage: string := "Erreur lors de la récupération des produits"
  const NoResponseMessage: string := "Aucune réponse du serveur"
  const AddFailedMessage: string := "Erreur lors de l'ajout du produit"
  const FetchOneFailedMessage: string := "Erreur lors de la récupération du produit"

  // ---------------------------------------------------------------------
  // fetchProducts

  /** The `products` field of a catalogue response: falsy, truthy but not an array, or an array. */
  datatype ProductsField = Absent | NotAnArray | Items(products: seq<Product>)

  /** A catalogue response body; 0 stands for a missing `totalPages` or `currentPage`. */
  datatype ListBody = ListBody(products: ProductsField, totalPages: int, currentPage: int)

  /** What a successful fetch resolves with. */
  datatype ProductPage = ProductPage(products: seq<Product>, totalPages: int, currentPage: int)

  /** A product with a falsy `name`, `price` (so 0 too) or `category`. */
  predicate Malformed(p: Product)
  {
    p.name == "" || p.price == 0 || p.category == ""
  }

  /** `products.filter(product => !product.name || !product.price || !product.category)` */
  function MalformedProducts(products: seq<Product>): seq<Product>
  {
    if products == [] then []
    else (if Malformed(products[0]) then [products[0]] else []) + MalformedProducts(products[1..])
  }

  /** `x || fallback` on numbers, 0 being falsy. */
  function OrNumber(x: int, fallback: int): int
  {
    if x != 0 then x else fallback
  }

  /**
   * The three failure kinds of a fetch map to three reports: a server
   * response gives `{message, status}`, a request without response gives
   * a fixed string, anything else gives the request error's own message.
   * A server response without a body makes the read of its `message`
   * throw, and the rejection then carries no payload.
   */
  function ClassifyFailure(f: Failure): (e: ErrorPayload)
    ensures f.ServerError? && f.data.Some? ==>
      e == Detailed(Or(f.data.value.message, FetchFailedMessage), Some(f.status), None)
    ensures f.ServerError? && f.data.None? ==> e == Undefined
    ensures f.NoResponse? ==> e == Text(NoResponseMessage)
    ensures f.ConfigError? ==> e == Text(f.message)
  {
    match f
    case ServerError(status, data, _) =>
      (match data
       case Some(b) => Detailed(Or(b.message, FetchFailedMessage), Some(status), None)
       case None => Undefined)
    case NoResponse(_) => Text(NoResponseMessage)
    case ConfigError(message) => Text(message)
  }

  /**
   * `fetchProducts({page})`: validates the response before accepting it.
   * `page` defaults to 1 when not given.
   */
  function FetchProducts(page: Option<int>, response: Outcome<Option<ListBody>>): (r: Result<ProductPage, ErrorPayload>)
    ensures response.Failed? ==> r == Err(ClassifyFailure(response.failure))
    ensures response == Success(None) ==> r == Err(Text(NoDataMessage))
    ensures response.Success? && response.body.Some? ==>
      var body := response.body.value;
      && (body.products.Absent? ==> r == Err(Text(BadFormatMessage)))
      && (body.products.NotAnArray? ==> r == Err(Text(NotArrayMessage)))
  {
    match response
    case Failed(f) => Err(ClassifyFailure(f))
    case Success(None) => Err(Text(NoDataMessage))
    case Success(Some(body)) =>
      match body.products
      case Absent => Err(Text(BadFormatMessage))
      case NotAnArray => Err(Text(NotArrayMessage))
      case Items(ps) =>
        if |MalformedProducts(ps)| > 0 then Err(Text(MissingFieldsMessage))
        else Ok(ProductPage(ps, OrNumber(body.totalPages, 1), OrNumber(body.currentPage, if page.Some? then page.value else 1)))
  }

  /** The filter finds something exactly when some product is malformed. */
  lemma {:induction false} MalformedProductsFound(products: seq<Product>)
    ensures |MalformedProducts(products)| > 0 <==> exists k :: 0 <= k < |products| && Malformed(products[k])
    ensures forall p :: p in MalformedProducts(products) ==> p in products && Malformed(p)
  {
    if products != [] {
      MalformedProductsFound(products[1..]);
      assert forall k :: 1 <= k < |products| ==> products[k] == products[1..][k - 1];
      if exists k :: 0 <= k < |products| && Malformed(products[k]) {
        var k :| 0 <= k < |products| && Malformed(products[k]);
        if k > 0 {
          assert Malformed(products[1..][k - 1]);
        }
      }
    }
  }

  /**
   * A single malformed product rejects the whole batch; a fetch succeeds
   * exactly when every product is well-formed, and then it yields all of
   * them, a non-zero page count and the page the server names, else the
   * page asked for.
   */
  lemma FetchProductsValidation(page: Option<int>, body: ListBody, ps: seq<Product>)
    requires body.products == Items(ps)
    ensures var r := FetchProducts(page, Success(Some(body)));
      && ((exists k :: 0 <= k < |ps| && Malformed(ps[k])) ==> r == Err(Text(MissingFieldsMessage)))
      && (r.Ok? <==> forall k :: 0 <= k < |ps| ==> !Malformed(ps[k]))
      && (r.Ok? ==>
            && r.value.products == ps
            && r.value.totalPages != 0
            && (body.totalPages != 0 ==> r.value.totalPages == body.totalPages)
            && r.value.currentPage == (if body.currentPage != 0 then body.currentPage
                                       else if page.Some? then page.value else 1))
  {
    MalformedProductsFound(ps);
  }

  // ---------------------------------------------------------------------
  // addProduct: the multipart form

  /** A value of the product record handed to `addProduct`. */
  datatype FormValue = Plain(text: string) | Files(files: seq<string>) | Sizes(sizes: seq<SizeStock>)

  /** What one `formData.append` receives: the value as given, an image file, or a JSON string of the value. */
  datatype EntryValue = Value(v: FormValue) | File(file: string) | Json(json: FormValue)

  datatype FormEntry = FormEntry(key: string, value: EntryValue)

  /** One entry per image, in order, under the key 'images'. */
  function ImageEntries(files: seq<string>): (es: seq<FormEntry>)
    ensures |es| == |files|
    ensures forall k :: 0 <= k < |files| ==> es[k] == FormEntry("images", File(files[k]))
  {
    seq(|files|, k requires 0 <= k < |files| => FormEntry("images", File(files[k])))
  }

  /**
   * The entries one key of the record contributes; None when the key is
   * 'images' and its value has no `forEach` (the submission then throws).
   */
  function FieldEntries(field: (string, FormValue)): Option<seq<FormEntry>>
  {
    var (key, value) := field;
    if key == "images" then
      (if value.Files? then Some(ImageEntries(value.files)) else None)
    else if key == "sizes" then Some([FormEntry(key, Json(value))])
    else Some([FormEntry(key, Value(value))])
  }

  /** The form built from the record's keys, in order. */
  function FormDataOf(fields: seq<(string, FormValue)>): Option<seq<FormEntry>>
  {
    if fields == [] then Some([])
    else
      match FormDataOf(fields[..|fields| - 1])
      case None => None
      case Some(prefix) =>
        match FieldEntries(fields[|fields| - 1])
        case None => None
        case Some(es) => Some(prefix + es)
  }

  /** Once a prefix of the record fails to serialise, the whole record does. */
  lemma {:induction false} FormDataFailurePersists(fields: seq<(string, FormValue)>, i: nat)
    requires i <= |fields|
    requires FormDataOf(fields[..i]).None?
    ensures FormDataOf(fields).None?
    decreases |fields| - i
  {
    if i < |fields| {
      assert fields[..i + 1][..i] == fields[..i];
      FormDataFailurePersists(fields, i + 1);
    } else {
      assert fields[..i] == fields;
    }
  }

  /** `Object.keys(productData).forEach(...)` with `formData.append`. */
  method BuildFormData(fields: seq<(string, FormValue)>) returns (form: Option<seq<FormEntry>>)
    ensures form == FormDataOf(fields)
  {
    var entries: seq<FormEntry> := [];
    var i := 0;
    while i < |fields|
      invariant 0 <= i <= |fields|
      invariant FormDataOf(fields[..i]) == Some(entries)
    {
      var (key, value) := fields[i];
      assert fields[..i + 1][..i] == fields[..i];
      if key == "images" {
        if !value.Files? {
          FormDataFailurePersists(fields, i + 1);
          return None;
        }
        var j := 0;
        ghost var before := entries;
        while j < |value.files|
          invariant 0 <= j <= |value.files|
          invariant entries == before + ImageEntries(value.files[..j])
        {
          assert ImageEntries(value.files[..j + 1]) == ImageEntries(value.files[..j]) + [FormEntry("images", File(value.files[j]))];
          entries := entries + [FormEntry("images", File(value.files[j]))];
          j := j + 1;
        }
        assert value.files[..j] == value.files;
      } else if key == "sizes" {
        entries := entries + [FormEntry(key, Json(value))];
      } else {
        entries := entries + [FormEntry(key, Value(value))];
      }
      i := i + 1;
    }
    assert fields[..i] == fields;
    form := Some(entries);
  }

  /**
   * The form holds each image under 'images', the sizes as one JSON entry,
   * and every other key with its value unchanged; every key of the record
   * is represented, and nothing else is.
   */
  lemma {:induction false} FormDataShape(fields: seq<(string, FormValue)>)
    requires FormDataOf(fields).Some?
    ensures var es := FormDataOf(fields).value;
      && (forall e :: e in es && e.key == "images" ==> e.value.File?)
      && (forall e :: e in es && e.key == "sizes" ==> e.value.Json?)
      && (forall e :: e in es && e.key != "images" && e.key != "sizes" ==>
            e.value.Value? && (e.key, e.value.v) in fields)
      && (forall k :: 0 <= k < |fields| && fields[k].0 != "images" && fields[k].0 != "sizes" ==>
            FormEntry(fields[k].0, Value(fields[k].1)) in es)
      && (forall k :: 0 <= k < |fields| && fields[k].0 == "sizes" ==>
            FormEntry("sizes", Json(fields[k].1)) in es)
      && (forall k, f :: 0 <= k < |fields| && fields[k].0 == "images" && fields[k].1.Files? && f in fields[k].1.files ==>
            FormEntry("images", File(f)) in es)
  {
    if fields != [] {
      var init := fields[..|fields| - 1];
      var last := fields[|fields| - 1];
      FormDataShape(init);
      var prefix := FormDataOf(init).value;
      var tail := FieldEntries(last).value;
      assert FormDataOf(fields).value == prefix + tail;
      assert forall k :: 0 <= k < |init| ==> init[k] == fields[k];
      assert forall x :: x in init ==> x in fields;
      if last.0 == "images" {
        forall f | f in last.1.files
          ensures FormEntry("images", File(f)) in tail
        {
          var k :| 0 <= k < |last.1.files| && last.1.files[k] == f;
          assert tail[k] == FormEntry("images", File(f));
        }
      }
    }
  }

  /** The form is built, and the request sent, exactly when every 'images' value is a list of files. */
  lemma {:induction false} FormDataSucceeds(fields: seq<(string, FormValue)>)
    ensures FormDataOf(fields).Some? <==> forall k :: 0 <= k < |fields| && fields[k].0 == "images" ==> fields[k].1.Files?
  {
    if fields != [] {
      var init := fields[..|fields| - 1];
      FormDataSucceeds(init);
      assert forall k :: 0 <= k < |init| ==> init[k] == fields[k];
    }
  }

  /** `addProduct(record)`: builds the form, posts it, resolves with the created product. */
  function AddProduct(fields: seq<(string, FormValue)>, response: Outcome<Product>): (s: Settled<Product>)
    ensures s.requested <==> FormDataOf(fields).Some?
    ensures s.result.Ok? <==> s.requested && response.Success?
    ensures s.result.Ok? ==> s.result.value == response.body
    ensures s.result.Err? && s.requested ==>
      s.result.error == (match ResponseData(response.failure)
                         case Some(b) => Body(b)
                         case None => Text(AddFailedMessage))
    ensures !s.requested ==> s.result == Err(Text(AddFailedMessage))
  {
    if FormDataOf(fields).None? then Settled(Err(Text(AddFailedMessage)), false)
    else match response
      case Success(p) => Settled(Ok(p), true)
      case Failed(f) =>
        Settled(Err(match ResponseData(f)
                    case Some(b) => Body(b)
                    case None => Text(AddFailedMessage)), true)
  }

  // ---------------------------------------------------------------------
  // fetchProductById, fetchProductsByCategory

  /** `fetchProductById(id)` */
  function FetchProductById(response: Outcome<Product>): (r: Result<Product, ErrorPayload>)
    ensures r.Ok? <==> response.Success?
    ensures r.Ok? ==> r.value == response.body
    ensures r.Err? ==> r.error == Text(Or(DataMessage(response.failure), FetchOneFailedMessage))
  {
    match response
    case Success(p) => Ok(p)
    case Failed(f) => Err(Text(Or(DataMessage(f), FetchOneFailedMessage)))
  }

  /**
   * `fetchProductsByCategory(category)`: resolves with `response.data.products`
   * as it is, so a body whose `products` is missing or not an array resolves
   * with that value; a response without `data` makes the read throw, which
   * is reported with the default message.
   */
  function FetchProductsByCategory(response: Outcome<Option<ProductsField>>): (r: Result<ProductsField, ErrorPayload>)
    ensures r.Ok? <==> response.Success? && response.body.Some?
    ensures r.Ok? ==> r.value == response.body.value
    ensures response == Success(None) ==> r == Err(Text(FetchFailedMessage))
    ensures response.Failed? ==> r == Err(Text(Or(DataMessage(response.failure), FetchFailedMessage)))
  {
    match response
    case Success(Some(field)) => Ok(field)
    case Success(None) => Err(Text(FetchFailedMessage))
    case Failed(f) => Err(Text(Or(DataMessage(f), FetchFailedMessage)))
  }

  /** A body holding a list of products resolves with exactly that list, unvalidated. */
  lemma CategoryListResolved(ps: seq<Product>)
    ensures FetchProductsByCategory(Success(Some(Items(ps)))) == Ok(Items(ps))
    ensures FetchProductsByCategory(Success(Some(Absent))).Ok?
  {
  }

  // ---------------------------------------------------------------------
  // The state record

  class ProductsState {
    var items: seq<Product>
    var totalPages: int
    var currentPage: int
    var loading: bool
    var error: Option<ErrorPayload>
    var productToAdd: Option<Product>
    var selectedCategory: Option<string>
    var currentProduct: Option<Product>

    constructor ()
      ensures items == [] && totalPages == 0 && currentPage == 1
      ensures !loading && error == None
      ensures productToAdd == None && selectedCategory == None && currentProduct == None
    {
      items := [];
      totalPages := 0;
      currentPage := 1;
      loading := false;
      error := None;
      productToAdd := None;
      selectedCategory := None;
      currentProduct := None;
    }

    /** `setSelectedCategory`: only the selected category changes. */
    method SetSelectedCategory(category: Option<string>)
      modifies this
      ensures selectedCategory == category
      ensures items == old(items) && totalPages == old(totalPages) && currentPage == old(currentPage)
      ensures loading == old(loading) && error == old(error)
      ensures productToAdd == old(productToAdd) && currentProduct == old(currentProduct)
    {
      selectedCategory := category;
    }

    /** The `pending` case of all four operations: the cached page stays on display. */
    method Pending()
      modifies this
      ensures loading && error == None
      ensures items == old(items) && totalPages == old(totalPages) && currentPage == old(currentPage)
      ensures productToAdd == old(productToAdd) && selectedCategory == old(selectedCategory)
      ensures currentProduct == old(currentProduct)
    {
      loading := true;
      error := None;
    }

    /** The `rejected` case of all four operations: nothing but `loading` and `error` changes. */
    method Rejected(payload: ErrorPayload)
      modifies this
      ensures !loading && error == Some(payload)
      ensures items == old(items) && totalPages == old(totalPages) && currentPage == old(currentPage)
      ensures productToAdd == old(productToAdd) && selectedCategory == old(selectedCategory)
      ensures currentProduct == old(currentProduct)
    {
      loading := false;
      error := Some(payload);
    }

    /** `fetchProducts.fulfilled`: the page replaces the cache wholesale. */
    method FetchProductsFulfilled(page: ProductPage)
      modifies this
      ensures !loading && items == page.products
      ensures totalPages == page.totalPages && currentPage == page.currentPage
      ensures error == old(error) && productToAdd == old(productToAdd)
      ensures selectedCategory == old(selectedCategory) && currentProduct == old(currentProduct)
    {
      loading := false;
      items := page.products;
      totalPages := page.totalPages;
      currentPage := page.currentPage;
    }

    /** `addProduct.fulfilled`: the created product is appended to the cache. */
    method AddProductFulfilled(product: Product)
      modifies this
      ensures !loading && items == old(items) + [product] && |items| == |old(items)| + 1
      ensures productToAdd == None
      ensures totalPages == old(totalPages) && currentPage == old(currentPage) && error == old(error)
      ensures selectedCategory == old(selectedCategory) && currentProduct == old(currentProduct)
    {
      loading := false;
      items := items + [product];
      productToAdd := None;
    }

    /** `fetchProductById.fulfilled`: only the current-product slot is replaced. */
    method FetchProductByIdFulfilled(product: Product)
      modifies this
      ensures !loading && currentProduct == Some(product)
      ensures items == old(items) && totalPages == old(totalPages) && currentPage == old(currentPage)
      ensures error == old(error) && productToAdd == old(productToAdd)
      ensures selectedCategory == old(selectedCategory)
    {
      loading := false;
      currentProduct := Some(product);
    }

    /**
     * `fetchProductsByCategory.fulfilled`: replaces the items, not the
     * pagination; a payload that is not a list leaves no items.
     */
    method FetchByCategoryFulfilled(payload: ProductsField)
      modifies this
      ensures !loading && items == (if payload.Items? then payload.products else [])
      ensures totalPages == old(totalPages) && currentPage == old(currentPage)
      ensures error == old(error) && productToAdd == old(productToAdd)
      ensures selectedCategory == old(selectedCategory) && currentProduct == old(currentProduct)
    {
      loading := false;
      items := if payload.Items? then payload.products else [];
    }

    /** Dispatching `fetchProducts({page})` when the server answers `response`. */
    method DispatchFetchProducts(page: Option<int>, response: Outcome<Option<ListBody>>)
      modifies this
      ensures var r := FetchProducts(page, response);
        && (r.Ok? ==> items == r.value.products && totalPages == r.value.totalPages
                      && currentPage == r.value.currentPage && error == None)
        && (r.Err? ==> items == old(items) && totalPages == old(totalPages)
                       && currentPage == old(currentPage) && error == Some(r.error))
      ensures !loading && currentProduct == old(currentProduct)
      ensures productToAdd == old(productToAdd) && selectedCategory == old(selectedCategory)
    {
      Pending();
      match FetchProducts(page, response)
      case Ok(p) => FetchProductsFulfilled(p);
      case Err(e) => Rejected(e);
    }

    /** Dispatching `addProduct(record)` when the server would answer `response`. */
    method DispatchAddProduct(fields: seq<(string, FormValue)>, response: Outcome<Product>)
      modifies this
      ensures var s := AddProduct(fields, response);
        && (s.result.Ok? ==> items == old(items) + [s.result.value] && error == None && productToAdd == None)
        && (s.result.Err? ==> items == old(items) && error == Some(s.result.error)
                              && productToAdd == old(productToAdd))
      ensures !loading && totalPages == old(totalPages) && currentPage == old(currentPage)
      ensures selectedCategory == old(selectedCategory) && currentProduct == old(currentProduct)
    {
      Pending();
      match AddProduct(fields, response).result
      case Ok(p) => AddProductFulfilled(p);
      case Err(e) => Rejected(e);
    }

    /** Dispatching `fetchProductById(id)` when the server answers `response`. */
    method DispatchFetchProductById(response: Outcome<Product>)
      modifies this
      ensures response.Success? ==> currentProduct == Some(response.body) && error == None
      ensures response.Failed? ==> currentProduct == old(currentProduct)
                                   && error == Some(FetchProductById(response).error)
      ensures !loading && items == old(items)
      ensures totalPages == old(totalPages) && currentPage == old(currentPage)
      ensures productToAdd == old(productToAdd) && selectedCategory == old(selectedCategory)
    {
      Pending();
      match FetchProductById(response)
      case Ok(p) => FetchProductByIdFulfilled(p);
      case Err(e) => Rejected(e);
    }

    /** Dispatching `fetchProductsByCategory(category)` when the server answers `response`. */
    method DispatchFetchProductsByCategory(response: Outcome<Option<ProductsField>>)
      modifies this
      ensures var r := FetchProductsByCategory(response);
        && (r.Ok? ==> items == (if r.value.Items? then r.value.products else []) && error == None)
        && (r.Err? ==> items == old(items) && error == Some(r.error))
      ensures !loading && totalPages == old(totalPages) && currentPage == old(currentPage)
      ensures productToAdd == old(productToAdd) && selectedCategory == old(selectedCategory)
      ensures currentProduct == old(currentProduct)
    {
      Pending();
      match FetchProductsByCategory(response)
      case Ok(field) => FetchByCategoryFulfilled(field);
      case Err(e) => Rejected(e);
    }
  }
}

/**
 * The add-product page: a form with an editable list of sizes, checked
 * and then handed to the products slice's `addProduct`.
 */
module AddProductPage {
  import opened Common
  import opened Entities
  import opened ProductsSlice

  const RequiredMessage: string := "Veuillez remplir tous les champs obligatoires"

  /** The form; `price` is the text of its input. */
  datatype ProductForm = ProductForm(
    name: string,
    description: string,
    price: string,
    category: string,
    brand: string,
    sizes: seq<SizeStock>,
    images: seq<string>)

  /** The two inputs of the size editor. */
  datatype SizeInput = SizeInput(size: string, stock: string)

  /** The empty form the page starts from and returns to after a successful add. */
  const EmptyForm: ProductForm := ProductForm("", "", "", "", "", [], [])

  const EmptySizeInput: SizeInput := SizeInput("", "")

  /**
   * `addSize`: with both inputs filled, appends one size and clears the
   * inputs; otherwise nothing changes. The number conversions of the two
   * inputs (`parseFloat`, `parseInt`) are parameters.
   */
  function AddSize(form: ProductForm, input: SizeInput, toSize: string -> string, toStock: string -> int): (r: (ProductForm, SizeInput))
    ensures input.size != "" && input.stock != "" ==>
      && r.0 == form.(sizes := form.sizes + [SizeStock(toSize(input.size), toStock(input.stock))])
      && r.1 == EmptySizeInput
    ensures !(input.size != "" && input.stock != "") ==> r == (form, input)
    ensures |r.0.sizes| <= |form.sizes| + 1 && r.0.sizes[..|form.sizes|] == form.sizes
  {
    if input.size != "" && input.stock != "" then
      (form.(sizes := form.sizes + [SizeStock(toSize(input.size), toStock(input.stock))]), EmptySizeInput)
    else (form, input)
  }

  /** `sizes.filter((_, index) => index !== i)` */
  function WithoutIndex<T>(s: seq<T>, i: int): seq<T>
    decreases |s|
  {
    if s == [] then []
    else (if i == 0 then [] else [s[0]]) + WithoutIndex(s[1..], i - 1)
  }

  /**
   * Removing index `i` drops exactly that element and keeps the others in
   * order; an index outside the list changes nothing.
   */
  lemma {:induction false} WithoutIndexSpec<T>(s: seq<T>, i: int)
    ensures 0 <= i < |s| ==> WithoutIndex(s, i) == s[..i] + s[i + 1..]
    ensures !(0 <= i < |s|) ==> WithoutIndex(s, i) == s
    decreases |s|
  {
    if s != [] {
      WithoutIndexSpec(s[1..], i - 1);
      if i == 0 {
        assert s[..0] + s[1..] == s[1..];
      } else if 0 < i < |s| {
        assert s[1..][..i - 1] + s[1..][i..] == s[1..i] + s[i + 1..];
        assert [s[0]] + s[1..i] == s[..i];
      } else {
        assert s == [s[0]] + s[1..];
      }
    }
  }

  /** `removeSize(i)` */
  function RemoveSize(form: ProductForm, i: int): (f: ProductForm)
    ensures 0 <= i < |form.sizes| ==> f.sizes == form.sizes[..i] + form.sizes[i + 1..] && |f.sizes| == |form.sizes| - 1
    ensures !(0 <= i < |form.sizes|) ==> f == form
    ensures f.name == form.name && f.images == form.images && f.price == form.price
  {
    WithoutIndexSpec(form.sizes, i);
    form.(sizes := WithoutIndex(form.sizes, i))
  }

  /** The record handed to `addProduct`, in the form's key order. */
  function Record(form: ProductForm): seq<(string, FormValue)>
  {
    [("name", Plain(form.name)), ("description", Plain(form.description)), ("price", Plain(form.price)),
     ("category", Plain(form.category)), ("brand", Plain(form.brand)),
     ("sizes", Sizes(form.sizes)), ("images", Files(form.images))]
  }

  /** How a submission ends. */
  datatype SubmitOutcome =
    | Incomplete               // an error toast; nothing dispatched
    | Saved                    // the product was created
    | Rejected(error: ErrorPayload)

  /**
   * `handleSubmit`, with the server's answer as an input: the form after
   * the submission, and how it ended.
   */
  function Submit(form: ProductForm, response: Outcome<Product>): (r: (SubmitOutcome, ProductForm))
    ensures form.name == "" || form.description == "" || form.price == "" <==> r.0 == Incomplete
    ensures r.0 == Saved <==> r.0 != Incomplete && response.Success?
    ensures r.0 == Saved ==> r.1 == EmptyForm
    ensures r.0 != Saved ==> r.1 == form
  {
    if form.name == "" || form.description == "" || form.price == "" then (Incomplete, form)
    else
      FormDataSucceeds(Record(form));
      match AddProduct(Record(form), response).result
      case Ok(_) => (Saved, EmptyForm)
      case Err(e) => (Rejected(e), form)
  }

  /**
   * A complete form reaches the server, and what is posted holds each
   * image as its own 'images' entry and the sizes as one JSON entry.
   */
  lemma CompleteFormIsPosted(form: ProductForm, response: Outcome<Product>)
    requires form.name != "" && form.description != "" && form.price != ""
    ensures AddProduct(Record(form), response).requested
    ensures var es := FormDataOf(Record(form)).value;
      && FormEntry("sizes", Json(Sizes(form.sizes))) in es
      && FormEntry("name", Value(Plain(form.name))) in es
      && (forall f :: f in form.images ==> FormEntry("images", File(f)) in es)
  {
    var fields := Record(form);
    FormDataSucceeds(fields);
    FormDataShape(fields);
    assert fields[0] == ("name", Plain(form.name));
    assert fields[5] == ("sizes", Sizes(form.sizes));
    assert fields[6] == ("images", Files(form.images));
  }
}

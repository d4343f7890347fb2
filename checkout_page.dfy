/**
 * The checkout page: the shipping form, its validation, the phone-number
 * prefixing, and the projection of the cart into the order it submits.
 * The per-country phone patterns and the e-mail pattern are regular
 * expressions; the model takes them as predicates.
 */
module CheckoutPage {
  import opened Common
  import opened Entities
  import opened CartSlice
  import opened CartPage
  import opened OrdersSlice

  const RequiredMessage: string := "Veuillez remplir tous les champs obligatoires"
  const EmailMessage: string := "Veuillez entrer une adresse email valide"
  const UnknownCountryPrefix: string := "Pays non reconnu: "
  const BadPhonePrefix: string := "Numéro de téléphone invalide pour "
  const OrderFailedMessage: string := "Une erreur est survenue lors de la création de la commande"
  const DefaultPhoneCode: string := "+33"

  datatype Country = Country(name: string, code: string)

  /** The countries the form offers, with their dialling codes. */
  const Countries: seq<Country> := [
    Country("France", "+33"),
    Country("Sénégal", "+221"),
    Country("Belgique", "+32"),
    Country("Suisse", "+41"),
    Country("Canada", "+1"),
    Country("États-Unis", "+1"),
    Country("Maroc", "+212"),
    Country("Côte d'Ivoire", "+225"),
    Country("Guinée", "+224"),
    Country("Mali", "+223"),
    Country("Burkina Faso", "+226"),
    Country("Togo", "+228"),
    Country("Bénin", "+229"),
    Country("Cameroun", "+237"),
    Country("Gabon", "+241"),
    Country("Congo", "+242"),
    Country("Allemagne", "+49"),
    Country("Royaume-Uni", "+44"),
    Country("Espagne", "+34"),
    Country("Italie", "+39"),
    Country("Pays-Bas", "+31")
  ]

  /** `find` by name: the first country of `list` with that name. */
  function FindCountryIn(list: seq<Country>, name: string): (c: Option<Country>)
    ensures c.Some? ==> c.value in list && c.value.name == name
    ensures c.None? <==> forall k :: 0 <= k < |list| ==> list[k].name != name
    ensures c.Some? && list != [] && list[0].name == name ==> c.value == list[0]
  {
    if list == [] then None
    else if list[0].name == name then Some(list[0])
    else FindCountryIn(list[1..], name)
  }

  function FindCountry(name: string): Option<Country>
  {
    FindCountryIn(Countries, name)
  }

  /** A field of the shipping address; a missing field reads as "". */
  function Field(address: map<string, string>, key: string): string
  {
    if key in address then address[key] else ""
  }

  datatype CheckoutForm = CheckoutForm(shippingAddress: map<string, string>, paymentMethod: string)

  /** The form as the page first shows it, prefilled from the signed-in user. */
  function InitialForm(userName: string, userEmail: string): (f: CheckoutForm)
    ensures f.shippingAddress.Keys == {"fullName", "address", "city", "postalCode", "country", "email", "phoneNumber", "phoneCode"}
    ensures Field(f.shippingAddress, "country") == "France"
    ensures Field(f.shippingAddress, "phoneCode") == Countries[0].code
  {
    CheckoutForm(
      map["fullName" := userName, "address" := "", "city" := "", "postalCode" := "",
          "country" := "France", "email" := userEmail, "phoneNumber" := "", "phoneCode" := DefaultPhoneCode],
      "a la livraison")
  }

  /**
   * `handleInputChange`: sets the edited field; a country change also
   * sets `phoneCode` to that country's code, or '+33' for a name not in
   * the table.
   */
  function InputChange(form: CheckoutForm, name: string, value: string): (f: CheckoutForm)
    ensures Field(f.shippingAddress, name) == value
    ensures name == "country" ==>
      Field(f.shippingAddress, "phoneCode") == (if FindCountry(value).Some? then FindCountry(value).value.code else DefaultPhoneCode)
    ensures forall k :: k in form.shippingAddress && k != name && (name == "country" ==> k != "phoneCode") ==>
      k in f.shippingAddress && f.shippingAddress[k] == form.shippingAddress[k]
    ensures f.paymentMethod == form.paymentMethod
  {
    var address := form.shippingAddress;
    if name == "country" then
      var code := match FindCountry(value) case Some(c) => c.code case None => DefaultPhoneCode;
      form.(shippingAddress := address[name := value]["phoneCode" := code])
    else
      form.(shippingAddress := address[name := value])
  }

  /** The fields that must be non-empty, in the order they are checked. */
  const RequiredFields: seq<string> := ["fullName", "address", "city", "postalCode", "email", "phoneNumber"]

  /** `requiredFields.filter(field => !shippingAddress[field])` */
  function MissingIn(address: map<string, string>, fields: seq<string>): (missing: seq<string>)
    ensures missing == [] <==> forall k :: 0 <= k < |fields| ==> Field(address, fields[k]) != ""
    ensures forall f :: f in missing ==> f in fields && Field(address, f) == ""
  {
    if fields == [] then []
    else (if Field(address, fields[0]) == "" then [fields[0]] else []) + MissingIn(address, fields[1..])
  }

  /**
   * The phone number as submitted: a number that starts with '+' is kept;
   * any other loses one leading '0', if it has one, and gets the code in front.
   */
  function WithCountryCode(number: string, code: string): (r: string)
    ensures |number| > 0 && number[0] == '+' ==> r == number
    ensures !(|number| > 0 && number[0] == '+') ==>
      && (|number| > 0 && number[0] == '0' ==> r == code + number[1..])
      && (!(|number| > 0 && number[0] == '0') ==> r == code + number)
  {
    if |number| > 0 && number[0] == '+' then number
    else code + (if |number| > 0 && number[0] == '0' then number[1..] else number)
  }

  /** The step-by-step reassignment of `formattedPhoneNumber`. */
  method FormatPhoneNumber(number: string, code: string) returns (formatted: string)
    ensures formatted == WithCountryCode(number, code)
    ensures |number| > 0 && number[0] == '+' ==> formatted == number
    ensures !(|number| > 0 && number[0] == '+') ==>
      && code <= formatted
      && (formatted[|code|..] == number || (number[0] == '0' && formatted[|code|..] == number[1..]))
  {
    formatted := number;
    if !(|formatted| > 0 && formatted[0] == '+') {
      if |formatted| > 0 && formatted[0] == '0' {
        formatted := formatted[1..];
      }
      formatted := code + formatted;
    }
    if !(|number| > 0 && number[0] == '+') {
      assert formatted[|code|..] == (if |number| > 0 && number[0] == '0' then number[1..] else number);
    }
  }

  /** `items.map(...)`: one order item per cart line, in order. */
  function ToOrderItems(items: seq<CartLine>): (r: seq<OrderItem>)
    ensures |r| == |items|
    ensures forall k :: 0 <= k < |items| ==>
      r[k] == OrderItem(items[k].productId, items[k].size, items[k].quantity, items[k].price)
  {
    seq(|items|, k requires 0 <= k < |items| => OrderItem(items[k].productId, items[k].size, items[k].quantity, items[k].price))
  }

  /** The validation result: an error to show, or the order to submit. */
  datatype Submission = Invalid(message: string) | Ready(data: OrderData)

  /**
   * `handleSubmit` up to the dispatch: required fields, then the e-mail,
   * then the country, then the formatted phone number are checked, in that
   * order; the first failure is the message shown.
   */
  function Validate(form: CheckoutForm, items: seq<CartLine>,
                    emailValid: string -> bool, phoneValid: (string, string) -> bool): (s: Submission)
    ensures var address := form.shippingAddress;
      && (MissingIn(address, RequiredFields) != [] ==> s == Invalid(RequiredMessage))
      && (MissingIn(address, RequiredFields) == [] && !emailValid(Field(address, "email")) ==> s == Invalid(EmailMessage))
      && (MissingIn(address, RequiredFields) == [] && emailValid(Field(address, "email"))
          && FindCountry(Field(address, "country")).None? ==>
            s == Invalid(UnknownCountryPrefix + Field(address, "country")))
    ensures var address := form.shippingAddress;
      var country := FindCountry(Field(address, "country"));
      var phoneOk := country.Some? &&
        phoneValid(Field(address, "country"), WithCountryCode(Field(address, "phoneNumber"), country.value.code));
      MissingIn(address, RequiredFields) == [] && emailValid(Field(address, "email")) && country.Some? ==>
        && (s.Ready? <==> phoneOk)
        && (!phoneOk ==> s == Invalid(BadPhonePrefix + Field(address, "country")))
    ensures s.Ready? ==> s.data.orderItems == Some(ToOrderItems(items))
    ensures s.Ready? ==>
      var address := form.shippingAddress;
      var country := FindCountry(Field(address, "country"));
      && (forall k :: 0 <= k < |RequiredFields| ==> Field(address, RequiredFields[k]) != "")
      && emailValid(Field(address, "email"))
      && country.Some? && country.value in Countries
      && phoneValid(Field(address, "country"), WithCountryCode(Field(address, "phoneNumber"), country.value.code))
  {
    var address := form.shippingAddress;
    var country := Field(address, "country");
    if MissingIn(address, RequiredFields) != [] then Invalid(RequiredMessage)
    else if !emailValid(Field(address, "email")) then Invalid(EmailMessage)
    else if FindCountry(country).None? then Invalid(UnknownCountryPrefix + country)
    else
      var code := FindCountry(country).value.code;
      var phone := WithCountryCode(Field(address, "phoneNumber"), code);
      if !phoneValid(country, phone) then Invalid(BadPhonePrefix + country)
      else Ready(OrderData(
        Some(ToOrderItems(items)),
        address["phoneNumber" := phone]["phoneCode" := code],
        form.paymentMethod,
        Total(items)))
  }

  /** How a submission ends: not sent, sent and rejected, or placed. */
  datatype CheckoutOutcome = NotSent(message: string) | OrderFailed(message: string) | Placed(order: Order)

  /** `errorPayload?.message || default` */
  function PayloadMessage(p: ErrorPayload): (m: string)
    ensures m != ""
    ensures p.Detailed? && p.message != "" ==> m == p.message
    ensures p.Text? || p.Undefined? ==> m == OrderFailedMessage
  {
    match p
    case Detailed(message, _, _) => Or(message, OrderFailedMessage)
    case Body(b) => Or(b.message, OrderFailedMessage)
    case _ => OrderFailedMessage
  }

  /** What follows validation: nothing is sent for an invalid form, else the order is created. */
  function Send(submission: Submission, response: Outcome<Order>): (outcome: CheckoutOutcome)
    ensures submission.Invalid? ==> outcome == NotSent(submission.message)
    ensures submission.Ready? && HasOrderItems(Some(submission.data)) ==>
      (outcome.Placed? <==> response.Success?)
    ensures outcome.Placed? ==> response == Success(outcome.order)
  {
    match submission
    case Invalid(message) => NotSent(message)
    case Ready(data) =>
      match CreateOrder(Some(data), response).result
      case Ok(order) => Placed(order)
      case Err(e) => OrderFailed(PayloadMessage(e))
  }

  /** The whole submission, with the server's answer to the order request as an input. */
  function Submit(form: CheckoutForm, items: seq<CartLine>, emailValid: string -> bool,
                  phoneValid: (string, string) -> bool, response: Outcome<Order>): CheckoutOutcome
  {
    Send(Validate(form, items, emailValid, phoneValid), response)
  }

  /** The cart after submitting: cleared only when the order was placed. */
  function CartAfter(items: seq<CartLine>, outcome: CheckoutOutcome): seq<CartLine>
  {
    if outcome.Placed? then Reduce(items, ClearCart) else items
  }

  /**
   * A submitted order is the cart, line for line, with the cart's total,
   * the formatted phone number and the selected country's code; the rest
   * of the address is as entered.
   */
  lemma SubmittedOrderMatchesCart(form: CheckoutForm, items: seq<CartLine>,
                                  emailValid: string -> bool, phoneValid: (string, string) -> bool)
    requires Validate(form, items, emailValid, phoneValid).Ready?
    ensures var data := Validate(form, items, emailValid, phoneValid).data;
      var address := form.shippingAddress;
      var country := FindCountry(Field(address, "country")).value;
      && data.orderItems == Some(ToOrderItems(items))
      && data.totalPrice == Total(items)
      && data.shippingAddress["phoneCode"] == country.code
      && data.shippingAddress["phoneNumber"] == WithCountryCode(Field(address, "phoneNumber"), country.code)
      && country in Countries
      && (forall k :: k in address && k != "phoneNumber" && k != "phoneCode" ==> data.shippingAddress[k] == address[k])
  {
  }

  /**
   * The cart is cleared exactly when the order is placed; an invalid form
   * sends nothing, whatever the server would have said.
   */
  lemma CartClearedOnlyWhenPlaced(items: seq<CartLine>, submission: Submission, response: Outcome<Order>)
    requires items != []
    requires submission.Ready? ==> submission.data.orderItems == Some(ToOrderItems(items))
    ensures var outcome := Send(submission, response);
      && (CartAfter(items, outcome) == [] <==> outcome.Placed?)
      && (outcome.Placed? <==> submission.Ready? && response.Success?)
      && (submission.Invalid? ==> outcome.NotSent?)
  {
    if submission.Ready? {
      assert HasOrderItems(Some(submission.data));
    }
  }

  /** The same for a whole submission of the form. */
  lemma SubmitClearsCartOnlyWhenPlaced(form: CheckoutForm, items: seq<CartLine>, emailValid: string -> bool,
                                       phoneValid: (string, string) -> bool, response: Outcome<Order>)
    requires items != []
    ensures var outcome := Submit(form, items, emailValid, phoneValid, response);
      && (CartAfter(items, outcome) == [] <==> outcome.Placed?)
      && (outcome.Placed? <==> Validate(form, items, emailValid, phoneValid).Ready? && response.Success?)
  {
    CartClearedOnlyWhenPlaced(items, Validate(form, items, emailValid, phoneValid), response);
  }
}

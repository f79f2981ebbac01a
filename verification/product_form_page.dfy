/**
 The product form page, used both to create a product (`/products/new`) and to
 edit one (`/products/:id/edit`): copying the edited product into the form,
 single-field edits, the validation chain and create/update dispatch on submit,
 and the cancel target.
 */
module ProductFormPage {
  import opened Domain
  import Text
  import Api

  const NameRequired := "Nome do produto é obrigatório"
  const PriceNotPositive := "Preço deve ser maior que zero"
  const StockNegative := "Quantidade em estoque não pode ser negativa"
  const UpdateError := "Erro ao atualizar produto. Tente novamente."
  const CreateError := "Erro ao criar produto. Tente novamente."

  datatype Page = Page(form: ProductInput, isLoading: bool, isLoadingProduct: bool, error: string)

  /** The form before anything is typed or loaded. */
  const EmptyForm := ProductInput("", Some(""), 0.0, 0)

  /** The call a submit makes to the service. */
  datatype ProductCall = Create(input: ProductInput) | Update(id: int, input: ProductInput)

  datatype Submitted = Submitted(page: Page, call: Option<ProductCall>, navigate: Option<Path>)

  /** A change to one input: text for the text fields, the parsed number (if any) for the numeric ones. */
  datatype FieldEdit =
    | NameEdit(text: string)
    | DescriptionEdit(text: string)
    | PriceEdit(parsedPrice: Option<real>)
    | StockEdit(parsedStock: Option<int>)

  /** `Boolean(id)`: the page edits when the route carries a non-empty id. */
  function IsEditing(route: Option<RouteParam>): (editing: bool)
    ensures editing <==> route.Some? && route.value.text != ""
  {
    RequestedId(route).Some?
  }

  /** The page as first rendered: an empty form, waiting for the product only when editing. */
  function Initial(route: Option<RouteParam>): (p: Page)
    ensures p.form == EmptyForm && !p.isLoading && p.error == ""
    ensures p.isLoadingProduct <==> IsEditing(route)
  {
    Page(EmptyForm, false, IsEditing(route), "")
  }

  /** The form fields copied from a listed product; a missing description becomes "". */
  function FormOf(product: Product): (f: ProductInput)
    ensures f.name == product.name && f.price == product.price
    ensures f.stockQuantity == product.stockQuantity
    ensures f.description == Some(product.description.GetOr(""))
  {
    ProductInput(product.name, Some(product.description.GetOr("")), product.price, product.stockQuantity)
  }

  /**
   `loadProduct(productId)`, given how the awaited `getAllProducts` settled. The
   error is cleared first; a matching product fills the form; no match sets the
   not-found error and navigates back to the list; a rejection sets the load
   error. Loading the product always ends.
   */
  function LoadProduct(p: Page, productId: int, fetched: Outcome<seq<Product>>)
    : (r: (Page, Option<Path>))
    ensures !r.0.isLoadingProduct && r.0.isLoading == p.isLoading
    ensures fetched.Returned? && FindById(fetched.value, productId).Some? ==>
      r.0.form == FormOf(FindById(fetched.value, productId).value) && r.0.error == "" && r.1 == None
    ensures fetched.Returned? && FindById(fetched.value, productId).None? ==>
      r.0.form == p.form && r.0.error == ProductNotFound && r.1 == Some(ProductsPath)
    ensures fetched.Raised? ==> r.0.form == p.form && r.0.error == ProductLoadFailed && r.1 == None
  {
    var started := p.(isLoadingProduct := true, error := "");
    match fetched
    case Returned(products) =>
      (match FindById(products, productId)
       case Some(product) => (started.(form := FormOf(product), isLoadingProduct := false), None)
       case None => (started.(error := ProductNotFound, isLoadingProduct := false), Some(ProductsPath)))
    case Raised(_) => (started.(error := ProductLoadFailed, isLoadingProduct := false), None)
  }

  /**
   `handleInputChange`: only the edited field changes. A numeric input that
   does not parse (or parses to zero) stores zero, as `parseFloat(v) || 0` does.
   */
  function Edit(f: ProductInput, e: FieldEdit): (r: ProductInput)
    ensures r.name == (if e.NameEdit? then e.text else f.name)
    ensures r.description == (if e.DescriptionEdit? then Some(e.text) else f.description)
    ensures r.price == (if e.PriceEdit? then e.parsedPrice.GetOr(0.0) else f.price)
    ensures r.stockQuantity == (if e.StockEdit? then e.parsedStock.GetOr(0) else f.stockQuantity)
  {
    match e
    case NameEdit(text) => f.(name := text)
    case DescriptionEdit(text) => f.(description := Some(text))
    case PriceEdit(parsed) => f.(price := parsed.GetOr(0.0))
    case StockEdit(parsed) => f.(stockQuantity := parsed.GetOr(0))
  }

  /**
   The validation chain of `handleSubmit`, first failure winning: a name that
   trims to nothing, then a price not above zero, then a negative stock.
   */
  function Validate(f: ProductInput): (r: Option<string>)
    ensures r == Some(NameRequired) <==> Text.IsBlank(f.name)
    ensures r == Some(PriceNotPositive) <==> !Text.IsBlank(f.name) && f.price <= 0.0
    ensures r == Some(StockNegative) <==>
      !Text.IsBlank(f.name) && f.price > 0.0 && f.stockQuantity < 0
    ensures r == None <==> !Text.IsBlank(f.name) && f.price > 0.0 && f.stockQuantity >= 0
  {
    if Text.Trim(f.name) == "" then Some(NameRequired)
    else if f.price <= 0.0 then Some(PriceNotPositive)
    else if f.stockQuantity < 0 then Some(StockNegative)
    else None
  }

  /** The message a rejected save shows, by the page's mode. */
  function SaveError(route: Option<RouteParam>): (message: string)
    ensures message == UpdateError <==> IsEditing(route)
    ensures message == CreateError <==> !IsEditing(route)
  {
    if IsEditing(route) then UpdateError else CreateError
  }

  /**
   `handleSubmit`, given how the awaited service call settles. A failed check
   shows its one message and calls nothing. Otherwise an editing page updates
   the product under the route id and a new-product page creates one; whatever
   value the call resolves with (even none), the page goes back to the list,
   and a rejection shows the mode's failure message. Saving always ends.
   */
  function Submit(p: Page, route: Option<RouteParam>, outcome: Outcome<Option<Product>>)
    : (r: Submitted)
    ensures r.call.None? <==> Validate(p.form).Some?
    ensures r.call.None? ==> Some(r.page.error) == Validate(p.form) && r.navigate == None
    ensures r.call.Some? ==> r.call.value.input == p.form
    ensures r.call.Some? ==> (r.call.value.Update? <==> IsEditing(route))
    ensures r.call.Some? && r.call.value.Update? ==> Some(r.call.value.id) == RequestedId(route)
    ensures r.call.Some? ==>
      && (r.navigate == Some(ProductsPath) <==> outcome.Returned?)
      && (r.navigate == None <==> outcome.Raised?)
      && r.page.error == (if outcome.Returned? then "" else SaveError(route))
    ensures !r.page.isLoading && r.page.form == p.form
    ensures r.page == p.(isLoading := false, error := r.page.error)
  {
    var started := p.(isLoading := true, error := "");
    match Validate(p.form)
    case Some(message) => Submitted(started.(error := message, isLoading := false), None, None)
    case None =>
      var call :=
        match RequestedId(route)
        case Some(id) => Update(id, p.form)
        case None => Create(p.form);
      match outcome
      case Returned(_) => Submitted(started.(isLoading := false), Some(call), Some(ProductsPath))
      case Raised(_) =>
        Submitted(started.(error := SaveError(route), isLoading := false), Some(call), None)
  }

  /** Cancel returns to the product when editing and to the list otherwise. */
  function CancelTarget(route: Option<RouteParam>): (path: Path)
    ensures IsEditing(route) ==> path == ProductPath(route.value.text)
    ensures !IsEditing(route) ==> path == ProductsPath
  {
    if IsEditing(route) then ProductPath(route.value.text) else ProductsPath
  }

  /**
   The service call a submit asks for, made against the backend: the request
   carries the form and the session's auth headers.
   */
  function Perform(call: ProductCall, s: Api.Storage, reply: Api.Reply<Api.StatusBody>, now: int)
    : (r: Api.Call<Option<Product>>)
    ensures r.storage == s && |r.sent| == 1
    ensures call.Create? ==> r.sent[0] == Api.CreateRequest(Api.AuthHeaders(s), call.input)
    ensures call.Update? ==> r.sent[0] == Api.UpdateRequest(Api.AuthHeaders(s), call.id, call.input)
  {
    match call
    case Create(input) => Api.CreateProduct(s, input, reply, now)
    case Update(id, input) => Api.UpdateProduct(s, id, input, reply)
  }

  /**
   A backend that answers a valid save with `success: false` is not noticed:
   the service resolves with no product, and the page still goes back to the
   list without an error.
   */
  lemma RejectedSaveStillLeaves(p: Page, route: Option<RouteParam>, s: Api.Storage, now: int)
    requires Validate(p.form) == None
    ensures var call := Submit(p, route, Returned(None)).call.value;
      var r := Perform(call, s, Api.Response(true, Api.StatusBody(false)), now);
      r.outcome == Returned(None) &&
      Submit(p, route, r.outcome).navigate == Some(ProductsPath) &&
      Submit(p, route, r.outcome).page.error == ""
  {
  }

  /**
   Editing without touching a field saves the loaded product back: the updated
   product equals the listed one, except that a missing description is sent
   as "".
   */
  lemma UnchangedEditRoundTrip(product: Product, s: Api.Storage)
    ensures var r := Api.UpdateProduct(s, product.id, FormOf(product), Api.Response(true, Api.StatusBody(true)));
      r.outcome == Returned(Some(product.(description := Some(product.description.GetOr("")))))
  {
  }
}

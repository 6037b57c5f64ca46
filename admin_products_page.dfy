/** The product administration page: a modal that is open or closed, in add
    or edit mode, a search term, and the product selection of the products
    store (that store's reducer is not part of this model, so the selection
    slot is kept here, set by `selectProduct` and emptied by
    `clearSelectedProduct`). Submitting turns the form's data into the
    product command the page dispatches. */
module AdminProductsPage {
  import opened Wrappers
  import opened Text
  import opened Seqs
  import opened Catalog
  import opened ProductsActions
  import opened ProductForm

  const DISPLAY_LIMIT: nat := 20

  datatype Mode = Add | Edit

  /** The product thunk a handler dispatches, with its argument. */
  datatype ProductCommand =
    | CreateCommand(data: Submission)
    | UpdateCommand(id: ProductKey, data: Submission)
    | DeleteCommand(id: ProductKey)

  class ManageProductsPage {
    var isModalOpen: bool
    var modalMode: Mode
    var searchTerm: string
    var selectedProduct: Option<Product>

    /** An open modal in edit mode always has a product to edit. */
    ghost predicate Valid()
      reads this
    {
      isModalOpen && modalMode == Edit ==> selectedProduct.Some?
    }

    /** The page's initial state, over whatever selection the store holds. */
    constructor (selection: Option<Product>)
      ensures Valid()
      ensures !isModalOpen && modalMode == Add && searchTerm == "" && selectedProduct == selection
    {
      isModalOpen := false;
      modalMode := Add;
      searchTerm := "";
      selectedProduct := selection;
    }

    /** "Add": the selection is cleared and the modal opens in add mode. */
    method HandleAdd()
      modifies this
      ensures Valid()
      ensures isModalOpen && modalMode == Add && selectedProduct == None && searchTerm == old(searchTerm)
    {
      selectedProduct := None;
      modalMode := Add;
      isModalOpen := true;
    }

    /** "Edit": the product is selected and the modal opens in edit mode. */
    method HandleEdit(product: Product)
      modifies this
      ensures Valid()
      ensures isModalOpen && modalMode == Edit && selectedProduct == Some(product) && searchTerm == old(searchTerm)
    {
      selectedProduct := Some(product);
      modalMode := Edit;
      isModalOpen := true;
    }

    /** Submitting closes the modal, keeps the selection, and dispatches a
      create in add mode or an update of the SELECTED product in edit mode,
      whatever id the form carries. With no selection in edit mode
      `selectedProduct!.id` throws before anything is dispatched (`None`). */
    method HandleSubmit(data: Submission) returns (command: Option<ProductCommand>)
      requires Valid()
      modifies this
      ensures Valid()
      ensures !isModalOpen && modalMode == old(modalMode) && selectedProduct == old(selectedProduct)
      ensures searchTerm == old(searchTerm)
      ensures old(modalMode) == Add ==> command == Some(CreateCommand(data))
      ensures old(modalMode) == Edit && old(selectedProduct).Some? ==>
        command == Some(UpdateCommand(NumberKey(old(selectedProduct).value.id), data))
      ensures old(modalMode) == Edit && old(selectedProduct).None? ==> command == None
      ensures old(isModalOpen) ==> command.Some?
    {
      isModalOpen := false;
      if modalMode == Add {
        command := Some(CreateCommand(data));
      } else if selectedProduct.Some? {
        command := Some(UpdateCommand(NumberKey(selectedProduct.value.id), data));
      } else {
        command := None;
      }
    }

    /** Closing the modal also clears the selection. */
    method CloseModal()
      modifies this
      ensures Valid()
      ensures !isModalOpen && selectedProduct == None && modalMode == old(modalMode) && searchTerm == old(searchTerm)
    {
      isModalOpen := false;
      selectedProduct := None;
    }

    /** The search box: only the term changes. */
    method SetSearchTerm(term: string)
      modifies this
      ensures searchTerm == term
      ensures isModalOpen == old(isModalOpen) && modalMode == old(modalMode) && selectedProduct == old(selectedProduct)
    {
      searchTerm := term;
    }
  }

  /** Deleting asks for confirmation; only a confirmed delete is dispatched. */
  function DeleteRequest(id: int, confirmed: bool): (r: Option<ProductCommand>)
    ensures r.Some? <==> confirmed
    ensures r.Some? ==> r.value.DeleteCommand? && r.value.id == NumberKey(id)
  {
    if confirmed then Some(DeleteCommand(NumberKey(id))) else None
  }

  /** The title or the category contains the term, ignoring case. */
  predicate Listed(p: Product, term: string)
  {
    IncludesIgnoringCase(p.title, term) || IncludesIgnoringCase(p.category, term)
  }

  /** The table's rows: the listed products in list order. */
  function ListedProducts(products: seq<Product>, term: string): (r: seq<Product>)
    ensures |r| <= |products|
    ensures forall p :: p in r <==> p in products && Listed(p, term)
  {
    FilterMembers(products, (p: Product) => Listed(p, term));
    Filter(products, (p: Product) => Listed(p, term))
  }

  /** An empty search lists every product. */
  lemma EmptySearchListsAll(products: seq<Product>)
    ensures ListedProducts(products, "") == products
  {
    forall i | 0 <= i < |products| ensures Listed(products[i], "") {
      EmptyTermMatches(products[i].title);
    }
    FilterKeepsAll(products, (p: Product) => Listed(p, ""));
  }

  /** The listing keeps the products' relative order. */
  lemma ListingKeepsOrder(a: seq<Product>, b: seq<Product>, term: string)
    ensures ListedProducts(a + b, term) == ListedProducts(a, term) + ListedProducts(b, term)
  {
    FilterAppend(a, b, (p: Product) => Listed(p, term));
  }

  /** The title cell: titles over 20 characters show their first 20
      characters and "..."; shorter ones show whole. */
  function DisplayTitle(title: string): (r: string)
    ensures |title| <= DISPLAY_LIMIT ==> r == title
    ensures |title| > DISPLAY_LIMIT ==>
      |r| == DISPLAY_LIMIT + 3 && r[..DISPLAY_LIMIT] == title[..DISPLAY_LIMIT] && r[DISPLAY_LIMIT..] == "..."
  {
    Truncate(title, DISPLAY_LIMIT)
  }

  /** The editing round: editing a product and saving the form untouched
      dispatches an update of that product, under its own id, with its own
      fields, when it passes the form's checks. */
  method EditAndSaveUnchanged(page: ManageProductsPage, product: Product) returns (command: Option<ProductCommand>)
    requires page.Valid()
    modifies page
    ensures product.title != "" && product.price > 0.0 && product.category != "" ==>
      command == Some(UpdateCommand(NumberKey(product.id), Submission(Some(product.id), FromProduct(product))))
    ensures !(product.title != "" && product.price > 0.0 && product.category != "") ==> command == None
  {
    page.HandleEdit(product);
    var submitted := SubmitUnedited(page.selectedProduct.value);
    if submitted.Some? {
      command := page.HandleSubmit(submitted.value);
    } else {
      command := None;
    }
  }
}

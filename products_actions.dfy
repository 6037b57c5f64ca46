/** What the five product thunks settle with, given what the product
    service call returned or threw. Successful calls pass the service's value
    through (delete passes the id it was given); every failure becomes a
    fixed or id-templated message and its cause is dropped. */
module ProductsActions {
  import opened Wrappers
  import opened Text

  const FETCH_PRODUCTS_FAILED: string := "Failed to fetch products"
  const FETCH_PRODUCT_FAILED_PREFIX: string := "Failed to fetch product #"
  const CREATE_PRODUCT_FAILED: string := "Failed to create product"
  const UPDATE_PRODUCT_FAILED_PREFIX: string := "Failed to update product #"
  const DELETE_PRODUCT_FAILED_PREFIX: string := "Failed to delete product #"

  /** A product id as the thunks accept it: `string | number`. */
  datatype ProductKey = NumberKey(n: int) | TextKey(s: string)

  /** `${productId}`. */
  function KeyText(k: ProductKey): string
  {
    match k
    case NumberKey(n) => IntToString(n)
    case TextKey(s) => s
  }

  /** The common shape of a product thunk: the service's value on success,
      the given reason on any failure. */
  function Settle<T>(outcome: Result<T, Thrown>, reason: string): (r: Result<T, string>)
    ensures r.Success? <==> outcome.Success?
    ensures outcome.Success? ==> r.value == outcome.value
    ensures outcome.Failure? ==> r.error == reason
  {
    match outcome
    case Success(v) => Success(v)
    case Failure(_) => Failure(reason)
  }

  /** `fetchProducts`. */
  function FetchProducts<T>(outcome: Result<T, Thrown>): (r: Result<T, string>)
    ensures outcome.Success? ==> r == Success(outcome.value)
    ensures outcome.Failure? ==> r == Failure(FETCH_PRODUCTS_FAILED)
  {
    Settle(outcome, FETCH_PRODUCTS_FAILED)
  }

  /** `fetchProductById`. */
  function FetchProductById<T>(id: ProductKey, outcome: Result<T, Thrown>): (r: Result<T, string>)
    ensures outcome.Success? ==> r == Success(outcome.value)
    ensures outcome.Failure? ==> r == Failure(FETCH_PRODUCT_FAILED_PREFIX + KeyText(id))
  {
    Settle(outcome, FETCH_PRODUCT_FAILED_PREFIX + KeyText(id))
  }

  /** `createProduct`. */
  function CreateProduct<T>(outcome: Result<T, Thrown>): (r: Result<T, string>)
    ensures outcome.Success? ==> r == Success(outcome.value)
    ensures outcome.Failure? ==> r == Failure(CREATE_PRODUCT_FAILED)
  {
    Settle(outcome, CREATE_PRODUCT_FAILED)
  }

  /** `updateProduct`: the message names the id argument. */
  function UpdateProduct<T>(id: ProductKey, outcome: Result<T, Thrown>): (r: Result<T, string>)
    ensures outcome.Success? ==> r == Success(outcome.value)
    ensures outcome.Failure? ==> r == Failure(UPDATE_PRODUCT_FAILED_PREFIX + KeyText(id))
  {
    Settle(outcome, UPDATE_PRODUCT_FAILED_PREFIX + KeyText(id))
  }

  /** `deleteProduct`: fulfils with the id it was given, not with what the
      service answered. */
  function DeleteProduct<T>(id: ProductKey, outcome: Result<T, Thrown>): (r: Result<ProductKey, string>)
    ensures outcome.Success? ==> r == Success(id)
    ensures outcome.Failure? ==> r == Failure(DELETE_PRODUCT_FAILED_PREFIX + KeyText(id))
  {
    match outcome
    case Success(_) => Success(id)
    case Failure(_) => Failure(DELETE_PRODUCT_FAILED_PREFIX + KeyText(id))
  }

  /** Messages templated on distinct numeric ids are distinct, so a failed
      fetch, update or delete always names the product it was about. */
  lemma TemplatedReasonNamesProduct(prefix: string, a: int, b: int)
    requires prefix + KeyText(NumberKey(a)) == prefix + KeyText(NumberKey(b))
    ensures a == b
  {
    var m := prefix + KeyText(NumberKey(a));
    assert m[|prefix|..] == IntToString(a);
    assert (prefix + KeyText(NumberKey(b)))[|prefix|..] == IntToString(b);
    IntToStringInjective(a, b);
  }

  /** A failed delete of product a and one of product b give the same
      rejection only when a and b are the same product. */
  lemma DeleteRejectionsIdentifyProduct<T>(a: int, b: int, e1: Thrown, e2: Thrown)
    requires DeleteProduct<T>(NumberKey(a), Failure(e1)) == DeleteProduct<T>(NumberKey(b), Failure(e2))
    ensures a == b
  {
    TemplatedReasonNamesProduct(DELETE_PRODUCT_FAILED_PREFIX, a, b);
  }

  /** The same for updates. */
  lemma UpdateRejectionsIdentifyProduct<T>(a: int, b: int, e1: Thrown, e2: Thrown)
    requires UpdateProduct<T>(NumberKey(a), Failure(e1)) == UpdateProduct<T>(NumberKey(b), Failure(e2))
    ensures a == b
  {
    TemplatedReasonNamesProduct(UPDATE_PRODUCT_FAILED_PREFIX, a, b);
  }
}

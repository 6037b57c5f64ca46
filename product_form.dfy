/** The product form dialog: a form record and an error record, replaced by
    the reset effect, by field edits and by submission. Only title, price and
    category carry an error; description and image are never checked. */
module ProductForm {
  import opened Wrappers
  import opened Catalog

  const PLACEHOLDER_IMAGE: string := "https://via.placeholder.com/150"
  const TITLE_REQUIRED: string := "Title is required"
  const PRICE_NOT_POSITIVE: string := "Price must be greater than 0"
  const CATEGORY_REQUIRED: string := "Category is required"

  datatype FormData = FormData(title: string, price: real, description: string, category: string, image: string)

  /** The error record: "" means the field passed. */
  datatype Errors = Errors(title: string, price: string, category: string)

  /** The `name` attribute of the control that changed. */
  datatype Field = TitleField | PriceField | DescriptionField | CategoryField | ImageField

  /** What `onSubmit` receives: `{ id: product?.id, ...formData }`. */
  datatype Submission = Submission(id: Option<int>, data: FormData)

  /** The blank form of add mode. */
  const BLANK: FormData := FormData("", 0.0, "", "", PLACEHOLDER_IMAGE)

  const NO_ERRORS: Errors := Errors("", "", "")

  /** No error string is truthy. */
  predicate NoErrors(e: Errors)
  {
    e.title == "" && e.price == "" && e.category == ""
  }

  /** The form's fields copied from a product. */
  function FromProduct(p: Product): (d: FormData)
    ensures d.title == p.title && d.price == p.price && d.description == p.description
    ensures d.category == p.category && d.image == p.image
  {
    FormData(p.title, p.price, p.description, p.category, p.image)
  }

  /** `validateForm`'s error record: each check yields its own message when
      it fails and "" when it passes, and the form is valid exactly when a
      title and a category are given and the price is positive. */
  function Validate(d: FormData): (e: Errors)
    ensures NoErrors(e) <==> d.title != "" && d.price > 0.0 && d.category != ""
    ensures e.title != "" <==> d.title == ""
    ensures e.price != "" <==> d.price <= 0.0
    ensures e.category != "" <==> d.category == ""
    ensures e.title in {"", TITLE_REQUIRED} && e.price in {"", PRICE_NOT_POSITIVE}
    ensures e.category in {"", CATEGORY_REQUIRED}
  {
    Errors(if d.title != "" then "" else TITLE_REQUIRED,
           if d.price > 0.0 then "" else PRICE_NOT_POSITIVE,
           if d.category != "" then "" else CATEGORY_REQUIRED)
  }

  /** `parseFloat(value) || 0`: the parsed number, or 0 when parsing gives
      NaN (the `parsed` argument is `None`). */
  function PriceOf(parsed: Option<real>): (p: real)
    ensures parsed.Some? ==> p == parsed.value
    ensures parsed.None? ==> p == 0.0
  {
    if parsed.Some? then parsed.value else 0.0
  }

  class ProductFormModal {
    var formData: FormData
    var errors: Errors

    /** The initial state of both records. */
    constructor ()
      ensures formData == BLANK && errors == NO_ERRORS
    {
      formData := BLANK;
      errors := NO_ERRORS;
    }

    /** The reset effect: the product's fields when one is given, the blank
      form otherwise; the errors are left as they were. */
    method Reset(product: Option<Product>)
      modifies this
      ensures product.Some? ==> formData == FromProduct(product.value)
      ensures product.None? ==> formData == BLANK
      ensures errors == old(errors)
    {
      if product.Some? {
        formData := FromProduct(product.value);
      } else {
        formData := BLANK;
      }
    }

    /** `handleChange`: only the named field takes the new value (a price
      goes through `parseFloat(value) || 0`), and that field's error is
      emptied when it was set; the others are kept. */
    method HandleChange(name: Field, value: string, parsed: Option<real>)
      modifies this
      ensures name == TitleField ==> formData == old(formData).(title := value)
      ensures name == PriceField ==> formData == old(formData).(price := PriceOf(parsed))
      ensures name == DescriptionField ==> formData == old(formData).(description := value)
      ensures name == CategoryField ==> formData == old(formData).(category := value)
      ensures name == ImageField ==> formData == old(formData).(image := value)
      ensures errors.title == (if name == TitleField then "" else old(errors.title))
      ensures errors.price == (if name == PriceField then "" else old(errors.price))
      ensures errors.category == (if name == CategoryField then "" else old(errors.category))
    {
      match name {
        case TitleField => formData := formData.(title := value);
        case PriceField => formData := formData.(price := PriceOf(parsed));
        case DescriptionField => formData := formData.(description := value);
        case CategoryField => formData := formData.(category := value);
        case ImageField => formData := formData.(image := value);
      }
      if name == TitleField && errors.title != "" {
        errors := errors.(title := "");
      } else if name == PriceField && errors.price != "" {
        errors := errors.(price := "");
      } else if name == CategoryField && errors.category != "" {
        errors := errors.(category := "");
      }
    }

    /** `handleSubmit`: the errors are recomputed, and `onSubmit` is called
      only when none is set, with the form record and the product's id
      (undefined in add mode). */
    method HandleSubmit(product: Option<Product>) returns (submitted: Option<Submission>)
      modifies this
      ensures errors == Validate(formData) && formData == old(formData)
      ensures submitted.Some? <==> NoErrors(errors)
      ensures submitted.Some? ==>
        submitted.value.data == formData &&
        submitted.value.id == (if product.Some? then Some(product.value.id) else None)
    {
      errors := Validate(formData);
      if NoErrors(errors) {
        var id := if product.Some? then Some(product.value.id) else None;
        submitted := Some(Submission(id, formData));
      } else {
        submitted := None;
      }
    }
  }

  /** Opening the dialog on a product and saving without edits submits that
      product unchanged under its own id, when it passes the checks. */
  method SubmitUnedited(p: Product) returns (submitted: Option<Submission>)
    ensures p.title != "" && p.price > 0.0 && p.category != "" ==>
      submitted == Some(Submission(Some(p.id), FromProduct(p)))
    ensures !(p.title != "" && p.price > 0.0 && p.category != "") ==> submitted == None
  {
    var modal := new ProductFormModal();
    modal.Reset(Some(p));
    submitted := modal.HandleSubmit(Some(p));
  }

  /** Saving the add form untouched is refused with all three messages. */
  method SubmitBlank() returns (submitted: Option<Submission>, errors: Errors)
    ensures submitted == None
    ensures errors == Errors(TITLE_REQUIRED, PRICE_NOT_POSITIVE, CATEGORY_REQUIRED)
  {
    var modal := new ProductFormModal();
    modal.Reset(None);
    submitted := modal.HandleSubmit(None);
    errors := modal.errors;
  }

  /** Filling in the add form: after a title, an unparsable price and a
      category, the submission is refused on the price alone. */
  method UnparsablePriceRefused(title: string, category: string, raw: string) returns (submitted: Option<Submission>, errors: Errors)
    requires title != "" && category != ""
    ensures submitted == None
    ensures errors == Errors("", PRICE_NOT_POSITIVE, "")
  {
    var modal := new ProductFormModal();
    modal.Reset(None);
    modal.HandleChange(TitleField, title, None);
    modal.HandleChange(PriceField, raw, None);
    modal.HandleChange(CategoryField, category, None);
    submitted := modal.HandleSubmit(None);
    errors := modal.errors;
  }
}

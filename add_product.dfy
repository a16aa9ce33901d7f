/**
 * The vendor's "add product" form: an image list capped at five, and a submit handler that
 * checks the fields in a fixed order and builds the new product for vendor 1.
 */
module AddProduct {
  import opened Common
  import opened Products

  /**
   * The form. Price and stock come from number inputs, whose value is either empty
   * (`None`) or a number: the price in cents, the stock as the whole number `parseInt` reads.
   */
  datatype ProductForm = ProductForm(
    name: string,
    description: string,
    price: Option<int>,
    category: string,
    stock: Option<int>,
    images: seq<string>)

  /** The form's initial value, which a successful submission restores. */
  const EmptyForm := ProductForm("", "", None, "", None, [])

  /** The most images a product may have. */
  const MaxImages := 5

  /** The image used when none was uploaded. */
  const PlaceholderImage := "/placeholder.svg?height=300&width=300"

  /** `[...images, ...urls].slice(0, 5)`. */
  function AddImages(images: seq<string>, urls: seq<string>): (r: seq<string>)
    ensures |r| <= MaxImages
    ensures |r| == if |images + urls| <= MaxImages then |images + urls| else MaxImages
    ensures forall i :: 0 <= i < |r| ==> r[i] == (images + urls)[i]
  {
    var all := images + urls;
    if |all| <= MaxImages then all else all[..MaxImages]
  }

  /**
   * Uploading keeps the images already chosen first, in order, and fills the remaining
   * places with the new ones; a list already at five is left as it is.
   */
  lemma AddImagesKeepsExisting(images: seq<string>, urls: seq<string>)
    requires |images| <= MaxImages
    ensures AddImages(images, urls)[..|images|] == images
    ensures |images| == MaxImages ==> AddImages(images, urls) == images
    ensures |images| + |urls| <= MaxImages ==> AddImages(images, urls) == images + urls
  {
    var r := AddImages(images, urls);
    assert forall i :: 0 <= i < |images| ==> r[i] == images[i];
  }

  /** `images.filter((_, i) => i !== index)`: an index outside the list removes nothing. */
  function RemoveImageAt(images: seq<string>, index: int): seq<string> {
    if 0 <= index < |images| then images[..index] + images[index + 1..] else images
  }

  /** Removing an image drops exactly the one at `index` and keeps the others in order. */
  lemma RemoveImageAtProperties(images: seq<string>, index: int)
    ensures 0 <= index < |images| ==> |RemoveImageAt(images, index)| == |images| - 1
    ensures 0 <= index < |images| ==> forall j :: 0 <= j < |images| - 1 ==>
      RemoveImageAt(images, index)[j] == if j < index then images[j] else images[j + 1]
    ensures !(0 <= index < |images|) ==> RemoveImageAt(images, index) == images
  {
  }

  /** The three errors the submit handler can report. */
  datatype SubmitError = MissingFields | PriceNotPositive | NegativeStock

  function ErrorMessage(e: SubmitError): string {
    match e
    case MissingFields => "Please fill in all required fields"
    case PriceNotPositive => "Price must be greater than 0"
    case NegativeStock => "Stock cannot be negative"
  }

  /** The required fields: name, description, price and category. */
  predicate HasRequiredFields(form: ProductForm) {
    form.name != "" && form.description != "" && form.price.Some? && form.category != ""
  }

  /** The checks in the order the handler makes them; the first that fails is reported. */
  function Validate(form: ProductForm): (r: Option<SubmitError>)
    ensures r.None? ==> HasRequiredFields(form) && form.price.value > 0 && form.stock.GetOr(0) >= 0
    ensures !HasRequiredFields(form) ==> r == Some(MissingFields)
  {
    if !HasRequiredFields(form) then Some(MissingFields)
    else if form.price.value <= 0 then Some(PriceNotPositive)
    else if form.stock.Some? && form.stock.value < 0 then Some(NegativeStock)
    else None
  }

  /**
   * The validation chain: a missing required field is reported before any other problem, a
   * price of zero or less before a negative stock, and a form passes exactly when it has
   * every required field, a positive price and a stock that is empty or not negative.
   */
  lemma ValidateOrder(form: ProductForm)
    ensures !HasRequiredFields(form) ==> Validate(form) == Some(MissingFields)
    ensures Validate(form) == Some(PriceNotPositive) <==> HasRequiredFields(form) && form.price.value <= 0
    ensures Validate(form) == Some(NegativeStock) <==>
      HasRequiredFields(form) && form.price.value > 0 && form.stock.Some? && form.stock.value < 0
    ensures Validate(form) == None <==>
      HasRequiredFields(form) && form.price.value > 0 && (form.stock.None? || form.stock.value >= 0)
  {
  }

  /** `productData.images[0] || placeholder`. */
  function ProductImage(images: seq<string>): (r: string)
    ensures |images| > 0 && images[0] != "" ==> r == images[0]
    ensures |images| == 0 ==> r == PlaceholderImage
  {
    if |images| > 0 && images[0] != "" then images[0] else PlaceholderImage
  }

  /** The product the handler builds, with the images the form spreads into it. */
  datatype Listing = Listing(product: Product, images: seq<string>)

  /**
   * `handleSubmit` with the clock's `id`: the first failing check, or the new product of
   * vendor 1, unrated, unreviewed, not featured, its stock zero when the field was empty.
   */
  function Submit(form: ProductForm, id: int): (r: Result<Listing, SubmitError>)
    ensures r.Err? <==> Validate(form).Some?
    ensures r.Err? ==> r.error == Validate(form).value
    ensures r.Ok? ==>
      && r.value.product.price == form.price.value && r.value.product.price > 0
      && r.value.product.stock == form.stock.GetOr(0) && r.value.product.stock >= 0
      && r.value.product.vendorId == 1
      && r.value.product.rating == Some(0) && r.value.product.reviews == 0 && !r.value.product.featured
      && r.value.product.id == id
      && r.value.product.name == form.name && r.value.product.description == form.description
      && r.value.product.category == form.category
      && r.value.product.image == ProductImage(form.images)
      && r.value.images == form.images
  {
    match Validate(form)
    case Some(e) => Err(e)
    case None =>
      var stock := match form.stock case None => 0 case Some(n) => n;
      Ok(Listing(
        Product(id, form.name, form.description, form.price.value, stock, form.category,
                ProductImage(form.images), Some(0), 0, false, 1),
        form.images))
  }

  class AddProductPage {
    var form: ProductForm
    var isLoading: bool
    var success: bool
    var error: string

    /** The image list never holds more than five images. */
    ghost predicate Valid()
      reads this
    {
      |form.images| <= MaxImages
    }

    constructor ()
      ensures form == EmptyForm && !isLoading && !success && error == "" && Valid()
    {
      form := EmptyForm;
      isLoading, success, error := false, false, "";
    }

    /** `handleImageUpload` with the URLs made for the chosen files. */
    method UploadImages(urls: seq<string>)
      modifies this
      requires Valid()
      ensures form == old(form).(images := AddImages(old(form.images), urls)) && Valid()
      ensures form.images[..|old(form.images)|] == old(form.images)
      ensures isLoading == old(isLoading) && success == old(success) && error == old(error)
    {
      AddImagesKeepsExisting(form.images, urls);
      form := form.(images := AddImages(form.images, urls));
    }

    /** `removeImage(index)`. */
    method RemoveImage(index: int)
      modifies this
      requires Valid()
      ensures form == old(form).(images := RemoveImageAt(old(form.images), index)) && Valid()
      ensures isLoading == old(isLoading) && success == old(success) && error == old(error)
    {
      form := form.(images := RemoveImageAt(form.images, index));
    }

    /**
     * `handleSubmit`, with the delayed completion taken as part of the same step: on a
     * failed check the error is shown and the form kept; otherwise the product is built,
     * success is shown and the form is reset.
     */
    method HandleSubmit(id: int) returns (created: Option<Listing>)
      modifies this
      requires Valid()
      ensures Valid() && !isLoading
      ensures created.Some? <==> Submit(old(form), id).Ok?
      ensures created.Some? ==> created.value == Submit(old(form), id).value && success && form == EmptyForm && error == ""
      ensures created.None? ==> error == ErrorMessage(Validate(old(form)).value) && form == old(form) && success == old(success)
    {
      isLoading := true;
      error := "";
      var r := Submit(form, id);
      match r
      case Err(e) =>
        error := ErrorMessage(e);
        isLoading := false;
        created := None;
      case Ok(listing) =>
        created := Some(listing);
        success := true;
        isLoading := false;
        form := EmptyForm;
    }
  }
}

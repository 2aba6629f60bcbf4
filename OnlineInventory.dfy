/**
 * The owner's "add product to the online catalog" form: category and sub-category chips, the
 * mutually exclusive badge switches, the image picker with its MIME whitelist, and the submit
 * handler's checks, payload and reset.
 */
module OnlineInventory {
  import opened Wrappers
  import opened Domain
  import Js

  /** A picked file; only its MIME type matters to the form. */
  datatype ImageFile = ImageFile(fileName: string, mimeType: string)

  /** The image host's answer to an upload. */
  datatype UploadedImage = UploadedImage(secureUrl: string, publicId: string)

  datatype ImageRef = ImageRef(url: string, publicId: string)

  /** The product record posted to the backend; `price` is `None` where `parseInt` yields NaN. */
  datatype ProductPayload = ProductPayload(
    name: string,
    price: Option<int>,
    category: Category,
    subCategory: string,
    description: string,
    isOnline: bool,
    isNewArrival: bool,
    isBestSeller: bool,
    images: seq<ImageRef>)

  datatype FormError = MissingFields | MissingImage

  /** What the network steps of a submit come to: signature and upload, then the product post. */
  datatype NetworkOutcome =
    | SignatureFailed
    | UploadRejected
    | Uploaded(image: UploadedImage, saved: bool)

  datatype SubmitOutcome =
    | Invalid(error: FormError)
    | Aborted
    | Posted(payload: ProductPayload, saved: bool)

  /** Every field of the form, as one value. */
  datatype FormFields = FormFields(
    category: Category,
    subCategory: string,
    name: string,
    price: string,
    description: string,
    showOnWebsite: bool,
    isNewArrival: bool,
    isBestSeller: bool,
    imagePreview: Option<string>,
    imageFile: Option<ImageFile>)

  const AllowedImageTypes: seq<string> := ["image/jpeg", "image/png", "image/webp", "image/jpg"]

  predicate IsAllowedImageType(mimeType: string) {
    mimeType in AllowedImageTypes
  }

  /** The two checks made before any network step: required text fields first, then the image. */
  function CheckSubmit(f: FormFields): (r: Option<FormError>)
    ensures r == None <==> f.name != "" && f.price != "" && f.subCategory != "" && f.imageFile.Some?
    ensures r == Some(MissingFields) <==> f.name == "" || f.price == "" || f.subCategory == ""
    ensures r == Some(MissingImage) <==> f.name != "" && f.price != "" && f.subCategory != "" && f.imageFile.None?
  {
    if f.name == "" || f.price == "" || f.subCategory == "" then Some(MissingFields)
    else if f.imageFile.None? then Some(MissingImage)
    else None
  }

  /** The product record built from the form and the uploaded image. */
  function BuildPayload(f: FormFields, image: UploadedImage): (p: ProductPayload)
    ensures p.name == f.name && p.category == f.category && p.subCategory == f.subCategory
    ensures p.price == Js.ParseInt(f.price)
    ensures p.description == f.description && p.isOnline == f.showOnWebsite
    ensures p.isNewArrival == f.isNewArrival && p.isBestSeller == f.isBestSeller
    ensures p.images == [ImageRef(image.secureUrl, image.publicId)]
  {
    ProductPayload(
      f.name, Js.ParseInt(f.price), f.category, f.subCategory, f.description,
      f.showOnWebsite, f.isNewArrival, f.isBestSeller,
      [ImageRef(image.secureUrl, image.publicId)])
  }

  /** A price typed as plain digits reaches the payload as that number. */
  lemma PayloadPriceOfDigits(f: FormFields, image: UploadedImage)
    requires f.price != "" && Js.AllDigits(f.price)
    ensures BuildPayload(f, image).price == Some(Js.DigitsValue(f.price))
  {
    Js.ParseDigits(f.price);
  }

  /** The fields after a saved product: text, sub-category and image cleared, switches back to their start, category kept. */
  function AfterSave(f: FormFields): (r: FormFields)
    ensures r.category == f.category
    ensures r.name == "" && r.price == "" && r.description == "" && r.subCategory == ""
    ensures r.imagePreview == None && r.imageFile == None
    ensures r.showOnWebsite && !r.isNewArrival && !r.isBestSeller
    ensures CheckSubmit(r) == Some(MissingFields)
  {
    FormFields(f.category, "", "", "", "", true, false, false, None, None)
  }

  class OnlineInventoryForm {
    var selectedCategory: Category
    var selectedSubCategory: string
    var name: string
    var price: string
    var description: string
    var showOnWebsite: bool
    var isNewArrival: bool
    var isBestSeller: bool
    var isSubmitting: bool
    var imagePreview: Option<string>
    var imageFile: Option<ImageFile>

    function Fields(): FormFields
      reads this
    {
      FormFields(selectedCategory, selectedSubCategory, name, price, description,
        showOnWebsite, isNewArrival, isBestSeller, imagePreview, imageFile)
    }

    /**
     * The badges are never both on, a preview is shown exactly while a file is held, and the
     * sub-category is empty or one offered for the category.
     */
    predicate Valid()
      reads this
    {
      && !(isNewArrival && isBestSeller)
      && (imagePreview.Some? <==> imageFile.Some?)
      && SubCategoryFits(selectedSubCategory, selectedCategory)
    }

    constructor()
      ensures Valid() && !isSubmitting
      ensures Fields() == FormFields(Men, "", "", "", "", true, false, false, None, None)
    {
      selectedCategory, selectedSubCategory := Men, "";
      name, price, description := "", "", "";
      showOnWebsite, isNewArrival, isBestSeller := true, false, false;
      isSubmitting, imagePreview, imageFile := false, None, None;
    }

    /** A category chip: picks the category and clears the sub-category. */
    method SelectCategory(c: Category)
      requires Valid()
      modifies this
      ensures Valid()
      ensures Fields() == old(Fields()).(category := c, subCategory := "")
    {
      selectedCategory := c;
      selectedSubCategory := "";
    }

    /** A sub-category chip; the chips offered are those of the selected category. */
    method SelectSubCategory(sub: string)
      requires Valid() && sub in SubCategories(selectedCategory)
      modifies this
      ensures Valid()
      ensures Fields() == old(Fields()).(subCategory := sub)
    {
      selectedSubCategory := sub;
    }

    /** The New Arrival switch; switching it on switches Best Seller off. */
    method SetNewArrival(c: bool)
      requires Valid()
      modifies this
      ensures Valid() && isNewArrival == c
      ensures isBestSeller == (old(isBestSeller) && !c)
      ensures Fields() == old(Fields()).(isNewArrival := isNewArrival, isBestSeller := isBestSeller)
    {
      isNewArrival := c;
      if c {
        isBestSeller := false;
      }
    }

    /** The Best Seller switch; switching it on switches New Arrival off. */
    method SetBestSeller(c: bool)
      requires Valid()
      modifies this
      ensures Valid() && isBestSeller == c
      ensures isNewArrival == (old(isNewArrival) && !c)
      ensures Fields() == old(Fields()).(isNewArrival := isNewArrival, isBestSeller := isBestSeller)
    {
      isBestSeller := c;
      if c {
        isNewArrival := false;
      }
    }

    /**
     * The file input: a picked file of an allowed type is kept and its preview shown (`dataUrl`
     * stands for what the reader produces); any other pick changes nothing.
     */
    method HandleImageChange(file: Option<ImageFile>, dataUrl: string) returns (accepted: bool)
      requires Valid()
      modifies this
      ensures Valid()
      ensures accepted <==> file.Some? && IsAllowedImageType(file.value.mimeType)
      ensures accepted ==> Fields() == old(Fields()).(imageFile := file, imagePreview := Some(dataUrl))
      ensures !accepted ==> Fields() == old(Fields())
    {
      accepted := false;
      if file.Some? {
        if !(file.value.mimeType in AllowedImageTypes) {
          return;
        }
        imageFile := file;
        imagePreview := Some(dataUrl);
        accepted := true;
      }
    }

    method ClearImage()
      requires Valid()
      modifies this
      ensures Valid()
      ensures Fields() == old(Fields()).(imagePreview := None, imageFile := None)
    {
      imagePreview := None;
      imageFile := None;
    }

    /** Replace every field at once, as the reset after a save does. */
    method SetFields(f: FormFields)
      modifies this
      ensures Fields() == f && isSubmitting == old(isSubmitting)
    {
      selectedCategory, selectedSubCategory := f.category, f.subCategory;
      name, price, description := f.name, f.price, f.description;
      showOnWebsite, isNewArrival, isBestSeller := f.showOnWebsite, f.isNewArrival, f.isBestSeller;
      imagePreview, imageFile := f.imagePreview, f.imageFile;
    }

    /** The submit button is disabled while submitting or while a required field or the preview is missing. */
    predicate SubmitDisabled()
      reads this
    {
      isSubmitting || name == "" || price == "" || selectedSubCategory == "" || imagePreview.None?
    }

    /**
     * Submit: the checks first, with nothing changed when one fails; otherwise the network
     * steps, the payload, and the reset once the product is saved.
     */
    method HandleSubmit(network: NetworkOutcome) returns (outcome: SubmitOutcome)
      requires Valid()
      modifies this
      ensures Valid()
      ensures CheckSubmit(old(Fields())).Some? ==>
        outcome == Invalid(CheckSubmit(old(Fields())).value) && Fields() == old(Fields()) && isSubmitting == old(isSubmitting)
      ensures CheckSubmit(old(Fields())).None? ==> !isSubmitting
      ensures CheckSubmit(old(Fields())).None? && network.Uploaded? ==>
        outcome == Posted(BuildPayload(old(Fields()), network.image), network.saved)
      ensures CheckSubmit(old(Fields())).None? && !network.Uploaded? ==> outcome == Aborted
      ensures outcome.Posted? && outcome.saved ==> Fields() == AfterSave(old(Fields()))
      ensures !(outcome.Posted? && outcome.saved) ==> Fields() == old(Fields())
      ensures outcome.Posted? ==> !(outcome.payload.isNewArrival && outcome.payload.isBestSeller)
    {
      var before := Fields();
      var check := CheckSubmit(before);
      if check.Some? {
        return Invalid(check.value);
      }
      isSubmitting := true;
      if !network.Uploaded? {
        outcome := Aborted;
      } else {
        outcome := Posted(BuildPayload(before, network.image), network.saved);
        if network.saved {
          SetFields(AfterSave(before));
        }
      }
      isSubmitting := false;
    }
  }

  /** An enabled submit button always gets past the submit checks. */
  lemma EnabledSubmitPassesChecks(form: OnlineInventoryForm)
    requires form.Valid() && !form.SubmitDisabled()
    ensures CheckSubmit(form.Fields()) == None
  {
  }
}

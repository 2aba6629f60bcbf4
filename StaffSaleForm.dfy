/**
 * The staff's quick "record sale" form: category and sub-category chips, a price, an optional
 * photo, and a submit that checks the required fields and then resets the form.
 */
module StaffSaleForm {
  import opened Wrappers
  import opened Domain

  /** A submit is accepted exactly when a price and a sub-category are given. */
  predicate CanSubmit(price: string, subCategory: string) {
    price != "" && subCategory != ""
  }

  class RecordSaleForm {
    var selectedCategory: Category
    var selectedSubCategory: string
    var price: string
    var isSubmitting: bool
    var imagePreview: Option<string>

    /** The sub-category is empty or one of the chips offered for the category. */
    predicate Valid()
      reads this
    {
      SubCategoryFits(selectedSubCategory, selectedCategory)
    }

    constructor()
      ensures Valid()
      ensures selectedCategory == Men && selectedSubCategory == "" && price == ""
      ensures !isSubmitting && imagePreview == None
    {
      selectedCategory, selectedSubCategory, price := Men, "", "";
      isSubmitting, imagePreview := false, None;
    }

    /** A category chip: picks the category and clears the sub-category. */
    method SelectCategory(c: Category)
      requires Valid()
      modifies this
      ensures Valid()
      ensures selectedCategory == c && selectedSubCategory == ""
      ensures price == old(price) && imagePreview == old(imagePreview) && isSubmitting == old(isSubmitting)
    {
      selectedCategory := c;
      selectedSubCategory := "";
    }

    /** A sub-category chip; the chips offered are those of the selected category. */
    method SelectSubCategory(sub: string)
      requires Valid() && sub in SubCategories(selectedCategory)
      modifies this
      ensures Valid() && selectedSubCategory == sub && sub != ""
      ensures selectedCategory == old(selectedCategory) && price == old(price)
      ensures imagePreview == old(imagePreview) && isSubmitting == old(isSubmitting)
    {
      selectedSubCategory := sub;
    }

    /** The camera input: a captured photo's data URL becomes the preview; no pick changes nothing. */
    method HandleImageCapture(dataUrl: Option<string>)
      modifies this
      ensures dataUrl.Some? ==> imagePreview == dataUrl
      ensures dataUrl.None? ==> imagePreview == old(imagePreview)
      ensures selectedCategory == old(selectedCategory) && selectedSubCategory == old(selectedSubCategory)
      ensures price == old(price) && isSubmitting == old(isSubmitting)
    {
      if dataUrl.Some? {
        imagePreview := dataUrl;
      }
    }

    method ClearImage()
      modifies this
      ensures imagePreview == None
      ensures selectedCategory == old(selectedCategory) && selectedSubCategory == old(selectedSubCategory)
      ensures price == old(price) && isSubmitting == old(isSubmitting)
    {
      imagePreview := None;
    }

    /** The submit button is disabled while submitting or while price or sub-category is empty. */
    predicate SubmitDisabled()
      reads this
    {
      isSubmitting || price == "" || selectedSubCategory == ""
    }

    /**
     * Submit: rejected, with the form untouched, when price or sub-category is empty; otherwise
     * the sale is recorded and price, sub-category and photo are cleared, the category kept.
     */
    method HandleSubmit() returns (accepted: bool)
      requires Valid()
      modifies this
      ensures Valid()
      ensures accepted <==> CanSubmit(old(price), old(selectedSubCategory))
      ensures !accepted ==> (price == old(price) && selectedSubCategory == old(selectedSubCategory)
                             && imagePreview == old(imagePreview) && isSubmitting == old(isSubmitting))
      ensures accepted ==> price == "" && selectedSubCategory == "" && imagePreview == None && !isSubmitting
      ensures selectedCategory == old(selectedCategory)
      ensures accepted ==> SubmitDisabled()
    {
      if price == "" || selectedSubCategory == "" {
        return false;
      }
      isSubmitting := true;
      price := "";
      selectedSubCategory := "";
      imagePreview := None;
      isSubmitting := false;
      accepted := true;
    }
  }

  /** The button is enabled exactly when a submit would be accepted and none is running. */
  lemma EnabledIffAccepted(form: RecordSaleForm)
    ensures !form.SubmitDisabled() <==> !form.isSubmitting && CanSubmit(form.price, form.selectedSubCategory)
  {
  }
}

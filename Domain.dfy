/** Enumerations shared by the shop's forms: payment modes, garment categories and their sub-categories. */
module Domain {

  /** The settlement channel of an amount paid now. */
  datatype PaymentMode = Cash | Online

  /** The three top-level garment categories offered by the forms' category chips. */
  datatype Category = Men | Women | Kids

  /** The sub-categories offered for each category (the static `categories` table). */
  function SubCategories(c: Category): (subs: seq<string>)
    ensures |subs| >= 5
    ensures forall i :: 0 <= i < |subs| ==> subs[i] != ""
  {
    match c
    case Men => ["Shirt", "Pant", "Kurta", "Sherwani", "Jacket", "Suit"]
    case Women => ["Saree", "Suit", "Kurti", "Lehenga", "Dress", "Palazzo"]
    case Kids => ["Kurta", "Dress", "Ethnic", "Casual", "Party Wear"]
  }

  /** The sub-category field holds nothing yet, or one of the chips offered for the category. */
  predicate SubCategoryFits(sub: string, c: Category) {
    sub == "" || sub in SubCategories(c)
  }
}

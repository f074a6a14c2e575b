/**
  The property form and the button handler around the fairness rule. A
  listing carries every field the form collects; the handler reads only the
  price and the category text.
*/
module Form {
  import opened Fairness

  /** One form submission: the values of every input widget. */
  datatype Listing = Listing(
    bedrooms: int,
    bathrooms: int,
    toilets: int,
    parking: int,
    furnished: string,
    serviced: string,
    shared: string,
    price: int,
    propertyType: string,
    category: string,
    state: string,
    locality: string)

  const MinPrice: int := 1000
  const MaxCount: int := 10

  /** A room or parking count the number inputs accept. */
  predicate CountInRange(n: int)
  {
    0 <= n <= MaxCount
  }

  /** A value of a "No" / "Yes" selector. */
  predicate IsYesNo(s: string)
  {
    s == "No" || s == "Yes"
  }

  /** The values the form's widgets can deliver. The locality is free text. */
  function InWidgetRange(l: Listing): (ok: bool)
    ensures ok ==> l.price > 0
    ensures ok ==> (CategoryOf(l.category) == ForSale <==> l.category == "For Sale")
  {
    && CountInRange(l.bedrooms)
    && CountInRange(l.bathrooms)
    && CountInRange(l.toilets)
    && CountInRange(l.parking)
    && IsYesNo(l.furnished)
    && IsYesNo(l.serviced)
    && IsYesNo(l.shared)
    && l.price >= MinPrice
    && (l.propertyType == "House" || l.propertyType == "Apartment")
    && (l.category == RentText || l.category == "For Sale")
    && (l.state == "Nairobi" || l.state == "Kiambu" || l.state == "Kajiado" || l.state == "Mombasa")
  }

  /**
    What pressing the analyse button computes for a submission: the
    handler's classification of the listed price in its category.
  */
  function Analyze(l: Listing): (r: Classification)
    requires InWidgetRange(l)
    ensures r == Classify(l.price, CategoryOf(l.category))
    ensures r.deviation > -1.0
  {
    var avg := ReferenceAverage(CategoryOf(l.category));
    // (deviation + 1) * avg == price > 0, so deviation + 1 > 0
    ProductSign(Deviation(l.price, avg) + 1.0, avg as real);
    assert (Deviation(l.price, avg) + 1.0) * avg as real == l.price as real;
    ClassifyAsWritten(l.price, l.category)
  }

  /**
    Two submissions with the same price and category text get the same
    verdict and deviation, whatever their rooms, amenities, property type,
    state or locality.
  */
  lemma AnalyzeIgnoresOtherFields(l1: Listing, l2: Listing)
    requires InWidgetRange(l1) && InWidgetRange(l2)
    requires l1.price == l2.price && l1.category == l2.category
    ensures Analyze(l1) == Analyze(l2)
  {
  }

  /** Changing only the descriptive fields of a submission leaves the result unchanged. */
  lemma AnalyzeAfterEdit(l: Listing, bedrooms: int, bathrooms: int, toilets: int, parking: int,
                         furnished: string, serviced: string, shared: string,
                         propertyType: string, state: string, locality: string)
    requires InWidgetRange(l)
    requires InWidgetRange(l.(bedrooms := bedrooms, bathrooms := bathrooms, toilets := toilets,
                              parking := parking, furnished := furnished, serviced := serviced,
                              shared := shared, propertyType := propertyType, state := state,
                              locality := locality))
    ensures Analyze(l.(bedrooms := bedrooms, bathrooms := bathrooms, toilets := toilets,
                       parking := parking, furnished := furnished, serviced := serviced,
                       shared := shared, propertyType := propertyType, state := state,
                       locality := locality)) == Analyze(l)
  {
  }
}

/** The three drink categories the wizards offer, and the tag lists they show per category. */
module Categories {

  datatype Category = Beer | Wine | RTD

  /** `fallbackTags[c]`, the lists shown while the API has no tags. */
  function Fallback(c: Category): seq<string> {
    match c
    case Beer => ["Lager", "IPA", "Stout", "Wheat Beer", "Light Beer", "Pilsner"]
    case Wine => ["Chardonnay", "Pinot Noir", "Cabernet Sauvignon", "Pinot Grigio", "Merlot", "Sauvignon Blanc", "Prosecco"]
    case RTD => ["Hard Seltzer", "Vodka Mix", "Margarita", "Mojito", "Flavored Malt"]
  }

  /**
   * The tag list kept for `c` once `fetchCategoryTags` has finished:
   * the API's `tags` when the call succeeded with a non-empty list
   * (`api` holds no entry for a failed call or a missing `tags` field),
   * otherwise the fallback list. Either way the list is never empty, so a
   * selected category never stays on "Loading ... types".
   */
  function TagsFor(api: map<Category, seq<string>>, c: Category): (tags: seq<string>)
    ensures |tags| > 0
    ensures c in api && |api[c]| > 0 ==> tags == api[c]
    ensures !(c in api && |api[c]| > 0) ==> tags == Fallback(c)
  {
    if c in api && |api[c]| > 0 then api[c] else Fallback(c)
  }

  /** `newCategoryTags`: one entry per requested category and no other. */
  function CategoryTags(api: map<Category, seq<string>>, cats: seq<Category>): (m: map<Category, seq<string>>)
    ensures m.Keys == set c | c in cats
    ensures forall c :: c in m ==> m[c] == TagsFor(api, c) && |m[c]| > 0
  {
    map c | c in cats :: TagsFor(api, c)
  }
}

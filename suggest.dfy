/** The type-ahead suggestion endpoint: like the listing search, but a
    category named by the query text wins over an explicit category, the text
    is always matched as an escaped substring, and at most eight listings come
    back, in collection order. */
module Suggest {
  import opened Wrappers
  import opened Text
  import opened Seqs
  import opened JsValues
  import opened ListingModel
  import opened QueryParsing
  import opened Filtering

  const SuggestLimit: nat := 8

  datatype SuggestRequest = SuggestRequest(
    q: Option<string>,
    category: Option<string>,
    minPrice: Option<string>,
    maxPrice: Option<string>)

  /** The category and the remaining search text, as `SuggestCategoryMeaning`
      states them: the category is a valid one or none, the text is the whole
      query or nothing, and the text survives beside a category only when that
      category is the requested one. */
  function SuggestCategory(requested: string, q: string): (r: (string, string))
    ensures r.0 == "" || IsCategory(r.0)
    ensures r.1 == "" || r.1 == q
    ensures r.0 != "" && r.1 != "" ==> r.0 == requested
  {
    match FindIgnoringCase(Categories, q)
    case Some(c) => (c, "")
    case None => (if IsCategory(requested) then requested else "", q)
  }

  /** A query naming a category (ignoring case) selects that category, in its
      canonical spelling, and clears the text, whatever category was requested;
      otherwise an exactly valid requested category is kept and the text is
      searched. */
  lemma SuggestCategoryMeaning(requested: string, q: string)
    ensures (exists c :: c in Categories && EqualsIgnoringCase(c, q)) ==>
      IsCategory(SuggestCategory(requested, q).0) &&
      EqualsIgnoringCase(SuggestCategory(requested, q).0, q) &&
      SuggestCategory(requested, q).1 == ""
    ensures (forall c :: c in Categories ==> !EqualsIgnoringCase(c, q)) ==>
      SuggestCategory(requested, q) == (if IsCategory(requested) then requested else "", q)
  {
  }

  /** The filter for a query of at least two characters: the category, the
      escaped substring predicate when text remains, the price range of the
      bounds that are present. Never full-text, never restricted by id. */
  function SuggestFilter(req: SuggestRequest, toNumber: string -> JsNumber): (f: FilterSpec)
    ensures !f.text.FullText? && f.ids.None?
    ensures var cq := SuggestCategory(Trim(req.category.GetOr("")), Trim(req.q.GetOr("")));
      (f.category.Some? <==> cq.0 != "") && (f.category.Some? ==> f.category.value == cq.0) &&
      f.text == (if cq.1 == "" then NoText else Substring(EscapeRegex(cq.1)))
    ensures var bounds := OrderBounds(ParsePrice(req.minPrice, toNumber), ParsePrice(req.maxPrice, toNumber));
      (f.price.Some? <==> bounds.0.Some? || bounds.1.Some?) &&
      (f.price.Some? ==> f.price.value == PriceRange(bounds.0, bounds.1))
    ensures f.price.Some? ==>
      (f.price.value.gte.Some? && f.price.value.lte.Some? ==> f.price.value.gte.value <= f.price.value.lte.value)
  {
    var q := Trim(req.q.GetOr(""));
    var cq := SuggestCategory(Trim(req.category.GetOr("")), q);
    var bounds := OrderBounds(ParsePrice(req.minPrice, toNumber), ParsePrice(req.maxPrice, toNumber));
    FilterFor(cq.0, cq.1, bounds.0, bounds.1)
  }

  /** The suggestion filter for a resolved category, remaining text and price bounds. */
  function FilterFor(category: string, text: string, minPrice: Option<real>, maxPrice: Option<real>): FilterSpec {
    FilterSpec(
      if category == "" then None else Some(category),
      if minPrice.Some? || maxPrice.Some? then Some(PriceRange(minPrice, maxPrice)) else None,
      if text == "" then NoText else Substring(EscapeRegex(text)),
      None)
  }

  /** One of the four searched fields contains `text`, ignoring case. */
  predicate FieldContains(l: Listing, text: string) {
    Contains(Lower(l.title), Lower(text)) || Contains(Lower(l.location), Lower(text)) ||
    Contains(Lower(l.country), Lower(text)) || Contains(Lower(l.category), Lower(text))
  }

  lemma FilterForMeaning(category: string, text: string, minPrice: Option<real>, maxPrice: Option<real>,
                         textHit: (string, Listing) -> bool, l: Listing)
    ensures Matches(FilterFor(category, text, minPrice, maxPrice), l, textHit) <==>
      (category != "" ==> l.category == category) &&
      (text != "" ==>
        FieldContains(l, text)) &&
      (minPrice.Some? ==> minPrice.value <= l.price) &&
      (maxPrice.Some? ==> l.price <= maxPrice.value)
  {
    var f := FilterFor(category, text, minPrice, maxPrice);
    if text == "" {
      assert f.text == NoText;
    } else {
      assert f.text == Substring(EscapeRegex(text));
      SubstringMatchesLiteral(text, l);
    }
    if minPrice.Some? || maxPrice.Some? {
      assert f.price == Some(PriceRange(minPrice, maxPrice));
    }
  }

  /** What a suggestion has in common with the request: a listing passes
      the suggestion filter exactly when it has the resolved category (if
      any), one of its four fields contains the remaining text ignoring case
      (if any), and its price lies within the ordered bounds that are present. */
  lemma SuggestFilterMeaning(req: SuggestRequest, toNumber: string -> JsNumber,
                             textHit: (string, Listing) -> bool, l: Listing)
    ensures
      var cq := SuggestCategory(Trim(req.category.GetOr("")), Trim(req.q.GetOr("")));
      var bounds := OrderBounds(ParsePrice(req.minPrice, toNumber), ParsePrice(req.maxPrice, toNumber));
      Matches(SuggestFilter(req, toNumber), l, textHit) <==>
        (cq.0 != "" ==> l.category == cq.0) &&
        (cq.1 != "" ==> FieldContains(l, cq.1)) &&
        (bounds.0.Some? ==> bounds.0.value <= l.price) &&
        (bounds.1.Some? ==> l.price <= bounds.1.value)
  {
    var cq := SuggestCategory(Trim(req.category.GetOr("")), Trim(req.q.GetOr("")));
    var bounds := OrderBounds(ParsePrice(req.minPrice, toNumber), ParsePrice(req.maxPrice, toNumber));
    var f := FilterFor(cq.0, cq.1, bounds.0, bounds.1);
    assert SuggestFilter(req, toNumber) == f;
    FilterForMeaning(cq.0, cq.1, bounds.0, bounds.1, textHit, l);
    assert Matches(SuggestFilter(req, toNumber), l, textHit) == Matches(f, l, textHit);
  }

  /** `GET /listings/suggest`: nothing for a query under two characters,
      otherwise the first eight matching listings in collection order. */
  method SuggestListings(req: SuggestRequest, collection: seq<Listing>, toNumber: string -> JsNumber,
                         textHit: (string, Listing) -> bool)
    returns (results: seq<Listing>)
    ensures |Trim(req.q.GetOr(""))| < 2 ==> results == []
    ensures |Trim(req.q.GetOr(""))| >= 2 ==>
      results == Take(Matching(SuggestFilter(req, toNumber), collection, textHit), SuggestLimit)
  {
    var q := Trim(req.q.GetOr(""));
    if |q| < 2 {
      return [];
    }
    var requestedCategory := Trim(req.category.GetOr(""));
    var bounds := OrderBounds(ParsePrice(req.minPrice, toNumber), ParsePrice(req.maxPrice, toNumber));
    var minPrice, maxPrice := bounds.0, bounds.1;
    var resolved := SuggestCategory(requestedCategory, q);
    var finalCategory, qSearch := resolved.0, resolved.1;

    var filter := FilterSpec(None, None, NoText, None);
    if finalCategory != "" {
      filter := filter.(category := Some(finalCategory));
    }
    if |qSearch| > 0 {
      filter := filter.(text := Substring(EscapeRegex(qSearch)));
    }
    if minPrice.Some? || maxPrice.Some? {
      filter := filter.(price := Some(PriceRange(minPrice, maxPrice)));
    }
    results := Take(Matching(filter, collection, textHit), SuggestLimit);
  }

  /** There are at most eight suggestions, each a listing of the collection
      that the filter accepts; fewer than eight only when no other listing matches. */
  lemma SuggestionsMatch(req: SuggestRequest, collection: seq<Listing>, toNumber: string -> JsNumber,
                         textHit: (string, Listing) -> bool)
    ensures
      var f := SuggestFilter(req, toNumber);
      var s := Take(Matching(f, collection, textHit), SuggestLimit);
      |s| <= SuggestLimit &&
      (forall l :: l in s ==> l in collection && Matches(f, l, textHit)) &&
      (|s| < SuggestLimit ==> s == Matching(f, collection, textHit))
  {
    var f := SuggestFilter(req, toNumber);
    var m := Matching(f, collection, textHit);
    var s := Take(m, SuggestLimit);
    forall l | l in s ensures l in collection && Matches(f, l, textHit) {
      assert l in m;
    }
  }

  /** With a valid explicit category and a query naming a category, the
      suggestions switch to the named one and search no text. */
  lemma QueryCategoryOverrides(requested: string, q: string, c: string)
    requires IsCategory(requested) && c in Categories && EqualsIgnoringCase(c, q)
    ensures SuggestCategory(requested, q).1 == ""
    ensures EqualsIgnoringCase(SuggestCategory(requested, q).0, q)
  {
    SuggestCategoryMeaning(requested, q);
  }
}

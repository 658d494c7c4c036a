/** The listing search request handler: untrusted query parameters become a
    filter, an ordering and a page window; plus saving and unsaving a listing
    and the test for images held by the image host. */
module Listings {
  import opened Wrappers
  import opened Text
  import opened Seqs
  import opened Ordering
  import opened JsValues
  import opened ListingModel
  import opened QueryParsing
  import opened Filtering
  import opened UserModel

  /** Listings per page. */
  const PageSize: nat := 50

  datatype SortKey = Newest | PriceAsc | PriceDesc | RatingDesc

  function SortKeyName(k: SortKey): string {
    match k
    case Newest => "newest"
    case PriceAsc => "priceAsc"
    case PriceDesc => "priceDesc"
    case RatingDesc => "ratingDesc"
  }

  /** The query string of a search request; `None` is "parameter absent".
      `page` is what `parseInt(page, 10)` gives, `None` standing for `NaN`. */
  datatype SearchRequest = SearchRequest(
    q: Option<string>,
    category: Option<string>,
    page: Option<int>,
    saved: Option<string>,
    sort: Option<string>,
    minPrice: Option<string>,
    maxPrice: Option<string>)

  /** The signed-in user, with the ids of the listings they saved. */
  datatype Viewer = Viewer(id: Id, savedListings: seq<Id>)

  /** What is sent to the store: filter, ordering, skip and limit. */
  datatype StoreQuery = StoreQuery(filter: FilterSpec, order: seq<SortTerm>, skip: nat, limit: nat)

  /** What the index page is rendered with. `query` is the store query that
      produced `listings`, or `None` when the store was not asked. */
  datatype IndexView = IndexView(
    listings: seq<Listing>,
    q: string,
    category: string,
    minPrice: Option<real>,
    maxPrice: Option<real>,
    savedIds: seq<Id>,
    sort: SortKey,
    savedOnly: bool,
    page: nat,
    totalPages: nat,
    totalCount: nat,
    rangeStart: nat,
    rangeEnd: nat,
    query: Option<StoreQuery>)

  datatype IndexOutcome = LoginRedirect(flash: string) | Rendered(view: IndexView)

  // ---------------------------------------------------------------------------
  // Specification of each step of the pipeline

  /** An unknown or absent sort selector becomes "newest"; a known one, after
      trimming, is taken as it is. */
  function ParseSortKey(raw: Option<string>): (k: SortKey)
    ensures k == Newest || (raw.Some? && Trim(raw.value) == SortKeyName(k))
    ensures raw.Some? && Trim(raw.value) in ["newest", "priceAsc", "priceDesc", "ratingDesc"] ==>
      SortKeyName(k) == Trim(raw.value)
  {
    if raw.None? || raw.value == "" then Newest  // the fallback "newest"
    else
    var s := Trim(raw.value);
    if s == "priceAsc" then PriceAsc
    else if s == "priceDesc" then PriceDesc
    else if s == "ratingDesc" then RatingDesc
    else Newest
  }

  /** `Math.max(1, parseInt(page, 10) || 1)`: at least 1; the parsed number
      when that is at least 1. */
  function RequestedPage(parsed: Option<int>): (p: int)
    ensures p >= 1
    ensures parsed.Some? && parsed.value >= 1 ==> p == parsed.value
    ensures parsed.None? || parsed.value < 1 ==> p == 1
  {
    var n := if parsed.Some? && parsed.value != 0 then parsed.value else 1;
    Max(1, n)
  }

  /** Category resolution. A requested category is kept only on an exact,
      case-sensitive match with the enumeration. Without one, a query text
      equal to a category ignoring case becomes that category, in its canonical
      spelling, and the text search is cleared. Result: (category, text). */
  function ResolveCategory(requested: string, q: string): (r: (string, string))
    ensures r.0 == "" || IsCategory(r.0)
    ensures IsCategory(requested) ==> r == (requested, q)
    ensures !IsCategory(requested) && q != "" && (exists c :: c in Categories && EqualsIgnoringCase(c, q)) ==>
      IsCategory(r.0) && EqualsIgnoringCase(r.0, q) && r.1 == ""
    ensures !IsCategory(requested) && (q == "" || forall c :: c in Categories ==> !EqualsIgnoringCase(c, q)) ==>
      r == ("", q)
  {
    if IsCategory(requested) then (requested, q)
    else if q == "" then ("", q)
    else
      match FindIgnoringCase(Categories, q)
      case Some(c) => (c, "")
      case None => ("", q)
  }

  /** The text strategy: no predicate for empty text, an escaped
      case-insensitive substring match for one or two characters, full-text
      search from three characters on. */
  function TextPredicateFor(qSearch: string): (t: TextPredicate)
    ensures t.NoText? <==> qSearch == ""
    ensures t.Substring? <==> 1 <= |qSearch| <= 2
    ensures t.FullText? <==> |qSearch| >= 3
    ensures t.Substring? ==> t.pattern == EscapeRegex(qSearch)
    ensures t.FullText? ==> t.search == qSearch
  {
    if |qSearch| == 0 then NoText
    else if |qSearch| >= 3 then FullText(qSearch)
    else Substring(EscapeRegex(qSearch))
  }

  /** The filter: category equality when a category was resolved, a price
      range holding exactly the bounds that are present (none when both are
      absent), the text predicate, and id membership for the saved-only view. */
  function BuildFilter(category: string, minPrice: Option<real>, maxPrice: Option<real>,
                       qSearch: string, ids: Option<seq<Id>>): (f: FilterSpec)
    ensures f.category.Some? <==> category != ""
    ensures f.category.Some? ==> f.category.value == category
    ensures f.price.Some? <==> minPrice.Some? || maxPrice.Some?
    ensures f.price.Some? ==> f.price.value.gte == minPrice && f.price.value.lte == maxPrice
    ensures f.text == TextPredicateFor(qSearch)
    ensures f.ids == ids
  {
    FilterSpec(
      if category == "" then None else Some(category),
      if minPrice.Some? || maxPrice.Some? then Some(PriceRange(minPrice, maxPrice)) else None,
      TextPredicateFor(qSearch),
      ids)
  }

  /** The ordering for a sort key; relevance replaces it when asked for.
      Every ordering ends with id descending as the tie-breaker. */
  function OrderFor(key: SortKey, relevance: bool): (o: seq<SortTerm>)
    ensures |o| >= 1 && o[|o| - 1] == SortTerm(IdField, Descending)
    ensures o[0].field == ScoreField <==> relevance
    ensures relevance ==> o == [SortTerm(ScoreField, Descending), SortTerm(IdField, Descending)]
    ensures !relevance && key == Newest ==> o == [SortTerm(IdField, Descending)]
    ensures !relevance && key == PriceAsc ==> o == [SortTerm(PriceField, Ascending), SortTerm(IdField, Descending)]
    ensures !relevance && key == PriceDesc ==> o == [SortTerm(PriceField, Descending), SortTerm(IdField, Descending)]
    ensures !relevance && key == RatingDesc ==>
      o == [SortTerm(RatingAvgField, Descending), SortTerm(RatingCountField, Descending), SortTerm(IdField, Descending)]
  {
    if relevance then [SortTerm(ScoreField, Descending), SortTerm(IdField, Descending)]
    else match key
      case Newest => [SortTerm(IdField, Descending)]
      case PriceAsc => [SortTerm(PriceField, Ascending), SortTerm(IdField, Descending)]
      case PriceDesc => [SortTerm(PriceField, Descending), SortTerm(IdField, Descending)]
      case RatingDesc => [SortTerm(RatingAvgField, Descending), SortTerm(RatingCountField, Descending), SortTerm(IdField, Descending)]
  }

  /** Relevance ordering is used exactly when the filter is a full-text search
      and the sort key is "newest". */
  predicate UseRelevance(f: FilterSpec, key: SortKey) {
    f.text.FullText? && key == Newest
  }

  datatype Pagination = Pagination(page: nat, totalPages: nat, skip: nat)

  /** Page clamping: `totalPages = max(1, ceil(count / 50))`, the page is the
      requested one capped at `totalPages`, and `skip = (page - 1) * 50`. A
      non-empty result never starts beyond its last row. */
  function Paginate(requested: int, count: nat): (p: Pagination)
    requires requested >= 1
    ensures p.totalPages >= 1
    ensures count == 0 ==> p.totalPages == 1
    ensures count > 0 ==> (p.totalPages - 1) * PageSize < count <= p.totalPages * PageSize
    ensures p.page == Min(requested, p.totalPages) && 1 <= p.page <= p.totalPages
    ensures p.skip == (p.page - 1) * PageSize
    ensures count > 0 ==> p.skip < count
  {
    var totalPages := Max(1, (count + PageSize - 1) / PageSize);
    var page := Min(requested, totalPages);
    Pagination(page, totalPages, (page - 1) * PageSize)
  }

  /** The 1-based display range: both 0 for an empty result, otherwise the
      first and last row number of the page. */
  function DisplayRange(count: nat, skip: nat, returned: nat): (r: (nat, nat))
    ensures count == 0 ==> r == (0, 0)
    ensures count > 0 ==> r.0 == skip + 1 && r.1 == skip + returned
  {
    if count == 0 then (0, 0) else (skip + 1, skip + returned)
  }

  /** On a page the paginator produced, the display range lies within the
      count and spans exactly the rows the store returned. */
  lemma DisplayRangeWithinCount(requested: int, count: nat)
    requires requested >= 1
    ensures
      var p := Paginate(requested, count);
      var returned := Min(PageSize, Max(0, count - p.skip));
      var r := DisplayRange(count, p.skip, returned);
      r.1 <= count &&
      (count > 0 ==> 1 <= r.0 <= r.1 && r.1 - r.0 + 1 == returned)
  {
  }

  predicate SavedOnly(req: SearchRequest) {
    req.saved.GetOr("") == "1"
  }

  function SavedIdsOf(viewer: Option<Viewer>): seq<Id> {
    if viewer.Some? then viewer.value.savedListings else []
  }

  /** The request after normalisation: trimmed text, resolved category and
      search text, ordered price bounds, sort key, requested page, saved flag. */
  datatype Resolved = Resolved(
    q: string, category: string, qSearch: string,
    minPrice: Option<real>, maxPrice: Option<real>,
    sortKey: SortKey, page: int, savedOnly: bool)

  function Resolve(req: SearchRequest, toNumber: string -> JsNumber): (r: Resolved)
    ensures r.page >= 1
    ensures r.savedOnly == SavedOnly(req)
  {
    var q := Trim(req.q.GetOr(""));
    var cq := ResolveCategory(Trim(req.category.GetOr("")), q);
    var bounds := OrderBounds(ParsePrice(req.minPrice, toNumber), ParsePrice(req.maxPrice, toNumber));
    Resolved(q, cq.0, cq.1, bounds.0, bounds.1, ParseSortKey(req.sort),
             RequestedPage(req.page), SavedOnly(req))
  }

  /** The normalised request has non-negative prices in order and an empty
      or valid category. */
  lemma ResolvedRequestNormalised(req: SearchRequest, toNumber: string -> JsNumber)
    ensures
      var r := Resolve(req, toNumber);
      (r.minPrice.Some? ==> r.minPrice.value >= 0.0) &&
      (r.maxPrice.Some? ==> r.maxPrice.value >= 0.0) &&
      (r.minPrice.Some? && r.maxPrice.Some? ==> r.minPrice.value <= r.maxPrice.value) &&
      (r.category == "" || IsCategory(r.category))
  {
    var lo, hi := ParsePrice(req.minPrice, toNumber), ParsePrice(req.maxPrice, toNumber);
    var bounds := OrderBounds(lo, hi);
    assert bounds == (if lo.Some? && hi.Some? && lo.value > hi.value then (hi, lo) else (lo, hi));
    var cq := ResolveCategory(Trim(req.category.GetOr("")), Trim(req.q.GetOr("")));
    assert cq.0 == "" || IsCategory(cq.0);
  }

  // ---------------------------------------------------------------------------
  // The handler

  /** `indexListing`. The collection, the store's full-text matcher and its
      relevance score are parameters; `toNumber` stands for `Number(...)`. */
  method IndexListing(req: SearchRequest, viewer: Option<Viewer>, collection: seq<Listing>,
                      toNumber: string -> JsNumber, textHit: (string, Listing) -> bool,
                      score: Id -> real)
    returns (out: IndexOutcome)
    ensures out.LoginRedirect? <==> SavedOnly(req) && viewer.None?
    ensures out.Rendered? ==>
      var r := Resolve(req, toNumber);
      var v := out.view;
      v.q == r.q && v.category == r.category &&
      v.minPrice == r.minPrice && v.maxPrice == r.maxPrice &&
      v.sort == r.sortKey && v.savedOnly == r.savedOnly && v.savedIds == SavedIdsOf(viewer)
    ensures out.Rendered? ==>
      (out.view.query.None? <==> SavedOnly(req) && SavedIdsOf(viewer) == [])
    ensures out.Rendered? && out.view.query.None? ==>
      var v := out.view;
      v.listings == [] && v.page == 1 && v.totalPages == 1 && v.totalCount == 0 &&
      v.rangeStart == 0 && v.rangeEnd == 0
    ensures out.Rendered? && out.view.query.Some? ==>
      var r := Resolve(req, toNumber);
      var v := out.view;
      var sq := v.query.value;
      sq.filter == BuildFilter(r.category, r.minPrice, r.maxPrice, r.qSearch,
                               if r.savedOnly then Some(SavedIdsOf(viewer)) else None) &&
      sq.order == OrderFor(r.sortKey, UseRelevance(sq.filter, r.sortKey)) &&
      v.totalCount == CountMatching(sq.filter, collection, textHit) &&
      Paginate(r.page, v.totalCount) == Pagination(v.page, v.totalPages, sq.skip) &&
      sq.limit == PageSize &&
      v.listings == FindPage(sq.filter, sq.order, collection, textHit, score, sq.skip, PageSize) &&
      (v.rangeStart, v.rangeEnd) == DisplayRange(v.totalCount, sq.skip, |v.listings|)
  {
    var r := Resolve(req, toNumber);
    out := Render(r, viewer, collection, textHit, score);
  }

  /** The handler once the request is resolved: the saved-only checks, then
      the store query and the page it returns. */
  method Render(r: Resolved, viewer: Option<Viewer>, collection: seq<Listing>,
                textHit: (string, Listing) -> bool, score: Id -> real)
    returns (out: IndexOutcome)
    requires r.page >= 1
    ensures out.LoginRedirect? <==> r.savedOnly && viewer.None?
    ensures out.Rendered? ==>
      var v := out.view;
      v.q == r.q && v.category == r.category &&
      v.minPrice == r.minPrice && v.maxPrice == r.maxPrice &&
      v.sort == r.sortKey && v.savedOnly == r.savedOnly && v.savedIds == SavedIdsOf(viewer)
    ensures out.Rendered? ==>
      (out.view.query.None? <==> r.savedOnly && SavedIdsOf(viewer) == [])
    ensures out.Rendered? && out.view.query.None? ==>
      var v := out.view;
      v.listings == [] && v.page == 1 && v.totalPages == 1 && v.totalCount == 0 &&
      v.rangeStart == 0 && v.rangeEnd == 0
    ensures out.Rendered? && out.view.query.Some? ==>
      var v := out.view;
      var sq := v.query.value;
      sq.filter == BuildFilter(r.category, r.minPrice, r.maxPrice, r.qSearch,
                               if r.savedOnly then Some(SavedIdsOf(viewer)) else None) &&
      sq.order == OrderFor(r.sortKey, UseRelevance(sq.filter, r.sortKey)) &&
      v.totalCount == CountMatching(sq.filter, collection, textHit) &&
      Paginate(r.page, v.totalCount) == Pagination(v.page, v.totalPages, sq.skip) &&
      sq.limit == PageSize &&
      v.listings == FindPage(sq.filter, sq.order, collection, textHit, score, sq.skip, PageSize) &&
      (v.rangeStart, v.rangeEnd) == DisplayRange(v.totalCount, sq.skip, |v.listings|)
  {
    var q, category, qSearch := r.q, r.category, r.qSearch;
    var minPrice, maxPrice := r.minPrice, r.maxPrice;
    var page, savedOnly, sortKey := r.page, r.savedOnly, r.sortKey;

    var filter := BuildFilter(category, minPrice, maxPrice, qSearch, None);

    var savedIds := SavedIdsOf(viewer);

    if savedOnly && viewer.None? {
      return LoginRedirect("Please log in to view saved listings.");
    }

    if savedOnly {
      filter := filter.(ids := Some(savedIds));
      if savedIds == [] {
        return Rendered(IndexView([], q, category, minPrice, maxPrice, savedIds, sortKey, savedOnly,
                                  1, 1, 0, 0, 0, None));
      }
    }

    assert filter == BuildFilter(category, minPrice, maxPrice, qSearch, if savedOnly then Some(savedIds) else None);
    var view := QueryPage(r, savedIds, filter, collection, textHit, score);
    out := Rendered(view);
  }

  /** The store query of the handler for the resolved request `r` and the
      built `filter`, and the page it renders. */
  method QueryPage(r: Resolved, savedIds: seq<Id>, filter: FilterSpec, collection: seq<Listing>,
                   textHit: (string, Listing) -> bool, score: Id -> real)
    returns (v: IndexView)
    requires r.page >= 1
    ensures v.q == r.q && v.category == r.category &&
      v.minPrice == r.minPrice && v.maxPrice == r.maxPrice &&
      v.sort == r.sortKey && v.savedOnly == r.savedOnly && v.savedIds == savedIds
    ensures v.query.Some?
    ensures
      var sq := v.query.value;
      sq.filter == filter &&
      sq.order == OrderFor(r.sortKey, UseRelevance(filter, r.sortKey)) &&
      v.totalCount == CountMatching(filter, collection, textHit) &&
      Paginate(r.page, v.totalCount) == Pagination(v.page, v.totalPages, sq.skip) &&
      sq.limit == PageSize &&
      v.listings == FindPage(filter, sq.order, collection, textHit, score, sq.skip, PageSize) &&
      (v.rangeStart, v.rangeEnd) == DisplayRange(v.totalCount, sq.skip, |v.listings|)
  {
    var useRelevance := filter.text.FullText? && r.sortKey == Newest;
    var order := SortOrder(r.sortKey, useRelevance);

    var listings, pagination, totalCount := RunQuery(filter, order, r.page, collection, textHit, score);
    var range := DisplayRange(totalCount, pagination.skip, |listings|);

    v := IndexView(listings, r.q, r.category, r.minPrice, r.maxPrice, savedIds, r.sortKey, r.savedOnly,
                   pagination.page, pagination.totalPages, totalCount, range.0, range.1,
                   Some(StoreQuery(filter, order, pagination.skip, PageSize)));
  }

  /** The handler's ordering: the sort key's terms, replaced by relevance
      when asked for. */
  method SortOrder(sortKey: SortKey, useRelevance: bool) returns (order: seq<SortTerm>)
    ensures order == OrderFor(sortKey, useRelevance)
  {
    order := [SortTerm(IdField, Descending)];
    if sortKey == PriceAsc { order := [SortTerm(PriceField, Ascending), SortTerm(IdField, Descending)]; }
    if sortKey == PriceDesc { order := [SortTerm(PriceField, Descending), SortTerm(IdField, Descending)]; }
    if sortKey == RatingDesc {
      order := [SortTerm(RatingAvgField, Descending), SortTerm(RatingCountField, Descending), SortTerm(IdField, Descending)];
    }
    if useRelevance { order := [SortTerm(ScoreField, Descending), SortTerm(IdField, Descending)]; }
  }

  /** The store's side of the handler: the count of matches, the page it
      allows, and that page's listings. */
  method RunQuery(filter: FilterSpec, order: seq<SortTerm>, requested: int, collection: seq<Listing>,
                  textHit: (string, Listing) -> bool, score: Id -> real)
    returns (listings: seq<Listing>, pagination: Pagination, totalCount: nat)
    requires requested >= 1
    ensures totalCount == CountMatching(filter, collection, textHit)
    ensures pagination == Paginate(requested, totalCount)
    ensures listings == FindPage(filter, order, collection, textHit, score, pagination.skip, PageSize)
  {
    totalCount := CountMatching(filter, collection, textHit);
    pagination := Paginate(requested, totalCount);
    listings := FindPage(filter, order, collection, textHit, score, pagination.skip, PageSize);
  }

  // ---------------------------------------------------------------------------
  // Properties of the pipeline

  /** A listing the built filter accepts satisfies the request: the resolved
      category, both price bounds, the saved-id restriction, for a short query
      the literal text in one of the four searched fields, and for a longer
      one the store's full-text match. */
  lemma FilterMeaning(category: string, minPrice: Option<real>, maxPrice: Option<real>,
                      qSearch: string, ids: Option<seq<Id>>, textHit: (string, Listing) -> bool,
                      l: Listing)
    requires Matches(BuildFilter(category, minPrice, maxPrice, qSearch, ids), l, textHit)
    ensures category != "" ==> l.category == category
    ensures minPrice.Some? ==> minPrice.value <= l.price
    ensures maxPrice.Some? ==> l.price <= maxPrice.value
    ensures ids.Some? ==> l.id in ids.value
    ensures 1 <= |qSearch| <= 2 ==>
      Contains(Lower(l.title), Lower(qSearch)) || Contains(Lower(l.location), Lower(qSearch)) ||
      Contains(Lower(l.country), Lower(qSearch)) || Contains(Lower(l.category), Lower(qSearch))
    ensures |qSearch| >= 3 ==> textHit(qSearch, l)
  {
    var f := BuildFilter(category, minPrice, maxPrice, qSearch, ids);
    if minPrice.Some? || maxPrice.Some? {
      assert f.price == Some(PriceRange(minPrice, maxPrice));
      assert InRange(PriceRange(minPrice, maxPrice), l.price);
    }
    if 1 <= |qSearch| <= 2 {
      assert f.text == Substring(EscapeRegex(qSearch));
      SubstringMatchesLiteral(qSearch, l);
    } else if |qSearch| >= 3 {
      assert f.text == FullText(qSearch);
    }
  }

  /** Every listing on a result page comes from the collection and satisfies
      the request in the sense of `FilterMeaning`. */
  lemma PageSatisfiesRequest(category: string, minPrice: Option<real>, maxPrice: Option<real>,
                             qSearch: string, ids: Option<seq<Id>>, order: seq<SortTerm>,
                             collection: seq<Listing>, textHit: (string, Listing) -> bool,
                             score: Id -> real, skip: nat, l: Listing)
    requires l in FindPage(BuildFilter(category, minPrice, maxPrice, qSearch, ids), order,
                           collection, textHit, score, skip, PageSize)
    ensures l in collection
    ensures Matches(BuildFilter(category, minPrice, maxPrice, qSearch, ids), l, textHit)
    ensures category != "" ==> l.category == category
    ensures minPrice.Some? && maxPrice.Some? ==> minPrice.value <= l.price <= maxPrice.value
    ensures ids.Some? ==> l.id in ids.value
  {
    FilterMeaning(category, minPrice, maxPrice, qSearch, ids, textHit, l);
  }

  /** `$text` and the substring `$or` never occur together, and the full-text
      predicate only ever carries three or more characters. */
  lemma TextStrategyExclusive(category: string, minPrice: Option<real>, maxPrice: Option<real>,
                              qSearch: string, ids: Option<seq<Id>>)
    ensures
      var f := BuildFilter(category, minPrice, maxPrice, qSearch, ids);
      !(f.text.FullText? && f.text.Substring?) &&
      (f.text.FullText? ==> |f.text.search| >= 3) &&
      (f.text.Substring? ==> 1 <= |Unescape(f.text.pattern)| <= 2)
  {
    var f := BuildFilter(category, minPrice, maxPrice, qSearch, ids);
    if f.text.Substring? {
      UnescapeEscape(qSearch);
    }
  }

  /** A query text that names a category (ignoring case), with no valid
      category requested, never reaches the text search. */
  lemma CategoryTextNeverSearched(req: SearchRequest, toNumber: string -> JsNumber, c: string)
    requires !IsCategory(Trim(req.category.GetOr("")))
    requires c in Categories && EqualsIgnoringCase(c, Trim(req.q.GetOr("")))
    ensures
      var r := Resolve(req, toNumber);
      IsCategory(r.category) && r.qSearch == "" &&
      BuildFilter(r.category, r.minPrice, r.maxPrice, r.qSearch, None).text == NoText &&
      BuildFilter(r.category, r.minPrice, r.maxPrice, r.qSearch, None).category == Some(r.category)
  {
    var q := Trim(req.q.GetOr(""));
    assert |Lower(c)| == |c| > 0;
    var cq := ResolveCategory(Trim(req.category.GetOr("")), q);
    assert IsCategory(cq.0) && cq.1 == "";
    assert cq.0 != "";
  }

  /** Relevance ordering is active iff full-text mode is active and the sort
      key is the default; any other sort key keeps its own ordering. */
  lemma RelevanceOverride(f: FilterSpec, key: SortKey)
    ensures OrderFor(key, UseRelevance(f, key))[0].field == ScoreField <==> f.text.FullText? && key == Newest
    ensures key != Newest ==> OrderFor(key, UseRelevance(f, key)) == OrderFor(key, false)
  {
  }

  /** Every ordering breaks ties by id, so two distinct listings never compare
      equal: the page order is deterministic. */
  lemma OrderIsStrict(key: SortKey, relevance: bool, a: Listing, b: Listing, score: Id -> real)
    requires a.id != b.id
    ensures KeyOf(OrderFor(key, relevance), a, score) != KeyOf(OrderFor(key, relevance), b, score)
  {
    var o := OrderFor(key, relevance);
    var n := |o| - 1;
    assert KeyOf(o, a, score)[n] == -(a.id as real);
    assert KeyOf(o, b, score)[n] == -(b.id as real);
  }

  // ---------------------------------------------------------------------------
  // Saving a listing

  datatype ToggleOutcome = ListingNotFound | Toggled(saved: bool)

  /** The saved list after toggling `id`: without it if it was there, with it
      appended otherwise; every other id keeps its membership. */
  function ToggleMembership(saved: seq<Id>, id: Id): (r: seq<Id>)
    ensures id in saved ==> id !in r && multiset(r) == multiset(saved)[id := 0]
    ensures id !in saved ==> r == saved + [id]
    ensures forall x :: x != id ==> (x in r <==> x in saved)
  {
    if id in saved then
      var r := Seqs.Filter(saved, x => x != id);
      Seqs.FilterMultiset(saved, x => x != id);
      r
    else saved + [id]
  }

  /** Toggling twice restores every id's membership. */
  lemma ToggleTwice(saved: seq<Id>, id: Id)
    ensures forall x :: x in ToggleMembership(ToggleMembership(saved, id), id) <==> x in saved
  {
  }

  /** `toggleSave`: a missing listing changes nothing; otherwise the id is
      removed if saved and appended if not, and `saved` reports the new membership. */
  method ToggleSave(u: User, listingExists: bool, id: Id) returns (out: ToggleOutcome)
    modifies u`savedListings
    ensures !listingExists ==> out == ListingNotFound && u.savedListings == old(u.savedListings)
    ensures listingExists ==>
      out == Toggled(id !in old(u.savedListings)) &&
      u.savedListings == ToggleMembership(old(u.savedListings), id) &&
      (id in u.savedListings <==> out.saved)
  {
    if !listingExists {
      return ListingNotFound;
    }
    var alreadySaved := id in u.savedListings;
    var saved: bool;
    if alreadySaved {
      u.savedListings := Seqs.Filter(u.savedListings, x => x != id);
      saved := false;
    } else {
      u.savedListings := u.savedListings + [id];
      saved := true;
    }
    out := Toggled(saved);
  }

  /** `isCloudinaryImage`: an image with a non-empty URL and file name whose URL
      contains the image host's domain. */
  predicate IsCloudinaryImage(image: Option<Image>) {
    image.Some? && image.value.url != "" && image.value.filename != "" &&
    Contains(image.value.url, CloudinaryHost)
  }

  const CloudinaryHost: string := "res.cloudinary.com"

  /** Only images that name a file and whose URL has the host's domain
      somewhere inside it are ever deleted there: such a URL splits around
      the domain, and every URL that does, with a file name, qualifies. */
  lemma CloudinaryImageIffHostInside(image: Option<Image>)
    ensures IsCloudinaryImage(image) <==>
      image.Some? && image.value.filename != "" &&
      exists pre, post :: image.value.url == pre + CloudinaryHost + post
  {
    if IsCloudinaryImage(image) {
      var url := image.value.url;
      var i :| 0 <= i <= |url| - |CloudinaryHost| && OccursAt(url, CloudinaryHost, i);
      assert url == url[..i] + CloudinaryHost + url[i + |CloudinaryHost|..];
    }
    if image.Some? && image.value.filename != "" &&
       exists pre, post :: image.value.url == pre + CloudinaryHost + post {
      var url := image.value.url;
      var pre, post :| url == pre + CloudinaryHost + post;
      assert url[|pre|..|pre| + |CloudinaryHost|] == CloudinaryHost;
      assert OccursAt(url, CloudinaryHost, |pre|);
      assert url != "";
    }
  }
}

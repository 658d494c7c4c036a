/** The query the search endpoints hand to the document store: a filter
    specification (category equality, price range, text predicate, id
    membership) and an ordering, and what the store does with them: count the
    matching listings, sort them, skip and limit. */
module Filtering {
  import opened Wrappers
  import opened Text
  import opened Seqs
  import opened Ordering
  import opened ListingModel
  import opened QueryParsing

  datatype PriceRange = PriceRange(gte: Option<real>, lte: Option<real>)

  /** No text condition, the `$or` of a case-insensitive regular expression
      over title, location, country and category, or the full-text `$text`. */
  datatype TextPredicate = NoText | Substring(pattern: string) | FullText(search: string)

  datatype FilterSpec = FilterSpec(
    category: Option<string>,
    price: Option<PriceRange>,
    text: TextPredicate,
    ids: Option<seq<Id>>)

  /** A case-insensitive regular expression made by `EscapeRegex` matches a
      field iff the field contains its literal text, ignoring case. */
  predicate RegexMatchesIgnoringCase(pattern: string, field: string) {
    Contains(Lower(field), Lower(Unescape(pattern)))
  }

  predicate InRange(r: PriceRange, price: real) {
    (r.gte.None? || r.gte.value <= price) && (r.lte.None? || price <= r.lte.value)
  }

  /** Whether the store returns listing `l` for filter `f`. Full-text matching
      (tokenisation, stemming) belongs to the store and is the parameter `textHit`. */
  predicate Matches(f: FilterSpec, l: Listing, textHit: (string, Listing) -> bool) {
    (f.category.None? || l.category == f.category.value) &&
    (f.price.None? || InRange(f.price.value, l.price)) &&
    (match f.text
     case NoText => true
     case Substring(p) =>
       RegexMatchesIgnoringCase(p, l.title) || RegexMatchesIgnoringCase(p, l.location) ||
       RegexMatchesIgnoringCase(p, l.country) || RegexMatchesIgnoringCase(p, l.category)
     case FullText(s) => textHit(s, l)) &&
    (f.ids.None? || l.id in f.ids.value)
  }

  /** The substring predicate built from a query text matches exactly the
      listings one of whose four fields contains that text, ignoring case. */
  lemma SubstringMatchesLiteral(q: string, l: Listing)
    ensures RegexMatchesIgnoringCase(EscapeRegex(q), l.title) <==> Contains(Lower(l.title), Lower(q))
    ensures RegexMatchesIgnoringCase(EscapeRegex(q), l.location) <==> Contains(Lower(l.location), Lower(q))
    ensures RegexMatchesIgnoringCase(EscapeRegex(q), l.country) <==> Contains(Lower(l.country), Lower(q))
    ensures RegexMatchesIgnoringCase(EscapeRegex(q), l.category) <==> Contains(Lower(l.category), Lower(q))
  {
    UnescapeEscape(q);
  }

  datatype Field = IdField | PriceField | RatingAvgField | RatingCountField | ScoreField
  datatype Direction = Ascending | Descending
  datatype SortTerm = SortTerm(field: Field, dir: Direction)

  /** The value of one sort field; the text score belongs to the store and is
      the parameter `score`. */
  function FieldValue(field: Field, l: Listing, score: Id -> real): real {
    match field
    case IdField => l.id as real
    case PriceField => l.price
    case RatingAvgField => l.ratingAvg
    case RatingCountField => l.ratingCount as real
    case ScoreField => score(l.id)
  }

  /** The sort key of a listing under an ordering: one number per term,
      negated for a descending term. */
  function KeyOf(order: seq<SortTerm>, l: Listing, score: Id -> real): (k: seq<real>)
    ensures |k| == |order|
    ensures forall i :: 0 <= i < |order| ==>
      k[i] == (if order[i].dir == Ascending then FieldValue(order[i].field, l, score)
               else -FieldValue(order[i].field, l, score))
  {
    if order == [] then []
    else
      var v := FieldValue(order[0].field, l, score);
      [if order[0].dir == Ascending then v else -v] + KeyOf(order[1..], l, score)
  }

  /** The listings of `collection` that match `f`, in collection order. */
  function Matching(f: FilterSpec, collection: seq<Listing>, textHit: (string, Listing) -> bool): (r: seq<Listing>)
    ensures forall l :: l in r <==> l in collection && Matches(f, l, textHit)
  {
    Seqs.Filter(collection, l => Matches(f, l, textHit))
  }

  /** `countDocuments(filter)`. */
  function CountMatching(f: FilterSpec, collection: seq<Listing>, textHit: (string, Listing) -> bool): nat {
    |Matching(f, collection, textHit)|
  }

  /** The sort key of `order` as a function of a listing. */
  function OrderKey(order: seq<SortTerm>, score: Id -> real): Listing -> seq<real> {
    l => KeyOf(order, l, score)
  }

  /** `find(filter).sort(order)`: every matching listing once, sorted by `order`. */
  function SortedMatching(f: FilterSpec, order: seq<SortTerm>, collection: seq<Listing>,
                          textHit: (string, Listing) -> bool, score: Id -> real): (r: seq<Listing>)
    ensures multiset(r) == multiset(Matching(f, collection, textHit))
    ensures |r| == CountMatching(f, collection, textHit)
    ensures forall l :: l in r ==> l in collection && Matches(f, l, textHit)
    ensures SortedBy(r, OrderKey(order, score))
  {
    var m := Matching(f, collection, textHit);
    var r := SortBy(m, OrderKey(order, score));
    forall l | l in r ensures l in collection && Matches(f, l, textHit) {
      assert l in multiset(r);
      assert l in multiset(m);
    }
    r
  }

  /** `find(filter).sort(order).skip(skip).limit(limit)`: a window of the
      matching listings sorted by `order`, of exactly the size the count allows. */
  function FindPage(f: FilterSpec, order: seq<SortTerm>, collection: seq<Listing>,
                    textHit: (string, Listing) -> bool, score: Id -> real,
                    skip: nat, limit: nat): (page: seq<Listing>)
    ensures |page| == Min(limit, Max(0, CountMatching(f, collection, textHit) - skip))
    ensures forall l :: l in page ==> l in collection && Matches(f, l, textHit)
    ensures SortedBy(page, OrderKey(order, score))
    ensures page == Window(SortedMatching(f, order, collection, textHit, score), skip, limit)
  {
    var sorted := SortedMatching(f, order, collection, textHit, score);
    var page := Window(sorted, skip, limit);
    SortedWindow(sorted, Min(skip, |sorted|), Min(skip, |sorted|) + |page|, OrderKey(order, score));
    page
  }
}

/** The discovery endpoints: the "top categories" and "top locations"
    aggregations (group, count, sort by count descending, limit) and the single
    global snapshot that serves both lists for five minutes. */
module Discovery {
  import opened Wrappers
  import opened Seqs
  import opened Ordering
  import opened JsValues
  import opened ListingModel

  /** How many times `k` occurs among `keys`: the `count` of its group. */
  function Count<K(==)>(keys: seq<K>, k: K): nat {
    multiset(keys)[k]
  }

  /** The sort key of `$sort: { count: -1 }`. */
  function ByCountDesc<K(==)>(keys: seq<K>): K -> seq<real> {
    k => [-(Count(keys, k) as real)]
  }

  lemma {:induction false} NoDuplicatesCount<K>(a: seq<K>, x: K)
    requires NoDuplicates(a)
    ensures multiset(a)[x] <= 1
  {
    if a != [] {
      assert a == [a[0]] + a[1..];
      NoDuplicatesCount(a[1..], x);
    }
  }

  /** A permutation of a sequence without duplicates has none either. */
  lemma PermutationNoDuplicates<K>(a: seq<K>, b: seq<K>)
    requires multiset(a) == multiset(b) && NoDuplicates(a)
    ensures NoDuplicates(b)
  {
    forall i, j | 0 <= i < j < |b| ensures b[i] != b[j] {
      if b[i] == b[j] {
        var x := b[i];
        assert b == b[..j] + b[j..];
        assert x in b[..j] && x in b[j..];
        assert multiset(b)[x] == multiset(b[..j])[x] + multiset(b[j..])[x];
        NoDuplicatesCount(a, x);
        assert false;
      }
    }
  }

  lemma SortedByCountDesc<K>(keys: seq<K>, s: seq<K>, i: int, j: int)
    requires SortedBy(s, ByCountDesc(keys)) && 0 <= i < j < |s|
    ensures Count(keys, s[j]) <= Count(keys, s[i])
  {
    LexLeSingle(-(Count(keys, s[i]) as real), -(Count(keys, s[j]) as real));
  }

  /** Group `keys`, order the groups by count descending and keep the first
      `limit`: distinct keys of the input, in non-increasing count order. */
  function TopKeys<K(==,!new)>(keys: seq<K>, limit: nat): (r: seq<K>)
    ensures |r| <= limit
    ensures forall k :: k in r ==> k in keys
    ensures NoDuplicates(r)
    ensures forall i, j :: 0 <= i < j < |r| ==> Count(keys, r[j]) <= Count(keys, r[i])
  {
    var groups := Distinct(keys);
    var sorted := SortBy(groups, ByCountDesc(keys));
    var r := Take(sorted, limit);
    forall k | k in r ensures k in keys {
      assert k in multiset(sorted);
    }
    PermutationNoDuplicates(groups, sorted);
    forall i, j | 0 <= i < j < |r| ensures Count(keys, r[j]) <= Count(keys, r[i]) {
      SortedByCountDesc(keys, sorted, i, j);
    }
    r
  }

  /** The selection is the top: a key left out has a count no larger than any
      kept one, and is left out only because `limit` groups were kept. */
  lemma TopKeysAreTop<K(!new)>(keys: seq<K>, limit: nat, k: K)
    requires k in keys && k !in TopKeys(keys, limit)
    ensures |TopKeys(keys, limit)| == limit
    ensures forall t :: t in TopKeys(keys, limit) ==> Count(keys, k) <= Count(keys, t)
  {
    var groups := Distinct(keys);
    var sorted := SortBy(groups, ByCountDesc(keys));
    var r := TopKeys(keys, limit);
    assert k in multiset(groups);
    assert k in multiset(sorted);
    var j :| 0 <= j < |sorted| && sorted[j] == k;
    assert j >= limit;
    forall t | t in r ensures Count(keys, k) <= Count(keys, t) {
      var i :| 0 <= i < |r| && r[i] == t;
      SortedByCountDesc(keys, sorted, i, j);
    }
  }

  /** With at most `limit` groups, every group is returned. */
  lemma TopKeysComplete<K(!new)>(keys: seq<K>, limit: nat)
    requires |Distinct(keys)| <= limit
    ensures forall k :: k in TopKeys(keys, limit) <==> k in keys
  {
    var sorted := SortBy(Distinct(keys), ByCountDesc(keys));
    assert TopKeys(keys, limit) == sorted;
    forall k | k in keys ensures k in TopKeys(keys, limit) {
      assert k in multiset(Distinct(keys));
    }
  }

  /** How many listings have category `c`. */
  function ListingsInCategory(ls: seq<Listing>, c: string): nat {
    if ls == [] then 0 else (if ls[0].category == c then 1 else 0) + ListingsInCategory(ls[1..], c)
  }

  /** The grouping keys of `$match: { category: non-empty string }`: each
      non-empty category once per listing that has it. */
  function CategoryValues(ls: seq<Listing>): (r: seq<string>)
    ensures |r| <= |ls|
    ensures forall c :: c in r <==> c != "" && exists l :: l in ls && l.category == c
    ensures forall c :: c != "" ==> Count(r, c) == ListingsInCategory(ls, c)
  {
    if ls == [] then []
    else
      var rest := CategoryValues(ls[1..]);
      assert ls == [ls[0]] + ls[1..];
      if ls[0].category != "" then [ls[0].category] + rest else rest
  }

  /** A `(location, country)` group. */
  datatype Place = Place(location: string, country: string)

  /** How many listings lie at place `p`. */
  function ListingsAtPlace(ls: seq<Listing>, p: Place): nat {
    if ls == [] then 0
    else (if ls[0].location == p.location && ls[0].country == p.country then 1 else 0) + ListingsAtPlace(ls[1..], p)
  }

  /** The grouping keys of the location aggregation: one place per listing
      whose location and country are both non-empty strings. */
  function PlaceValues(ls: seq<Listing>): (r: seq<Place>)
    ensures |r| <= |ls|
    ensures forall p :: p in r <==>
      p.location != "" && p.country != "" &&
      exists l :: l in ls && l.location == p.location && l.country == p.country
    ensures forall p: Place :: p.location != "" && p.country != "" ==> Count(r, p) == ListingsAtPlace(ls, p)
  {
    if ls == [] then []
    else
      var rest := PlaceValues(ls[1..]);
      assert ls == [ls[0]] + ls[1..];
      if ls[0].location != "" && ls[0].country != "" then [Place(ls[0].location, ls[0].country)] + rest
      else rest
  }

  /** `getTopCategories(limit)`: distinct categories of the listings, by
      number of listings, most first. */
  function TopCategories(ls: seq<Listing>, limit: nat): (r: seq<string>)
    ensures |r| <= limit && NoDuplicates(r)
    ensures forall c :: c in r ==> c != "" && exists l :: l in ls && l.category == c
    ensures forall i, j :: 0 <= i < j < |r| ==> ListingsInCategory(ls, r[j]) <= ListingsInCategory(ls, r[i])
  {
    var r := TopKeys(CategoryValues(ls), limit);
    forall i, j | 0 <= i < j < |r| ensures ListingsInCategory(ls, r[j]) <= ListingsInCategory(ls, r[i]) {
      assert r[i] in r && r[j] in r;
    }
    r
  }

  /** A category some listing has but the list leaves out: the list is full,
      and every listed category has at least as many listings. */
  lemma TopCategoriesAreTop(ls: seq<Listing>, limit: nat, l: Listing)
    requires l in ls && l.category != "" && l.category !in TopCategories(ls, limit)
    ensures |TopCategories(ls, limit)| == limit
    ensures forall c :: c in TopCategories(ls, limit) ==>
      ListingsInCategory(ls, l.category) <= ListingsInCategory(ls, c)
  {
    TopKeysAreTop(CategoryValues(ls), limit, l.category);
  }

  datatype LocationCount = LocationCount(location: string, country: string, count: nat)

  /** `getTopLocations(limit)`: each group with its count. */
  function TopLocations(ls: seq<Listing>, limit: nat): (r: seq<LocationCount>)
    ensures |r| <= limit
    ensures forall i :: 0 <= i < |r| ==>
      r[i].location != "" && r[i].country != "" && r[i].count >= 1 &&
      r[i].count == ListingsAtPlace(ls, Place(r[i].location, r[i].country))
    ensures forall i, j :: 0 <= i < j < |r| ==> r[j].count <= r[i].count
    ensures forall i, j :: 0 <= i < j < |r| ==> Place(r[i].location, r[i].country) != Place(r[j].location, r[j].country)
  {
    var keys := PlaceValues(ls);
    var top := TopKeys(keys, limit);
    forall i | 0 <= i < |top| ensures top[i] in keys {
      assert top[i] in top;
    }
    var r := seq(|top|, i requires 0 <= i < |top| => LocationCount(top[i].location, top[i].country, Count(keys, top[i])));
    forall i, j | 0 <= i < j < |r| ensures Place(r[i].location, r[i].country) != Place(r[j].location, r[j].country) {
      assert Place(r[i].location, r[i].country) == top[i] && Place(r[j].location, r[j].country) == top[j];
    }
    r
  }

  /** A place some listing has but the list leaves out: the list is full, and
      every listed place has at least as many listings. */
  lemma TopLocationsAreTop(ls: seq<Listing>, limit: nat, l: Listing)
    requires l in ls && l.location != "" && l.country != ""
    requires forall i :: 0 <= i < |TopLocations(ls, limit)| ==>
      Place(TopLocations(ls, limit)[i].location, TopLocations(ls, limit)[i].country) != Place(l.location, l.country)
    ensures |TopLocations(ls, limit)| == limit
    ensures forall i :: 0 <= i < |TopLocations(ls, limit)| ==>
      ListingsAtPlace(ls, Place(l.location, l.country)) <= TopLocations(ls, limit)[i].count
  {
    var keys := PlaceValues(ls);
    var top := TopKeys(keys, limit);
    var r := TopLocations(ls, limit);
    var p := Place(l.location, l.country);
    assert |r| == |top|;
    forall i | 0 <= i < |r| ensures Place(r[i].location, r[i].country) == top[i] && r[i].count == Count(keys, top[i]) {
    }
    assert p in keys;
    assert p !in top;
    TopKeysAreTop(keys, limit, p);
    forall i | 0 <= i < |r| ensures ListingsAtPlace(ls, p) <= r[i].count {
      assert top[i] in top;
    }
  }

  /** `Math.max(1, Math.min(20, Number(raw) || 8))`, then the store's `$limit`,
      which accepts only an integer: `None` when the clamped value has a
      fractional part and the aggregation fails. */
  function RequestedLimit(n: JsNumber): (r: Option<nat>)
    ensures r.Some? ==> 1 <= r.value <= 20
    ensures !n.Truthy() ==> r == Some(8)
    ensures n.Num? && 1.0 <= n.value <= 20.0 && n.value == n.value.Floor as real ==> r == Some(n.value.Floor)
    ensures var x := ClampOr(n, 8.0, 1.0, 20.0);
      (r.None? <==> x != x.Floor as real) && (r.Some? ==> r.value as real == x)
  {
    var x := ClampOr(n, 8.0, 1.0, 20.0);
    if x == x.Floor as real then Some(x.Floor) else None
  }

  /** Both aggregations with their requested limits, or `None` when either fails. */
  function Recompute(limitCats: JsNumber, limitLocs: JsNumber, ls: seq<Listing>)
    : (r: Option<(seq<string>, seq<LocationCount>)>)
    ensures r.Some? <==> RequestedLimit(limitCats).Some? && RequestedLimit(limitLocs).Some?
    ensures r.Some? ==> |r.value.0| <= 20 && |r.value.1| <= 20
    ensures r.Some? ==>
      r.value == (TopCategories(ls, RequestedLimit(limitCats).value), TopLocations(ls, RequestedLimit(limitLocs).value))
  {
    match (RequestedLimit(limitCats), RequestedLimit(limitLocs))
    case (Some(lc), Some(ll)) => Some((TopCategories(ls, lc), TopLocations(ls, ll)))
    case _ => None
  }

  /** Five minutes, in milliseconds. */
  const DiscoveryTtl: int := 5 * 60 * 1000

  datatype DiscoveryReply = Served(categories: seq<string>, locations: seq<LocationCount>) | Failed

  /** The one global discovery slot. It is not keyed by the requested limits. */
  class DiscoveryCache {
    var categories: seq<string>
    var locations: seq<LocationCount>
    var expiresAt: int

    /** Every stored list came from a clamped limit. */
    ghost predicate Valid()
      reads this
    {
      |categories| <= 20 && |locations| <= 20
    }

    constructor ()
      ensures Valid()
      ensures categories == [] && locations == [] && expiresAt == 0
    {
      categories := [];
      locations := [];
      expiresAt := 0;
    }

    /** `GET /discovery/top` at time `now`: a fresh slot is served as it is,
        whatever limits are asked for; an expired one is recomputed and
        stored for five minutes, unless an aggregation fails. */
    method Top(now: int, limitCats: JsNumber, limitLocs: JsNumber, ls: seq<Listing>)
      returns (reply: DiscoveryReply)
      requires Valid()
      modifies this
      ensures Valid()
      ensures old(expiresAt) > now ==>
        reply == Served(old(categories), old(locations)) && unchanged(this)
      ensures old(expiresAt) <= now && Recompute(limitCats, limitLocs, ls).None? ==>
        reply == Failed && unchanged(this)
      ensures old(expiresAt) <= now && Recompute(limitCats, limitLocs, ls).Some? ==>
        var snapshot := Recompute(limitCats, limitLocs, ls).value;
        reply == Served(snapshot.0, snapshot.1) &&
        categories == snapshot.0 && locations == snapshot.1 && expiresAt == now + DiscoveryTtl
    {
      if expiresAt > now {
        return Served(categories, locations);
      }
      var lc := RequestedLimit(limitCats);
      var ll := RequestedLimit(limitLocs);
      if lc.None? || ll.None? {
        return Failed;
      }
      var cats := TopCategories(ls, lc.value);
      var locs := TopLocations(ls, ll.value);
      categories, locations, expiresAt := cats, locs, now + DiscoveryTtl;
      reply := Served(cats, locs);
    }
  }

  /** `GET /categories/top`: the top categories for the clamped limit, or
      `None` when the aggregation rejects a fractional limit. */
  function CategoriesTop(limit: JsNumber, ls: seq<Listing>): (r: Option<seq<string>>)
    ensures r.Some? <==> RequestedLimit(limit).Some?
    ensures r.Some? ==> r.value == TopCategories(ls, RequestedLimit(limit).value) && |r.value| <= 20
  {
    match RequestedLimit(limit)
    case Some(n) => Some(TopCategories(ls, n))
    case None => None
  }
}

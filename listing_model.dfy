/** The stored listing document: its closed category set, its defaults and the
    "no known location" geometry sentinel. */
module ListingModel {
  import opened Wrappers

  /** Document identifiers. Their numeric order stands for the store's id
      order, so "id descending" is "newest first". */
  type Id = nat

  /** The thirteen category values the schema accepts. */
  const Categories: seq<string> := [
    "Trending", "Rooms", "Iconic cities", "Amazing views", "Beachfront",
    "Amazing pools", "Cabins", "Camping", "Lakefront", "Arctic", "Islands",
    "Castles", "Farms"
  ]

  const DefaultCategory: string := "Trending"

  predicate IsCategory(s: string) { s in Categories }

  datatype Image = Image(url: string, filename: string)

  datatype Geometry = Geometry(kind: string, coordinates: seq<real>)

  /** The geometry a listing gets when none is given: a point at `[0, 0]`,
      which the application reads as "no known location". */
  const NoLocation: Geometry := Geometry("Point", [0.0, 0.0])

  /** A stored listing. Text fields the document lacks are "" here: every
      consumer in the model treats a missing field and an empty one alike. */
  datatype Listing = Listing(
    id: Id,
    title: string,
    description: string,
    image: Option<Image>,
    price: real,
    location: string,
    country: string,
    ratingAvg: real,
    ratingCount: nat,
    category: string,
    reviews: seq<Id>,
    owner: Option<Id>,
    geometry: Geometry)

  /** The fields a caller supplies when a listing is created; `None` is "not given". */
  datatype ListingFields = ListingFields(
    title: string,
    description: string,
    image: Option<Image>,
    price: real,
    location: string,
    country: string,
    category: Option<string>,
    owner: Option<Id>,
    geometry: Option<Geometry>)

  /** Creating a document applies the schema: the title is required, the
      category must be one of the thirteen values and defaults to "Trending",
      the geometry type must be "Point" and the coordinates default to the
      sentinel, and the rating fields start at 0 with no reviews. */
  function NewListing(id: Id, f: ListingFields): (r: Option<Listing>)
    ensures r.Some? <==>
      f.title != "" &&
      (f.category.None? || IsCategory(f.category.value)) &&
      (f.geometry.None? || f.geometry.value.kind == "Point")
    ensures r.Some? ==>
      var l := r.value;
      l.id == id && l.title == f.title && l.price == f.price &&
      IsCategory(l.category) && l.geometry.kind == "Point" &&
      l.ratingAvg == 0.0 && l.ratingCount == 0 && l.reviews == [] &&
      (f.category.None? ==> l.category == DefaultCategory) &&
      (f.category.Some? ==> l.category == f.category.value) &&
      (f.geometry.None? ==> l.geometry == NoLocation)
  {
    if f.title == "" then None
    else if f.category.Some? && !IsCategory(f.category.value) then None
    else if f.geometry.Some? && f.geometry.value.kind != "Point" then None
    else
      Some(Listing(id, f.title, f.description, f.image, f.price, f.location, f.country,
                   0.0, 0, f.category.GetOr(DefaultCategory), [], f.owner,
                   f.geometry.GetOr(NoLocation)))
  }

  /** No category is the empty string, so "no category" can be written "". */
  lemma CategoryNonEmpty(c: string)
    requires IsCategory(c)
    ensures c != ""
  {
  }

  /** The category set has thirteen distinct members and holds the default. */
  lemma CategoriesWellFormed()
    ensures |Categories| == 13
    ensures forall i, j :: 0 <= i < j < |Categories| ==> Categories[i] != Categories[j]
    ensures IsCategory(DefaultCategory)
  {
  }
}

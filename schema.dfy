/** The request-body schemas: which listing, review, signup and login forms
    are accepted, and the first rule a rejected form breaks. Strings marked
    "trimmed" are measured after trimming; a string must be non-empty unless
    empty is explicitly allowed; a missing required key is a violation.
    Validation stops at the first violation, in key order. Numeric strings
    are read by `number`, which stands for the schema library's conversion
    (`None` when the text is not a finite number), and addresses are judged
    by `isEmail`, standing for its e-mail rule. */
module Schema {
  import opened Wrappers
  import opened Text
  import opened ListingModel

  const AllowedCategories: seq<string> := [
    "Trending", "Rooms", "Iconic cities", "Amazing views", "Beachfront",
    "Amazing pools", "Cabins", "Camping", "Lakefront", "Arctic", "Islands",
    "Castles", "Farms"
  ]

  /** The form accepts exactly the categories the stored document accepts. */
  lemma AllowedCategoriesAgree()
    ensures forall c :: c in AllowedCategories <==> IsCategory(c)
  {
  }

  datatype Rule = Required | Empty | TooShort | TooLong | NotNumber | BelowMin | AboveMax | NotAllowed | NotEmail

  datatype Violation = Violation(path: string, rule: Rule)

  /** A string rule: presence, then emptiness, then length bounds, on the
      trimmed value when `trim` is set. */
  function CheckString(path: string, v: Option<string>, required: bool, trim: bool, allowEmpty: bool,
                       min: nat, max: Option<nat>): (r: Option<Violation>)
    ensures r.None? <==>
      (v.None? && !required) ||
      (v.Some? &&
       var t := if trim then Trim(v.value) else v.value;
       (t == "" && allowEmpty) || (t != "" && min <= |t| && (max.Some? ==> |t| <= max.value)))
    ensures r.Some? ==> r.value.path == path
  {
    match v
    case None => if required then Some(Violation(path, Required)) else None
    case Some(s) =>
      var t := if trim then Trim(s) else s;
      if t == "" then (if allowEmpty then None else Some(Violation(path, Empty)))
      else if |t| < min then Some(Violation(path, TooShort))
      else if max.Some? && |t| > max.value then Some(Violation(path, TooLong))
      else None
  }

  /** A required number with a lower and an optional upper bound. */
  function CheckNumber(path: string, v: Option<string>, number: string -> Option<real>,
                       min: real, max: Option<real>): (r: Option<Violation>)
    ensures r.None? <==>
      v.Some? && number(v.value).Some? && min <= number(v.value).value &&
      (max.Some? ==> number(v.value).value <= max.value)
    ensures r.Some? ==> r.value.path == path
  {
    if v.None? then Some(Violation(path, Required))
    else match number(v.value)
      case None => Some(Violation(path, NotNumber))
      case Some(x) =>
        if x < min then Some(Violation(path, BelowMin))
        else if max.Some? && x > max.value then Some(Violation(path, AboveMax))
        else None
  }

  /** Validation stops at the first violation: `first` if it is one, else `rest`. */
  function Then(first: Option<Violation>, rest: Option<Violation>): (r: Option<Violation>)
    ensures r.None? <==> first.None? && rest.None?
    ensures first.Some? ==> r == first
  {
    if first.Some? then first else rest
  }

  /** The `listing` object of a listing form; `None` marks an absent key. */
  datatype ListingInput = ListingInput(
    title: Option<string>,
    description: Option<string>,
    price: Option<string>,
    location: Option<string>,
    country: Option<string>,
    category: Option<string>)

  /** `listingSchema`: the first violation, or `None` when the form is accepted. */
  function ListingViolation(body: Option<ListingInput>, number: string -> Option<real>): (r: Option<Violation>)
    ensures r.None? <==> ListingAcceptable(body, number)
  {
    match body
    case None => Some(Violation("listing", Required))
    case Some(l) =>
      Then(CheckString("listing.title", l.title, true, true, false, 3, Some(120)),
      Then(CheckString("listing.description", l.description, false, true, true, 0, Some(2000)),
      Then(CheckNumber("listing.price", l.price, number, 0.0, None),
      Then(CheckString("listing.location", l.location, true, true, false, 0, None),
      Then(CheckString("listing.country", l.country, true, true, false, 0, None),
           if l.category.None? || l.category.value in AllowedCategories then None
           else Some(Violation("listing.category", NotAllowed)))))))
  }

  /** The listing form the schema accepts, rule by rule: a listing object; a
      title of 3 to 120 characters after trimming; a description, if given,
      of at most 2000 after trimming; a price that is a number of at least 0;
      non-blank location and country; a category, if given, from the list. */
  predicate ListingAcceptable(body: Option<ListingInput>, number: string -> Option<real>) {
    body.Some? &&
    var l := body.value;
    l.title.Some? && 3 <= |Trim(l.title.value)| <= 120 &&
    (l.description.Some? ==> |Trim(l.description.value)| <= 2000) &&
    l.price.Some? && number(l.price.value).Some? && number(l.price.value).value >= 0.0 &&
    l.location.Some? && Trim(l.location.value) != "" &&
    l.country.Some? && Trim(l.country.value) != "" &&
    (l.category.Some? ==> IsCategory(l.category.value))
  }

  datatype ReviewInput = ReviewInput(rating: Option<string>, comments: Option<string>)

  /** `reviewSchema`: a rating from 1 to 5 and a comment of 1 to 1000
      characters after trimming. */
  function ReviewViolation(body: Option<ReviewInput>, number: string -> Option<real>): (r: Option<Violation>)
    ensures r.None? <==>
      body.Some? &&
      body.value.rating.Some? && number(body.value.rating.value).Some? &&
      1.0 <= number(body.value.rating.value).value <= 5.0 &&
      body.value.comments.Some? && 1 <= |Trim(body.value.comments.value)| <= 1000
  {
    match body
    case None => Some(Violation("review", Required))
    case Some(rv) =>
      Then(CheckNumber("review.rating", rv.rating, number, 1.0, Some(5.0)),
           CheckString("review.comments", rv.comments, true, true, false, 1, Some(1000)))
  }

  /** A required, trimmed, non-empty address the e-mail rule accepts. */
  function CheckEmail(path: string, v: Option<string>, isEmail: string -> bool): (r: Option<Violation>)
    ensures r.None? <==> v.Some? && Trim(v.value) != "" && isEmail(Trim(v.value))
    ensures r.Some? ==> r.value.path == path
  {
    match v
    case None => Some(Violation(path, Required))
    case Some(e) =>
      if Trim(e) == "" then Some(Violation(path, Empty))
      else if !isEmail(Trim(e)) then Some(Violation(path, NotEmail))
      else None
  }

  datatype SignupInput = SignupInput(username: Option<string>, email: Option<string>, password: Option<string>)

  /** `signupSchema`: a user name of 3 to 30 characters after trimming, an
      address the e-mail rule accepts after trimming, and a password of 8 to
      128 characters, not trimmed. */
  function SignupViolation(body: SignupInput, isEmail: string -> bool): (r: Option<Violation>)
    ensures r.None? <==>
      body.username.Some? && 3 <= |Trim(body.username.value)| <= 30 &&
      body.email.Some? && Trim(body.email.value) != "" && isEmail(Trim(body.email.value)) &&
      body.password.Some? && 8 <= |body.password.value| <= 128
  {
    Then(CheckString("username", body.username, true, true, false, 3, Some(30)),
    Then(CheckEmail("email", body.email, isEmail),
         CheckString("password", body.password, true, false, false, 8, Some(128))))
  }

  datatype LoginInput = LoginInput(username: Option<string>, password: Option<string>)

  /** `loginSchema`: a non-blank user name and a non-empty password. */
  function LoginViolation(body: LoginInput): (r: Option<Violation>)
    ensures r.None? <==>
      body.username.Some? && Trim(body.username.value) != "" &&
      body.password.Some? && body.password.value != ""
  {
    Then(CheckString("username", body.username, true, true, false, 0, None),
         CheckString("password", body.password, true, false, false, 0, None))
  }
}

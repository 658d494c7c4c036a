/** The route guards: the login requirement and the remembered return
    address, the ownership and authorship checks, e-mail verification, and
    the form validators that turn a schema violation into a flash message. */
module Middleware {
  import opened Wrappers
  import opened Text
  import opened ListingModel
  import Reviews
  import opened Schema
  import Users

  /** What a guard does with the request. */
  datatype Reply =
    | Next
    | Redirect(to: string, flashKind: string, flash: string)
    | Failure(message: string)

  /** A session value as stored: a string, or something else. */
  datatype SessionValue = Str(s: string) | NonString

  /** The session field holding the address to return to after logging in. */
  class RedirectSession {
    var redirectUrl: Option<SessionValue>

    constructor ()
      ensures redirectUrl == None
    {
      redirectUrl := None;
    }
  }

  /** `isLoggedIn`: an anonymous request remembers where it was going and is
      sent to the login page; an authenticated one goes on untouched. */
  method IsLoggedIn(session: RedirectSession, authenticated: bool, originalUrl: string) returns (reply: Reply)
    modifies session
    ensures !authenticated ==>
      session.redirectUrl == Some(Str(originalUrl)) &&
      reply == Redirect("/login", "error", "You must be logged in")
    ensures authenticated ==> reply == Next && session.redirectUrl == old(session.redirectUrl)
  {
    if !authenticated {
      session.redirectUrl := Some(Str(originalUrl));
      return Redirect("/login", "error", "You must be logged in");
    }
    reply := Next;
  }

  /** The return address `savedRedirectUrl` exposes: a stored string that
      starts with "/", nothing otherwise. */
  function SafeRedirect(v: Option<SessionValue>): (r: Option<string>)
    ensures r.Some? <==> v.Some? && v.value.Str? && StartsWith(v.value.s, "/")
    ensures r.Some? ==> v.value.s == r.value && r.value != "" && r.value[0] == '/'
  {
    if v.Some? && v.value.Str? && v.value.s != "" && StartsWith(v.value.s, "/") then Some(v.value.s)
    else None
  }

  /** `savedRedirectUrl`: expose a safe stored address and always forget it. */
  method SavedRedirectUrl(session: RedirectSession) returns (local: Option<string>)
    modifies session
    ensures local == SafeRedirect(old(session.redirectUrl))
    ensures session.redirectUrl == None
  {
    local := None;
    var url := session.redirectUrl;
    if url.Some? && url.value.Str? && url.value.s != "" && StartsWith(url.value.s, "/") {
      local := Some(url.value.s);
    }
    session.redirectUrl := None;
  }

  /** An address remembered by `isLoggedIn` comes back after login exactly
      when it starts with '/'. That includes scheme-relative `//host`
      addresses, which leave the site; an absolute `https://` one does not
      come back. */
  lemma ReturnAddressIsLocal(originalUrl: string)
    ensures SafeRedirect(Some(Str(originalUrl))) == Some(originalUrl) <==>
      originalUrl != "" && originalUrl[0] == '/'
    ensures SafeRedirect(Some(NonString)) == None
  {
    if originalUrl != "" && originalUrl[0] == '/' {
      assert StartsWith(originalUrl, "/");
    }
  }

  /** The '/' test lets a scheme-relative address through: after login the
      browser would be sent to another host. */
  lemma SafeRedirectAdmitsSchemeRelative()
    ensures SafeRedirect(Some(Str("//evil.example/x"))) == Some("//evil.example/x")
    ensures SafeRedirect(Some(Str("https://evil.example/x"))) == None
  {
    ReturnAddressIsLocal("//evil.example/x");
    ReturnAddressIsLocal("https://evil.example/x");
  }

  function ListingPath(id: Id): string {
    "/listings/" + NatToString(id)
  }

  /** `isOwner`: a missing listing, or one without an owner or with another
      owner, stops the request. */
  function IsOwner(id: Id, listing: Option<Listing>, user: Id): (r: Reply)
    ensures r == Next <==> listing.Some? && listing.value.owner == Some(user)
    ensures listing.None? ==> r == Redirect("/listings", "error", "Listing not found")
    ensures listing.Some? && listing.value.owner != Some(user) ==>
      r == Redirect(ListingPath(id), "error", "You do not have permission to do that")
  {
    match listing
    case None => Redirect("/listings", "error", "Listing not found")
    case Some(l) =>
      if l.owner.None? || l.owner.value != user then
        Redirect(ListingPath(id), "error", "You do not have permission to do that")
      else Next
  }

  /** `isReviewAuthor`: a missing review or another author stops the request;
      a review without an author makes the comparison itself fail. */
  function IsReviewAuthor(id: Id, review: Option<Reviews.Review>, user: Id): (r: Reply)
    ensures r == Next <==> review.Some? && review.value.author == Some(user)
    ensures review.None? ==> r == Redirect(ListingPath(id), "error", "Review not found")
    ensures review.Some? && review.value.author.Some? && review.value.author.value != user ==>
      r == Redirect(ListingPath(id), "error", "You are not the author of this review")
    ensures review.Some? && review.value.author.None? ==> r.Failure?
  {
    match review
    case None => Redirect(ListingPath(id), "error", "Review not found")
    case Some(rv) =>
      match rv.author
      case None => Failure("Cannot read properties of undefined (reading 'equals')")
      case Some(a) =>
        if a != user then Redirect(ListingPath(id), "error", "You are not the author of this review")
        else Next
  }

  /** `isVerified`: `user` is the logged-in user's verification flag, `None`
      when nobody is logged in. */
  function IsVerified(user: Option<bool>): (r: Reply)
    ensures r == Next <==> user == Some(true)
    ensures r != Next ==> r == Redirect("/verify-email/resend", "error", "Please verify your email to continue.")
  {
    if user.None? || !user.value then Redirect("/verify-email/resend", "error", "Please verify your email to continue.")
    else Next
  }

  /** `validateObjectId`: `isValidId` stands for the id-format check. */
  function ValidateObjectId(value: string, isValidId: string -> bool): (r: Reply)
    ensures r == Next <==> isValidId(value)
    ensures r != Next ==> r == Redirect("/listings", "error", "Invalid link.")
  {
    if !isValidId(value) then Redirect("/listings", "error", "Invalid link.") else Next
  }

  /** The flash text of a rejected form: the messages of the error details,
      joined with ", ". Validation stops at the first violation, so there is
      one detail; `describe` stands for the library's wording of it. */
  function DetailsMessage(v: Violation, describe: Violation -> string): (r: string)
    ensures r == describe(v)
  {
    Join([describe(v)], ", ")
  }

  /** `validateListing`: a rejected form goes back with the violation. */
  function ValidateListing(body: Option<ListingInput>, number: string -> Option<real>,
                           describe: Violation -> string): (r: Reply)
    ensures r == Next <==> ListingAcceptable(body, number)
    ensures r != Next ==>
      r == Redirect("back", "error", describe(ListingViolation(body, number).value))
  {
    match ListingViolation(body, number)
    case None => Next
    case Some(v) => Redirect("back", "error", DetailsMessage(v, describe))
  }

  /** `validateReview`. */
  function ValidateReview(body: Option<ReviewInput>, number: string -> Option<real>,
                          describe: Violation -> string): (r: Reply)
    ensures r == Next <==> ReviewViolation(body, number).None?
    ensures r != Next ==> r == Redirect("back", "error", describe(ReviewViolation(body, number).value))
  {
    match ReviewViolation(body, number)
    case None => Next
    case Some(v) => Redirect("back", "error", DetailsMessage(v, describe))
  }

  /** `validateSignup`: a rejected form goes to the signup page. */
  function ValidateSignup(body: SignupInput, isEmail: string -> bool, describe: Violation -> string): (r: Reply)
    ensures r == Next <==> SignupViolation(body, isEmail).None?
    ensures r != Next ==> r == Redirect("/signup", "error", describe(SignupViolation(body, isEmail).value))
  {
    match SignupViolation(body, isEmail)
    case None => Next
    case Some(v) => Redirect("/signup", "error", DetailsMessage(v, describe))
  }

  /** `validateLogin`: whatever the violation, one fixed message. */
  function ValidateLogin(body: LoginInput): (r: Reply)
    ensures r == Next <==> LoginViolation(body).None?
    ensures r != Next ==> r == Redirect("/login", "error", "Username and password are required.")
  {
    if LoginViolation(body).Some? then Redirect("/login", "error", "Username and password are required.")
    else Next
  }

  /** A signup form the validator lets through always passes the
      controller's own password-length check. */
  lemma ValidatedSignupPasswordLongEnough(body: SignupInput, isEmail: string -> bool, emailTaken: bool)
    requires ValidateSignup(body, isEmail, v => "") == Next
    ensures Users.PasswordLongEnough(body.password)
    ensures Users.SignupGate(emailTaken, body.password) != Users.PasswordTooShort
  {
  }
}

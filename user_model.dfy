/** The stored user account: the fields the controllers read and update in
    place (saved listings, reset and verification tokens, verified flag). */
module UserModel {
  import opened Wrappers
  import opened ListingModel

  class User {
    var email: string
    var savedListings: seq<Id>
    /** SHA-256 digest of the outstanding password-reset token, and its expiry. */
    var resetPasswordTokenHash: Option<string>
    var resetPasswordExpires: Option<int>
    var isEmailVerified: bool
    /** SHA-256 digest of the outstanding e-mail verification token, and its expiry. */
    var verifyEmailTokenHash: Option<string>
    var verifyEmailExpires: Option<int>
    /** Stands for the salted password hash the authentication plugin keeps. */
    var password: string

    /** A new account gets the schema defaults: nothing saved, no tokens, unverified. */
    constructor (email: string, password: string)
      ensures this.email == email && this.password == password
      ensures savedListings == []
      ensures resetPasswordTokenHash == None && resetPasswordExpires == None
      ensures verifyEmailTokenHash == None && verifyEmailExpires == None
      ensures !isEmailVerified
    {
      this.email := email;
      this.password := password;
      savedListings := [];
      resetPasswordTokenHash := None;
      resetPasswordExpires := None;
      isEmailVerified := false;
      verifyEmailTokenHash := None;
      verifyEmailExpires := None;
    }
  }
}

/** Accounts: the failed-login throttle (per user name and address: a
    15-minute window, a lock after five failures), the login decision built on
    it, and the life cycle of the one-time password-reset and e-mail
    verification tokens. Only token digests are stored; `sha` stands for the
    SHA-256 hex digest and `token` for the random token drawn by the caller. */
module Users {
  import opened Wrappers
  import opened Text
  import opened UserModel

  // ---------------------------------------------------------------------------
  // User names and waiting times

  /** `(req.body.username || "").toString().trim().toLowerCase()`. */
  function UsernameLower(raw: Option<string>): (r: string)
    ensures |r| == |Trim(raw.GetOr(""))|
    ensures forall i :: 0 <= i < |r| ==> r[i] == LowerChar(Trim(raw.GetOr(""))[i])
  {
    Lower(Trim(raw.GetOr("")))
  }

  /** Normalising a normalised name changes nothing: the lookup key of a
      stored record is a fixed point. */
  lemma UsernameLowerIdempotent(raw: Option<string>)
    ensures UsernameLower(Some(UsernameLower(raw))) == UsernameLower(raw)
  {
    var t := Trim(raw.GetOr(""));
    var u := Lower(t);
    if u != [] {
      LowerCharIdempotent(t[0]);
      LowerCharIdempotent(t[|t| - 1]);
    }
    TrimmedFixed(u);
    LowerIdempotent(t);
  }

  /** `Math.ceil(ms / 60000)`. */
  function WaitMinutes(ms: int): (m: int)
    ensures (m - 1) * 60000 < ms <= m * 60000
  {
    -((-ms) / 60000)
  }

  /** `formatWait(ms)`: the minutes, rounded up, and "minute" in the
      singular exactly when that number is 1. */
  function FormatWait(ms: int): (r: string)
    ensures WaitMinutes(ms) == 1 ==> r == "1 minute"
    ensures WaitMinutes(ms) != 1 ==> r == IntToString(WaitMinutes(ms)) + " minutes"
  {
    var m := WaitMinutes(ms);
    IntToString(m) + " minute" + (if m == 1 then "" else "s")
  }

  // ---------------------------------------------------------------------------
  // The failed-login throttle

  const LoginWindow: int := 15 * 60 * 1000
  const MaxAttempts: nat := 5
  const LockDuration: int := 15 * 60 * 1000

  /** A failed-login record: failures in the current window, the time of the
      last one, and the end of the lock if any. */
  datatype Attempt = Attempt(count: nat, lastAttempt: Option<int>, lockedUntil: Option<int>)

  /** The window of `a` is over at `now`: no last attempt, or one more than
      fifteen minutes ago. */
  predicate WindowOver(a: Attempt, now: int) {
    a.lastAttempt.None? || now - a.lastAttempt.value > LoginWindow
  }

  /** The record after one more failure at `now`: a new record counts 1 with no
      lock; an old one is first reset if its window is over; the count goes up
      by one, the time is recorded, and from the fifth failure on the lock
      runs fifteen minutes from now. */
  function AfterFailure(prev: Option<Attempt>, now: int): (a: Attempt)
    ensures a.lastAttempt == Some(now)
    ensures prev.None? ==> a == Attempt(1, Some(now), None)
    ensures prev.Some? && WindowOver(prev.value, now) ==> a.count == 1 && a.lockedUntil == None
    ensures prev.Some? && !WindowOver(prev.value, now) ==>
      a.count == prev.value.count + 1 &&
      a.lockedUntil == (if a.count >= MaxAttempts then Some(now + LockDuration) else prev.value.lockedUntil)
  {
    match prev
    case None => Attempt(1, Some(now), None)
    case Some(p) =>
      var base := if WindowOver(p, now) then Attempt(0, p.lastAttempt, None) else p;
      var count := base.count + 1;
      Attempt(count, Some(now), if count >= MaxAttempts then Some(now + LockDuration) else base.lockedUntil)
  }

  /** The record after failures at each of `times`, in order. */
  function AfterFailures(prev: Option<Attempt>, times: seq<int>): Option<Attempt>
    decreases |times|
  {
    if times == [] then prev else AfterFailures(Some(AfterFailure(prev, times[0])), times[1..])
  }

  /** Each time no more than the window after the one before it. */
  predicate Spaced(times: seq<int>) {
    forall i :: 1 <= i < |times| ==> times[i] - times[i - 1] <= LoginWindow
  }

  lemma SpacedTail(times: seq<int>)
    requires times != [] && Spaced(times)
    ensures Spaced(times[1..])
  {
    var rest := times[1..];
    forall i | 1 <= i < |rest| ensures rest[i] - rest[i - 1] <= LoginWindow {
      assert rest[i] == times[i + 1] && rest[i - 1] == times[i];
    }
  }

  /** Starting from a record last touched at `last`, failures that each come
      within the window of the one before add one each to the count. */
  lemma {:induction false} CountGrows(prev: Attempt, times: seq<int>)
    requires prev.lastAttempt.Some? && Spaced([prev.lastAttempt.value] + times)
    ensures AfterFailures(Some(prev), times).Some?
    ensures AfterFailures(Some(prev), times).value.count == prev.count + |times|
    decreases |times|
  {
    if times != [] {
      var s := [prev.lastAttempt.value] + times;
      assert s[0] == prev.lastAttempt.value && s[1] == times[0];
      assert s[1] - s[0] <= LoginWindow;
      assert !WindowOver(prev, times[0]);
      var next := AfterFailure(Some(prev), times[0]);
      SpacedTail(s);
      assert s[1..] == [times[0]] + times[1..];
      CountGrows(next, times[1..]);
    }
  }

  /** From no record, failures spaced within the window count one each. */
  lemma CountFromNone(times: seq<int>)
    requires times != [] && Spaced(times)
    ensures AfterFailures(None, times).Some?
    ensures AfterFailures(None, times).value.count == |times|
    ensures AfterFailures(None, times).value.lastAttempt == Some(times[|times| - 1])
  {
    var first := AfterFailure(None, times[0]);
    assert times == [times[0]] + times[1..];
    CountGrows(first, times[1..]);
    LastAttemptIsLastTime(None, times);
  }

  /** From the fifth failure on, each failure within the window of the
      previous one locks the pair for fifteen minutes from that failure. */
  lemma LockFromFifthFailure(times: seq<int>)
    requires |times| >= MaxAttempts && Spaced(times)
    ensures AfterFailures(None, times).Some?
    ensures AfterFailures(None, times).value.count == |times|
    ensures AfterFailures(None, times).value.lockedUntil == Some(times[|times| - 1] + LockDuration)
  {
    var n := |times|;
    var prefix := times[..n - 1];
    assert Spaced(prefix) by {
      forall i | 1 <= i < |prefix| ensures prefix[i] - prefix[i - 1] <= LoginWindow {
        assert prefix[i] == times[i] && prefix[i - 1] == times[i - 1];
      }
    }
    CountFromNone(prefix);
    assert times == prefix + [times[n - 1]];
    AfterFailuresSnoc(None, prefix, times[n - 1]);
    assert times[n - 1] - times[n - 2] <= LoginWindow;
  }

  /** The first failure, and the first after a quiet window, never lock. */
  lemma FirstFailureNoLock(prev: Option<Attempt>, now: int)
    requires prev.None? || WindowOver(prev.value, now)
    ensures AfterFailure(prev, now).count == 1 && AfterFailure(prev, now).lockedUntil.None?
  {
  }

  lemma {:induction false} AfterFailuresSnoc(prev: Option<Attempt>, times: seq<int>, t: int)
    ensures AfterFailures(prev, times + [t]) == Some(AfterFailure(AfterFailures(prev, times), t))
    decreases |times|
  {
    if times == [] {
      assert [t][1..] == [];
    } else {
      assert (times + [t])[1..] == times[1..] + [t];
      AfterFailuresSnoc(Some(AfterFailure(prev, times[0])), times[1..], t);
    }
  }

  lemma {:induction false} LastAttemptIsLastTime(prev: Option<Attempt>, times: seq<int>)
    requires times != []
    ensures AfterFailures(prev, times).Some?
    ensures AfterFailures(prev, times).value.lastAttempt == Some(times[|times| - 1])
    decreases |times|
  {
    if |times| > 1 {
      LastAttemptIsLastTime(Some(AfterFailure(prev, times[0])), times[1..]);
    }
  }

  /** `lockedUntil > now` on the record of the pair, if any. */
  predicate IsLocked(records: map<(string, string), Attempt>, user: string, ip: string, now: int) {
    (user, ip) in records && records[(user, ip)].lockedUntil.Some? &&
    records[(user, ip)].lockedUntil.value > now
  }

  datatype LoginOutcome =
    | Locked(flash: string)
    | Rejected(flash: string)
    | LoggedIn(redirectTo: string)

  /** The stored failed-login records, keyed by (lower-cased user name, address). */
  class LoginThrottle {
    var records: map<(string, string), Attempt>

    constructor ()
      ensures records == map[]
    {
      records := map[];
    }

    /** `recordFailedLogin(usernameLower, ip)` at time `now`. */
    method RecordFailedLogin(user: string, ip: string, now: int)
      modifies this
      ensures user == "" || ip == "" ==> records == old(records)
      ensures user != "" && ip != "" ==>
        records == old(records)[(user, ip) :=
          AfterFailure(if (user, ip) in old(records) then Some(old(records)[(user, ip)]) else None, now)]
      ensures records == AfterFailedLogin(old(records), user, ip, now)
    {
      if user == "" || ip == "" {
        return;
      }
      if (user, ip) !in records {
        records := records[(user, ip) := Attempt(1, Some(now), None)];
        return;
      }
      var doc := records[(user, ip)];
      if doc.lastAttempt.None? || now - doc.lastAttempt.value > LoginWindow {
        doc := doc.(count := 0, lockedUntil := None);
      }
      doc := doc.(count := doc.count + 1);
      doc := doc.(lastAttempt := Some(now));
      if doc.count >= MaxAttempts {
        doc := doc.(lockedUntil := Some(now + LockDuration));
      }
      records := records[(user, ip) := doc];
    }

    /** `clearLoginAttempts(usernameLower, ip)`. */
    method ClearLoginAttempts(user: string, ip: string)
      modifies this
      ensures user == "" || ip == "" ==> records == old(records)
      ensures user != "" && ip != "" ==> records == old(records) - {(user, ip)}
      ensures records == AfterClear(old(records), user, ip)
    {
      if user == "" || ip == "" {
        return;
      }
      records := records - {(user, ip)};
    }

    /** `login`: the name is trimmed and lower-cased, then the attempt is
        judged for that key. `authenticated` is the password check's
        verdict, `info` its message ("" when none). */
    method Login(rawUser: Option<string>, ip: string, now: int, authenticated: bool,
                 info: string, redirectUrl: string)
      returns (out: LoginOutcome)
      modifies this
      ensures LoginAnswered(old(records), records, UsernameLower(rawUser), ip, now,
                            authenticated, info, redirectUrl, out)
    {
      out := LoginAs(UsernameLower(rawUser), ip, now, authenticated, info, redirectUrl);
    }

    /** The login of the normalised name `user`: a locked pair is refused
        before authentication and nothing changes; otherwise a failed
        authentication is recorded and a successful one clears the record. */
    method LoginAs(user: string, ip: string, now: int, authenticated: bool,
                   info: string, redirectUrl: string)
      returns (out: LoginOutcome)
      modifies this
      ensures LoginAnswered(old(records), records, user, ip, now, authenticated, info, redirectUrl, out)
    {
      if LockedOut(records, user, ip, now) {
        return Locked(LockedMessage(records[(user, ip)].lockedUntil.value - now));
      }
      if !authenticated {
        RecordFailedLogin(user, ip, now);
        return Rejected(if info != "" then info else "Invalid username or password.");
      }
      ClearLoginAttempts(user, ip);
      out := LoggedIn(if redirectUrl != "" then redirectUrl else "/listings");
    }
  }

  /** A login under the key `user` from `ip` is refused before
      authentication: the name is not empty and the pair is locked. */
  predicate LockedOut(records: map<(string, string), Attempt>, user: string, ip: string, now: int) {
    user != "" && IsLocked(records, user, ip, now)
  }

  /** How `login` answers the key `user` from `ip` and what it leaves in
      the records (`before` to `after`): a locked pair is refused with the
      wait message and nothing changes; otherwise a failed authentication
      is recorded and shows the provider's message or the default, and a
      successful one clears the record and goes to the saved address or
      `/listings`. */
  predicate LoginAnswered(before: map<(string, string), Attempt>, after: map<(string, string), Attempt>,
                          user: string, ip: string, now: int, authenticated: bool,
                          info: string, redirectUrl: string, out: LoginOutcome)
  {
    if LockedOut(before, user, ip, now) then
      out == Locked(LockedMessage(before[(user, ip)].lockedUntil.value - now)) && after == before
    else if !authenticated then
      out == Rejected(if info != "" then info else "Invalid username or password.") &&
      after == AfterFailedLogin(before, user, ip, now)
    else
      out == LoggedIn(if redirectUrl != "" then redirectUrl else "/listings") &&
      after == AfterClear(before, user, ip)
  }

  /** The refusal shown while locked, `waitMs` before the lock runs out. */
  function LockedMessage(waitMs: int): string {
    "Too many failed attempts. Try again in " + FormatWait(waitMs) + "."
  }

  /** The records after a failed login: the pair's record follows the
      failure rule; an empty name or address records nothing. */
  function AfterFailedLogin(records: map<(string, string), Attempt>, user: string, ip: string, now: int)
    : map<(string, string), Attempt>
  {
    if user == "" || ip == "" then records
    else records[(user, ip) := AfterFailure(if (user, ip) in records then Some(records[(user, ip)]) else None, now)]
  }

  /** The records after a successful login: the pair's record is gone. */
  function AfterClear(records: map<(string, string), Attempt>, user: string, ip: string)
    : map<(string, string), Attempt>
  {
    if user == "" || ip == "" then records else records - {(user, ip)}
  }

  /** A lock set by a failure at `t` refuses every login attempt of the pair
      until it runs out, whatever the password: the answer is the lock
      message and the records are left as they were. */
  lemma LockHolds(before: map<(string, string), Attempt>, after: map<(string, string), Attempt>,
                  user: string, ip: string, t: int, now: int, authenticated: bool,
                  info: string, redirectUrl: string, out: LoginOutcome)
    requires user != "" && (user, ip) in before && before[(user, ip)].lockedUntil == Some(t + LockDuration)
    requires t <= now < t + LockDuration
    requires LoginAnswered(before, after, user, ip, now, authenticated, info, redirectUrl, out)
    ensures out == Locked(LockedMessage(t + LockDuration - now)) && after == before
  {
    assert LockedOut(before, user, ip, now);
  }

  // ---------------------------------------------------------------------------
  // One-time tokens

  const ResetTtl: int := 30 * 60 * 1000
  const VerifyTtl: int := 24 * 60 * 60 * 1000
  const MinPasswordLength: nat := 8

  /** The store's token query: the stored digest equals the presented one and
      the expiry is strictly after now. */
  predicate TokenAccepts(storedHash: Option<string>, expires: Option<int>, presentedHash: string, now: int) {
    storedHash == Some(presentedHash) && expires.Some? && expires.value > now
  }

  /** A token issued at `issued` with lifetime `ttl` is accepted exactly
      before `issued + ttl`, and only with its own digest; once refused for
      lateness it stays refused; once spent (both fields cleared, as a
      successful reset or verification leaves them) no token is accepted. */
  lemma IssuedTokenWindow(sha: string -> string, token: string, presented: string,
                          issued: int, ttl: int, now: int, later: int)
    ensures TokenAccepts(Some(sha(token)), Some(issued + ttl), sha(presented), now) <==>
      sha(presented) == sha(token) && now < issued + ttl
    ensures now <= later && TokenAccepts(Some(sha(token)), Some(issued + ttl), sha(presented), later) ==>
      TokenAccepts(Some(sha(token)), Some(issued + ttl), sha(presented), now)
    ensures !TokenAccepts(None, None, sha(presented), now)
  {
  }

  /** A password the forms accept: present and at least eight characters. */
  predicate PasswordLongEnough(password: Option<string>) {
    password.Some? && |password.value| >= MinPasswordLength
  }

  datatype Reply = Reply(redirectTo: string, flashKind: string, flash: string)

  const GenericResetMessage: string := "If an account exists for that email, we sent a password reset link."

  /** `forgotPassword`: an unknown address gets the generic answer and nothing
      changes; a known one gets a 30-minute reset token, withdrawn again when
      the mail cannot be sent. */
  method ForgotPassword(user: User?, token: string, sha: string -> string, now: int, mailSent: bool)
    returns (reply: Reply)
    modifies user
    ensures user == null ==> reply == Reply("/forgot", "success", GenericResetMessage)
    ensures user != null && mailSent ==>
      user.resetPasswordTokenHash == Some(sha(token)) &&
      user.resetPasswordExpires == Some(now + ResetTtl) &&
      reply == Reply("/forgot", "success", GenericResetMessage)
    ensures user != null && !mailSent ==>
      user.resetPasswordTokenHash == None && user.resetPasswordExpires == None &&
      reply == Reply("/forgot", "error", "Email service error. Please try again later.")
    ensures user != null ==>
      user.password == old(user.password) && user.savedListings == old(user.savedListings) &&
      user.verifyEmailTokenHash == old(user.verifyEmailTokenHash) &&
      user.verifyEmailExpires == old(user.verifyEmailExpires) &&
      user.isEmailVerified == old(user.isEmailVerified) && user.email == old(user.email)
  {
    if user == null {
      return Reply("/forgot", "success", GenericResetMessage);
    }
    user.resetPasswordTokenHash := Some(sha(token));
    user.resetPasswordExpires := Some(now + ResetTtl);
    if !mailSent {
      user.resetPasswordTokenHash := None;
      user.resetPasswordExpires := None;
      return Reply("/forgot", "error", "Email service error. Please try again later.");
    }
    reply := Reply("/forgot", "success", GenericResetMessage);
  }

  /** `resetPassword`: a short password is refused first; then the token must
      be accepted for `holder`, the account whose stored digest the store
      looks up. On success the password is replaced and the token spent. */
  method ResetPassword(holder: User?, token: string, password: Option<string>,
                       sha: string -> string, now: int)
    returns (reply: Reply)
    modifies holder
    ensures !PasswordLongEnough(password) ==>
      reply == Reply("/reset/" + token, "error", "Password must be at least 8 characters long.") &&
      (holder != null ==> unchanged(holder))
    ensures (PasswordLongEnough(password) &&
             (holder == null || !TokenAccepts(old(holder.resetPasswordTokenHash), old(holder.resetPasswordExpires), sha(token), now))) ==>
      reply == Reply("/forgot", "error", "Reset link is invalid or expired.") &&
      (holder != null ==> unchanged(holder))
    ensures (PasswordLongEnough(password) && holder != null &&
             TokenAccepts(old(holder.resetPasswordTokenHash), old(holder.resetPasswordExpires), sha(token), now)) ==>
      reply == Reply("/login", "success", "Password updated successfully. Please log in.") &&
      holder.password == password.value &&
      holder.resetPasswordTokenHash == None && holder.resetPasswordExpires == None &&
      holder.email == old(holder.email) && holder.savedListings == old(holder.savedListings) &&
      holder.isEmailVerified == old(holder.isEmailVerified) &&
      holder.verifyEmailTokenHash == old(holder.verifyEmailTokenHash) &&
      holder.verifyEmailExpires == old(holder.verifyEmailExpires)
  {
    if password.None? || |password.value| < MinPasswordLength {
      return Reply("/reset/" + token, "error", "Password must be at least 8 characters long.");
    }
    var tokenHash := sha(token);
    if holder == null || !TokenAccepts(holder.resetPasswordTokenHash, holder.resetPasswordExpires, tokenHash, now) {
      return Reply("/forgot", "error", "Reset link is invalid or expired.");
    }
    holder.password := password.value;
    holder.resetPasswordTokenHash := None;
    holder.resetPasswordExpires := None;
    reply := Reply("/login", "success", "Password updated successfully. Please log in.");
  }

  /** `sendVerificationEmail`: a fresh 24-hour verification token is stored
      before the mail is sent, and stays stored when sending fails. */
  method SendVerificationEmail(user: User, token: string, sha: string -> string, now: int, mailSent: bool)
    returns (sent: bool)
    modifies user
    ensures sent == mailSent
    ensures user.verifyEmailTokenHash == Some(sha(token)) && user.verifyEmailExpires == Some(now + VerifyTtl)
    ensures user.isEmailVerified == old(user.isEmailVerified) && user.password == old(user.password)
    ensures user.resetPasswordTokenHash == old(user.resetPasswordTokenHash)
    ensures user.resetPasswordExpires == old(user.resetPasswordExpires)
    ensures user.email == old(user.email) && user.savedListings == old(user.savedListings)
  {
    user.verifyEmailTokenHash := Some(sha(token));
    user.verifyEmailExpires := Some(now + VerifyTtl);
    sent := mailSent;
  }

  /** `verifyEmail`: an accepted token marks the address verified and is spent. */
  method VerifyEmail(holder: User?, token: string, sha: string -> string, now: int) returns (reply: Reply)
    modifies holder
    ensures holder == null || !TokenAccepts(old(holder.verifyEmailTokenHash), old(holder.verifyEmailExpires), sha(token), now) ==>
      reply == Reply("/verify-email/resend", "error", "Verification link is invalid or expired.") &&
      (holder != null ==> unchanged(holder))
    ensures holder != null && TokenAccepts(old(holder.verifyEmailTokenHash), old(holder.verifyEmailExpires), sha(token), now) ==>
      reply == Reply("/listings", "success", "Email verified successfully!") &&
      holder.isEmailVerified && holder.verifyEmailTokenHash == None && holder.verifyEmailExpires == None &&
      holder.password == old(holder.password) && holder.email == old(holder.email) &&
      holder.resetPasswordTokenHash == old(holder.resetPasswordTokenHash) &&
      holder.resetPasswordExpires == old(holder.resetPasswordExpires) &&
      holder.savedListings == old(holder.savedListings)
  {
    var tokenHash := sha(token);
    if holder == null || !TokenAccepts(holder.verifyEmailTokenHash, holder.verifyEmailExpires, tokenHash, now) {
      return Reply("/verify-email/resend", "error", "Verification link is invalid or expired.");
    }
    holder.isEmailVerified := true;
    holder.verifyEmailTokenHash := None;
    holder.verifyEmailExpires := None;
    reply := Reply("/listings", "success", "Email verified successfully!");
  }

  const GenericVerifyMessage: string := "If the email exists, a verification link has been sent."

  /** `resendVerify`: unknown addresses get the generic answer, verified
      accounts are sent to log in, others get a new token. */
  method ResendVerify(user: User?, token: string, sha: string -> string, now: int, mailSent: bool)
    returns (reply: Reply)
    modifies user
    ensures user == null ==> reply == Reply("/verify-email/resend", "success", GenericVerifyMessage)
    ensures user != null && old(user.isEmailVerified) ==>
      reply == Reply("/login", "success", "Email is already verified. You can log in.") && unchanged(user)
    ensures user != null && !old(user.isEmailVerified) ==>
      user.verifyEmailTokenHash == Some(sha(token)) && user.verifyEmailExpires == Some(now + VerifyTtl) &&
      reply == (if mailSent then Reply("/verify-email/resend", "success", GenericVerifyMessage)
                else Reply("/verify-email/resend", "error", "Could not send verification email. Try again later.")) &&
      !user.isEmailVerified && user.password == old(user.password) &&
      user.email == old(user.email) && user.savedListings == old(user.savedListings) &&
      user.resetPasswordTokenHash == old(user.resetPasswordTokenHash) &&
      user.resetPasswordExpires == old(user.resetPasswordExpires)
  {
    if user == null {
      return Reply("/verify-email/resend", "success", GenericVerifyMessage);
    }
    if user.isEmailVerified {
      return Reply("/login", "success", "Email is already verified. You can log in.");
    }
    var sent := SendVerificationEmail(user, token, sha, now, mailSent);
    if sent {
      reply := Reply("/verify-email/resend", "success", GenericVerifyMessage);
    } else {
      reply := Reply("/verify-email/resend", "error", "Could not send verification email. Try again later.");
    }
  }

  datatype SignupDecision = EmailTaken | PasswordTooShort | Register

  /** The checks `signup` makes before registering: a taken address first,
      then the password length. */
  function SignupGate(emailTaken: bool, password: Option<string>): (d: SignupDecision)
    ensures d == Register <==> !emailTaken && PasswordLongEnough(password)
    ensures d == EmailTaken <==> emailTaken
  {
    if emailTaken then EmailTaken
    else if !PasswordLongEnough(password) then PasswordTooShort
    else Register
  }

  /** `clearSaved`: the saved list is emptied and nothing else changes. */
  method ClearSaved(user: User)
    modifies user`savedListings
    ensures user.savedListings == []
  {
    user.savedListings := [];
  }
}

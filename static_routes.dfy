/** The newsletter form of the static pages: the address is lower-cased and
    trimmed, checked against the pattern `^[^\s@]+@[^\s@]+\.[^\s@]+$`, and the
    visitor is sent back where they came from with a success or an error
    message. Nothing is stored. */
module StaticRoutes {
  import opened Wrappers
  import opened Text

  /** A run the pattern's `[^\s@]+` matches: non-empty, with no whitespace
      and no '@'. */
  predicate Part(x: string) {
    x != [] && forall k :: 0 <= k < |x| ==> !IsSpace(x[k]) && x[k] != '@'
  }

  /** The strings the pattern matches, stated as the pattern reads: a part,
      an '@', a part, a '.', a part. */
  ghost predicate EmailShape(s: string) {
    exists a, b, c :: Part(a) && Part(b) && Part(c) && s == a + "@" + b + "." + c
  }

  /** The index of the first occurrence of `c` in `s`. */
  function IndexOf(s: string, c: char): (r: Option<nat>)
    ensures r.Some? ==> r.value < |s| && s[r.value] == c && forall k :: 0 <= k < r.value ==> s[k] != c
    ensures r.None? ==> forall k :: 0 <= k < |s| ==> s[k] != c
  {
    if s == [] then None
    else if s[0] == c then Some(0)
    else
      var t := IndexOf(s[1..], c);
      if t.None? then None else Some(t.value + 1)
  }

  /** The domain after the '@' has a '.' with something on either side. */
  predicate HasInnerDot(d: string) {
    exists j :: 0 < j < |d| - 1 && d[j] == '.'
  }

  /** The pattern test, computed: split at the first '@'. */
  function MatchesEmailPattern(s: string): (r: bool)
    ensures r ==> '@' in s
  {
    match IndexOf(s, '@')
    case None => false
    case Some(i) => Part(s[..i]) && Part(s[i + 1..]) && HasInnerDot(s[i + 1..])
  }

  /** The computed test accepts exactly the strings of the pattern's shape. */
  lemma MatchesEmailPatternIffShape(s: string)
    ensures MatchesEmailPattern(s) <==> EmailShape(s)
  {
    if MatchesEmailPattern(s) {
      MatchHasShape(s);
    }
    if EmailShape(s) {
      ShapeMatches(s);
    }
  }

  /** An accepted string splits at its first '@' and at a '.' of the domain
      into the pattern's three parts. */
  lemma MatchHasShape(s: string)
    requires MatchesEmailPattern(s)
    ensures EmailShape(s)
  {
    var i := IndexOf(s, '@').value;
    var d := s[i + 1..];
    var j :| 0 < j < |d| - 1 && d[j] == '.';
    var a, b, c := s[..i], d[..j], d[j + 1..];
    assert Part(b) by {
      forall k | 0 <= k < |b| ensures !IsSpace(b[k]) && b[k] != '@' {
        assert b[k] == d[k];
      }
    }
    assert Part(c) by {
      forall k | 0 <= k < |c| ensures !IsSpace(c[k]) && c[k] != '@' {
        assert c[k] == d[j + 1 + k];
      }
    }
    assert d == b + "." + c;
    assert s == a + "@" + b + "." + c;
  }

  /** A string of the pattern's shape has its first '@' after the first
      part, and the rest passes the domain test. */
  lemma ShapeMatches(s: string)
    requires EmailShape(s)
    ensures MatchesEmailPattern(s)
  {
    var a, b, c :| Part(a) && Part(b) && Part(c) && s == a + "@" + b + "." + c;
    assert s[|a|] == '@';
    var at := IndexOf(s, '@');
    assert at == Some(|a|) by {
      forall k | 0 <= k < |a| ensures s[k] != '@' {
        assert s[k] == a[k];
      }
    }
    assert s[..|a|] == a;
    var d := s[|a| + 1..];
    assert d == b + "." + c;
    assert d[|b|] == '.';
    assert Part(d) by {
      forall k | 0 <= k < |d| ensures !IsSpace(d[k]) && d[k] != '@' {
        if k < |b| {
          assert d[k] == b[k];
        } else if k > |b| {
          assert d[k] == c[k - |b| - 1];
        }
      }
    }
  }

  /** Every accepted address has exactly one '@', not at either end. */
  lemma AcceptedHasOneAt(s: string)
    requires MatchesEmailPattern(s)
    ensures exists i :: 0 < i < |s| - 1 && s[i] == '@' &&
                        (forall k :: 0 <= k < |s| && k != i ==> s[k] != '@')
  {
    var i := IndexOf(s, '@').value;
    var d := s[i + 1..];
    forall k | 0 <= k < |s| && k != i ensures s[k] != '@' {
      if k > i {
        assert s[k] == d[k - i - 1];
      }
    }
  }

  /** The answer: a flash message and where to go. */
  datatype Reply = Reply(flashKind: string, flash: string, redirectTo: string)

  /** The address as the handler reads it: a missing field is "". */
  function NormalizedEmail(email: Option<string>): string {
    Trim(Lower(email.GetOr("")))
  }

  /** `POST /newsletter`: `referrer` is the Referrer header. */
  function Newsletter(email: Option<string>, referrer: Option<string>): (r: Reply)
    ensures r.redirectTo == (if referrer.Some? && referrer.value != "" then referrer.value else "/listings")
    ensures r.flashKind == "success" <==> EmailShape(NormalizedEmail(email))
    ensures r.flashKind == "success" ==> r.flash == "Subscribed! You’ll receive updates in your inbox."
    ensures r.flashKind != "success" ==> r == Reply("error", "Please enter a valid email address.", r.redirectTo)
  {
    var back := if referrer.Some? && referrer.value != "" then referrer.value else "/listings";
    var normalized := NormalizedEmail(email);
    MatchesEmailPatternIffShape(normalized);
    if !MatchesEmailPattern(normalized) then Reply("error", "Please enter a valid email address.", back)
    else Reply("success", "Subscribed! You’ll receive updates in your inbox.", back)
  }

  /** A missing address is rejected. */
  lemma MissingEmailRejected(referrer: Option<string>)
    ensures Newsletter(None, referrer).flashKind == "error"
  {
    assert NormalizedEmail(None) == "";
    MatchesEmailPatternIffShape("");
  }

  /** Lower-casing the address first changes nothing: the handler already
      ignores case. */
  lemma NewsletterIgnoresCase(email: string, referrer: Option<string>)
    ensures Newsletter(Some(Lower(email)), referrer) == Newsletter(Some(email), referrer)
  {
    LowerIdempotent(email);
  }
}

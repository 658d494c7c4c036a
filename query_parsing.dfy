/** The request-parsing helpers shared by the listing search and the suggestion
    endpoint: regular-expression escaping of the text query and the price parser
    with its "swap when reversed" rule. */
module QueryParsing {
  import opened Wrappers
  import opened Text
  import opened JsValues

  /** The characters that are special in a regular expression and get a backslash. */
  predicate IsRegexSpecial(c: char) {
    c in {'.', '*', '+', '?', '^', '$', '{', '}', '(', ')', '|', '[', ']', '\\'}
  }

  /** A pattern made only of escaped specials (`\` then a special) and
      ordinary characters: such a pattern matches exactly one literal text. */
  predicate FullyEscaped(p: string) {
    if p == [] then true
    else if p[0] == '\\' then |p| >= 2 && IsRegexSpecial(p[1]) && FullyEscaped(p[2..])
    else !IsRegexSpecial(p[0]) && FullyEscaped(p[1..])
  }

  /** The literal text a fully escaped pattern matches. */
  function Unescape(p: string): string {
    if p == [] then []
    else if p[0] == '\\' && |p| >= 2 then [p[1]] + Unescape(p[2..])
    else [p[0]] + Unescape(p[1..])
  }

  /** `str.replace(/[.*+?^${}()|[\]\\]/g, "\\$&")`. */
  function EscapeRegex(s: string): (r: string)
    ensures FullyEscaped(r)
    ensures |s| <= |r| <= 2 * |s|
  {
    if s == [] then []
    else if IsRegexSpecial(s[0]) then ['\\', s[0]] + EscapeRegex(s[1..])
    else [s[0]] + EscapeRegex(s[1..])
  }

  /** Escaping loses nothing: the escaped pattern matches exactly the text it
      was made from. */
  lemma {:induction false} UnescapeEscape(s: string)
    ensures Unescape(EscapeRegex(s)) == s
  {
    if s != [] {
      UnescapeEscape(s[1..]);
      var e := EscapeRegex(s);
      if IsRegexSpecial(s[0]) {
        assert e == ['\\', s[0]] + EscapeRegex(s[1..]);
        assert e[2..] == EscapeRegex(s[1..]);
      } else {
        assert e == [s[0]] + EscapeRegex(s[1..]);
        assert e[1..] == EscapeRegex(s[1..]);
      }
    }
  }

  /** Every fully escaped pattern is the escaping of its literal text, so
      escaping is a bijection between texts and fully escaped patterns. */
  lemma {:induction false} EscapeUnescape(p: string)
    requires FullyEscaped(p)
    ensures EscapeRegex(Unescape(p)) == p
  {
    if p != [] {
      if p[0] == '\\' {
        EscapeUnescape(p[2..]);
        assert Unescape(p) == [p[1]] + Unescape(p[2..]);
        assert p == ['\\', p[1]] + p[2..];
      } else {
        EscapeUnescape(p[1..]);
        assert Unescape(p) == [p[0]] + Unescape(p[1..]);
        assert p == [p[0]] + p[1..];
      }
    }
  }

  /** Text without special characters is left exactly as it is. */
  lemma {:induction false} EscapePlain(s: string)
    requires forall i :: 0 <= i < |s| ==> !IsRegexSpecial(s[i])
    ensures EscapeRegex(s) == s
  {
    if s != [] {
      EscapePlain(s[1..]);
    }
  }

  /** `parsePrice(raw)`: absent, blank, non-finite and negative inputs give
      `None`; anything else is the number `toNumber` reads from the trimmed text. */
  function ParsePrice(raw: Option<string>, toNumber: string -> JsNumber): (r: Option<real>)
    ensures r.Some? ==> r.value >= 0.0
    ensures raw.None? || Trim(raw.value) == "" ==> r.None?
    ensures raw.Some? && Trim(raw.value) != "" ==>
      var n := toNumber(Trim(raw.value));
      r == (if n.IsFinite() && n.value >= 0.0 then Some(n.value) else None)
  {
    if raw.None? then None
    else
      var s := Trim(raw.value);
      if s == "" then None
      else
        var n := toNumber(s);
        if !n.IsFinite() || n.value < 0.0 then None else Some(n.value)
  }

  /** When both bounds are present and the minimum exceeds the maximum they are
      swapped; presence of each bound is kept, and so is the pair of values. */
  function OrderBounds(lo: Option<real>, hi: Option<real>): (r: (Option<real>, Option<real>))
    ensures r.0.Some? == lo.Some? && r.1.Some? == hi.Some?
    ensures r.0.Some? && r.1.Some? ==> r.0.value <= r.1.value
    ensures r.0.Some? && r.1.Some? ==>
      {r.0.value, r.1.value} == {lo.value, hi.value}
    ensures !(lo.Some? && hi.Some?) ==> r == (lo, hi)
    ensures lo.Some? && hi.Some? && lo.value <= hi.value ==> r == (lo, hi)
  {
    if lo.Some? && hi.Some? && lo.value > hi.value then (hi, lo) else (lo, hi)
  }
}

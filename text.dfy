/** String helpers standing for the JavaScript string methods the source calls:
    `trim`, `toLowerCase`, `includes`, `startsWith` and `Array.prototype.join`. */
module Text {
  import opened Wrappers

  /** The whitespace characters `String.prototype.trim` removes that the model
      distinguishes (space, tab, line feed, carriage return, vertical tab, form
      feed, no-break space, byte-order mark). */
  predicate IsSpace(c: char) {
    c == ' ' || c == '\t' || c == '\n' || c == '\r' ||
    c == '\U{000B}' || c == '\U{000C}' || c == '\U{00A0}' || c == '\U{FEFF}'
  }

  predicate AllSpace(s: string) {
    forall i :: 0 <= i < |s| ==> IsSpace(s[i])
  }

  /** Drops leading whitespace: the result is the suffix of `s` after a run of
      whitespace, and it does not itself start with whitespace. */
  function TrimStart(s: string): (r: string)
    ensures |r| <= |s| && r == s[|s| - |r|..]
    ensures AllSpace(s[..|s| - |r|])
    ensures r == [] || !IsSpace(r[0])
  {
    if s != [] && IsSpace(s[0]) then TrimStart(s[1..]) else s
  }

  /** Drops trailing whitespace: the result is a prefix of `s` followed in `s`
      only by whitespace, and it does not itself end with whitespace. */
  function TrimEnd(s: string): (r: string)
    ensures |r| <= |s| && r == s[..|r|]
    ensures AllSpace(s[|r|..])
    ensures r == [] || !IsSpace(r[|r| - 1])
  {
    if s != [] && IsSpace(s[|s| - 1]) then TrimEnd(s[..|s| - 1]) else s
  }

  /** `s.trim()`. */
  function Trim(s: string): (r: string)
    ensures |r| <= |s|
    ensures r == [] || (!IsSpace(r[0]) && !IsSpace(r[|r| - 1]))
    ensures r == [] <==> AllSpace(s)
  {
    var t := TrimStart(s);
    var r := TrimEnd(t);
    assert r == [] ==> AllSpace(s) by {
      if r == [] {
        assert s == s[..|s| - |t|] + t;
        assert AllSpace(t[|r|..]);
      }
    }
    r
  }

  /** Trimming twice is trimming once. */
  lemma TrimIdempotent(s: string)
    ensures Trim(Trim(s)) == Trim(s)
  {
    var t := Trim(s);
    if t != [] {
      assert TrimStart(t) == t;
      assert TrimEnd(t) == t;
    }
  }

  /** Lower-casing of one character, restricted to the ASCII letters. */
  function LowerChar(c: char): char {
    if 'A' <= c <= 'Z' then (c as int - 'A' as int + 'a' as int) as char else c
  }

  /** `s.toLowerCase()` on ASCII letters; every other character is unchanged. */
  function Lower(s: string): (r: string)
    ensures |r| == |s|
    ensures forall i :: 0 <= i < |s| ==> r[i] == LowerChar(s[i])
  {
    if s == [] then [] else [LowerChar(s[0])] + Lower(s[1..])
  }

  /** Lower-casing a character twice is lower-casing it once, and it never
      turns whitespace into anything else or back. */
  lemma LowerCharIdempotent(c: char)
    ensures LowerChar(LowerChar(c)) == LowerChar(c)
    ensures IsSpace(LowerChar(c)) <==> IsSpace(c)
  {
  }

  /** Lower-casing twice is lower-casing once. */
  lemma LowerIdempotent(t: string)
    ensures Lower(Lower(t)) == Lower(t)
  {
    var u := Lower(t);
    forall i | 0 <= i < |u| ensures Lower(u)[i] == u[i] {
      LowerCharIdempotent(t[i]);
    }
  }

  /** A string with no whitespace at either end is its own trim. */
  lemma TrimmedFixed(u: string)
    requires u == [] || (!IsSpace(u[0]) && !IsSpace(u[|u| - 1]))
    ensures Trim(u) == u
  {
    if u != [] {
      assert TrimStart(u) == u;
      assert TrimEnd(u) == u;
    }
  }

  /** Case-insensitive equality as the source writes it: `a.toLowerCase() === b.toLowerCase()`. */
  predicate EqualsIgnoringCase(a: string, b: string) {
    Lower(a) == Lower(b)
  }

  /** `cs.find((c) => c.toLowerCase() === q.toLowerCase())`: the first
      element equal to `q` ignoring case. */
  function FindIgnoringCase(cs: seq<string>, q: string): (r: Option<string>)
    ensures r.Some? ==> r.value in cs && EqualsIgnoringCase(r.value, q)
    ensures r.Some? ==>
      exists i :: 0 <= i < |cs| && cs[i] == r.value && forall j :: 0 <= j < i ==> !EqualsIgnoringCase(cs[j], q)
    ensures r.None? ==> forall c :: c in cs ==> !EqualsIgnoringCase(c, q)
  {
    if cs == [] then None
    else if EqualsIgnoringCase(cs[0], q) then Some(cs[0])
    else
      var r := FindIgnoringCase(cs[1..], q);
      if r.None? then r
      else
        var i :| 0 <= i < |cs[1..]| && cs[1..][i] == r.value &&
          forall j :: 0 <= j < i ==> !EqualsIgnoringCase(cs[1..][j], q);
        assert forall j :: 0 <= j < i + 1 ==> !EqualsIgnoringCase(cs[j], q) by {
          forall j | 0 <= j < i + 1 ensures !EqualsIgnoringCase(cs[j], q) {
            if j > 0 {
              assert cs[j] == cs[1..][j - 1];
            }
          }
        }
        assert cs[i + 1] == r.value;
        r
  }

  /** `s.includes(sub)`. */
  predicate Contains(s: string, sub: string) {
    exists i :: 0 <= i <= |s| - |sub| && OccursAt(s, sub, i)
  }

  /** `sub` occurs in `s` starting at index `i`. */
  predicate OccursAt(s: string, sub: string, i: int) {
    0 <= i <= |s| - |sub| && s[i..i + |sub|] == sub
  }

  /** `s.startsWith(p)`. */
  predicate StartsWith(s: string, p: string) {
    |p| <= |s| && s[..|p|] == p
  }

  /** `parts.join(sep)`. */
  function Join(parts: seq<string>, sep: string): (r: string)
    ensures parts == [] ==> r == []
    ensures |parts| == 1 ==> r == parts[0]
  {
    if parts == [] then []
    else if |parts| == 1 then parts[0]
    else parts[0] + sep + Join(parts[1..], sep)
  }

  /** Decimal digits of a natural number. */
  function NatToString(n: nat): (r: string)
    ensures r != []
    ensures forall i :: 0 <= i < |r| ==> '0' <= r[i] <= '9'
    decreases n
  {
    var d := ['0' + (n % 10) as char];
    if n < 10 then d else NatToString(n / 10) + d
  }

  /** `${i}` for an integer. */
  function IntToString(i: int): string {
    if i < 0 then "-" + NatToString(-i) else NatToString(i)
  }
}

/**
 * String operations the components use: ASCII case mapping (standing in for
 * `toLowerCase` / `toUpperCase`), substring search (`includes`), the first
 * space-separated token (`split(' ')[0]`) and decimal rendering of counts.
 */
module Text {

  function LowerChar(c: char): (r: char)
    ensures 'A' <= c <= 'Z' ==> r as int == c as int + 32
    ensures !('A' <= c <= 'Z') ==> r == c
  {
    if 'A' <= c <= 'Z' then (c as int + 32) as char else c
  }

  function UpperChar(c: char): (r: char)
    ensures 'a' <= c <= 'z' ==> r as int == c as int - 32
    ensures !('a' <= c <= 'z') ==> r == c
  {
    if 'a' <= c <= 'z' then (c as int - 32) as char else c
  }

  /** `s.toLowerCase()`, restricted to the ASCII letters. */
  function ToLower(s: string): (r: string)
    ensures |r| == |s|
    ensures forall i :: 0 <= i < |s| ==> r[i] == LowerChar(s[i])
  {
    if s == [] then [] else [LowerChar(s[0])] + ToLower(s[1..])
  }

  /** `s.toUpperCase()`, restricted to the ASCII letters. */
  function ToUpper(s: string): (r: string)
    ensures |r| == |s|
    ensures forall i :: 0 <= i < |s| ==> r[i] == UpperChar(s[i])
  {
    if s == [] then [] else [UpperChar(s[0])] + ToUpper(s[1..])
  }

  /** Lower-casing twice changes nothing more than lower-casing once. */
  lemma ToLowerIdempotent(s: string)
    ensures ToLower(ToLower(s)) == ToLower(s)
  {
    assert forall i :: 0 <= i < |s| ==> LowerChar(LowerChar(s[i])) == LowerChar(s[i]);
  }

  /** `sub` occurs in `s` starting at index `i`. */
  ghost predicate OccursAt(s: string, sub: string, i: int) {
    0 <= i && i + |sub| <= |s| && s[i..i + |sub|] == sub
  }

  /** `sub` occurs somewhere in `s`. */
  ghost predicate Occurs(s: string, sub: string) {
    exists i :: OccursAt(s, sub, i)
  }

  /** `s.includes(sub)`: a left-to-right scan that tries every start position. */
  function Contains(s: string, sub: string): bool
    decreases |s|
  {
    if |sub| > |s| then false
    else if s[..|sub|] == sub then true
    else |s| > 0 && Contains(s[1..], sub)
  }

  /** A slice of `s[1..]` is the slice of `s` one position further on. */
  lemma TailSlice(s: string, a: int, b: int)
    requires 0 <= a <= b <= |s| - 1
    ensures s[1..][a..b] == s[a + 1..b + 1]
  {
  }

  /** The scan finds exactly the occurrences a start index witnesses. */
  lemma {:induction false} ContainsIff(s: string, sub: string)
    ensures Contains(s, sub) <==> Occurs(s, sub)
    decreases |s|
  {
    if |sub| > |s| {
      forall i | OccursAt(s, sub, i) ensures false { }
    } else if s[..|sub|] == sub {
      assert OccursAt(s, sub, 0);
    } else if |s| == 0 {
      forall i | OccursAt(s, sub, i) ensures false { }
    } else {
      ContainsIff(s[1..], sub);
      if Contains(s[1..], sub) {
        var i :| OccursAt(s[1..], sub, i);
        TailSlice(s, i, i + |sub|);
        assert OccursAt(s, sub, i + 1);
      } else {
        if Occurs(s, sub) {
          var i :| OccursAt(s, sub, i);
          assert i != 0;
          TailSlice(s, i - 1, i - 1 + |sub|);
          assert OccursAt(s[1..], sub, i - 1);
        }
      }
    }
  }

  /** The empty string occurs in every string, as with `"abc".includes("")`. */
  lemma ContainsEmpty(s: string)
    ensures Contains(s, "")
  {
    assert s[..0] == "";
  }

  /** `s.split(' ')[0]`: everything before the first space (all of `s` when there is none). */
  function FirstToken(s: string): (r: string)
    ensures |r| <= |s| && r == s[..|r|]
    ensures ' ' !in r
    ensures |r| < |s| ==> s[|r|] == ' '
  {
    if s == [] || s[0] == ' ' then [] else [s[0]] + FirstToken(s[1..])
  }

  /** The first token ends at the first space. */
  lemma FirstTokenAt(s: string, k: nat)
    requires k < |s| && s[k] == ' '
    requires forall i :: 0 <= i < k ==> s[i] != ' '
    ensures FirstToken(s) == s[..k]
  {
    var r := FirstToken(s);
    assert |r| <= k ==> s[..|r|] == r;
  }

  function DigitChar(d: nat): (c: char)
    requires d < 10
    ensures '0' <= c <= '9'
  {
    ('0' as int + d) as char
  }

  /** The decimal rendering that template literals give a non-negative integer. */
  function NatToString(n: nat): (r: string)
    ensures |r| >= 1
    ensures forall i :: 0 <= i < |r| ==> '0' <= r[i] <= '9'
    ensures (r[0] == '0') <==> (n == 0)
  {
    if n < 10 then [DigitChar(n)] else NatToString(n / 10) + [DigitChar(n % 10)]
  }

  /** The value a string of decimal digits denotes. */
  function DigitsValue(s: string): nat
    requires forall i :: 0 <= i < |s| ==> '0' <= s[i] <= '9'
  {
    if s == [] then 0 else 10 * DigitsValue(s[..|s| - 1]) + (s[|s| - 1] as int - '0' as int)
  }

  /** Rendering a count and reading it back gives the count. */
  lemma {:induction false} NatToStringRoundTrip(n: nat)
    ensures DigitsValue(NatToString(n)) == n
  {
    if n >= 10 {
      NatToStringRoundTrip(n / 10);
      var r := NatToString(n);
      assert r[..|r| - 1] == NatToString(n / 10);
    }
  }
}

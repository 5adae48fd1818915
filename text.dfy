/** String operations the system relies on: `toLowerCase()`, `includes()`
    and `trim()`. */
module Text {

  /** `c.toLowerCase()` for every character whose lower case is an ASCII
      letter: the ASCII capitals and U+212A KELVIN SIGN, which lowers to 'k'.
      Other characters are kept as they are. */
  function LowerChar(c: char): (r: char)
    ensures !('A' <= r <= 'Z')
    ensures 'a' <= c <= 'z' ==> r == c
    ensures 'A' <= c <= 'Z' ==> r as int == c as int + 32
    ensures c == '\U{212A}' ==> r == 'k'
  {
    if 'A' <= c <= 'Z' then (c as int - 'A' as int + 'a' as int) as char
    else if c == '\U{212A}' then 'k'
    else c
  }

  function ToLower(s: string): (r: string)
    ensures |r| == |s| && forall i :: 0 <= i < |s| ==> r[i] == LowerChar(s[i])
  {
    if s == [] then [] else [LowerChar(s[0])] + ToLower(s[1..])
  }

  lemma ToLowerIdempotent(s: string)
    ensures ToLower(ToLower(s)) == ToLower(s)
  {
    var t := ToLower(s);
    assert forall i :: 0 <= i < |t| ==> LowerChar(t[i]) == t[i];
  }

  /** A worked example kept as a regression check: a KELVIN SIGN in place
      of 'K' still lower-cases to an ASCII word. */
  lemma KelvinSignLowers()
    ensures ToLower("THAN\U{212A}S") == "thanks"
  {
    assert ToLower("S") == "s";
    assert ToLower("\U{212A}S") == "ks";
    assert ToLower("N\U{212A}S") == "nks";
  }

  /** `s.includes(w)`: `w` occurs in `s` starting at some position. */
  function Contains(s: string, w: string): (r: bool)
    ensures r ==> |w| <= |s|
    ensures w == [] ==> r
    decreases |s|
  {
    if |w| > |s| then false
    else if s[..|w|] == w then true
    else Contains(s[1..], w)
  }

  /** `w` occurs in `s` at position `i`. */
  predicate OccursAt(s: string, w: string, i: int) {
    0 <= i <= |s| - |w| && s[i..i + |w|] == w
  }

  /** `Contains` agrees with the definition by positions. */
  lemma {:induction false} ContainsAt(s: string, w: string)
    ensures Contains(s, w) <==> exists i :: OccursAt(s, w, i)
    decreases |s|
  {
    if |w| > |s| {
    } else if s[..|w|] == w {
      assert OccursAt(s, w, 0);
    } else {
      var t := s[1..];
      ContainsAt(t, w);
      assert !OccursAt(s, w, 0) by { assert s[0..|w|] == s[..|w|]; }
      forall i | 0 < i ensures OccursAt(s, w, i) <==> OccursAt(t, w, i - 1) {
        if i <= |s| - |w| {
          assert t[i - 1..i - 1 + |w|] == s[i..i + |w|];
        }
      }
      if Contains(t, w) {
        var i :| OccursAt(t, w, i);
        assert OccursAt(s, w, i + 1);
      }
    }
  }

  /** The characters ECMAScript's `trim()` removes: WhiteSpace and LineTerminator. */
  predicate IsSpace(c: char) {
    c == '\t' || c == '\n' || c == '\U{000B}' || c == '\U{000C}' || c == '\r' || c == ' '
    || c == '\U{00A0}' || c == '\U{1680}' || ('\U{2000}' <= c <= '\U{200A}')
    || c == '\U{2028}' || c == '\U{2029}' || c == '\U{202F}' || c == '\U{205F}'
    || c == '\U{3000}' || c == '\U{FEFF}'
  }

  predicate AllSpace(s: string) {
    forall i :: 0 <= i < |s| ==> IsSpace(s[i])
  }

  function TrimStart(s: string): (r: string)
    ensures |r| <= |s| && r == s[|s| - |r|..]
    ensures AllSpace(s[..|s| - |r|])
    ensures r != [] ==> !IsSpace(r[0])
  {
    if s != [] && IsSpace(s[0]) then TrimStart(s[1..]) else s
  }

  function TrimEnd(s: string): (r: string)
    ensures |r| <= |s| && r == s[..|r|]
    ensures AllSpace(s[|r|..])
    ensures r != [] ==> !IsSpace(r[|r| - 1])
  {
    if s != [] && IsSpace(s[|s| - 1]) then TrimEnd(s[..|s| - 1]) else s
  }

  /** `s.trim()`: `s` is the result with only white space around it. */
  function Trim(s: string): (r: string)
    ensures exists a, b :: 0 <= a <= b <= |s| && r == s[a..b] && AllSpace(s[..a]) && AllSpace(s[b..])
    ensures r != [] ==> !IsSpace(r[0]) && !IsSpace(r[|r| - 1])
  {
    var t := TrimStart(s);
    var r := TrimEnd(t);
    var a := |s| - |t|;
    var b := a + |r|;
    assert r == s[a..b];
    assert s[b..] == t[|r|..];
    assert r != [] ==> r == t[..|r|];
    r
  }

  /** `trim()` leaves nothing exactly when the string is all white space. */
  lemma TrimEmpty(s: string)
    ensures Trim(s) == [] <==> AllSpace(s)
  {
    var t := TrimStart(s);
    if t != [] {
      assert TrimEnd(t) != [] by {
        assert !IsSpace(t[0]);
        assert t[0] == t[..1][0];
      }
      assert !IsSpace(s[|s| - |t|]);
    }
  }
}

/** Character and string helpers with JavaScript's meaning. */
module Text {

  /** ASCII case folding, as a case-insensitive regular expression without the
      `u` flag applies it to the ASCII letters; every other character is kept. */
  function LowerAscii(c: char): char
  {
    if 'A' <= c <= 'Z' then (c as int + 32) as char else c
  }

  /** `s` begins with `lower` (written in lower case), ignoring ASCII case. */
  predicate StartsWithIgnoringCase(s: string, lower: string)
  {
    |lower| <= |s| && forall i :: 0 <= i < |lower| ==> LowerAscii(s[i]) == lower[i]
  }

  /** `s` equals `lower` (written in lower case), ignoring ASCII case. */
  predicate EqualsIgnoringCase(s: string, lower: string)
  {
    |s| == |lower| && StartsWithIgnoringCase(s, lower)
  }

  /** `sub` occurs in `s` starting at index `i`. */
  predicate OccursAt(s: string, sub: string, i: nat)
  {
    i + |sub| <= |s| && s[i..i + |sub|] == sub
  }

  /** `s.includes(sub)`: a case-sensitive substring search. */
  function Contains(s: string, sub: string): (r: bool)
    ensures r <==> exists i: nat :: OccursAt(s, sub, i)
    decreases |s|
  {
    if |s| < |sub| then
      assert forall i: nat :: !OccursAt(s, sub, i);
      false
    else if sub <= s then
      assert OccursAt(s, sub, 0);
      true
    else
      var r := Contains(s[1..], sub);
      assert forall i: nat :: OccursAt(s, sub, i + 1) <==> OccursAt(s[1..], sub, i) by {
        forall i: nat ensures OccursAt(s, sub, i + 1) <==> OccursAt(s[1..], sub, i) {
          if i + 1 + |sub| <= |s| {
            var a, b := s[i + 1..i + 1 + |sub|], s[1..][i..i + |sub|];
            assert forall k :: 0 <= k < |sub| ==> a[k] == b[k];
          }
        }
      }
      assert !OccursAt(s, sub, 0);
      assert (exists i: nat :: OccursAt(s, sub, i)) ==> exists i: nat :: OccursAt(s[1..], sub, i) by {
        if i: nat :| OccursAt(s, sub, i) {
          assert i > 0;
          assert OccursAt(s[1..], sub, i - 1);
        }
      }
      r
  }

  /** A witnessed occurrence makes `Contains` true. */
  lemma ContainsWitness(s: string, sub: string, i: nat)
    requires OccursAt(s, sub, i)
    ensures Contains(s, sub)
  {
  }

  /** The characters `String.prototype.trim` removes: WhiteSpace and
      LineTerminator of the ECMAScript grammar. */
  predicate IsJsWhitespace(c: char)
  {
    || c == '\t' || c == '\n' || c == '\U{B}' || c == '\U{C}' || c == '\r'
    || c == ' ' || c == '\U{A0}' || c == '\U{1680}'
    || ('\U{2000}' <= c <= '\U{200A}')
    || c == '\U{2028}' || c == '\U{2029}' || c == '\U{202F}' || c == '\U{205F}'
    || c == '\U{3000}' || c == '\U{FEFF}'
  }

  /** Every character of `s` is whitespace (vacuously so for ""). */
  predicate IsBlank(s: string)
  {
    forall i :: 0 <= i < |s| ==> IsJsWhitespace(s[i])
  }

  /** Drops leading whitespace: the result is the suffix of `s` that starts at
      its first non-whitespace character. */
  function TrimStart(s: string): (r: string)
    ensures |r| <= |s| && r == s[|s| - |r|..]
    ensures IsBlank(s[..|s| - |r|])
    ensures r == [] || !IsJsWhitespace(r[0])
  {
    if |s| > 0 && IsJsWhitespace(s[0]) then
      var r := TrimStart(s[1..]);
      assert s[..|s| - |r|] == [s[0]] + s[1..][..|s[1..]| - |r|];
      r
    else s
  }

  /** Drops trailing whitespace: the result is the prefix of `s` that ends at
      its last non-whitespace character. */
  function TrimEnd(s: string): (r: string)
    ensures r <= s
    ensures IsBlank(s[|r|..])
    ensures r == [] || !IsJsWhitespace(r[|r| - 1])
  {
    if |s| > 0 && IsJsWhitespace(s[|s| - 1]) then
      var r := TrimEnd(s[..|s| - 1]);
      assert s[|r|..] == s[..|s| - 1][|r|..] + [s[|s| - 1]];
      r
    else s
  }

  /** `s.trim()`. */
  function Trim(s: string): string
  {
    TrimEnd(TrimStart(s))
  }

  /** `!s.trim()` holds exactly when every character of `s` is whitespace. */
  lemma {:induction false} TrimEmptyIffBlank(s: string)
    ensures Trim(s) == [] <==> IsBlank(s)
  {
    var t := TrimStart(s);
    if t == [] {
      assert s[..|s| - |t|] == s;
    } else {
      assert !IsJsWhitespace(s[|s| - |t|]);
      assert TrimEnd(t) != [];
    }
  }

  /** A UTF-16 code unit, the element of a JavaScript string. */
  newtype CodeUnit = x: int | 0 <= x < 0x1_0000

  /** A JavaScript string as `length` and `substring` see it: a sequence of
      UTF-16 code units, in which a lone surrogate is allowed. */
  type JsString = seq<CodeUnit>

  /** The UTF-16 encoding of one character: a single unit below U+10000,
      otherwise a high surrogate followed by a low surrogate that together
      spell the character. */
  function EncodeChar(c: char): (units: JsString)
    ensures |units| == if c as int < 0x1_0000 then 1 else 2
    ensures |units| == 1 ==> units[0] as int == c as int
    ensures |units| == 2 ==> 0xD800 <= units[0] < 0xDC00 <= units[1] < 0xE000
    ensures |units| == 2 ==> c as int == 0x1_0000 + (units[0] as int - 0xD800) * 0x400 + (units[1] as int - 0xDC00)
  {
    var v := c as int;
    if v < 0x1_0000 then [v as CodeUnit]
    else [(0xD800 + (v - 0x1_0000) / 0x400) as CodeUnit, (0xDC00 + (v - 0x1_0000) % 0x400) as CodeUnit]
  }

  /** The UTF-16 encoding of a text. */
  function Encode(s: string): JsString
  {
    if s == [] then [] else EncodeChar(s[0]) + Encode(s[1..])
  }

  /** Encoding distributes over concatenation. */
  lemma {:induction false} EncodeAppend(a: string, b: string)
    ensures Encode(a + b) == Encode(a) + Encode(b)
  {
    if a == [] {
      assert a + b == b;
    } else {
      assert (a + b)[0] == a[0];
      assert (a + b)[1..] == a[1..] + b;
      EncodeAppend(a[1..], b);
    }
  }

  /** Text inside the Basic Multilingual Plane has one code unit per
      character. */
  lemma {:induction false} EncodeBmpLength(s: string)
    requires forall i :: 0 <= i < |s| ==> s[i] as int < 0x1_0000
    ensures |Encode(s)| == |s|
  {
    if s != [] {
      EncodeBmpLength(s[1..]);
    }
  }

  /** Text made only of characters above U+FFFF has two code units per
      character. */
  lemma {:induction false} EncodeAstralLength(s: string)
    requires forall i :: 0 <= i < |s| ==> s[i] as int >= 0x1_0000
    ensures |Encode(s)| == 2 * |s|
  {
    if s != [] {
      EncodeAstralLength(s[1..]);
    }
  }
}

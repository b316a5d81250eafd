/** The JavaScript string operations the application relies on, over Dafny
    strings (sequences of Unicode scalar values): `trim`, `includes`,
    number-to-decimal conversion, `length` in UTF-16 code units, truthiness. */
module Text {
  import opened Wrappers

  /** The characters `String.prototype.trim` removes: ECMAScript's WhiteSpace
      (tab, vertical tab, form feed, no-break space, byte order mark and every
      space separator) and LineTerminator (line feed, carriage return, line and
      paragraph separators). */
  predicate IsJsSpace(c: char) {
    || c == ' ' || c == '\t' || c == '\n' || c == '\r'
    || c == '\U{000B}' || c == '\U{000C}' || c == '\U{00A0}' || c == '\U{FEFF}'
    || c == '\U{1680}' || ('\U{2000}' <= c <= '\U{200A}')
    || c == '\U{2028}' || c == '\U{2029}' || c == '\U{202F}' || c == '\U{205F}' || c == '\U{3000}'
  }

  /** Every character of `s` is one that `trim` removes (the empty string included). */
  predicate IsBlank(s: string) {
    forall i | 0 <= i < |s| :: IsJsSpace(s[i])
  }

  /** JavaScript truthiness of a string: only the empty string is falsy. */
  predicate Truthy(s: string) {
    s != []
  }

  /** JavaScript truthiness of an optional string: present and not empty. */
  predicate TruthyKey(k: Option<string>) {
    k.Some? && Truthy(k.value)
  }

  /** `a || b` on optional strings: `a` when it is truthy, `b` otherwise. */
  function OrElse(a: Option<string>, b: Option<string>): (k: Option<string>)
    ensures TruthyKey(k) <==> TruthyKey(a) || TruthyKey(b)
    ensures TruthyKey(a) ==> k == a
    ensures !TruthyKey(a) ==> k == b
  {
    if TruthyKey(a) then a else b
  }

  /** The number of whitespace characters `trimStart` removes. */
  function LeadingSpaces(s: string): (k: nat)
    ensures k <= |s|
    ensures forall i | 0 <= i < k :: IsJsSpace(s[i])
    ensures k < |s| ==> !IsJsSpace(s[k])
    decreases |s|
  {
    if s == [] || !IsJsSpace(s[0]) then 0
    else
      var k := 1 + LeadingSpaces(s[1..]);
      assert forall i | 1 <= i < k :: s[i] == s[1..][i - 1];
      k
  }

  /** Where the whitespace that `trimEnd` removes begins. */
  function TrailingStart(s: string): (k: nat)
    ensures k <= |s|
    ensures forall i | k <= i < |s| :: IsJsSpace(s[i])
    ensures 0 < k ==> !IsJsSpace(s[k - 1])
    decreases |s|
  {
    if s == [] || !IsJsSpace(s[|s| - 1]) then |s|
    else TrailingStart(s[..|s| - 1])
  }

  /** Where the text kept by `trim` starts. */
  function TrimOffset(s: string): (k: nat)
    ensures k <= |s|
  {
    LeadingSpaces(s)
  }

  /** `String.prototype.trim`: the contiguous middle of `s` that neither starts
      nor ends with whitespace, with only whitespace cut off around it. It is
      empty exactly when `s` is blank. */
  function Trim(s: string): (r: string)
    ensures |r| <= |s|
    ensures TrimOffset(s) + |r| <= |s|
    ensures forall i | 0 <= i < |r| :: r[i] == s[TrimOffset(s) + i]
    ensures forall i | 0 <= i < TrimOffset(s) :: IsJsSpace(s[i])
    ensures forall i | TrimOffset(s) + |r| <= i < |s| :: IsJsSpace(s[i])
    ensures r != [] ==> !IsJsSpace(r[0]) && !IsJsSpace(r[|r| - 1])
    ensures r == [] <==> IsBlank(s)
  {
    TrimFacts(s);
    var k := LeadingSpaces(s);
    var e := TrailingStart(s[k..]);
    var r := s[k..k + e];
    assert |r| == e;
    r
  }

  /** What `Trim` cuts off after the kept text is whitespace, and it keeps
      nothing exactly when `s` is blank. */
  lemma TrimFacts(s: string)
    ensures var k := LeadingSpaces(s);
      var e := TrailingStart(s[k..]);
      && (forall i | k + e <= i < |s| :: IsJsSpace(s[i]))
      && (e == 0 <==> IsBlank(s))
  {
    var k := LeadingSpaces(s);
    var t := s[k..];
    ShiftedSpaces(s, k, TrailingStart(t));
    TrimEmpty(s, k, TrailingStart(t));
  }

  /** The whitespace at the end of a suffix is whitespace of the whole string. */
  lemma ShiftedSpaces(s: string, k: nat, e: nat)
    requires k <= |s| && e == TrailingStart(s[k..])
    ensures forall i | k + e <= i < |s| :: IsJsSpace(s[i])
  {
    var t := s[k..];
    forall i | k + e <= i < |s| ensures IsJsSpace(s[i]) {
      assert s[i] == t[i - k];
    }
  }

  /** Nothing is kept exactly when the string is blank. */
  lemma TrimEmpty(s: string, k: nat, e: nat)
    requires k == LeadingSpaces(s) && e == TrailingStart(s[k..])
    ensures e == 0 <==> IsBlank(s)
  {
    var t := s[k..];
    if e == 0 {
      assert k == |s|;
    } else {
      assert s[k + e - 1] == t[e - 1];
    }
  }

  /** The negation of `!key || !key.trim()`: the key is present, non-empty and
      non-empty after trimming. */
  predicate HasUsableKey(key: Option<string>) {
    key.Some? && Truthy(key.value) && Truthy(Trim(key.value))
  }

  /** A key is usable exactly when it is present and not all whitespace. */
  lemma UsableKeyIsNotBlank(key: Option<string>)
    ensures HasUsableKey(key) <==> key.Some? && !IsBlank(key.value)
  {
  }

  /** Trimming twice is trimming once. */
  lemma TrimIdempotent(s: string)
    ensures Trim(Trim(s)) == Trim(s)
  {
    var t := Trim(s);
    assert LeadingSpaces(t) == 0;
    assert TrailingStart(t) == |t|;
    assert t[0..] == t;
  }

  /** `s` has `p` as a prefix. */
  predicate StartsWith(s: string, p: string) {
    |p| <= |s| && s[..|p|] == p
  }

  /** `String.prototype.includes`: `sub` occurs somewhere in `s`. */
  predicate Contains(s: string, sub: string)
    decreases |s|
  {
    StartsWith(s, sub) || (s != [] && Contains(s[1..], sub))
  }

  /** An occurrence at a known offset is an occurrence. */
  lemma {:induction false} ContainsAt(s: string, sub: string, k: nat)
    requires k + |sub| <= |s| && s[k..k + |sub|] == sub
    ensures Contains(s, sub)
    decreases k
  {
    if k > 0 {
      assert s[1..][k - 1..k - 1 + |sub|] == s[k..k + |sub|];
      ContainsAt(s[1..], sub, k - 1);
    }
  }

  /** Every character of an occurring text occurs in the text it is found in, so a
      character missing from `s` rules out every `sub` that has it. */
  lemma {:induction false} ContainsChar(s: string, sub: string, i: nat)
    requires Contains(s, sub) && i < |sub|
    ensures sub[i] in s
    decreases |s|
  {
    if StartsWith(s, sub) {
      assert s[i] == sub[i];
    } else {
      ContainsChar(s[1..], sub, i);
      assert sub[i] in s[1..];
    }
  }

  /** An occurrence in the second part of a concatenation is an occurrence in the whole. */
  lemma {:induction false} ContainsInSuffix(a: string, b: string, sub: string)
    requires Contains(b, sub)
    ensures Contains(a + b, sub)
    decreases |a|
  {
    if a != [] {
      assert (a + b)[1..] == a[1..] + b;
      ContainsInSuffix(a[1..], b, sub);
    } else {
      assert a + b == b;
    }
  }

  /** When the first character of `sub` does not occur in `a`, an occurrence in
      `a + b` lies wholly in `b`. */
  lemma {:induction false} ContainsSkipsPrefix(a: string, b: string, sub: string)
    requires sub != [] && sub[0] !in a && Contains(a + b, sub)
    ensures Contains(b, sub)
    decreases |a|
  {
    if a == [] {
      assert a + b == b;
    } else {
      assert (a + b)[0] == a[0];
      assert (a + b)[1..] == a[1..] + b;
      ContainsSkipsPrefix(a[1..], b, sub);
    }
  }

  /** So a text that lacks one of the characters of `sub` does not contain `sub`. */
  lemma LacksChar(s: string, sub: string, i: nat)
    requires i < |sub| && sub[i] !in s
    ensures !Contains(s, sub)
  {
    if Contains(s, sub) {
      ContainsChar(s, sub, i);
    }
  }

  /** The decimal digit `d` as a character. */
  function DigitChar(d: nat): (c: char)
    requires d < 10
    ensures '0' <= c <= '9'
    ensures c as int - '0' as int == d
  {
    ('0' as int + d) as char
  }

  /** A natural number in decimal, as template literals and `toString()` print it:
      digits only, and no leading zero unless the number is zero. */
  function NatToString(n: nat): (s: string)
    ensures 1 <= |s|
    ensures forall i | 0 <= i < |s| :: '0' <= s[i] <= '9'
    ensures n > 0 ==> s[0] != '0'
    decreases n
  {
    if n < 10 then [DigitChar(n)] else NatToString(n / 10) + [DigitChar(n % 10)]
  }

  /** Different numbers print differently. */
  lemma {:induction false} NatToStringInjective(n: nat, m: nat)
    requires NatToString(n) == NatToString(m)
    ensures n == m
    decreases n
  {
    var s := NatToString(n);
    if n >= 10 && m >= 10 {
      assert s[|s| - 1] == DigitChar(n % 10) == DigitChar(m % 10);
      assert NatToString(n / 10) == s[..|s| - 1] == NatToString(m / 10);
      NatToStringInjective(n / 10, m / 10);
    }
  }

  /** JavaScript's `length` of a string: characters outside the Basic
      Multilingual Plane are stored as two UTF-16 code units. */
  function Utf16Length(s: string): (n: nat)
    ensures |s| <= n <= 2 * |s|
  {
    if s == [] then 0 else (if s[0] as int > 0xFFFF then 2 else 1) + Utf16Length(s[1..])
  }

  /** JavaScript's length of a concatenation is the sum of the lengths. */
  lemma {:induction false} Utf16LengthAppend(a: string, b: string)
    ensures Utf16Length(a + b) == Utf16Length(a) + Utf16Length(b)
    decreases |a|
  {
    if a != [] {
      assert (a + b)[1..] == a[1..] + b;
      Utf16LengthAppend(a[1..], b);
    } else {
      assert a + b == b;
    }
  }

  /** A slice is never longer, in JavaScript's length, than its text. */
  lemma {:induction false} Utf16LengthSlice(s: string, k: nat, j: nat)
    requires k <= j <= |s|
    ensures Utf16Length(s[k..j]) <= Utf16Length(s)
    decreases k
  {
    if k > 0 {
      assert s[1..][k - 1..j - 1] == s[k..j];
      Utf16LengthSlice(s[1..], k - 1, j - 1);
    } else {
      assert s == s[..j] + s[j..];
      Utf16LengthAppend(s[..j], s[j..]);
    }
  }

  /** Trimming never makes a text longer in JavaScript's length. */
  lemma TrimShortens(s: string)
    ensures Utf16Length(Trim(s)) <= Utf16Length(s)
  {
    var r := Trim(s);
    var k := TrimOffset(s);
    assert r == s[k..k + |r|];
    Utf16LengthSlice(s, k, k + |r|);
  }

  /** For text within the Basic Multilingual Plane, JavaScript's length is the
      number of characters. */
  lemma {:induction false} Utf16LengthBmp(s: string)
    requires forall i | 0 <= i < |s| :: s[i] as int <= 0xFFFF
    ensures Utf16Length(s) == |s|
  {
    if s != [] {
      Utf16LengthBmp(s[1..]);
    }
  }

  /** `toUpperCase` on one character, restricted to the ASCII letters that the
      application's fixed identifiers use. */
  function UpperAscii(c: char): (u: char)
    ensures 'a' <= c <= 'z' ==> 'A' <= u <= 'Z' && u as int - 'A' as int == c as int - 'a' as int
    ensures !('a' <= c <= 'z') ==> u == c
  {
    if 'a' <= c <= 'z' then (c as int - 32) as char else c
  }

  /** `s.charAt(0).toUpperCase() + s.slice(1)` for ASCII text. */
  function Capitalize(s: string): (r: string)
    ensures |r| == |s|
    ensures s != [] ==> r[0] == UpperAscii(s[0]) && r[1..] == s[1..]
  {
    if s == [] then [] else [UpperAscii(s[0])] + s[1..]
  }
}

/**
 The string operations the address search relies on: `String.prototype.trim`,
 the UTF-16 `length` used by the minimum-query gate, and the `<` escape applied
 to popup labels.
 */
module Text {

  /** The characters `trim` removes: ECMAScript WhiteSpace and LineTerminator code points. */
  predicate IsTrimmable(c: char) {
    || c == '\t' || c == '\n' || c == '\U{000B}' || c == '\U{000C}' || c == '\r' || c == ' '
    || c == '\U{00A0}' || c == '\U{1680}' || ('\U{2000}' <= c <= '\U{200A}')
    || c == '\U{2028}' || c == '\U{2029}' || c == '\U{202F}' || c == '\U{205F}'
    || c == '\U{3000}' || c == '\U{FEFF}'
  }

  /** True iff every character of `s` is one `trim` removes. */
  predicate AllTrimmable(s: string) {
    forall k :: 0 <= k < |s| ==> IsTrimmable(s[k])
  }

  /** Neither end of `s` is a character `trim` would remove. */
  predicate IsTrimmed(s: string) {
    s == [] || (!IsTrimmable(s[0]) && !IsTrimmable(s[|s| - 1]))
  }

  /** The index of the first character at or after `i` that `trim` keeps, or `|s|` if there is none. */
  function KeptFrom(s: string, i: nat): (n: nat)
    requires i <= |s|
    decreases |s| - i
    ensures i <= n <= |s|
    ensures forall k :: i <= k < n ==> IsTrimmable(s[k])
    ensures n < |s| ==> !IsTrimmable(s[n])
  {
    if i < |s| && IsTrimmable(s[i]) then KeptFrom(s, i + 1) else i
  }

  /** One past the last character before `j` and not before `lo` that `trim` keeps, or `lo` if there is none. */
  function KeptUntil(s: string, lo: nat, j: nat): (e: nat)
    requires lo <= j <= |s|
    decreases j
    ensures lo <= e <= j
    ensures forall k :: e <= k < j ==> IsTrimmable(s[k])
    ensures e > lo ==> !IsTrimmable(s[e - 1])
  {
    if j > lo && IsTrimmable(s[j - 1]) then KeptUntil(s, lo, j - 1) else j
  }

  /** Where the trimmed text starts inside `s`. */
  function Lead(s: string): nat
    ensures Lead(s) <= |s|
  {
    KeptFrom(s, 0)
  }

  /**
   `String.prototype.trim`: the longest infix of `s` that neither starts nor ends
   with a trimmable character; everything cut off on either side is trimmable.
   */
  function Trim(s: string): (r: string)
    ensures IsTrimmed(r)
    ensures r == [] <==> AllTrimmable(s)
    ensures Lead(s) + |r| <= |s| && r == s[Lead(s)..Lead(s) + |r|]
    ensures forall k :: 0 <= k < Lead(s) ==> IsTrimmable(s[k])
    ensures forall k :: Lead(s) + |r| <= k < |s| ==> IsTrimmable(s[k])
  {
    var a := KeptFrom(s, 0);
    var b := KeptUntil(s, a, |s|);
    s[a..b]
  }

  /** Trimming an already trimmed string changes nothing. */
  lemma TrimOfTrimmed(s: string)
    requires IsTrimmed(s)
    ensures Trim(s) == s
  {
  }

  /** `trim` is idempotent: the search query and a re-trim of it agree. */
  lemma TrimIdempotent(s: string)
    ensures Trim(Trim(s)) == Trim(s)
  {
    TrimOfTrimmed(Trim(s));
  }

  /** A string with a character `trim` keeps does not trim to the empty string. */
  lemma TrimKeepsNonBlank(s: string, k: nat)
    requires k < |s| && !IsTrimmable(s[k])
    ensures Trim(s) != []
  {
  }

  /** `String.prototype.length`: the number of UTF-16 code units, two for a character outside the Basic Multilingual Plane. */
  function Utf16Length(s: string): (n: nat)
    ensures |s| <= n <= 2 * |s|
    ensures n == 0 <==> s == []
  {
    if s == [] then 0 else (if s[0] as int > 0xFFFF then 2 else 1) + Utf16Length(s[1..])
  }

  /** One character is one UTF-16 unit, or a surrogate pair of two above U+FFFF. */
  lemma Utf16LengthOfChar(c: char)
    ensures Utf16Length([c]) == if c as int > 0xFFFF then 2 else 1
  {
    assert [c][1..] == [];
  }

  /** `length` of a concatenation is the sum of the lengths. */
  lemma {:induction false} Utf16LengthAppend(a: string, b: string)
    ensures Utf16Length(a + b) == Utf16Length(a) + Utf16Length(b)
  {
    if a == [] {
      assert a + b == b;
    } else {
      assert (a + b)[0] == a[0] && (a + b)[1..] == a[1..] + b;
      Utf16LengthAppend(a[1..], b);
    }
  }

  /** Two characters above U+FFFF already reach the three-unit minimum query length. */
  lemma Utf16LengthOfAstralPair()
    ensures Utf16Length("\U{1F600}\U{1F600}") == 4
  {
    Utf16LengthAppend("\U{1F600}", "\U{1F600}");
    Utf16LengthOfChar('\U{1F600}');
  }

  /** For text inside the Basic Multilingual Plane, `length` is the character count. */
  lemma {:induction false} Utf16LengthOfBmp(s: string)
    requires forall k :: 0 <= k < |s| ==> s[k] as int <= 0xFFFF
    ensures Utf16Length(s) == |s|
  {
    if s != [] {
      Utf16LengthOfBmp(s[1..]);
    }
  }

  /** The entity written in place of `<`. */
  const LtEntity: string := "&lt;"

  /** `replace(/</g, '&lt;')`: every `<` becomes `&lt;`, every other character is kept in order. */
  function EscapeLt(s: string): (r: string)
    ensures forall k :: 0 <= k < |r| ==> r[k] != '<'
    ensures (forall k :: 0 <= k < |s| ==> s[k] != '<') ==> r == s
  {
    if s == [] then []
    else (if s[0] == '<' then LtEntity else [s[0]]) + EscapeLt(s[1..])
  }

  /** Escaping twice is the same as escaping once. */
  lemma EscapeIdempotent(s: string)
    ensures EscapeLt(EscapeLt(s)) == EscapeLt(s)
  {
  }

  /** The escape works character by character, so it distributes over concatenation. */
  lemma {:induction false} EscapeAppend(a: string, b: string)
    ensures EscapeLt(a + b) == EscapeLt(a) + EscapeLt(b)
  {
    if a == [] {
      assert a + b == b;
    } else {
      assert (a + b)[1..] == a[1..] + b;
      EscapeAppend(a[1..], b);
    }
  }

  /** The number of `<` characters in `s`. */
  function CountLt(s: string): nat {
    if s == [] then 0 else (if s[0] == '<' then 1 else 0) + CountLt(s[1..])
  }

  /** Each `<` grows the text by the three extra characters of `&lt;`. */
  lemma {:induction false} EscapeLength(s: string)
    ensures |EscapeLt(s)| == |s| + 3 * CountLt(s)
  {
    if s != [] {
      EscapeLength(s[1..]);
    }
  }

  /** How an HTML parser reads the escaped text back, as far as `&lt;` is concerned. */
  function DecodeLt(t: string): string {
    if t == [] then []
    else if |t| >= 4 && t[..4] == LtEntity then "<" + DecodeLt(t[4..])
    else [t[0]] + DecodeLt(t[1..])
  }

  /** A label without `&` is shown exactly as it was written. */
  lemma {:induction false} DecodeEscape(s: string)
    requires forall k :: 0 <= k < |s| ==> s[k] != '&'
    ensures DecodeLt(EscapeLt(s)) == s
  {
    if s != [] {
      var head := if s[0] == '<' then LtEntity else [s[0]];
      var e := EscapeLt(s);
      assert e == head + EscapeLt(s[1..]);
      if s[0] == '<' {
        assert e[..4] == LtEntity && e[4..] == EscapeLt(s[1..]);
      } else {
        assert e[0] == s[0] && e[0] != '&';
        assert e[1..] == EscapeLt(s[1..]);
      }
      DecodeEscape(s[1..]);
    }
  }

  /** Only `<` is escaped, so a label that already spells `&lt;` is shown as `<`. */
  lemma EscapeIsLossyOnEntities()
    ensures DecodeLt(EscapeLt(LtEntity)) == "<"
    ensures DecodeLt(EscapeLt(LtEntity)) != LtEntity
  {
    assert EscapeLt(LtEntity) == LtEntity;
    assert LtEntity[..4] == LtEntity;
  }
}

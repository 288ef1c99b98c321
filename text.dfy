/**
 * The few string operations of Go's `strings` package and `unicode.IsSpace` that the generator and the
 * validators rely on, over `string` (a sequence of Unicode scalar values). A Go string is a byte
 * sequence; where a byte count matters (`len(s)`) it is computed from the UTF-8 encoding.
 */
module Text {
  import opened Wrappers

  /** Go's `unicode.IsSpace`: the ASCII blanks, NEL, NBSP and the Unicode White_Space characters. */
  predicate IsSpace(c: char) {
    || c == ' ' || c == '\t' || c == '\n' || c == '\r' || c == '\U{0B}' || c == '\U{0C}'
    || c == '\U{85}' || c == '\U{A0}' || c == '\U{1680}'
    || ('\U{2000}' <= c <= '\U{200A}')
    || c == '\U{2028}' || c == '\U{2029}' || c == '\U{202F}' || c == '\U{205F}' || c == '\U{3000}'
  }

  /** Every character of `s` is white space (vacuously so for ""). */
  predicate IsBlank(s: string) {
    forall i :: 0 <= i < |s| ==> IsSpace(s[i])
  }

  /** The index of the first non-space character of `s` at or after `k` (or |s|). */
  function SpaceEnd(s: string, k: nat): (e: nat)
    requires k <= |s|
    ensures k <= e <= |s|
    ensures forall i :: k <= i < e ==> IsSpace(s[i])
    ensures e < |s| ==> !IsSpace(s[e])
    decreases |s| - k
  {
    if k < |s| && IsSpace(s[k]) then SpaceEnd(s, k + 1) else k
  }

  /** The index just after the last non-space character of `s` before `k` (or 0). */
  function SpaceStart(s: string, k: nat): (b: nat)
    requires k <= |s|
    ensures b <= k
    ensures forall i :: b <= i < k ==> IsSpace(s[i])
    ensures b > 0 ==> !IsSpace(s[b - 1])
  {
    if k > 0 && IsSpace(s[k - 1]) then SpaceStart(s, k - 1) else k
  }

  /** `strings.TrimSpace`: the part of `s` between its leading and its trailing white space. */
  function TrimSpace(s: string): (r: string)
    ensures r != [] ==> !IsSpace(r[0]) && !IsSpace(r[|r| - 1])
    ensures exists b :: 0 <= b <= |s| - |r| && r == s[b..b + |r|]
                        && IsBlank(s[..b]) && IsBlank(s[b + |r|..])
  {
    var b, e := SpaceEnd(s, 0), SpaceStart(s, |s|);
    if e <= b then
      assert IsBlank(s[..|s|]) by { assert forall i :: 0 <= i < |s| ==> s[..|s|][i] == s[i]; }
      assert s[|s|..|s|] == [];
      []
    else
      assert IsBlank(s[..b]) by { assert forall i :: 0 <= i < b ==> s[..b][i] == s[i]; }
      assert IsBlank(s[e..]) by { assert forall i :: 0 <= i < |s| - e ==> s[e..][i] == s[e + i]; }
      s[b..e]
  }

  /** The test `len(strings.TrimSpace(s)) == 0` that the validators use means "s is blank". */
  lemma {:induction false} TrimSpaceEmptyIffBlank(s: string)
    ensures TrimSpace(s) == [] <==> IsBlank(s)
  {
    var r := TrimSpace(s);
    var b :| 0 <= b <= |s| - |r| && r == s[b..b + |r|] && IsBlank(s[..b]) && IsBlank(s[b + |r|..]);
    if r == [] {
      forall i | 0 <= i < |s| ensures IsSpace(s[i]) {
        if i < b { assert s[i] == s[..b][i]; } else { assert s[i] == s[b..][i - b]; }
      }
    } else {
      assert r[0] == s[b];
    }
  }

  /** `sep` occurs in `s` starting at index `i`. */
  predicate OccursAt(s: string, sep: string, i: nat) {
    i + |sep| <= |s| && s[i..i + |sep|] == sep
  }

  function IndexFrom(s: string, sep: string, k: nat): (r: Option<nat>)
    requires k <= |s|
    ensures r.Some? ==> k <= r.value && OccursAt(s, sep, r.value)
                        && forall j :: k <= j < r.value ==> !OccursAt(s, sep, j)
    ensures r.None? ==> forall j :: k <= j ==> !OccursAt(s, sep, j)
    decreases |s| - k
  {
    if OccursAt(s, sep, k) then Some(k)
    else if k + |sep| >= |s| then None
    else IndexFrom(s, sep, k + 1)
  }

  /** `strings.Index`: the first position at which `sep` occurs in `s`. */
  function IndexOf(s: string, sep: string): (r: Option<nat>)
    ensures r.Some? ==> OccursAt(s, sep, r.value) && forall j :: 0 <= j < r.value ==> !OccursAt(s, sep, j)
    ensures r.None? ==> forall j :: !OccursAt(s, sep, j)
  {
    IndexFrom(s, sep, 0)
  }

  /** `strings.Contains`. */
  predicate Contains(s: string, sep: string) {
    IndexOf(s, sep).Some?
  }

  /**
   * `strings.Split(s, sep)[1]` when the split has a second part: the text between the first occurrence
   * of `sep` and the next one (or the end of `s`). None when `sep` does not occur.
   */
  function SecondPart(s: string, sep: string): (r: Option<string>)
    requires sep != []
    ensures r.Some? <==> Contains(s, sep)
    ensures r.Some? ==> exists i: nat :: OccursAt(s, sep, i) && r.value <= s[i + |sep|..]
    ensures r.Some? ==> forall j :: !OccursAt(r.value, sep, j)
  {
    match IndexOf(s, sep)
    case None => None
    case Some(i) =>
      var rest := s[i + |sep|..];
      match IndexOf(rest, sep)
      case None => Some(rest)
      case Some(j) =>
        forall k: nat | OccursAt(rest[..j], sep, k) ensures false {
          assert rest[..j][k..k + |sep|] == rest[k..k + |sep|];
          assert OccursAt(rest, sep, k) && k < j;
        }
        Some(rest[..j])
  }

  /** `strings.HasSuffix`. */
  predicate HasSuffix(s: string, suffix: string) {
    |suffix| <= |s| && s[|s| - |suffix|..] == suffix
  }

  /** `strings.TrimSuffix`: `s` without `suffix` when it ends with it, `s` itself otherwise. */
  function TrimSuffix(s: string, suffix: string): (r: string)
    ensures HasSuffix(s, suffix) ==> r + suffix == s
    ensures !HasSuffix(s, suffix) ==> r == s
  {
    if HasSuffix(s, suffix) then s[..|s| - |suffix|] else s
  }

  /** Upper case of an ASCII letter; every other character is left as it is. */
  function AsciiUpper(c: char): (u: char)
    ensures 'a' <= c <= 'z' ==> u as int == c as int - 32
    ensures !('a' <= c <= 'z') ==> u == c
  {
    if 'a' <= c <= 'z' then (c as int - 32) as char else c
  }

  /** Lower case of an ASCII letter; every other character is left as it is. */
  function AsciiLower(c: char): (l: char)
    ensures 'A' <= c <= 'Z' ==> l as int == c as int + 32
    ensures !('A' <= c <= 'Z') ==> l == c
  {
    if 'A' <= c <= 'Z' then (c as int + 32) as char else c
  }

  /** `strings.ToLower` restricted to ASCII letters. */
  function ToLower(s: string): (r: string)
    ensures |r| == |s| && forall i :: 0 <= i < |s| ==> r[i] == AsciiLower(s[i])
  {
    seq(|s|, i requires 0 <= i < |s| => AsciiLower(s[i]))
  }

  /** `strings.ToUpper` restricted to ASCII letters. */
  function ToUpper(s: string): (r: string)
    ensures |r| == |s| && forall i :: 0 <= i < |s| ==> r[i] == AsciiUpper(s[i])
  {
    seq(|s|, i requires 0 <= i < |s| => AsciiUpper(s[i]))
  }

  /** Number of bytes of the UTF-8 encoding of one character. */
  function Utf8Width(c: char): (n: nat)
    ensures 1 <= n <= 4
    ensures n == 1 <==> c as int < 0x80
  {
    if c as int < 0x80 then 1 else if c as int < 0x800 then 2 else if c as int < 0x1_0000 then 3 else 4
  }

  /** Go's `len(s)` for the UTF-8 encoding of `s`: its length in bytes. */
  function Utf8Len(s: string): nat
  {
    if s == [] then 0 else Utf8Len(s[..|s| - 1]) + Utf8Width(s[|s| - 1])
  }

  /** The byte length is at least the character count, and equals it exactly for ASCII text. */
  lemma {:induction false} Utf8LenBounds(s: string)
    ensures |s| <= Utf8Len(s) <= 4 * |s|
    ensures Utf8Len(s) == |s| <==> forall i :: 0 <= i < |s| ==> s[i] as int < 0x80
  {
    if s != [] {
      var p := s[..|s| - 1];
      Utf8LenBounds(p);
      if Utf8Len(s) == |s| {
        forall i | 0 <= i < |s| ensures s[i] as int < 0x80 {
          if i < |p| { assert s[i] == p[i]; }
        }
      }
      if forall i :: 0 <= i < |s| ==> s[i] as int < 0x80 {
        assert forall i :: 0 <= i < |p| ==> p[i] == s[i];
      }
    }
  }

  /** The decimal digit for 0 <= d < 10. */
  function DigitChar(d: nat): char
    requires d < 10
  {
    "0123456789"[d]
  }

  /** Go's `%d` of a non-negative number: its decimal digits, most significant first. */
  function NatText(n: nat): (s: string)
    ensures |s| > 0 && forall i :: 0 <= i < |s| ==> '0' <= s[i] <= '9'
    ensures |s| > 1 ==> s[0] != '0'
  {
    if n < 10 then [DigitChar(n)] else NatText(n / 10) + [DigitChar(n % 10)]
  }

  /** The number a string of decimal digits spells. */
  function DigitsValue(s: string): nat
    requires forall i :: 0 <= i < |s| ==> '0' <= s[i] <= '9'
  {
    if s == [] then 0 else 10 * DigitsValue(s[..|s| - 1]) + (s[|s| - 1] as int - '0' as int)
  }

  /** The decimal text reads back as the number it was made from. */
  lemma {:induction false} NatTextValue(n: nat)
    ensures DigitsValue(NatText(n)) == n
  {
    if n >= 10 {
      NatTextValue(n / 10);
      var s := NatText(n);
      assert s[..|s| - 1] == NatText(n / 10);
    }
  }

  /** Go's `%d`: a minus sign before the digits of a negative number. */
  function IntText(n: int): (s: string)
    ensures n >= 0 ==> s == NatText(n)
    ensures n < 0 ==> s == "-" + NatText(-n)
  {
    if n < 0 then "-" + NatText(-n) else NatText(n)
  }
}

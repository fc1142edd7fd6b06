/** String helpers the screens and stores rely on: Swift's `<` on String (by
    character code), `trimmingCharacters(in: .whitespacesAndNewlines)`,
    decimal interpolation of an Int, `joined(separator:)`, and Swift's `%`. */
module Text {

  /** `a <= b` in the lexicographic order of character codes. */
  predicate StrLe(a: string, b: string) {
    if |a| == 0 then true
    else if |b| == 0 then false
    else if a[0] != b[0] then a[0] < b[0]
    else StrLe(a[1..], b[1..])
  }

  lemma {:induction false} StrLeTotal(a: string, b: string)
    ensures StrLe(a, b) || StrLe(b, a)
  {
    if |a| > 0 && |b| > 0 && a[0] == b[0] {
      StrLeTotal(a[1..], b[1..]);
    }
  }

  lemma {:induction false} StrLeTransitive(a: string, b: string, c: string)
    requires StrLe(a, b) && StrLe(b, c)
    ensures StrLe(a, c)
  {
    if |a| > 0 && |b| > 0 && |c| > 0 && a[0] == b[0] == c[0] {
      StrLeTransitive(a[1..], b[1..], c[1..]);
    }
  }

  lemma {:induction false} StrLeAntisymmetric(a: string, b: string)
    requires StrLe(a, b) && StrLe(b, a)
    ensures a == b
  {
    if |a| > 0 {
      StrLeAntisymmetric(a[1..], b[1..]);
      assert a == [a[0]] + a[1..] && b == [b[0]] + b[1..];
    }
  }

  /** Membership in CharacterSet.whitespacesAndNewlines: the Unicode space
      separators, line and paragraph separators, U+0009...U+000D and U+0085. */
  predicate IsWhitespaceOrNewline(c: char) {
    || c == ' ' || ('\t' <= c <= '\r') || c == '\U{85}' || c == '\U{A0}' || c == '\U{1680}'
    || ('\U{2000}' <= c <= '\U{200A}') || c == '\U{2028}' || c == '\U{2029}'
    || c == '\U{202F}' || c == '\U{205F}' || c == '\U{3000}'
  }

  predicate IsBlank(s: string) {
    forall i :: 0 <= i < |s| ==> IsWhitespaceOrNewline(s[i])
  }

  /** Drops the leading whitespace and newlines. */
  function TrimLeading(s: string): string {
    if |s| > 0 && IsWhitespaceOrNewline(s[0]) then TrimLeading(s[1..]) else s
  }

  /** What leading trimming keeps is a suffix that starts with a character that is not
      whitespace, and what it drops is blank. */
  lemma {:induction false} TrimLeadingFacts(s: string)
    ensures var r := TrimLeading(s);
      && |r| <= |s| && r == s[|s| - |r|..]
      && (r == [] || !IsWhitespaceOrNewline(r[0]))
      && IsBlank(s[..|s| - |r|])
  {
    if |s| > 0 && IsWhitespaceOrNewline(s[0]) {
      TrimLeadingFacts(s[1..]);
      var r := TrimLeading(s[1..]);
      assert s[..|s| - |r|] == [s[0]] + s[1..][..|s[1..]| - |r|];
    }
  }

  /** Drops the trailing whitespace and newlines. */
  function TrimTrailing(s: string): string {
    if |s| > 0 && IsWhitespaceOrNewline(s[|s| - 1]) then TrimTrailing(s[..|s| - 1]) else s
  }

  /** What trailing trimming keeps is a prefix that ends with a character that is not
      whitespace, and what it drops is blank. */
  lemma {:induction false} TrimTrailingFacts(s: string)
    ensures var r := TrimTrailing(s);
      && |r| <= |s| && r == s[..|r|]
      && (r == [] || !IsWhitespaceOrNewline(r[|r| - 1]))
      && IsBlank(s[|r|..])
  {
    if |s| > 0 && IsWhitespaceOrNewline(s[|s| - 1]) {
      TrimTrailingFacts(s[..|s| - 1]);
      var r := TrimTrailing(s[..|s| - 1]);
      assert s[|r|..] == s[..|s| - 1][|r|..] + [s[|s| - 1]];
    }
  }

  /** trimmingCharacters(in: .whitespacesAndNewlines). */
  function Trim(s: string): (r: string)
    ensures |r| <= |s|
    ensures r == [] || (!IsWhitespaceOrNewline(r[0]) && !IsWhitespaceOrNewline(r[|r| - 1]))
  {
    TrimLeadingFacts(s);
    TrimTrailingFacts(TrimLeading(s));
    TrimTrailing(TrimLeading(s))
  }

  /** The trimmed text is empty exactly when the text is blank. */
  lemma TrimEmptyIffBlank(s: string)
    ensures Trim(s) == [] <==> IsBlank(s)
  {
    TrimLeadingFacts(s);
    var l := TrimLeading(s);
    TrimTrailingFacts(l);
    if Trim(s) == [] {
      assert IsBlank(l[0..]);
      assert l == [];
      assert s[..|s|] == s;
    } else {
      var i := |s| - |l|;
      assert s[i] == l[0];
    }
  }

  /** Trimming twice is trimming once. */
  lemma TrimIdempotent(s: string)
    ensures Trim(Trim(s)) == Trim(s)
  {
    var t := Trim(s);
    if t != [] {
      TrimLeadingFacts(t);
      TrimTrailingFacts(t);
      assert TrimLeading(t) == t;
      assert TrimTrailing(t) == t;
    }
  }

  /** Swift's `%` on Int, which truncates toward zero (Dafny's `%` is Euclidean). */
  function SwiftRem(a: int, m: int): (r: int)
    requires m > 0
    ensures a >= 0 ==> 0 <= r < m && r == a % m
    ensures a < 0 ==> -m < r <= 0 && r == -((-a) % m)
  {
    if a >= 0 then a % m else -((-a) % m)
  }

  function DigitChar(d: nat): (c: char)
    requires d < 10
    ensures '0' <= c <= '9' && c as int - '0' as int == d
  {
    "0123456789"[d]
  }

  /** The decimal digits of `n`, as string interpolation writes them. */
  function NatToString(n: nat): (s: string)
    ensures |s| >= 1
    ensures forall i :: 0 <= i < |s| ==> '0' <= s[i] <= '9'
    ensures n > 0 ==> s[0] != '0'
  {
    if n < 10 then [DigitChar(n)] else NatToString(n / 10) + [DigitChar(n % 10)]
  }

  /** The number a string of decimal digits denotes. */
  function DecimalValue(s: string): nat
    requires forall i :: 0 <= i < |s| ==> '0' <= s[i] <= '9'
  {
    if |s| == 0 then 0 else DecimalValue(s[..|s| - 1]) * 10 + (s[|s| - 1] as int - '0' as int)
  }

  /** Reading the written digits back gives the number. */
  lemma {:induction false} NatToStringRoundTrip(n: nat)
    ensures DecimalValue(NatToString(n)) == n
  {
    if n >= 10 {
      var s := NatToString(n);
      assert s[..|s| - 1] == NatToString(n / 10);
      NatToStringRoundTrip(n / 10);
    }
  }

  /** `"\(n)"` for an Int. */
  function IntToString(n: int): (s: string)
    ensures |s| >= 1
    ensures n < 0 <==> s[0] == '-'
  {
    if n < 0 then "-" + NatToString(-n) else NatToString(n)
  }

  /** `joined(separator:)`. */
  function Join(parts: seq<string>, sep: string): string {
    if |parts| == 0 then ""
    else if |parts| == 1 then parts[0]
    else parts[0] + sep + Join(parts[1..], sep)
  }
}

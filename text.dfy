/**
 * Strings as sequences of UTF-16 code units (one `char` per unit, Basic Multilingual
 * Plane only), with the Foundation character sets, trimming, ASCII case mapping,
 * splitting and joining that the application's string handling relies on.
 */
module Text {
  import opened Wrappers

  type String = seq<char>

  // ---------------------------------------------------------------------------
  // Character classes
  // ---------------------------------------------------------------------------

  /** Unicode general category Zs (space separators). */
  predicate IsSpaceSeparator(c: char) {
    c == ' ' || c == '\U{00A0}' || c == '\U{1680}' || ('\U{2000}' <= c <= '\U{200A}')
    || c == '\U{202F}' || c == '\U{205F}' || c == '\U{3000}'
  }

  /** Foundation's `CharacterSet.newlines`: U+000A through U+000D, U+0085, U+2028, U+2029. */
  predicate IsNewline(c: char) {
    ('\n' <= c <= '\r') || c == '\U{0085}' || c == '\U{2028}' || c == '\U{2029}'
  }

  /** Foundation's `CharacterSet.whitespaces`: tab and the space separators. */
  predicate IsWhitespace(c: char) {
    c == '\t' || IsSpaceSeparator(c)
  }

  /** The character sets the source trims and splits by. */
  datatype CharSet = Whitespaces | Newlines | WhitespacesAndNewlines | Just(c: char)

  predicate InSet(c: char, cs: CharSet) {
    match cs
    case Whitespaces => IsWhitespace(c)
    case Newlines => IsNewline(c)
    case WhitespacesAndNewlines => IsWhitespace(c) || IsNewline(c)
    case Just(d) => c == d
  }

  /** ICU's `\s`: tab, newline, form feed, carriage return and category Z. */
  predicate IsRegexSpace(c: char) {
    c == '\t' || c == '\n' || c == '\U{000C}' || c == '\r' || IsSpaceSeparator(c)
    || c == '\U{2028}' || c == '\U{2029}'
  }

  /** ICU's line terminators, which `.` does not match and before which `$` may match. */
  predicate IsRegexLineTerminator(c: char) {
    ('\n' <= c <= '\r') || c == '\U{0085}' || c == '\U{2028}' || c == '\U{2029}'
  }

  predicate IsAsciiDigit(c: char) {
    '0' <= c <= '9'
  }

  /**
   * ICU's `\d`, the Unicode category Nd (decimal digit), over UTF-16 code
   * units: the ASCII digits and the 36 other ten-digit blocks of the Basic
   * Multilingual Plane (Arabic-Indic through Meetei Mayek and the fullwidth digits).
   */
  predicate IsRegexDigit(c: char) {
    IsAsciiDigit(c) || ('\U{0660}' <= c && IsOtherDecimalDigit(c))
  }

  /** The number of ten-digit Nd blocks of the BMP after the ASCII digits. */
  const OtherDigitBlockCount := 36

  /** The first code unit of block `k` of those, in increasing order. */
  function DigitBlockStart(k: nat): int
    requires k < OtherDigitBlockCount
  {
    if k == 0 then 0x0660
    else if k == 1 then 0x06F0
    else if k == 2 then 0x07C0
    else if k == 3 then 0x0966
    else if k == 4 then 0x09E6
    else if k == 5 then 0x0A66
    else if k == 6 then 0x0AE6
    else if k == 7 then 0x0B66
    else if k == 8 then 0x0BE6
    else if k == 9 then 0x0C66
    else if k == 10 then 0x0CE6
    else if k == 11 then 0x0D66
    else if k == 12 then 0x0DE6
    else if k == 13 then 0x0E50
    else if k == 14 then 0x0ED0
    else if k == 15 then 0x0F20
    else if k == 16 then 0x1040
    else if k == 17 then 0x1090
    else if k == 18 then 0x17E0
    else if k == 19 then 0x1810
    else if k == 20 then 0x1946
    else if k == 21 then 0x19D0
    else if k == 22 then 0x1A80
    else if k == 23 then 0x1A90
    else if k == 24 then 0x1B50
    else if k == 25 then 0x1BB0
    else if k == 26 then 0x1C40
    else if k == 27 then 0x1C50
    else if k == 28 then 0xA620
    else if k == 29 then 0xA8D0
    else if k == 30 then 0xA900
    else if k == 31 then 0xA9D0
    else if k == 32 then 0xA9F0
    else if k == 33 then 0xAA50
    else if k == 34 then 0xABF0
    else 0xFF10
  }

  /** `v` lies in one of the blocks from `k` on. */
  predicate InDigitBlockFrom(v: int, k: nat)
    decreases OtherDigitBlockCount - k
  {
    k < OtherDigitBlockCount
    && ((DigitBlockStart(k) <= v < DigitBlockStart(k) + 10) || InDigitBlockFrom(v, k + 1))
  }

  /** The decimal digits of the BMP outside ASCII. */
  predicate IsOtherDecimalDigit(c: char) {
    InDigitBlockFrom(c as int, 0)
  }

  /** A code unit in block `k` lies in the blocks from any `j <= k` on. */
  lemma {:induction false} InDigitBlockAt(v: int, j: nat, k: nat)
    requires j <= k < OtherDigitBlockCount && DigitBlockStart(k) <= v < DigitBlockStart(k) + 10
    ensures InDigitBlockFrom(v, j)
    decreases k - j
  {
    if j < k {
      InDigitBlockAt(v, j + 1, k);
    }
  }

  /** Every character of `s` belongs to `cs`. */
  predicate AllIn(s: String, cs: CharSet) {
    forall i :: 0 <= i < |s| ==> InSet(s[i], cs)
  }

  /** No character of `s` belongs to `cs`. */
  predicate NoneIn(s: String, cs: CharSet) {
    forall i :: 0 <= i < |s| ==> !InSet(s[i], cs)
  }

  // ---------------------------------------------------------------------------
  // Trimming (`trimmingCharacters(in:)`)
  // ---------------------------------------------------------------------------

  function TrimStart(s: String, cs: CharSet): (r: String)
    ensures |r| <= |s|
    ensures r != [] ==> !InSet(r[0], cs)
    decreases |s|
  {
    if s != [] && InSet(s[0], cs) then TrimStart(s[1..], cs) else s
  }

  /** `TrimStart` removes a prefix made only of members of `cs`. */
  lemma {:induction false} TrimStartSuffix(s: String, cs: CharSet)
    ensures var r := TrimStart(s, cs);
      r == s[|s| - |r|..] && AllIn(s[..|s| - |r|], cs)
    decreases |s|
  {
    if s != [] && InSet(s[0], cs) {
      TrimStartSuffix(s[1..], cs);
      var r := TrimStart(s[1..], cs);
      assert s[1..][..|s| - 1 - |r|] == s[1..|s| - |r|];
    }
  }

  function TrimEnd(s: String, cs: CharSet): (r: String)
    ensures |r| <= |s|
    ensures r != [] ==> !InSet(r[|r| - 1], cs)
    decreases |s|
  {
    if s != [] && InSet(s[|s| - 1], cs) then TrimEnd(s[..|s| - 1], cs) else s
  }

  /** `TrimEnd` removes a suffix made only of members of `cs`. */
  lemma {:induction false} TrimEndPrefix(s: String, cs: CharSet)
    ensures var r := TrimEnd(s, cs);
      r == s[..|r|] && AllIn(s[|r|..], cs)
    decreases |s|
  {
    if s != [] && InSet(s[|s| - 1], cs) {
      TrimEndPrefix(s[..|s| - 1], cs);
      var r := TrimEnd(s[..|s| - 1], cs);
      assert s[|r|..] == s[..|s| - 1][|r|..] + [s[|s| - 1]];
    }
  }

  /** `trimmingCharacters(in: cs)`: `s` without its leading and trailing members of `cs`. */
  function Trim(s: String, cs: CharSet): (r: String)
    ensures |r| <= |s|
    ensures r != [] ==> !InSet(r[0], cs) && !InSet(r[|r| - 1], cs)
  {
    TrimEndPrefix(TrimStart(s, cs), cs);
    TrimEnd(TrimStart(s, cs), cs)
  }

  /** The source's "trim then lowercase" normalisation of names and tags. */
  function TrimLower(s: String): String {
    ToLower(Trim(s, WhitespacesAndNewlines))
  }

  lemma TrimStartOfTrimmed(s: String, cs: CharSet)
    requires s == [] || !InSet(s[0], cs)
    ensures TrimStart(s, cs) == s
  {
  }

  lemma TrimEndOfTrimmed(s: String, cs: CharSet)
    requires s == [] || !InSet(s[|s| - 1], cs)
    ensures TrimEnd(s, cs) == s
  {
  }

  /** A string that neither starts nor ends with a member of `cs` is its own trim. */
  lemma TrimOfTrimmed(s: String, cs: CharSet)
    requires s == [] || (!InSet(s[0], cs) && !InSet(s[|s| - 1], cs))
    ensures Trim(s, cs) == s
  {
    TrimStartOfTrimmed(s, cs);
    TrimEndOfTrimmed(s, cs);
  }

  lemma {:induction false} TrimStartEmptyIff(s: String, cs: CharSet)
    ensures TrimStart(s, cs) == [] <==> AllIn(s, cs)
    decreases |s|
  {
    if s != [] && InSet(s[0], cs) {
      TrimStartEmptyIff(s[1..], cs);
      assert AllIn(s, cs) <==> AllIn(s[1..], cs) by {
        if AllIn(s[1..], cs) {
          forall i | 0 <= i < |s| ensures InSet(s[i], cs) {
            if i > 0 { assert s[i] == s[1..][i - 1]; }
          }
        }
      }
    }
  }

  /** Trimming leaves nothing exactly when every character is in the set. */
  lemma TrimEmptyIff(s: String, cs: CharSet)
    ensures Trim(s, cs) == [] <==> AllIn(s, cs)
  {
    TrimStartEmptyIff(s, cs);
    var t := TrimStart(s, cs);
    var r := TrimEnd(t, cs);
    TrimEndPrefix(t, cs);
    assert r == [] ==> AllIn(t, cs) by { assert r == [] ==> t[|r|..] == t; }
    assert t != [] ==> r != [];
  }

  lemma TrimStartCons(c: char, s: String, cs: CharSet)
    requires InSet(c, cs)
    ensures TrimStart([c] + s, cs) == TrimStart(s, cs)
  {
    assert ([c] + s)[1..] == s;
  }

  lemma TrimStartIdempotent(s: String, cs: CharSet)
    ensures TrimStart(TrimStart(s, cs), cs) == TrimStart(s, cs)
  {
    TrimStartOfTrimmed(TrimStart(s, cs), cs);
  }

  /** Trimming the front first does not change the full trim. */
  lemma TrimOfTrimStart(s: String, cs: CharSet)
    ensures Trim(TrimStart(s, cs), cs) == Trim(s, cs)
  {
    TrimStartIdempotent(s, cs);
  }

  /** Trimming keeps a contiguous part of the string, so it adds no character. */
  lemma TrimSubset(s: String, cs: CharSet, c: char)
    requires c in Trim(s, cs)
    ensures c in s
  {
    var t := TrimStart(s, cs);
    var r := TrimEnd(t, cs);
    TrimStartSuffix(s, cs);
    TrimEndPrefix(t, cs);
    var i :| 0 <= i < |r| && r[i] == c;
    assert t[i] == c;
    assert s[|s| - |t| + i] == c;
  }

  /** A character absent from a string is absent from its trim. */
  lemma TrimNotIn(s: String, cs: CharSet, c: char)
    requires c !in s
    ensures c !in Trim(s, cs)
  {
    if c in Trim(s, cs) {
      TrimSubset(s, cs, c);
    }
  }

  /** Trimming is idempotent. */
  lemma TrimIdempotent(s: String, cs: CharSet)
    ensures Trim(Trim(s, cs), cs) == Trim(s, cs)
  {
    TrimOfTrimmed(Trim(s, cs), cs);
  }

  // ---------------------------------------------------------------------------
  // Case mapping (ASCII letters only)
  // ---------------------------------------------------------------------------

  function LowerChar(c: char): char {
    if 'A' <= c <= 'Z' then (c as int + 32) as char else c
  }

  function UpperChar(c: char): char {
    if 'a' <= c <= 'z' then (c as int - 32) as char else c
  }

  /** `lowercased()`, restricted to ASCII letters. */
  function ToLower(s: String): (r: String)
    ensures |r| == |s|
    ensures forall i {:trigger r[i]} :: 0 <= i < |s| ==> r[i] == LowerChar(s[i])
  {
    seq(|s|, i requires 0 <= i < |s| => LowerChar(s[i]))
  }

  /** `uppercased()`, restricted to ASCII letters. */
  function ToUpper(s: String): (r: String)
    ensures |r| == |s|
    ensures forall i {:trigger r[i]} :: 0 <= i < |s| ==> r[i] == UpperChar(s[i])
  {
    seq(|s|, i requires 0 <= i < |s| => UpperChar(s[i]))
  }

  predicate IsLowercase(s: String) {
    ToLower(s) == s
  }

  /** Lowercasing produces a comma only from a comma. */
  lemma ToLowerKeepsCommaFree(s: String)
    requires ',' !in s
    ensures ',' !in ToLower(s)
  {
  }

  lemma ToLowerIdempotent(s: String)
    ensures ToLower(ToLower(s)) == ToLower(s)
  {
  }

  lemma ToLowerAppend(a: String, b: String)
    ensures ToLower(a + b) == ToLower(a) + ToLower(b)
  {
  }

  /** Lowercasing changes no character's membership of a whitespace or newline set. */
  lemma LowerCharInSet(c: char, cs: CharSet)
    requires !cs.Just?
    ensures InSet(LowerChar(c), cs) <==> InSet(c, cs)
  {
  }

  lemma {:induction false} TrimStartToLower(s: String, cs: CharSet)
    requires !cs.Just?
    ensures TrimStart(ToLower(s), cs) == ToLower(TrimStart(s, cs))
    decreases |s|
  {
    if s != [] {
      var l := ToLower(s);
      assert l[0] == LowerChar(s[0]);
      LowerCharInSet(s[0], cs);
      if InSet(s[0], cs) {
        assert l[1..] == ToLower(s[1..]);
        TrimStartToLower(s[1..], cs);
      } else {
        assert !InSet(l[0], cs);
      }
    }
  }

  lemma {:induction false} TrimEndToLower(s: String, cs: CharSet)
    requires !cs.Just?
    ensures TrimEnd(ToLower(s), cs) == ToLower(TrimEnd(s, cs))
    decreases |s|
  {
    if s != [] {
      var l := ToLower(s);
      assert l[|s| - 1] == LowerChar(s[|s| - 1]);
      LowerCharInSet(s[|s| - 1], cs);
      if InSet(s[|s| - 1], cs) {
        assert l[..|s| - 1] == ToLower(s[..|s| - 1]);
        TrimEndToLower(s[..|s| - 1], cs);
      } else {
        assert !InSet(l[|s| - 1], cs);
      }
    }
  }

  /** Trimming and ASCII lowercasing commute. */
  lemma TrimToLower(s: String, cs: CharSet)
    requires !cs.Just?
    ensures Trim(ToLower(s), cs) == ToLower(Trim(s, cs))
  {
    TrimStartToLower(s, cs);
    TrimEndToLower(TrimStart(s, cs), cs);
  }

  /** "Trim then lowercase" is idempotent. */
  lemma TrimLowerIdempotent(s: String)
    ensures TrimLower(TrimLower(s)) == TrimLower(s)
  {
    var t := Trim(s, WhitespacesAndNewlines);
    TrimToLower(t, WhitespacesAndNewlines);
    TrimIdempotent(s, WhitespacesAndNewlines);
    ToLowerIdempotent(t);
  }

  /** A trimmed lowercase string is its own normalisation. */
  lemma TrimLowerOfNormal(s: String)
    requires Trim(s, WhitespacesAndNewlines) == s && IsLowercase(s)
    ensures TrimLower(s) == s
  {
  }

  // ---------------------------------------------------------------------------
  // Prefixes
  // ---------------------------------------------------------------------------

  predicate HasPrefix(s: String, p: String) {
    |p| <= |s| && s[..|p|] == p
  }

  lemma ConcatSlices(a: String, b: String)
    ensures (a + b)[..|a|] == a && (a + b)[|a|..] == b
  {
  }

  // ---------------------------------------------------------------------------
  // Splitting and joining
  // ---------------------------------------------------------------------------

  /**
   * Splits `s` at every member of `cs`, keeping empty pieces: Swift's
   * `split(separator:omittingEmptySubsequences: false)` and Foundation's
   * `components(separatedBy:)`.
   */
  function Split(s: String, cs: CharSet): (r: seq<String>)
    ensures |r| >= 1
    decreases |s|
  {
    if s == [] then [[]]
    else
      var rest := Split(s[1..], cs);
      if InSet(s[0], cs) then [[]] + rest else [[s[0]] + rest[0]] + rest[1..]
  }

  /** Joins `parts` with `sep` between neighbours (`joined(separator:)`). */
  function Join(parts: seq<String>, sep: String): String
    decreases |parts|
  {
    if |parts| == 0 then []
    else if |parts| == 1 then parts[0]
    else parts[0] + sep + Join(parts[1..], sep)
  }

  /** The pieces of Swift's default `split(separator:)`, which omits empty pieces. */
  function NonEmptyPieces(parts: seq<String>): (r: seq<String>)
    ensures forall i :: 0 <= i < |r| ==> r[i] != []
    ensures |r| <= |parts|
  {
    if parts == [] then []
    else (if parts[0] == [] then [] else [parts[0]]) + NonEmptyPieces(parts[1..])
  }

  function SplitOmittingEmpty(s: String, sep: char): seq<String> {
    NonEmptyPieces(Split(s, Just(sep)))
  }

  /** Each kept piece is one of the pieces, at some index. */
  lemma {:induction false} NonEmptyPiecesMember(parts: seq<String>, j: nat) returns (k: nat)
    requires j < |NonEmptyPieces(parts)|
    ensures k < |parts| && parts[k] == NonEmptyPieces(parts)[j]
    decreases |parts|
  {
    var rest := NonEmptyPieces(parts[1..]);
    if parts[0] == [] {
      k := NonEmptyPiecesMember(parts[1..], j);
      k := k + 1;
    } else if j == 0 {
      k := 0;
    } else {
      k := NonEmptyPiecesMember(parts[1..], j - 1);
      k := k + 1;
    }
  }

  /** Each non-empty piece is kept. */
  lemma {:induction false} NonEmptyPiecesComplete(parts: seq<String>, k: nat) returns (j: nat)
    requires k < |parts| && parts[k] != []
    ensures j < |NonEmptyPieces(parts)| && NonEmptyPieces(parts)[j] == parts[k]
    decreases |parts|
  {
    if k == 0 {
      j := 0;
    } else {
      j := NonEmptyPiecesComplete(parts[1..], k - 1);
      if parts[0] != [] {
        j := j + 1;
      }
    }
  }

  /** Every character of a piece occurs in the split string. */
  lemma {:induction false} SplitPieceChars(s: String, cs: CharSet, k: nat, i: nat)
    requires k < |Split(s, cs)| && i < |Split(s, cs)[k]|
    ensures Split(s, cs)[k][i] in s
    decreases |s|
  {
    var rest := Split(s[1..], cs);
    if InSet(s[0], cs) {
      SplitPieceChars(s[1..], cs, k - 1, i);
    } else if k == 0 {
      if i > 0 {
        SplitPieceChars(s[1..], cs, 0, i - 1);
      }
    } else {
      SplitPieceChars(s[1..], cs, k, i);
    }
  }

  lemma {:induction false} SplitPieceFree(s: String, cs: CharSet, k: nat)
    requires k < |Split(s, cs)|
    ensures NoneIn(Split(s, cs)[k], cs)
    decreases |s|
  {
    if s != [] {
      var rest := Split(s[1..], cs);
      if InSet(s[0], cs) {
        if k > 0 { SplitPieceFree(s[1..], cs, k - 1); }
      } else if k == 0 {
        SplitPieceFree(s[1..], cs, 0);
      } else {
        SplitPieceFree(s[1..], cs, k);
      }
    }
  }

  /** Splitting at a single character and joining with it gives the string back. */
  lemma {:induction false} JoinSplit(s: String, c: char)
    ensures Join(Split(s, Just(c)), [c]) == s
    decreases |s|
  {
    if s != [] {
      JoinSplit(s[1..], c);
      var rest := Split(s[1..], Just(c));
      if s[0] == c {
        assert Join([[]] + rest, [c]) == [] + [c] + Join(rest, [c]) by {
          assert ([[]] + rest)[1..] == rest;
        }
      } else if |rest| > 1 {
        var parts := [[s[0]] + rest[0]] + rest[1..];
        assert parts[1..] == rest[1..];
        assert Join(rest, [c]) == rest[0] + [c] + Join(rest[1..], [c]);
      }
    }
  }

  lemma {:induction false} SplitFree(s: String, cs: CharSet)
    requires NoneIn(s, cs)
    ensures Split(s, cs) == [s]
    decreases |s|
  {
    if s != [] {
      assert !InSet(s[0], cs);
      assert NoneIn(s[1..], cs) by {
        forall i | 0 <= i < |s| - 1 ensures !InSet(s[1..][i], cs) { assert s[1..][i] == s[i + 1]; }
      }
      SplitFree(s[1..], cs);
      assert [s[0]] + s[1..] == s;
    }
  }

  lemma {:induction false} SplitAtSeparator(a: String, c: char, b: String, cs: CharSet)
    requires NoneIn(a, cs) && InSet(c, cs)
    ensures Split(a + [c] + b, cs) == [a] + Split(b, cs)
    decreases |a|
  {
    var s := a + [c] + b;
    if a == [] {
      assert s[1..] == b;
    } else {
      assert s[1..] == a[1..] + [c] + b;
      assert s[0] == a[0] && !InSet(a[0], cs);
      assert NoneIn(a[1..], cs) by {
        forall i | 0 <= i < |a| - 1 ensures !InSet(a[1..][i], cs) { assert a[1..][i] == a[i + 1]; }
      }
      SplitAtSeparator(a[1..], c, b, cs);
      var rest := Split(s[1..], cs);
      assert rest[0] == a[1..] && rest[1..] == Split(b, cs);
      assert [a[0]] + a[1..] == a;
    }
  }

  /** Joining separator-free pieces with a separator and splitting again gives the pieces back. */
  lemma {:induction false} SplitJoin(parts: seq<String>, c: char, cs: CharSet)
    requires |parts| >= 1 && InSet(c, cs)
    requires forall i :: 0 <= i < |parts| ==> NoneIn(parts[i], cs)
    ensures Split(Join(parts, [c]), cs) == parts
    decreases |parts|
  {
    if |parts| == 1 {
      SplitFree(parts[0], cs);
    } else {
      SplitJoin(parts[1..], c, cs);
      SplitAtSeparator(parts[0], c, Join(parts[1..], [c]), cs);
    }
  }

  lemma JoinAppendOne(parts: seq<String>, x: String, sep: String)
    requires |parts| >= 1
    ensures Join(parts + [x], sep) == Join(parts, sep) + sep + x
    decreases |parts|
  {
    if |parts| > 1 {
      assert (parts + [x])[1..] == parts[1..] + [x];
      JoinAppendOne(parts[1..], x, sep);
    }
  }

  lemma JoinConcat(a: seq<String>, b: seq<String>, sep: String)
    requires |a| >= 1 && |b| >= 1
    ensures Join(a + b, sep) == Join(a, sep) + sep + Join(b, sep)
    decreases |a|
  {
    if |a| == 1 {
      assert (a + b)[1..] == b;
    } else {
      assert (a + b)[1..] == a[1..] + b;
      JoinConcat(a[1..], b, sep);
    }
  }

  lemma TrimEndSnoc(s: String, c: char, cs: CharSet)
    requires InSet(c, cs)
    ensures TrimEnd(s + [c], cs) == TrimEnd(s, cs)
  {
    assert (s + [c])[..|s|] == s;
  }

  /** A text that starts and ends outside `Newlines` loses exactly one final newline to the trim. */
  lemma TrimFinalNewline(x: String)
    requires x != [] && !IsNewline(x[0]) && !IsNewline(x[|x| - 1])
    ensures Trim(x + "\n", Newlines) == x
  {
    TrimStartOfTrimmed(x + "\n", Newlines);
    TrimEndSnoc(x, '\n', Newlines);
    TrimEndOfTrimmed(x, Newlines);
  }

  lemma JoinFirst(parts: seq<String>, sep: String)
    requires |parts| >= 1 && parts[0] != []
    ensures Join(parts, sep) != [] && Join(parts, sep)[0] == parts[0][0]
  {
  }

  lemma JoinLast(parts: seq<String>, sep: String)
    requires |parts| >= 1 && parts[|parts| - 1] != []
    ensures var j := Join(parts, sep);
      j != [] && j[|j| - 1] == parts[|parts| - 1][|parts[|parts| - 1]| - 1]
  {
    if |parts| > 1 {
      var n := |parts|;
      assert parts[..n - 1] + [parts[n - 1]] == parts;
      JoinAppendOne(parts[..n - 1], parts[n - 1], sep);
    }
  }

  /** Joined sections that end with a blank line lose only that line's break to the trim of outer newlines. */
  predicate FramedSections(secs: seq<String>) {
    && |secs| >= 2 && secs[|secs| - 1] == []
    && secs[0] != [] && !IsNewline(secs[0][0])
    && var last := secs[|secs| - 2]; last != [] && !IsNewline(last[|last| - 1])
  }

  lemma TrimJoinedSections(secs: seq<String>)
    requires FramedSections(secs)
    ensures Trim(Join(secs, "\n"), Newlines) + "\n" == Join(secs, "\n")
  {
    var init := secs[..|secs| - 1];
    assert secs == init + [""];
    assert init[0] == secs[0] && init[|init| - 1] == secs[|secs| - 2];
    JoinAppendOne(init, "", "\n");
    assert Join(secs, "\n") == Join(init, "\n") + "\n";
    JoinFirst(init, "\n");
    JoinLast(init, "\n");
    TrimFinalNewline(Join(init, "\n"));
  }

  lemma ConcatEnds(a: seq<String>, b: seq<String>)
    requires |a| >= 1 && |b| >= 2
    ensures var c := a + b; c[0] == a[0] && c[|c| - 1] == b[|b| - 1] && c[|c| - 2] == b[|b| - 2]
  {
  }

  /** `TrimEnd` keeps every position up to the last character outside `cs`. */
  lemma {:induction false} TrimEndKeeps(s: String, cs: CharSet, i: nat)
    requires i < |s| && !InSet(s[i], cs)
    ensures |TrimEnd(s, cs)| > i
    decreases |s|
  {
    if InSet(s[|s| - 1], cs) {
      TrimEndKeeps(s[..|s| - 1], cs, i);
    }
  }

  lemma NoneInJoin(parts: seq<String>, sep: String, cs: CharSet)
    requires NoneIn(sep, cs)
    requires forall i :: 0 <= i < |parts| ==> NoneIn(parts[i], cs)
    ensures NoneIn(Join(parts, sep), cs)
    decreases |parts|
  {
    if |parts| > 1 {
      NoneInJoin(parts[1..], sep, cs);
    }
  }

  // ---------------------------------------------------------------------------
  // Ordering (Swift's `<` on strings, by code unit)
  // ---------------------------------------------------------------------------

  /** `a` sorts before `b` or equals it, comparing code units lexicographically. */
  predicate LexLe(a: String, b: String)
    decreases |a|
  {
    a == [] || (b != [] && (a[0] < b[0] || (a[0] == b[0] && LexLe(a[1..], b[1..]))))
  }

  lemma {:induction false} LexLeTotal(a: String, b: String)
    ensures LexLe(a, b) || LexLe(b, a)
    decreases |a|
  {
    if a != [] && b != [] && a[0] == b[0] {
      LexLeTotal(a[1..], b[1..]);
    }
  }

  lemma {:induction false} LexLeTransitive(a: String, b: String, c: String)
    requires LexLe(a, b) && LexLe(b, c)
    ensures LexLe(a, c)
    decreases |a|
  {
    if a != [] && a[0] == b[0] && b[0] == c[0] {
      LexLeTransitive(a[1..], b[1..], c[1..]);
    }
  }

  lemma {:induction false} LexLeAntisymmetric(a: String, b: String)
    requires LexLe(a, b) && LexLe(b, a)
    ensures a == b
    decreases |a|
  {
    if a != [] {
      LexLeAntisymmetric(a[1..], b[1..]);
      assert a == [a[0]] + a[1..] && b == [b[0]] + b[1..];
    }
  }

  // ---------------------------------------------------------------------------
  // Decimal numbers
  // ---------------------------------------------------------------------------

  /** The largest value of Swift's 64-bit `Int`. */
  const IntMax: int := 0x7FFF_FFFF_FFFF_FFFF

  /** The smallest value of Swift's 64-bit `Int`. */
  const IntMin: int := -0x8000_0000_0000_0000

  function DigitChar(d: nat): char
    requires d < 10
  {
    ('0' as int + d) as char
  }

  function DigitValue(c: char): nat
    requires IsAsciiDigit(c)
  {
    c as int - '0' as int
  }

  predicate AllAsciiDigits(s: String) {
    forall i :: 0 <= i < |s| ==> IsAsciiDigit(s[i])
  }

  /** The decimal representation of `n`, without leading zeros (string interpolation of an `Int`). */
  function DecimalString(n: nat): (r: String)
    ensures |r| >= 1 && AllAsciiDigits(r)
  {
    if n < 10 then [DigitChar(n)] else DecimalString(n / 10) + [DigitChar(n % 10)]
  }

  /** The value of a string of ASCII digits. */
  function DecimalValue(s: String): nat
    requires AllAsciiDigits(s)
  {
    if s == [] then 0 else DecimalValue(s[..|s| - 1]) * 10 + DigitValue(s[|s| - 1])
  }

  lemma {:induction false} DecimalRoundTrip(n: nat)
    ensures DecimalValue(DecimalString(n)) == n
  {
    if n >= 10 {
      DecimalRoundTrip(n / 10);
      var s := DecimalString(n);
      assert s[..|s| - 1] == DecimalString(n / 10);
    }
  }

  /**
   * `Int(text)` on a string of digits: its value when every digit is ASCII and
   * the value fits in 64 bits, nothing otherwise.
   */
  function ParseInt(s: String): (r: Option<int>)
    ensures r.Some? <==> s != [] && AllAsciiDigits(s) && DecimalValue(s) <= IntMax
    ensures r.Some? ==> 0 <= r.value <= IntMax && r.value == DecimalValue(s)
  {
    if s != [] && AllAsciiDigits(s) && DecimalValue(s) <= IntMax then Some(DecimalValue(s)) else None
  }
}

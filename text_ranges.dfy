/**
 * `NSRange` offsets into a string, in-place replacement of a range
 * (`replaceCharacters(in:with:)`), and `NSString.lineRange(for:)`.
 */
module TextRanges {
  import opened Text

  function Min(a: int, b: int): int {
    if a <= b then a else b
  }

  function Max(a: int, b: int): int {
    if a >= b then a else b
  }

  /** An `NSRange`: a location and a length, counted in UTF-16 code units. */
  datatype Range = Range(location: int, length: int) {
    function End(): int {
      location + length
    }
  }

  /** The range lies within `t`. */
  predicate InBounds(t: String, r: Range) {
    0 <= r.location && 0 <= r.length && r.End() <= |t|
  }

  /** `substring(with:)`. */
  function Substring(t: String, r: Range): (s: String)
    requires InBounds(t, r)
    ensures |s| == r.length
  {
    t[r.location..r.End()]
  }

  /**
   * `replaceCharacters(in:with:)`: the text before the range, then `w`, then
   * the text after the range.
   */
  function ReplaceRange(t: String, r: Range, w: String): (out: String)
    requires InBounds(t, r)
    ensures |out| == |t| - r.length + |w|
    ensures out[..r.location] == t[..r.location]
    ensures out[r.location..r.location + |w|] == w
    ensures out[r.location + |w|..] == t[r.End()..]
  {
    var out := t[..r.location] + w + t[r.End()..];
    assert out[r.location..r.location + |w|] == w;
    out
  }

  /** The replaced text, spelt out, and where the new piece sits in it. */
  lemma ReplaceRangeShape(t: String, r: Range, w: String, k: nat, m: nat)
    requires InBounds(t, r) && k + m <= |w|
    ensures ReplaceRange(t, r, w) == t[..r.location] + w + t[r.End()..]
    ensures InBounds(ReplaceRange(t, r, w), Range(r.location + k, m))
    ensures Substring(ReplaceRange(t, r, w), Range(r.location + k, m)) == w[k..k + m]
  {
  }

  /** The middle piece of a concatenation of three. */
  lemma MiddleOf(a: String, b: String, c: String)
    ensures (a + b + c)[|a|..|a| + |b|] == b
  {
  }

  /** Regrouping a replacement of three pieces. */
  lemma RegroupReplacement(a: String, b: String, c: String, d: String, e: String)
    ensures a + (b + c + d) + e == a + b + c + d + e
  {
  }

  /** Replacing a range by its own contents changes nothing. */
  lemma ReplaceRangeIdentity(t: String, r: Range)
    requires InBounds(t, r)
    ensures ReplaceRange(t, r, Substring(t, r)) == t
  {
    assert t == t[..r.location] + t[r.location..r.End()] + t[r.End()..];
  }

  // ---------------------------------------------------------------------------
  // Lines
  // ---------------------------------------------------------------------------

  /** The characters that end a line for `NSString`: LF, CR, NEL, LS and PS (CR LF ends a line once). */
  predicate IsLineSeparator(c: char) {
    c == '\n' || c == '\r' || c == '\U{0085}' || c == '\U{2028}' || c == '\U{2029}'
  }

  /**
   * A line ends just before offset `k`: the character before it separates
   * lines, and is not the CR of a CR LF pair.
   */
  predicate LineEndsAt(t: String, k: int) {
    0 < k <= |t| && IsLineSeparator(t[k - 1]) && !(t[k - 1] == '\r' && k < |t| && t[k] == '\n')
  }

  /** Where the line holding offset `loc` starts: the last line end at or before `loc`, or 0. */
  function LineStart(t: String, loc: int): (r: int)
    requires 0 <= loc <= |t|
    ensures 0 <= r <= loc
    ensures r == 0 || LineEndsAt(t, r)
    decreases loc
  {
    if loc == 0 || LineEndsAt(t, loc) then loc else LineStart(t, loc - 1)
  }

  /** No line ends between the start of a line and an offset in it. */
  lemma {:induction false} LineStartIsLast(t: String, loc: int)
    requires 0 <= loc <= |t|
    ensures forall k :: LineStart(t, loc) < k <= loc ==> !LineEndsAt(t, k)
    decreases loc
  {
    if !(loc == 0 || LineEndsAt(t, loc)) {
      LineStartIsLast(t, loc - 1);
    }
  }

  /** Where the line holding offset `loc` ends, its terminator included: the first line end after `loc`, or the end of `t`. */
  function LineEnd(t: String, loc: int): (r: int)
    requires 0 <= loc <= |t|
    ensures loc <= r <= |t| && (loc < |t| ==> loc < r)
    ensures r == |t| || LineEndsAt(t, r)
    decreases |t| - loc
  {
    if loc == |t| then loc else if LineEndsAt(t, loc + 1) then loc + 1 else LineEnd(t, loc + 1)
  }

  /** No line ends between an offset and the end of its line. */
  lemma {:induction false} LineEndIsFirst(t: String, loc: int)
    requires 0 <= loc <= |t|
    ensures forall k :: loc < k < LineEnd(t, loc) ==> !LineEndsAt(t, k)
    decreases |t| - loc
  {
    if loc < |t| && !LineEndsAt(t, loc + 1) {
      LineEndIsFirst(t, loc + 1);
    }
  }

  /** A line start is pinned down by a line end (or the start of the text) with no line end after it up to `loc`. */
  lemma {:induction false} LineStartIs(t: String, loc: int, s: int)
    requires 0 <= s <= loc <= |t| && (s == 0 || LineEndsAt(t, s))
    requires forall k :: s < k <= loc ==> !LineEndsAt(t, k)
    ensures LineStart(t, loc) == s
    decreases loc
  {
    if loc != s {
      LineStartIs(t, loc - 1, s);
    }
  }

  /** A line end is pinned down by a line end (or the end of the text) with no line end before it after `loc`. */
  lemma {:induction false} LineEndIs(t: String, loc: int, e: int)
    requires 0 <= loc <= e <= |t| && (loc < |t| ==> loc < e) && (e == |t| || LineEndsAt(t, e))
    requires forall k :: loc < k < e ==> !LineEndsAt(t, k)
    ensures LineEnd(t, loc) == e
    decreases |t| - loc
  {
    if loc < |t| && !LineEndsAt(t, loc + 1) {
      LineEndIs(t, loc + 1, e);
    }
  }

  /** `lineRange(for: NSRange(location: loc, length: 0))`: the whole line holding `loc`, terminator included. */
  function LineRangeAt(t: String, loc: int): (r: Range)
    requires 0 <= loc <= |t|
    ensures InBounds(t, r) && r.location <= loc <= r.End()
  {
    var start := LineStart(t, loc);
    Range(start, LineEnd(t, loc) - start)
  }

  /** No line ends strictly inside a line range, and it is bounded by line ends or the ends of the text. */
  lemma LineRangeIsOneLine(t: String, loc: int)
    requires 0 <= loc <= |t|
    ensures var r := LineRangeAt(t, loc);
      (r.location == 0 || LineEndsAt(t, r.location))
      && (r.End() == |t| || LineEndsAt(t, r.End()))
      && forall k :: r.location < k < r.End() ==> !LineEndsAt(t, k)
  {
    var r := LineRangeAt(t, loc);
    LineStartIsLast(t, loc);
    LineEndIsFirst(t, loc);
    forall k | r.location < k < r.End() ensures !LineEndsAt(t, k) {
      if k > loc {
        assert loc < k < LineEnd(t, loc);
      }
    }
  }

  /** Every offset of a line has that same line. */
  lemma {:induction false} LineRangeAtSameLine(t: String, loc: int, other: int)
    requires 0 <= loc < |t|
    requires LineRangeAt(t, loc).location <= other < LineRangeAt(t, loc).End()
    ensures LineRangeAt(t, other) == LineRangeAt(t, loc)
  {
    var r := LineRangeAt(t, loc);
    LineRangeIsOneLine(t, loc);
    var s := LineStart(t, other);
    var e := LineEnd(t, other);
    LineStartIsLast(t, other);
    LineEndIsFirst(t, other);
    assert s == r.location;
    assert e == r.End();
  }
}

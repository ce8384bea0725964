/** The compact glyph label shown for a shortcut string (`HotkeyHintFormatter`). */
module HotkeyHints {
  import opened Text
  import opened Dedup

  const ControlGlyph: char := '\U{2303}'
  const OptionGlyph: char := '\U{2325}'
  const ShiftGlyph: char := '\U{21E7}'
  const CommandGlyph: char := '\U{2318}'

  /** Which modifiers a list of tokens names. */
  datatype ModifierFlags = ModifierFlags(control: bool, option: bool, shift: bool, command: bool)

  /** The recognised aliases: ctrl/control, option/opt/alt, shift, cmd/command; other tokens are ignored. */
  function FlagsOf(tokens: seq<String>): ModifierFlags {
    ModifierFlags(
      "ctrl" in tokens || "control" in tokens,
      "option" in tokens || "opt" in tokens || "alt" in tokens,
      "shift" in tokens,
      "cmd" in tokens || "command" in tokens)
  }

  /** The glyphs of the set flags, in the fixed order control, option, shift, command. */
  function GlyphsFor(m: ModifierFlags): String {
    (if m.control then [ControlGlyph] else [])
    + (if m.option then [OptionGlyph] else [])
    + (if m.shift then [ShiftGlyph] else [])
    + (if m.command then [CommandGlyph] else [])
  }

  /** The position of a modifier glyph in the display order. */
  function GlyphRank(c: char): nat {
    if c == ControlGlyph then 0
    else if c == OptionGlyph then 1
    else if c == ShiftGlyph then 2
    else if c == CommandGlyph then 3
    else 4
  }

  /** `keyGlyph(for:)`: named keys, matched case-insensitively, get their symbol; any other key is uppercased. */
  function KeyGlyph(key: String): String {
    var k := ToLower(key);
    if k == "space" then "Space"
    else if k == "return" || k == "enter" then "\U{21A9}"
    else if k == "tab" then "\U{21E5}"
    else if k == "escape" || k == "esc" then "\U{238B}"
    else if k == "delete" || k == "backspace" then "\U{232B}"
    else if k == "up" then "\U{2191}"
    else if k == "down" then "\U{2193}"
    else if k == "left" then "\U{2190}"
    else if k == "right" then "\U{2192}"
    else ToUpper(key)
  }

  /** The '+'-separated parts of a shortcut, each trimmed and lowercased. */
  function Components(shortcut: String): seq<String> {
    NormalizeAll(SplitOmittingEmpty(shortcut, '+'))
  }

  /** What the formatter shows for `shortcut`. */
  function HintOf(shortcut: String): String {
    var parts := Components(shortcut);
    if parts == [] || parts[|parts| - 1] == [] then ToUpper(shortcut)
    else GlyphsFor(FlagsOf(parts[..|parts| - 1])) + KeyGlyph(parts[|parts| - 1])
  }

  /** `hint(from:)`, building the glyph prefix by conditional appends. */
  method Hint(shortcut: String) returns (r: String)
    ensures r == HintOf(shortcut)
  {
    var components := Components(shortcut);
    if components == [] || components[|components| - 1] == [] {
      return ToUpper(shortcut);
    }
    var keyPart := components[|components| - 1];
    var modifiers := components[..|components| - 1];
    var control := "ctrl" in modifiers || "control" in modifiers;
    var option := "option" in modifiers || "opt" in modifiers || "alt" in modifiers;
    var shift := "shift" in modifiers;
    var command := "cmd" in modifiers || "command" in modifiers;
    var glyphs := ModifierGlyphs(control, option, shift, command);
    assert ModifierFlags(control, option, shift, command) == FlagsOf(modifiers);
    r := glyphs + KeyGlyph(keyPart);
  }

  /** The conditional appends that build the glyph prefix. */
  method ModifierGlyphs(control: bool, option: bool, shift: bool, command: bool) returns (glyphs: String)
    ensures glyphs == GlyphsFor(ModifierFlags(control, option, shift, command))
  {
    glyphs := [];
    if control { glyphs := glyphs + [ControlGlyph]; }
    assert glyphs == GlyphsFor(ModifierFlags(control, false, false, false));
    if option { glyphs := glyphs + [OptionGlyph]; }
    assert glyphs == GlyphsFor(ModifierFlags(control, option, false, false));
    if shift { glyphs := glyphs + [ShiftGlyph]; }
    assert glyphs == GlyphsFor(ModifierFlags(control, option, shift, false));
    if command { glyphs := glyphs + [CommandGlyph]; }
  }

  /**
   * The modifier glyphs appear in the order control, option, shift, command, each at
   * most once, and each exactly when its flag is set.
   */
  lemma GlyphsOrdered(m: ModifierFlags)
    ensures var g := GlyphsFor(m);
      && |g| <= 4
      && (forall i, j :: 0 <= i < j < |g| ==> GlyphRank(g[i]) < GlyphRank(g[j]))
      && (ControlGlyph in g <==> m.control)
      && (OptionGlyph in g <==> m.option)
      && (ShiftGlyph in g <==> m.shift)
      && (CommandGlyph in g <==> m.command)
  {
  }

  /** The flags depend only on which tokens occur, not on their order or repetition. */
  lemma FlagsOfMembership(a: seq<String>, b: seq<String>)
    requires forall t :: t in a <==> t in b
    ensures FlagsOf(a) == FlagsOf(b)
  {
  }

  /** For a shortcut with a non-blank key part the hint is the ordered glyphs, then the key's glyph. */
  lemma HintShape(shortcut: String)
    requires var parts := Components(shortcut); parts != [] && parts[|parts| - 1] != []
    ensures var parts := Components(shortcut);
      var g := GlyphsFor(FlagsOf(parts[..|parts| - 1]));
      && HintOf(shortcut) == g + KeyGlyph(parts[|parts| - 1])
      && (forall i, j :: 0 <= i < j < |g| ==> GlyphRank(g[i]) < GlyphRank(g[j]))
  {
    var parts := Components(shortcut);
    GlyphsOrdered(FlagsOf(parts[..|parts| - 1]));
  }

  /** A shortcut made only of '+' and whitespace has no key part, and is shown uppercased. */
  lemma HintOfBlank(shortcut: String)
    requires forall i :: 0 <= i < |shortcut| ==> shortcut[i] == '+' || IsWhitespace(shortcut[i])
    ensures HintOf(shortcut) == ToUpper(shortcut)
  {
    var pieces := SplitOmittingEmpty(shortcut, '+');
    var parts := Components(shortcut);
    if parts != [] {
      var j := |pieces| - 1;
      var k := NonEmptyPiecesMember(Split(shortcut, Just('+')), j);
      var piece := Split(shortcut, Just('+'))[k];
      SplitPieceFree(shortcut, Just('+'), k);
      assert AllIn(piece, WhitespacesAndNewlines) by {
        forall i | 0 <= i < |piece| ensures InSet(piece[i], WhitespacesAndNewlines) {
          SplitPieceChars(shortcut, Just('+'), k, i);
          assert !InSet(piece[i], Just('+'));
        }
      }
      TrimEmptyIff(piece, WhitespacesAndNewlines);
      assert parts[|parts| - 1] == TrimLower(piece);
    }
  }

  /** The key glyph ignores the case of the key. */
  lemma KeyGlyphCaseInsensitive(key: String)
    ensures KeyGlyph(ToLower(key)) == KeyGlyph(key)
  {
    ToLowerIdempotent(key);
    var u, v := ToUpper(ToLower(key)), ToUpper(key);
    assert |u| == |v|;
    forall i | 0 <= i < |u| ensures u[i] == v[i] {
      assert ToLower(key)[i] == LowerChar(key[i]);
    }
  }

  /** A single letter is shown as that capital letter. */
  lemma KeyGlyphLetter(c: char)
    requires 'a' <= c <= 'z' || 'A' <= c <= 'Z'
    ensures KeyGlyph([c]) == [UpperChar(c)] && 'A' <= UpperChar(c) <= 'Z'
  {
    assert |ToLower([c])| == 1;
  }
}

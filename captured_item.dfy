/** Captured items and the quick-capture input parser (`CaptureInputParser`). */
module CapturedItems {
  import opened Wrappers
  import opened Text
  import opened Uuids
  import opened FocusModes
  import opened DateTime

  datatype ItemType = Todo | Next | Note | Link {

    function RawValue(): String {
      match this
      case Todo => "todo"
      case Next => "next"
      case Note => "note"
      case Link => "link"
    }

    /** The type's marker in captures and documents: "@" followed by the raw value. */
    function Prefix(): String {
      "@" + RawValue()
    }
  }

  datatype CapturedItem = CapturedItem(id: Uuid, content: String, mode: FocusMode, timestamp: Date, itemType: ItemType)

  /** No item-type prefix is a prefix of another type's, so the order of the alternatives is immaterial. */
  lemma PrefixesPrefixFree(a: ItemType, b: ItemType, s: String)
    requires HasPrefix(s, a.Prefix()) && HasPrefix(s, b.Prefix())
    ensures a == b
  {
    assert a.Prefix() == s[..5] == b.Prefix();
    assert a.Prefix()[1] == b.Prefix()[1] && a.Prefix()[2] == b.Prefix()[2];
  }

  /**
   * `ItemTypePrefixParser`: the item type whose prefix `s` starts with. The match is
   * not delimited, so "@todoist" starts with the to-do prefix.
   */
  function ParseItemTypePrefix(s: String): (r: Option<ItemType>)
    ensures r.Some? ==> HasPrefix(s, r.value.Prefix())
    ensures r.None? ==> forall t: ItemType :: !HasPrefix(s, t.Prefix())
  {
    if HasPrefix(s, Todo.Prefix()) then Some(Todo)
    else if HasPrefix(s, Next.Prefix()) then Some(Next)
    else if HasPrefix(s, Note.Prefix()) then Some(Note)
    else if HasPrefix(s, Link.Prefix()) then Some(Link)
    else None
  }

  /**
   * What `CaptureInputParser.parse` computes. The input is trimmed of whitespace
   * and newlines (nothing is returned when nothing is left); a leading type prefix
   * sets the type and is dropped together with the whitespace after it (Swift's
   * `Character.isWhitespace` is the same set); otherwise the type is a note. The
   * rest, trimmed again, is the content, and an empty content gives nothing.
   */
  function CaptureParse(rawInput: String, mode: FocusMode, timestamp: Date, id: Uuid): Option<CapturedItem> {
    var trimmed := Trim(rawInput, WhitespacesAndNewlines);
    if trimmed == [] then None
    else
      var parsed := ParseItemTypePrefix(trimmed);
      var itemType := parsed.GetOr(Note);
      var rest := if parsed.Some? then TrimStart(trimmed[|itemType.Prefix()|..], WhitespacesAndNewlines) else trimmed;
      var content := Trim(rest, WhitespacesAndNewlines);
      if content == [] then None
      else Some(CapturedItem(id, content, mode, timestamp, itemType))
  }

  /** `CaptureInputParser.parse`, with its whitespace-skipping loop. */
  method Parse(rawInput: String, mode: FocusMode, timestamp: Date, id: Uuid) returns (r: Option<CapturedItem>)
    ensures r == CaptureParse(rawInput, mode, timestamp, id)
  {
    var trimmed := Trim(rawInput, WhitespacesAndNewlines);
    if trimmed == [] {
      return None;
    }
    var input := trimmed;
    var itemType: ItemType;
    var parsed := ParseItemTypePrefix(input);
    if parsed.Some? {
      itemType := parsed.value;
      input := input[|itemType.Prefix()|..];
      ghost var afterPrefix := input;
      while input != [] && InSet(input[0], WhitespacesAndNewlines)
        invariant TrimStart(input, WhitespacesAndNewlines) == TrimStart(afterPrefix, WhitespacesAndNewlines)
        decreases |input|
      {
        input := input[1..];
      }
      TrimStartOfTrimmed(input, WhitespacesAndNewlines);
    } else {
      itemType := Note;
    }
    var content := Trim(input, WhitespacesAndNewlines);
    if content == [] {
      return None;
    }
    return Some(CapturedItem(id, content, mode, timestamp, itemType));
  }

  /**
   * Nothing is captured exactly when the input is blank, or is a type prefix
   * followed only by whitespace.
   */
  lemma CaptureParseNoneIff(rawInput: String, mode: FocusMode, timestamp: Date, id: Uuid)
    ensures CaptureParse(rawInput, mode, timestamp, id).None? <==>
      AllIn(rawInput, WhitespacesAndNewlines)
      || (var trimmed := Trim(rawInput, WhitespacesAndNewlines);
          ParseItemTypePrefix(trimmed).Some?
          && AllIn(trimmed[|ParseItemTypePrefix(trimmed).value.Prefix()|..], WhitespacesAndNewlines))
  {
    var trimmed := Trim(rawInput, WhitespacesAndNewlines);
    TrimEmptyIff(rawInput, WhitespacesAndNewlines);
    if trimmed != [] {
      var parsed := ParseItemTypePrefix(trimmed);
      if parsed.Some? {
        var after := trimmed[|parsed.value.Prefix()|..];
        TrimOfTrimStart(after, WhitespacesAndNewlines);
        TrimEmptyIff(after, WhitespacesAndNewlines);
      } else {
        TrimIdempotent(rawInput, WhitespacesAndNewlines);
      }
    }
  }

  /**
   * A captured item carries the given id, mode and timestamp; its type is the
   * leading prefix's, or note; its content is the trimmed rest of the input, and
   * is non-empty and trimmed.
   */
  lemma CaptureParseSome(rawInput: String, mode: FocusMode, timestamp: Date, id: Uuid)
    requires CaptureParse(rawInput, mode, timestamp, id).Some?
    ensures var item := CaptureParse(rawInput, mode, timestamp, id).value;
      var trimmed := Trim(rawInput, WhitespacesAndNewlines);
      && item.id == id && item.mode == mode && item.timestamp == timestamp
      && item.content != [] && Trim(item.content, WhitespacesAndNewlines) == item.content
      && match ParseItemTypePrefix(trimmed)
         case Some(t) => item.itemType == t && item.content == Trim(trimmed[|t.Prefix()|..], WhitespacesAndNewlines)
         case None => item.itemType == Note && item.content == trimmed
  {
    var trimmed := Trim(rawInput, WhitespacesAndNewlines);
    var parsed := ParseItemTypePrefix(trimmed);
    if parsed.Some? {
      TrimOfTrimStart(trimmed[|parsed.value.Prefix()|..], WhitespacesAndNewlines);
    }
    TrimIdempotent(rawInput, WhitespacesAndNewlines);
    var item := CaptureParse(rawInput, mode, timestamp, id).value;
    var rest := if parsed.Some? then TrimStart(trimmed[|parsed.value.Prefix()|..], WhitespacesAndNewlines) else trimmed;
    TrimIdempotent(rest, WhitespacesAndNewlines);
  }

  /** A string that starts with a type's prefix parses as that type. */
  lemma ParseItemTypePrefixOf(t: ItemType, rest: String)
    ensures ParseItemTypePrefix(t.Prefix() + rest) == Some(t)
  {
    ConcatSlices(t.Prefix(), rest);
    var p := ParseItemTypePrefix(t.Prefix() + rest);
    PrefixesPrefixFree(p.value, t, t.Prefix() + rest);
  }

  lemma PrefixedParts(t: ItemType, text: String)
    requires text != [] && Trim(text, WhitespacesAndNewlines) == text
    ensures var s := t.Prefix() + " " + text;
      && Trim(s, WhitespacesAndNewlines) == s && ParseItemTypePrefix(s) == Some(t)
      && TrimStart(s[|t.Prefix()|..], WhitespacesAndNewlines) == text
  {
    var s := t.Prefix() + (" " + text);
    assert s == t.Prefix() + " " + text;
    ConcatSlices(t.Prefix(), " " + text);
    ConcatSlices(" ", text);
    ParseItemTypePrefixOf(t, " " + text);
    assert !InSet(text[|text| - 1], WhitespacesAndNewlines);
    assert s[0] == '@';
    assert !InSet(s[0], WhitespacesAndNewlines) && !InSet(s[|s| - 1], WhitespacesAndNewlines);
    TrimOfTrimmed(s, WhitespacesAndNewlines);
    TrimStartOfTrimmed(text, WhitespacesAndNewlines);
    TrimStartCons(' ', text, WhitespacesAndNewlines);
  }

  /**
   * A type prefix, a space and trimmed text is captured as that type with that
   * text ("@todo Test API timeout fallback" is a to-do).
   */
  lemma CaptureParsePrefixed(t: ItemType, text: String, mode: FocusMode, timestamp: Date, id: Uuid)
    requires text != [] && Trim(text, WhitespacesAndNewlines) == text
    ensures CaptureParse(t.Prefix() + " " + text, mode, timestamp, id) == Some(CapturedItem(id, text, mode, timestamp, t))
  {
    PrefixedParts(t, text);
    var s := t.Prefix() + " " + text;
    var trimmed := Trim(s, WhitespacesAndNewlines);
    assert trimmed == s;
    var parsed := ParseItemTypePrefix(trimmed);
    assert parsed == Some(t) && parsed.GetOr(Note) == t;
    var rest := TrimStart(trimmed[|t.Prefix()|..], WhitespacesAndNewlines);
    assert rest == text;
    assert Trim(rest, WhitespacesAndNewlines) == text;
  }

  /** Trimmed text that starts with no type prefix is captured whole as a note. */
  lemma CaptureParseUnprefixed(text: String, mode: FocusMode, timestamp: Date, id: Uuid)
    requires text != [] && Trim(text, WhitespacesAndNewlines) == text
    requires forall t: ItemType :: !HasPrefix(text, t.Prefix())
    ensures CaptureParse(text, mode, timestamp, id) == Some(CapturedItem(id, text, mode, timestamp, Note))
  {
  }
}

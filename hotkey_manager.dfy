/**
 * Global hotkey registration (`HotkeyCenter`): parsing of shortcut strings into a
 * Carbon key code and modifier mask, and the bookkeeping maps kept beside the
 * operating system's registrations.
 */
module Hotkeys {
  import opened Wrappers
  import opened Text

  /** Carbon modifier masks (`cmdKey`, `shiftKey`, `optionKey`, `controlKey` of Events.h). */
  const CmdKey: bv32 := 0x100
  const ShiftKey: bv32 := 0x200
  const OptionKey: bv32 := 0x800
  const ControlKey: bv32 := 0x1000

  /** The mask a single modifier token contributes; unknown tokens contribute nothing. */
  function TokenFlag(token: String): bv32 {
    if token == "cmd" || token == "command" then CmdKey
    else if token == "shift" then ShiftKey
    else if token == "opt" || token == "option" || token == "alt" then OptionKey
    else if token == "ctrl" || token == "control" then ControlKey
    else 0
  }

  /** The left `reduce` of the modifier tokens from 0 with bitwise or. */
  function ModifierMask(tokens: seq<String>): bv32 {
    if tokens == [] then 0
    else ModifierMask(tokens[..|tokens| - 1]) | TokenFlag(tokens[|tokens| - 1])
  }

  /** Some token contributes the flag `f`. */
  predicate HasFlag(tokens: seq<String>, f: bv32) {
    exists i :: 0 <= i < |tokens| && TokenFlag(tokens[i]) == f
  }

  /** The mask named by the flags present, whatever the order and number of the tokens. */
  function MaskOfPresent(tokens: seq<String>): bv32 {
    FlagMask(HasFlag(tokens, CmdKey), HasFlag(tokens, ShiftKey), HasFlag(tokens, OptionKey), HasFlag(tokens, ControlKey))
  }

  function FlagMask(cmd: bool, shift: bool, option: bool, control: bool): bv32 {
    (if cmd then CmdKey else 0) | (if shift then ShiftKey else 0)
    | (if option then OptionKey else 0) | (if control then ControlKey else 0)
  }

  /** Or-ing in one more flag (or nothing) sets that flag. */
  lemma FlagMaskStep(cmd: bool, shift: bool, option: bool, control: bool, x: bv32)
    requires x == 0 || x == CmdKey || x == ShiftKey || x == OptionKey || x == ControlKey
    ensures FlagMask(cmd, shift, option, control) | x
      == FlagMask(cmd || x == CmdKey, shift || x == ShiftKey, option || x == OptionKey, control || x == ControlKey)
  {
  }

  /**
   * `kVK_ANSI_A` … `kVK_ANSI_Z` of Events.h, indexed by letter: the virtual key codes
   * of the letter keys.
   */
  const LetterKeyCodes: seq<int> := [
    0x00, 0x0B, 0x08, 0x02, 0x0E, 0x03, 0x05, 0x04, 0x22, 0x26, 0x28, 0x25, 0x2E,
    0x2D, 0x1F, 0x23, 0x0C, 0x0F, 0x01, 0x11, 0x20, 0x09, 0x0D, 0x07, 0x10, 0x06
  ]

  predicate IsLetterKey(key: String) {
    |key| == 1 && 'a' <= key[0] <= 'z'
  }

  /** The `keyCodeMap` lookup: only the single letters a to z have a key code. */
  function KeyCode(key: String): Option<int> {
    if IsLetterKey(key) then Some(LetterKeyCodes[key[0] as int - 'a' as int]) else None
  }

  datatype ParsedShortcut = ParsedShortcut(keyCode: int, modifiers: bv32)

  /** The '+'-separated parts of the lowercased shortcut; parts are not trimmed. */
  function ShortcutParts(raw: String): seq<String> {
    SplitOmittingEmpty(ToLower(raw), '+')
  }

  /** `parseShortcut`: the last part is the key, the others are modifier tokens. */
  function ParseShortcut(raw: String): Option<ParsedShortcut> {
    var parts := ShortcutParts(raw);
    if parts == [] then None
    else
      var code := KeyCode(parts[|parts| - 1]);
      if code.None? then None
      else Some(ParsedShortcut(code.value, ModifierMask(parts[..|parts| - 1])))
  }

  lemma TokenFlagCases(token: String)
    ensures var f := TokenFlag(token); f == 0 || f == CmdKey || f == ShiftKey || f == OptionKey || f == ControlKey
  {
  }

  lemma HasFlagSnoc(init: seq<String>, last: String, f: bv32)
    ensures HasFlag(init + [last], f) <==> HasFlag(init, f) || TokenFlag(last) == f
  {
    var t := init + [last];
    if HasFlag(t, f) {
      var i :| 0 <= i < |t| && TokenFlag(t[i]) == f;
      if i < |init| {
        assert t[i] == init[i];
      }
    }
    if HasFlag(init, f) {
      var i :| 0 <= i < |init| && TokenFlag(init[i]) == f;
      assert t[i] == init[i];
    }
    if TokenFlag(last) == f {
      assert t[|init|] == last;
    }
  }

  /** The mask is the or of the flags of the tokens present. */
  lemma {:induction false} ModifierMaskOfPresent(tokens: seq<String>)
    ensures ModifierMask(tokens) == MaskOfPresent(tokens)
    decreases |tokens|
  {
    if tokens != [] {
      var init, last := tokens[..|tokens| - 1], tokens[|tokens| - 1];
      assert tokens == init + [last];
      ModifierMaskOfPresent(init);
      HasFlagSnoc(init, last, CmdKey);
      HasFlagSnoc(init, last, ShiftKey);
      HasFlagSnoc(init, last, OptionKey);
      HasFlagSnoc(init, last, ControlKey);
      var x := TokenFlag(last);
      TokenFlagCases(last);
      assert ModifierMask(tokens) == ModifierMask(init) | x;
      FlagMaskStep(HasFlag(init, CmdKey), HasFlag(init, ShiftKey), HasFlag(init, OptionKey), HasFlag(init, ControlKey), x);
    }
  }

  /** Reordering or repeating modifier tokens does not change the mask. */
  lemma ModifierMaskMembership(a: seq<String>, b: seq<String>)
    requires forall t :: t in a <==> t in b
    ensures ModifierMask(a) == ModifierMask(b)
  {
    ModifierMaskOfPresent(a);
    ModifierMaskOfPresent(b);
    forall f ensures HasFlag(a, f) <==> HasFlag(b, f) {
      if HasFlag(a, f) {
        var i :| 0 <= i < |a| && TokenFlag(a[i]) == f;
        assert a[i] in b;
        var j :| 0 <= j < |b| && b[j] == a[i];
      }
      if HasFlag(b, f) {
        var i :| 0 <= i < |b| && TokenFlag(b[i]) == f;
        assert b[i] in a;
        var j :| 0 <= j < |a| && a[j] == b[i];
      }
    }
  }

  /** The mask only ever holds the four modifier bits. */
  lemma ModifierMaskBits(tokens: seq<String>)
    ensures ModifierMask(tokens) & !(CmdKey | ShiftKey | OptionKey | ControlKey) == 0
  {
    ModifierMaskOfPresent(tokens);
  }

  /** Distinct letters have distinct key codes. */
  lemma LetterKeyCodesDistinct(i: nat, j: nat)
    requires i < j < |LetterKeyCodes|
    ensures LetterKeyCodes[i] != LetterKeyCodes[j]
  {
  }

  /** A shortcut parses exactly when its last part is a single letter. */
  lemma ParseShortcutSomeIff(raw: String)
    ensures var parts := ShortcutParts(raw);
      ParseShortcut(raw).Some? <==> parts != [] && IsLetterKey(parts[|parts| - 1])
  {
  }

  /** Parsing ignores letter case. */
  lemma ParseShortcutCaseInsensitive(raw: String)
    ensures ParseShortcut(ToUpper(raw)) == ParseShortcut(raw)
  {
    var u, l := ToLower(ToUpper(raw)), ToLower(raw);
    assert |u| == |l|;
    forall i | 0 <= i < |u| ensures u[i] == l[i] {
      assert ToUpper(raw)[i] == UpperChar(raw[i]);
    }
    assert u == l;
  }

  /** What the center keeps for a registered shortcut: its hotkey id and action (the OS reference is not modelled). */
  datatype Registered<A> = Registered(id: nat, action: A)

  /**
   * The keys of `actions` are exactly the ids stored in `shortcuts`, each with
   * its shortcut's action; ids are distinct and below `nextID`.
   */
  ghost predicate RegistryValid<A>(shortcuts: map<String, Registered<A>>, actions: map<nat, A>, nextID: nat) {
    && 1 <= nextID
    && (forall s :: s in shortcuts ==>
          && 1 <= shortcuts[s].id < nextID
          && shortcuts[s].id in actions
          && actions[shortcuts[s].id] == shortcuts[s].action)
    && (forall id :: id in actions ==> exists s :: s in shortcuts && shortcuts[s].id == id)
    && (forall s, t :: s in shortcuts && t in shortcuts && s != t ==> shortcuts[s].id != shortcuts[t].id)
  }

  /** Dropping a shortcut and its id keeps the registry consistent. */
  lemma RemovalValid<A>(shortcuts: map<String, Registered<A>>, actions: map<nat, A>, nextID: nat, k: String)
    requires RegistryValid(shortcuts, actions, nextID) && k in shortcuts
    ensures RegistryValid(shortcuts - {k}, actions - {shortcuts[k].id}, nextID)
  {
    var sh := shortcuts - {k};
    var act := actions - {shortcuts[k].id};
    forall s | s in sh ensures 1 <= sh[s].id < nextID && sh[s].id in act && act[sh[s].id] == sh[s].action {
      assert sh[s] == shortcuts[s] && shortcuts[s].id != shortcuts[k].id;
    }
    forall id | id in act ensures exists s :: s in sh && sh[s].id == id {
      var s :| s in shortcuts && shortcuts[s].id == id;
      assert s != k && s in sh;
    }
  }

  /** Adding a shortcut under the next id, which no entry uses, keeps the registry consistent. */
  lemma InsertionValid<A>(shortcuts: map<String, Registered<A>>, actions: map<nat, A>, nextID: nat, k: String, a: A)
    requires RegistryValid(shortcuts, actions, nextID) && k !in shortcuts
    ensures nextID !in actions
    ensures RegistryValid(shortcuts[k := Registered(nextID, a)], actions[nextID := a], nextID + 1)
  {
    var sh := shortcuts[k := Registered(nextID, a)];
    var act := actions[nextID := a];
    forall id | id in actions ensures id < nextID {
      var s :| s in shortcuts && shortcuts[s].id == id;
    }
    forall s | s in sh ensures 1 <= sh[s].id < nextID + 1 && sh[s].id in act && act[sh[s].id] == sh[s].action {
      if s != k {
        assert sh[s] == shortcuts[s];
      }
    }
    forall id | id in act ensures exists s :: s in sh && sh[s].id == id {
      if id == nextID {
        assert k in sh && sh[k].id == id;
      } else {
        var s :| s in shortcuts && shortcuts[s].id == id;
        assert s in sh && sh[s] == shortcuts[s];
      }
    }
  }

  /** The registry of global hotkeys: one entry per shortcut string and the action of each registered hotkey id. */
  class HotkeyCenter<A> {
    var shortcuts: map<String, Registered<A>>
    var actionsByID: map<nat, A>
    var nextID: nat

    ghost predicate Valid()
      reads this
    {
      RegistryValid(shortcuts, actionsByID, nextID)
    }

    constructor ()
      ensures Valid()
      ensures shortcuts == map[] && actionsByID == map[] && nextID == 1
    {
      shortcuts := map[];
      actionsByID := map[];
      nextID := 1;
    }

    /** The action an event carrying hotkey id `id` triggers (`handle(event:)`). */
    function ActionFor(id: nat): Option<A>
      reads this
    {
      if id in actionsByID then Some(actionsByID[id]) else None
    }

    /** `unregisterLocked`: drops the shortcut's entry and its action, if it has one. */
    method UnregisterLocked(shortcut: String)
      requires Valid()
      modifies this
      ensures Valid()
      ensures shortcuts == old(shortcuts) - {shortcut}
      ensures actionsByID ==
        if shortcut in old(shortcuts) then old(actionsByID) - {old(shortcuts)[shortcut].id} else old(actionsByID)
      ensures nextID == old(nextID)
    {
      if shortcut !in shortcuts {
        return;
      }
      RemovalValid(shortcuts, actionsByID, nextID, shortcut);
      var registered := shortcuts[shortcut];
      shortcuts := shortcuts - {shortcut};
      actionsByID := actionsByID - {registered.id};
    }

    /** `unregister`: the same removal, under the lock. */
    method Unregister(shortcut: String)
      requires Valid()
      modifies this
      ensures Valid()
      ensures shortcuts == old(shortcuts) - {shortcut}
      ensures actionsByID ==
        if shortcut in old(shortcuts) then old(actionsByID) - {old(shortcuts)[shortcut].id} else old(actionsByID)
      ensures nextID == old(nextID)
      ensures shortcut !in old(shortcuts) ==> shortcuts == old(shortcuts) && actionsByID == old(actionsByID)
    {
      UnregisterLocked(shortcut);
    }

    /**
     * `register(shortcut:action:)`. Any entry for the same string is removed first;
     * then, if the shortcut parses and the operating system accepts the hotkey
     * (`osAccepts`), it is stored under the id `nextID`, which then advances.
     */
    method Register(shortcut: String, action: A, osAccepts: bool)
      requires Valid()
      modifies this
      ensures Valid()
      ensures var removedActions :=
          if shortcut in old(shortcuts) then old(actionsByID) - {old(shortcuts)[shortcut].id} else old(actionsByID);
        if ParseShortcut(shortcut).Some? && osAccepts then
          && shortcuts == (old(shortcuts) - {shortcut})[shortcut := Registered(old(nextID), action)]
          && actionsByID == removedActions[old(nextID) := action]
          && nextID == old(nextID) + 1
        else
          && shortcuts == old(shortcuts) - {shortcut}
          && actionsByID == removedActions
          && nextID == old(nextID)
      ensures ParseShortcut(shortcut).Some? && osAccepts ==> ActionFor(old(nextID)) == Some(action)
    {
      UnregisterLocked(shortcut);
      var parsed := ParseShortcut(shortcut);
      if parsed.None? || !osAccepts {
        return;
      }
      Store(shortcut, action);
    }

    /** Records a new registration under `nextID` for a shortcut with no entry. */
    method Store(shortcut: String, action: A)
      requires Valid() && shortcut !in shortcuts
      modifies this
      ensures Valid()
      ensures shortcuts == old(shortcuts)[shortcut := Registered(old(nextID), action)]
      ensures actionsByID == old(actionsByID)[old(nextID) := action]
      ensures nextID == old(nextID) + 1
    {
      InsertionValid(shortcuts, actionsByID, nextID, shortcut, action);
      shortcuts := shortcuts[shortcut := Registered(nextID, action)];
      actionsByID := actionsByID[nextID := action];
      nextID := nextID + 1;
    }
  }
}

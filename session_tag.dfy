/** Session tags and the four built-in tags (`SessionTag`). */
module SessionTags {
  import opened Text
  import opened Uuids
  import opened Dedup
  import opened Wrappers

  datatype SessionTag = SessionTag(id: Uuid, name: String, isBuiltIn: bool) {

    /** The name trimmed of whitespace and newlines, then lowercased. */
    function NormalizedName(): String {
      TrimLower(name)
    }
  }

  /** The built-in tags, in catalog order. */
  const BuiltIns: seq<SessionTag> := [
    SessionTag(Uuid("A4F6E7E2-8AC7-4A10-81C1-FA7B43E3CE01"), "coding", true),
    SessionTag(Uuid("A4F6E7E2-8AC7-4A10-81C1-FA7B43E3CE02"), "researching", true),
    SessionTag(Uuid("A4F6E7E2-8AC7-4A10-81C1-FA7B43E3CE03"), "email", true),
    SessionTag(Uuid("A4F6E7E2-8AC7-4A10-81C1-FA7B43E3CE04"), "meeting", true)
  ]

  function BuiltInNames(): seq<String> {
    seq(|BuiltIns|, i requires 0 <= i < |BuiltIns| => BuiltIns[i].name)
  }

  function BuiltInIds(): seq<Uuid> {
    seq(|BuiltIns|, i requires 0 <= i < |BuiltIns| => BuiltIns[i].id)
  }

  /** Normalising a normalised name changes nothing. */
  lemma NormalizedNameIdempotent(t: SessionTag)
    ensures t.(name := t.NormalizedName()).NormalizedName() == t.NormalizedName()
  {
    TrimLowerIdempotent(t.name);
  }

  /**
   * The built-ins are coding, researching, email and meeting in that order, all
   * flagged built-in, with distinct ids and names.
   */
  lemma BuiltInsShape()
    ensures BuiltInNames() == ["coding", "researching", "email", "meeting"]
    ensures forall i :: 0 <= i < |BuiltIns| ==> BuiltIns[i].isBuiltIn
    ensures Distinct(BuiltInIds()) && Distinct(BuiltInNames())
  {
  }

  /** Every built-in name is already normalised. */
  lemma BuiltInsNormalized(i: nat)
    requires i < |BuiltIns|
    ensures BuiltIns[i].NormalizedName() == BuiltIns[i].name
  {
    var n := BuiltIns[i].name;
    assert n[0] != ' ' && IsLowercase(n);
    assert !InSet(n[0], WhitespacesAndNewlines) && !InSet(n[|n| - 1], WhitespacesAndNewlines);
    TrimOfTrimmed(n, WhitespacesAndNewlines);
  }

  /** The built-in whose name is `name`, if there is one (the source's `builtInByName`). */
  function BuiltInNamed(name: String): (r: Option<SessionTag>)
    ensures r.Some? <==> name in BuiltInNames()
    ensures r.Some? ==> r.value in BuiltIns && r.value.name == name
  {
    assert BuiltInNames() == ["coding", "researching", "email", "meeting"];
    if name == "coding" then Some(BuiltIns[0])
    else if name == "researching" then Some(BuiltIns[1])
    else if name == "email" then Some(BuiltIns[2])
    else if name == "meeting" then Some(BuiltIns[3])
    else None
  }
}

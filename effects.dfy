/**
 * What the child features' reducers return besides their new state, and the
 * text-field submission rule several of them share.
 */
module Effects {
  import opened Wrappers
  import opened Text

  /** `.none`, or `.send(action)` of one follow-up action (here always a delegate action). */
  datatype Effect<A> = NoEffect | Send(action: A)

  /**
   * A text field's submission: the input trimmed of whitespace and newlines, or
   * nothing when the input is blank.
   */
  function Submission(input: String): (r: Option<String>)
    ensures r.None? <==> AllIn(input, WhitespacesAndNewlines)
    ensures r.Some? ==> r.value != [] && r.value == Trim(input, WhitespacesAndNewlines)
    ensures r.Some? ==> Trim(r.value, WhitespacesAndNewlines) == r.value
  {
    var text := Trim(input, WhitespacesAndNewlines);
    TrimEmptyIff(input, WhitespacesAndNewlines);
    TrimIdempotent(input, WhitespacesAndNewlines);
    if text == [] then None else Some(text)
  }
}

/** The four focus modes of the original capture model (`FocusMode`). */
module FocusModes {
  import opened Text

  datatype FocusMode = Coding | Researching | Email | Meeting {

    /** The enum's raw value. */
    function RawValue(): (r: String)
      ensures r != [] && IsLowercase(r)
      ensures '-' !in r && '.' !in r
    {
      match this
      case Coding => "coding"
      case Researching => "researching"
      case Email => "email"
      case Meeting => "meeting"
    }
  }

  /** Distinct modes have distinct raw values. */
  lemma RawValueInjective(a: FocusMode, b: FocusMode)
    requires a.RawValue() == b.RawValue()
    ensures a == b
  {
  }
}

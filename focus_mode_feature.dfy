/** The focus-mode picker's reducer (`FocusModeFeature`). */
module FocusModeFeature {
  import opened FocusModes
  import opened Effects

  datatype Delegate = ModeChanged(mode: FocusMode)

  /** The feature's state; each method is one case of the reducer. */
  class State {
    var selectedMode: FocusMode

    /** The initial state selects coding. */
    constructor()
      ensures selectedMode == Coding
    {
      selectedMode := Coding;
    }

    /** `selectMode(m)`: selects `m` and tells the parent `modeChanged(m)`. */
    method SelectMode(mode: FocusMode) returns (effect: Effect<Delegate>)
      modifies this
      ensures selectedMode == mode
      ensures effect == Send(ModeChanged(mode))
    {
      selectedMode := mode;
      effect := Send(ModeChanged(mode));
    }

    /** A delegate action is meant for the parent: nothing changes and nothing is sent. */
    method DelegateReceived(d: Delegate) returns (effect: Effect<Delegate>)
      ensures effect == NoEffect
    {
      effect := NoEffect;
    }
  }
}

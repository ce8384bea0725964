/** The floating capture palette's reducer (`FloatingPaletteFeature`). */
module FloatingPaletteFeature {
  import opened Wrappers
  import opened Text
  import opened FocusModes
  import opened CapturedItems
  import opened Effects

  datatype Delegate = Capture(text: String) | Close | PinToEdge(pinned: bool)

  /** The feature's state; each method is one case of the reducer. */
  class State {
    var currentMode: FocusMode
    var inputText: String
    var recentItems: seq<CapturedItem>
    var isPinnedToEdge: bool

    /** A palette for `currentMode`, with an empty input, no recent items and not pinned. */
    constructor(currentMode: FocusMode)
      ensures this.currentMode == currentMode
      ensures inputText == [] && recentItems == [] && !isPinnedToEdge
    {
      this.currentMode := currentMode;
      inputText := [];
      recentItems := [];
      isPinnedToEdge := false;
    }

    /**
     * `submitTapped`: a blank input changes nothing and sends nothing; otherwise
     * the input is cleared and its trimmed text is sent as `capture`.
     */
    method SubmitTapped() returns (effect: Effect<Delegate>)
      modifies this`inputText
      ensures match Submission(old(inputText))
        case None => inputText == old(inputText) && effect == NoEffect
        case Some(text) => inputText == [] && effect == Send(Capture(text))
    {
      var submitted := Submission(inputText);
      if submitted.None? {
        return NoEffect;
      }
      inputText := [];
      effect := Send(Capture(submitted.value));
    }

    /** `closeTapped`: sends `close` and changes nothing. */
    method CloseTapped() returns (effect: Effect<Delegate>)
      ensures effect == Send(Close)
    {
      effect := Send(Close);
    }

    /**
     * `pinToEdgeTapped`: flips the pin and sends its new value, so pressing it
     * twice restores the state.
     */
    method PinToEdgeTapped() returns (effect: Effect<Delegate>)
      modifies this`isPinnedToEdge
      ensures isPinnedToEdge == !old(isPinnedToEdge)
      ensures effect == Send(PinToEdge(isPinnedToEdge))
    {
      isPinnedToEdge := !isPinnedToEdge;
      effect := Send(PinToEdge(isPinnedToEdge));
    }

    /** A delegate action is meant for the parent: nothing changes and nothing is sent. */
    method DelegateReceived(d: Delegate) returns (effect: Effect<Delegate>)
      ensures effect == NoEffect
    {
      effect := NoEffect;
    }
  }
}

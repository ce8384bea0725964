/** A capture session of the mode-based model (`Session`) and its file name. */
module Sessions {
  import opened Wrappers
  import opened Text
  import opened DateTime
  import opened FocusModes
  import opened CapturedItems

  datatype Session = Session(mode: FocusMode, startedAt: Date, endedAt: Option<Date>, items: seq<CapturedItem>) {

    /** "<yyyy-MM-dd-HHmm of the start>-<mode raw value>.md". */
    function FileName(): String {
      FormatFileStamp(startedAt) + "-" + mode.RawValue() + ".md"
    }

    /** A session is identified by its file name. */
    function Id(): (r: String)
      ensures r == FileName()
    {
      FileName()
    }
  }

  /**
   * The file name always ends in ".md", starts with the start-minute stamp and
   * contains the mode's raw value right after it.
   */
  lemma FileNameShape(s: Session)
    ensures
      var name := s.FileName();
      && |name| == 16 + |s.mode.RawValue()| + 3
      && name[..15] == FormatFileStamp(s.startedAt) && name[15] == '-'
      && name[16..|name| - 3] == s.mode.RawValue() && name[|name| - 3..] == ".md"
  {
  }

  /**
   * File names determine the start minute and the mode: two sessions share a
   * file name exactly when they started in the same minute in the same mode.
   */
  lemma FileNameInjective(a: Session, b: Session)
    ensures a.FileName() == b.FileName() <==> a.startedAt == b.startedAt && a.mode == b.mode
  {
    if a.FileName() == b.FileName() {
      FileNameShape(a);
      FileNameShape(b);
      FileStampInjective(a.startedAt, b.startedAt);
      RawValueInjective(a.mode, b.mode);
    }
  }
}

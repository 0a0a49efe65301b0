/**
 * The lyric, progress and play-state records the player pushes. Times and
 * durations are milliseconds (C# `long`, unbounded here); a C# null string
 * is `None`.
 */
module LyricModels {
  import opened Wrappers

  /** One timed word of a word-by-word ("dynamic") lyric. */
  datatype DynamicLyricWord = DynamicLyricWord(time: int, duration: int, flag: int, word: Option<string>)

  datatype LyricLine = LyricLine(
    time: int,
    duration: int,
    originalLyric: Option<string>,
    translatedLyric: Option<string>,
    romanLyric: Option<string>,
    dynamicLyricTime: Option<int>,
    dynamicLyric: Option<seq<DynamicLyricWord>>)

  datatype LyricData = LyricData(lines: seq<LyricLine>)

  datatype ProgressData = ProgressData(time: int, duration: int)

  datatype PlayStateData = PlayStateData(state: Option<string>) {
    /** The player is playing exactly when it last reported the tag "resume". */
    predicate IsPlaying() {
      state == Some("resume")
    }
  }

  /** Only the exact, lower-case tag "resume" reads as playing. */
  lemma PlayStateTags()
    ensures PlayStateData(Some("resume")).IsPlaying()
    ensures !PlayStateData(Some("pause")).IsPlaying()
    ensures !PlayStateData(Some("Resume")).IsPlaying()
    ensures !PlayStateData(Some("")).IsPlaying()
    ensures !PlayStateData(None).IsPlaying()
  {
    assert "Resume"[0] != "resume"[0];
  }

  /** `string.IsNullOrEmpty`. */
  predicate IsNullOrEmpty(s: Option<string>) {
    s.None? || s.value == ""
  }
}

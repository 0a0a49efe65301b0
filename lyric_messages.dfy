/** The message envelope the player posts, and its type tags. */
module LyricMessages {
  import opened Wrappers

  const SongTag: string := "song"
  const LyricTag: string := "lyric"
  const ProgressTag: string := "progress"
  const StateTag: string := "state"
  const ErrorTag: string := "error"

  /** The five tags the endpoint understands. */
  predicate IsKnownTag(tag: string) {
    tag == SongTag || tag == LyricTag || tag == ProgressTag || tag == StateTag || tag == ErrorTag
  }

  /** The tags are pairwise distinct, so a message selects at most one handler. */
  lemma TagsDistinct()
    ensures |{SongTag, LyricTag, ProgressTag, StateTag, ErrorTag}| == 5
  {
    assert SongTag[0] == 's' && LyricTag[0] == 'l' && ProgressTag[0] == 'p' && ErrorTag[0] == 'e';
    assert StateTag[1] == 't' && SongTag[1] == 'o';
  }

  datatype ErrorData = ErrorData(message: Option<string>)
}

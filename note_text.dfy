/**
 * The memo line several evening and weekly planners print above their
 * suggestion: the stripped notes in 『』 brackets, or nothing when the notes
 * are blank.
 */
module NoteText {
  import opened PyText

  /** `f"メモ：『{notes.strip()}』\n" if notes.strip() else ""`. */
  function NoteLine(notes: string): (line: string)
    ensures line == "" <==> IsBlank(notes)
    ensures !IsBlank(notes) ==> |line| == |Strip(notes)| + 6 && line[4..|line| - 2] == Strip(notes)
  {
    if IsBlank(notes) then "" else "メモ：『" + Strip(notes) + "』\n"
  }
}

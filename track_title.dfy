/**
 * The display title the client derives from a prompt, in both places it
 * does so (the audio context and the home page):
 * `prompt.slice(0, 30) + (prompt.length > 30 ? "..." : "")`.
 */
module TrackTitles {
  import opened JsText

  /** How many characters of the prompt a title keeps. */
  const TitleLength: nat := 30

  function TrackTitle(prompt: string): (r: string)
    ensures |r| <= TitleLength + 3
    ensures |prompt| <= TitleLength ==> r == prompt
    ensures |prompt| > TitleLength ==> |r| == TitleLength + 3 && r[..TitleLength] == prompt[..TitleLength] && r[TitleLength..] == "..."
  {
    Prefix(prompt, TitleLength) + (if |prompt| > TitleLength then "..." else "")
  }

  /**
   * The title is the prompt itself exactly when the prompt is short, or is
   * 33 characters whose last three are already "...".
   */
  lemma TitleFixedPoints(prompt: string)
    ensures TrackTitle(prompt) == prompt <==>
      |prompt| <= TitleLength || (|prompt| == TitleLength + 3 && prompt[TitleLength..] == "...")
  {
    if |prompt| == TitleLength + 3 && prompt[TitleLength..] == "..." {
      assert prompt == prompt[..TitleLength] + prompt[TitleLength..];
    }
  }

  /** Long prompts that share their first 30 characters get the same title. */
  lemma LongPromptsCollide(p: string, q: string)
    requires |p| > TitleLength && |q| > TitleLength && p[..TitleLength] == q[..TitleLength]
    ensures TrackTitle(p) == TrackTitle(q)
  {
  }
}

/**
 * The two string builders of a training pair: `PromptBuilder.build_prompt`
 * and `LyricsPostProcessor.add_title_to_lyrics` in utils.py.
 */
module Prompts {
  import opened Wrappers
  import opened PyText
  import opened Songs

  /** The fixed text every prompt starts with. */
  const PromptHead: string := "Write a rap song in year "

  /**
   * `build_prompt`: the fixed template filled with `str(year)`, `str(rapper)`
   * and the summary; the summary ends the prompt, with no period after it.
   */
  function BuildPrompt(entry: SongEntry, summary: string): (r: string)
    ensures |PromptHead| + |summary| <= |r|
    ensures r[..|PromptHead|] == PromptHead
    ensures r[|r| - |summary|..] == summary
  {
    PromptHead + Render(entry.songYear) + "'s " + Render(entry.rapperName) +
    " style. The topic is about: " + summary
  }

  /** The summary is recoverable from the prompt: two summaries give the same prompt only if equal. */
  lemma BuildPromptInjective(entry: SongEntry, s1: string, s2: string)
    requires BuildPrompt(entry, s1) == BuildPrompt(entry, s2)
    ensures s1 == s2
  {
    var fixedPart := PromptHead + Render(entry.songYear) + "'s " + Render(entry.rapperName) +
      " style. The topic is about: ";
    assert BuildPrompt(entry, s1) == fixedPart + s1;
    assert BuildPrompt(entry, s2) == fixedPart + s2;
    assert s1 == (fixedPart + s1)[|fixedPart|..];
    assert s2 == (fixedPart + s2)[|fixedPart|..];
  }

  /** Absent year and rapper fields are rendered as the literal text `None`. */
  lemma BuildPromptAbsentFields(entry: SongEntry, summary: string)
    requires entry.songYear == Null && entry.rapperName == Null
    ensures BuildPrompt(entry, summary)
         == "Write a rap song in year None's None style. The topic is about: " + summary
  {
    PromptTemplateOfAbsentFields();
  }

  /**
   * Solver hint, not a property of the source: the template's literal pieces
   * with "None" substituted join into one literal. Stated apart so that the
   * literal concatenation is checked once, in a small context.
   */
  lemma PromptTemplateOfAbsentFields()
    ensures PromptHead + "None" + "'s " + "None" + " style. The topic is about: "
         == "Write a rap song in year None's None style. The topic is about: "
  {
  }

  /**
   * `add_title_to_lyrics`: the stripped title, a blank line and the stripped
   * lyrics, or the stripped lyrics alone when the title strips to nothing.
   * `None` means the call raises: the lyrics value is not a `str` and has no
   * `strip` method.
   */
  function AddTitleToLyrics(title: Value, lyrics: Value): (r: Option<string>)
    ensures r.None? <==> !lyrics.Text?
  {
    var titleLine := Strip(Render(title));
    match lyrics
    case Text(l) =>
      if titleLine == "" then Some(Strip(l)) else Some(titleLine + "\n\n" + Strip(l))
    case _ => None
  }

  /**
   * A completion ends with the stripped lyrics and does not start with
   * whitespace.
   */
  lemma CompletionShape(title: Value, lyrics: string)
    ensures var c := AddTitleToLyrics(title, Text(lyrics)).value;
      && |Strip(lyrics)| <= |c| && c[|c| - |Strip(lyrics)|..] == Strip(lyrics)
      && (c != "" ==> !IsWhitespace(c[0]))
  {
    StripTrims(lyrics);
    StripTrims(Render(title));
  }

  /** With a title that strips to nothing the completion is the stripped lyrics. */
  lemma UntitledCompletion(title: Value, lyrics: string)
    requires Strip(Render(title)) == ""
    ensures AddTitleToLyrics(title, Text(lyrics)) == Some(Strip(lyrics))
  {
  }

  /**
   * With a non-blank title the completion starts with the stripped title,
   * then exactly one blank line, then the stripped lyrics.
   */
  lemma TitledCompletion(title: Value, lyrics: string)
    requires Strip(Render(title)) != ""
    ensures var t := Strip(Render(title));
      var c := AddTitleToLyrics(title, Text(lyrics)).value;
      && |c| == |t| + 2 + |Strip(lyrics)|
      && c[..|t|] == t
      && c[|t|..|t| + 2] == "\n\n"
      && c[|t| + 2..] == Strip(lyrics)
  {
  }

  /** An absent title is the text `None`, which is not blank, so it heads the completion. */
  lemma AbsentTitleCompletion(lyrics: string)
    ensures AddTitleToLyrics(Null, Text(lyrics)) == Some("None\n\n" + Strip(lyrics))
  {
    assert TrimmedAt("None", "None", 0);
    StripUnique("None", "None", 0);
    NoneHeading(Strip(lyrics));
  }

  /** Solver hint, not a property of the source: the heading literals join into one. */
  lemma NoneHeading(l: string)
    ensures "None" + "\n\n" + l == "None\n\n" + l
  {
  }

  /** An untitled completion is a fixed point: building it again changes nothing. */
  lemma UntitledCompletionIdempotent(lyrics: string)
    ensures var c := AddTitleToLyrics(Text(""), Text(lyrics)).value;
      AddTitleToLyrics(Text(""), Text(c)) == Some(c)
  {
    StripAllWhitespace(Render(Text("")));
    UntitledCompletion(Text(""), lyrics);
    UntitledCompletion(Text(""), Strip(lyrics));
    StripIdempotent(lyrics);
  }

  /** A title and lyrics padded with whitespace, with internal line breaks kept. */
  lemma PaddedTitleExample()
    ensures AddTitleToLyrics(Text(" Title \n"), Text(" L1\nL2 ")) == Some("Title\n\nL1\nL2")
  {
    var title, lyrics := " Title \n", " L1\nL2 ";
    assert title[1..6] == "Title";
    assert IsWhitespace(title[0]) && IsWhitespace(title[6]) && IsWhitespace(title[7]);
    assert TrimmedAt(title, "Title", 1);
    StripUnique(title, "Title", 1);
    assert lyrics[1..6] == "L1\nL2";
    assert IsWhitespace(lyrics[0]) && IsWhitespace(lyrics[6]);
    assert TrimmedAt(lyrics, "L1\nL2", 1);
    StripUnique(lyrics, "L1\nL2", 1);
    assert "Title" + "\n\n" + "L1\nL2" == "Title\n\nL1\nL2";
  }
}

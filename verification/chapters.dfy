/**
 The "Copy List" button of the chapters generator
 (src/app/chapters-generator/page.tsx): each chapter becomes a line
 `timestamp - title`, and the lines are joined with newlines.
 */
module Chapters {
  import opened Strings
  import opened Common

  datatype Chapter = Chapter(timestamp: string, title: string)

  /** The line copied for one chapter. */
  function Line(c: Chapter): string {
    c.timestamp + " - " + c.title
  }

  function Lines(cs: seq<Chapter>): (ls: seq<string>)
    ensures |ls| == |cs|
    ensures forall i | 0 <= i < |cs| :: ls[i] == Line(cs[i])
  {
    seq(|cs|, i requires 0 <= i < |cs| => Line(cs[i]))
  }

  /** The text put on the clipboard. */
  function ChaptersText(cs: seq<Chapter>): string {
    Join(Lines(cs), "\n")
  }

  /** What a copy does: the clipboard text and the confirmation toast. */
  datatype Copied = Copied(text: string, toast: Toast)

  const CopiedToast := Toast("Copied!", "All chapters have been copied to your clipboard.", Plain)

  /** `handleCopy`: nothing happens without an output; with one, its
      chapters' text is copied (the empty string for no chapters) and
      confirmed. */
  function Copy(output: Option<seq<Chapter>>): (r: Option<Copied>)
    ensures r.None? <==> output.None?
    ensures output == Some([]) ==> r == Some(Copied("", CopiedToast))
    ensures output.Some? ==> r == Some(Copied(ChaptersText(output.value), CopiedToast))
  {
    match output
    case None => None
    case Some(cs) => Some(Copied(ChaptersText(cs), CopiedToast))
  }

  /** No timestamp or title of the list spans lines. */
  predicate SingleLine(cs: seq<Chapter>) {
    forall i | 0 <= i < |cs| :: '\n' !in cs[i].timestamp && '\n' !in cs[i].title
  }

  /** An empty chapter list is still copied: the text is "", and read back
      line by line it gives one empty line, not none. */
  lemma EmptyListCopiesOneBlankLine()
    ensures Copy(Some([])) == Some(Copied("", CopiedToast))
    ensures Split(ChaptersText([]), '\n') == [""]
    ensures Split(ChaptersText([]), '\n') != Lines([])
  {
  }

  /** Reading the copied text back line by line gives one line per chapter,
      in chapter order, each `timestamp - title`. */
  lemma CopiedTextSplitsIntoChapterLines(cs: seq<Chapter>)
    requires |cs| > 0
    requires SingleLine(cs)
    ensures Split(ChaptersText(cs), '\n') == Lines(cs)
  {
    forall i | 0 <= i < |cs|
      ensures '\n' !in Lines(cs)[i]
    {
      assert Lines(cs)[i] == cs[i].timestamp + " - " + cs[i].title;
    }
    SplitJoin(Lines(cs), '\n');
  }

  /** n chapters give n - 1 line breaks. */
  lemma CopiedTextHasOneBreakBetweenChapters(cs: seq<Chapter>)
    requires |cs| > 0
    requires SingleLine(cs)
    ensures Count(ChaptersText(cs), '\n') == |cs| - 1
  {
    CopiedTextSplitsIntoChapterLines(cs);
    SplitCount(ChaptersText(cs), '\n');
  }
}

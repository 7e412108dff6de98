/**
 * How a chat message is laid out: the text is cut at every triple backtick, the odd pieces
 * being code blocks (first line the language, the rest the code) and the even pieces prose in
 * which single backticks mark inline code.
 */
module MessageBubble {
  import opened Wrappers
  import opened Text

  const Fence := "```"

  datatype Span = Plain(text: string) | InlineCode(text: string)

  /** A block of the message: prose with its spans, or code with the language label if any. */
  datatype Block = Prose(spans: seq<Span>) | Code(language: Option<string>, code: string)

  /** `part.split('`')`, the odd segments as inline code. */
  function Spans(part: string): (r: seq<Span>)
    ensures |r| == |Split(part, "`")|
    ensures forall j :: 0 <= j < |r| ==> r[j].text == Split(part, "`")[j] && (r[j].InlineCode? <==> j % 2 == 1)
  {
    var segments := Split(part, "`");
    seq(|segments|, j requires 0 <= j < |segments| => if j % 2 == 1 then InlineCode(segments[j]) else Plain(segments[j]))
  }

  /** A code piece: the first line is the language, shown only when non-empty; the code is the rest, or the whole piece when the rest is empty. */
  function CodeBlock(part: string): Block {
    var lines := Split(part, "\n");
    var language := lines[0];
    var code := Join(lines[1..], "\n");
    Code(if language != "" then Some(language) else None, if code != "" then code else part)
  }

  /** The blocks of a message, one per piece of `content.split('```')`. */
  function Blocks(content: string): (r: seq<Block>)
    ensures |r| == |Split(content, Fence)|
    ensures forall i :: 0 <= i < |r| ==>
              r[i] == if i % 2 == 1 then CodeBlock(Split(content, Fence)[i]) else Prose(Spans(Split(content, Fence)[i]))
  {
    var parts := Split(content, Fence);
    seq(|parts|, i requires 0 <= i < |parts| => if i % 2 == 1 then CodeBlock(parts[i]) else Prose(Spans(parts[i])))
  }

  /**
   * There is one block more than there are fences, the pieces joined back with the fence give
   * the message, and no piece holds a fence.
   */
  lemma PiecesRoundTrip(content: string)
    ensures |Blocks(content)| == CountOccurrences(content, Fence) + 1
    ensures Join(Split(content, Fence), Fence) == content
    ensures forall i :: 0 <= i < |Split(content, Fence)| ==> !Contains(Split(content, Fence)[i], Fence)
  {
    SplitCount(content, Fence);
    JoinSplit(content, Fence);
    forall i | 0 <= i < |Split(content, Fence)| ensures !Contains(Split(content, Fence)[i], Fence) {
      SplitPiecesFree(content, Fence, i);
    }
  }

  /** Blocks alternate, prose first: a message with one fence and no closing one still ends in code. */
  lemma UnterminatedFence(content: string)
    requires CountOccurrences(content, Fence) == 1
    ensures |Blocks(content)| == 2 && Blocks(content)[0].Prose? && Blocks(content)[1].Code?
  {
    SplitCount(content, Fence);
  }

  /** The language label: the piece up to its first newline, shown only when not empty. */
  function LanguageLabel(firstLine: string): Option<string> {
    if firstLine != "" then Some(firstLine) else None
  }

  /**
   * Without a newline the whole piece is both the label and the code; otherwise the label is
   * the piece before the first newline and the code everything after it, or the whole piece
   * when nothing follows that newline.
   */
  lemma CodeBlockCases(part: string)
    ensures IndexOf(part, "\n").None? ==> CodeBlock(part) == Code(LanguageLabel(part), part)
    ensures IndexOf(part, "\n").Some? ==>
              var i := IndexOf(part, "\n").value;
              CodeBlock(part) == Code(LanguageLabel(part[..i]), if i + 1 < |part| then part[i + 1..] else part)
  {
    match IndexOf(part, "\n")
    case None =>
    case Some(i) =>
      var rest := part[i + 1..];
      var lines := Split(part, "\n");
      assert lines == [part[..i]] + Split(rest, "\n");
      assert lines[1..] == Split(rest, "\n");
      JoinSplit(rest, "\n");
  }

  /** The spans of a prose piece, joined back with '`', give the piece. */
  lemma SpansRoundTrip(part: string)
    ensures Join(SpanTexts(Spans(part)), "`") == part
  {
    assert SpanTexts(Spans(part)) == Split(part, "`");
    JoinSplit(part, "`");
  }

  function SpanTexts(spans: seq<Span>): (r: seq<string>)
    ensures |r| == |spans| && forall j :: 0 <= j < |spans| ==> r[j] == spans[j].text
  {
    seq(|spans|, j requires 0 <= j < |spans| => spans[j].text)
  }
}

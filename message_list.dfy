/**
 * The chat transcript: the empty-state prompt when there are no messages, otherwise one bubble
 * per user or assistant message with the message's text, and a typing indicator while a reply
 * to the user's last message is awaited.
 */
module MessageList {
  import opened Text

  datatype Role = System | User | Assistant

  /** A message part: text, or anything else (a tool call, reasoning, a file …). */
  datatype Part = TextPart(text: string) | OtherPart(kind: string)

  datatype Message = Message(id: string, role: Role, parts: seq<Part>)

  /** The texts of the text parts, in order. */
  function TextsOf(parts: seq<Part>): (r: seq<string>)
    ensures |r| <= |parts|
  {
    if |parts| == 0 then []
    else
      var last := parts[|parts| - 1];
      TextsOf(parts[..|parts| - 1]) + (if last.TextPart? then [last.text] else [])
  }

  /** `getMessageContent`: the text parts joined with ''. */
  function Content(m: Message): string {
    Join(TextsOf(m.parts), "")
  }

  lemma {:induction false} JoinSnoc(pieces: seq<string>, t: string)
    ensures Join(pieces + [t], "") == Join(pieces, "") + t
  {
    if |pieces| == 1 {
      assert pieces + [t] == [pieces[0], t];
      assert Join([t], "") == t;
    } else if |pieces| > 1 {
      assert (pieces + [t])[1..] == pieces[1..] + [t];
      JoinSnoc(pieces[1..], t);
    }
  }

  /**
   * The content is built part by part: no parts give '', a text part adds its text with
   * nothing in between, and any other part adds nothing.
   */
  lemma ContentParts(id: string, role: Role, parts: seq<Part>, p: Part)
    ensures Content(Message(id, role, [])) == ""
    ensures p.TextPart? ==> Content(Message(id, role, parts + [p])) == Content(Message(id, role, parts)) + p.text
    ensures p.OtherPart? ==> Content(Message(id, role, parts + [p])) == Content(Message(id, role, parts))
  {
    assert (parts + [p])[..|parts|] == parts;
    assert TextsOf(parts + [p]) == TextsOf(parts) + (if p.TextPart? then [p.text] else []);
    if p.TextPart? {
      JoinSnoc(TextsOf(parts), p.text);
    } else {
      assert TextsOf(parts) + [] == TextsOf(parts);
    }
  }

  /** A message whose parts are all non-text has empty content. */
  lemma {:induction false} NoTextNoContent(parts: seq<Part>)
    requires forall i :: 0 <= i < |parts| ==> parts[i].OtherPart?
    ensures TextsOf(parts) == []
  {
    if |parts| > 0 {
      NoTextNoContent(parts[..|parts| - 1]);
    }
  }

  /** The messages that get a bubble: system messages are dropped, the order is kept. */
  function Visible(messages: seq<Message>): seq<Message> {
    if |messages| == 0 then []
    else
      var last := messages[|messages| - 1];
      Visible(messages[..|messages| - 1]) + (if last.role != System then [last] else [])
  }

  /** A message is shown exactly when it is in the list and is not a system message. */
  lemma {:induction false} VisibleMembers(messages: seq<Message>)
    ensures forall m :: m in Visible(messages) <==> m in messages && m.role != System
  {
    if |messages| > 0 {
      var p := messages[..|messages| - 1];
      VisibleMembers(p);
      assert messages == p + [messages[|messages| - 1]];
    }
  }

  /** Filtering a concatenation filters each half: the shown messages keep their order. */
  lemma {:induction false} VisibleAppend(a: seq<Message>, b: seq<Message>)
    ensures Visible(a + b) == Visible(a) + Visible(b)
    decreases |b|
  {
    if |b| == 0 {
      assert a + b == a;
    } else {
      var q := b[..|b| - 1];
      assert (a + b)[..|a + b| - 1] == a + q;
      VisibleAppend(a, q);
    }
  }

  /** With no system message every message is shown. */
  lemma {:induction false} VisibleAll(messages: seq<Message>)
    requires forall i :: 0 <= i < |messages| ==> messages[i].role != System
    ensures Visible(messages) == messages
  {
    if |messages| > 0 {
      var p := messages[..|messages| - 1];
      VisibleAll(p);
      assert messages == p + [messages[|messages| - 1]];
    }
  }

  /** With only system messages no bubble is shown. */
  lemma {:induction false} OnlySystem(messages: seq<Message>)
    requires forall i :: 0 <= i < |messages| ==> messages[i].role == System
    ensures Visible(messages) == []
  {
    if |messages| > 0 {
      OnlySystem(messages[..|messages| - 1]);
    }
  }

  /** `isLoading && messages[messages.length - 1]?.role === 'user'`. */
  predicate Typing(messages: seq<Message>, isLoading: bool) {
    isLoading && |messages| > 0 && messages[|messages| - 1].role == User
  }

  /** A bubble: the message's id as key, its role, its content. */
  datatype Bubble = Bubble(key: string, role: Role, content: string)

  /** What the list renders. */
  datatype Screen = EmptyState | Transcript(bubbles: seq<Bubble>, typing: bool)

  function BubbleOf(m: Message): Bubble {
    Bubble(m.id, m.role, Content(m))
  }

  /** `MessageList`. */
  function Render(messages: seq<Message>, isLoading: bool): (r: Screen)
    ensures r.EmptyState? <==> |messages| == 0
    ensures r.Transcript? ==>
              |r.bubbles| == |Visible(messages)|
              && (forall i :: 0 <= i < |r.bubbles| ==> r.bubbles[i] == BubbleOf(Visible(messages)[i]))
              && (r.typing <==> Typing(messages, isLoading))
  {
    if |messages| == 0 then EmptyState
    else
      var shown := Visible(messages);
      Transcript(seq(|shown|, i requires 0 <= i < |shown| => BubbleOf(shown[i])), Typing(messages, isLoading))
  }

  /** Every bubble is a user or an assistant bubble. */
  lemma BubbleRoles(messages: seq<Message>, isLoading: bool)
    ensures Render(messages, isLoading).Transcript? ==>
              forall b :: b in Render(messages, isLoading).bubbles ==> b.role != System
  {
    VisibleMembers(messages);
    var r := Render(messages, isLoading);
    if r.Transcript? {
      forall b | b in r.bubbles
        ensures b.role != System
      {
        var i :| 0 <= i < |r.bubbles| && r.bubbles[i] == b;
        assert Visible(messages)[i] in Visible(messages);
      }
    }
  }

  /**
   * The indicator looks at the last message overall: a trailing system message hides it,
   * even though the last shown bubble is the user's.
   */
  lemma TrailingSystemHidesTyping(ask: Message, note: Message)
    requires ask.role == User && note.role == System
    ensures Visible([ask, note]) == [ask]
    ensures !Render([ask, note], true).typing
    ensures Render([ask], true).typing
  {
    assert [ask, note][..1] == [ask];
    assert [ask][..0] == [];
    assert Visible([ask]) == [ask];
    assert Typing([ask], true);
  }

  /** Only system messages: the transcript is rendered, without a single bubble. */
  lemma SystemOnlyTranscript(messages: seq<Message>, isLoading: bool)
    requires |messages| > 0
    requires forall i :: 0 <= i < |messages| ==> messages[i].role == System
    ensures Render(messages, isLoading) == Transcript([], false)
  {
    OnlySystem(messages);
  }
}

/**
 * The chat panel's send action: the panel's message list, input box and
 * loading flag, updated step by step around one request to the chat route.
 * The server's answer, the signed-in user and the markdown renderer are
 * parameters.
 */
module ChatPanel {
  import opened Wrappers
  import opened Records

  /** A message as the panel lists it. */
  datatype Bubble = Bubble(role: string, content: string)

  /** What the request to the chat route brings back: its messages, or a failure of any kind. */
  datatype Reply = Delivered(messages: seq<Bubble>) | Failed

  const ErrorContent := "<p class=\"text-red-500\">Sorry, there was an error processing your request. Please try again.</p>"

  /** The characters `String.prototype.trim` removes: white space and line terminators. */
  predicate IsJsSpace(c: char) {
    || c == ' ' || c == '\t' || c == '\n' || c == '\U{B}' || c == '\U{C}' || c == '\r'
    || c == '\U{A0}' || c == '\U{1680}' || ('\U{2000}' <= c <= '\U{200A}')
    || c == '\U{2028}' || c == '\U{2029}' || c == '\U{202F}' || c == '\U{205F}' || c == '\U{3000}' || c == '\U{FEFF}'
  }

  /** `!input.trim()`: the input is empty or white space only. */
  predicate IsBlank(s: string) {
    forall i :: 0 <= i < |s| ==> IsJsSpace(s[i])
  }

  /** The server's messages as the panel shows them: an 'ai' message's content rendered, any other kept as sent. */
  function Rendered(messages: seq<Bubble>, parse: string -> string): (r: seq<Bubble>)
    ensures |r| == |messages|
    ensures forall i :: 0 <= i < |r| ==> r[i].role == messages[i].role
    ensures forall i :: 0 <= i < |r| && messages[i].role != "ai" ==> r[i] == messages[i]
    ensures forall i :: 0 <= i < |r| && messages[i].role == "ai" ==> r[i].content == parse(messages[i].content)
  {
    seq(|messages|, i requires 0 <= i < |messages| =>
      if messages[i].role == "ai" then Bubble("ai", parse(messages[i].content)) else messages[i])
  }

  /** What a finished request appends: the rendered server messages, or exactly one 'ai' error message. */
  function Arrivals(reply: Reply, parse: string -> string): (r: seq<Bubble>)
    ensures reply.Failed? ==> r == [Bubble("ai", ErrorContent)]
    ensures reply.Delivered? ==> r == Rendered(reply.messages, parse)
  {
    if reply.Failed? then [Bubble("ai", ErrorContent)] else Rendered(reply.messages, parse)
  }

  /** `user._id` throws without a user, and the catch turns that into the error message. */
  function Outcome(user: Option<PublicUser>, question: string, server: (Id, string) -> Reply): (reply: Reply)
    ensures user.None? ==> reply.Failed?
    ensures user.Some? ==> reply == server(user.value.id, question)
  {
    if user.None? then Failed else server(user.value.id, question)
  }

  class Panel {
    var messages: seq<Bubble>
    var input: string
    var loading: bool

    constructor ()
      ensures messages == [] && input == "" && !loading
    {
      messages, input, loading := [], "", false;
    }

    /** Typing into the box. */
    method Type(text: string)
      modifies this
      ensures input == text && messages == old(messages) && loading == old(loading)
    {
      input := text;
    }

    /**
     * The synchronous part of `handleSend`: refuse a blank input or a send
     * already in flight; otherwise show the user's message at once, clear the
     * box and mark the panel loading. `question` is what will be sent.
     */
    method BeginSend() returns (question: Option<string>)
      modifies this
      ensures old(IsBlank(input)) || old(loading) ==>
        question.None? && messages == old(messages) && input == old(input) && loading == old(loading)
      ensures !old(IsBlank(input)) && !old(loading) ==>
        && question == Some(old(input))
        && messages == old(messages) + [Bubble("user", old(input))]
        && input == "" && loading
    {
      if IsBlank(input) || loading {
        return None;
      }
      question := Some(input);
      messages := messages + [Bubble("user", input)];
      input := "";
      loading := true;
    }

    /** The part of `handleSend` after the request: append what arrived, then clear the loading flag. */
    method FinishSend(reply: Reply, parse: string -> string)
      modifies this
      ensures messages == old(messages) + Arrivals(reply, parse)
      ensures input == old(input) && !loading
    {
      messages := messages + Arrivals(reply, parse);
      loading := false;
    }

    /**
     * `handleSend` from start to finish. A refused send changes nothing.
     * Otherwise the list only grows: the user's message, then what arrived;
     * the box is empty and the panel is no longer loading, whatever the
     * outcome.
     */
    method HandleSend(user: Option<PublicUser>, server: (Id, string) -> Reply, parse: string -> string)
      modifies this
      ensures old(IsBlank(input)) || old(loading) ==>
        messages == old(messages) && input == old(input) && loading == old(loading)
      ensures !old(IsBlank(input)) && !old(loading) ==>
        && messages == old(messages) + [Bubble("user", old(input))] + Arrivals(Outcome(user, old(input), server), parse)
        && input == "" && !loading
      ensures old(messages) <= messages
    {
      var question := BeginSend();
      if question.None? {
        return;
      }
      FinishSend(Outcome(user, question.value, server), parse);
    }
  }

  /**
   * When the route answers with the stored `[userMsg, aiMsg]`, the user's
   * text shows twice: once added at once, once as the server returned it.
   */
  lemma UserTextShownTwice(before: seq<Bubble>, question: string, answer: string, parse: string -> string)
    ensures var after := before + [Bubble("user", question)]
      + Arrivals(Delivered([Bubble("user", question), Bubble("ai", answer)]), parse);
      && |after| == |before| + 3
      && after[|before|] == after[|before| + 1] == Bubble("user", question)
      && after[|before| + 2] == Bubble("ai", parse(answer))
  {
  }
}

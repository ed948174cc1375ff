/**
 * The assistant gateway `ask(prompt, financialSummary)`: picks one of two
 * prompt templates, sends it as the single user message of a completion
 * request, and turns the completion into reply text. The hosted model is a
 * parameter: a function from the request to what the upstream answers.
 */
module AiService {
  import opened Wrappers

  /** The summary text callers pass when a user has no financial data. */
  const NoDataSentinel := "No financial data provided by user"
  const ModelName := "llama3-70b-8192"
  const Fallback := "No response from AI"

  /** The words both templates open with; they part right after them. */
  const Advisor := "You are a professional financial advisor"
  /** The question line both templates share, around the question. */
  const QuestionOpen := "User's question: \""
  const QuestionClose := "\"\n\n"
  /** The blank line between the summary and the question line. */
  const SummaryGap := "\n\n"

  /** The generic template's text before and after its question line. */
  const GenericHead := Advisor + "." + " The user hasn't provided their financial details, so you can only give general advice. \n\n"
  const GenericTail := "Please respond with:\n\"I notice you haven't shared your financial details with me. Without this information, I can only provide general advice. For personalized recommendations, please share your financial information.\n\nHere's some general advice regarding your question: [provide general advice]\"\n"

  /** The personalised template's text before the summary and after its question line. */
  const PersonalHead := Advisor + " " + "with over 20 years of experience.\nYour sole purpose is to provide financial advice and analysis. \n\nVERY IMPORTANT: If the user asks anything not related to finance, respond with:\n\"I'm specifically designed to assist with financial matters only. I can help you with budgeting, investments, retirement planning, tax strategies, and other money-related topics. Please ask me about financial advice.\"\n\nWhen analyzing the user's financial situation, always follow these guidelines:\n- Be precise and factual\n- Provide clear, actionable advice\n- Explain complex financial terms in simple language\n- Consider both short-term and long-term effects\n- Highlight potential risks\n- Always use simple, easy-to-understand English\n\nThe user's financial summary:\n"
  const PersonalTail := "Please provide a detailed response that:\n1. Clearly answers the user's question if it's financial\n2. References specific numbers from their financial data when applicable\n3. Offers 2\U{E2}\U{20AC}\U{201C}3 practical suggestions for financial questions\n4. Explains the reasoning behind your advice\n"

  /** The template used when there is no financial data: it depends on the question only. */
  function GenericPrompt(question: string): string {
    GenericHead + QuestionOpen + question + QuestionClose + GenericTail
  }

  /** The template used with a financial summary. */
  function PersonalPrompt(question: string, summary: string): string {
    PersonalHead + summary + SummaryGap + QuestionOpen + question + QuestionClose + PersonalTail
  }

  /** A prompt as the template chosen and what fills it; `PromptText` is the text sent. */
  datatype Prompt = Generic(question: string) | Personal(question: string, summary: string)

  /** The template choice: the generic one exactly when the summary is the no-data sentinel. */
  function ChoosePrompt(question: string, summary: string): (p: Prompt)
    ensures p.Generic? <==> summary == NoDataSentinel
    ensures p.question == question
    ensures p.Personal? ==> p.summary == summary
  {
    if summary == NoDataSentinel then Generic(question) else Personal(question, summary)
  }

  /** The characters of a prompt: its template with the question (and summary) filled in. */
  function PromptText(p: Prompt): string {
    match p
    case Generic(question) => GenericPrompt(question)
    case Personal(question, summary) => PersonalPrompt(question, summary)
  }

  /** The full prompt text `ask` sends for a question and a summary. */
  function FullPrompt(question: string, summary: string): string {
    PromptText(ChoosePrompt(question, summary))
  }

  /** The two templates never coincide: they part at the character after "advisor". */
  lemma TemplatesDiffer(question: string, question': string, summary: string)
    ensures GenericPrompt(question) != PersonalPrompt(question', summary)
  {
    var n := |Advisor|;
    assert GenericPrompt(question)[n] == GenericHead[n] == '.';
    assert PersonalPrompt(question', summary)[n] == PersonalHead[n] == ' ';
  }

  /** The generic template is chosen if and only if the summary is exactly the sentinel. */
  lemma GenericIffSentinel(question: string, summary: string)
    ensures FullPrompt(question, summary) == GenericPrompt(question) <==> summary == NoDataSentinel
  {
    if summary != NoDataSentinel {
      TemplatesDiffer(question, question, summary);
    }
  }

  /** In `a + x + b`, the text `x` sits at offset `|a|`. */
  lemma Embedded(a: string, x: string, b: string)
    ensures (a + x + b)[|a|..|a| + |x|] == x
  {
    assert (a + x + b)[|a|..|a| + |x|] == x;
  }

  /** In `head + QuestionOpen + q + QuestionClose + tail`, the question stands verbatim between quotes. */
  lemma Quoted(head: string, question: string, tail: string)
    ensures var p, q0 := head + QuestionOpen + question + QuestionClose + tail, |head| + |QuestionOpen|;
      && p[q0 - 1] == '"' && p[q0..q0 + |question|] == question && p[q0 + |question|] == '"'
  {
    var a, b := head + QuestionOpen, QuestionClose + tail;
    var p := head + QuestionOpen + question + QuestionClose + tail;
    assert p == a + question + b;
    Embedded(a, question, b);
    assert QuestionOpen[|QuestionOpen| - 1] == '"';
    assert a[|a| - 1] == QuestionOpen[|QuestionOpen| - 1];
    assert QuestionClose[0] == '"';
    assert b[0] == QuestionClose[0];
  }

  /** The generic prompt holds the question verbatim between quotes. */
  lemma GenericEmbedsQuestion(question: string)
    ensures var p, q0 := GenericPrompt(question), |GenericHead| + |QuestionOpen|;
      && p[q0 - 1] == '"' && p[q0..q0 + |question|] == question && p[q0 + |question|] == '"'
  {
    Quoted(GenericHead, question, GenericTail);
  }

  /** In `h + x + t1 + ... + t5`, the text `x` sits at offset `|h|`, whatever follows it. */
  lemma EmbeddedBefore(h: string, x: string, t1: string, t2: string, t3: string, t4: string, t5: string)
    ensures (h + x + t1 + t2 + t3 + t4 + t5)[|h|..|h| + |x|] == x
  {
    var p := h + x + t1 + t2 + t3 + t4 + t5;
    assert p == (h + x) + (t1 + t2 + t3 + t4 + t5);
    assert forall i :: 0 <= i < |x| ==> p[|h|..|h| + |x|][i] == (h + x)[|h| + i] == x[i];
  }

  /** The personalised prompt holds the summary verbatim, then the question verbatim between quotes. */
  lemma PersonalEmbedsSummaryThenQuestion(question: string, summary: string)
    ensures var p, s0 := PersonalPrompt(question, summary), |PersonalHead|;
      var q0 := s0 + |summary| + |SummaryGap| + |QuestionOpen|;
      && p[s0..s0 + |summary|] == summary
      && p[q0 - 1] == '"' && p[q0..q0 + |question|] == question && p[q0 + |question|] == '"'
  {
    EmbeddedBefore(PersonalHead, summary, SummaryGap, QuestionOpen, question, QuestionClose, PersonalTail);
    Quoted(PersonalHead + summary + SummaryGap, question, PersonalTail);
  }

  datatype ChatMessage = ChatMessage(role: string, content: Prompt)
  datatype CompletionRequest = CompletionRequest(messages: seq<ChatMessage>, model: string)

  datatype ChoiceMessage = ChoiceMessage(content: Option<string>)
  datatype Choice = Choice(message: Option<ChoiceMessage>)
  datatype Completion = Completion(choices: seq<Choice>)

  /** What the hosted model answers: a completion, or an error (transport, auth, rate limit). */
  datatype Upstream = Answered(completion: Completion) | Rejected

  /** The one request `ask` sends. */
  function RequestFor(question: string, summary: string): (req: CompletionRequest)
    ensures |req.messages| == 1 && req.messages[0].role == "user"
    ensures summary == NoDataSentinel ==> req.messages[0].content == Generic(question)
    ensures summary != NoDataSentinel ==> req.messages[0].content == Personal(question, summary)
    ensures req.model == ModelName
  {
    CompletionRequest([ChatMessage("user", ChoosePrompt(question, summary))], ModelName)
  }

  /** `choices[0]?.message?.content`. */
  function FirstContent(c: Completion): Option<string> {
    if |c.choices| > 0 && c.choices[0].message.Some? then c.choices[0].message.value.content else None
  }

  /** `choices[0]?.message?.content || 'No response from AI'`: never empty. */
  function ReplyText(c: Completion): (r: string)
    ensures r != ""
    ensures FirstContent(c).Some? && FirstContent(c).value != "" ==> r == FirstContent(c).value
    ensures FirstContent(c).None? || FirstContent(c).value == "" ==> r == Fallback
  {
    var content := FirstContent(c);
    if content.Some? && content.value != "" then content.value else Fallback
  }

  /** A completion without choices gets the fallback reply. */
  lemma NoChoicesFallback(c: Completion)
    requires c.choices == []
    ensures ReplyText(c) == Fallback
  {
  }

  /**
   * `ask`: the reply text, or None when the upstream call fails (the error
   * propagates to the caller).
   */
  function Ask(question: string, summary: string, upstream: CompletionRequest -> Upstream): (r: Option<string>)
    ensures r.Some? <==> upstream(RequestFor(question, summary)).Answered?
    ensures r.Some? ==> r.value != ""
    ensures r.Some? ==> r.value == ReplyText(upstream(RequestFor(question, summary)).completion)
  {
    match upstream(RequestFor(question, summary))
    case Answered(c) => Some(ReplyText(c))
    case Rejected => None
  }
}

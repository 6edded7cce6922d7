/** The request `handle_chatgpt_message` sends to the chat-completion
    endpoint and the reply it makes of the answer. */
module Completion {
  import opened Wrappers
  import opened Text
  import opened Messages

  const MODEL: string := "gpt-3.5-turbo"
  const SYSTEM_PROMPT: string :=
    "You are a helpful assistant. Respond in Russian in a friendly and conversational manner."
  const MAX_TOKENS: nat := 1000
  const TEMPERATURE: real := 0.7

  datatype ChatMessage = ChatMessage(role: string, content: string)

  datatype CompletionRequest =
    CompletionRequest(model: string, messages: seq<ChatMessage>, maxTokens: nat, temperature: real)

  /** The request for one user text: the fixed model, system prompt, length
      bound and temperature, and the text itself as the only user turn. */
  function BuildRequest(text: string): (req: CompletionRequest)
    ensures req.model == MODEL && req.maxTokens == MAX_TOKENS && req.temperature == TEMPERATURE
    ensures forall m :: m in req.messages && m.role == "user" ==> m.content == text
    ensures |req.messages| == 2 && req.messages[0].role == "system" && req.messages[1].role == "user"
  {
    CompletionRequest(MODEL, [ChatMessage("system", SYSTEM_PROMPT), ChatMessage("user", text)],
                      MAX_TOKENS, TEMPERATURE)
  }

  /** No history: the request is a function of the current text alone, it
      carries that text verbatim as its one user turn, and two different
      texts give two different requests. */
  lemma RequestCarriesTextVerbatim(text: string, other: string)
    ensures |BuildRequest(text).messages| == 2
    ensures BuildRequest(text).messages[0] == ChatMessage("system", SYSTEM_PROMPT)
    ensures BuildRequest(text).messages[1] == ChatMessage("user", text)
    ensures BuildRequest(text) == BuildRequest(other) <==> text == other
  {
  }

  /** What the call gives back: it raised (network, authentication, quota,
      a malformed answer), or it returned a first choice whose content may
      be null, in which case `.strip()` raises as well. */
  datatype CompletionResult =
    | Raised
    | Returned(content: Option<string>)

  /** The reply: the stripped content, or the `chatgpt_error` text whenever
      anything in the call raised. */
  function CompletionReply(res: CompletionResult): (r: Reply)
    ensures r == Keyed(ChatGptError) <==> !(res.Returned? && res.content.Some?)
    ensures r != Keyed(ChatGptError) ==> r == Plain(Strip(res.content.value))
  {
    match res
    case Returned(Some(content)) => Plain(Strip(content))
    case _ => Keyed(ChatGptError)
  }

  /** A successful answer reaches the user without surrounding whitespace,
      and as a contiguous slice of what the provider sent. */
  lemma AnswerIsTrimmedSlice(content: string) returns (i: nat)
    ensures CompletionReply(Returned(Some(content))).Plain?
    ensures var t := CompletionReply(Returned(Some(content))).text;
      && i + |t| <= |content| && t == content[i..i + |t|]
      && (t == [] || (!IsSpace(t[0]) && !IsSpace(t[|t| - 1])))
  {
    i := StripSlice(content);
  }
}

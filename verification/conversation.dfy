/**
  The chat-completions conversation an OpenAI parser or reviewer keeps in
  `self.messages`, and the settings every parser starts from.
 */
module Conversation {
  import opened Wrappers

  /** `max_retry` default of the parser base class: three retries and the first attempt. */
  const DefaultMaxRetry: nat := 4

  /** `buffer` default of the parser base class: tokens held back for the answer. */
  const DefaultBuffer: nat := 2048

  /** A piece of a multi-part user message; images stand for their encoded uploads, by position. */
  datatype Part = TextPart(text: string) | ImagePart(image: nat)

  /** A message body: plain text, or a list of parts. */
  datatype Content = Text(text: string) | Parts(parts: seq<Part>)

  /** One `{"role": ..., "content": ...}` entry. */
  datatype Message = Message(role: string, content: Content)

  /** The roles `append_message` accepts. */
  const Roles: set<string> := {"user", "system", "assistant"}

  /** The `ValueError` text for any other role. */
  const RoleErrorMessage := "Role must be one of 'user', 'system', or 'assistant'"

  /** `append_message`: one entry added at the end for a known role; a `ValueError`
      and an unchanged list for any other. */
  function AppendMessage(messages: seq<Message>, role: string, content: Content): (r: Result<seq<Message>, string>)
    ensures r.Success? <==> role in Roles
    ensures r.Success? ==> |r.value| == |messages| + 1 && r.value[..|messages|] == messages
    ensures r.Success? ==> r.value[|messages|] == Message(role, content)
    ensures r.Failure? ==> r.error == RoleErrorMessage
  {
    if role !in Roles then Failure(RoleErrorMessage)
    else Success(messages + [Message(role, content)])
  }

  /** An append with one of the fixed roles the parsers use. */
  function Append(messages: seq<Message>, role: string, content: Content): (r: seq<Message>)
    requires role in Roles
    ensures r == messages + [Message(role, content)]
  {
    AppendMessage(messages, role, content).value
  }

  /** The vision models `get_token_limit` knows, with their context sizes. */
  const TokenLimits: map<string, nat> := map["gpt-4o-mini" := 128000, "gpt-4o" := 128000, "gpt-4-turbo" := 128000]

  /** `get_token_limit`: 128000 for the three vision models; a `KeyError` (None) for any other. */
  function TokenLimit(model: string): (r: Option<nat>)
    ensures r.Some? <==> model == "gpt-4o-mini" || model == "gpt-4o" || model == "gpt-4-turbo"
    ensures r.Some? ==> r.value == 128000
  {
    if model in TokenLimits then Some(TokenLimits[model]) else None
  }
}

/**
  `OpenAIReceiptParser.parse`, `OpenAIReceiptReview.review` and
  `OpenAIReceiptReview.chat_with_prompt` (`gpt4o.py`) as retry loops over the
  conversation in `self.messages`. The API's answers, token counting and
  JSON decoding come from `World`.
 */
module OpenAi {
  import opened Wrappers
  import opened Receipts
  import opened Retry
  import opened Conversation
  import opened Replies

  /** What the API does with one request. */
  datatype Response =
    | AuthenticationFailed                          // becomes `APIKeyError`
    | RequestFailed(kind: string)                   // any other client exception
    | Completion(content: string, totalTokens: nat) // the first choice's text and `usage.total_tokens`

  /** Everything outside the instance: the answer to attempt `k` given the conversation
      sent, JSON decoding of answers, `get_token_count`, `str()` of a `ReceiptError`,
      and the date and price parsers the receipt checks use. */
  datatype World = World(
    answer: (nat, seq<Message>) -> Response,
    readReceipt: string -> ReceiptReply,
    readReview: string -> ReviewReply,
    countTokens: string -> nat,
    errorText: (string, string) -> string,
    parsers: Parsers)

  /** Instance settings: model name, `max_retry`, `buffer`, and the fixed prompt texts. */
  datatype Settings = Settings(
    model: string,
    maxRetry: nat,
    buffer: nat,
    systemInstruction: string,
    initialPrompt: string,
    errorResponse: string)

  /** The model both classes use unless told otherwise. */
  const DefaultModel := "gpt-4o-mini"

  /** `get_token_limit(self.model_name)` as the retry check evaluates it. */
  function LimitOf(model: string): (r: Result<nat, Exc>)
    ensures r.Success? <==> TokenLimit(model).Some?
    ensures r.Success? ==> r.value == 128000
    ensures r.Failure? ==> r.error == Other("KeyError")
  {
    match TokenLimit(model)
    case Some(l) => Success(l)
    case None => Failure(Other("KeyError"))
  }

  /** The uploaded images, one part each, in order. */
  function ImageParts(images: nat): (ps: seq<Part>)
    ensures |ps| == images && forall i :: 0 <= i < images ==> ps[i] == ImagePart(i)
  {
    seq(images, i requires 0 <= i < images => ImagePart(i))
  }

  /** The conversation before the first parsing request: the system instruction, then
      the initial prompt with the images. */
  function ParseOpening(s: Settings, prior: seq<Message>, images: nat): seq<Message> {
    Append(Append(prior, "system", Text(s.systemInstruction)), "user", Parts([TextPart(s.initialPrompt)] + ImageParts(images)))
  }

  /** The parsing verdict on an answer's text; a decoding error is not caught and leaves `parse`. */
  function ParseVerdict(w: World, content: string): (v: Verdict)
    ensures w.readReceipt(content).ReceiptNotJson? ==> v == Fatal(Other("JSONDecodeError"))
  {
    Judge(w.readReceipt(content), w.parsers, w.errorText, false)
  }

  /** One pass of the `parse` loop body. */
  function ParseStep(s: Settings, w: World, k: nat, msgs: seq<Message>): (st: Step<seq<Message>, Outcome<Receipt>>)
    ensures st == Stop(Raised(ApiKeyError)) <==> w.answer(k, msgs) == AuthenticationFailed
    ensures (st.Stop? && st.outcome.Returned? && st.outcome.value.Some?) <==>
              w.answer(k, msgs).Completion? && ParseVerdict(w, w.answer(k, msgs).content).Parsed?
    ensures st.Stop? && st.outcome.Returned? && st.outcome.value.Some? ==>
              st.outcome.value.value == ParseVerdict(w, w.answer(k, msgs).content).receipt
    ensures w.answer(k, msgs).Completion? && ParseVerdict(w, w.answer(k, msgs).content).NotAReceipt? ==>
              st == Stop(Returned(None))
    ensures st.Again? <==>
              && w.answer(k, msgs).Completion?
              && ParseVerdict(w, w.answer(k, msgs).content).Retryable?
              && k + 1 != s.maxRetry
              && TokenLimit(s.model).Some?
              && w.answer(k, msgs).totalTokens + w.countTokens(ParseVerdict(w, w.answer(k, msgs).content).error) + s.buffer
                 <= TokenLimit(s.model).value
    ensures st.Again? ==>
              st.next == msgs + [Message("assistant", Text(w.answer(k, msgs).content)),
                                 Message("user", Text(ParseVerdict(w, w.answer(k, msgs).content).error))]
    ensures w.answer(k, msgs).RequestFailed? ==> st == Stop(Raised(Other(w.answer(k, msgs).kind)))
    ensures w.answer(k, msgs).Completion? && ParseVerdict(w, w.answer(k, msgs).content).Fatal? ==>
              st == Stop(Raised(ParseVerdict(w, w.answer(k, msgs).content).exc))
    ensures var a := w.answer(k, msgs);
            a.Completion? && ParseVerdict(w, a.content).Retryable? ==>
              (st == Stop(Returned(None)) <==>
                 k + 1 == s.maxRetry
                 || (TokenLimit(s.model).Some?
                     && a.totalTokens + w.countTokens(ParseVerdict(w, a.content).error) + s.buffer > TokenLimit(s.model).value))
    ensures (w.answer(k, msgs).Completion? && ParseVerdict(w, w.answer(k, msgs).content).Retryable?
               && k + 1 != s.maxRetry && TokenLimit(s.model).None?) ==>
              st == Stop(Raised(Other("KeyError")))
  {
    match w.answer(k, msgs)
    case AuthenticationFailed => Stop(Raised(ApiKeyError))
    case RequestFailed(kind) => Stop(Raised(Other(kind)))
    case Completion(content, used) =>
      var withAnswer := Append(msgs, "assistant", Text(content));
      match ParseVerdict(w, content)
      case NotAReceipt => Stop(Returned(None))
      case Parsed(r) => Stop(Returned(Some(r)))
      case Fatal(e) => Stop(Raised(e))
      case Retryable(e) =>
        Budgeted(k, s.maxRetry, LimitOf(s.model), used, w.countTokens(e), s.buffer, Append(withAnswer, "user", Text(e)))
  }

  function ParseSteps(s: Settings, w: World): (nat, seq<Message>) -> Step<seq<Message>, Outcome<Receipt>> {
    (k: nat, msgs: seq<Message>) => ParseStep(s, w, k, msgs)
  }

  /** `OpenAIReceiptParser.parse` on `images` uploaded images, with `prior` in `self.messages`. */
  function Parse(s: Settings, w: World, prior: seq<Message>, images: nat): (r: Run<seq<Message>, Outcome<Receipt>>)
    ensures |r.states| <= s.maxRetry
    ensures Explains(ParseSteps(s, w), s.maxRetry, 0, ParseOpening(s, prior, images), Returned(None), r)
  {
    Loop(ParseSteps(s, w), s.maxRetry, ParseOpening(s, prior, images), Returned(None))
  }

  /** The conversation `parse` sends: the opening first, then for every retried attempt
      the answer as an assistant message followed by the error text as a user message. */
  lemma {:induction false} ParseConversation(s: Settings, w: World, prior: seq<Message>, images: nat)
    ensures var r := Parse(s, w, prior, images);
            var o := ParseOpening(s, prior, images);
            && |o| == |prior| + 2 && o[..|prior|] == prior
            && o[|prior|].role == "system" && o[|prior| + 1].role == "user"
            && (forall j :: 0 <= j < |r.states| ==> |r.states[j]| == |o| + 2 * j && r.states[j][..|o|] == o)
            && (forall j :: 0 <= j < |r.states| - 1 ==>
                  && w.answer(j, r.states[j]).Completion?
                  && ParseVerdict(w, w.answer(j, r.states[j]).content).Retryable?
                  && r.states[j + 1] == r.states[j] + [Message("assistant", Text(w.answer(j, r.states[j]).content)),
                                                       Message("user", Text(ParseVerdict(w, w.answer(j, r.states[j]).content).error))])
  {
    var r := Parse(s, w, prior, images);
    var o := ParseOpening(s, prior, images);
    var step := ParseSteps(s, w);
    forall j | 0 <= j < |r.states| - 1
      ensures && w.answer(j, r.states[j]).Completion?
              && ParseVerdict(w, w.answer(j, r.states[j]).content).Retryable?
              && r.states[j + 1] == r.states[j] + [Message("assistant", Text(w.answer(j, r.states[j]).content)),
                                                   Message("user", Text(ParseVerdict(w, w.answer(j, r.states[j]).content).error))]
    {
      assert step(0 + j, r.states[j]) == Again(r.states[j + 1]);
    }
    forall j | 0 <= j < |r.states|
      ensures |r.states[j]| == |o| + 2 * j && r.states[j][..|o|] == o
    {
      ChainLength(r.states, 2, 0, j);
      ChainStartsWith(r.states, 2, 0, j);
    }
  }

  /** Attempt `j` of a `parse` run went through `ParseStep`. */
  lemma ParseRunSteps(s: Settings, w: World, prior: seq<Message>, images: nat)
    ensures var r := Parse(s, w, prior, images);
            forall j :: 0 <= j < |r.states| ==> ParseSteps(s, w)(0 + j, r.states[j]) == ParseStep(s, w, j, r.states[j])
  {
  }

  /** A receipt returned by `parse` is the verdict on the last answer. */
  lemma ParseReturnsLastVerdict(s: Settings, w: World, prior: seq<Message>, images: nat)
    ensures var r := Parse(s, w, prior, images);
            r.outcome.Returned? && r.outcome.value.Some? ==>
              && |r.states| > 0
              && w.answer(|r.states| - 1, r.states[|r.states| - 1]).Completion?
              && ParseVerdict(w, w.answer(|r.states| - 1, r.states[|r.states| - 1]).content) == Parsed(r.outcome.value.value)
  {
    ParseRunSteps(s, w, prior, images);
  }

  /** `parse` raises `APIKeyError` exactly when its last request was refused for authentication. */
  lemma ParseApiKeyError(s: Settings, w: World, prior: seq<Message>, images: nat)
    ensures var r := Parse(s, w, prior, images);
            r.outcome == Raised(ApiKeyError) <==>
              |r.states| > 0 && w.answer(|r.states| - 1, r.states[|r.states| - 1]) == AuthenticationFailed
  {
    ParseRunSteps(s, w, prior, images);
  }

  /** An answer naming the `Invalid` category ends `parse` at once with None. */
  lemma ParseStopsOnInvalid(s: Settings, w: World, prior: seq<Message>, images: nat)
    ensures var r := Parse(s, w, prior, images);
            forall j :: 0 <= j < |r.states| && w.answer(j, r.states[j]).Completion?
                        && ParseVerdict(w, w.answer(j, r.states[j]).content).NotAReceipt?
                        ==> j == |r.states| - 1 && r.outcome == Returned(None)
  {
    var r := Parse(s, w, prior, images);
    forall j | 0 <= j < |r.states| && w.answer(j, r.states[j]).Completion?
               && ParseVerdict(w, w.answer(j, r.states[j]).content).NotAReceipt?
      ensures j == |r.states| - 1 && r.outcome == Returned(None)
    {
      InvalidStopsAt(s, w, ParseOpening(s, prior, images), r, j);
    }
  }

  /** One attempt of `ParseStopsOnInvalid`: a run explained by `ParseStep` stops with None at
      an attempt whose answer names the `Invalid` category. */
  lemma InvalidStopsAt(s: Settings, w: World, start: seq<Message>, r: Run<seq<Message>, Outcome<Receipt>>, j: nat)
    requires Explains(ParseSteps(s, w), s.maxRetry, 0, start, Returned(None), r)
    requires j < |r.states| && w.answer(j, r.states[j]).Completion?
    requires ParseVerdict(w, w.answer(j, r.states[j]).content).NotAReceipt?
    ensures j == |r.states| - 1 && r.outcome == Returned(None)
  {
    var st := ParseStep(s, w, j, r.states[j]);
    assert ParseSteps(s, w)(0 + j, r.states[j]) == st == Stop(Returned(None));
    StopsWith(ParseSteps(s, w), s.maxRetry, 0, start, Returned(None), r, j, Returned(None));
  }

  /** The conversation before the first review request. */
  function ReviewOpening(s: Settings, prior: seq<Message>, receiptText: string, query: string): seq<Message> {
    Append(Append(prior, "system", Text(s.systemInstruction)), "user",
           Parts([TextPart(s.initialPrompt), TextPart(receiptText), TextPart(query)]))
  }

  /** One pass of the `review` loop body. */
  function ReviewStep(s: Settings, w: World, k: nat, msgs: seq<Message>): (st: Step<seq<Message>, Outcome<string>>)
    ensures st == Stop(Raised(ApiKeyError)) <==> w.answer(k, msgs) == AuthenticationFailed
    ensures (st.Stop? && st.outcome.Returned? && st.outcome.value.Some?) <==>
              w.answer(k, msgs).Completion? && JudgeReview(w.readReview(w.answer(k, msgs).content)).Insights?
    ensures st.Stop? && st.outcome.Returned? && st.outcome.value.Some? ==>
              st.outcome.value.value == JudgeReview(w.readReview(w.answer(k, msgs).content)).text
    ensures st.Again? <==>
              && w.answer(k, msgs).Completion?
              && JudgeReview(w.readReview(w.answer(k, msgs).content)).Unable?
              && k + 1 != s.maxRetry
              && TokenLimit(s.model).Some?
              && w.answer(k, msgs).totalTokens + w.countTokens(s.errorResponse) + s.buffer <= TokenLimit(s.model).value
    ensures st.Again? ==>
              st.next == msgs + [Message("assistant", Text(w.answer(k, msgs).content)), Message("user", Text(s.errorResponse))]
    ensures w.answer(k, msgs).RequestFailed? ==> st == Stop(Raised(Other(w.answer(k, msgs).kind)))
    ensures w.answer(k, msgs).Completion? && JudgeReview(w.readReview(w.answer(k, msgs).content)).ReviewFatal? ==>
              st == Stop(Raised(JudgeReview(w.readReview(w.answer(k, msgs).content)).exc))
    ensures var a := w.answer(k, msgs);
            a.Completion? && JudgeReview(w.readReview(a.content)).Unable? ==>
              (st == Stop(Returned(None)) <==>
                 k + 1 == s.maxRetry
                 || (TokenLimit(s.model).Some?
                     && a.totalTokens + w.countTokens(s.errorResponse) + s.buffer > TokenLimit(s.model).value))
    ensures (w.answer(k, msgs).Completion? && JudgeReview(w.readReview(w.answer(k, msgs).content)).Unable?
               && k + 1 != s.maxRetry && TokenLimit(s.model).None?) ==>
              st == Stop(Raised(Other("KeyError")))
  {
    match w.answer(k, msgs)
    case AuthenticationFailed => Stop(Raised(ApiKeyError))
    case RequestFailed(kind) => Stop(Raised(Other(kind)))
    case Completion(content, used) =>
      var withAnswer := Append(msgs, "assistant", Text(content));
      match JudgeReview(w.readReview(content))
      case Insights(t) => Stop(Returned(Some(t)))
      case ReviewFatal(e) => Stop(Raised(e))
      case Unable =>
        Budgeted(k, s.maxRetry, LimitOf(s.model), used, w.countTokens(s.errorResponse), s.buffer,
                 Append(withAnswer, "user", Text(s.errorResponse)))
  }

  function ReviewSteps(s: Settings, w: World): (nat, seq<Message>) -> Step<seq<Message>, Outcome<string>> {
    (k: nat, msgs: seq<Message>) => ReviewStep(s, w, k, msgs)
  }

  /** `OpenAIReceiptReview.review(receipt_str, query)`. */
  function Review(s: Settings, w: World, prior: seq<Message>, receiptText: string, query: string)
    : (r: Run<seq<Message>, Outcome<string>>)
    ensures |r.states| <= s.maxRetry
    ensures Explains(ReviewSteps(s, w), s.maxRetry, 0, ReviewOpening(s, prior, receiptText, query), Returned(None), r)
  {
    Loop(ReviewSteps(s, w), s.maxRetry, ReviewOpening(s, prior, receiptText, query), Returned(None))
  }

  /** How `review` ends: insights come from the last answer, which had status true; every
      earlier answer had status false and was followed by the error response. */
  lemma ReviewOutcome(s: Settings, w: World, prior: seq<Message>, receiptText: string, query: string)
    ensures var r := Review(s, w, prior, receiptText, query);
            var last := if |r.states| > 0 then w.answer(|r.states| - 1, r.states[|r.states| - 1]) else RequestFailed("");
            && (r.outcome.Returned? && r.outcome.value.Some? ==>
                  last.Completion? && JudgeReview(w.readReview(last.content)) == Insights(r.outcome.value.value))
            && (r.outcome == Raised(ApiKeyError) <==> |r.states| > 0 && last == AuthenticationFailed)
            && (forall j :: 0 <= j < |r.states| - 1 ==>
                  && w.answer(j, r.states[j]).Completion?
                  && JudgeReview(w.readReview(w.answer(j, r.states[j]).content)).Unable?
                  && r.states[j + 1][|r.states[j]| + 1] == Message("user", Text(s.errorResponse)))
  {
    var r := Review(s, w, prior, receiptText, query);
    var step := ReviewSteps(s, w);
    StopIsLast(step, s.maxRetry, 0, ReviewOpening(s, prior, receiptText, query), Returned(None), r);
    forall j | 0 <= j < |r.states|
      ensures step(0 + j, r.states[j]) == ReviewStep(s, w, j, r.states[j])
    {
    }
    forall j | 0 <= j < |r.states| - 1
      ensures && w.answer(j, r.states[j]).Completion?
              && JudgeReview(w.readReview(w.answer(j, r.states[j]).content)).Unable?
              && r.states[j + 1][|r.states[j]| + 1] == Message("user", Text(s.errorResponse))
    {
      assert step(0 + j, r.states[j]) == Again(r.states[j + 1]);
    }
  }

  /** One pass of the `chat_with_prompt` loop body; the conversation is always the prompt alone. */
  function ChatStep(s: Settings, w: World, k: nat, msgs: seq<Message>): (st: Step<seq<Message>, Outcome<string>>)
    ensures st == Stop(Raised(ApiKeyError)) <==> w.answer(k, msgs) == AuthenticationFailed
    ensures st.Stop? && st.outcome.Returned? && st.outcome.value.Some? <==> w.answer(k, msgs).Completion?
    ensures st.Stop? && st.outcome.Returned? && st.outcome.value.Some? ==> st.outcome.value.value == w.answer(k, msgs).content
    ensures st.Again? <==> w.answer(k, msgs).RequestFailed? && k + 1 != s.maxRetry
    ensures st.Again? ==> st.next == msgs
    ensures st == Stop(Returned(None)) <==> w.answer(k, msgs).RequestFailed? && k + 1 == s.maxRetry
  {
    match w.answer(k, msgs)
    case AuthenticationFailed => Stop(Raised(ApiKeyError))
    case RequestFailed(_) => if k + 1 == s.maxRetry then Stop(Returned(None)) else Again(msgs)
    case Completion(content, _) => Stop(Returned(Some(content)))
  }

  function ChatSteps(s: Settings, w: World): (nat, seq<Message>) -> Step<seq<Message>, Outcome<string>> {
    (k: nat, msgs: seq<Message>) => ChatStep(s, w, k, msgs)
  }

  /** `OpenAIReceiptReview.chat_with_prompt(prompt)`. */
  function Chat(s: Settings, w: World, prompt: string): (r: Run<seq<Message>, Outcome<string>>)
    ensures |r.states| <= s.maxRetry
    ensures Explains(ChatSteps(s, w), s.maxRetry, 0, [Message("user", Text(prompt))], Returned(None), r)
  {
    Loop(ChatSteps(s, w), s.maxRetry, [Message("user", Text(prompt))], Returned(None))
  }

  /** How `chat_with_prompt` ends: every request sends the prompt alone; the content of the
      first completion is returned; authentication failure raises `APIKeyError` at once; other
      failures are retried, and None comes back only after `max_retry` failed requests. */
  lemma ChatOutcome(s: Settings, w: World, prompt: string)
    ensures var r := Chat(s, w, prompt);
            var c := [Message("user", Text(prompt))];
            && (forall j :: 0 <= j < |r.states| ==> r.states[j] == c)
            && (forall j :: 0 <= j < |r.states| - 1 ==> w.answer(j, c).RequestFailed?)
            && (r.outcome.Returned? && r.outcome.value.Some? <==>
                  |r.states| > 0 && w.answer(|r.states| - 1, c).Completion?)
            && (r.outcome.Returned? && r.outcome.value.Some? ==> r.outcome.value.value == w.answer(|r.states| - 1, c).content)
            && (r.outcome == Raised(ApiKeyError) <==> |r.states| > 0 && w.answer(|r.states| - 1, c) == AuthenticationFailed)
            && (r.outcome == Returned(None) ==> |r.states| == s.maxRetry)
  {
    var r := Chat(s, w, prompt);
    var c := [Message("user", Text(prompt))];
    var step := ChatSteps(s, w);
    forall j | 0 <= j < |r.states|
      ensures r.states[j] == c
    {
      ChatStaysOnPrompt(s, w, prompt, r, j);
    }
    forall j | 0 <= j < |r.states|
      ensures step(0 + j, r.states[j]) == ChatStep(s, w, j, c)
    {
    }
    forall j | 0 <= j < |r.states| - 1
      ensures w.answer(j, c).RequestFailed?
    {
      assert step(0 + j, r.states[j]) == Again(r.states[j + 1]);
    }
    if |r.states| > 0 {
      var last := ChatStep(s, w, |r.states| - 1, c);
      assert step(0 + (|r.states| - 1), r.states[|r.states| - 1]) == last;
    }
  }

  lemma {:induction false} ChatStaysOnPrompt(s: Settings, w: World, prompt: string, r: Run<seq<Message>, Outcome<string>>, j: nat)
    requires r == Chat(s, w, prompt) && j < |r.states|
    ensures r.states[j] == [Message("user", Text(prompt))]
  {
    if j > 0 {
      ChatStaysOnPrompt(s, w, prompt, r, j - 1);
      assert ChatSteps(s, w)(0 + (j - 1), r.states[j - 1]) == Again(r.states[j]);
      assert ChatStep(s, w, j - 1, r.states[j - 1]) == Again(r.states[j]);
    } else {
      assert s.maxRetry > 0;
    }
  }
}

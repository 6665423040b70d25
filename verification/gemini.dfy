/**
  `GeminiReceiptParser` and `GeminiReceiptReview` (`gemini.py`): the model lookup in
  the constructors and the `parse`, `review` and `chat_with_prompt` retry loops.
  A Gemini chat session keeps its own history; the loops keep a list `messages` and
  send its last entry on every attempt.
 */
module Gemini {
  import opened Wrappers
  import opened Text
  import opened Receipts
  import opened Retry
  import opened Conversation
  import opened Replies

  /** What `genai.get_model(model_name)` does. */
  datatype ModelLookup =
    | Found(inputTokenLimit: nat)
    | InvalidArgument(code: int, text: string)  // the exception's code and `str()`
    | LookupFailed(kind: string)                 // any other exception

  /** The text that marks a rejected key. */
  const KeyNotValid := "API key not valid"

  /** The constructors' `model_info`: set when the lookup succeeds; left unset (None) when an
      `InvalidArgument` other than a rejected key is swallowed; `APIKeyError` for a rejected
      key; any other exception passes through. */
  function ModelInfo(lookup: ModelLookup): (r: Result<Option<nat>, Exc>)
    ensures r == Failure(ApiKeyError) <==>
              lookup.InvalidArgument? && lookup.code == 400 && Contains(lookup.text, KeyNotValid)
    ensures r.Success? && r.value.Some? <==> lookup.Found?
    ensures r.Success? && r.value.Some? ==> r.value.value == lookup.inputTokenLimit
    ensures r.Success? && r.value.None? <==>
              lookup.InvalidArgument? && !(lookup.code == 400 && Contains(lookup.text, KeyNotValid))
    ensures lookup.LookupFailed? ==> r == Failure(Other(lookup.kind))
  {
    match lookup
    case Found(l) => Success(Some(l))
    case InvalidArgument(code, text) =>
      if code == 400 && Contains(text, KeyNotValid) then Failure(ApiKeyError) else Success(None)
    case LookupFailed(kind) => Failure(Other(kind))
  }

  /** `self.model_info.input_token_limit`: an `AttributeError` when `model_info` was never set. */
  function LimitOf(info: Option<nat>): (r: Result<nat, Exc>)
    ensures r.Success? <==> info.Some?
    ensures r.Success? ==> r.value == info.value
    ensures r.Failure? ==> r.error == Other("AttributeError")
  {
    match info
    case Some(l) => Success(l)
    case None => Failure(Other("AttributeError"))
  }

  /** What `chat_instance.send_message` gives. */
  datatype Reply =
    | SendFailed(kind: string)                        // any exception from the SDK
    | Answered(text: string, totalTokens: nat)        // `response.text` and `usage_metadata.total_token_count`

  /** Everything outside the instance: the reply to attempt `k` given the `messages` list
      (its last entry is what is sent), JSON decoding, `count_tokens`, `str()` of a
      `ReceiptError`, and the receipt parsers. */
  datatype World = World(
    send: (nat, seq<Content>) -> Reply,
    readReceipt: string -> ReceiptReply,
    readReview: string -> ReviewReply,
    countTokens: string -> nat,
    errorText: (string, string) -> string,
    parsers: Parsers)

  /** Instance settings: `max_retry`, `buffer`, and the fixed prompt texts. */
  datatype Settings = Settings(maxRetry: nat, buffer: nat, initialPrompt: string, errorResponse: string)

  /** The feedback sent after a failed parsing attempt. */
  function Feedback(error: string): string {
    "Parsing failed with error: " + error + ". Please check the JSON format and try again."
  }

  /** The parsing verdict on a reply's text; decoding errors are caught and retried. */
  function ParseVerdict(w: World, text: string): (v: Verdict)
    ensures w.readReceipt(text).ReceiptNotJson? ==> v == Retryable(w.readReceipt(text).error)
  {
    Judge(w.readReceipt(text), w.parsers, w.errorText, true)
  }

  /** One pass of the `parse` loop body, with `model_info` as the constructor left it. */
  function ParseStep(s: Settings, w: World, info: Option<nat>, k: nat, msgs: seq<Content>)
    : (st: Step<seq<Content>, Outcome<Receipt>>)
    ensures st.Stop? && st.outcome.Raised? ==> st.outcome.exc.Other?
    ensures (st.Stop? && st.outcome.Returned? && st.outcome.value.Some?) <==>
              w.send(k, msgs).Answered? && ParseVerdict(w, w.send(k, msgs).text).Parsed?
    ensures st.Stop? && st.outcome.Returned? && st.outcome.value.Some? ==>
              st.outcome.value.value == ParseVerdict(w, w.send(k, msgs).text).receipt
    ensures w.send(k, msgs).Answered? && ParseVerdict(w, w.send(k, msgs).text).NotAReceipt? ==>
              st == Stop(Returned(None))
    ensures st.Again? <==>
              && w.send(k, msgs).Answered?
              && ParseVerdict(w, w.send(k, msgs).text).Retryable?
              && k + 1 != s.maxRetry
              && info.Some?
              && w.send(k, msgs).totalTokens + w.countTokens(ParseVerdict(w, w.send(k, msgs).text).error) + s.buffer
                 <= info.value
    ensures st.Again? ==>
              st.next == msgs + [Parts([TextPart(Feedback(ParseVerdict(w, w.send(k, msgs).text).error))])]
    ensures w.send(k, msgs).SendFailed? ==> st == Stop(Raised(Other(w.send(k, msgs).kind)))
    ensures w.send(k, msgs).Answered? && ParseVerdict(w, w.send(k, msgs).text).Fatal? ==>
              st == Stop(Raised(ParseVerdict(w, w.send(k, msgs).text).exc))
    ensures var a := w.send(k, msgs);
            a.Answered? && ParseVerdict(w, a.text).Retryable? ==>
              (st == Stop(Returned(None)) <==>
                 k + 1 == s.maxRetry
                 || (info.Some? && a.totalTokens + w.countTokens(ParseVerdict(w, a.text).error) + s.buffer > info.value))
    ensures (w.send(k, msgs).Answered? && ParseVerdict(w, w.send(k, msgs).text).Retryable?
               && k + 1 != s.maxRetry && info.None?) ==>
              st == Stop(Raised(Other("AttributeError")))
  {
    match w.send(k, msgs)
    case SendFailed(kind) => Stop(Raised(Other(kind)))
    case Answered(text, used) =>
      match ParseVerdict(w, text)
      case NotAReceipt => Stop(Returned(None))
      case Parsed(r) => Stop(Returned(Some(r)))
      case Fatal(e) => Stop(Raised(e))
      case Retryable(e) =>
        Budgeted(k, s.maxRetry, LimitOf(info), used, w.countTokens(e), s.buffer, msgs + [Parts([TextPart(Feedback(e))])])
  }

  function ParseSteps(s: Settings, w: World, info: Option<nat>): (nat, seq<Content>) -> Step<seq<Content>, Outcome<Receipt>> {
    (k: nat, msgs: seq<Content>) => ParseStep(s, w, info, k, msgs)
  }

  /** The first message: the initial prompt followed by the images. */
  function ParseOpening(s: Settings, images: nat): Content {
    Parts([TextPart(s.initialPrompt)] + seq(images, i requires 0 <= i < images => ImagePart(i)))
  }

  /** The `parse` loop, once the constructor has set (or failed to set) `model_info`. */
  function ParseLoop(s: Settings, w: World, info: Option<nat>, images: nat): (r: Run<seq<Content>, Outcome<Receipt>>)
    ensures |r.states| <= s.maxRetry
    ensures Explains(ParseSteps(s, w, info), s.maxRetry, 0, [ParseOpening(s, images)], Returned(None), r)
  {
    Loop(ParseSteps(s, w, info), s.maxRetry, [ParseOpening(s, images)], Returned(None))
  }

  /** `GeminiReceiptParser(api_key).parse(receipt_obj_list)`: the constructor's lookup, then the loop. */
  function Parse(s: Settings, w: World, lookup: ModelLookup, images: nat): (r: Run<seq<Content>, Outcome<Receipt>>)
    ensures ModelInfo(lookup).Failure? ==> r == Run(Raised(ModelInfo(lookup).error), [])
    ensures ModelInfo(lookup).Success? ==> r == ParseLoop(s, w, ModelInfo(lookup).value, images)
    ensures r.outcome == Raised(ApiKeyError) <==> ModelInfo(lookup) == Failure(ApiKeyError)
  {
    match ModelInfo(lookup)
    case Failure(e) => Run(Raised(e), [])
    case Success(info) => ParseLoop(s, w, info, images)
  }

  /** The requests `parse` sends: attempt `j` sends entry `j` of the list, which starts with
      the prompt and grows by one feedback message per retry. */
  lemma {:induction false} ParseRequests(s: Settings, w: World, info: Option<nat>, images: nat)
    ensures var r := ParseLoop(s, w, info, images);
            && (forall j :: 0 <= j < |r.states| ==> |r.states[j]| == j + 1 && r.states[j][..1] == [ParseOpening(s, images)])
            && (forall j :: 0 <= j < |r.states| - 1 ==>
                  && w.send(j, r.states[j]).Answered?
                  && ParseVerdict(w, w.send(j, r.states[j]).text).Retryable?
                  && r.states[j + 1] == r.states[j] + [Parts([TextPart(Feedback(ParseVerdict(w, w.send(j, r.states[j]).text).error))])])
  {
    var r := ParseLoop(s, w, info, images);
    var step := ParseSteps(s, w, info);
    forall j | 0 <= j < |r.states| - 1
      ensures && w.send(j, r.states[j]).Answered?
              && ParseVerdict(w, w.send(j, r.states[j]).text).Retryable?
              && r.states[j + 1] == r.states[j] + [Parts([TextPart(Feedback(ParseVerdict(w, w.send(j, r.states[j]).text).error))])]
    {
      assert step(0 + j, r.states[j]) == Again(r.states[j + 1]);
    }
    forall j | 0 <= j < |r.states|
      ensures |r.states[j]| == j + 1 && r.states[j][..1] == [ParseOpening(s, images)]
    {
      ChainLength(r.states, 1, 0, j);
      ChainStartsWith(r.states, 1, 0, j);
    }
  }

  /** A message, once sent, is never changed: attempt `j` resends every earlier request
      unchanged, so entry `i` of every later list is what attempt `i` sent last. */
  lemma EarlierRequestsKept(s: Settings, w: World, info: Option<nat>, images: nat, i: nat, j: nat)
    requires i <= j < |ParseLoop(s, w, info, images).states|
    ensures var r := ParseLoop(s, w, info, images);
            i < |r.states[i]| && i < |r.states[j]| && r.states[j][i] == r.states[i][i]
  {
    var r := ParseLoop(s, w, info, images);
    ParseRequests(s, w, info, images);
    ChainStartsWith(r.states, 1, i, j);
    assert r.states[j][..|r.states[i]|][i] == r.states[j][i];
  }

  /** Attempt `j` of a `parse` run went through `ParseStep`. */
  lemma ParseRunSteps(s: Settings, w: World, info: Option<nat>, images: nat)
    ensures var r := ParseLoop(s, w, info, images);
            forall j :: 0 <= j < |r.states| ==> ParseSteps(s, w, info)(0 + j, r.states[j]) == ParseStep(s, w, info, j, r.states[j])
  {
  }

  /** A receipt returned by `parse` is the verdict on the last reply. */
  lemma ParseReturnsLastVerdict(s: Settings, w: World, info: Option<nat>, images: nat)
    ensures var r := ParseLoop(s, w, info, images);
            r.outcome.Returned? && r.outcome.value.Some? ==>
              && |r.states| > 0
              && w.send(|r.states| - 1, r.states[|r.states| - 1]).Answered?
              && ParseVerdict(w, w.send(|r.states| - 1, r.states[|r.states| - 1]).text) == Parsed(r.outcome.value.value)
  {
    ParseRunSteps(s, w, info, images);
  }

  /** Past the constructor `parse` never raises `APIKeyError`; a `model_info` left unset
      raises `AttributeError` at the first retryable failure. */
  lemma ParseLoopRaises(s: Settings, w: World, info: Option<nat>, images: nat)
    ensures var r := ParseLoop(s, w, info, images);
            && r.outcome != Raised(ApiKeyError)
            && (forall j :: 0 <= j < |r.states| && info.None? && j + 1 != s.maxRetry
                  && w.send(j, r.states[j]).Answered? && ParseVerdict(w, w.send(j, r.states[j]).text).Retryable?
                  ==> j == |r.states| - 1 && r.outcome == Raised(Other("AttributeError")))
  {
    var r := ParseLoop(s, w, info, images);
    ParseRunSteps(s, w, info, images);
    StopIsLast(ParseSteps(s, w, info), s.maxRetry, 0, [ParseOpening(s, images)], Returned(None), r);
  }

  /** A reply naming the `Invalid` category ends `parse` at once with None. */
  lemma ParseStopsOnInvalid(s: Settings, w: World, info: Option<nat>, images: nat)
    ensures var r := ParseLoop(s, w, info, images);
            forall j :: 0 <= j < |r.states| && w.send(j, r.states[j]).Answered?
                        && ParseVerdict(w, w.send(j, r.states[j]).text).NotAReceipt?
                        ==> j == |r.states| - 1 && r.outcome == Returned(None)
  {
    var r := ParseLoop(s, w, info, images);
    forall j | 0 <= j < |r.states| && w.send(j, r.states[j]).Answered?
               && ParseVerdict(w, w.send(j, r.states[j]).text).NotAReceipt?
      ensures j == |r.states| - 1 && r.outcome == Returned(None)
    {
      InvalidStopsAt(s, w, info, [ParseOpening(s, images)], r, j);
    }
  }

  /** One attempt of `ParseStopsOnInvalid`: a run explained by `ParseStep` stops with None at
      an attempt whose reply names the `Invalid` category. */
  lemma InvalidStopsAt(s: Settings, w: World, info: Option<nat>, start: seq<Content>,
                       r: Run<seq<Content>, Outcome<Receipt>>, j: nat)
    requires Explains(ParseSteps(s, w, info), s.maxRetry, 0, start, Returned(None), r)
    requires j < |r.states| && w.send(j, r.states[j]).Answered?
    requires ParseVerdict(w, w.send(j, r.states[j]).text).NotAReceipt?
    ensures j == |r.states| - 1 && r.outcome == Returned(None)
  {
    var st := ParseStep(s, w, info, j, r.states[j]);
    assert ParseSteps(s, w, info)(0 + j, r.states[j]) == st == Stop(Returned(None));
    StopsWith(ParseSteps(s, w, info), s.maxRetry, 0, start, Returned(None), r, j, Returned(None));
  }

  /** One pass of the `review` loop body. */
  function ReviewStep(s: Settings, w: World, info: Option<nat>, k: nat, msgs: seq<Content>)
    : (st: Step<seq<Content>, Outcome<string>>)
    ensures st.Stop? && st.outcome.Raised? ==> st.outcome.exc.Other?
    ensures (st.Stop? && st.outcome.Returned? && st.outcome.value.Some?) <==>
              w.send(k, msgs).Answered? && JudgeReview(w.readReview(w.send(k, msgs).text)).Insights?
    ensures st.Stop? && st.outcome.Returned? && st.outcome.value.Some? ==>
              st.outcome.value.value == JudgeReview(w.readReview(w.send(k, msgs).text)).text
    ensures st.Again? <==>
              && w.send(k, msgs).Answered?
              && JudgeReview(w.readReview(w.send(k, msgs).text)).Unable?
              && k + 1 != s.maxRetry
              && info.Some?
              && w.send(k, msgs).totalTokens + w.countTokens(s.errorResponse) + s.buffer <= info.value
    ensures st.Again? ==> st.next == msgs + [Text(s.errorResponse)]
    ensures w.send(k, msgs).SendFailed? ==> st == Stop(Raised(Other(w.send(k, msgs).kind)))
    ensures w.send(k, msgs).Answered? && JudgeReview(w.readReview(w.send(k, msgs).text)).ReviewFatal? ==>
              st == Stop(Raised(JudgeReview(w.readReview(w.send(k, msgs).text)).exc))
    ensures var a := w.send(k, msgs);
            a.Answered? && JudgeReview(w.readReview(a.text)).Unable? ==>
              (st == Stop(Returned(None)) <==>
                 k + 1 == s.maxRetry
                 || (info.Some? && a.totalTokens + w.countTokens(s.errorResponse) + s.buffer > info.value))
    ensures (w.send(k, msgs).Answered? && JudgeReview(w.readReview(w.send(k, msgs).text)).Unable?
               && k + 1 != s.maxRetry && info.None?) ==>
              st == Stop(Raised(Other("AttributeError")))
  {
    match w.send(k, msgs)
    case SendFailed(kind) => Stop(Raised(Other(kind)))
    case Answered(text, used) =>
      match JudgeReview(w.readReview(text))
      case Insights(t) => Stop(Returned(Some(t)))
      case ReviewFatal(e) => Stop(Raised(e))
      case Unable =>
        Budgeted(k, s.maxRetry, LimitOf(info), used, w.countTokens(s.errorResponse), s.buffer, msgs + [Text(s.errorResponse)])
  }

  function ReviewSteps(s: Settings, w: World, info: Option<nat>): (nat, seq<Content>) -> Step<seq<Content>, Outcome<string>> {
    (k: nat, msgs: seq<Content>) => ReviewStep(s, w, info, k, msgs)
  }

  /** The first review message: the initial prompt, the receipts text and the query. */
  function ReviewOpening(s: Settings, receiptText: string, query: string): Content {
    Parts([TextPart(s.initialPrompt), TextPart(receiptText), TextPart(query)])
  }

  /** `GeminiReceiptReview(api_key).review(receipt_str, query)`. */
  function Review(s: Settings, w: World, lookup: ModelLookup, receiptText: string, query: string)
    : (r: Run<seq<Content>, Outcome<string>>)
    ensures ModelInfo(lookup).Failure? ==> r == Run(Raised(ModelInfo(lookup).error), [])
    ensures ModelInfo(lookup).Success? ==>
              Explains(ReviewSteps(s, w, ModelInfo(lookup).value), s.maxRetry, 0,
                       [ReviewOpening(s, receiptText, query)], Returned(None), r)
  {
    match ModelInfo(lookup)
    case Failure(e) => Run(Raised(e), [])
    case Success(info) => Loop(ReviewSteps(s, w, info), s.maxRetry, [ReviewOpening(s, receiptText, query)], Returned(None))
  }

  /** How `review` ends: insights come from the last reply, which had status true; each earlier
      reply had status false and was answered with the error response. */
  lemma ReviewOutcome(s: Settings, w: World, lookup: ModelLookup, receiptText: string, query: string)
    ensures var r := Review(s, w, lookup, receiptText, query);
            && (r.outcome == Raised(ApiKeyError) <==> ModelInfo(lookup) == Failure(ApiKeyError))
            && (r.outcome.Returned? && r.outcome.value.Some? ==>
                  && |r.states| > 0
                  && w.send(|r.states| - 1, r.states[|r.states| - 1]).Answered?
                  && JudgeReview(w.readReview(w.send(|r.states| - 1, r.states[|r.states| - 1]).text))
                     == Insights(r.outcome.value.value))
            && (forall j :: 0 <= j < |r.states| - 1 ==>
                  && w.send(j, r.states[j]).Answered?
                  && JudgeReview(w.readReview(w.send(j, r.states[j]).text)).Unable?
                  && r.states[j + 1] == r.states[j] + [Text(s.errorResponse)])
  {
    var r := Review(s, w, lookup, receiptText, query);
    if ModelInfo(lookup).Success? {
      var info := ModelInfo(lookup).value;
      var step := ReviewSteps(s, w, info);
      StopIsLast(step, s.maxRetry, 0, [ReviewOpening(s, receiptText, query)], Returned(None), r);
      forall j | 0 <= j < |r.states|
        ensures step(0 + j, r.states[j]) == ReviewStep(s, w, info, j, r.states[j])
      {
      }
      forall j | 0 <= j < |r.states| - 1
        ensures && w.send(j, r.states[j]).Answered?
                && JudgeReview(w.readReview(w.send(j, r.states[j]).text)).Unable?
                && r.states[j + 1] == r.states[j] + [Text(s.errorResponse)]
      {
        assert step(0 + j, r.states[j]) == Again(r.states[j + 1]);
      }
    }
  }

  /** One pass of the `chat_with_prompt` loop body: every exception is caught and retried. */
  function ChatStep(s: Settings, w: World, k: nat, msgs: seq<Content>): (st: Step<seq<Content>, Outcome<string>>)
    ensures st.Stop? ==> st.outcome.Returned?
    ensures st.Stop? && st.outcome.value.Some? <==> w.send(k, msgs).Answered?
    ensures st.Stop? && st.outcome.value.Some? ==> st.outcome.value.value == w.send(k, msgs).text
    ensures st.Again? <==> w.send(k, msgs).SendFailed? && k + 1 != s.maxRetry
    ensures st.Again? ==> st.next == msgs
  {
    match w.send(k, msgs)
    case SendFailed(_) => if k + 1 == s.maxRetry then Stop(Returned(None)) else Again(msgs)
    case Answered(text, _) => Stop(Returned(Some(text)))
  }

  function ChatSteps(s: Settings, w: World): (nat, seq<Content>) -> Step<seq<Content>, Outcome<string>> {
    (k: nat, msgs: seq<Content>) => ChatStep(s, w, k, msgs)
  }

  /** `GeminiReceiptReview(api_key).chat_with_prompt(prompt)`. */
  function Chat(s: Settings, w: World, lookup: ModelLookup, prompt: string): (r: Run<seq<Content>, Outcome<string>>)
    ensures ModelInfo(lookup).Failure? ==> r == Run(Raised(ModelInfo(lookup).error), [])
    ensures ModelInfo(lookup).Success? ==>
              Explains(ChatSteps(s, w), s.maxRetry, 0, [Parts([TextPart(prompt)])], Returned(None), r)
  {
    match ModelInfo(lookup)
    case Failure(e) => Run(Raised(e), [])
    case Success(_) => Loop(ChatSteps(s, w), s.maxRetry, [Parts([TextPart(prompt)])], Returned(None))
  }

  lemma {:induction false} ChatStaysOnPrompt(s: Settings, w: World, lookup: ModelLookup, prompt: string,
                                              r: Run<seq<Content>, Outcome<string>>, j: nat)
    requires r == Chat(s, w, lookup, prompt) && j < |r.states|
    ensures r.states[j] == [Parts([TextPart(prompt)])]
  {
    if j > 0 {
      ChatStaysOnPrompt(s, w, lookup, prompt, r, j - 1);
      assert ChatSteps(s, w)(0 + (j - 1), r.states[j - 1]) == Again(r.states[j]);
      assert ChatStep(s, w, j - 1, r.states[j - 1]) == Again(r.states[j]);
    } else {
      assert s.maxRetry > 0;
    }
  }

  /** How `chat_with_prompt` ends: past the constructor it never raises; every request sends
      the prompt alone; the first reply's text is returned; None only after `max_retry` failures. */
  lemma ChatOutcome(s: Settings, w: World, lookup: ModelLookup, prompt: string)
    ensures var r := Chat(s, w, lookup, prompt);
            var c := [Parts([TextPart(prompt)])];
            && (r.outcome.Raised? <==> ModelInfo(lookup).Failure?)
            && (forall j :: 0 <= j < |r.states| ==> r.states[j] == c)
            && (forall j :: 0 <= j < |r.states| - 1 ==> w.send(j, c).SendFailed?)
            && (r.outcome.Returned? && r.outcome.value.Some? <==> |r.states| > 0 && w.send(|r.states| - 1, c).Answered?)
            && (r.outcome.Returned? && r.outcome.value.Some? ==> r.outcome.value.value == w.send(|r.states| - 1, c).text)
            && (r.outcome == Returned(None) ==> |r.states| == s.maxRetry)
  {
    var r := Chat(s, w, lookup, prompt);
    var c := [Parts([TextPart(prompt)])];
    if ModelInfo(lookup).Success? {
      var step := ChatSteps(s, w);
      forall j | 0 <= j < |r.states|
        ensures r.states[j] == c
      {
        ChatStaysOnPrompt(s, w, lookup, prompt, r, j);
      }
      forall j | 0 <= j < |r.states|
        ensures step(0 + j, r.states[j]) == ChatStep(s, w, j, c)
      {
      }
      forall j | 0 <= j < |r.states| - 1
        ensures w.send(j, c).SendFailed?
      {
        assert step(0 + j, r.states[j]) == Again(r.states[j + 1]);
      }
      if |r.states| > 0 {
        assert step(0 + (|r.states| - 1), r.states[|r.states| - 1]) == ChatStep(s, w, |r.states| - 1, c);
      }
    }
  }
}

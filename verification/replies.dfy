/**
  What a model's JSON answer means to a parser or a reviewer, before the retry
  policy decides what to do next. Decoding the text (`json.loads`) is given; what
  follows it — the `category` lookup, the `Invalid` check, `Receipt(**receipt_dict)`,
  the `status` test — is the service's own logic.
 */
module Replies {
  import opened Wrappers
  import opened Receipts
  import opened Retry

  /** The keyword arguments of `Receipt(**receipt_dict)`: exactly the constructor's
      parameters, or some other key set (a `TypeError` when called), in which case
      only the `category` entry, if any, is kept. */
  datatype Keywords = Keywords(raw: RawReceipt) | Mismatch(category: Option<string>)

  /** `json.loads` of a parsing answer: the `JSONDecodeError` text, or the dictionary. */
  datatype ReceiptReply = ReceiptNotJson(error: string) | ReceiptDict(keywords: Keywords)

  /** `json.loads` of a review answer. `status` is the truthiness of the `status`
      entry and `insights` its text; None marks a missing key. */
  datatype ReviewReply = ReviewNotJson(error: string) | ReviewDict(status: Option<bool>, insights: Option<string>)

  /** `receipt_dict['category']`, None when the key is missing. */
  function CategoryEntry(k: Keywords): Option<string> {
    match k
    case Keywords(raw) => Some(raw.category)
    case Mismatch(c) => c
  }

  /** What one parsing answer leads to. */
  datatype Verdict =
    | NotAReceipt              // category `Invalid`: return None at once
    | Parsed(receipt: Receipt) // return the receipt
    | Retryable(error: string) // a caught exception, with its `str()`
    | Fatal(exc: Exc)          // an exception that leaves `parse`

  /** The body of a parsing attempt after the answer arrives. `catchDecode` says whether
      `JSONDecodeError` is caught with `ReceiptError` (Gemini) or escapes (OpenAI);
      `errorText` is `str()` of a `ReceiptError(field, message)`. */
  function Judge(reply: ReceiptReply, P: Parsers, errorText: (string, string) -> string, catchDecode: bool): (v: Verdict)
    ensures v.NotAReceipt? <==> reply.ReceiptDict? && CategoryEntry(reply.keywords) == Some(Invalid.Value())
    ensures v.Parsed? <==>
              reply.ReceiptDict? && reply.keywords.Keywords? && reply.keywords.raw.category != Invalid.Value()
              && BuildReceipt(reply.keywords.raw, P).Success?
    ensures v.Parsed? ==> v.receipt == BuildReceipt(reply.keywords.raw, P).value
    ensures v.Fatal? ==> v.exc.Other?
    ensures reply.ReceiptNotJson? ==> v == (if catchDecode then Retryable(reply.error) else Fatal(Other("JSONDecodeError")))
    ensures reply.ReceiptDict? && CategoryEntry(reply.keywords).None? ==> v == Fatal(Other("KeyError"))
    ensures v.Retryable? && reply.ReceiptDict? ==>
              reply.keywords.Keywords? &&
              var e := BuildReceipt(reply.keywords.raw, P).error;
              e.ReceiptError? && v.error == errorText(e.field, e.message)
    ensures reply.ReceiptDict? && reply.keywords.Mismatch? && reply.keywords.category.Some?
            && reply.keywords.category.value != Invalid.Value() ==>
              v == Fatal(Other("TypeError"))
    ensures reply.ReceiptDict? && reply.keywords.Keywords? && reply.keywords.raw.category != Invalid.Value()
            && BuildReceipt(reply.keywords.raw, P).Failure? ==>
              v == match BuildReceipt(reply.keywords.raw, P).error
                   case ReceiptError(f, m) => Retryable(errorText(f, m))
                   case Uncaught(kind) => Fatal(Other(kind))
  {
    match reply
    case ReceiptNotJson(e) => if catchDecode then Retryable(e) else Fatal(Other("JSONDecodeError"))
    case ReceiptDict(k) =>
      match CategoryEntry(k)
      case None => Fatal(Other("KeyError"))
      case Some(c) =>
        if c == Invalid.Value() then NotAReceipt
        else match k
          case Mismatch(_) => Fatal(Other("TypeError"))
          case Keywords(raw) =>
            match BuildReceipt(raw, P)
            case Success(r) => Parsed(r)
            case Failure(ReceiptError(f, m)) => Retryable(errorText(f, m))
            case Failure(Uncaught(kind)) => Fatal(Other(kind))
  }

  /** A parsing answer that is not `Invalid` and carries exactly the constructor's fields
      is accepted iff the receipt checks pass; one naming an unknown category is always
      retried, since the date, total or category check raises `ReceiptError` first. */
  lemma WellFormedReplyParsesIffAcceptable(raw: RawReceipt, P: Parsers, errorText: (string, string) -> string, catchDecode: bool)
    requires raw.category != Invalid.Value()
    ensures Judge(ReceiptDict(Keywords(raw)), P, errorText, catchDecode).Parsed? <==> Acceptable(raw, P)
    ensures raw.category !in ValidValues ==> Judge(ReceiptDict(Keywords(raw)), P, errorText, catchDecode).Retryable?
  {
  }

  /** What one review answer leads to. */
  datatype ReviewVerdict =
    | Insights(text: string)   // status true: return the insights
    | Unable                   // status false: retry or give up
    | ReviewFatal(exc: Exc)    // an exception that leaves `review`

  /** The body of a review attempt after the answer arrives; neither reviewer catches
      decoding errors or missing keys. */
  function JudgeReview(reply: ReviewReply): (v: ReviewVerdict)
    ensures v.Insights? <==> reply.ReviewDict? && reply.status == Some(true) && reply.insights.Some?
    ensures v.Insights? ==> v.text == reply.insights.value
    ensures v.Unable? <==> reply.ReviewDict? && reply.status == Some(false)
    ensures v.ReviewFatal? ==> v.exc.Other?
    ensures reply.ReviewNotJson? ==> v == ReviewFatal(Other("JSONDecodeError"))
    ensures reply.ReviewDict? && (reply.status.None? || (reply.status == Some(true) && reply.insights.None?)) ==>
              v == ReviewFatal(Other("KeyError"))
  {
    match reply
    case ReviewNotJson(_) => ReviewFatal(Other("JSONDecodeError"))
    case ReviewDict(status, insights) =>
      match status
      case None => ReviewFatal(Other("KeyError"))
      case Some(ok) =>
        if !ok then Unable
        else match insights
          case None => ReviewFatal(Other("KeyError"))
          case Some(t) => Insights(t)
  }
}

/**
  The Flask handlers of `receiptservice.py`, from a decoded request to a status
  code and a response body: parameter validation, the receipts-to-text formatter
  of `/review`, the provider fallback in `/review`, `/upload` and `/chat`, and
  the status rule of `/embed-receipt`. The providers, the retrieval step and the
  embedding store are given as functions.
 */
module Service {
  import opened Wrappers
  import opened Text
  import opened Receipts
  import opened Retry
  import opened Routing
  import opened Chunking

  /** The JSON bodies the handlers send. */
  datatype Body =
    | ErrorBody(error: string)        // {'error': ...}
    | InsightsBody(insights: string)  // the reviewer's insights, as a JSON string
    | StandardAdvice                  // the fixed budgeting advice `/review` falls back to
    | ReceiptBody(receipt: Json)      // the parsed receipt, as `ReceiptEncoder` writes it
    | MessageBody(message: string)    // {'message': ...}
    | WarningBody(warning: string)    // {'warning': ...}
    | ChatBody(response: string)      // {'response': ...}

  datatype Response = Response(status: nat, body: Body)

  /** `not value` for an optional string parameter. */
  predicate Falsy(v: Option<string>) {
    v.None? || v == Some("")
  }

  /** `key in [None, 'UNSET']`. */
  predicate KeyMissing(k: Option<string>) {
    k.None? || k == Some(Unset)
  }

  /** Python's `repr` of a list of names, for names without quotes or backslashes. */
  function PyListRepr(names: seq<string>): string {
    "[" + JoinWith(seq(|names|, i requires 0 <= i < |names| => "'" + names[i] + "'"), ", ") + "]"
  }

  function UnauthorizedResponse(models: seq<string>): Response {
    Response(401, ErrorBody("Invalid API keys for " + PyListRepr(models)))
  }

  const MissingDefaultModel := "Missing defaultModel parameter"
  const MissingKey := "Missing geminiKey or openaiKey parameter, at least 1 key is needed"

  // ---------------------------------------------------------------- /review

  /** An `itemizedList` entry and a receipt as `/review` receives them; each value is
      given as the f-string renders it. */
  datatype ItemLine = ItemLine(itemName: string, itemQuantity: string, itemCost: string)
  datatype ReceiptEntry = ReceiptEntry(merchantName: string, date: string, category: string, totalCost: string,
                                       itemizedList: seq<ItemLine>)

  /** The lines that open a receipt's block, up to "Itemized List:" without its line break. */
  function Opening(r: ReceiptEntry): string {
    "Merchant: " + r.merchantName + "\n" + "Date: " + r.date + "\n" + "Category: " + r.category + "\n"
    + "Total Cost: " + r.totalCost + "\n" + "Itemized List:"
  }

  function ItemText(it: ItemLine): string {
    "  - " + it.itemName + ": " + it.itemQuantity + " x $" + it.itemCost + "\n"
  }

  /** The item lines, in order. */
  function ItemsText(items: seq<ItemLine>): string {
    if |items| == 0 then "" else ItemsText(items[..|items| - 1]) + ItemText(items[|items| - 1])
  }

  /** A receipt's block: the opening lines, the item lines, and a blank separator line. */
  function Block(r: ReceiptEntry): string {
    Opening(r) + "\n" + ItemsText(r.itemizedList) + "\n"
  }

  /** The blocks of all receipts, in order. */
  function Blocks(rs: seq<ReceiptEntry>): string {
    if |rs| == 0 then "" else Blocks(rs[..|rs| - 1]) + Block(rs[|rs| - 1])
  }

  /** The inner loop of the formatter: one line per item. */
  method FormatItems(items: seq<ItemLine>) returns (lines: string)
    ensures lines == ItemsText(items)
  {
    lines := "";
    for k := 0 to |items|
      invariant lines == ItemsText(items[..k])
    {
      var it := items[k];
      lines := lines + "  - " + it.itemName + ": " + it.itemQuantity + " x $" + it.itemCost + "\n";
      assert items[..k + 1][..k] == items[..k];
    }
    assert items[..|items|] == items;
  }

  /** The receipt string, as the loop in `get_review` builds it. */
  method FormatReceipts(rs: seq<ReceiptEntry>) returns (text: string)
    ensures text == RStrip(Blocks(rs))
  {
    var acc := "";
    for i := 0 to |rs|
      invariant acc == Blocks(rs[..i])
    {
      var r := rs[i];
      var lines := FormatItems(r.itemizedList);
      acc := acc + (Opening(r) + "\n" + lines + "\n");
      assert rs[..i + 1][..i] == rs[..i];
    }
    assert rs[..|rs|] == rs;
    text := RStrip(acc);
  }

  /** No receipts give the empty string, and the text never ends in whitespace. */
  lemma ReceiptTextEnds(rs: seq<ReceiptEntry>)
    ensures rs == [] ==> RStrip(Blocks(rs)) == ""
    ensures var t := RStrip(Blocks(rs)); |t| == 0 || !IsSpace(t[|t| - 1])
  {
  }

  /** The text opens with the first receipt's lines, up to "Itemized List:". */
  lemma ReceiptTextOpens(rs: seq<ReceiptEntry>)
    requires |rs| > 0
    ensures var h := Opening(rs[0]); |RStrip(Blocks(rs))| >= |h| && RStrip(Blocks(rs))[..|h|] == h
  {
    var h := Opening(rs[0]);
    BlocksStartWith(rs);
    var b := Blocks(rs);
    assert b == h + b[|h|..];
    assert h[|h| - 1] == ':';
    RStripKeepsPrefix(h, b[|h|..]);
  }

  lemma {:induction false} BlocksStartWith(rs: seq<ReceiptEntry>)
    requires |rs| > 0
    ensures |Blocks(rs)| >= |Opening(rs[0])| && Blocks(rs)[..|Opening(rs[0])|] == Opening(rs[0])
  {
    var h := Opening(rs[0]);
    if |rs| == 1 {
      assert rs[..0] == [];
      assert Blocks(rs) == h + ("\n" + ItemsText(rs[0].itemizedList) + "\n");
    } else {
      var front := rs[..|rs| - 1];
      BlocksStartWith(front);
      assert front[0] == rs[0];
      assert Blocks(rs) == Blocks(front) + Block(rs[|rs| - 1]);
    }
  }

  /** The JSON body of `/review`, with a missing `query` read as "". */
  datatype ReviewRequest = ReviewRequest(
    defaultModel: Option<string>, geminiKey: Option<string>, openaiKey: Option<string>,
    receipts: Option<seq<ReceiptEntry>>, query: Option<string>)

  /** The checks `get_review` makes before any provider is tried, in order. */
  function ReviewCheck(req: ReviewRequest): (r: Option<Response>)
    ensures r.Some? <==> Falsy(req.defaultModel) || (KeyMissing(req.geminiKey) && KeyMissing(req.openaiKey)) || req.receipts.None?
    ensures r.Some? ==> r.value.status == 400
    ensures Falsy(req.defaultModel) ==> r == Some(Response(400, ErrorBody(MissingDefaultModel)))
    ensures !Falsy(req.defaultModel) && KeyMissing(req.geminiKey) && KeyMissing(req.openaiKey) ==>
              r == Some(Response(400, ErrorBody(MissingKey)))
    ensures !Falsy(req.defaultModel) && !(KeyMissing(req.geminiKey) && KeyMissing(req.openaiKey)) && req.receipts.None? ==>
              r == Some(Response(400, ErrorBody("Missing receipts parameter")))
  {
    if Falsy(req.defaultModel) then Some(Response(400, ErrorBody(MissingDefaultModel)))
    else if KeyMissing(req.geminiKey) && KeyMissing(req.openaiKey) then Some(Response(400, ErrorBody(MissingKey)))
    else if req.receipts.None? then Some(Response(400, ErrorBody("Missing receipts parameter")))
    else None
  }

  /** `POST /review`. `review(provider, receiptText, query)` is what constructing that
      provider's reviewer and calling `review` ends with. */
  function HandleReview(req: ReviewRequest, review: (Provider, string, string) -> Outcome<string>): (resp: Response)
    ensures ReviewCheck(req).Some? ==> resp == ReviewCheck(req).value
    ensures ReviewCheck(req).None? ==>
              var text := RStrip(Blocks(req.receipts.value));
              var q := req.query.GetOr("");
              var routed := Fallback(OrderProviders(Providers(req.geminiKey, req.openaiKey), req.defaultModel.value),
                                     p => review(p, text, q)).result;
              && (routed.Answer? ==> resp == Response(200, InsightsBody(routed.value)))
              && (routed.Unauthorized? ==> resp == UnauthorizedResponse(routed.models))
              && (routed.NoAnswer? ==> resp == Response(200, StandardAdvice))
  {
    match ReviewCheck(req)
    case Some(bad) => bad
    case None =>
      var text := RStrip(Blocks(req.receipts.value));
      var q := req.query.GetOr("");
      var ps := OrderProviders(Providers(req.geminiKey, req.openaiKey), req.defaultModel.value);
      match Fallback(ps, p => review(p, text, q)).result
      case Answer(v) => Response(200, InsightsBody(v))
      case Unauthorized(models) => UnauthorizedResponse(models)
      case NoAnswer => Response(200, StandardAdvice)
  }

  /** A request failing the checks gets its 400 whatever the providers would do: none is tried. */
  lemma ReviewChecksFirst(req: ReviewRequest, review: (Provider, string, string) -> Outcome<string>,
                          review': (Provider, string, string) -> Outcome<string>)
    requires Falsy(req.defaultModel) || (KeyMissing(req.geminiKey) && KeyMissing(req.openaiKey)) || req.receipts.None?
    ensures HandleReview(req, review) == HandleReview(req, review')
    ensures HandleReview(req, review).status == 400
  {
  }

  /** The statuses `/review` can answer with: 400 on a bad request, 401 when the keys are
      refused, and otherwise 200, with insights or with the standard advice. */
  lemma ReviewStatuses(req: ReviewRequest, review: (Provider, string, string) -> Outcome<string>)
    ensures HandleReview(req, review).status in {200, 400, 401}
    ensures HandleReview(req, review).status == 400 <==> ReviewCheck(req).Some?
  {
  }

  /** When the default model's provider holds a key and answers, its insights are returned. */
  lemma ReviewDefaultAnswers(req: ReviewRequest, review: (Provider, string, string) -> Outcome<string>, v: string)
    requires ReviewCheck(req).None?
    requires var ps := Providers(req.geminiKey, req.openaiKey);
             var u := Upper(req.defaultModel.value);
             var text := RStrip(Blocks(req.receipts.value));
             |Named(ps, u, true)| > 0 && Eligible(Named(ps, u, true)[0])
             && review(Named(ps, u, true)[0], text, req.query.GetOr("")) == Returned(Some(v))
    ensures HandleReview(req, review) == Response(200, InsightsBody(v))
  {
    var text := RStrip(Blocks(req.receipts.value));
    var q := req.query.GetOr("");
    DefaultProviderAnswers(Providers(req.geminiKey, req.openaiKey), req.defaultModel.value, p => review(p, text, q), v);
  }

  // ---------------------------------------------------------------- /upload

  /** The form of `/upload`: the uploaded file's name (None when no `file` part was sent)
      and the form fields. */
  datatype UploadRequest = UploadRequest(
    filename: Option<string>, defaultModel: Option<string>, geminiKey: Option<string>, openaiKey: Option<string>)

  /** The checks `upload_file` makes before any provider is tried, in order. */
  function UploadCheck(req: UploadRequest): (r: Option<Response>)
    ensures r.Some? <==> req.filename.None? || req.filename == Some("") || Falsy(req.defaultModel)
                         || (KeyMissing(req.geminiKey) && KeyMissing(req.openaiKey)) || !AllowedFile(req.filename.value)
    ensures r.Some? ==> r.value.status == 400
    ensures req.filename.None? ==> r == Some(Response(400, ErrorBody("No file received")))
    ensures req.filename == Some("") ==> r == Some(Response(400, ErrorBody("No selected file")))
    ensures req.filename.Some? && req.filename != Some("") && Falsy(req.defaultModel) ==>
              r == Some(Response(400, ErrorBody(MissingDefaultModel)))
    ensures (req.filename.Some? && req.filename != Some("") && !Falsy(req.defaultModel)
             && KeyMissing(req.geminiKey) && KeyMissing(req.openaiKey)) ==>
              r == Some(Response(400, ErrorBody(MissingKey)))
    ensures req.filename.Some? && req.filename != Some("") && !Falsy(req.defaultModel)
            && !(KeyMissing(req.geminiKey) && KeyMissing(req.openaiKey)) && !AllowedFile(req.filename.value)
            ==> r == Some(Response(400, ErrorBody("Invalid file type received")))
  {
    if req.filename.None? then Some(Response(400, ErrorBody("No file received")))
    else if req.filename == Some("") then Some(Response(400, ErrorBody("No selected file")))
    else if Falsy(req.defaultModel) then Some(Response(400, ErrorBody(MissingDefaultModel)))
    else if KeyMissing(req.geminiKey) && KeyMissing(req.openaiKey) then Some(Response(400, ErrorBody(MissingKey)))
    else if !AllowedFile(req.filename.value) then Some(Response(400, ErrorBody("Invalid file type received")))
    else None
  }

  /** `POST /upload`. `parse(provider)` is what constructing that provider's parser and
      parsing the uploaded pages ends with. */
  function HandleUpload(req: UploadRequest, parse: Provider -> Outcome<Receipt>): (resp: Response)
    ensures UploadCheck(req).Some? ==> resp == UploadCheck(req).value
    ensures UploadCheck(req).None? ==>
              var routed := Fallback(OrderProviders(Providers(req.geminiKey, req.openaiKey), req.defaultModel.value), parse).result;
              && (routed.Answer? ==> resp == Response(200, ReceiptBody(ReceiptToDict(routed.value))))
              && (routed.Unauthorized? ==> resp == UnauthorizedResponse(routed.models))
              && (routed.NoAnswer? ==> resp == Response(400, ErrorBody("Image is not a receipt or error parsing receipt")))
  {
    match UploadCheck(req)
    case Some(bad) => bad
    case None =>
      var ps := OrderProviders(Providers(req.geminiKey, req.openaiKey), req.defaultModel.value);
      match Fallback(ps, parse).result
      case Answer(r) => Response(200, ReceiptBody(EncoderDefault(EncReceipt(r)).value))
      case Unauthorized(models) => UnauthorizedResponse(models)
      case NoAnswer => Response(400, ErrorBody("Image is not a receipt or error parsing receipt"))
  }

  /** A request failing the checks gets its 400 whatever the parsers would do. */
  lemma UploadChecksFirst(req: UploadRequest, parse: Provider -> Outcome<Receipt>, parse': Provider -> Outcome<Receipt>)
    requires UploadCheck(req).Some?
    ensures HandleUpload(req, parse) == HandleUpload(req, parse')
    ensures HandleUpload(req, parse).status == 400
  {
  }

  /** A 200 from `/upload` carries, encoded, a receipt that one of the providers returned. */
  lemma UploadAnswerFromProvider(req: UploadRequest, parse: Provider -> Outcome<Receipt>)
    ensures var resp := HandleUpload(req, parse);
            resp.status == 200 ==>
              exists p, r :: parse(p) == Returned(Some(r)) && resp.body == ReceiptBody(ReceiptToDict(r))
  {
    var resp := HandleUpload(req, parse);
    if UploadCheck(req).None? {
      var ps := OrderProviders(Providers(req.geminiKey, req.openaiKey), req.defaultModel.value);
      var r := Fallback(ps, parse);
      if r.result.Answer? {
        assert resp == Response(200, ReceiptBody(ReceiptToDict(r.result.value)));
        assert parse(ps[r.stop]) == Returned(Some(r.result.value));
      }
    }
  }

  // ---------------------------------------------------------------- /chat

  /** One `history` entry. */
  datatype HistoryEntry = HistoryEntry(sender: string, content: string)

  /** A search hit: its text chunk and its score, already written with four decimals. */
  datatype Doc = Doc(textChunk: string, score: string)

  /** The retrieval step: no embedding for the message, or the hits found (possibly none). */
  datatype Retrieval = NoEmbedding | Retrieved(docs: seq<Doc>)

  /** The three parts the chat prompt is filled in from; the surrounding instructions are fixed. */
  datatype ChatPrompt = ChatPrompt(history: string, context: string, message: string)

  datatype ChatRequest = ChatRequest(
    userId: Option<string>, message: Option<string>, history: seq<HistoryEntry>,
    defaultModel: Option<string>, geminiKey: Option<string>, openaiKey: Option<string>)

  /** The first line of a non-empty context. */
  const ContextLead := "Here's " + "some potentially relevant " + "context from your " + "receipts:"
  const NoContext := "No relevant context found."
  const NoReceiptContext := "No relevant context found in your receipts for this query."
  const ChatFallback := "Sorry, I encountered an error trying to process your request with the AI models."

  /** How a hit is written in the context. */
  function HitText(d: Doc): string {
    "- " + d.textChunk + " (Relevance score: " + d.score + ")"
  }

  function DocLine(d: Doc): string {
    HitText(d) + "\n"
  }

  function DocLines(docs: seq<Doc>): string {
    if |docs| == 0 then "" else DocLine(docs[0]) + DocLines(docs[1..])
  }

  /** The lines of the first `i` hits, followed by those of the rest. */
  lemma {:induction false} DocLinesSplit(docs: seq<Doc>, i: nat)
    requires i <= |docs|
    ensures DocLines(docs) == DocLines(docs[..i]) + DocLines(docs[i..])
  {
    if i > 0 {
      DocLinesSplit(docs[1..], i - 1);
      assert docs[1..][..i - 1] == docs[..i][1..];
      assert docs[1..][i - 1..] == docs[i..];
    }
  }

  /** The lines of the hits before `i`, then hit `i`'s line, then the lines after it. */
  lemma DocLinesAt(docs: seq<Doc>, i: nat)
    requires i < |docs|
    ensures DocLines(docs) == DocLines(docs[..i]) + DocLine(docs[i]) + DocLines(docs[i + 1..])
  {
    DocLinesSplit(docs, i);
    var rest := docs[i..];
    assert rest[0] == docs[i] && rest[1..] == docs[i + 1..];
    assert DocLines(rest) == DocLine(rest[0]) + DocLines(rest[1..]);
  }

  /** The hit lines end with ")" and a line break. */
  lemma DocLinesEnd(docs: seq<Doc>)
    requires |docs| > 0
    ensures var s := DocLines(docs); |s| >= 2 && s[|s| - 1] == '\n' && s[|s| - 2] == ')'
  {
    DocLinesSplit(docs, |docs| - 1);
    assert docs[|docs| - 1..] == [docs[|docs| - 1]];
    assert DocLines(docs[|docs| - 1..]) == DocLine(docs[|docs| - 1]) + DocLines([]);
  }

  /** `retrieved_context_str`: the lead line, then one line per hit in order; stripping
      removes only the last line break. */
  function ContextText(ret: Retrieval): (c: string)
    ensures ret.NoEmbedding? ==> c == NoContext
    ensures ret.Retrieved? && |ret.docs| == 0 ==> c == NoReceiptContext
    ensures ret.Retrieved? && |ret.docs| > 0 ==>
              |c| >= |ContextLead| && c[..|ContextLead|] == ContextLead && !IsSpace(c[|c| - 1])
    ensures ret.Retrieved? && |ret.docs| > 0 ==> c + "\n" == ContextLead + "\n" + DocLines(ret.docs)
  {
    match ret
    case NoEmbedding => NoContext
    case Retrieved(docs) =>
      if |docs| == 0 then NoReceiptContext
      else
        var raw := ContextLead + "\n" + DocLines(docs);
        LeadSurvivesStrip(DocLines(docs));
        DocLinesEnd(docs);
        ContextStrip(DocLines(docs));
        Strip(raw)
  }

  /** Stripping the context drops only the line break that ends the last hit line. */
  lemma ContextStrip(lines: string)
    requires |lines| >= 2 && lines[|lines| - 1] == '\n' && lines[|lines| - 2] == ')'
    ensures Strip(ContextLead + "\n" + lines) + "\n" == ContextLead + "\n" + lines
  {
    var raw := ContextLead + "\n" + lines;
    assert raw == ContextLead + ("\n" + lines);
    assert raw[0] == ContextLead[0] == 'H';
    assert raw[|raw| - 2] == lines[|lines| - 2];
    StripDropsLastBreak(raw);
  }

  lemma Regroup(lead: string, before: string, hit: string, after: string)
    ensures lead + (before + (hit + "\n") + after) == (lead + before) + hit + ("\n" + after)
  {
  }

  /** Every hit appears in the context as "- chunk (Relevance score: score)". */
  lemma ContextListsEveryDoc(docs: seq<Doc>, i: nat)
    requires i < |docs|
    ensures Contains(ContextText(Retrieved(docs)), HitText(docs[i]))
  {
    var c := ContextText(Retrieved(docs));
    var lead, before, after := ContextLead + "\n", DocLines(docs[..i]), DocLines(docs[i + 1..]);
    DocLinesAt(docs, i);
    assert DocLines(docs) == before + (HitText(docs[i]) + "\n") + after;
    assert c + "\n" == lead + DocLines(docs);
    Regroup(lead, before, HitText(docs[i]), after);
    OccursBeforeLastChar(c, '\n', lead + before, HitText(docs[i]), "\n" + after);
  }



  lemma LeadSurvivesStrip(lines: string)
    ensures var c := Strip(ContextLead + "\n" + lines);
            |c| >= |ContextLead| && c[..|ContextLead|] == ContextLead && !IsSpace(c[|c| - 1])
  {
    var raw := ContextLead + "\n" + lines;
    assert raw == ContextLead + ("\n" + lines);
    assert raw[0] == ContextLead[0] == 'H';
    assert !IsSpace('H');
    assert LStrip(raw) == raw;
    assert ContextLead[|ContextLead| - 1] == ':';
    RStripKeepsPrefix(ContextLead, "\n" + lines);
  }

  /** `formatted_history`: one "SENDER: content" line per entry, the sender upper-cased. */
  function FormatHistory(history: seq<HistoryEntry>): (s: string)
    ensures |history| == 0 ==> s == ""
  {
    JoinWith(seq(|history|, i requires 0 <= i < |history| => Upper(history[i].sender) + ": " + history[i].content), "\n")
  }

  /** With no line breaks inside the entries, the history splits back into one line per
      entry, in order. */
  lemma HistoryLines(history: seq<HistoryEntry>)
    requires |history| > 0
    requires forall i :: 0 <= i < |history| ==> '\n' !in history[i].sender && '\n' !in history[i].content
    ensures var lines := SplitOn(FormatHistory(history), '\n');
            && |lines| == |history|
            && forall i :: 0 <= i < |history| ==> lines[i] == Upper(history[i].sender) + ": " + history[i].content
  {
    var ls := seq(|history|, i requires 0 <= i < |history| => Upper(history[i].sender) + ": " + history[i].content);
    forall i | 0 <= i < |ls|
      ensures '\n' !in ls[i]
    {
      var u := Upper(history[i].sender);
      assert forall k :: 0 <= k < |u| ==> u[k] == UpperChar(history[i].sender[k]);
      assert '\n' !in u;
      assert ls[i] == u + (": " + history[i].content);
    }
    SplitJoin(ls, '\n');
  }

  /** The checks `handle_chat` makes before any retrieval or provider call, in order. */
  function ChatCheck(req: ChatRequest): (r: Option<Response>)
    ensures r.Some? <==> Falsy(req.userId) || Falsy(req.message) || Falsy(req.defaultModel)
                         || (KeyMissing(req.geminiKey) && KeyMissing(req.openaiKey))
    ensures r.Some? ==> r.value.status == 400
    ensures Falsy(req.userId) || Falsy(req.message) ==> r == Some(Response(400, ErrorBody("Missing userId or message")))
    ensures (!Falsy(req.userId) && !Falsy(req.message)
             && (Falsy(req.defaultModel) || (KeyMissing(req.geminiKey) && KeyMissing(req.openaiKey)))) ==>
              r == Some(Response(400, ErrorBody("Missing defaultModel or API keys (Gemini/OpenAI)")))
  {
    if Falsy(req.userId) || Falsy(req.message) then Some(Response(400, ErrorBody("Missing userId or message")))
    else if Falsy(req.defaultModel) || (KeyMissing(req.geminiKey) && KeyMissing(req.openaiKey)) then
      Some(Response(400, ErrorBody("Missing defaultModel or API keys (Gemini/OpenAI)")))
    else None
  }

  /** `POST /chat`. `retrieve(userId, message)` is the embedding and search step;
      `chat(provider, prompt)` what constructing that provider's reviewer and calling
      `chat_with_prompt` ends with. */
  function HandleChat(req: ChatRequest, retrieve: (string, string) -> Retrieval,
                      chat: (Provider, ChatPrompt) -> Outcome<string>): (resp: Response)
    ensures ChatCheck(req).Some? ==> resp == ChatCheck(req).value
    ensures ChatCheck(req).None? ==>
              var prompt := ChatPrompt(FormatHistory(req.history), ContextText(retrieve(req.userId.value, req.message.value)),
                                       req.message.value);
              var routed := Fallback(OrderProviders(Providers(req.geminiKey, req.openaiKey), req.defaultModel.value),
                                     p => chat(p, prompt)).result;
              && (routed.Answer? ==> resp == Response(200, ChatBody(routed.value)))
              && (routed.Unauthorized? ==> resp == UnauthorizedResponse(routed.models))
              && (routed.NoAnswer? ==> resp == Response(500, ChatBody(ChatFallback)))
  {
    match ChatCheck(req)
    case Some(bad) => bad
    case None =>
      var context := ContextText(retrieve(req.userId.value, req.message.value));
      var prompt := ChatPrompt(FormatHistory(req.history), context, req.message.value);
      var ps := OrderProviders(Providers(req.geminiKey, req.openaiKey), req.defaultModel.value);
      match Fallback(ps, p => chat(p, prompt)).result
      case Answer(text) => Response(200, ChatBody(text))
      case Unauthorized(models) => UnauthorizedResponse(models)
      case NoAnswer => Response(500, ChatBody(ChatFallback))
  }

  /** A request failing the checks gets its 400 with no retrieval and no provider consulted. */
  lemma ChatChecksFirst(req: ChatRequest, retrieve: (string, string) -> Retrieval, retrieve': (string, string) -> Retrieval,
                        chat: (Provider, ChatPrompt) -> Outcome<string>, chat': (Provider, ChatPrompt) -> Outcome<string>)
    requires ChatCheck(req).Some?
    ensures HandleChat(req, retrieve, chat) == HandleChat(req, retrieve', chat')
    ensures HandleChat(req, retrieve, chat).status == 400
  {
  }

  /** The statuses `/chat` can answer with. */
  lemma ChatStatuses(req: ChatRequest, retrieve: (string, string) -> Retrieval, chat: (Provider, ChatPrompt) -> Outcome<string>)
    ensures HandleChat(req, retrieve, chat).status in {200, 400, 401, 500}
    ensures HandleChat(req, retrieve, chat).status == 500 ==> HandleChat(req, retrieve, chat).body == ChatBody(ChatFallback)
  {
  }

  // ---------------------------------------------------------------- /embed-receipt

  /** The JSON body of `/embed-receipt`. `receiptData` is None when missing, null or empty. */
  datatype EmbedRequest = EmbedRequest(userId: Option<string>, receiptId: Option<string>, receiptData: Option<ReceiptData>)

  /** How many of the first `n` chunks the store accepted. */
  function StoredCount(chunks: seq<string>, store: (nat, string) -> bool, n: nat): (c: nat)
    requires n <= |chunks|
    ensures c <= n
  {
    if n == 0 then 0 else StoredCount(chunks, store, n - 1) + (if store(n - 1, chunks[n - 1]) then 1 else 0)
  }

  /** All `n` chunks were stored exactly when the count reaches `n`. */
  lemma {:induction false} AllStoredIff(chunks: seq<string>, store: (nat, string) -> bool, n: nat)
    requires n <= |chunks|
    ensures StoredCount(chunks, store, n) == n <==> forall i :: 0 <= i < n ==> store(i, chunks[i])
  {
    if n > 0 {
      AllStoredIff(chunks, store, n - 1);
    }
  }

  /** The status once the chunks are stored: nothing to store, all stored, or only some. */
  function EmbedStatus(stored: nat, total: nat): nat {
    if total == 0 then 200 else if stored == total then 201 else 207
  }

  /** The success counting loop of `embed_receipt`. `store(i, chunk)` is whether
      `store_receipt_embedding` reported chunk `i` stored. */
  method CountStored(chunks: seq<string>, store: (nat, string) -> bool) returns (count: nat)
    ensures count == StoredCount(chunks, store, |chunks|)
    ensures count <= |chunks|
  {
    count := 0;
    for i := 0 to |chunks|
      invariant count == StoredCount(chunks, store, i)
    {
      if store(i, chunks[i]) {
        count := count + 1;
      }
    }
  }

  /** `POST /embed-receipt`. */
  method HandleEmbed(req: EmbedRequest, store: (nat, string) -> bool) returns (resp: Response)
    ensures Falsy(req.userId) || Falsy(req.receiptId) || req.receiptData.None? ==>
              resp == Response(400, ErrorBody("Missing userId, receiptId, or receiptData"))
    ensures !(Falsy(req.userId) || Falsy(req.receiptId) || req.receiptData.None?) ==>
              var chunks := ChunkReceiptText(req.receiptData.value);
              var n := StoredCount(chunks, store, |chunks|);
              && resp.status == EmbedStatus(n, |chunks|)
              && (resp.status == 201 ==>
                    resp.body == MessageBody("Successfully embedded " + NatToString(n) + " chunks for receipt "
                                             + req.receiptId.value))
              && (resp.status == 207 ==>
                    resp.body == WarningBody("Partially embedded " + NatToString(n) + "/" + NatToString(|chunks|)
                                             + " chunks for receipt " + req.receiptId.value))
  {
    if Falsy(req.userId) || Falsy(req.receiptId) || req.receiptData.None? {
      return Response(400, ErrorBody("Missing userId, receiptId, or receiptData"));
    }
    var id := req.receiptId.value;
    var chunks := ChunkReceiptText(req.receiptData.value);
    if |chunks| == 0 {
      // `chunk_receipt_text` always yields the summary chunk, so the 200 answer
      // "No text chunks to embed" is never sent.
      assert false;
    }
    var count := CountStored(chunks, store);
    if count == |chunks| {
      resp := Response(201, MessageBody("Successfully embedded " + NatToString(count) + " chunks for receipt " + id));
    } else {
      resp := Response(207, WarningBody("Partially embedded " + NatToString(count) + "/" + NatToString(|chunks|)
                                        + " chunks for receipt " + id));
    }
  }

  /** A valid request is answered 201 when every chunk was stored and 207 otherwise; the
      200 "nothing to embed" answer cannot happen, since every receipt yields a summary chunk. */
  lemma EmbedStatusRule(d: ReceiptData, store: (nat, string) -> bool)
    ensures var chunks := ChunkReceiptText(d);
            var status := EmbedStatus(StoredCount(chunks, store, |chunks|), |chunks|);
            && status != 200
            && (status == 201 <==> forall i :: 0 <= i < |chunks| ==> store(i, chunks[i]))
            && (status == 207 <==> exists i :: 0 <= i < |chunks| && !store(i, chunks[i]))
  {
    var chunks := ChunkReceiptText(d);
    ChunkLayout(d);
    AllStoredIff(chunks, store, |chunks|);
  }
}

# Receipt service core, modelled in Dafny

This project models the deterministic core of the receipt microservice
(`microservices/receipt-service`). The microservice:

- reads receipt images with a Gemini or OpenAI model;
- falls back from one provider to the other;
- reviews spending and answers chat questions with retrieved receipt context;
- embeds receipts for that retrieval.

A separate backfill script re-embeds every stored receipt.

Every external call is a parameter of the model rather than code, so each lemma holds whatever the outside world answers. These calls are:

- the LLM replies;
- the JSON decoder's view of a reply;
- the token counter;
- the date and price parsers;
- the embedding store;
- the vector search;
- the database delete;
- the HTTP post.

Modules, one per concern of the program:

- `Wrappers`: Option/Result.
- `Pairs`: dictionaries as ordered key/value lists.
- `Text`: Python's `strip`, `rstrip`, `lower`, `upper`, `split` and `join`, and digit strings.
- `Dates`: the two `strftime` layouts and their read-back.
- `Receipts`: `Receipt.py`, which covers category validation, cost and quantity normalisation, the non-empty check, `to_dict` and the JSON encoder.
- `Chunking`: `chunk_receipt_text`.
- `Retry`: a generic bounded attempt loop. This is `for attempt_num in range(max_retry)` with a per-attempt step that either stops with an outcome or continues with a new conversation.
- `Conversation`: `append_message` and `get_token_limit`.
- `Replies`: what one JSON answer means to a parser or a reviewer.
- `OpenAi` and `Gemini`: the parse, review and chat retry policies of each provider.
- `Routing`: `allowed_file`, the "default provider first" ordering, and the provider fallback loop.
- `Service`: the `/review`, `/upload`, `/chat` and `/embed-receipt` handlers and the receipt formatter.
- `Backfill`: the Mongo URI rewrite, `format_date`, the payload and the counter accounting of `backfill_embeddings.py`.

Where the code and its comments or docstrings disagree, the model follows the code:

- The `validate_non_empty` comment suggests stripped values are checked. The code overwrites the stripped value (`Receipt.py:149-150`), so a whitespace-only merchant name is accepted. Since every other attribute is truthy, only an empty merchant name is rejected.
- The `rag_utils.py:147` comment says the date is YYYY-MM-DD "or None". A null date renders as the text `None` in the summary chunk, and the model does the same.
- In `/embed-receipt` the 200 "no chunks" branch is unreachable: every generated chunk is longer than five characters, so the filter keeps at least the summary chunk (`Service.EmbedStatusRule`).

All source paths below are relative to `microservices/receipt-service/` in the repository, and the table cells repeat that prefix.

## Model

| member | source | states |
|---|---|---|
| Receipts.FindByValue | microservices/receipt-service/Receipt.py:24 | `Category(value)`: the member found carries that value; None means no member of the list carries it |
| Receipts.FindByName | microservices/receipt-service/Receipt.py:75 | the member found carries that enum name; None means no member carries it |
| Receipts.EveryCategoryIsAMember | microservices/receipt-service/Receipt.py:11-19 | the enumeration lists every one of the eight categories |
| Receipts.Lookup | microservices/receipt-service/Receipt.py:24 | the category whose value is the given string, None exactly when no category has that value (the ValueError path) |
| Receipts.ListedValues | microservices/receipt-service/Receipt.py:29 | the listed values never include `Invalid` and are no more than the categories |
| Receipts.ValidateCategory | microservices/receipt-service/Receipt.py:21-29 | succeeds iff the value is one of the seven non-Invalid values, returning that member; `'Invalid'` and unknown strings raise ReceiptError on field `category` with their two distinct messages |
| Receipts.ListedCategories | microservices/receipt-service/Receipt.py:29 | the unknown-category message lists exactly Transport, Clothing, Healthcare, Food, Leisure, Housing, Others in enum order |
| Receipts.Truncate | microservices/receipt-service/Receipt.py:125 | Python `int(float)`: rounds toward zero, for negative values too |
| Receipts.CoerceQuantity | microservices/receipt-service/Receipt.py:116-137 | ints (and bools) unchanged; strings with `'.'` truncated through float; other strings `int(s)`; finite floats truncated; other types, unparsable strings, a NaN float and a `'.'` string that float() rejects or reads as NaN give 1; only an infinite float escapes, as OverflowError |
| Receipts.CostText | microservices/receipt-service/Receipt.py:109-111 | a missing or empty `item_cost` becomes `'0.00'`; any other cost is kept |
| Receipts.ParseTotalCost | microservices/receipt-service/Receipt.py:95-102 | succeeds iff the price parser finds an amount; otherwise ReceiptError on `total_cost` with the message naming the input |
| Receipts.ParseDate | microservices/receipt-service/Receipt.py:85-93 | the literal `"None"` means today; otherwise succeeds iff the date parser does, failing with ReceiptError on `date` |
| Receipts.ParseItem | microservices/receipt-service/Receipt.py:107-137 | an item parses iff its defaulted cost has an amount and its quantity coerces; the name is kept; a bad cost is a `total_cost` ReceiptError, and an infinite quantity after a good cost is an uncaught OverflowError |
| Receipts.ParseItemizedList | microservices/receipt-service/Receipt.py:104-139 | succeeds iff every item parses; then same length, order and names, each entry its own item parsed; a failure is the first failing item's error |
| Receipts.ListTempWithoutStrings | microservices/receipt-service/Receipt.py:145-148 | a list with no string entries leaves `temp` as it was |
| Receipts.ReceiptAttributesChecked | microservices/receipt-service/Receipt.py:141-153 | walking the receipt's attributes in order raises only for an empty merchant name |
| Receipts.ValidateNonEmpty | microservices/receipt-service/Receipt.py:141-153 | fails iff the merchant name is the empty string, with ReceiptError on `merchant_name` |
| Receipts.BlankFieldsAccepted | microservices/receipt-service/Receipt.py:143-150 | a blank merchant name, whose strip is empty, and an empty item list both pass |
| Receipts.BuildReceipt | microservices/receipt-service/Receipt.py:50-58 | the constructor succeeds iff date, total, category, items and the non-empty check all pass; keeps name, category value and parsed total; the date is today for "None" and otherwise the parsed date; each item is that raw item parsed, in order; on failure the first failing check decides the exception: the date error, the `total_cost` error, the category error, a TypeError for a null item list, the first failing item's error, then the `merchant_name` error; the only uncaught kinds are TypeError and OverflowError |
| Pairs.Keys | microservices/receipt-service/Receipt.py:60-67 | the keys of a dictionary, in insertion order |
| Pairs.Lookup | microservices/receipt-service/backfill_embeddings.py:42-44 | `d.get(key)` finds a value iff the key occurs |
| Pairs.LookupAt | microservices/receipt-service/Receipt.py:60-67 | the lookup returns the value of the key's first occurrence |
| Pairs.LookupCons | microservices/receipt-service/backfill_embeddings.py:42-44 | a pair at the front is seen first by every lookup; the keys gain it at the front |
| Receipts.ItemToDict | microservices/receipt-service/Receipt.py:41-46 | an item becomes a dict with exactly item_name, item_cost, item_quantity in that order |
| Receipts.ItemsToJson | microservices/receipt-service/Receipt.py:66 | the item list maps entrywise to item dictionaries |
| Receipts.ReceiptToDict | microservices/receipt-service/Receipt.py:60-67 | exactly the keys merchant_name, date, total_cost, category, itemized_list; category is the enum name; one dict per item |
| Receipts.ItemRoundTrip | microservices/receipt-service/Receipt.py:41-46 | an item dict reads back to the item |
| Receipts.ItemsRoundTrip | microservices/receipt-service/Receipt.py:66 | the item list reads back from its dictionaries |
| Receipts.NameInjective | microservices/receipt-service/Receipt.py:11-19 | distinct categories have distinct enum names |
| Receipts.CategoryFromName | microservices/receipt-service/Receipt.py:74-75 | a category is recovered from its enum name |
| Receipts.ReceiptKeysFound | microservices/receipt-service/Receipt.py:60-67 | each of the five receipt keys finds its own value in the `to_dict` layout |
| Receipts.ReceiptDictFields | microservices/receipt-service/Receipt.py:60-83 | `to_dict` holds the merchant name, the day-first date, the total, the category name and the item dicts under their keys |
| Receipts.ToDictRoundTrip | microservices/receipt-service/Receipt.py:60-83 | for a valid date, `to_dict` loses nothing: reading it back gives the receipt |
| Receipts.EncoderDefault | microservices/receipt-service/Receipt.py:160-169 | Receipt and Item encode as their `to_dict`, an Enum as its value, anything else fails with the base encoder's TypeError |
| Receipts.EnumEncodingDiffersFromDictCategory | microservices/receipt-service/Receipt.py:73-75 | a category encoded on its own (its value) differs from the category inside `to_dict` (its name) |
| Dates.FormatDayFirst | microservices/receipt-service/Receipt.py:69-71 | `%d/%m/%Y`: ten characters with slashes at positions 2 and 5 |
| Dates.FormatIso | microservices/receipt-service/backfill_embeddings.py:75 | `%Y-%m-%d`: ten characters with dashes at positions 4 and 7 |
| Dates.DayFirstRoundTrip | microservices/receipt-service/Receipt.py:69-71 | a valid date reads back from its day-first text |
| Dates.IsoRoundTrip | microservices/receipt-service/backfill_embeddings.py:75 | a valid date reads back from its ISO text |
| Chunking.ItemChunks | microservices/receipt-service/rag_utils.py:163-170 | one item chunk per entry, in input order |
| Chunking.KeepMeaningful | microservices/receipt-service/rag_utils.py:173 | an order-preserving subsequence holding only chunks whose stripped length exceeds 5, and every such chunk; all of them when all qualify |
| Chunking.KeepMeaningfulCounts | microservices/receipt-service/rag_utils.py:173 | the filter keeps each chunk whose stripped length exceeds 5 exactly as many times as the input holds it, and no other chunk |
| Chunking.SummaryMeaningful | microservices/receipt-service/rag_utils.py:152 | the summary chunk always passes the filter |
| Chunking.MerchantMeaningful | microservices/receipt-service/rag_utils.py:156 | the merchant chunk always passes the filter |
| Chunking.CategoryMeaningful | microservices/receipt-service/rag_utils.py:160 | the category chunk always passes the filter |
| Chunking.ItemMeaningful | microservices/receipt-service/rag_utils.py:170 | an item chunk always passes the filter |
| Chunking.HeadMeaningful | microservices/receipt-service/rag_utils.py:151-160 | the labelled chunks all pass the filter |
| Chunking.GeneratedChunksAreMeaningful | microservices/receipt-service/rag_utils.py:151-173 | every generated chunk passes the filter |
| Chunking.ChunkReceiptText | microservices/receipt-service/rag_utils.py:143-176 | the result is the filtered subsequence of the generated chunks, and equals all of them |
| Chunking.ChunkLayout | microservices/receipt-service/rag_utils.py:146-170 | 1 + [merchant ≠ N/A] + [category ≠ N/A] + #items chunks: the summary first, then the merchant and category chunks, then one chunk per item in order |
| Chunking.LabelledChunksPresence | microservices/receipt-service/rag_utils.py:154-160 | a Merchant chunk is present iff the merchant is not N/A, and likewise a Category chunk |
| Conversation.AppendMessage | microservices/receipt-service/gpt4o.py:116-120 | succeeds iff the role is user, system or assistant; then exactly one entry is added at the end; otherwise ValueError and the list is unchanged |
| Conversation.Append | microservices/receipt-service/gpt4o.py:120 | for an accepted role, the list gains that one message at the end |
| Conversation.TokenLimit | microservices/receipt-service/gpt4o.py:101-109 | 128000 exactly for gpt-4o-mini, gpt-4o and gpt-4-turbo; no limit (KeyError) otherwise |
| Replies.Judge | microservices/receipt-service/gpt4o.py:74-87 | not-a-receipt iff the category is `'Invalid'`; a receipt iff the constructor accepts the reply; a constructor ReceiptError retries with its text and any other constructor exception escapes; a mismatched key set is a TypeError; undecodable JSON retries or escapes by provider; a missing category is a KeyError |
| Replies.WellFormedReplyParsesIffAcceptable | microservices/receipt-service/gpt4o.py:79-86 | a well-formed non-Invalid reply parses iff the receipt is acceptable; an unknown category always retries |
| Replies.JudgeReview | microservices/receipt-service/gpt4o.py:224-237 | insights iff status is true; status false asks for another attempt; undecodable JSON and missing keys escape |
| Retry.Attempts | microservices/receipt-service/gpt4o.py:58-99 | the attempts from number k on satisfy the loop's description |
| Retry.ExplainsUnique | microservices/receipt-service/gpt4o.py:58-99 | the loop's description fixes the run: one outcome and one sequence of conversations |
| Retry.StopIsLast | microservices/receipt-service/gpt4o.py:58-99 | an attempt that stops is the last one made |
| Retry.StopsWith | microservices/receipt-service/gpt4o.py:58-99 | an attempt that stops with an outcome is the last one, and the run ends with that outcome |
| Retry.Loop | microservices/receipt-service/gpt4o.py:58-99 | at most `max_retry` attempts, each one's step applied to the conversation it is given |
| Retry.NoAttempts | microservices/receipt-service/gpt4o.py:99 | with `max_retry` 0 nothing is sent and the result is None |
| Retry.FirstStopEnds | microservices/receipt-service/gpt4o.py:58-85 | a first attempt that stops is the only one |
| Retry.Budgeted | microservices/receipt-service/gpt4o.py:89-97 | after a failed attempt, retry iff it was not the last and used + feedback + buffer tokens fit the limit; an unknown limit raises |
| Retry.ChainLength | microservices/receipt-service/gpt4o.py:72-97 | a conversation that grows by d messages per retry has d·(j−i) more messages after j−i retries |
| Retry.ChainStartsWith | microservices/receipt-service/gpt4o.py:72-97 | each retry keeps every earlier message as a prefix |
| Retry.MulStep | microservices/receipt-service/gpt4o.py:72-97 | one more retry adds d messages |
| OpenAi.LimitOf | microservices/receipt-service/gpt4o.py:101-109 | the token limit of the configured model, or KeyError |
| OpenAi.ImageParts | microservices/receipt-service/gpt4o.py:51-54 | one image part per page, in order |
| OpenAi.ParseVerdict | microservices/receipt-service/gpt4o.py:74-86 | a JSONDecodeError is not caught by `except ReceiptError` and leaves `parse` |
| OpenAi.ParseStep | microservices/receipt-service/gpt4o.py:58-97 | auth failure raises APIKeyError; any other request failure raises; a parsed reply is returned; `'Invalid'` returns None; a fatal verdict raises its exception; a ReceiptError retries iff budget and attempts allow, appending the answer and the error text, returns None iff this was the last attempt or the budget is exceeded, and otherwise raises KeyError for a model without a token limit |
| OpenAi.Parse | microservices/receipt-service/gpt4o.py:42-99 | at most `max_retry` requests following the parse step from the opening conversation |
| OpenAi.ParseConversation | microservices/receipt-service/gpt4o.py:49-97 | system then user message first; the j-th request carries 2j more messages, the earlier ones as prefix; each retry appends assistant answer and user error |
| OpenAi.ParseRunSteps | microservices/receipt-service/gpt4o.py:58-97 | every attempt of the run is one parse step on its own conversation |
| OpenAi.ParseReturnsLastVerdict | microservices/receipt-service/gpt4o.py:83-85 | a returned receipt is the verdict on the last answer |
| OpenAi.ParseApiKeyError | microservices/receipt-service/gpt4o.py:66-68 | APIKeyError iff the last request failed authentication |
| OpenAi.ParseStopsOnInvalid | microservices/receipt-service/gpt4o.py:79-81 | an `'Invalid'` answer ends the loop at once with None |
| OpenAi.ReviewStep | microservices/receipt-service/gpt4o.py:207-237 | auth failure raises; any other request failure raises; status true returns the insights; a fatal verdict raises; status false retries iff budget and attempts allow, appending answer and error response, returns None iff this was the last attempt or the budget is exceeded, and otherwise raises KeyError for a model without a token limit |
| OpenAi.Review | microservices/receipt-service/gpt4o.py:196-239 | at most `max_retry` requests following the review step |
| OpenAi.ReviewOutcome | microservices/receipt-service/gpt4o.py:196-239 | returned insights come from the last answer; APIKeyError iff the last request failed auth; every earlier answer had status false and was followed by the error response |
| OpenAi.ChatStep | microservices/receipt-service/gpt4o.py:171-193 | the first completion is returned; auth failure raises; other errors retry until the last attempt, then None |
| OpenAi.Chat | microservices/receipt-service/gpt4o.py:152-194 | at most `max_retry` requests, all from the single user prompt |
| OpenAi.ChatOutcome | microservices/receipt-service/gpt4o.py:152-194 | every request is the prompt alone; earlier ones failed; the answer is the last completion; None only after `max_retry` failures |
| OpenAi.ChatStaysOnPrompt | microservices/receipt-service/gpt4o.py:167-177 | a retry never changes the messages sent |
| Gemini.ModelInfo | microservices/receipt-service/gemini.py:87-91 | InvalidArgument 400 with "API key not valid" becomes APIKeyError; any other InvalidArgument is swallowed leaving no model info; other errors escape |
| Gemini.LimitOf | microservices/receipt-service/gemini.py:132-135 | the model's input token limit, or AttributeError when the model info was never set |
| Gemini.ParseVerdict | microservices/receipt-service/gemini.py:113-125 | a JSONDecodeError is retryable here, unlike the OpenAI parser |
| Gemini.ParseStep | microservices/receipt-service/gemini.py:102-143 | a send failure raises; a parsed reply is returned; `'Invalid'` returns None; a fatal verdict raises; a retryable error retries iff budget and attempts allow, sending one feedback message, returns None iff this was the last attempt or the budget is exceeded, and otherwise raises AttributeError when `model_info` is unset |
| Gemini.ParseLoop | microservices/receipt-service/gemini.py:99-145 | at most `max_retry` sends following the parse step from the opening message |
| Gemini.Parse | microservices/receipt-service/gemini.py:87-145 | a failed model lookup ends construction before any send; APIKeyError iff the lookup reported an invalid key |
| Gemini.ParseRequests | microservices/receipt-service/gemini.py:100-142 | the j-th send sees j+1 messages starting with the opening one; each retry appends exactly the feedback |
| Gemini.EarlierRequestsKept | microservices/receipt-service/gemini.py:105-142 | later sends keep every earlier message |
| Gemini.ParseRunSteps | microservices/receipt-service/gemini.py:102-143 | every attempt of the run is one parse step |
| Gemini.ParseReturnsLastVerdict | microservices/receipt-service/gemini.py:120-123 | a returned receipt is the verdict on the last answer |
| Gemini.ParseLoopRaises | microservices/receipt-service/gemini.py:131-135 | the loop never raises APIKeyError; without model info a retryable error that is not the last ends in AttributeError |
| Gemini.ParseStopsOnInvalid | microservices/receipt-service/gemini.py:116-118 | an `'Invalid'` answer ends the loop at once with None |
| Gemini.ReviewStep | microservices/receipt-service/gemini.py:240-262 | a send failure raises; status true returns the insights; a fatal verdict raises; status false retries iff budget and attempts allow, sending the error response, returns None iff this was the last attempt or the budget is exceeded, and otherwise raises AttributeError when `model_info` is unset |
| Gemini.Review | microservices/receipt-service/gemini.py:190-263 | lookup failure ends before any send; otherwise at most `max_retry` sends following the review step |
| Gemini.ReviewOutcome | microservices/receipt-service/gemini.py:190-263 | APIKeyError iff the key was rejected; insights come from the last answer; every earlier answer had status false and was followed by the error response |
| Gemini.ChatStep | microservices/receipt-service/gemini.py:216-233 | the first answer is returned; any failure retries until the last attempt, then None |
| Gemini.Chat | microservices/receipt-service/gemini.py:190-234 | lookup failure ends before any send; otherwise at most `max_retry` sends of the prompt |
| Gemini.ChatStaysOnPrompt | microservices/receipt-service/gemini.py:214-220 | every send is the prompt alone |
| Gemini.ChatOutcome | microservices/receipt-service/gemini.py:199-234 | raises iff the lookup failed; earlier sends failed; the answer is the last one's text; None only after `max_retry` failures |
| Routing.AllowedFileIff | microservices/receipt-service/receiptservice.py:30-34 | `allowed_file` holds iff the name has a `'.'` and the lowercased text after the last one is png, jpg, jpeg or pdf |
| Routing.LastDotUnique | microservices/receipt-service/receiptservice.py:34 | there is only one last `'.'` |
| Routing.NoDotRefused | microservices/receipt-service/receiptservice.py:33 | a name without `'.'` is refused |
| Routing.Named | microservices/receipt-service/receiptservice.py:80 | the providers whose name does (or does not) match, in order |
| Routing.OrderProviders | microservices/receipt-service/receiptservice.py:74-80 | the ordering is a permutation of the providers |
| Routing.NamedPartition | microservices/receipt-service/receiptservice.py:80 | matching and non-matching providers together are all providers |
| Routing.OrderIsStableSort | microservices/receipt-service/receiptservice.py:80 | matching providers come first, and both groups keep their relative order |
| Routing.NamedOfNamed | microservices/receipt-service/receiptservice.py:80 | selecting a group twice changes nothing |
| Routing.NamedNone | microservices/receipt-service/receiptservice.py:80 | a group with no members selects nothing |
| Routing.NamedAppend | microservices/receipt-service/receiptservice.py:80 | group selection distributes over concatenation |
| Routing.StableSortUnique | microservices/receipt-service/receiptservice.py:80 | any order with the match first and both groups in place is exactly the match group followed by the rest |
| Routing.SortedSplits | microservices/receipt-service/receiptservice.py:80 | an order with the match first splits into its two groups |
| Routing.NoMatchKeepsOrder | microservices/receipt-service/receiptservice.py:80 | if no name matches `defaultModel.upper()` the order is unchanged |
| Routing.NamedAll | microservices/receipt-service/receiptservice.py:80 | a group holding everything selects everything |
| Routing.KeyErrorNames | microservices/receipt-service/receiptservice.py:99-100 | at most one name per provider tried |
| Routing.Route | microservices/receipt-service/receiptservice.py:82-105 | stops at the first eligible provider that answers or whose API-key failure is last-named; `'UNSET'` providers are never called; no answer iff every provider passed |
| Routing.UnauthorizedModels | microservices/receipt-service/receiptservice.py:99-102 | a 401 lists every provider that raised APIKeyError up to and including the stopping one |
| Routing.SkipStep | microservices/receipt-service/receiptservice.py:86-88 | skipping an `'UNSET'` provider adds no name to the 401 list |
| Routing.DecisiveStep | microservices/receipt-service/receiptservice.py:97-102 | the provider that ends the loop contributes its own name to the 401 list |
| Routing.ModelsStep | microservices/receipt-service/receiptservice.py:99-105 | a provider that fails without ending the loop adds its name only for an APIKeyError |
| Routing.FirstDecisiveWins | microservices/receipt-service/receiptservice.py:85-105 | the first eligible decisive provider ends the loop with its answer or its 401 |
| Routing.OnlyCalledProvidersMatter | microservices/receipt-service/receiptservice.py:85-98 | providers after the stop, and skipped ones, do not influence the result |
| Routing.UnauthorizedAtLastName | microservices/receipt-service/receiptservice.py:99-102 | a 401 happens only at a provider named like the last one, after its APIKeyError, listing the names collected so far |
| Routing.SkippedLastNeverUnauthorized | microservices/receipt-service/receiptservice.py:86-102 | when the uniquely named last provider is `'UNSET'`, no 401 is possible |
| Routing.DefaultProviderAnswers | microservices/receipt-service/receiptservice.py:79-98 | an eligible default provider that answers is the one used, first |
| Service.FormatItems | microservices/receipt-service/receiptservice.py:67-68 | the loop builds one `"  - name: qty x $cost"` line per item |
| Service.FormatReceipts | microservices/receipt-service/receiptservice.py:59-70 | the loop builds the per-receipt blocks and right-strips the whole text |
| Service.ReceiptTextEnds | microservices/receipt-service/receiptservice.py:70 | the text never ends in whitespace and is empty for no receipts |
| Service.ReceiptTextOpens | microservices/receipt-service/receiptservice.py:61-66 | the text opens with the first receipt's Merchant, Date, Category, Total Cost and Itemized List lines |
| Service.BlocksStartWith | microservices/receipt-service/receiptservice.py:61-66 | the unstripped text opens the same way |
| Service.ReviewCheck | microservices/receipt-service/receiptservice.py:49-57 | 400 iff defaultModel is falsy, both keys are missing or `'UNSET'`, or receipts are missing; each case, taken in source order, has its own message |
| Service.HandleReview | microservices/receipt-service/receiptservice.py:36-116 | after the checks, the routed answer is 200 with the insights, a 401 lists the key errors, and no answer gives the standard advice with 200 |
| Service.ReviewChecksFirst | microservices/receipt-service/receiptservice.py:49-57 | a rejected request answers 400 without any provider influencing it |
| Service.ReviewStatuses | microservices/receipt-service/receiptservice.py:49-116 | the status is 200, 400 or 401, and 400 exactly for a rejected request |
| Service.ReviewDefaultAnswers | microservices/receipt-service/receiptservice.py:74-98 | an eligible default provider that answers gives 200 with its insights |
| Service.UploadCheck | microservices/receipt-service/receiptservice.py:121-143 | 400 iff no file, an empty name, a falsy defaultModel, no usable key, or a refused extension; each case, taken in source order, has its own message |
| Service.HandleUpload | microservices/receipt-service/receiptservice.py:119-196 | after the checks, and given that the file's image conversion succeeds, a parsed receipt is 200 with its `to_dict`, a 401 lists the key errors, no answer is 400 |
| Service.UploadChecksFirst | microservices/receipt-service/receiptservice.py:121-143 | a rejected upload answers 400 without any parser influencing it |
| Service.UploadAnswerFromProvider | microservices/receipt-service/receiptservice.py:175-194 | a 200 body is the `to_dict` of a receipt some provider returned |
| Service.ContextText | microservices/receipt-service/receiptservice.py:274-291 | no embedding and no documents give their fixed texts; documents give the lead line, then one line per document in order, with only the final line break stripped |
| Service.ContextListsEveryDoc | microservices/receipt-service/receiptservice.py:286-289 | every retrieved document appears in the context as `- chunk (Relevance score: score)` |
| Service.LeadSurvivesStrip | microservices/receipt-service/receiptservice.py:286-289 | stripping keeps the lead line and leaves no trailing whitespace |
| Service.FormatHistory | microservices/receipt-service/receiptservice.py:298 | an empty history formats as the empty string |
| Service.HistoryLines | microservices/receipt-service/receiptservice.py:298 | one line per history entry, `SENDER: content` with the sender upper-cased |
| Service.ChatCheck | microservices/receipt-service/receiptservice.py:263-269 | 400 iff userId or message is falsy, defaultModel is falsy, or no key is usable; the first two and the last two share their messages |
| Service.HandleChat | microservices/receipt-service/receiptservice.py:243-359 | after the checks, the prompt is built from history, context and message; an answer is 200, a 401 lists key errors, no answer is 500 with the apology |
| Service.ChatChecksFirst | microservices/receipt-service/receiptservice.py:263-269 | a rejected chat answers 400 without retrieval or any provider influencing it |
| Service.ChatStatuses | microservices/receipt-service/receiptservice.py:263-359 | the status is 200, 400, 401 or 500; a 500 carries the apology text |
| Service.StoredCount | microservices/receipt-service/receiptservice.py:226-229 | the number of chunks stored never exceeds the chunks tried |
| Service.AllStoredIff | microservices/receipt-service/receiptservice.py:226-232 | every chunk stored iff the count equals the chunk total |
| Service.CountStored | microservices/receipt-service/receiptservice.py:226-229 | the loop counts the successful stores |
| Service.HandleEmbed | microservices/receipt-service/receiptservice.py:198-237 | missing ids or data give 400; otherwise the status follows the stored count, with the 201 and 207 messages naming the counts and the receipt |
| Service.EmbedStatusRule | microservices/receipt-service/receiptservice.py:221-237 | never 200 for a real receipt; 201 iff every chunk was stored; 207 iff some chunk was not |
| Backfill.RewritePath | microservices/receipt-service/backfill_embeddings.py:34-39 | the path is kept iff its second `/`-segment is the database, otherwise replaced by `/` + database |
| Backfill.RewrittenPathNamesDatabase | microservices/receipt-service/backfill_embeddings.py:34-39 | the rewritten path always names the database in its second segment |
| Backfill.SlashNameSplits | microservices/receipt-service/backfill_embeddings.py:37 | `/` + database splits into an empty segment and the database |
| Backfill.RewritePathIdempotent | microservices/receipt-service/backfill_embeddings.py:34-39 | rewriting twice is rewriting once |
| Backfill.SetParam | microservices/receipt-service/backfill_embeddings.py:44 | the key now maps to the new values; every other key keeps its values; a new key is added last |
| Backfill.ForceDirectConnection | microservices/receipt-service/backfill_embeddings.py:43-44 | `directConnection` is `['true']` afterwards, whatever it was; other parameters are preserved |
| Backfill.SetParamIdempotent | microservices/receipt-service/backfill_embeddings.py:44 | setting the same parameter twice is setting it once |
| Backfill.FormatDate | microservices/receipt-service/backfill_embeddings.py:69-79 | a falsy date gives None; an unparsable one gives None; otherwise the ISO form of the parsed date |
| Backfill.FormatDateReadsBack | microservices/receipt-service/backfill_embeddings.py:69-79 | the formatted date reads back as the parsed date |
| Backfill.BuildPayload | microservices/receipt-service/backfill_embeddings.py:102-114 | the payload carries the user id, the receipt id and the formatted date; merchant, total and category are copied unchanged; a missing item list is sent as empty, a null one as null, a present one unchanged |
| Backfill.PostSucceeded | microservices/receipt-service/backfill_embeddings.py:129-144 | a post succeeds iff it responded with 200, 201 or 207 |
| Backfill.Count | microservices/receipt-service/backfill_embeddings.py:89-90 | a counter never exceeds the receipts seen |
| Backfill.Fates | microservices/receipt-service/backfill_embeddings.py:92-146 | one fate per receipt |
| Backfill.RunBackfill | microservices/receipt-service/backfill_embeddings.py:82-146 | the loop's processed and error counters equal the counts of processed and failed fates |
| Backfill.Accounting | microservices/receipt-service/backfill_embeddings.py:89-146 | processed + skipped + delete failures = receipts; errors + successes = receipts; errors = skips + delete failures + failed posts |
| Backfill.FatesByReceipt | microservices/receipt-service/backfill_embeddings.py:96-146 | a bad id or falsy userId is skipped; a failed delete stops the receipt; otherwise it is posted and counted processed, succeeding iff the post succeeded |
| Text.LStrip | microservices/receipt-service/rag_utils.py:173 | removes exactly the leading whitespace |
| Text.RStrip | microservices/receipt-service/receiptservice.py:70 | removes exactly the trailing whitespace |
| Text.StripKeepsInner | microservices/receipt-service/rag_utils.py:173 | stripping a text that starts with a non-space keeps every non-space position |
| Text.RStripKeepsPrefix | microservices/receipt-service/receiptservice.py:70 | right-stripping keeps a prefix that ends in a non-space |
| Text.Lower | microservices/receipt-service/receiptservice.py:34 | lower-cases character by character |
| Text.Upper | microservices/receipt-service/receiptservice.py:80 | upper-cases character by character |
| Text.Contains | microservices/receipt-service/gemini.py:90 | substring test |
| Text.SplitOn | microservices/receipt-service/backfill_embeddings.py:34 | at least one piece, none containing the separator |
| Text.JoinSplit | microservices/receipt-service/backfill_embeddings.py:34 | joining the pieces gives back the text |
| Text.SplitWithoutSeparator | microservices/receipt-service/backfill_embeddings.py:34 | a text without the separator is one piece |
| Text.SplitAfterFirstPiece | microservices/receipt-service/backfill_embeddings.py:34 | splitting peels off the first piece |
| Text.SplitJoin | microservices/receipt-service/receiptservice.py:298 | splitting a join of separator-free pieces gives the pieces back |
| Text.AfterLast | microservices/receipt-service/receiptservice.py:34 | `rsplit('.', 1)[1]`: the suffix after the last separator, which it does not contain |
| Text.DigitChar | microservices/receipt-service/receiptservice.py:233 | a digit value's character is a digit |
| Text.DigitValue | microservices/receipt-service/receiptservice.py:233 | a digit character's value maps back to it |
| Text.Pow10 | microservices/receipt-service/Receipt.py:71 | powers of ten are positive |
| Text.Digits | microservices/receipt-service/Receipt.py:71 | a zero-padded field of exactly the given width, all digits |
| Text.DigitsRoundTrip | microservices/receipt-service/Receipt.py:71 | a zero-padded field reads back to its number |
| Text.NatToString | microservices/receipt-service/receiptservice.py:233 | a count renders as a non-empty digit string that reads back as the count and has no leading zero |

## Left out

The following are external calls. Each becomes a parameter. Its answer is otherwise unconstrained, but the parameter is total: the call always answers and never raises.

- the Gemini and OpenAI SDK calls, so an OpenAI reply whose `message.content` is None is not modelled;
- `tiktoken` and `count_tokens`, so a tokenizer that raises is not modelled;
- `json.loads`;
- `dateutil` parsing;
- `price_parser`;
- sentence-transformer embeddings and relevance scores;
- MongoDB, the vector search, `store_receipt_embedding` and `delete_many`;
- `requests.post`.

Other omissions:

- Flask, CORS, logging and `print` are not modelled. Handlers are functions from an abstract request record to a status and a body.
- Image handling is not modelled: PIL, `pdf2image`, `secure_filename` and base64 `encode_img`. Only the number of images reaches the OpenAI parser.
- The prompt, instruction, error-response and standard-advice texts are not reproduced:
  - the standard advice and the chat apology are named constants;
  - the chat prompt is a record of its three variable parts;
  - reviewer settings such as the error response are model parameters.
- `Exceptions.py` and `ReceiptReview.py` are not part of this model. The reviewer's `max_retry`, `buffer` and `error_response` are fields of `Settings`. The parser defaults, 4 and 2048, come from `ReceiptParser.py:4`.
- `delete_embeddings` is not modelled: it is database I/O and references an undefined `embeddings_collection` (receiptservice.py:377).
- The 500 "internal error" branches of `/embed-receipt` and `/chat` catch exceptions that only ill-typed request data can raise, such as a history entry without `sender`. The same goes for a KeyError on a receipt without `merchantName` in `/review`. Request records are typed, so these paths are absent.
- Python's `str()` of an exception, of a price amount and of a quantity are given as text by the oracles.
- Case mapping covers ASCII letters only. Python's `lower()`/`upper()` also map other scripts.
- `%Y` is modelled as four zero-padded digits, which is right only for years 1000–9999.
- The URI is modelled as its path and its parsed query. `urlparse`, `urlunparse` and `urlencode` quoting are not modelled. The query is kept in `parse_qs` order.
- Service.PyListRepr: the 401 message shows the model names the way Python prints a list of strings. It assumes names without quotes or backslashes, which holds for GEMINI and OPENAI.
- Backfill.RewrittenPathNamesDatabase: assumes the database name has no `/`, since the name comes from configuration.
- Backfill.RewritePathIdempotent: assumes the database name has no `/`.
- Backfill.SetParamIdempotent: does not model `urlencode` putting repeated values on separate pairs.
- Service.FormatHistory: its own contract states only the empty case. The line structure is in `Service.HistoryLines`, which assumes no newline inside an entry.
- Receipts.ValidateNonEmpty: a JSON null merchant name is not modelled, because the response schema requires a string.
- Gemini.ParseVerdict: states only the decode-error case. The other cases are those of `Replies.Judge` with decode errors caught.
- OpenAi.ParseVerdict: states only the decode-error case. The other cases are those of `Replies.Judge` with decode errors escaping.
- Service.HandleUpload: two ways the upload handler ends in an uncaught exception, a 500, are not modelled. First, the PDF or image conversion at receiptservice.py:148-153 runs outside any `try`, so an unreadable file raises there. Second, `secure_filename` can strip a name that passed `allowed_file` down to one without a dot: "日本.png" becomes "png". Then `rsplit('.', 1)[1]` at receiptservice.py:148 raises IndexError. The model assumes the conversion yields the images.
- Receipts.ParseItem: an item without an `item_name` key, or without an `item_quantity` key, raises a KeyError that nothing catches (Receipt.py:119 and Receipt.py:83). The raw item record always has both keys, as the response schema the parsers request demands, so this path is absent.
- Receipts.ValidateCategory: the two messages assume that `ReceiptError` does not derive from `ValueError`. `Exceptions.py`, where it is defined, is not part of this model. Were it a `ValueError`, the `except ValueError` at Receipt.py:27 would catch the `'Invalid'` error raised at Receipt.py:25 and replace it with the unknown-category message.

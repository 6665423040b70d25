/**
  `chunk_receipt_text` (`rag_utils.py`): turns a receipt dictionary into the
  ordered text pieces that are embedded for retrieval.
 */
module Chunking {
  import opened Wrappers
  import opened Text

  /** One `itemizedList` entry. None marks a missing key; a present value is
      given as Python's `str()` renders it (so a null value reads "None"). */
  datatype ChunkItem = ChunkItem(itemName: Option<string>, itemQuantity: Option<string>, itemCost: Option<string>)

  /** The `receiptData` dictionary, with the same conventions as `ChunkItem`.
      `itemizedList` is None when the key is missing or holds null. */
  datatype ReceiptData = ReceiptData(
    merchantName: Option<string>,
    date: Option<string>,
    category: Option<string>,
    totalCost: Option<string>,
    itemizedList: Option<seq<ChunkItem>>)

  /** The default for a missing key. */
  const NA := "N/A"

  function Merchant(d: ReceiptData): string { d.merchantName.GetOr(NA) }
  function DateText(d: ReceiptData): string { d.date.GetOr(NA) }
  function CategoryText(d: ReceiptData): string { d.category.GetOr(NA) }
  function Total(d: ReceiptData): string { d.totalCost.GetOr(NA) }

  /** The entries iterated over: none when the list is missing, null or empty. */
  function Items(d: ReceiptData): seq<ChunkItem> { d.itemizedList.GetOr([]) }

  function SummaryChunk(merchant: string, date: string, category: string, total: string): string {
    "Receipt from " + merchant + " on " + date + ". Category: " + category + ". Total: " + total + "."
  }

  function MerchantChunk(merchant: string): string {
    "Merchant: " + merchant
  }

  function CategoryChunk(category: string): string {
    "Category: " + category
  }

  /** An item's chunk; the quantity defaults to 1 and the other fields to "N/A". */
  function ItemChunk(it: ChunkItem): string {
    "Item: " + it.itemName.GetOr(NA) + ", Quantity: " + it.itemQuantity.GetOr("1") + ", Cost: " + it.itemCost.GetOr(NA)
  }

  function ItemChunks(items: seq<ChunkItem>): (cs: seq<string>)
    ensures |cs| == |items|
    ensures forall i :: 0 <= i < |items| ==> cs[i] == ItemChunk(items[i])
  {
    if |items| == 0 then [] else [ItemChunk(items[0])] + ItemChunks(items[1..])
  }

  /** The labelled chunks that precede the item chunks. */
  function Head(d: ReceiptData): seq<string> {
    [SummaryChunk(Merchant(d), DateText(d), CategoryText(d), Total(d))]
    + (if Merchant(d) != NA then [MerchantChunk(Merchant(d))] else [])
    + (if CategoryText(d) != NA then [CategoryChunk(CategoryText(d))] else [])
  }

  /** The `chunks` list before the filter. */
  function Generated(d: ReceiptData): seq<string> {
    Head(d) + ItemChunks(Items(d))
  }

  /** The filter's test: `chunk and len(chunk.strip()) > 5`. */
  predicate Meaningful(c: string) {
    |c| > 0 && |Strip(c)| > 5
  }

  /** `a` is `b` with some entries removed, the rest in their original order. */
  ghost predicate IsSubsequence(a: seq<string>, b: seq<string>)
    decreases |b|
  {
    if |a| == 0 then true
    else if |b| == 0 then false
    else (a[0] == b[0] && IsSubsequence(a[1..], b[1..])) || IsSubsequence(a, b[1..])
  }

  /** The list comprehension that keeps the meaningful chunks. */
  function KeepMeaningful(cs: seq<string>): (r: seq<string>)
    ensures IsSubsequence(r, cs)
    ensures forall i :: 0 <= i < |r| ==> Meaningful(r[i])
    ensures forall i :: 0 <= i < |cs| && Meaningful(cs[i]) ==> cs[i] in r
    ensures (forall i :: 0 <= i < |cs| ==> Meaningful(cs[i])) ==> r == cs
  {
    if |cs| == 0 then []
    else
      var rest := KeepMeaningful(cs[1..]);
      assert forall i :: 1 <= i < |cs| ==> cs[i] == cs[1..][i - 1];
      if Meaningful(cs[0]) then
        assert ([cs[0]] + rest)[1..] == rest;
        [cs[0]] + rest
      else
        rest
  }

  /** The filter keeps every meaningful chunk as many times as it occurs, and nothing else. */
  lemma {:induction false} KeepMeaningfulCounts(cs: seq<string>)
    ensures forall c :: multiset(KeepMeaningful(cs))[c] == if Meaningful(c) then multiset(cs)[c] else 0
  {
    if |cs| > 0 {
      KeepMeaningfulCounts(cs[1..]);
      var rest := KeepMeaningful(cs[1..]);
      assert cs == [cs[0]] + cs[1..];
      assert multiset(cs) == multiset([cs[0]]) + multiset(cs[1..]);
      if Meaningful(cs[0]) {
        assert multiset([cs[0]] + rest) == multiset([cs[0]]) + multiset(rest);
      }
    }
  }

  lemma SummaryMeaningful(merchant: string, date: string, category: string, total: string)
    ensures Meaningful(SummaryChunk(merchant, date, category, total))
  {
    var s := SummaryChunk(merchant, date, category, total);
    assert s[0] == 'R' && s[6] == 't';
    StripKeepsInner(s, 6);
  }

  lemma MerchantMeaningful(merchant: string)
    ensures Meaningful(MerchantChunk(merchant))
  {
    var s := MerchantChunk(merchant);
    assert s[0] == 'M' && s[6] == 'n';
    StripKeepsInner(s, 6);
  }

  lemma CategoryMeaningful(category: string)
    ensures Meaningful(CategoryChunk(category))
  {
    var s := CategoryChunk(category);
    assert s[0] == 'C' && s[6] == 'r';
    StripKeepsInner(s, 6);
  }

  lemma ItemMeaningful(it: ChunkItem)
    ensures Meaningful(ItemChunk(it))
  {
    var s := ItemChunk(it);
    var k := 16 + |it.itemName.GetOr(NA)|;
    assert s[0] == 'I' && s[k] == ':';
    StripKeepsInner(s, k);
  }

  lemma HeadMeaningful(d: ReceiptData)
    ensures forall i :: 0 <= i < |Head(d)| ==> Meaningful(Head(d)[i])
  {
    var m, c, h := Merchant(d), CategoryText(d), Head(d);
    forall i | 0 <= i < |h|
      ensures Meaningful(h[i])
    {
      if i == 0 {
        assert h[0] == SummaryChunk(m, DateText(d), c, Total(d));
        SummaryMeaningful(m, DateText(d), c, Total(d));
      } else if m != NA && i == 1 {
        assert h[1] == MerchantChunk(m);
        MerchantMeaningful(m);
      } else {
        assert h[i] == CategoryChunk(c);
        CategoryMeaningful(c);
      }
    }
  }

  /** Each chunk begins with a fixed label longer than five characters, so none is filtered out. */
  lemma GeneratedChunksAreMeaningful(d: ReceiptData)
    ensures forall i :: 0 <= i < |Generated(d)| ==> Meaningful(Generated(d)[i])
  {
    var h, t := Head(d), ItemChunks(Items(d));
    HeadMeaningful(d);
    forall i | 0 <= i < |t|
      ensures Meaningful(t[i])
    {
      ItemMeaningful(Items(d)[i]);
    }
    assert Generated(d) == h + t;
  }

  /** `chunk_receipt_text`. */
  function ChunkReceiptText(d: ReceiptData): (r: seq<string>)
    ensures IsSubsequence(r, Generated(d))
    ensures forall i :: 0 <= i < |r| ==> Meaningful(r[i])
    ensures r == Generated(d)
  {
    GeneratedChunksAreMeaningful(d);
    KeepMeaningful(Generated(d))
  }

  /** The result described piece by piece: the summary first, the merchant chunk iff the
      merchant is known, the category chunk iff the category is known, then one chunk per
      item in input order. */
  lemma ChunkLayout(d: ReceiptData)
    ensures |ChunkReceiptText(d)| == 1 + (if Merchant(d) != NA then 1 else 0) + (if CategoryText(d) != NA then 1 else 0) + |Items(d)|
    ensures ChunkReceiptText(d)[0] == SummaryChunk(Merchant(d), DateText(d), CategoryText(d), Total(d))
    ensures Merchant(d) != NA ==> ChunkReceiptText(d)[1] == MerchantChunk(Merchant(d))
    ensures CategoryText(d) != NA ==> ChunkReceiptText(d)[if Merchant(d) != NA then 2 else 1] == CategoryChunk(CategoryText(d))
    ensures forall i :: 0 <= i < |Items(d)| ==>
              ChunkReceiptText(d)[|ChunkReceiptText(d)| - |Items(d)| + i] == ItemChunk(Items(d)[i])
  {
  }

  /** A "Merchant: ..." chunk is present exactly when the merchant is not "N/A";
      likewise for the category chunk. */
  lemma LabelledChunksPresence(d: ReceiptData)
    ensures MerchantChunk(Merchant(d)) in ChunkReceiptText(d) <==> Merchant(d) != NA
    ensures CategoryChunk(CategoryText(d)) in ChunkReceiptText(d) <==> CategoryText(d) != NA
  {
    var r := ChunkReceiptText(d);
    var m, c := Merchant(d), CategoryText(d);
    var h, t := Head(d), ItemChunks(Items(d));
    assert r == h + t;
    forall i | 0 <= i < |t|
      ensures t[i][0] == 'I'
    {
      assert t[i] == ItemChunk(Items(d)[i]);
    }
    assert MerchantChunk(m)[0] == 'M' && CategoryChunk(c)[0] == 'C';
    assert MerchantChunk(m) !in t && CategoryChunk(c) !in t;
    assert MerchantChunk(m) in h <==> m != NA;
    assert CategoryChunk(c) in h <==> c != NA;
  }
}

/**
  `backfill_embeddings.py`: the rewrite of the MongoDB connection string, the date
  formatting of the payload, and the per-receipt bookkeeping of `backfill`. Reading
  the collection, deleting old embeddings and posting to `/embed-receipt` are given
  as functions.
 */
module Backfill {
  import opened Wrappers
  import opened Text
  import opened Dates
  import opened Pairs

  // ---------------------------------------------------------------- connection string

  /** The path of the connection string: kept when its second '/'-separated segment is the
      database name, otherwise replaced by "/" followed by the name. */
  function RewritePath(path: string, database: string): (r: string)
    ensures r == path || r == "/" + database
    ensures r == path <==>
              (|SplitOn(path, '/')| >= 2 && SplitOn(path, '/')[1] == database) || path == "/" + database
  {
    var parts := SplitOn(path, '/');
    if |parts| < 2 || parts[1] != database then "/" + database else path
  }

  /** For a database name without '/', the rewritten path always names the database in its
      second segment. */
  lemma RewrittenPathNamesDatabase(path: string, database: string)
    requires '/' !in database
    ensures var parts := SplitOn(RewritePath(path, database), '/');
            |parts| >= 2 && parts[1] == database
  {
    SlashNameSplits(database);
  }

  lemma SlashNameSplits(database: string)
    requires '/' !in database
    ensures SplitOn("/" + database, '/') == ["", database]
  {
    SplitAfterFirstPiece("", database, '/');
    SplitWithoutSeparator(database, '/');
    assert "" + ['/'] + database == "/" + database;
  }

  /** Rewriting twice is rewriting once. */
  lemma RewritePathIdempotent(path: string, database: string)
    requires '/' !in database
    ensures RewritePath(RewritePath(path, database), database) == RewritePath(path, database)
  {
    SlashNameSplits(database);
  }

  /** Query parameters as `parse_qs` returns them: each key once, in order of first
      appearance, with its list of values. */
  type Query = seq<(string, seq<string>)>

  /** `q[key] = values` on a dictionary: an existing key keeps its place, a new one goes last. */
  function SetParam(q: Query, key: string, values: seq<string>): (r: Query)
    ensures Lookup(r, key) == Some(values)
    ensures forall k :: k != key ==> Lookup(r, k) == Lookup(q, k)
    ensures Keys(r) == if key in Keys(q) then Keys(q) else Keys(q) + [key]
  {
    if |q| == 0 then [(key, values)]
    else
      LookupCons(q[0], q[1..]);
      assert q == [q[0]] + q[1..];
      if q[0].0 == key then
        LookupCons((key, values), q[1..]);
        [(key, values)] + q[1..]
      else
        var rest := SetParam(q[1..], key, values);
        LookupCons(q[0], rest);
        assert Keys(q) + [key] == [q[0].0] + (Keys(q[1..]) + [key]);
        [q[0]] + rest
  }

  /** `query_params['directConnection'] = ['true']`. */
  function ForceDirectConnection(q: Query): (r: Query)
    ensures Lookup(r, "directConnection") == Some(["true"])
    ensures forall k :: k != "directConnection" ==> Lookup(r, k) == Lookup(q, k)
  {
    SetParam(q, "directConnection", ["true"])
  }

  /** Forcing the parameter twice is forcing it once. */
  lemma {:induction false} SetParamIdempotent(q: Query, key: string, values: seq<string>)
    ensures SetParam(SetParam(q, key, values), key, values) == SetParam(q, key, values)
  {
    if |q| > 0 && q[0].0 != key {
      SetParamIdempotent(q[1..], key, values);
      var r := SetParam(q, key, values);
      assert r[1..] == SetParam(q[1..], key, values);
    }
  }

  // ---------------------------------------------------------------- format_date

  /** `format_date(date_obj)`. The value is given by its `str()`, or None when it is falsy;
      `parse` is dateutil's parser, None when it raises. */
  function FormatDate(value: Option<string>, parse: string -> Option<Date>): (r: Option<string>)
    ensures value.None? ==> r.None?
    ensures r.Some? <==> value.Some? && parse(value.value).Some?
    ensures r.Some? ==> r.value == FormatIso(parse(value.value).value)
  {
    match value
    case None => None
    case Some(s) =>
      match parse(s)
      case None => None
      case Some(d) => Some(FormatIso(d))
  }

  /** A formatted date reads back, in the ISO layout, as the date the parser found. */
  lemma FormatDateReadsBack(value: Option<string>, parse: string -> Option<Date>)
    requires value.Some? && parse(value.value).Some? && parse(value.value).value.Valid()
    ensures FormatDate(value, parse).Some?
    ensures ReadIso(FormatDate(value, parse).value) == parse(value.value)
  {
    IsoRoundTrip(parse(value.value).value);
  }

  // ---------------------------------------------------------------- backfill

  /** The `_id` of a stored receipt, by its `str()`. */
  datatype StoredId = ObjectId(hex: string) | OtherId(text: string) | NoId

  /** A stored value that may be missing, null, or present. */
  datatype Field<T> = Absent | Null | Present(value: T)

  /** A stored receipt; values are given by their `str()`. The date is None when falsy. */
  datatype StoredReceipt = StoredReceipt(
    id: StoredId, userId: Option<string>,
    merchantName: Option<string>, date: Option<string>, totalCost: Option<string>, category: Option<string>,
    itemizedList: Field<seq<string>>)

  /** The `receiptData` sent: every key present, `itemizedList` defaulting to [] when absent. */
  datatype PayloadData = PayloadData(
    merchantName: Option<string>, date: Option<string>, totalCost: Option<string>, category: Option<string>,
    itemizedList: Option<seq<string>>)

  datatype Payload = Payload(userId: string, receiptId: string, receiptData: PayloadData)

  /** `receipt.get('itemizedList', [])`. */
  function ListOrEmpty(f: Field<seq<string>>): Option<seq<string>> {
    match f
    case Absent => Some([])
    case Null => None
    case Present(xs) => Some(xs)
  }

  /** A receipt is skipped when its `_id` is not an ObjectId or its `userId` is falsy. */
  predicate Skipped(r: StoredReceipt) {
    !r.id.ObjectId? || r.userId.None? || r.userId == Some("")
  }

  /** The payload posted for a receipt that is not skipped. */
  function BuildPayload(r: StoredReceipt, parse: string -> Option<Date>): (p: Payload)
    requires !Skipped(r)
    ensures p.userId == r.userId.value && p.receiptId == r.id.hex
    ensures p.receiptData.date == FormatDate(r.date, parse)
    ensures r.itemizedList.Absent? ==> p.receiptData.itemizedList == Some([])
    ensures p.receiptData.merchantName == r.merchantName
    ensures p.receiptData.totalCost == r.totalCost && p.receiptData.category == r.category
    ensures r.itemizedList.Null? ==> p.receiptData.itemizedList.None?
    ensures r.itemizedList.Present? ==> p.receiptData.itemizedList == Some(r.itemizedList.value)
  {
    Payload(r.userId.value, r.id.hex,
            PayloadData(r.merchantName, FormatDate(r.date, parse), r.totalCost, r.category, ListOrEmpty(r.itemizedList)))
  }

  /** How a post ends: a response with its status, or an exception. */
  datatype PostResult = Responded(status: nat) | RequestError | OtherError

  const SuccessStatuses: set<nat> := {200, 201, 207}

  /** Whether the post counts as a success: `raise_for_status` raises for 4xx and 5xx, and of
      the rest only 200, 201 and 207 are accepted. */
  function PostSucceeded(p: PostResult): (ok: bool)
    ensures ok <==> p.Responded? && p.status in SuccessStatuses
  {
    match p
    case Responded(s) => if 400 <= s < 600 then false else s in SuccessStatuses
    case _ => false
  }

  /** What became of one receipt. */
  datatype Fate = SkippedReceipt | DeleteFailed | Posted(success: bool)

  /** The fate of receipt `i`. `deleted(id)` is whether `delete_many` for that id returned,
      and `post(i, payload)` how posting receipt `i` ended. */
  function FateOf(r: StoredReceipt, i: nat, parse: string -> Option<Date>, deleted: string -> bool,
                  post: (nat, Payload) -> PostResult): Fate
  {
    if Skipped(r) then SkippedReceipt
    else if !deleted(r.id.hex) then DeleteFailed
    else Posted(PostSucceeded(post(i, BuildPayload(r, parse))))
  }

  /** Counted in `processed_count`: the receipt reached the post. */
  predicate IsProcessed(f: Fate) { f.Posted? }
  /** Counted in `error_count`: anything but a successful post. */
  predicate IsError(f: Fate) { f != Posted(true) }
  predicate IsSkip(f: Fate) { f == SkippedReceipt }
  predicate IsDeleteFailure(f: Fate) { f == DeleteFailed }
  predicate IsPostFailure(f: Fate) { f == Posted(false) }
  predicate IsSuccess(f: Fate) { f == Posted(true) }

  /** How many of `fates` satisfy `p`. */
  function Count(fates: seq<Fate>, p: Fate -> bool): (n: nat)
    ensures n <= |fates|
  {
    if |fates| == 0 then 0 else Count(fates[..|fates| - 1], p) + (if p(fates[|fates| - 1]) then 1 else 0)
  }

  function Fates(rs: seq<StoredReceipt>, parse: string -> Option<Date>, deleted: string -> bool,
                 post: (nat, Payload) -> PostResult): (fs: seq<Fate>)
    ensures |fs| == |rs|
  {
    seq(|rs|, i requires 0 <= i < |rs| => FateOf(rs[i], i, parse, deleted, post))
  }

  /** `backfill`: the processed and error counters after the loop over all receipts. */
  method RunBackfill(rs: seq<StoredReceipt>, parse: string -> Option<Date>, deleted: string -> bool,
                     post: (nat, Payload) -> PostResult)
    returns (processed: nat, errors: nat)
    ensures processed == Count(Fates(rs, parse, deleted, post), IsProcessed)
    ensures errors == Count(Fates(rs, parse, deleted, post), IsError)
  {
    ghost var fs := Fates(rs, parse, deleted, post);
    processed, errors := 0, 0;
    for i := 0 to |rs|
      invariant processed == Count(fs[..i], IsProcessed)
      invariant errors == Count(fs[..i], IsError)
    {
      assert fs[..i + 1][..i] == fs[..i];
      var r := rs[i];
      if !r.id.ObjectId? || r.userId.None? || r.userId == Some("") {
        errors := errors + 1;
        continue;
      }
      var payload := BuildPayload(r, parse);
      if !deleted(r.id.hex) {
        errors := errors + 1;
        continue;
      }
      match post(i, payload) {
        case Responded(status) =>
          if 400 <= status < 600 {
            errors := errors + 1;
          } else if status !in SuccessStatuses {
            errors := errors + 1;
          }
        case RequestError => errors := errors + 1;
        case OtherError => errors := errors + 1;
      }
      processed := processed + 1;
    }
    assert fs[..|rs|] == fs;
  }

  /** Every receipt is processed, skipped, or dropped after a failed delete; it is an error
      unless its post succeeded. So neither counter exceeds the number of receipts. */
  lemma {:induction false} Accounting(fs: seq<Fate>)
    ensures Count(fs, IsProcessed) + Count(fs, IsSkip) + Count(fs, IsDeleteFailure) == |fs|
    ensures Count(fs, IsError) + Count(fs, IsSuccess) == |fs|
    ensures Count(fs, IsError) ==
              Count(fs, IsSkip) + Count(fs, IsDeleteFailure) + Count(fs, IsPostFailure)
  {
    if |fs| > 0 {
      Accounting(fs[..|fs| - 1]);
    }
  }

  /** A skipped receipt, or one whose delete failed, is an error and not processed; one that
      reaches the post is processed whatever the post does. */
  lemma FatesByReceipt(rs: seq<StoredReceipt>, parse: string -> Option<Date>, deleted: string -> bool,
                       post: (nat, Payload) -> PostResult, i: nat)
    requires i < |rs|
    ensures var f := Fates(rs, parse, deleted, post)[i];
            && (Skipped(rs[i]) ==> f == SkippedReceipt)
            && (!Skipped(rs[i]) && !deleted(rs[i].id.hex) ==> f == DeleteFailed)
            && (!Skipped(rs[i]) && deleted(rs[i].id.hex) ==>
                  f == Posted(PostSucceeded(post(i, BuildPayload(rs[i], parse)))))
  {
  }
}

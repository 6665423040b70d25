/**
  The request routing of `receiptservice.py`: the upload file-type check, the
  "default model first" ordering of the providers, and the fallback loop that
  `/review`, `/upload` and `/chat` share.
 */
module Routing {
  import opened Wrappers
  import opened Text
  import opened Retry

  /** The extensions `/upload` accepts. */
  const ValidExtensions: set<string> := {"png", "jpg", "jpeg", "pdf"}

  /** `allowed_file(filename)`. */
  function AllowedFile(filename: string): bool {
    '.' in filename && Lower(AfterLast(filename, '.')) in ValidExtensions
  }

  /** The rule in words: some dot is followed by no other dot, and the text after it,
      lower-cased, is one of the accepted extensions. */
  ghost predicate HasAcceptedExtension(filename: string) {
    exists i :: 0 <= i < |filename| && filename[i] == '.' && '.' !in filename[i + 1..]
                && Lower(filename[i + 1..]) in ValidExtensions
  }

  lemma AllowedFileIff(filename: string)
    ensures AllowedFile(filename) <==> HasAcceptedExtension(filename)
  {
    if '.' in filename {
      var r := AfterLast(filename, '.');
      var d := |filename| - |r| - 1;
      assert filename[d + 1..] == r;
      if AllowedFile(filename) {
        assert filename[d] == '.' && '.' !in filename[d + 1..] && Lower(filename[d + 1..]) in ValidExtensions;
      }
      if HasAcceptedExtension(filename) {
        var i :| 0 <= i < |filename| && filename[i] == '.' && '.' !in filename[i + 1..]
                 && Lower(filename[i + 1..]) in ValidExtensions;
        LastDotUnique(filename, i, d);
      }
    }
  }

  /** Only one dot has no dot after it. */
  lemma LastDotUnique(s: string, i: nat, d: nat)
    requires i < |s| && d < |s| && s[i] == '.' && s[d] == '.'
    requires '.' !in s[i + 1..] && '.' !in s[d + 1..]
    ensures i == d
  {
  }

  /** A file with no dot is refused, whatever its name. */
  lemma NoDotRefused(filename: string)
    requires '.' !in filename
    ensures !AllowedFile(filename)
  {
  }

  /** An entry of the provider list: its name and the key sent in the request
      (None when the key is absent; the text "UNSET" marks a key the user has not set). */
  datatype Provider = Provider(name: string, key: Option<string>)

  const Unset := "UNSET"

  /** Providers with key "UNSET" are skipped; a missing key is still tried. */
  predicate Eligible(p: Provider) {
    p.key != Some(Unset)
  }

  /** The providers, in the order the handlers list them. */
  function Providers(geminiKey: Option<string>, openaiKey: Option<string>): seq<Provider> {
    [Provider("GEMINI", geminiKey), Provider("OPENAI", openaiKey)]
  }

  /** The entries of `ps` whose name is (`keep`) or is not (`!keep`) `name`, in order. */
  function Named(ps: seq<Provider>, name: string, keep: bool): (r: seq<Provider>)
    ensures |r| <= |ps|
    ensures forall t :: 0 <= t < |r| ==> (r[t].name == name) == keep
  {
    if |ps| == 0 then []
    else (if (ps[0].name == name) == keep then [ps[0]] else []) + Named(ps[1..], name, keep)
  }

  /** `providers.sort(key=lambda x: x[0] != default_model.upper())`: Python's sort is stable,
      so sorting on this boolean key puts the entries named after the default model first and
      leaves every other relative order alone. */
  function OrderProviders(ps: seq<Provider>, defaultModel: string): (r: seq<Provider>)
    ensures multiset(r) == multiset(ps)
  {
    NamedPartition(ps, Upper(defaultModel));
    Named(ps, Upper(defaultModel), true) + Named(ps, Upper(defaultModel), false)
  }

  lemma {:induction false} NamedPartition(ps: seq<Provider>, name: string)
    ensures multiset(Named(ps, name, true)) + multiset(Named(ps, name, false)) == multiset(ps)
  {
    if |ps| > 0 {
      var head, tail := [ps[0]], ps[1..];
      NamedPartition(tail, name);
      var t, f := Named(tail, name, true), Named(tail, name, false);
      assert ps == head + tail;
      assert multiset(ps) == multiset(head) + multiset(tail);
      if ps[0].name == name {
        assert Named(ps, name, true) == head + t;
        assert multiset(head + t) == multiset(head) + multiset(t);
        assert Named(ps, name, false) == f;
      } else {
        assert Named(ps, name, true) == t;
        assert Named(ps, name, false) == head + f;
        assert multiset(head + f) == multiset(head) + multiset(f);
      }
    }
  }

  /** `q` holds no entry named `name` after one with another name. */
  predicate NamedFirst(q: seq<Provider>, name: string) {
    forall i, j :: 0 <= i < j < |q| && q[j].name == name ==> q[i].name == name
  }

  /** The ordering is the stable sort on the key: the named entries come first, and within
      each group the input order is kept. */
  lemma OrderIsStableSort(ps: seq<Provider>, defaultModel: string)
    ensures var r := OrderProviders(ps, defaultModel);
            var u := Upper(defaultModel);
            && NamedFirst(r, u)
            && Named(r, u, true) == Named(ps, u, true)
            && Named(r, u, false) == Named(ps, u, false)
  {
    var u := Upper(defaultModel);
    var a, b := Named(ps, u, true), Named(ps, u, false);
    NamedOfNamed(ps, u, true);
    NamedOfNamed(ps, u, false);
    NamedNone(a, u, false);
    NamedNone(b, u, true);
    NamedAppend(a, b, u, true);
    NamedAppend(a, b, u, false);
  }

  lemma {:induction false} NamedOfNamed(ps: seq<Provider>, name: string, keep: bool)
    ensures Named(Named(ps, name, keep), name, keep) == Named(ps, name, keep)
  {
    if |ps| > 0 {
      NamedOfNamed(ps[1..], name, keep);
      var h := if (ps[0].name == name) == keep then [ps[0]] else [];
      NamedAppend(h, Named(ps[1..], name, keep), name, keep);
    }
  }

  lemma {:induction false} NamedNone(ps: seq<Provider>, name: string, keep: bool)
    requires forall t :: 0 <= t < |ps| ==> (ps[t].name == name) != keep
    ensures Named(ps, name, keep) == []
  {
    if |ps| > 0 {
      NamedNone(ps[1..], name, keep);
    }
  }

  lemma {:induction false} NamedAppend(a: seq<Provider>, b: seq<Provider>, name: string, keep: bool)
    ensures Named(a + b, name, keep) == Named(a, name, keep) + Named(b, name, keep)
  {
    if |a| > 0 {
      NamedAppend(a[1..], b, name, keep);
      assert (a + b)[1..] == a[1..] + b;
    } else {
      assert a + b == b;
    }
  }

  /** The stable sort is the only order with these properties: any list that puts the named
      entries first and keeps the order inside each group is the ordering computed. */
  lemma {:induction false} StableSortUnique(ps: seq<Provider>, q: seq<Provider>, name: string)
    requires NamedFirst(q, name)
    requires Named(q, name, true) == Named(ps, name, true)
    requires Named(q, name, false) == Named(ps, name, false)
    ensures q == Named(ps, name, true) + Named(ps, name, false)
  {
    SortedSplits(q, name);
  }

  lemma {:induction false} SortedSplits(q: seq<Provider>, name: string)
    requires NamedFirst(q, name)
    ensures q == Named(q, name, true) + Named(q, name, false)
  {
    if |q| > 0 {
      SortedSplits(q[1..], name);
      if q[0].name != name {
        forall t | 0 <= t < |q[1..]|
          ensures q[1..][t].name != name
        {
          assert q[1..][t] == q[t + 1];
        }
        NamedNone(q[1..], name, true);
      }
    }
  }

  /** When no provider is named after the default model, the order is unchanged. */
  lemma NoMatchKeepsOrder(ps: seq<Provider>, defaultModel: string)
    requires forall t :: 0 <= t < |ps| ==> ps[t].name != Upper(defaultModel)
    ensures OrderProviders(ps, defaultModel) == ps
  {
    var u := Upper(defaultModel);
    NamedNone(ps, u, true);
    NamedAll(ps, u, false);
  }

  lemma {:induction false} NamedAll(ps: seq<Provider>, name: string, keep: bool)
    requires forall t :: 0 <= t < |ps| ==> (ps[t].name == name) == keep
    ensures Named(ps, name, keep) == ps
  {
    if |ps| > 0 {
      NamedAll(ps[1..], name, keep);
    }
  }

  /** How the fallback loop ends. */
  datatype Routed<T> =
    | Answer(value: T)                  // the first non-None result
    | Unauthorized(models: seq<string>) // 401, naming the providers that raised `APIKeyError`
    | NoAnswer                          // the loop ran out

  /** The loop's result and the position it stopped at (the length of the list when it ran out). */
  datatype Routing<T> = Routing(result: Routed<T>, stop: nat)

  /** A call that ends the loop: a result, or `APIKeyError` from a provider named like
      the last entry of the list. */
  predicate Decisive<T>(ps: seq<Provider>, call: Provider -> Outcome<T>, j: nat)
    requires j < |ps|
  {
    (call(ps[j]).Returned? && call(ps[j]).value.Some?)
    || (call(ps[j]) == Raised(ApiKeyError) && ps[j].name == ps[|ps| - 1].name)
  }

  /** The names, in order, of the eligible providers in positions `lo` .. `hi - 1` that
      raised `APIKeyError`. */
  function KeyErrorNames<T>(ps: seq<Provider>, call: Provider -> Outcome<T>, lo: nat, hi: nat): (names: seq<string>)
    requires lo <= hi <= |ps|
    decreases hi - lo
    ensures |names| <= hi - lo
  {
    if lo == hi then []
    else (if Eligible(ps[lo]) && call(ps[lo]) == Raised(ApiKeyError) then [ps[lo].name] else [])
         + KeyErrorNames(ps, call, lo + 1, hi)
  }

  /** The loop from position `i` on, with `errors` the names collected so far. `call`
      gives what constructing a provider and calling it ends with. */
  function Route<T>(ps: seq<Provider>, call: Provider -> Outcome<T>, i: nat, errors: seq<string>): (r: Routing<T>)
    requires i <= |ps|
    decreases |ps| - i
    ensures i <= r.stop <= |ps|
    ensures forall j :: i <= j < r.stop && Eligible(ps[j]) ==> !Decisive(ps, call, j)
    ensures r.result.NoAnswer? <==> r.stop == |ps|
    ensures r.stop < |ps| ==> Eligible(ps[r.stop]) && Decisive(ps, call, r.stop)
    ensures r.result.Answer? ==> call(ps[r.stop]) == Returned(Some(r.result.value))
    ensures r.result.Unauthorized? ==> call(ps[r.stop]) == Raised(ApiKeyError)
  {
    if i == |ps| then Routing(NoAnswer, i)
    else if !Eligible(ps[i]) then Route(ps, call, i + 1, errors)
    else
      var o := call(ps[i]);
      if o.Returned? && o.value.Some? then Routing(Answer(o.value.value), i)
      else
        var here := if o == Raised(ApiKeyError) then [ps[i].name] else [];
        if o == Raised(ApiKeyError) && ps[i].name == ps[|ps| - 1].name then Routing(Unauthorized(errors + here), i)
        else Route(ps, call, i + 1, errors + here)
  }

  /** The 401 names the providers collected before position `i` followed by every eligible
      provider from `i` up to the stopping one that raised `APIKeyError`. */
  lemma {:induction false} UnauthorizedModels<T>(ps: seq<Provider>, call: Provider -> Outcome<T>, i: nat, errors: seq<string>)
    requires i <= |ps|
    decreases |ps| - i
    ensures var r := Route(ps, call, i, errors);
            r.result.Unauthorized? ==> r.result.models == errors + KeyErrorNames(ps, call, i, r.stop + 1)
  {
    if i < |ps| {
      if !Eligible(ps[i]) {
        UnauthorizedModels(ps, call, i + 1, errors);
        SkipStep(ps, call, i, errors);
      } else if Decisive(ps, call, i) {
        DecisiveStep(ps, call, i, errors);
      } else {
        var here := if call(ps[i]) == Raised(ApiKeyError) then [ps[i].name] else [];
        UnauthorizedModels(ps, call, i + 1, errors + here);
        ModelsStep(ps, call, i, errors, here);
      }
    }
  }

  /** A provider skipped for its "UNSET" key adds no name. */
  lemma SkipStep<T>(ps: seq<Provider>, call: Provider -> Outcome<T>, i: nat, errors: seq<string>)
    requires i < |ps| && !Eligible(ps[i])
    requires var r := Route(ps, call, i + 1, errors);
             r.result.Unauthorized? ==> r.result.models == errors + KeyErrorNames(ps, call, i + 1, r.stop + 1)
    ensures var r := Route(ps, call, i, errors);
            r.result.Unauthorized? ==> r.result.models == errors + KeyErrorNames(ps, call, i, r.stop + 1)
  {
    var r := Route(ps, call, i + 1, errors);
    assert Route(ps, call, i, errors) == r;
    if r.result.Unauthorized? {
      assert KeyErrorNames(ps, call, i, r.stop + 1) == [] + KeyErrorNames(ps, call, i + 1, r.stop + 1);
    }
  }

  /** A decisive provider that raised `APIKeyError` adds its own name and ends the loop. */
  lemma DecisiveStep<T>(ps: seq<Provider>, call: Provider -> Outcome<T>, i: nat, errors: seq<string>)
    requires i < |ps| && Eligible(ps[i]) && Decisive(ps, call, i)
    ensures var r := Route(ps, call, i, errors);
            r.result.Unauthorized? ==> r.result.models == errors + KeyErrorNames(ps, call, i, r.stop + 1)
  {
    var r := Route(ps, call, i, errors);
    if r.result.Unauthorized? {
      assert r.stop == i && call(ps[i]) == Raised(ApiKeyError);
      assert KeyErrorNames(ps, call, i, i + 1) == [ps[i].name] + KeyErrorNames(ps, call, i + 1, i + 1);
    }
  }

  /** One step of `UnauthorizedModels`: an eligible, non-decisive provider at `i` adds
      `here` to the names and hands over to position `i + 1`. */
  lemma ModelsStep<T>(ps: seq<Provider>, call: Provider -> Outcome<T>, i: nat, errors: seq<string>, here: seq<string>)
    requires i < |ps| && Eligible(ps[i]) && !Decisive(ps, call, i)
    requires here == if call(ps[i]) == Raised(ApiKeyError) then [ps[i].name] else []
    requires var r := Route(ps, call, i + 1, errors + here);
             r.result.Unauthorized? ==> r.result.models == errors + here + KeyErrorNames(ps, call, i + 1, r.stop + 1)
    ensures var r := Route(ps, call, i, errors);
            r.result.Unauthorized? ==> r.result.models == errors + KeyErrorNames(ps, call, i, r.stop + 1)
  {
    var r := Route(ps, call, i + 1, errors + here);
    assert Route(ps, call, i, errors) == r;
    if r.result.Unauthorized? {
      var tail := KeyErrorNames(ps, call, i + 1, r.stop + 1);
      assert KeyErrorNames(ps, call, i, r.stop + 1) == here + tail;
      assert errors + here + tail == errors + (here + tail);
    }
  }

  /** The loop over the ordered providers. */
  function Fallback<T>(ps: seq<Provider>, call: Provider -> Outcome<T>): Routing<T> {
    Route(ps, call, 0, [])
  }

  /** The first eligible provider whose call is decisive settles the result. */
  lemma FirstDecisiveWins<T>(ps: seq<Provider>, call: Provider -> Outcome<T>, j: nat)
    requires j < |ps| && Eligible(ps[j]) && Decisive(ps, call, j)
    requires forall k :: 0 <= k < j && Eligible(ps[k]) ==> !Decisive(ps, call, k)
    ensures var r := Fallback(ps, call);
            && r.stop == j
            && (call(ps[j]).Returned? ==> r.result == Answer(call(ps[j]).value.value))
            && (call(ps[j]).Raised? ==> r.result.Unauthorized?)
  {
  }

  /** The loop never looks at a provider whose key is "UNSET", nor at any provider after
      the one it stops at: changing what those calls would do changes nothing. */
  lemma {:induction false} OnlyCalledProvidersMatter<T>(ps: seq<Provider>, call: Provider -> Outcome<T>,
                                                         call': Provider -> Outcome<T>, i: nat, errors: seq<string>)
    requires i <= |ps|
    requires forall j :: i <= j < |ps| && j <= Route(ps, call, i, errors).stop && Eligible(ps[j]) ==>
               call(ps[j]) == call'(ps[j])
    ensures Route(ps, call', i, errors) == Route(ps, call, i, errors)
    decreases |ps| - i
  {
    if i < |ps| {
      var r := Route(ps, call, i, errors);
      var o := call(ps[i]);
      if !Eligible(ps[i]) {
        assert r == Route(ps, call, i + 1, errors);
        OnlyCalledProvidersMatter(ps, call, call', i + 1, errors);
      } else {
        assert call'(ps[i]) == o;
        if !(o.Returned? && o.value.Some?) && !(o == Raised(ApiKeyError) && ps[i].name == ps[|ps| - 1].name) {
          var here := if o == Raised(ApiKeyError) then [ps[i].name] else [];
          assert r == Route(ps, call, i + 1, errors + here);
          OnlyCalledProvidersMatter(ps, call, call', i + 1, errors + here);
        }
      }
    }
  }

  /** A 401 is returned only when the provider stopped at shares the last entry's name and
      raised `APIKeyError`, and it names every provider that raised `APIKeyError` up to there. */
  lemma UnauthorizedAtLastName<T>(ps: seq<Provider>, call: Provider -> Outcome<T>)
    ensures var r := Fallback(ps, call);
            r.result.Unauthorized? ==>
              && r.stop < |ps| && ps[r.stop].name == ps[|ps| - 1].name
              && call(ps[r.stop]) == Raised(ApiKeyError)
              && r.result.models == KeyErrorNames(ps, call, 0, r.stop + 1)
  {
    var r := Fallback(ps, call);
    UnauthorizedModels(ps, call, 0, []);
    if r.result.Unauthorized? {
      assert r.stop < |ps| && Decisive(ps, call, r.stop);
      assert [] + KeyErrorNames(ps, call, 0, r.stop + 1) == KeyErrorNames(ps, call, 0, r.stop + 1);
    }
  }

  /** So when the last entry is skipped and no other shares its name, `APIKeyError` from
      the others never yields 401. */
  lemma SkippedLastNeverUnauthorized<T>(ps: seq<Provider>, call: Provider -> Outcome<T>)
    requires |ps| > 0 && !Eligible(ps[|ps| - 1])
    requires forall k :: 0 <= k < |ps| - 1 ==> ps[k].name != ps[|ps| - 1].name
    ensures !Fallback(ps, call).result.Unauthorized?
  {
    UnauthorizedAtLastName(ps, call);
  }

  /** With the default provider listed and holding a key, and its call answering, the
      answer is its own and the loop stops at the front of the ordered list. */
  lemma DefaultProviderAnswers<T>(ps: seq<Provider>, defaultModel: string, call: Provider -> Outcome<T>, v: T)
    requires |Named(ps, Upper(defaultModel), true)| > 0
    requires var p := Named(ps, Upper(defaultModel), true)[0]; Eligible(p) && call(p) == Returned(Some(v))
    ensures Fallback(OrderProviders(ps, defaultModel), call) == Routing(Answer(v), 0)
  {
  }
}

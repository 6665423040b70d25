/**
  The shape shared by every LLM retry loop in the service:

      for attempt_num in range(max_retry):
          ... either return / raise, or prepare the next request ...
      return None

  One attempt is a `Step`: it stops the loop with an outcome, or continues in a
  new state (the updated conversation). `Attempts` runs the steps; `Explains`
  characterises a run without recursion, and the two are proved to agree.
 */
module Retry {
  import opened Wrappers

  /** An exception that leaves a parser or reviewer: the service's `APIKeyError`,
      or any other exception, named by its Python class. */
  datatype Exc = ApiKeyError | Other(kind: string)

  /** What a parser or reviewer call ends with: a returned value (None included) or an exception. */
  datatype Outcome<T> = Returned(value: Option<T>) | Raised(exc: Exc)

  /** What one attempt decides. */
  datatype Step<S, O> = Stop(outcome: O) | Again(next: S)

  /** A finished loop: its outcome and the state each attempt was made in, in order. */
  datatype Run<S, O> = Run(outcome: O, states: seq<S>)

  /** The attempts numbered `k` .. `n - 1`, starting in state `s`. */
  function Attempts<S, O>(step: (nat, S) -> Step<S, O>, n: nat, k: nat, s: S, fallback: O): (r: Run<S, O>)
    requires k <= n
    decreases n - k
    ensures Explains(step, n, k, s, fallback, r)
  {
    if k == n then Run(fallback, [])
    else
      match step(k, s)
      case Stop(o) => Run(o, [s])
      case Again(s') =>
        var rest := Attempts(step, n, k + 1, s', fallback);
        var r := Run(rest.outcome, [s] + rest.states);
        assert forall j :: 1 <= j < |r.states| ==> r.states[j] == rest.states[j - 1];
        r
  }

  /** `r` is what the attempts `k` .. `n - 1` from state `s` produce: at most `n - k` attempts,
      the first in `s`, each continuing attempt handing its state to the next; the loop
      ends with the outcome of the first attempt that stops, or with `fallback` once
      all `n - k` attempts have continued. */
  ghost predicate Explains<S, O>(step: (nat, S) -> Step<S, O>, n: nat, k: nat, s: S, fallback: O, r: Run<S, O>) {
    && k + |r.states| <= n
    && (k < n ==> |r.states| >= 1 && r.states[0] == s)
    && (forall j :: 0 <= j < |r.states| - 1 ==> step(k + j, r.states[j]) == Again(r.states[j + 1]))
    && (if |r.states| > 0 && step(k + |r.states| - 1, r.states[|r.states| - 1]).Stop?
        then r.outcome == step(k + |r.states| - 1, r.states[|r.states| - 1]).outcome
        else k + |r.states| == n && r.outcome == fallback)
  }

  /** The characterisation admits exactly one run: the one `Attempts` computes. */
  lemma {:induction false} ExplainsUnique<S, O>(step: (nat, S) -> Step<S, O>, n: nat, k: nat, s: S, fallback: O, r: Run<S, O>)
    requires k <= n
    requires Explains(step, n, k, s, fallback, r)
    ensures r == Attempts(step, n, k, s, fallback)
    decreases n - k
  {
    if k < n {
      match step(k, s)
      case Stop(o) =>
        StopIsLast(step, n, k, s, fallback, r);
      case Again(s') =>
        if |r.states| == 1 {
          assert k + 1 == n;
          return;
        }
        var tail := Run(r.outcome, r.states[1..]);
        assert forall j :: 0 <= j < |tail.states| - 1 ==> tail.states[j] == r.states[j + 1];
        assert Explains(step, n, k + 1, s', fallback, tail) by {
          assert tail.states[0] == r.states[1] == s';
          forall j | 0 <= j < |tail.states| - 1
            ensures step(k + 1 + j, tail.states[j]) == Again(tail.states[j + 1])
          {
            assert step(k + (j + 1), r.states[j + 1]) == Again(r.states[j + 2]);
          }
          assert r.states[|r.states| - 1] == tail.states[|tail.states| - 1];
        }
        ExplainsUnique(step, n, k + 1, s', fallback, tail);
        assert r.states == [s] + tail.states;
    }
  }

  /** In a run, only the last attempt can stop. */
  lemma StopIsLast<S, O>(step: (nat, S) -> Step<S, O>, n: nat, k: nat, s: S, fallback: O, r: Run<S, O>)
    requires Explains(step, n, k, s, fallback, r)
    ensures forall j :: 0 <= j < |r.states| && step(k + j, r.states[j]).Stop? ==> j == |r.states| - 1
  {
    forall j | 0 <= j < |r.states| - 1
      ensures step(k + j, r.states[j]).Again?
    {
      assert step(k + j, r.states[j]) == Again(r.states[j + 1]);
    }
  }

  /** An attempt that stops is the last one, and its outcome is the run's. */
  lemma StopsWith<S, O>(step: (nat, S) -> Step<S, O>, n: nat, k: nat, s: S, fallback: O, r: Run<S, O>, j: nat, o: O)
    requires Explains(step, n, k, s, fallback, r)
    requires j < |r.states| && step(k + j, r.states[j]) == Stop(o)
    ensures j == |r.states| - 1 && r.outcome == o
  {
    StopIsLast(step, n, k, s, fallback, r);
  }

  /** A loop of `max_retry` attempts from the first. */
  function Loop<S, O>(step: (nat, S) -> Step<S, O>, maxRetry: nat, start: S, fallback: O): (r: Run<S, O>)
    ensures |r.states| <= maxRetry
    ensures Explains(step, maxRetry, 0, start, fallback, r)
  {
    Attempts(step, maxRetry, 0, start, fallback)
  }

  /** With `max_retry` at zero no request is made and the loop falls through. */
  lemma NoAttempts<S, O>(step: (nat, S) -> Step<S, O>, start: S, fallback: O)
    ensures Loop(step, 0, start, fallback) == Run(fallback, [])
  {
  }

  /** When the first attempt stops, it is the only attempt. */
  lemma FirstStopEnds<S, O>(step: (nat, S) -> Step<S, O>, maxRetry: nat, start: S, fallback: O)
    requires maxRetry > 0 && step(0, start).Stop?
    ensures Loop(step, maxRetry, start, fallback) == Run(step(0, start).outcome, [start])
  {
  }

  /** The decision after a failed attempt that may be retried:
      `if attempt_num + 1 == max_retry or used + feedback + buffer > limit: return None`,
      otherwise continue in `next`. Looking up the limit may itself raise. */
  function Budgeted<S, T>(k: nat, maxRetry: nat, limit: Result<nat, Exc>, used: nat, feedback: nat, buffer: nat, next: S)
    : (st: Step<S, Outcome<T>>)
    ensures st.Again? <==> k + 1 != maxRetry && limit.Success? && used + feedback + buffer <= limit.value
    ensures st.Again? ==> st.next == next
    ensures st == Stop(Returned(None)) <==> k + 1 == maxRetry || (limit.Success? && used + feedback + buffer > limit.value)
    ensures k + 1 != maxRetry && limit.Failure? ==> st == Stop(Raised(limit.error))
  {
    if k + 1 == maxRetry then Stop(Returned(None))
    else match limit
      case Failure(e) => Stop(Raised(e))
      case Success(l) => if used + feedback + buffer > l then Stop(Returned(None)) else Again(next)
  }

  /** `b` is `a` followed by `d` more entries. */
  ghost predicate Extends<X>(a: seq<X>, b: seq<X>, d: nat) {
    |b| == |a| + d && b[..|a|] == a
  }

  /** Along a chain of conversations where each extends the previous one by `d` entries,
      a later one is longer by `d` per step ... */
  lemma {:induction false} ChainLength<X>(states: seq<seq<X>>, d: nat, i: nat, j: nat)
    requires i <= j < |states|
    requires forall t :: 0 <= t < |states| - 1 ==> Extends(states[t], states[t + 1], d)
    ensures |states[j]| == |states[i]| + d * (j - i)
    decreases j - i
  {
    if i < j {
      ChainLength(states, d, i, j - 1);
      assert Extends(states[j - 1], states[(j - 1) + 1], d);
      MulStep(d, j - 1 - i);
    }
  }

  /** ... and begins with every earlier one. */
  lemma {:induction false} ChainStartsWith<X>(states: seq<seq<X>>, d: nat, i: nat, j: nat)
    requires i <= j < |states|
    requires forall t :: 0 <= t < |states| - 1 ==> Extends(states[t], states[t + 1], d)
    ensures |states[i]| <= |states[j]| && states[j][..|states[i]|] == states[i]
    decreases j - i
  {
    if i < j {
      ChainStartsWith(states, d, i, j - 1);
      var a, b, c := states[i], states[j - 1], states[j];
      assert Extends(states[j - 1], states[(j - 1) + 1], d);
      assert c[..|a|] == c[..|b|][..|a|];
    }
  }

  lemma MulStep(d: nat, n: nat)
    ensures d * (n + 1) == d * n + d
  {
  }
}

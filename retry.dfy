/** `withRetry` of src/utils/retry.ts: call `fn` up to `maxRetries` times, calling `onRetry`
    and sleeping between failed attempts. The attempts' outcomes are given as a function of the
    attempt number; calls, `onRetry` callbacks and sleeps are recorded in an event log instead of
    being performed. */
module Retry {
  import opened Wrappers

  /** What one call of `fn` settles to: a value or a thrown error. */
  datatype Outcome<+T, +E> = Ok(value: T) | Err(error: E)

  /** `RetryOptions`; `None` is an option left undefined. */
  datatype RetryOptions = RetryOptions(maxRetries: Option<int>, delay: Option<int>, backoff: Option<bool>)

  /** What `withRetry` does, in order. */
  datatype Event<+E> = Call(attempt: int) | OnRetry(error: E, attempt: int) | Sleep(ms: int)

  /** The settings after defaulting. */
  datatype Settings = Settings(maxRetries: int, delay: int, backoff: bool)

  /** The destructuring defaults: 3 attempts, 1000 ms, linear backoff on. */
  function Defaults(options: RetryOptions): (s: Settings)
    ensures options.maxRetries == None ==> s.maxRetries == 3
    ensures options.delay == None ==> s.delay == 1000
    ensures options.backoff == None ==> s.backoff
    ensures options.maxRetries.Some? ==> s.maxRetries == options.maxRetries.value
    ensures options.delay.Some? ==> s.delay == options.delay.value
    ensures options.backoff.Some? ==> s.backoff == options.backoff.value
  {
    Settings(options.maxRetries.GetOr(3), options.delay.GetOr(1000), options.backoff.GetOr(true))
  }

  /** The wait after failed attempt `attempt`. */
  function Wait(s: Settings, attempt: int): int {
    if s.backoff then s.delay * attempt else s.delay
  }

  /** The run from attempt `attempt` on, `lastError` being the error kept so far (`None` is the
      initial undefined). The thrown value of a failed run is `Failure(e)`. */
  function Trace<T, E>(fn: int -> Outcome<T, E>, s: Settings, attempt: int, lastError: Option<E>)
    : (t: (Result<T, Option<E>>, seq<Event<E>>))
    ensures t.1 == [] <==> attempt > s.maxRetries
    decreases s.maxRetries - attempt
  {
    if attempt > s.maxRetries then (Failure(lastError), [])
    else match fn(attempt)
      case Ok(v) => (Success(v), [Call(attempt)])
      case Err(e) =>
        if attempt == s.maxRetries then (Failure(Some(e)), [Call(attempt)])
        else
          var rest := Trace(fn, s, attempt + 1, Some(e));
          (rest.0, [Call(attempt), OnRetry(e, attempt), Sleep(Wait(s, attempt))] + rest.1)
  }

  /** The whole run of `withRetry(fn, options)`. */
  function Run<T, E>(fn: int -> Outcome<T, E>, options: RetryOptions): (Result<T, Option<E>>, seq<Event<E>>) {
    Trace(fn, Defaults(options), 1, None)
  }

  /** `withRetry`: the destructuring defaults, then the loop. */
  method WithRetry<T, E>(fn: int -> Outcome<T, E>, options: RetryOptions)
    returns (r: Result<T, Option<E>>, events: seq<Event<E>>)
    ensures r == Run(fn, options).0 && events == Run(fn, options).1
  {
    r, events := Attempts(fn, Defaults(options));
  }

  /** The source's `for` loop over the attempts, with the settings already defaulted. */
  method Attempts<T, E>(fn: int -> Outcome<T, E>, s: Settings)
    returns (r: Result<T, Option<E>>, events: seq<Event<E>>)
    ensures r == Trace(fn, s, 1, None).0 && events == Trace(fn, s, 1, None).1
  {
    ghost var run := Trace(fn, s, 1, None);
    ghost var todo := run;
    var lastError: Option<E> := None;
    events := [];
    var attempt := 1;
    while attempt <= s.maxRetries
      invariant 1 <= attempt
      invariant todo == Trace(fn, s, attempt, lastError)
      invariant run.0 == todo.0 && run.1 == events + todo.1
      decreases s.maxRetries - attempt
    {
      ghost var before := events;
      events := events + [Call(attempt)];
      match fn(attempt)
      case Ok(v) =>
        assert todo.1 == [Call(attempt)];
        return Success(v), events;
      case Err(e) =>
        if attempt == s.maxRetries {
          assert todo == (Failure(Some(e)), [Call(attempt)]);
          return Failure(Some(e)), events;
        }
        ghost var rest := Trace(fn, s, attempt + 1, Some(e));
        ghost var step := [Call(attempt), OnRetry(e, attempt), Sleep(Wait(s, attempt))];
        assert todo.0 == rest.0 && todo.1 == step + rest.1;
        lastError := Some(e);
        events := events + [OnRetry(e, attempt), Sleep(Wait(s, attempt))];
        assert events + rest.1 == before + todo.1;
        todo := rest;
        attempt := attempt + 1;
    }
    assert todo.1 == [];
    assert events + [] == events;
    r := Failure(lastError);
  }

  // ---- properties of a run ----

  /** The number of calls in a log. */
  function CallCount<E>(events: seq<Event<E>>): (n: nat)
    ensures n <= |events|
  {
    if events == [] then 0 else (if events[0].Call? then 1 else 0) + CallCount(events[1..])
  }

  /** A log counts no call iff none of its events is a call. */
  lemma {:induction false} CallCountZero<E>(events: seq<Event<E>>)
    ensures CallCount(events) == 0 <==> forall i :: 0 <= i < |events| ==> !events[i].Call?
  {
    if events != [] {
      CallCountZero(events[1..]);
      assert forall i :: 1 <= i < |events| ==> events[i] == events[1..][i - 1];
    }
  }

  /** At most `maxRetries - attempt + 1` calls are made from attempt `attempt` on. */
  lemma {:induction false} TraceCallCount<T, E>(fn: int -> Outcome<T, E>, s: Settings, attempt: int, lastError: Option<E>)
    ensures CallCount(Trace(fn, s, attempt, lastError).1) <= if attempt <= s.maxRetries then s.maxRetries - attempt + 1 else 0
    decreases s.maxRetries - attempt
  {
    var ev := Trace(fn, s, attempt, lastError).1;
    if attempt <= s.maxRetries && fn(attempt).Err? && attempt < s.maxRetries {
      var e := fn(attempt).error;
      var rest := Trace(fn, s, attempt + 1, Some(e)).1;
      TraceCallCount(fn, s, attempt + 1, Some(e));
      assert ev == [Call(attempt), OnRetry(e, attempt), Sleep(Wait(s, attempt))] + rest;
      assert ev[1..] == [OnRetry(e, attempt), Sleep(Wait(s, attempt))] + rest;
      assert ev[1..][1..] == [Sleep(Wait(s, attempt))] + rest;
      assert ev[1..][1..][1..] == rest;
      assert CallCount(ev[1..][1..]) == CallCount(rest);
      assert CallCount(ev[1..]) == CallCount(rest);
    } else if attempt <= s.maxRetries {
      assert ev == [Call(attempt)];
      assert ev[1..] == [];
    }
  }

  /** A successful run returns the value of an attempt that succeeded after every earlier one
      failed; a failed run that made any attempt rethrows the final attempt's error, every
      attempt having failed; a run that made no attempt throws the undefined `lastError`. */
  lemma {:induction false} TraceResult<T, E>(fn: int -> Outcome<T, E>, s: Settings, attempt: int, lastError: Option<E>)
    ensures var r := Trace(fn, s, attempt, lastError).0;
      r.Success? ==> exists k :: (attempt <= k <= s.maxRetries && fn(k) == Ok(r.value)
        && forall j :: attempt <= j < k ==> fn(j).Err?)
    ensures var r := Trace(fn, s, attempt, lastError).0;
      r.Failure? && attempt <= s.maxRetries ==>
        fn(s.maxRetries).Err? && r.error == Some(fn(s.maxRetries).error)
        && forall j :: attempt <= j <= s.maxRetries ==> fn(j).Err?
    ensures attempt > s.maxRetries ==> Trace(fn, s, attempt, lastError) == (Failure(lastError), [])
    decreases s.maxRetries - attempt
  {
    if attempt <= s.maxRetries {
      match fn(attempt)
      case Ok(v) =>
      case Err(e) =>
        if attempt < s.maxRetries {
          TraceResult(fn, s, attempt + 1, Some(e));
          var r := Trace(fn, s, attempt + 1, Some(e)).0;
          if r.Success? {
            var k :| attempt + 1 <= k <= s.maxRetries && fn(k) == Ok(r.value)
              && forall j :: attempt + 1 <= j < k ==> fn(j).Err?;
            assert forall j :: attempt <= j < k ==> fn(j).Err?;
          }
        }
    }
  }

  /** Every `onRetry` in `ev` reports a failed call of an attempt from `attempt` up to but not
      including `maxRetries`, directly follows that call, and is directly followed by the wait for
      that attempt. */
  ghost predicate RetriesFollowCalls<T, E>(fn: int -> Outcome<T, E>, s: Settings, attempt: int, ev: seq<Event<E>>) {
    forall i :: 0 <= i < |ev| && ev[i].OnRetry? ==>
      attempt <= ev[i].attempt < s.maxRetries && fn(ev[i].attempt) == Err(ev[i].error)
      && 0 < i && ev[i - 1] == Call(ev[i].attempt)
      && i + 1 < |ev| && ev[i + 1] == Sleep(Wait(s, ev[i].attempt))
  }

  /** Every `onRetry` follows the failed, non-final call it reports, carries that call's error,
      and is followed by the wait for that attempt; the log never ends in a wait. */
  lemma {:induction false} TraceRetries<T, E>(fn: int -> Outcome<T, E>, s: Settings, attempt: int, lastError: Option<E>)
    ensures RetriesFollowCalls(fn, s, attempt, Trace(fn, s, attempt, lastError).1)
    ensures var ev := Trace(fn, s, attempt, lastError).1;
      (ev != [] <==> attempt <= s.maxRetries) && (ev != [] ==> ev[|ev| - 1].Call?)
    decreases s.maxRetries - attempt
  {
    if attempt <= s.maxRetries && fn(attempt).Err? && attempt < s.maxRetries {
      var e := fn(attempt).error;
      TraceRetries(fn, s, attempt + 1, Some(e));
      var rest := Trace(fn, s, attempt + 1, Some(e)).1;
      var ev := [Call(attempt), OnRetry(e, attempt), Sleep(Wait(s, attempt))] + rest;
      assert Trace(fn, s, attempt, lastError).1 == ev;
      forall i | 0 <= i < |ev| && ev[i].OnRetry?
        ensures attempt <= ev[i].attempt < s.maxRetries && fn(ev[i].attempt) == Err(ev[i].error)
        ensures 0 < i && ev[i - 1] == Call(ev[i].attempt)
        ensures i + 1 < |ev| && ev[i + 1] == Sleep(Wait(s, ev[i].attempt))
      {
        if i >= 3 {
          var j := i - 3;
          assert ev[i] == rest[j];
          assert RetriesFollowCalls(fn, s, attempt + 1, rest);
          assert rest[j].OnRetry?;
          assert 0 < j && rest[j - 1] == Call(rest[j].attempt);
          assert j + 1 < |rest| && rest[j + 1] == Sleep(Wait(s, rest[j].attempt));
          assert ev[i - 1] == rest[j - 1] && ev[i + 1] == rest[j + 1];
        } else {
          assert i == 1;
        }
      }
      assert RetriesFollowCalls(fn, s, attempt, ev);
      assert ev[|ev| - 1] == rest[|rest| - 1];
    } else if attempt <= s.maxRetries {
      assert Trace(fn, s, attempt, lastError).1 == [Call(attempt)];
    }
  }

  /** Every call in `ev` is of an attempt from `attempt` to `maxRetries`, and a call that fails
      before the final attempt is followed at once by `onRetry` with that call's error and
      attempt number. */
  ghost predicate CallsRetried<T, E>(fn: int -> Outcome<T, E>, s: Settings, attempt: int, ev: seq<Event<E>>) {
    forall i :: 0 <= i < |ev| && ev[i].Call? ==>
      attempt <= ev[i].attempt <= s.maxRetries
      && (fn(ev[i].attempt).Err? && ev[i].attempt < s.maxRetries ==>
            i + 1 < |ev| && ev[i + 1] == OnRetry(fn(ev[i].attempt).error, ev[i].attempt))
  }

  /** Prefixing a failed, non-final attempt's call, its `onRetry` and its wait keeps every call
      followed by its `onRetry`. */
  lemma CallsRetriedStep<T, E>(fn: int -> Outcome<T, E>, s: Settings, attempt: int, w: int, rest: seq<Event<E>>)
    requires attempt < s.maxRetries && fn(attempt).Err?
    requires CallsRetried(fn, s, attempt + 1, rest)
    ensures CallsRetried(fn, s, attempt, [Call(attempt), OnRetry(fn(attempt).error, attempt), Sleep(w)] + rest)
  {
    var ev := [Call(attempt), OnRetry(fn(attempt).error, attempt), Sleep(w)] + rest;
    forall i | 0 <= i < |ev| && ev[i].Call?
      ensures attempt <= ev[i].attempt <= s.maxRetries
      ensures fn(ev[i].attempt).Err? && ev[i].attempt < s.maxRetries ==>
        i + 1 < |ev| && ev[i + 1] == OnRetry(fn(ev[i].attempt).error, ev[i].attempt)
    {
      if i >= 3 {
        var j := i - 3;
        assert ev[i] == rest[j] && rest[j].Call?;
        if fn(rest[j].attempt).Err? && rest[j].attempt < s.maxRetries {
          assert j + 1 < |rest| && rest[j + 1] == OnRetry(fn(rest[j].attempt).error, rest[j].attempt);
          assert ev[i + 1] == rest[j + 1];
        }
      } else {
        assert i == 0;
      }
    }
  }

  /** The converse of `TraceRetries`: `onRetry` is called after each failed non-final attempt. */
  lemma {:induction false} TraceCallsRetried<T, E>(fn: int -> Outcome<T, E>, s: Settings, attempt: int, lastError: Option<E>)
    ensures CallsRetried(fn, s, attempt, Trace(fn, s, attempt, lastError).1)
    decreases s.maxRetries - attempt
  {
    if attempt <= s.maxRetries && fn(attempt).Err? && attempt < s.maxRetries {
      var e := fn(attempt).error;
      TraceCallsRetried(fn, s, attempt + 1, Some(e));
      var rest := Trace(fn, s, attempt + 1, Some(e)).1;
      assert Trace(fn, s, attempt, lastError).1 == [Call(attempt), OnRetry(e, attempt), Sleep(Wait(s, attempt))] + rest;
      CallsRetriedStep(fn, s, attempt, Wait(s, attempt), rest);
    } else if attempt <= s.maxRetries {
      assert Trace(fn, s, attempt, lastError).1 == [Call(attempt)];
    }
  }

  /** `fn` is called at most `maxRetries` times. */
  lemma CallsAtMostMaxRetries<T, E>(fn: int -> Outcome<T, E>, options: RetryOptions)
    ensures CallCount(Run(fn, options).1) <= if Defaults(options).maxRetries >= 1 then Defaults(options).maxRetries else 0
  {
    TraceCallCount(fn, Defaults(options), 1, None);
  }

  /** With `maxRetries <= 0`, `fn` is never called and `undefined` is thrown. */
  lemma NoAttempts<T, E>(fn: int -> Outcome<T, E>, options: RetryOptions)
    requires Defaults(options).maxRetries <= 0
    ensures Run(fn, options) == (Failure(None), [])
  {
    TraceResult(fn, Defaults(options), 1, None);
  }

  /** The first success is returned and nothing happens after it. */
  lemma {:induction false} FirstSuccessReturned<T, E>(fn: int -> Outcome<T, E>, s: Settings, attempt: int, lastError: Option<E>, k: int)
    requires attempt <= k <= s.maxRetries && fn(k).Ok?
    requires forall j :: attempt <= j < k ==> fn(j).Err?
    ensures Trace(fn, s, attempt, lastError).0 == Success(fn(k).value)
    ensures var ev := Trace(fn, s, attempt, lastError).1;
      |ev| == 3 * (k - attempt) + 1 && ev[|ev| - 1] == Call(k)
    decreases k - attempt
  {
    if attempt < k {
      FirstSuccessReturned(fn, s, attempt + 1, Some(fn(attempt).error), k);
    }
  }

  /** When every attempt fails, the final attempt's error is rethrown after exactly
      `maxRetries` calls and `maxRetries - 1` waits. */
  lemma {:induction false} AllFailRethrowsLast<T, E>(fn: int -> Outcome<T, E>, s: Settings, attempt: int, lastError: Option<E>)
    requires attempt <= s.maxRetries
    requires forall j :: attempt <= j <= s.maxRetries ==> fn(j).Err?
    ensures Trace(fn, s, attempt, lastError).0 == Failure(Some(fn(s.maxRetries).error))
    ensures |Trace(fn, s, attempt, lastError).1| == 3 * (s.maxRetries - attempt) + 1
    decreases s.maxRetries - attempt
  {
    if attempt < s.maxRetries {
      AllFailRethrowsLast(fn, s, attempt + 1, Some(fn(attempt).error));
    }
  }

  /** The waits of a run that fails every attempt: delay × k after attempt k with backoff,
      a flat delay without it, and none after the final attempt. */
  function Waits(s: Settings, attempt: int): seq<int>
    decreases s.maxRetries - attempt
  {
    if attempt >= s.maxRetries then [] else [Wait(s, attempt)] + Waits(s, attempt + 1)
  }

  function SleepsOf<E>(events: seq<Event<E>>): seq<int> {
    if events == [] then []
    else (if events[0].Sleep? then [events[0].ms] else []) + SleepsOf(events[1..])
  }

  lemma {:induction false} WaitsValues(s: Settings, attempt: int)
    ensures |Waits(s, attempt)| == if attempt < s.maxRetries then s.maxRetries - attempt else 0
    ensures forall i :: 0 <= i < |Waits(s, attempt)| ==>
      Waits(s, attempt)[i] == if s.backoff then s.delay * (attempt + i) else s.delay
    decreases s.maxRetries - attempt
  {
    if attempt < s.maxRetries {
      WaitsValues(s, attempt + 1);
      var w := Waits(s, attempt);
      assert w == [Wait(s, attempt)] + Waits(s, attempt + 1);
      assert forall i :: 1 <= i < |w| ==> w[i] == Waits(s, attempt + 1)[i - 1];
    }
  }

  /** A run in which every attempt fails sleeps exactly `Waits`. */
  lemma {:induction false} AllFailWaits<T, E>(fn: int -> Outcome<T, E>, s: Settings, attempt: int, lastError: Option<E>)
    requires attempt <= s.maxRetries
    requires forall j :: attempt <= j <= s.maxRetries ==> fn(j).Err?
    ensures SleepsOf(Trace(fn, s, attempt, lastError).1) == Waits(s, attempt)
    decreases s.maxRetries - attempt
  {
    var ev := Trace(fn, s, attempt, lastError).1;
    if attempt < s.maxRetries {
      var e := fn(attempt).error;
      AllFailWaits(fn, s, attempt + 1, Some(e));
      var rest := Trace(fn, s, attempt + 1, Some(e)).1;
      assert ev == [Call(attempt), OnRetry(e, attempt), Sleep(Wait(s, attempt))] + rest;
      assert ev[1..][1..][1..] == rest;
      assert ev[1..][1..] == [Sleep(Wait(s, attempt))] + rest;
      assert SleepsOf(ev[1..][1..]) == [Wait(s, attempt)] + SleepsOf(rest);
      assert ev[1..] == [OnRetry(e, attempt), Sleep(Wait(s, attempt))] + rest;
      assert SleepsOf(ev[1..]) == SleepsOf(ev[1..][1..]);
    } else {
      assert ev == [Call(attempt)];
      assert ev[1..] == [];
    }
  }

  /** With the defaults, three failures give waits of 1000 and 2000 ms and rethrow the third
      error. */
  lemma DefaultSchedule<T, E>(fn: int -> Outcome<T, E>)
    requires fn(1).Err? && fn(2).Err? && fn(3).Err?
    ensures var run := Run(fn, RetryOptions(None, None, None));
      run.0 == Failure(Some(fn(3).error)) && SleepsOf(run.1) == [1000, 2000]
  {
    var s := Defaults(RetryOptions(None, None, None));
    AllFailRethrowsLast(fn, s, 1, None);
    AllFailWaits(fn, s, 1, None);
    WaitsValues(s, 1);
    assert |Waits(s, 1)| == 2;
  }
}

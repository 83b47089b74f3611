/** The state of one `useRequest` instance and the transitions of its
    `refresh` callback and mount effect, as pure functions on a record.

    The asynchronous `refresh` is split at its single `await` into a start
    step (everything before the fetcher's promise is awaited) and a
    settlement step (success or failure, each followed by the `finally`
    block). These functions are the specification that the class in
    module UseRequest is proved against. */
module RequestState {
  import opened JsValue

  /** Which of the optional `onSuccess` / `onError` options the render that
      created a `refresh` closure supplied. The closure keeps them for the
      whole attempt, since they are not among its dependencies. */
  datatype Callbacks = Callbacks(hasOnSuccess: bool, hasOnError: bool)

  /** One attempt awaiting its fetcher: the cache key and the callbacks its
      `refresh` closure captured. */
  datatype Attempt = Attempt(key: string, callbacks: Callbacks)

  /** How the synchronous part of an attempt ended. */
  datatype Outcome =
    | FromCache   // settled at once from the cache
    | NoOp        // the fetcher is not a function: nothing was attempted
    | Pending     // the fetcher was called; a settlement will follow

  /** The React state (`data`, `loading`, `error`), the two refs (`isMounted`
      and the cache map), how often each callback has been invoked, and the
      attempts whose promise has not yet settled. */
  datatype State = State(
    data: Value,
    loading: bool,
    error: Value,
    mounted: bool,
    cache: map<string, Value>,
    successCalls: nat,
    errorCalls: nat,
    inFlight: multiset<Attempt>)

  /** The state right after the hook is first called, before its effect runs. */
  function Initial(): (s: State)
    ensures s.data == Null && !s.loading && s.error == Null && s.mounted
    ensures s.cache == map[] && s.inFlight == multiset{}
    ensures s.successCalls == 0 && s.errorCalls == 0
    ensures NoStuckLoading(s)
  {
    State(Null, false, Null, true, map[], 0, 0, multiset{})
  }

  /** While the component is mounted, `loading` is only true when some
      attempt is still waiting for its fetcher: the coordinator never sits in
      the loading state with nothing left that could end it. */
  predicate NoStuckLoading(s: State) {
    s.loading && s.mounted ==> |s.inFlight| > 0
  }

  /** The `finally` block: clear `loading`, but only while mounted. */
  function Finally(s: State): State {
    if s.mounted then s.(loading := false) else s
  }

  /** The synchronous part of `refresh`: raise `loading`, clear `error`, then
      serve from the cache, call the fetcher, or do nothing when the fetcher
      is not a function. */
  function StartStep(s: State, key: string, fetcherIsFunction: bool, callbacks: Callbacks)
    : (r: (State, Outcome))
    // every attempt clears the error and touches neither the cache, the
    // callbacks nor the liveness flag
    ensures r.0.error == Null
    ensures r.0.cache == s.cache && r.0.mounted == s.mounted
    ensures r.0.successCalls == s.successCalls && r.0.errorCalls == s.errorCalls
    // which way the attempt goes
    ensures r.1 == FromCache <==> fetcherIsFunction && key in s.cache
    ensures r.1 == Pending <==> fetcherIsFunction && key !in s.cache
    // a cache hit shows the cached value (null if falsy), stops loading and
    // calls no fetcher
    ensures r.1 == FromCache ==>
      r.0.data == OrNull(s.cache[key]) && !r.0.loading && r.0.inFlight == s.inFlight
    // a miss keeps the old data visible while loading and adds one attempt
    ensures r.1 == Pending ==>
      r.0.data == s.data && r.0.loading
      && r.0.inFlight == s.inFlight + multiset{Attempt(key, callbacks)}
    // a non-function fetcher changes no data; loading ends only if mounted
    ensures r.1 == NoOp ==>
      r.0.data == s.data && r.0.loading == !s.mounted && r.0.inFlight == s.inFlight
    ensures NoStuckLoading(r.0)
  {
    var begun := s.(loading := true, error := Null);
    if !fetcherIsFunction then
      (Finally(begun), NoOp)
    else if key in s.cache then
      (Finally(begun.(data := OrNull(s.cache[key]), loading := false)), FromCache)
    else
      (begun.(inFlight := s.inFlight + multiset{Attempt(key, callbacks)}), Pending)
  }

  /** The fetcher of attempt `a` resolved with `result`. */
  function SuccessStep(s: State, a: Attempt, result: Value): (r: State)
    requires a in s.inFlight
    // loading always ends, mounted or not; the error is never touched
    ensures !r.loading && r.error == s.error && r.mounted == s.mounted
    ensures r.inFlight == s.inFlight - multiset{a}
    ensures r.errorCalls == s.errorCalls
    // mounted: show and cache the result, invoke the attempt's onSuccess once
    // if it was supplied
    ensures s.mounted ==>
      && r.data == result
      && a.key in r.cache && r.cache[a.key] == result
      && (forall k :: k in s.cache && k != a.key ==> k in r.cache && r.cache[k] == s.cache[k])
      && r.cache.Keys == s.cache.Keys + {a.key}
      && r.successCalls == s.successCalls + (if a.callbacks.hasOnSuccess then 1 else 0)
    // unmounted: the result is dropped
    ensures !s.mounted ==>
      r.data == s.data && r.cache == s.cache && r.successCalls == s.successCalls
    ensures NoStuckLoading(r)
  {
    var settled := s.(inFlight := s.inFlight - multiset{a});
    var guarded :=
      if s.mounted then
        settled.(data := result, cache := s.cache[a.key := result],
                 successCalls := s.successCalls + (if a.callbacks.hasOnSuccess then 1 else 0))
      else settled;
    Finally(guarded.(loading := false))
  }

  /** The fetcher of attempt `a` failed with `err` (the `catch` block
      followed by `finally`). */
  function FailureStep(s: State, a: Attempt, err: Value): (r: State)
    requires a in s.inFlight
    // a failure never touches the data, the cache or onSuccess
    ensures r.data == s.data && r.cache == s.cache && r.successCalls == s.successCalls
    ensures r.inFlight == s.inFlight - multiset{a}
    ensures r.mounted == s.mounted
    // mounted: record the error, invoke the attempt's onError once if it was
    // supplied, stop loading
    ensures s.mounted ==>
      && r.error == err && !r.loading
      && r.errorCalls == s.errorCalls + (if a.callbacks.hasOnError then 1 else 0)
    // unmounted: nothing observable changes, so loading stays as it was
    ensures !s.mounted ==>
      r.error == s.error && r.loading == s.loading && r.errorCalls == s.errorCalls
    ensures NoStuckLoading(r)
  {
    var settled := s.(inFlight := s.inFlight - multiset{a});
    var guarded :=
      if s.mounted then
        settled.(error := err, errorCalls := s.errorCalls + (if a.callbacks.hasOnError then 1 else 0))
      else settled;
    Finally(guarded)
  }

  /** The effect body: set the liveness flag, then start an attempt. */
  function MountStep(s: State, key: string, fetcherIsFunction: bool, callbacks: Callbacks)
    : (r: (State, Outcome))
    ensures r.0.mounted && r.0.error == Null && r.0.cache == s.cache
    ensures r.0.successCalls == s.successCalls && r.0.errorCalls == s.errorCalls
    ensures r.1 == FromCache <==> fetcherIsFunction && key in s.cache
    ensures r.1 == Pending <==> fetcherIsFunction && key !in s.cache
    ensures r.1 == FromCache ==> r.0.data == OrNull(s.cache[key])
    ensures r.1 != FromCache ==> r.0.data == s.data
    ensures r.1 == Pending ==>
      r.0.loading && r.0.inFlight == s.inFlight + multiset{Attempt(key, callbacks)}
    // once mounted, an attempt that did not call the fetcher never leaves loading on
    ensures r.1 != Pending ==> !r.0.loading && r.0.inFlight == s.inFlight
    ensures NoStuckLoading(r.0)
  {
    StartStep(s.(mounted := true), key, fetcherIsFunction, callbacks)
  }

  /** The effect cleanup: clear the liveness flag and nothing else. */
  function UnmountStep(s: State): (r: State)
    ensures !r.mounted
    ensures r.(mounted := s.mounted) == s
    ensures NoStuckLoading(r)
  {
    s.(mounted := false)
  }
}

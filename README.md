# useRequest request coordinator in Dafny

This project models the request coordinator of the `useRequest` React hook.
The coordinator is the `refresh` callback together with the effect that mounts
and unmounts it. It keeps three pieces of React state: `data`, `loading` and
`error`. It also keeps a liveness ref, `isMounted`, and a per-instance cache
that maps a cache key to the last result fetched for it.

One call of `refresh` is an asynchronous attempt. The model splits it at its
only `await`:

- the start runs synchronously. It raises `loading`, clears `error`, and then
  does one of three things: it serves the attempt from the cache, it calls the
  fetcher, or it does nothing when the fetcher is not a function;
- the settlement runs later, either on success or on failure, followed by the
  `finally` block. Most of its writes are guarded by `isMounted`. The one
  exception is the `setLoading(false)` after a success (line 69), which runs
  whether the instance is mounted or not.

Files:

- `js_value.dfy` (module `JsValue`): JavaScript values as the coordinator
  handles them, JavaScript falsiness, and `v || null`.
- `request_state.dfy` (module `RequestState`): the instance's state as a record
  and every transition as a pure function. These functions are the
  specification.
- `request_trace.dfy` (module `RequestTrace`): runs of any sequence of
  refreshes, effect runs, cleanups and settlements, and the properties that
  hold over such runs.
- `use_request.dfy` (module `UseRequest`): class `Request`. Its fields are the
  state and the refs. Its methods assign them in the order the source does.
  Each method is proved to end in exactly the state that the matching
  transition function gives.

The invocations of `onSuccess` and `onError` are modelled as counters. The
options come from the render that created the `refresh` closure. The closure
keeps them for as long as its attempt runs, because they are not among its
dependencies (line 82). So every start takes a `Callbacks` value saying which
of the two were supplied, and every attempt in flight carries its own copy. A
callback that was not supplied is never invoked.

The ghost multiset `inFlight` holds the attempts whose fetcher has not settled
yet, each with its cache key and captured callbacks. It exists only so the
model can say which settlements can happen. `NoStuckLoading` says that, while
mounted, `loading` is true only when some attempt is still in flight. Every
step establishes it, whatever the state before the step.

The code's only guard against late results is the boolean `isMounted`. It has
no per-attempt token. On a key change, the cleanup clears the flag and the
re-run of the effect sets it again. So an older attempt that settles later
still writes `data` and the cache. `SupersededAttemptStillWrites` proves this.

A successful settlement after the cleanup still clears `loading` (line 69). A
failed one changes nothing, so `loading` can stay true.

## Model

| member | source | states |
|---|---|---|
| JsValue.OrNull | src/hooks/use-request/use-request.ts:59 | `v \|\| null` keeps a truthy value, and turns every falsy value into null; the result is never falsy unless it is null |
| RequestState.Initial | src/hooks/use-request/use-request.ts:45-50 | the hook starts with `data` and `error` null, `loading` false, `isMounted` true, an empty cache, no attempt in flight, callback counters at zero, and `NoStuckLoading` holding |
| RequestState.StartStep | src/hooks/use-request/use-request.ts:52-61 | every attempt clears `error` and leaves the cache, the counters and the mounted flag alone; it is served from the cache exactly when the fetcher is a function and the key is cached; a hit sets `data` to the cached value (null if falsy), ends `loading` and calls no fetcher; a miss keeps the old `data`, sets `loading` and adds one attempt with the closure's callbacks; a non-function fetcher keeps `data` and ends `loading` only when mounted |
| RequestState.SuccessStep | src/hooks/use-request/use-request.ts:62-80 | `loading` always ends and `error` is untouched; when mounted, `data` becomes the result, the cache gains or overwrites only the attempt's key, every other entry is kept, and the attempt's `onSuccess` fires once if it was supplied; when unmounted, `data`, the cache and the counters are unchanged |
| RequestState.FailureStep | src/hooks/use-request/use-request.ts:72-80 | `data`, the cache and `onSuccess` are never touched; when mounted, `error` becomes the failure, the attempt's `onError` fires once if it was supplied and `loading` ends; when unmounted, nothing observable changes and `loading` stays as it was |
| RequestState.MountStep | src/hooks/use-request/use-request.ts:84-86 | the effect leaves the instance mounted and starts an attempt; the error is cleared, and the cache and both counters are unchanged; it is served from the cache exactly when the fetcher is a function and the key is cached, and then `data` is the cached value (null if falsy), otherwise `data` is unchanged; a miss sets `loading` and adds one attempt with the given callbacks; an attempt that did not call the fetcher leaves `loading` false |
| RequestState.UnmountStep | src/hooks/use-request/use-request.ts:88-90 | the cleanup clears the mounted flag and changes nothing else |
| RequestTrace.RunCountersGrow | src/hooks/use-request/use-request.ts:64-76 | over any run, the `onSuccess` and `onError` counters never decrease, and each grows by at most the number of resolutions, respectively rejections, in the run |
| RequestTrace.RunKeepsNoStuckLoading | src/hooks/use-request/use-request.ts:51-91 | over any run, a mounted instance is loading only while some attempt is in flight |
| RequestTrace.RunCacheKeysGrow | src/hooks/use-request/use-request.ts:50-66 | over any run, no cache entry is ever removed |
| RequestTrace.RunKeepsUntouchedEntries | src/hooks/use-request/use-request.ts:66 | over any run, a cached entry keeps its value unless a successful result for that same key arrives |
| RequestTrace.RunCacheKeysFromAttempts | src/hooks/use-request/use-request.ts:58-66 | over any run, the cache only gains keys that were in flight at the start or that the run itself requested |
| RequestTrace.UnmountedRunIsInert | src/hooks/use-request/use-request.ts:64-90 | after the cleanup, and until the effect runs again, the cache and both counters do not change; if only settlements occur, `data` and `error` do not change either |
| RequestTrace.CachedResultServedWithoutFetch | src/hooks/use-request/use-request.ts:58-67 | after a mounted success for a key, the next attempt for that key is served from the cache: no fetcher call, no `onSuccess`, and a falsy result shows as null |
| RequestTrace.SupersededAttemptStillWrites | src/hooks/use-request/use-request.ts:62-91 | after a key change from k1 to k2, if k1's attempt settles after k2's, its result still ends up in `data` and in the cache |
| UseRequest.Request.constructor | src/hooks/use-request/use-request.ts:45-50 | a new instance is in the initial state, which satisfies `NoStuckLoading` |
| UseRequest.Request.StartRefresh | src/hooks/use-request/use-request.ts:51-61 | the synchronous part of `refresh` moves the object as `StartStep` does and establishes `NoStuckLoading` |
| UseRequest.Request.SettleSuccess | src/hooks/use-request/use-request.ts:62-81 | a resolved fetch moves the object as `SuccessStep` does and establishes `NoStuckLoading` |
| UseRequest.Request.SettleFailure | src/hooks/use-request/use-request.ts:72-81 | a rejected fetch moves the object as `FailureStep` does and establishes `NoStuckLoading` |
| UseRequest.Request.Mount | src/hooks/use-request/use-request.ts:84-86 | the effect body moves the object as `MountStep` does and establishes `NoStuckLoading` |
| UseRequest.Request.Unmount | src/hooks/use-request/use-request.ts:88-90 | the effect cleanup moves the object as `UnmountStep` does and establishes `NoStuckLoading` |

## Left out

- The Suspense block (use-request.ts lines 94-103). It throws a promise that an interval timer resolves, and it polls the `loading` value captured at render time. It has no sequential behaviour that the model could state.
- React scheduling. `setState` calls are modelled as direct assignments, with no batching and no re-render. `useCallback` dependency tracking is reduced to this: the effect re-runs the attempt with the key, fetcher and callbacks of the render that created the closure.
- The fetcher itself and its network I/O. Only its outcome enters the model: whether it is a function, and whether it resolves or rejects with a given value. A fetcher that throws synchronously is modelled as an attempt that starts and is then rejected.
- The bodies of `onSuccess` and `onError`. They are counters, and they are assumed to return normally. In the source, a throwing `onSuccess` would send the attempt into the `catch` block.
- How the cache key is derived (`JSON.stringify` of the default parameters, line 43). The key is a given string.
- A settlement names its attempt by cache key and captured callbacks. Two attempts started with the same key and the same callbacks are interchangeable in the model, which does not track which closure settles first.
- The numeric value of JavaScript numbers and BigInts. A number is represented by an integer that is 0 exactly when the number is +0, -0 or 0n, with NaN as its own case. The coordinator only ever asks whether a value is falsy, and this representation keeps that answer.
- src/App.tsx, the UI that displays the result. It is not part of this model.

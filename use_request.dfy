/** One `useRequest` instance as an object: the React state and the two refs
    are fields that its methods assign step by step, in the order of the
    `refresh` callback and the mount effect. Each method is proved to move
    the object exactly as the matching transition of RequestState does. */
module UseRequest {
  import opened JsValue
  import opened RequestState

  class Request {
    var data: Value                   // useState<Data | null>(null)
    var loading: bool                 // useState(false)
    var error: Value                  // useState<any>(null)
    var isMounted: bool               // isMounted.current
    var cache: map<string, Value>     // cache.current
    var successCalls: nat             // how often onSuccess has been invoked
    var errorCalls: nat               // how often onError has been invoked
    ghost var inFlight: multiset<Attempt>  // attempts awaiting their fetcher

    /** The object's state as a RequestState record. */
    ghost function Snapshot(): State
      reads this
    {
      State(data, loading, error, isMounted, cache, successCalls, errorCalls, inFlight)
    }

    /** Every method establishes this, whatever the state before it. */
    ghost predicate Valid()
      reads this
    {
      NoStuckLoading(Snapshot())
    }

    constructor ()
      ensures Snapshot() == Initial() && Valid()
    {
      data, loading, error := Null, false, Null;
      isMounted := true;
      cache := map[];
      successCalls, errorCalls := 0, 0;
      inFlight := multiset{};
    }

    /** `refresh()` up to the point where it awaits the fetcher's promise;
        `callbacks` are the options its closure captured. */
    method StartRefresh(key: string, fetcherIsFunction: bool, callbacks: Callbacks)
      returns (outcome: Outcome)
      modifies this
      ensures Valid()
      ensures (Snapshot(), outcome) == StartStep(old(Snapshot()), key, fetcherIsFunction, callbacks)
    {
      loading := true;
      error := Null;
      if fetcherIsFunction {
        if key in cache {
          data := OrNull(cache[key]);
          loading := false;
          outcome := FromCache;
        } else {
          // the fetcher is called; the rest of the attempt runs on settlement
          inFlight := inFlight + multiset{Attempt(key, callbacks)};
          outcome := Pending;
          return;
        }
      } else {
        outcome := NoOp;
      }
      if isMounted {
        loading := false;
      }
    }

    /** The awaited promise of `attempt` resolved with `result`. */
    method SettleSuccess(attempt: Attempt, result: Value)
      requires attempt in inFlight
      modifies this
      ensures Valid()
      ensures Snapshot() == SuccessStep(old(Snapshot()), attempt, result)
    {
      ghost var expected := SuccessStep(Snapshot(), attempt, result);
      inFlight := inFlight - multiset{attempt};
      if isMounted {
        data := result;
        cache := cache[attempt.key := result];
        if attempt.callbacks.hasOnSuccess {
          successCalls := successCalls + 1;
        }
        assert data == expected.data && cache == expected.cache;
        assert successCalls == expected.successCalls;
      } else {
        assert data == expected.data && cache == expected.cache;
        assert successCalls == expected.successCalls;
      }
      loading := false;
      if isMounted {
        loading := false;
      }
      assert loading == expected.loading && error == expected.error;
      assert isMounted == expected.mounted && errorCalls == expected.errorCalls;
      assert inFlight == expected.inFlight;
    }

    /** The awaited promise of `attempt` rejected with `err`. */
    method SettleFailure(attempt: Attempt, err: Value)
      requires attempt in inFlight
      modifies this
      ensures Valid()
      ensures Snapshot() == FailureStep(old(Snapshot()), attempt, err)
    {
      inFlight := inFlight - multiset{attempt};
      if isMounted {
        error := err;
        if attempt.callbacks.hasOnError {
          errorCalls := errorCalls + 1;
        }
      }
      if isMounted {
        loading := false;
      }
    }

    /** The effect body, run on mount and whenever `refresh` is recreated. */
    method Mount(key: string, fetcherIsFunction: bool, callbacks: Callbacks)
      returns (outcome: Outcome)
      modifies this
      ensures Valid()
      ensures (Snapshot(), outcome) == MountStep(old(Snapshot()), key, fetcherIsFunction, callbacks)
    {
      isMounted := true;
      outcome := StartRefresh(key, fetcherIsFunction, callbacks);
    }

    /** The effect cleanup, run on unmount and before the effect re-runs. */
    method Unmount()
      modifies this
      ensures Valid()
      ensures Snapshot() == UnmountStep(old(Snapshot()))
    {
      isMounted := false;
    }
  }
}

/** Runs of the coordinator: any interleaving of manual refreshes, effect
    runs and cleanups (one per mount, key change or unmount) and
    settlements of attempts still in flight, and what holds across them. */
module RequestTrace {
  import opened JsValue
  import opened RequestState

  /** One thing that can happen to a `useRequest` instance. A start carries
      the callbacks of the render whose `refresh` closure runs; a settlement
      names the attempt it settles. */
  datatype Event =
    | Refresh(key: string, fetcherIsFunction: bool, callbacks: Callbacks)    // `refresh()`
    | Resolve(attempt: Attempt, result: Value)      // an attempt's fetcher resolves
    | Reject(attempt: Attempt, err: Value)          // an attempt's fetcher rejects
    | EffectRun(key: string, fetcherIsFunction: bool, callbacks: Callbacks)  // the effect body
    | EffectCleanup                                  // the effect cleanup

  /** Only an attempt that is still in flight can settle. */
  predicate Enabled(s: State, e: Event) {
    match e
    case Resolve(a, _) => a in s.inFlight
    case Reject(a, _) => a in s.inFlight
    case _ => true
  }

  function Step(s: State, e: Event): State
    requires Enabled(s, e)
  {
    match e
    case Refresh(k, f, cb) => StartStep(s, k, f, cb).0
    case Resolve(a, v) => SuccessStep(s, a, v)
    case Reject(a, err) => FailureStep(s, a, err)
    case EffectRun(k, f, cb) => MountStep(s, k, f, cb).0
    case EffectCleanup => UnmountStep(s)
  }

  /** Every event of `es` can happen in turn, starting from `s`. */
  predicate Feasible(s: State, es: seq<Event>)
    decreases |es|
  {
    |es| == 0 || (Enabled(s, es[0]) && Feasible(Step(s, es[0]), es[1..]))
  }

  function Run(s: State, es: seq<Event>): State
    requires Feasible(s, es)
    decreases |es|
  {
    if |es| == 0 then s else Run(Step(s, es[0]), es[1..])
  }

  /** Prefixing a run with one event that can happen is again a run. */
  lemma RunCons(s: State, e: Event, es: seq<Event>)
    requires Enabled(s, e) && Feasible(Step(s, e), es)
    ensures Feasible(s, [e] + es)
    ensures Run(s, [e] + es) == Run(Step(s, e), es)
  {
    assert ([e] + es)[0] == e;
    assert ([e] + es)[1..] == es;
  }

  /** How many events of `es` resolve an attempt. */
  function Resolutions(es: seq<Event>): nat {
    if |es| == 0 then 0 else (if es[0].Resolve? then 1 else 0) + Resolutions(es[1..])
  }

  /** How many events of `es` reject an attempt. */
  function Rejections(es: seq<Event>): nat {
    if |es| == 0 then 0 else (if es[0].Reject? then 1 else 0) + Rejections(es[1..])
  }

  /** The keys for which `es` starts an attempt. */
  function RequestedKeys(es: seq<Event>): set<string> {
    set i | 0 <= i < |es| && (es[i].Refresh? || es[i].EffectRun?) :: es[i].key
  }

  /** The keys for which `es` delivers a successful result. */
  function ResolvedKeys(es: seq<Event>): set<string> {
    set i | 0 <= i < |es| && es[i].Resolve? :: es[i].attempt.key
  }

  /** The keys of the attempts still in flight. */
  function InFlightKeys(s: State): set<string> {
    set a | a in s.inFlight :: a.key
  }

  /** The callback counters never decrease, and each settlement fires at
      most one callback: onSuccess only on a resolution, onError only on a
      rejection. */
  lemma {:induction false} RunCountersGrow(s: State, es: seq<Event>)
    requires Feasible(s, es)
    ensures s.successCalls <= Run(s, es).successCalls <= s.successCalls + Resolutions(es)
    ensures s.errorCalls <= Run(s, es).errorCalls <= s.errorCalls + Rejections(es)
    decreases |es|
  {
    if |es| > 0 {
      RunCountersGrow(Step(s, es[0]), es[1..]);
    }
  }

  /** Once it holds, the invariant NoStuckLoading holds after any run. */
  lemma {:induction false} RunKeepsNoStuckLoading(s: State, es: seq<Event>)
    requires Feasible(s, es)
    requires NoStuckLoading(s)
    ensures NoStuckLoading(Run(s, es))
    decreases |es|
  {
    if |es| > 0 {
      RunKeepsNoStuckLoading(Step(s, es[0]), es[1..]);
    }
  }

  /** Entries are never removed: the cache's key set only grows. */
  lemma {:induction false} RunCacheKeysGrow(s: State, es: seq<Event>)
    requires Feasible(s, es)
    ensures s.cache.Keys <= Run(s, es).cache.Keys
    decreases |es|
  {
    if |es| > 0 {
      RunCacheKeysGrow(Step(s, es[0]), es[1..]);
    }
  }

  /** A cached entry keeps its value unless a result for that same key
      arrives. */
  lemma {:induction false} RunKeepsUntouchedEntries(s: State, es: seq<Event>, k: string)
    requires Feasible(s, es)
    requires k in s.cache && k !in ResolvedKeys(es)
    ensures k in Run(s, es).cache && Run(s, es).cache[k] == s.cache[k]
    decreases |es|
  {
    if |es| > 0 {
      assert ResolvedKeys(es[1..]) <= ResolvedKeys(es) by {
        forall j | j in ResolvedKeys(es[1..]) ensures j in ResolvedKeys(es) {
          var i :| 0 <= i < |es[1..]| && es[1..][i].Resolve? && es[1..][i].attempt.key == j;
          assert es[i + 1] == es[1..][i];
        }
      }
      assert es[0].Resolve? ==> es[0].attempt.key in ResolvedKeys(es);
      RunKeepsUntouchedEntries(Step(s, es[0]), es[1..], k);
    }
  }

  /** One event adds to the cache or to the attempts in flight only the key
      it requests or the key of an attempt already in flight. */
  lemma StepKeysFromAttempts(s: State, e: Event)
    requires Enabled(s, e)
    ensures Step(s, e).cache.Keys + InFlightKeys(Step(s, e))
            <= s.cache.Keys + InFlightKeys(s) + RequestedKeys([e])
  {
    assert [e][0] == e;
    assert (e.Refresh? || e.EffectRun?) ==> e.key in RequestedKeys([e]);
  }

  /** The cache only ever holds keys that were cached or in flight at the
      start, or that the run itself requested. */
  lemma {:induction false} RunCacheKeysFromAttempts(s: State, es: seq<Event>)
    requires Feasible(s, es)
    ensures Run(s, es).cache.Keys <= s.cache.Keys + InFlightKeys(s) + RequestedKeys(es)
    decreases |es|
  {
    if |es| > 0 {
      var t := Step(s, es[0]);
      StepKeysFromAttempts(s, es[0]);
      RunCacheKeysFromAttempts(t, es[1..]);
      assert RequestedKeys([es[0]]) + RequestedKeys(es[1..]) <= RequestedKeys(es) by {
        assert [es[0]][0] == es[0];
        forall j | j in RequestedKeys(es[1..]) ensures j in RequestedKeys(es) {
          var i :| 0 <= i < |es[1..]| && (es[1..][i].Refresh? || es[1..][i].EffectRun?)
                   && es[1..][i].key == j;
          assert es[i + 1] == es[1..][i];
        }
      }
    }
  }

  /** One event after the cleanup, other than a re-run of the effect. */
  lemma UnmountedStepIsInert(s: State, e: Event)
    requires Enabled(s, e) && !s.mounted && !e.EffectRun?
    ensures !Step(s, e).mounted && Step(s, e).cache == s.cache
    ensures Step(s, e).successCalls == s.successCalls && Step(s, e).errorCalls == s.errorCalls
    ensures e.Resolve? || e.Reject? ==> Step(s, e).data == s.data && Step(s, e).error == s.error
  {
  }

  /** After the cleanup, and as long as the effect does not run again, no
      callback fires and the cache is frozen; settlements alone leave the
      data and the error as they were too. */
  lemma {:induction false} UnmountedRunIsInert(s: State, es: seq<Event>)
    requires Feasible(s, es)
    requires !s.mounted
    requires forall i :: 0 <= i < |es| ==> !es[i].EffectRun?
    ensures !Run(s, es).mounted
    ensures Run(s, es).cache == s.cache
    ensures Run(s, es).successCalls == s.successCalls && Run(s, es).errorCalls == s.errorCalls
    ensures (forall i :: 0 <= i < |es| ==> es[i].Resolve? || es[i].Reject?) ==>
              Run(s, es).data == s.data && Run(s, es).error == s.error
    decreases |es|
  {
    if |es| > 0 {
      var rest := es[1..];
      assert forall i :: 0 <= i < |rest| ==> rest[i] == es[i + 1];
      UnmountedStepIsInert(s, es[0]);
      UnmountedRunIsInert(Step(s, es[0]), rest);
      assert Run(s, es) == Run(Step(s, es[0]), rest);
    }
  }

  /** Once a result for `a.key` has been stored while mounted, a later
      attempt for the same key is served from the cache: no fetcher call, no
      onSuccess, and a falsy result shows as null. */
  lemma CachedResultServedWithoutFetch(s: State, a: Attempt, result: Value, callbacks: Callbacks)
    requires s.mounted && a in s.inFlight
    ensures var t := Step(s, Resolve(a, result));
            var (u, outcome) := StartStep(t, a.key, true, callbacks);
            && outcome == FromCache
            && u.data == OrNull(result) && !u.loading
            && u.inFlight == t.inFlight && u.successCalls == t.successCalls
  {
  }

  /** The only guard against stale responses is the boolean mounted flag.
      When the key changes from `k1` to `k2`, the cleanup and the re-run of
      the effect leave the flag set again, so the superseded attempt for
      `k1` still writes its result when it settles after the newer one. */
  lemma SupersededAttemptStillWrites(s: State, k1: string, k2: string, v1: Value, v2: Value,
                                     cb1: Callbacks, cb2: Callbacks)
    requires k1 !in s.cache && k2 !in s.cache
    ensures var es := [EffectRun(k1, true, cb1), EffectCleanup, EffectRun(k2, true, cb2),
                       Resolve(Attempt(k2, cb2), v2), Resolve(Attempt(k1, cb1), v1)];
            && Feasible(s, es)
            && Run(s, es).data == v1
            && k1 in Run(s, es).cache && Run(s, es).cache[k1] == v1
  {
    var a1, a2 := Attempt(k1, cb1), Attempt(k2, cb2);
    var e0, e1, e2, e3, e4 :=
      EffectRun(k1, true, cb1), EffectCleanup, EffectRun(k2, true, cb2),
      Resolve(a2, v2), Resolve(a1, v1);
    var s3 := KeyChange(s, k1, k2, cb1, cb2);
    var s4 := SuccessStep(s3, a2, v2);
    assert a1 in s4.inFlight by {
      assert s3.inFlight == s.inFlight + multiset{a1} + multiset{a2};
    }
    var s5 := SuccessStep(s4, a1, v1);
    assert Step(s4, e4) == s5 && Step(s3, e3) == s4;
    assert Feasible(s5, []) && Run(s5, []) == s5;
    RunCons(s4, e4, []);
    RunCons(s3, e3, [e4]);
    assert [e3] + [e4] == [e3, e4];
    KeyChangeRun(s, k1, k2, cb1, cb2, [e3, e4]);
    assert [e0, e1, e2] + [e3, e4] == [e0, e1, e2, e3, e4];
  }

  /** The state after the effect ran for `k1`, was cleaned up, and ran again
      for `k2`, both keys being uncached. */
  function KeyChange(s: State, k1: string, k2: string, cb1: Callbacks, cb2: Callbacks): (r: State)
    requires k1 !in s.cache && k2 !in s.cache
    ensures r.mounted && r.cache == s.cache
    ensures r.inFlight == s.inFlight + multiset{Attempt(k1, cb1)} + multiset{Attempt(k2, cb2)}
  {
    MountStep(UnmountStep(MountStep(s, k1, true, cb1).0), k2, true, cb2).0
  }

  /** Running the key change and then `es` is running `es` from KeyChange. */
  lemma KeyChangeRun(s: State, k1: string, k2: string, cb1: Callbacks, cb2: Callbacks, es: seq<Event>)
    requires k1 !in s.cache && k2 !in s.cache
    requires Feasible(KeyChange(s, k1, k2, cb1, cb2), es)
    ensures Feasible(s, [EffectRun(k1, true, cb1), EffectCleanup, EffectRun(k2, true, cb2)] + es)
    ensures Run(s, [EffectRun(k1, true, cb1), EffectCleanup, EffectRun(k2, true, cb2)] + es)
            == Run(KeyChange(s, k1, k2, cb1, cb2), es)
  {
    var e0, e1, e2 := EffectRun(k1, true, cb1), EffectCleanup, EffectRun(k2, true, cb2);
    var s1 := Step(s, e0);
    var s2 := Step(s1, e1);
    assert Step(s2, e2) == KeyChange(s, k1, k2, cb1, cb2);
    RunCons(s2, e2, es);
    RunCons(s1, e1, [e2] + es);
    RunCons(s, e0, [e1] + ([e2] + es));
    assert [e0] + ([e1] + ([e2] + es)) == [e0, e1, e2] + es;
  }
}

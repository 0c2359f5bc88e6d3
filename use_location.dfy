/** src/hooks/useLocation.ts: the rider's location hook. It asks the location
    service for a fix with a two-minute cache, and when that call fails, asks
    once more for a fresh fix; each call has its own internal fallback, so up
    to four provider requests are made. */
module UseLocation {
  import opened Common
  import opened LocationService

  /** The options of the hook's first call. */
  const PrimaryRequest := PositionRequest(Some(120000), Some(true), Some(12000), Some(false))

  /** The options of the hook's second call. */
  const SecondaryRequest := PositionRequest(Some(0), Some(true), Some(15000), Some(false))

  /** The message used when the second failure carries none. */
  const UnableToLocate := "Unable to get location"

  /** The provider requests and the result of one `getCurrentPosition` of the
      hook, from the platform, permission answers and provider outcomes. */
  function Locate(platform: Platform, prompts: seq<PromptAnswer>, outcomes: seq<Outcome>): (run: AcquireRun)
    ensures |run.attempts| <= 4
  {
    var a := Acquire(PrimaryRequest, PermissionGranted(platform, NextPrompt(prompts)), outcomes);
    if a.result.Success? then a
    else
      var b := Acquire(SecondaryRequest, PermissionGranted(platform, NextPrompt(PromptsAfterRequest(platform, prompts))),
                       Drop(outcomes, |a.attempts|));
      AcquireRun(a.attempts + b.attempts, b.result)
  }

  /** The permission dialog's script after the hook's `getCurrentPosition`:
      each of its one or two calls asks for permission once. */
  function LocatePrompts(platform: Platform, prompts: seq<PromptAnswer>, outcomes: seq<Outcome>): (rest: seq<PromptAnswer>)
    ensures platform == Ios ==> rest == prompts
    ensures platform == Android && Locate(platform, prompts, outcomes).result.Failure? ==> rest == Drop(prompts, 2)
  {
    var once := PromptsAfterRequest(platform, prompts);
    if Acquire(PrimaryRequest, PermissionGranted(platform, NextPrompt(prompts)), outcomes).result.Success? then once
    else PromptsAfterRequest(platform, once)
  }

  /** `Locate` and `LocatePrompts` unfolded into the hook's two calls, one
      after the other: a proof step for `LocationHook.GetCurrentPosition`,
      which then reasons about each call on its own. */
  lemma LocateSteps(platform: Platform, prompts: seq<PromptAnswer>, outcomes: seq<Outcome>)
    ensures var a := Acquire(PrimaryRequest, PermissionGranted(platform, NextPrompt(prompts)), outcomes);
            var once := PromptsAfterRequest(platform, prompts);
            var b := Acquire(SecondaryRequest, PermissionGranted(platform, NextPrompt(once)), Drop(outcomes, |a.attempts|));
            && (a.result.Success? ==> Locate(platform, prompts, outcomes) == a && LocatePrompts(platform, prompts, outcomes) == once)
            && (a.result.Failure? ==>
                  Locate(platform, prompts, outcomes) == AcquireRun(a.attempts + b.attempts, b.result)
                  && LocatePrompts(platform, prompts, outcomes) == PromptsAfterRequest(platform, once))
  {
  }

  /** With permission granted and every provider request failing, the hook
      makes exactly four requests, in this order: the cached and fresh
      requests of its first call, then the two fresh requests of its second
      call. */
  lemma LocateAllFail(platform: Platform, prompts: seq<PromptAnswer>, outcomes: seq<Outcome>)
    requires PermissionGranted(platform, NextPrompt(prompts))
    requires PermissionGranted(platform, NextPrompt(PromptsAfterRequest(platform, prompts)))
    requires forall k :: 0 <= k < 4 ==> OutcomeAt(outcomes, k).Fail?
    ensures Locate(platform, prompts, outcomes).attempts == [
              FixOptions(true, 12000, 120000, true, false),
              FixOptions(true, 15000, 0, true, true),
              FixOptions(true, 15000, 0, true, false),
              FixOptions(true, 15000, 0, true, true)]
    ensures Locate(platform, prompts, outcomes).result == Failure(FormatLocationError(OutcomeAt(outcomes, 3).error))
  {
    assert OutcomeAt(outcomes, 0).Fail? && OutcomeAt(outcomes, 2).Fail?;
    var rest := Drop(outcomes, 2);
    assert OutcomeAt(rest, 0) == OutcomeAt(outcomes, 2);
    assert OutcomeAt(rest, 1) == OutcomeAt(outcomes, 3);
  }

  /** A successful call setting `location` carries the fix of the last provider
      request made, and every request before it failed: the hook keeps the
      first fix it gets. */
  lemma LocateFirstFix(platform: Platform, prompts: seq<PromptAnswer>, outcomes: seq<Outcome>)
    ensures var run := Locate(platform, prompts, outcomes);
            run.result.Success? ==>
              && |run.attempts| >= 1
              && OutcomeAt(outcomes, |run.attempts| - 1).Fix?
              && run.result.value == ToLocationData(OutcomeAt(outcomes, |run.attempts| - 1).position)
              && forall k :: 0 <= k < |run.attempts| - 1 ==> OutcomeAt(outcomes, k).Fail?
  {
    var p1 := PermissionGranted(platform, NextPrompt(prompts));
    var a := Acquire(PrimaryRequest, p1, outcomes);
    if !a.result.Success? {
      var rest := Drop(outcomes, |a.attempts|);
      var p2 := PermissionGranted(platform, NextPrompt(PromptsAfterRequest(platform, prompts)));
      var b := Acquire(SecondaryRequest, p2, rest);
      if b.result.Success? {
        assert forall k :: 0 <= k < |b.attempts| ==> OutcomeAt(rest, k) == OutcomeAt(outcomes, |a.attempts| + k);
        assert forall k :: 0 <= k < |a.attempts| ==> OutcomeAt(outcomes, k).Fail?;
      }
    }
  }

  /** A failed call reports a non-empty message: that of the second call. */
  lemma LocateErrorIsSecond(platform: Platform, prompts: seq<PromptAnswer>, outcomes: seq<Outcome>)
    ensures var run := Locate(platform, prompts, outcomes);
            var a := Acquire(PrimaryRequest, PermissionGranted(platform, NextPrompt(prompts)), outcomes);
            run.result.Failure? ==>
              && a.result.Failure?
              && run.result == Acquire(SecondaryRequest, PermissionGranted(platform, NextPrompt(PromptsAfterRequest(platform, prompts))),
                                       Drop(outcomes, |a.attempts|)).result
              && run.result.error != ""
  {
    var a := Acquire(PrimaryRequest, PermissionGranted(platform, NextPrompt(prompts)), outcomes);
    AcquireErrorNonEmpty(SecondaryRequest, PermissionGranted(platform, NextPrompt(PromptsAfterRequest(platform, prompts))),
                         Drop(outcomes, |a.attempts|));
  }

  /** The hook's state: the last fix, whether a request is in flight, and the
      last error. */
  class LocationHook {
    const device: Device
    var location: Option<LocationData>
    var loading: bool
    var error: Option<string>

    /** The initial state, before the mount effect's first request. */
    constructor (device: Device)
      ensures this.device == device
      ensures location == None && !loading && error == None
    {
      this.device := device;
      location, loading, error := None, false, None;
    }

    /** `getCurrentPosition` of the hook: clears `error`, makes the two calls
        `Locate` describes, keeps the first fix, and on a double failure sets
        `error` to the second failure's message; `loading` ends false. */
    method GetCurrentPosition()
      modifies this`location, this`loading, this`error, device`prompts, device`outcomes, device`requests
      ensures device.requests == old(device.requests) + Locate(device.platform, old(device.prompts), old(device.outcomes)).attempts
      ensures device.outcomes == Drop(old(device.outcomes), |Locate(device.platform, old(device.prompts), old(device.outcomes)).attempts|)
      ensures Locate(device.platform, old(device.prompts), old(device.outcomes)).result.Success? ==>
                location == Some(Locate(device.platform, old(device.prompts), old(device.outcomes)).result.value) && error == None
      ensures Locate(device.platform, old(device.prompts), old(device.outcomes)).result.Failure? ==>
                location == old(location) && error == Some(OrElse(Some(Locate(device.platform, old(device.prompts), old(device.outcomes)).result.error), UnableToLocate))
      ensures !loading
      ensures device.prompts == LocatePrompts(device.platform, old(device.prompts), old(device.outcomes))
    {
      ghost var p0, o0, r0 := device.prompts, device.outcomes, device.requests;
      ghost var a := Acquire(PrimaryRequest, PermissionGranted(device.platform, NextPrompt(p0)), o0);
      ghost var b := Acquire(SecondaryRequest, PermissionGranted(device.platform, NextPrompt(PromptsAfterRequest(device.platform, p0))),
                             Drop(o0, |a.attempts|));
      LocateSteps(device.platform, p0, o0);
      loading := true;
      error := None;
      var ok := Primary();
      if ok {
        loading := false;
        return;
      }
      Retry();
      DropDrop(o0, |a.attempts|, |b.attempts|);
      assert device.requests == r0 + (a.attempts + b.attempts);
      loading := false;
    }

    /** The hook's first call. */
    method Primary() returns (ok: bool)
      modifies this`location, device`prompts, device`outcomes, device`requests
      ensures var a := Acquire(PrimaryRequest, PermissionGranted(device.platform, NextPrompt(old(device.prompts))), old(device.outcomes));
              && ok == a.result.Success?
              && device.requests == old(device.requests) + a.attempts
              && device.outcomes == Drop(old(device.outcomes), |a.attempts|)
              && (ok ==> location == Some(a.result.value))
              && (!ok ==> location == old(location))
      ensures device.prompts == PromptsAfterRequest(device.platform, old(device.prompts))
    {
      var first := device.GetCurrentPosition(PrimaryRequest);
      ok := first.Success?;
      if ok {
        location := Some(first.value);
      }
    }

    /** The hook's second call, after the first one failed. */
    method Retry()
      modifies this`location, this`error, device`prompts, device`outcomes, device`requests
      ensures var b := Acquire(SecondaryRequest, PermissionGranted(device.platform, NextPrompt(old(device.prompts))), old(device.outcomes));
              && device.requests == old(device.requests) + b.attempts
              && device.outcomes == Drop(old(device.outcomes), |b.attempts|)
              && (b.result.Success? ==> location == Some(b.result.value) && error == old(error))
              && (b.result.Failure? ==> location == old(location) && error == Some(OrElse(Some(b.result.error), UnableToLocate)))
      ensures device.prompts == PromptsAfterRequest(device.platform, old(device.prompts))
    {
      var second := device.GetCurrentPosition(SecondaryRequest);
      if second.Success? {
        location := Some(second.value);
      } else {
        error := Some(OrElse(Some(second.error), UnableToLocate));
      }
    }

    /** `clearError` */
    method ClearError()
      modifies this`error
      ensures error == None
    {
      error := None;
    }
  }
}

/** src/services/LocationService.ts: permission handling, conversion of a
    provider fix, error messages, the two-tier single-fix strategy and the
    watch primitive. The device (platform, permission dialog, positioning
    provider) is a class whose answers are scripted: each permission prompt
    takes the next answer of `prompts`, each provider request the next outcome
    of `outcomes`. */
module LocationService {
  import opened Common

  datatype Platform = Ios | Android

  /** One entry of the result of `PermissionsAndroid.requestMultiple`. */
  datatype PermissionAnswer = Granted | Denied | NeverAskAgain

  /** The dialog's answer for fine and coarse location. */
  datatype PromptAnswer = PromptAnswer(fine: PermissionAnswer, coarse: PermissionAnswer)

  /** A dismissed dialog: what an exhausted prompt script answers. */
  const Dismissed := PromptAnswer(Denied, Denied)

  /** `requestLocationPermissions`: iOS always grants; Android grants when
      fine or coarse location is granted. */
  function PermissionGranted(platform: Platform, answer: PromptAnswer): (ok: bool)
    ensures platform == Ios ==> ok
    ensures platform == Android ==> (ok <==> answer.fine == Granted || answer.coarse == Granted)
  {
    platform == Ios || answer.fine == Granted || answer.coarse == Granted
  }

  datatype Coords = Coords(
    latitude: real,
    longitude: real,
    accuracy: real,
    altitude: Option<real>,
    heading: Option<real>,
    speed: Option<real>)

  /** A provider fix (`GeoPosition`). */
  datatype GeoPosition = GeoPosition(coords: Coords, timestamp: int)

  /** A provider error: its numeric code and its message ('' when it has none). */
  datatype GeoError = GeoError(code: int, message: string)

  /** What one provider request yields. */
  datatype Outcome = Fix(position: GeoPosition) | Fail(error: GeoError)

  /** A provider that never answers runs into the attempt's timeout (code 3). */
  const NoAnswer := Fail(GeoError(3, ""))

  /** `LocationData`; `None` stands for `null`. */
  datatype LocationData = LocationData(
    latitude: real,
    longitude: real,
    accuracy: Option<real>,
    altitude: Option<real>,
    heading: Option<real>,
    speed: Option<real>,
    timestamp: int)

  /** `toLocationData` */
  function ToLocationData(pos: GeoPosition): (d: LocationData)
    ensures d.latitude == pos.coords.latitude && d.longitude == pos.coords.longitude
    ensures d.accuracy == Some(pos.coords.accuracy) && d.timestamp == pos.timestamp
    ensures d.altitude == pos.coords.altitude && d.heading == pos.coords.heading && d.speed == pos.coords.speed
  {
    LocationData(pos.coords.latitude, pos.coords.longitude, Some(pos.coords.accuracy),
                 pos.coords.altitude, pos.coords.heading, pos.coords.speed, pos.timestamp)
  }

  // ---------------------------------------------------------------- error messages

  const PermissionDenied := "Location permission denied"
  // The long messages are written in pieces so that the verifier sees their characters.
  const PermissionMessage := "Location permission denied. " + "Please enable location access in your device settings."
  const UnavailableMessage := "Location not available. " + "Please check that location services are enabled " + "and you have a clear view of the sky if outdoors."
  const TimeoutMessage := "Location request timed out. " + "Please ensure you have a good GPS signal and try again."
  const OtherPrefix := "Location error: "

  /** `formatLocationError` */
  function FormatLocationError(e: GeoError): string {
    if e.code == 1 then PermissionMessage
    else if e.code == 2 then UnavailableMessage
    else if e.code == 3 then TimeoutMessage
    else OtherPrefix + (if e.message != "" then e.message else "Unknown error")
  }

  /** The three user-facing categories of a provider failure, and the rest. */
  datatype Category = PermissionCategory | UnavailableCategory | TimeoutCategory | OtherCategory

  function CategoryOfCode(code: int): Category {
    if code == 1 then PermissionCategory
    else if code == 2 then UnavailableCategory
    else if code == 3 then TimeoutCategory
    else OtherCategory
  }

  /** Reads the category back from a formatted message. */
  function CategoryOfMessage(msg: string): Category {
    if msg == PermissionMessage then PermissionCategory
    else if msg == UnavailableMessage then UnavailableCategory
    else if msg == TimeoutMessage then TimeoutCategory
    else OtherCategory
  }

  /** The formatted message determines the error's category: codes 1, 2 and 3
      give their three fixed messages, every other code a message that starts
      with "Location error: " and carries the raw message (or "Unknown
      error"), which is never one of the three. No formatted message is
      empty. */
  lemma FormatLocationErrorCategory(e: GeoError)
    ensures CategoryOfMessage(FormatLocationError(e)) == CategoryOfCode(e.code)
    ensures CategoryOfCode(e.code) == OtherCategory ==>
              FormatLocationError(e) == OtherPrefix + (if e.message != "" then e.message else "Unknown error")
    ensures FormatLocationError(e) != ""
  {
    var msg := FormatLocationError(e);
    if CategoryOfCode(e.code) == OtherCategory {
      assert msg[9] == 'e';
      assert PermissionMessage[9] == 'p' && UnavailableMessage[9] == 'n' && TimeoutMessage[9] == 'r';
    }
  }

  // ---------------------------------------------------------------- single fix

  /** The options of one provider request. */
  datatype FixOptions = FixOptions(
    enableHighAccuracy: bool,
    timeout: int,
    maximumAge: int,
    showLocationDialog: bool,
    forceLocationManager: bool)

  /** The `opts` argument of `getCurrentPosition`. */
  datatype PositionRequest = PositionRequest(
    cacheMs: Option<int>,
    highAccuracy: Option<bool>,
    timeoutMs: Option<int>,
    disableFallback: Option<bool>)

  /** The first attempt: the default provider, a cached fix up to `cacheMs`
      (default two minutes) and `timeoutMs` (default twelve seconds). */
  function FirstAttempt(req: PositionRequest): (o: FixOptions)
    ensures o.maximumAge == req.cacheMs.GetOr(120000) && o.timeout == req.timeoutMs.GetOr(12000)
    ensures o.enableHighAccuracy == req.highAccuracy.GetOr(true)
    ensures o.showLocationDialog && !o.forceLocationManager
  {
    FixOptions(req.highAccuracy.GetOr(true), req.timeoutMs.GetOr(12000), req.cacheMs.GetOr(120000), true, false)
  }

  /** The fallback attempt: a fresh fix from the platform's location manager,
      with at least fifteen seconds and never less than the first attempt. */
  function FallbackAttempt(req: PositionRequest): (o: FixOptions)
    ensures o.maximumAge == 0 && o.forceLocationManager && o.showLocationDialog
    ensures o.timeout >= 15000 && o.timeout >= FirstAttempt(req).timeout
    ensures o.timeout == 15000 || o.timeout == FirstAttempt(req).timeout
    ensures o.enableHighAccuracy == FirstAttempt(req).enableHighAccuracy
  {
    var t := req.timeoutMs.GetOr(12000);
    FixOptions(req.highAccuracy.GetOr(true), if t > 15000 then t else 15000, 0, true, true)
  }

  /** The `k`-th provider outcome of a script. */
  function OutcomeAt(script: seq<Outcome>, k: nat): Outcome {
    if k < |script| then script[k] else NoAnswer
  }

  /** A provider outcome as the caller sees it. */
  function Resolve(o: Outcome): (r: Result<LocationData, string>)
    ensures o.Fix? ==> r == Success(ToLocationData(o.position))
    ensures o.Fail? ==> r == Failure(FormatLocationError(o.error))
  {
    match o
    case Fix(pos) => Success(ToLocationData(pos))
    case Fail(e) => Failure(FormatLocationError(e))
  }

  /** The provider requests one `getCurrentPosition` call makes, and its result. */
  datatype AcquireRun = AcquireRun(attempts: seq<FixOptions>, result: Result<LocationData, string>)

  /** The fallback chain of `getCurrentPosition`, given whether permission was
      granted and the provider's script. */
  function Acquire(req: PositionRequest, permitted: bool, script: seq<Outcome>): (run: AcquireRun)
  {
    if !permitted then AcquireRun([], Failure(PermissionDenied))
    else
      var first := OutcomeAt(script, 0);
      if first.Fix? || req.disableFallback == Some(true) then AcquireRun([FirstAttempt(req)], Resolve(first))
      else AcquireRun([FirstAttempt(req), FallbackAttempt(req)], Resolve(OutcomeAt(script, 1)))
  }

  /** What the chain does: no request without permission; with it, the first
      request is the configured one, the fallback follows exactly a failed
      first request whose fallback is not disabled, and the result is that of
      the last request made. */
  lemma AcquireContract(req: PositionRequest, permitted: bool, script: seq<Outcome>)
    ensures |Acquire(req, permitted, script).attempts| <= 2
    ensures !permitted <==> Acquire(req, permitted, script).attempts == []
    ensures !permitted ==> Acquire(req, permitted, script).result == Failure(PermissionDenied)
    ensures permitted ==> Acquire(req, permitted, script).attempts[0] == FirstAttempt(req)
    ensures |Acquire(req, permitted, script).attempts| == 2 <==> permitted && OutcomeAt(script, 0).Fail? && req.disableFallback != Some(true)
    ensures |Acquire(req, permitted, script).attempts| == 2 ==> Acquire(req, permitted, script).attempts[1] == FallbackAttempt(req)
    ensures permitted ==> Acquire(req, permitted, script).result == Resolve(OutcomeAt(script, |Acquire(req, permitted, script).attempts| - 1))
  {
  }

  /** Every failure `getCurrentPosition` reports has a non-empty message. */
  lemma AcquireErrorNonEmpty(req: PositionRequest, permitted: bool, script: seq<Outcome>)
    ensures Acquire(req, permitted, script).result.Failure? ==> Acquire(req, permitted, script).result.error != ""
  {
    var run := Acquire(req, permitted, script);
    AcquireContract(req, permitted, script);
    if permitted && run.result.Failure? {
      FormatLocationErrorCategory(OutcomeAt(script, |run.attempts| - 1).error);
    }
  }

  // ---------------------------------------------------------------- watch

  /** The `options` argument of `watchPosition`. */
  datatype WatchRequest = WatchRequest(
    enableHighAccuracy: Option<bool>,
    timeout: Option<int>,
    maximumAge: Option<int>,
    distanceFilter: Option<int>,
    intervalMs: Option<int>,
    useLocationManager: Option<bool>)

  /** The options a watch is started with. */
  datatype WatchOptions = WatchOptions(
    enableHighAccuracy: bool,
    timeout: int,
    maximumAge: int,
    distanceFilter: int,
    interval: int,
    fastestInterval: int,
    showLocationDialog: bool,
    forceLocationManager: bool)

  /** `defaultOptions` of `watchPosition`. */
  function WatchDefaults(req: WatchRequest): (o: WatchOptions)
    ensures o.distanceFilter == req.distanceFilter.GetOr(10) && o.interval == req.intervalMs.GetOr(5000)
    ensures o.maximumAge == req.maximumAge.GetOr(0) && o.timeout == req.timeout.GetOr(15000)
    ensures o.enableHighAccuracy == req.enableHighAccuracy.GetOr(true)
    ensures o.forceLocationManager == req.useLocationManager.GetOr(false)
    ensures o.fastestInterval == 3000 && o.showLocationDialog
  {
    WatchOptions(req.enableHighAccuracy.GetOr(true), req.timeout.GetOr(15000), req.maximumAge.GetOr(0),
                 req.distanceFilter.GetOr(10), req.intervalMs.GetOr(5000), 3000, true,
                 req.useLocationManager.GetOr(false))
  }

  type WatchId = nat

  // ---------------------------------------------------------------- the device

  /** The answer the next permission dialog gives. */
  function NextPrompt(prompts: seq<PromptAnswer>): PromptAnswer {
    if prompts == [] then Dismissed else prompts[0]
  }

  /** The prompt script after one permission request: only Android shows a dialog. */
  function PromptsAfterRequest(platform: Platform, prompts: seq<PromptAnswer>): seq<PromptAnswer> {
    if platform == Ios then prompts else Drop(prompts, 1)
  }

  class Device {
    const platform: Platform
    var prompts: seq<PromptAnswer>
    var outcomes: seq<Outcome>
    /** Every provider request made so far, in order. */
    var requests: seq<FixOptions>
    /** The live watches and their options. */
    var watches: map<WatchId, WatchOptions>
    var nextWatch: nat

    ghost predicate Valid()
      reads this
    {
      forall w :: w in watches ==> w < nextWatch
    }

    constructor (platform: Platform, prompts: seq<PromptAnswer>, outcomes: seq<Outcome>)
      ensures Valid()
      ensures this.platform == platform && this.prompts == prompts && this.outcomes == outcomes
      ensures requests == [] && watches == map[]
    {
      this.platform := platform;
      this.prompts, this.outcomes := prompts, outcomes;
      requests, watches, nextWatch := [], map[], 0;
    }

    /** `requestLocationPermissions`: only Android shows the dialog. */
    method RequestLocationPermissions() returns (ok: bool)
      modifies this`prompts
      ensures ok == PermissionGranted(platform, NextPrompt(old(prompts))) && prompts == PromptsAfterRequest(platform, old(prompts))
    {
      if platform == Ios {
        return true;
      }
      var answer := NextPrompt(prompts);
      prompts := Drop(prompts, 1);
      ok := PermissionGranted(platform, answer);
    }

    /** `getPosition`: one provider request. */
    method GetPosition(o: FixOptions) returns (out: Outcome)
      modifies this`outcomes, this`requests
      ensures out == OutcomeAt(old(outcomes), 0)
      ensures outcomes == Drop(old(outcomes), 1) && requests == old(requests) + [o]
    {
      out := OutcomeAt(outcomes, 0);
      outcomes := Drop(outcomes, 1);
      requests := requests + [o];
    }

    /** `getCurrentPosition`: the permission check, then the attempts and
        result `Acquire` describes. */
    method GetCurrentPosition(req: PositionRequest) returns (r: Result<LocationData, string>)
      modifies this`prompts, this`outcomes, this`requests
      ensures var run := Acquire(req, PermissionGranted(platform, NextPrompt(old(prompts))), old(outcomes));
              && r == run.result
              && requests == old(requests) + run.attempts
              && outcomes == Drop(old(outcomes), |run.attempts|)
      ensures prompts == PromptsAfterRequest(platform, old(prompts))
    {
      ghost var script := outcomes;
      var permitted := RequestLocationPermissions();
      if !permitted {
        return Failure(PermissionDenied);
      }
      var first := GetPosition(FirstAttempt(req));
      if first.Fix? {
        return Success(ToLocationData(first.position));
      }
      if req.disableFallback == Some(true) {
        return Failure(FormatLocationError(first.error));
      }
      var second := GetPosition(FallbackAttempt(req));
      assert second == OutcomeAt(script, 1);
      r := Resolve(second);
    }

    /** `watchPosition`: with permission denied, `onError` (when given) gets
        the denial once, the call rejects and no watch starts; otherwise a
        watch starts with `WatchDefaults(req)`. `errors` are the messages
        passed to `onError` during the call. */
    method WatchPosition(req: WatchRequest, hasOnError: bool) returns (r: Result<WatchId, string>, errors: seq<string>)
      requires Valid()
      modifies this`prompts, this`watches, this`nextWatch
      ensures Valid()
      ensures prompts == PromptsAfterRequest(platform, old(prompts))
      ensures !PermissionGranted(platform, NextPrompt(old(prompts))) ==>
                r == Failure(PermissionDenied) && watches == old(watches)
                && errors == if hasOnError then [PermissionDenied] else []
      ensures PermissionGranted(platform, NextPrompt(old(prompts))) ==>
                && r.Success? && r.value !in old(watches) && watches == old(watches)[r.value := WatchDefaults(req)]
                && r.value == old(nextWatch) && nextWatch == r.value + 1
                && errors == []
      ensures !PermissionGranted(platform, NextPrompt(old(prompts))) ==> nextWatch == old(nextWatch)
    {
      var permitted := RequestLocationPermissions();
      if !permitted {
        errors := if hasOnError then [PermissionDenied] else [];
        return Failure(PermissionDenied), errors;
      }
      var w := nextWatch;
      watches := watches[w := WatchDefaults(req)];
      nextWatch := nextWatch + 1;
      r, errors := Success(w), [];
    }

    /** `clearWatch`: stops a watch; a second call changes nothing. */
    method ClearWatch(w: WatchId)
      requires Valid()
      modifies this`watches
      ensures Valid()
      ensures watches == old(watches) - {w}
    {
      watches := watches - {w};
    }

  }
}

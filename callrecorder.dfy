/** CallRecorderModule.kt: the JavaScript-facing switch for CallRecorderService. It keeps one
    flag, `isRecording`, launches or stops the service, answers each call through its promise and
    reports progress as events. */
module CallRecorder {
  import opened Platform

  const RECORD_AUDIO := "android.permission.RECORD_AUDIO"
  const READ_PHONE_STATE := "android.permission.READ_PHONE_STATE"
  const WRITE_EXTERNAL_STORAGE := "android.permission.WRITE_EXTERNAL_STORAGE"
  const READ_EXTERNAL_STORAGE := "android.permission.READ_EXTERNAL_STORAGE"
  const REQUEST_CODE := 1

  /** The permissions both `checkPermissions` and `requestPermissions` name, in order. */
  const REQUIRED: seq<string> := [RECORD_AUDIO, READ_PHONE_STATE, WRITE_EXTERNAL_STORAGE, READ_EXTERNAL_STORAGE]

  /** `permissions.all { granted }`, evaluated left to right. */
  function AllGranted(permissions: seq<string>, granted: set<string>): (r: bool)
    ensures r <==> forall i :: 0 <= i < |permissions| ==> permissions[i] in granted
    decreases |permissions|
  {
    if permissions == [] then true
    else permissions[0] in granted && AllGranted(permissions[1..], granted)
  }

  /** Recording is allowed exactly when all four permissions are held; RECORD_AUDIO alone, for
      instance, is not enough. */
  lemma CheckNeedsAllFour(granted: set<string>)
    ensures AllGranted(REQUIRED, granted) <==>
      RECORD_AUDIO in granted && READ_PHONE_STATE in granted
      && WRITE_EXTERNAL_STORAGE in granted && READ_EXTERNAL_STORAGE in granted
  {
    assert REQUIRED[0] == RECORD_AUDIO && REQUIRED[1] == READ_PHONE_STATE;
    assert REQUIRED[2] == WRITE_EXTERNAL_STORAGE && REQUIRED[3] == READ_EXTERNAL_STORAGE;
  }

  /** `sendEvent`: the emit happens only when the JavaScript side is reachable; a failure is
      swallowed. */
  function SendEvent(name: string, payload: Payload, jsReachable: bool): (r: seq<Effect>)
    ensures |r| <= 1 && (r != [] <==> jsReachable)
    ensures r != [] ==> r[0] == EventEmitted(name, payload)
  {
    if jsReachable then [EventEmitted(name, payload)] else []
  }

  /** The `recordingError` payload: the exception's message, or "Unknown error" without one. */
  function ErrorPayload(m: Message): (p: Payload)
    ensures p.ErrorText? && (m.Some? ==> p.error == m.value)
    ensures m.None? ==> p.error == "Unknown error"
  {
    ErrorText(if m.Some? then m.value else "Unknown error")
  }

  class CallRecorderModule {
    const device: Device
    var isRecording: bool

    constructor (device: Device)
      ensures this.device == device && !isRecording
    {
      this.device := device;
      isRecording := false;
    }

    /** `startRecording`. `granted` is the set of permissions the app holds, `launchFailure` the
        exception the service launch throws, if any, and `jsReachable` whether events reach
        JavaScript. */
    method StartRecording(granted: set<string>, launchFailure: Option<Message>, jsReachable: bool)
      modifies this, device`log
      ensures isRecording <==> old(isRecording) || (AllGranted(REQUIRED, granted) && launchFailure.None?)
      ensures !AllGranted(REQUIRED, granted) ==>
        device.log == old(device.log) + [PromiseRejected("PERMISSION_DENIED", Some("Required permissions not granted"))]
      ensures AllGranted(REQUIRED, granted) && launchFailure.None? ==>
        device.log == old(device.log) + [Launch(CallRecorderService, device.sdk)]
          + SendEvent("recordingStarted", SuccessFlag(true), jsReachable) + [PromiseResolved(JsBool(true))]
      ensures AllGranted(REQUIRED, granted) && launchFailure.Some? ==>
        device.log == old(device.log) + SendEvent("recordingError", ErrorPayload(launchFailure.value), jsReachable)
          + [PromiseRejected("ERROR", launchFailure.value)]
    {
      var permitted := AllGranted(REQUIRED, granted);
      if permitted {
        if launchFailure.Some? {
          var m := launchFailure.value;
          device.log := device.log + SendEvent("recordingError", ErrorPayload(m), jsReachable);
          device.log := device.log + [PromiseRejected("ERROR", m)];
          return;
        }
        device.log := device.log + [Launch(CallRecorderService, device.sdk)];
        isRecording := true;
        device.log := device.log + SendEvent("recordingStarted", SuccessFlag(true), jsReachable);
        device.log := device.log + [PromiseResolved(JsBool(true))];
      } else {
        device.log := device.log + [PromiseRejected("PERMISSION_DENIED", Some("Required permissions not granted"))];
      }
    }

    /** `stopRecording`: unconditional, whether or not a recording was started. */
    method StopRecording(stopFailure: Option<Message>, jsReachable: bool)
      modifies this, device`log
      ensures isRecording <==> old(isRecording) && stopFailure.Some?
      ensures stopFailure.None? ==>
        device.log == old(device.log) + [ServiceStopped(CallRecorderService)]
          + SendEvent("recordingStopped", SuccessFlag(true), jsReachable) + [PromiseResolved(JsBool(true))]
      ensures stopFailure.Some? ==>
        device.log == old(device.log) + SendEvent("recordingError", ErrorPayload(stopFailure.value), jsReachable)
          + [PromiseRejected("ERROR", stopFailure.value)]
    {
      if stopFailure.Some? {
        var m := stopFailure.value;
        device.log := device.log + SendEvent("recordingError", ErrorPayload(m), jsReachable);
        device.log := device.log + [PromiseRejected("ERROR", m)];
        return;
      }
      device.log := device.log + [ServiceStopped(CallRecorderService)];
      isRecording := false;
      device.log := device.log + SendEvent("recordingStopped", SuccessFlag(true), jsReachable);
      device.log := device.log + [PromiseResolved(JsBool(true))];
    }

    /** The `checkPermissions` promise: resolves with the private check's answer. */
    method CheckPermissions(granted: set<string>)
      modifies device`log
      ensures device.log == old(device.log) + [PromiseResolved(JsBool(AllGranted(REQUIRED, granted)))]
    {
      var all := AllGranted(REQUIRED, granted);
      device.log := device.log + [PromiseResolved(JsBool(all))];
    }

    /** `requestPermissions`: without a current activity, `!!` throws a NullPointerException,
        which carries no message. */
    method RequestPermissions(hasActivity: bool)
      modifies device`log
      ensures hasActivity ==>
        device.log == old(device.log) + [PermissionsRequested(REQUIRED, REQUEST_CODE), PromiseResolved(JsBool(true))]
      ensures !hasActivity ==> device.log == old(device.log) + [PromiseRejected("ERROR", None)]
    {
      if !hasActivity {
        device.log := device.log + [PromiseRejected("ERROR", None)];
        return;
      }
      device.log := device.log + [PermissionsRequested(REQUIRED, REQUEST_CODE)];
      device.log := device.log + [PromiseResolved(JsBool(true))];
    }

    /** `onCatalystInstanceDestroy`: stop the service only when this module believes it runs. */
    method OnCatalystInstanceDestroy()
      modifies device`log
      ensures old(isRecording) ==> device.log == old(device.log) + [ServiceStopped(CallRecorderService)]
      ensures !old(isRecording) ==> device.log == old(device.log)
    {
      if isRecording {
        device.log := device.log + [ServiceStopped(CallRecorderService)];
      }
    }
  }
}

/** The Android side that the app's own code talks to: shared preferences, the effect log of OS
    calls, and the values that cross the React Native bridge. Each modelled OS call other than a
    preference write is an `Effect` appended to `Device.log`; every answer the OS gives back (a
    permission, a directory, an exception, the admin bit, the clock) is a parameter of the
    operation that asks. */
module Platform {

  datatype Option<T> = None | Some(value: T)

  /** The message of a JVM exception, which may be null. */
  type Message = Option<string>

  /** Kotlin's string template `"${e.message}"`: a null message prints as "null". */
  function Show(m: Message): string
  {
    match m
    case Some(s) => s
    case None => "null"
  }

  /** Build.VERSION_CODES used by the app. */
  const SDK_M := 23
  const SDK_N := 24
  const SDK_O := 26

  /** The text of a stored string. A Double written with `toString()` is kept as the number it
      renders, so that `toDoubleOrNull()` recovers it; any other text does not parse. */
  datatype Text = Rendered(number: real) | Unparsable(chars: string)

  /** Kotlin's `String.toDoubleOrNull()`. */
  function ParseDouble(t: Text): Option<real>
  {
    match t
    case Rendered(d) => Some(d)
    case Unparsable(_) => None
  }

  /** A value in a SharedPreferences file, tagged with the putter that wrote it. */
  datatype PrefValue =
    | BoolPref(flag: bool)
    | StringPref(text: Text)
    | LongPref(long: int)
    | FloatPref(float: real)

  type Store = map<string, PrefValue>

  /** All SharedPreferences files of the app, by name. */
  type PrefFiles = map<string, Store>

  /** `getSharedPreferences(name)`: a file that was never written reads as empty. */
  function FileOf(files: PrefFiles, name: string): Store
  {
    if name in files then files[name] else map[]
  }

  /** `getBoolean(key, default)`; None when the key holds a value of another type, where
      Android throws ClassCastException. */
  function GetBoolean(st: Store, key: string, default: bool): Option<bool>
  {
    if key !in st then Some(default)
    else if st[key].BoolPref? then Some(st[key].flag)
    else None
  }

  /** `getLong(key, default)`; None on a type mismatch. */
  function GetLong(st: Store, key: string, default: int): Option<int>
  {
    if key !in st then Some(default)
    else if st[key].LongPref? then Some(st[key].long)
    else None
  }

  /** `getString(key, default)`; None on a type mismatch. */
  function GetString(st: Store, key: string, default: Text): Option<Text>
  {
    if key !in st then Some(default)
    else if st[key].StringPref? then Some(st[key].text)
    else None
  }

  datatype Service =
    | LocationService
    | LocationUpdateTask(latitude: real, longitude: real, timestamp: int)
    | CallRecorderService

  /** The two device-admin receivers the app declares. */
  datatype AdminComponent = AdminReceiver | MyDeviceAdminReceiver

  datatype Intent =
    | UninstallRequest(data: Option<string>, newTask: bool)
    | AddDeviceAdmin(admin: AdminComponent, explanation: string, newTask: bool)

  datatype AudioSource = Mic | VoiceCall | VoiceCommunication

  /** Values handed to JavaScript through a promise or a callback. */
  datatype JsValue =
    | JsBool(b: bool)
    | JsString(s: string)
    | JsStatus(isTracking: bool, latitude: real, longitude: real, timestamp: int)

  /** Event payloads: a nullable string, `{success: b}` or `{error: text}`. */
  datatype Payload = Text(text: Option<string>) | SuccessFlag(success: bool) | ErrorText(error: string)

  datatype Effect =
    | ServiceStarted(service: Service, foreground: bool)
    | ServiceStopped(service: Service)
    | ForegroundEntered(notificationId: int)
    | WakeLockAcquired(timeoutMillis: int)
    | WakeLockReleased
    | LocationUpdatesRequested
    | LastLocationRequested
    | LocationUpdatesRemoved
    | PromiseResolved(value: JsValue)
    | PromiseRejected(code: string, message: Message)
    | CallbackInvoked(value: JsValue)
    | EventEmitted(name: string, payload: Payload)
    | ReceiverRegistered(action: string)
    | RecorderConfigured(recorder: nat, source: AudioSource, outputFile: string)
    | RecorderStarted(recorder: nat)
    | RecorderStopped(recorder: nat)
    | RecorderReleased(recorder: nat)
    | DirectoryCreated(path: string)
    | SelfStopped
    | PermissionsRequested(permissions: seq<string>, requestCode: int)
    | ActivityStarted(intent: Intent)
    | ActivityStartedForResult(intent: Intent, requestCode: int)
    | ActivityFinished
    | ToastShown(text: string)
    | DialogShown(title: string, cancelable: bool)
    | DialogDismissed
    | PasswordQualitySet(admin: AdminComponent, quality: int)
    | PasswordReset(password: string, flags: int)
    | DeviceLocked

  /** The `startForegroundService` / `startService` choice the app makes on every launch. */
  function Launch(service: Service, sdk: int): Effect
  {
    ServiceStarted(service, sdk >= SDK_O)
  }

  /** The device as the app sees it. */
  class Device {
    const sdk: int
    var prefs: PrefFiles
    var log: seq<Effect>
    var speakerphoneOn: bool
    /** Identity of the next MediaRecorder the app constructs. */
    var nextHandle: nat

    constructor (sdk: int, prefs: PrefFiles)
      ensures this.sdk == sdk && this.prefs == prefs
      ensures log == [] && !speakerphoneOn && nextHandle == 0
    {
      this.sdk := sdk;
      this.prefs := prefs;
      log := [];
      speakerphoneOn := false;
      nextHandle := 0;
    }
  }
}

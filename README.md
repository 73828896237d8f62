# Notifi: verified model of the app's native decision logic

Notifi is a React Native app for Android. It tracks location in the background, records calls,
and protects itself against uninstallation with a device-admin password. Most of its native code
forwards single calls to the OS. This project models the parts that decide something:

- the location-tracking lifecycle: `TrackingModule` with its inner `LocationService`,
  `BootReceiver` and `TrackingWorker`;
- the two call-recording state machines: `CallStateModule`, and `CallRecorderModule` with
  its `CallRecorderService`;
- the uninstall and device-admin gates: the two password activities, the two admin modules,
  and the JavaScript activation flow that drives them.

The OS is modelled as one `Device` object (`platform.dfy`). It holds the SharedPreferences
files as maps, the speakerphone bit, and an ordered log of the OS calls the app makes (a service
started, an event emitted, a promise settled, an activity launched, a recorder configured),
except the preference writes, which change the files instead, and the calls listed under
"Left out". Every
answer the OS gives back is a parameter of the operation that receives it. That covers permission
checks, directories, the clock, exceptions thrown by `prepare()`, `stop()` or a service
launch, and the set of active device admins.

Code that updates fields in place is modelled as a Dafny class with the same fields: the
tracking module and service, the call-state module, the recorder module and service, and the two
activities. Code that only reads and branches is modelled as functions: the boot receiver, the
admin modules (whose only state is the OS's admin bit) and the two JavaScript files.
`CallStateModule` is also specified by a pure transition system (`Snapshot`, `StartStep`,
`StopStep`, `OnPhoneState`). Its class proves each method equal to the matching step, and the
invariants are proved on the steps.

## Model

| member | source | states |
|---|---|---|
| Digits.Decimal | android/app/src/main/java/com/cogniant/Notifi/CallStateModule.kt:66 | `Long.toString` of the clock is a non-empty digit string with no leading zero |
| Digits.ValueOfDecimal | android/app/src/main/java/com/cogniant/Notifi/CallStateModule.kt:66 | reading back a rendered number gives the number |
| Digits.DecimalInjective | android/app/src/main/java/com/cogniant/Notifi/CallStateModule.kt:66 | two clock readings render alike exactly when they are equal |
| Digits.PaddedRoundTrip | android/app/src/main/java/com/cogniant/Notifi/CallRecorderService.kt:65 | a zero-padded date field of width w is exactly w digits long and reads back as its value when it fits |
| Tracking.WithFlag | android/app/src/main/java/com/cogniant/Notifi/TrackingModule.kt:90 | `putBoolean("isTracking", b)` makes the flag read b and keeps every other key and the file's typing |
| Tracking.FlagLastWins | android/app/src/main/java/com/cogniant/Notifi/TrackingModule.kt:110-111 | only the last flag write counts, so `stopTracking` is idempotent |
| Tracking.WithFix | android/app/src/main/java/com/cogniant/Notifi/TrackingModule.kt:63-69 | a fix overwrites exactly latitude, longitude and timestamp and leaves the flag as it was |
| Tracking.FixLastWins | android/app/src/main/java/com/cogniant/Notifi/TrackingModule.kt:64-69 | a later fix replaces an earlier one completely |
| Tracking.ReadStatus | android/app/src/main/java/com/cogniant/Notifi/TrackingModule.kt:127-131 | the status reads false, 0 and 0.0 for missing keys and 0.0 for unparsable coordinates; it succeeds exactly when every key holds the type this code writes, and fails (a getter throws) otherwise |
| Tracking.StatusAfterFix | android/app/src/main/java/com/cogniant/Notifi/TrackingModule.kt:63-69 | reading the status after a fix reports that fix and the unchanged flag |
| Tracking.BatchLastWins | android/app/src/main/java/com/cogniant/Notifi/TrackingModule.kt:158-161 | after a batch the stored fix is the batch's last element |
| Tracking.BatchKeepsFlag | android/app/src/main/java/com/cogniant/Notifi/TrackingModule.kt:158-161 | a batch never changes the tracking flag |
| Tracking.TaskLaunchesOnePerFix | android/app/src/main/java/com/cogniant/Notifi/TrackingModule.kt:261-270 | one headless-task launch per fix, in order, whose intent extras carry that fix and its clock reading |
| Tracking.Companion.constructor | android/app/src/main/java/com/cogniant/Notifi/TrackingModule.kt:50-52 | the statics start at 0.0, 0.0 and 0 |
| Tracking.Companion.UpdateLocation | android/app/src/main/java/com/cogniant/Notifi/TrackingModule.kt:56-69 | the statics take the fix; the file gets the same three values and the stored timestamp equals `lastTimestamp` |
| Tracking.TrackingModule.StartTracking | android/app/src/main/java/com/cogniant/Notifi/TrackingModule.kt:78-104 | already tracking: "Already tracking" and nothing written; otherwise the flag is set before the launch, stays set if the launch throws, and the promise rejects "ERROR" |
| Tracking.TrackingModule.StopTracking | android/app/src/main/java/com/cogniant/Notifi/TrackingModule.kt:107-121 | the flag is cleared whatever it was, then the service is stopped and "Tracking stopped" resolves |
| Tracking.TrackingModule.GetTrackingStatus | android/app/src/main/java/com/cogniant/Notifi/TrackingModule.kt:124-143 | resolves the status read from the file, or rejects "ERROR" when a getter throws |
| Tracking.LocationService.constructor | android/app/src/main/java/com/cogniant/Notifi/TrackingModule.kt:152-167 | a new service is not running and holds no wake lock |
| Tracking.LocationService.OnStartCommand | android/app/src/main/java/com/cogniant/Notifi/TrackingModule.kt:169-190 | a second start is a no-op; the first enters the foreground, takes the two-hour wake lock, requests updates when permitted; always START_STICKY and running afterwards |
| Tracking.LocationService.HandleLocationUpdate | android/app/src/main/java/com/cogniant/Notifi/TrackingModule.kt:256-271 | stores the fix through `updateLocation`, then launches the headless task with it |
| Tracking.LocationService.OnLastLocation | android/app/src/main/java/com/cogniant/Notifi/TrackingModule.kt:246-250 | a null last location changes nothing, not even the statics; otherwise it is stored, published in the statics and handed to the task like any fix |
| Tracking.LocationService.OnLocationResult | android/app/src/main/java/com/cogniant/Notifi/TrackingModule.kt:157-162 | the batch is handled in order: the file equals the batch replayed and the statics hold its last element |
| Tracking.LocationService.OnDestroy | android/app/src/main/java/com/cogniant/Notifi/TrackingModule.kt:275-287 | updates are removed, the wake lock is released only if still held, and the service is no longer running |
| Boot.OnReceive | android/app/src/main/java/com/cogniant/Notifi/BootReceiver.kt:10-42 | other actions do nothing; tracking restarts iff the flag is true (a missing key counts as false), with the same `LocationService`; a launch failure is caught and reported exactly when the flag is true and the launch throws; the receiver crashes exactly when the flag is not a boolean |
| Boot.NoRestartAfterStop | android/app/src/main/java/com/cogniant/Notifi/BootReceiver.kt:14-16 | after `stopTracking` a reboot never restarts tracking |
| Boot.RestartAfterStart | android/app/src/main/java/com/cogniant/Notifi/BootReceiver.kt:14-16 | after `startTracking` a reboot restarts the same service |
| Boot.BatchDoesNotChangeBoot | android/app/src/main/java/com/cogniant/Notifi/BootReceiver.kt:20-27 | stored fixes never change what a reboot decides |
| Worker.GetCurrentLocation | android/app/src/main/java/com/cogniant/Notifi/TrackingWorker.kt:70-101 | an exception from the request reaches `doWork`; a delivered fix or null is returned as is |
| Worker.WithWorkerFix | android/app/src/main/java/com/cogniant/Notifi/TrackingWorker.kt:45-58 | exactly latitude, longitude and timestamp of TrackingPrefs are overwritten |
| Worker.TrackingWorker.DoWork | android/app/src/main/java/com/cogniant/Notifi/TrackingWorker.kt:28-101 | retry iff the location request threw; no permission writes and requests nothing; a delivered reply removes the request; no fix writes 0 and 0 with the current time; LocationTrackingPrefs is never touched |
| Worker.WorkerDoesNotChangeBoot | android/app/src/main/java/com/cogniant/Notifi/TrackingWorker.kt:26 | whatever the worker writes, a reboot decides as before |
| CallState.RecordingPathsDistinct | android/app/src/main/java/com/cogniant/Notifi/CallStateModule.kt:66 | recordings started at different milliseconds get different paths |
| CallState.ReleaseStep | android/app/src/main/java/com/cogniant/Notifi/CallStateModule.kt:107-111 | releases a held recorder, then no recorder and not recording |
| CallState.StartStep | android/app/src/main/java/com/cogniant/Notifi/CallStateModule.kt:47-85 | a start keeps the invariant that recording implies a held recorder |
| CallState.StartRefused | android/app/src/main/java/com/cogniant/Notifi/CallStateModule.kt:48-64 | already recording: nothing; no RECORD_AUDIO: "Permission denied"; no storage: "Storage unavailable"; no field changes in any of them |
| CallState.StartConfigures | android/app/src/main/java/com/cogniant/Notifi/CallStateModule.kt:66-71 | a start that reaches `prepare()` builds a new MIC recorder on a new path and keeps it in the field, recording or not |
| CallState.StartSucceeds | android/app/src/main/java/com/cogniant/Notifi/CallStateModule.kt:72-78 | success: recording, speakerphone on, RecordingStarted carrying the path |
| CallState.StartPrepareFails | android/app/src/main/java/com/cogniant/Notifi/CallStateModule.kt:67-84 | IOException: RecordingError, not recording, the previous recorder released, the failed recorder kept unreleased |
| CallState.StopStep | android/app/src/main/java/com/cogniant/Notifi/CallStateModule.kt:87-105 | a no-op unless recording with a recorder; then always released and cleared, speakerphone off only if `stop()` succeeded |
| CallState.RingingOrOffhookStarts | android/app/src/main/java/com/cogniant/Notifi/CallStateModule.kt:124-131 | a RINGING or OFFHOOK broadcast is reported first and then acts exactly as a start |
| CallState.IdleStops | android/app/src/main/java/com/cogniant/Notifi/CallStateModule.kt:124-132 | an IDLE broadcast is reported first and then acts exactly as a stop |
| CallState.PhoneStateConsistent | android/app/src/main/java/com/cogniant/Notifi/CallStateModule.kt:124-135 | every broadcast keeps recording-implies-recorder, and an IDLE one ends any recording |
| CallState.OtherStatesOnlyReported | android/app/src/main/java/com/cogniant/Notifi/CallStateModule.kt:128-133 | any other state is reported and changes nothing |
| CallState.OnTeardown | android/app/src/main/java/com/cogniant/Notifi/CallStateModule.kt:138-143 | teardown ends any recording |
| CallState.ReplayConsistent | android/app/src/main/java/com/cogniant/Notifi/CallStateModule.kt:67-111 | over any sequence of broadcasts, recording implies a held recorder |
| CallState.IdleEndsRecording | android/app/src/main/java/com/cogniant/Notifi/CallStateModule.kt:132 | whatever came before, a final IDLE leaves nothing recording |
| CallState.CallStateModule.constructor | android/app/src/main/java/com/cogniant/Notifi/CallStateModule.kt:30-39 | registers the PHONE_STATE receiver; no recorder, path or recording |
| CallState.CallStateModule.ReleaseRecorder | android/app/src/main/java/com/cogniant/Notifi/CallStateModule.kt:107-111 | implements `ReleaseStep` |
| CallState.CallStateModule.StartRecording | android/app/src/main/java/com/cogniant/Notifi/CallStateModule.kt:47-85 | implements `StartStep`, the recorder assigned only after its block ran; also what `manualStartRecording` does |
| CallState.CallStateModule.StopRecording | android/app/src/main/java/com/cogniant/Notifi/CallStateModule.kt:87-105 | implements `StopStep`; also what `manualStopRecording` does |
| CallState.CallStateModule.OnReceive | android/app/src/main/java/com/cogniant/Notifi/CallStateModule.kt:124-135 | implements `OnPhoneState` and keeps the invariant |
| CallState.CallStateModule.OnCatalystInstanceDestroy | android/app/src/main/java/com/cogniant/Notifi/CallStateModule.kt:138-143 | implements `OnTeardown` |
| CallRecorder.AllGranted | android/app/src/main/java/com/cogniant/Notifi/CallRecorderModule.kt:96-98 | true iff every listed permission is granted |
| CallRecorder.CheckNeedsAllFour | android/app/src/main/java/com/cogniant/Notifi/CallRecorderModule.kt:88-99 | the check needs all four permissions |
| CallRecorder.SendEvent | android/app/src/main/java/com/cogniant/Notifi/CallRecorderModule.kt:122-130 | an event is emitted only when JavaScript is reachable, and a failure never reaches the caller |
| CallRecorder.ErrorPayload | android/app/src/main/java/com/cogniant/Notifi/CallRecorderModule.kt:58-60 | the error payload carries the message, or "Unknown error" |
| CallRecorder.CallRecorderModule.constructor | android/app/src/main/java/com/cogniant/Notifi/CallRecorderModule.kt:17 | not recording initially |
| CallRecorder.CallRecorderModule.StartRecording | android/app/src/main/java/com/cogniant/Notifi/CallRecorderModule.kt:40-63 | no permissions: reject PERMISSION_DENIED, no event, flag unchanged; otherwise launch, flag set, recordingStarted, resolve true, with no already-recording guard; a throw reports recordingError and rejects ERROR |
| CallRecorder.CallRecorderModule.StopRecording | android/app/src/main/java/com/cogniant/Notifi/CallRecorderModule.kt:66-81 | stops the service and clears the flag even when nothing was recording; a throw reports and rejects |
| CallRecorder.CallRecorderModule.CheckPermissions | android/app/src/main/java/com/cogniant/Notifi/CallRecorderModule.kt:84-86 | resolves with the all-four check |
| CallRecorder.CallRecorderModule.RequestPermissions | android/app/src/main/java/com/cogniant/Notifi/CallRecorderModule.kt:102-120 | requests the four permissions with code 1 and resolves true whatever the user answers; without an activity rejects ERROR |
| CallRecorder.CallRecorderModule.OnCatalystInstanceDestroy | android/app/src/main/java/com/cogniant/Notifi/CallRecorderModule.kt:132-138 | stops the service only while recording |
| RecorderService.AudioSourceFor | android/app/src/main/java/com/cogniant/Notifi/CallRecorderService.kt:41-47 | VOICE_COMMUNICATION exactly when M <= SDK < N, VOICE_CALL otherwise |
| RecorderService.ParseStamp | android/app/src/main/java/com/cogniant/Notifi/CallRecorderService.kt:65 | a parsed stamp has fields within their pattern widths |
| RecorderService.DatePartRoundTrip | android/app/src/main/java/com/cogniant/Notifi/CallRecorderService.kt:65 | the `yyyyMMdd` half is eight digits whose fields read back as the date |
| RecorderService.TimePartRoundTrip | android/app/src/main/java/com/cogniant/Notifi/CallRecorderService.kt:65 | the `HHmmss` half is six digits whose fields read back as the time of day |
| RecorderService.ParseJoined | android/app/src/main/java/com/cogniant/Notifi/CallRecorderService.kt:65 | a date half and a time half joined by `_` parse field by field |
| RecorderService.StampRoundTrip | android/app/src/main/java/com/cogniant/Notifi/CallRecorderService.kt:65 | `yyyyMMdd_HHmmss` is 15 characters and reads back as the time it printed |
| RecorderService.SameNameIffSameSecond | android/app/src/main/java/com/cogniant/Notifi/CallRecorderService.kt:65-66 | two recordings share a file name exactly when they start at the same local date and time, to the second (two distinct instants can share one around a daylight-saving fall-back) |
| RecorderService.RecordingsDir | android/app/src/main/java/com/cogniant/Notifi/CallRecorderService.kt:68 | the directory is CallRecordings under the files directory, or relative when that is null |
| RecorderService.AbsolutePath | android/app/src/main/java/com/cogniant/Notifi/CallRecorderService.kt:54 | `absolutePath` starts at the root and ends with the path it resolves, which it keeps when already absolute |
| RecorderService.AbsolutePathIdempotent | android/app/src/main/java/com/cogniant/Notifi/CallRecorderService.kt:54 | resolving twice is resolving once |
| RecorderService.NoStorageWritesUnderRoot | android/app/src/main/java/com/cogniant/Notifi/CallRecorderService.kt:54-68 | without external storage the recording goes to `/CallRecordings` |
| RecorderService.CallRecorderService.constructor | android/app/src/main/java/com/cogniant/Notifi/CallRecorderService.kt:20-23 | enters the foreground with id 1001 and holds no recorder |
| RecorderService.CallRecorderService.OnStartCommand | android/app/src/main/java/com/cogniant/Notifi/CallRecorderService.kt:25-74 | creates the directory only if missing; the recorder gets the absolute path; a new recorder overwrites the field unreleased; starts it or stops the service on a setup error; START_NOT_STICKY |
| RecorderService.CallRecorderService.OnDestroy | android/app/src/main/java/com/cogniant/Notifi/CallRecorderService.kt:100-111 | stop then release; the field is cleared only if both succeed, and release is skipped when stop throws |
| UninstallActivity.Contains | android/app/src/main/java/com/cogniant/Notifi/UninstallProtectionActivity.kt:20 | `contains` is substring occurrence |
| UninstallActivity.ShouldPrompt | android/app/src/main/java/com/cogniant/Notifi/UninstallProtectionActivity.kt:20 | prompts exactly for the DELETE action with a data string that contains the package name |
| UninstallActivity.PackageUriPrompts | android/app/src/main/java/com/cogniant/Notifi/UninstallProtectionActivity.kt:20 | this app's package URI prompts, and so does that of any package whose name extends this one |
| UninstallActivity.UninstallProtectionActivity.constructor | android/app/src/main/java/com/cogniant/Notifi/UninstallProtectionActivity.kt:11 | keeps the intent's action and data; no dialog yet |
| UninstallActivity.UninstallProtectionActivity.OnCreate | android/app/src/main/java/com/cogniant/Notifi/UninstallProtectionActivity.kt:15-26 | shows the non-cancelable dialog iff the intent check passes, otherwise finishes |
| UninstallActivity.UninstallProtectionActivity.Confirm | android/app/src/main/java/com/cogniant/Notifi/UninstallProtectionActivity.kt:38-53 | exactly "secure123" re-issues DELETE with the original URI, then finishes; anything else toasts and finishes |
| UninstallActivity.UninstallProtectionActivity.Cancel | android/app/src/main/java/com/cogniant/Notifi/UninstallProtectionActivity.kt:54-58 | toasts and finishes with no uninstall request |
| UninstallActivity.UninstallProtectionActivity.Back | android/app/src/main/java/com/cogniant/Notifi/UninstallProtectionActivity.kt:59 | back does nothing while the dialog is up |
| UninstallActivity.WrongPasswordNeverUninstalls | android/app/src/main/java/com/cogniant/Notifi/UninstallProtectionActivity.kt:41-58 | without the password no activity is ever started |
| PasswordPrompt.PasswordPromptActivity.constructor | android/app/src/main/java/com/cogniant/Notifi/PasswordPromptActivity.kt:22 | the dialog is not yet assigned |
| PasswordPrompt.PasswordPromptActivity.OnCreate | android/app/src/main/java/com/cogniant/Notifi/PasswordPromptActivity.kt:24-46 | shows a dialog that neither back nor a touch outside can cancel |
| PasswordPrompt.PasswordPromptActivity.DismissAndFinish | android/app/src/main/java/com/cogniant/Notifi/PasswordPromptActivity.kt:50-51 | dismisses the dialog, then finishes |
| PasswordPrompt.PasswordPromptActivity.Submit | android/app/src/main/java/com/cogniant/Notifi/PasswordPromptActivity.kt:48-57 | "secure123" dismisses and finishes; anything else toasts and keeps the dialog up |
| PasswordPrompt.PasswordPromptActivity.Cancel | android/app/src/main/java/com/cogniant/Notifi/PasswordPromptActivity.kt:59-62 | dismisses and finishes |
| PasswordPrompt.PasswordPromptActivity.OnBackPressed | android/app/src/main/java/com/cogniant/Notifi/PasswordPromptActivity.kt:68-71 | with the dialog no longer showing, back dismisses and finishes |
| PasswordPrompt.PasswordPromptActivity.Back | android/app/src/main/java/com/cogniant/Notifi/PasswordPromptActivity.kt:41 | back while the dialog shows cancels it only if cancelable; as built, it stays up |
| PasswordPrompt.PasswordPromptActivity.TouchOutside | android/app/src/main/java/com/cogniant/Notifi/PasswordPromptActivity.kt:42 | a touch outside dismisses only if allowed; as built, the dialog stays up |
| PasswordPrompt.PromptSurvivesBackAndTouch | android/app/src/main/java/com/cogniant/Notifi/PasswordPromptActivity.kt:24-46 | after `onCreate`, back and outside touches leave the dialog showing with no further effect |
| PasswordPrompt.CorrectPasswordIsCancel | android/app/src/main/java/com/cogniant/Notifi/PasswordPromptActivity.kt:48-62 | a correct password ends in the same state with the same effects as Cancel |
| UninstallAdmin.ActivateAdmin | android/app/src/main/java/com/cogniant/Notifi/UninstallProtectionModule.kt:23-35 | inactive: launch the add-admin screen and resolve true before any grant; active: resolve false and launch nothing |
| ProtectionSetup.AdminAnswersComplement | android/app/src/main/java/com/cogniant/Notifi/UninstallProtectionModule.kt:23-40 | `activateAdmin` resolves true exactly when `isAdminActive` resolves false |
| UninstallAdmin.SetPassword | android/app/src/main/java/com/cogniant/Notifi/UninstallProtectionModule.kt:43-58 | resolves true iff active and nothing throws; the password is reset only then; inactive rejects "Device admin not active" |
| UninstallAdmin.QualityBeforeReset | android/app/src/main/java/com/cogniant/Notifi/UninstallProtectionModule.kt:46-50 | a reset always comes right after the quality is set to alphanumeric |
| DeviceAdmin.EnableDeviceAdmin | android/app/src/main/java/com/cogniant/Notifi/DeviceAdminModule.kt:19-25 | asks for activation whatever the bit; nothing without an activity |
| DeviceAdmin.LockDevice | android/app/src/main/java/com/cogniant/Notifi/DeviceAdminModule.kt:28-33 | locks iff active, after resetting the password |
| DeviceAdmin.ReportsWhetherLockWorks | android/app/src/main/java/com/cogniant/Notifi/DeviceAdminModule.kt:28-50 | `isDeviceAdminActive` reports true exactly when `lockDevice` would lock |
| DeviceAdmin.GrantingEnableActivates | android/app/src/main/java/com/cogniant/Notifi/DeviceAdminModule.kt:14-50 | granting the request `enableDeviceAdmin` launches makes this module report active and lock, and leaves the other module unchanged |
| DeviceAdmin.UnlockDevice | android/app/src/main/java/com/cogniant/Notifi/DeviceAdminModule.kt:36-44 | reports true iff active |
| DeviceAdmin.UnlockIgnoresPassword | android/app/src/main/java/com/cogniant/Notifi/DeviceAdminModule.kt:36-44 | the password is never consulted; the answer equals `isDeviceAdminActive` |
| DeviceAdmin.AdminBitsIndependent | android/app/src/main/java/com/cogniant/Notifi/DeviceAdminModule.kt:14 | activating either component changes nothing the other module does |
| ProtectionJs.AnswerOf | constants/UninstallProtection.js:9 | an awaited native promise yields the value it resolved with, or the rejection |
| ProtectionJs.ActivateUninstallProtection | constants/UninstallProtection.js:6-17 | off Android: false with no native call; otherwise true iff activation resolved true |
| ProtectionJs.SetUninstallPassword | constants/UninstallProtection.js:19-34 | `setPassword` is called only after `isAdminActive` resolved true; true iff it then resolved |
| ProtectionSetup.Utf16Length | app/UninstallProtectionSetup.jsx:9 | JavaScript `length` counts UTF-16 units: between the number of characters and twice that |
| ProtectionSetup.TwoEmojiAreLongEnough | app/UninstallProtectionSetup.jsx:9 | two emoji pass the four-character check |
| ProtectionSetup.HandleActivation | app/UninstallProtectionSetup.jsx:8-23 | under four UTF-16 units alerts and calls nothing; otherwise activation, then the password step only if activation was truthy; success or "Failed to set password" after a truthy activation, nothing after a false one |
| ProtectionSetup.NeverActivatedWithoutAdminChange | app/UninstallProtectionSetup.jsx:14-21 | against the native module, with the admin bit fixed during the flow, the success alert never appears |
| ProtectionSetup.ActivatedWhenGrantedInBetween | app/UninstallProtectionSetup.jsx:14-21 | success appears when the admin is granted between activation and the password step |

## Left out

- Floating point: coordinates are reals. `Double.toString`/`toDoubleOrNull` are modelled as an exact round trip, and the worker's narrowing to Float is not modelled (`Worker.WithWorkerFix` stores the real unchanged).
- `getTrackingStatus` hands the timestamp to JavaScript as a Double; the model keeps the integer.
- `handleLocationUpdate` reads the clock twice, once in `updateLocation` and once for the task's extra. The model uses one reading for both.
- Notifications, channels, wake-lock tags and the location-request parameters carry no decision; only their calls appear in the log.
- `TrackingWorker`: the removal of the location request when the coroutine is cancelled is not modelled; cancellation is outside the model.
- The headless task service `LocationUpdateTaskService` is not part of this model. Its `getTaskConfig` (TrackingModule.kt lines 291-308) builds the JavaScript task's parameters from the intent extras and returns null when there are none. It reads `timestamp` with `getDouble`, but `handleLocationUpdate` stored that extra as a Long, so the JavaScript task always receives 0.0 for it. `Tracking.TaskLaunchesOnePerFix` states what the intent carries, not what JavaScript receives.
- The standalone `LocationService.kt`, `LocationServiceModule.kt`, `IconManagerModule.kt`, the admin receivers and `TrackingContinuationWorker.kt` only launch or configure OS components.
- React screens, the directory scan in `components/AudioFilesList.jsx`, the haversine distance and the module registration files are not part of this model.
- Concurrency: races between the service, the worker and the boot receiver on shared preferences, coroutine suspension, and broadcast threading. Each operation runs to completion alone.
- Exceptions that the source does not catch: `CallStateModule`'s `sendEvent`, a `RuntimeException` from `MediaRecorder.stop()`, `IllegalStateException` from `start()`, and `resetPassword` in `lockDevice`. They crash the caller, so the model does not take them as inputs.
- `CallRecorderService`: one `setupFailure` stands for every exception between building the recorder and `start()`; a throw from `createOutputFile` itself, before the field is assigned, is not modelled.
- `RecorderService.Stamp` assumes ASCII digits; a default locale with other digits is not modelled. Years of five or more digits print wider, and the round trip is proved only for fields that fit their widths.
- The password activities: the soft-keyboard, layout and focus calls are left out.
- Logcat output (`Log.d`, `Log.e`, `Log.w`) is not modelled in any file, including the `Log.d` of the entered password; no logging call appears in `Device.log`.
- Event payloads from `CallStateModule` are modelled as nullable strings, as the source sends them.

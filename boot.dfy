/** BootReceiver.kt: on BOOT_COMPLETED, relaunch the location service if the persisted flag says
    tracking was on. The receiver only reads preferences; it has no fields and writes nothing, so
    it is a function from the broadcast and the files to what it does. */
module Boot {
  import opened Platform
  import Tracking

  const ACTION_BOOT_COMPLETED := "android.intent.action.BOOT_COMPLETED"

  datatype Outcome =
    | Ignored                        // not a boot broadcast
    | NotTracking                    // flag false or missing
    | Restarted(effect: Effect)      // the service launch went through
    | RestartFailed(message: Message) // the launch threw; caught and logged
    | Crashed                        // `getBoolean` threw before the try block

  /** `shouldRestartTracking`: the flag, a missing key counting as false. */
  function ShouldRestartTracking(prefs: PrefFiles): Option<bool>
  {
    Tracking.TrackingFlag(FileOf(prefs, Tracking.PREFS_NAME))
  }

  /** `onReceive`; `launchFailure` is the exception `startForegroundService` throws, if any. */
  function OnReceive(action: Option<string>, prefs: PrefFiles, sdk: int, launchFailure: Option<Message>): (r: Outcome)
    ensures action != Some(ACTION_BOOT_COMPLETED) ==> r == Ignored
    ensures r.Restarted? <==>
      action == Some(ACTION_BOOT_COMPLETED) && ShouldRestartTracking(prefs) == Some(true) && launchFailure.None?
    ensures r.Restarted? ==> r.effect == ServiceStarted(LocationService, sdk >= SDK_O)
    ensures r.RestartFailed? <==>
      action == Some(ACTION_BOOT_COMPLETED) && ShouldRestartTracking(prefs) == Some(true) && launchFailure.Some?
    ensures r.RestartFailed? ==> launchFailure == Some(r.message)
    ensures r.Crashed? <==> action == Some(ACTION_BOOT_COMPLETED) && ShouldRestartTracking(prefs).None?
    ensures action == Some(ACTION_BOOT_COMPLETED) && Tracking.WellTyped(FileOf(prefs, Tracking.PREFS_NAME)) ==> !r.Crashed?
  {
    if action != Some(ACTION_BOOT_COMPLETED) then Ignored
    else match ShouldRestartTracking(prefs)
      case None => Crashed
      case Some(false) => NotTracking
      case Some(true) =>
        match launchFailure
        case None => Restarted(Launch(LocationService, sdk))
        case Some(m) => RestartFailed(m)
  }

  /** The OS calls the receiver makes, in order. */
  function Effects(o: Outcome): seq<Effect>
  {
    if o.Restarted? then [o.effect] else []
  }

  /** After `stopTracking` has cleared the flag, a reboot never relaunches the service. */
  lemma NoRestartAfterStop(prefs: PrefFiles, sdk: int, launchFailure: Option<Message>)
    ensures var after := prefs[Tracking.PREFS_NAME := Tracking.WithFlag(FileOf(prefs, Tracking.PREFS_NAME), false)];
      OnReceive(Some(ACTION_BOOT_COMPLETED), after, sdk, launchFailure) == NotTracking
  {
  }

  /** After `startTracking` has set the flag, a reboot relaunches the very service it started. */
  lemma RestartAfterStart(prefs: PrefFiles, sdk: int)
    ensures var after := prefs[Tracking.PREFS_NAME := Tracking.WithFlag(FileOf(prefs, Tracking.PREFS_NAME), true)];
      OnReceive(Some(ACTION_BOOT_COMPLETED), after, sdk, None) == Restarted(Launch(LocationService, sdk))
  {
  }

  /** Location batches stored by the service do not change what a reboot decides. */
  lemma BatchDoesNotChangeBoot(prefs: PrefFiles, locations: seq<Tracking.Location>, clock: seq<int>,
                               action: Option<string>, sdk: int, launchFailure: Option<Message>)
    requires |clock| == |locations|
    ensures var after := prefs[Tracking.PREFS_NAME :=
      Tracking.ReplayBatch(FileOf(prefs, Tracking.PREFS_NAME), locations, clock)];
      OnReceive(action, after, sdk, launchFailure) == OnReceive(action, prefs, sdk, launchFailure)
  {
    Tracking.BatchKeepsFlag(FileOf(prefs, Tracking.PREFS_NAME), locations, clock);
  }
}

/** TrackingWorker.kt: the WorkManager job that takes one fresh fix and stores it in its own
    SharedPreferences file, TrackingPrefs, distinct from the LocationTrackingPrefs file that holds
    the tracking flag. */
module Worker {
  import opened Platform
  import Tracking
  import Boot

  const WORKER_PREFS := "TrackingPrefs"
  const KEY_LATITUDE := "latitude"
  const KEY_LONGITUDE := "longitude"
  const KEY_TIMESTAMP := "timestamp"

  /** What the one-shot location request ends with. */
  datatype LocationReply =
    | RequestThrew(message: Message)                       // `requestLocationUpdates` threw
    | Delivered(lastLocation: Option<Tracking.Location>)   // `onLocationResult` ran

  /** How a suspending call returns: a value, or an exception resumed into the caller. */
  datatype Returned<T> = Value(value: T) | Threw(message: Message)

  datatype WorkResult = Success | Retry

  /** `getCurrentLocation`: a delivered fix becomes a pair, a delivered null stays null, and an
      exception from the request (a SecurityException is resumed explicitly, any other escapes
      the coroutine block) reaches `doWork` as an exception. */
  function GetCurrentLocation(reply: LocationReply): (r: Returned<Option<Tracking.Location>>)
    ensures r.Threw? <==> reply.RequestThrew?
    ensures r.Threw? ==> r.message == reply.message
    ensures reply.Delivered? ==> r == Value(reply.lastLocation)
  {
    match reply
    case RequestThrew(m) => Threw(m)
    case Delivered(loc) => Value(loc)
  }

  /** The TrackingPrefs file after `putFloat` of `latitude` and `longitude` and `putLong` of
      `timestamp`; the narrowing to Float is not modelled, so the coordinates are stored as given. */
  function WithWorkerFix(st: Store, latitude: real, longitude: real, timestamp: int): (r: Store)
    ensures r.Keys == st.Keys + {KEY_LATITUDE, KEY_LONGITUDE, KEY_TIMESTAMP}
    ensures r[KEY_LATITUDE] == FloatPref(latitude) && r[KEY_LONGITUDE] == FloatPref(longitude)
    ensures r[KEY_TIMESTAMP] == LongPref(timestamp)
    ensures forall k :: k in st && k !in {KEY_LATITUDE, KEY_LONGITUDE, KEY_TIMESTAMP} ==> r[k] == st[k]
  {
    st[KEY_LATITUDE := FloatPref(latitude)][KEY_LONGITUDE := FloatPref(longitude)][KEY_TIMESTAMP := LongPref(timestamp)]
  }

  class TrackingWorker {
    const device: Device

    constructor (device: Device)
      ensures this.device == device
    {
      this.device := device;
    }

    /** `doWork`. `hasPermission` is the fine-location check, `reply` how the location request
        ends, and `now` the clock reading taken after it returns. */
    method DoWork(hasPermission: bool, reply: LocationReply, now: int) returns (r: WorkResult)
      modifies device`prefs, device`log
      ensures r == Retry <==> hasPermission && reply.RequestThrew?
      ensures !hasPermission ==> device.log == old(device.log)
      ensures hasPermission ==>
        device.log == old(device.log) + [LocationUpdatesRequested]
          + (if reply.Delivered? then [LocationUpdatesRemoved] else [])
      ensures r == Retry || !hasPermission ==> device.prefs == old(device.prefs)
      ensures hasPermission && reply.Delivered? ==>
        var fix := if reply.lastLocation.Some? then reply.lastLocation.value else Tracking.Location(0.0, 0.0);
        device.prefs == old(device.prefs)[WORKER_PREFS :=
          WithWorkerFix(FileOf(old(device.prefs), WORKER_PREFS), fix.latitude, fix.longitude, now)]
      ensures FileOf(device.prefs, Tracking.PREFS_NAME) == FileOf(old(device.prefs), Tracking.PREFS_NAME)
    {
      if hasPermission {
        // getCurrentLocation: request one update; the callback removes the request once it fires
        device.log := device.log + [LocationUpdatesRequested];
        if reply.Delivered? {
          device.log := device.log + [LocationUpdatesRemoved];
        }
        var location := GetCurrentLocation(reply);
        if location.Threw? {
          return Retry;
        }
        var currentTime := now;
        var st := FileOf(device.prefs, WORKER_PREFS);
        if location.value.Some? {
          var fix := location.value.value;
          st := st[KEY_LATITUDE := FloatPref(fix.latitude)];
          st := st[KEY_LONGITUDE := FloatPref(fix.longitude)];
          st := st[KEY_TIMESTAMP := LongPref(currentTime)];
        } else {
          st := st[KEY_LATITUDE := FloatPref(0.0)];
          st := st[KEY_LONGITUDE := FloatPref(0.0)];
          st := st[KEY_TIMESTAMP := LongPref(currentTime)];
        }
        device.prefs := device.prefs[WORKER_PREFS := st];
      }
      return Success;
    }
  }

  /** Whatever the worker writes into its own file, a reboot decides exactly as before. */
  lemma WorkerDoesNotChangeBoot(prefs: PrefFiles, written: Store, action: Option<string>, sdk: int,
                                launchFailure: Option<Message>)
    ensures Boot.OnReceive(action, prefs[WORKER_PREFS := written], sdk, launchFailure)
         == Boot.OnReceive(action, prefs, sdk, launchFailure)
  {
    assert FileOf(prefs[WORKER_PREFS := written], Tracking.PREFS_NAME) == FileOf(prefs, Tracking.PREFS_NAME);
  }
}

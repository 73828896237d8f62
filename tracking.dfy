/** TrackingModule.kt: the script-facing start/stop/status calls, the companion object's
    `updateLocation` with its static last fix, and the inner foreground `LocationService`. The
    persisted state is the SharedPreferences file LocationTrackingPrefs. */
module Tracking {
  import opened Platform

  const PREFS_NAME := "LocationTrackingPrefs"
  const KEY_IS_TRACKING := "isTracking"
  const KEY_LATITUDE := "latitude"
  const KEY_LONGITUDE := "longitude"
  const KEY_TIMESTAMP := "timestamp"

  const NOTIFICATION_ID := 9999
  const START_STICKY := 1
  /** The wake lock's two-hour safety timeout, in milliseconds. */
  const WAKE_LOCK_TIMEOUT := 2 * 60 * 60 * 1000

  /** Every key of LocationTrackingPrefs holds the type this code writes under it, so no getter
      of this file throws ClassCastException. */
  ghost predicate WellTyped(st: Store)
  {
    && (KEY_IS_TRACKING in st ==> st[KEY_IS_TRACKING].BoolPref?)
    && (KEY_LATITUDE in st ==> st[KEY_LATITUDE].StringPref?)
    && (KEY_LONGITUDE in st ==> st[KEY_LONGITUDE].StringPref?)
    && (KEY_TIMESTAMP in st ==> st[KEY_TIMESTAMP].LongPref?)
  }

  /** `getBoolean("isTracking", false)`; None where it would throw. */
  function TrackingFlag(st: Store): Option<bool>
  {
    GetBoolean(st, KEY_IS_TRACKING, false)
  }

  /** The file after `putBoolean("isTracking", b)`. */
  function WithFlag(st: Store, b: bool): (r: Store)
    ensures TrackingFlag(r) == Some(b)
    ensures forall k :: k != KEY_IS_TRACKING ==> (k in r <==> k in st)
    ensures forall k :: k in st && k != KEY_IS_TRACKING ==> r[k] == st[k]
    ensures WellTyped(st) ==> WellTyped(r)
  {
    st[KEY_IS_TRACKING := BoolPref(b)]
  }

  /** Only the last flag write counts, so `stopTracking` is idempotent and a stop undoes a start. */
  lemma FlagLastWins(st: Store, first: bool, second: bool)
    ensures WithFlag(WithFlag(st, first), second) == WithFlag(st, second)
  {
  }

  /** The file after `updateLocation` has written a fix: exactly the latitude, longitude and
      timestamp keys are overwritten, so the tracking flag is left as it was. */
  function WithFix(st: Store, latitude: real, longitude: real, timestamp: int): (r: Store)
    ensures r.Keys == st.Keys + {KEY_LATITUDE, KEY_LONGITUDE, KEY_TIMESTAMP}
    ensures r[KEY_LATITUDE] == StringPref(Rendered(latitude))
    ensures r[KEY_LONGITUDE] == StringPref(Rendered(longitude))
    ensures r[KEY_TIMESTAMP] == LongPref(timestamp)
    ensures forall k :: k in st && k !in {KEY_LATITUDE, KEY_LONGITUDE, KEY_TIMESTAMP} ==> r[k] == st[k]
    ensures TrackingFlag(r) == TrackingFlag(st)
    ensures WellTyped(st) ==> WellTyped(r)
  {
    st[KEY_LATITUDE := StringPref(Rendered(latitude))]
      [KEY_LONGITUDE := StringPref(Rendered(longitude))]
      [KEY_TIMESTAMP := LongPref(timestamp)]
  }

  /** A later fix replaces an earlier one completely. */
  lemma FixLastWins(st: Store, lat1: real, lon1: real, t1: int, lat2: real, lon2: real, t2: int)
    ensures WithFix(WithFix(st, lat1, lon1, t1), lat2, lon2, t2) == WithFix(st, lat2, lon2, t2)
  {
  }

  /** What `getTrackingStatus` reports. */
  datatype Status = Status(isTracking: bool, latitude: real, longitude: real, timestamp: int)

  /** A coordinate read with `getString(key, "0.0")?.toDoubleOrNull() ?: 0.0`. */
  function Coordinate(st: Store, key: string): Option<real>
  {
    match GetString(st, key, Rendered(0.0))
    case None => None
    case Some(t) => Some(match ParseDouble(t) case Some(d) => d case None => 0.0)
  }

  /** The number stored under `key` when it is a rendered Double, otherwise 0.0. */
  function StoredOrZero(st: Store, key: string): real
  {
    if key !in st then 0.0
    else match st[key]
      case StringPref(Rendered(d)) => d
      case _ => 0.0
  }

  /** The status `getTrackingStatus` reads from the file; None where a getter would throw. A
      missing flag reads as false, a missing timestamp as 0, a missing or unparsable coordinate
      as 0.0. */
  function ReadStatus(st: Store): (r: Option<Status>)
    ensures r.Some? <==> WellTyped(st)
    ensures r.Some? ==> Some(r.value.isTracking) == TrackingFlag(st)
    ensures r.Some? && KEY_IS_TRACKING !in st ==> !r.value.isTracking
    ensures r.Some? && KEY_TIMESTAMP !in st ==> r.value.timestamp == 0
    ensures r.Some? && KEY_TIMESTAMP in st ==> st[KEY_TIMESTAMP] == LongPref(r.value.timestamp)
    ensures r.Some? ==> r.value.latitude == StoredOrZero(st, KEY_LATITUDE)
    ensures r.Some? ==> r.value.longitude == StoredOrZero(st, KEY_LONGITUDE)
  {
    match (TrackingFlag(st), Coordinate(st, KEY_LATITUDE), Coordinate(st, KEY_LONGITUDE), GetLong(st, KEY_TIMESTAMP, 0))
    case (Some(b), Some(lat), Some(lon), Some(t)) => Some(Status(b, lat, lon, t))
    case _ => None
  }

  /** Writing a fix and reading the status back reports that fix and the flag as it was. */
  lemma StatusAfterFix(st: Store, latitude: real, longitude: real, timestamp: int)
    requires WellTyped(st)
    ensures ReadStatus(WithFix(st, latitude, longitude, timestamp))
         == Some(Status(TrackingFlag(st).value, latitude, longitude, timestamp))
  {
  }

  /** The file after `updateLocation` ran once per element of a batch, in order, with the clock
      readings `clock`. */
  function ReplayBatch(st: Store, locations: seq<Location>, clock: seq<int>): Store
    requires |clock| == |locations|
    decreases |locations|
  {
    if locations == [] then st
    else
      var n := |locations| - 1;
      WithFix(ReplayBatch(st, locations[..n], clock[..n]), locations[n].latitude, locations[n].longitude, clock[n])
  }

  /** Processing a batch leaves the stored fix equal to its last element, and every key other
      than the fix keys as it was. */
  lemma {:induction false} BatchLastWins(st: Store, locations: seq<Location>, clock: seq<int>)
    requires |clock| == |locations| && |locations| > 0
    ensures var n := |locations| - 1;
      ReplayBatch(st, locations, clock) == WithFix(st, locations[n].latitude, locations[n].longitude, clock[n])
    decreases |locations|
  {
    var n := |locations| - 1;
    if n > 0 {
      BatchLastWins(st, locations[..n], clock[..n]);
      assert locations[..n][n - 1] == locations[n - 1] && clock[..n][n - 1] == clock[n - 1];
      FixLastWins(st, locations[n - 1].latitude, locations[n - 1].longitude, clock[n - 1],
        locations[n].latitude, locations[n].longitude, clock[n]);
    }
  }

  /** A batch never changes the tracking flag (and so never changes what a reboot decides). */
  lemma {:induction false} BatchKeepsFlag(st: Store, locations: seq<Location>, clock: seq<int>)
    requires |clock| == |locations|
    ensures TrackingFlag(ReplayBatch(st, locations, clock)) == TrackingFlag(st)
    ensures WellTyped(st) ==> WellTyped(ReplayBatch(st, locations, clock))
  {
    if |locations| > 0 {
      BatchLastWins(st, locations, clock);
    }
  }

  datatype Location = Location(latitude: real, longitude: real)

  /** The headless-task launches `handleLocationUpdate` makes for a batch, in order. */
  function TaskLaunches(locations: seq<Location>, clock: seq<int>, sdk: int): seq<Effect>
    requires |clock| == |locations|
    decreases |locations|
  {
    if locations == [] then []
    else
      var n := |locations| - 1;
      TaskLaunches(locations[..n], clock[..n], sdk)
        + [Launch(LocationUpdateTask(locations[n].latitude, locations[n].longitude, clock[n]), sdk)]
  }

  /** One launch per fix, the i-th intent carrying the i-th fix and its clock reading. */
  lemma {:induction false} TaskLaunchesOnePerFix(locations: seq<Location>, clock: seq<int>, sdk: int)
    requires |clock| == |locations|
    ensures |TaskLaunches(locations, clock, sdk)| == |locations|
    ensures forall i :: 0 <= i < |locations| ==>
      TaskLaunches(locations, clock, sdk)[i]
        == Launch(LocationUpdateTask(locations[i].latitude, locations[i].longitude, clock[i]), sdk)
    decreases |locations|
  {
    if locations != [] {
      var n := |locations| - 1;
      TaskLaunchesOnePerFix(locations[..n], clock[..n], sdk);
    }
  }

  /** All preference files after a batch: untouched when it is empty, otherwise
      LocationTrackingPrefs replaced by the replayed batch. */
  function AfterBatch(prefs: PrefFiles, locations: seq<Location>, clock: seq<int>): PrefFiles
    requires |clock| == |locations|
  {
    if locations == [] then prefs else prefs[PREFS_NAME := ReplayBatch(FileOf(prefs, PREFS_NAME), locations, clock)]
  }

  /** Handling one more fix extends the batch by that fix. */
  lemma AfterBatchStep(prefs: PrefFiles, locations: seq<Location>, clock: seq<int>, i: nat)
    requires |clock| == |locations| && i < |locations|
    ensures var now := AfterBatch(prefs, locations[..i], clock[..i]);
      AfterBatch(prefs, locations[..i + 1], clock[..i + 1])
        == now[PREFS_NAME := WithFix(FileOf(now, PREFS_NAME), locations[i].latitude, locations[i].longitude, clock[i])]
  {
    var file := FileOf(prefs, PREFS_NAME);
    var (ls, cs) := (locations[..i + 1], clock[..i + 1]);
    assert ls[..i] == locations[..i] && cs[..i] == clock[..i];
    var before := ReplayBatch(file, locations[..i], clock[..i]);
    var after := WithFix(before, locations[i].latitude, locations[i].longitude, clock[i]);
    assert ReplayBatch(file, ls, cs) == after;
    if i == 0 {
      assert locations[..0] == [];
      assert before == file;
    } else {
      var now := prefs[PREFS_NAME := before];
      assert FileOf(now, PREFS_NAME) == before;
      assert now[PREFS_NAME := after] == prefs[PREFS_NAME := after];
    }
  }

  /** Handling one more fix adds exactly its task launch. */
  lemma TaskLaunchesStep(locations: seq<Location>, clock: seq<int>, sdk: int, i: nat)
    requires |clock| == |locations| && i < |locations|
    ensures TaskLaunches(locations[..i + 1], clock[..i + 1], sdk)
         == TaskLaunches(locations[..i], clock[..i], sdk)
            + [Launch(LocationUpdateTask(locations[i].latitude, locations[i].longitude, clock[i]), sdk)]
  {
    assert locations[..i + 1][..i] == locations[..i] && clock[..i + 1][..i] == clock[..i];
  }

  /** The companion object's statics, shared by the module and the service. */
  class Companion {
    var lastLatitude: real
    var lastLongitude: real
    var lastTimestamp: int

    constructor ()
      ensures lastLatitude == 0.0 && lastLongitude == 0.0 && lastTimestamp == 0
    {
      lastLatitude, lastLongitude, lastTimestamp := 0.0, 0.0, 0;
    }

    /** `updateLocation`: the statics take the fix and the clock reading `now`, and the file
        gets the same three values. */
    method UpdateLocation(device: Device, latitude: real, longitude: real, now: int)
      modifies this, device`prefs
      ensures lastLatitude == latitude && lastLongitude == longitude && lastTimestamp == now
      ensures device.prefs == old(device.prefs)[PREFS_NAME :=
        WithFix(FileOf(old(device.prefs), PREFS_NAME), latitude, longitude, lastTimestamp)]
    {
      lastLatitude := latitude;
      lastLongitude := longitude;
      lastTimestamp := now;
      var st := FileOf(device.prefs, PREFS_NAME);
      st := st[KEY_LATITUDE := StringPref(Rendered(latitude))];
      st := st[KEY_LONGITUDE := StringPref(Rendered(longitude))];
      st := st[KEY_TIMESTAMP := LongPref(lastTimestamp)];
      device.prefs := device.prefs[PREFS_NAME := st];
    }
  }

  /** The React Native module: start, stop and status. */
  class TrackingModule {
    const device: Device

    ghost predicate Valid()
      reads this, device
    {
      WellTyped(Prefs())
    }

    function Prefs(): Store
      reads this, device
    {
      FileOf(device.prefs, PREFS_NAME)
    }

    constructor (device: Device)
      ensures this.device == device
    {
      this.device := device;
    }

    /** `startTracking`. Already tracking: resolve "Already tracking" and touch nothing. Otherwise
        set the flag first, then launch the service; a launch that throws (`launchFailure`)
        leaves the flag set and rejects with "ERROR". A flag stored with another type makes
        `getBoolean` throw, with the message `castMessage`, before anything is written. */
    method StartTracking(launchFailure: Option<Message>, castMessage: Message)
      modifies device`prefs, device`log
      ensures old(Valid()) ==> Valid()
      ensures TrackingFlag(old(Prefs())).None? ==>
        device.prefs == old(device.prefs) &&
        device.log == old(device.log) + [PromiseRejected("ERROR", Some("Failed to start tracking: " + Show(castMessage)))]
      ensures TrackingFlag(old(Prefs())) == Some(true) ==>
        device.prefs == old(device.prefs) &&
        device.log == old(device.log) + [PromiseResolved(JsString("Already tracking"))]
      ensures TrackingFlag(old(Prefs())) == Some(false) ==>
        device.prefs == old(device.prefs)[PREFS_NAME := WithFlag(old(Prefs()), true)] &&
        device.log == old(device.log) +
          match launchFailure
          case None => [Launch(LocationService, device.sdk), PromiseResolved(JsString("Tracking started"))]
          case Some(m) => [PromiseRejected("ERROR", Some("Failed to start tracking: " + Show(m)))]
    {
      var flag := TrackingFlag(Prefs());
      if flag.None? {
        device.log := device.log + [PromiseRejected("ERROR", Some("Failed to start tracking: " + Show(castMessage)))];
        return;
      }
      if flag.value {
        device.log := device.log + [PromiseResolved(JsString("Already tracking"))];
        return;
      }
      device.prefs := device.prefs[PREFS_NAME := Prefs()[KEY_IS_TRACKING := BoolPref(true)]];
      match launchFailure {
        case Some(m) =>
          device.log := device.log + [PromiseRejected("ERROR", Some("Failed to start tracking: " + Show(m)))];
        case None =>
          device.log := device.log + [Launch(LocationService, device.sdk)];
          device.log := device.log + [PromiseResolved(JsString("Tracking started"))];
      }
    }

    /** `stopTracking`: clear the flag whatever it was, then stop the service; a stop that throws
        (`stopFailure`) leaves the flag cleared and rejects with "ERROR". */
    method StopTracking(stopFailure: Option<Message>)
      modifies device`prefs, device`log
      ensures old(Valid()) ==> Valid()
      ensures TrackingFlag(Prefs()) == Some(false)
      ensures device.prefs == old(device.prefs)[PREFS_NAME := WithFlag(old(Prefs()), false)]
      ensures device.log == old(device.log) +
        match stopFailure
        case None => [ServiceStopped(LocationService), PromiseResolved(JsString("Tracking stopped"))]
        case Some(m) => [PromiseRejected("ERROR", Some("Failed to stop tracking: " + Show(m)))]
    {
      device.prefs := device.prefs[PREFS_NAME := Prefs()[KEY_IS_TRACKING := BoolPref(false)]];
      match stopFailure {
        case Some(m) =>
          device.log := device.log + [PromiseRejected("ERROR", Some("Failed to stop tracking: " + Show(m)))];
        case None =>
          device.log := device.log + [ServiceStopped(LocationService)];
          device.log := device.log + [PromiseResolved(JsString("Tracking stopped"))];
      }
    }

    /** `getTrackingStatus`: resolve with what the file holds, defaults for missing keys; a key
        stored with another type makes its getter throw, with the message `castMessage`. */
    method GetTrackingStatus(castMessage: Message)
      modifies device`log
      ensures ReadStatus(Prefs()).Some? ==> device.log == old(device.log) + [PromiseResolved(
        var s := ReadStatus(Prefs()).value; JsStatus(s.isTracking, s.latitude, s.longitude, s.timestamp))]
      ensures ReadStatus(Prefs()).None? ==>
        device.log == old(device.log) + [PromiseRejected("ERROR", Some("Failed to get tracking status: " + Show(castMessage)))]
    {
      var status := ReadStatus(Prefs());
      if status.None? {
        device.log := device.log + [PromiseRejected("ERROR", Some("Failed to get tracking status: " + Show(castMessage)))];
        return;
      }
      var s := status.value;
      device.log := device.log + [PromiseResolved(JsStatus(s.isTracking, s.latitude, s.longitude, s.timestamp))];
    }
  }

  /** The state of the service's partial wake lock. */
  datatype WakeLock = NoWakeLock | WakeLock(held: bool)

  /** `TrackingModule.LocationService`, from `onCreate` on. */
  class LocationService {
    const device: Device
    const companion: Companion
    var wakeLock: WakeLock
    var isServiceRunning: bool

    ghost predicate Valid()
      reads this, device
    {
      && WellTyped(FileOf(device.prefs, PREFS_NAME))
      && (isServiceRunning ==> wakeLock.WakeLock?)
    }

    /** `onCreate`. */
    constructor (device: Device, companion: Companion)
      ensures this.device == device && this.companion == companion
      ensures !isServiceRunning && wakeLock == NoWakeLock
    {
      this.device := device;
      this.companion := companion;
      wakeLock := NoWakeLock;
      isServiceRunning := false;
    }

    /** `onStartCommand`: a second start is a no-op; the first enters the foreground, takes the
        wake lock and, if the location permission holds, requests updates and the last fix. */
    method OnStartCommand(locationPermitted: bool) returns (r: int)
      requires Valid()
      modifies this, device`log
      ensures Valid()
      ensures r == START_STICKY && isServiceRunning
      ensures old(isServiceRunning) ==> wakeLock == old(wakeLock) && device.log == old(device.log)
      ensures !old(isServiceRunning) ==>
        wakeLock == WakeLock(true) &&
        device.log == old(device.log) + [ForegroundEntered(NOTIFICATION_ID), WakeLockAcquired(WAKE_LOCK_TIMEOUT)]
          + (if locationPermitted then [LocationUpdatesRequested, LastLocationRequested] else [])
    {
      if isServiceRunning {
        return START_STICKY;
      }
      device.log := device.log + [ForegroundEntered(NOTIFICATION_ID)];
      wakeLock := WakeLock(true);
      device.log := device.log + [WakeLockAcquired(WAKE_LOCK_TIMEOUT)];
      // startLocationUpdates: a SecurityException is caught and logged
      if locationPermitted {
        device.log := device.log + [LocationUpdatesRequested];
        device.log := device.log + [LastLocationRequested];
      }
      isServiceRunning := true;
      return START_STICKY;
    }

    /** `handleLocationUpdate`: store the fix, then hand it to the headless JS task. */
    method HandleLocationUpdate(location: Location, now: int)
      requires Valid()
      modifies companion, device`prefs, device`log
      ensures Valid()
      ensures companion.lastLatitude == location.latitude && companion.lastLongitude == location.longitude
      ensures companion.lastTimestamp == now
      ensures device.prefs == old(device.prefs)[PREFS_NAME :=
        WithFix(FileOf(old(device.prefs), PREFS_NAME), location.latitude, location.longitude, now)]
      ensures device.log == old(device.log) + [Launch(LocationUpdateTask(location.latitude, location.longitude, now), device.sdk)]
    {
      companion.UpdateLocation(device, location.latitude, location.longitude, now);
      device.log := device.log + [Launch(LocationUpdateTask(location.latitude, location.longitude, now), device.sdk)];
    }

    /** One step of `onLocationResult`: the batch so far grows by element `i`. */
    method HandleNext(locations: seq<Location>, clock: seq<int>, i: nat, ghost prefs0: PrefFiles, ghost log0: seq<Effect>)
      requires Valid() && |clock| == |locations| && i < |locations|
      requires device.prefs == AfterBatch(prefs0, locations[..i], clock[..i])
      requires device.log == log0 + TaskLaunches(locations[..i], clock[..i], device.sdk)
      modifies companion, device`prefs, device`log
      ensures Valid()
      ensures device.prefs == AfterBatch(prefs0, locations[..i + 1], clock[..i + 1])
      ensures device.log == log0 + TaskLaunches(locations[..i + 1], clock[..i + 1], device.sdk)
      ensures companion.lastLatitude == locations[i].latitude && companion.lastLongitude == locations[i].longitude
      ensures companion.lastTimestamp == clock[i]
    {
      HandleLocationUpdate(locations[i], clock[i]);
      AfterBatchStep(prefs0, locations, clock, i);
      TaskLaunchesStep(locations, clock, device.sdk, i);
    }

    /** The last-location success listener: a null fix is ignored. */
    method OnLastLocation(location: Option<Location>, now: int)
      requires Valid()
      modifies companion, device`prefs, device`log
      ensures Valid()
      ensures location.None? ==> device.prefs == old(device.prefs) && device.log == old(device.log)
      ensures location.None? ==> unchanged(companion)
      ensures location.Some? ==> device.prefs == old(device.prefs)[PREFS_NAME :=
        WithFix(FileOf(old(device.prefs), PREFS_NAME), location.value.latitude, location.value.longitude, now)]
      ensures location.Some? ==>
        device.log == old(device.log) + [Launch(LocationUpdateTask(location.value.latitude, location.value.longitude, now), device.sdk)]
      ensures location.Some? ==>
        companion.lastLatitude == location.value.latitude && companion.lastLongitude == location.value.longitude
        && companion.lastTimestamp == now
    {
      if location.Some? {
        HandleLocationUpdate(location.value, now);
      }
    }

    /** `onLocationResult`: one `handleLocationUpdate` per element, in order; `clock[i]` is the
        clock reading taken for `locations[i]`. */
    method OnLocationResult(locations: seq<Location>, clock: seq<int>)
      requires Valid() && |clock| == |locations|
      modifies companion, device`prefs, device`log
      ensures Valid()
      ensures locations == [] ==> device.prefs == old(device.prefs) && unchanged(companion)
      ensures locations != [] ==> device.prefs == old(device.prefs)[PREFS_NAME :=
        ReplayBatch(FileOf(old(device.prefs), PREFS_NAME), locations, clock)]
      ensures device.log == old(device.log) + TaskLaunches(locations, clock, device.sdk)
      ensures locations != [] ==> var n := |locations| - 1;
        companion.lastLatitude == locations[n].latitude &&
        companion.lastLongitude == locations[n].longitude &&
        companion.lastTimestamp == clock[n]
    {
      var i := 0;
      while i < |locations|
        invariant 0 <= i <= |locations|
        invariant Valid()
        invariant device.prefs == AfterBatch(old(device.prefs), locations[..i], clock[..i])
        invariant device.log == old(device.log) + TaskLaunches(locations[..i], clock[..i], device.sdk)
        invariant i == 0 ==> unchanged(companion)
        invariant i > 0 ==>
          companion.lastLatitude == locations[i - 1].latitude &&
          companion.lastLongitude == locations[i - 1].longitude &&
          companion.lastTimestamp == clock[i - 1]
      {
        HandleNext(locations, clock, i, old(device.prefs), old(device.log));
        i := i + 1;
      }
      assert locations[..i] == locations && clock[..i] == clock;
    }

    /** `onDestroy`: stop updates, release the wake lock only if it is still held (`expired` is
        the OS's answer whether its timeout already released it), and clear the running flag. */
    method OnDestroy(expired: bool)
      requires Valid()
      modifies this, device`log
      ensures Valid()
      ensures !isServiceRunning
      ensures wakeLock == (if old(wakeLock).WakeLock? then WakeLock(false) else NoWakeLock)
      ensures device.log == old(device.log) + [LocationUpdatesRemoved]
        + (if old(wakeLock) == WakeLock(true) && !expired then [WakeLockReleased] else [])
    {
      device.log := device.log + [LocationUpdatesRemoved];
      if wakeLock.WakeLock? {
        var held := wakeLock.held && !expired;
        if held {
          device.log := device.log + [WakeLockReleased];
        }
        wakeLock := WakeLock(false);
      }
      isServiceRunning := false;
    }
  }
}

/** CallRecorderService.kt: a foreground service that, on every start command, builds a new
    MediaRecorder writing an `.m4a` file named after the local time, and on destroy stops and
    releases it. */
module RecorderService {
  import opened Platform
  import Digits

  const NOTIFICATION_ID := 1001
  const START_NOT_STICKY := 2
  const RECORDINGS_DIR := "CallRecordings"

  /** `VOICE_COMMUNICATION` on API 23 only (M <= sdk < N); `VOICE_CALL` below 23 and from 24 on. */
  function AudioSourceFor(sdk: int): (a: AudioSource)
    ensures a == VoiceCommunication <==> SDK_M <= sdk < SDK_N
    ensures a != VoiceCommunication ==> a == VoiceCall
  {
    if sdk < SDK_M then VoiceCall
    else if sdk < SDK_N then VoiceCommunication
    else VoiceCall
  }

  /** A local date and time, as `Date()` is seen through the default time zone. */
  datatype DateTime = DateTime(year: nat, month: nat, day: nat, hour: nat, minute: nat, second: nat)

  /** Fields that `yyyyMMdd_HHmmss` prints in exactly their pattern width. */
  predicate Representable(d: DateTime)
  {
    d.year < 10000 && d.month < 100 && d.day < 100 && d.hour < 100 && d.minute < 100 && d.second < 100
  }

  /** The `yyyyMMdd` half of the stamp. */
  function DatePart(d: DateTime): string
  {
    Digits.Padded(d.year, 4) + Digits.Padded(d.month, 2) + Digits.Padded(d.day, 2)
  }

  /** The `HHmmss` half of the stamp. */
  function TimePart(d: DateTime): string
  {
    Digits.Padded(d.hour, 2) + Digits.Padded(d.minute, 2) + Digits.Padded(d.second, 2)
  }

  /** `SimpleDateFormat("yyyyMMdd_HHmmss")` with ASCII digits. */
  function Stamp(d: DateTime): string
  {
    DatePart(d) + "_" + TimePart(d)
  }

  /** Reads a `yyyyMMdd_HHmmss` stamp back into its fields. */
  function ParseStamp(s: string): (r: Option<DateTime>)
    ensures r.Some? ==> Representable(r.value)
  {
    if |s| == 15 && s[8] == '_' && Digits.AllDigits(s[..8]) && Digits.AllDigits(s[9..]) then
      var date, time := s[..8], s[9..];
      Digits.ValueBelow(date[..4]);
      Digits.ValueBelow(date[4..6]);
      Digits.ValueBelow(date[6..]);
      Digits.ValueBelow(time[..2]);
      Digits.ValueBelow(time[2..4]);
      Digits.ValueBelow(time[4..]);
      Some(DateTime(Digits.Value(date[..4]), Digits.Value(date[4..6]), Digits.Value(date[6..]),
                    Digits.Value(time[..2]), Digits.Value(time[2..4]), Digits.Value(time[4..])))
    else None
  }

  /** The three pieces of a concatenation are its consecutive slices. */
  lemma SlicesOfThree(a: string, b: string, c: string)
    ensures var s := a + b + c;
      s[..|a|] == a && s[|a|..|a| + |b|] == b && s[|a| + |b|..] == c
  {
    var s := a + b + c;
    assert s[..|a|] == a;
    assert s[|a|..|a| + |b|] == b;
    assert s[|a| + |b|..] == c;
  }

  /** A date half and a time half joined by `_` parse field by field. */
  lemma ParseJoined(date: string, time: string)
    requires |date| == 8 && |time| == 6 && Digits.AllDigits(date) && Digits.AllDigits(time)
    ensures ParseStamp(date + "_" + time)
         == Some(DateTime(Digits.Value(date[..4]), Digits.Value(date[4..6]), Digits.Value(date[6..]),
                          Digits.Value(time[..2]), Digits.Value(time[2..4]), Digits.Value(time[4..])))
  {
    var s := date + "_" + time;
    assert s[..8] == date && s[9..] == time;
  }

  /** The date half is eight digits whose fields read back as the date. */
  lemma DatePartRoundTrip(d: DateTime)
    requires Representable(d)
    ensures var date := DatePart(d);
      && |date| == 8 && Digits.AllDigits(date)
      && Digits.Value(date[..4]) == d.year && Digits.Value(date[4..6]) == d.month
      && Digits.Value(date[6..]) == d.day
  {
    Digits.PaddedRoundTrip(d.year, 4);
    Digits.PaddedRoundTrip(d.month, 2);
    Digits.PaddedRoundTrip(d.day, 2);
    SlicesOfThree(Digits.Padded(d.year, 4), Digits.Padded(d.month, 2), Digits.Padded(d.day, 2));
  }

  /** The time half is six digits whose fields read back as the time of day. */
  lemma TimePartRoundTrip(d: DateTime)
    requires Representable(d)
    ensures var time := TimePart(d);
      && |time| == 6 && Digits.AllDigits(time)
      && Digits.Value(time[..2]) == d.hour && Digits.Value(time[2..4]) == d.minute
      && Digits.Value(time[4..]) == d.second
  {
    Digits.PaddedRoundTrip(d.hour, 2);
    Digits.PaddedRoundTrip(d.minute, 2);
    Digits.PaddedRoundTrip(d.second, 2);
    SlicesOfThree(Digits.Padded(d.hour, 2), Digits.Padded(d.minute, 2), Digits.Padded(d.second, 2));
  }

  /** Every representable time's stamp is 15 characters long and reads back as that time. */
  lemma {:induction false} StampRoundTrip(d: DateTime)
    requires Representable(d)
    ensures |Stamp(d)| == 15
    ensures ParseStamp(Stamp(d)) == Some(d)
  {
    DatePartRoundTrip(d);
    TimePartRoundTrip(d);
    ParseJoined(DatePart(d), TimePart(d));
  }

  /** `"CALL_$timeStamp.m4a"`. */
  function OutputFileName(d: DateTime): string
  {
    "CALL_" + Stamp(d) + ".m4a"
  }

  /** Two recordings get the same file name exactly when they start at the same local date and
      time, to the second, so a second start within that second overwrites the first file. Local
      time repeats around a daylight-saving fall-back, so two distinct instants can collide too. */
  lemma SameNameIffSameSecond(d1: DateTime, d2: DateTime)
    requires Representable(d1) && Representable(d2)
    ensures OutputFileName(d1) == OutputFileName(d2) <==> d1 == d2
  {
    StampRoundTrip(d1);
    StampRoundTrip(d2);
    var n1, n2 := OutputFileName(d1), OutputFileName(d2);
    assert n1[5..20] == Stamp(d1);
    assert n2[5..20] == Stamp(d2);
  }

  /** `File(getExternalFilesDir(null), "CallRecordings")`: a null directory leaves a relative
      path. */
  function RecordingsDir(filesDir: Option<string>): (p: string)
    ensures filesDir.Some? ==> p == filesDir.value + "/" + RECORDINGS_DIR
    ensures filesDir.None? ==> p == RECORDINGS_DIR
  {
    if filesDir.Some? then filesDir.value + "/" + RECORDINGS_DIR else RECORDINGS_DIR
  }

  /** `File.absolutePath`: a relative path is resolved against the process's working directory,
      which is the root directory `/` for an Android app process. */
  function AbsolutePath(path: string): (a: string)
    ensures |a| > 0 && a[0] == '/'
    ensures |path| <= |a| && a[|a| - |path|..] == path
    ensures |path| > 0 && path[0] == '/' ==> a == path
  {
    if |path| > 0 && path[0] == '/' then path else "/" + path
  }

  /** Resolving is idempotent, so the files directory the OS hands out, which is already
      absolute, is used as it is. */
  lemma AbsolutePathIdempotent(path: string)
    ensures AbsolutePath(AbsolutePath(path)) == AbsolutePath(path)
  {
  }

  /** Without external storage the recording lands in `/CallRecordings`. */
  lemma NoStorageWritesUnderRoot(name: string)
    ensures AbsolutePath(RecordingsDir(None) + "/" + name) == "/" + RECORDINGS_DIR + "/" + name
  {
  }

  class CallRecorderService {
    const device: Device
    var mediaRecorder: Option<nat>

    ghost predicate Valid()
      reads this, device
    {
      mediaRecorder.Some? ==> mediaRecorder.value < device.nextHandle
    }

    /** `onCreate`: the service enters the foreground at once. */
    constructor (device: Device)
      modifies device`log
      ensures this.device == device && mediaRecorder.None? && Valid()
      ensures device.log == old(device.log) + [ForegroundEntered(NOTIFICATION_ID)]
    {
      this.device := device;
      mediaRecorder := None;
      new;
      device.log := device.log + [ForegroundEntered(NOTIFICATION_ID)];
    }

    /** `onStartCommand` and `startRecording`. `filesDir` is the app's external files
        directory, `dirExists` whether CallRecordings already exists there, `now` the local
        time, and `setupFailure` the exception `prepare()` or `start()` throws, if any. A
        recorder already held is replaced without being stopped or released. */
    method OnStartCommand(filesDir: Option<string>, dirExists: bool, now: DateTime, setupFailure: Option<Message>)
      returns (mode: int)
      requires Valid()
      modifies this, device`log, device`nextHandle
      ensures Valid() && mode == START_NOT_STICKY
      ensures mediaRecorder == Some(old(device.nextHandle)) && device.nextHandle == old(device.nextHandle) + 1
      ensures var dir := AbsolutePath(RecordingsDir(filesDir));
        var configured := RecorderConfigured(old(device.nextHandle), AudioSourceFor(device.sdk),
                                             AbsolutePath(RecordingsDir(filesDir) + "/" + OutputFileName(now)));
        device.log == old(device.log) + (if dirExists then [] else [DirectoryCreated(dir)]) + [configured]
          + [if setupFailure.None? then RecorderStarted(old(device.nextHandle)) else SelfStopped]
    {
      var directory := RecordingsDir(filesDir);
      if !dirExists {
        device.log := device.log + [DirectoryCreated(AbsolutePath(directory))];
      }
      var outputFile := directory + "/" + OutputFileName(now);
      mediaRecorder := Some(device.nextHandle);
      device.nextHandle := device.nextHandle + 1;
      var id := mediaRecorder.value;
      device.log := device.log + [RecorderConfigured(id, AudioSourceFor(device.sdk), AbsolutePath(outputFile))];
      if setupFailure.None? {
        device.log := device.log + [RecorderStarted(id)];
      } else {
        device.log := device.log + [SelfStopped];
      }
      return START_NOT_STICKY;
    }

    /** `onDestroy`: stop then release; the field is cleared only when both succeed. */
    method OnDestroy(stopFailure: Option<Message>, releaseFailure: Option<Message>)
      requires Valid()
      modifies this, device`log
      ensures Valid()
      ensures mediaRecorder.None? <==> old(mediaRecorder).None? || (stopFailure.None? && releaseFailure.None?)
      ensures mediaRecorder.Some? ==> mediaRecorder == old(mediaRecorder)
      ensures old(mediaRecorder).None? ==> device.log == old(device.log)
      ensures old(mediaRecorder).Some? ==>
        var id := old(mediaRecorder).value;
        device.log == old(device.log)
          + (if stopFailure.None? then [RecorderStopped(id)] else [])
          + (if stopFailure.None? && releaseFailure.None? then [RecorderReleased(id)] else [])
    {
      if mediaRecorder.Some? {
        var id := mediaRecorder.value;
        if stopFailure.Some? {
          return;
        }
        device.log := device.log + [RecorderStopped(id)];
        if releaseFailure.Some? {
          return;
        }
        device.log := device.log + [RecorderReleased(id)];
      }
      mediaRecorder := None;
    }
  }
}

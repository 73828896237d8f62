/** CallStateModule.kt: records the microphone while a call rings or is off-hook, driven by
    PHONE_STATE broadcasts. The module's fields (`recorder`, `recordingPath`, `isRecording`) and
    the audio manager's speakerphone bit form a small state machine. The pure step functions
    below specify it; the class implements it statement by statement. */
module CallState {
  import opened Platform
  import Digits

  const STATE_RINGING := "RINGING"
  const STATE_OFFHOOK := "OFFHOOK"
  const STATE_IDLE := "IDLE"
  const ACTION_PHONE_STATE_CHANGED := "android.intent.action.PHONE_STATE"

  /** The module's fields plus the two pieces of device state it changes. A recorder is named by
      the handle it got when constructed. */
  datatype Snapshot = Snapshot(
    recorder: Option<nat>,
    recordingPath: Option<string>,
    isRecording: bool,
    speakerphoneOn: bool,
    nextHandle: nat)

  /** The answers the OS gives during `startRecording`: the RECORD_AUDIO check, the music
      directory (null when storage is unavailable), the clock, and the IOException `prepare()`
      may throw. */
  datatype StartEnv = StartEnv(recordAudioGranted: bool, outputDir: Option<string>, now: nat, prepareFailure: Option<Message>)

  /** One PHONE_STATE broadcast: its EXTRA_STATE (possibly absent), and the answers for whichever
      of start or stop it triggers (`stopFailure` is the IllegalStateException `stop()` may throw). */
  datatype Broadcast = Broadcast(state: Option<string>, start: StartEnv, stopFailure: Option<Message>)

  datatype Step = Step(after: Snapshot, effects: seq<Effect>)

  /** The invariant every operation keeps: recording implies a recorder is held, and a held
      recorder was constructed earlier. */
  ghost predicate Consistent(s: Snapshot)
  {
    && (s.isRecording ==> s.recorder.Some?)
    && (s.recorder.Some? ==> s.recorder.value < s.nextHandle)
  }

  function RecordingPath(dir: string, now: nat): string
  {
    dir + "/call_recording_" + Digits.Decimal(now) + ".mp3"
  }

  /** Recordings started at different milliseconds get different files. */
  lemma RecordingPathsDistinct(dir: string, t1: nat, t2: nat)
    requires t1 != t2
    ensures RecordingPath(dir, t1) != RecordingPath(dir, t2)
  {
    Digits.DecimalInjective(t1, t2);
    var p := dir + "/call_recording_";
    var d1, d2 := Digits.Decimal(t1), Digits.Decimal(t2);
    if |d1| == |d2| {
      assert RecordingPath(dir, t1)[|p|..|p| + |d1|] == d1;
      assert RecordingPath(dir, t2)[|p|..|p| + |d2|] == d2;
    }
  }

  function Event(name: string, text: Option<string>): Effect
  {
    EventEmitted(name, Text(text))
  }

  /** `releaseRecorder`: release whatever the field holds, then clear it and the flag. */
  function ReleaseStep(s: Snapshot): (r: Step)
    ensures r.after.recorder.None? && !r.after.isRecording
    ensures r.after.recordingPath == s.recordingPath && r.after.speakerphoneOn == s.speakerphoneOn
    ensures r.after.nextHandle == s.nextHandle
    ensures r.effects == if s.recorder.Some? then [RecorderReleased(s.recorder.value)] else []
  {
    Step(s.(recorder := None, isRecording := false),
         if s.recorder.Some? then [RecorderReleased(s.recorder.value)] else [])
  }

  /** `startRecording`. The recorder built inside `MediaRecorder().apply { ... }` is assigned to
      the field only after the block has run, so on an IOException the block's `releaseRecorder()`
      releases the field's previous value, and the failed recorder is stored afterwards and never
      released. */
  function StartStep(s: Snapshot, env: StartEnv): (r: Step)
    ensures Consistent(s) ==> Consistent(r.after)
  {
    if s.isRecording then Step(s, [])
    else if !env.recordAudioGranted then Step(s, [Event("RecordingError", Some("Permission denied"))])
    else if env.outputDir.None? then Step(s, [Event("RecordingError", Some("Storage unavailable"))])
    else
      var path := RecordingPath(env.outputDir.value, env.now);
      var id := s.nextHandle;
      var s1 := s.(recordingPath := Some(path), nextHandle := id + 1);
      var configured := [RecorderConfigured(id, Mic, path)];
      match env.prepareFailure
      case None =>
        Step(s1.(isRecording := true, speakerphoneOn := true, recorder := Some(id)),
             configured + [RecorderStarted(id), Event("RecordingStarted", Some(path))])
      case Some(m) =>
        var released := ReleaseStep(s1);
        Step(released.after.(recorder := Some(id)),
             configured + [Event("RecordingError", m)] + released.effects)
  }

  /** A start while recording, without RECORD_AUDIO, or without storage only reports why. */
  lemma StartRefused(s: Snapshot, env: StartEnv)
    ensures s.isRecording ==> StartStep(s, env) == Step(s, [])
    ensures !s.isRecording && !env.recordAudioGranted ==>
      StartStep(s, env) == Step(s, [Event("RecordingError", Some("Permission denied"))])
    ensures !s.isRecording && env.recordAudioGranted && env.outputDir.None? ==>
      StartStep(s, env) == Step(s, [Event("RecordingError", Some("Storage unavailable"))])
  {
  }

  /** A start that reaches `prepare()` builds a new recorder writing to a fresh path. */
  lemma StartConfigures(s: Snapshot, env: StartEnv)
    requires !s.isRecording && env.recordAudioGranted && env.outputDir.Some?
    ensures var r := StartStep(s, env);
      && r.after.recorder == Some(s.nextHandle)
      && r.after.nextHandle == s.nextHandle + 1
      && r.after.recordingPath == Some(RecordingPath(env.outputDir.value, env.now))
      && (r.after.isRecording <==> env.prepareFailure.None?)
      && |r.effects| >= 2 && r.effects[0] == RecorderConfigured(s.nextHandle, Mic, RecordingPath(env.outputDir.value, env.now))
  {
  }

  /** A successful start records from the microphone, turns the speakerphone on, and tells
      JavaScript the file it writes. */
  lemma StartSucceeds(s: Snapshot, env: StartEnv)
    requires !s.isRecording && env.recordAudioGranted && env.outputDir.Some? && env.prepareFailure.None?
    ensures var r := StartStep(s, env);
      && r.after.isRecording && r.after.speakerphoneOn
      && RecorderStarted(s.nextHandle) in r.effects
      && |r.effects| == 3 && r.effects[2] == Event("RecordingStarted", r.after.recordingPath)
  {
  }

  /** When `prepare()` throws, the error is reported and the previously held recorder released,
      but the recorder just built is kept in the field without ever being released. */
  lemma StartPrepareFails(s: Snapshot, env: StartEnv)
    requires Consistent(s)
    requires !s.isRecording && env.recordAudioGranted && env.outputDir.Some? && env.prepareFailure.Some?
    ensures var r := StartStep(s, env);
      && !r.after.isRecording && r.after.speakerphoneOn == s.speakerphoneOn
      && r.after.recorder == Some(s.nextHandle)
      && Event("RecordingError", env.prepareFailure.value) in r.effects
      && RecorderReleased(s.nextHandle) !in r.effects
      && (s.recorder.Some? ==> RecorderReleased(s.recorder.value) in r.effects)
  {
    var r := StartStep(s, env);
    var path := RecordingPath(env.outputDir.value, env.now);
    if s.recorder.Some? {
      assert r.effects == [RecorderConfigured(s.nextHandle, Mic, path), Event("RecordingError", env.prepareFailure.value),
                           RecorderReleased(s.recorder.value)];
    } else {
      assert r.effects == [RecorderConfigured(s.nextHandle, Mic, path), Event("RecordingError", env.prepareFailure.value)];
    }
  }

  /** `stopRecording`. Without a live recording nothing happens. Otherwise the recorder is always
      released and cleared (the `finally`), and the speakerphone is turned off only when `stop()`
      succeeded. */
  function StopStep(s: Snapshot, stopFailure: Option<Message>): (r: Step)
    ensures !(s.isRecording && s.recorder.Some?) ==> r == Step(s, [])
    ensures s.isRecording && s.recorder.Some? ==>
      && r.after.recorder.None? && !r.after.isRecording
      && r.after.recordingPath == s.recordingPath && r.after.nextHandle == s.nextHandle
      && (r.after.speakerphoneOn <==> s.speakerphoneOn && stopFailure.Some?)
      && |r.effects| >= 2 && r.effects[|r.effects| - 1] == RecorderReleased(s.recorder.value)
      && (stopFailure.None? <==> RecorderStopped(s.recorder.value) in r.effects)
      && (stopFailure.None? ==> Event("RecordingStopped", s.recordingPath) in r.effects)
      && (stopFailure.Some? ==> Event("RecordingError", stopFailure.value) in r.effects)
    ensures Consistent(s) ==> Consistent(r.after)
  {
    if !s.isRecording || s.recorder.None? then Step(s, [])
    else
      var id := s.recorder.value;
      var tried :=
        match stopFailure
        case None => Step(s.(isRecording := false, speakerphoneOn := false),
                          [RecorderStopped(id), Event("RecordingStopped", s.recordingPath)])
        case Some(m) => Step(s, [Event("RecordingError", m)]);
      var released := ReleaseStep(tried.after);
      Step(released.after, tried.effects + released.effects)
  }

  /** `PhoneStateReceiver.onReceive`: every present state is first reported to JavaScript;
      RINGING and OFFHOOK then start recording, IDLE stops it, anything else does nothing more. */
  function OnPhoneState(s: Snapshot, b: Broadcast): Step
  {
    match b.state
    case None => Step(s, [])
    case Some(st) =>
      var reported := [Event("CallStateChanged", b.state)];
      if st == STATE_RINGING || st == STATE_OFFHOOK then
        var step := StartStep(s, b.start);
        Step(step.after, reported + step.effects)
      else if st == STATE_IDLE then
        var step := StopStep(s, b.stopFailure);
        Step(step.after, reported + step.effects)
      else Step(s, reported)
  }

  /** A RINGING or OFFHOOK broadcast is reported to JavaScript and then acts exactly as a start. */
  lemma RingingOrOffhookStarts(s: Snapshot, b: Broadcast)
    requires b.state == Some(STATE_RINGING) || b.state == Some(STATE_OFFHOOK)
    ensures OnPhoneState(s, b)
         == Step(StartStep(s, b.start).after, [Event("CallStateChanged", b.state)] + StartStep(s, b.start).effects)
  {
  }

  /** An IDLE broadcast is reported to JavaScript and then acts exactly as a stop. */
  lemma IdleStops(s: Snapshot, b: Broadcast)
    requires b.state == Some(STATE_IDLE)
    ensures OnPhoneState(s, b)
         == Step(StopStep(s, b.stopFailure).after, [Event("CallStateChanged", b.state)] + StopStep(s, b.stopFailure).effects)
  {
  }

  /** Every broadcast keeps the invariant, and an IDLE one ends any recording. */
  lemma PhoneStateConsistent(s: Snapshot, b: Broadcast)
    requires Consistent(s)
    ensures Consistent(OnPhoneState(s, b).after)
    ensures b.state == Some(STATE_IDLE) ==> !OnPhoneState(s, b).after.isRecording
  {
  }

  /** Any state other than RINGING, OFFHOOK and IDLE is reported to JavaScript and changes
      nothing else. */
  lemma OtherStatesOnlyReported(s: Snapshot, b: Broadcast)
    requires b.state.Some? && b.state.value !in {STATE_RINGING, STATE_OFFHOOK, STATE_IDLE}
    ensures OnPhoneState(s, b) == Step(s, [Event("CallStateChanged", b.state)])
  {
  }

  /** `onCatalystInstanceDestroy`: stop a running recording. */
  function OnTeardown(s: Snapshot, stopFailure: Option<Message>): (r: Step)
    ensures !s.isRecording ==> r == Step(s, [])
    ensures Consistent(s) ==> Consistent(r.after) && !r.after.isRecording && (s.isRecording ==> r.after.recorder.None?)
  {
    if s.isRecording then StopStep(s, stopFailure) else Step(s, [])
  }

  /** The state after a sequence of broadcasts, delivered in order. */
  function Replay(s: Snapshot, bs: seq<Broadcast>): Snapshot
    decreases |bs|
  {
    if bs == [] then s else Replay(OnPhoneState(s, bs[0]).after, bs[1..])
  }

  /** Whatever broadcasts arrive, with whatever answers from the OS, `isRecording` never holds
      without a recorder. */
  lemma {:induction false} ReplayConsistent(s: Snapshot, bs: seq<Broadcast>)
    requires Consistent(s)
    ensures Consistent(Replay(s, bs))
    decreases |bs|
  {
    if bs != [] {
      PhoneStateConsistent(s, bs[0]);
      ReplayConsistent(OnPhoneState(s, bs[0]).after, bs[1..]);
    }
  }

  /** Whatever came before, a run that ends with an IDLE broadcast ends with no recording. */
  lemma {:induction false} IdleEndsRecording(s: Snapshot, bs: seq<Broadcast>, last: Broadcast)
    requires Consistent(s) && last.state == Some(STATE_IDLE)
    ensures !Replay(s, bs + [last]).isRecording
    decreases |bs|
  {
    if bs == [] {
      assert bs + [last] == [last];
      PhoneStateConsistent(s, last);
    } else {
      assert (bs + [last])[1..] == bs[1..] + [last];
      PhoneStateConsistent(s, bs[0]);
      IdleEndsRecording(OnPhoneState(s, bs[0]).after, bs[1..], last);
    }
  }

  lemma AppendAssociates(a: seq<Effect>, b: seq<Effect>, c: seq<Effect>)
    ensures (a + b) + c == a + (b + c)
  {
  }

  class CallStateModule {
    const device: Device
    var recorder: Option<nat>
    var recordingPath: Option<string>
    var isRecording: bool

    function Snap(): Snapshot
      reads this, device
    {
      Snapshot(recorder, recordingPath, isRecording, device.speakerphoneOn, device.nextHandle)
    }

    ghost predicate Valid()
      reads this, device
    {
      Consistent(Snap())
    }

    /** The constructor registers the PHONE_STATE receiver. */
    constructor (device: Device)
      modifies device`log
      ensures this.device == device && Valid()
      ensures recorder.None? && recordingPath.None? && !isRecording
      ensures device.log == old(device.log) + [ReceiverRegistered(ACTION_PHONE_STATE_CHANGED)]
    {
      this.device := device;
      recorder, recordingPath, isRecording := None, None, false;
      new;
      device.log := device.log + [ReceiverRegistered(ACTION_PHONE_STATE_CHANGED)];
    }

    method ReleaseRecorder()
      modifies this, device`log
      ensures Snap() == ReleaseStep(old(Snap())).after
      ensures device.log == old(device.log) + ReleaseStep(old(Snap())).effects
    {
      if recorder.Some? {
        device.log := device.log + [RecorderReleased(recorder.value)];
      }
      recorder := None;
      isRecording := false;
    }

    method StartRecording(env: StartEnv)
      requires Valid()
      modifies this, device`log, device`speakerphoneOn, device`nextHandle
      ensures Valid()
      ensures Snap() == StartStep(old(Snap()), env).after
      ensures device.log == old(device.log) + StartStep(old(Snap()), env).effects
    {
      if isRecording {
        return;
      }
      if !env.recordAudioGranted {
        device.log := device.log + [Event("RecordingError", Some("Permission denied"))];
        return;
      }
      if env.outputDir.None? {
        device.log := device.log + [Event("RecordingError", Some("Storage unavailable"))];
        return;
      }
      recordingPath := Some(RecordingPath(env.outputDir.value, env.now));
      // MediaRecorder().apply { ... }: the new recorder is `created`; the field is assigned last
      var created := device.nextHandle;
      device.nextHandle := device.nextHandle + 1;
      device.log := device.log + [RecorderConfigured(created, Mic, recordingPath.value)];
      match env.prepareFailure {
        case None =>
          device.log := device.log + [RecorderStarted(created)];
          isRecording := true;
          device.speakerphoneOn := true;
          device.log := device.log + [Event("RecordingStarted", recordingPath)];
        case Some(m) =>
          device.log := device.log + [Event("RecordingError", m)];
          ReleaseRecorder();
      }
      recorder := Some(created);
    }

    method StopRecording(stopFailure: Option<Message>)
      requires Valid()
      modifies this, device`log, device`speakerphoneOn
      ensures Valid()
      ensures Snap() == StopStep(old(Snap()), stopFailure).after
      ensures device.log == old(device.log) + StopStep(old(Snap()), stopFailure).effects
    {
      if !isRecording || recorder.None? {
        return;
      }
      match stopFailure {
        case None =>
          device.log := device.log + [RecorderStopped(recorder.value)];
          isRecording := false;
          device.speakerphoneOn := false;
          device.log := device.log + [Event("RecordingStopped", recordingPath)];
        case Some(m) =>
          device.log := device.log + [Event("RecordingError", m)];
      }
      ReleaseRecorder();
    }

    /** `PhoneStateReceiver.onReceive`. */
    method OnReceive(b: Broadcast)
      requires Valid()
      modifies this, device`log, device`speakerphoneOn, device`nextHandle
      ensures Valid()
      ensures Snap() == OnPhoneState(old(Snap()), b).after
      ensures device.log == old(device.log) + OnPhoneState(old(Snap()), b).effects
    {
      if b.state.None? {
        return;
      }
      var st := b.state.value;
      ghost var before := Snap();
      ghost var reported := [Event("CallStateChanged", b.state)];
      device.log := device.log + [Event("CallStateChanged", b.state)];
      if st == STATE_RINGING || st == STATE_OFFHOOK {
        StartRecording(b.start);
        RingingOrOffhookStarts(before, b);
        AppendAssociates(old(device.log), reported, StartStep(before, b.start).effects);
      } else if st == STATE_IDLE {
        StopRecording(b.stopFailure);
        IdleStops(before, b);
        AppendAssociates(old(device.log), reported, StopStep(before, b.stopFailure).effects);
      } else {
        OtherStatesOnlyReported(before, b);
      }
    }

    method OnCatalystInstanceDestroy(stopFailure: Option<Message>)
      requires Valid()
      modifies this, device`log, device`speakerphoneOn
      ensures Valid()
      ensures Snap() == OnTeardown(old(Snap()), stopFailure).after
      ensures device.log == old(device.log) + OnTeardown(old(Snap()), stopFailure).effects
    {
      if isRecording {
        StopRecording(stopFailure);
      }
    }
  }
}

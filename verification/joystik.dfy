/**
 * The simpler HD streaming server of client/kontrol/joystik.py.
 *
 * Each HighPerformanceCamera worker reads its device in a loop, overwrites
 * its camera's latest-frame slot with every good frame and keeps a frames-
 * per-second counter that restarts every second. The stream generator sends
 * one part per frame interval: the stored frame, or a blank image when the
 * slot is empty; it has no way to end by itself.
 *
 * Time is in integer milliseconds, and "at least 1/fps seconds elapsed" is
 * written exactly, as elapsed * fps >= 1000.
 */
module Joystik {
  import opened Wrappers
  import opened Text
  import opened Mjpeg

  const NumCameras: nat := 2
  const TicksPerSecond: int := 1000

  datatype CameraConfig = CameraConfig(id: nat, fps: nat, width: nat, height: nat, name: string)

  const Cameras: seq<CameraConfig> := [
    CameraConfig(0, 30, 1280, 720, "Kamera 1"),
    CameraConfig(1, 30, 1280, 720, "Kamera 2")
  ]

  /** latest_frames: one slot per camera, empty until the first good frame. */
  class FrameSlots {
    var frames: seq<Option<Frame>>

    ghost predicate Valid()
      reads this
    {
      |frames| == NumCameras
    }

    constructor ()
      ensures Valid() && frames == [None, None]
    {
      frames := [None, None];
    }
  }

  /** One pass of the capture loop: the encoded bytes when cap.read() succeeded, and the clock. */
  datatype Sample = Sample(frame: Option<Frame>, now: int)

  /** What one camera's loop updates: its slot, frame_count and last_time. */
  datatype CaptureState = CaptureState(slot: Option<Frame>, frameCount: nat, lastTime: int)

  /** One pass of HighPerformanceCamera.run. */
  function Record(st: CaptureState, s: Sample): CaptureState
  {
    if s.frame.None? then st
    else if s.now - st.lastTime >= TicksPerSecond then CaptureState(s.frame, 0, s.now)
    else CaptureState(s.frame, st.frameCount + 1, st.lastTime)
  }

  /** The capture loop over successive passes. */
  function RecordAll(st: CaptureState, samples: seq<Sample>): CaptureState
    decreases |samples|
  {
    if samples == [] then st else RecordAll(Record(st, samples[0]), samples[1..])
  }

  /** How many passes read a frame. */
  function Successes(samples: seq<Sample>): nat
  {
    if samples == [] then 0
    else (if samples[0].frame.Some? then 1 else 0) + Successes(samples[1..])
  }

  /**
   * The slot ends up holding the frame of the last successful read; without
   * one it keeps what it held.
   */
  lemma {:induction false} RecordAllKeepsLatest(st: CaptureState, samples: seq<Sample>)
    ensures (forall i :: 0 <= i < |samples| ==> samples[i].frame.None?) ==> RecordAll(st, samples).slot == st.slot
    ensures (exists i :: 0 <= i < |samples| && samples[i].frame.Some?) ==>
      exists i :: 0 <= i < |samples| && samples[i].frame == RecordAll(st, samples).slot &&
        forall j :: i < j < |samples| ==> samples[j].frame.None?
    decreases |samples|
  {
    if samples != [] {
      var rest := samples[1..];
      var st1 := Record(st, samples[0]);
      RecordAllKeepsLatest(st1, rest);
      if exists i :: 0 <= i < |rest| && rest[i].frame.Some? {
        var i :| 0 <= i < |rest| && rest[i].frame == RecordAll(st1, rest).slot &&
          forall j :: i < j < |rest| ==> rest[j].frame.None?;
        assert samples[i + 1] == rest[i];
        assert forall j :: i + 1 < j < |samples| ==> samples[j] == rest[j - 1];
      } else {
        assert forall j :: 0 < j < |samples| ==> samples[j] == rest[j - 1];
      }
    }
  }

  /**
   * Within one second of last_time, frame_count grows by exactly one per
   * good frame and last_time stays put.
   */
  lemma {:induction false} RecordAllCountsWithinSecond(st: CaptureState, samples: seq<Sample>)
    requires forall i :: 0 <= i < |samples| ==> samples[i].now - st.lastTime < TicksPerSecond
    ensures RecordAll(st, samples).frameCount == st.frameCount + Successes(samples)
    ensures RecordAll(st, samples).lastTime == st.lastTime
    decreases |samples|
  {
    if samples != [] {
      RecordAllCountsWithinSecond(Record(st, samples[0]), samples[1..]);
    }
  }

  /** A good frame a second or more after last_time restarts the count at that frame's time. */
  lemma RecordResetsAfterSecond(st: CaptureState, s: Sample)
    requires s.frame.Some? && s.now - st.lastTime >= TicksPerSecond
    ensures Record(st, s) == CaptureState(s.frame, 0, s.now)
  {
  }

  /** The counter never runs ahead of the good frames read. */
  lemma {:induction false} RecordAllCountBounded(st: CaptureState, samples: seq<Sample>)
    ensures RecordAll(st, samples).frameCount <= st.frameCount + Successes(samples)
    decreases |samples|
  {
    if samples != [] {
      RecordAllCountBounded(Record(st, samples[0]), samples[1..]);
    }
  }

  class HighPerformanceCamera {
    const cameraId: nat
    const fps: nat
    const width: nat
    const height: nat
    const slots: FrameSlots
    var running: bool
    var frameCount: nat
    var lastTime: int

    ghost predicate Valid()
      reads this, slots
    {
      cameraId < NumCameras && slots.Valid()
    }

    ghost function View(): CaptureState
      reads this, slots
      requires Valid()
    {
      CaptureState(slots.frames[cameraId], frameCount, lastTime)
    }

    /** __init__: running, no frames counted, last_time is the creation time. */
    constructor (config: CameraConfig, slots: FrameSlots, now: int)
      requires config.id < NumCameras && slots.Valid()
      ensures Valid() && this.slots == slots
      ensures cameraId == config.id && fps == config.fps && width == config.width && height == config.height
      ensures running && frameCount == 0 && lastTime == now
    {
      cameraId, fps, width, height := config.id, config.fps, config.width, config.height;
      this.slots := slots;
      running, frameCount, lastTime := true, 0, now;
    }

    /** run: one pass per sample while the stop flag is set; only this camera's slot is written. */
    method Run(samples: seq<Sample>)
      requires Valid()
      modifies this`frameCount, this`lastTime, slots
      ensures Valid()
      ensures View() == RecordAll(old(View()), if running then samples else [])
      ensures forall j :: 0 <= j < NumCameras && j != cameraId ==> slots.frames[j] == old(slots.frames[j])
    {
      var i := 0;
      while running && i < |samples|
        invariant 0 <= i <= |samples| && Valid()
        invariant forall j :: 0 <= j < NumCameras && j != cameraId ==> slots.frames[j] == old(slots.frames[j])
        invariant RecordAll(View(), if running then samples[i..] else []) ==
          RecordAll(old(View()), if running then samples else [])
      {
        var s := samples[i];
        assert samples[i..][1..] == samples[i + 1..];
        if s.frame.Some? {
          slots.frames := slots.frames[cameraId := s.frame];
          frameCount := frameCount + 1;
          if s.now - lastTime >= TicksPerSecond {
            frameCount := 0;
            lastTime := s.now;
          }
        }
        i := i + 1;
      }
    }
  }

  /** What one pass of frame_generator reads: the clock and the camera's slot. */
  datatype Poll = Poll(now: int, frame: Option<Frame>)

  /** joystik ends every part with a single line break after the image. */
  const PartTrailer: seq<byte> := Ascii("\r\n")

  /** elapsed >= 1/fps seconds, for elapsed in milliseconds. */
  predicate IntervalElapsed(elapsed: int, fps: nat)
  {
    elapsed * fps >= TicksPerSecond
  }

  /**
   * frame_generator over successive passes: once a frame interval has passed
   * since the last part, send the stored frame or the blank image, and
   * restart the interval either way.
   */
  function Generate(polls: seq<Poll>, last: int, fps: nat, blank: Frame): (r: seq<seq<byte>>)
    ensures |r| <= |polls|
    ensures forall k :: 0 <= k < |r| ==> Unframe(r[k], |PartTrailer|).Some?
    decreases |polls|
  {
    if polls == [] then []
    else
      var p := polls[0];
      if IntervalElapsed(p.now - last, fps) then
        var data := if p.frame.Some? then p.frame.value else blank;
        UnframePart(data, PartTrailer);
        [Part(data, PartTrailer)] + Generate(polls[1..], p.now, fps, blank)
      else Generate(polls[1..], last, fps, blank)
  }

  /** The time of the last part sent over the given passes, or `last` if none was. */
  function LastEmission(polls: seq<Poll>, last: int, fps: nat): int
    decreases |polls|
  {
    if polls == [] then last
    else LastEmission(polls[1..], if IntervalElapsed(polls[0].now - last, fps) then polls[0].now else last, fps)
  }

  /**
   * The generator has no way to end by itself: what it sends over two
   * stretches of passes is what it sends over the first, followed by what it
   * sends over the second from the time of its last part.
   */
  lemma {:induction false} GenerateAppend(a: seq<Poll>, b: seq<Poll>, last: int, fps: nat, blank: Frame)
    ensures Generate(a + b, last, fps, blank) == Generate(a, last, fps, blank) + Generate(b, LastEmission(a, last, fps), fps, blank)
    decreases |a|
  {
    if a == [] {
      assert a + b == b;
    } else {
      assert (a + b)[1..] == a[1..] + b;
      var next := if IntervalElapsed(a[0].now - last, fps) then a[0].now else last;
      GenerateAppend(a[1..], b, next, fps, blank);
    }
  }

  /** Nothing is sent until a frame interval has passed since the last part. */
  lemma {:induction false} GenerateWaitsForInterval(polls: seq<Poll>, last: int, fps: nat, blank: Frame)
    requires forall i :: 0 <= i < |polls| ==> !IntervalElapsed(polls[i].now - last, fps)
    ensures Generate(polls, last, fps, blank) == []
    decreases |polls|
  {
    if polls != [] {
      GenerateWaitsForInterval(polls[1..], last, fps, blank);
    }
  }

  /** When a pass is due, it sends the stored frame, or the blank one for an empty slot. */
  lemma GenerateDuePass(p: Poll, rest: seq<Poll>, last: int, fps: nat, blank: Frame)
    requires IntervalElapsed(p.now - last, fps)
    ensures Generate([p] + rest, last, fps, blank) ==
      [Part(if p.frame.Some? then p.frame.value else blank, PartTrailer)] + Generate(rest, p.now, fps, blank)
  {
    assert ([p] + rest)[1..] == rest;
  }

  /** The generator loop itself. */
  method FrameGenerator(polls: seq<Poll>, start: int, fps: nat, blank: Frame) returns (chunks: seq<seq<byte>>)
    requires fps > 0
    ensures chunks == Generate(polls, start, fps, blank)
  {
    var last := start;
    chunks := [];
    for i := 0 to |polls|
      invariant chunks + Generate(polls[i..], last, fps, blank) == Generate(polls, start, fps, blank)
    {
      assert polls[i..][1..] == polls[i + 1..];
      var p := polls[i];
      if IntervalElapsed(p.now - last, fps) {
        if p.frame.Some? {
          chunks := chunks + [Part(p.frame.value, PartTrailer)];
        } else {
          chunks := chunks + [Part(blank, PartTrailer)];
        }
        last := p.now;
      }
    }
  }

  datatype StreamResponse = StreamResponse(mediaType: string, headers: seq<(string, string)>)

  const UnknownCameraMessage: string := "Camera tidak ditemukan. Gunakan 0 atau 1"

  /** GET /camera/{id}: an error object for an unknown camera, otherwise the stream. */
  function VideoStream(id: int): (r: Result<StreamResponse, string>)
    ensures r.Err? <==> !(id == 0 || id == 1)
    ensures r.Err? ==> r.error == UnknownCameraMessage
    ensures r.Ok? ==> (r.value.mediaType == "multipart/x-mixed-replace; boundary=frame" &&
      ("X-Frame-Rate", NatToString(Cameras[id].fps)) in r.value.headers)
  {
    if !(id == 0 || id == 1) then Err(UnknownCameraMessage)
    else Ok(StreamResponse("multipart/x-mixed-replace; boundary=frame", [
      ("Cache-Control", "no-cache, no-store, must-revalidate"),
      ("Pragma", "no-cache"),
      ("Expires", "0"),
      ("X-Frame-Rate", NatToString(Cameras[id].fps))
    ]))
  }

  datatype CameraHealth = CameraHealth(key: string, active: bool, resolution: string, targetFps: nat)

  /** GET /health: a camera is active exactly when its slot holds a frame. */
  function Health(frames: seq<Option<Frame>>): (r: seq<CameraHealth>)
    requires |frames| == NumCameras
    ensures |r| == NumCameras
    ensures forall i :: 0 <= i < NumCameras ==> (r[i].active <==> frames[i].Some?)
    ensures forall i :: 0 <= i < NumCameras ==>
      r[i].key == "camera_" + NatToString(i) && r[i].targetFps == Cameras[i].fps &&
      r[i].resolution == NatToString(Cameras[i].width) + "x" + NatToString(Cameras[i].height)
  {
    seq(NumCameras, i requires 0 <= i < NumCameras =>
      CameraHealth("camera_" + NatToString(i), frames[i].Some?,
        NatToString(Cameras[i].width) + "x" + NatToString(Cameras[i].height), Cameras[i].fps))
  }

  /** What the shutdown half of lifespan does, in order. */
  datatype ShutdownEvent = StopFlagCleared(thread: nat) | Joined(thread: nat)

  /** The stop-flag events for threads 0 .. n-1, in order. */
  function ClearedAll(n: nat): (r: seq<ShutdownEvent>)
    ensures |r| == n && forall k :: 0 <= k < n ==> r[k] == StopFlagCleared(k)
  {
    if n == 0 then [] else ClearedAll(n - 1) + [StopFlagCleared(n - 1)]
  }

  /** The join events for threads 0 .. n-1, in order. */
  function JoinedAll(n: nat): (r: seq<ShutdownEvent>)
    ensures |r| == n && forall k :: 0 <= k < n ==> r[k] == Joined(k)
  {
    if n == 0 then [] else JoinedAll(n - 1) + [Joined(n - 1)]
  }

  /** The startup half of lifespan: one worker per configured camera. */
  method Startup(slots: FrameSlots, now: int) returns (threads: seq<HighPerformanceCamera>)
    requires slots.Valid()
    ensures |threads| == NumCameras
    ensures forall i :: 0 <= i < NumCameras ==>
      fresh(threads[i]) && threads[i].Valid() && threads[i].slots == slots && threads[i].cameraId == i &&
      threads[i].running && threads[i].frameCount == 0 && threads[i].lastTime == now
  {
    var t0 := new HighPerformanceCamera(Cameras[0], slots, now);
    var t1 := new HighPerformanceCamera(Cameras[1], slots, now);
    threads := [t0, t1];
  }

  /**
   * The shutdown half of lifespan: clear every worker's stop flag first, then
   * join them one by one (the join's two-second timeout is not modelled).
   */
  method Shutdown(threads: seq<HighPerformanceCamera>) returns (log: seq<ShutdownEvent>)
    modifies threads`running
    ensures forall t :: t in threads ==> !t.running
    ensures forall t :: t in threads ==> t.frameCount == old(t.frameCount) && t.lastTime == old(t.lastTime)
    ensures log == ClearedAll(|threads|) + JoinedAll(|threads|)
    ensures forall a, b :: 0 <= a < |log| && 0 <= b < |log| && log[a].Joined? && log[b].StopFlagCleared? ==> b < a
  {
    log := [];
    for i := 0 to |threads|
      invariant forall j :: 0 <= j < i ==> !threads[j].running
      invariant log == ClearedAll(i)
    {
      threads[i].running := false;
      log := log + [StopFlagCleared(i)];
    }
    for i := 0 to |threads|
      invariant log == ClearedAll(|threads|) + JoinedAll(i)
    {
      log := log + [Joined(i)];
    }
  }
}

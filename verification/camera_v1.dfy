/**
 * The dual-camera streaming server of server/camera/camera_v1.py.
 *
 * A CameraThread owns one capture device. It initialises the device with a
 * bounded warm-up, then loops reading frames: a successful read resets the
 * consecutive-error counter and publishes the encoded JPEG into the shared
 * latest-frame slot of its camera; five consecutive failed reads mark the
 * camera disconnected, count an error and try one reconnect. The stream
 * generator polls the shared status and slot once per tick and emits either a
 * placeholder, the latest frame, or ends the stream after five seconds
 * without a frame.
 *
 * The hardware is an input: the outcomes its successive opens and reads will
 * have. When the read script runs out, the model reads that as the stop flag
 * having been cleared by shutdown. Time is in integer milliseconds.
 */
module CameraV1 {
  import opened Wrappers
  import opened Text
  import opened Mjpeg

  const NumCameras: nat := 2
  const WarmupReads: nat := 5
  const MaxConsecutiveErrors: nat := 5
  const MaxReconnectAttempts: nat := 10
  /** generate_frames gives up after this many milliseconds without a frame. */
  const StreamTimeout: int := 5000

  datatype CameraConfig = CameraConfig(id: nat, fps: nat, width: nat, height: nat, name: string)

  const Cameras: seq<CameraConfig> := [
    CameraConfig(0, 30, 1280, 720, "Kamera Utama"),
    CameraConfig(1, 30, 1280, 720, "Kamera Sekunder")
  ]

  /** One entry of camera_status. */
  datatype Status = Status(connected: bool, errorCount: nat)

  /** One cap.read(); on success it carries what cv2.imencode produced, if anything. */
  datatype Capture = Failed | Captured(jpeg: Option<Frame>)

  /** The outcomes the device has yet to give to opens and to reads. */
  datatype Hardware = Hardware(opens: seq<bool>, captures: seq<Capture>)

  /** An exhausted script opens nothing and reads nothing. */
  function NextOpen(hw: Hardware): bool
  {
    |hw.opens| > 0 && hw.opens[0]
  }

  function NextRead(hw: Hardware): Capture
  {
    if |hw.captures| > 0 then hw.captures[0] else Failed
  }

  function Rest<T>(s: seq<T>): seq<T>
  {
    if |s| > 0 then s[1..] else s
  }

  function Min(a: nat, b: nat): nat
  {
    if a < b then a else b
  }

  /**
   * What one camera's worker can change: its status entry, its frame slot,
   * its reconnect counter, whether its device handle is open, and how much of
   * the hardware script it has used.
   */
  datatype Worker = Worker(status: Status, slot: Option<Frame>, attempts: nat, deviceOpen: bool, hw: Hardware)

  /**
   * At most `left` warm-up reads, stopping at the first success: the reads
   * not used, and whether one succeeded.
   */
  function WarmUp(caps: seq<Capture>, left: nat): (seq<Capture>, bool)
    decreases left
  {
    if left == 0 || caps == [] then (caps, false)
    else if caps[0].Captured? then (caps[1..], true)
    else WarmUp(caps[1..], left - 1)
  }

  /**
   * The warm-up consumes a prefix of the reads: it succeeds exactly when one
   * of the first `left` reads is good, and then stops just after the first
   * good one; otherwise it uses all `left` reads, or all there are.
   */
  lemma {:induction false} WarmUpUses(caps: seq<Capture>, left: nat)
    ensures var r := WarmUp(caps, left);
      |r.0| <= |caps| && r.0 == caps[|caps| - |r.0|..] &&
      var used := |caps| - |r.0|;
      if r.1 then 0 < used <= left && caps[used - 1].Captured?
                  && forall j :: 0 <= j < used - 1 ==> caps[j].Failed?
      else used == Min(left, |caps|) && forall j :: 0 <= j < used ==> caps[j].Failed?
    decreases left
  {
    if left > 0 && caps != [] && caps[0].Failed? {
      WarmUpUses(caps[1..], left - 1);
      var r := WarmUp(caps[1..], left - 1);
      assert forall j :: 1 <= j < |caps| ==> caps[j] == caps[1..][j - 1];
    }
  }

  /** One warm-up read: a good one ends the warm-up, any other uses up one of the reads left. */
  /** Helper for the loop of WarmUpReads: one read of the warm-up. */
  lemma WarmUpStep(caps: seq<Capture>, left: nat)
    requires left > 0
    ensures NextRead(Hardware([], caps)).Captured? ==> WarmUp(caps, left) == (Rest(caps), true)
    ensures NextRead(Hardware([], caps)).Failed? ==> WarmUp(caps, left) == WarmUp(Rest(caps), left - 1)
  {
  }

  /**
   * initialize_camera: reopen the device, then up to five warm-up reads.
   * Success marks the camera connected, clears its error count and the
   * reconnect counter; failure changes neither status nor counter.
   */
  function Initialize(w: Worker): (r: (Worker, bool))
    ensures r.0.slot == w.slot
  {
    var isOpen := NextOpen(w.hw);
    var w1 := w.(deviceOpen := isOpen, hw := w.hw.(opens := Rest(w.hw.opens)));
    if !isOpen then (w1, false)
    else
      var (rest, ok) := WarmUp(w.hw.captures, WarmupReads);
      var w2 := w1.(hw := w1.hw.(captures := rest));
      if ok then (w2.(status := Status(true, 0), attempts := 0), true) else (w2, false)
  }

  /**
   * Initialisation succeeds exactly when the device opens and one of the
   * first five reads is good; it consumes a prefix of the reads, and only
   * success changes the status and the reconnect counter.
   */
  lemma InitializeEffect(w: Worker)
    ensures var r := Initialize(w);
      (r.1 <==> (NextOpen(w.hw) &&
        exists i :: 0 <= i < Min(WarmupReads, |w.hw.captures|) && w.hw.captures[i].Captured?)) &&
      r.0.deviceOpen == NextOpen(w.hw) &&
      r.0.hw.opens == Rest(w.hw.opens) &&
      |r.0.hw.captures| <= |w.hw.captures| && r.0.hw.captures == w.hw.captures[|w.hw.captures| - |r.0.hw.captures|..] &&
      (r.1 ==> r.0.status == Status(true, 0) && r.0.attempts == 0) &&
      (!r.1 ==> r.0.status == w.status && r.0.attempts == w.attempts)
  {
    WarmUpUses(w.hw.captures, WarmupReads);
  }

  /**
   * reconnect_camera: once ten attempts are on the counter it refuses without
   * touching anything; otherwise it counts one more attempt and re-initialises.
   */
  function Reconnect(w: Worker): (r: (Worker, bool))
    ensures w.attempts >= MaxReconnectAttempts ==> r == (w, false)
    ensures w.attempts < MaxReconnectAttempts ==>
      r.1 == Initialize(w).1 && r.0.hw == Initialize(w).0.hw
    // an attempt reopens the device with the next open outcome
    ensures w.attempts < MaxReconnectAttempts ==> r.0.deviceOpen == NextOpen(w.hw) && r.0.hw.opens == Rest(w.hw.opens)
    ensures w.attempts < MaxReconnectAttempts && !r.1 ==> r.0.attempts == w.attempts + 1 && r.0.status == w.status
    ensures r.1 ==> r.0.attempts == 0 && r.0.status == Status(true, 0)
    ensures r.0.slot == w.slot
    ensures |r.0.hw.captures| <= |w.hw.captures| && r.0.hw.captures == w.hw.captures[|w.hw.captures| - |r.0.hw.captures|..]
  {
    if w.attempts >= MaxReconnectAttempts then (w, false)
    else
      InitializeEffect(w.(attempts := w.attempts + 1));
      Initialize(w.(attempts := w.attempts + 1))
  }

  /** What one pass of the capture loop leaves: go on with an error count, or stop. */
  datatype Step = Continue(w: Worker, errors: nat) | Quit(w: Worker)

  /**
   * One pass of the capture loop of CameraThread.run, given that a read
   * outcome is available.
   */
  function Tick(w: Worker, errors: nat): (r: Step)
    requires w.hw.captures != []
    ensures |r.w.hw.captures| < |w.hw.captures| && r.w.hw.captures == w.hw.captures[|w.hw.captures| - |r.w.hw.captures|..]
    // a good read resets the error run and publishes its JPEG, if encoding produced one
    ensures w.hw.captures[0].Captured? ==>
      r == Continue(r.w, 0) && r.w.status == w.status && r.w.attempts == w.attempts &&
      r.w.slot == (if w.hw.captures[0].jpeg.Some? then w.hw.captures[0].jpeg else w.slot)
    // a failed read never writes the slot
    ensures w.hw.captures[0].Failed? ==> r.w.slot == w.slot
    // fewer than five failures in a row change no status
    ensures w.hw.captures[0].Failed? && errors + 1 < MaxConsecutiveErrors ==>
      r == Continue(r.w, errors + 1) && r.w.status == w.status && r.w.attempts == w.attempts
    // the fifth marks the camera disconnected, counts one error and reconnects once
    ensures w.hw.captures[0].Failed? && errors + 1 >= MaxConsecutiveErrors ==>
      match r
      case Continue(w1, e1) => e1 == 0 && w1.status == Status(true, 0) && w1.attempts == 0
      case Quit(w1) => w1.status == Status(false, w.status.errorCount + 1) &&
                       w1.attempts == if w.attempts < MaxReconnectAttempts then w.attempts + 1 else w.attempts
  {
    var w1 := w.(hw := w.hw.(captures := w.hw.captures[1..]));
    match w.hw.captures[0]
    case Captured(jpeg) => Continue(if jpeg.Some? then w1.(slot := jpeg) else w1, 0)
    case Failed =>
      if errors + 1 < MaxConsecutiveErrors then Continue(w1, errors + 1)
      else
        var down := w1.(status := Status(false, w.status.errorCount + 1));
        var (w2, ok) := Reconnect(down);
        if ok then Continue(w2, 0) else Quit(w2)
  }

  /** The state the fifth failed read in a row leaves before the reconnect. */
  function MarkedDown(w: Worker): Worker
    requires w.hw.captures != []
  {
    w.(hw := w.hw.(captures := w.hw.captures[1..]), status := Status(false, w.status.errorCount + 1))
  }

  lemma TickReconnects(w: Worker, errors: nat)
    requires w.hw.captures != [] && w.hw.captures[0].Failed? && errors + 1 >= MaxConsecutiveErrors
    ensures Tick(w, errors) == var p := Reconnect(MarkedDown(w)); if p.1 then Continue(p.0, 0) else Quit(p.0)
  {
  }

  /** How a worker's run ends. */
  datatype Exit = InitFailed | ReconnectFailed | Stopped

  datatype Outcome = Outcome(w: Worker, exit: Exit)

  /** The cleanup after the loop: release the device, report disconnected. */
  function Cleanup(w: Worker): Worker
  {
    w.(deviceOpen := false, status := w.status.(connected := false))
  }

  /** The frame slot only ever holds what some successful read produced. */
  ghost predicate SlotFrom(w: Worker, slot: Option<Frame>)
  {
    slot == w.slot || exists i :: 0 <= i < |w.hw.captures| && w.hw.captures[i] == Captured(slot)
  }

  lemma SlotFromSuffix(w: Worker, v: Worker, slot: Option<Frame>)
    requires |v.hw.captures| <= |w.hw.captures| && v.hw.captures == w.hw.captures[|w.hw.captures| - |v.hw.captures|..]
    requires SlotFrom(v, slot)
    requires v.slot == w.slot || exists i :: 0 <= i < |w.hw.captures| && w.hw.captures[i] == Captured(v.slot)
    ensures SlotFrom(w, slot)
  {
    if slot != v.slot {
      var i :| 0 <= i < |v.hw.captures| && v.hw.captures[i] == Captured(slot);
      assert w.hw.captures[|w.hw.captures| - |v.hw.captures| + i] == Captured(slot);
    }
  }

  /**
   * The capture loop from a state with the given run of failed reads, until
   * the stop flag is seen or a reconnect fails, followed by the cleanup.
   */
  function CaptureLoop(w: Worker, errors: nat, running: bool): (r: Outcome)
    ensures r.exit != InitFailed
    ensures !r.w.status.connected && !r.w.deviceOpen
    ensures SlotFrom(w, r.w.slot)
    ensures r.exit == Stopped ==> r.w.hw.captures == [] || !running
    // with no error counted and no attempt used, the loop ends having used
    // exactly one attempt and counted one error exactly when a reconnect fails
    ensures w.attempts == 0 && w.status.errorCount == 0 ==>
      r.w.attempts == r.w.status.errorCount == (if r.exit == ReconnectFailed then 1 else 0)
    decreases |w.hw.captures|
  {
    if !running || w.hw.captures == [] then Outcome(Cleanup(w), Stopped)
    else match Tick(w, errors)
      case Continue(w1, e1) => CaptureLoop(w1, e1, running)
      case Quit(w1) => Outcome(Cleanup(w1), ReconnectFailed)
  }

  /** CameraThread.run: initialise once; on failure stop at once, with no cleanup. */
  function RunWorker(w: Worker, running: bool): (r: Outcome)
    ensures r.exit == InitFailed <==> !Initialize(w).1
    ensures r.exit == InitFailed ==> r.w.status == w.status && r.w.slot == w.slot && r.w.attempts == w.attempts
    ensures r.exit != InitFailed ==> !r.w.status.connected && !r.w.deviceOpen
    ensures r.exit == ReconnectFailed ==> r.w.attempts == 1 && r.w.status.errorCount == 1
    ensures r.exit == Stopped ==> r.w.attempts == 0 && r.w.status.errorCount == 0
    ensures SlotFrom(w, r.w.slot)
  {
    InitializeEffect(w);
    var (w1, ok) := Initialize(w);
    if !ok then Outcome(w1, InitFailed)
    else
      var r := CaptureLoop(w1, 0, running);
      SlotFromSuffix(w, w1, r.w.slot);
      r
  }

  /** latest_frames and camera_status: one frame slot and one status per camera. */
  class FrameStore {
    var frames: seq<Option<Frame>>
    var status: seq<Status>

    ghost predicate Valid()
      reads this
    {
      |frames| == NumCameras && |status| == NumCameras
    }

    constructor ()
      ensures Valid()
      ensures frames == [None, None] && status == [Status(false, 0), Status(false, 0)]
    {
      frames := [None, None];
      status := [Status(false, 0), Status(false, 0)];
    }
  }

  /** The capture worker of one camera; `hw` is what its device has yet to deliver. */
  class CameraThread {
    const cameraId: nat
    const fps: nat
    const width: nat
    const height: nat
    const store: FrameStore
    var running: bool
    var deviceOpen: bool
    var reconnectAttempts: nat
    var hw: Hardware

    ghost predicate Valid()
      reads this, store
    {
      cameraId < NumCameras && store.Valid()
    }

    /** The part of the shared and private state this worker owns. */
    ghost function View(): Worker
      reads this, store
      requires Valid()
    {
      Worker(store.status[cameraId], store.frames[cameraId], reconnectAttempts, deviceOpen, hw)
    }

    /** The other camera's slot and status are what they were. */
    ghost predicate OthersUnchanged(frames0: seq<Option<Frame>>, status0: seq<Status>)
      reads this, store
      requires Valid()
    {
      |frames0| == NumCameras && |status0| == NumCameras &&
      forall j :: 0 <= j < NumCameras && j != cameraId ==> store.frames[j] == frames0[j] && store.status[j] == status0[j]
    }

    constructor (config: CameraConfig, store: FrameStore, hw: Hardware)
      requires config.id < NumCameras && store.Valid()
      ensures Valid() && this.store == store && this.hw == hw
      ensures cameraId == config.id && fps == config.fps && width == config.width && height == config.height
      ensures running && !deviceOpen && reconnectAttempts == 0
    {
      cameraId, fps, width, height := config.id, config.fps, config.width, config.height;
      this.store := store;
      this.hw := hw;
      running, deviceOpen, reconnectAttempts := true, false, 0;
    }

    /** cap.read() together with the JPEG encoding of a good frame. */
    method ReadFrame() returns (c: Capture)
      modifies this`hw
      ensures c == NextRead(old(hw)) && hw == old(hw).(captures := Rest(old(hw.captures)))
    {
      c := NextRead(hw);
      hw := hw.(captures := Rest(hw.captures));
    }

    /** The warm-up: at most five reads, stopping at the first good one. */
    method WarmUpReads() returns (ok: bool)
      modifies this`hw
      ensures (hw.captures, ok) == WarmUp(old(hw.captures), WarmupReads)
      ensures hw.opens == old(hw.opens)
    {
      ghost var caps0 := hw.captures;
      var i := 0;
      while i < WarmupReads
        invariant 0 <= i <= WarmupReads
        invariant WarmUp(caps0, WarmupReads) == WarmUp(hw.captures, WarmupReads - i)
        invariant hw.opens == old(hw.opens)
      {
        WarmUpStep(hw.captures, WarmupReads - i);
        var c := ReadFrame();
        if c.Captured? {
          return true;
        }
        i := i + 1;
      }
      return false;
    }

    method InitializeCamera() returns (ok: bool)
      requires Valid()
      modifies this, store
      ensures Valid() && running == old(running)
      ensures (View(), ok) == Initialize(old(View()))
      ensures OthersUnchanged(old(store.frames), old(store.status))
    {
      ghost var w := View();
      deviceOpen := NextOpen(hw);
      hw := hw.(opens := Rest(hw.opens));
      if !deviceOpen {
        return false;
      }
      ok := WarmUpReads();
      if ok {
        store.status := store.status[cameraId := Status(true, 0)];
        reconnectAttempts := 0;
      }
    }

    method ReconnectCamera() returns (ok: bool)
      requires Valid()
      modifies this, store
      ensures Valid() && running == old(running)
      ensures (View(), ok) == Reconnect(old(View()))
      ensures OthersUnchanged(old(store.frames), old(store.status))
    {
      ghost var w0 := View();
      if reconnectAttempts >= MaxReconnectAttempts {
        return false;
      }
      reconnectAttempts := reconnectAttempts + 1;
      assert View() == w0.(attempts := w0.attempts + 1);
      ok := InitializeCamera();
      assert Reconnect(w0) == Initialize(w0.(attempts := w0.attempts + 1));
    }

    /** One pass of the capture loop: read, publish or count the failure, maybe reconnect. */
    method CaptureOnce(errors: nat) returns (next: nat, quit: bool)
      requires Valid() && hw.captures != []
      modifies this, store
      ensures Valid() && running == old(running)
      ensures Tick(old(View()), errors) == if quit then Quit(View()) else Continue(View(), next)
      ensures OthersUnchanged(old(store.frames), old(store.status))
    {
      ghost var before := View();
      var c := ReadFrame();
      assert View() == before.(hw := before.hw.(captures := before.hw.captures[1..]));
      quit := false;
      if c.Failed? {
        next := errors + 1;
        if next >= MaxConsecutiveErrors {
          store.status := store.status[cameraId := Status(false, store.status[cameraId].errorCount + 1)];
          assert View() == MarkedDown(before);
          var reconnected := ReconnectCamera();
          TickReconnects(before, errors);
          if reconnected {
            next := 0;
          } else {
            quit := true;
          }
        }
      } else {
        next := 0;
        if c.jpeg.Some? {
          store.frames := store.frames[cameraId := c.jpeg];
        }
      }
    }

    method Run() returns (exit: Exit)
      requires Valid()
      modifies this, store
      ensures Valid() && running == old(running)
      ensures Outcome(View(), exit) == RunWorker(old(View()), old(running))
      ensures OthersUnchanged(old(store.frames), old(store.status))
    {
      ghost var start := View();
      var ok := InitializeCamera();
      if !ok {
        return InitFailed;
      }
      var errors: nat := 0;
      var quit := false;
      while running && hw.captures != [] && !quit
        invariant Valid() && running == old(running)
        invariant OthersUnchanged(old(store.frames), old(store.status))
        invariant !quit ==> CaptureLoop(View(), errors, running) == RunWorker(start, running)
        invariant quit ==> Outcome(Cleanup(View()), ReconnectFailed) == RunWorker(start, running)
        decreases |hw.captures|, if quit then 0 else 1
      {
        errors, quit := CaptureOnce(errors);
      }
      deviceOpen := false;
      store.status := store.status[cameraId := store.status[cameraId].(connected := false)];
      exit := if quit then ReconnectFailed else Stopped;
    }

    /** What shutdown_event does to each worker. */
    method RequestStop()
      modifies this`running
      ensures !running
    {
      running := false;
    }
  }

  /** A response the endpoints raise: HTTPException(status_code, detail). */
  datatype HttpError = HttpError(code: int, detail: string)

  const CameraNotFound: HttpError := HttpError(404, "Camera not found")

  /** `camera_id in [0, 1]`, the check all three camera endpoints make. */
  predicate KnownCamera(id: int)
  {
    id == 0 || id == 1
  }

  datatype StreamResponse = StreamResponse(mediaType: string, headers: seq<(string, string)>)

  /** GET /camera/{id}: the response around generate_frames(id). */
  function VideoFeed(status: seq<Status>, id: int): (r: Result<StreamResponse, HttpError>)
    requires |status| == NumCameras
    ensures r.Err? <==> !KnownCamera(id)
    ensures r.Err? ==> r.error == CameraNotFound
    ensures r.Ok? ==> r.value.mediaType == "multipart/x-mixed-replace; boundary=frame"
    ensures r.Ok? ==> ("X-Camera-Status", if status[id].connected then "connected" else "disconnected") in r.value.headers
  {
    if !KnownCamera(id) then Err(CameraNotFound)
    else Ok(StreamResponse("multipart/x-mixed-replace; boundary=frame", [
      ("Cache-Control", "no-cache, no-store, must-revalidate"),
      ("Pragma", "no-cache"),
      ("Expires", "0"),
      ("X-Camera-Status", if status[id].connected then "connected" else "disconnected")
    ]))
  }

  datatype CameraReport = CameraReport(cameraId: int, connected: bool, errorCount: nat, config: CameraConfig)

  /** GET /camera/{id}/status. */
  function StatusEndpoint(status: seq<Status>, id: int): (r: Result<CameraReport, HttpError>)
    requires |status| == NumCameras
    ensures r.Err? <==> !KnownCamera(id)
    ensures r.Err? ==> r.error == CameraNotFound
    ensures r.Ok? ==> (r.value.cameraId == id && r.value.config == Cameras[id] &&
      r.value.connected == status[id].connected && r.value.errorCount == status[id].errorCount)
  {
    if !KnownCamera(id) then Err(CameraNotFound)
    else Ok(CameraReport(id, status[id].connected, status[id].errorCount, Cameras[id]))
  }

  datatype RootEntry = RootEntry(cameraId: nat, connected: bool, config: CameraConfig)

  /** GET /: one entry per camera, in camera order. */
  function RootCameras(status: seq<Status>): (r: seq<RootEntry>)
    requires |status| == NumCameras
    ensures |r| == NumCameras
    ensures forall i :: 0 <= i < NumCameras ==> r[i] == RootEntry(i, status[i].connected, Cameras[i])
  {
    seq(NumCameras, i requires 0 <= i < NumCameras => RootEntry(i, status[i].connected, Cameras[i]))
  }

  datatype ReconnectReply = ReconnectReply(cameraId: int, reconnectSuccess: bool)

  /** The service: the shared store and camera_threads. */
  class Server {
    const store: FrameStore
    var threads: seq<CameraThread?>

    ghost predicate Valid()
      reads this, store
    {
      store.Valid() && |threads| == NumCameras &&
      forall i :: 0 <= i < NumCameras && threads[i] != null ==> threads[i].store == store && threads[i].cameraId == i
    }

    constructor ()
      ensures Valid() && fresh(store) && threads == [null, null]
      ensures store.frames == [None, None] && store.status == [Status(false, 0), Status(false, 0)]
    {
      store := new FrameStore();
      threads := [null, null];
    }

    /** startup_event: one worker per configured camera, on its own hardware. */
    method Startup(hardware: seq<Hardware>)
      requires Valid() && |hardware| == NumCameras
      modifies this
      ensures Valid() && store.frames == old(store.frames) && store.status == old(store.status)
      ensures forall i :: 0 <= i < NumCameras ==>
        threads[i] != null && fresh(threads[i]) && threads[i].hw == hardware[i] && threads[i].running &&
        threads[i].fps == Cameras[i].fps && threads[i].width == Cameras[i].width && threads[i].height == Cameras[i].height
    {
      var t0 := new CameraThread(Cameras[0], store, hardware[0]);
      var t1 := new CameraThread(Cameras[1], store, hardware[1]);
      threads := [t0, t1];
    }

    /** shutdown_event: clear the stop flag of every started worker, and nothing else. */
    method Shutdown()
      requires Valid()
      modifies (set i | 0 <= i < |threads| && threads[i] != null :: threads[i])`running
      ensures forall i :: 0 <= i < |threads| && threads[i] != null ==> !threads[i].running
      ensures forall i :: 0 <= i < |threads| && threads[i] != null ==>
        threads[i].deviceOpen == old(threads[i].deviceOpen) && threads[i].reconnectAttempts == old(threads[i].reconnectAttempts) &&
        threads[i].hw == old(threads[i].hw)
      ensures store.frames == old(store.frames) && store.status == old(store.status)
    {
      for i := 0 to |threads|
        invariant forall j :: 0 <= j < i && threads[j] != null ==> !threads[j].running
      {
        if threads[i] != null {
          threads[i].RequestStop();
        }
      }
    }

    /** POST /camera/{id}/reconnect: a synchronous reconnect_camera on that worker. */
    method ReconnectEndpoint(id: int) returns (r: Result<ReconnectReply, HttpError>)
      requires Valid()
      modifies store, set i | 0 <= i < |threads| && threads[i] != null :: threads[i]
      ensures Valid()
      ensures r.Err? <==> !KnownCamera(id)
      ensures r.Err? ==> r.error == CameraNotFound && store.status == old(store.status)
      ensures r.Ok? && threads[id] == null ==> r.value == ReconnectReply(id, false)
      ensures r.Ok? && threads[id] == null ==> store.status == old(store.status)
      ensures r.Ok? && threads[id] != null ==>
        var (w, ok) := Reconnect(old(threads[id].View()));
        r.value == ReconnectReply(id, ok) && threads[id].View() == w && threads[id].running == old(threads[id].running) &&
        threads[id].OthersUnchanged(old(store.frames), old(store.status))
      ensures store.frames == old(store.frames)
      // the other camera's worker is untouched
      ensures forall i :: 0 <= i < NumCameras && i != id && threads[i] != null ==> unchanged(threads[i])
    {
      if !KnownCamera(id) {
        return Err(CameraNotFound);
      }
      var t := threads[id];
      if t == null {
        return Ok(ReconnectReply(id, false));
      }
      var ok := t.ReconnectCamera();
      r := Ok(ReconnectReply(id, ok));
    }
  }

  /** What one tick of generate_frames reads: the time, the connected flag, the slot. */
  datatype Observation = Observation(now: int, connected: bool, frame: Option<Frame>)

  /** camera_v1 ends every part with a blank line after the image. */
  const PartTrailer: seq<byte> := Ascii("\r\n\r\n")

  /** What a stream has sent, and whether it ended on the timeout. */
  datatype Emitted = Emitted(chunks: seq<seq<byte>>, timedOut: bool)

  function Prepend(chunk: seq<byte>, e: Emitted): Emitted
  {
    e.(chunks := [chunk] + e.chunks)
  }

  /**
   * generate_frames over successive ticks, from the time the last frame was
   * sent. A disconnected tick sends the placeholder and does not count as a
   * frame; a connected tick sends the slot's frame and restarts the clock; a
   * connected tick with an empty slot ends the stream once more than five
   * seconds have passed since the last frame.
   */
  function Stream(ticks: seq<Observation>, last: int, placeholder: Frame): Emitted
    decreases |ticks|
  {
    if ticks == [] then Emitted([], false)
    else
      var o := ticks[0];
      var rest := ticks[1..];
      if !o.connected then Prepend(Part(placeholder, PartTrailer), Stream(rest, last, placeholder))
      else if o.frame.Some? then Prepend(Part(o.frame.value, PartTrailer), Stream(rest, o.now, placeholder))
      else if o.now - last > StreamTimeout then Emitted([], true)
      else Stream(rest, last, placeholder)
  }

  /**
   * A stream sends at most one chunk per tick, and each is a well-formed
   * part whose image can be taken back out.
   */
  lemma {:induction false} StreamParts(ticks: seq<Observation>, last: int, placeholder: Frame)
    ensures |Stream(ticks, last, placeholder).chunks| <= |ticks|
    ensures forall k :: 0 <= k < |Stream(ticks, last, placeholder).chunks| ==>
      Unframe(Stream(ticks, last, placeholder).chunks[k], |PartTrailer|).Some?
    decreases |ticks|
  {
    if ticks != [] {
      var o := ticks[0];
      var next := if o.connected && o.frame.Some? then o.now else last;
      StreamParts(ticks[1..], next, placeholder);
      if !o.connected {
        UnframePart(placeholder, PartTrailer);
      } else if o.frame.Some? {
        UnframePart(o.frame.value, PartTrailer);
      }
    }
  }

  /** The generator loop itself, tick by tick. */
  method GenerateFrames(ticks: seq<Observation>, start: int, placeholder: Frame)
    returns (chunks: seq<seq<byte>>, timedOut: bool)
    ensures Emitted(chunks, timedOut) == Stream(ticks, start, placeholder)
  {
    var last := start;
    chunks, timedOut := [], false;
    var i := 0;
    while i < |ticks|
      invariant 0 <= i <= |ticks|
      invariant Stream(ticks, start, placeholder).chunks == chunks + Stream(ticks[i..], last, placeholder).chunks
      invariant Stream(ticks, start, placeholder).timedOut == Stream(ticks[i..], last, placeholder).timedOut
    {
      assert ticks[i..][1..] == ticks[i + 1..];
      var o := ticks[i];
      if !o.connected {
        chunks := chunks + [Part(placeholder, PartTrailer)];
      } else if o.frame.Some? {
        last := o.now;
        chunks := chunks + [Part(o.frame.value, PartTrailer)];
      } else if o.now - last > StreamTimeout {
        timedOut := true;
        break;
      }
      i := i + 1;
    }
  }

  /** What a tick that does not starve sends: the placeholder or the slot's frame. */
  function Shown(o: Observation, placeholder: Frame): Frame
    requires !o.connected || o.frame.Some?
  {
    if !o.connected then placeholder else o.frame.value
  }

  /**
   * As long as every tick is either disconnected or finds a frame in the
   * slot, the stream sends exactly one part per tick, in tick order, and
   * never times out.
   */
  lemma {:induction false} StreamWithoutStarvation(ticks: seq<Observation>, last: int, placeholder: Frame)
    requires forall i :: 0 <= i < |ticks| ==> !ticks[i].connected || ticks[i].frame.Some?
    ensures Stream(ticks, last, placeholder) ==
      Emitted(seq(|ticks|, k requires 0 <= k < |ticks| => Part(Shown(ticks[k], placeholder), PartTrailer)), false)
    decreases |ticks|
  {
    if ticks != [] {
      var o := ticks[0];
      var next := if o.connected then o.now else last;
      StreamWithoutStarvation(ticks[1..], next, placeholder);
    }
  }

  /**
   * A connected tick with an empty slot ends the stream exactly when more
   * than five seconds have passed since the last frame; placeholders do not
   * restart that clock, so the check is against the last real frame.
   */
  lemma {:induction false} StreamStarvedTick(o: Observation, rest: seq<Observation>, last: int, placeholder: Frame)
    requires o.connected && o.frame.None?
    ensures Stream([o] + rest, last, placeholder) ==
      if o.now - last > StreamTimeout then Emitted([], true) else Stream(rest, last, placeholder)
  {
    assert ([o] + rest)[1..] == rest;
  }

  /** The time of the last frame sent before tick i, or `last` if none was. */
  function LastSent(ticks: seq<Observation>, i: nat, last: int): int
    requires i <= |ticks|
  {
    if i == 0 then last
    else if ticks[i - 1].connected && ticks[i - 1].frame.Some? then ticks[i - 1].now
    else LastSent(ticks, i - 1, last)
  }

  lemma {:induction false} LastSentShift(ticks: seq<Observation>, i: nat, last: int)
    requires 0 < |ticks| && i < |ticks|
    ensures LastSent(ticks, i + 1, last) ==
      LastSent(ticks[1..], i, if ticks[0].connected && ticks[0].frame.Some? then ticks[0].now else last)
  {
    if i > 0 {
      LastSentShift(ticks, i - 1, last);
    }
  }

  /**
   * A stream that timed out did so on a connected tick with an empty slot,
   * more than five seconds after the last frame it had sent.
   */
  lemma {:induction false} StreamTimeoutMeansStarved(ticks: seq<Observation>, last: int, placeholder: Frame)
    requires Stream(ticks, last, placeholder).timedOut
    ensures exists i :: (0 <= i < |ticks| && ticks[i].connected && ticks[i].frame.None? &&
      ticks[i].now - LastSent(ticks, i, last) > StreamTimeout)
    decreases |ticks|
  {
    var o := ticks[0];
    if o.connected && o.frame.None? && o.now - last > StreamTimeout {
      assert LastSent(ticks, 0, last) == last;
    } else {
      var next := if o.connected && o.frame.Some? then o.now else last;
      StreamTimeoutMeansStarved(ticks[1..], next, placeholder);
      var i :| 0 <= i < |ticks[1..]| && ticks[1..][i].connected && ticks[1..][i].frame.None? &&
        ticks[1..][i].now - LastSent(ticks[1..], i, next) > StreamTimeout;
      LastSentShift(ticks, i, last);
      assert ticks[i + 1] == ticks[1..][i];
    }
  }

  /**
   * The camera status a failed in-loop reconnect leaves is not final: an
   * operator's POST /camera/{id}/reconnect that succeeds marks the camera
   * connected again, although its capture loop has already ended. The slot
   * still holds the last frame, so every stream tick serves that stale frame
   * and no stream ever times out.
   */
  lemma StaleFrameAfterExternalReconnect(w: Worker, f: Frame, ticks: seq<Observation>, last: int, placeholder: Frame)
    requires RunWorker(w, true).exit == ReconnectFailed
    requires RunWorker(w, true).w.slot == Some(f)
    requires Reconnect(RunWorker(w, true).w).1
    requires forall i :: 0 <= i < |ticks| ==> ticks[i] == Observation(ticks[i].now, true, Some(f))
    ensures Reconnect(RunWorker(w, true).w).0.status.connected
    ensures Reconnect(RunWorker(w, true).w).0.slot == Some(f)
    ensures Stream(ticks, last, placeholder) == Emitted(seq(|ticks|, k => Part(f, PartTrailer)), false)
  {
    StreamWithoutStarvation(ticks, last, placeholder);
  }
}

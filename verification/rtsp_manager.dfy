/**
 * The RTSP camera process manager of server/camera/camera_v2_go/main.go.
 *
 * The manager keeps one CameraProcess record per listed camera, keyed by its
 * index. Starting a camera launches one streaming process and records it;
 * stopping it, or that process exiting on its own, clears the record so the
 * camera can be started again. Launching a process is an input to the model
 * (its process number, or the reason it could not start), and so is the clock.
 */
module RtspManager {
  import opened Wrappers
  import opened Text

  datatype CameraInfo = CameraInfo(device: string, product: string)

  /** What `cmd.Start()` gave: a running process, or the error it failed with. */
  datatype Launch = Launched(pid: nat) | StartError(reason: string)

  /**
   * A camera record's value. `cmd` is the running process, `cancelFunc` says
   * whether a cancel function is held, and `startedAt` is None for Go's zero time.
   */
  datatype Record = Record(info: CameraInfo, rtspPath: string, cmd: Option<nat>, cancelFunc: bool,
                           startedAt: Option<int>, restarts: int)

  datatype Failure = NotFound(idx: int) | AlreadyStarted(idx: int) | LaunchFailed(idx: int, reason: string) | NotRunning(idx: int)

  /** The text of each error the manager returns. */
  function Message(f: Failure): string
  {
    match f
    case NotFound(i) => "camera " + IntToString(i) + " not found"
    case AlreadyStarted(i) => "camera " + IntToString(i) + " already started"
    case LaunchFailed(i, reason) => "failed to start test-launch for camera " + IntToString(i) + ": " + reason
    case NotRunning(i) => "camera " + IntToString(i) + " not running"
  }

  const RtspPrefix: string := "rtsp://127.0.0.1:8554/cam"

  /** The RTSP address of camera i. */
  function RtspPath(i: nat): (s: string)
    ensures |s| > |RtspPrefix| && s[..|RtspPrefix|] == RtspPrefix
    ensures AllDigits(s[|RtspPrefix|..])
  {
    RtspPrefix + NatToString(i)
  }

  /** Different cameras get different addresses. */
  lemma RtspPathInjective(i: nat, j: nat)
    requires RtspPath(i) == RtspPath(j)
    ensures i == j
  {
    assert RtspPath(i)[|RtspPrefix|..] == NatToString(i);
    assert RtspPath(j)[|RtspPrefix|..] == NatToString(j);
    NatToStringInjective(i, j);
  }

  /** A camera is running exactly while its record holds a process. */
  predicate Running(r: Record)
  {
    r.cmd.Some?
  }

  /** StartCamera on the records: an error leaves every record as it was. */
  function Start(cams: map<int, Record>, idx: int, launch: Launch, now: int): (r: Result<map<int, Record>, Failure>)
    ensures r.Err? <==> (idx !in cams || Running(cams[idx]) || launch.StartError?)
    ensures idx !in cams ==> r == Err(NotFound(idx))
    ensures idx in cams && Running(cams[idx]) ==> r == Err(AlreadyStarted(idx))
    ensures idx in cams && !Running(cams[idx]) && launch.StartError? ==> r == Err(LaunchFailed(idx, launch.reason))
    ensures r.Ok? ==> (r.value.Keys == cams.Keys && (forall j :: j in cams && j != idx ==> r.value[j] == cams[j]) &&
      r.value[idx].cmd == Some(launch.pid) && r.value[idx].cancelFunc && r.value[idx].startedAt == Some(now) &&
      r.value[idx].restarts == 0 && r.value[idx].info == cams[idx].info && r.value[idx].rtspPath == cams[idx].rtspPath)
  {
    if idx !in cams then Err(NotFound(idx))
    else if cams[idx].cmd.Some? then Err(AlreadyStarted(idx))
    else match launch
      case StartError(reason) => Err(LaunchFailed(idx, reason))
      case Launched(pid) =>
        Ok(cams[idx := cams[idx].(cmd := Some(pid), cancelFunc := true, startedAt := Some(now), restarts := 0)])
  }

  /** StopCamera on the records: an error leaves every record as it was. */
  function Stop(cams: map<int, Record>, idx: int): (r: Result<map<int, Record>, Failure>)
    ensures r.Err? <==> (idx !in cams || !Running(cams[idx]))
    ensures idx !in cams ==> r == Err(NotFound(idx))
    ensures idx in cams && !Running(cams[idx]) ==> r == Err(NotRunning(idx))
    ensures r.Ok? ==> (r.value.Keys == cams.Keys && (forall j :: j in cams && j != idx ==> r.value[j] == cams[j]) &&
      !Running(r.value[idx]) && !r.value[idx].cancelFunc &&
      r.value[idx] == cams[idx].(cmd := None, cancelFunc := false))
  {
    if idx !in cams then Err(NotFound(idx))
    else if cams[idx].cmd.None? then Err(NotRunning(idx))
    else Ok(cams[idx := cams[idx].(cmd := None, cancelFunc := false)])
  }

  /**
   * The monitor goroutine of a started camera, once its process exits: it
   * clears the record's process and cancel function, whichever process the
   * record holds by then.
   */
  function MonitorExit(cams: map<int, Record>, idx: int): (r: map<int, Record>)
    requires idx in cams
    ensures r.Keys == cams.Keys && (forall j :: j in cams && j != idx ==> r[j] == cams[j])
    ensures !Running(r[idx]) && !r[idx].cancelFunc
    ensures r[idx].startedAt == cams[idx].startedAt && r[idx].restarts == cams[idx].restarts
  {
    cams[idx := cams[idx].(cmd := None, cancelFunc := false)]
  }

  /**
   * The process whose context the monitor cancels as it clears the record:
   * the one the record holds, when a cancel function is held. A process
   * started with exec.CommandContext is killed when its context is cancelled,
   * if it is still running.
   */
  function MonitorCancels(r: Record): (p: Option<nat>)
    ensures p.Some? ==> r.cancelFunc && r.cmd == p
    ensures r.cancelFunc && r.cmd.Some? ==> p == r.cmd
    ensures !r.cancelFunc ==> p == None
  {
    if r.cancelFunc then r.cmd else None
  }

  /** A camera cannot be started twice without being stopped or exiting in between. */
  lemma StartTwiceRefused(cams: map<int, Record>, idx: int, first: Launch, second: Launch, t0: int, t1: int)
    requires Start(cams, idx, first, t0).Ok?
    ensures Start(Start(cams, idx, first, t0).value, idx, second, t1) == Err(AlreadyStarted(idx))
  {
  }

  /** After its process exits, a camera can be started again. */
  lemma ExitMakesStartable(cams: map<int, Record>, idx: int, pid: nat, now: int)
    requires idx in cams
    ensures Start(MonitorExit(cams, idx), idx, Launched(pid), now).Ok?
  {
  }

  /** A started camera stops, and a second stop reports it is not running. */
  lemma StartStopStop(cams: map<int, Record>, idx: int, launch: Launch, now: int)
    requires Start(cams, idx, launch, now).Ok?
    ensures Stop(Start(cams, idx, launch, now).value, idx).Ok?
    ensures Stop(Stop(Start(cams, idx, launch, now).value, idx).value, idx) == Err(NotRunning(idx))
  {
  }

  /**
   * The monitor of an earlier process clears whatever the record holds: if a
   * camera is stopped and started again before the first process's monitor
   * takes the lock, that monitor cancels the second process's context, which
   * kills it, and drops it and its cancel function from the record, which
   * then says the camera is not running.
   */
  lemma StaleMonitorForgetsRestart(cams: map<int, Record>, idx: int, p1: nat, p2: nat, t0: int, t1: int)
    requires idx in cams && !Running(cams[idx])
    ensures var afterRestart := Start(Stop(Start(cams, idx, Launched(p1), t0).value, idx).value, idx, Launched(p2), t1).value;
      afterRestart[idx].cmd == Some(p2) && afterRestart[idx].cancelFunc &&
      MonitorCancels(afterRestart[idx]) == Some(p2) &&
      !Running(MonitorExit(afterRestart, idx)[idx]) && !MonitorExit(afterRestart, idx)[idx].cancelFunc
  {
  }

  /** One process record, shared by the manager and the monitor of its process. */
  class CameraProcess {
    const info: CameraInfo
    const rtspPath: string
    var cmd: Option<nat>
    var cancelFunc: bool
    var startedAt: Option<int>
    var restarts: int

    function Snapshot(): Record
      reads this
    {
      Record(info, rtspPath, cmd, cancelFunc, startedAt, restarts)
    }

    constructor (info: CameraInfo, rtspPath: string)
      ensures Snapshot() == Record(info, rtspPath, None, false, None, 0)
    {
      this.info := info;
      this.rtspPath := rtspPath;
      cmd, cancelFunc, startedAt, restarts := None, false, None, 0;
    }
  }

  /** One entry of Status(). */
  datatype StatusEntry = StatusEntry(id: int, device: string, product: string, rtsp: string, running: bool, started: Option<int>)

  function Entry(id: int, r: Record): StatusEntry
  {
    StatusEntry(id, r.info.device, r.info.product, r.rtspPath, Running(r), r.startedAt)
  }

  /** What the HTTP handlers answer, besides the status code. */
  datatype Reply = Started(id: int, rtsp: string) | Stopped(id: int) | Address(rtsp: string) | Error(message: string)

  class Manager {
    var cameras: map<int, CameraProcess>

    /** Every camera has its own record. */
    ghost predicate Valid()
      reads this
    {
      forall i, j :: i in cameras && j in cameras && i != j ==> cameras[i] != cameras[j]
    }

    ghost function Records(): map<int, Record>
      reads this, cameras.Values
    {
      map i | i in cameras :: cameras[i].Snapshot()
    }

    /** NewManager: one idle record per listed camera, keyed by its position. */
    constructor (cameraList: seq<CameraInfo>)
      ensures Valid()
      ensures forall i :: i in cameras <==> 0 <= i < |cameraList|
      ensures forall i :: 0 <= i < |cameraList| ==>
        fresh(cameras[i]) && Records()[i] == Record(cameraList[i], RtspPath(i), None, false, None, 0)
    {
      var m: map<int, CameraProcess> := map[];
      var i := 0;
      while i < |cameraList|
        invariant 0 <= i <= |cameraList|
        invariant forall k :: k in m <==> 0 <= k < i
        invariant forall k :: 0 <= k < i ==>
          fresh(m[k]) && m[k].Snapshot() == Record(cameraList[k], RtspPath(k), None, false, None, 0)
        invariant forall k, l :: k in m && l in m && k != l ==> m[k] != m[l]
      {
        var cp := new CameraProcess(cameraList[i], RtspPath(i));
        m := m[i := cp];
        i := i + 1;
      }
      cameras := m;
    }

    method StartCamera(idx: int, launch: Launch, now: int) returns (err: Option<Failure>)
      requires Valid()
      modifies cameras.Values
      ensures Valid()
      ensures var r := Start(old(Records()), idx, launch, now);
        (r.Ok? ==> err == None && Records() == r.value) && (r.Err? ==> err == Some(r.error) && Records() == old(Records()))
    {
      if idx !in cameras {
        return Some(NotFound(idx));
      }
      var cp := cameras[idx];
      if cp.cmd.Some? {
        return Some(AlreadyStarted(idx));
      }
      match launch
      case StartError(reason) =>
        return Some(LaunchFailed(idx, reason));
      case Launched(pid) =>
        cp.cmd := Some(pid);
        cp.cancelFunc := true;
        cp.startedAt := Some(now);
        cp.restarts := 0;
        assert forall j :: j in cameras && j != idx ==> cameras[j] != cp;
        return None;
    }

    method StopCamera(idx: int) returns (err: Option<Failure>)
      requires Valid()
      modifies cameras.Values
      ensures Valid()
      ensures var r := Stop(old(Records()), idx);
        (r.Ok? ==> err == None && Records() == r.value) && (r.Err? ==> err == Some(r.error) && Records() == old(Records()))
    {
      if idx !in cameras {
        return Some(NotFound(idx));
      }
      var cp := cameras[idx];
      if cp.cmd.None? {
        return Some(NotRunning(idx));
      }
      cp.cmd := None;
      cp.cancelFunc := false;
      assert forall j :: j in cameras && j != idx ==> cameras[j] != cp;
      return None;
    }

    /** The monitor goroutine's cleanup once camera idx's process has exited. */
    method OnProcessExit(idx: int) returns (cancelled: Option<nat>)
      requires Valid() && idx in cameras
      modifies cameras[idx]
      ensures Valid()
      ensures Records() == MonitorExit(old(Records()), idx)
      ensures cancelled == MonitorCancels(old(Records())[idx])
    {
      var p := cameras[idx];
      var held := p.cmd;
      p.cmd := None;
      cancelled := None;
      if p.cancelFunc {
        cancelled := held;
        p.cancelFunc := false;
      }
      assert forall j :: j in cameras && j != idx ==> cameras[j] != p;
    }

    /**
     * Status: one entry per camera. Go visits a map's keys in an order of its
     * own choosing; that order is the input `order`, which lists every key once.
     */
    method Status(order: seq<int>) returns (out: seq<StatusEntry>)
      requires Valid()
      requires forall k :: 0 <= k < |order| ==> order[k] in cameras
      requires forall i :: i in cameras ==> i in order
      requires forall a, b :: 0 <= a < b < |order| ==> order[a] != order[b]
      ensures |out| == |order|
      ensures forall k :: 0 <= k < |out| ==> out[k].id in cameras && out[k] == Entry(out[k].id, Records()[out[k].id])
      ensures forall i :: i in cameras ==> exists k :: 0 <= k < |out| && out[k].id == i
      ensures forall a, b :: 0 <= a < b < |out| ==> out[a].id != out[b].id
    {
      out := [];
      for n := 0 to |order|
        invariant |out| == n
        invariant forall k :: 0 <= k < n ==> out[k].id == order[k] && out[k] == Entry(order[k], Records()[order[k]])
      {
        var cp := cameras[order[n]];
        out := out + [StatusEntry(order[n], cp.info.device, cp.info.product, cp.rtspPath, cp.cmd.Some?, cp.startedAt)];
      }
      assert forall i :: i in cameras ==> exists k :: 0 <= k < |order| && order[k] == i;
    }

    /** POST /start/:id, whose id parse error is ignored. */
    method StartHandler(idStr: string, launch: Launch, now: int) returns (code: int, reply: Reply)
      requires Valid()
      modifies cameras.Values
      ensures Valid()
      ensures var id := AtoiIgnoringError(idStr); var r := Start(old(Records()), id, launch, now);
        (r.Err? ==> code == 500 && reply == Error(Message(r.error)) && Records() == old(Records())) &&
        (r.Ok? ==> code == 200 && reply == Started(id, old(Records())[id].rtspPath) && Records() == r.value)
    {
      var id := AtoiIgnoringError(idStr);
      var err := StartCamera(id, launch, now);
      if err.Some? {
        return 500, Error(Message(err.value));
      }
      return 200, Started(id, cameras[id].rtspPath);
    }

    /** POST /stop/:id, whose id parse error is ignored. */
    method StopHandler(idStr: string) returns (code: int, reply: Reply)
      requires Valid()
      modifies cameras.Values
      ensures Valid()
      ensures var id := AtoiIgnoringError(idStr); var r := Stop(old(Records()), id);
        (r.Err? ==> code == 500 && reply == Error(Message(r.error)) && Records() == old(Records())) &&
        (r.Ok? ==> code == 200 && reply == Stopped(id) && Records() == r.value)
    {
      var id := AtoiIgnoringError(idStr);
      var err := StopCamera(id);
      if err.Some? {
        return 500, Error(Message(err.value));
      }
      return 200, Stopped(id);
    }

    /** GET /rtsp/:id: the camera's address, or 404 for an unknown id. */
    method RtspHandler(idStr: string) returns (code: int, reply: Reply)
      requires Valid()
      ensures var id := AtoiIgnoringError(idStr);
        (code == 404 <==> id !in cameras) &&
        (id !in cameras ==> reply == Error("not found")) &&
        (id in cameras ==> code == 200 && reply == Address(Records()[id].rtspPath))
    {
      var id := AtoiIgnoringError(idStr);
      if id !in cameras {
        return 404, Error("not found");
      }
      return 200, Address(cameras[id].rtspPath);
    }
  }
}

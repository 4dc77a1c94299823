# ASV robot services, modelled in Dafny

This project models the decision logic of the autonomous surface vessel's
services: the programs that stream its cameras, supervise its processes,
switch its control mode, relay requests between its local services, and
measure what its vision detector finds. Each core source file becomes one
Dafny module:

- `CameraV1` (`camera_v1.dfy`) is the dual-camera MJPEG server. Each
  `CameraThread` initialises its device with up to five warm-up reads. Its
  capture loop publishes every encoded frame into its camera's latest-frame
  slot. Five failed reads in a row mark the camera disconnected, count one
  error and try one reconnect, and a failed reconnect ends the worker. There
  are at most ten reconnect attempts. The stream generator sends a
  placeholder, the latest frame, or stops after five seconds without a frame.
- `Joystik` (`joystik.py`'s HD streaming server) has the same kind of slot
  and a frames-per-second counter that restarts every second. Its generator
  sends the stored frame or a blank one once per frame interval and never
  ends by itself.
- `RtspManager` is the Go manager of RTSP streaming processes: one record
  per camera, with start, stop and process-exit transitions and HTTP
  handlers that discard `strconv.Atoi`'s error.
- `ParallelRunner` is the process supervisor: a registry of uniquely named
  processes and the restart policy (`autorestart`, `max_restarts`) applied
  after each run.
- `Control` is the robot control server: the autonomous/remote mode, which
  gates joystick input, and the client registry with its ten-second expiry
  sweep.
- `Tranceiver` is the port-fallback proxy. It forwards a request to ports
  1000 through 8000 in order and returns the first answer that is not 404.
  Every attempt hands on the incoming request's own body reader, and the
  client's `Do` reads and closes it even when it fails. So a non-empty body
  reaches at most one port, and every later send fails.
- `Vision` covers the detector's contour filters and the offsets,
  distances and ball-pair midpoint of `calculate_offsets_and_distances`.

Three shared modules support them:

- `Wrappers` holds `Option` and `Result`.
- `Text` holds bytes and decimal rendering, with Go's `strconv.Atoi` written
  out digit by digit.
- `Mjpeg` holds the multipart framing of a JPEG part.

Hardware, processes, clocks and the network are inputs to the model:

- A camera is a script of open and read outcomes.
- A supervised process is a sequence of exit outcomes.
- An upstream port is a function from the forwarded request to its outcome.
- Time is integer milliseconds.

Where the source mutates objects, the model is a class with the same
fields. Its methods are proved against pure functions (`Initialize`,
`Tick`, `RunWorker`, `Start`, `Supervise`, `Forward`, `Measurements`, …),
and the properties are lemmas about those functions.

Where the written code and the system's prose description differ, the model
follows the code:

- A successful initialisation sets `error_count` back to 0
  (server/camera/camera_v1.py:72), so the error count is not a running
  total of disconnections.
- A successful initialisation also resets `reconnect_attempts`, and a failed
  reconnect inside the capture loop ends the worker
  (server/camera/camera_v1.py:125-127). The loop therefore never spends more
  than one of its ten attempts (`CaptureLoop`, `RunWorker`).
- After the worker has ended, a successful `POST /camera/{id}/reconnect`
  marks the camera connected again, but nothing captures any more. Every
  stream then serves the last frame for ever (`StaleFrameAfterExternalReconnect`).
- The RTSP monitor goroutine of an earlier process clears whatever process
  the record holds by the time it runs. A camera stopped and restarted
  before that monitor runs has its new process's context cancelled, which
  kills that process, and loses its record (`StaleMonitorForgetsRestart`).
- The RTSP handlers ignore the `Atoi` error, so an id such as `abc` means
  camera 0 (`AtoiOfNonNumeric`).

## Model

| member | source | states |
|---|---|---|
| Text.NatToString | server/tranceiver/main.go:18 | The decimal rendering of a port or id is a non-empty digit string, with a leading zero only for 0 |
| Text.DigitsValueOfNatToString | server/tranceiver/main.go:18 | Reading a rendering back as digits gives the number |
| Text.NatToStringInjective | server/camera/camera_v2_go/main.go:47 | Distinct numbers never share a decimal rendering |
| Text.IntToString | server/camera/camera_v2_go/main.go:63 | `%d` of an int: a leading '-' exactly for negative values, digits otherwise |
| Text.ScanDigits | server/camera/camera_v2_go/main.go:219 | The unsigned scan under Atoi: a successful scan saw only digits and stays within 2^64-1 |
| Text.AtoiIgnoringError | server/camera/camera_v2_go/main.go:219 | `id, _ := strconv.Atoi(idStr)` always yields an int64, and 0 for the empty string |
| Text.AtoiOfIntToString | server/camera/camera_v2_go/main.go:219 | Atoi reads back the decimal rendering of every int64 exactly |
| Text.AtoiOfNonNumeric | server/camera/camera_v2_go/main.go:219 | An id of up to 19 characters that is not a signed digit string is read as camera 0 |
| Text.ScanDigitsFrom | server/camera/camera_v2_go/main.go:219 | Scanning the rest of a digit string from the value of its prefix gives the whole string's value |
| Text.PrefixValueBounded | server/camera/camera_v2_go/main.go:219 | A prefix of a digit string never denotes more than the whole string |
| Text.ScanDigitsShort | server/camera/camera_v2_go/main.go:219 | A scan of at most 19 digits never hits the range error |
| Text.Pow10Monotone | server/camera/camera_v2_go/main.go:219 | Powers of ten grow with the exponent (bound for the range check) |
| Mjpeg.Part | server/camera/camera_v1.py:186-187 | A part is the `--frame` header, then the image, then the trailer |
| Mjpeg.UnframePart | server/camera/camera_v1.py:186-187 | The image can be recovered from its part: framing loses nothing |
| Mjpeg.PartInjective | client/kontrol/joystik.py:93-94 | Two parts with one trailer are equal exactly when their images are |
| Mjpeg.Unframe | client/kontrol/joystik.py:93-94 | An image taken out of a chunk accounts for every byte besides header and trailer |
| CameraV1.WarmUpUses | server/camera/camera_v1.py:67-79 | The warm-up succeeds exactly when one of the first five reads is good, stops right after the first good one and otherwise uses all five reads (or all there are) |
| CameraV1.Initialize | server/camera/camera_v1.py:43-83 | Initialising never touches the frame slot |
| CameraV1.InitializeEffect | server/camera/camera_v1.py:49-79 | Success iff the device opens and one of at most five reads is good; success sets connected, error_count 0 and reconnect_attempts 0; failure changes neither status nor counter |
| CameraV1.Reconnect | server/camera/camera_v1.py:85-95 | At ten attempts or more, refuse without changing anything; otherwise count exactly one more attempt and re-initialise, success resetting the counter; an attempt reopens the device with the next open outcome and consumes only reads still to come |
| CameraV1.Tick | server/camera/camera_v1.py:114-145 | A good read resets the error run and publishes its JPEG if encoding succeeded; a failed read never writes the slot; fewer than five failures in a row change no status; the fifth marks the camera down, adds one error and reconnects once |
| CameraV1.TickReconnects | server/camera/camera_v1.py:120-128 | The fifth failure in a row is a status update followed by reconnect_camera, continuing with a cleared error run only when it succeeds |
| CameraV1.SlotFromSuffix | server/camera/camera_v1.py:143-145 | A slot value that came from a later part of the read script came from the whole script |
| CameraV1.CaptureLoop | server/camera/camera_v1.py:109-161 | The loop ends disconnected with the device released; the slot only ever holds a frame a good read produced; from a fresh start it ends having used one attempt and counted one error exactly when a reconnect failed |
| CameraV1.RunWorker | server/camera/camera_v1.py:97-161 | A failed initial setup ends the worker before the loop, leaving the status untouched; otherwise it ends disconnected; a failed reconnect leaves one attempt and one error on the counters |
| CameraV1.FrameStore.constructor | server/camera/camera_v1.py:24-27 | Both slots empty, both cameras disconnected with no errors |
| CameraV1.CameraThread.constructor | server/camera/camera_v1.py:31-41 | Configuration copied, running set, no device, no reconnect attempts |
| CameraV1.CameraThread.ReadFrame | server/camera/camera_v1.py:114 | One read consumes one outcome of the device |
| CameraV1.CameraThread.WarmUpReads | server/camera/camera_v1.py:67-79 | The loop of up to five reads does what the warm-up function says |
| CameraV1.CameraThread.InitializeCamera | server/camera/camera_v1.py:43-83 | The new worker state is `Initialize` of the old one, and the other camera's slot and status are unchanged |
| CameraV1.CameraThread.ReconnectCamera | server/camera/camera_v1.py:85-95 | The new worker state is `Reconnect` of the old one |
| CameraV1.CameraThread.CaptureOnce | server/camera/camera_v1.py:110-150 | One pass of the loop is `Tick` |
| CameraV1.CameraThread.Run | server/camera/camera_v1.py:97-161 | The whole run is `RunWorker`, touching only this camera's slot and status |
| CameraV1.CameraThread.RequestStop | server/camera/camera_v1.py:236 | Clearing the worker's stop flag |
| CameraV1.VideoFeed | server/camera/camera_v1.py:238-253 | 404 "Camera not found" exactly for ids other than 0 and 1; otherwise a multipart stream whose X-Camera-Status header reports the camera's connection |
| CameraV1.StatusEndpoint | server/camera/camera_v1.py:255-267 | 404 exactly for unknown ids; otherwise the camera's connected flag, error count and configuration |
| CameraV1.RootCameras | server/camera/camera_v1.py:282-298 | One entry per camera, in order, with its connected flag and configuration |
| CameraV1.Server.constructor | server/camera/camera_v1.py:23-27 | Fresh shared state and no workers |
| CameraV1.Server.Startup | server/camera/camera_v1.py:213-228 | One running worker per configured camera, with that camera's settings |
| CameraV1.Server.Shutdown | server/camera/camera_v1.py:230-236 | Every started worker's stop flag is cleared; its device flag, attempt counter and hardware, and the shared slots and statuses, are unchanged |
| CameraV1.Server.ReconnectEndpoint | server/camera/camera_v1.py:269-280 | 404 exactly for unknown ids; no worker gives `reconnect_success` false with the statuses unchanged; otherwise the worker's `Reconnect` and its result, its stop flag kept, the other camera's slot and status and worker unchanged |
| CameraV1.StreamParts | server/camera/camera_v1.py:163-199 | At most one chunk per tick, each a well-formed part whose image can be recovered |
| CameraV1.GenerateFrames | server/camera/camera_v1.py:163-199 | The generator loop sends what `Stream` says |
| CameraV1.StreamWithoutStarvation | server/camera/camera_v1.py:171-187 | While every tick is disconnected or finds a frame, one part per tick, the placeholder or the frame, and no timeout |
| CameraV1.StreamStarvedTick | server/camera/camera_v1.py:188-192 | A connected tick with no frame ends the stream exactly when more than five seconds have passed since the last frame |
| CameraV1.LastSentShift | server/camera/camera_v1.py:185 | The time of the last frame sent, seen from one tick later |
| CameraV1.StreamTimeoutMeansStarved | server/camera/camera_v1.py:185-192 | A timed-out stream stopped on a connected, empty tick more than five seconds after its last real frame (placeholders do not count) |
| CameraV1.StaleFrameAfterExternalReconnect | server/camera/camera_v1.py:125-127 | After the worker ended on a failed reconnect, a successful external reconnect marks the camera connected, and streams serve the stale frame without ever timing out |
| Joystik.FrameSlots.constructor | client/kontrol/joystik.py:18 | Both slots start empty |
| Joystik.RecordAllKeepsLatest | client/kontrol/joystik.py:50-62 | The slot holds the frame of the last good read; with no good read it is unchanged |
| Joystik.RecordAllCountsWithinSecond | client/kontrol/joystik.py:65-67 | Within a second of last_time, frame_count grows by exactly one per good frame |
| Joystik.RecordResetsAfterSecond | client/kontrol/joystik.py:66-71 | A good frame one second or more after last_time sets the count to 0 and last_time to now |
| Joystik.RecordAllCountBounded | client/kontrol/joystik.py:65-71 | frame_count never exceeds the number of good frames |
| Joystik.HighPerformanceCamera.constructor | client/kontrol/joystik.py:23-31 | Running, zero frames counted, last_time is the creation time |
| Joystik.HighPerformanceCamera.Run | client/kontrol/joystik.py:50-74 | The loop's slot and counter are `RecordAll` of the reads, and the other camera's slot is untouched |
| Joystik.Generate | client/kontrol/joystik.py:84-104 | At most one chunk per pass, each a well-formed part |
| Joystik.GenerateAppend | client/kontrol/joystik.py:84-104 | The generator has no end of its own: two stretches of passes send the first stretch's parts, then the second's |
| Joystik.GenerateWaitsForInterval | client/kontrol/joystik.py:85-88 | Nothing is sent before a frame interval has elapsed since the last part |
| Joystik.GenerateDuePass | client/kontrol/joystik.py:88-101 | A due pass sends the stored frame, or the blank frame for an empty slot, with a CRLF trailer, and restarts the interval |
| Joystik.FrameGenerator | client/kontrol/joystik.py:79-104 | The generator loop sends what `Generate` says |
| Joystik.VideoStream | client/kontrol/joystik.py:146-163 | The error object exactly for ids other than 0 and 1; otherwise a multipart stream announcing the camera's frame rate |
| Joystik.Health | client/kontrol/joystik.py:165-177 | A camera is active exactly when its slot holds a frame; key, resolution and target fps from the configuration |
| Joystik.ClearedAll | client/kontrol/joystik.py:138-139 | One stop-flag event per worker, in order |
| Joystik.JoinedAll | client/kontrol/joystik.py:141-142 | One join per worker, in order |
| Joystik.Startup | client/kontrol/joystik.py:119-128 | One running worker per configured camera, all sharing the slots |
| Joystik.Shutdown | client/kontrol/joystik.py:136-142 | Every worker's flag is cleared, and every flag is cleared before any join; frame counts and clocks are unchanged |
| RtspManager.RtspPath | server/camera/camera_v2_go/main.go:47 | `rtsp://127.0.0.1:8554/cam` followed by the camera's digits |
| RtspManager.RtspPathInjective | server/camera/camera_v2_go/main.go:46-52 | Different cameras get different RTSP addresses |
| RtspManager.Start | server/camera/camera_v2_go/main.go:58-124 | An unknown index gives "not found", a running camera "already started", a launch failure its error, each changing nothing; otherwise only that record changes: process set, cancel function held, start time recorded, restarts 0 |
| RtspManager.Stop | server/camera/camera_v2_go/main.go:126-165 | An unknown index gives "not found", an idle camera "not running", each changing nothing; otherwise only that record changes, with process and cancel function cleared |
| RtspManager.MonitorExit | server/camera/camera_v2_go/main.go:101-117 | The exit monitor clears the record's process and cancel function and nothing else |
| RtspManager.MonitorCancels | server/camera/camera_v2_go/main.go:107-110 | The monitor cancels the context of the process the record holds exactly when a cancel function is held, and no context otherwise |
| RtspManager.StartTwiceRefused | server/camera/camera_v2_go/main.go:69-71 | A started camera cannot be started again |
| RtspManager.ExitMakesStartable | server/camera/camera_v2_go/main.go:105-111 | After its process exits, a camera can be started again |
| RtspManager.StartStopStop | server/camera/camera_v2_go/main.go:137-139 | A started camera stops, and a second stop reports "not running" |
| RtspManager.StaleMonitorForgetsRestart | server/camera/camera_v2_go/main.go:105-111 | After stop and restart, the first process's monitor cancels the second process's context, which kills it, and clears that process and its cancel function from the record |
| RtspManager.CameraProcess.constructor | server/camera/camera_v2_go/main.go:48-51 | A record with its camera info and address, no process, zero start time |
| RtspManager.Manager.constructor | server/camera/camera_v2_go/main.go:42-54 | Exactly one idle record per listed camera, keyed 0..n-1, with its RTSP address |
| RtspManager.Manager.StartCamera | server/camera/camera_v2_go/main.go:58-124 | The records change as `Start` says, and an error leaves them as they were |
| RtspManager.Manager.StopCamera | server/camera/camera_v2_go/main.go:126-165 | The records change as `Stop` says, and an error leaves them as they were |
| RtspManager.Manager.OnProcessExit | server/camera/camera_v2_go/main.go:105-111 | The records change as `MonitorExit` says, and the context cancelled is the one `MonitorCancels` names |
| RtspManager.Manager.Status | server/camera/camera_v2_go/main.go:167-186 | Exactly one entry per camera, each with running = the record holds a process |
| RtspManager.Manager.StartHandler | server/camera/camera_v2_go/main.go:217-225 | The id is Atoi with its error discarded; 500 with the error message, or 200 with the camera's address |
| RtspManager.Manager.StopHandler | server/camera/camera_v2_go/main.go:227-235 | As above for stop: 500 with the message, or 200 "stopped" |
| RtspManager.Manager.RtspHandler | server/camera/camera_v2_go/main.go:237-248 | 404 exactly for an id with no record; otherwise that camera's address |
| ParallelRunner.AfterFailure | helpers/parallel_runner.py:82-90 | Without autorestart, stop; without a limit, go on with the count unchanged; with a limit, count one restart and stop exactly when the count reaches it |
| ParallelRunner.Supervise | helpers/parallel_runner.py:50-111 | The loop launches at least once when it can, ends on exit 0 exactly when the last launch exited 0, all earlier launches failed, and without a limit restart_count never changes |
| ParallelRunner.AlwaysFailingLaunches | helpers/parallel_runner.py:86-90 | With max_restarts m, a process that always fails is launched max(1, m - restart_count) times and ends at the limit |
| ParallelRunner.UnlimitedKeepsRestarting | helpers/parallel_runner.py:52-90 | Without a limit, a process that always fails is launched again after every failure, restart_count unchanged |
| ParallelRunner.RaisedLikeFailedExit | helpers/parallel_runner.py:95-105 | An exception during a run is handled exactly like a non-zero exit code |
| ParallelRunner.CleanExitEnds | helpers/parallel_runner.py:76-78 | Exit code 0 ends supervision with no restart |
| ParallelRunner.NoAutorestartEnds | helpers/parallel_runner.py:82-84 | Without autorestart, the first failure ends supervision |
| ParallelRunner.ProcessInfo.constructor | helpers/parallel_runner.py:9-17 | A new entry has restart_count 0 and is not running |
| ParallelRunner.Runner.constructor | helpers/parallel_runner.py:20-22 | An empty registry and the runner not running |
| ParallelRunner.Runner.AddProcess | helpers/parallel_runner.py:34-48 | A registered name raises ValueError and changes nothing; otherwise one new, idle entry under that name, the others unchanged |
| ParallelRunner.Runner.RunProcess | helpers/parallel_runner.py:50-111 | With both running flags set, the loop does what `Supervise` says; otherwise nothing is launched; the entry's running flag is cleared when the loop ends |
| ParallelRunner.Runner.Run | helpers/parallel_runner.py:113-130 | An empty registry starts nothing; otherwise the runner and every entry are set running |
| ParallelRunner.Runner.StopAll | helpers/parallel_runner.py:150-156 | The runner and every entry are cleared, and nothing else changes |
| Control.ParseMode | server/control/control.py:21-23 | Only "autonomous" and "remote" are modes |
| Control.ParseModeName | server/control/control.py:21-23 | Every mode reads back from its name |
| Control.RobotServer.constructor | server/control/control.py:25-26 | The robot starts autonomous, with no clients |
| Control.RobotServer.ChangeMode | server/control/control.py:91-106 | The mode becomes the requested one, and the reply reports the old and new modes |
| Control.RobotServer.ReceiveJoystick | server/control/control.py:108-126 | 403 exactly when not in remote mode; otherwise "received" with the data's type |
| Control.RobotServer.Touch | server/control/control.py:67 | Insert or overwrite one client's last-seen time |
| Control.RobotServer.ClientPing | server/control/control.py:64-72 | Only this client's last-seen time changes, and the reply carries the mode |
| Control.RobotServer.ConnectClient | server/control/control.py:74-84 | Registers `name_<whole seconds>` at the current time |
| Control.ClientId | server/control/control.py:77 | The id is the name, an underscore, and the decimal whole seconds |
| Control.ClientIdInjective | server/control/control.py:77 | Equal ids mean the same name connecting in the same second |
| Control.RobotServer.Status | server/control/control.py:128-134 | The mode and the number of registered clients |
| Control.Unexpired | server/control/control.py:140-144 | A sweep keeps exactly the clients seen at most ten seconds ago, with their times |
| Control.UnexpiredIdempotent | server/control/control.py:138-148 | A second sweep at the same time removes nothing more |
| Control.PingKeepsClient | server/control/control.py:64-72 | A client that pinged survives every sweep up to ten seconds later, at exactly ten included |
| Control.RobotServer.CleanupPass | server/control/control.py:140-147 | Listing the expired ids, then deleting them, leaves exactly `Unexpired` |
| Control.Remove | server/control/control.py:146 | Deleting one id from the insertion order keeps the others, without repeats |
| Tranceiver.TargetUrl | server/tranceiver/main.go:18-21 | `http://localhost:` + port + path, with `?` + query only for a non-empty query |
| Tranceiver.TargetUrlNamesPort | server/tranceiver/main.go:17-21 | Different ports give different target URLs |
| Tranceiver.ProxyFor | server/tranceiver/main.go:24-33 | The forwarded request keeps the verb, the headers and the incoming body reader, at the port's address |
| Tranceiver.Attempt | server/tranceiver/main.go:24-39 | Only a request that was built reaches `Do`; after an earlier attempt reached `Do`, a non-empty body gives no response; otherwise the port's own outcome |
| Tranceiver.Forward | server/tranceiver/main.go:17-56 | Never more ports tried than there are |
| Tranceiver.ForwardChoice | server/tranceiver/main.go:43-56 | A non-404 reply relays the first accepted outcome, all earlier ones rejected; a 404 is the fixed message after every outcome failed or said 404 |
| Tranceiver.ForwardFirstAccepted | server/tranceiver/main.go:43-51 | The first accepted outcome answers, whatever later ports would say |
| Tranceiver.OutcomesWithoutBody | server/tranceiver/main.go:24-39 | Without a body, every port sees the request as it is |
| Tranceiver.OutcomeBeforeRead | server/tranceiver/main.go:24-39 | Until some attempt reaches `Do`, the next port sees the request as it is |
| Tranceiver.BodyReadOnce | server/tranceiver/main.go:24-39 | After one attempt reaches `Do` with a non-empty body, no later port gives a response |
| Tranceiver.BodyRejectedByFirstPort | server/tranceiver/main.go:17-56 | A request with a body that the first port answers with 404 or fails to receive gets the proxy's own 404 after every port was tried, whatever the rest would say |
| Tranceiver.Handle | server/tranceiver/main.go:15-57 | The handler tries ports 1000..8000 as `Forward` says, starting with the body unread |
| Tranceiver.TryPorts | server/tranceiver/main.go:17-56 | The loop with its skips, the one-shot body and the early return does what `Forward` says |
| Vision.Trunc | server/vision.py:150-151 | `int()` truncates toward zero |
| Vision.Balls | server/vision.py:138-172 | Every ball kept has a radius within bounds and at least the minimum area |
| Vision.Boxes | server/vision.py:174-201 | Every box kept has at least twice the minimum area |
| Vision.BallsExactly | server/vision.py:143-170 | A contour becomes a ball exactly when it passes the area, radius, perimeter and roundness tests |
| Vision.BoxesExactly | server/vision.py:179-199 | A contour becomes a box exactly when it has twice the area and four corners |
| Vision.FindCircles | server/vision.py:138-172 | The loop with its `continue`s yields `Balls` |
| Vision.FindRectangles | server/vision.py:174-201 | The loop yields `Boxes` |
| Vision.Detect | server/vision.py:129-134 | Red and green masks give balls, green and blue masks give boxes |
| Vision.MidPoint | server/vision.py:242-245 | Each midpoint coordinate is the floor of half the sum |
| Vision.WrittenKeys | server/vision.py:229-234 | The six assignments add exactly the kind's keys, with their values, leaving other keys alone |
| Vision.WrittenOwn | server/vision.py:229-234 | Each of the kind's keys is written with its own value |
| Vision.WrittenField | server/vision.py:229-234 | One field's key is written with that field's value |
| Vision.SixAssignments | server/vision.py:229-234 | The assignments equal a merge of the kind's entries over the map |
| Vision.TypeEntries | server/vision.py:214-234 | A kind's entries are exactly its six keys, each measured from its first detection |
| Vision.Accumulated | server/vision.py:212-234 | After the loop, a kind's keys are present exactly when it has a detection, each measured from its first detection |
| Vision.PairEntries | server/vision.py:237-253 | The pair keys are present exactly when both a red and a green ball were found; midpoint, offset and normalised offset |
| Vision.Measurements | server/vision.py:203-255 | The call raises ZeroDivisionError exactly when a measured detection meets a zero frame half-size or a zero radius or area |
| Vision.WriteEntries | server/vision.py:218-234 | One pass writes the kind's entries over the map |
| Vision.MeasureKinds | server/vision.py:212-234 | The loop fails exactly when some kind has a failing detection, and otherwise yields `Accumulated` |
| Vision.WritePairEntries | server/vision.py:237-253 | The tail adds the pair entries |
| Vision.CalculateOffsetsAndDistances | server/vision.py:203-255 | The method computes `Measurements` |
| Vision.MeasurementsKind | server/vision.py:206-234 | A kind's keys are present iff its list is non-empty, and every one is measured from its first detection against the centre (width div 2, height div 2) |
| Vision.EntryValues | server/vision.py:218-227 | offset = centre minus the frame centre, normalised offset = offset divided by the frame centre, centre copied, distance by the shape rule |
| Vision.AccumulatedKind | server/vision.py:212-234 | Visiting a kind writes its keys exactly when it has a detection |
| Vision.MeasurementsPair | server/vision.py:237-253 | Pair keys present iff both ball lists are non-empty; the floor-divided midpoint and its offset from the centre |
| Vision.MeasurementsSplit | server/vision.py:205-255 | A successful result is the per-kind entries followed by the pair entries |
| Vision.DistanceByShape | server/vision.py:224-227 | A ball's distance is 10000 / radius, a box's is 250000 / area |

## Left out

- Threads, locks, goroutines and their interleavings. Each worker, generator, monitor and sweep is modelled one step at a time on the state it owns, and the races between them appear only as lemmas about orders of steps (`StaleMonitorForgetsRestart`, `StaleFrameAfterExternalReconnect`).
- `time.sleep`, `time.time()` and Go's `time.Now()`. Clocks are integer millisecond inputs and sleeps are not modelled; the frame pacing `max(0, interval - processing)` and the measured FPS printout are left out.
- OpenCV: capture, property setting, resizing, JPEG encoding, placeholder and blank image drawing, colour masks, morphology, contour extraction, polygon approximation and `draw_detections`. Frames are opaque bytes, reads are outcomes in a script, and contours are input records.
- The roundness test of `_find_circles` (`4·pi·area/perimeter² >= circularity_threshold`) is an input flag of each contour, because it is floating-point arithmetic on pi.
- Vision floats are exact reals, so the normalised offsets and distances carry no rounding.
- The trackbar calibration (`create_trackbars`, `update_color_ranges`): `min_area` is a parameter, and the colour ranges are not modelled.
- Vision.KeyName: the result keys are the `Key` datatype; that distinct keys have distinct dictionary spellings is not proved.
- Exceptions in the camera loop (server/camera/camera_v1.py:152-154) and in `generate_frames` (197-199) are not modelled; a read outcome is either good or failed.
- CameraV1.CaptureLoop: the stop flag is read once per run, and the read script running out stands for shutdown having cleared it.
- Joystik: the device is never checked for being open; a read outcome is either a frame or a failure, as in the source.
- Join timeouts in both lifespan handlers and in `stop_all`, and `terminate`/`kill` of child processes in `stop_all`.
- The monitor loop of `ParallelRunner.run` and the signal handlers.
- `subprocess` stdout streaming and `print`/log output in every program.
- Log-file creation, the pipeline string and the 400 ms start delay of `StartCamera`; the kill after two seconds in `StopCamera` (the record is cleared either way).
- The RTSP manager's autostart and shutdown code in `main`, and the Go `Status` output's RFC 3339 time formatting (`startedAt` is an optional integer time).
- RtspManager.Manager.Status: Go's map iteration order is an input permutation of the keys.
- Tranceiver: the five-second client timeout and the copying of response bodies are I/O; a port's outcome is an input function.
- Tranceiver.Attempt: a send after the body was closed is modelled as failing. Go's transport could in principle still report a response that arrived before the body write failed, and the model does not capture that timing.
- HTTP frameworks (FastAPI, gin, net/http, uvicorn) and CORS; handlers are modelled by the values they return.
- server/sysinfo.py, client/UI/server.py and mulai_server.py are not part of this model: a system-information wrapper, a UI stub with random telemetry, and a start script.

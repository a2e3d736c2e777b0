# cuav air-side camera control and capture loop, in Dafny

This project models two parts of cuav, the UAV imaging system.

The first is the air-side MAVProxy module `CameraAirModule` (`cuav/modules/camera_air.py`).
It watches a directory for captured images and queues each new one for the scanner. It
queues a thumbnail of any image whose regions score high enough, and sends everything
queued to the ground stations over one or more block-transmit links. It also takes
commands back from those links. Its control plane is modelled twice:

- as a pure state machine: `AirSpec`, with one transition function per operation over a
  value `AirState` that holds every field the logic reads or writes;
- as a class, `CameraAir.CameraAirModule`. The class has the same fields, and each of its
  methods updates them step by step as the Python method does. Each method is proved to
  end in exactly the state the matching `AirSpec` function gives.

The properties are proved as lemmas over `AirSpec` in `AirProps`. They cover:

- the `camera start / stop / airstart / set` state machine;
- the airstart trigger on `VFR_HUD`;
- the capture poll's gate;
- the scan thread's region accounting and thumbnail gate;
- timestamp de-duplication and dispatch of inbound commands;
- an invariant between the threads, namely that every frame waiting for the scanner has
  been filed.

`Dispatch` models two things. The first is the fan-out of one queued object onto the
links under the per-link queue limit (`send_object`). The second is the parser of the
`gcs_address` setting into link endpoints. It proves a round trip between that parser and
a formatter of endpoint lists.

The second part is the stand-alone capture program `camera/py_capture.py`, in the module
`Capture`:

- the search for a base time (`get_base_time`), with its count of consecutive failures
  and camera re-opens;
- the continuous capture loop (`run_capture`), with frame-loss accounting, the 128-second
  camera clock wrap, the routing of each frame to the debayer or save queue, and the
  `--num-frames` stop rule;
- the debayer, compress and save thread steps;
- the `timestamp` file names.

The loop is a method over a `CaptureState` class holding the three queues. It is proved
against the pure function `Capture.Run`, and the accounting lemmas are stated about
`Run`.

Supporting modules:

| module | what it holds |
|---|---|
| `Common` | `Option` |
| `Text` | Python's `str.split`, `int()` and `float()` (white space around the number allowed) and decimal formatting, over `seq<char>` |
| `AirSettings` | the two `MPSettings` stores |
| `AirTypes` | packets, links, inbound commands and autopilot messages |

Camera and host effects become explicit inputs:

- a capture's outcome is a `CaptureResult`, and an image-file poll is a `Poll`;
- whether `camparms` parses is a boolean `parses`;
- whether an image file can be read is `readable`;
- the wall clock is `now`, and root privilege is `Host.isRoot`;
- the queue size reported by a link's `tick` and what its `recv` returned are a
  `LinkInput`;
- the regions the scanner and the opaque region filters produce are a `ScanInput`;
- the local-time text that `strftime` yields is `clockText`.

Floating-point values are exact `real`s, and Python's `int()` on a float is `Capture.Trunc`
(truncation toward zero).

Some behaviour of the code that the model keeps as written:

- A setting change received from the ground is echoed with no target link
  (camera_air.py:444-446 and 511-514). It therefore goes back on every link, including
  the one it came from (camera_air.py:546-549).
- A link is sent to whenever its send queue is strictly below `maxqueue`, so a link at 95
  of 100 still receives (camera_air.py:548).
- A frame refused because the scan queue holds 100 entries is not counted anywhere
  (camera_air.py:219-224).
- The "image Tx queue too long" warning is itself queued onto the full transmit queue
  (camera_air.py:308-313).

## Model

| member | source | states |
|---|---|---|
| `AirSettings.SetCamera` | cuav/modules/camera_air.py:45-71 | a name the store does not keep changes nothing; each kept name changes only its own field, and only to a value of its declared type: `minalt` (0..10000) and `minscore` (0..5000) only to an in-range integer, `minspeed` and `maxqueue` to an integer, `target_radius` to a number, the three flags to a boolean, `gcs_address` to a string and `camparms` to a string or none; a value of any other type leaves the field as it was |
| `AirSettings.SetCameraIdempotent` | cuav/modules/camera_air.py:45-71 | setting the same value twice is the same as setting it once |
| `AirSettings.SetCameraCommutes` | cuav/modules/camera_air.py:45-71 | settings of two different names can be applied in either order |
| `AirSettings.SetTargetRadiusFraction` | cuav/modules/camera_air.py:60 | `camera set target_radius 2.5` sets the float setting to 2.5 and changes nothing else |
| `AirSettings.SetImage` | cuav/modules/camera_air.py:73-82 | the image store keeps its six names; the named value takes a number only in 0..100, and every other entry is unchanged |
| `Text.Split` | cuav/modules/camera_air.py:394-396 | `split` always yields at least one piece and no piece contains the separator |
| `Text.SplitJoin` | cuav/modules/camera_air.py:394-396 | splitting the join of separator-free pieces gives back exactly those pieces |
| `Text.ParseShowInt` | cuav/modules/camera_air.py:396-398 | `int()` reads back the decimal rendering of every integer, negative ones included |
| `Text.ParseDecimalOfInt` | cuav/modules/camera_air.py:60 | `float()` reads back the decimal rendering of every integer as that number |
| `Text.ParseDecimalFraction` | cuav/modules/camera_air.py:60 | `float()` of digits, a point and fraction digits is the whole part plus the fraction's value over ten to the number of its places |
| `Dispatch.SendObject` | cuav/modules/camera_air.py:539-552 | the fan-out keeps one entry per link |
| `Dispatch.SendObjectAt` | cuav/modules/camera_air.py:539-552 | link `i` gets the object, with its priority and one more queued block, exactly when the object is not targeted or is targeted at `i`, and the link's queue is below `maxqueue`; otherwise the link is unchanged |
| `Dispatch.DrainIsPerLink` | cuav/modules/camera_air.py:365-367 | draining the transmit queue onto all links acts on each link independently of the others |
| `Dispatch.LinkDrainTakesRoom` | cuav/modules/camera_air.py:365-367 | a drain gives a link exactly the first objects meant for it, in queue order, up to the room left below `maxqueue` |
| `Dispatch.DrainNeverOverfills` | cuav/modules/camera_air.py:546-552 | after a drain no link's queue exceeds the larger of its earlier size and `maxqueue` |
| `Dispatch.DrainSkipsCloggedLink` | cuav/modules/camera_air.py:546-552 | a link already at or above `maxqueue` receives nothing from a drain |
| `Dispatch.ParseEndpointFields` | cuav/modules/camera_air.py:396-399 | an entry yields an endpoint exactly when it splits into four `:`-fields whose last three pass `int()`; the endpoint holds the first field as its address and the three integers as remote port, local port and bandwidth |
| `Dispatch.ParseEndpointsAppend` | cuav/modules/camera_air.py:393-402 | the endpoints of a concatenation of entry lists are the concatenation of their endpoints |
| `Dispatch.MalformedEntrySkipped` | cuav/modules/camera_air.py:397-402 | a malformed entry is skipped and the entries around it still yield their endpoints |
| `Dispatch.ParseFormatEndpoint` | cuav/modules/camera_air.py:397-399 | an endpoint written out as `ip:port:port:bw` parses back to itself and contains no comma |
| `Dispatch.AllEntriesParse` | cuav/modules/camera_air.py:393-402 | when every entry parses, the link list has one endpoint per entry, in order |
| `Dispatch.ParseFormattedEntries` | cuav/modules/camera_air.py:393-402 | a list of formatted endpoints parses back to the same list |
| `Dispatch.ParseFormatGcsAddress` | cuav/modules/camera_air.py:393-402 | a comma-joined `gcs_address` of endpoints parses back to those endpoints |
| `AirSpec.CmdCamera` | cuav/modules/camera_air.py:119-190 | no camera command touches the scan queue, the filed images, the handled stamps or the links |
| `AirSpec.StartKeepsRecords` | cuav/modules/camera_air.py:125-144 | `start` leaves those records alone |
| `AirSpec.AirstartKeepsRecords` | cuav/modules/camera_air.py:170-188 | `airstart` leaves those records alone |
| `AirSpec.ReportsKeepRecords` | cuav/modules/camera_air.py:145-167 | `stop`, `status` and `queue` leave those records alone |
| `AirSpec.ScanAltitude` | cuav/modules/camera_air.py:238-241 | an altitude exists exactly when a terrain height is known; it is at least both the height and `minalt` and equal to one of them, so it is the larger of the two |
| `AirSpec.HandleImageRequest` | cuav/modules/camera_air.py:495-509 | an image request leaves the scan queue, the filed images, the stamps and the links alone |
| `AirSpec.Handle` | cuav/modules/camera_air.py:441-453 | dispatching any command variant leaves those records alone |
| `AirSpec.CheckCommands` | cuav/modules/camera_air.py:421-453 | handling what one link received keeps the scan queue, the filed images and the links, and only adds handled stamps |
| `AirSpec.PollLinks` | cuav/modules/camera_air.py:350-353 | ticking and polling every link keeps the number of links, the scan queue and the filed images, and only adds handled stamps |
| `AirProps.StartOutcome` | cuav/modules/camera_air.py:125-144 | `start` always zeroes the counters; with invalid camera parameters nothing else changes; otherwise, when not running, the three threads start and "Started cuav running" is queued, and when running only "cuav already running" is queued; the module ends up running exactly when it was running or the parameters are valid |
| `AirProps.StartTwice` | cuav/modules/camera_air.py:125-144 | a second `start` starts no thread and only reports "already running" |
| `AirProps.StopThenStart` | cuav/modules/camera_air.py:125-149 | `stop` clears `running` and `airstart_triggered`, and a later `start` is accepted again and starts the three threads |
| `AirProps.AirstartTwice` | cuav/modules/camera_air.py:170-188 | a second `airstart` starts no thread, leaves `running` alone and only reports "cuav airstart already running" |
| `AirProps.AirstartThenFlight` | cuav/modules/camera_air.py:170-188 | after `airstart`, only the transmit thread runs; the first `VFR_HUD` above `minspeed` then starts capture and scan and reports "Started cuav running" |
| `AirProps.VfrHudStartsIff` | cuav/modules/camera_air.py:465-473 | `VFR_HUD` starts capture exactly when airstart is armed, the module is not running and air or ground speed is strictly above `minspeed`; it then sets `running`, so a second packet changes nothing; otherwise the state is unchanged |
| `AirProps.UnknownCommandIgnored` | cuav/modules/camera_air.py:119-124 | an empty or unknown camera command changes nothing |
| `AirProps.CaptureGate` | cuav/modules/camera_air.py:219-224 | a poll enqueues exactly when the file is valid, the path differs from the previous one, the time is known and the scan queue holds fewer than 100 frames; it then appends `(time, file)`, adds one to `capture_count`, files the name under the time and remembers the path; otherwise nothing changes |
| `AirProps.SamePathRefused` | cuav/modules/camera_air.py:220-224 | re-polling the path just taken never enqueues, however often it is repeated |
| `AirProps.RepollEnqueuesAtMostOnce` | cuav/modules/camera_air.py:220-224 | within one capture thread, any number of polls of one unchanged path enqueue and count at most one frame |
| `AirProps.DuplicateFrameEnqueuedOnce` | cuav/modules/camera_air.py:204-224 | after the capture thread starts, two files polled as A, B, B enqueue exactly A and B |
| `AirProps.ScanAccounting` | cuav/modules/camera_air.py:230-313 | a scan iteration takes the head frame, counts one scan and the regions after the first filter, and keeps the filed images, `capture_count` and the links |
| `AirProps.QueueThumbOnlyQueues` | cuav/modules/camera_air.py:290-313 | the thumbnail step changes only the transmit queue, adding one entry exactly when a thumbnail is wanted |
| `AirProps.PutThumbOnlyQueues` | cuav/modules/camera_air.py:308-313 | queuing a thumbnail adds exactly one entry, the packet or the warning, and changes nothing else |
| `AirProps.ScanThumbGate` | cuav/modules/camera_air.py:290-313 | the transmit queue grows exactly when there are regions, `transmit` is on and the high score reaches `minscore`; it then gains the thumbnail when it holds fewer than 100 entries, and otherwise the "image Tx queue too long" message |
| `AirProps.ThumbScoreJustified` | cuav/modules/camera_air.py:290-310 | a queued thumbnail carries a high score of at least `minscore` that bounds every region's score and is one of them, or 0 |
| `AirProps.HighScoreIsBest` | cuav/modules/camera_air.py:290-295 | the high score is at least 0, bounds every region's score, and is either 0 or the score of some region |
| `AirProps.LowScoreCountedNotSent` | cuav/modules/camera_air.py:262-313 | a lone region scoring 350 under `minscore` 400 is counted and not sent |
| `AirProps.UndecodedIgnored` | cuav/modules/camera_air.py:423-433 | no data, an undecodable payload or one that decodes to `None` changes nothing |
| `AirProps.StampRecording` | cuav/modules/camera_air.py:435-439 | a new stamp is recorded with the current time before dispatch; an unstamped command leaves the stamps alone; a stamp already handled makes the whole command a no-op |
| `AirProps.SameStampHandledOnce` | cuav/modules/camera_air.py:435-439 | a second command with the same stamp, on any link and at any time, changes nothing |
| `AirProps.ImageGoesOnlyToRequester` | cuav/modules/camera_air.py:495-509 | an answered image request queues one image with priority 10000 targeted at the requesting link, so no other link receives it |
| `AirProps.SettingEchoedEverywhere` | cuav/modules/camera_air.py:444-446 | a camera setting change is applied and echoed untargeted, so every link, including the requester, is considered |
| `AirProps.ThreeLinkBroadcast` | cuav/modules/camera_air.py:546-549 | of three links an untargeted object reaches the one at 95 of 100 and the empty ones, and skips one that is full |
| `AirProps.BsendFromAddress` | cuav/modules/camera_air.py:391-402 | with links present, link set-up does nothing; otherwise it builds one fresh link per endpoint of `gcs_address`, in order |
| `AirProps.InitialInv` | cuav/modules/camera_air.py:84-105 | the module starts with the inter-thread invariant |
| `AirProps.CapturePollKeepsInv` | cuav/modules/camera_air.py:219-224 | a capture poll keeps the scan queue within 100 and every queued frame filed, and never unfiles an image |
| `AirProps.ScanStepKeepsInv` | cuav/modules/camera_air.py:226-313 | a scan iteration keeps the invariant and the filed images |
| `AirProps.CommandsKeepInv` | cuav/modules/camera_air.py:119-190 | camera commands, autopilot packets, the capture-thread start and link set-up keep the invariant |
| `AirProps.CheckCommandsKeepsInv` | cuav/modules/camera_air.py:421-453 | command handling keeps the invariant |
| `AirProps.TransmitKeepsInv` | cuav/modules/camera_air.py:350-378 | a transmit iteration keeps the invariant |
| `AirProps.QueuedFrameResolvable` | cuav/modules/camera_air.py:495-497 | under the invariant an image request for any queued frame finds its file name |
| `CameraAir.HighScoreOf` | cuav/modules/camera_air.py:290-295 | the loop computes the high score of the regions |
| `CameraAir.CameraAirModule.constructor` | cuav/modules/camera_air.py:25-105 | the fields start as the initial state |
| `CameraAir.CameraAirModule.SendMessage` | cuav/modules/camera_air.py:526-529 | queues the text for the ground station |
| `CameraAir.CameraAirModule.ResetCounters` | cuav/modules/camera_air.py:126-127 | zeroes the capture and error counters |
| `CameraAir.CameraAirModule.StartThread` | cuav/modules/camera_air.py:404-409 | counts one more started thread of the given kind |
| `CameraAir.CameraAirModule.StartRunning` | cuav/modules/camera_air.py:133-141 | sets `running`, starts the three threads and reports it |
| `CameraAir.CameraAirModule.CmdStart` | cuav/modules/camera_air.py:125-144 | ends in the state `AirSpec.CmdStart` gives |
| `CameraAir.CameraAirModule.CmdStop` | cuav/modules/camera_air.py:145-149 | ends in the state `AirSpec.CmdStop` gives |
| `CameraAir.CameraAirModule.ArmAirstart` | cuav/modules/camera_air.py:178-184 | arms airstart, starts the transmit thread and reports it |
| `CameraAir.CameraAirModule.CmdAirstart` | cuav/modules/camera_air.py:170-188 | ends in the state `AirSpec.CmdAirstart` gives |
| `CameraAir.CameraAirModule.CmdCamera` | cuav/modules/camera_air.py:119-190 | ends in the state `AirSpec.CmdCamera` gives |
| `CameraAir.CameraAirModule.CaptureThreadStart` | cuav/modules/camera_air.py:207-208 | forgets the previous image of the one capture thread modelled and empties the scan queue |
| `CameraAir.CameraAirModule.CapturePoll` | cuav/modules/camera_air.py:210-224 | ends in the state `AirSpec.CapturePoll` gives |
| `CameraAir.CameraAirModule.Enqueue` | cuav/modules/camera_air.py:221-224 | queues and files the frame and counts it |
| `CameraAir.CameraAirModule.CountCapture` | cuav/modules/camera_air.py:223-224 | counts the capture and remembers its path |
| `CameraAir.CameraAirModule.QueueThumb` | cuav/modules/camera_air.py:290-313 | ends in the state `AirSpec.QueueThumb` gives |
| `CameraAir.CameraAirModule.PutThumb` | cuav/modules/camera_air.py:309-313 | queues the thumbnail below 100 entries, and otherwise the warning |
| `CameraAir.CameraAirModule.TakeFrame` | cuav/modules/camera_air.py:230-265 | returns the head frame and leaves the state `AirSpec.Dequeue` gives |
| `CameraAir.CameraAirModule.CountScan` | cuav/modules/camera_air.py:260-265 | adds one scan and the regions found |
| `CameraAir.CameraAirModule.ScanStep` | cuav/modules/camera_air.py:226-313 | ends in the state `AirSpec.ScanStep` gives |
| `CameraAir.CameraAirModule.SyncGpsClock` | cuav/modules/camera_air.py:477-493 | sets the clock exactly when a GPS time is present, the process is root and the clock was never set or is off by at least ten seconds; then records that it was set, and changes nothing else |
| `CameraAir.CameraAirModule.OnVfrHud` | cuav/modules/camera_air.py:465-473 | ends in the state `AirSpec.OnVfrHud` gives |
| `CameraAir.CameraAirModule.StartInFlight` | cuav/modules/camera_air.py:468-473 | sets `running`, starts capture and scan and reports it |
| `CameraAir.CameraAirModule.MavlinkPacket` | cuav/modules/camera_air.py:455-475 | ends in the state `AirSpec.MavlinkPacket` gives |
| `CameraAir.CameraAirModule.HandleImageRequest` | cuav/modules/camera_air.py:495-509 | ends in the state `AirSpec.HandleImageRequest` gives |
| `CameraAir.CameraAirModule.CameraSettingsCallback` | cuav/modules/camera_air.py:511-514 | queues the setting's echo untargeted |
| `CameraAir.CameraAirModule.ImageSettingsCallback` | cuav/modules/camera_air.py:516-519 | queues the image setting's echo untargeted |
| `CameraAir.CameraAirModule.ApplyCameraSetting` | cuav/modules/camera_air.py:444-446 | sets the camera setting and echoes it |
| `CameraAir.CameraAirModule.ApplyImageSetting` | cuav/modules/camera_air.py:448-450 | sets the image setting and echoes it |
| `CameraAir.CameraAirModule.Handle` | cuav/modules/camera_air.py:441-453 | ends in the state `AirSpec.Handle` gives |
| `CameraAir.CameraAirModule.CheckCommands` | cuav/modules/camera_air.py:421-453 | ends in the state `AirSpec.CheckCommands` gives |
| `CameraAir.CameraAirModule.SendObject` | cuav/modules/camera_air.py:539-552 | the loop over the links ends with the links `Dispatch.SendObject` gives, and nothing else changes |
| `CameraAir.CameraAirModule.SendHeartbeats` | cuav/modules/camera_air.py:337-342 | ends in the state `AirSpec.Heartbeat` gives |
| `CameraAir.CameraAirModule.StartAircraftBsend` | cuav/modules/camera_air.py:391-402 | the loop over the entries of `gcs_address` ends in the state `AirSpec.StartAircraftBsend` gives |
| `CameraAir.CameraAirModule.Tick` | cuav/modules/camera_air.py:351-352 | sets the queue size one link reports after its tick |
| `CameraAir.CameraAirModule.PollLinks` | cuav/modules/camera_air.py:351-353 | the loop over the links ends in the state `AirSpec.PollLinks` gives |
| `CameraAir.CameraAirModule.DrainTransmitQueue` | cuav/modules/camera_air.py:365-367 | the drain loop ends in the state `AirSpec.DrainQueue` gives, with the transmit queue empty |
| `CameraAir.CameraAirModule.UpdateStats` | cuav/modules/camera_air.py:369-375 | the statistics loop records every link's queue size |
| `CameraAir.CameraAirModule.TransmitIteration` | cuav/modules/camera_air.py:350-378 | ends in the state `AirSpec.TransmitIteration` gives |
| `Capture.Run` | camera/py_capture.py:127-157 | the loop consumes at most the given results, all of them unless it stops, and it stops only right after a successful capture |
| `Capture.RunStopsIff` | camera/py_capture.py:153-157 | the loop stops exactly when `num_frames` lies above the frames captured so far and within reach of the successful captures; the count grows by the successes consumed |
| `Capture.NeverStopsAtOrBelowCount` | camera/py_capture.py:155-157 | once the count has passed `num_frames` the loop never stops and consumes everything |
| `Capture.DefaultNeverStops` | camera/py_capture.py:15 | with the default `--num-frames 0` the loop never ends |
| `Capture.FailuresChangeNothing` | camera/py_capture.py:129-133 | failed captures leave base time, last frame time and counter, frame loss, count and queues unchanged |
| `Capture.FrameLossTelescopes` | camera/py_capture.py:136-137 | once a nonzero frame counter has been seen, and provided every captured frame carries a nonzero counter, the frame loss grows by the counter advance minus the frames captured |
| `Capture.FrameLossFromFirstFrame` | camera/py_capture.py:123-137 | the first frame adds no loss; the loss afterwards is the counter advance from that frame minus the frames after it |
| `Capture.BaseTimeCountsWraps` | camera/py_capture.py:134-135 | the base time grows by exactly 128 seconds for each captured frame time below the previous one |
| `Capture.RunRouting` | camera/py_capture.py:139-142 | with `compress` each capture adds one entry to the bayer queue only; otherwise with `save` one non-JPEG save entry only; otherwise no queue changes; earlier entries stay in front |
| `Capture.OnlyCapturesChangeState` | camera/py_capture.py:129-155 | if no frame was captured, the loop state is unchanged |
| `Capture.Stamps` | camera/py_capture.py:134-142 | one stamp per captured frame |
| `Capture.StampOfFrame` | camera/py_capture.py:134-142 | the stamp of the frame at position k is numbered by the captures before it and equals the entry base time plus 128 seconds for each clock wrap up to it, plus its camera time |
| `Capture.RunStamps` | camera/py_capture.py:139-142 | a run queues exactly the stamps of the frames it consumed, in order, after the earlier entries: on the debayer queue with `compress`, else as raw save entries with `save` |
| `Capture.QueuedStampOfFrame` | camera/py_capture.py:134-142 | every frame a run consumed sits on the debayer queue (with `compress`) or as a raw save entry (with `save`) at the position of its capture, stamped with the base time at its own capture plus its camera time |
| `Capture.NewestStampIsBasePlusFrame` | camera/py_capture.py:139-140 | the newest queued frame is stamped with base time plus frame time |
| `Capture.CaptureState.constructor` | camera/py_capture.py:20-28 | the three queues start empty |
| `Capture.CaptureState.RouteFrame` | camera/py_capture.py:139-142 | routes one frame stamp as `Capture.Route` says |
| `Capture.CaptureState.BayerStep` | camera/py_capture.py:90-95 | moves the head of the bayer queue to the compress queue |
| `Capture.CaptureState.CompressStep` | camera/py_capture.py:107-111 | takes the head of the compress queue and saves it as a JPEG only with `save` |
| `Capture.CaptureState.SaveStep` | camera/py_capture.py:76-83 | takes the head of the save queue and names its file by timestamp |
| `Capture.PipelineDelivers` | camera/py_capture.py:85-111 | a frame going through debayer and compress reaches the save queue as a JPEG exactly when `save` is set |
| `Capture.Trunc` | camera/py_capture.py:32 | Python's `int()` of a float: the integer next to it toward zero |
| `Capture.Hundredths` | camera/py_capture.py:32 | the hundredths field is in 0..99 and agrees with `int(frame_time*100)` modulo 100 |
| `Capture.TwoDigits` | camera/py_capture.py:33 | `%02u` of a number below 100 is two digits with that value |
| `Capture.SaveFilenameShape` | camera/py_capture.py:30-83 | a saved file is `tmp/i` + local time + two hundredths digits, with `.jpg` exactly for JPEGs and `.pgm` otherwise |
| `Capture.RunCapture` | camera/py_capture.py:114-157 | the loop returns the stop flag, results used, frame loss and count of `Capture.Run`, and leaves its queues as `Run` routes them |
| `Capture.FirstCapture` | camera/py_capture.py:52-67 | the first successful attempt, if any; all attempts before it failed |
| `Capture.GetBaseTime` | camera/py_capture.py:42-67 | stops at the first success, with base time equal to its trigger time minus its frame time; the error count is the failures so far modulo 4, and there is one re-open per 4 failures |
| `Capture.FirstCaptureAt` | camera/py_capture.py:52-67 | a success preceded only by failures is the first capture |

## Left out

- `AirSpec.CapturePoll` and `AirSpec.CaptureThreadStart` keep a single `prevImage`, the
  previous file of one capture thread. In the source `prev_image` is a local of each
  capture thread (camera_air.py:207). `camera stop` ends no thread (camera_air.py:145-149),
  so start, stop and start leave two capture threads running. Each of them then queues
  every new file, and `capture_count` rises by two per file. The model does not capture
  this: a new capture thread replaces the earlier one's previous file, and
  `AirProps.RepollEnqueuesAtMostOnce` and `AirProps.DuplicateFrameEnqueuedOnce` hold for
  one capture thread.
- Threads, `unload`, `unload_event` and the `join` calls are left out. Each thread body is
  one step over explicit state. Loop conditions that wait on events are not modelled.
- Image work is left out: OpenCV reading, rotation, resizing and encoding, the scanner,
  debayering, JPEG compression and composite thumbnails. Images are not carried, only
  their frame times and file names.
- The region filters `filter_regions`, `filter_radius` and `filter_boundary` are external
  code. They are inputs of the scan step (`ScanInput.filters`), each used only when the
  settings switch it on.
- `BlockSender` is modelled as a queue size plus a log of sends. A `send` adds one queued
  block. `tick` yields a new queue size given as input, and `recv` yields a given
  `Received` value. Pickling is left out.
- `mav_position` interpolation and the `cuav_joe` log are external. The plane position
  is an input, and nothing is logged.
- These statistics are left out: `jpeg_size`, `efficiency`, `bandwidth_used`,
  `rtt_estimate` and `scan_fps`. The status and queue reports carry only the counters and
  queue sizes.
- The disk-space warning (`statvfs`) and the `watch`-mode status report in
  `mavlink_packet` depend on the host. They are left out.
- `time.strftime`/`localtime` is left out; its text is the parameter `clockText`. Setting
  the system clock in `sync_gps_clock` is not modelled, only the decision to do it.
- `CameraParams` parsing of `camparms` is the input `parses`.
- `AirSettings.SetCamera` and `AirSettings.SetImage` take only a value of the declared
  type, with an integer also accepted for a float. MAVProxy's `MPSettings.set` is not part
  of this model. It converts a value of another type with the declared type, such as
  `int(50.7)` giving 50, where the model ignores the value. The `yes`/`no` words and
  case-insensitive booleans that it reads are not modelled either: `ParseBool` knows only
  `1`, `0`, `True`, `False`, `true` and `false`.
- `SetCamera` keeps only the settings the modelled logic reads. The other settings are
  accepted and forgotten.
- The `rotate180` branch refers to undefined names, and `lowscore` is never used. Neither
  is modelled.
- `print` output is left out.
- `AirSpec.HandleImageRequest` requires the frame time to be filed. In the source, an
  unknown time raises `KeyError` and kills the transmit thread. The precondition is
  carried up as `Resolvable`, and `AirProps.QueuedFrameResolvable` shows that requests
  for queued frames meet it.
- `Capture.Hundredths` and `Capture.Trunc` use exact reals. IEEE rounding of
  `frame_time * 100.0` can differ by one hundredth for some inputs.
- `add_all_thumbs` has no effect in the source and is not modelled.
- `Text.ParseInt` and `Text.ParseDecimal` accept an optional sign and decimal digits
  (with one point for `float()`), with white space around them. Exponents, `inf`, `nan`
  and the other literal forms Python's `int()` and `float()` also accept are rejected.
- `AirSpec.FileImage` and `AirSpec.Resolvable` key the image-file map by the exact frame
  time. The source keys it by `str(filetime)` (camera_air.py:222, 497), which Python 2
  rounds to 12 significant digits. Two frame times that round alike share one entry
  there: the later file replaces the earlier, and a request for either finds it. The
  model keeps them apart.
- `AirSpec.StartAircraftBsend` always builds a link for an entry that parses. The source
  also skips an entry whose `BlockSender` construction raises, such as a port already in
  use (camera_air.py:397-401). Construction failures are not modelled.
- `Capture.GetBaseTime` does not model a failing re-open. A `chameleon.open` inside the
  error handler (py_capture.py:64-66) that raises escapes `get_base_time` and ends the
  program.

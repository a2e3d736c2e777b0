/**
 The control plane of ``CameraAirModule`` (cuav/modules/camera_air.py) as transitions of
 one state value.  ``AirState`` holds every field of the module the modelled logic reads
 or writes; each function below is one operation, or one iteration of a thread body,
 from the state before it to the state after it.  Threads are represented by how many of
 each kind have been started; what a new thread does first is a transition of its own.
 */
module AirSpec {
  import opened Common
  import opened AirSettings
  import opened AirTypes
  import Dispatch

  /** How many capture, scan and transmit threads have been started. */
  datatype Threads = Threads(capture: nat, scan: nat, transmit: nat)

  /** An entry of ``scan_queue``: the frame time and the image file. */
  datatype ScanItem = ScanItem(frameTime: real, filename: string)

  datatype AirState = AirState(
    running: bool,
    airstartTriggered: bool,
    captureCount: nat,
    scanCount: nat,
    errorCount: nat,
    regionCount: nat,
    scanQueue: seq<ScanItem>,
    transmitQueue: seq<Outbound>,
    handledTimestamps: map<real, real>,     // stamp -> wall-clock time first seen
    imageFilenameMapping: map<real, string>, // frame time -> image file
    bsend: seq<Link>,
    xmitQueue: seq<nat>,                     // per-link queue sizes, as last reported
    camera: CameraSettings,
    image: map<string, real>,
    threads: Threads,
    prevImage: Option<string>,               // the last file enqueued by the one capture
                                             // thread modelled (a local of each thread)
    terrainAlt: Option<real>,
    haveSetGpsTime: bool,
    lastHeartbeat: real,
    boundarySet: bool)                       // a boundary polygon is loaded

  /** The shedding threshold of ``scan_queue`` and ``transmit_queue``. */
  const QueueLimit := 100

  /** Seconds between heartbeats. */
  const HeartbeatInterval := 5.0

  /** Priority of a re-sent image. */
  const ImagePriority := 10000

  const StartedMsg := "Started cuav running"
  const AlreadyRunningMsg := "cuav already running"
  const StoppedMsg := "Stopped cuav"
  const AirstartReadyMsg := "cuav airstart ready"
  const AirstartRunningMsg := "cuav airstart already running"
  const TxQueueWarningMsg := "Warning: image Tx queue too long"

  /** The module just after ``__init__`` at wall-clock time ``now``. */
  function Initial(now: real): AirState
  {
    AirState(false, false, 0, 0, 0, 0, [], [], map[], map[], [], [], DefaultCamera, DefaultImage,
             Threads(0, 0, 0), None, None, false, now, false)
  }

  /** The records a command leaves alone: the frames waiting for the scanner, the filed
      images, the stamps already handled and the links. */
  predicate KeepsRecords(a: AirState, b: AirState)
  {
    && a.scanQueue == b.scanQueue
    && a.imageFilenameMapping == b.imageFilenameMapping
    && a.handledTimestamps == b.handledTimestamps
    && a.bsend == b.bsend
  }

  /** ``send_message``: a text for the ground station joins ``transmit_queue``. */
  function SendMessage(st: AirState, m: Message): AirState
  {
    st.(transmitQueue := st.transmitQueue + [Outbound(CameraMessage(m), None, None)])
  }

  /** ``check_camera_parms``: a parameters file is named and its contents parse
      (``parses`` stands for ``CameraParams.fromstring`` succeeding). */
  predicate CameraParmsValid(camparms: Option<string>, parses: bool)
  {
    camparms.Some? && parses
  }

  /** The three thread functions ``start_thread`` is given. */
  datatype ThreadKind = CaptureThread | ScanThread | TransmitThread

  /** ``start_thread`` for one thread function. */
  function StartThread(t: Threads, k: ThreadKind): Threads
  {
    match k
    case CaptureThread => t.(capture := t.capture + 1)
    case ScanThread => t.(scan := t.scan + 1)
    case TransmitThread => t.(transmit := t.transmit + 1)
  }

  /** Which threads a start starts. */
  function StartThreads(t: Threads, capture: bool, scan: bool, transmit: bool): Threads
  {
    Threads(t.capture + (if capture then 1 else 0),
            t.scan + (if scan then 1 else 0),
            t.transmit + (if transmit then 1 else 0))
  }

  /** What ``camera start`` and ``camera airstart`` do first: restart the counters. */
  function ResetCounters(st: AirState): AirState
  {
    st.(captureCount := 0, errorCount := 0)
  }

  /** The start of a run: ``running`` is set, the capture, scan and transmit threads
      start and the ground station is told. */
  function StartRunning(st: AirState): AirState
  {
    SendMessage(st.(running := true, threads := StartThreads(st.threads, true, true, true)), Text(StartedMsg))
  }

  /** ``camera start``: the counters restart; with valid camera parameters the capture,
      scan and transmit threads start unless the module is already running. */
  function CmdStart(st: AirState, parses: bool): AirState
  {
    var s := ResetCounters(st);
    if !CameraParmsValid(st.camera.camparms, parses) then s
    else if !s.running then StartRunning(s)
    else SendMessage(s, Text(AlreadyRunningMsg))
  }

  /** ``camera stop``: report, then clear both ``running`` and ``airstart_triggered``. */
  function CmdStop(st: AirState): AirState
  {
    SendMessage(st, Text(StoppedMsg)).(running := false, airstartTriggered := false)
  }

  /** Arming airstart: ``airstart_triggered`` is set, only the transmit thread starts
      and the ground station is told. */
  function ArmAirstart(st: AirState): AirState
  {
    SendMessage(st.(airstartTriggered := true, threads := StartThreads(st.threads, false, false, true)),
                Text(AirstartReadyMsg))
  }

  /** ``camera airstart``: the counters restart; with valid camera parameters only the
      transmit thread starts, unless airstart is already armed. */
  function CmdAirstart(st: AirState, parses: bool): AirState
  {
    var s := ResetCounters(st);
    if !CameraParmsValid(st.camera.camparms, parses) then s
    else if !s.airstartTriggered then ArmAirstart(s)
    else SendMessage(s, Text(AirstartRunningMsg))
  }

  /** ``camera status``. */
  function CmdStatus(st: AirState): AirState
  {
    SendMessage(st, Status(st.captureCount, st.errorCount, st.scanCount, st.regionCount,
                           st.xmitQueue, |st.scanQueue|))
  }

  /** ``camera queue``. */
  function CmdQueue(st: AirState): AirState
  {
    SendMessage(st, QueueReport(|st.scanQueue|, |st.transmitQueue|))
  }

  /** ``cmd_camera``: the console and remote command interface; an empty or unknown
      command only prints the usage. */
  function CmdCamera(st: AirState, args: seq<string>, parses: bool): (r: AirState)
    ensures KeepsRecords(st, r)
  {
    StartKeepsRecords(st, parses);
    AirstartKeepsRecords(st, parses);
    ReportsKeepRecords(st);
    if |args| == 0 then st
    else if args[0] == "start" then CmdStart(st, parses)
    else if args[0] == "stop" then CmdStop(st)
    else if args[0] == "status" then CmdStatus(st)
    else if args[0] == "queue" then CmdQueue(st)
    else if args[0] == "set" then st.(camera := SettingsCommand(st.camera, args[1..]))
    else if args[0] == "airstart" then CmdAirstart(st, parses)
    else st
  }

  lemma StartKeepsRecords(st: AirState, parses: bool)
    ensures KeepsRecords(st, CmdStart(st, parses))
  {
  }

  lemma AirstartKeepsRecords(st: AirState, parses: bool)
    ensures KeepsRecords(st, CmdAirstart(st, parses))
  {
  }

  lemma ReportsKeepRecords(st: AirState)
    ensures KeepsRecords(st, CmdStop(st)) && KeepsRecords(st, CmdStatus(st)) && KeepsRecords(st, CmdQueue(st))
  {
  }

  /** What a new capture thread does before polling: forget the previous file and start
      from a fresh, empty ``scan_queue``. The model keeps one capture thread's previous
      file, so a new thread takes the place of any earlier one. */
  function CaptureThreadStart(st: AirState): AirState
  {
    st.(prevImage := None, scanQueue := [])
  }

  /** The time a polled file is filed under: the wall clock when timestamps are ignored,
      otherwise the time parsed from the file name. */
  function FileTime(st: AirState, poll: Poll, now: real): Option<real>
    requires poll.Polled?
  {
    if st.camera.ignoreTimestamps then Some(now) else poll.parsedTime
  }

  /** The enqueue gate of the capture thread. */
  predicate CaptureAccepts(st: AirState, poll: Poll, now: real)
  {
    && poll.Polled?
    && st.prevImage != Some(poll.filename)
    && FileTime(st, poll, now).Some?
    && |st.scanQueue| < QueueLimit
  }

  /** An accepted file joins ``scan_queue`` and is filed under its time. */
  function FileImage(st: AirState, t: real, filename: string): AirState
  {
    st.(scanQueue := st.scanQueue + [ScanItem(t, filename)],
        imageFilenameMapping := st.imageFilenameMapping[t := filename])
  }

  /** An accepted file is counted and becomes the previous image. */
  function CountCapture(st: AirState, filename: string): AirState
  {
    st.(captureCount := st.captureCount + 1, prevImage := Some(filename))
  }

  /** An accepted file: it joins ``scan_queue``, is filed under its time, is counted and
      becomes the previous image. */
  function Enqueue(st: AirState, t: real, filename: string): AirState
  {
    CountCapture(FileImage(st, t, filename), filename)
  }

  /** One iteration of ``capture_threadfunc``. */
  function CapturePoll(st: AirState, poll: Poll, now: real): AirState
  {
    if CaptureAccepts(st, poll, now) then Enqueue(st, FileTime(st, poll, now).value, poll.filename)
    else st
  }

  /** The altitude the scanner's pixel width is computed from: the terrain altitude,
      raised to ``minalt`` when lower; none without a terrain report. */
  function ScanAltitude(terrainAlt: Option<real>, minalt: int): (r: Option<real>)
    ensures r.Some? <==> terrainAlt.Some?
    ensures r.Some? ==> r.value >= minalt as real
    ensures r.Some? ==> r.value >= terrainAlt.value
    ensures r.Some? ==> r.value == terrainAlt.value || r.value == minalt as real
  {
    match terrainAlt
    case None => None
    case Some(a) => if a < minalt as real then Some(minalt as real) else Some(a)
  }

  function Max(a: int, b: int): int { if a < b then b else a }

  /** The ``highscore`` fold of a scan: the largest region score, and 0 when no score
      is positive. */
  function HighScore(rs: seq<Region>): int
    decreases |rs|
  {
    if rs == [] then 0 else Max(HighScore(rs[..|rs| - 1]), rs[|rs| - 1].score)
  }

  /** The region filters, whose internals are not modelled: the radius filter, the
      boundary filter and the score filter as configured. */
  datatype Filters = Filters(
    radius: seq<Region> -> seq<Region>,
    boundary: seq<Region> -> seq<Region>,
    score: seq<Region> -> seq<Region>)

  /** What one scan sees: the regions that passed the first score filter, the position
      of the aircraft when one is known, and the filters. */
  datatype ScanInput = ScanInput(firstPass: seq<Region>, pos: Option<Position>, filters: Filters)

  /** The regions left after the radius filter (only with a radius and a position) and
      the boundary filter followed by the score filter again (only with a boundary). */
  function FinalRegions(st: AirState, input: ScanInput): seq<Region>
  {
    var afterRadius :=
      if st.camera.targetRadius > 0.0 && input.pos.Some? then input.filters.radius(input.firstPass)
      else input.firstPass;
    if st.boundarySet then input.filters.score(input.filters.boundary(afterRadius)) else afterRadius
  }

  /** The thumbnail gate: something survived, transmission is on and the best score
      clears ``minscore``. */
  predicate ThumbWanted(st: AirState, regions: seq<Region>)
  {
    |regions| > 0 && st.camera.transmit && HighScore(regions) >= st.camera.minscore
  }

  /** The transmit gate of a scan: a thumbnail joins ``transmit_queue`` when it is wanted
      and the queue holds fewer than 100 entries; when the queue is full a warning message
      is queued instead. */
  function QueueThumb(st: AirState, frameTime: real, regions: seq<Region>, pos: Option<Position>): AirState
  {
    if ThumbWanted(st, regions) then PutThumb(st, ThumbPacket(frameTime, regions, pos, HighScore(regions)))
    else st
  }

  /** A thumbnail joins ``transmit_queue`` when the queue holds fewer than 100 entries;
      otherwise the warning is queued instead. */
  function PutThumb(st: AirState, pkt: Packet): AirState
  {
    if |st.transmitQueue| < QueueLimit then st.(transmitQueue := st.transmitQueue + [Outbound(pkt, None, None)])
    else SendMessage(st, Text(TxQueueWarningMsg))
  }

  /** One iteration of ``scan_threadfunc`` with a frame available (an empty queue makes
      the thread wait, which changes nothing). */
  function ScanStep(st: AirState, input: ScanInput): AirState
  {
    if st.scanQueue == [] then st
    else
      var s := Dequeue(st, |input.firstPass|);
      QueueThumb(s, st.scanQueue[0].frameTime, FinalRegions(s, input), input.pos)
  }

  /** The start of a scan iteration: the oldest frame leaves the queue, the scan is
      counted and so are the regions that passed the first score filter. */
  function Dequeue(st: AirState, found: nat): (r: AirState)
    requires st.scanQueue != []
    ensures r.scanQueue == st.scanQueue[1..]
    ensures r.scanCount == st.scanCount + 1 && r.regionCount == st.regionCount + found
  {
    CountScan(st.(scanQueue := st.scanQueue[1..]), found)
  }

  /** A scan is counted, and so are the regions it found. */
  function CountScan(st: AirState, found: nat): AirState
  {
    st.(scanCount := st.scanCount + 1, regionCount := st.regionCount + found)
  }

  function Abs(x: real): real { if x < 0.0 then -x else x }

  /** The decision of ``sync_gps_clock``: a GPS time is present, the process may set the
      clock, and either the clock was never set or it is off by at least ten seconds. */
  predicate ShouldSetClock(timeUsec: int, isRoot: bool, haveSet: bool, now: real)
  {
    && timeUsec != 0
    && isRoot
    && !(haveSet && Abs(timeUsec as real / 1000000.0 - now) < 10.0)
  }

  /** The facts about the host that ``mavlink_packet`` consults. */
  datatype Host = Host(isRoot: bool, now: real)

  /** The airstart trigger: armed, not yet running, and flying fast enough. */
  predicate AirstartFires(st: AirState, airspeed: real, groundspeed: real)
  {
    && st.airstartTriggered
    && !st.running
    && (airspeed > st.camera.minspeed as real || groundspeed > st.camera.minspeed as real)
  }

  /** The start of a run in flight: ``running`` is set, the capture and scan threads
      start and the ground station is told. */
  function StartInFlight(st: AirState): AirState
  {
    SendMessage(st.(running := true, threads := StartThreads(st.threads, true, true, false)), Text(StartedMsg))
  }

  /** ``VFR_HUD``: the airstart trigger starts the capture and scan threads. */
  function OnVfrHud(st: AirState, airspeed: real, groundspeed: real): AirState
  {
    if AirstartFires(st, airspeed, groundspeed) then StartInFlight(st) else st
  }

  /** ``SYSTEM_TIME``: with clock sync on and a capture thread started, ``sync_gps_clock``. */
  function OnSystemTime(st: AirState, usec: int, host: Host): AirState
  {
    if st.camera.clockSync && st.threads.capture > 0
       && ShouldSetClock(usec, host.isRoot, st.haveSetGpsTime, host.now)
    then st.(haveSetGpsTime := true)
    else st
  }

  /** ``mavlink_packet`` for the three packet kinds the module reacts to. */
  function MavlinkPacket(st: AirState, m: MavMessage, host: Host): AirState
  {
    match m
    case SystemTime(usec) => OnSystemTime(st, usec, host)
    case VfrHud(airspeed, groundspeed) => OnVfrHud(st, airspeed, groundspeed)
    case TerrainReport(h) => st.(terrainAlt := Some(h))
    case OtherMessage => st
  }

  /** The received object, if any, that ``check_commands`` would hand to a handler. */
  predicate Fresh(st: AirState, rcv: Received)
  {
    rcv.Decoded? && !(rcv.obj.stamp.Some? && rcv.obj.stamp.value in st.handledTimestamps)
  }

  /** An image request that reaches its handler names a frame the capture thread filed
      (``handle_image_request`` raises ``KeyError`` otherwise). */
  predicate Resolvable(st: AirState, rcv: Received)
  {
    Fresh(st, rcv) && rcv.obj.cmd.ImageRequest? ==> rcv.obj.cmd.frameTime in st.imageFilenameMapping
  }

  /** Facts about the host a handler consults: whether the camera parameters parse (for a
      forwarded ``start``/``airstart``) and whether a requested image file can be read. */
  datatype Env = Env(parses: bool, fileReadable: bool)

  /** ``handle_image_request``: re-send the frame, at priority 10000, on the requesting
      link only, when its file can be read. */
  function HandleImageRequest(st: AirState, frameTime: real, fullres: bool, link: nat, readable: bool): (r: AirState)
    requires frameTime in st.imageFilenameMapping
    ensures KeepsRecords(st, r)
  {
    if !readable then st
    else
      var pkt := ImagePacket(frameTime, fullres, ImagePriority);
      st.(transmitQueue := st.transmitQueue + [Outbound(pkt, Some(ImagePriority), Some(link))])
  }

  /** ``camera_settings_callback``: the changed camera setting is echoed to the ground
      stations. */
  function CameraSettingsCallback(st: AirState, name: string, v: Value): AirState
  {
    st.(transmitQueue := st.transmitQueue + [Outbound(ChangeCameraSetting(name, v), None, None)])
  }

  /** ``image_settings_callback``: the changed image setting is echoed to the ground
      stations. */
  function ImageSettingsCallback(st: AirState, name: string, v: Value): AirState
  {
    st.(transmitQueue := st.transmitQueue + [Outbound(ChangeImageSetting(name, v), None, None)])
  }

  /** A remote ``ChangeCameraSetting``: the setting changes and the change is echoed. */
  function ApplyCameraSetting(st: AirState, name: string, v: Value): AirState
  {
    CameraSettingsCallback(st.(camera := SetCamera(st.camera, name, v)), name, v)
  }

  /** A remote ``ChangeImageSetting``: the setting changes and the change is echoed. */
  function ApplyImageSetting(st: AirState, name: string, v: Value): AirState
  {
    ImageSettingsCallback(st.(image := SetImage(st.image, name, v)), name, v)
  }

  /** The variant dispatch of ``check_commands``. */
  function Handle(st: AirState, cmd: Command, link: nat, env: Env): (r: AirState)
    requires cmd.ImageRequest? ==> cmd.frameTime in st.imageFilenameMapping
    ensures KeepsRecords(st, r)
  {
    match cmd
    case ImageRequest(t, fullres) => HandleImageRequest(st, t, fullres, link, env.fileReadable)
    case SetCameraCommand(name, v) => ApplyCameraSetting(st, name, v)
    case SetImageCommand(name, v) => ApplyImageSetting(st, name, v)
    case CommandPacket(c) => CmdCamera(st, [c], env.parses)
    case OtherObject => st
  }

  /** ``check_commands`` for one received block on link ``link`` at wall-clock ``now``. */
  function CheckCommands(st: AirState, link: nat, rcv: Received, now: real, env: Env): (r: AirState)
    requires Resolvable(st, rcv)
    ensures r.scanQueue == st.scanQueue
    ensures r.imageFilenameMapping == st.imageFilenameMapping
    ensures st.handledTimestamps.Keys <= r.handledTimestamps.Keys
    ensures r.bsend == st.bsend
  {
    if !Fresh(st, rcv) then st
    else
      var obj := rcv.obj;
      var s := if obj.stamp.Some? then st.(handledTimestamps := st.handledTimestamps[obj.stamp.value := now]) else st;
      Handle(s, obj.cmd, link, env)
  }

  /** What one link contributes to a transmit iteration: its queue size after ``tick``,
      the block ``recv`` returned, and the host facts for handling it. */
  datatype LinkInput = LinkInput(queueAfterTick: nat, rcv: Received, env: Env)

  /** Every received block of an iteration is resolvable when it is handled. */
  predicate AllResolvable(st: AirState, inputs: seq<LinkInput>)
  {
    forall j :: 0 <= j < |inputs| ==> Resolvable(st, inputs[j].rcv)
  }

  /** ``tick`` on link ``i``: its queue size becomes ``size``. */
  function Tick(st: AirState, i: nat, size: nat): AirState
    requires i < |st.bsend|
  {
    st.(bsend := st.bsend[i := st.bsend[i].(sendqSize := size)])
  }

  /** The first loop of a transmit iteration, after it has visited the first ``k`` links:
      each link is ticked and then its received block is checked. */
  function PollLinks(st: AirState, inputs: seq<LinkInput>, k: nat, now: real): (r: AirState)
    requires k <= |inputs| == |st.bsend|
    requires AllResolvable(st, inputs)
    ensures |r.bsend| == |st.bsend|
    ensures r.scanQueue == st.scanQueue
    ensures r.imageFilenameMapping == st.imageFilenameMapping
    ensures st.handledTimestamps.Keys <= r.handledTimestamps.Keys
    decreases k
  {
    if k == 0 then st
    else
      var p := PollLinks(st, inputs, k - 1, now);
      CheckCommands(Tick(p, k - 1, inputs[k - 1].queueAfterTick), k - 1, inputs[k - 1].rcv, now, inputs[k - 1].env)
  }

  /** ``send_heartbeats``: a heartbeat once more than five seconds have passed. */
  function Heartbeat(st: AirState, now: real): AirState
  {
    if now - st.lastHeartbeat > HeartbeatInterval then
      st.(lastHeartbeat := now, transmitQueue := st.transmitQueue + [Outbound(HeartBeat, None, None)])
    else st
  }

  /** The drain of ``transmit_queue``: every entry is sent, in order, and the queue is empty. */
  function DrainQueue(st: AirState): AirState
  {
    st.(bsend := Dispatch.Drain(st.bsend, st.transmitQueue, st.camera.maxqueue), transmitQueue := [])
  }

  /** The per-link queue sizes the status report shows. */
  function QueueSizes(links: seq<Link>): (r: seq<nat>)
    ensures |r| == |links|
    ensures forall i :: 0 <= i < |links| ==> r[i] == links[i].sendqSize
  {
    seq(|links|, i requires 0 <= i < |links| => links[i].sendqSize)
  }

  /** One iteration of ``transmit_threadfunc``. */
  function TransmitIteration(st: AirState, inputs: seq<LinkInput>, now: real): AirState
    requires |inputs| == |st.bsend|
    requires AllResolvable(st, inputs)
  {
    var s := DrainQueue(Heartbeat(PollLinks(st, inputs, |inputs|, now), now));
    s.(xmitQueue := QueueSizes(s.bsend))
  }

  /** ``start_aircraft_bsend``: build the links from ``gcs_address`` unless there are some. */
  function StartAircraftBsend(st: AirState): AirState
  {
    if |st.bsend| == 0 then
      st.(bsend := Dispatch.LinksOf(Dispatch.ParseGcsAddress(st.camera.gcsAddress)))
    else st
  }
}

/**
 ``CameraAirModule`` (cuav/modules/camera_air.py) as a class whose fields are the
 module's fields.  Every method changes the fields as the corresponding Python method or
 thread iteration does, and its postcondition ties the new state to the transition of
 the same name in AirSpec, about which the properties are proved.
 */
module CameraAir {
  import opened Common
  import opened AirSettings
  import opened AirTypes
  import Text
  import Dispatch
  import opened AirSpec

  /** The ``highscore`` loop of ``scan_threadfunc``. */
  method HighScoreOf(regions: seq<Region>) returns (highscore: int)
    ensures highscore == HighScore(regions)
  {
    highscore := 0;
    for i := 0 to |regions|
      invariant highscore == HighScore(regions[..i])
    {
      assert regions[..i + 1][..i] == regions[..i];
      highscore := if highscore < regions[i].score then regions[i].score else highscore;
    }
    assert regions[..|regions|] == regions;
  }

  class CameraAirModule {
    var running: bool
    var airstartTriggered: bool
    var captureCount: nat
    var scanCount: nat
    var errorCount: nat
    var regionCount: nat
    var scanQueue: seq<ScanItem>
    var transmitQueue: seq<Outbound>
    var handledTimestamps: map<real, real>
    var imageFilenameMapping: map<real, string>
    var bsend: seq<Link>
    var xmitQueue: seq<nat>
    var cameraSettings: CameraSettings
    var imageSettings: map<string, real>
    var captureThreads: nat
    var scanThreads: nat
    var transmitThreads: nat
    var prevImage: Option<string>
    var terrainAlt: Option<real>
    var haveSetGpsTime: bool
    var lastHeartbeat: real
    var boundarySet: bool

    /** The module's fields as one value. */
    ghost function State(): AirState
      reads this
    {
      AirState(running, airstartTriggered, captureCount, scanCount, errorCount, regionCount,
               scanQueue, transmitQueue, handledTimestamps, imageFilenameMapping, bsend, xmitQueue,
               cameraSettings, imageSettings, Threads(captureThreads, scanThreads, transmitThreads),
               prevImage, terrainAlt, haveSetGpsTime, lastHeartbeat, boundarySet)
    }

    /** ``__init__`` at wall-clock time ``now``. */
    constructor (now: real)
      ensures State() == Initial(now)
    {
      running := false;
      airstartTriggered := false;
      captureCount, scanCount, errorCount, regionCount := 0, 0, 0, 0;
      scanQueue, transmitQueue := [], [];
      handledTimestamps, imageFilenameMapping := map[], map[];
      bsend, xmitQueue := [], [];
      cameraSettings, imageSettings := DefaultCamera, DefaultImage;
      captureThreads, scanThreads, transmitThreads := 0, 0, 0;
      prevImage, terrainAlt := None, None;
      haveSetGpsTime := false;
      lastHeartbeat := now;
      boundarySet := false;
    }

    /** ``send_message``. */
    method SendMessage(m: Message)
      modifies this
      ensures State() == AirSpec.SendMessage(old(State()), m)
    {
      transmitQueue := transmitQueue + [Outbound(CameraMessage(m), None, None)];
    }

    /** The counter reset of ``camera start`` and ``camera airstart``. */
    method ResetCounters()
      modifies this
      ensures State() == AirSpec.ResetCounters(old(State()))
    {
      captureCount := 0;
      errorCount := 0;
    }

    /** ``start_thread`` for one thread function. */
    method StartThread(k: ThreadKind)
      modifies this
      ensures State() == old(State()).(threads := AirSpec.StartThread(old(State()).threads, k))
    {
      match k
      case CaptureThread => captureThreads := captureThreads + 1;
      case ScanThread => scanThreads := scanThreads + 1;
      case TransmitThread => transmitThreads := transmitThreads + 1;
    }

    /** The start of a run by ``camera start``. */
    method StartRunning()
      modifies this
      ensures State() == AirSpec.StartRunning(old(State()))
    {
      running := true;
      StartThread(CaptureThread);
      StartThread(ScanThread);
      StartThread(TransmitThread);
      SendMessage(Text(StartedMsg));
    }

    /** ``camera start``. */
    method CmdStart(parses: bool)
      modifies this
      ensures State() == AirSpec.CmdStart(old(State()), parses)
    {
      ResetCounters();
      if !CameraParmsValid(cameraSettings.camparms, parses) {
        return;
      }
      if !running {
        StartRunning();
      } else {
        SendMessage(Text(AlreadyRunningMsg));
      }
    }

    /** ``camera stop``. */
    method CmdStop()
      modifies this
      ensures State() == AirSpec.CmdStop(old(State()))
    {
      SendMessage(Text(StoppedMsg));
      running := false;
      airstartTriggered := false;
    }

    /** Arming airstart by ``camera airstart``. */
    method ArmAirstart()
      modifies this
      ensures State() == AirSpec.ArmAirstart(old(State()))
    {
      airstartTriggered := true;
      StartThread(TransmitThread);
      SendMessage(Text(AirstartReadyMsg));
    }

    /** ``camera airstart``. */
    method CmdAirstart(parses: bool)
      modifies this
      ensures State() == AirSpec.CmdAirstart(old(State()), parses)
    {
      ResetCounters();
      if !CameraParmsValid(cameraSettings.camparms, parses) {
        return;
      }
      if !airstartTriggered {
        ArmAirstart();
      } else {
        SendMessage(Text(AirstartRunningMsg));
      }
    }

    /** ``cmd_camera``; ``parses`` says whether the camera parameters file parses. */
    method CmdCamera(args: seq<string>, parses: bool)
      modifies this
      ensures State() == AirSpec.CmdCamera(old(State()), args, parses)
    {
      if |args| == 0 {
        return;
      }
      if args[0] == "start" {
        CmdStart(parses);
      } else if args[0] == "stop" {
        CmdStop();
      } else if args[0] == "status" {
        SendMessage(Status(captureCount, errorCount, scanCount, regionCount, xmitQueue, |scanQueue|));
      } else if args[0] == "queue" {
        SendMessage(QueueReport(|scanQueue|, |transmitQueue|));
      } else if args[0] == "set" {
        cameraSettings := SettingsCommand(cameraSettings, args[1..]);
      } else if args[0] == "airstart" {
        CmdAirstart(parses);
      }
    }

    /** The start of ``capture_threadfunc``; ``prevImage`` stands for the local of the one
        capture thread modelled. */
    method CaptureThreadStart()
      modifies this
      ensures State() == AirSpec.CaptureThreadStart(old(State()))
    {
      prevImage := None;
      scanQueue := [];
    }

    /** One iteration of ``capture_threadfunc``. */
    method CapturePoll(poll: Poll, now: real)
      modifies this
      ensures State() == AirSpec.CapturePoll(old(State()), poll, now)
    {
      var filename: Option<string> := None;
      var filetime: Option<real> := None;
      if poll.Polled? {
        filename := Some(poll.filename);
        filetime := if cameraSettings.ignoreTimestamps then Some(now) else poll.parsedTime;
      }
      if filename.Some? && prevImage != filename && filetime.Some? && |scanQueue| < QueueLimit {
        Enqueue(filetime.value, filename.value);
      }
    }

    /** The enqueue of an accepted file by the capture thread. */
    method Enqueue(t: real, filename: string)
      modifies this
      ensures State() == AirSpec.Enqueue(old(State()), t, filename)
    {
      scanQueue := scanQueue + [ScanItem(t, filename)];
      imageFilenameMapping := imageFilenameMapping[t := filename];
      CountCapture(filename);
    }

    /** The count of an accepted file, which becomes the previous image. */
    method CountCapture(filename: string)
      modifies this
      ensures State() == AirSpec.CountCapture(old(State()), filename)
    {
      captureCount := captureCount + 1;
      prevImage := Some(filename);
    }

    /** The thumbnail gate at the end of a scan iteration. */
    method QueueThumb(frameTime: real, regions: seq<Region>, pos: Option<Position>)
      modifies this
      ensures State() == AirSpec.QueueThumb(old(State()), frameTime, regions, pos)
    {
      if |regions| > 0 {
        var highscore := HighScoreOf(regions);
        if cameraSettings.transmit && highscore >= cameraSettings.minscore {
          PutThumb(ThumbPacket(frameTime, regions, pos, highscore));
        }
      }
    }

    /** A wanted thumbnail joins ``transmit_queue``, or the warning does when it is full. */
    method PutThumb(pkt: Packet)
      modifies this
      ensures State() == AirSpec.PutThumb(old(State()), pkt)
    {
      if |transmitQueue| < QueueLimit {
        transmitQueue := transmitQueue + [Outbound(pkt, None, None)];
      } else {
        SendMessage(Text(TxQueueWarningMsg));
      }
    }

    /** The start of a scan iteration: take the oldest frame and count the regions that
        passed the first score filter. */
    method TakeFrame(firstPass: seq<Region>) returns (item: ScanItem)
      requires scanQueue != []
      modifies this
      ensures item == old(scanQueue[0])
      ensures State() == Dequeue(old(State()), |firstPass|)
    {
      item := scanQueue[0];
      scanQueue := scanQueue[1..];
      CountScan(|firstPass|);
    }

    /** The count of a scan and of the regions it found. */
    method CountScan(found: nat)
      modifies this
      ensures State() == AirSpec.CountScan(old(State()), found)
    {
      scanCount := scanCount + 1;
      regionCount := regionCount + found;
    }

    /** The radius and boundary filters of a scan iteration, as configured. */
    method FilterRegions(input: ScanInput) returns (regions: seq<Region>)
      ensures regions == FinalRegions(State(), input)
    {
      regions := input.firstPass;
      if cameraSettings.targetRadius > 0.0 && input.pos.Some? {
        regions := input.filters.radius(regions);
      }
      if boundarySet {
        regions := input.filters.boundary(regions);
        regions := input.filters.score(regions);
      }
    }

    /** One iteration of ``scan_threadfunc``. */
    method ScanStep(input: ScanInput)
      modifies this
      ensures State() == AirSpec.ScanStep(old(State()), input)
    {
      if scanQueue == [] {
        return;
      }
      var item := TakeFrame(input.firstPass);
      var regions := FilterRegions(input);
      QueueThumb(item.frameTime, regions, input.pos);
    }

    /** ``sync_gps_clock``; the result says whether the system clock is set. */
    method SyncGpsClock(timeUsec: int, host: Host) returns (setClock: bool)
      modifies this
      ensures setClock == ShouldSetClock(timeUsec, host.isRoot, old(haveSetGpsTime), host.now)
      ensures State() == old(State()).(haveSetGpsTime := old(haveSetGpsTime) || setClock)
    {
      setClock := false;
      if timeUsec == 0 {
        return;
      }
      if !host.isRoot {
        return;
      }
      var timeSeconds := timeUsec as real / 1000000.0;
      if haveSetGpsTime && Abs(timeSeconds - host.now) < 10.0 {
        return;
      }
      setClock := true;
      haveSetGpsTime := true;
    }

    /** ``mavlink_packet`` for a ``VFR_HUD`` packet. */
    method OnVfrHud(airspeed: real, groundspeed: real)
      modifies this
      ensures State() == AirSpec.OnVfrHud(old(State()), airspeed, groundspeed)
    {
      if airstartTriggered && !running {
        if airspeed > cameraSettings.minspeed as real || groundspeed > cameraSettings.minspeed as real {
          StartInFlight();
        }
      }
    }

    /** The start of a run by the airstart trigger. */
    method StartInFlight()
      modifies this
      ensures State() == AirSpec.StartInFlight(old(State()))
    {
      running := true;
      StartThread(CaptureThread);
      StartThread(ScanThread);
      SendMessage(Text(StartedMsg));
    }

    /** ``mavlink_packet``. */
    method MavlinkPacket(m: MavMessage, host: Host)
      modifies this
      ensures State() == AirSpec.MavlinkPacket(old(State()), m, host)
    {
      match m
      case SystemTime(usec) =>
        if cameraSettings.clockSync && captureThreads > 0 {
          var _ := SyncGpsClock(usec, host);
        }
      case VfrHud(airspeed, groundspeed) =>
        OnVfrHud(airspeed, groundspeed);
      case TerrainReport(h) =>
        terrainAlt := Some(h);
      case OtherMessage =>
    }

    /** ``send_image`` after ``handle_image_request`` has read the file: the image is queued
        for the requesting link only. */
    method HandleImageRequest(frameTime: real, fullres: bool, link: nat, readable: bool)
      requires frameTime in imageFilenameMapping
      modifies this
      ensures State() == AirSpec.HandleImageRequest(old(State()), frameTime, fullres, link, readable)
    {
      // the lookup of the requested time, which raises ``KeyError`` in the source when
      // the time was never filed; the file itself is not read here (``readable``)
      var filename := imageFilenameMapping[frameTime];
      if !readable {
        return;
      }
      var pkt := ImagePacket(frameTime, fullres, ImagePriority);
      transmitQueue := transmitQueue + [Outbound(pkt, Some(ImagePriority), Some(link))];
    }

    /** ``camera_settings_callback``: echo the change to the ground stations. */
    method CameraSettingsCallback(name: string, v: Value)
      modifies this
      ensures State() == AirSpec.CameraSettingsCallback(old(State()), name, v)
    {
      transmitQueue := transmitQueue + [Outbound(ChangeCameraSetting(name, v), None, None)];
    }

    /** ``image_settings_callback``: echo the change to the ground stations. */
    method ImageSettingsCallback(name: string, v: Value)
      modifies this
      ensures State() == AirSpec.ImageSettingsCallback(old(State()), name, v)
    {
      transmitQueue := transmitQueue + [Outbound(ChangeImageSetting(name, v), None, None)];
    }

    /** A remote ``ChangeCameraSetting``. */
    method ApplyCameraSetting(name: string, v: Value)
      modifies this
      ensures State() == AirSpec.ApplyCameraSetting(old(State()), name, v)
    {
      cameraSettings := SetCamera(cameraSettings, name, v);
      CameraSettingsCallback(name, v);
    }

    /** A remote ``ChangeImageSetting``. */
    method ApplyImageSetting(name: string, v: Value)
      modifies this
      ensures State() == AirSpec.ApplyImageSetting(old(State()), name, v)
    {
      imageSettings := SetImage(imageSettings, name, v);
      ImageSettingsCallback(name, v);
    }

    /** The variant dispatch of ``check_commands``. */
    method Handle(cmd: Command, link: nat, env: Env)
      requires cmd.ImageRequest? ==> cmd.frameTime in imageFilenameMapping
      modifies this
      ensures State() == AirSpec.Handle(old(State()), cmd, link, env)
    {
      match cmd
      case ImageRequest(t, fullres) =>
        HandleImageRequest(t, fullres, link, env.fileReadable);
      case SetCameraCommand(name, v) =>
        ApplyCameraSetting(name, v);
      case SetImageCommand(name, v) =>
        ApplyImageSetting(name, v);
      case CommandPacket(c) =>
        CmdCamera([c], env.parses);
      case OtherObject =>
    }

    /** ``check_commands`` for the block received on link ``link``. */
    method CheckCommands(link: nat, rcv: Received, now: real, env: Env)
      requires Resolvable(State(), rcv)
      modifies this
      ensures State() == AirSpec.CheckCommands(old(State()), link, rcv, now, env)
    {
      match rcv
      case NoData =>
      case Undecodable =>
      case DecodedNone =>
      case Decoded(obj) =>
        if obj.stamp.Some? {
          if obj.stamp.value in handledTimestamps {
            return;
          }
          handledTimestamps := handledTimestamps[obj.stamp.value := now];
        }
        Handle(obj.cmd, link, env);
    }

    /** ``send_object`` for one entry of ``transmit_queue``. */
    method SendObject(e: Outbound)
      modifies this
      ensures State() == old(State()).(bsend := Dispatch.SendObject(old(bsend), e, old(cameraSettings.maxqueue)))
    {
      var priority := if e.priority.None? then Dispatch.DefaultPriority else e.priority.value;
      var s := Sent(e.pkt, priority);
      assert s == Dispatch.SentOf(e);
      if e.target.None? {
        var links := bsend;
        for i := 0 to |links|
          invariant links == Dispatch.FanOut(bsend, s, cameraSettings.maxqueue, i)
        {
          if links[i].sendqSize < cameraSettings.maxqueue {
            links := links[i := Dispatch.Push(links[i], s)];
          }
        }
        bsend := links;
      } else {
        var t := e.target.value;
        if t < |bsend| && bsend[t].sendqSize < cameraSettings.maxqueue {
          bsend := bsend[t := Dispatch.Push(bsend[t], s)];
        }
      }
    }

    /** ``send_heartbeats``. */
    method SendHeartbeats(now: real)
      modifies this
      ensures State() == Heartbeat(old(State()), now)
    {
      if now - lastHeartbeat > HeartbeatInterval {
        lastHeartbeat := now;
        transmitQueue := transmitQueue + [Outbound(HeartBeat, None, None)];
      }
    }

    /** ``start_aircraft_bsend``. */
    method StartAircraftBsend()
      modifies this
      ensures State() == AirSpec.StartAircraftBsend(old(State()))
    {
      if |bsend| == 0 {
        var entries := Text.Split(cameraSettings.gcsAddress, ',');
        var links: seq<Link> := [];
        for i := 0 to |entries|
          invariant links == Dispatch.LinksOf(Dispatch.ParseEndpoints(entries[..i]))
        {
          assert entries[..i + 1][..i] == entries[..i];
          match Dispatch.ParseEndpoint(entries[i])
          case Some(ep) =>
            links := links + [Dispatch.NewLink(ep)];
          case None =>
        }
        assert entries[..|entries|] == entries;
        bsend := links;
      }
    }

    /** ``tick`` on link ``i``, which reports ``size`` queued blocks. */
    method Tick(i: nat, size: nat)
      requires i < |bsend|
      modifies this
      ensures State() == AirSpec.Tick(old(State()), i, size)
    {
      bsend := bsend[i := bsend[i].(sendqSize := size)];
    }

    /** The first loop of ``transmit_threadfunc``: tick each link, then check it for commands. */
    method PollLinks(inputs: seq<LinkInput>, now: real)
      requires |inputs| == |bsend|
      requires AllResolvable(State(), inputs)
      modifies this
      ensures State() == AirSpec.PollLinks(old(State()), inputs, |inputs|, now)
    {
      ghost var s0 := State();
      for i := 0 to |inputs|
        invariant State() == AirSpec.PollLinks(s0, inputs, i, now)
      {
        Tick(i, inputs[i].queueAfterTick);
        assert Resolvable(State(), inputs[i].rcv);
        CheckCommands(i, inputs[i].rcv, now, inputs[i].env);
      }
    }

    /** ``while not self.transmit_queue.empty()``: send every queued object, in order. */
    method DrainTransmitQueue()
      modifies this
      ensures State() == DrainQueue(old(State()))
    {
      ghost var s0 := State();
      while transmitQueue != []
        invariant State() == s0.(bsend := bsend, transmitQueue := transmitQueue)
        invariant Dispatch.Drain(bsend, transmitQueue, cameraSettings.maxqueue) ==
                  Dispatch.Drain(s0.bsend, s0.transmitQueue, s0.camera.maxqueue)
        decreases |transmitQueue|
      {
        var e := transmitQueue[0];
        transmitQueue := transmitQueue[1..];
        SendObject(e);
      }
    }

    /** The statistics loop: record each link's queue size. */
    method UpdateStats()
      modifies this
      ensures State() == old(State()).(xmitQueue := QueueSizes(old(bsend)))
    {
      var sizes: seq<nat> := [];
      for i := 0 to |bsend|
        invariant |sizes| == i
        invariant forall j :: 0 <= j < i ==> sizes[j] == bsend[j].sendqSize
      {
        sizes := sizes + [bsend[i].sendqSize];
      }
      xmitQueue := sizes;
      assert xmitQueue == QueueSizes(bsend);
    }

    /** One iteration of ``transmit_threadfunc``: tick each link and check what it received,
        send heartbeats, drain ``transmit_queue`` and refresh the queue statistics. */
    method TransmitIteration(inputs: seq<LinkInput>, now: real)
      requires |inputs| == |bsend|
      requires AllResolvable(State(), inputs)
      modifies this
      ensures State() == AirSpec.TransmitIteration(old(State()), inputs, now)
    {
      PollLinks(inputs, now);
      SendHeartbeats(now);
      DrainTransmitQueue();
      UpdateStats();
    }
  }
}

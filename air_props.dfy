/** What the transitions of the air-side module guarantee: the start/stop/airstart state
    machine, the capture and scan gates, command de-duplication, backpressure on the
    links, and the invariants the threads keep between them. */
module AirProps {
  import opened Common
  import opened AirSettings
  import opened AirTypes
  import opened AirSpec
  import Dispatch
  import Text

  /** The queue entry ``send_message`` makes of a text. */
  function Said(msg: string): Outbound { Outbound(CameraMessage(Text(msg)), None, None) }

  // ---------------------------------------------------------------- the state machine

  /** ``camera start``: the counters always restart; invalid camera parameters refuse the
      command with nothing else changed; otherwise all three threads start and "Started"
      is reported, unless already running, when only "already running" is reported. */
  lemma StartOutcome(st: AirState, parses: bool)
    ensures var r := CmdStart(st, parses);
            var ok := CameraParmsValid(st.camera.camparms, parses);
            && r.captureCount == 0 && r.errorCount == 0
            && (r.running <==> st.running || ok)
            && (!ok ==> r == st.(captureCount := 0, errorCount := 0))
            && (ok && !st.running ==>
                  r.threads == StartThreads(st.threads, true, true, true)
                  && r.transmitQueue == st.transmitQueue + [Said(StartedMsg)])
            && (ok && st.running ==>
                  r.threads == st.threads
                  && r.transmitQueue == st.transmitQueue + [Said(AlreadyRunningMsg)])
  {
  }

  /** ``start`` while running starts no second set of threads. */
  lemma StartTwice(st: AirState, parses: bool)
    requires CameraParmsValid(st.camera.camparms, parses)
    ensures var a := CmdStart(st, parses);
            var b := CmdStart(a, parses);
            && b.running && b.threads == a.threads
            && b.transmitQueue == a.transmitQueue + [Said(AlreadyRunningMsg)]
  {
  }

  /** ``stop`` clears both flags, so a later ``start`` is accepted and starts the threads:
      there is no stuck state. */
  lemma StopThenStart(st: AirState, parses: bool)
    requires CameraParmsValid(st.camera.camparms, parses)
    ensures var s := CmdStop(st);
            var r := CmdStart(s, parses);
            && !s.running && !s.airstartTriggered
            && r.running && !r.airstartTriggered
            && r.threads == StartThreads(st.threads, true, true, true)
            && r.transmitQueue == st.transmitQueue + [Said(StoppedMsg), Said(StartedMsg)]
  {
    assert st.transmitQueue + [Said(StoppedMsg)] + [Said(StartedMsg)]
        == st.transmitQueue + [Said(StoppedMsg), Said(StartedMsg)];
  }

  /** A second ``airstart`` starts no thread and reports "already running". */
  lemma AirstartTwice(st: AirState, parses: bool)
    requires CameraParmsValid(st.camera.camparms, parses)
    ensures var a := CmdAirstart(st, parses);
            var b := CmdAirstart(a, parses);
            && a.airstartTriggered && b.airstartTriggered
            && b.threads == a.threads && b.running == st.running
            && b.transmitQueue == a.transmitQueue + [Said(AirstartRunningMsg)]
  {
  }

  /** ``airstart`` starts only the transmit thread and arms the trigger; only then does a
      fast enough ``VFR_HUD`` start capture and scan. */
  lemma AirstartThenFlight(st: AirState, parses: bool, airspeed: real, groundspeed: real)
    requires CameraParmsValid(st.camera.camparms, parses)
    requires !st.running && !st.airstartTriggered
    requires airspeed > st.camera.minspeed as real
    ensures var a := CmdAirstart(st, parses);
            var r := OnVfrHud(a, airspeed, groundspeed);
            && !a.running && a.threads == StartThreads(st.threads, false, false, true)
            && r.running
            && r.threads == Threads(st.threads.capture + 1, st.threads.scan + 1, st.threads.transmit + 1)
            && r.transmitQueue == st.transmitQueue + [Said(AirstartReadyMsg), Said(StartedMsg)]
  {
    assert st.transmitQueue + [Said(AirstartReadyMsg)] + [Said(StartedMsg)]
        == st.transmitQueue + [Said(AirstartReadyMsg), Said(StartedMsg)];
  }

  /** ``VFR_HUD`` starts capture and scan exactly when airstart is armed, the module is not
      running, and the airspeed or the groundspeed is strictly above ``minspeed``; then it
      sets ``running``, which keeps later packets from starting them again. */
  lemma VfrHudStartsIff(st: AirState, airspeed: real, groundspeed: real, a2: real, g2: real)
    ensures var r := OnVfrHud(st, airspeed, groundspeed);
            && (r.threads.capture > st.threads.capture <==>
                  st.airstartTriggered && !st.running
                  && (airspeed > st.camera.minspeed as real || groundspeed > st.camera.minspeed as real))
            && (AirstartFires(st, airspeed, groundspeed) ==>
                  r.running && r.threads == StartThreads(st.threads, true, true, false)
                  && OnVfrHud(r, a2, g2) == r)
            && (!AirstartFires(st, airspeed, groundspeed) ==> r == st)
  {
  }

  /** An empty or unknown ``camera`` command changes nothing. */
  lemma UnknownCommandIgnored(st: AirState, args: seq<string>, parses: bool)
    requires |args| == 0 || args[0] !in ["start", "stop", "status", "queue", "set", "airstart"]
    ensures CmdCamera(st, args, parses) == st
  {
  }

  // ---------------------------------------------------------------- capture

  /** The capture gate: a poll enqueues exactly when the path is valid, differs from the
      previous one, has a time and the scan queue holds fewer than 100 entries; then the
      count grows by one and the time is filed under that path. Otherwise nothing changes. */
  lemma CaptureGate(st: AirState, poll: Poll, now: real)
    ensures var r := CapturePoll(st, poll, now);
            && (|r.scanQueue| == |st.scanQueue| + 1 <==> CaptureAccepts(st, poll, now))
            && (CaptureAccepts(st, poll, now) ==>
                  var t := FileTime(st, poll, now).value;
                  && r.scanQueue == st.scanQueue + [ScanItem(t, poll.filename)]
                  && r.captureCount == st.captureCount + 1
                  && r.imageFilenameMapping == st.imageFilenameMapping[t := poll.filename]
                  && r.prevImage == Some(poll.filename))
            && (!CaptureAccepts(st, poll, now) ==> r == st)
  {
  }

  /** Successive iterations of the capture thread over a sequence of polls. */
  function Polls(st: AirState, polls: seq<Poll>, now: real): AirState
    decreases |polls|
  {
    if polls == [] then st else Polls(CapturePoll(st, polls[0], now), polls[1..], now)
  }

  /** ``n`` copies of one poll: the input of the repeated-poll lemmas below. */
  function Repeat(p: Poll, n: nat): (r: seq<Poll>)
    ensures |r| == n
    decreases n
  {
    if n == 0 then [] else [p] + Repeat(p, n - 1)
  }

  /** Once a path has been enqueued, polling it again from the same capture thread
      changes nothing. */
  lemma {:induction false} SamePathRefused(st: AirState, p: Poll, n: nat, now: real)
    requires p.Polled? && st.prevImage == Some(p.filename)
    ensures Polls(st, Repeat(p, n), now) == st
    decreases n
  {
    if n > 0 {
      SamePathRefused(st, p, n - 1, now);
    }
  }

  /** Within one capture thread, re-polling the same path any number of times enqueues
      it at most once. */
  lemma {:induction false} RepollEnqueuesAtMostOnce(st: AirState, p: Poll, n: nat, now: real)
    ensures var r := Polls(st, Repeat(p, n), now);
            && |r.scanQueue| <= |st.scanQueue| + 1
            && r.captureCount <= st.captureCount + 1
    decreases n
  {
    if n > 0 {
      var s := CapturePoll(st, p, now);
      if CaptureAccepts(st, p, now) {
        SamePathRefused(s, p, n - 1, now);
      } else {
        RepollEnqueuesAtMostOnce(st, p, n - 1, now);
      }
    }
  }

  /** Polls of frames timed 100.00, 100.05 and again 100.05 (the same file) from a freshly
      started capture thread give the scanner exactly two frames, in order. */
  lemma DuplicateFrameEnqueuedOnce(st0: AirState, f1: string, f2: string, now: real)
    requires f1 != f2 && !st0.camera.ignoreTimestamps
    ensures var polls := [Polled(f1, Some(100.00)), Polled(f2, Some(100.05)), Polled(f2, Some(100.05))];
            var r := Polls(CaptureThreadStart(st0), polls, now);
            && r.scanQueue == [ScanItem(100.00, f1), ScanItem(100.05, f2)]
            && r.captureCount == st0.captureCount + 2
  {
    var polls := [Polled(f1, Some(100.00)), Polled(f2, Some(100.05)), Polled(f2, Some(100.05))];
    var s0 := CaptureThreadStart(st0);
    var s1 := CapturePoll(s0, polls[0], now);
    var s2 := CapturePoll(s1, polls[1], now);
    assert s1.scanQueue == [ScanItem(100.00, f1)];
    assert s2.scanQueue == [ScanItem(100.00, f1), ScanItem(100.05, f2)];
    assert CapturePoll(s2, polls[2], now) == s2;
    assert polls[1..] == [polls[1], polls[2]] && polls[1..][1..] == [polls[2]];
    assert Polls(s2, [polls[2]], now) == s2;
    assert Polls(s1, polls[1..], now) == Polls(s2, [polls[2]], now);
  }

  // ---------------------------------------------------------------- scan

  /** A scan iteration takes the oldest frame and counts it and the regions that passed
      the first filter; apart from the transmit queue nothing else changes. */
  lemma ScanAccounting(st: AirState, input: ScanInput)
    requires st.scanQueue != []
    ensures var r := ScanStep(st, input);
            && r.scanQueue == st.scanQueue[1..]
            && r.scanCount == st.scanCount + 1
            && r.regionCount == st.regionCount + |input.firstPass|
            && r.imageFilenameMapping == st.imageFilenameMapping
            && r.captureCount == st.captureCount && r.bsend == st.bsend
  {
    var s := Dequeue(st, |input.firstPass|);
    QueueThumbOnlyQueues(s, st.scanQueue[0].frameTime, FinalRegions(s, input), input.pos);
  }

  /** The transmit gate changes the transmit queue alone, and only by appending one entry
      exactly when the thumbnail is wanted. */
  lemma QueueThumbOnlyQueues(st: AirState, frameTime: real, regions: seq<Region>, pos: Option<Position>)
    ensures var r := QueueThumb(st, frameTime, regions, pos);
            && r == st.(transmitQueue := r.transmitQueue)
            && |r.transmitQueue| == |st.transmitQueue| + (if ThumbWanted(st, regions) then 1 else 0)
            && st.transmitQueue <= r.transmitQueue
  {
    if ThumbWanted(st, regions) {
      PutThumbOnlyQueues(st, ThumbPacket(frameTime, regions, pos, HighScore(regions)));
    }
  }

  lemma PutThumbOnlyQueues(st: AirState, pkt: Packet)
    ensures var r := PutThumb(st, pkt);
            && r == st.(transmitQueue := r.transmitQueue)
            && |r.transmitQueue| == |st.transmitQueue| + 1
            && st.transmitQueue <= r.transmitQueue
  {
    if |st.transmitQueue| < QueueLimit {
    } else {
    }
  }

  /** The transmit gate of a scan: one entry joins the transmit queue exactly when the
      thumbnail is wanted; it is the thumbnail, carrying the frame time and the best
      score, when the queue has room, and the warning otherwise. */
  lemma ScanThumbGate(st: AirState, input: ScanInput)
    requires st.scanQueue != []
    ensures var s := Dequeue(st, |input.firstPass|);
            var regions := FinalRegions(s, input);
            var r := ScanStep(st, input);
            && (|r.transmitQueue| == |st.transmitQueue| + 1 <==> ThumbWanted(s, regions))
            && (!ThumbWanted(s, regions) ==> r.transmitQueue == st.transmitQueue)
            && (ThumbWanted(s, regions) && |st.transmitQueue| < QueueLimit ==>
                  r.transmitQueue == st.transmitQueue +
                    [Outbound(ThumbPacket(st.scanQueue[0].frameTime, regions, input.pos, HighScore(regions)), None, None)])
            && (ThumbWanted(s, regions) && |st.transmitQueue| >= QueueLimit ==>
                  r.transmitQueue == st.transmitQueue + [Said(TxQueueWarningMsg)])
  {
    var s := Dequeue(st, |input.firstPass|);
    assert s.transmitQueue == st.transmitQueue;
    QueueThumbOnlyQueues(s, st.scanQueue[0].frameTime, FinalRegions(s, input), input.pos);
  }

  /** A thumbnail that is queued carries a best score that clears ``minscore``, is at least
      every region's score and is the score of one of them. */
  lemma ThumbScoreJustified(st: AirState, frameTime: real, regions: seq<Region>, pos: Option<Position>)
    requires ThumbWanted(st, regions) && |st.transmitQueue| < QueueLimit
    ensures var r := QueueThumb(st, frameTime, regions, pos);
            var h := r.transmitQueue[|r.transmitQueue| - 1].pkt.highscore;
            && r.transmitQueue[|r.transmitQueue| - 1].pkt.ThumbPacket?
            && h >= st.camera.minscore
            && (forall i :: 0 <= i < |regions| ==> regions[i].score <= h)
            && (h == 0 || exists i :: 0 <= i < |regions| && regions[i].score == h)
  {
    HighScoreIsBest(regions);
  }

  /** The ``highscore`` fold finds the best score: it is at least every region's score
      and, unless it is the initial 0, the score of one of them. */
  lemma {:induction false} HighScoreIsBest(rs: seq<Region>)
    ensures HighScore(rs) >= 0
    ensures forall i :: 0 <= i < |rs| ==> rs[i].score <= HighScore(rs)
    ensures HighScore(rs) == 0 || exists i :: 0 <= i < |rs| && rs[i].score == HighScore(rs)
    decreases |rs|
  {
    if rs != [] {
      var p := rs[..|rs| - 1];
      HighScoreIsBest(p);
      forall i | 0 <= i < |rs| ensures rs[i].score <= HighScore(rs) {
        if i < |rs| - 1 {
          assert rs[i] == p[i];
        }
      }
      if HighScore(rs) != 0 && HighScore(rs) == HighScore(p) {
        var j :| 0 <= j < |p| && p[j].score == HighScore(p);
        assert rs[j] == p[j];
      }
    }
  }

  /** A lone region scoring 350 against a ``minscore`` of 400 is counted but sends
      nothing. */
  lemma LowScoreCountedNotSent(st: AirState, input: ScanInput)
    requires st.scanQueue != [] && input.firstPass == [Region(350)]
    requires st.camera.minscore == 400 && !st.boundarySet && st.camera.targetRadius <= 0.0
    ensures var r := ScanStep(st, input);
            r.transmitQueue == st.transmitQueue && r.regionCount == st.regionCount + 1
  {
    assert HighScore([Region(350)]) == 350 by {
      assert [Region(350)][..0] == [];
    }
  }

  // ---------------------------------------------------------------- commands

  /** Nothing received, an undecodable block and a block decoding to ``None`` change
      nothing. */
  lemma UndecodedIgnored(st: AirState, link: nat, rcv: Received, now: real, env: Env)
    requires !rcv.Decoded?
    ensures CheckCommands(st, link, rcv, now, env) == st
  {
  }

  /** The first sight of a stamped object records its stamp with the time it was seen;
      an unstamped object is handled without being recorded; an object whose stamp is
      already recorded changes nothing. */
  lemma StampRecording(st: AirState, link: nat, obj: Inbound, now: real, env: Env)
    requires Resolvable(st, Decoded(obj))
    ensures var r := CheckCommands(st, link, Decoded(obj), now, env);
            && (obj.stamp.Some? && obj.stamp.value !in st.handledTimestamps ==>
                  r.handledTimestamps == st.handledTimestamps[obj.stamp.value := now])
            && (obj.stamp.None? ==> r.handledTimestamps == st.handledTimestamps)
            && (obj.stamp.Some? && obj.stamp.value in st.handledTimestamps ==> r == st)
  {
  }

  /** Two objects with the same stamp: whatever the first did, the second, on any link
      and at any time, reaches no handler. */
  lemma SameStampHandledOnce(st: AirState, link: nat, obj: Inbound, now: real, env: Env,
                             link2: nat, obj2: Inbound, now2: real, env2: Env)
    requires Resolvable(st, Decoded(obj))
    requires obj.stamp.Some? && obj2.stamp == obj.stamp
    ensures var s := CheckCommands(st, link, Decoded(obj), now, env);
            && Resolvable(s, Decoded(obj2))
            && CheckCommands(s, link2, Decoded(obj2), now2, env2) == s
  {
    var s := CheckCommands(st, link, Decoded(obj), now, env);
    assert obj.stamp.value in s.handledTimestamps;
  }

  /** A readable image request queues the image, at priority 10000, for the requesting
      link only: sending it can change no other link. */
  lemma ImageGoesOnlyToRequester(st: AirState, t: real, fullres: bool, link: nat,
                                 links: seq<Link>, maxqueue: int, i: nat)
    requires t in st.imageFilenameMapping
    requires i < |links| && i != link
    ensures var r := HandleImageRequest(st, t, fullres, link, true);
            var e := r.transmitQueue[|r.transmitQueue| - 1];
            && r.transmitQueue == st.transmitQueue + [e]
            && e.pkt == ImagePacket(t, fullres, ImagePriority)
            && Dispatch.PriorityOf(e) == 10000
            && Dispatch.SendObject(links, e, maxqueue)[i] == links[i]
  {
    var r := HandleImageRequest(st, t, fullres, link, true);
    Dispatch.SendObjectAt(links, r.transmitQueue[|r.transmitQueue| - 1], maxqueue, i);
  }

  /** A setting change from the ground is applied and then echoed on every link, the
      link it came from included. */
  lemma SettingEchoedEverywhere(st: AirState, link: nat, name: string, v: Value, env: Env)
    ensures var r := Handle(st, SetCameraCommand(name, v), link, env);
            && r.camera == SetCamera(st.camera, name, v)
            && r.transmitQueue == st.transmitQueue + [Outbound(ChangeCameraSetting(name, v), None, None)]
            && Dispatch.Considers(r.transmitQueue[|r.transmitQueue| - 1], link)
  {
  }

  // ---------------------------------------------------------------- links

  /** Three links under a ``maxqueue`` of 100: a broadcast reaches the link holding 95
      blocks (95 is below the limit) and the two empty ones, and it skips a link holding
      100. */
  lemma ThreeLinkBroadcast(a: Endpoint, b: Endpoint, c: Endpoint, la: seq<Sent>, lb: seq<Sent>,
                           lc: seq<Sent>, pkt: Packet, full: nat)
    requires full >= 100
    ensures var e := Outbound(pkt, None, None);
            var s := Sent(pkt, 10000);
            && Dispatch.SendObject([Link(a, 95, la), Link(b, 0, lb), Link(c, 0, lc)], e, 100)
                 == [Link(a, 96, la + [s]), Link(b, 1, lb + [s]), Link(c, 1, lc + [s])]
            && Dispatch.SendObject([Link(a, full, la), Link(b, 0, lb), Link(c, 0, lc)], e, 100)
                 == [Link(a, full, la), Link(b, 1, lb + [s]), Link(c, 1, lc + [s])]
  {
    var e := Outbound(pkt, None, None);
    var l1 := [Link(a, 95, la), Link(b, 0, lb), Link(c, 0, lc)];
    var l2 := [Link(a, full, la), Link(b, 0, lb), Link(c, 0, lc)];
    Dispatch.SendObjectAt(l1, e, 100, 0);
    Dispatch.SendObjectAt(l1, e, 100, 1);
    Dispatch.SendObjectAt(l1, e, 100, 2);
    Dispatch.SendObjectAt(l2, e, 100, 0);
    Dispatch.SendObjectAt(l2, e, 100, 1);
    Dispatch.SendObjectAt(l2, e, 100, 2);
  }

  /** ``start_aircraft_bsend`` does nothing when links exist; otherwise it builds exactly
      one fresh link for every endpoint written into ``gcs_address``, in order. */
  lemma BsendFromAddress(st: AirState, eps: seq<Endpoint>)
    requires |eps| >= 1 && forall i :: 0 <= i < |eps| ==> Dispatch.PlainAddress(eps[i])
    requires st.camera.gcsAddress ==
               Dispatch.FormatGcsAddress(eps)
    ensures |st.bsend| > 0 ==> StartAircraftBsend(st) == st
    ensures |st.bsend| == 0 ==>
              var r := StartAircraftBsend(st);
              && |r.bsend| == |eps|
              && forall i :: 0 <= i < |eps| ==> r.bsend[i] == Link(eps[i], 0, [])
  {
    Dispatch.ParseFormatGcsAddress(eps);
  }

  // ---------------------------------------------------------------- invariants

  /** What holds between the threads: the scan queue stays within its limit, and every
      frame waiting for the scanner has been filed, so an image request for it resolves. */
  predicate Inv(st: AirState)
  {
    && |st.scanQueue| <= QueueLimit
    && forall i :: 0 <= i < |st.scanQueue| ==> st.scanQueue[i].frameTime in st.imageFilenameMapping
  }

  lemma InitialInv(now: real)
    ensures Inv(Initial(now))
  {
  }

  lemma {:induction false} CapturePollKeepsInv(st: AirState, poll: Poll, now: real)
    requires Inv(st)
    ensures Inv(CapturePoll(st, poll, now))
    ensures st.imageFilenameMapping.Keys <= CapturePoll(st, poll, now).imageFilenameMapping.Keys
  {
    if CaptureAccepts(st, poll, now) {
      var r := CapturePoll(st, poll, now);
      forall i | 0 <= i < |r.scanQueue| ensures r.scanQueue[i].frameTime in r.imageFilenameMapping {
        if i < |st.scanQueue| {
          assert r.scanQueue[i] == st.scanQueue[i];
        }
      }
    }
  }

  lemma ScanStepKeepsInv(st: AirState, input: ScanInput)
    requires Inv(st)
    ensures Inv(ScanStep(st, input))
    ensures ScanStep(st, input).imageFilenameMapping == st.imageFilenameMapping
  {
    if st.scanQueue != [] {
      var r := ScanStep(st, input);
      ScanAccounting(st, input);
      forall i | 0 <= i < |r.scanQueue| ensures r.scanQueue[i].frameTime in r.imageFilenameMapping {
        assert r.scanQueue[i] == st.scanQueue[i + 1];
      }
    }
  }

  lemma CommandsKeepInv(st: AirState, args: seq<string>, parses: bool, m: MavMessage, host: Host)
    requires Inv(st)
    ensures Inv(CmdCamera(st, args, parses))
    ensures Inv(MavlinkPacket(st, m, host))
    ensures Inv(CaptureThreadStart(st))
    ensures Inv(StartAircraftBsend(st))
  {
  }

  lemma CheckCommandsKeepsInv(st: AirState, link: nat, rcv: Received, now: real, env: Env)
    requires Inv(st) && Resolvable(st, rcv)
    ensures Inv(CheckCommands(st, link, rcv, now, env))
  {
  }

  lemma TransmitKeepsInv(st: AirState, inputs: seq<LinkInput>, now: real)
    requires |inputs| == |st.bsend| && AllResolvable(st, inputs)
    requires Inv(st)
    ensures Inv(TransmitIteration(st, inputs, now))
  {
  }

  /** A request for any frame still waiting for the scanner finds its file: every
      queued frame's time is in the file mapping. */
  lemma QueuedFrameResolvable(st: AirState, i: nat, stamp: Option<real>, fullres: bool)
    requires Inv(st) && i < |st.scanQueue|
    ensures Resolvable(st, Decoded(Inbound(stamp, ImageRequest(st.scanQueue[i].frameTime, fullres))))
  {
  }
}

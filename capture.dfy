/** The stand-alone capture program: it takes a base time from the camera in single-shot
    mode, then triggers continuously, accounting for lost frames and for the camera clock
    wrapping every 128 seconds, and routes each frame either to the debayer/compress
    pipeline or straight to the save queue. */
module Capture {
  import opened Common
  import Text

  /** What one ``chameleon.capture`` call yields: a frame with the camera's own time and
      frame counter, or a driver error. */
  datatype CaptureResult = Captured(frameTime: real, frameCounter: int) | Failed

  /** The command-line options the capture loop consults. */
  datatype Options = Options(save: bool, compress: bool, numFrames: int)

  /** ``--num-frames`` defaults to 0. */
  const DefaultNumFrames: int := 0

  /** The camera clock wraps around after this many seconds. */
  const WrapSeconds: real := 128.0

  /** One entry of the save queue: the frame's wall-clock time and whether it is a JPEG. */
  datatype SaveItem = SaveItem(frameTime: real, isJpeg: bool)

  /** The contents of the three queues of ``capture_state`` (images are left out; each
      entry keeps the frame time it travels with). */
  datatype Queues = Queues(bayer: seq<real>, compress: seq<real>, save: seq<SaveItem>)

  /** The locals of ``run_capture`` together with the queues. */
  datatype Loop = Loop(baseTime: real, lastFrameTime: real, lastFrameCounter: int,
                       frameLoss: int, numCaptured: nat, queues: Queues)

  /** The state on entry to the continuous loop, after ``get_base_time``. */
  function Start(baseTime: real, lastFrameTime: real, queues: Queues): Loop
  {
    Loop(baseTime, lastFrameTime, 0, 0, 0, queues)
  }

  /** Where a frame stamped ``stamp`` goes: to the debayer queue when compressing, else to
      the save queue as a raw image when saving, else nowhere. */
  function Route(q: Queues, opts: Options, stamp: real): Queues
  {
    if opts.compress then q.(bayer := q.bayer + [stamp])
    else if opts.save then q.(save := q.save + [SaveItem(stamp, false)])
    else q
  }

  /** One iteration of the ``while True`` loop of ``run_capture`` (the stop test apart):
      a failed capture is skipped; otherwise the clock wrap and the frame loss are
      accounted and the frame is routed with the time ``base_time + frame_time``. */
  function Step(l: Loop, opts: Options, r: CaptureResult): Loop
  {
    match r
    case Failed => l
    case Captured(ft, counter) =>
      var base := if ft < l.lastFrameTime then l.baseTime + WrapSeconds else l.baseTime;
      var loss := if l.lastFrameCounter != 0 then l.frameLoss + counter - (l.lastFrameCounter + 1)
                  else l.frameLoss;
      Loop(base, ft, counter, loss, l.numCaptured + 1, Route(l.queues, opts, base + ft))
  }

  /** Where a run of the capture loop ends: the final state, whether the ``num_frames``
      test stopped it, and how many capture results it consumed. */
  datatype Outcome = Outcome(last: Loop, stopped: bool, used: nat)

  /** The capture loop over the results the camera delivers, in order, until the number
      of captured frames reaches ``num_frames`` or the results run out. */
  function Run(l: Loop, opts: Options, rs: seq<CaptureResult>): (o: Outcome)
    ensures o.used <= |rs|
    ensures !o.stopped ==> o.used == |rs|
    ensures o.stopped ==> o.used >= 1 && rs[o.used - 1].Captured?
    decreases |rs|
  {
    if rs == [] then Outcome(l, false, 0)
    else
      var n := Step(l, opts, rs[0]);
      if rs[0].Captured? && n.numCaptured == opts.numFrames then Outcome(n, true, 1)
      else
        var o := Run(n, opts, rs[1..]);
        o.(used := o.used + 1)
  }

  /** The number of successful captures among ``rs``. */
  function Successes(rs: seq<CaptureResult>): nat
    decreases |rs|
  {
    if rs == [] then 0 else (if rs[0].Captured? then 1 else 0) + Successes(rs[1..])
  }

  /** The number of times the camera time goes backwards along ``rs``, starting from the
      frame time ``t``. */
  function Wraps(t: real, rs: seq<CaptureResult>): nat
    decreases |rs|
  {
    if rs == [] then 0
    else match rs[0]
      case Failed => Wraps(t, rs[1..])
      case Captured(ft, _) => (if ft < t then 1 else 0) + Wraps(ft, rs[1..])
  }

  predicate NonZeroCounters(rs: seq<CaptureResult>)
  {
    forall i :: 0 <= i < |rs| && rs[i].Captured? ==> rs[i].frameCounter != 0
  }

  /** The loop stops exactly when the captured count passes through ``num_frames``: it
      must lie above the count on entry and within reach of the successes delivered. The
      count on exit is the count on entry plus the successes consumed. */
  lemma {:induction false} RunStopsIff(l: Loop, opts: Options, rs: seq<CaptureResult>)
    ensures Run(l, opts, rs).stopped <==>
              l.numCaptured < opts.numFrames <= l.numCaptured + Successes(rs)
    ensures Run(l, opts, rs).last.numCaptured == l.numCaptured + Successes(rs[..Run(l, opts, rs).used])
    decreases |rs|
  {
    if rs != [] {
      var n := Step(l, opts, rs[0]);
      if rs[0].Captured? && n.numCaptured == opts.numFrames {
        assert rs[..1] == [rs[0]];
        assert Successes(rs[..1][1..]) == 0;
      } else {
        RunStopsIff(n, opts, rs[1..]);
        var o := Run(n, opts, rs[1..]);
        assert rs[..o.used + 1][1..] == rs[1..][..o.used];
      }
    }
  }

  /** When ``num_frames`` is not above the count already captured, the loop never stops
      and consumes every result; in particular the default ``num_frames`` of 0 runs
      forever. */
  lemma NeverStopsAtOrBelowCount(l: Loop, opts: Options, rs: seq<CaptureResult>)
    requires opts.numFrames <= l.numCaptured
    ensures !Run(l, opts, rs).stopped && Run(l, opts, rs).used == |rs|
  {
    RunStopsIff(l, opts, rs);
  }

  lemma DefaultNeverStops(baseTime: real, lastFrameTime: real, q: Queues, opts: Options,
                          rs: seq<CaptureResult>)
    requires opts.numFrames == DefaultNumFrames
    ensures !Run(Start(baseTime, lastFrameTime, q), opts, rs).stopped
  {
    NeverStopsAtOrBelowCount(Start(baseTime, lastFrameTime, q), opts, rs);
  }

  /** A stretch of failed captures changes nothing and never stops the loop. */
  lemma {:induction false} FailuresChangeNothing(l: Loop, opts: Options, rs: seq<CaptureResult>)
    requires forall i :: 0 <= i < |rs| ==> rs[i].Failed?
    ensures Run(l, opts, rs) == Outcome(l, false, |rs|)
    decreases |rs|
  {
    if rs != [] {
      FailuresChangeNothing(l, opts, rs[1..]);
    }
  }

  /** Once a nonzero frame counter has been seen, the frame loss telescopes: it grows by
      the advance of the frame counter less the number of frames captured. */
  lemma {:induction false} FrameLossTelescopes(l: Loop, opts: Options, rs: seq<CaptureResult>)
    requires l.lastFrameCounter != 0 && NonZeroCounters(rs)
    ensures var e := Run(l, opts, rs).last;
            e.frameLoss - l.frameLoss ==
              (e.lastFrameCounter - l.lastFrameCounter) - (e.numCaptured - l.numCaptured)
    decreases |rs|
  {
    if rs != [] {
      var n := Step(l, opts, rs[0]);
      if !(rs[0].Captured? && n.numCaptured == opts.numFrames) {
        assert NonZeroCounters(rs[1..]) by {
          forall i | 0 <= i < |rs[1..]| && rs[1..][i].Captured?
            ensures rs[1..][i].frameCounter != 0
          {
            assert rs[1..][i] == rs[i + 1];
          }
        }
        FrameLossTelescopes(n, opts, rs[1..]);
      }
    }
  }

  /** From the start of the loop (frame counter state 0) the first frame adds no loss;
      after it the loss telescopes from that frame's counter. */
  lemma FrameLossFromFirstFrame(l: Loop, opts: Options, rs: seq<CaptureResult>)
    requires l.lastFrameCounter == 0 && |rs| >= 1 && rs[0].Captured? && NonZeroCounters(rs)
    ensures var e := Run(l, opts, rs).last;
            e.frameLoss - l.frameLoss ==
              (e.lastFrameCounter - rs[0].frameCounter) - (e.numCaptured - l.numCaptured - 1)
  {
    var n := Step(l, opts, rs[0]);
    if !(n.numCaptured == opts.numFrames) {
      assert NonZeroCounters(rs[1..]) by {
        forall i | 0 <= i < |rs[1..]| && rs[1..][i].Captured?
          ensures rs[1..][i].frameCounter != 0
        {
          assert rs[1..][i] == rs[i + 1];
        }
      }
      FrameLossTelescopes(n, opts, rs[1..]);
    }
  }

  /** The base time only ever moves by whole wrap periods: 128 seconds for every time the
      camera clock went backwards among the results consumed. */
  lemma {:induction false} BaseTimeCountsWraps(l: Loop, opts: Options, rs: seq<CaptureResult>)
    ensures var o := Run(l, opts, rs);
            o.last.baseTime == l.baseTime + WrapSeconds * (Wraps(l.lastFrameTime, rs[..o.used]) as real)
    decreases |rs|
  {
    if rs != [] {
      var n := Step(l, opts, rs[0]);
      if rs[0].Captured? && n.numCaptured == opts.numFrames {
        assert rs[..1] == [rs[0]];
        assert rs[..1][1..] == [];
      } else {
        BaseTimeCountsWraps(n, opts, rs[1..]);
        var o := Run(n, opts, rs[1..]);
        assert rs[..o.used + 1][1..] == rs[1..][..o.used];
        assert rs[..o.used + 1][0] == rs[0];
      }
    }
  }

  /** Routing over a whole run: with ``compress`` frames go only to the debayer queue,
      otherwise with ``save`` only to the save queue as raw (non-JPEG) images, and
      otherwise nowhere; the compress queue is never touched by the capture loop, and one
      entry is queued per captured frame. */
  lemma {:induction false} RunRouting(l: Loop, opts: Options, rs: seq<CaptureResult>)
    ensures var e := Run(l, opts, rs).last;
            var added := e.numCaptured - l.numCaptured;
            && e.numCaptured >= l.numCaptured
            && e.queues.compress == l.queues.compress
            && (opts.compress ==>
                  e.queues.save == l.queues.save && |e.queues.bayer| == |l.queues.bayer| + added
                  && e.queues.bayer[..|l.queues.bayer|] == l.queues.bayer)
            && (!opts.compress && opts.save ==>
                  e.queues.bayer == l.queues.bayer && |e.queues.save| == |l.queues.save| + added
                  && e.queues.save[..|l.queues.save|] == l.queues.save
                  && forall i :: |l.queues.save| <= i < |e.queues.save| ==> !e.queues.save[i].isJpeg)
            && (!opts.compress && !opts.save ==> e.queues == l.queues)
    decreases |rs|
  {
    if rs != [] {
      var n := Step(l, opts, rs[0]);
      if !(rs[0].Captured? && n.numCaptured == opts.numFrames) {
        RunRouting(n, opts, rs[1..]);
        var e := Run(n, opts, rs[1..]).last;
        if opts.compress {
          assert e.queues.bayer[..|n.queues.bayer|][..|l.queues.bayer|] == e.queues.bayer[..|l.queues.bayer|];
        } else if opts.save {
          assert e.queues.save[..|n.queues.save|][..|l.queues.save|] == e.queues.save[..|l.queues.save|];
          forall i | |l.queues.save| <= i < |e.queues.save|
            ensures !e.queues.save[i].isJpeg
          {
            if i < |n.queues.save| {
              assert e.queues.save[i] == e.queues.save[..|n.queues.save|][i];
            }
          }
        }
      }
    }
  }

  /** A run in which nothing was captured ends where it began. */
  lemma {:induction false} OnlyCapturesChangeState(l: Loop, opts: Options, rs: seq<CaptureResult>)
    ensures Run(l, opts, rs).last.numCaptured == l.numCaptured ==> Run(l, opts, rs).last == l
    decreases |rs|
  {
    if rs != [] {
      var n := Step(l, opts, rs[0]);
      if !(rs[0].Captured? && n.numCaptured == opts.numFrames) {
        OnlyCapturesChangeState(n, opts, rs[1..]);
        RunRouting(n, opts, rs[1..]);
      }
    }
  }

  /** The time a frame carries downstream is the base time at that frame plus the camera
      time: after any run that captured something while compressing, the newest debayer
      entry is the final base time plus the final frame time. */
  lemma {:induction false} NewestStampIsBasePlusFrame(l: Loop, opts: Options, rs: seq<CaptureResult>)
    requires opts.compress
    ensures var e := Run(l, opts, rs).last;
            e.numCaptured > l.numCaptured ==>
              |e.queues.bayer| >= 1 && e.queues.bayer[|e.queues.bayer| - 1] == e.baseTime + e.lastFrameTime
    decreases |rs|
  {
    if rs != [] {
      var n := Step(l, opts, rs[0]);
      if !(rs[0].Captured? && n.numCaptured == opts.numFrames) {
        NewestStampIsBasePlusFrame(n, opts, rs[1..]);
        RunRouting(n, opts, rs[1..]);
        var e := Run(n, opts, rs[1..]).last;
        if e.numCaptured == n.numCaptured && rs[0].Captured? {
          OnlyCapturesChangeState(n, opts, rs[1..]);
        }
      }
    }
  }

  /** The times the captured frames among ``rs`` carry downstream, in order, with the
      base time ``base`` and last camera time ``last`` on entry: each is the base time,
      advanced by 128 seconds whenever the camera time went backwards, plus the camera
      time of that frame. */
  function Stamps(base: real, last: real, rs: seq<CaptureResult>): (r: seq<real>)
    ensures |r| == Successes(rs)
    decreases |rs|
  {
    if rs == [] then []
    else match rs[0]
      case Failed => Stamps(base, last, rs[1..])
      case Captured(ft, _) =>
        var b := if ft < last then base + WrapSeconds else base;
        [b + ft] + Stamps(b, ft, rs[1..])
  }

  /** Raw (non-JPEG) save-queue entries for the given frame times, in order. */
  function RawItems(stamps: seq<real>): (r: seq<SaveItem>)
    ensures |r| == |stamps|
    ensures forall i :: 0 <= i < |stamps| ==> r[i] == SaveItem(stamps[i], false)
    decreases |stamps|
  {
    if stamps == [] then [] else [SaveItem(stamps[0], false)] + RawItems(stamps[1..])
  }

  /** The k-th result, when it is a capture, is the frame numbered by the successes
      before it, and its time is the entry base time plus 128 seconds for every
      camera-clock wrap up to and including it, plus its own camera time. */
  lemma {:induction false} StampOfFrame(base: real, last: real, rs: seq<CaptureResult>, k: nat)
    requires k < |rs| && rs[k].Captured?
    ensures Successes(rs[..k]) < |Stamps(base, last, rs)|
    ensures Stamps(base, last, rs)[Successes(rs[..k])] ==
              base + WrapSeconds * (Wraps(last, rs[..k + 1]) as real) + rs[k].frameTime
    decreases k
  {
    SuccessesPrefix(rs, k);
    if k == 0 {
      assert rs[..1] == [rs[0]] && rs[..1][1..] == [];
      assert rs[..0] == [];
    } else {
      assert rs[..k][1..] == rs[1..][..k - 1];
      assert rs[..k + 1][1..] == rs[1..][..k];
      assert rs[..k][0] == rs[0] && rs[..k + 1][0] == rs[0];
      assert rs[1..][k - 1] == rs[k];
      match rs[0]
      case Failed =>
        StampOfFrame(base, last, rs[1..], k - 1);
      case Captured(ft, _) =>
        var b := if ft < last then base + WrapSeconds else base;
        StampOfFrame(b, ft, rs[1..], k - 1);
    }
  }

  /** The successes before a capture at k are fewer than all the successes. */
  lemma {:induction false} SuccessesPrefix(rs: seq<CaptureResult>, k: nat)
    requires k < |rs| && rs[k].Captured?
    ensures Successes(rs[..k]) < Successes(rs)
    decreases k
  {
    if k == 0 {
      assert rs[..0] == [];
    } else {
      assert rs[..k][1..] == rs[1..][..k - 1];
      assert rs[..k][0] == rs[0];
      SuccessesPrefix(rs[1..], k - 1);
    }
  }

  /** Over a whole run the frames are queued with exactly their stamps, in capture order:
      onto the debayer queue when compressing, else as raw images onto the save queue. */
  lemma {:induction false} RunStamps(l: Loop, opts: Options, rs: seq<CaptureResult>)
    ensures var o := Run(l, opts, rs);
            var stamps := Stamps(l.baseTime, l.lastFrameTime, rs[..o.used]);
            && (opts.compress ==> o.last.queues.bayer == l.queues.bayer + stamps)
            && (!opts.compress && opts.save ==> o.last.queues.save == l.queues.save + RawItems(stamps))
    decreases |rs|
  {
    if rs != [] {
      var n := Step(l, opts, rs[0]);
      if rs[0].Captured? && n.numCaptured == opts.numFrames {
        assert rs[..1] == [rs[0]] && rs[..1][1..] == [];
      } else {
        RunStamps(n, opts, rs[1..]);
        var o := Run(n, opts, rs[1..]);
        assert rs[..o.used + 1][1..] == rs[1..][..o.used];
        assert rs[..o.used + 1][0] == rs[0];
        var tail := Stamps(n.baseTime, n.lastFrameTime, rs[1..][..o.used]);
        if rs[0].Captured? {
          var x := n.baseTime + rs[0].frameTime;
          assert Stamps(l.baseTime, l.lastFrameTime, rs[..o.used + 1]) == [x] + tail;
          assert ([x] + tail)[1..] == tail;
          if opts.compress {
            assert n.queues.bayer == l.queues.bayer + [x];
          } else if opts.save {
            assert n.queues.save == l.queues.save + [SaveItem(x, false)];
          }
        }
      }
    }
  }

  /** The k-th capture result the loop consumed, when a frame, is queued after the
      entries before it with the stamp the source gives it: the base time advanced by 128
      seconds per camera-clock wrap so far, plus its own camera time. It goes to the
      debayer queue when compressing, else as a raw image to the save queue. */
  lemma QueuedStampOfFrame(l: Loop, opts: Options, rs: seq<CaptureResult>, k: nat)
    requires k < Run(l, opts, rs).used && rs[k].Captured?
    ensures var q := Run(l, opts, rs).last.queues;
            var j := Successes(rs[..k]);
            var stamp := l.baseTime + WrapSeconds * (Wraps(l.lastFrameTime, rs[..k + 1]) as real) + rs[k].frameTime;
            && (opts.compress ==> |l.queues.bayer| + j < |q.bayer| && q.bayer[|l.queues.bayer| + j] == stamp)
            && (!opts.compress && opts.save ==>
                  |l.queues.save| + j < |q.save| && q.save[|l.queues.save| + j] == SaveItem(stamp, false))
  {
    var u := Run(l, opts, rs).used;
    RunStamps(l, opts, rs);
    assert rs[..u][..k] == rs[..k] && rs[..u][..k + 1] == rs[..k + 1];
    StampOfFrame(l.baseTime, l.lastFrameTime, rs[..u], k);
  }

  /** The shared ``capture_state``: its queues, which the capture loop and the worker
      threads update in place. */
  class CaptureState {
    var bayerQueue: seq<real>
    var compressQueue: seq<real>
    var saveQueue: seq<SaveItem>

    ghost function Contents(): Queues
      reads this
    {
      Queues(bayerQueue, compressQueue, saveQueue)
    }

    constructor()
      ensures Contents() == Queues([], [], [])
    {
      bayerQueue := [];
      compressQueue := [];
      saveQueue := [];
    }

    /** The hand-off of a captured frame stamped ``stamp`` in ``run_capture``. */
    method RouteFrame(opts: Options, stamp: real)
      modifies this
      ensures Contents() == Route(old(Contents()), opts, stamp)
    {
      if opts.compress {
        bayerQueue := bayerQueue + [stamp];
      } else if opts.save {
        saveQueue := saveQueue + [SaveItem(stamp, false)];
      }
    }

    /** One iteration of ``bayer_thread``: the oldest raw frame is debayered and passed on
        to the compress queue. */
    method BayerStep()
      requires bayerQueue != []
      modifies this
      ensures Contents() == BayerSpec(old(Contents()))
    {
      var t := bayerQueue[0];
      bayerQueue := bayerQueue[1..];
      compressQueue := compressQueue + [t];
    }

    /** One iteration of ``compress_thread``: the oldest debayered frame is compressed and
        queued for saving as a JPEG, but only with ``save``. */
    method CompressStep(save: bool)
      requires compressQueue != []
      modifies this
      ensures Contents() == CompressSpec(old(Contents()), save)
    {
      var t := compressQueue[0];
      compressQueue := compressQueue[1..];
      if save {
        saveQueue := saveQueue + [SaveItem(t, true)];
      }
    }

    /** One iteration of ``save_thread``: the oldest entry is written to the file it names;
        ``clockText`` is the local date and time of the frame in ``%Y%m%d%H%M%S`` form. */
    method SaveStep(clockText: string) returns (filename: string)
      requires saveQueue != []
      modifies this
      ensures Contents() == old(Contents()).(save := old(saveQueue[1..]))
      ensures filename == SaveFilename(clockText, old(saveQueue[0]))
    {
      var item := saveQueue[0];
      saveQueue := saveQueue[1..];
      if item.isJpeg {
        filename := "tmp/i" + Timestamp(clockText, item.frameTime) + ".jpg";
      } else {
        filename := "tmp/i" + Timestamp(clockText, item.frameTime) + ".pgm";
      }
    }
  }

  function BayerSpec(q: Queues): Queues
    requires q.bayer != []
  {
    q.(bayer := q.bayer[1..], compress := q.compress + [q.bayer[0]])
  }

  function CompressSpec(q: Queues, save: bool): Queues
    requires q.compress != []
  {
    var rest := q.(compress := q.compress[1..]);
    if save then rest.(save := q.save + [SaveItem(q.compress[0], true)]) else rest
  }

  /** A frame that enters an idle pipeline leaves the debayer and compress stages as a
      JPEG on the save queue when saving, and is dropped after compression otherwise. */
  lemma PipelineDelivers(q: Queues, save: bool)
    requires q.bayer != [] && q.compress == []
    ensures var p := CompressSpec(BayerSpec(q), save);
            && p.bayer == q.bayer[1..] && p.compress == []
            && p.save == (if save then q.save + [SaveItem(q.bayer[0], true)] else q.save)
  {
    var b := BayerSpec(q);
    assert b.compress == [q.bayer[0]];
    assert b.compress[1..] == [];
  }

  /** Python's ``int()`` of a float: truncation toward zero. */
  function Trunc(x: real): (n: int)
    ensures x >= 0.0 ==> n as real <= x < n as real + 1.0
    ensures x < 0.0 ==> n as real - 1.0 < x <= n as real
  {
    if x >= 0.0 then x.Floor else -((-x).Floor)
  }

  /** The hundredths of a second in ``timestamp``: ``int(frame_time * 100) % 100`` (the
      divisor is positive, so Python's remainder and Dafny's agree). */
  function Hundredths(frameTime: real): (h: nat)
    ensures h < 100
    ensures (Trunc(frameTime * 100.0) - h) % 100 == 0
  {
    Trunc(frameTime * 100.0) % 100
  }

  /** ``%02u`` of a number below 100. */
  function TwoDigits(n: nat): (s: string)
    requires n < 100
    ensures |s| == 2 && Text.AllDigits(s) && Text.DigitsValue(s) == n
  {
    var s := [Text.DigitChar(n / 10), Text.DigitChar(n % 10)];
    assert s[..1] == [s[0]] && s[..1][..0] == [];
    assert Text.DigitsValue(s[..1]) == n / 10;
    assert Text.DigitsValue(s) == 10 * (n / 10) + n % 10;
    s
  }

  /** ``timestamp``: the local date and time of the frame followed by two digits of
      hundredths. */
  function Timestamp(clockText: string, frameTime: real): string
  {
    clockText + TwoDigits(Hundredths(frameTime))
  }

  /** The file name ``save_thread`` writes an entry to. */
  function SaveFilename(clockText: string, item: SaveItem): string
  {
    "tmp/i" + Timestamp(clockText, item.frameTime) + (if item.isJpeg then ".jpg" else ".pgm")
  }

  /** Every saved file lies in ``tmp/`` with the ``i`` prefix, carries the extension
      ``.jpg`` exactly for JPEG entries, and its two characters before the extension are
      the digits of the frame's hundredths, which can be read back. */
  lemma SaveFilenameShape(clockText: string, item: SaveItem)
    ensures var f := SaveFilename(clockText, item);
            && |f| == 5 + |clockText| + 6
            && f[..5] == "tmp/i" && f[5..5 + |clockText|] == clockText
            && (f[|f| - 4..] == ".jpg" <==> item.isJpeg)
            && (f[|f| - 4..] == ".pgm" <==> !item.isJpeg)
            && Text.AllDigits(f[|f| - 6..|f| - 4])
            && Text.DigitsValue(f[|f| - 6..|f| - 4]) == Hundredths(item.frameTime)
  {
    var d := TwoDigits(Hundredths(item.frameTime));
    var ext := if item.isJpeg then ".jpg" else ".pgm";
    var f := SaveFilename(clockText, item);
    assert f == "tmp/i" + clockText + d + ext;
    assert f[|f| - 6..|f| - 4] == d;
    assert f[|f| - 4..] == ext;
  }

  /** The capture loop of ``run_capture``, run over the capture results the camera
      delivers, in order, until ``num_frames`` is reached or the results run out. The
      locals are the source's; the queues live in ``state``. */
  method RunCapture(state: CaptureState, opts: Options, baseTime0: real, lastFrameTime0: real,
                    results: seq<CaptureResult>)
    returns (stopped: bool, used: nat, frameLoss: int, numCaptured: nat)
    modifies state
    ensures var o := Run(Start(baseTime0, lastFrameTime0, old(state.Contents())), opts, results);
            && stopped == o.stopped && used == o.used
            && frameLoss == o.last.frameLoss && numCaptured == o.last.numCaptured
            && state.Contents() == o.last.queues
  {
    ghost var start := Start(baseTime0, lastFrameTime0, state.Contents());
    var baseTime := baseTime0;
    var lastFrameTime := lastFrameTime0;
    var lastFrameCounter := 0;
    frameLoss := 0;
    numCaptured := 0;
    stopped := false;
    used := 0;
    while used < |results| && !stopped
      invariant used <= |results|
      invariant var cur := Loop(baseTime, lastFrameTime, lastFrameCounter, frameLoss, numCaptured,
                                state.Contents());
                if stopped then Run(start, opts, results) == Outcome(cur, true, used)
                else Run(start, opts, results) == Run(cur, opts, results[used..]).(used := Run(cur, opts, results[used..]).used + used)
      decreases |results| - used
    {
      ghost var cur := Loop(baseTime, lastFrameTime, lastFrameCounter, frameLoss, numCaptured,
                            state.Contents());
      assert results[used..][1..] == results[used + 1..];
      var r := results[used];
      used := used + 1;
      if r.Captured? {
        if r.frameTime < lastFrameTime {
          baseTime := baseTime + WrapSeconds;
        }
        if lastFrameCounter != 0 {
          frameLoss := frameLoss + r.frameCounter - (lastFrameCounter + 1);
        }
        state.RouteFrame(opts, baseTime + r.frameTime);
        lastFrameTime := r.frameTime;
        lastFrameCounter := r.frameCounter;
        numCaptured := numCaptured + 1;
        stopped := numCaptured == opts.numFrames;
      }
      assert Loop(baseTime, lastFrameTime, lastFrameCounter, frameLoss, numCaptured, state.Contents())
             == Step(cur, opts, r);
    }
  }

  /** One single-shot trigger of ``get_base_time``: the wall-clock time read just before
      triggering, and what the capture returned. */
  datatype Trigger = Trigger(wallClock: real, result: CaptureResult)

  /** The index of the first successful trigger, if any. */
  function FirstCapture(attempts: seq<Trigger>): (r: Option<nat>)
    ensures r.Some? ==> r.value < |attempts| && attempts[r.value].result.Captured?
    ensures forall i :: 0 <= i < |attempts| && (r.None? || i < r.value) ==> attempts[i].result.Failed?
    decreases |attempts|
  {
    if attempts == [] then None
    else if attempts[0].result.Captured? then Some(0)
    else match FirstCapture(attempts[1..])
      case None => None
      case Some(k) => Some(k + 1)
  }

  /** ``get_base_time``: trigger until a capture succeeds; every fourth consecutive failure
      closes and reopens the camera. The base time is the wall clock at the successful
      trigger less the camera's frame time. */
  method GetBaseTime(attempts: seq<Trigger>)
    returns (found: bool, baseTime: real, frameTime: real, used: nat, errorCount: nat, reopens: nat)
    ensures found <==> FirstCapture(attempts).Some?
    ensures found ==> var k := FirstCapture(attempts).value;
                      && used == k + 1
                      && frameTime == attempts[k].result.frameTime
                      && baseTime == attempts[k].wallClock - frameTime
                      && errorCount == k % 4 && reopens == k / 4
    ensures !found ==> used == |attempts| && errorCount == |attempts| % 4 && reopens == |attempts| / 4
  {
    found := false;
    baseTime := 0.0;
    frameTime := 0.0;
    used := 0;
    errorCount := 0;
    reopens := 0;
    while !found && used < |attempts|
      invariant used <= |attempts|
      invariant !found ==> forall i :: 0 <= i < used ==> attempts[i].result.Failed?
      invariant !found ==> errorCount == used % 4 && reopens == used / 4
      invariant found ==> used >= 1 && FirstCapture(attempts) == Some(used - 1)
                          && frameTime == attempts[used - 1].result.frameTime
                          && baseTime == attempts[used - 1].wallClock - frameTime
                          && errorCount == (used - 1) % 4 && reopens == (used - 1) / 4
      decreases |attempts| - used, if found then 0 else 1
    {
      var t := attempts[used];
      used := used + 1;
      match t.result
      case Captured(ft, _) =>
        baseTime := t.wallClock;
        frameTime := ft;
        baseTime := baseTime - frameTime;
        found := true;
        FirstCaptureAt(attempts, used - 1);
      case Failed =>
        errorCount := errorCount + 1;
        if errorCount > 3 {
          errorCount := 0;
          reopens := reopens + 1;
        }
    }
  }

  /** A success preceded only by failures is the first capture. */
  lemma {:induction false} FirstCaptureAt(attempts: seq<Trigger>, k: nat)
    requires k < |attempts| && attempts[k].result.Captured?
    requires forall i :: 0 <= i < k ==> attempts[i].result.Failed?
    ensures FirstCapture(attempts) == Some(k)
    decreases k
  {
    if k > 0 {
      FirstCaptureAt(attempts[1..], k - 1);
    }
  }
}

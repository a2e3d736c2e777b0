/**
 The two settings stores of the air-side camera module (cuav/modules/camera_air.py,
 lines 45-82).  The camera store keeps, typed, the settings the modelled control logic
 reads; the image store keeps the six image-processing values by name.  In this model a
 store takes a value only when it is of the declared variant (an integer also serves
 for a float setting) and lies in the declared range, and ignores it otherwise; settings
 the modelled logic never reads are accepted and not stored.
 */
module AirSettings {
  import opened Common
  import Text

  /** A setting value as it arrives from the ground station. */
  datatype Value = BoolV(b: bool) | IntV(i: int) | RealV(r: real) | StrV(s: string) | NoneV

  /** The camera settings read by the capture, scan, transmit and airstart logic. */
  datatype CameraSettings = CameraSettings(
    minspeed: int,           // airstart: minimum air or ground speed
    minalt: int,             // lower clamp on the terrain altitude, range 0..10000
    ignoreTimestamps: bool,  // use the wall clock instead of the file's time
    camparms: Option<string>,// camera parameters file, None until set
    targetRadius: real,      // radius of the target filter, 0 disables it
    gcsAddress: string,      // comma separated remIP:remPort:localPort:bandwidth
    transmit: bool,          // send thumbnails to the ground station
    maxqueue: int,           // per-link send queue limit
    minscore: int,           // minimum region score to send, range 0..5000
    clockSync: bool)         // follow GPS time

  /** The defaults declared at lines 46-69. */
  const DefaultCamera := CameraSettings(20, 30, false, None, 0.0, "", true, 100, 400, false)

  /** The image-processing defaults declared at lines 75-80, all in range 0..100. */
  const DefaultImage: map<string, real> := map[
    "MinRegionArea" := 0.15, "MaxRegionArea" := 1.0, "MinRegionSize" := 0.2,
    "MaxRegionSize" := 1.0, "MaxRarityPct" := 0.02, "RegionMergeSize" := 1.0]

  /** The number a value of a float setting stands for in this model: a real or an
      integer value; strings and booleans give none. */
  function AsReal(v: Value): Option<real>
  {
    match v
    case RealV(r) => Some(r)
    case IntV(i) => Some(i as real)
    case _ => None
  }

  /** The names of the settings the camera store keeps. */
  const TrackedNames := {"minspeed", "minalt", "ignoretimestamps", "camparms", "target_radius",
                         "gcs_address", "transmit", "maxqueue", "minscore", "clock_sync"}

  /** The camera store's ``set``: the named tracked setting takes the value when its
      type and range fit, everything else stays. */
  function SetCamera(s: CameraSettings, name: string, v: Value): (r: CameraSettings)
    ensures name !in TrackedNames ==> r == s
    ensures r.minalt != s.minalt ==> name == "minalt" && 0 <= r.minalt <= 10000
    ensures r.minscore != s.minscore ==> name == "minscore" && 0 <= r.minscore <= 5000
    ensures v.IntV? && name == "minscore" ==> r.minscore == (if 0 <= v.i <= 5000 then v.i else s.minscore)
    ensures v.IntV? && name == "minalt" ==> r.minalt == (if 0 <= v.i <= 10000 then v.i else s.minalt)
    ensures v.StrV? && name == "gcs_address" ==> r == s.(gcsAddress := v.s)
    ensures r.minalt != s.minalt ==> name == "minalt" && v.IntV? && r.minalt == v.i && 0 <= v.i <= 10000
    ensures r.minscore != s.minscore ==> name == "minscore" && v.IntV? && r.minscore == v.i && 0 <= v.i <= 5000
    ensures name == "minalt" ==> r == s.(minalt := r.minalt)
    ensures name == "minscore" ==> r == s.(minscore := r.minscore)
    ensures name == "minspeed" ==> r == s.(minspeed := if v.IntV? then v.i else s.minspeed)
    ensures name == "maxqueue" ==> r == s.(maxqueue := if v.IntV? then v.i else s.maxqueue)
    ensures name == "target_radius" ==>
              r == s.(targetRadius := if AsReal(v).Some? then AsReal(v).value else s.targetRadius)
    ensures name == "ignoretimestamps" ==>
              r == s.(ignoreTimestamps := if v.BoolV? then v.b else s.ignoreTimestamps)
    ensures name == "transmit" ==> r == s.(transmit := if v.BoolV? then v.b else s.transmit)
    ensures name == "clock_sync" ==> r == s.(clockSync := if v.BoolV? then v.b else s.clockSync)
    ensures name == "camparms" ==>
              r == s.(camparms := if v.StrV? then Some(v.s) else if v.NoneV? then None else s.camparms)
    ensures name == "gcs_address" ==> r == s.(gcsAddress := if v.StrV? then v.s else s.gcsAddress)
  {
    match v
    case IntV(i) =>
      if name == "minspeed" then s.(minspeed := i)
      else if name == "minalt" && 0 <= i <= 10000 then s.(minalt := i)
      else if name == "maxqueue" then s.(maxqueue := i)
      else if name == "minscore" && 0 <= i <= 5000 then s.(minscore := i)
      else if name == "target_radius" then s.(targetRadius := i as real)
      else s
    case RealV(x) =>
      if name == "target_radius" then s.(targetRadius := x) else s
    case BoolV(b) =>
      if name == "ignoretimestamps" then s.(ignoreTimestamps := b)
      else if name == "transmit" then s.(transmit := b)
      else if name == "clock_sync" then s.(clockSync := b)
      else s
    case StrV(t) =>
      if name == "camparms" then s.(camparms := Some(t))
      else if name == "gcs_address" then s.(gcsAddress := t)
      else s
    case NoneV =>
      if name == "camparms" then s.(camparms := None) else s
  }

  /** The image store's ``set``: only the six declared names, only numbers in 0..100. */
  function SetImage(m: map<string, real>, name: string, v: Value): (r: map<string, real>)
    ensures r.Keys == m.Keys
    ensures forall k :: k in m && k != name ==> r[k] == m[k]
    ensures name in m && AsReal(v).Some? && 0.0 <= AsReal(v).value <= 100.0 ==> r[name] == AsReal(v).value
    ensures !(name in m && AsReal(v).Some? && 0.0 <= AsReal(v).value <= 100.0) ==> r == m
  {
    match AsReal(v)
    case Some(x) => if name in m && 0.0 <= x <= 100.0 then m[name := x] else m
    case None => m
  }

  /** The words accepted as booleans from the command line. */
  function ParseBool(text: string): Option<bool>
  {
    if text in {"1", "True", "true"} then Some(true)
    else if text in {"0", "False", "false"} then Some(false)
    else None
  }

  /** Conversion of a command-line word to the declared type of a tracked setting. */
  function ParseSettingText(name: string, text: string): Option<Value>
  {
    if name in {"minspeed", "minalt", "maxqueue", "minscore"} then
      match Text.ParseInt(text)
      case Some(i) => Some(IntV(i))
      case None => None
    else if name == "target_radius" then
      match Text.ParseDecimal(text)
      case Some(x) => Some(RealV(x))
      case None => None
    else if name in {"ignoretimestamps", "transmit", "clock_sync"} then
      match ParseBool(text)
      case Some(b) => Some(BoolV(b))
      case None => None
    else if name in {"camparms", "gcs_address"} then Some(StrV(text))
    else None
  }

  /** ``camera set NAME VALUE`` hands ``[NAME, VALUE, ...]`` to the store: a value that
      converts is set, anything else (no value, a word that does not convert) is ignored. */
  function SettingsCommand(s: CameraSettings, words: seq<string>): CameraSettings
  {
    if |words| < 2 then s
    else
      match ParseSettingText(words[0], words[1])
      case Some(v) => SetCamera(s, words[0], v)
      case None => s
  }

  /** ``camera set target_radius 2.5`` gives the radius its fractional value: the
      setting is a float, read with ``float()``. */
  lemma SetTargetRadiusFraction(s: CameraSettings)
    ensures SettingsCommand(s, ["target_radius", "2.5"]) == s.(targetRadius := 2.5)
  {
    DecimalTwoAndAHalf();
    var words := ["target_radius", "2.5"];
    assert words[0] == "target_radius" && words[1] == "2.5";
    assert ParseSettingText("target_radius", "2.5") == Some(RealV(2.5));
  }

  lemma DecimalTwoAndAHalf()
    ensures Text.ParseDecimal("2.5") == Some(2.5)
  {
    var t := Text.ShowNat(2) + "." + "5";
    assert t == "2.5" by {
      assert Text.ShowNat(2) == ['2'];
      assert |t| == 3 && t[0] == '2' && t[1] == '.' && t[2] == '5';
    }
    assert Text.FractionValue("5") == 0.5 by {
      assert Text.DigitsValue("5") == 5 && Text.Pow10(|"5"|) == 10;
    }
    Text.ParseDecimalFraction(2, "5");
  }

  /** Setting the same value twice is the same as setting it once. */
  lemma SetCameraIdempotent(s: CameraSettings, name: string, v: Value)
    ensures SetCamera(SetCamera(s, name, v), name, v) == SetCamera(s, name, v)
  {
  }

  /** Settings of two different names do not interfere: their order does not matter. */
  lemma SetCameraCommutes(s: CameraSettings, n1: string, v1: Value, n2: string, v2: Value)
    requires n1 != n2
    ensures SetCamera(SetCamera(s, n1, v1), n2, v2) == SetCamera(SetCamera(s, n2, v2), n1, v1)
  {
  }
}

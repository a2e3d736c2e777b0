/**
 The values that flow through the air-side module (cuav/modules/camera_air.py):
 detected regions, the objects queued for the ground station, the links they travel
 on, the objects received back and the autopilot packets the module reacts to.
 Image pixels, JPEG bytes and pickled buffers are not represented.
 */
module AirTypes {
  import opened Common
  import opened AirSettings

  /** A region found by the scanner; only its score matters to the control logic. */
  datatype Region = Region(score: int)

  /** An aircraft position from the interpolator. */
  datatype Position = Position(lat: real, lon: real, altitude: real)

  /** The text of a ``send_message`` call. */
  datatype Message =
    | Text(text: string)
    | Status(captured: nat, errors: nat, scanned: nat, regions: nat, xmitQueue: seq<nat>, scanQueue: nat)
    | QueueReport(scanQueue: nat, transmitQueue: nat)

  /** One object for the ground station. */
  datatype Packet =
    | ThumbPacket(frameTime: real, regions: seq<Region>, pos: Option<Position>, highscore: int)
    | ImagePacket(frameTime: real, fullres: bool, priority: int)
    | ChangeCameraSetting(name: string, value: Value)
    | ChangeImageSetting(name: string, value: Value)
    | HeartBeat
    | CameraMessage(msg: Message)

  /** An entry of ``transmit_queue``: object, optional priority, optional target link
      (an index into the module's list of links). */
  datatype Outbound = Outbound(pkt: Packet, priority: Option<int>, target: Option<nat>)

  /** ``remIP:remPort:localPort:bandwidth``. */
  datatype Endpoint = Endpoint(remoteIp: string, remotePort: int, localPort: int, bandwidth: int)

  /** One object handed to a link's ``send``, with the priority it was sent at. */
  datatype Sent = Sent(pkt: Packet, priority: int)

  /** A block sender: its endpoint, the number of blocks it has queued, and the log of
      everything the module has sent on it. */
  datatype Link = Link(endpoint: Endpoint, sendqSize: nat, log: seq<Sent>)

  /** The objects the ground station sends up. */
  datatype Command =
    | ImageRequest(frameTime: real, fullres: bool)
    | SetCameraCommand(name: string, value: Value)
    | SetImageCommand(name: string, value: Value)
    | CommandPacket(command: string)
    | OtherObject

  /** A decoded inbound object; ``stamp`` is present exactly for the stamped command kinds. */
  datatype Inbound = Inbound(stamp: Option<real>, cmd: Command)

  /** The outcome of ``recv`` followed by unpickling. */
  datatype Received = NoData | Undecodable | DecodedNone | Decoded(obj: Inbound)

  /** The autopilot packets the module looks at. */
  datatype MavMessage =
    | VfrHud(airspeed: real, groundspeed: real)
    | TerrainReport(currentHeight: real)
    | SystemTime(timeUnixUsec: int)
    | OtherMessage

  /** The outcome of resolving the ``imagefile`` link and reading its time: an exception,
      or the resolved path with the parsed time (None when the name holds no time). */
  datatype Poll = PollFailed | Polled(filename: string, parsedTime: Option<real>)
}

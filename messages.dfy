/**
 * The values exchanged with the AudioConnect web service and the shapes of
 * the WebSocket frames that carry them. The JSON encoding itself belongs to
 * the messaging library and is not part of this model: an inbound text frame
 * carries the messages it decodes to, or None when it does not decode.
 */
module Messages {
  import opened Wrappers

  /** java.util.UUID: its two signed 64-bit halves. */
  datatype Uuid = Uuid(mostSigBits: int, leastSigBits: int)

  /** An audio delay range, as AudioMessage.Range holds it; only its identity matters here. */
  datatype Range = Range(min: int, max: int)

  /** The per-track options configured under audio-tracks. */
  datatype TrackSettings = TrackSettings(defaultTrack: bool, repeating: bool, random: bool, fading: bool)

  /** Player status reported by the newer client. */
  datatype Status = Online | Offline

  /** Player status reported by the older client. */
  datatype ConnectionStatus = Connected | Disconnected

  datatype ListAction = Add | Remove

  datatype Command = AddPlayer | RemovePlayer

  datatype Message =
    | AudioMessage(player: Uuid, track: Option<string>, audioIds: set<string>, delay: Option<Range>)
    | StatusMessage(player: Uuid, status: Status)
    | ConnectionStatusMessage(player: Uuid, connection: ConnectionStatus)
    | TrackMessage(player: Uuid, trackId: string, settings: TrackSettings)
    | AudioListMessage(action: ListAction, ids: seq<string>)
    | CommandMessage(player: Uuid, command: Command)
    | HeartbeatMessage
    | OtherMessage(kind: string)

  type Bytes = seq<bv8>

  /** A frame written to the web service. */
  datatype OutFrame =
    | TextFrame(messages: seq<Message>)
    | PongFrame(payload: Bytes)
    | CloseFrame(code: int, reason: string)

  /** A frame received from the web service. */
  datatype InFrame =
    | PingIn(payload: Bytes)
    | PongIn
    | CloseIn
    | TextIn(decoded: Option<seq<Message>>)
    | OtherIn

  /** Close status 1001 "going away" (section 7.4.1 of RFC 6455). */
  const GoingAway: int := 1001

  /** The HTTP status of an accepted WebSocket upgrade (section 4.1 of RFC 6455). */
  const SwitchingProtocols: int := 101
}

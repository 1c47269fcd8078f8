/** The values the control layer exchanges: what a TV reports and the commands sent to it. */
module Domain {
  datatype Option<+T> = None | Some(value: T)

  datatype Command = LoadMedia | Play | Pause | Stop | CloseApp | Seek | SetVolume | SetMuted

  datatype PlaybackState = Idle | Playing | Paused | Buffering | Undetermined

  datatype ConnectionState = Disconnected | Connecting | Connected

  datatype ErrorCode =
    | InvalidArgument | DeviceNotFound | AmbiguousTarget | DeviceUnavailable | DiscoveryFailed
    | UnsupportedOperation | UnsupportedMedia | CommandRejected | Timeout | PairingRequired
    | DebuggingOff | StorageUnavailable

  datatype MediaStatus = MediaStatus(
    playback: PlaybackState,
    contentId: Option<string>,
    sessionId: Option<nat>,
    itemId: Option<int>,
    position: Option<real>,
    supportsSeek: Option<bool>)

  datatype ReceiverStatus = ReceiverStatus(
    appSessionId: Option<string>,
    volume: Option<real>,
    muted: Option<bool>,
    fixedVolume: bool)

  /** One status read. Only a connected device reports a receiver or media (see `Consistent`). */
  datatype DeviceStatus = DeviceStatus(
    connection: ConnectionState,
    receiver: Option<ReceiverStatus>,
    media: Option<MediaStatus>)
  {
    predicate Consistent() {
      connection == Connected || (receiver == None && media == None)
    }

    function Session(): Option<nat> {
      if media == None then None else media.value.sessionId
    }
  }

  /** The commands that target one captured media session. */
  predicate TargetsSession(command: Command) {
    command.Play? || command.Pause? || command.Stop? || command.Seek?
  }
}

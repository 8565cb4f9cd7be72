/** Failure-carrying datatypes shared by every module of the model. */
module Wrappers {

  datatype Option<+T> = None | Some(value: T)

  /** The errors of boringtun/src/noise/errors.rs that the modelled code returns. */
  datatype WireGuardError =
    | DestinationBufferTooSmall
    | UnexpectedPacket
    | WrongPacketType
    | WrongIndex
    | WrongKey
    | WrongTai64nTimestamp
    | InvalidTai64nTimestamp
    | InvalidMac
    | InvalidAeadTag
    | InvalidCounter
    | DuplicateCounter
    | InvalidPacket
    | NoCurrentSession
    | ConnectionExpired
    | UnderLoad

  datatype Result<+T> = Ok(value: T) | Err(error: WireGuardError)
}

/** Declarations that the client app and the privileged daemon share. */
module Shared {

  /** The Mach service name of the daemon; also the stem of its launchd property list. */
  const HelperToolIdentifier: string := "com.alienator88.HelperApp.HelperTool"

  /** The name of the property list the client registers with the service manager. */
  const PlistName: string := HelperToolIdentifier + ".plist"

  /** The Objective-C name of the one XPC protocol both ends agree on. */
  const ProtocolName: string := "HelperToolProtocol"

  datatype Option<+T> = None | Some(value: T)

  newtype byte = x: int | 0 <= x < 256

  type Bytes = seq<byte>
}

/** Opaque names of the things Asterisk knows, one type each. */
module Identifiers {

  datatype CallId = CallId(name: string)
  datatype ChannelId = ChannelId(name: string)
  datatype BridgeId = BridgeId(name: string)
  datatype Aor = Aor(name: string)
}

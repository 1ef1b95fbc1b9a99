/** The protocol messages both ends construct. */
module Messages {
  import opened Json

  /** The handshake `{type: "ConnectAck", client_id: id}`. */
  function ConnectAck(id: string): (o: JsonObject)
    ensures StringField(o, "type") == "ConnectAck" && StringField(o, "client_id") == id
  {
    map["type" := Str("ConnectAck"), "client_id" := Str(id)]
  }

  /** A command `{type: "Command", command: cmd}`. */
  function CommandMessage(cmd: string): (o: JsonObject)
    ensures StringField(o, "type") == "Command" && StringField(o, "command") == cmd
  {
    map["type" := Str("Command"), "command" := Str(cmd)]
  }
}

/** The transcript events a run emits and the messages that carry them to readers. */
module Messages {
  /** One decoded line of the process output, before it is numbered. */
  datatype Event = Event(kind: string, subtype: string, payload: string)

  /** What subscribers receive: sequence number 0 marks a status frame. */
  datatype Message = Message(seqno: nat, kind: string, subtype: string, payload: string,
                             terminal: bool, status: string)

  const STATUS := "status"

  function StatusFrame(status: string, terminal: bool): Message {
    Message(0, STATUS, "", "", terminal, status)
  }

  /** The message for event number n, counting from 1. */
  function EventFrame(n: nat, e: Event): Message {
    Message(n, e.kind, e.subtype, e.payload, false, "")
  }
}

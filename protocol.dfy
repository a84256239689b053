/** What the relay carries between the two parties: the envelope a signalling
    channel emits (sender, target and message) and the payload fields the
    session handlers read and write. */
module Protocol {
  import opened Text
  import opened Wrappers

  /** A send target: every connected peer, or the one peer with this id. */
  datatype Target = All | Peer(id: string)

  /** The `message` object of an envelope. The handlers test each field on its own,
      so it is a record of optional fields rather than a closed union:
      `calendarSlots` and `address` make up the joiner's calendar offer,
      `result` is the winning slot as text, `fin` the host's completion marker. */
  datatype Payload = Payload(
    calendarSlots: Option<seq<int>>,
    address: Option<string>,
    result: Option<string>,
    fin: Option<bool>)

  datatype Envelope = Envelope(from: string, target: Target, message: Payload)

  /** The joiner's calendar offer: its submitted slots and its address. */
  function CalendarOffer(slots: seq<int>, address: string): Payload {
    Payload(Some(slots), Some(address), None, None)
  }

  /** The host's completion marker, sent as its computation starts. */
  function Fin(): Payload {
    Payload(None, None, None, Some(true))
  }

  /** The host's announcement of the best slot, as the decimal text of the number. */
  function ResultAnnounce(bestSlot: Num): Payload {
    Payload(None, None, Some(NumberText(bestSlot)), None)
  }

  /** The envelope a channel whose peer id is `from` emits when sending `message` to one peer. */
  function SendTo(from: string, target: string, message: Payload): Envelope {
    Envelope(from, Peer(target), message)
  }

  /** The joiner's peer id: the session code with `-other` appended. */
  function OtherPeer(code: string): string {
    code + "-other"
  }
}

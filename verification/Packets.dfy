/** The PDUs of the safety and retransmission layer, as its state machine sees them. */
module Packets {

  type byte = n: int | 0 <= n < 256

  /** One application message. */
  type Message = seq<byte>

  datatype Kind =
    ConnReq | ConnResp | RetrReq | RetrResp | DiscReq | Heartbeat | Data | RetrData | Unknown

  /**
    A decoded PDU.  `intact` is the receiver's verdict on the safety code.
    `origin` is a tag of the model that no protocol function reads: in a Data or RetrData PDU the
    index of the batch it carries among all batches its sender ever sent, in any other PDU the
    number of batches sent before it.
   */
  datatype Packet = Packet(
    kind: Kind, receiver: nat, sender: nat,
    sn: nat, cs: nat, ts: nat, cts: nat,
    batch: seq<Message>, intact: bool, origin: nat)

  predicate Bears(p: Packet) {
    p.kind == Data || p.kind == RetrData
  }

  /** The elements of a list of lists, in order. */
  function Flatten<T>(batches: seq<seq<T>>): seq<T> {
    if batches == [] then [] else Flatten(batches[..|batches| - 1]) + batches[|batches| - 1]
  }

  /** The payloads of a list of PDUs. */
  function Payloads(ps: seq<Packet>): (bs: seq<seq<Message>>)
    ensures |bs| == |ps|
  {
    seq(|ps|, i requires 0 <= i < |ps| => ps[i].batch)
  }
}

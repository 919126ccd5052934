/**
 * The message frame of SpeedDate's transport as `MessageFactory.FromBytes`
 * reads it, the incoming message it builds, and the way a reply is stamped
 * by `IncommingMessage.Respond`.
 *
 * Frame layout, from offset `start`:
 *   flags (1 byte) | opcode (big-endian uint32) | length (big-endian int32)
 *   | payload (length bytes) | [ack id (int32) if the AckRequest bit is set]
 *   | [ack id (int32), status (1 byte) if the AckResponse bit is set]
 * Anything after the last field is ignored. The numeric values of the two
 * `MessageFlag` bits are not part of this model, so they are parameters.
 */
module Wire {
  import opened Common

  /** The bit masks of `MessageFlag.AckRequest` and `MessageFlag.AckResponse`. */
  datatype FlagBits = FlagBits(ackRequest: byte, ackResponse: byte)

  predicate HasBit(flags: byte, mask: byte) {
    (flags as bv8) & (mask as bv8) != 0
  }

  /** `IncommingMessage`: what the receiving side knows about one frame. */
  datatype IncomingMessage = IncomingMessage(
    opCode: nat,
    flags: byte,
    data: seq<byte>,
    peer: int,
    ackResponseId: Option<int>,
    ackRequestId: Option<int>,
    status: byte,
    sequenceChannel: int)
  {
    /** True if the message carries any payload. */
    predicate HasData() {
      |data| > 0
    }

    /** True if the sender waits for a reply to this message. */
    predicate IsExpectingResponse() {
      ackResponseId.Some?
    }

    /** The payload, unchanged. */
    function AsBytes(): seq<byte> {
      data
    }

    /**
     * The payload decoded as text, or `defaultValue` when there is no
     * payload. UTF-8 decoding is a parameter of the model.
     */
    function AsString(defaultValue: string, utf8: seq<byte> -> string): (s: string)
      ensures !HasData() ==> s == defaultValue
      ensures HasData() ==> s == utf8(AsBytes())
    {
      if HasData() then utf8(data) else defaultValue
    }
  }

  /**
   * The constructor of `IncommingMessage`: it keeps the opcode, the peer and
   * the payload, and drops its `flags` argument, so `Flags` stays 0.
   */
  function NewIncomingMessage(opCode: nat, flags: byte, data: seq<byte>, peer: int): (m: IncomingMessage)
    ensures m.opCode == opCode && m.data == data && m.peer == peer
    ensures m.flags == 0
    ensures !m.IsExpectingResponse() && m.ackRequestId.None?
    ensures m.HasData() <==> |data| > 0
  {
    IncomingMessage(opCode, 0, data, peer, None, None, 0, 0)
  }

  /** Offset of the first byte after the payload. */
  function PayloadEnd(buffer: seq<byte>, start: nat): int
    requires start + 9 <= |buffer|
  {
    start + 9 + Int32At(buffer, start + 5)
  }

  /**
   * The frame parser, stated by offsets: `None` is the source's `null`,
   * returned whenever an index or a length is out of range.
   */
  function ParseFrame(buffer: seq<byte>, start: int, bits: FlagBits, peer: int): (r: Option<IncomingMessage>)
    ensures start < 0 || start + 9 > |buffer| ==> r.None?
    ensures start >= 0 && start + 9 <= |buffer| && Int32At(buffer, start + 5) < 0 ==> r.None?
    ensures r.Some? ==> 0 <= start && start + 9 <= |buffer| && Int32At(buffer, start + 5) >= 0
    ensures r.Some? ==> PayloadEnd(buffer, start) <= |buffer|
    ensures r.Some? ==> r.value.opCode == UInt32At(buffer, start + 1)
    ensures r.Some? ==> r.value.data == buffer[start + 9..PayloadEnd(buffer, start)]
    ensures r.Some? ==> (r.value.IsExpectingResponse() <==> HasBit(buffer[start], bits.ackRequest))
    ensures r.Some? ==> (r.value.ackRequestId.Some? <==> HasBit(buffer[start], bits.ackResponse))
    ensures r.Some? ==> r.value.flags == 0 && r.value.sequenceChannel == 0 && r.value.peer == peer
  {
    if start < 0 || start + 9 > |buffer| then None
    else
      var flags := buffer[start];
      var length := Int32At(buffer, start + 5);
      var payloadEnd := start + 9 + length;
      if length < 0 || payloadEnd > |buffer| then None
      else
        var hasRequest := HasBit(flags, bits.ackRequest);
        var hasResponse := HasBit(flags, bits.ackResponse);
        var responseAt := if hasRequest then payloadEnd + 4 else payloadEnd;
        if responseAt > |buffer| || (hasResponse && responseAt + 5 > |buffer|) then None
        else
          var m := NewIncomingMessage(UInt32At(buffer, start + 1), flags, buffer[start + 9..payloadEnd], peer);
          Some(m.(
            ackResponseId := if hasRequest then Some(Int32At(buffer, payloadEnd)) else None,
            ackRequestId := if hasResponse then Some(Int32At(buffer, responseAt)) else None,
            status := if hasResponse then buffer[responseAt + 4] else 0))
  }

  /**
   * `MessageFactory.FromBytes`: the parser as the source writes it, moving a
   * cursor field by field and assigning the message's fields as it goes.
   */
  method FromBytes(buffer: seq<byte>, start: int, bits: FlagBits, peer: int)
    returns (r: Option<IncomingMessage>)
    ensures r == ParseFrame(buffer, start, bits, peer)
  {
    if start < 0 || start >= |buffer| {
      return None;
    }
    var flags := buffer[start];
    if start + 5 > |buffer| {
      return None;
    }
    var opCode := UInt32At(buffer, start + 1);
    var pointer := start + 5;
    if pointer + 4 > |buffer| {
      return None;
    }
    var dataLength := Int32At(buffer, pointer);
    pointer := pointer + 4;
    if dataLength < 0 || pointer + dataLength > |buffer| {
      return None;
    }
    var data := buffer[pointer..pointer + dataLength];
    pointer := pointer + dataLength;
    var message := NewIncomingMessage(opCode, flags, data, peer);
    message := message.(sequenceChannel := 0);
    if HasBit(flags, bits.ackRequest) {
      if pointer + 4 > |buffer| {
        return None;
      }
      message := message.(ackResponseId := Some(Int32At(buffer, pointer)));
      pointer := pointer + 4;
    }
    if HasBit(flags, bits.ackResponse) {
      if pointer + 4 > |buffer| {
        return None;
      }
      var ackId := Int32At(buffer, pointer);
      message := message.(ackRequestId := Some(ackId));
      pointer := pointer + 4;
      if pointer >= |buffer| {
        return None;
      }
      message := message.(status := buffer[pointer]);
      pointer := pointer + 1;
    }
    return Some(message);
  }

  /** The fields a sender puts in one frame. */
  datatype Frame = Frame(flags: byte, opCode: nat, data: seq<byte>,
                         ackId: int, responseAckId: int, status: byte)

  predicate WellFormedFrame(f: Frame) {
    f.opCode < TwoTo32 && |f.data| < TwoTo31 && IsInt32(f.ackId) && IsInt32(f.responseAckId)
  }

  /** The bytes of a frame, in the layout `ParseFrame` reads (a reference writer). */
  function EncodeFrame(f: Frame, bits: FlagBits): seq<byte>
    requires WellFormedFrame(f)
  {
    [f.flags] + UInt32Bytes(f.opCode) + Int32Bytes(|f.data|) + f.data
      + (if HasBit(f.flags, bits.ackRequest) then Int32Bytes(f.ackId) else [])
      + (if HasBit(f.flags, bits.ackResponse) then Int32Bytes(f.responseAckId) + [f.status] else [])
  }

  /** The message a receiver should see for a frame. */
  function Received(f: Frame, bits: FlagBits, peer: int): IncomingMessage {
    var hasResponse := HasBit(f.flags, bits.ackResponse);
    IncomingMessage(f.opCode, 0, f.data, peer,
      if HasBit(f.flags, bits.ackRequest) then Some(f.ackId) else None,
      if hasResponse then Some(f.responseAckId) else None,
      if hasResponse then f.status else 0, 0)
  }

  /** `ParseFrame` on a buffer whose fields are known. */
  lemma ParseFrameOf(buffer: seq<byte>, start: nat, bits: FlagBits, peer: int, f: Frame, end: nat, responseAt: nat)
    requires start + 9 <= |buffer|
    requires buffer[start] == f.flags && UInt32At(buffer, start + 1) == f.opCode
    requires end == start + 9 + |f.data| && Int32At(buffer, start + 5) == |f.data| && end <= |buffer|
    requires buffer[start + 9..end] == f.data
    requires responseAt == if HasBit(f.flags, bits.ackRequest) then end + 4 else end
    requires responseAt <= |buffer|
    requires HasBit(f.flags, bits.ackRequest) ==> Int32At(buffer, end) == f.ackId
    requires HasBit(f.flags, bits.ackResponse) ==> responseAt + 5 <= |buffer| && Int32At(buffer, responseAt) == f.responseAckId
    requires HasBit(f.flags, bits.ackResponse) ==> buffer[responseAt + 4] == f.status
    ensures ParseFrame(buffer, start, bits, peer) == Some(Received(f, bits, peer))
  {
  }

  /** The header fields of a frame written after `prefix`. */
  lemma {:induction false} HeaderAt(buffer: seq<byte>, prefix: seq<byte>, flags: byte, opCode: nat, length: int, rest: seq<byte>)
    requires opCode < TwoTo32 && IsInt32(length)
    requires buffer == prefix + [flags] + UInt32Bytes(opCode) + Int32Bytes(length) + rest
    ensures |buffer| == |prefix| + 9 + |rest|
    ensures buffer[|prefix|] == flags
    ensures UInt32At(buffer, |prefix| + 1) == opCode
    ensures Int32At(buffer, |prefix| + 5) == length
  {
    assert buffer == (prefix + [flags]) + UInt32Bytes(opCode) + (Int32Bytes(length) + rest);
    UInt32AtOffset(prefix + [flags], opCode, Int32Bytes(length) + rest);
    assert buffer == (prefix + [flags] + UInt32Bytes(opCode)) + Int32Bytes(length) + rest;
    Int32AtOffset(prefix + [flags] + UInt32Bytes(opCode), length, rest);
  }

  /** The optional ack fields of a frame, read after its payload. */
  lemma {:induction false} AckFieldsAt(buffer: seq<byte>, head: seq<byte>, request: seq<byte>, response: seq<byte>, trailing: seq<byte>,
                                       ackId: int, responseAckId: int, status: byte, hasRequest: bool, hasResponse: bool)
    requires IsInt32(ackId) && IsInt32(responseAckId)
    requires request == if hasRequest then Int32Bytes(ackId) else []
    requires response == if hasResponse then Int32Bytes(responseAckId) + [status] else []
    requires buffer == head + request + response + trailing
    ensures (if hasRequest then |head| + 4 else |head|) <= |buffer|
    ensures hasRequest ==> Int32At(buffer, |head|) == ackId
    ensures hasResponse ==> var responseAt := if hasRequest then |head| + 4 else |head|;
      responseAt + 5 <= |buffer| && Int32At(buffer, responseAt) == responseAckId && buffer[responseAt + 4] == status
  {
    if hasRequest {
      assert buffer == head + Int32Bytes(ackId) + (response + trailing);
      Int32AtOffset(head, ackId, response + trailing);
    }
    if hasResponse {
      assert buffer == (head + request) + Int32Bytes(responseAckId) + ([status] + trailing);
      Int32AtOffset(head + request, responseAckId, [status] + trailing);
      assert buffer[|head + request| + 4] == status;
    }
  }

  /** The optional ack-request field of a frame. */
  function RequestField(f: Frame, bits: FlagBits): seq<byte> {
    if HasBit(f.flags, bits.ackRequest) then Int32Bytes(f.ackId) else []
  }

  /** The optional ack-response fields of a frame. */
  function ResponseFields(f: Frame, bits: FlagBits): seq<byte> {
    if HasBit(f.flags, bits.ackResponse) then Int32Bytes(f.responseAckId) + [f.status] else []
  }

  /** The header of a frame placed after `prefix`. */
  function HeaderAfter(prefix: seq<byte>, f: Frame): seq<byte>
    requires WellFormedFrame(f)
  {
    prefix + [f.flags] + UInt32Bytes(f.opCode) + Int32Bytes(|f.data|)
  }

  lemma {:induction false} FrameLayout(f: Frame, bits: FlagBits, prefix: seq<byte>, trailing: seq<byte>)
    requires WellFormedFrame(f)
    ensures var buffer := prefix + EncodeFrame(f, bits) + trailing;
      var head := HeaderAfter(prefix, f) + f.data;
      && |head| == |prefix| + 9 + |f.data|
      && buffer == HeaderAfter(prefix, f) + (f.data + RequestField(f, bits) + ResponseFields(f, bits) + trailing)
      && buffer == head + RequestField(f, bits) + ResponseFields(f, bits) + trailing
      && buffer[|prefix| + 9..|head|] == f.data
  {
    var buffer := prefix + EncodeFrame(f, bits) + trailing;
    var head := HeaderAfter(prefix, f) + f.data;
    assert EncodeFrame(f, bits) == [f.flags] + UInt32Bytes(f.opCode) + Int32Bytes(|f.data|) + f.data
                                   + RequestField(f, bits) + ResponseFields(f, bits);
    assert buffer == head + RequestField(f, bits) + ResponseFields(f, bits) + trailing;
    assert buffer[|prefix| + 9..|head|] == head[|prefix| + 9..];
  }

  /**
   * Round trip: a frame written at any offset of a buffer, followed by any
   * bytes, is parsed back into exactly its fields (the trailing bytes are
   * ignored).
   */
  lemma {:induction false} FrameRoundTrip(f: Frame, bits: FlagBits, prefix: seq<byte>, trailing: seq<byte>, peer: int)
    requires WellFormedFrame(f)
    ensures ParseFrame(prefix + EncodeFrame(f, bits) + trailing, |prefix|, bits, peer) == Some(Received(f, bits, peer))
  {
    var buffer := prefix + EncodeFrame(f, bits) + trailing;
    var head := HeaderAfter(prefix, f) + f.data;
    var end := |prefix| + 9 + |f.data|;
    FrameLayout(f, bits, prefix, trailing);
    HeaderAt(buffer, prefix, f.flags, f.opCode, |f.data|,
             f.data + RequestField(f, bits) + ResponseFields(f, bits) + trailing);
    var hasRequest := HasBit(f.flags, bits.ackRequest);
    AckFieldsAt(buffer, head, RequestField(f, bits), ResponseFields(f, bits), trailing,
                f.ackId, f.responseAckId, f.status, hasRequest, HasBit(f.flags, bits.ackResponse));
    ParseFrameOf(buffer, |prefix|, bits, peer, f, end, if hasRequest then end + 4 else end);
  }

  /**
   * What a parsed message reports through its accessors: it has data exactly
   * when the length field is positive, expects a reply exactly when the
   * AckRequest bit is set, and `AsBytes` is the payload slice.
   */
  lemma ParsedAccessors(buffer: seq<byte>, start: int, bits: FlagBits, peer: int)
    requires ParseFrame(buffer, start, bits, peer).Some?
    ensures var m := ParseFrame(buffer, start, bits, peer).value;
      && (m.HasData() <==> Int32At(buffer, start + 5) > 0)
      && (m.IsExpectingResponse() <==> HasBit(buffer[start], bits.ackRequest))
      && m.AsBytes() == buffer[start + 9..start + 9 + Int32At(buffer, start + 5)]
  {
  }

  /** An outgoing `Message`: its status and reply id are set by `Respond`. */
  class OutgoingMessage {
    const opCode: nat
    const data: seq<byte>
    var status: byte
    var ackResponseId: Option<int>

    /** `MessageFactory.Create(opCode, data)`. */
    constructor (opCode: nat, data: seq<byte>)
      ensures this.opCode == opCode && this.data == data
      ensures status == 0 && ackResponseId.None?
    {
      this.opCode := opCode;
      this.data := data;
      status := 0;
      ackResponseId := None;
    }
  }

  /** What goes on the wire when a reply is sent back to a peer. */
  datatype Reply = Reply(to: int, opCode: nat, data: seq<byte>, status: byte, ackResponseId: Option<int>)

  /** `MessageFactory.Create(opCode)`: a message with no payload. */
  method CreateEmpty(opCode: nat) returns (m: OutgoingMessage)
    ensures fresh(m) && m.opCode == opCode && m.data == [] && m.status == 0 && m.ackResponseId.None?
  {
    m := new OutgoingMessage(opCode, []);
  }

  /**
   * `IncommingMessage.Respond(message, statusCode)`: stamps the status on the
   * message, copies the incoming ack id only when there is one, and sends it
   * to the incoming message's peer.
   */
  method Respond(incoming: IncomingMessage, message: OutgoingMessage, statusCode: byte) returns (sent: Reply)
    modifies message
    ensures message.status == statusCode
    ensures message.ackResponseId == if incoming.IsExpectingResponse() then incoming.ackResponseId else old(message.ackResponseId)
    ensures sent == Reply(incoming.peer, message.opCode, message.data, statusCode, message.ackResponseId)
  {
    message.status := statusCode;
    if incoming.ackResponseId.Some? {
      message.ackResponseId := Some(incoming.ackResponseId.value);
    }
    sent := Reply(incoming.peer, message.opCode, message.data, message.status, message.ackResponseId);
  }

  /**
   * The data-carrying `Respond` overloads: the payload is wrapped in a new
   * message with the incoming opcode, and the reply answers the incoming ack
   * id (if any) with the given status.
   */
  method RespondWithData(incoming: IncomingMessage, data: seq<byte>, statusCode: byte) returns (sent: Reply)
    ensures sent.to == incoming.peer && sent.opCode == incoming.opCode && sent.data == data
    ensures sent.status == statusCode && sent.ackResponseId == incoming.ackResponseId
  {
    var message := new OutgoingMessage(incoming.opCode, data);
    sent := Respond(incoming, message, statusCode);
  }

  /** `Respond(statusCode)`: an empty reply with the incoming opcode. */
  method RespondStatus(incoming: IncomingMessage, statusCode: byte) returns (sent: Reply)
    ensures sent.to == incoming.peer && sent.opCode == incoming.opCode && sent.data == []
    ensures sent.status == statusCode && sent.ackResponseId == incoming.ackResponseId
  {
    var message := CreateEmpty(incoming.opCode);
    sent := Respond(incoming, message, statusCode);
  }

  /** `Respond(int, statusCode)`: the payload is the big-endian int. */
  method RespondInt(incoming: IncomingMessage, value: int, statusCode: byte) returns (sent: Reply)
    requires IsInt32(value)
    ensures sent.opCode == incoming.opCode && |sent.data| == 4 && Int32At(sent.data, 0) == value
    ensures sent.status == statusCode && sent.ackResponseId == incoming.ackResponseId
  {
    Int32RoundTrip(value, []);
    assert Int32Bytes(value) + [] == Int32Bytes(value);
    sent := RespondWithData(incoming, Int32Bytes(value), statusCode);
  }
}

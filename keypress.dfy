/**
 * The keypad's command frames and the dispatcher (KeypressCommands) that
 * hands a key's frame to the transport chosen when it was constructed.
 */
module Keypress {
  import opened LinkTypes
  import opened SerialLink
  import opened MockLink

  /** The twelve keys of the vending-machine keypad. */
  datatype Key = One | Two | Three | Four | Five | Six | Seven | Eight | Nine | Zero | Star | Hash

  /** The text a key carries on the keypad and in log messages. */
  function Label(k: Key): string
  {
    match k
    case One => "1"
    case Two => "2"
    case Three => "3"
    case Four => "4"
    case Five => "5"
    case Six => "6"
    case Seven => "7"
    case Eight => "8"
    case Nine => "9"
    case Zero => "0"
    case Star => "*"
    case Hash => "#"
  }

  /** The key whose label is `s`, if any (the label comparison chain of pressNextKey). */
  function KeyOfLabel(s: string): (r: Option<Key>)
    ensures r.Some? ==> Label(r.value) == s
    ensures forall k :: Label(k) == s ==> r == Some(k)
  {
    if s == "1" then Some(One)
    else if s == "2" then Some(Two)
    else if s == "3" then Some(Three)
    else if s == "4" then Some(Four)
    else if s == "5" then Some(Five)
    else if s == "6" then Some(Six)
    else if s == "7" then Some(Seven)
    else if s == "8" then Some(Eight)
    else if s == "9" then Some(Nine)
    else if s == "0" then Some(Zero)
    else if s == "*" then Some(Star)
    else if s == "#" then Some(Hash)
    else None
  }

  /** The constant 5-byte command frame of each key, byte for byte. */
  function Frame(k: Key): (f: seq<byte>)
    ensures |f| == 5 && f[0] == 0x0B
  {
    match k
    case One => [0x0B, 0x00, 0x03, 0xC8, 0xD6]
    case Two => [0x0B, 0x00, 0x03, 0x64, 0x67]
    case Three => [0x0B, 0x01, 0x02, 0x50, 0x5E]
    case Four => [0x0B, 0x01, 0x03, 0x50, 0x5F]
    case Five => [0x0B, 0x02, 0x02, 0x50, 0x5F]
    case Six => [0x0B, 0x02, 0x03, 0x50, 0x60]
    case Seven => [0x0B, 0x03, 0x02, 0x50, 0x60]
    case Eight => [0x0B, 0x03, 0x03, 0x50, 0x61]
    case Nine => [0x0B, 0x04, 0x02, 0x50, 0x61]
    case Zero => [0x0B, 0x04, 0x03, 0x50, 0x62]
    case Star => [0x0B, 0x04, 0x00, 0x50, 0x5F]
    case Hash => [0x0B, 0x04, 0x01, 0x50, 0x60]
  }

  /** Reads back which key a frame stands for, from its bytes 1 to 3. */
  function KeyOfFrame(f: seq<byte>): Option<Key>
  {
    if |f| != 5 then None
    else match (f[1], f[2], f[3])
      case (0x00, 0x03, 0xC8) => Some(One)
      case (0x00, 0x03, 0x64) => Some(Two)
      case (0x01, 0x02, 0x50) => Some(Three)
      case (0x01, 0x03, 0x50) => Some(Four)
      case (0x02, 0x02, 0x50) => Some(Five)
      case (0x02, 0x03, 0x50) => Some(Six)
      case (0x03, 0x02, 0x50) => Some(Seven)
      case (0x03, 0x03, 0x50) => Some(Eight)
      case (0x04, 0x02, 0x50) => Some(Nine)
      case (0x04, 0x03, 0x50) => Some(Zero)
      case (0x04, 0x00, 0x50) => Some(Star)
      case (0x04, 0x01, 0x50) => Some(Hash)
      case _ => None
  }

  lemma FrameDecodes(k: Key)
    ensures KeyOfFrame(Frame(k)) == Some(k)
  {
  }

  /** No two keys share a frame. */
  lemma FrameInjective(a: Key, b: Key)
    ensures Frame(a) == Frame(b) ==> a == b
  {
    FrameDecodes(a);
    FrameDecodes(b);
  }

  /** The last byte is the low byte of the sum of the first four. */
  predicate ChecksumHolds(f: seq<byte>)
    requires |f| == 5
  {
    f[4] == (f[0] as int + f[1] as int + f[2] as int + f[3] as int) % 256
  }

  /** Every frame but that of key 2 ends in the low byte of the sum of its first four bytes. */
  lemma ChecksumExceptKeyTwo(k: Key)
    ensures ChecksumHolds(Frame(k)) <==> k != Two
  {
  }

  /** The serial object a KeypressCommands is constructed with: the real link or the mock. */
  datatype Transport = Real(serial: SerialCommunication) | Mock(mock: MockSerialCommunication)

  function Objects(t: Transport): set<object>
  {
    match t
    case Real(s) => {s, s.port}
    case Mock(m) => {m}
  }

  /** The ports a send may write to. */
  function WritablePorts(t: Transport): set<SerialPort>
  {
    match t
    case Real(s) => {s.port}
    case Mock(_) => {}
  }

  predicate IsOpen(t: Transport)
    reads Objects(t)
  {
    match t
    case Real(s) => s.port.isOpen
    case Mock(m) => m.isOpen
  }

  /**
   * Whether the transport's sendCommand reports success: the real link when
   * open and the reported byte count is the command's length, the mock when open.
   */
  predicate Delivers(t: Transport, command: seq<byte>, reported: int)
    reads Objects(t)
  {
    match t
    case Real(s) => s.port.isOpen && reported == |command|
    case Mock(m) => m.isOpen
  }

  /** The log line a keypress leaves, by whether its frame was delivered. */
  function KeypressLog(k: Key, delivered: bool): LogLine
  {
    if delivered then Action("Simulate Key Press " + Label(k))
    else Error("Failed to send Key Press " + Label(k))
  }

  class KeypressCommands {
    const transport: Transport
    const useMockSerial: bool
    /** Every command handed to sendCommand, in order. */
    ghost var sent: seq<seq<byte>>
    /** What logAction and errorLog were asked to record. */
    ghost var log: seq<LogLine>

    predicate Valid()
    {
      useMockSerial == transport.Mock?
    }

    /** The construction-time choice: the mock when given one, the real link otherwise. */
    constructor (serialComm: Transport)
      ensures Valid() && transport == serialComm
      ensures useMockSerial <==> serialComm.Mock?
      ensures sent == [] && log == []
    {
      useMockSerial := serialComm.Mock?;
      transport := serialComm;
      sent := [];
      log := [];
    }

    /** Forwards to the chosen transport and returns its result unchanged. */
    method SendCommand(command: seq<byte>, reported: int) returns (ok: bool)
      requires Valid()
      modifies this`sent, WritablePorts(transport)`written
      ensures ok == Delivers(transport, command, reported)
      ensures sent == old(sent) + [command]
      ensures transport.Real? ==>
        transport.serial.port.written == old(transport.serial.port.written) + (if IsOpen(transport) then [command] else [])
    {
      sent := sent + [command];
      if useMockSerial {
        ok := transport.mock.SendCommand(command);
      } else {
        ok := transport.serial.SendCommand(command, reported);
      }
    }

    /**
     * sendKeypress1 ... sendKeypressHash: sends the key's frame and logs
     * "Simulate Key Press K" on success, "Failed to send Key Press K" otherwise.
     */
    method SendKeypress(k: Key, reported: int)
      requires Valid()
      modifies this`sent, this`log, WritablePorts(transport)`written
      ensures sent == old(sent) + [Frame(k)]
      ensures log == old(log) + [KeypressLog(k, Delivers(transport, Frame(k), reported))]
      ensures transport.Real? ==>
        transport.serial.port.written == old(transport.serial.port.written) + (if IsOpen(transport) then [Frame(k)] else [])
    {
      var command := Frame(k);
      var ok := SendCommand(command, reported);
      if ok {
        log := log + [Action("Simulate Key Press " + Label(k))];
      } else {
        log := log + [Error("Failed to send Key Press " + Label(k))];
      }
    }
  }
}

/**
 * Values shared by both serial transports, the keypress dispatcher and the
 * main window: bytes, an optional value, the signals a transport emits and
 * the lines written to a log.
 */
module LinkTypes {

  /** One octet as carried by a QByteArray. */
  type byte = b: int | 0 <= b < 256

  datatype Option<+T> = None | Some(value: T)

  /**
   * A signal emitted by a transport (SerialCommunication or
   * MockSerialCommunication): portStatusChanged(isOpen) or dataReceived(data).
   */
  datatype Event = PortStatusChanged(isOpen: bool) | DataReceived(data: seq<byte>)

  /**
   * What closePort emits: one portStatusChanged(false) when the port was
   * open, nothing when it was already closed.
   */
  function CloseSignals(wasOpen: bool): seq<Event>
  {
    if wasOpen then [PortStatusChanged(false)] else []
  }

  /** A log line: logAction(text) or errorLog(text). */
  datatype LogLine = Action(text: string) | Error(text: string)

  /** Encodes one Unicode scalar value as UTF-8 (QString::toUtf8). */
  function Utf8Char(c: char): (r: seq<byte>)
    ensures 1 <= |r| <= 4
    ensures (c as int < 0x80) <==> r == [c as int]
  {
    var n := c as int;
    if n < 0x80 then [n]
    else if n < 0x800 then [0xC0 + n / 64, 0x80 + n % 64]
    else if n < 0x10000 then [0xE0 + n / 4096, 0x80 + (n / 64) % 64, 0x80 + n % 64]
    else [0xF0 + n / 262144, 0x80 + (n / 4096) % 64, 0x80 + (n / 64) % 64, 0x80 + n % 64]
  }

  /** UTF-8 encoding of a whole string. */
  function Utf8(s: string): seq<byte>
  {
    if s == [] then [] else Utf8Char(s[0]) + Utf8(s[1..])
  }

  predicate IsAscii(s: string)
  {
    forall i :: 0 <= i < |s| ==> s[i] as int < 0x80
  }

  /** An ASCII text encodes to one byte per character, each its code point. */
  lemma {:induction false} Utf8OfAscii(s: string)
    requires IsAscii(s)
    ensures |Utf8(s)| == |s|
    ensures forall i :: 0 <= i < |s| ==> Utf8(s)[i] == s[i] as int
  {
    if s != [] {
      Utf8OfAscii(s[1..]);
    }
  }
}

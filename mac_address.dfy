/**
 * `esptool_read_mac`: the device's MAC bytes as colon-separated pairs of
 * upper-case hex digits, and the `Espflasher` errors of the steps before it.
 * The chip itself is not modelled: what it answers is an input.
 */
module MacAddress {
  import opened Wrappers

  /** One element of the tuple `chip.read_mac()` returns. */
  type Byte = x: int | 0 <= x < 256

  /** What the device answered to detection, connection and the MAC read. */
  datatype ChipReply =
    | DetectFailed(detail: string)   // `ESPLoader.detect_chip` raised `FatalError`
    | ConnectFailed(detail: string)  // `chip.connect()` raised `FatalError`
    | ReadFailed(detail: string)     // `chip.read_mac()` raised `FatalError`
    | SerialClosed(detail: string)   // `chip.read_mac()` raised `SerialException`
    | MacBytes(bytes: seq<Byte>)

  /** The application's own exception, carrying its message. */
  datatype Espflasher = Espflasher(message: string)

  /** The message prefixes of the four failing steps; the underlying error's text follows. */
  const DETECT_FAILED: string := "ESP Chip Auto-Detection failed: "
  const CONNECT_FAILED: string := "Error connecting to ESP: "
  const READ_FAILED: string := "Reading chip details failed: "
  const SERIAL_CLOSED: string := "Serial port closed: "

  predicate IsUpperHex(c: char) {
    '0' <= c <= '9' || 'A' <= c <= 'F'
  }

  /** The upper-case hex digit of a value below 16. */
  function HexDigit(d: int): (c: char)
    requires 0 <= d < 16
    ensures IsUpperHex(c)
  {
    if d < 10 then ('0' as int + d) as char else ('A' as int + d - 10) as char
  }

  /** The value of an upper-case hex digit. */
  function HexValue(c: char): (d: int)
    requires IsUpperHex(c)
    ensures 0 <= d < 16 && HexDigit(d) == c
  {
    if c <= '9' then c as int - '0' as int else c as int - 'A' as int + 10
  }

  /** `'{:02X}'.format(b)`: two upper-case hex digits, high nibble first. */
  function HexPair(b: Byte): (g: string)
    ensures |g| == 2 && IsUpperHex(g[0]) && IsUpperHex(g[1])
    ensures HexValue(g[0]) * 16 + HexValue(g[1]) == b
  {
    [HexDigit(b / 16), HexDigit(b % 16)]
  }

  /** `':'.join('{:02X}'.format(x) for x in bytes)`. */
  function MacText(bytes: seq<Byte>): (s: string)
    ensures |s| == if bytes == [] then 0 else 3 * |bytes| - 1
  {
    if bytes == [] then ""
    else if |bytes| == 1 then HexPair(bytes[0])
    else HexPair(bytes[0]) + ":" + MacText(bytes[1..])
  }

  /**
   * Group `i` of the text sits at offset `3 * i`, is the hex pair of byte `i`,
   * and every group but the last is followed by ':'.
   */
  lemma {:induction false} MacTextGroup(bytes: seq<Byte>, i: nat)
    requires i < |bytes|
    ensures 3 * i + 2 <= |MacText(bytes)|
    ensures MacText(bytes)[3 * i..3 * i + 2] == HexPair(bytes[i])
    ensures i < |bytes| - 1 ==> MacText(bytes)[3 * i + 2] == ':'
  {
    var s := MacText(bytes);
    if |bytes| > 1 {
      var rest := MacText(bytes[1..]);
      assert s == HexPair(bytes[0]) + ":" + rest;
      if i > 0 {
        MacTextGroup(bytes[1..], i - 1);
        assert s[3 * i..3 * i + 2] == rest[3 * (i - 1)..3 * (i - 1) + 2];
        if i < |bytes| - 1 {
          assert s[3 * i + 2] == rest[3 * (i - 1) + 2];
        }
      }
    }
  }

  /** Every character of the text is an upper-case hex digit or ':'. */
  lemma MacTextAlphabet(bytes: seq<Byte>, k: nat)
    requires k < |MacText(bytes)|
    ensures IsUpperHex(MacText(bytes)[k]) || MacText(bytes)[k] == ':'
  {
    var i := k / 3;
    MacTextGroup(bytes, i);
    if k % 3 < 2 {
      assert MacText(bytes)[k] == MacText(bytes)[3 * i..3 * i + 2][k % 3];
    }
  }

  /** The bytes a MAC text denotes, or `None` when it is not such a text. */
  function ParseMac(s: string): Option<seq<Byte>> {
    if s == "" then Some([]) else ParseGroups(s)
  }

  function ParseGroups(s: string): Option<seq<Byte>>
    decreases |s|
  {
    if |s| < 2 || !IsUpperHex(s[0]) || !IsUpperHex(s[1]) then None
    else
      var b := HexValue(s[0]) * 16 + HexValue(s[1]);
      if |s| == 2 then Some([b])
      else if |s| == 3 || s[2] != ':' then None
      else match ParseGroups(s[3..])
        case None => None
        case Some(rest) => Some([b] + rest)
  }

  /** The MAC text determines the bytes: reading it back gives them again. */
  lemma {:induction false} MacTextRoundTrip(bytes: seq<Byte>)
    ensures ParseMac(MacText(bytes)) == Some(bytes)
  {
    if bytes != [] {
      GroupsRoundTrip(bytes);
    }
  }

  lemma {:induction false} GroupsRoundTrip(bytes: seq<Byte>)
    requires bytes != []
    ensures ParseGroups(MacText(bytes)) == Some(bytes)
  {
    var s := MacText(bytes);
    var g := HexPair(bytes[0]);
    if |bytes| == 1 {
      assert s == g;
      assert bytes == [bytes[0]];
    } else {
      var rest := MacText(bytes[1..]);
      assert s == g + ":" + rest;
      assert s[0] == g[0] && s[1] == g[1] && s[2] == ':';
      assert |s| > 3 by { MacTextGroup(bytes[1..], 0); }
      assert s[3..] == rest;
      GroupsRoundTrip(bytes[1..]);
      assert ParseGroups(s) == Some([bytes[0]] + bytes[1..]);
      assert bytes == [bytes[0]] + bytes[1..];
    }
  }

  /** Two devices with different MAC bytes never show the same text. */
  lemma MacTextInjective(a: seq<Byte>, b: seq<Byte>)
    requires MacText(a) == MacText(b)
    ensures a == b
  {
    MacTextRoundTrip(a);
    MacTextRoundTrip(b);
  }

  /** `esptool_read_mac(port)`: the MAC text, or the `Espflasher` error the failing step raises. */
  function ReadMac(reply: ChipReply): (r: Result<string, Espflasher>)
    ensures r.Success? <==> reply.MacBytes?
    ensures r.Success? ==> ParseMac(r.value) == Some(reply.bytes)
    ensures reply.DetectFailed? ==> r == Failure(Espflasher(DETECT_FAILED + reply.detail))
    ensures reply.ConnectFailed? ==> r == Failure(Espflasher(CONNECT_FAILED + reply.detail))
    ensures reply.ReadFailed? ==> r == Failure(Espflasher(READ_FAILED + reply.detail))
    ensures reply.SerialClosed? ==> r == Failure(Espflasher(SERIAL_CLOSED + reply.detail))
  {
    match reply
    case DetectFailed(d) => Failure(Espflasher(DETECT_FAILED + d))
    case ConnectFailed(d) => Failure(Espflasher(CONNECT_FAILED + d))
    case ReadFailed(d) => Failure(Espflasher(READ_FAILED + d))
    case SerialClosed(d) => Failure(Espflasher(SERIAL_CLOSED + d))
    case MacBytes(bytes) =>
      MacTextRoundTrip(bytes);
      Success(MacText(bytes))
  }

  /** A six-byte MAC reads as 17 characters. */
  lemma SixByteMacLength(bytes: seq<Byte>)
    requires |bytes| == 6
    ensures |MacText(bytes)| == 17
  {
  }
}

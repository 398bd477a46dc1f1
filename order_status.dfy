/**
 * `OrderStatus` of the static resources and its Postgres `VARCHAR` codec:
 * each status is written as a fixed lower-case byte string, and reading a
 * column maps those byte strings back, rejecting anything else and NULL.
 */
module OrderStatuses {
  import opened Wrappers

  newtype Byte = x: int | 0 <= x < 256

  datatype OrderStatus = PaimentAwaited | Paid | InProcessing | Cancelled | Sent | Delivered | Received | Complete

  predicate IsAscii(s: string) {
    forall i :: 0 <= i < |s| ==> s[i] < 128 as char
  }

  /** The bytes of an ASCII text. */
  function Ascii(s: string): (b: seq<Byte>)
    requires IsAscii(s)
    ensures |b| == |s|
    ensures forall i :: 0 <= i < |s| ==> b[i] as int == s[i] as int
  {
    seq(|s|, i requires 0 <= i < |s| => s[i] as int as Byte)
  }

  lemma AsciiInjective(s: string, t: string)
    requires IsAscii(s) && IsAscii(t)
    ensures Ascii(s) == Ascii(t) ==> s == t
  {
    if Ascii(s) == Ascii(t) {
      assert forall i :: 0 <= i < |s| ==> s[i] == t[i] by {
        forall i | 0 <= i < |s| ensures s[i] == t[i] {
          assert Ascii(s)[i] == Ascii(t)[i];
        }
      }
    }
  }

  /** The wire text of each status; the serde renames spell the same words. */
  function WireName(st: OrderStatus): (s: string)
    ensures IsAscii(s)
  {
    match st
    case PaimentAwaited => "payment_awaited"
    case Paid => "paid"
    case InProcessing => "in_processing"
    case Cancelled => "cancelled"
    case Sent => "sent"
    case Delivered => "delivered"
    case Received => "received"
    case Complete => "complete"
  }

  /** `ToSql`: the bytes written for a status. */
  function ToSql(st: OrderStatus): (b: seq<Byte>)
    ensures |b| > 0
  {
    Ascii(WireName(st))
  }

  /** A continuation byte, `10xxxxxx`. */
  predicate Cont(x: Byte) {
    0x80 <= x < 0xC0
  }

  /** The first character of `b` and the number of bytes it takes, when `b` starts with a well-formed UTF-8 sequence. */
  function DecodeOne(b: seq<Byte>): (r: Option<(char, nat)>)
    ensures r.Some? ==> 1 <= r.value.1 <= |b| && r.value.1 <= 4
  {
    if |b| == 0 then None
    else
      var b0 := b[0] as int;
      if b0 < 0x80 then Some((b0 as char, 1))
      else if 0xC2 <= b0 <= 0xDF then
        if |b| >= 2 && Cont(b[1]) then
          Some((((b0 - 0xC0) * 64 + (b[1] as int - 0x80)) as char, 2))
        else None
      else if 0xE0 <= b0 <= 0xEF then
        var lo := if b0 == 0xE0 then 0xA0 else 0x80;
        var hi := if b0 == 0xED then 0x9F else 0xBF;
        if |b| >= 3 && lo <= b[1] as int <= hi && Cont(b[2]) then
          Some((((b0 - 0xE0) * 4096 + (b[1] as int - 0x80) * 64 + (b[2] as int - 0x80)) as char, 3))
        else None
      else if 0xF0 <= b0 <= 0xF4 then
        var lo := if b0 == 0xF0 then 0x90 else 0x80;
        var hi := if b0 == 0xF4 then 0x8F else 0xBF;
        if |b| >= 4 && lo <= b[1] as int <= hi && Cont(b[2]) && Cont(b[3]) then
          Some((((b0 - 0xF0) * 262144 + (b[1] as int - 0x80) * 4096 + (b[2] as int - 0x80) * 64 + (b[3] as int - 0x80)) as char, 4))
        else None
      else None
  }

  /** `str::from_utf8`: the text `b` encodes, or None when `b` is not well-formed UTF-8. */
  function DecodeUtf8(b: seq<Byte>): Option<string>
    decreases |b|
  {
    if b == [] then Some("")
    else
      match DecodeOne(b)
      case None => None
      case Some((c, n)) =>
        match DecodeUtf8(b[n..])
        case None => None
        case Some(t) => Some([c] + t)
  }

  /** The UTF-8 bytes of one character: one byte below 0x80, up to four above. */
  function EncodeChar(c: char): (b: seq<Byte>)
    ensures 1 <= |b| <= 4
  {
    var v := c as int;
    if v < 0x80 then [v as Byte]
    else if v < 0x800 then [(0xC0 + v / 64) as Byte, (0x80 + v % 64) as Byte]
    else if v < 0x1_0000 then [(0xE0 + v / 64 / 64) as Byte, (0x80 + v / 64 % 64) as Byte, (0x80 + v % 64) as Byte]
    else [(0xF0 + v / 64 / 64 / 64) as Byte, (0x80 + v / 64 / 64 % 64) as Byte, (0x80 + v / 64 % 64) as Byte, (0x80 + v % 64) as Byte]
  }

  /** Decoding the bytes of a character, whatever follows them, gives the character and their count. */
  lemma DecodeOneEncodeChar(c: char, rest: seq<Byte>)
    ensures DecodeOne(EncodeChar(c) + rest) == Some((c, |EncodeChar(c)|))
  {
    var v := c as int;
    if v < 0x80 {
    } else if v < 0x800 {
      DecodeTwo(c, rest);
    } else if v < 0x1_0000 {
      DecodeThree(c, rest);
    } else {
      DecodeFour(c, rest);
    }
  }

  /** Two bytes: five and six bits of the code point. */
  lemma DecodeTwo(c: char, rest: seq<Byte>)
    requires 0x80 <= c as int < 0x800
    ensures DecodeOne(EncodeChar(c) + rest) == Some((c, 2))
  {
    var v := c as int;
    var b := EncodeChar(c) + rest;
    assert b[0] as int == 0xC0 + v / 64 && b[1] as int == 0x80 + v % 64;
    assert (v / 64) * 64 + v % 64 == v;
  }

  /** Three bytes: the lead byte excludes overlong forms and surrogates, as a scalar value never needs them. */
  lemma DecodeThree(c: char, rest: seq<Byte>)
    requires 0x800 <= c as int < 0x1_0000
    ensures DecodeOne(EncodeChar(c) + rest) == Some((c, 3))
  {
    var v := c as int;
    var b := EncodeChar(c) + rest;
    var q1 := v / 64;
    var q2 := q1 / 64;
    assert v == q1 * 64 + v % 64 && q1 == q2 * 64 + q1 % 64;
    assert b[0] as int == 0xE0 + q2 && b[1] as int == 0x80 + q1 % 64 && b[2] as int == 0x80 + v % 64;
  }

  /** Four bytes: planes 1 to 16. */
  lemma DecodeFour(c: char, rest: seq<Byte>)
    requires 0x1_0000 <= c as int
    ensures DecodeOne(EncodeChar(c) + rest) == Some((c, 4))
  {
    var v := c as int;
    var b := EncodeChar(c) + rest;
    var q1 := v / 64;
    var q2 := q1 / 64;
    var q3 := q2 / 64;
    assert v == q1 * 64 + v % 64 && q1 == q2 * 64 + q1 % 64 && q2 == q3 * 64 + q2 % 64;
    assert q3 * 262144 + (q2 % 64) * 4096 + (q1 % 64) * 64 + v % 64 == v;
    assert b[0] as int == 0xF0 + q3 && b[1] as int == 0x80 + q2 % 64 && b[2] as int == 0x80 + q1 % 64 && b[3] as int == 0x80 + v % 64;
  }

  /** Decoding reads a character from exactly the bytes that encode it. */
  lemma EncodeCharDecodeOne(b: seq<Byte>)
    requires DecodeOne(b).Some?
    ensures EncodeChar(DecodeOne(b).value.0) == b[..DecodeOne(b).value.1]
  {
    var b0 := b[0] as int;
    if b0 < 0x80 {
    } else if b0 <= 0xDF {
      var v := (b0 - 0xC0) * 64 + (b[1] as int - 0x80);
      assert v / 64 == b0 - 0xC0 && v % 64 == b[1] as int - 0x80;
    } else if b0 <= 0xEF {
      EncodeThree(b);
    } else {
      EncodeFour(b);
    }
  }

  /** The three bytes read are the three bytes written. */
  lemma EncodeThree(b: seq<Byte>)
    requires DecodeOne(b).Some? && 0xE0 <= b[0] <= 0xEF
    ensures EncodeChar(DecodeOne(b).value.0) == b[..3]
  {
    var d0, d1, d2 := b[0] as int - 0xE0, b[1] as int - 0x80, b[2] as int - 0x80;
    var v := d0 * 4096 + d1 * 64 + d2;
    assert v / 64 == d0 * 64 + d1 && v % 64 == d2;
    assert v / 64 / 64 == d0 && v / 64 % 64 == d1;
  }

  /** The four bytes read are the four bytes written. */
  lemma EncodeFour(b: seq<Byte>)
    requires DecodeOne(b).Some? && 0xF0 <= b[0]
    ensures EncodeChar(DecodeOne(b).value.0) == b[..4]
  {
    var d0, d1, d2, d3 := b[0] as int - 0xF0, b[1] as int - 0x80, b[2] as int - 0x80, b[3] as int - 0x80;
    var v := d0 * 262144 + d1 * 4096 + d2 * 64 + d3;
    assert v / 64 == d0 * 4096 + d1 * 64 + d2 && v % 64 == d3;
    assert v / 64 / 64 == d0 * 64 + d1 && v / 64 % 64 == d2;
    assert v / 64 / 64 / 64 == d0 && v / 64 / 64 % 64 == d1;
  }

  /** The UTF-8 bytes of a text, character by character. */
  function EncodeUtf8(s: string): (b: seq<Byte>)
    ensures |b| >= |s|
  {
    if s == [] then [] else EncodeChar(s[0]) + EncodeUtf8(s[1..])
  }

  /** Every text decodes back from its UTF-8 bytes. */
  lemma {:induction false} DecodeEncode(s: string)
    ensures DecodeUtf8(EncodeUtf8(s)) == Some(s)
  {
    if s != [] {
      var b := EncodeUtf8(s);
      var e := EncodeChar(s[0]);
      DecodeOneEncodeChar(s[0], EncodeUtf8(s[1..]));
      assert b[|e|..] == EncodeUtf8(s[1..]);
      DecodeEncode(s[1..]);
      assert [s[0]] + s[1..] == s;
    }
  }

  /** Only the UTF-8 bytes of a text decode, and they decode to that text. */
  lemma {:induction false} EncodeDecode(b: seq<Byte>, s: string)
    requires DecodeUtf8(b) == Some(s)
    ensures EncodeUtf8(s) == b
    decreases |b|
  {
    if b != [] {
      DecodeStep(b, s);
      var n := DecodeOne(b).value.1;
      var head, tail := b[..n], b[n..];
      assert EncodeChar(s[0]) == head by {
        EncodeCharDecodeOne(b);
      }
      assert EncodeUtf8(s[1..]) == tail by {
        EncodeDecode(tail, s[1..]);
      }
      assert b == head + tail;
    }
  }

  /** A non-empty decoded text is its first character followed by what the remaining bytes decode to. */
  lemma DecodeStep(b: seq<Byte>, s: string)
    requires b != [] && DecodeUtf8(b) == Some(s)
    ensures DecodeOne(b).Some? && s != [] && s[0] == DecodeOne(b).value.0
    ensures DecodeUtf8(b[DecodeOne(b).value.1..]) == Some(s[1..])
  {
    var n := DecodeOne(b).value.1;
    var t := DecodeUtf8(b[n..]).value;
    assert s == [DecodeOne(b).value.0] + t;
    assert s[1..] == t;
  }

  /** `str::from_utf8(value).unwrap_or("unreadable value")`: the text the bytes encode, or the fixed fallback. */
  function ShowBytes(b: seq<Byte>): string
  {
    match DecodeUtf8(b)
    case Some(t) => t
    case None => "unreadable value"
  }

  /** Well-formed bytes are shown as the text they encode. */
  lemma ShowBytesEncoded(s: string)
    ensures ShowBytes(EncodeUtf8(s)) == s
  {
    DecodeEncode(s);
  }

  /** Bytes that encode no text are shown as `unreadable value`. */
  lemma ShowBytesMalformed(b: seq<Byte>)
    requires forall s :: EncodeUtf8(s) != b
    ensures ShowBytes(b) == "unreadable value"
  {
    if DecodeUtf8(b).Some? {
      EncodeDecode(b, DecodeUtf8(b).value);
    }
  }

  /** A two-byte sequence: `C3 A9` is shown as the letter it encodes. */
  lemma ShowBytesTwoByteExample()
    ensures ShowBytes([0xC3, 0xA9]) == "\U{E9}"
  {
    assert DecodeUtf8([0xC3, 0xA9][2..]) == Some("");
  }

  /** A lone continuation byte is not UTF-8. */
  lemma ShowBytesLoneContinuation()
    ensures ShowBytes([0xA9]) == "unreadable value"
  {
  }

  /** The ASCII bytes of a text are its UTF-8 bytes. */
  lemma {:induction false} AsciiIsUtf8(s: string)
    requires IsAscii(s)
    ensures Ascii(s) == EncodeUtf8(s)
  {
    if s != [] {
      AsciiIsUtf8(s[1..]);
      assert Ascii(s) == Ascii(s[..1]) + Ascii(s[1..]);
    }
  }

  /** The status whose wire bytes `b` are, as the byte-string arms of `build_from_row` match them. */
  function StatusOfBytes(b: seq<Byte>): Option<OrderStatus>
  {
    if b == Ascii("payment_awaited") then Some(PaimentAwaited)
    else if b == Ascii("paid") then Some(Paid)
    else if b == Ascii("in_processing") then Some(InProcessing)
    else if b == Ascii("cancelled") then Some(Cancelled)
    else if b == Ascii("sent") then Some(Sent)
    else if b == Ascii("delivered") then Some(Delivered)
    else if b == Ascii("received") then Some(Received)
    else if b == Ascii("complete") then Some(Complete)
    else None
  }

  /** `build_from_row`: the column's bytes read back as a status; other bytes and NULL are errors. */
  function BuildFromRow(cell: Option<seq<Byte>>): Result<OrderStatus, string>
  {
    match cell
    case None => Err("Unexpected null for non-null column `state`")
    case Some(b) =>
      match StatusOfBytes(b)
      case Some(st) => Ok(st)
      case None => Err("Unrecognized enum variant for OrderStatus: " + ShowBytes(b))
  }

  /** Reading back what `ToSql` wrote gives the same status. */
  lemma BuildFromRowToSql(st: OrderStatus)
    ensures BuildFromRow(Some(ToSql(st))) == Ok(st)
  {
    var b := ToSql(st);
    AsciiInjective(WireName(st), "payment_awaited");
    AsciiInjective(WireName(st), "paid");
    AsciiInjective(WireName(st), "in_processing");
    AsciiInjective(WireName(st), "cancelled");
    AsciiInjective(WireName(st), "sent");
    AsciiInjective(WireName(st), "delivered");
    AsciiInjective(WireName(st), "received");
    AsciiInjective(WireName(st), "complete");
  }

  /** Only the eight wire texts are accepted: an accepted cell holds exactly the status's bytes. */
  lemma BuildFromRowSound(cell: Option<seq<Byte>>, st: OrderStatus)
    ensures BuildFromRow(cell) == Ok(st) ==> cell == Some(ToSql(st))
  {
  }

  lemma NullRejected()
    ensures BuildFromRow(None) == Err("Unexpected null for non-null column `state`")
  {
  }

  /** Bytes that are no status's wire text are reported as an unrecognized variant. */
  lemma UnknownBytesRejected(b: seq<Byte>)
    requires forall st: OrderStatus :: ToSql(st) != b
    ensures BuildFromRow(Some(b)) == Err("Unrecognized enum variant for OrderStatus: " + ShowBytes(b))
  {
    NoStatusOfBytes(b);
  }

  /** Bytes that are no status's wire text match no arm. */
  lemma NoStatusOfBytes(b: seq<Byte>)
    requires forall st: OrderStatus :: ToSql(st) != b
    ensures StatusOfBytes(b) == None
  {
    assert ToSql(PaimentAwaited) != b && ToSql(Paid) != b && ToSql(InProcessing) != b && ToSql(Cancelled) != b;
    assert ToSql(Sent) != b && ToSql(Delivered) != b && ToSql(Received) != b && ToSql(Complete) != b;
  }

  /** The serde rename of each variant. */
  function SerdeName(st: OrderStatus): string
  {
    match st
    case PaimentAwaited => "payment_awaited"
    case Paid => "paid"
    case InProcessing => "in_processing"
    case Cancelled => "cancelled"
    case Sent => "sent"
    case Delivered => "delivered"
    case Received => "received"
    case Complete => "complete"
  }

  /** JSON and SQL spell every status the same way. */
  lemma SerdeNameIsWireName(st: OrderStatus)
    ensures SerdeName(st) == WireName(st)
  {
  }

  function Position(st: OrderStatus): (i: nat)
    ensures i < 8
  {
    match st
    case PaimentAwaited => 0
    case Paid => 1
    case InProcessing => 2
    case Cancelled => 3
    case Sent => 4
    case Delivered => 5
    case Received => 6
    case Complete => 7
  }

  /** `as_vec`: every status once, in declaration order. */
  function AsVec(): (v: seq<OrderStatus>)
    ensures |v| == 8
    ensures forall st: OrderStatus :: v[Position(st)] == st
    ensures forall i, j :: 0 <= i < j < |v| ==> v[i] != v[j]
  {
    [PaimentAwaited, Paid, InProcessing, Cancelled, Sent, Delivered, Received, Complete]
  }
}

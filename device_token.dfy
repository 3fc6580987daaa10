/** The device-token encoder of the iOS client: the push-notification token
    (a byte buffer) becomes a string by folding `String(format: "%02X", byte)`
    over the bytes, starting from the empty string. */
module DeviceToken {
  import opened Wrappers

  newtype Byte = b: int | 0 <= b < 256

  /** An upper-case hexadecimal digit, the alphabet of `%X`. */
  predicate IsHexDigit(c: char) {
    '0' <= c <= '9' || 'A' <= c <= 'F'
  }

  /** The digit `%X` prints for a value below sixteen. */
  function Digit(n: nat): (c: char)
    requires n < 16
    ensures IsHexDigit(c)
  {
    if n < 10 then ('0' as int + n) as char else ('A' as int + n - 10) as char
  }

  /** The value of a hexadecimal digit, or None for any other character. */
  function DigitValue(c: char): (r: Option<nat>)
    ensures r.Some? <==> IsHexDigit(c)
    ensures r.Some? ==> r.value < 16 && Digit(r.value) == c
  {
    if '0' <= c <= '9' then Some(c as int - '0' as int)
    else if 'A' <= c <= 'F' then Some(c as int - 'A' as int + 10)
    else None
  }

  /** `String(format: "%02X", b)`: a field two characters wide, zero-padded. */
  function Format02X(b: Byte): (s: string)
    ensures |s| == 2 && IsHexDigit(s[0]) && IsHexDigit(s[1])
  {
    [Digit(b as int / 16), Digit(b as int % 16)]
  }

  /** `reduce(acc, { $0 + String(format: "%02X", $1) })`: a left fold. */
  function Reduce(acc: string, bytes: seq<Byte>): (r: string)
    ensures |r| == |acc| + 2 * |bytes|
    ensures r[..|acc|] == acc
    decreases |bytes|
  {
    if bytes == [] then acc else Reduce(acc + Format02X(bytes[0]), bytes[1..])
  }

  /** The string stored for a device token: the fold seeded with "". */
  function Encode(deviceToken: seq<Byte>): (r: string)
    ensures |r| == 2 * |deviceToken|
    ensures deviceToken == [] ==> r == ""
  {
    Reduce("", deviceToken)
  }

  /** Inverse of Encode: pairs of hex digits back to bytes. */
  function Decode(s: string): (r: Option<seq<Byte>>)
    decreases |s|
  {
    if s == [] then Some([])
    else if |s| == 1 then None
    else
      match (DigitValue(s[0]), DigitValue(s[1]), Decode(s[2..]))
      case (Some(hi), Some(lo), Some(rest)) => Some([(hi * 16 + lo) as Byte] + rest)
      case _ => None
  }

  /** The seed of the fold only ever stays in front of the output. */
  lemma {:induction false} ReduceFrom(acc: string, bytes: seq<Byte>)
    ensures Reduce(acc, bytes) == acc + Encode(bytes)
    decreases |bytes|
  {
    if bytes == [] {
      assert acc + Encode(bytes) == acc + "";
    } else {
      var head := Format02X(bytes[0]);
      calc {
        Reduce(acc, bytes);
        Reduce(acc + head, bytes[1..]);
        { ReduceFrom(acc + head, bytes[1..]); }
        (acc + head) + Encode(bytes[1..]);
        acc + (head + Encode(bytes[1..]));
        { ReduceFrom(head, bytes[1..]); }
        acc + Reduce(head, bytes[1..]);
        { assert Reduce("", bytes) == Reduce("" + head, bytes[1..]) && "" + head == head; }
        acc + Encode(bytes);
      }
    }
  }

  /** Each byte contributes its two digits in front of the rest. */
  lemma EncodeCons(b: Byte, rest: seq<Byte>)
    ensures Encode([b] + rest) == Format02X(b) + Encode(rest)
  {
    var bytes := [b] + rest;
    assert bytes[0] == b && bytes[1..] == rest;
    assert "" + Format02X(b) == Format02X(b);
    ReduceFrom(Format02X(b), rest);
  }

  /** Encoding a concatenation concatenates the encodings. */
  lemma {:induction false} EncodeAppend(xs: seq<Byte>, ys: seq<Byte>)
    ensures Encode(xs + ys) == Encode(xs) + Encode(ys)
    decreases |xs|
  {
    if xs == [] {
      assert xs + ys == ys;
    } else {
      assert xs + ys == [xs[0]] + (xs[1..] + ys);
      assert xs == [xs[0]] + xs[1..];
      EncodeCons(xs[0], xs[1..] + ys);
      EncodeAppend(xs[1..], ys);
      EncodeCons(xs[0], xs[1..]);
    }
  }

  /** Byte i is written at positions 2i and 2i+1: the digit of its high
      nibble, then the digit of its low nibble (so a byte below 16 gets a
      leading '0'). */
  lemma {:induction false} EncodeAt(bytes: seq<Byte>, i: nat)
    requires i < |bytes|
    ensures |Encode(bytes)| == 2 * |bytes|
    ensures Encode(bytes)[2 * i] == Digit(bytes[i] as int / 16)
    ensures Encode(bytes)[2 * i + 1] == Digit(bytes[i] as int % 16)
    decreases |bytes|
  {
    assert bytes == [bytes[0]] + bytes[1..];
    EncodeCons(bytes[0], bytes[1..]);
    if i > 0 {
      EncodeAt(bytes[1..], i - 1);
    }
  }

  /** Every output character is an upper-case hexadecimal digit. */
  lemma EncodeAlphabet(bytes: seq<Byte>)
    ensures forall k :: 0 <= k < |Encode(bytes)| ==> IsHexDigit(Encode(bytes)[k])
  {
    forall k | 0 <= k < |Encode(bytes)|
      ensures IsHexDigit(Encode(bytes)[k])
    {
      EncodeAt(bytes, k / 2);
    }
  }

  /** Decoding the encoding gives back the token. */
  lemma {:induction false} DecodeEncode(bytes: seq<Byte>)
    ensures Decode(Encode(bytes)) == Some(bytes)
    decreases |bytes|
  {
    if bytes != [] {
      var b := bytes[0];
      assert bytes == [b] + bytes[1..];
      EncodeCons(b, bytes[1..]);
      var s := Encode(bytes);
      assert s[2..] == Encode(bytes[1..]);
      DecodeEncode(bytes[1..]);
      assert DigitValue(s[0]) == Some(b as int / 16);
      assert DigitValue(s[1]) == Some(b as int % 16);
    }
  }

  /** Distinct tokens give distinct strings. */
  lemma EncodeInjective(xs: seq<Byte>, ys: seq<Byte>)
    requires Encode(xs) == Encode(ys)
    ensures xs == ys
  {
    DecodeEncode(xs);
    DecodeEncode(ys);
  }
}

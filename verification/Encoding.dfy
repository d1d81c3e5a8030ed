/** Base16 and base64 (RFC 4648, sections 8 and 4) as Go's standard library
    writes and reads them. */
module Encoding {
  import opened Wrappers

  type byte = x: int | 0 <= x < 256

  // ------------------------------------------------ base16

  function HexDigit(n: int): char
    requires 0 <= n < 16
  {
    "0123456789abcdef"[n]
  }

  /** Reading accepts upper case as well. */
  function HexVal(c: char): Option<int> {
    if '0' <= c <= '9' then Some(c as int - '0' as int)
    else if 'a' <= c <= 'f' then Some(c as int - 'a' as int + 10)
    else if 'A' <= c <= 'F' then Some(c as int - 'A' as int + 10)
    else None
  }

  function HexEncode(b: seq<byte>): string {
    if b == [] then "" else [HexDigit(b[0] / 16), HexDigit(b[0] % 16)] + HexEncode(b[1..])
  }

  function HexDecode(s: string): Option<seq<byte>> {
    if s == "" then Some([])
    else if |s| == 1 then None
    else
      match (HexVal(s[0]), HexVal(s[1]), HexDecode(s[2..]))
      case (Some(h), Some(l), Some(rest)) => Some([16 * h + l] + rest)
      case _ => None
  }

  function LowerHex(c: char): char {
    if 'A' <= c <= 'F' then (c as int + 32) as char else c
  }

  function Lower(s: string): string {
    seq(|s|, i requires 0 <= i < |s| => LowerHex(s[i]))
  }

  lemma HexDigitVal(n: int, c: char)
    requires 0 <= n < 16
    ensures HexVal(c) == Some(n) <==> LowerHex(c) == HexDigit(n)
  {
  }

  lemma LowerTail(s: string)
    requires |s| >= 2
    ensures Lower(s) == [LowerHex(s[0]), LowerHex(s[1])] + Lower(s[2..])
  {
  }

  lemma HexDecodeCons(s: string, b: seq<byte>)
    requires |s| >= 2 && b != []
    ensures HexDecode(s) == Some(b) <==>
      HexVal(s[0]) == Some(b[0] / 16) && HexVal(s[1]) == Some(b[0] % 16) && HexDecode(s[2..]) == Some(b[1..])
  {
    assert b == [b[0]] + b[1..];
    match (HexVal(s[0]), HexVal(s[1]), HexDecode(s[2..])) {
      case (Some(h), Some(l), Some(rest)) =>
        assert 0 <= h < 16 && 0 <= l < 16;
        assert ([16 * h + l] + rest)[1..] == rest;
      case _ =>
    }
  }

  lemma HexEncodeCons(s: string, b: seq<byte>)
    requires |s| >= 2 && b != []
    ensures Lower(s) == HexEncode(b) <==>
      && LowerHex(s[0]) == HexDigit(b[0] / 16) && LowerHex(s[1]) == HexDigit(b[0] % 16)
      && Lower(s[2..]) == HexEncode(b[1..])
  {
    LowerTail(s);
    var x, y := [LowerHex(s[0]), LowerHex(s[1])], [HexDigit(b[0] / 16), HexDigit(b[0] % 16)];
    SameFront(x, Lower(s[2..]), y, HexEncode(b[1..]));
  }

  lemma SameFront(x: string, xs: string, y: string, ys: string)
    requires |x| == |y| == 2
    ensures x + xs == y + ys <==> x[0] == y[0] && x[1] == y[1] && xs == ys
  {
    if x + xs == y + ys {
      assert (x + xs)[0] == (y + ys)[0] && (x + xs)[1] == (y + ys)[1];
      assert xs == (x + xs)[2..] && ys == (y + ys)[2..];
    }
  }

  /** Reading yields b from exactly the texts that, in lower case, are what
      writing b yields. */
  lemma {:induction false} HexDecodeIff(s: string, b: seq<byte>)
    ensures HexDecode(s) == Some(b) <==> Lower(s) == HexEncode(b)
    decreases |s|
  {
    if |s| >= 2 && b != [] {
      HexDecodeCons(s, b);
      HexEncodeCons(s, b);
      HexDecodeIff(s[2..], b[1..]);
      HexDigitVal(b[0] / 16, s[0]);
      HexDigitVal(b[0] % 16, s[1]);
    }
  }

  /** What is written is in lower case and free of anything but digits. */
  lemma {:induction false} HexEncodeChars(b: seq<byte>)
    ensures |HexEncode(b)| == 2 * |b|
    ensures forall k :: 0 <= k < |HexEncode(b)| ==> HexVal(HexEncode(b)[k]).Some? && LowerHex(HexEncode(b)[k]) == HexEncode(b)[k]
  {
    if b != [] {
      HexEncodeChars(b[1..]);
    }
  }

  lemma HexRoundTrip(b: seq<byte>)
    ensures HexDecode(HexEncode(b)) == Some(b)
  {
    HexEncodeChars(b);
    assert Lower(HexEncode(b)) == HexEncode(b);
    HexDecodeIff(HexEncode(b), b);
  }

  // ------------------------------------------------ base64

  function B64Char(n: int): char
    requires 0 <= n < 64
  {
    if n < 26 then ('A' as int + n) as char
    else if n < 52 then ('a' as int + n - 26) as char
    else if n < 62 then ('0' as int + n - 52) as char
    else if n == 62 then '+' else '/'
  }

  function B64Val(c: char): Option<int> {
    if 'A' <= c <= 'Z' then Some(c as int - 'A' as int)
    else if 'a' <= c <= 'z' then Some(c as int - 'a' as int + 26)
    else if '0' <= c <= '9' then Some(c as int - '0' as int + 52)
    else if c == '+' then Some(62)
    else if c == '/' then Some(63)
    else None
  }

  lemma B64CharVal(n: int)
    requires 0 <= n < 64
    ensures B64Val(B64Char(n)) == Some(n) && B64Char(n) != '='
  {
  }

  /** Twenty-four bits as four characters; the missing bytes of a short group
      count as zero. */
  function Quantum(a: byte, b: byte, c: byte): string {
    [B64Char(a / 4), B64Char(a % 4 * 16 + b / 16), B64Char(b % 16 * 4 + c / 64), B64Char(c % 64)]
  }

  function B64Encode(b: seq<byte>): string {
    if b == [] then ""
    else if |b| == 1 then Quantum(b[0], 0, 0)[..2] + "=="
    else if |b| == 2 then Quantum(b[0], b[1], 0)[..3] + "="
    else Quantum(b[0], b[1], b[2]) + B64Encode(b[3..])
  }

  /** The three bytes of four sextets. */
  function Bytes(p: int, q: int, r: int, s: int): seq<byte>
    requires 0 <= p < 64 && 0 <= q < 64 && 0 <= r < 64 && 0 <= s < 64
  {
    [p * 4 + q / 16, q % 16 * 16 + r / 4, r % 4 * 64 + s]
  }

  function IsNewline(c: char): bool { c == '\n' || c == '\r' }

  function StripNewlines(s: string): string {
    if s == "" then "" else (if IsNewline(s[0]) then "" else [s[0]]) + StripNewlines(s[1..])
  }

  /** Padding may only end the text; the unused bits before it are not looked at. */
  function DecodeQuanta(s: string): Option<seq<byte>> {
    if s == "" then Some([])
    else if |s| < 4 then None
    else
      match (B64Val(s[0]), B64Val(s[1]))
      case (Some(p), Some(q)) =>
        if s[2] == '=' then
          if s[3] == '=' && |s| == 4 then Some(Bytes(p, q, 0, 0)[..1]) else None
        else if B64Val(s[2]).None? then None
        else if s[3] == '=' then
          if |s| == 4 then Some(Bytes(p, q, B64Val(s[2]).value, 0)[..2]) else None
        else if B64Val(s[3]).None? then None
        else (
          match DecodeQuanta(s[4..])
          case None => None
          case Some(rest) => Some(Bytes(p, q, B64Val(s[2]).value, B64Val(s[3]).value) + rest)
        )
      case _ => None
  }

  /** Go's decoder skips line breaks wherever they stand. */
  function B64Decode(s: string): Option<seq<byte>> { DecodeQuanta(StripNewlines(s)) }

  lemma Unpack16(x: int, y: int)
    requires 0 <= y < 16
    ensures (x * 16 + y) / 16 == x && (x * 16 + y) % 16 == y
  {
  }

  lemma Unpack4(x: int, y: int)
    requires 0 <= y < 4
    ensures (x * 4 + y) / 4 == x && (x * 4 + y) % 4 == y
  {
  }

  lemma QuantumBytes(a: byte, b: byte, c: byte)
    ensures Bytes(a / 4, a % 4 * 16 + b / 16, b % 16 * 4 + c / 64, c % 64) == [a, b, c]
    ensures Bytes(a / 4, a % 4 * 16, 0, 0)[..1] == [a]
    ensures Bytes(a / 4, a % 4 * 16 + b / 16, b % 16 * 4, 0)[..2] == [a, b]
  {
    Unpack16(a % 4, b / 16);
    Unpack16(a % 4, 0);
    Unpack4(b % 16, c / 64);
    Unpack4(b % 16, 0);
    assert a == a / 4 * 4 + a % 4 && b == b / 16 * 16 + b % 16 && c == c / 64 * 64 + c % 64;
  }

  predicate Plain(c: char) { B64Val(c).Some? || c == '=' }

  /** What is written holds no colon and no line break. */
  lemma {:induction false} B64EncodeChars(b: seq<byte>)
    ensures forall k :: 0 <= k < |B64Encode(b)| ==> Plain(B64Encode(b)[k])
  {
    if |b| >= 3 {
      B64EncodeChars(b[3..]);
    }
  }

  lemma {:induction false} StripNothing(s: string)
    requires forall k :: 0 <= k < |s| ==> Plain(s[k])
    ensures StripNewlines(s) == s
  {
    if s != "" {
      StripNothing(s[1..]);
    }
  }

  lemma QuantumVals(a: byte, b: byte, c: byte)
    ensures var q := Quantum(a, b, c);
      && |q| == 4 && q[2] != '=' && q[3] != '='
      && B64Val(q[0]) == Some(a / 4) && B64Val(q[1]) == Some(a % 4 * 16 + b / 16)
      && B64Val(q[2]) == Some(b % 16 * 4 + c / 64) && B64Val(q[3]) == Some(c % 64)
  {
    B64CharVal(a / 4);
    B64CharVal(a % 4 * 16 + b / 16);
    B64CharVal(b % 16 * 4 + c / 64);
    B64CharVal(c % 64);
  }

  /** Four characters that are no padding, and what follows them. */
  lemma DecodeFour(q: string, rest: string)
    requires |q| == 4 && q[2] != '=' && q[3] != '='
    requires forall k :: 0 <= k < 4 ==> B64Val(q[k]).Some?
    ensures DecodeQuanta(q + rest) ==
      match DecodeQuanta(rest)
      case None => None
      case Some(bs) =>
        Some(Bytes(B64Val(q[0]).value, B64Val(q[1]).value, B64Val(q[2]).value, B64Val(q[3]).value) + bs)
  {
    var s := q + rest;
    assert s[..4] == q && s[4..] == rest;
    assert forall k :: 0 <= k < 4 ==> s[k] == q[k];
  }

  /** The last group, of one or two bytes. */
  lemma DecodeLast(a: byte, b: byte)
    ensures DecodeQuanta(Quantum(a, 0, 0)[..2] + "==") == Some([a])
    ensures DecodeQuanta(Quantum(a, b, 0)[..3] + "=") == Some([a, b])
  {
    QuantumVals(a, 0, 0);
    QuantumVals(a, b, 0);
    QuantumBytes(a, b, 0);
    DecodeOne(Quantum(a, 0, 0));
    DecodeTwo(Quantum(a, b, 0));
  }

  lemma DecodeOne(q: string)
    requires |q| == 4 && B64Val(q[0]).Some? && B64Val(q[1]).Some?
    ensures DecodeQuanta(q[..2] + "==") == Some(Bytes(B64Val(q[0]).value, B64Val(q[1]).value, 0, 0)[..1])
  {
  }

  lemma DecodeTwo(q: string)
    requires |q| == 4 && B64Val(q[0]).Some? && B64Val(q[1]).Some? && B64Val(q[2]).Some? && q[2] != '='
    ensures DecodeQuanta(q[..3] + "=")
         == Some(Bytes(B64Val(q[0]).value, B64Val(q[1]).value, B64Val(q[2]).value, 0)[..2])
  {
  }

  lemma {:induction false} QuantaRoundTrip(b: seq<byte>)
    ensures DecodeQuanta(B64Encode(b)) == Some(b)
  {
    if |b| == 1 {
      DecodeLast(b[0], 0);
      assert b == [b[0]];
    } else if |b| == 2 {
      DecodeLast(b[0], b[1]);
      assert b == [b[0], b[1]];
    } else if |b| >= 3 {
      QuantaRoundTrip(b[3..]);
      DecodeNext(b[0], b[1], b[2], B64Encode(b[3..]), b[3..]);
      assert b == [b[0], b[1], b[2]] + b[3..];
    }
  }

  /** A whole group, and what follows it. */
  lemma DecodeNext(a: byte, b: byte, c: byte, text: string, rest: seq<byte>)
    requires DecodeQuanta(text) == Some(rest)
    ensures DecodeQuanta(Quantum(a, b, c) + text) == Some([a, b, c] + rest)
  {
    QuantumVals(a, b, c);
    QuantumBytes(a, b, c);
    DecodeFour(Quantum(a, b, c), text);
  }

  lemma B64RoundTrip(b: seq<byte>)
    ensures B64Decode(B64Encode(b)) == Some(b)
  {
    B64EncodeChars(b);
    StripNothing(B64Encode(b));
    QuantaRoundTrip(b);
  }

  // ------------------------------------------------ what is read

  lemma {:induction false} StripAppend(a: string, b: string)
    ensures StripNewlines(a + b) == StripNewlines(a) + StripNewlines(b)
    decreases a
  {
    if a == "" {
      assert a + b == b;
    } else {
      assert (a + b)[0] == a[0] && (a + b)[1..] == a[1..] + b;
      StripAppend(a[1..], b);
    }
  }

  /** Line breaks do not matter, wherever they stand. */
  lemma B64SkipsNewlines(a: string, b: string)
    ensures B64Decode(a + "\n" + b) == B64Decode(a + b) == B64Decode(a + "\r" + b)
  {
    StripAppend(a + "\n", b);
    StripAppend(a, "\n");
    StripAppend(a + "\r", b);
    StripAppend(a, "\r");
    StripAppend(a, b);
    assert StripNewlines("\n") == "" && StripNewlines("\r") == "";
    assert StripNewlines(a) + "" == StripNewlines(a);
  }

  /** What is read has the length and the padding of what would be written: groups of
      four, padding only where the last group is short of bytes. */
  lemma {:induction false} DecodeShape(s: string)
    requires DecodeQuanta(s).Some?
    ensures var n := |DecodeQuanta(s).value|;
      && |s| == (n + 2) / 3 * 4
      && forall k :: 0 <= k < |s| ==> if k < (n * 4 + 2) / 3 then B64Val(s[k]).Some? else s[k] == '='
    decreases |s|
  {
    if s != "" && s[2] != '=' && s[3] != '=' {
      var rest := DecodeQuanta(s[4..]);
      DecodeShape(s[4..]);
      Groups(|rest.value|);
      assert |DecodeQuanta(s).value| == |rest.value| + 3;
      forall k | 4 <= k < |s|
        ensures if k - 4 < (|rest.value| * 4 + 2) / 3 then B64Val(s[k]).Some? else s[k] == '=' {
        assert s[k] == s[4..][k - 4];
      }
    }
  }

  lemma Groups(n: nat)
    ensures (n + 3 + 2) / 3 * 4 == (n + 2) / 3 * 4 + 4 && ((n + 3) * 4 + 2) / 3 == (n * 4 + 2) / 3 + 4
  {
  }

  // ------------------------------------------------ the alphabets

  /** The digits are those of RFC 4648, section 8, in lower case. */
  lemma HexAlphabet(n: int)
    requires 0 <= n < 16
    ensures HexDigit(n) == "0123456789abcdef"[n] && HexVal("0123456789abcdef"[n]) == HexVal("0123456789ABCDEF"[n]) == Some(n)
  {
  }

  /** The characters are those of RFC 4648, section 4: capitals, small letters, digits,
      plus and slash, by their ASCII codes. */
  lemma B64Alphabet(n: int)
    requires 0 <= n < 64
    ensures B64Char(n) as int ==
      if n < 26 then 65 + n else if n < 52 then 71 + n else if n < 62 then n - 4 else if n == 62 then 43 else 47
    ensures B64Val(B64Char(n)) == Some(n)
  {
  }

  /** A byte is written as its high half and its low half. */
  lemma HexOne(b: byte)
    ensures HexEncode([b]) == ["0123456789abcdef"[b / 16], "0123456789abcdef"[b % 16]]
  {
    assert [b][1..] == [];
  }

  /** Three bytes are written as the four sextets of their 24 bits, high first. */
  lemma B64Three(a: byte, b: byte, c: byte)
    ensures var bits := a * 65536 + b * 256 + c;
      B64Encode([a, b, c]) == [B64Char(bits / 262144), B64Char(bits / 4096 % 64), B64Char(bits / 64 % 64), B64Char(bits % 64)]
  {
    assert [a, b, c][3..] == [];
    Regroup(a / 4, a % 4, b / 16, b % 16, c / 64, c % 64);
    Sextets(a / 4, a % 4 * 16 + b / 16, b % 16 * 4 + c / 64, c % 64);
    assert a == a / 4 * 4 + a % 4 && b == b / 16 * 16 + b % 16 && c == c / 64 * 64 + c % 64;
  }

  lemma Regroup(a: int, a': int, b: int, b': int, c: int, c': int)
    ensures (a * 4 + a') * 65536 + (b * 16 + b') * 256 + (c * 64 + c')
         == a * 262144 + (a' * 16 + b) * 4096 + (b' * 4 + c) * 64 + c'
  {
  }

  lemma Sextets(p: int, q: int, r: int, s: int)
    requires 0 <= p < 64 && 0 <= q < 64 && 0 <= r < 64 && 0 <= s < 64
    ensures var bits := p * 262144 + q * 4096 + r * 64 + s;
      bits / 262144 == p && bits / 4096 % 64 == q && bits / 64 % 64 == r && bits % 64 == s
  {
    var bits := p * 262144 + q * 4096 + r * 64 + s;
    assert bits / 4096 == p * 64 + q;
    assert bits / 64 == (p * 64 + q) * 64 + r;
  }
}

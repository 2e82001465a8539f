/** Unpadded base64url (section 5 of RFC 4648): the alphabet, the encoder, and a strict decoder. */
module Base64Url {
  import opened Common

  type Byte = b: int | 0 <= b < 256
  type Digit = n: int | 0 <= n < 64

  /** The url-safe alphabet: table 2 of RFC 4648. */
  function CharOf(n: Digit): char {
    if n < 26 then ('A' as int + n) as char
    else if n < 52 then ('a' as int + n - 26) as char
    else if n < 62 then ('0' as int + n - 52) as char
    else if n == 62 then '-' else '_'
  }

  function DigitOf(c: char): Option<Digit> {
    if 'A' <= c <= 'Z' then Some(c as int - 'A' as int)
    else if 'a' <= c <= 'z' then Some(c as int - 'a' as int + 26)
    else if '0' <= c <= '9' then Some(c as int - '0' as int + 52)
    else if c == '-' then Some(62) else if c == '_' then Some(63) else None
  }

  /** The table by its corners: five runs of consecutive characters, each where the standard puts it. */
  lemma DigitRoundTrip(n: Digit)
    ensures CharOf(0) == 'A' && CharOf(25) == 'Z' && CharOf(26) == 'a' && CharOf(51) == 'z'
    ensures CharOf(52) == '0' && CharOf(61) == '9' && CharOf(62) == '-' && CharOf(63) == '_'
    ensures n < 61 && n != 25 && n != 51 ==> CharOf(n + 1) as int == CharOf(n) as int + 1
    ensures DigitOf(CharOf(n)) == Some(n)
  {
  }

  function Group(a: Byte, b: Byte, c: Byte): (g: seq<Digit>)
    ensures |g| == 4
  {
    [a / 4, (a % 4) * 16 + b / 16, (b % 16) * 4 + c / 64, c % 64]
  }

  /** Three bytes to four digits; one or two bytes left over to two or three, with no padding. */
  function Digits(bytes: seq<Byte>): seq<Digit>
    decreases |bytes|
  {
    if |bytes| == 0 then []
    else if |bytes| == 1 then Group(bytes[0], 0, 0)[..2]
    else if |bytes| == 2 then Group(bytes[0], bytes[1], 0)[..3]
    else Group(bytes[0], bytes[1], bytes[2]) + Digits(bytes[3..])
  }

  function First(a: Digit, b: Digit): Byte {
    a * 4 + b / 16
  }

  function Second(b: Digit, c: Digit): Byte {
    (b % 16) * 16 + c / 4
  }

  function Third(c: Digit, d: Digit): Byte {
    (c % 4) * 64 + d
  }

  function Bytes(ds: seq<Digit>): seq<Byte>
    decreases |ds|
  {
    if |ds| < 2 then []
    else if |ds| == 2 then [First(ds[0], ds[1])]
    else if |ds| == 3 then [First(ds[0], ds[1]), Second(ds[1], ds[2])]
    else [First(ds[0], ds[1]), Second(ds[1], ds[2]), Third(ds[2], ds[3])] + Bytes(ds[4..])
  }

  /** Four digits are the three bytes' twenty-four bits, most significant first; and the bytes come back. */
  lemma GroupRoundTrip(a: Byte, b: Byte, c: Byte)
    ensures var g := Group(a, b, c);
            ((g[0] as int * 64 + g[1]) * 64 + g[2]) * 64 + g[3] == (a as int * 256 + b) * 256 + c
    ensures var g := Group(a, b, c); First(g[0], g[1]) == a && Second(g[1], g[2]) == b && Third(g[2], g[3]) == c
  {
  }

  lemma {:induction false} BytesOfDigits(bytes: seq<Byte>)
    ensures Bytes(Digits(bytes)) == bytes
    decreases |bytes|
  {
    var b := if |bytes| > 1 then bytes[1] else 0;
    var c := if |bytes| > 2 then bytes[2] else 0;
    if bytes != [] {
      var g := Group(bytes[0], b, c);
      assert |g| == 4;
      GroupRoundTrip(bytes[0], b, c);
      hide Group, First, Second, Third;
      if |bytes| >= 3 {
        BytesOfDigits(bytes[3..]);
        assert Digits(bytes) == g + Digits(bytes[3..]);
        assert Digits(bytes)[4..] == Digits(bytes[3..]);
        assert bytes == [bytes[0], b, c] + bytes[3..];
      }
    }
  }

  lemma {:induction false} DigitCount(bytes: seq<Byte>)
    ensures |Digits(bytes)| == (|bytes| / 3) * 4 + (if |bytes| % 3 == 0 then 0 else |bytes| % 3 + 1)
    decreases |bytes|
  {
    if |bytes| >= 3 { DigitCount(bytes[3..]); }
  }

  function Encode(bytes: seq<Byte>): string {
    var ds := Digits(bytes);
    seq(|ds|, i requires 0 <= i < |ds| => CharOf(ds[i]))
  }

  function AllDigits(s: string): Option<seq<Digit>>
    decreases |s|
  {
    if s == [] then Some([])
    else match (DigitOf(s[0]), AllDigits(s[1..]))
      case (Some(d), Some(ds)) => Some([d] + ds)
      case _ => None
  }

  /** None for text with a character outside the alphabet, or with a lone last digit. */
  function Decode(s: string): Option<seq<Byte>> {
    match AllDigits(s)
    case Some(ds) => if |ds| % 4 == 1 then None else Some(Bytes(ds))
    case None => None
  }

  lemma {:induction false} AllDigitsOfChars(ds: seq<Digit>)
    ensures AllDigits(seq(|ds|, i requires 0 <= i < |ds| => CharOf(ds[i]))) == Some(ds)
    decreases |ds|
  {
    var s := seq(|ds|, i requires 0 <= i < |ds| => CharOf(ds[i]));
    if ds != [] {
      AllDigitsOfChars(ds[1..]);
      assert s[1..] == seq(|ds[1..]|, i requires 0 <= i < |ds[1..]| => CharOf(ds[1..][i]));
      DigitRoundTrip(ds[0]);
      assert ds == [ds[0]] + ds[1..];
    }
  }

  lemma RoundTrip(bytes: seq<Byte>)
    ensures Decode(Encode(bytes)) == Some(bytes)
  {
    AllDigitsOfChars(Digits(bytes));
    BytesOfDigits(bytes);
    DigitCount(bytes);
  }
}

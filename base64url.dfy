/**
 * The desktop client's base64url codec (section 5 of RFC 4648): the standard base64 text of
 * the bytes, with `+` and `/` replaced by `-` and `_` and the trailing `=` padding removed;
 * decoding maps the two characters back, pads to a multiple of four and decodes.
 */
module Base64Url {
  import opened Options
  import opened Text

  type Byte = x: int | 0 <= x < 256

  /** The standard alphabet of section 4 of RFC 4648. */
  function StdChar(v: nat): (c: char)
    requires v < 64
    ensures c != '=' && c != '-' && c != '_'
  {
    if v < 26 then ('A' as int + v) as char
    else if v < 52 then ('a' as int + (v - 26)) as char
    else if v < 62 then ('0' as int + (v - 52)) as char
    else if v == 62 then '+'
    else '/'
  }

  /** The value of a character of the standard alphabet. */
  function StdValue(c: char): Option<nat>
  {
    if 'A' <= c <= 'Z' then Some(c as int - 'A' as int)
    else if 'a' <= c <= 'z' then Some(c as int - 'a' as int + 26)
    else if '0' <= c <= '9' then Some(c as int - '0' as int + 52)
    else if c == '+' then Some(62)
    else if c == '/' then Some(63)
    else None
  }

  lemma StdValueOfChar(v: nat)
    requires v < 64
    ensures StdValue(StdChar(v)) == Some(v)
  {
  }

  /** The standard encoding without its padding, three bytes to four characters. */
  function StdBody(bs: seq<Byte>): (r: string)
    ensures forall i :: 0 <= i < |r| ==> StdValue(r[i]).Some?
    ensures |r| == 4 * (|bs| / 3) + (if |bs| % 3 == 0 then 0 else |bs| % 3 + 1)
    decreases |bs|
  {
    if |bs| == 0 then ""
    else if |bs| == 1 then [StdChar(bs[0] / 4), StdChar((bs[0] % 4) * 16)]
    else if |bs| == 2 then [StdChar(bs[0] / 4), StdChar((bs[0] % 4) * 16 + bs[1] / 16), StdChar((bs[1] % 16) * 4)]
    else
      var group := [StdChar(bs[0] / 4), StdChar((bs[0] % 4) * 16 + bs[1] / 16),
                    StdChar((bs[1] % 16) * 4 + bs[2] / 64), StdChar(bs[2] % 64)];
      StdValueOfChar(bs[0] / 4);
      StdValueOfChar((bs[0] % 4) * 16 + bs[1] / 16);
      StdValueOfChar((bs[1] % 16) * 4 + bs[2] / 64);
      StdValueOfChar(bs[2] % 64);
      group + StdBody(bs[3..])
  }

  /** How many `=` the standard encoding appends. */
  function PadLength(n: nat): nat
  {
    (3 - n % 3) % 3
  }

  /** `buf.toString('base64')`. */
  function StdEncode(bs: seq<Byte>): string
  {
    StdBody(bs) + Repeat('=', PadLength(|bs|))
  }

  function ToUrlChar(c: char): char
  {
    if c == '+' then '-' else if c == '/' then '_' else c
  }

  function FromUrlChar(c: char): char
  {
    if c == '-' then '+' else if c == '_' then '/' else c
  }

  /** `replaceAll('+', '-').replaceAll('/', '_')`. */
  function ToUrlChars(s: string): (r: string)
    ensures |r| == |s| && forall i :: 0 <= i < |s| ==> r[i] == ToUrlChar(s[i])
  {
    seq(|s|, i requires 0 <= i < |s| => ToUrlChar(s[i]))
  }

  /** `replaceAll('-', '+').replaceAll('_', '/')`. */
  function FromUrlChars(s: string): (r: string)
    ensures |r| == |s| && forall i :: 0 <= i < |s| ==> r[i] == FromUrlChar(s[i])
  {
    seq(|s|, i requires 0 <= i < |s| => FromUrlChar(s[i]))
  }

  /** `replace(/=+$/g, '')`: the trailing run of `=` removed. */
  function StripPadding(s: string): (r: string)
    ensures r <= s && (r == [] || r[|r| - 1] != '=')
    ensures forall i :: |r| <= i < |s| ==> s[i] == '='
  {
    if s != [] && s[|s| - 1] == '=' then StripPadding(s[..|s| - 1]) else s
  }

  /** `base64UrlEncode`. */
  function Encode(bs: seq<Byte>): string
  {
    StripPadding(ToUrlChars(StdEncode(bs)))
  }

  /** Decodes standard base64 text whose length is a multiple of four, with at most the last
      group padded; anything else has no value. */
  function StdDecode(s: string): Option<seq<Byte>>
    decreases |s|
  {
    if s == [] then Some([])
    else if |s| < 4 then None
    else
      var a := StdValue(s[0]);
      var b := StdValue(s[1]);
      var c := StdValue(s[2]);
      var d := StdValue(s[3]);
      if a.None? || b.None? then None
      else if |s| == 4 && s[2] == '=' && s[3] == '=' then Some([a.value * 4 + b.value / 16])
      else if c.None? then None
      else if |s| == 4 && s[3] == '=' then Some([a.value * 4 + b.value / 16, (b.value % 16) * 16 + c.value / 4])
      else if d.None? then None
      else
        match StdDecode(s[4..])
        case None => None
        case Some(rest) =>
          Some([a.value * 4 + b.value / 16, (b.value % 16) * 16 + c.value / 4, (c.value % 4) * 64 + d.value] + rest)
  }

  /** `base64UrlDecode`, for text that is the encoding of some bytes. */
  function Decode(input: string): Option<seq<Byte>>
  {
    StdDecode(Padded(input))
  }

  /** The URL characters mapped back and `=` appended up to a multiple of four. */
  function Padded(input: string): string
  {
    var normalized := FromUrlChars(input);
    normalized + Repeat('=', (4 - |normalized| % 4) % 4)
  }

  /** A character of the standard alphabet survives the URL mapping and its inverse. */
  lemma UrlCharInverse(c: char)
    requires StdValue(c).Some?
    ensures FromUrlChar(ToUrlChar(c)) == c
    ensures ToUrlChar(c) != '=' && ToUrlChar(c) != '+' && ToUrlChar(c) != '/'
  {
  }

  /** The encoding uses only the URL-safe alphabet and never pads. */
  lemma EncodeAlphabet(bs: seq<Byte>)
    ensures Encode(bs) == ToUrlChars(StdBody(bs))
    ensures forall i :: 0 <= i < |Encode(bs)| ==>
              Encode(bs)[i] != '=' && Encode(bs)[i] != '+' && Encode(bs)[i] != '/'
    ensures |Encode(bs)| == 4 * (|bs| / 3) + (if |bs| % 3 == 0 then 0 else |bs| % 3 + 1)
  {
    var body := StdBody(bs);
    var pad := Repeat('=', PadLength(|bs|));
    var url := ToUrlChars(body);
    forall i | 0 <= i < |url| ensures url[i] != '=' && url[i] != '+' && url[i] != '/' {
      UrlCharInverse(body[i]);
    }
    assert ToUrlChars(body + pad) == url + pad;
    StripAfterBody(url, pad);
  }

  lemma {:induction false} StripAfterBody(body: string, pad: string)
    requires body == [] || body[|body| - 1] != '='
    requires forall i :: 0 <= i < |pad| ==> pad[i] == '='
    ensures StripPadding(body + pad) == body
    decreases |pad|
  {
    if pad == [] {
      assert body + pad == body;
    } else {
      var s := body + pad;
      assert s[..|s| - 1] == body + pad[..|pad| - 1];
      StripAfterBody(body, pad[..|pad| - 1]);
    }
  }

  /** The characters of a full group of three bytes. */
  function Group(b0: Byte, b1: Byte, b2: Byte): (g: string)
    ensures |g| == 4
  {
    [StdChar(b0 / 4), StdChar((b0 % 4) * 16 + b1 / 16), StdChar((b1 % 16) * 4 + b2 / 64), StdChar(b2 % 64)]
  }

  lemma DecodeOne(b0: Byte)
    ensures StdDecode([StdChar(b0 / 4), StdChar((b0 % 4) * 16), '=', '=']) == Some([b0])
  {
    var s := [StdChar(b0 / 4), StdChar((b0 % 4) * 16), '=', '='];
    StdValueOfChar(b0 / 4);
    StdValueOfChar((b0 % 4) * 16);
    assert StdValue(s[0]) == Some(b0 / 4);
    assert StdValue(s[1]) == Some((b0 % 4) * 16);
  }

  lemma DecodeTwo(b0: Byte, b1: Byte)
    ensures StdDecode([StdChar(b0 / 4), StdChar((b0 % 4) * 16 + b1 / 16), StdChar((b1 % 16) * 4), '='])
            == Some([b0, b1])
  {
    var s := [StdChar(b0 / 4), StdChar((b0 % 4) * 16 + b1 / 16), StdChar((b1 % 16) * 4), '='];
    StdValueOfChar(b0 / 4);
    StdValueOfChar((b0 % 4) * 16 + b1 / 16);
    StdValueOfChar((b1 % 16) * 4);
    assert StdValue(s[0]) == Some(b0 / 4);
    assert StdValue(s[1]) == Some((b0 % 4) * 16 + b1 / 16);
    assert StdValue(s[2]) == Some((b1 % 16) * 4);
  }

  lemma DecodeGroup(b0: Byte, b1: Byte, b2: Byte, rest: string, tail: seq<Byte>)
    requires StdDecode(rest) == Some(tail)
    ensures StdDecode(Group(b0, b1, b2) + rest) == Some([b0, b1, b2] + tail)
  {
    var s := Group(b0, b1, b2) + rest;
    StdValueOfChar(b0 / 4);
    StdValueOfChar((b0 % 4) * 16 + b1 / 16);
    StdValueOfChar((b1 % 16) * 4 + b2 / 64);
    StdValueOfChar(b2 % 64);
    assert StdValue(s[0]) == Some(b0 / 4);
    assert StdValue(s[1]) == Some((b0 % 4) * 16 + b1 / 16);
    assert StdValue(s[2]) == Some((b1 % 16) * 4 + b2 / 64);
    assert StdValue(s[3]) == Some(b2 % 64);
    assert s[4..] == rest;
    StdDecodeGroup(s, b0 / 4, (b0 % 4) * 16 + b1 / 16, (b1 % 16) * 4 + b2 / 64, b2 % 64);
    Recombine(b0, b1, b2);
  }

  /** Decoding text that starts with four alphabet characters yields their three bytes
      followed by the decoding of the rest. */
  lemma StdDecodeGroup(s: string, a: nat, b: nat, c: nat, d: nat)
    requires |s| >= 4
    requires StdValue(s[0]) == Some(a) && StdValue(s[1]) == Some(b)
    requires StdValue(s[2]) == Some(c) && StdValue(s[3]) == Some(d)
    ensures StdDecode(s) == match StdDecode(s[4..])
      case None => None
      case Some(rest) => Some([a * 4 + b / 16, (b % 16) * 16 + c / 4, (c % 4) * 64 + d] + rest)
  {
    assert s[2] != '=' && s[3] != '=';
  }

  /** The three bytes come back out of the four six-bit values they were cut into. */
  lemma Recombine(b0: Byte, b1: Byte, b2: Byte)
    ensures (b0 / 4) * 4 + ((b0 % 4) * 16 + b1 / 16) / 16 == b0
    ensures (((b0 % 4) * 16 + b1 / 16) % 16) * 16 + ((b1 % 16) * 4 + b2 / 64) / 4 == b1
    ensures (((b1 % 16) * 4 + b2 / 64) % 4) * 64 + b2 % 64 == b2
  {
    assert ((b0 % 4) * 16 + b1 / 16) / 16 == b0 % 4;
    assert ((b0 % 4) * 16 + b1 / 16) % 16 == b1 / 16;
    assert ((b1 % 16) * 4 + b2 / 64) / 4 == b1 % 16;
    assert ((b1 % 16) * 4 + b2 / 64) % 4 == b2 / 64;
  }

  lemma PaddedOne(bs: seq<Byte>)
    requires |bs| == 1
    ensures StdDecode(StdEncode(bs)) == Some(bs)
  {
    DecodeOne(bs[0]);
    assert StdEncode(bs) == [StdChar(bs[0] / 4), StdChar((bs[0] % 4) * 16), '=', '='];
    assert [bs[0]] == bs;
  }

  lemma PaddedTwo(bs: seq<Byte>)
    requires |bs| == 2
    ensures StdDecode(StdEncode(bs)) == Some(bs)
  {
    DecodeTwo(bs[0], bs[1]);
    assert StdEncode(bs) == [StdChar(bs[0] / 4), StdChar((bs[0] % 4) * 16 + bs[1] / 16), StdChar((bs[1] % 16) * 4), '='];
    assert [bs[0], bs[1]] == bs;
  }

  lemma PaddedSplit(bs: seq<Byte>)
    requires |bs| >= 3
    ensures StdEncode(bs) == Group(bs[0], bs[1], bs[2]) + StdEncode(bs[3..])
  {
    assert PadLength(|bs[3..]|) == PadLength(|bs|);
  }

  lemma {:induction false} StdBodyDecodes(bs: seq<Byte>)
    ensures StdDecode(StdEncode(bs)) == Some(bs)
    decreases |bs|
  {
    if |bs| == 0 {
      assert StdEncode(bs) == "";
    } else if |bs| == 1 {
      PaddedOne(bs);
    } else if |bs| == 2 {
      PaddedTwo(bs);
    } else {
      StdBodyDecodes(bs[3..]);
      PaddedSplit(bs);
      DecodeGroup(bs[0], bs[1], bs[2], StdEncode(bs[3..]), bs[3..]);
      assert [bs[0], bs[1], bs[2]] + bs[3..] == bs;
    }
  }

  /** The URL mapping is undone on text in the standard alphabet. */
  lemma UrlCharsInverse(s: string)
    requires forall i :: 0 <= i < |s| ==> StdValue(s[i]).Some?
    ensures FromUrlChars(ToUrlChars(s)) == s
  {
    var back := FromUrlChars(ToUrlChars(s));
    forall i | 0 <= i < |s| ensures back[i] == s[i] {
      UrlCharInverse(s[i]);
    }
  }

  /** Padding the unpadded text to a multiple of four restores the standard padding. */
  lemma PadAgrees(n: nat, len: nat)
    requires len == 4 * (n / 3) + (if n % 3 == 0 then 0 else n % 3 + 1)
    ensures (4 - len % 4) % 4 == PadLength(n)
  {
    var q := n / 3;
    assert n == 3 * q + n % 3;
    if n % 3 == 0 {
      assert len == 4 * q;
    } else if n % 3 == 1 {
      assert len == 4 * q + 2;
    } else {
      assert len == 4 * q + 3;
    }
  }

  /** Decoding undoes encoding, for every byte string. */
  lemma RoundTrip(bs: seq<Byte>)
    ensures Decode(Encode(bs)) == Some(bs)
  {
    EncodeAlphabet(bs);
    var body := StdBody(bs);
    UrlCharsInverse(body);
    PadAgrees(|bs|, |body|);
    DecodeAfterUrl(Encode(bs), body, |bs|);
    assert Padded(Encode(bs)) == StdEncode(bs);
    StdBodyDecodes(bs);
  }

  /** Mapping the URL characters back and padding restores the standard text the length
      calls for. */
  lemma DecodeAfterUrl(e: string, body: string, n: nat)
    requires FromUrlChars(e) == body && (4 - |body| % 4) % 4 == PadLength(n)
    ensures Padded(e) == body + Repeat('=', PadLength(n))
  {
  }
}

/**
 Cursor tokens: a body and its 32-byte authentication code in the URL-safe alphabet of section 5 of
 RFC 4648, with the padding left off. Decoding follows the lenient reader the program uses, which
 skips characters outside the alphabet. The code and the JSON form of a payload are parameters.
 */
module Cursors {
  import opened Common

  type byte = x: int | 0 <= x < 256

  // ---------------------------------------------------------------- the alphabet

  function Digit(n: nat): char
    requires n < 64
  {
    if n < 26 then 'A' + n as char
    else if n < 52 then 'a' + (n - 26) as char
    else if n < 62 then '0' + (n - 52) as char
    else if n == 62 then '-'
    else '_'
  }

  /** The value of a character; the standard alphabet's plus and slash are accepted as well. */
  function DigitValue(c: char): (r: Option<nat>)
    ensures r.Some? ==> r.value < 64
  {
    if 'A' <= c <= 'Z' then Some(c as int - 'A' as int)
    else if 'a' <= c <= 'z' then Some(c as int - 'a' as int + 26)
    else if '0' <= c <= '9' then Some(c as int - '0' as int + 52)
    else if c == '-' || c == '+' then Some(62)
    else if c == '_' || c == '/' then Some(63)
    else None
  }

  lemma DigitReadsBack(n: nat)
    requires n < 64
    ensures DigitValue(Digit(n)) == Some(n) && Digit(n) != '=' && Digit(n) < '\U{80}'
  {
  }

  // ---------------------------------------------------------------- encoding

  function Group(a: byte, b: byte, c: byte): string {
    [Digit(a / 4), Digit(a % 4 * 16 + b / 16), Digit(b % 16 * 4 + c / 64), Digit(c % 64)]
  }

  /** Three bytes to four characters, the last group padded to four. */
  function Base64(bytes: seq<byte>): string {
    if |bytes| == 0 then ""
    else if |bytes| == 1 then [Digit(bytes[0] / 4), Digit(bytes[0] % 4 * 16), '=', '=']
    else if |bytes| == 2
      then [Digit(bytes[0] / 4), Digit(bytes[0] % 4 * 16 + bytes[1] / 16), Digit(bytes[1] % 16 * 4), '=']
    else Group(bytes[0], bytes[1], bytes[2]) + Base64(bytes[3..])
  }

  function StripPadding(text: string): string {
    if text != "" && text[|text| - 1] == '=' then StripPadding(text[..|text| - 1]) else text
  }

  function Pads(n: nat): string {
    if n == 0 then "" else "=" + Pads(n - 1)
  }

  /** As many padding characters as bring the length to a multiple of four. */
  function Padding(text: string): string {
    Pads(PadCount(|text|))
  }

  // ---------------------------------------------------------------- decoding

  /**
   What the lenient reader remembers between characters: its place in the group of four, the bits
   left over, the run of padding.
   */
  datatype Reader = Reader(place: nat, left: nat, pads: nat)

  predicate ValidReader(state: Reader) {
    state.place < 4
    && (state.place == 0 ==> state.left == 0) && (state.place == 1 ==> state.left < 64)
    && (state.place == 2 ==> state.left < 16) && (state.place == 3 ==> state.left < 4)
  }

  function Emit(first: byte, rest: Option<seq<byte>>): Option<seq<byte>> {
    if rest.Some? then Some([first] + rest.value) else None
  }

  /** The bytes read from here on; None for an incomplete last group. */
  function Read(text: string, state: Reader): Option<seq<byte>>
    requires ValidReader(state)
    decreases |text|
  {
    if text == "" then (if state.place == 0 then Some([]) else None)
    else if text[0] == '=' then
      if state.place >= 2 && state.place + state.pads + 1 >= 4 then Some([])
      else Read(text[1..], state.(pads := state.pads + 1))
    else
      match DigitValue(text[0])
      case None => Read(text[1..], state)
      case Some(v) =>
        match state.place
        case 0 => Read(text[1..], Reader(1, v, 0))
        case 1 => Emit(state.left * 4 + v / 16, Read(text[1..], Reader(2, v % 16, 0)))
        case 2 => Emit(state.left * 16 + v / 4, Read(text[1..], Reader(3, v % 4, 0)))
        case _ => Emit(state.left * 64 + v, Read(text[1..], Reader(0, 0, 0)))
  }

  const Fresh := Reader(0, 0, 0)

  predicate Ascii(text: string) {
    forall i :: 0 <= i < |text| ==> text[i] < '\U{80}'
  }

  /** The bytes of a token, its padding rebuilt first. */
  function FromToken(token: string): Option<seq<byte>> {
    if Ascii(token) then Read(token + Padding(token), Fresh) else None
  }

  function ToToken(bytes: seq<byte>): string {
    StripPadding(Base64(bytes))
  }

  // ---------------------------------------------------------------- the round trip of the bytes

  /** The characters of the bytes without padding. */
  function Unpadded(bytes: seq<byte>): string {
    if |bytes| == 0 then ""
    else if |bytes| == 1 then [Digit(bytes[0] / 4), Digit(bytes[0] % 4 * 16)]
    else if |bytes| == 2 then [Digit(bytes[0] / 4), Digit(bytes[0] % 4 * 16 + bytes[1] / 16), Digit(bytes[1] % 16 * 4)]
    else Group(bytes[0], bytes[1], bytes[2]) + Unpadded(bytes[3..])
  }

  /** A digit of the alphabet: neither padding nor outside ASCII. */
  predicate PlainChar(c: char) {
    c != '=' && c < '\U{80}'
  }

  predicate Plain(text: string) {
    forall i :: 0 <= i < |text| ==> PlainChar(text[i])
  }

  lemma DigitIsPlain(n: nat)
    requires n < 64
    ensures PlainChar(Digit(n))
  {
  }

  lemma GroupIsPlain(a: byte, b: byte, c: byte)
    ensures Plain(Group(a, b, c))
  {
    DigitIsPlain(a / 4);
    DigitIsPlain(a % 4 * 16 + b / 16);
    DigitIsPlain(b % 16 * 4 + c / 64);
    DigitIsPlain(c % 64);
  }

  lemma PlainConcat(a: string, b: string)
    requires Plain(a) && Plain(b)
    ensures Plain(a + b)
  {
  }

  lemma {:induction false} UnpaddedIsPlain(bytes: seq<byte>)
    ensures Plain(Unpadded(bytes))
  {
    if |bytes| == 1 {
      DigitIsPlain(bytes[0] / 4);
      DigitIsPlain(bytes[0] % 4 * 16);
    } else if |bytes| == 2 {
      DigitIsPlain(bytes[0] / 4);
      DigitIsPlain(bytes[0] % 4 * 16 + bytes[1] / 16);
      DigitIsPlain(bytes[1] % 16 * 4);
    } else if |bytes| >= 3 {
      GroupIsPlain(bytes[0], bytes[1], bytes[2]);
      UnpaddedIsPlain(bytes[3..]);
      PlainConcat(Group(bytes[0], bytes[1], bytes[2]), Unpadded(bytes[3..]));
    }
  }

  function PadCount(n: nat): nat {
    (4 - n % 4) % 4
  }

  lemma PadsAre()
    ensures Pads(0) == "" && Pads(1) == "=" && Pads(2) == "=="
  {
  }

  lemma Regroup(group: string, rest: string, pads: string)
    requires |group| == 4
    ensures group + (rest + pads) == (group + rest) + pads && PadCount(|group + rest|) == PadCount(|rest|)
  {
  }

  /** Without its padding the text has a length from which the padding is rebuilt. */
  lemma {:induction false} UnpaddedLength(bytes: seq<byte>)
    ensures Base64(bytes) == Unpadded(bytes) + Pads(PadCount(|Unpadded(bytes)|))
  {
    PadsAre();
    if |bytes| == 1 {
      var c, d := Digit(bytes[0] / 4), Digit(bytes[0] % 4 * 16);
      assert [c, d] + "==" == [c, d, '=', '='];
    } else if |bytes| == 2 {
      var c, d, e := Digit(bytes[0] / 4), Digit(bytes[0] % 4 * 16 + bytes[1] / 16), Digit(bytes[1] % 16 * 4);
      assert [c, d, e] + "=" == [c, d, e, '='];
    } else if |bytes| >= 3 {
      var rest := Unpadded(bytes[3..]);
      UnpaddedLength(bytes[3..]);
      Regroup(Group(bytes[0], bytes[1], bytes[2]), rest, Pads(PadCount(|rest|)));
    }
  }

  lemma StripOnePad(text: string)
    ensures StripPadding(text + "=") == StripPadding(text)
  {
    assert (text + "=")[..|text|] == text;
  }

  lemma StripNone(text: string)
    requires Plain(text)
    ensures StripPadding(text) == text
  {
    if text != "" {
      assert PlainChar(text[|text| - 1]);
    }
  }

  lemma {:induction false} PadsEnd(n: nat)
    requires n > 0
    ensures Pads(n) == Pads(n - 1) + "="
  {
    if n > 1 {
      PadsEnd(n - 1);
      Associates("=", Pads(n - 2), "=");
    }
  }

  lemma {:induction false} StripPads(text: string, n: nat)
    requires Plain(text)
    ensures StripPadding(text + Pads(n)) == text
  {
    if n == 0 {
      StripNone(text);
      assert text + Pads(0) == text;
    } else {
      StripPads(text, n - 1);
      PadsEnd(n);
      Associates(text, Pads(n - 1), "=");
      StripOnePad(text + Pads(n - 1));
    }
  }

  lemma ReadDigit(n: nat, rest: string, state: Reader)
    requires n < 64 && ValidReader(state)
    ensures Read([Digit(n)] + rest, state) ==
            match state.place
            case 0 => Read(rest, Reader(1, n, 0))
            case 1 => Emit(state.left * 4 + n / 16, Read(rest, Reader(2, n % 16, 0)))
            case 2 => Emit(state.left * 16 + n / 4, Read(rest, Reader(3, n % 4, 0)))
            case _ => Emit(state.left * 64 + n, Read(rest, Fresh))
  {
    DigitReadsBack(n);
    assert ([Digit(n)] + rest)[1..] == rest;
  }

  lemma ReadTwoDigits(a: byte, m: nat, rest: string)
    requires m < 16
    ensures Read([Digit(a / 4), Digit(a % 4 * 16 + m)] + rest, Fresh) == Emit(a, Read(rest, Reader(2, m, 0)))
  {
    var second := [Digit(a % 4 * 16 + m)] + rest;
    assert [Digit(a / 4), Digit(a % 4 * 16 + m)] + rest == [Digit(a / 4)] + second;
    ReadDigit(a / 4, second, Fresh);
    ReadDigit(a % 4 * 16 + m, rest, Reader(1, a / 4, 0));
  }

  lemma ReadLastTwo(m: nat, b: byte, c: byte, rest: string)
    requires m == b / 16
    ensures Read([Digit(b % 16 * 4 + c / 64), Digit(c % 64)] + rest, Reader(2, m, 0))
              == Emit(b, Emit(c, Read(rest, Fresh)))
  {
    var fourth := [Digit(c % 64)] + rest;
    assert [Digit(b % 16 * 4 + c / 64), Digit(c % 64)] + rest == [Digit(b % 16 * 4 + c / 64)] + fourth;
    ReadDigit(b % 16 * 4 + c / 64, fourth, Reader(2, m, 0));
    ReadDigit(c % 64, rest, Reader(3, c / 64, 0));
  }

  lemma ReadGroup(a: byte, b: byte, c: byte, rest: string)
    ensures Read(Group(a, b, c) + rest, Fresh) == Emit(a, Emit(b, Emit(c, Read(rest, Fresh))))
  {
    var third := [Digit(b % 16 * 4 + c / 64), Digit(c % 64)] + rest;
    assert Group(a, b, c) + rest == [Digit(a / 4), Digit(a % 4 * 16 + b / 16)] + third;
    ReadTwoDigits(a, b / 16, third);
    ReadLastTwo(b / 16, b, c, rest);
  }

  lemma ReadOne(a: byte)
    ensures Read([Digit(a / 4), Digit(a % 4 * 16), '=', '='], Fresh) == Some([a])
  {
    assert "=="[1..] == "=";
    assert Read("==", Reader(2, 0, 0)) == Some([]);
    ReadTwoDigits(a, 0, "==");
    var c, d := Digit(a / 4), Digit(a % 4 * 16);
    assert [c, d] + "==" == [c, d, '=', '='];
    assert [a] + [] == [a];
  }

  lemma ReadTwo(a: byte, b: byte)
    ensures Read([Digit(a / 4), Digit(a % 4 * 16 + b / 16), Digit(b % 16 * 4), '='], Fresh) == Some([a, b])
  {
    var third := [Digit(b % 16 * 4)] + "=";
    assert Read("=", Reader(3, 0, 0)) == Some([]);
    ReadDigit(b % 16 * 4, "=", Reader(2, b / 16, 0));
    ReadTwoDigits(a, b / 16, third);
    var c, d, e := Digit(a / 4), Digit(a % 4 * 16 + b / 16), Digit(b % 16 * 4);
    assert [c, d] + ([e] + "=") == [c, d, e, '='];
    assert [a] + ([b] + []) == [a, b];
  }

  /** Whatever the number of bytes, they are read back from their padded characters. */
  lemma {:induction false} ReadBack(bytes: seq<byte>)
    ensures Read(Base64(bytes), Fresh) == Some(bytes)
  {
    if |bytes| == 1 {
      ReadOne(bytes[0]);
      assert bytes == [bytes[0]];
    } else if |bytes| == 2 {
      ReadTwo(bytes[0], bytes[1]);
      assert bytes == [bytes[0], bytes[1]];
    } else if |bytes| >= 3 {
      ReadBack(bytes[3..]);
      ReadGroup(bytes[0], bytes[1], bytes[2], Base64(bytes[3..]));
      assert bytes == [bytes[0]] + ([bytes[1]] + ([bytes[2]] + bytes[3..]));
    }
  }

  /** A token gives back its bytes, for every number of bytes. */
  lemma TokenReadsBack(bytes: seq<byte>)
    ensures FromToken(ToToken(bytes)) == Some(bytes)
  {
    UnpaddedIsPlain(bytes);
    UnpaddedLength(bytes);
    StripPads(Unpadded(bytes), PadCount(|Unpadded(bytes)|));
    ReadBack(bytes);
  }

  // ---------------------------------------------------------------- tokens with a code

  /** The last 32 bytes, or everything when there are fewer, are the code. */
  function SplitAt(raw: seq<byte>): nat {
    if |raw| <= 32 then 0 else |raw| - 32
  }

  function Encode<P>(payload: P, render: P -> seq<byte>, mac: seq<byte> -> seq<byte>): string {
    ToToken(render(payload) + mac(render(payload)))
  }

  /** The payload of a token whose code matches its body; None for every other token. */
  function Decode<P>(token: string, parse: seq<byte> -> Option<P>, mac: seq<byte> -> seq<byte>): Option<P> {
    match FromToken(token)
    case None => None
    case Some(raw) =>
      if raw[SplitAt(raw)..] == mac(raw[..SplitAt(raw)]) then parse(raw[..SplitAt(raw)]) else None
  }

  /** Decoding an encoded cursor gives its payload, whatever the length of its body. */
  lemma DecodeEncode<P>(payload: P, render: P -> seq<byte>, parse: seq<byte> -> Option<P>, mac: seq<byte> -> seq<byte>)
    requires parse(render(payload)) == Some(payload) && |mac(render(payload))| == 32
    ensures Decode(Encode(payload, render, mac), parse, mac) == Some(payload)
  {
    var body := render(payload);
    var raw := body + mac(body);
    TokenReadsBack(raw);
    assert raw[..SplitAt(raw)] == body && raw[SplitAt(raw)..] == mac(body);
  }

  /**
   A token decodes exactly when its bytes are some body that parses, followed by the code of that
   body: no other split of them, and no body with another code, is accepted.
   */
  lemma DecodesIff<P>(token: string, parse: seq<byte> -> Option<P>, mac: seq<byte> -> seq<byte>, payload: P)
    requires forall body :: |mac(body)| == 32
    ensures Decode(token, parse, mac) == Some(payload)
            <==> exists body: seq<byte> :: Accepts(token, body, parse, mac, payload)
  {
    if Decode(token, parse, mac) == Some(payload) {
      var raw := FromToken(token).value;
      var body := raw[..SplitAt(raw)];
      assert raw == body + raw[SplitAt(raw)..];
      assert Accepts(token, body, parse, mac, payload);
    }
    if exists body: seq<byte> :: Accepts(token, body, parse, mac, payload) {
      var body: seq<byte> :| Accepts(token, body, parse, mac, payload);
      var raw := FromToken(token).value;
      assert |raw| == |body| + 32;
      assert raw[..SplitAt(raw)] == body && raw[SplitAt(raw)..] == mac(body);
    }
  }

  predicate Accepts<P(==)>(
    token: string, body: seq<byte>, parse: seq<byte> -> Option<P>, mac: seq<byte> -> seq<byte>, payload: P)
  {
    FromToken(token) == Some(body + mac(body)) && parse(body) == Some(payload)
  }
}

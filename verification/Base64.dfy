/** Base64 as both scripts use it: the encoder of RFC 4648 section 4, and the
    decoder behind Python's b64decode, which skips foreign characters and stops
    at sufficient padding. */
module Base64 {
  import opened Common

  type Byte = b: int | 0 <= b < 256
  type Sextet = v: int | 0 <= v < 64

  function Digit(v: Sextet): (c: char)
    ensures IsDigit(c)
  {
    if v < 26 then 'A' + v as char
    else if v < 52 then 'a' + (v - 26) as char
    else if v < 62 then '0' + (v - 52) as char
    else if v == 62 then '+'
    else '/'
  }

  predicate IsDigit(c: char) {
    'A' <= c <= 'Z' || 'a' <= c <= 'z' || '0' <= c <= '9' || c == '+' || c == '/'
  }

  function ValueOf(c: char): (v: Sextet)
    requires IsDigit(c)
  {
    if 'A' <= c <= 'Z' then c as int - 'A' as int
    else if 'a' <= c <= 'z' then c as int - 'a' as int + 26
    else if '0' <= c <= '9' then c as int - '0' as int + 52
    else if c == '+' then 62
    else 63
  }

  /** The alphabet of table 1 of RFC 4648. */
  lemma Alphabet(v: Sextet)
    ensures Digit(v) == (UPPER_CASE + LOWER_CASE + NUMERALS + "+/")[v]
  {
    Rows();
  }

  lemma ValueOfDigit(v: Sextet)
    ensures ValueOf(Digit(v)) == v
  {
  }

  /** The input in groups of six bits, the last group filled up with zeros. */
  function Sextets(bytes: seq<Byte>): seq<Sextet> {
    if bytes == [] then []
    else if |bytes| == 1 then [bytes[0] / 4, bytes[0] % 4 * 16]
    else if |bytes| == 2 then [bytes[0] / 4, bytes[0] % 4 * 16 + bytes[1] / 16, bytes[1] % 16 * 4]
    else
      [bytes[0] / 4, bytes[0] % 4 * 16 + bytes[1] / 16, bytes[1] % 16 * 4 + bytes[2] / 64, bytes[2] % 64] +
      Sextets(bytes[3..])
  }

  function Digits(vs: seq<Sextet>): string {
    if vs == [] then "" else [Digit(vs[0])] + Digits(vs[1..])
  }

  function Padding(n: nat): string {
    match n % 3
    case 0 => ""
    case 1 => "=="
    case _ => "="
  }

  function Encode(bytes: seq<Byte>): string {
    Digits(Sextets(bytes)) + Padding(|bytes|)
  }

  /** The decoder's registers: characters of the current quad, bits left over, and
      padding characters seen since the last digit. */
  datatype Decoder = Decoder(quad: nat, left: nat, pads: nat, out: seq<Byte>) {
    predicate Ok() {
      && quad < 4
      && match quad
         case 0 => true
         case 1 => left < 64
         case 2 => left < 16
         case _ => left < 4
    }
  }

  const START := Decoder(0, 0, 0, [])

  function Take(d: Decoder, v: Sextet): (e: Decoder)
    requires d.Ok()
    ensures e.Ok()
  {
    match d.quad
    case 0 => Decoder(1, v, 0, d.out)
    case 1 => Decoder(2, v % 16, 0, d.out + [d.left * 4 + v / 16])
    case 2 => Decoder(3, v % 4, 0, d.out + [d.left * 16 + v / 4])
    case _ => Decoder(0, 0, 0, d.out + [d.left * 64 + v])
  }

  /** What is left of the text is read from state d.  Padding ends the data once the
      quad is full; padding before that is skipped, as is any foreign character; a
      text that ends inside a quad is an error. */
  function Run(d: Decoder, text: string): Option<seq<Byte>>
    requires d.Ok()
    decreases |text|
  {
    if text == "" then if d.quad == 0 then Some(d.out) else None
    else if text[0] == '=' then
      if d.quad >= 2 && d.quad + d.pads + 1 >= 4 then Some(d.out)
      else Run(d.(pads := if d.quad >= 2 then d.pads + 1 else d.pads), text[1..])
    else if IsDigit(text[0]) then Run(Take(d, ValueOf(text[0])), text[1..])
    else Run(d, text[1..])
  }

  /** b64decode of a string: None where it raises. */
  function Decode(text: string): Option<seq<Byte>> {
    if exists i | 0 <= i < |text| :: text[i] >= 128 as char then None else Run(START, text)
  }

  // ------------------------------------------------------------------ round trip

  function TakeAll(d: Decoder, vs: seq<Sextet>): (e: Decoder)
    requires d.Ok()
    ensures e.Ok()
    decreases |vs|
  {
    if vs == [] then d else TakeAll(Take(d, vs[0]), vs[1..])
  }

  lemma {:induction false} RunDigits(d: Decoder, vs: seq<Sextet>, rest: string)
    requires d.Ok()
    ensures Run(d, Digits(vs) + rest) == Run(TakeAll(d, vs), rest)
    decreases |vs|
  {
    if vs == [] {
      assert Digits(vs) + rest == rest;
    } else {
      var text := Digits(vs) + rest;
      ValueOfDigit(vs[0]);
      assert text[1..] == Digits(vs[1..]) + rest;
      RunDigits(Take(d, vs[0]), vs[1..], rest);
    }
  }

  lemma TakeTwo(d: Decoder, v: Sextet, w: Sextet, vs: seq<Sextet>)
    requires d.Ok()
    ensures TakeAll(d, [v, w] + vs) == TakeAll(Take(Take(d, v), w), vs)
  {
    assert ([v, w] + vs)[1..] == [w] + vs;
    assert ([w] + vs)[1..] == vs;
  }

  /** The state after the digits of the bytes, before any padding. */
  function TakenBytes(out: seq<Byte>, bytes: seq<Byte>): Decoder {
    Decoder(match |bytes| % 3 case 0 => 0 case 1 => 2 case _ => 3, 0, 0, out + bytes)
  }

  /** Two digits from the start of a group: one byte, and four bits left over. */
  lemma TakePair(out: seq<Byte>, v: Sextet, w: Sextet, vs: seq<Sextet>)
    ensures TakeAll(Decoder(0, 0, 0, out), [v, w] + vs) ==
            TakeAll(Decoder(2, w % 16, 0, out + [v * 4 + w / 16]), vs)
  {
    TakeTwo(Decoder(0, 0, 0, out), v, w, vs);
  }

  /** The other two: two more bytes, and the group is done. */
  lemma TakeRest(left: nat, out: seq<Byte>, v: Sextet, w: Sextet, vs: seq<Sextet>)
    requires left < 16
    ensures TakeAll(Decoder(2, left, 0, out), [v, w] + vs) ==
            TakeAll(Decoder(0, 0, 0, out + [left * 16 + v / 4] + [v % 4 * 64 + w]), vs)
  {
    TakeTwo(Decoder(2, left, 0, out), v, w, vs);
  }

  lemma TakeThird(left: nat, out: seq<Byte>, v: Sextet)
    requires left < 16
    ensures TakeAll(Decoder(2, left, 0, out), [v]) == Decoder(3, v % 4, 0, out + [left * 16 + v / 4])
  {
    assert [v][1..] == [];
  }

  /** The digits of three bytes hold them. */
  lemma Unpack(a: Byte, b: Byte, c: Byte)
    ensures a / 4 * 4 + (a % 4 * 16 + b / 16) / 16 == a
    ensures (a % 4 * 16 + b / 16) % 16 * 16 + (b % 16 * 4 + c / 64) / 4 == b
    ensures (b % 16 * 4 + c / 64) % 4 * 64 + c % 64 == c
  {
  }

  lemma TakeOne(out: seq<Byte>, a: Byte)
    ensures TakeAll(Decoder(0, 0, 0, out), Sextets([a])) == Decoder(2, 0, 0, out + [a])
  {
    Unpack(a, 0, 0);
    var v: Sextet, w: Sextet := a / 4, a % 4 * 16;
    assert [v, w] + [] == [v, w];
    TakePair(out, v, w, []);
  }

  lemma TakeBoth(out: seq<Byte>, a: Byte, b: Byte)
    ensures TakeAll(Decoder(0, 0, 0, out), Sextets([a, b])) == Decoder(3, 0, 0, out + [a] + [b])
  {
    Unpack(a, b, 0);
    var v: Sextet, w: Sextet, x: Sextet := a / 4, a % 4 * 16 + b / 16, b % 16 * 4;
    assert [v, w] + [x] == [v, w, x];
    TakePair(out, v, w, [x]);
    TakeThird(w % 16, out + [a], x);
  }

  lemma TakeFour(out: seq<Byte>, v: Sextet, w: Sextet, x: Sextet, y: Sextet, vs: seq<Sextet>)
    ensures TakeAll(Decoder(0, 0, 0, out), [v, w, x, y] + vs) ==
            TakeAll(Decoder(0, 0, 0, out + [v * 4 + w / 16] + [w % 16 * 16 + x / 4] + [x % 4 * 64 + y]), vs)
  {
    assert [v, w, x, y] + vs == [v, w] + ([x, y] + vs);
    TakePair(out, v, w, [x, y] + vs);
    TakeRest(w % 16, out + [v * 4 + w / 16], x, y, vs);
  }

  /** The same with the bytes named. */
  lemma TakeNamed(out: seq<Byte>, a: Byte, b: Byte, c: Byte, v: Sextet, w: Sextet, x: Sextet, y: Sextet,
                  vs: seq<Sextet>)
    requires v * 4 + w / 16 == a && w % 16 * 16 + x / 4 == b && x % 4 * 64 + y == c
    ensures TakeAll(Decoder(0, 0, 0, out), [v, w, x, y] + vs) == TakeAll(Decoder(0, 0, 0, out + [a] + [b] + [c]), vs)
  {
    TakeFour(out, v, w, x, y, vs);
  }

  lemma SextetsOf(bytes: seq<Byte>) returns (v: Sextet, w: Sextet, x: Sextet, y: Sextet)
    requires |bytes| >= 3
    ensures Sextets(bytes) == [v, w, x, y] + Sextets(bytes[3..])
    ensures v * 4 + w / 16 == bytes[0] && w % 16 * 16 + x / 4 == bytes[1] && x % 4 * 64 + y == bytes[2]
  {
    var a, b, c := bytes[0], bytes[1], bytes[2];
    v, w, x, y := a / 4, a % 4 * 16 + b / 16, b % 16 * 4 + c / 64, c % 64;
    Unpack(a, b, c);
  }

  lemma {:induction false} TakeSextets(out: seq<Byte>, bytes: seq<Byte>)
    ensures TakeAll(Decoder(0, 0, 0, out), Sextets(bytes)) == TakenBytes(out, bytes)
    decreases |bytes|
  {
    if bytes == [] {
      assert out + bytes == out;
    } else if |bytes| == 1 {
      TakeOne(out, bytes[0]);
      assert bytes == [bytes[0]];
    } else if |bytes| == 2 {
      TakeBoth(out, bytes[0], bytes[1]);
      assert bytes == [bytes[0], bytes[1]];
      assert out + [bytes[0]] + [bytes[1]] == out + bytes;
    } else {
      var more := out + [bytes[0]] + [bytes[1]] + [bytes[2]];
      var v, w, x, y := SextetsOf(bytes);
      TakeNamed(out, bytes[0], bytes[1], bytes[2], v, w, x, y, Sextets(bytes[3..]));
      TakeSextets(more, bytes[3..]);
      assert out + bytes == more + bytes[3..];
    }
  }

  lemma {:induction false} EncodeShape(bytes: seq<Byte>)
    ensures |Sextets(bytes)| == (|bytes| * 4 + 2) / 3
    decreases |bytes|
  {
    if |bytes| >= 3 {
      EncodeShape(bytes[3..]);
    }
  }

  lemma {:induction false} DigitsShape(vs: seq<Sextet>)
    ensures |Digits(vs)| == |vs| && forall i | 0 <= i < |vs| :: IsDigit(Digits(vs)[i])
    decreases |vs|
  {
    if vs != [] {
      DigitsShape(vs[1..]);
    }
  }

  /** Decoding what was encoded gives the bytes back, for every byte sequence. */
  lemma RoundTrip(bytes: seq<Byte>)
    ensures Decode(Encode(bytes)) == Some(bytes)
  {
    DigitsShape(Sextets(bytes));
    RunDigits(START, Sextets(bytes), Padding(|bytes|));
    TakeSextets([], bytes);
    assert [] + bytes == bytes;
    assert "=="[1..] == "=";
  }

  /** What is left of a text without its foreign characters. */
  function Cleaned(text: string): string {
    if text == "" then ""
    else (if IsDigit(text[0]) || text[0] == '=' then [text[0]] else "") + Cleaned(text[1..])
  }

  lemma {:induction false} RunsCleaned(d: Decoder, text: string)
    requires d.Ok()
    ensures Run(d, text) == Run(d, Cleaned(text))
    decreases |text|
  {
    if text != "" {
      if IsDigit(text[0]) {
        RunsCleaned(Take(d, ValueOf(text[0])), text[1..]);
      } else if text[0] == '=' {
        RunsCleaned(d.(pads := if d.quad >= 2 then d.pads + 1 else d.pads), text[1..]);
      } else {
        RunsCleaned(d, text[1..]);
      }
      if IsDigit(text[0]) || text[0] == '=' {
        assert Cleaned(text)[1..] == Cleaned(text[1..]);
      } else {
        assert Cleaned(text) == Cleaned(text[1..]);
      }
    }
  }

  lemma {:induction false} CleanedIsAscii(text: string)
    ensures forall i | 0 <= i < |Cleaned(text)| :: Cleaned(text)[i] < 128 as char
    decreases |text|
  {
    if text != "" {
      CleanedIsAscii(text[1..]);
    }
  }

  /** Foreign ASCII characters anywhere in a text change nothing. */
  lemma ForeignIsSkipped(text: string)
    requires forall i | 0 <= i < |text| :: text[i] < 128 as char
    ensures Decode(text) == Decode(Cleaned(text))
  {
    RunsCleaned(START, text);
    CleanedIsAscii(text);
  }

  lemma {:induction false} QuadOf(d: Decoder, vs: seq<Sextet>)
    requires d.Ok()
    ensures TakeAll(d, vs).quad == (d.quad + |vs|) % 4
    decreases |vs|
  {
    if vs != [] {
      QuadOf(Take(d, vs[0]), vs[1..]);
    }
  }

  /** Digits that end inside a group of four, without padding, are an error. */
  lemma CutShort(vs: seq<Sextet>)
    requires |vs| % 4 != 0
    ensures Decode(Digits(vs)) == None
  {
    RunDigits(START, vs, "");
    QuadOf(START, vs);
    assert Digits(vs) + "" == Digits(vs);
  }

  lemma {:induction false} DigitsStep(v: Sextet, vs: seq<Sextet>)
    ensures Digits([v] + vs) == [Digit(v)] + Digits(vs)
  {
    assert ([v] + vs)[1..] == vs;
  }

  lemma TwoDigits(v: Sextet, w: Sextet, rest: seq<Sextet>)
    ensures Digits([v] + ([w] + rest)) == [Digit(v)] + ([Digit(w)] + Digits(rest))
  {
    DigitsStep(v, [w] + rest);
    DigitsStep(w, rest);
  }

  /** Test vectors of section 10 of RFC 4648: f, fo and foo. */
  lemma TestVectors()
    ensures Encode([102]) == "Zg=="
    ensures Encode([102, 111]) == "Zm8="
    ensures Encode([102, 111, 111]) == "Zm9v"
  {
    assert Sextets([102]) == [25] + ([32] + []);
    TwoDigits(25, 32, []);
    assert Sextets([102, 111]) == [25] + ([38] + ([60] + []));
    TwoDigits(25, 38, [60] + []);
    DigitsStep(60, []);
    assert [102, 111, 111][3..] == [];
    assert Sextets([102, 111, 111]) == [25] + ([38] + ([61] + ([47] + [])));
    TwoDigits(25, 38, [61] + ([47] + []));
    TwoDigits(61, 47, []);
  }
}

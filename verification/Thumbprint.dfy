/** credential_thumbprint: one thumbprint, whichever way the directory spells it. */
module Thumbprint {
  import opened Common
  import opened Base64

  type Digest = d: seq<Byte> | |d| == 20 witness seq(20, i => 0)

  predicate IsSpace(c: char) {
    c == ' ' || '\t' <= c <= '\r' || 28 as char <= c <= 31 as char
  }

  function Strip(s: string): (r: string)
    ensures |r| <= |s|
    ensures (forall i | 0 <= i < |s| :: !IsSpace(s[i])) ==> r == s
  {
    if s != "" && IsSpace(s[0]) then Strip(s[1..])
    else if s != "" && IsSpace(s[|s| - 1]) then Strip(s[..|s| - 1])
    else s
  }

  function DropColons(s: string): (r: string)
    ensures |r| <= |s|
  {
    if s == "" then "" else (if s[0] == ':' then "" else [s[0]]) + DropColons(s[1..])
  }

  function UpperChar(c: char): char {
    if 'a' <= c <= 'z' then c - 'a' + 'A' else c
  }

  function Upper(s: string): (r: string)
    ensures |r| == |s|
  {
    if s == "" then "" else [UpperChar(s[0])] + Upper(s[1..])
  }

  predicate IsHex(c: char) {
    '0' <= c <= '9' || 'A' <= c <= 'F'
  }

  function Nibble(v: int): (c: char)
    requires 0 <= v < 16
    ensures IsHex(c)
  {
    if v < 10 then '0' + v as char else 'A' + (v - 10) as char
  }

  /** bytes.hex().upper() */
  function HexUpper(bytes: seq<Byte>): string {
    if bytes == [] then "" else [Nibble(bytes[0] / 16), Nibble(bytes[0] % 16)] + HexUpper(bytes[1..])
  }

  function Of(identifier: string): string {
    var candidate := Upper(DropColons(Strip(identifier)));
    if |candidate| == 40 && (forall i | 0 <= i < |candidate| :: IsHex(candidate[i])) then candidate
    else
      match Decode(identifier)
      case None => ""
      case Some(bytes) => HexUpper(bytes)
  }

  // ---------------------------------------------------------------- spellings

  function Cased(c: char, low: bool): char
    requires IsHex(c)
  {
    if low && 'A' <= c <= 'F' then c - 'A' + 'a' else c
  }

  /** How one byte is written: the case of its digits, and whether a colon goes before it. */
  datatype Style = Style(colon: bool, lowHigh: bool, lowLow: bool)

  function HexByte(b: Byte, style: Style): string {
    (if style.colon then ":" else "") + [Cased(Nibble(b / 16), style.lowHigh), Cased(Nibble(b % 16), style.lowLow)]
  }

  /** Any hexadecimal spelling: each digit in either case, colons wherever they fall. */
  function HexForm(bytes: seq<Byte>, styles: seq<Style>): string
    requires |styles| == |bytes|
  {
    if bytes == [] then "" else HexByte(bytes[0], styles[0]) + HexForm(bytes[1..], styles[1..])
  }

  /** The two ways a directory spells the thumbprint of a digest. */
  datatype Form = Hex(styles: seq<Style>) | Base64Text

  predicate Fits(form: Form) {
    form.Hex? ==> |form.styles| == 20
  }

  function Spell(digest: Digest, form: Form): string
    requires Fits(form)
  {
    match form
    case Hex(styles) => HexForm(digest, styles)
    case Base64Text => Encode(digest)
  }

  lemma {:induction false} HexShape(bytes: seq<Byte>)
    ensures |HexUpper(bytes)| == 2 * |bytes|
    ensures forall i | 0 <= i < |HexUpper(bytes)| :: IsHex(HexUpper(bytes)[i])
    decreases |bytes|
  {
    if bytes != [] {
      HexShape(bytes[1..]);
    }
  }

  lemma NibbleInjective(v: int, w: int)
    requires 0 <= v < 16 && 0 <= w < 16 && Nibble(v) == Nibble(w)
    ensures v == w
  {
  }

  lemma {:induction false} HexInjective(a: seq<Byte>, b: seq<Byte>)
    requires HexUpper(a) == HexUpper(b) && |a| == |b|
    ensures a == b
    decreases |a|
  {
    if a != [] {
      var x, y := HexUpper(a), HexUpper(b);
      assert x[0] == y[0] && x[1] == y[1];
      NibbleInjective(a[0] / 16, b[0] / 16);
      NibbleInjective(a[0] % 16, b[0] % 16);
      assert x[2..] == HexUpper(a[1..]) && y[2..] == HexUpper(b[1..]);
      HexInjective(a[1..], b[1..]);
      assert a == [a[0]] + a[1..] && b == [b[0]] + b[1..];
    }
  }

  lemma {:induction false} DropColonsAdds(s: string, t: string)
    ensures DropColons(s + t) == DropColons(s) + DropColons(t)
    decreases |s|
  {
    if s == "" {
      assert s + t == t;
    } else {
      assert (s + t)[1..] == s[1..] + t;
      DropColonsAdds(s[1..], t);
    }
  }

  lemma {:induction false} UpperAdds(s: string, t: string)
    ensures Upper(s + t) == Upper(s) + Upper(t)
    decreases |s|
  {
    if s == "" {
      assert s + t == t;
    } else {
      assert (s + t)[1..] == s[1..] + t;
      UpperAdds(s[1..], t);
    }
  }

  lemma DigitsClean(high: char, low: char, highIsLow: bool, lowIsLow: bool)
    requires IsHex(high) && IsHex(low)
    ensures var digits := [Cased(high, highIsLow), Cased(low, lowIsLow)];
            DropColons(digits) == digits && Upper(digits) == [high, low] && !IsSpace(digits[0]) && !IsSpace(digits[1])
  {
    var digits := [Cased(high, highIsLow), Cased(low, lowIsLow)];
    assert digits[1..] == [digits[1]] && digits[1..][1..] == "";
    assert UpperChar(digits[0]) == high && UpperChar(digits[1]) == low;
  }

  /** Each small letter reads as its capital, and every other character as itself. */
  lemma {:induction false} UpperRows(s: string, i: nat, k: nat)
    requires i < |s| && k < 26
    ensures s[i] == LOWER_CASE[k] ==> Upper(s)[i] == UPPER_CASE[k]
    ensures s[i] !in LOWER_CASE ==> Upper(s)[i] == s[i]
    decreases |s|
  {
    Rows();
    InRow(LOWER_CASE, 'a', s[i]);
    if i > 0 {
      UpperRows(s[1..], i - 1, k);
    }
  }

  /** The white space of str.strip in ASCII: the space, tab to carriage return, and the
      four separators. */
  lemma SpaceSet(c: char)
    ensures IsSpace(c) <==>
            || c == ' ' || c == '\t' || c == '\n' || c == '\U{0B}' || c == '\U{0C}' || c == '\r'
            || c == '\U{1C}' || c == '\U{1D}' || c == '\U{1E}' || c == '\U{1F}'
  {
  }

  /** Strip takes all the white space at both ends, and nothing else. */
  lemma {:induction false} StripTakes(before: string, s: string, behind: string)
    requires forall i | 0 <= i < |before| :: IsSpace(before[i])
    requires forall i | 0 <= i < |behind| :: IsSpace(behind[i])
    requires s != "" && !IsSpace(s[0]) && !IsSpace(s[|s| - 1])
    ensures Strip(before + s + behind) == s
    decreases |before| + |behind|
  {
    var whole := before + s + behind;
    if before != "" {
      assert whole[0] == before[0] && whole[1..] == before[1..] + s + behind;
      StripTakes(before[1..], s, behind);
    } else if behind != "" {
      assert whole[0] == s[0] && whole[|whole| - 1] == behind[|behind| - 1];
      assert whole[..|whole| - 1] == before + s + behind[..|behind| - 1];
      StripTakes(before, s, behind[..|behind| - 1]);
    } else {
      assert whole == s;
    }
  }

  lemma HexNumerals(v: int)
    requires 0 <= v < 16
    ensures Nibble(v) == (NUMERALS + "ABCDEF")[v]
  {
    Rows();
    assert Row("ABCDEF", 'A');
  }

  /** Two digits for each byte, the high half first. */
  lemma {:induction false} HexReads(bytes: seq<Byte>, i: nat)
    requires i < |bytes|
    ensures |HexUpper(bytes)| == 2 * |bytes|
    ensures HexUpper(bytes)[2 * i] == (NUMERALS + "ABCDEF")[bytes[i] / 16]
    ensures HexUpper(bytes)[2 * i + 1] == (NUMERALS + "ABCDEF")[bytes[i] % 16]
    decreases |bytes|
  {
    HexNumerals(bytes[i] / 16);
    HexNumerals(bytes[i] % 16);
    if i > 0 {
      HexReads(bytes[1..], i - 1);
    } else if |bytes| > 1 {
      HexReads(bytes[1..], 0);
    }
  }

  lemma HexByteCleans(b: Byte, style: Style)
    ensures Upper(DropColons(HexByte(b, style))) == [Nibble(b / 16), Nibble(b % 16)]
    ensures forall i | 0 <= i < |HexByte(b, style)| :: !IsSpace(HexByte(b, style)[i])
  {
    var digits := [Cased(Nibble(b / 16), style.lowHigh), Cased(Nibble(b % 16), style.lowLow)];
    DigitsClean(Nibble(b / 16), Nibble(b % 16), style.lowHigh, style.lowLow);
    if style.colon {
      assert HexByte(b, style) == ":" + digits && (":" + digits)[1..] == digits;
    } else {
      assert HexByte(b, style) == digits;
    }
  }

  lemma {:induction false} HexFormCleans(bytes: seq<Byte>, styles: seq<Style>)
    requires |styles| == |bytes|
    ensures Upper(DropColons(HexForm(bytes, styles))) == HexUpper(bytes)
    ensures forall i | 0 <= i < |HexForm(bytes, styles)| :: !IsSpace(HexForm(bytes, styles)[i])
    decreases |bytes|
  {
    if bytes != [] {
      var first, rest := HexByte(bytes[0], styles[0]), HexForm(bytes[1..], styles[1..]);
      HexByteCleans(bytes[0], styles[0]);
      HexFormCleans(bytes[1..], styles[1..]);
      DropColonsAdds(first, rest);
      UpperAdds(DropColons(first), DropColons(rest));
    }
  }

  // ------------------------------------------------------------------- theorems

  /** Every spelling of a digest is read as its 40 upper-case hexadecimal digits. */
  lemma SpellingDoesNotMatter(digest: Digest, form: Form)
    requires Fits(form)
    ensures Of(Spell(digest, form)) == HexUpper(digest) && |HexUpper(digest)| == 40
  {
    HexShape(digest);
    match form
    case Hex(styles) => HexFormCleans(digest, styles);
    case Base64Text =>
      // 28 characters cannot leave 40 after stripping and dropping colons
      DigitsShape(Sextets(digest));
      EncodeShape(digest);
      RoundTrip(digest);
  }

  /** Whatever the directory returns, what is read is upper-case hexadecimal digits. */
  lemma OnlyHexIsRead(identifier: string)
    ensures forall i | 0 <= i < |Of(identifier)| :: Of(identifier)[i] in NUMERALS || Of(identifier)[i] in "ABCDEF"
  {
    Rows();
    assert Row("ABCDEF", 'A');
    var read := Of(identifier);
    match Decode(identifier) {
      case Some(bytes) => HexShape(bytes);
      case None =>
    }
    forall i | 0 <= i < |read| ensures read[i] in NUMERALS || read[i] in "ABCDEF" {
      InRow(NUMERALS, '0', read[i]);
      InRow("ABCDEF", 'A', read[i]);
      assert IsHex(read[i]);
    }
  }

  /** Two spellings are read alike exactly when they spell the same digest. */
  lemma NeverConfused(a: Digest, formA: Form, b: Digest, formB: Form)
    requires Fits(formA) && Fits(formB)
    ensures Of(Spell(a, formA)) == Of(Spell(b, formB)) <==> a == b
  {
    SpellingDoesNotMatter(a, formA);
    SpellingDoesNotMatter(b, formB);
    if HexUpper(a) == HexUpper(b) {
      HexInjective(a, b);
    }
  }
}

/**
 Identifiers (codecs/scalars.go): uint64 values as base58 text and back. The
 base58 alphabet and algorithms are those of the sections "Base58 Encoding
 Algorithm" and "Base58 Decoding Algorithm" of draft-msporny-base58.
 */
module Ids {
  import opened Basics
  import opened Numbers
  import opened Decimals

  const MAX_ID: int := 0xFFFF_FFFF_FFFF_FFFF

  type Byte = x: int | 0 <= x < 256

  datatype IdError = Required | Malformed | IdTooLarge

  // ---------- Bytes ----------

  /** `big.Int.Bytes`: big endian, no leading zero. */
  function MinBytes(n: nat): seq<Byte> {
    if n == 0 then [] else MinBytes(n / 256) + [n % 256]
  }

  function BytesValue(s: seq<Byte>): nat {
    if s == [] then 0 else 256 * BytesValue(Init(s)) + Last(s)
  }

  lemma {:induction false} BytesRoundTrip(n: nat)
    ensures BytesValue(MinBytes(n)) == n && (n > 0 ==> MinBytes(n) != [] && MinBytes(n)[0] != 0)
  {
    if n != 0 {
      BytesRoundTrip(n / 256);
      assert Init(MinBytes(n)) == MinBytes(n / 256);
    }
  }

  // ---------- Base58 ----------

  /** The alphabet in its order: 1 to 9, A to Z without I and O, a to z without l. */
  function DigitChar(d: nat): (c: char)
    requires d < 58
    ensures IndexOf(c) == d
  {
    if d < 9 then '1' + d as char
    else if d < 17 then 'A' + (d - 9) as char
    else if d < 22 then 'J' + (d - 17) as char
    else if d < 33 then 'P' + (d - 22) as char
    else if d < 44 then 'a' + (d - 33) as char
    else 'm' + (d - 44) as char
  }

  /** The digit of a character, or -1 outside the alphabet. */
  function IndexOf(c: char): (i: int)
    ensures -1 <= i < 58
  {
    if '1' <= c <= '9' then c as int - '1' as int
    else if 'A' <= c <= 'H' then c as int - 'A' as int + 9
    else if 'J' <= c <= 'N' then c as int - 'J' as int + 17
    else if 'P' <= c <= 'Z' then c as int - 'P' as int + 22
    else if 'a' <= c <= 'k' then c as int - 'a' as int + 33
    else if 'm' <= c <= 'z' then c as int - 'm' as int + 44
    else -1
  }

  function Base58Digits(n: nat): string {
    if n == 0 then "" else Base58Digits(n / 58) + [DigitChar(n % 58)]
  }

  predicate InAlphabet(s: string) {
    forall i :: 0 <= i < |s| ==> IndexOf(s[i]) >= 0
  }

  function Base58Value(s: string): nat
    requires InAlphabet(s)
  {
    if s == [] then 0
    else
      assert IndexOf(s[|s| - 1]) >= 0;
      58 * Base58Value(Init(s)) + IndexOf(Last(s))
  }

  function LeadingZeros(s: seq<Byte>): nat {
    if s != [] && s[0] == 0 then 1 + LeadingZeros(s[1..]) else 0
  }

  function LeadingOnes(s: string): nat {
    if s != [] && s[0] == '1' then 1 + LeadingOnes(s[1..]) else 0
  }

  /** Each leading zero byte is a '1'; the number follows in base 58. */
  function Encode(bytes: seq<Byte>): string {
    seq(LeadingZeros(bytes), _ => '1') + Base58Digits(BytesValue(bytes))
  }

  /** The inverse; an empty text or a character outside the alphabet is refused. */
  function Decode(s: string): Option<seq<Byte>> {
    if s == [] || !InAlphabet(s) then None
    else Some(seq(LeadingOnes(s), _ => 0) + MinBytes(Base58Value(s)))
  }

  lemma {:induction false} DigitsRoundTrip(n: nat)
    ensures InAlphabet(Base58Digits(n)) && Base58Value(Base58Digits(n)) == n
  {
    if n != 0 {
      DigitsRoundTrip(n / 58);
      var s := Base58Digits(n);
      assert Init(s) == Base58Digits(n / 58);
      forall i | 0 <= i < |s| ensures IndexOf(s[i]) >= 0 {
        if i < |s| - 1 { assert s[i] == Init(s)[i]; }
      }
    }
  }

  /** Leading zeros do not change what the bytes mean. */
  lemma {:induction false} ZeroBytes(n: nat, s: seq<Byte>)
    ensures BytesValue(seq(n, _ => 0) + s) == BytesValue(s)
    decreases |s|, n
  {
    var z: seq<Byte> := seq(n, _ => 0);
    if s != [] {
      assert Init(z + s) == z + Init(s);
      ZeroBytes(n, Init(s));
    } else if n > 0 {
      var y: seq<Byte> := seq(n - 1, _ => 0);
      assert Init(z + s) == y + s;
      ZeroBytes(n - 1, s);
    } else {
      assert z + s == [];
    }
  }

  /** What decoding means: the number the text is in base 58. */
  lemma DecodedValue(s: string)
    requires s != [] && InAlphabet(s)
    ensures Decode(s).Some? && BytesValue(Decode(s).value) == Base58Value(s)
  {
    ZeroBytes(LeadingOnes(s), MinBytes(Base58Value(s)));
    BytesRoundTrip(Base58Value(s));
  }

  // ---------- Identifiers ----------

  function FormatID(id: nat): string {
    if id == 0 then Encode([0]) else Encode(MinBytes(id))
  }

  /** Base58 or decimal; digits alone are base58 when they are the canonical base58 of some id. */
  function IDToInt(raw: string): Result<nat, IdError> {
    var value := TrimSpace(raw);
    if value == "" then Err(Required)
    else if AllDigits(value) then
      var d := NatValue(value);
      if d > MAX_ID then Err(IdTooLarge)
      else match Decode(value)
        case Some(bytes) => if BytesValue(bytes) <= MAX_ID && FormatID(BytesValue(bytes)) == value then
          Ok(BytesValue(bytes)) else Ok(d)
        case None => Ok(d)
    else match Decode(value)
      case None => Err(Malformed)
      case Some(bytes) => if BytesValue(bytes) > MAX_ID then Err(IdTooLarge) else Ok(BytesValue(bytes))
  }

  /** The text of an id is its base 58 digits, "1" for zero. */
  lemma IdText(id: nat)
    ensures FormatID(id) == if id == 0 then "1" else Base58Digits(id)
    ensures FormatID(id) != "" && InAlphabet(FormatID(id)) && Base58Value(FormatID(id)) == id
  {
    if id == 0 {
      ZeroText();
    } else {
      PositiveText(id);
    }
  }

  lemma ZeroText()
    ensures FormatID(0) == "1" && InAlphabet("1") && Base58Value("1") == 0
  {
    assert LeadingZeros([0]) == 1 by { assert [0][1..] == []; }
    assert BytesValue([0]) == 0 by { assert Init([0]) == []; }
    assert FormatID(0) == ['1'] + "";
    assert Init("1") == "";
  }

  lemma PositiveText(id: nat)
    requires id > 0
    ensures FormatID(id) == Base58Digits(id)
    ensures FormatID(id) != "" && InAlphabet(FormatID(id)) && Base58Value(FormatID(id)) == id
  {
    BytesRoundTrip(id);
    DigitsRoundTrip(id);
    hide Base58Value, MinBytes, BytesValue;
    assert FormatID(id) == "" + Base58Digits(id);
  }

  /** Powers of 58, to bound how long an id can be. */
  function Pow58(n: nat): nat {
    if n == 0 then 1 else 58 * Pow58(n - 1)
  }

  lemma {:induction false} LengthBound(id: nat, n: nat)
    requires id < Pow58(n)
    ensures |Base58Digits(id)| <= n
  {
    if id != 0 {
      LengthBound(id / 58, n - 1);
    }
  }

  lemma ElevenDigitsSuffice()
    ensures MAX_ID < Pow58(11) && Pow10(11) <= MAX_ID
  {
    assert Pow58(1) == 58 && Pow58(2) == 3364 && Pow58(3) == 195112;
    assert Pow58(4) == 11316496 && Pow58(5) == 656356768 && Pow58(6) == 38068692544;
    assert Pow58(7) == 2207984167552 && Pow58(8) == 128063081718016 && Pow58(9) == 7427658739644928;
    assert Pow58(10) == 430804206899405824;
    assert Pow10(1) == 10 && Pow10(2) == 100 && Pow10(3) == 1000 && Pow10(4) == 10000;
    Pow10Sum(4, 4);
    Pow10Sum(8, 3);
  }

  lemma NoSpaceInAlphabet(s: string)
    requires InAlphabet(s)
    ensures TrimSpace(s) == s
  {
    if s != "" {
      AlphabetNotSpace(s[0]);
      assert IndexOf(s[|s| - 1]) >= 0;
      AlphabetNotSpace(Last(s));
    }
  }

  lemma AlphabetNotSpace(c: char)
    requires IndexOf(c) >= 0
    ensures !IsSpace(c)
  {
  }

  /** Every uint64 id reads back from its text, digits-only texts included. */
  lemma IdRoundTrip(id: nat)
    requires id <= MAX_ID
    ensures IDToInt(FormatID(id)) == Ok(id)
  {
    var text := FormatID(id);
    IdText(id);
    DecodedValue(text);
    NoSpaceInAlphabet(text);
    if AllDigits(text) {
      ElevenDigitsSuffice();
      LengthBound(id, 11);
      ValueBound(text);
      ShortDecimal(|text|);
    }
  }

  lemma {:induction false} ShortDecimal(n: nat)
    requires n <= 11
    ensures Pow10(n) <= Pow10(11)
    decreases 11 - n
  {
    if n < 11 { ShortDecimal(n + 1); }
  }

  /** A decimal with a zero among its digits is no base58 text, so it reads as the number it is. */
  lemma DecimalWithZero(n: nat)
    requires n <= MAX_ID && '0' in FormatNat(n)
    ensures IDToInt(FormatNat(n)) == Ok(n)
  {
    var text := FormatNat(n);
    ParseFormatted(n);
    assert TrimSpace(text) == text;
    var i :| 0 <= i < |text| && text[i] == '0';
    assert !InAlphabet(text);
  }

  /** Texts of different ids differ. */
  lemma IdsDistinct(a: nat, b: nat)
    requires FormatID(a) == FormatID(b)
    ensures a == b
  {
    IdText(a);
    IdText(b);
  }

  /** A digits-only text is the text of an id exactly when decoding it and printing what was decoded gives it back. */
  lemma DigitsAsId(text: string, id: nat)
    requires text != "" && id <= MAX_ID
    ensures text == FormatID(id) <==>
      && Decode(text).Some? && BytesValue(Decode(text).value) == id && FormatID(BytesValue(Decode(text).value)) == text
  {
    IdText(id);
    if text == FormatID(id) { DecodedValue(text); }
  }

  /**
   What every text reads as, surrounding spaces aside. Digits alone are the id whose text they are, if there is
   one, and otherwise the number they are; any other text is the number it is in base 58. Neither is beyond 64 bits.
   */
  lemma EveryIdText(raw: string)
    ensures var text := TrimSpace(raw);
      && (text == "" ==> IDToInt(raw) == Err(Required))
      && (text != "" && AllDigits(text) && NatValue(text) > MAX_ID ==> IDToInt(raw) == Err(IdTooLarge))
      && (text != "" && AllDigits(text) && NatValue(text) <= MAX_ID ==>
            && (forall id :: 0 <= id <= MAX_ID && text == FormatID(id) ==> IDToInt(raw) == Ok(id))
            && ((forall id :: 0 <= id <= MAX_ID ==> text != FormatID(id)) ==> IDToInt(raw) == Ok(NatValue(text))))
      && (text != "" && !AllDigits(text) ==>
            IDToInt(raw) == if !InAlphabet(text) then Err(Malformed)
                            else if Base58Value(text) > MAX_ID then Err(IdTooLarge)
                            else Ok(Base58Value(text)))
  {
    var text := TrimSpace(raw);
    if text != "" {
      if InAlphabet(text) { DecodedValue(text); }
      hide Decode, FormatID, BytesValue, Base58Value, NatValue;
      if AllDigits(text) {
        forall id | 0 <= id <= MAX_ID && NatValue(text) <= MAX_ID
          ensures text == FormatID(id) ==> IDToInt(raw) == Ok(id)
        {
          DigitsAsId(text, id);
        }
        if Decode(text).Some? && BytesValue(Decode(text).value) <= MAX_ID {
          DigitsAsId(text, BytesValue(Decode(text).value));
        }
      } else {
        DecodesAlphabet(text);
      }
    }
  }

  lemma DecodesAlphabet(text: string)
    requires text != ""
    ensures Decode(text).Some? <==> InAlphabet(text)
  {
  }
}

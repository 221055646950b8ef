/** Base58 text and Tron's base58check addresses (qeth/address.py). */
module Address {
  import opened Options
  import opened Radix
  import opened Text

  const B58_ALPHABET := "123456789" + "ABCDEFGH" + "JKLMN" + "PQRSTUVWXYZ" + "abcdefghijk" + "mnopqrstuvwxyz"

  /** The inverse table of the alphabet. */
  function B58Index(c: char): Option<nat> {
    if '1' <= c <= '9' then Some((c - '1') as nat)
    else if 'A' <= c <= 'H' then Some((c - 'A') as nat + 9)
    else if 'J' <= c <= 'N' then Some((c - 'J') as nat + 17)
    else if 'P' <= c <= 'Z' then Some((c - 'P') as nat + 22)
    else if 'a' <= c <= 'k' then Some((c - 'a') as nat + 33)
    else if 'm' <= c <= 'z' then Some((c - 'm') as nat + 44)
    else None
  }

  lemma IndexOfLetter(d: nat)
    requires d < 58
    ensures B58Index(B58_ALPHABET[d]) == Some(d)
  {
    AlphabetAt(d);
  }

  lemma LetterOfIndex(c: char)
    requires B58Index(c).Some?
    ensures B58Index(c).value < 58 && B58_ALPHABET[B58Index(c).value] == c
  {
    AlphabetAt(B58Index(c).value);
  }

  lemma AlphabetAt(d: nat)
    requires d < 58
    ensures |B58_ALPHABET| == 58
    ensures B58_ALPHABET[d] ==
      if d < 9 then '1' + d as char
      else if d < 17 then 'A' + (d - 9) as char
      else if d < 22 then 'J' + (d - 17) as char
      else if d < 33 then 'P' + (d - 22) as char
      else if d < 44 then 'a' + (d - 33) as char
      else 'm' + (d - 44) as char
  {
  }

  /** Digits written in the alphabet. */
  function Letters(ds: seq<nat>): (s: string)
    requires DigitsIn(58, ds)
    ensures |s| == |ds|
    ensures forall i | 0 <= i < |ds| :: s[i] == B58_ALPHABET[ds[i]]
  {
    seq(|ds|, i requires 0 <= i < |ds| => B58_ALPHABET[ds[i]])
  }

  /** A text of base58 characters only. */
  predicate IsB58(text: string) {
    forall i | 0 <= i < |text| :: B58Index(text[i]).Some?
  }

  function Indices(text: string): (ds: seq<nat>)
    requires IsB58(text)
    ensures |ds| == |text| && DigitsIn(58, ds)
    ensures forall i | 0 <= i < |text| :: ds[i] == B58Index(text[i]).value
  {
    seq(|text|, i requires 0 <= i < |text| => B58Index(text[i]).value)
  }

  /** What base58 means: leading zero bytes are kept one for one as the zero
      digit "1", and the rest is the same number in another radix. */
  function Encoded(data: seq<Byte>): string {
    Letters(Recode(256, 58, data))
  }

  function Decoded(text: string): (data: seq<Byte>)
    requires IsB58(text)
  {
    Recode(58, 256, Indices(text))
  }

  lemma LettersCons(r: nat, ds: seq<nat>)
    requires r < 58 && DigitsIn(58, ds)
    ensures DigitsIn(58, [r] + ds)
    ensures Letters([r] + ds) == [B58_ALPHABET[r]] + Letters(ds)
  {
  }

  lemma LettersOfZeros(k: nat, ds: seq<nat>)
    requires DigitsIn(58, ds)
    ensures DigitsIn(58, Zeros(k) + ds)
    ensures Letters(Zeros(k) + ds) == seq(k, _ => '1') + Letters(ds)
  {
    AlphabetAt(0);
  }

  method B58Encode(data: seq<Byte>) returns (text: string)
    ensures text == Encoded(data)
  {
    var n := Value(256, data);
    var out := "";
    ghost var ds: seq<nat> := [];
    while n != 0
      invariant DigitsIn(58, ds) && out == Letters(ds)
      invariant Numeral(58, n) + ds == Numeral(58, Value(256, data))
    {
      var r := n % 58;
      NumeralStep(58, n, ds);
      LettersCons(r, ds);
      ds := [r] + ds;
      out := [B58_ALPHABET[r]] + out;
      n := n / 58;
    }
    text := seq(LeadingZeros(data), _ => '1') + out;
    LettersOfZeros(LeadingZeros(data), ds);
    assert Numeral(58, 0) + ds == ds;
    assert Recode(256, 58, data) == Zeros(LeadingZeros(data)) + ds;
  }

  method B58Decode(text: string) returns (r: Option<seq<Byte>>)
    ensures r == if IsB58(text) then Some(Decoded(text)) else None
  {
    var n: nat := 0;
    for k := 0 to |text|
      invariant IsB58(text[..k]) && n == Value(58, Indices(text[..k]))
    {
      var i := B58Index(text[k]);
      assert text[..k + 1][k] == text[k];
      if i.None? {
        return None;
      }
      IndicesSnoc(text, k);
      n := n * 58 + i.value;
    }
    assert text[..|text|] == text;
    BodyOf(n);
    r := Some(Zeros(LeadingZeros(Indices(text))) + ToBytes(n, (BitLength(n) + 7) / 8));
  }

  lemma IndicesSnoc(text: string, k: nat)
    requires k < |text| && IsB58(text[..k]) && B58Index(text[k]).Some?
    ensures IsB58(text[..k + 1])
    ensures Value(58, Indices(text[..k + 1])) == Value(58, Indices(text[..k])) * 58 + B58Index(text[k]).value
  {
    assert text[..k + 1] == text[..k] + [text[k]];
    assert Indices(text[..k + 1])[..k] == Indices(text[..k]);
  }

  /** The bytes of a number, in just as many as its bit length takes. */
  lemma BodyOf(n: nat)
    ensures ToBytes(n, (BitLength(n) + 7) / 8) == Numeral(256, n)
  {
    ByteWidth(n);
    ToBytesIsNumeral(n, |Numeral(256, n)|);
  }

  /** Every byte string survives the trip through base58. */
  lemma DecodeAfterEncode(data: seq<Byte>)
    ensures IsB58(Encoded(data)) && Decoded(Encoded(data)) == data
  {
    IndicesOfLetters(Recode(256, 58, data));
    RecodeInverse(256, 58, data);
  }

  /** And every base58 text survives the trip through bytes. */
  lemma EncodeAfterDecode(text: string)
    requires IsB58(text)
    ensures Encoded(Decoded(text)) == text
  {
    RecodeInverse(58, 256, Indices(text));
    LettersOfIndices(text);
  }

  lemma IndicesOfLetters(ds: seq<nat>)
    requires DigitsIn(58, ds)
    ensures IsB58(Letters(ds)) && Indices(Letters(ds)) == ds
  {
    forall i | 0 <= i < |ds| ensures B58Index(Letters(ds)[i]) == Some(ds[i]) {
      IndexOfLetter(ds[i]);
    }
  }

  lemma LettersOfIndices(text: string)
    requires IsB58(text)
    ensures Letters(Indices(text)) == text
  {
    forall i | 0 <= i < |text| ensures Letters(Indices(text))[i] == text[i] {
      LetterOfIndex(text[i]);
    }
  }

  // Tron.

  const TRON_PREFIX: Byte := 0x41

  /** The checksum is any function to four bytes. */
  ghost predicate FourBytes(check: seq<Byte> -> seq<Byte>) {
    forall p :: |check(p)| == 4
  }

  /** Address casing (EIP-55 in the wallet) is any recasing of the letters. */
  ghost predicate Recases(casing: string -> string) {
    forall s :: Lower(casing(s)) == Lower(s)
  }

  predicate HasHexPrefix(addr: string) {
    Lower(addr[..if |addr| < 2 then |addr| else 2]) == "0x"
  }

  /** `tron_from_hex`. */
  function TronFromHex(check: seq<Byte> -> seq<Byte>, addr: string): Result<string> {
    match FromHex(if HasHexPrefix(addr) then addr[2..] else addr)
    case None => Raised("non-hexadecimal number found")
    case Some(raw) =>
      var body := if |raw| == 21 && raw[0] == TRON_PREFIX then raw[1..] else raw;
      if |body| != 20 then Raised("not a 20-byte address")
      else
        var payload := [TRON_PREFIX] + body;
        Ok(Encoded(payload + check(payload)))
  }

  /** `tron_to_hex`. */
  function TronToHex(check: seq<Byte> -> seq<Byte>, casing: string -> string, text: string): Option<string> {
    if !IsB58(Strip(text)) then None
    else
      var raw := Decoded(Strip(text));
      if |raw| != 25 then None
      else
        var payload, sum := raw[..21], raw[21..];
        if payload[0] != TRON_PREFIX || check(payload) != sum then None
        else Some(casing("0x" + ToHex(payload[1..])))
  }

  /** The base58check text of a 20-byte body. */
  function TronText(check: seq<Byte> -> seq<Byte>, body: seq<Byte>): string {
    Encoded([TRON_PREFIX] + body + check([TRON_PREFIX] + body))
  }

  /** The digits of a spelling: after the optional `0x`, in any casing, with any
      whitespace between bytes. */
  function SpelledDigits(addr: string): string {
    Lower(Despaced(if HasHexPrefix(addr) then addr[2..] else addr))
  }

  /** A body may be spelled bare or with the `41` prefix byte. */
  predicate Spells(addr: string, body: seq<Byte>) {
    |body| == 20 && (SpelledDigits(addr) == ToHex(body) || SpelledDigits(addr) == "41" + ToHex(body))
  }

  /** What a spelling denotes, and that nothing but a spelling is accepted. */
  lemma TronFromHexMeaning(check: seq<Byte> -> seq<Byte>, addr: string)
    ensures forall body | Spells(addr, body) :: TronFromHex(check, addr) == Ok(TronText(check, body))
    ensures TronFromHex(check, addr).Ok? <==> exists body :: Spells(addr, body)
  {
    var text := if HasHexPrefix(addr) then addr[2..] else addr;
    forall body | Spells(addr, body) ensures TronFromHex(check, addr) == Ok(TronText(check, body)) {
      HexOfPrefixed(body);
      FromHexExactly(text, body);
      FromHexExactly(text, [TRON_PREFIX] + body);
      assert ([TRON_PREFIX] + body)[1..] == body;
    }
    if TronFromHex(check, addr).Ok? {
      var raw := FromHex(text).value;
      FromHexExactly(text, raw);
      if |raw| == 21 {
        assert raw == [TRON_PREFIX] + raw[1..];
        HexOfPrefixed(raw[1..]);
        assert Spells(addr, raw[1..]);
      } else {
        assert Spells(addr, raw);
      }
    }
  }

  /** The plain spellings, in any casing. */
  lemma PlainSpelling(check: seq<Byte> -> seq<Byte>, addr: string, body: seq<Byte>)
    requires |body| == 20
    requires Lower(addr) in {ToHex(body), "0x" + ToHex(body), "41" + ToHex(body), "0x41" + ToHex(body)}
    ensures Spells(addr, body) && TronFromHex(check, addr) == Ok(TronText(check, body))
  {
    PlainlySpelled(addr, body);
    TronFromHexMeaning(check, addr);
  }

  lemma PlainlySpelled(addr: string, body: seq<Byte>)
    requires |body| == 20
    requires Lower(addr) in {ToHex(body), "0x" + ToHex(body), "41" + ToHex(body), "0x41" + ToHex(body)}
    ensures Spells(addr, body)
  {
    var text := if HasHexPrefix(addr) then addr[2..] else addr;
    if Lower(addr) == ToHex(body) || Lower(addr) == "0x" + ToHex(body) {
      SpellingDigits(addr, body);
      FromHexExactly(text, body);
    } else {
      PrefixedSpelling(addr, body);
      FromHexExactly(text, [TRON_PREFIX] + body);
      HexOfPrefixed(body);
    }
  }

  lemma PrefixedSpelling(addr: string, body: seq<Byte>)
    requires |body| == 20
    requires Lower(addr) == "41" + ToHex(body) || Lower(addr) == "0x41" + ToHex(body)
    ensures FromHex(if HasHexPrefix(addr) then addr[2..] else addr) == Some([TRON_PREFIX] + body)
    ensures ([TRON_PREFIX] + body)[1..] == body
  {
    HexOfPrefixed(body);
    assert "0x41" + ToHex(body) == "0x" + ("41" + ToHex(body));
    SpellingDigits(addr, [TRON_PREFIX] + body);
  }

  lemma HexOfPrefixed(body: seq<Byte>)
    ensures ToHex([TRON_PREFIX] + body) == "41" + ToHex(body)
  {
    assert ([TRON_PREFIX] + body)[1..] == body;
    assert [HEX_DIGITS[4], HEX_DIGITS[1]] == "41";
  }

  /** Dropping the optional `0x` leaves the hexadecimal text of the bytes. */
  lemma SpellingDigits(addr: string, data: seq<Byte>)
    requires data != []
    requires Lower(addr) == ToHex(data) || Lower(addr) == "0x" + ToHex(data)
    ensures FromHex(if HasHexPrefix(addr) then addr[2..] else addr) == Some(data)
  {
    var low := Lower(addr);
    assert Lower(addr[..2]) == low[..2];
    assert Lower(addr[2..]) == low[2..];
    if low == ToHex(data) {
      assert low[1] == HEX_DIGITS[data[0] % 16] != 'x';
      FromHexAnyCase(data, addr);
    } else {
      assert low[..2] == "0x";
      FromHexAnyCase(data, addr[2..]);
    }
  }

  /** Every Tron address has 34 characters and starts with "T". */
  lemma TronTextShape(check: seq<Byte> -> seq<Byte>, body: seq<Byte>)
    requires FourBytes(check) && |body| == 20
    ensures |TronText(check, body)| == 34 && TronText(check, body)[0] == 'T'
    ensures IsB58(TronText(check, body))
    ensures Decoded(TronText(check, body)) == [TRON_PREFIX] + body + check([TRON_PREFIX] + body)
    ensures Strip(TronText(check, body)) == TronText(check, body)
  {
    var data := [TRON_PREFIX] + body + check([TRON_PREFIX] + body);
    var rest := body + check([TRON_PREFIX] + body);
    assert data == [TRON_PREFIX] + rest;
    TronDigits(rest);
    assert LeadingZeros(data) == 0;
    assert Zeros(0) + Numeral(58, Value(256, data)) == Numeral(58, Value(256, data));
    assert B58_ALPHABET[26] == 'T';
    DecodeAfterEncode(data);
    B58NotSpace(TronText(check, body));
  }

  /** Twenty-four bytes after the prefix always make 34 base-58 digits, the first
      of them 26. */
  lemma TronDigits(rest: seq<Byte>)
    requires |rest| == 24
    ensures var ds := Numeral(58, Value(256, [TRON_PREFIX] + rest)); |ds| == 34 && ds[0] == 26
  {
    var n := Value(256, [TRON_PREFIX] + rest);
    ValueConcat(256, [TRON_PREFIX], rest);
    assert Value(256, [TRON_PREFIX]) == 0x41 by { assert Value(256, []) == 0; }
    ValueBound(256, rest);
    TronRange(n);
    ShiftOfRange(58, n, 33, 26);
    NumeralShape(58, n, 33, 26);
  }

  lemma B58NotSpace(text: string)
    requires IsB58(text)
    ensures Strip(text) == text
  {
    assert text != "" ==> B58Index(text[0]).Some? && B58Index(text[|text| - 1]).Some?;
  }

  /** The big-number bound: 25 bytes led by 0x41 lie between 26 and 27 times 58^33. */
  lemma TronRange(n: nat)
    requires 0x41 * Pow(256, 24) <= n < 0x42 * Pow(256, 24)
    ensures 26 * Pow(58, 33) <= n < 27 * Pow(58, 33)
  {
    PowAdd(256, 4, 4);
    PowAdd(256, 8, 4);
    PowAdd(256, 12, 12);
    PowAdd(58, 4, 4);
    PowAdd(58, 8, 8);
    PowAdd(58, 16, 16);
    PowAdd(58, 32, 1);
    assert Pow(256, 4) == 4294967296;
    assert Pow(256, 8) == 18446744073709551616;
    assert Pow(256, 12) == 79228162514264337593543950336;
    assert Pow(256, 24) == 6277101735386680763835789423207666416102355444464034512896;
    assert Pow(58, 4) == 11316496;
    assert Pow(58, 8) == 128063081718016;
    assert Pow(58, 16) == 16400152899115243850138976256;
    assert Pow(58, 32) == 268965015114358137726910587140455987105619365599731777536;
  }

  lemma {:induction false} PowAdd(b: nat, j: nat, k: nat)
    ensures Pow(b, j + k) == Pow(b, j) * Pow(b, k)
  {
    if k > 0 {
      PowAdd(b, j, k - 1);
      TimesAssociative(Pow(b, j), Pow(b, k - 1), b);
    }
  }

  /** From the wallet's hex form to `T…` and back: the same address. */
  lemma TronRoundTripFromHex(check: seq<Byte> -> seq<Byte>, casing: string -> string, addr: string, body: seq<Byte>)
    requires FourBytes(check) && Recases(casing) && |body| == 20
    requires Lower(addr) == "0x" + ToHex(body)
    ensures TronFromHex(check, addr).Ok?
    ensures TronToHex(check, casing, TronFromHex(check, addr).value).Some?
    ensures Lower(TronToHex(check, casing, TronFromHex(check, addr).value).value) == Lower(addr)
  {
    PlainSpelling(check, addr, body);
    TronTextShape(check, body);
    TronParts(body, check([TRON_PREFIX] + body));
    LowerOfHexAddress(body);
  }

  lemma LowerOfHexAddress(body: seq<Byte>)
    ensures Lower("0x" + ToHex(body)) == "0x" + ToHex(body)
  {
    LowerConcat("0x", ToHex(body));
    LowerOfHex(body);
    assert Lower("0x") == "0x";
  }

  lemma {:induction false} LowerOfHex(data: seq<Byte>)
    ensures Lower(ToHex(data)) == ToHex(data)
  {
    if data != [] {
      LowerOfHex(data[1..]);
      var hi, lo := HEX_DIGITS[data[0] / 16], HEX_DIGITS[data[0] % 16];
      LowerConcat([hi, lo], ToHex(data[1..]));
      assert LowerChar(hi) == hi && LowerChar(lo) == lo;
      assert Lower([hi, lo]) == [hi, lo];
    }
  }

  /** The text is an address of the body, with any whitespace around it. */
  ghost predicate Writes(check: seq<Byte> -> seq<Byte>, text: string, body: seq<Byte>) {
    |body| == 20 && exists pre, post :: Pads(text, pre, TronText(check, body), post)
  }

  /** A text is accepted exactly when it is, up to surrounding whitespace, the
      address of some body; and then that body is unique and is what is returned. */
  lemma TronToHexAccepts(check: seq<Byte> -> seq<Byte>, casing: string -> string, text: string)
    requires FourBytes(check) && Recases(casing)
    ensures TronToHex(check, casing, text).Some? <==> exists body: seq<Byte> :: Writes(check, text, body)
    ensures forall body: seq<Byte> | Writes(check, text, body) ::
              TronToHex(check, casing, text) == Some(casing("0x" + ToHex(body)))
  {
    forall body: seq<Byte> | Writes(check, text, body)
      ensures TronToHex(check, casing, text) == Some(casing("0x" + ToHex(body)))
    {
      WrittenStrips(check, text, body);
      AcceptsTronText(check, casing, text, body);
    }
    if TronToHex(check, casing, text).Some? {
      var body := AcceptedBody(check, casing, text);
      var pre, post := PadsOfStrip(text);
      assert Writes(check, text, body);
    }
  }

  lemma WrittenStrips(check: seq<Byte> -> seq<Byte>, text: string, body: seq<Byte>)
    requires FourBytes(check) && Writes(check, text, body)
    ensures Strip(text) == TronText(check, body)
  {
    var pre, post :| Pads(text, pre, TronText(check, body), post);
    TronTextShape(check, body);
    StripTrims(TronText(check, body));
    StripPadded(text, pre, TronText(check, body), post);
  }

  lemma AcceptsTronText(check: seq<Byte> -> seq<Byte>, casing: string -> string, text: string, body: seq<Byte>)
    requires FourBytes(check)
    requires |body| == 20 && Strip(text) == TronText(check, body)
    ensures TronToHex(check, casing, text) == Some(casing("0x" + ToHex(body)))
  {
    TronTextShape(check, body);
    TronParts(body, check([TRON_PREFIX] + body));
  }

  lemma TronParts(body: seq<Byte>, sum: seq<Byte>)
    requires |body| == 20
    ensures var raw := [TRON_PREFIX] + body + sum;
            raw[..21] == [TRON_PREFIX] + body && raw[21..] == sum && raw[0] == TRON_PREFIX
    ensures ([TRON_PREFIX] + body)[1..] == body
  {
  }

  lemma AcceptedBody(check: seq<Byte> -> seq<Byte>, casing: string -> string, text: string)
    returns (body: seq<Byte>)
    requires TronToHex(check, casing, text).Some?
    ensures |body| == 20 && Strip(text) == TronText(check, body)
  {
    var raw := Decoded(Strip(text));
    body := raw[1..21];
    assert [TRON_PREFIX] + body == raw[..21];
    assert raw[..21] + raw[21..] == raw;
    EncodeAfterDecode(Strip(text));
  }

  /** From a `T…` text to the wallet's hex form and back: the same text. */
  lemma TronRoundTripFromText(check: seq<Byte> -> seq<Byte>, casing: string -> string, text: string)
    requires FourBytes(check) && Recases(casing)
    requires TronToHex(check, casing, text).Some?
    ensures TronFromHex(check, TronToHex(check, casing, text).value) == Ok(Strip(text))
    ensures |Strip(text)| == 34 && Strip(text)[0] == 'T'
  {
    var body := AcceptedBody(check, casing, text);
    AcceptsTronText(check, casing, text, body);
    LowerOfHexAddress(body);
    PlainSpelling(check, casing("0x" + ToHex(body)), body);
    TronTextShape(check, body);
  }
}

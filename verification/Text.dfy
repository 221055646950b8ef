/** The string primitives the modelled code leans on: ASCII case folding,
    `str.strip`, and hexadecimal text. */
module Text {
  import opened Options
  import opened Radix

  predicate IsSpace(c: char) {
    c == ' ' || '\t' <= c <= '\r'
  }

  function LowerChar(c: char): char {
    if 'A' <= c <= 'Z' then c - 'A' + 'a' else c
  }

  function Lower(s: string): (r: string)
    ensures |r| == |s|
    ensures forall i | 0 <= i < |s| :: r[i] == LowerChar(s[i])
  {
    seq(|s|, i requires 0 <= i < |s| => LowerChar(s[i]))
  }

  lemma LowerConcat(a: string, b: string)
    ensures Lower(a + b) == Lower(a) + Lower(b)
  {
  }

  function StripLeft(s: string): string {
    if s != "" && IsSpace(s[0]) then StripLeft(s[1..]) else s
  }

  function StripRight(s: string): string {
    if s != "" && IsSpace(s[|s| - 1]) then StripRight(s[..|s| - 1]) else s
  }

  /** `str.strip()` for ASCII whitespace. */
  function Strip(s: string): string {
    StripRight(StripLeft(s))
  }

  /** A non-empty text that `strip` leaves alone. */
  predicate Trimmed(s: string) {
    s != "" && !IsSpace(s[0]) && !IsSpace(s[|s| - 1])
  }

  lemma {:induction false} StripLeftBounds(s: string)
    ensures |StripLeft(s)| <= |s|
    ensures StripLeft(s) == "" || !IsSpace(StripLeft(s)[0])
    ensures StripLeft(s) == s[|s| - |StripLeft(s)|..]
  {
    if s != "" && IsSpace(s[0]) {
      StripLeftBounds(s[1..]);
    }
  }

  lemma {:induction false} StripRightBounds(s: string)
    ensures |StripRight(s)| <= |s|
    ensures StripRight(s) == "" || !IsSpace(StripRight(s)[|StripRight(s)| - 1])
    ensures StripRight(s) == s[..|StripRight(s)|]
  {
    if s != "" && IsSpace(s[|s| - 1]) {
      StripRightBounds(s[..|s| - 1]);
    }
  }

  /** Stripping yields a trimmed text or nothing. */
  lemma StripTrims(s: string)
    ensures |Strip(s)| <= |s|
    ensures Strip(s) == "" || Trimmed(Strip(s))
  {
    StripLeftBounds(s);
    StripRightBounds(StripLeft(s));
  }

  /** Nothing but whitespace. */
  predicate Blank(s: string) {
    forall c | c in s :: c in {' ', '\t', '\n', '\U{0B}', '\U{0C}', '\r'}
  }

  lemma BlankIsSpace(s: string)
    ensures Blank(s) <==> forall c | c in s :: IsSpace(c)
  {
    forall c ensures IsSpace(c) <==> c in {' ', '\t', '\n', '\U{0B}', '\U{0C}', '\r'} {
      OneSpace(c);
    }
  }

  lemma OneSpace(c: char)
    ensures IsSpace(c) <==> c in {' ', '\t', '\n', '\U{0B}', '\U{0C}', '\r'}
  {
  }

  /** The text with whitespace around it. */
  predicate Pads(s: string, pre: string, t: string, post: string) {
    Blank(pre) && Blank(post) && s == pre + t + post
  }

  lemma {:induction false} StripLeftPadding(pre: string, t: string)
    requires forall c | c in pre :: IsSpace(c)
    ensures StripLeft(pre + t) == StripLeft(t)
  {
    if pre == "" {
      assert pre + t == t;
    } else {
      assert (pre + t)[1..] == pre[1..] + t;
      StripLeftPadding(pre[1..], t);
    }
  }

  lemma {:induction false} StripRightPadding(t: string, post: string)
    requires forall c | c in post :: IsSpace(c)
    ensures StripRight(t + post) == StripRight(t)
    decreases |post|
  {
    if post == "" {
      assert t + post == t;
    } else {
      var n := |post| - 1;
      assert (t + post)[..|t| + n] == t + post[..n];
      StripRightPadding(t, post[..n]);
    }
  }

  /** Stripping takes off exactly the whitespace at the ends: of a trimmed or
      empty text with whitespace around it, that text is left; */
  lemma StripPadded(s: string, pre: string, t: string, post: string)
    requires Pads(s, pre, t, post) && (t == "" || Trimmed(t))
    ensures Strip(s) == t
  {
    BlankIsSpace(pre);
    BlankIsSpace(post);
    assert pre + t + post == pre + (t + post);
    StripLeftPadding(pre, t + post);
    if t == "" {
      StripLeftPadding(post, "");
      assert t + post == post && post + "" == post;
    } else {
      StripRightPadding(t, post);
    }
  }

  /** and every text is what it strips to with whitespace around it. */
  lemma PadsOfStrip(s: string) returns (pre: string, post: string)
    ensures Pads(s, pre, Strip(s), post)
    ensures Strip(s) == "" || Trimmed(Strip(s))
  {
    StripTrims(s);
    pre := LeftPadding(s);
    post := RightPadding(StripLeft(s));
    Regroup(pre, Strip(s), post);
  }

  lemma Regroup(a: string, b: string, c: string)
    ensures a + (b + c) == a + b + c
  {
  }

  lemma LeftPadding(s: string) returns (pre: string)
    ensures Blank(pre) && s == pre + StripLeft(s)
  {
    StripLeftBounds(s);
    StripLeftDrops(s);
    pre := s[..|s| - |StripLeft(s)|];
    BlankIsSpace(pre);
  }

  lemma RightPadding(s: string) returns (post: string)
    ensures Blank(post) && s == StripRight(s) + post
  {
    StripRightBounds(s);
    StripRightDrops(s);
    post := s[|StripRight(s)|..];
    BlankIsSpace(post);
  }

  lemma {:induction false} StripLeftDrops(s: string)
    ensures |StripLeft(s)| <= |s| && forall c | c in s[..|s| - |StripLeft(s)|] :: IsSpace(c)
  {
    if s != "" && IsSpace(s[0]) {
      StripLeftDrops(s[1..]);
      var n := |s| - |StripLeft(s)|;
      assert s[..n] == [s[0]] + s[1..][..n - 1];
    }
  }

  lemma {:induction false} StripRightDrops(s: string)
    ensures |StripRight(s)| <= |s| && forall c | c in s[|StripRight(s)|..] :: IsSpace(c)
  {
    if s != "" && IsSpace(s[|s| - 1]) {
      var n := |s| - 1;
      StripRightDrops(s[..n]);
      assert s[|StripRight(s)|..] == s[..n][|StripRight(s)|..] + [s[n]];
    }
  }

  // Lists.

  /** The pieces, separated by commas. */
  function Join(ps: seq<string>): string {
    if ps == [] then ""
    else if |ps| == 1 then ps[0]
    else ps[0] + "," + Join(ps[1..])
  }

  /** Cutting at the first occurrence of a character. */
  lemma SplitAt(p: string, r: string, q: string, s: string, c: char)
    requires p + [c] + r == q + [c] + s && c !in p && c !in q
    ensures p == q && r == s
  {
    var t := p + [c] + r;
    assert t[|p|] == c && t[|q|] == c;
    assert forall i | 0 <= i < |p| :: t[i] == p[i];
    assert forall i | 0 <= i < |q| :: t[i] == q[i];
    assert p == t[..|p|] && q == t[..|q|] && r == t[|p| + 1..] && s == t[|q| + 1..];
  }

  predicate Piece(p: string) {
    p != "" && ',' !in p
  }

  /** Joined pieces can be told apart. */
  lemma {:induction false} JoinInjective(ps: seq<string>, qs: seq<string>)
    requires forall p | p in ps + qs :: Piece(p)
    ensures Join(ps) == Join(qs) <==> ps == qs
  {
    assert forall i | 0 <= i < |ps| :: ps[i] in ps + qs;
    assert forall i | 0 <= i < |qs| :: qs[i] in ps + qs;
    if |ps| > 1 && |qs| > 1 {
      JoinInjective(ps[1..], qs[1..]);
      if Join(ps) == Join(qs) {
        SplitAt(ps[0], Join(ps[1..]), qs[0], Join(qs[1..]), ',');
        assert ps == [ps[0]] + ps[1..] && qs == [qs[0]] + qs[1..];
      }
    } else {
      assert |ps| > 1 ==> Join(ps)[|ps[0]|] == ',';
      assert |qs| > 1 ==> Join(qs)[|qs[0]|] == ',';
      assert |ps| == 1 ==> ps == [ps[0]];
      assert |qs| == 1 ==> qs == [qs[0]];
    }
  }

  // Hexadecimal text.

  const HEX_DIGITS := "0123456789abcdef"

  function HexValue(c: char): (r: Option<nat>)
    ensures r.Some? ==> r.value < 16
  {
    if '0' <= c <= '9' then Some((c - '0') as nat)
    else if 'a' <= c <= 'f' then Some((c - 'a') as nat + 10)
    else if 'A' <= c <= 'F' then Some((c - 'A') as nat + 10)
    else None
  }

  lemma HexDigitValue(d: nat)
    requires d < 16
    ensures HexValue(HEX_DIGITS[d]) == Some(d)
    ensures HexValue(LowerChar(HEX_DIGITS[d])) == Some(d)
  {
  }

  /** `bytes.hex()`. */
  function ToHex(data: seq<Byte>): (s: string)
    ensures |s| == 2 * |data|
  {
    if data == [] then ""
    else [HEX_DIGITS[data[0] / 16], HEX_DIGITS[data[0] % 16]] + ToHex(data[1..])
  }

  /** `bytes.fromhex`: either case, whitespace allowed between bytes. */
  function FromHex(s: string): (r: Option<seq<Byte>>)
    ensures r.Some? ==> 2 * |r.value| <= |s|
  {
    if s == "" then Some([])
    else if IsSpace(s[0]) then FromHex(s[1..])
    else if |s| < 2 then None
    else
      match (HexValue(s[0]), HexValue(s[1]), FromHex(s[2..]))
      case (Some(hi), Some(lo), Some(rest)) => Some([hi * 16 + lo] + rest)
      case _ => None
  }

  /** The text without the whitespace between bytes. */
  function Despaced(s: string): string {
    if s == "" then ""
    else if IsSpace(s[0]) then Despaced(s[1..])
    else if |s| < 2 then s
    else s[..2] + Despaced(s[2..])
  }

  lemma HexValueLower(c: char)
    ensures HexValue(c).Some? ==> LowerChar(c) == HEX_DIGITS[HexValue(c).value]
  {
  }

  lemma ToHexCons(data: seq<Byte>, a: char, b: char, rest: string)
    requires data != [] && [a, b] + rest == ToHex(data)
    ensures a == HEX_DIGITS[data[0] / 16] && b == HEX_DIGITS[data[0] % 16] && rest == ToHex(data[1..])
  {
    assert ([a, b] + rest)[0] == a && ([a, b] + rest)[1] == b && ([a, b] + rest)[2..] == rest;
  }

  /** `bytes.fromhex` succeeds exactly on what `bytes.hex` prints, in any casing
      and with any whitespace between bytes. */
  lemma {:induction false} FromHexExactly(s: string, data: seq<Byte>)
    ensures FromHex(s) == Some(data) <==> Lower(Despaced(s)) == ToHex(data)
    decreases |s|
  {
    if s == "" {
      assert Lower("") == "";
    } else if IsSpace(s[0]) {
      FromHexExactly(s[1..], data);
    } else if |s| < 2 {
      assert |Lower(s)| == 1;
    } else {
      FromHexPair(s, data);
      if data != [] {
        FromHexExactly(s[2..], data[1..]);
      }
    }
  }

  /** One byte off either side. */
  lemma FromHexPair(s: string, data: seq<Byte>)
    requires |s| >= 2 && !IsSpace(s[0])
    ensures FromHex(s) == Some(data) <==>
            data != [] && HexValue(s[0]) == Some(data[0] / 16) && HexValue(s[1]) == Some(data[0] % 16)
            && FromHex(s[2..]) == Some(data[1..])
    ensures Lower(Despaced(s)) == ToHex(data) <==>
            data != [] && HexValue(s[0]) == Some(data[0] / 16) && HexValue(s[1]) == Some(data[0] % 16)
            && Lower(Despaced(s[2..])) == ToHex(data[1..])
  {
    HexPairSides(s, data);
    LowerConcat(s[..2], Despaced(s[2..]));
    assert Lower(s[..2]) == [LowerChar(s[0]), LowerChar(s[1])];
    if data != [] {
      var rest := Lower(Despaced(s[2..]));
      if Lower(Despaced(s)) == ToHex(data) {
        ToHexCons(data, LowerChar(s[0]), LowerChar(s[1]), rest);
        HexDigitCase(s[0], data[0] / 16);
        HexDigitCase(s[1], data[0] % 16);
      }
      HexValueLower(s[0]);
      HexValueLower(s[1]);
    }
  }

  lemma HexPairSides(s: string, data: seq<Byte>)
    requires |s| >= 2 && !IsSpace(s[0])
    ensures FromHex(s) == Some(data) <==>
            data != [] && HexValue(s[0]) == Some(data[0] / 16) && HexValue(s[1]) == Some(data[0] % 16)
            && FromHex(s[2..]) == Some(data[1..])
  {
    var hi, lo, rest := HexValue(s[0]), HexValue(s[1]), FromHex(s[2..]);
    if hi.Some? && lo.Some? && rest.Some? {
      FromHexStep(s, hi.value, lo.value, rest.value);
      OneByte(hi.value, lo.value, rest.value, data);
    }
  }

  lemma OneByte(hi: nat, lo: nat, rest: seq<Byte>, data: seq<Byte>)
    requires hi < 16 && lo < 16
    ensures [hi * 16 + lo] + rest == data <==>
            data != [] && hi == data[0] / 16 && lo == data[0] % 16 && rest == data[1..]
  {
    assert data != [] ==> [data[0]] + data[1..] == data;
    assert ([hi * 16 + lo] + rest)[1..] == rest;
  }

  lemma FromHexStep(s: string, hi: nat, lo: nat, rest: seq<Byte>)
    requires |s| >= 2 && !IsSpace(s[0]) && hi < 16 && lo < 16
    requires HexValue(s[0]) == Some(hi) && HexValue(s[1]) == Some(lo) && FromHex(s[2..]) == Some(rest)
    ensures FromHex(s) == Some([hi * 16 + lo] + rest)
  {
  }

  /** The first two digits of a text are those of the first byte. */
  lemma HexPair(data: seq<Byte>, s: string)
    requires data != [] && Lower(s) == ToHex(data)
    ensures |s| >= 2 && HexValue(s[0]) == Some(data[0] / 16) && HexValue(s[1]) == Some(data[0] % 16) && !IsSpace(s[0])
    ensures Lower(s[2..]) == ToHex(data[1..])
  {
    assert |Lower(s)| == |s|;
    assert Lower(s)[0] == HEX_DIGITS[data[0] / 16] && Lower(s)[1] == HEX_DIGITS[data[0] % 16];
    HexDigitCase(s[0], data[0] / 16);
    HexDigitCase(s[1], data[0] % 16);
    assert Lower(s[2..]) == Lower(s)[2..];
    assert ToHex(data)[2..] == ToHex(data[1..]);
  }

  /** Hexadecimal text decodes to the bytes it was printed from, in any casing. */
  lemma {:induction false} FromHexAnyCase(data: seq<Byte>, s: string)
    requires Lower(s) == ToHex(data)
    ensures FromHex(s) == Some(data)
  {
    if data != [] {
      var hi, lo := data[0] / 16, data[0] % 16;
      HexPair(data, s);
      FromHexAnyCase(data[1..], s[2..]);
      FromHexStep(s, hi, lo, data[1..]);
      assert [hi * 16 + lo] + data[1..] == data;
    }
  }

  lemma HexDigitCase(c: char, d: nat)
    requires d < 16
    requires LowerChar(c) == HEX_DIGITS[d]
    ensures HexValue(c) == Some(d) && !IsSpace(c)
  {
    assert LowerChar(c) in HEX_DIGITS;
  }
}

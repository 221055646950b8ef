/** ABI inputs from signature text (qeth/abi.py, `_split_top_level` and
    `_sig_type_to_input`). */
module AbiTypes {
  import opened Options
  import opened Text

  /** The ABI entry a type string becomes; a tuple carries its components. */
  datatype Input = Plain(name: string, type_: string)
                 | TupleInput(name: string, type_: string, components: seq<Input>)

  // Splitting at top-level commas.

  function Nonblank(pieces: seq<string>): (r: seq<string>)
    ensures forall p | p in r :: Trimmed(p)
  {
    if pieces == [] then []
    else
      StripTrims(pieces[0]);
      (if Strip(pieces[0]) != "" then [Strip(pieces[0])] else []) + Nonblank(pieces[1..])
  }

  /** The raw pieces of `s`, scanned from nesting `depth` with `cur` pending. */
  function Pieces(s: string, depth: int, cur: string): (r: seq<string>)
    ensures forall p | p in r :: |p| <= |cur| + |s|
    decreases |s|
  {
    if s == "" then
      if Strip(cur) != "" then [cur] else []
    else
      var d := if s[0] == '(' then depth + 1 else if s[0] == ')' then depth - 1 else depth;
      if s[0] == ',' && d == 0 then [cur] + Pieces(s[1..], d, "")
      else Pieces(s[1..], d, cur + [s[0]])
  }

  function SplitTopLevel(s: string): (r: seq<string>)
    ensures forall p | p in r :: Trimmed(p) && |p| <= |s|
  {
    NonblankBound(Pieces(s, 0, ""), |s|);
    Nonblank(Pieces(s, 0, ""))
  }

  lemma {:induction false} NonblankBound(pieces: seq<string>, n: nat)
    requires forall p | p in pieces :: |p| <= n
    ensures forall p | p in Nonblank(pieces) :: |p| <= n
  {
    if pieces != [] {
      StripTrims(pieces[0]);
      NonblankBound(pieces[1..], n);
    }
  }

  method SplitTopLevelLoop(s: string) returns (r: seq<string>)
    ensures r == SplitTopLevel(s)
  {
    var out: seq<string> := [];
    var depth, cur := 0, "";
    assert s[0..] == s;
    for k := 0 to |s|
      invariant Pieces(s, 0, "") == out + Pieces(s[k..], depth, cur)
    {
      var ch := s[k];
      assert s[k..][0] == ch && s[k..][1..] == s[k + 1..];
      if ch == '(' {
        depth := depth + 1;
      } else if ch == ')' {
        depth := depth - 1;
      }
      if ch == ',' && depth == 0 {
        out := out + [cur];
        cur := "";
      } else {
        cur := cur + [ch];
      }
    }
    if Strip(cur) != "" {
      out := out + [cur];
    }
    assert out == Pieces(s, 0, "");
    r := Nonblank(out);
  }

  /** Parentheses match, counting from nesting `depth`, and no comma is left at
      nesting zero. */
  predicate Balanced(s: string, depth: nat) {
    if s == "" then depth == 0
    else if s[0] == '(' then Balanced(s[1..], depth + 1)
    else if s[0] == ')' then depth > 0 && Balanced(s[1..], depth - 1)
    else (s[0] == ',' ==> depth > 0) && Balanced(s[1..], depth)
  }

  /** A balanced text passes through the scan whole. */
  lemma {:induction false} PiecesAbsorb(p: string, rest: string, depth: nat, cur: string)
    requires Balanced(p, depth)
    ensures Pieces(p + rest, depth, cur) == Pieces(rest, 0, cur + p)
    decreases |p|
  {
    if p == "" {
      assert p + rest == rest && cur + p == cur;
    } else {
      var d := if p[0] == '(' then depth + 1 else if p[0] == ')' then depth - 1 else depth;
      assert (p + rest)[1..] == p[1..] + rest;
      PiecesAbsorb(p[1..], rest, d, cur + [p[0]]);
      assert cur + [p[0]] + p[1..] == cur + p;
    }
  }

  predicate Splittable(ps: seq<string>) {
    forall i | 0 <= i < |ps| :: Trimmed(ps[i]) && Balanced(ps[i], 0)
  }

  lemma StripTrimmed(s: string)
    requires Trimmed(s)
    ensures Strip(s) == s
  {
  }

  /** The raw pieces are blank, or the given ones in order with whitespace around them. */
  predicate Tidied(raw: seq<string>, ps: seq<string>) {
    if raw == [] then ps == []
    else
      || (Blank(raw[0]) && Tidied(raw[1..], ps))
      || (ps != [] && Trimmed(ps[0]) && Padded(raw[0], ps[0]) && Tidied(raw[1..], ps[1..]))
  }

  predicate Padded(s: string, t: string) {
    exists i, j | 0 <= i <= j <= |s| :: t == s[i..j] && Blank(s[..i]) && Blank(s[j..])
  }

  lemma PaddedStrips(s: string, t: string)
    requires Padded(s, t) && (t == "" || Trimmed(t))
    ensures Strip(s) == t
  {
    var i, j :| 0 <= i <= j <= |s| && t == s[i..j] && Blank(s[..i]) && Blank(s[j..]);
    assert s == s[..i] + s[i..j] + s[j..];
    assert Pads(s, s[..i], t, s[j..]);
    StripPadded(s, s[..i], t, s[j..]);
  }

  lemma NonblankFirst(p: string, tail: seq<string>)
    ensures Nonblank([p] + tail) == (if Strip(p) == "" then [] else [Strip(p)]) + Nonblank(tail)
  {
    assert ([p] + tail)[1..] == tail;
  }

  lemma {:induction false} NonblankTidies(raw: seq<string>, ps: seq<string>)
    requires Tidied(raw, ps)
    ensures Nonblank(raw) == ps
  {
    if raw != [] {
      assert raw == [raw[0]] + raw[1..];
      NonblankFirst(raw[0], raw[1..]);
      if Blank(raw[0]) && Tidied(raw[1..], ps) {
        assert raw[0] == raw[0] + "" + "" && Pads(raw[0], raw[0], "", "");
        StripPadded(raw[0], raw[0], "", "");
        NonblankTidies(raw[1..], ps);
      } else {
        PaddedStrips(raw[0], ps[0]);
        NonblankTidies(raw[1..], ps[1..]);
      }
    }
  }

  lemma {:induction false} PiecesOfJoin(raw: seq<string>)
    requires forall i | 0 <= i < |raw| :: Balanced(raw[i], 0)
    ensures Nonblank(Pieces(Join(raw), 0, "")) == Nonblank(raw)
  {
    if raw != [] {
      var p := raw[0];
      assert raw == [p] + raw[1..];
      NonblankFirst(p, raw[1..]);
      if |raw| == 1 {
        PiecesAbsorb(p, "", 0, "");
        assert p + "" == p && "" + p == p;
        NonblankFirst(p, []);
      } else {
        var rest := Join(raw[1..]);
        PiecesOfJoin(raw[1..]);
        PiecesOfFirst(p, rest);
        NonblankFirst(p, Pieces(rest, 0, ""));
      }
    }
  }

  lemma PiecesOfFirst(p: string, rest: string)
    requires Balanced(p, 0)
    ensures Pieces(p + "," + rest, 0, "") == [p] + Pieces(rest, 0, "")
  {
    var tail := "," + rest;
    PiecesAbsorb(p, tail, 0, "");
    assert p + "," + rest == p + tail && "" + p == p;
    assert tail[1..] == rest && tail != "" && tail[0] == ',';
  }

  /** Splitting a comma-joined list of balanced texts gives the pieces that are
      not blank, each without the whitespace around it. */
  lemma SplitOfJoin(raw: seq<string>, ps: seq<string>)
    requires (forall i | 0 <= i < |raw| :: Balanced(raw[i], 0)) && Tidied(raw, ps)
    ensures SplitTopLevel(Join(raw)) == ps
  {
    PiecesOfJoin(raw);
    NonblankTidies(raw, ps);
  }

  lemma {:induction false} TrimmedAreTidy(ps: seq<string>)
    requires forall p | p in ps :: Trimmed(p)
    ensures Tidied(ps, ps)
  {
    if ps != [] {
      assert ps[0] in ps && ps[0][0..|ps[0]|] == ps[0] && ps[0][..0] == "" && ps[0][|ps[0]|..] == "";
      assert Padded(ps[0], ps[0]);
      assert forall p | p in ps[1..] :: p in ps;
      TrimmedAreTidy(ps[1..]);
    }
  }

  lemma SplitOfTypes(ps: seq<string>)
    requires Splittable(ps)
    ensures SplitTopLevel(Join(ps)) == ps
  {
    TrimmedAreTidy(ps);
    SplitOfJoin(ps, ps);
  }

  // Array suffixes.

  function LastIndex(s: string, c: char): (r: Option<nat>)
    ensures r.Some? ==> r.value < |s| && s[r.value] == c && c !in s[r.value + 1..]
    ensures r.None? ==> c !in s
  {
    if s == "" then None
    else if s[|s| - 1] == c then Some(|s| - 1)
    else
      var r := LastIndex(s[..|s| - 1], c);
      assert r.Some? ==> s[r.value + 1..] == s[..|s| - 1][r.value + 1..] + [s[|s| - 1]];
      r
  }

  lemma {:induction false} LastIndexAt(s: string, c: char, k: nat)
    requires k < |s| && s[k] == c && forall j | k < j < |s| :: s[j] != c
    ensures LastIndex(s, c) == Some(k)
  {
    if k < |s| - 1 {
      LastIndexAt(s[..|s| - 1], c, k);
    }
  }

  predicate EndsWith(s: string, c: char) {
    s != "" && s[|s| - 1] == c
  }

  /** The text with its trailing `[…]` groups moved to the suffix; `rindex`
      raises when a group has no opening bracket. */
  function Peel(base: string, suffix: string): (r: Result<(string, string)>)
    ensures r.Ok? ==> r.value.0 + r.value.1 == base + suffix
    ensures r.Ok? ==> !EndsWith(r.value.0, ']')
  {
    if !EndsWith(base, ']') then Ok((base, suffix))
    else
      match LastIndex(base, '[')
      case None => Raised("substring not found")
      case Some(i) =>
        assert base[..i] + (base[i..] + suffix) == base + suffix;
        Peel(base[..i], base[i..] + suffix)
  }

  method PeelLoop(text: string) returns (r: Result<(string, string)>)
    ensures r == Peel(text, "")
  {
    var base, suffix := text, "";
    while EndsWith(base, ']')
      invariant Peel(text, "") == Peel(base, suffix)
      decreases |base|
    {
      var i := LastIndex(base, '[');
      if i.None? {
        return Raised("substring not found");
      }
      suffix := base[i.value..] + suffix;
      base := base[..i.value];
    }
    r := Ok((base, suffix));
  }

  // The parser.

  function Decimal(n: nat): string {
    (if n < 10 then "" else Decimal(n / 10)) + [('0' as int + n % 10) as char]
  }

  predicate IsTuple(base: string) {
    base != "" && base[0] == '(' && EndsWith(base, ')')
  }

  function SigTypeToInput(name: string, text: string): Result<Input>
    decreases |text|, 1, 0
  {
    StripTrims(text);
    var typeStr := Strip(text);
    match Peel(typeStr, "")
    case Raised(e) => Raised(e)
    case Ok((base, suffix)) =>
      assert base + suffix == typeStr + "";
      if IsTuple(base) then
        match Components(SplitTopLevel(base[1..|base| - 1]), 0, |text|)
        case Raised(e) => Raised(e)
        case Ok(comps) => Ok(TupleInput(name, "tuple" + suffix, comps))
      else
        Ok(Plain(name, typeStr))
  }

  /** Components are named by position; the first one that raises ends it. */
  function Components(texts: seq<string>, from: nat, bound: nat): (r: Result<seq<Input>>)
    requires forall c | c in texts :: |c| < bound
    decreases bound, 0, |texts|
  {
    if texts == [] then Ok([])
    else
      match SigTypeToInput("f" + Decimal(from), texts[0])
      case Raised(e) => Raised(e)
      case Ok(first) =>
        match Components(texts[1..], from + 1, bound)
        case Raised(e) => Raised(e)
        case Ok(rest) => Ok([first] + rest)
  }

  // Type trees and their printed form.

  datatype Ty = Elem(word: string) | Tuple(items: seq<Ty>) | Array(of: Ty, dim: string)

  predicate NoSpecials(s: string) {
    forall c | c in s :: c !in "(),[]"
  }

  predicate WellFormed(t: Ty) {
    match t
    case Elem(word) => Trimmed(word) && NoSpecials(word)
    case Tuple(items) => forall i | 0 <= i < |items| :: WellFormed(items[i])
    case Array(of, dim) => WellFormed(of) && NoSpecials(dim)
  }

  function Print(t: Ty): string
    decreases t, 1
  {
    match t
    case Elem(word) => word
    case Tuple(items) => "(" + Join(PrintAll(items)) + ")"
    case Array(of, dim) => Print(of) + ("[" + dim + "]")
  }

  function PrintAll(ts: seq<Ty>): (r: seq<string>)
    ensures |r| == |ts|
    ensures forall i | 0 <= i < |ts| :: r[i] == Print(ts[i])
    decreases ts, 0
  {
    if ts == [] then [] else [Print(ts[0])] + PrintAll(ts[1..])
  }

  /** The type without its array suffixes, and those suffixes as text. */
  function Core(t: Ty): Ty {
    match t
    case Array(of, _) => Core(of)
    case _ => t
  }

  function Suffix(t: Ty): string {
    match t
    case Array(of, dim) => Suffix(of) + ("[" + dim + "]")
    case _ => ""
  }

  /** The ABI input tree a type tree stands for. */
  function ToInput(name: string, t: Ty): Input
    decreases t, 1
  {
    match t
    case Elem(word) => Plain(name, word)
    case Tuple(items) => TupleInput(name, "tuple", ToInputs(items, 0))
    case Array(of, dim) => WithSuffix(ToInput(name, of), "[" + dim + "]")
  }

  function WithSuffix(inp: Input, suffix: string): Input {
    inp.(type_ := inp.type_ + suffix)
  }

  function ToInputs(ts: seq<Ty>, from: nat): (r: seq<Input>)
    decreases ts, 0
  {
    if ts == [] then [] else [ToInput("f" + Decimal(from), ts[0])] + ToInputs(ts[1..], from + 1)
  }

  /** The canonical type text of an ABI input: a tuple is spelled by its components. */
  function PrintInput(inp: Input): string
    decreases inp, 1
  {
    match inp
    case Plain(_, type_) => type_
    case TupleInput(_, type_, components) =>
      "(" + Join(PrintInputs(components)) + ")" + type_[if |type_| < 5 then |type_| else 5..]
  }

  function PrintInputs(inps: seq<Input>): seq<string>
    decreases inps, 0
  {
    if inps == [] then [] else [PrintInput(inps[0])] + PrintInputs(inps[1..])
  }

  // Printed types are balanced and trimmed.

  lemma {:induction false} BalancedConcat(p: string, q: string, depth: nat, inner: nat)
    requires Balanced(p, inner)
    ensures Balanced(p + q, depth + inner) == Balanced(q, depth)
    decreases |p|
  {
    if p == "" {
      assert p + q == q;
    } else {
      assert (p + q)[1..] == p[1..] + q;
      BalancedConcat(p[1..], q, depth,
                     if p[0] == '(' then inner + 1 else if p[0] == ')' then inner - 1 else inner);
    }
  }

  lemma {:induction false} BalancedPlain(p: string)
    requires forall c | c in p :: c !in "(),"
    ensures Balanced(p, 0)
  {
    if p != "" {
      assert p[0] in p;
      BalancedPlain(p[1..]);
    }
  }

  lemma {:induction false} BalancedJoin(ps: seq<string>, q: string)
    requires forall i | 0 <= i < |ps| :: Balanced(ps[i], 0)
    ensures Balanced(Join(ps) + q, 1) == Balanced(q, 1)
  {
    if ps == [] {
      assert Join(ps) + q == q;
    } else if |ps| == 1 {
      BalancedConcat(ps[0], q, 1, 0);
    } else {
      var rest := "," + (Join(ps[1..]) + q);
      assert Join(ps) + q == ps[0] + rest;
      BalancedConcat(ps[0], rest, 1, 0);
      assert rest[1..] == Join(ps[1..]) + q;
      BalancedJoin(ps[1..], q);
    }
  }

  lemma {:induction false} PrintBalanced(t: Ty)
    requires WellFormed(t)
    ensures Balanced(Print(t), 0) && Trimmed(Print(t))
    decreases t
  {
    match t
    case Elem(word) =>
      BalancedPlain(word);
    case Tuple(items) =>
      var ps := PrintAll(items);
      forall i | 0 <= i < |items| ensures Balanced(ps[i], 0) {
        PrintBalanced(items[i]);
      }
      BalancedJoin(ps, ")");
      assert Balanced(")", 1) by { assert ")"[1..] == ""; }
      assert Print(t) == "(" + (Join(ps) + ")");
      assert Print(t)[1..] == Join(ps) + ")";
    case Array(of, dim) =>
      PrintBalanced(of);
      BalancedPlain("[" + dim + "]");
      BalancedConcat(Print(of), "[" + dim + "]", 0, 0);
  }

  /** Peeling the printed form separates the core from the array suffixes. */
  lemma {:induction false} PeelOfPrint(t: Ty, suffix: string)
    requires WellFormed(t)
    ensures Peel(Print(t), suffix) == Ok((Print(Core(t)), Suffix(t) + suffix))
  {
    match t
    case Elem(word) =>
      assert word[|word| - 1] in word;
      PeelDone(word, suffix);
    case Tuple(items) =>
      PeelDone(Print(t), suffix);
    case Array(of, dim) =>
      PeelOne(Print(of), dim, suffix);
      PeelOfPrint(of, "[" + dim + "]" + suffix);
      assert Suffix(of) + ("[" + dim + "]" + suffix) == Suffix(t) + suffix;
  }

  lemma PeelDone(s: string, suffix: string)
    requires s != "" && s[|s| - 1] != ']'
    ensures Peel(s, suffix) == Ok((s, "" + suffix))
  {
    assert "" + suffix == suffix;
  }

  lemma PeelOne(p: string, dim: string, suffix: string)
    requires NoSpecials(dim)
    ensures Peel(p + ("[" + dim + "]"), suffix) == Peel(p, "[" + dim + "]" + suffix)
  {
    var s, k := p + ("[" + dim + "]"), |p|;
    forall j | k < j < |s| ensures s[j] != '[' {
      assert s[j] == (dim + "]")[j - k - 1];
      assert j < |s| - 1 ==> s[j] in dim;
    }
    LastIndexAt(s, '[', k);
    assert s[..k] == p && s[k..] == "[" + dim + "]";
  }

  lemma {:induction false} ToInputOfCore(name: string, t: Ty)
    ensures ToInput(name, t) == WithSuffix(ToInput(name, Core(t)), Suffix(t))
    ensures Core(t).Elem? || Core(t).Tuple?
    ensures WellFormed(t) ==> WellFormed(Core(t))
    ensures Print(t) == Print(Core(t)) + Suffix(t)
    ensures Core(t) == t || Core(t) < t
  {
    match t
    case Array(of, dim) =>
      ToInputOfCore(name, of);
      var g := "[" + dim + "]";
      var core := ToInput(name, Core(of));
      assert (core.type_ + Suffix(of)) + g == core.type_ + (Suffix(of) + g);
    case _ =>
      assert ToInput(name, t).type_ + "" == ToInput(name, t).type_;
  }

  lemma PrintPadsItself(t: Ty)
    ensures Padded(Print(t), Print(t))
  {
    var s := Print(t);
    assert s[0..|s|] == s && Blank(s[..0]) && Blank(s[|s|..]);
  }

  /** Parsing the printed form of any type tree, with any whitespace around it,
      rebuilds its ABI input tree. */
  lemma {:induction false} ParseOfPrint(name: string, t: Ty, text: string)
    requires WellFormed(t) && Padded(text, Print(t))
    ensures SigTypeToInput(name, text) == Ok(ToInput(name, t))
    decreases t, 1
  {
    PrintBalanced(t);
    PaddedStrips(text, Print(t));
    PeelOfPrint(t, "");
    ToInputOfCore(name, t);
    var base, suffix := Print(Core(t)), Suffix(t);
    assert suffix + "" == suffix;
    match Core(t)
    case Elem(word) =>
      assert word[0] in word;
    case Tuple(items) =>
      SplitOfPrinted(items);
      ComponentsOfPrint(items, 0, |text|);
  }

  /** The inside of a printed tuple splits into the printed items. */
  lemma SplitOfPrinted(items: seq<Ty>)
    requires WellFormed(Tuple(items))
    ensures var base := Print(Tuple(items)); IsTuple(base) && SplitTopLevel(base[1..|base| - 1]) == PrintAll(items)
    ensures forall p | p in PrintAll(items) :: |p| < |Print(Tuple(items))|
  {
    var ps, base := PrintAll(items), Print(Tuple(items));
    assert base[1..|base| - 1] == Join(ps);
    forall i | 0 <= i < |items| ensures Trimmed(ps[i]) && Balanced(ps[i], 0) {
      PrintBalanced(items[i]);
    }
    SplitOfTypes(ps);
  }

  lemma {:induction false} ComponentsOfPrint(ts: seq<Ty>, from: nat, bound: nat)
    requires forall i | 0 <= i < |ts| :: WellFormed(ts[i])
    requires forall p | p in PrintAll(ts) :: |p| < bound
    ensures Components(PrintAll(ts), from, bound) == Ok(ToInputs(ts, from))
    decreases ts, 0
  {
    if ts != [] {
      var ps := PrintAll(ts);
      assert ps[0] == Print(ts[0]) && ps[1..] == PrintAll(ts[1..]);
      PrintPadsItself(ts[0]);
      ParseOfPrint("f" + Decimal(from), ts[0], ps[0]);
      ComponentsOfPrint(ts[1..], from + 1, bound);
    }
  }

  /** And printing that tree back gives the original text. */
  lemma {:induction false} PrintOfInput(name: string, t: Ty)
    ensures PrintInput(ToInput(name, t)) == Print(t)
    decreases t, 1
  {
    ToInputOfCore(name, t);
    match Core(t)
    case Elem(word) =>
    case Tuple(items) =>
      PrintsOfInputs(items, 0);
      assert ("tuple" + Suffix(t))[5..] == Suffix(t);
  }

  lemma {:induction false} PrintsOfInputs(ts: seq<Ty>, from: nat)
    ensures PrintInputs(ToInputs(ts, from)) == PrintAll(ts)
    decreases ts, 0
  {
    if ts != [] {
      PrintOfInput("f" + Decimal(from), ts[0]);
      PrintsOfInputs(ts[1..], from + 1);
      assert ToInputs(ts, from)[1..] == ToInputs(ts[1..], from + 1);
    }
  }

  /** The whole trip on text: for printed types, reading a signature type and
      spelling the result is the identity. */
  lemma TypeRoundTrip(name: string, t: Ty)
    requires WellFormed(t)
    ensures SigTypeToInput(name, Print(t)).Ok?
    ensures PrintInput(SigTypeToInput(name, Print(t)).value) == Print(t)
  {
    PrintPadsItself(t);
    ParseOfPrint(name, t, Print(t));
    PrintOfInput(name, t);
  }

  predicate IsDecimal(s: string) {
    forall i | 0 <= i < |s| :: '0' <= s[i] <= '9'
  }

  /** The number a decimal text writes. */
  function DecimalValue(s: string): nat
    requires IsDecimal(s)
  {
    if s == "" then 0 else DecimalValue(s[..|s| - 1]) * 10 + (s[|s| - 1] - '0') as nat
  }

  lemma {:induction false} DecimalWrites(n: nat)
    ensures Decimal(n) != "" && IsDecimal(Decimal(n))
    ensures DecimalValue(Decimal(n)) == n && (Decimal(n)[0] == '0' ==> n == 0)
  {
    if n >= 10 {
      DecimalWrites(n / 10);
      assert Decimal(n)[..|Decimal(n)| - 1] == Decimal(n / 10);
    }
  }

  lemma NamedAsAsked(name: string, text: string)
    ensures SigTypeToInput(name, text).Ok? ==> SigTypeToInput(name, text).value.name == name
  {
  }

  lemma ComponentsCons(texts: seq<string>, from: nat, bound: nat)
    requires texts != [] && (forall c | c in texts :: |c| < bound) && Components(texts, from, bound).Ok?
    ensures (forall c | c in texts[1..] :: |c| < bound) && Components(texts[1..], from + 1, bound).Ok?
    ensures var comps := Components(texts, from, bound).value;
            comps != [] && comps[0].name == "f" + Decimal(from)
              && comps[1..] == Components(texts[1..], from + 1, bound).value
  {
    NamedAsAsked("f" + Decimal(from), texts[0]);
  }

  /** The components of a read tuple are named "f" and their position in decimal. */
  lemma {:induction false} ComponentNames(texts: seq<string>, from: nat, bound: nat)
    requires (forall c | c in texts :: |c| < bound) && Components(texts, from, bound).Ok?
    ensures Positioned(Components(texts, from, bound).value, from, |texts|)
    decreases |texts|
  {
    if texts != [] {
      ComponentsCons(texts, from, bound);
      ComponentNames(texts[1..], from + 1, bound);
      PositionedCons(Components(texts, from, bound).value, from, |texts|);
    }
  }

  predicate Positioned(comps: seq<Input>, from: nat, n: nat) {
    |comps| == n && forall i | 0 <= i < n :: comps[i].name == "f" + Decimal(from + i)
  }

  lemma PositionedCons(comps: seq<Input>, from: nat, n: nat)
    requires n > 0 && comps != [] && comps[0].name == "f" + Decimal(from) && Positioned(comps[1..], from + 1, n - 1)
    ensures Positioned(comps, from, n)
  {
    forall i | 0 < i < n ensures comps[i].name == "f" + Decimal(from + i) {
      assert comps[1..][i - 1] == comps[i] && from + i == from + 1 + (i - 1);
    }
  }
}

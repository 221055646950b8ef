/** Safe's hand-packed multiSend blob (qeth/abi.py, `_unpack_multisend`). */
module MultiSend {
  import opened Options
  import opened Radix

  datatype Record = Record(operation: Byte, to: seq<Byte>, value: nat, data: seq<Byte>) {
    /** The fields fit the packed layout. */
    ghost predicate InRange() {
      |to| == 20 && value < Pow(256, 32) && |data| < Pow(256, 32)
    }
  }

  ghost predicate AllInRange(rs: seq<Record>) {
    forall i | 0 <= i < |rs| :: rs[i].InRange()
  }

  /** operation(1), to(20), value(32), dataLength(32), data. */
  function PackOne(r: Record): seq<Byte> {
    [r.operation] + r.to + ToBytes(r.value, 32) + ToBytes(|r.data|, 32) + r.data
  }

  function Pack(rs: seq<Record>): seq<Byte> {
    if rs == [] then [] else PackOne(rs[0]) + Pack(rs[1..])
  }

  /** The record at the head of a blob, if one fits. */
  function HeadRecord(s: seq<Byte>): (r: Option<Record>)
    ensures r.Some? ==> 85 + |r.value.data| <= |s|
  {
    if |s| < 85 then None
    else
      var length := Value(256, s[53..85]);
      if length > |s| - 85 then None
      else Some(Record(s[0], s[1..21], Value(256, s[21..53]), s[85..85 + length]))
  }

  /** All records of a blob that is exactly consumed. */
  function Records(s: seq<Byte>): Option<seq<Record>> {
    if s == [] then Some([])
    else
      match HeadRecord(s)
      case None => None
      case Some(r) =>
        match Records(s[85 + |r.data|..])
        case None => None
        case Some(rest) => Some([r] + rest)
  }

  /** An empty blob holds no records, which counts as failure. */
  function Unpacked(s: seq<Byte>): Option<seq<Record>> {
    if Records(s) == Some([]) then None else Records(s)
  }

  /** The verdict a caller relies on: the records that pack to the blob, or
      None exactly when no non-empty record list does. */
  ghost predicate Exact(packed: seq<Byte>, r: Option<seq<Record>>) {
    match r
    case Some(rs) => rs != [] && AllInRange(rs) && Pack(rs) == packed
    case None => forall rs | AllInRange(rs) && Pack(rs) == packed :: rs == []
  }

  /** `_unpack_multisend`: an empty blob and an inexact one both give None. */
  method UnpackMultisend(packed: seq<Byte>) returns (r: Option<seq<Record>>)
    ensures r == Unpacked(packed)
  {
    var out: seq<Record> := [];
    var i, n := 0, |packed|;
    ThroughNone(packed);
    while i < n
      invariant 0 <= i <= n
      invariant Through(packed, out, i)
    {
      ThroughHead(packed, i, out);
      if i + 85 > n {
        return None;
      }
      HeadAt(packed, i);
      var operation := packed[i];
      var to := packed[i + 1..i + 21];
      var value := Value(256, packed[i + 21..i + 53]);
      var length := Value(256, packed[i + 53..i + 85]);
      i := i + 85;
      if length > n - i {
        return None;
      }
      out := out + [Record(operation, to, value, packed[i..i + length])];
      i := i + length;
    }
    ThroughAll(packed, out);
    r := if out == [] then None else Some(out);
  }

  function Prepend(out: seq<Record>, rest: Option<seq<Record>>): Option<seq<Record>> {
    match rest
    case Some(rs) => Some(out + rs)
    case None => None
  }

  /** With `out` read so far, the rest of the blob starts at `i`. */
  ghost predicate Through(packed: seq<Byte>, out: seq<Record>, i: nat) {
    i <= |packed| && Records(packed) == Prepend(out, Records(packed[i..]))
  }

  lemma ThroughNone(packed: seq<Byte>)
    ensures Through(packed, [], 0)
  {
    assert packed[0..] == packed;
    if Records(packed).Some? {
      assert [] + Records(packed).value == Records(packed).value;
    }
  }

  lemma ThroughAll(packed: seq<Byte>, out: seq<Record>)
    requires Through(packed, out, |packed|)
    ensures Unpacked(packed) == if out == [] then None else Some(out)
  {
    assert out + [] == out;
  }

  lemma SliceOfRest(s: seq<Byte>, i: nat, a: nat, b: nat)
    requires i <= |s| && a <= b <= |s| - i
    ensures s[i..][a..b] == s[i + a..i + b]
  {
  }

  /** The head record, in terms of positions in the whole blob. */
  lemma HeadAt(packed: seq<Byte>, i: nat)
    requires i + 85 <= |packed|
    ensures var length := Value(256, packed[i + 53..i + 85]);
            HeadRecord(packed[i..]) ==
            if length > |packed| - (i + 85) then None
            else Some(Record(packed[i], packed[i + 1..i + 21], Value(256, packed[i + 21..i + 53]),
              packed[i + 85..i + 85 + length]))
  {
    SliceOfRest(packed, i, 1, 21);
    SliceOfRest(packed, i, 21, 53);
    SliceOfRest(packed, i, 53, 85);
    var length := Value(256, packed[i + 53..i + 85]);
    if length <= |packed| - (i + 85) {
      SliceOfRest(packed, i, 85, 85 + length);
    }
  }

  /** One turn of the loop. */
  lemma ThroughHead(packed: seq<Byte>, i: nat, out: seq<Record>)
    requires i < |packed| && Through(packed, out, i)
    ensures match HeadRecord(packed[i..])
            case None => Records(packed).None?
            case Some(r) => Through(packed, out + [r], i + 85 + |r.data|)
  {
    var rest := packed[i..];
    if HeadRecord(rest).Some? {
      var r := HeadRecord(rest).value;
      assert rest[85 + |r.data|..] == packed[i + 85 + |r.data|..];
      PrependMore(out, r, Records(rest[85 + |r.data|..]));
    }
  }

  lemma PrependMore(out: seq<Record>, r: Record, rest: Option<seq<Record>>)
    ensures Prepend(out, Prepend([r], rest)) == Prepend(out + [r], rest)
  {
    if rest.Some? {
      assert out + ([r] + rest.value) == out + [r] + rest.value;
    }
  }

  /** A packed record is recovered from the head of any blob it starts. */
  lemma HeadOfPacked(r: Record, tail: seq<Byte>)
    requires r.InRange()
    ensures HeadRecord(PackOne(r) + tail) == Some(r)
    ensures (PackOne(r) + tail)[85 + |r.data|..] == tail
  {
    var s := PackOne(r) + tail;
    assert s[1..21] == r.to;
    assert s[21..53] == ToBytes(r.value, 32);
    assert s[53..85] == ToBytes(|r.data|, 32);
    assert s[85..85 + |r.data|] == r.data;
    ValueOfToBytes(r.value, 32);
    ValueOfToBytes(|r.data|, 32);
  }

  /** What the head parser reads packs back to exactly the bytes it read. */
  lemma PackOfHead(s: seq<Byte>)
    requires HeadRecord(s).Some?
    ensures HeadRecord(s).value.InRange()
    ensures PackOne(HeadRecord(s).value) == s[..85 + |HeadRecord(s).value.data|]
  {
    var r := HeadRecord(s).value;
    ToBytesOfValue(s[21..53]);
    ToBytesOfValue(s[53..85]);
    ValueBound(256, s[21..53]);
    ValueBound(256, s[53..85]);
    assert [s[0]] + s[1..21] + s[21..53] + s[53..85] + s[85..85 + |r.data|] == s[..85 + |r.data|];
  }

  /** Unpacking inverts packing. */
  lemma {:induction false} UnpackAfterPack(rs: seq<Record>)
    requires AllInRange(rs)
    ensures Records(Pack(rs)) == Some(rs)
  {
    if rs != [] {
      HeadOfPacked(rs[0], Pack(rs[1..]));
      UnpackAfterPack(rs[1..]);
      assert [rs[0]] + rs[1..] == rs;
    }
  }

  /** And packing inverts a successful unpacking, byte for byte. */
  lemma {:induction false} PackAfterUnpack(s: seq<Byte>)
    requires Records(s).Some?
    ensures Pack(Records(s).value) == s && AllInRange(Records(s).value)
  {
    if s != [] {
      RecordsCons(s);
      var n := 85 + |HeadRecord(s).value.data|;
      PackAfterUnpack(s[n..]);
      PackHeadAndRest(s, HeadRecord(s).value, Records(s[n..]).value);
    }
  }

  lemma PackHeadAndRest(s: seq<Byte>, r: Record, rest: seq<Record>)
    requires HeadRecord(s) == Some(r) && AllInRange(rest) && Pack(rest) == s[85 + |r.data|..]
    ensures AllInRange([r] + rest) && Pack([r] + rest) == s
  {
    PackOfHead(s);
    PackCons(r, rest);
    Halves(s, 85 + |r.data|);
  }

  lemma Halves(s: seq<Byte>, n: nat)
    requires n <= |s|
    ensures s[..n] + s[n..] == s
  {
  }

  lemma RecordsCons(s: seq<Byte>)
    requires s != [] && Records(s).Some?
    ensures HeadRecord(s).Some? && Records(s[85 + |HeadRecord(s).value.data|..]).Some?
    ensures Records(s).value == [HeadRecord(s).value] + Records(s[85 + |HeadRecord(s).value.data|..]).value
  {
  }

  lemma PackCons(r: Record, rest: seq<Record>)
    requires r.InRange() && AllInRange(rest)
    ensures AllInRange([r] + rest) && Pack([r] + rest) == PackOne(r) + Pack(rest)
  {
    assert ([r] + rest)[1..] == rest;
  }

  lemma UnpackedIsExact(s: seq<Byte>)
    ensures Exact(s, Unpacked(s))
  {
    UnpackExactly(s);
    if Records(s).Some? {
      PackAfterUnpack(s);
    }
  }

  /** A blob is refused exactly when no records pack to it; otherwise the
      records are the only ones that do. */
  lemma UnpackExactly(s: seq<Byte>)
    ensures Records(s).None? <==> !exists rs :: AllInRange(rs) && Pack(rs) == s
    ensures forall rs | AllInRange(rs) && Pack(rs) == s :: Records(s) == Some(rs)
  {
    forall rs | AllInRange(rs) && Pack(rs) == s ensures Records(s) == Some(rs) {
      UnpackAfterPack(rs);
    }
    if Records(s).Some? {
      PackAfterUnpack(s);
    }
  }
}

/** Batched contract reads (qeth/chain.py, `Multicall` and
    `EthClient.head_balances`): queued calls are sent in chunks, each chunk with
    two injected height calls in front, and every result must find its way back
    to the call it answers. */
module Multicall {
  import opened Options
  import opened Radix
  import opened Text

  datatype Call = Call(target: string, data: seq<Byte>)

  /** One inner result: whether the call succeeded, and its return data. */
  type Inner = (bool, seq<Byte>)

  datatype Value = Null | Bytes(bytes: seq<Byte>) | Number(n: nat) | Chars(s: string)

  type Decoder = Option<seq<Byte> -> Result<Value>>

  /** The node that serves one chunk: unreachable, executing each call at its own
      head, or returning some array of its own. */
  datatype Node = Down | Serving(exec: Call -> Inner) | Odd(results: seq<Inner>)

  /** What a chunk's request yields; None is any exception. */
  function Reply(node: Node, calls: seq<Call>): Option<seq<Inner>> {
    match node
    case Down => None
    case Serving(exec) => Some(seq(|calls|, i requires 0 <= i < |calls| => exec(calls[i])))
    case Odd(results) => Some(results)
  }

  /** The fields of a `_Pending`. */
  datatype Slot = Slot(success: Option<bool>, raw: Option<seq<Byte>>, value: Value, block: Option<nat>)

  function Uint256(data: seq<Byte>): Option<nat> {
    if |data| >= 32 then Some(Radix.Value(256, data[..32])) else None
  }

  function DecodeUint256(data: seq<Byte>): Result<Value> {
    match Uint256(data) case None => Ok(Null) case Some(n) => Ok(Number(n))
  }

  const ARBSYS := "0x0000000000000000000000000000000000000064"
  const GET_BLOCK_NUMBER: seq<Byte> := [0x42, 0xcb, 0xb1, 0x5c]
  const ARB_BLOCK_NUMBER: seq<Byte> := [0xa3, 0xb1, 0xb3, 0x1d]

  /** The calls put in front of a chunk when heights are tracked. */
  function Injected(mc: string, track: bool): seq<Call> {
    if track then [Call(mc, GET_BLOCK_NUMBER), Call(ARBSYS, ARB_BLOCK_NUMBER)] else []
  }

  /** A chunk's own height: the rollup's number when there is one (non-zero),
      else the node's block number. */
  function Height(results: seq<Inner>): Option<nat>
    requires |results| >= 2
  {
    var blk := if results[0].0 then Uint256(results[0].1) else None;
    var arb := if results[1].0 then Uint256(results[1].1) else None;
    if arb.Some? && arb.value != 0 then arb else blk
  }

  /** A reply split into the chunk's height and the results of its calls. */
  datatype Parsed = Unusable | Usable(height: Option<nat>, results: seq<Inner>)

  function Parse(reply: Option<seq<Inner>>, track: bool): Parsed {
    match reply
    case None => Unusable
    case Some(rs) =>
      if !track then Usable(None, rs)
      else if |rs| < 2 then Unusable
      else Usable(Height(rs), rs[2..])
  }

  /** What one result does to a pending. */
  function Fill(p: Slot, decoder: Decoder, block: Option<nat>, r: Inner): Slot {
    var q := p.(block := block, success := Some(r.0));
    if !r.0 then q
    else
      match decoder
      case None => q.(raw := Some(r.1), value := Bytes(r.1))
      case Some(decode) =>
        match decode(r.1)
        case Ok(v) => q.(raw := Some(r.1), value := v)
        case Raised(_) => q.(raw := Some(r.1), success := Some(false), value := Null)
  }

  /** The fate of the pending at position `k` of a chunk. */
  function Settle(p: Slot, decoder: Decoder, parsed: Parsed, k: nat): Slot {
    match parsed
    case Unusable => p.(success := Some(false))
    case Usable(height, results) => if k < |results| then Fill(p, decoder, height, results[k]) else p
  }

  /** Where the chunk holding position `i` starts. */
  function ChunkStart(i: nat, size: nat): (s: nat)
    requires size > 0
    ensures s <= i
  {
    i - i % size
  }

  lemma ChunkStartOf(start: nat, k: nat, size: nat)
    requires size > 0 && start % size == 0 && k < size
    ensures ChunkStart(start + k, size) == start
    ensures (start + size) % size == 0
  {
    var q := start / size;
    assert start == q * size;
    QuotientRemainder(size, q, k);
    QuotientRemainder(size, q + 1, 0);
    assert (q + 1) * size == start + size;
  }

  lemma ChunkRange(start: nat, size: nat)
    requires size > 0 && start % size == 0
    ensures forall i | start <= i < start + size :: ChunkStart(i, size) == start && i % size == i - start
  {
    forall i | start <= i < start + size ensures ChunkStart(i, size) == start && i % size == i - start {
      ChunkStartOf(start, i - start, size);
    }
  }

  type Positive = x: int | x > 0 witness 1

  /** One flush: the queue and how it is sent, and the node each chunk meets. */
  datatype Plan = Plan(mc: string, size: Positive, track: bool, calls: seq<Call>, nodes: nat -> Node)

  /** What the request for the chunk starting at `start` comes back as. */
  function ChunkReply(p: Plan, start: nat): Parsed {
    var end := if start + p.size < |p.calls| then start + p.size else |p.calls|;
    var chunk := if start < end then p.calls[start..end] else [];
    Parse(Reply(p.nodes(start), Injected(p.mc, p.track) + chunk), p.track)
  }

  function HeightOf(parsed: Parsed): Option<nat> {
    match parsed case Unusable => None case Usable(h, _) => h
  }

  /** The heights of the chunks from `start` on; nothing when not tracked. */
  function Heights(p: Plan, start: nat): seq<Option<nat>>
    decreases if start < |p.calls| then |p.calls| - start else 0
  {
    if start >= |p.calls| || !p.track then []
    else [HeightOf(ChunkReply(p, start))] + Heights(p, start + p.size)
  }

  /** The fate of the `i`-th pending, from what it was. */
  function Fate(p: Plan, i: nat, before: Slot, decoder: Decoder): Slot {
    Settle(before, decoder, ChunkReply(p, ChunkStart(i, p.size)), i % p.size)
  }

  lemma FateInChunk(p: Plan, start: nat, i: nat, before: Slot, decoder: Decoder)
    requires start % p.size == 0 && start <= i < start + p.size
    ensures Fate(p, i, before, decoder) == Settle(before, decoder, ChunkReply(p, start), i - start)
  {
    ChunkStartOf(start, i - start, p.size);
  }

  lemma ChunkFates(p: Plan, start: nat)
    requires start % p.size == 0
    ensures forall i, before, decoder | start <= i < start + p.size ::
              Fate(p, i, before, decoder) == Settle(before, decoder, ChunkReply(p, start), i - start)
  {
    forall i, before, decoder | start <= i < start + p.size
      ensures Fate(p, i, before, decoder) == Settle(before, decoder, ChunkReply(p, start), i - start)
    {
      FateInChunk(p, start, i, before, decoder);
    }
  }

  /** One chunk of the flush contributes its height. */
  lemma ChunkStep(p: Plan, start: nat, blocks: seq<Option<nat>>)
    requires start % p.size == 0 && start < |p.calls|
    ensures (start + p.size) % p.size == 0
    ensures blocks + Heights(p, start)
         == blocks + (if p.track then [HeightOf(ChunkReply(p, start))] else []) + Heights(p, start + p.size)
  {
    ChunkStartOf(start, 0, p.size);
  }

  /** The recorded heights are those of the chunks of the queued calls. */
  lemma {:induction false} HeightsAreChunks(p: Plan, from: nat)
    requires p.track && from % p.size == 0
    ensures forall i | from <= i < |p.calls| :: HeightOf(ChunkReply(p, ChunkStart(i, p.size))) in Heights(p, from)
    ensures forall h | h in Heights(p, from) ::
              exists i :: from <= i < |p.calls| && h == HeightOf(ChunkReply(p, ChunkStart(i, p.size)))
    decreases if from < |p.calls| then |p.calls| - from else 0
  {
    if from < |p.calls| {
      ChunkRange(from, p.size);
      ChunkStartOf(from, 0, p.size);
      HeightsAreChunks(p, from + p.size);
      assert ChunkStart(from, p.size) == from;
    }
  }

  // What a flush means, on the nodes' answers alone.

  /** The rollup's number when that call succeeded with a non-zero word, else the
      block number when that call succeeded with a word, else nothing. */
  predicate HeightFrom(h: Option<nat>, blk: Inner, arb: Inner) {
    if arb.0 && |arb.1| >= 32 && Radix.Value(256, arb.1[..32]) != 0 then h == Some(Radix.Value(256, arb.1[..32]))
    else if blk.0 && |blk.1| >= 32 then h == Some(Radix.Value(256, blk.1[..32]))
    else h.None?
  }

  /** The height a tracked chunk reported: from `getBlockNumber()` on the
      multicall contract and `arbBlockNumber()` on the rollup's own. */
  predicate RanAt(h: Option<nat>, node: Node, mc: string) {
    match node
    case Down => h.None?
    case Serving(exec) =>
      HeightFrom(h, exec(Call(mc, [0x42, 0xcb, 0xb1, 0x5c])),
                 exec(Call("0x0000000000000000000000000000000000000064", [0xa3, 0xb1, 0xb3, 0x1d])))
    case Odd(results) => if |results| < 2 then h.None? else HeightFrom(h, results[0], results[1])
  }

  /** What the node has to say to the `k`-th call of a chunk. */
  function AnswerTo(node: Node, call: Call, k: nat, track: bool): Option<Inner> {
    match node
    case Down => None
    case Serving(exec) => Some(exec(call))
    case Odd(results) =>
      var at := if track then k + 2 else k;
      if at < |results| then Some(results[at]) else None
  }

  /** An answer in a pending: a failed call leaves the value, a raising decoder
      makes it a failure. */
  predicate Took(q: Slot, before: Slot, decoder: Decoder, r: Inner) {
    if !r.0 then q.success == Some(false) && q.raw == before.raw && q.value == before.value
    else if decoder.None? then q.success == Some(true) && q.raw == Some(r.1) && q.value == Bytes(r.1)
    else
      var v := decoder.value(r.1);
      q.raw == Some(r.1) && q.success == Some(v.Ok?) && q.value == if v.Ok? then v.value else Null
  }

  /** A pending after the flush, from what it was and what its node answered. */
  predicate Outcome(q: Slot, before: Slot, decoder: Decoder, node: Node, call: Call, k: nat, mc: string, track: bool) {
    var a := AnswerTo(node, call, k, track);
    if a.Some? then Took(q, before, decoder, a.value) && (if track then RanAt(q.block, node, mc) else q.block.None?)
    else if node.Down? || (node.Odd? && track && |node.results| < 2) then q == before.(success := Some(false))
    else q == before
  }

  lemma FateMeaning(p: Plan, i: nat, before: Slot, decoder: Decoder)
    requires i < |p.calls|
    ensures Outcome(Fate(p, i, before, decoder), before, decoder, p.nodes(i - i % p.size), p.calls[i], i % p.size, p.mc,
                    p.track)
  {
    if !p.nodes(ChunkStart(i, p.size)).Odd? {
      FateIsDirect(p, i, before, decoder);
    }
  }

  lemma HeightMeaning(p: Plan, i: nat, h: Option<nat>)
    requires i < |p.calls| && p.track
    ensures RanAt(h, p.nodes(i - i % p.size), p.mc) <==> h == HeightOf(ChunkReply(p, ChunkStart(i, p.size)))
  {
    var start := ChunkStart(i, p.size);
    var end := if start + p.size < |p.calls| then start + p.size else |p.calls|;
    var sent := Injected(p.mc, true) + p.calls[start..end];
    ModuloBound(i, p.size);
    assert sent[0] == Call(p.mc, [0x42, 0xcb, 0xb1, 0x5c]);
    assert sent[1] == Call("0x0000000000000000000000000000000000000064", [0xa3, 0xb1, 0xb3, 0x1d]);
  }

  class Pending {
    var success: Option<bool>
    var raw: Option<seq<Byte>>
    var value: Value
    var block: Option<nat>
    const decoder: Decoder

    constructor (decoder: Decoder)
      ensures this.decoder == decoder && Abs() == Slot(None, None, Null, None)
    {
      this.decoder := decoder;
      success, raw, value, block := None, None, Null, None;
    }

    function Abs(): Slot
      reads this
    {
      Slot(success, raw, value, block)
    }

    /** One turn of the unpacking loop. */
    method Take(height: Option<nat>, r: Inner)
      modifies this
      ensures Abs() == Fill(old(Abs()), decoder, height, r)
    {
      block := height;
      success := Some(r.0);
      if !r.0 {
        return;
      }
      raw := Some(r.1);
      match decoder
      case None =>
        value := Bytes(r.1);
      case Some(decode) =>
        match decode(r.1) {
          case Ok(v) =>
            value := v;
          case Raised(_) =>
            success := Some(false);
            value := Null;
        }
    }
  }

  lemma OutsideSlice(ps: seq<Pending>, start: nat, end: nat)
    requires start <= end <= |ps| && forall i, j | 0 <= i < j < |ps| :: ps[i] != ps[j]
    ensures forall i | 0 <= i < |ps| && !(start <= i < end) :: ps[i] !in ps[start..end]
    ensures forall p | p in ps[start..end] :: p in ps
  {
  }

  class Batch {
    const mc: string
    const batchSize: int
    const trackBlocks: bool
    var chunkBlocks: seq<Option<nat>>
    var calls: seq<Call>
    var pendings: seq<Pending>

    /** Each queued call has a pending of its own. */
    ghost predicate Valid()
      reads this`calls, this`pendings
    {
      |calls| == |pendings| && forall i, j | 0 <= i < j < |pendings| :: pendings[i] != pendings[j]
    }

    constructor (mc: string, batchSize: int, trackBlocks: bool)
      ensures this.mc == mc && this.batchSize == batchSize && this.trackBlocks == trackBlocks
      ensures Valid() && calls == [] && pendings == [] && chunkBlocks == []
    {
      this.mc, this.batchSize, this.trackBlocks := mc, batchSize, trackBlocks;
      chunkBlocks, calls, pendings := [], [], [];
    }

    method Add(target: string, data: seq<Byte>, decoder: Decoder) returns (p: Pending)
      requires Valid()
      modifies this`calls, this`pendings
      ensures Valid() && fresh(p)
      ensures p.decoder == decoder && p.Abs() == Slot(None, None, Null, None)
      ensures calls == old(calls) + [Call(target, data)] && pendings == old(pendings) + [p]
    {
      p := new Pending(decoder);
      calls := calls + [Call(target, data)];
      pendings := pendings + [p];
    }

    /** The flush about to be made. */
    function ThisFlush(nodes: nat -> Node): Plan
      requires batchSize > 0
      reads this`calls
    {
      Plan(mc, batchSize, trackBlocks, calls, nodes)
    }

    /** `_flush`: every pending is settled by its own position in its own chunk,
        and by nothing else. A zero step raises, a negative one visits nothing. */
    method Flush(nodes: nat -> Node) returns (r: Result<()>)
      requires Valid()
      modifies this`chunkBlocks, pendings
      ensures r.Raised? <==> batchSize == 0
      ensures forall i | 0 <= i < |pendings| ::
                pendings[i].Abs() == if batchSize > 0
                  then Fate(ThisFlush(nodes), i, old(pendings[i].Abs()), pendings[i].decoder)
                                     else old(pendings[i].Abs())
      ensures batchSize > 0 ==> forall i | 0 <= i < |pendings| ::
                Outcome(pendings[i].Abs(), old(pendings[i].Abs()), pendings[i].decoder, nodes(i - i % batchSize),
                        calls[i], i % batchSize, mc, trackBlocks)
      ensures chunkBlocks == if batchSize > 0 then Heights(ThisFlush(nodes), 0) else []
    {
      chunkBlocks := [];
      if batchSize == 0 {
        return Raised("range() arg 3 must not be zero");
      }
      r := Ok(());
      if batchSize < 0 {
        return;
      }
      FlushChunks(nodes, ThisFlush(nodes));
      forall i | 0 <= i < |pendings|
        ensures Outcome(pendings[i].Abs(), old(pendings[i].Abs()), pendings[i].decoder, nodes(i - i % batchSize),
                        calls[i], i % batchSize, mc, trackBlocks)
      {
        FateMeaning(ThisFlush(nodes), i, old(pendings[i].Abs()), pendings[i].decoder);
      }
    }

    /** A flush to nodes that execute what they are sent, or do not answer, gives
        every pending what its own call would have got alone. */
    method FlushDirect(nodes: nat -> Node)
      requires Valid() && batchSize > 0 && forall k :: !nodes(k).Odd?
      modifies this`chunkBlocks, pendings
      ensures forall i | 0 <= i < |pendings| ::
                pendings[i].Abs() ==
                Direct(old(pendings[i].Abs()), pendings[i].decoder, calls[i], nodes(ChunkStart(i, batchSize)), mc,
                  trackBlocks)
    {
      var flushed := Flush(nodes);
      forall i | 0 <= i < |pendings|
        ensures pendings[i].Abs() ==
                Direct(old(pendings[i].Abs()), pendings[i].decoder, calls[i], nodes(ChunkStart(i, batchSize)), mc,
                  trackBlocks)
      {
        FateIsDirect(ThisFlush(nodes), i, old(pendings[i].Abs()), pendings[i].decoder);
      }
    }

    method FlushChunks(nodes: nat -> Node, ghost plan: Plan)
      requires Valid() && batchSize > 0 && plan == ThisFlush(nodes) && chunkBlocks == []
      modifies this`chunkBlocks, pendings
      ensures forall i | 0 <= i < |pendings| ::
              pendings[i].Abs() == Fate(plan, i, old(pendings[i].Abs()), pendings[i].decoder)
      ensures chunkBlocks == Heights(plan, 0)
    {
      var start, n := 0, |calls|;
      while start < n
        invariant start % batchSize == 0
        invariant forall i | 0 <= i < n && i < start ::
                  pendings[i].Abs() == Fate(plan, i, old(pendings[i].Abs()), pendings[i].decoder)
        invariant forall i | start <= i < n :: pendings[i].Abs() == old(pendings[i].Abs())
        invariant Heights(plan, 0) == chunkBlocks + Heights(plan, start)
        decreases n - start
      {
        var end := if start + batchSize < n then start + batchSize else n;
        OutsideSlice(pendings, start, end);
        ChunkStep(plan, start, chunkBlocks);
        FlushChunk(nodes, start, end, plan);
        start := start + batchSize;
      }
    }

    method FlushChunk(nodes: nat -> Node, start: nat, end: nat, ghost plan: Plan)
      requires Valid() && batchSize > 0 && plan == ThisFlush(nodes) && start < |calls| && start % batchSize == 0
      requires end == if start + batchSize < |calls| then start + batchSize else |calls|
      modifies this`chunkBlocks, pendings[start..end]
      ensures forall i | start <= i < end ::
              pendings[i].Abs() == Fate(plan, i, old(pendings[i].Abs()), pendings[i].decoder)
      ensures chunkBlocks == old(chunkBlocks) + if trackBlocks then [HeightOf(ChunkReply(plan, start))] else []
    {
      var parsed := Parse(Reply(nodes(start), Injected(mc, trackBlocks) + calls[start..end]), trackBlocks);
      if trackBlocks {
        chunkBlocks := chunkBlocks + [HeightOf(parsed)];
      }
      assert parsed == ChunkReply(plan, start);
      ChunkFates(plan, start);
      SettleChunk(start, end, parsed);
    }

    /** A chunk that failed marks its pendings; otherwise results are dealt out
        in order for as long as both last. */
    method SettleChunk(start: nat, end: nat, parsed: Parsed)
      requires Valid() && start <= end <= |pendings|
      modifies pendings[start..end]
      ensures forall i | start <= i < end ::
              pendings[i].Abs() == Settle(old(pendings[i].Abs()), pendings[i].decoder, parsed, i - start)
    {
      match parsed
      case Unusable =>
        for i := start to end
          invariant forall j | start <= j < i :: pendings[j].Abs() == old(pendings[j].Abs()).(success := Some(false))
          invariant forall j | i <= j < end :: pendings[j].Abs() == old(pendings[j].Abs())
        {
          assert pendings[i] in pendings[start..end];
          pendings[i].success := Some(false);
        }
      case Usable(height, results) =>
        var m := if end - start < |results| then end else start + |results|;
        for i := start to m
          invariant forall j | start <= j < i ::
                    pendings[j].Abs() == Fill(old(pendings[j].Abs()), pendings[j].decoder, height, results[j - start])
          invariant forall j | i <= j < end :: pendings[j].Abs() == old(pendings[j].Abs())
        {
          assert pendings[i] in pendings[start..end];
          pendings[i].Take(height, results[i - start]);
        }
    }

    /** `min_block`: None when no chunk reported, else the least height reported. */
    method MinBlock() returns (r: Option<nat>)
      ensures r.None? <==> forall h | h in chunkBlocks :: h.None?
      ensures r.Some? ==> r in chunkBlocks && forall h | h in chunkBlocks && h.Some? :: r.value <= h.value
    {
      r := None;
      for i := 0 to |chunkBlocks|
        invariant r.None? <==> forall j | 0 <= j < i :: chunkBlocks[j].None?
        invariant r.Some? ==> r in chunkBlocks && forall j | 0 <= j < i && chunkBlocks[j].Some? ::
                  r.value <= chunkBlocks[j].value
      {
        var h := chunkBlocks[i];
        if h.Some? && (r.None? || h.value < r.value) {
          r := h;
        }
      }
    }
  }

  /** The result of making one call by itself on the node of its chunk. */
  function Direct(p: Slot, decoder: Decoder, call: Call, node: Node, mc: string, track: bool): Slot {
    match node
    case Down => p.(success := Some(false))
    case Odd(_) => p
    case Serving(exec) => Fill(p, decoder, if track then DirectHeight(exec, mc) else None, exec(call))
  }

  function DirectHeight(exec: Call -> Inner, mc: string): Option<nat> {
    Height([exec(Call(mc, GET_BLOCK_NUMBER)), exec(Call(ARBSYS, ARB_BLOCK_NUMBER))])
  }

  /** Against nodes that execute what they are sent (or do not answer), batching
      is invisible: every call gets exactly its own result, stamped with its own
      node's height, whatever the queue, batch size and tracking. */
  lemma BatchIsDirect(calls: seq<Call>, node: Node, mc: string, track: bool, start: nat, end: nat, i: nat, p: Slot,
                      decoder: Decoder)
    requires start <= i < end <= |calls| && !node.Odd?
    ensures Settle(p, decoder, Parse(Reply(node, Injected(mc, track) + calls[start..end]), track), i - start)
         == Direct(p, decoder, calls[i], node, mc, track)
  {
    var sent := Injected(mc, track) + calls[start..end];
    if node.Serving? {
      var rs := Reply(node, sent).value;
      var off := if track then 2 else 0;
      assert sent[off + (i - start)] == calls[i];
      assert rs[off + (i - start)] == node.exec(calls[i]);
      if track {
        assert sent[0] == Call(mc, GET_BLOCK_NUMBER) && sent[1] == Call(ARBSYS, ARB_BLOCK_NUMBER);
        assert rs[2..][i - start] == rs[2 + (i - start)];
      }
    }
  }

  const GET_ETH_BALANCE: seq<Byte> := [0x4d, 0x23, 0x01, 0xcc]
  const BALANCE_OF: seq<Byte> := [0x70, 0xa0, 0x82, 0x31]

  function HolderCall(target: string, selector: seq<Byte>, holder: seq<Byte>): Call {
    Call(target, selector + seq(12, _ => 0) + holder)
  }

  datatype Head = Head(
    block: Option<nat>,
    native: Option<nat>,
    balances: map<string, nat>,
    blocks: map<string, Option<nat>>)

  /** A usable balance reading. */
  predicate Good(s: Slot) {
    s.success == Some(true) && s.value.Number?
  }

  /** The last usable reading of a token among the first `n`. */
  function LastGood(tokens: seq<string>, slots: seq<Slot>, token: string, n: nat): (r: Option<nat>)
    requires n <= |tokens| == |slots|
    ensures r.Some? ==> r.value < n && Lower(tokens[r.value]) == token && Good(slots[r.value])
    ensures forall j | 0 <= j < n && Lower(tokens[j]) == token && Good(slots[j]) :: r.Some? && j <= r.value
  {
    if n == 0 then None
    else if Lower(tokens[n - 1]) == token && Good(slots[n - 1]) then Some(n - 1)
    else LastGood(tokens, slots, token, n - 1)
  }

  /** The queue `head_balances` builds: the native balance, then each token. */
  function HeadCalls(mc: string, tokens: seq<string>, holder: seq<Byte>): seq<Call> {
    [HolderCall(mc, GET_ETH_BALANCE, holder)]
    + seq(|tokens|, i requires 0 <= i < |tokens| => HolderCall(tokens[i], BALANCE_OF, holder))
  }

  const UNREAD := Slot(None, None, Null, None)

  function HeadPlan(mc: string, tokens: seq<string>, holder: seq<Byte>, nodes: nat -> Node, size: int): Plan
    requires size > 0
  {
    Plan(mc, size, true, HeadCalls(mc, tokens, holder), nodes)
  }

  /** The reading of the `i`-th queued call; a negative batch size sends nothing. */
  function HeadReading(mc: string, tokens: seq<string>, holder: seq<Byte>, nodes: nat -> Node, size: int, i: nat): Slot
    requires i <= |tokens|
  {
    if size > 0 then Fate(HeadPlan(mc, tokens, holder, nodes, size), i, UNREAD, Some(DecodeUint256)) else UNREAD
  }

  function TokenReadings(mc: string, tokens: seq<string>, holder: seq<Byte>, nodes: nat -> Node,
                         size: int): (r: seq<Slot>)
    ensures |r| == |tokens|
  {
    seq(|tokens|, i requires 0 <= i < |tokens| => HeadReading(mc, tokens, holder, nodes, size, i + 1))
  }

  /** The two dictionaries pair, for every token, the balance and the block of
      its last usable reading. */
  ghost predicate Paired(tokens: seq<string>, slots: seq<Slot>, n: nat, balances: map<string, nat>,
                         blocks: map<string, Option<nat>>)
    requires n <= |tokens| == |slots|
  {
    forall t :: (match LastGood(tokens, slots, t, n)
                 case None => t !in balances && t !in blocks
                 case Some(i) =>
                   && t in balances && t in blocks
                   && balances[t] == slots[i].value.n && blocks[t] == slots[i].block)
  }

  lemma PairedStep(tokens: seq<string>, slots: seq<Slot>, i: nat, balances: map<string, nat>,
                   blocks: map<string, Option<nat>>)
    requires i < |tokens| == |slots| && Paired(tokens, slots, i, balances, blocks)
    ensures var t, s := Lower(tokens[i]), slots[i];
            if Good(s) then Paired(tokens, slots, i + 1, balances[t := s.value.n], blocks[t := s.block])
            else Paired(tokens, slots, i + 1, balances, blocks)
  {
  }

  // What the readings mean, on the nodes' answers alone.

  /** The `i`-th call of the queue, sent to its chunk's node, was answered with
      the number `n`, and its chunk ran at `h`. */
  predicate Reads(mc: string, nodes: nat -> Node, size: int, i: nat, call: Call, n: nat, h: Option<nat>) {
    size > 0 &&
    var node := nodes(i - i % size);
    var a := AnswerTo(node, call, i % size, true);
    && a.Some? && a.value.0 && |a.value.1| >= 32 && n == Radix.Value(256, a.value.1[..32])
    && RanAt(h, node, mc)
  }

  /** `getEthBalance(holder)` on the multicall contract, and `balanceOf(holder)`. */
  function NativeCall(mc: string, holder: seq<Byte>): Call {
    Call(mc, [0x4d, 0x23, 0x01, 0xcc, 0, 0, 0, 0, 0, 0, 0, 0, 0, 0, 0, 0] + holder)
  }

  function TokenCall(token: string, holder: seq<Byte>): Call {
    Call(token, [0x70, 0xa0, 0x82, 0x31, 0, 0, 0, 0, 0, 0, 0, 0, 0, 0, 0, 0] + holder)
  }

  lemma HeadCallsAre(mc: string, tokens: seq<string>, holder: seq<Byte>)
    ensures HeadCalls(mc, tokens, holder)[0] == NativeCall(mc, holder)
    ensures forall i | 0 <= i < |tokens| :: HeadCalls(mc, tokens, holder)[i + 1] == TokenCall(tokens[i], holder)
  {
    assert GET_ETH_BALANCE + seq(12, _ => 0) == [0x4d, 0x23, 0x01, 0xcc, 0, 0, 0, 0, 0, 0, 0, 0, 0, 0, 0, 0];
    assert BALANCE_OF + seq(12, _ => 0) == [0x70, 0xa0, 0x82, 0x31, 0, 0, 0, 0, 0, 0, 0, 0, 0, 0, 0, 0];
  }

  /** A usable reading is a number the node answered with. */
  lemma ReadingMeaning(mc: string, tokens: seq<string>, holder: seq<Byte>, nodes: nat -> Node, size: int, i: nat,
                       n: nat, h: Option<nat>)
    requires i <= |tokens|
    ensures var call := if i == 0 then NativeCall(mc, holder) else TokenCall(tokens[i - 1], holder);
            var s := HeadReading(mc, tokens, holder, nodes, size, i);
            Reads(mc, nodes, size, i, call, n, h) <==> Good(s) && s.value.n == n && s.block == h
  {
    HeadCallsAre(mc, tokens, holder);
    if size > 0 {
      FateMeaning(HeadPlan(mc, tokens, holder, nodes, size), i, UNREAD, Some(DecodeUint256));
      HeightMeaning(HeadPlan(mc, tokens, holder, nodes, size), i, h);
      HeightMeaning(HeadPlan(mc, tokens, holder, nodes, size), i,
        HeadReading(mc, tokens, holder, nodes, size, i).block);
    }
  }

  /** The native balance is the number the first call was answered with, if any. */
  ghost predicate NativeRead(native: Option<nat>, mc: string, holder: seq<Byte>, nodes: nat -> Node, size: int) {
    var call := NativeCall(mc, holder);
    && (native.Some? ==> exists h :: Reads(mc, nodes, size, 0, call, native.value, h))
    && forall n: nat, h :: Reads(mc, nodes, size, 0, call, n, h) ==> native == Some(n)
  }

  lemma NativeMeaning(mc: string, tokens: seq<string>, holder: seq<Byte>, nodes: nat -> Node, size: int)
    ensures var s := HeadReading(mc, tokens, holder, nodes, size, 0);
            NativeRead(if Good(s) then Some(s.value.n) else None, mc, holder, nodes, size)
  {
    var s := HeadReading(mc, tokens, holder, nodes, size, 0);
    forall n: nat, h
      ensures Reads(mc, nodes, size, 0, NativeCall(mc, holder), n, h) <==> Good(s) && s.value.n == n && s.block == h
    {
      ReadingMeaning(mc, tokens, holder, nodes, size, 0, n, h);
    }
    assert Good(s) ==> Reads(mc, nodes, size, 0, NativeCall(mc, holder), s.value.n, s.block);
  }

  /** The `i`-th token's balance was read as `n` at `h`. */
  predicate TokenRead(mc: string, tokens: seq<string>, holder: seq<Byte>, nodes: nat -> Node, size: int, i: nat,
                      n: nat, h: Option<nat>)
    requires i < |tokens|
  {
    Reads(mc, nodes, size, i + 1, TokenCall(tokens[i], holder), n, h)
  }

  /** Both dictionaries hold a token exactly when it was read, with the number
      and the height of its last reading. */
  ghost predicate ReadOff(mc: string, tokens: seq<string>, holder: seq<Byte>, nodes: nat -> Node, size: int,
                          balances: map<string, nat>, blocks: map<string, Option<nat>>)
  {
    && balances.Keys == blocks.Keys
    && (forall t | t in balances ::
          exists i :: 0 <= i < |tokens| && Lower(tokens[i]) == t
            && TokenRead(mc, tokens, holder, nodes, size, i, balances[t], blocks[t])
            && NotReadAfter(mc, tokens, holder, nodes, size, i))
    && forall i, n: nat, h | 0 <= i < |tokens| && TokenRead(mc, tokens, holder, nodes, size, i, n, h) ::
         Lower(tokens[i]) in balances
  }

  ghost predicate NotReadAfter(mc: string, tokens: seq<string>, holder: seq<Byte>, nodes: nat -> Node, size: int,
                               i: nat)
    requires i < |tokens|
  {
    forall j, n: nat, h | i < j < |tokens| && Lower(tokens[j]) == Lower(tokens[i]) ::
      !TokenRead(mc, tokens, holder, nodes, size, j, n, h)
  }

  predicate Gives(s: Slot, n: nat, h: Option<nat>) {
    Good(s) && s.value.n == n && s.block == h
  }

  lemma PairedIsReadOff(mc: string, tokens: seq<string>, holder: seq<Byte>, nodes: nat -> Node, size: int,
                        balances: map<string, nat>, blocks: map<string, Option<nat>>)
    requires Paired(tokens, TokenReadings(mc, tokens, holder, nodes, size), |tokens|, balances, blocks)
    ensures ReadOff(mc, tokens, holder, nodes, size, balances, blocks)
  {
    var slots := TokenReadings(mc, tokens, holder, nodes, size);
    forall i, n: nat, h | 0 <= i < |tokens|
      ensures TokenRead(mc, tokens, holder, nodes, size, i, n, h) <==> Gives(slots[i], n, h)
    {
      ReadingMeaning(mc, tokens, holder, nodes, size, i + 1, n, h);
    }
    GivenIsReadOff(mc, tokens, holder, nodes, size, balances, blocks, slots);
  }

  lemma GivenIsReadOff(mc: string, tokens: seq<string>, holder: seq<Byte>, nodes: nat -> Node, size: int,
                       balances: map<string, nat>, blocks: map<string, Option<nat>>, slots: seq<Slot>)
    requires |slots| == |tokens| && Paired(tokens, slots, |tokens|, balances, blocks)
    requires forall i, n: nat, h | 0 <= i < |tokens| ::
               TokenRead(mc, tokens, holder, nodes, size, i, n, h) <==> Gives(slots[i], n, h)
    ensures ReadOff(mc, tokens, holder, nodes, size, balances, blocks)
  {
    forall t | t in balances
      ensures exists i :: 0 <= i < |tokens| && Lower(tokens[i]) == t
                && TokenRead(mc, tokens, holder, nodes, size, i, balances[t], blocks[t])
                && NotReadAfter(mc, tokens, holder, nodes, size, i)
    {
      var i := LastGood(tokens, slots, t, |tokens|).value;
      assert Gives(slots[i], balances[t], blocks[t]);
      assert TokenRead(mc, tokens, holder, nodes, size, i, balances[t], blocks[t]);
      assert NotReadAfter(mc, tokens, holder, nodes, size, i);
    }
    forall i, n: nat, h | 0 <= i < |tokens| && TokenRead(mc, tokens, holder, nodes, size, i, n, h)
      ensures Lower(tokens[i]) in balances
    {
      assert Gives(slots[i], n, h);
      assert LastGood(tokens, slots, Lower(tokens[i]), |tokens|).Some?;
    }
  }

  /** The chunk of the `i`-th call ran at `h`. */
  predicate ChunkRan(mc: string, nodes: nat -> Node, size: int, i: nat, h: Option<nat>) {
    size > 0 && RanAt(h, nodes(i - i % size), mc)
  }

  /** The least height that one of the chunks of `count` calls reported, if any did. */
  ghost predicate LeastHeight(low: Option<nat>, mc: string, nodes: nat -> Node, size: int, count: nat) {
    && (low.Some? ==> exists i :: 0 <= i < count && ChunkRan(mc, nodes, size, i, low))
    && forall i, h: nat | 0 <= i < count && ChunkRan(mc, nodes, size, i, Some(h)) :: low.Some? && low.value <= h
  }

  /** A height is recorded exactly when some chunk ran at it. */
  lemma RecordedExactly(p: Plan, h: Option<nat>)
    requires p.track
    ensures h in Heights(p, 0) <==> exists i :: 0 <= i < |p.calls| && ChunkRan(p.mc, p.nodes, p.size, i, h)
  {
    HeightsAreChunks(p, 0);
    forall i | 0 <= i < |p.calls|
      ensures ChunkRan(p.mc, p.nodes, p.size, i, h) <==> h == HeightOf(ChunkReply(p, ChunkStart(i, p.size)))
    {
      HeightMeaning(p, i, h);
    }
  }

  lemma MinIsLeast(p: Plan, low: Option<nat>)
    requires p.track
    requires low.None? <==> forall h | h in Heights(p, 0) :: h.None?
    requires low.Some? ==> low in Heights(p, 0) && forall h | h in Heights(p, 0) && h.Some? :: low.value <= h.value
    ensures LeastHeight(low, p.mc, p.nodes, p.size, |p.calls|)
  {
    RecordedExactly(p, low);
    forall i, h: nat | 0 <= i < |p.calls| && ChunkRan(p.mc, p.nodes, p.size, i, Some(h))
      ensures low.Some? && low.value <= h
    {
      RecordedExactly(p, Some(h));
      assert Some(h) in Heights(p, 0);
    }
  }

  /** `head_balances`, whatever the nodes answer: a token's balance and its block
      come from one reading, the last usable one of that token; the native
      balance likewise; and the block of the whole is the least one reported. */
  method HeadBalances(mc: string, tokens: seq<string>, holder: seq<Byte>, size: int, nodes: nat -> Node)
    returns (r: Result<Head>)
    ensures r.Raised? <==> size == 0
    ensures r.Ok? ==> ReadOff(mc, tokens, holder, nodes, size, r.value.balances, r.value.blocks)
    ensures r.Ok? ==> NativeRead(r.value.native, mc, holder, nodes, size)
    ensures r.Ok? ==> LeastHeight(r.value.block, mc, nodes, size, |tokens| + 1)
    ensures r.Ok? ==> Paired(tokens, TokenReadings(mc, tokens, holder, nodes, size), |tokens|, r.value.balances,
            r.value.blocks)
  {
    if size == 0 {
      return Raised("range() arg 3 must not be zero");
    }
    var batch, low := QueueAndFlush(mc, tokens, holder, size, nodes);
    var balances, blocks := ReadTokens(batch, tokens, TokenReadings(mc, tokens, holder, nodes, size));
    var n := batch.pendings[0].Abs();
    r := Ok(Head(low, if Good(n) then Some(n.value.n) else None, balances, blocks));
    PairedIsReadOff(mc, tokens, holder, nodes, size, balances, blocks);
    NativeMeaning(mc, tokens, holder, nodes, size);
  }

  /** The two comprehensions over the queued token reads. */
  method ReadTokens(batch: Batch, tokens: seq<string>, ghost slots: seq<Slot>)
    returns (balances: map<string, nat>, blocks: map<string, Option<nat>>)
    requires |slots| == |tokens| && |batch.pendings| == |tokens| + 1
    requires forall i | 0 <= i < |tokens| :: batch.pendings[i + 1].Abs() == slots[i]
    ensures Paired(tokens, slots, |tokens|, balances, blocks)
  {
    balances, blocks := map[], map[];
    for i := 0 to |tokens|
      invariant Paired(tokens, slots, i, balances, blocks)
    {
      var p := batch.pendings[i + 1].Abs();
      assert p == slots[i];
      PairedStep(tokens, slots, i, balances, blocks);
      if Good(p) {
        balances := balances[Lower(tokens[i]) := p.value.n];
        blocks := blocks[Lower(tokens[i]) := p.block];
      }
    }
  }

  /** The queue of `head_balances`, flushed: every pending holds its own reading. */
  method QueueAndFlush(mc: string, tokens: seq<string>, holder: seq<Byte>, size: int, nodes: nat -> Node)
    returns (batch: Batch, low: Option<nat>)
    requires size != 0
    ensures |batch.pendings| == |tokens| + 1
    ensures forall i | 0 <= i <= |tokens| :: batch.pendings[i].Abs() == HeadReading(mc, tokens, holder, nodes, size, i)
    ensures LeastHeight(low, mc, nodes, size, |tokens| + 1)
  {
    batch := QueueHead(mc, tokens, holder, size);
    var flushed := batch.Flush(nodes);
    low := batch.MinBlock();
    if size > 0 {
      MinIsLeast(HeadPlan(mc, tokens, holder, nodes, size), low);
    }
  }

  ghost predicate Untouched(p: Pending)
    reads p
  {
    p.decoder == Some(DecodeUint256) && p.Abs() == UNREAD
  }

  method QueueHead(mc: string, tokens: seq<string>, holder: seq<Byte>, size: int) returns (batch: Batch)
    ensures fresh(batch) && batch.Valid() && batch.batchSize == size && batch.trackBlocks && batch.mc == mc
    ensures batch.calls == HeadCalls(mc, tokens, holder)
    ensures forall j | 0 <= j < |batch.pendings| :: fresh(batch.pendings[j]) && Untouched(batch.pendings[j])
  {
    var want := HeadCalls(mc, tokens, holder);
    batch := new Batch(mc, size, true);
    var native := batch.Add(want[0].target, want[0].data, Some(DecodeUint256));
    for i := 0 to |tokens|
      invariant fresh(batch) && batch.Valid() && batch.batchSize == size && batch.trackBlocks && batch.mc == mc
      invariant batch.calls == want[..i + 1]
      invariant forall j | 0 <= j < |batch.pendings| :: fresh(batch.pendings[j]) && Untouched(batch.pendings[j])
    {
      var p := batch.Add(tokens[i], want[i + 1].data, Some(DecodeUint256));
      assert want[i + 1].target == tokens[i];
      assert want[..i + 2] == want[..i + 1] + [want[i + 1]];
    }
    assert want[..|tokens| + 1] == want;
  }

  lemma ModuloBound(i: nat, size: nat)
    requires size > 0
    ensures i % size < size && i < ChunkStart(i, size) + size && i - ChunkStart(i, size) == i % size
  {
  }

  /** On a node that executes what it is sent, or does not answer, a reading is
      what that call gets when made alone. */
  lemma HeadReadingIsDirect(mc: string, tokens: seq<string>, holder: seq<Byte>, nodes: nat -> Node, size: int, i: nat)
    requires size > 0 && i <= |tokens| && !nodes(ChunkStart(i, size)).Odd?
    ensures HeadReading(mc, tokens, holder, nodes, size, i) ==
            Direct(UNREAD, Some(DecodeUint256), HeadCalls(mc, tokens, holder)[i], nodes(ChunkStart(i, size)), mc, true)
  {
    FateIsDirect(HeadPlan(mc, tokens, holder, nodes, size), i, UNREAD, Some(DecodeUint256));
  }

  /** Batching is invisible: for every queue, batch size and tracking, a pending
      whose chunk met a node that executes what it is sent, or does not answer,
      ends as if its own call had been made there alone. */
  lemma FateIsDirect(p: Plan, i: nat, before: Slot, decoder: Decoder)
    requires i < |p.calls| && !p.nodes(ChunkStart(i, p.size)).Odd?
    ensures Fate(p, i, before, decoder) ==
            Direct(before, decoder, p.calls[i], p.nodes(ChunkStart(i, p.size)), p.mc, p.track)
  {
    ModuloBound(i, p.size);
    SettledIsDirect(p, ChunkStart(i, p.size), i, before, decoder);
  }

  lemma SettledIsDirect(p: Plan, start: nat, i: nat, before: Slot, decoder: Decoder)
    requires start <= i < start + p.size && i < |p.calls| && !p.nodes(start).Odd?
    ensures Settle(before, decoder, ChunkReply(p, start), i - start)
            == Direct(before, decoder, p.calls[i], p.nodes(start), p.mc, p.track)
  {
    var end := if start + p.size < |p.calls| then start + p.size else |p.calls|;
    BatchIsDirect(p.calls, p.nodes(start), p.mc, p.track, start, end, i, before, decoder);
  }
}

/** Proxy resolution: a depth-first merge of ABIs over a possibly cyclic graph
    of proxies (qeth/abi.py, `BlockscoutAbiSource` and `_dedup_by_selector`). */
module ProxyAbi {
  import opened Options
  import opened Text

  /** An ABI entry: its kind, its name ("" when absent), its input types, and
      whatever else it carries. */
  datatype Entry = Entry(kind: string, name: string, inputs: seq<string>, rest: string)

  type Abi = seq<Entry>

  // Deduplication.

  /** The key a function entry is deduplicated by; others never collide. */
  function Key(e: Entry): Option<string> {
    if e.kind != "function" || e.name == "" then None
    else Some(e.name + "(" + Join(e.inputs) + ")")
  }

  function Keys(abi: Abi): set<string> {
    set e | e in abi && Key(e).Some? :: Key(e).value
  }

  function DedupFrom(abi: Abi, seen: set<string>): Abi {
    if abi == [] then []
    else
      match Key(abi[0])
      case Some(k) =>
        if k in seen then DedupFrom(abi[1..], seen)
        else [abi[0]] + DedupFrom(abi[1..], seen + {k})
      case None => [abi[0]] + DedupFrom(abi[1..], seen)
  }

  function Dedup(abi: Abi): Abi {
    DedupFrom(abi, {})
  }

  method DedupBySelector(abi: Abi) returns (out: Abi)
    ensures out == Dedup(abi)
    ensures AllPlain(abi) ==> out == Firsts(abi, |abi|)
  {
    FirstsOfPlain(abi);
    var seen: set<string> := {};
    out := [];
    assert abi[0..] == abi;
    for i := 0 to |abi|
      invariant Dedup(abi) == out + DedupFrom(abi[i..], seen)
    {
      var entry := abi[i];
      DedupTurn(abi, i, out, seen);
      if entry.kind != "function" {
        out := out + [entry];
        continue;
      }
      var sig := Key(entry);
      if sig.Some? && sig.value in seen {
        continue;
      }
      if sig.Some? {
        seen := seen + {sig.value};
      }
      out := out + [entry];
    }
  }

  /** One turn of the loop: the entry is dropped, or listed and its key marked. */
  lemma DedupTurn(abi: Abi, i: nat, out: Abi, seen: set<string>)
    requires i < |abi|
    ensures var k, rest := Key(abi[i]), abi[i + 1..];
            out + DedupFrom(abi[i..], seen) ==
            if k.Some? && k.value in seen then out + DedupFrom(rest, seen)
            else out + [abi[i]] + DedupFrom(rest, if k.Some? then seen + {k.value} else seen)
  {
    assert abi[i..][1..] == abi[i + 1..];
  }

  /** An entry stays when no earlier entry has its key. */
  predicate Kept(abi: Abi, i: nat)
    requires i < |abi|
  {
    Key(abi[i]).None? || forall j | 0 <= j < i :: Key(abi[j]) != Key(abi[i])
  }

  function KeptPrefix(abi: Abi, n: nat): Abi
    requires n <= |abi|
  {
    if n == 0 then []
    else KeptPrefix(abi, n - 1) + if Kept(abi, n - 1) then [abi[n - 1]] else []
  }

  // The same without keys: on entries alone.

  predicate Named(e: Entry) {
    e.kind == "function" && e.name != ""
  }

  /** Every named function has a name without "(" and proper input types. */
  predicate AllPlain(abi: Abi) {
    forall e | e in abi && Named(e) :: '(' !in e.name && forall t | t in e.inputs :: Piece(t)
  }

  /** An earlier function has the same name and the same input types. */
  predicate Repeats(abi: Abi, i: nat)
    requires i < |abi|
  {
    Named(abi[i]) &&
    exists j | 0 <= j < i :: Named(abi[j]) && abi[j].name == abi[i].name && abi[j].inputs == abi[i].inputs
  }

  /** The entries of a prefix that repeat nothing, in order. */
  function Firsts(abi: Abi, n: nat): Abi
    requires n <= |abi|
  {
    if n == 0 then []
    else if Repeats(abi, n - 1) then Firsts(abi, n - 1)
    else Firsts(abi, n - 1) + [abi[n - 1]]
  }

  /** Overloads have different keys. */
  lemma KeyTellsApart(a: Entry, b: Entry)
    requires AllPlain([a, b]) && Named(a) && Named(b)
    ensures Key(a) == Key(b) <==> a.name == b.name && a.inputs == b.inputs
  {
    assert a in [a, b] && b in [a, b];
    JoinInjective(a.inputs, b.inputs);
    if Key(a) == Key(b) {
      var p, q := Join(a.inputs) + ")", Join(b.inputs) + ")";
      assert a.name + "(" + p == Key(a).value && b.name + "(" + q == Key(b).value;
      SplitAt(a.name, p, b.name, q, '(');
      assert Join(a.inputs) == p[..|p| - 1] && Join(b.inputs) == q[..|q| - 1];
    }
  }

  lemma KeptMeaning(abi: Abi, i: nat)
    requires i < |abi| && AllPlain(abi)
    ensures Kept(abi, i) <==> !Repeats(abi, i)
  {
    forall j | 0 <= j < i && Named(abi[j]) && Named(abi[i])
      ensures Key(abi[j]) == Key(abi[i]) <==> abi[j].name == abi[i].name && abi[j].inputs == abi[i].inputs
    {
      KeyTellsApart(abi[j], abi[i]);
    }
  }

  lemma {:induction false} KeptIsFirst(abi: Abi, n: nat)
    requires n <= |abi| && AllPlain(abi)
    ensures KeptPrefix(abi, n) == Firsts(abi, n)
  {
    if n > 0 {
      KeptIsFirst(abi, n - 1);
      KeptMeaning(abi, n - 1);
    }
  }

  /** Every entry stays except a function that repeats the name and the input
      types of an earlier one. */
  lemma FirstsOfPlain(abi: Abi)
    ensures AllPlain(abi) ==> Dedup(abi) == Firsts(abi, |abi|)
  {
    assert abi[..|abi|] == abi;
    DedupKeepsFirst(abi, |abi|);
    if AllPlain(abi) {
      KeptIsFirst(abi, |abi|);
    }
  }

  lemma {:induction false} DedupAppend(a: Abi, b: Abi, seen: set<string>)
    ensures DedupFrom(a + b, seen) == DedupFrom(a, seen) + DedupFrom(b, seen + Keys(a))
  {
    if a == [] {
      assert a + b == b && seen + Keys(a) == seen;
    } else {
      assert (a + b)[1..] == a[1..] + b;
      KeysCons(a);
      match Key(a[0])
      case None =>
        DedupAppend(a[1..], b, seen);
        assert seen + Keys(a[1..]) == seen + Keys(a);
      case Some(k) =>
        assert seen + {k} + Keys(a[1..]) == seen + Keys(a);
        if k in seen {
          assert seen + {k} == seen;
        }
        DedupAppend(a[1..], b, seen + {k});
    }
  }

  lemma KeysCons(a: Abi)
    requires a != []
    ensures Keys(a) == Keys(a[1..]) + if Key(a[0]).Some? then {Key(a[0]).value} else {}
  {
    assert a == [a[0]] + a[1..];
  }

  /** The list keeps, in order, exactly the first entry of every key and every
      entry without a key. */
  lemma {:induction false} DedupKeepsFirst(abi: Abi, n: nat)
    requires n <= |abi|
    ensures Dedup(abi[..n]) == KeptPrefix(abi, n)
  {
    if n > 0 {
      var init, last := abi[..n - 1], abi[n - 1];
      assert abi[..n] == init + [last];
      DedupAppend(init, [last], {});
      DedupKeepsFirst(abi, n - 1);
      DedupOne(last, {} + Keys(init));
      KeysOfPrefix(abi, n - 1);
    }
  }

  lemma KeysOfPrefix(abi: Abi, i: nat)
    requires i < |abi|
    ensures Kept(abi, i) <==> Key(abi[i]).None? || Key(abi[i]).value !in Keys(abi[..i])
  {
    if Key(abi[i]).Some? && Key(abi[i]).value in Keys(abi[..i]) {
      var e :| e in abi[..i] && Key(e) == Key(abi[i]);
      var j :| 0 <= j < i && abi[j] == e;
    }
    assert forall j | 0 <= j < i :: abi[j] in abi[..i];
  }

  lemma DedupOne(e: Entry, seen: set<string>)
    ensures DedupFrom([e], seen) == if Key(e).Some? && Key(e).value in seen then [] else [e]
  {
  }

  /** Entries already deduplicated against fewer keys may be deduplicated again. */
  lemma {:induction false} DedupAgain(abi: Abi, fewer: set<string>, seen: set<string>)
    requires fewer <= seen
    ensures DedupFrom(DedupFrom(abi, fewer), seen) == DedupFrom(abi, seen)
  {
    if abi != [] {
      var own := if Key(abi[0]).Some? then {Key(abi[0]).value} else {};
      var rest := DedupFrom(abi[1..], fewer + own);
      assert ([abi[0]] + rest)[1..] == rest;
      DedupAgain(abi[1..], fewer + own, seen + own);
      assert own <= fewer ==> fewer + own == fewer;
      assert own <= seen ==> seen + own == seen;
      assert own == {} ==> fewer + own == fewer && seen + own == seen;
    }
  }

  lemma {:induction false} KeysOfDedup(abi: Abi, seen: set<string>)
    ensures Keys(DedupFrom(abi, seen)) + seen == Keys(abi) + seen
  {
    if abi != [] {
      var own := if Key(abi[0]).Some? then {Key(abi[0]).value} else {};
      KeysCons(abi);
      KeysOfDedup(abi[1..], seen + own);
      var rest := DedupFrom(abi[1..], seen + own);
      KeysCons([abi[0]] + rest);
      assert ([abi[0]] + rest)[1..] == rest;
      assert own <= seen ==> seen + own == seen;
      assert seen + {} == seen;
    }
  }

  /** Deduplicating a part early changes nothing. */
  lemma DedupParts(a: Abi, x: Abi, y: Abi, c: Abi)
    requires Dedup(x) == Dedup(y)
    ensures Dedup(a + x + c) == Dedup(a + y + c)
  {
    DedupThrough(a, x, c);
    DedupThrough(a, y, c);
  }

  lemma DedupThrough(a: Abi, x: Abi, c: Abi)
    ensures Dedup(a + x + c) == Dedup(a + Dedup(x) + c)
  {
    DedupAppend(a + x, c, {});
    DedupAppend(a + Dedup(x), c, {});
    DedupAppend(a, x, {});
    DedupAppend(a, Dedup(x), {});
    DedupAgain(x, {}, {} + Keys(a));
    KeysOfDedup(x, {});
    assert Keys(a + x) == Keys(a) + Keys(x);
    assert Keys(a + Dedup(x)) == Keys(a) + Keys(Dedup(x));
    assert Keys(Dedup(x)) + {} == Keys(Dedup(x)) && Keys(x) + {} == Keys(x);
  }

  lemma DedupTwice(x: Abi)
    ensures Dedup(Dedup(x)) == Dedup(x)
    ensures Dedup(x) == [] <==> x == []
  {
    DedupAgain(x, {}, {});
  }

  // The graph.

  /** What the explorer says about an address: the v2 page with its
      implementations ("" for one without an address), or the v1 ABI (None for
      "not verified"), or an error the caller sees. */
  datatype Page = V2(own: Abi, impls: seq<string>) | V1(own1: Option<Abi>) | V1Error(error: string)

  datatype Explorer = Explorer(page: string -> Page, storedImpl: string -> string, maxDepth: nat)

  /** The addresses seen so far and the fetches made, in order. */
  datatype Visited = Visited(seen: set<string>, fetched: seq<string>)

  function Visit(v: Visited, addr: string): Visited {
    Visited(v.seen + {Lower(addr)}, v.fetched + [addr])
  }

  function ListOf(abi: Option<Abi>): Abi {
    match abi case Some(es) => es case None => []
  }

  /** `_fetch_recursive`; None is the "no ABI" sentinel. */
  function Resolve(x: Explorer, addr: string, depth: nat, v: Visited): (r: (Result<Option<Abi>>, Visited))
    decreases if depth < x.maxDepth then x.maxDepth - depth else 0, 1, 0
  {
    if Lower(addr) in v.seen || depth >= x.maxDepth then (Ok(None), v)
    else
      var v1 := Visit(v, addr);
      match x.page(addr)
      case V1Error(e) => (Raised(e), v1)
      case V1(own) => MergeStored(x, addr, own, depth, v1)
      case V2(own, impls) =>
        var (r, v2) := ResolveAll(x, impls, depth, v1);
        if r.Raised? then (Raised(r.error), v2)
        else
          var merged := own + r.value;
          (Ok(if merged == [] then None else Some(Dedup(merged))), v2)
  }

  /** The lists the implementations contribute, one after the other. */
  function ResolveAll(x: Explorer, impls: seq<string>, depth: nat, v: Visited): (Result<Abi>, Visited)
    requires depth < x.maxDepth
    decreases x.maxDepth - depth, 0, |impls|
  {
    if impls == [] then (Ok([]), v)
    else if impls[0] == "" then ResolveAll(x, impls[1..], depth, v)
    else
      var (r, v1) := Resolve(x, impls[0], depth + 1, v);
      if r.Raised? then (Raised(r.error), v1)
      else
        var (rest, v2) := ResolveAll(x, impls[1..], depth, v1);
        if rest.Raised? then (rest, v2) else (Ok(ListOf(r.value) + rest.value), v2)
  }

  /** `_merge_rpc_proxy`: the implementation named by the chain's own slots. */
  function MergeStored(x: Explorer, addr: string, own: Option<Abi>, depth: nat, v: Visited)
    : (Result<Option<Abi>>, Visited)
    requires depth < x.maxDepth
    decreases x.maxDepth - depth, 0, 0
  {
    var impl := x.storedImpl(addr);
    if impl == "" || Lower(impl) in v.seen then (Ok(own), v)
    else
      var (r, v1) := Resolve(x, impl, depth + 1, v);
      if r.Raised? then (r, v1)
      else
        var merged := ListOf(own) + ListOf(r.value);
        (Ok(if merged == [] then own else Some(Dedup(merged))), v1)
  }

  /** The independent reading: the same walk, listing every entry met, with no
      deduplication anywhere. */
  function Flat(x: Explorer, addr: string, depth: nat, v: Visited): (Result<Abi>, Visited)
    decreases if depth < x.maxDepth then x.maxDepth - depth else 0, 1, 0
  {
    if Lower(addr) in v.seen || depth >= x.maxDepth then (Ok([]), v)
    else
      var v1 := Visit(v, addr);
      match x.page(addr)
      case V1Error(e) => (Raised(e), v1)
      case V1(own) =>
        var impl := x.storedImpl(addr);
        if impl == "" then (Ok(ListOf(own)), v1)
        else
          var (r, v2) := Flat(x, impl, depth + 1, v1);
          if r.Raised? then (r, v2) else (Ok(ListOf(own) + r.value), v2)
      case V2(own, impls) =>
        var (r, v2) := FlatAll(x, impls, depth, v1);
        if r.Raised? then (r, v2) else (Ok(own + r.value), v2)
  }

  function FlatAll(x: Explorer, impls: seq<string>, depth: nat, v: Visited): (Result<Abi>, Visited)
    requires depth < x.maxDepth
    decreases x.maxDepth - depth, 0, |impls|
  {
    if impls == [] then (Ok([]), v)
    else if impls[0] == "" then FlatAll(x, impls[1..], depth, v)
    else
      var (r, v1) := Flat(x, impls[0], depth + 1, v);
      if r.Raised? then (r, v1)
      else
        var (rest, v2) := FlatAll(x, impls[1..], depth, v1);
        if rest.Raised? then (rest, v2) else (Ok(r.value + rest.value), v2)
  }

  /** Merging agrees with listing: same walk, same error, and the same entries
      once duplicates are dropped. */
  ghost predicate Agrees(r: (Result<Option<Abi>>, Visited), f: (Result<Abi>, Visited)) {
    && r.1 == f.1
    && r.0.Ok? == f.0.Ok?
    && (r.0.Ok? ==> Dedup(ListOf(r.0.value)) == Dedup(f.0.value))
    && (r.0.Ok? && r.0.value.None? ==> f.0.value == [])
    && (r.0.Raised? ==> r.0.error == f.0.error)
  }

  lemma {:induction false} ResolveAgrees(x: Explorer, addr: string, depth: nat, v: Visited)
    ensures Agrees(Resolve(x, addr, depth, v), Flat(x, addr, depth, v))
    decreases if depth < x.maxDepth then x.maxDepth - depth else 0, 1, 0
  {
    if !(Lower(addr) in v.seen || depth >= x.maxDepth) {
      var v1 := Visit(v, addr);
      match x.page(addr)
      case V1Error(_) =>
      case V1(own) =>
        var impl := x.storedImpl(addr);
        if impl != "" {
          ResolveAgrees(x, impl, depth + 1, v1);
          var r, f := Resolve(x, impl, depth + 1, v1).0, Flat(x, impl, depth + 1, v1).0;
          if r.Ok? {
            MergeAgrees(ListOf(own), ListOf(r.value), f.value);
          }
        }
      case V2(own, impls) =>
        ResolveAllAgrees(x, impls, depth, v1);
        var r, f := ResolveAll(x, impls, depth, v1).0, FlatAll(x, impls, depth, v1).0;
        if r.Ok? {
          MergeAgrees(own, r.value, f.value);
        }
    }
  }

  lemma MergeAgrees(own: Abi, x: Abi, y: Abi)
    requires Dedup(x) == Dedup(y)
    ensures Dedup(Dedup(own + x)) == Dedup(own + y) == Dedup(own + x)
    ensures own + x == [] <==> own + y == []
    ensures own + [] == own
  {
    DedupParts(own, x, y, []);
    assert own + x + [] == own + x && own + y + [] == own + y;
    DedupTwice(own + x);
    DedupTwice(own + y);
  }

  lemma {:induction false} ResolveAllAgrees(x: Explorer, impls: seq<string>, depth: nat, v: Visited)
    requires depth < x.maxDepth
    ensures var (r, rv) := ResolveAll(x, impls, depth, v); var (f, fv) := FlatAll(x, impls, depth, v);
            rv == fv && r.Ok? == f.Ok? && (r.Ok? ==> Dedup(r.value) == Dedup(f.value)) &&
              (r.Raised? ==> r.error == f.error)
    decreases x.maxDepth - depth, 0, |impls|
  {
    if impls == [] {
    } else if impls[0] == "" {
      ResolveAllAgrees(x, impls[1..], depth, v);
    } else {
      ResolveAgrees(x, impls[0], depth + 1, v);
      var (r, v1) := Resolve(x, impls[0], depth + 1, v);
      var f := Flat(x, impls[0], depth + 1, v).0;
      if r.Ok? {
        ResolveAllAgrees(x, impls[1..], depth, v1);
        var rest, frest := ResolveAll(x, impls[1..], depth, v1).0, FlatAll(x, impls[1..], depth, v1).0;
        if rest.Ok? {
          DedupParts([], ListOf(r.value), f.value, rest.value);
          DedupParts(f.value, rest.value, frest.value, []);
          assert [] + ListOf(r.value) == ListOf(r.value) && [] + f.value == f.value;
          assert f.value + rest.value + [] == f.value + rest.value;
          assert f.value + frest.value + [] == f.value + frest.value;
        }
      }
    }
  }

  /** On a v2 page the nested merges come to one deduplication of the flat
      depth-first list, and "no ABI" means that list is empty. */
  lemma ResolveIsDedupOfFlat(x: Explorer, addr: string, depth: nat, v: Visited)
    requires x.page(addr).V2? && Lower(addr) !in v.seen && depth < x.maxDepth
    requires Resolve(x, addr, depth, v).0.Ok?
    ensures Flat(x, addr, depth, v).0.Ok?
    ensures var flat := Flat(x, addr, depth, v).0.value;
            Resolve(x, addr, depth, v).0.value == if flat == [] then None else Some(KeptPrefix(flat, |flat|))
  {
    ResolveAgrees(x, addr, depth, v);
    var page := x.page(addr);
    var r := ResolveAll(x, page.impls, depth, Visit(v, addr)).0;
    ResolveAllAgrees(x, page.impls, depth, Visit(v, addr));
    var f := FlatAll(x, page.impls, depth, Visit(v, addr)).0;
    MergeAgrees(page.own, r.value, f.value);
    var flat := page.own + f.value;
    assert flat[..|flat|] == flat;
    DedupKeepsFirst(flat, |flat|);
  }

  /** What the explorer lists for an address itself. */
  function Own(page: Page): Abi {
    match page
    case V2(own, _) => own
    case V1(own) => ListOf(own)
    case V1Error(_) => []
  }

  /** The entries of the given addresses, one address after the other. */
  function Listed(x: Explorer, addrs: seq<string>): Abi {
    if addrs == [] then [] else Own(x.page(addrs[0])) + Listed(x, addrs[1..])
  }

  lemma {:induction false} ListedAppend(x: Explorer, a: seq<string>, b: seq<string>)
    ensures Listed(x, a + b) == Listed(x, a) + Listed(x, b)
  {
    if a == [] {
      assert a + b == b;
    } else {
      assert (a + b)[1..] == a[1..] + b;
      ListedAppend(x, a[1..], b);
    }
  }

  /** The walk went on from `v` to `w`, and met `abi` on what it fetched. */
  ghost predicate Met(x: Explorer, v: Visited, w: Visited, abi: Abi) {
    v.fetched <= w.fetched && abi == Listed(x, w.fetched[|v.fetched|..])
  }

  lemma MetThenMet(x: Explorer, u: Visited, v: Visited, w: Visited, a: Abi, b: Abi)
    requires Met(x, u, v, a) && Met(x, v, w, b)
    ensures Met(x, u, w, a + b)
  {
    assert w.fetched[|u.fetched|..] == v.fetched[|u.fetched|..] + w.fetched[|v.fetched|..];
    ListedAppend(x, v.fetched[|u.fetched|..], w.fetched[|v.fetched|..]);
  }

  lemma MetOne(x: Explorer, v: Visited, addr: string)
    ensures Met(x, v, Visit(v, addr), Own(x.page(addr)))
    ensures Met(x, v, v, [])
  {
    assert Visit(v, addr).fetched[|v.fetched|..] == [addr];
    assert Listed(x, [addr]) == Own(x.page(addr)) + Listed(x, []);
  }

  /** The walk lists the entries of the addresses it fetches, in fetch order. */
  lemma {:induction false} FlatListsFetched(x: Explorer, addr: string, depth: nat, v: Visited)
    ensures var (f, w) := Flat(x, addr, depth, v); f.Ok? ==> Met(x, v, w, f.value)
    decreases if depth < x.maxDepth then x.maxDepth - depth else 0, 1, 0
  {
    MetOne(x, v, addr);
    if !(Lower(addr) in v.seen || depth >= x.maxDepth) {
      var v1 := Visit(v, addr);
      var own := Own(x.page(addr));
      match x.page(addr)
      case V1Error(_) =>
      case V1(_) =>
        var impl := x.storedImpl(addr);
        if impl != "" {
          FlatListsFetched(x, impl, depth + 1, v1);
          var (f, w) := Flat(x, impl, depth + 1, v1);
          if f.Ok? {
            MetThenMet(x, v, v1, w, own, f.value);
          }
        }
      case V2(_, impls) =>
        FlatAllListsFetched(x, impls, depth, v1);
        var (f, w) := FlatAll(x, impls, depth, v1);
        if f.Ok? {
          MetThenMet(x, v, v1, w, own, f.value);
        }
    }
  }

  lemma {:induction false} FlatAllListsFetched(x: Explorer, impls: seq<string>, depth: nat, v: Visited)
    requires depth < x.maxDepth
    ensures var (f, w) := FlatAll(x, impls, depth, v); f.Ok? ==> Met(x, v, w, f.value)
    decreases x.maxDepth - depth, 0, |impls|
  {
    MetOne(x, v, "");
    if impls == [] {
    } else if impls[0] == "" {
      FlatAllListsFetched(x, impls[1..], depth, v);
    } else {
      FlatListsFetched(x, impls[0], depth + 1, v);
      var (f, v1) := Flat(x, impls[0], depth + 1, v);
      if f.Ok? {
        FlatAllListsFetched(x, impls[1..], depth, v1);
        var (rest, w) := FlatAll(x, impls[1..], depth, v1);
        if rest.Ok? {
          MetThenMet(x, v, v1, w, f.value, rest.value);
        }
      }
    }
  }

  /** The entries of the given addresses, those of the first one leading,
      without the functions that repeat an earlier one. */
  ghost predicate Merged(abi: Option<Abi>, x: Explorer, addrs: seq<string>) {
    var listed := Listed(x, addrs);
    && addrs != [] && Own(x.page(addrs[0])) <= listed
    && (AllPlain(listed) ==> abi == if listed == [] then None else Some(Firsts(listed, |listed|)))
  }

  /** The same on entries alone: a v2 page resolves to the entries of the
      addresses fetched, its own first, without the functions that repeat an
      earlier one. */
  lemma ResolvedEntries(x: Explorer, addr: string, depth: nat, v: Visited)
    requires x.page(addr).V2? && Lower(addr) !in v.seen && depth < x.maxDepth
    requires Resolve(x, addr, depth, v).0.Ok?
    ensures var (r, w) := Resolve(x, addr, depth, v);
            v.fetched + [addr] <= w.fetched && Merged(r.value, x, w.fetched[|v.fetched|..])
    ensures Flat(x, addr, depth, v).0 == Ok(Listed(x, Resolve(x, addr, depth, v).1.fetched[|v.fetched|..]))
  {
    ResolveAgrees(x, addr, depth, v);
    ResolveIsDedupOfFlat(x, addr, depth, v);
    FlatListsFetched(x, addr, depth, v);
    ResolveAllFetchesOnce(x, x.page(addr).impls, depth, Visit(v, addr));
    var flat := Flat(x, addr, depth, v).0.value;
    if AllPlain(flat) {
      KeptIsFirst(flat, |flat|);
    }
  }

  /** Short of the depth limit, every implementation of a page is fetched
      unless it was seen before. */
  lemma {:induction false} ImplsAreVisited(x: Explorer, impls: seq<string>, depth: nat, v: Visited)
    requires depth + 1 < x.maxDepth
    requires ResolveAll(x, impls, depth, v).0.Ok?
    ensures forall impl | impl in impls && impl != "" :: Lower(impl) in ResolveAll(x, impls, depth, v).1.seen
  {
    if impls != [] {
      assert impls == [impls[0]] + impls[1..];
      if impls[0] == "" {
        ImplsAreVisited(x, impls[1..], depth, v);
      } else {
        var v1 := Resolve(x, impls[0], depth + 1, v).1;
        ImplsAreVisited(x, impls[1..], depth, v1);
        AddrIsVisited(x, impls[0], depth + 1, v);
        ResolveAllFetchesOnce(x, impls[1..], depth, v1);
      }
    }
  }

  lemma AddrIsVisited(x: Explorer, addr: string, depth: nat, v: Visited)
    requires depth < x.maxDepth
    ensures Lower(addr) in Resolve(x, addr, depth, v).1.seen
  {
    var v1 := Visit(v, addr);
    if Lower(addr) !in v.seen {
      match x.page(addr)
      case V1Error(_) =>
      case V1(_) =>
        var impl := x.storedImpl(addr);
        ResolveFetchesOnce(x, impl, depth + 1, v1);
      case V2(_, impls) =>
        ResolveAllFetchesOnce(x, impls, depth, v1);
    }
  }

  /** No address was fetched twice, and what was fetched has been seen. */
  ghost predicate FetchedOnce(v: Visited) {
    && (forall i | 0 <= i < |v.fetched| :: Lower(v.fetched[i]) in v.seen)
    && (forall i, j | 0 <= i < j < |v.fetched| :: Lower(v.fetched[i]) != Lower(v.fetched[j]))
  }

  predicate WasFetched(v: Visited, a: string) {
    exists i | 0 <= i < |v.fetched| :: Lower(v.fetched[i]) == a
  }

  /** The walk only adds, and fetches nothing a second time. */
  ghost predicate Grows(v: Visited, w: Visited) {
    && v.seen <= w.seen && v.fetched <= w.fetched
    && (forall a | a in w.seen - v.seen :: WasFetched(w, a))
    && (FetchedOnce(v) ==> FetchedOnce(w))
  }

  lemma GrowsStep(v: Visited, addr: string, w: Visited)
    requires Lower(addr) !in v.seen
    requires Grows(Visit(v, addr), w)
    ensures Grows(v, w)
  {
    var u := Visit(v, addr);
    assert u.fetched[|v.fetched|] == addr;
    assert w.fetched[|v.fetched|] == addr;
    if FetchedOnce(v) {
      forall i, j | 0 <= i < j < |u.fetched| ensures Lower(u.fetched[i]) != Lower(u.fetched[j]) {
        assert Lower(u.fetched[i]) in v.seen;
      }
    }
  }

  /** Every address is fetched at most once, whatever the graph. */
  lemma {:induction false} ResolveFetchesOnce(x: Explorer, addr: string, depth: nat, v: Visited)
    ensures Grows(v, Resolve(x, addr, depth, v).1)
    decreases if depth < x.maxDepth then x.maxDepth - depth else 0, 1, 0
  {
    if !(Lower(addr) in v.seen || depth >= x.maxDepth) {
      var v1 := Visit(v, addr);
      match x.page(addr)
      case V1Error(_) =>
        GrowsStep(v, addr, v1);
      case V1(own) =>
        var impl := x.storedImpl(addr);
        if impl != "" && Lower(impl) !in v1.seen {
          ResolveFetchesOnce(x, impl, depth + 1, v1);
        }
        assert Resolve(x, addr, depth, v).1 == MergeStored(x, addr, own, depth, v1).1;
        assert Grows(v1, MergeStored(x, addr, own, depth, v1).1);
        GrowsStep(v, addr, Resolve(x, addr, depth, v).1);
      case V2(own, impls) =>
        ResolveAllFetchesOnce(x, impls, depth, v1);
        assert Resolve(x, addr, depth, v).1 == ResolveAll(x, impls, depth, v1).1;
        GrowsStep(v, addr, Resolve(x, addr, depth, v).1);
    }
  }

  lemma {:induction false} ResolveAllFetchesOnce(x: Explorer, impls: seq<string>, depth: nat, v: Visited)
    requires depth < x.maxDepth
    ensures Grows(v, ResolveAll(x, impls, depth, v).1)
    decreases x.maxDepth - depth, 0, |impls|
  {
    if impls == [] {
    } else if impls[0] == "" {
      ResolveAllFetchesOnce(x, impls[1..], depth, v);
    } else {
      ResolveFetchesOnce(x, impls[0], depth + 1, v);
      var (r, v1) := Resolve(x, impls[0], depth + 1, v);
      if r.Ok? {
        ResolveAllFetchesOnce(x, impls[1..], depth, v1);
        GrowsTransitive(v, v1, ResolveAll(x, impls, depth, v).1);
      }
    }
  }

  lemma GrowsTransitive(u: Visited, v: Visited, w: Visited)
    requires Grows(u, v) && Grows(v, w)
    ensures Grows(u, w)
  {
    forall a | a in w.seen - u.seen ensures WasFetched(w, a) {
      if a in v.seen {
        assert a in v.seen - u.seen;
        var i :| 0 <= i < |v.fetched| && Lower(v.fetched[i]) == a;
        assert Lower(w.fetched[i]) == a;
      }
    }
  }

  /** A whole resolution: from a fresh start, no address is fetched twice. */
  lemma FetchesAtMostOnce(x: Explorer, addr: string)
    ensures FetchedOnce(Resolve(x, addr, 0, Visited({}, [])).1)
    ensures FetchedOnce(Flat(x, addr, 0, Visited({}, [])).1)
  {
    ResolveFetchesOnce(x, addr, 0, Visited({}, []));
    ResolveAgrees(x, addr, 0, Visited({}, []));
  }

  /** The source as it runs: one `seen` set shared by the whole recursion. */
  class Resolver {
    const x: Explorer
    var seen: set<string>
    var fetched: seq<string>

    constructor (x: Explorer)
      ensures this.x == x && State() == Visited({}, [])
    {
      this.x := x;
      seen, fetched := {}, [];
    }

    function State(): Visited
      reads this
    {
      Visited(seen, fetched)
    }

    method FetchRecursive(addr: string, depth: nat) returns (r: Result<Option<Abi>>)
      modifies this
      ensures (r, State()) == Resolve(x, addr, depth, old(State()))
      decreases if depth < x.maxDepth then x.maxDepth - depth else 0
    {
      if Lower(addr) in seen || depth >= x.maxDepth {
        return Ok(None);
      }
      seen := seen + {Lower(addr)};
      fetched := fetched + [addr];
      match x.page(addr)
      case V1Error(e) =>
        return Raised(e);
      case V1(own) =>
        var impl := x.storedImpl(addr);
        if impl == "" || Lower(impl) in seen {
          return Ok(own);
        }
        var implAbi := FetchRecursive(impl, depth + 1);
        if implAbi.Raised? {
          return implAbi;
        }
        var merged := ListOf(own) + ListOf(implAbi.value);
        if merged == [] {
          return Ok(own);
        }
        var out := DedupBySelector(merged);
        return Ok(Some(out));
      case V2(own, impls) =>
        var merged := own;
        ghost var v1 := State();
        ghost var got: Abi := [];
        var i := 0;
        RemainingStart(x, impls, depth, v1);
        while i < |impls|
          invariant 0 <= i <= |impls|
          invariant merged == own + got
          invariant Remaining(x, impls, i, depth, State(), got) == ResolveAll(x, impls, depth, v1)
        {
          var impl := impls[i];
          RemainingStep(x, impls, i, depth, State(), got);
          if impl != "" {
            var implAbi := FetchRecursive(impl, depth + 1);
            if implAbi.Raised? {
              return Raised(implAbi.error);
            }
            merged := merged + ListOf(implAbi.value);
            got := got + ListOf(implAbi.value);
          }
          i := i + 1;
        }
        assert impls[i..] == [] && got + [] == got;
        if merged == [] {
          return Ok(None);
        }
        var out := DedupBySelector(merged);
        return Ok(Some(out));
    }

    /** `fetch`: a whole resolution, from nothing seen. */
    method Fetch(addr: string) returns (r: Result<Option<Abi>>)
      modifies this
      ensures (r, State()) == Resolve(x, addr, 0, Visited({}, [])) && FetchedOnce(State())
      ensures r.Ok? && x.page(addr).V2? && x.maxDepth > 0 ==> Merged(r.value, x, fetched) && fetched[0] == addr
    {
      seen, fetched := {}, [];
      FetchesAtMostOnce(x, addr);
      r := FetchRecursive(addr, 0);
      if r.Ok? && x.page(addr).V2? && x.maxDepth > 0 {
        ResolvedEntries(x, addr, 0, Visited({}, []));
        assert fetched[0..] == fetched;
      }
    }
  }

  /** What is left of the implementation loop, with `got` merged already. */
  function Remaining(x: Explorer, impls: seq<string>, i: nat, depth: nat, v: Visited, got: Abi): (Result<Abi>, Visited)
    requires i <= |impls| && depth < x.maxDepth
  {
    var (r, w) := ResolveAll(x, impls[i..], depth, v);
    (if r.Raised? then r else Ok(got + r.value), w)
  }

  lemma RemainingStart(x: Explorer, impls: seq<string>, depth: nat, v: Visited)
    requires depth < x.maxDepth
    ensures Remaining(x, impls, 0, depth, v, []) == ResolveAll(x, impls, depth, v)
  {
    assert impls[0..] == impls;
    var r := ResolveAll(x, impls, depth, v).0;
    assert r.Ok? ==> [] + r.value == r.value;
  }

  lemma RemainingStep(x: Explorer, impls: seq<string>, i: nat, depth: nat, v: Visited, got: Abi)
    requires i < |impls| && depth < x.maxDepth
    ensures impls[i] == "" ==> Remaining(x, impls, i, depth, v, got) == Remaining(x, impls, i + 1, depth, v, got)
    ensures impls[i] != "" ==>
      var (r, w) := Resolve(x, impls[i], depth + 1, v);
      Remaining(x, impls, i, depth, v, got)
      == if r.Raised? then (Raised(r.error), w) else Remaining(x, impls, i + 1, depth, w, got + ListOf(r.value))
  {
    assert impls[i..][1..] == impls[i + 1..];
    if impls[i] != "" {
      var (r, w) := Resolve(x, impls[i], depth + 1, v);
      if r.Ok? {
        var rest := ResolveAll(x, impls[i + 1..], depth, w).0;
        assert rest.Ok? ==> got + ListOf(r.value) + rest.value == got + (ListOf(r.value) + rest.value);
      }
    }
  }
}

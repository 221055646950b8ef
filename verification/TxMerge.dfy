/** Merging a fresh page of transactions into the cached history
    (qeth/transactions_cache.py, `merge_txs`). */
module TxMerge {
  datatype Tx = Tx(hash: string, nonce: int, timestamp: int, body: string)

  type Txs = seq<Tx>

  /** Newest-first sort key: the nonce where the chain has one. */
  function OrderKey(t: Tx): int {
    if t.nonce >= 0 then t.nonce else t.timestamp
  }

  function Hashes(xs: Txs): set<string> {
    set t | t in xs :: t.hash
  }

  /** The rows whose hash the fetch did not return. */
  function Unseen(hashes: set<string>, old_: Txs): Txs {
    if old_ == [] then []
    else (if old_[0].hash !in hashes then [old_[0]] else []) + Unseen(hashes, old_[1..])
  }

  function Insert(t: Tx, sorted: Txs): Txs {
    if sorted == [] || OrderKey(t) >= OrderKey(sorted[0]) then [t] + sorted
    else [sorted[0]] + Insert(t, sorted[1..])
  }

  /** Python's `sort(key=…, reverse=True)`: descending, ties in list order. */
  function SortDescending(xs: Txs): Txs {
    if xs == [] then [] else Insert(xs[0], SortDescending(xs[1..]))
  }

  function Merge(new_: Txs, old_: Txs): Txs {
    SortDescending(new_ + Unseen(Hashes(new_), old_))
  }

  method MergeTxs(new_: Txs, old_: Txs) returns (merged: Txs)
    ensures merged == Merge(new_, old_)
  {
    var newHashes := Hashes(new_);
    merged := new_;
    assert old_[0..] == old_;
    for i := 0 to |old_|
      invariant new_ + Unseen(newHashes, old_) == merged + Unseen(newHashes, old_[i..])
    {
      assert old_[i..][1..] == old_[i + 1..];
      if old_[i].hash !in newHashes {
        merged := merged + [old_[i]];
      }
    }
    assert old_[|old_|..] == [] && merged + [] == merged;
    merged := SortDescending(merged);
  }

  /** By nonce, and by timestamp where there is none, from the greatest down. */
  ghost predicate Descending(xs: Txs) {
    forall i, j | 0 <= i < j < |xs| ::
      (if xs[i].nonce >= 0 then xs[i].nonce else xs[i].timestamp)
      >= (if xs[j].nonce >= 0 then xs[j].nonce else xs[j].timestamp)
  }

  /** The rows of one key, in list order. */
  function Ties(xs: Txs, k: int): Txs {
    if xs == [] then [] else (if OrderKey(xs[0]) == k then [xs[0]] else []) + Ties(xs[1..], k)
  }

  /** Descending, and each group of ties as it was. */
  ghost predicate StablySorted(out: Txs, xs: Txs) {
    Descending(out) && forall k :: Ties(out, k) == Ties(xs, k)
  }

  lemma {:induction false} TiesAppend(a: Txs, b: Txs, k: int)
    ensures Ties(a + b, k) == Ties(a, k) + Ties(b, k)
  {
    if a == [] {
      assert a + b == b;
    } else {
      assert (a + b)[1..] == a[1..] + b && (a + b)[0] == a[0];
      TiesAppend(a[1..], b, k);
      var head := if OrderKey(a[0]) == k then [a[0]] else [];
      assert head + (Ties(a[1..], k) + Ties(b, k)) == (head + Ties(a[1..], k)) + Ties(b, k);
    }
  }

  lemma {:induction false} InsertPermutes(t: Tx, sorted: Txs)
    ensures multiset(Insert(t, sorted)) == multiset(sorted) + multiset{t}
    ensures Insert(t, sorted)[0] == t || (sorted != [] && Insert(t, sorted)[0] == sorted[0])
  {
    if sorted != [] && OrderKey(t) < OrderKey(sorted[0]) {
      InsertPermutes(t, sorted[1..]);
      assert sorted == [sorted[0]] + sorted[1..];
    }
  }

  lemma {:induction false} InsertSorts(t: Tx, sorted: Txs)
    requires Descending(sorted)
    ensures StablySorted(Insert(t, sorted), [t] + sorted)
  {
    if sorted == [] || OrderKey(t) >= OrderKey(sorted[0]) {
      DescendingCons(t, sorted);
    } else {
      var rest := sorted[1..];
      InsertSorts(t, rest);
      InsertPermutes(t, rest);
      assert sorted == [sorted[0]] + rest;
      TiesSwap(t, sorted[0], rest, Insert(t, rest));
      DescendingCons(sorted[0], Insert(t, rest));
    }
  }

  /** Rows of different keys may trade places without disturbing the ties. */
  lemma TiesSwap(t: Tx, first: Tx, rest: Txs, inner: Txs)
    requires OrderKey(t) != OrderKey(first)
    requires forall k :: Ties(inner, k) == Ties([t] + rest, k)
    ensures forall k :: Ties([first] + inner, k) == Ties([t] + ([first] + rest), k)
  {
    forall k ensures Ties([first] + inner, k) == Ties([t] + ([first] + rest), k) {
      TiesAppend([first], inner, k);
      TiesAppend([t], rest, k);
      TiesAppend([t], [first] + rest, k);
      TiesAppend([first], rest, k);
    }
  }

  lemma DescendingCons(t: Tx, xs: Txs)
    requires Descending(xs) && (xs != [] ==> OrderKey(t) >= OrderKey(xs[0]))
    ensures Descending([t] + xs)
  {
  }

  lemma {:induction false} SortIsStable(xs: Txs)
    ensures StablySorted(SortDescending(xs), xs)
    ensures multiset(SortDescending(xs)) == multiset(xs)
  {
    if xs != [] {
      var rest := SortDescending(xs[1..]);
      SortIsStable(xs[1..]);
      InsertSorts(xs[0], rest);
      InsertPermutes(xs[0], rest);
      assert xs == [xs[0]] + xs[1..];
      forall k ensures Ties(SortDescending(xs), k) == Ties(xs, k) {
        TiesAppend([xs[0]], rest, k);
        TiesAppend([xs[0]], xs[1..], k);
      }
    }
  }

  lemma {:induction false} TiesFirst(xs: Txs, k: int)
    ensures (exists i :: 0 <= i < |xs| && OrderKey(xs[i]) == k) <==> Ties(xs, k) != []
  {
    if xs != [] {
      TiesFirst(xs[1..], k);
      assert xs == [xs[0]] + xs[1..];
      if i :| 0 <= i < |xs| && OrderKey(xs[i]) == k {
        assert i > 0 ==> xs[1..][i - 1] == xs[i];
      }
      if j :| 0 <= j < |xs[1..]| && OrderKey(xs[1..][j]) == k {
        assert xs[j + 1] == xs[1..][j];
      }
    }
  }

  /** There is only one descending list with given groups of ties. */
  lemma {:induction false} StableSortUnique(a: Txs, b: Txs)
    requires Descending(a) && Descending(b) && forall k :: Ties(a, k) == Ties(b, k)
    ensures a == b
  {
    var k := if a != [] then OrderKey(a[0]) else if b != [] then OrderKey(b[0]) else 0;
    assert Ties(a, k) == Ties(b, k);
    if a != [] {
      SameHead(a, b);
      forall k ensures Ties(a[1..], k) == Ties(b[1..], k) {
        assert Ties(a, k) == Ties(b, k);
        TiesOfTail(a, k);
        TiesOfTail(b, k);
      }
      StableSortUnique(a[1..], b[1..]);
    }
  }

  lemma TiesOfTail(xs: Txs, k: int)
    requires xs != []
    ensures Ties(xs[1..], k) == if OrderKey(xs[0]) == k then Ties(xs, k)[1..] else Ties(xs, k)
  {
  }

  /** The first of a descending list has the greatest key, so it leads its ties. */
  lemma HeadLeads(xs: Txs, k: int)
    requires xs != [] && Descending(xs) && Ties(xs, k) != []
    ensures k <= OrderKey(xs[0])
    ensures Ties(xs, OrderKey(xs[0])) != [] && Ties(xs, OrderKey(xs[0]))[0] == xs[0]
  {
    TiesFirst(xs, k);
  }

  lemma SameHead(a: Txs, b: Txs)
    requires a != [] && b != []
    requires Descending(a) && Descending(b) && forall k :: Ties(a, k) == Ties(b, k)
    ensures a[0] == b[0]
  {
    assert Ties(a, OrderKey(a[0])) != [] && Ties(b, OrderKey(b[0])) != [];
    HeadLeads(b, OrderKey(a[0]));
    HeadLeads(a, OrderKey(b[0]));
  }

  lemma {:induction false} UnseenAppend(hashes: set<string>, a: Txs, b: Txs)
    ensures Unseen(hashes, a + b) == Unseen(hashes, a) + Unseen(hashes, b)
  {
    if a == [] {
      assert a + b == b;
    } else {
      assert (a + b)[1..] == a[1..] + b;
      UnseenAppend(hashes, a[1..], b);
    }
  }

  lemma {:induction false} TiesOfUnseen(hashes: set<string>, xs: Txs, k: int)
    ensures Ties(Unseen(hashes, xs), k) == Unseen(hashes, Ties(xs, k))
  {
    if xs != [] {
      TiesOfUnseen(hashes, xs[1..], k);
      TiesAppend(if xs[0].hash !in hashes then [xs[0]] else [], Unseen(hashes, xs[1..]), k);
      UnseenAppend(hashes, if OrderKey(xs[0]) == k then [xs[0]] else [], Ties(xs[1..], k));
    }
  }

  lemma {:induction false} UnseenAll(hashes: set<string>, xs: Txs)
    ensures (forall t | t in xs :: t.hash in hashes) ==> Unseen(hashes, xs) == []
    ensures (forall t | t in xs :: t.hash !in hashes) ==> Unseen(hashes, xs) == xs
    ensures forall t :: t in Unseen(hashes, xs) <==> t in xs && t.hash !in hashes
  {
    if xs != [] {
      UnseenAll(hashes, xs[1..]);
      assert xs == [xs[0]] + xs[1..];
    }
  }

  lemma {:induction false} TiesWithin(xs: Txs, k: int)
    ensures forall t | t in Ties(xs, k) :: t in xs
  {
    if xs != [] {
      TiesWithin(xs[1..], k);
    }
  }

  /** The merged history: descending, stable on ties (the fetch's rows before
      the cached ones, each in their order), nothing lost, nothing invented. */
  lemma MergeMeaning(new_: Txs, old_: Txs)
    ensures Descending(Merge(new_, old_))
    ensures multiset(Merge(new_, old_)) == multiset(new_) + multiset(Unseen(Hashes(new_), old_))
    ensures forall k :: Ties(Merge(new_, old_), k) == Ties(new_, k) + Ties(Unseen(Hashes(new_), old_), k)
    ensures forall t :: t in Merge(new_, old_) <==> t in new_ || (t in old_ && t.hash !in Hashes(new_))
  {
    var u := Unseen(Hashes(new_), old_);
    SortIsStable(new_ + u);
    forall k ensures Ties(Merge(new_, old_), k) == Ties(new_, k) + Ties(u, k) {
      TiesAppend(new_, u, k);
    }
    UnseenAll(Hashes(new_), old_);
    forall t ensures t in Merge(new_, old_) <==> t in new_ || t in u {
      assert t in Merge(new_, old_) <==> t in multiset(new_ + u);
    }
  }

  /** Merging the same fetch again changes nothing, as a list. */
  lemma MergeIdempotent(new_: Txs, old_: Txs)
    ensures Merge(new_, Merge(new_, old_)) == Merge(new_, old_)
  {
    var h := Hashes(new_);
    var u, m := Unseen(h, old_), Merge(new_, old_);
    var u2 := Unseen(h, m);
    MergeMeaning(new_, old_);
    MergeMeaning(new_, m);
    UnseenAll(h, old_);
    forall k ensures Ties(u2, k) == Ties(u, k) {
      TiesOfUnseen(h, m, k);
      UnseenAppend(h, Ties(new_, k), Ties(u, k));
      TiesWithin(new_, k);
      UnseenAll(h, Ties(new_, k));
      TiesWithin(u, k);
      UnseenAll(h, Ties(u, k));
    }
    StableSortUnique(Merge(new_, m), m);
  }
}

/** The account table and its per-family defaults (qeth/store.py). */
module StoreAccounts {
  import opened Options
  import opened Text

  datatype Family = Evm | Tron

  const FAMILIES := [Evm, Tron]

  /** An account record; a hot wallet's key works on every family. */
  datatype Account = Account(address: string, path: string, hot: bool, family: Family)

  /** A family's connected account, and which of its records when known. */
  datatype Default = Default(address: string, path: Option<string>)

  datatype Table = Table(accounts: seq<Account>, defaults: map<Family, Default>)

  /** `family in account_families(a)`. */
  predicate WorksOn(a: Account, f: Family) {
    a.hot || a.family == f
  }

  predicate HasAddress(a: Account, address: string) {
    Lower(a.address) == Lower(address)
  }

  predicate Is(a: Account, address: string, path: string) {
    HasAddress(a, address) && a.path == path
  }

  function DefaultFor(t: Table, f: Family): Option<Default> {
    if f in t.defaults then Some(t.defaults[f]) else None
  }

  /** `_set_default_locked`. */
  function SetDefaultLocked(t: Table, f: Family, d: Option<Default>): Table {
    match d
    case None => t.(defaults := t.defaults - {f})
    case Some(x) => t.(defaults := t.defaults[f := x])
  }

  predicate Holds(accounts: seq<Account>, address: string, path: string) {
    exists a :: a in accounts && Is(a, address, path)
  }

  predicate HoldsOn(accounts: seq<Account>, address: string, f: Family) {
    exists a :: a in accounts && HasAddress(a, address) && WorksOn(a, f)
  }

  function FirstOn(accounts: seq<Account>, f: Family): Option<Account> {
    if accounts == [] then None
    else if WorksOn(accounts[0], f) then Some(accounts[0])
    else FirstOn(accounts[1..], f)
  }

  // The operations.

  function FillDefaults(t: Table, a: Account, fs: seq<Family>): Table
    decreases |fs|
  {
    if fs == [] then t
    else
      var u := if WorksOn(a, fs[0]) && DefaultFor(t, fs[0]).None?
               then SetDefaultLocked(t, fs[0], Some(Default(a.address, None))) else t;
      FillDefaults(u, a, fs[1..])
  }

  function Add(t: Table, a: Account): (Table, bool) {
    if Holds(t.accounts, a.address, a.path) then (t, false)
    else (FillDefaults(t.(accounts := t.accounts + [a]), a, FAMILIES), true)
  }

  function Without(accounts: seq<Account>, address: string, path: Option<string>): seq<Account> {
    if accounts == [] then []
    else
      var gone := match path case None => HasAddress(accounts[0], address) case Some(p) => Is(accounts[0], address, p);
      (if gone then [] else [accounts[0]]) + Without(accounts[1..], address, path)
  }

  /** A removed default is repointed, or loses its stale path. */
  function RepairDefault(t: Table, address: string, path: Option<string>, f: Family): Table {
    match DefaultFor(t, f)
    case None => t
    case Some(d) =>
      if d.address == "" || Lower(d.address) != Lower(address) then t
      else if HoldsOn(t.accounts, address, f) then
        if d.path == path then SetDefaultLocked(t, f, Some(Default(d.address, None))) else t
      else
        var first := FirstOn(t.accounts, f);
        SetDefaultLocked(t, f, if first.Some? then Some(Default(first.value.address, None)) else None)
  }

  function Remove(t: Table, address: string, path: Option<string>): (Table, bool) {
    var left := Without(t.accounts, address, path);
    if |left| == |t.accounts| then (t, false)
    else
      var u := RepairDefault(t.(accounts := left), address, path, FAMILIES[0]);
      (RepairDefault(u, address, path, FAMILIES[1]), true)
  }

  function FirstIs(accounts: seq<Account>, address: string, path: string): (i: nat)
    ensures i <= |accounts|
    ensures i < |accounts| ==> Is(accounts[i], address, path)
    ensures i == |accounts| ==> !Holds(accounts, address, path)
    ensures forall j | 0 <= j < i :: !Is(accounts[j], address, path)
  {
    if accounts == [] then 0
    else if Is(accounts[0], address, path) then 0
    else
      assert accounts == [accounts[0]] + accounts[1..];
      1 + FirstIs(accounts[1..], address, path)
  }

  function Drop(accounts: seq<Account>, i: nat): seq<Account>
    requires i < |accounts|
  {
    accounts[..i] + accounts[i + 1..]
  }

  /** The referenced records in the order given, then the rest as they were. */
  function Reordered(remaining: seq<Account>, keys: seq<(string, string)>): seq<Account> {
    if keys == [] then remaining
    else
      var i := FirstIs(remaining, keys[0].0, keys[0].1);
      if i == |remaining| then Reordered(remaining, keys[1..])
      else [remaining[i]] + Reordered(Drop(remaining, i), keys[1..])
  }

  function SetDefault(t: Table, address: string, path: Option<string>, f: Family): Table {
    SetDefaultLocked(t, f, Some(Default(address, path)))
  }

  function FirstMatch(accounts: seq<Account>, address: string, path: Option<string>,
                      f: Option<Family>): Option<Account> {
    if accounts == [] then None
    else if (f.None? || WorksOn(accounts[0], f.value)) && HasAddress(accounts[0], address)
            && (path.None? || accounts[0].path == path.value) then Some(accounts[0])
    else FirstMatch(accounts[1..], address, path, f)
  }

  /** `account_for_signing`. */
  function ForSigning(t: Table, address: string, path: Option<string>, f: Option<Family>): Option<Account> {
    var exact := if path.Some? then FirstMatch(t.accounts, address, path, f) else None;
    if exact.Some? then exact
    else
      var d := DefaultFor(t, if f.Some? then f.value else Evm);
      var remembered :=
        if d.Some? && d.value.address != "" && Lower(d.value.address) == Lower(address) && d.value.path.Some?
        then FirstMatch(t.accounts, address, d.value.path, f) else None;
      if remembered.Some? then remembered else FirstMatch(t.accounts, address, None, f)
  }

  // The invariant.

  ghost predicate Unique(accounts: seq<Account>) {
    forall i, j | 0 <= i < j < |accounts| :: !Is(accounts[i], accounts[j].address, accounts[j].path)
  }

  ghost predicate Addressed(accounts: seq<Account>) {
    forall a | a in accounts :: a.address != ""
  }

  /** A family has a default exactly when some record works on it; the default
      is such a record, and a remembered path names a live one. */
  ghost predicate DefaultOk(t: Table, f: Family) {
    match DefaultFor(t, f)
    case None => forall a | a in t.accounts :: !(a.hot || a.family == f)
    case Some(d) =>
      && d.address != ""
      && (exists a :: a in t.accounts && HasAddress(a, d.address) && (a.hot || a.family == f))
      && (d.path.Some? ==> exists a :: a in t.accounts && Is(a, d.address, d.path.value) && (a.hot || a.family == f))
  }

  ghost predicate Inv(t: Table) {
    Unique(t.accounts) && Addressed(t.accounts) && forall f :: DefaultOk(t, f)
  }

  datatype Op = OpAdd(account: Account)
              | OpRemove(address: string, path: Option<string>)
              | OpReorder(keys: seq<(string, string)>)
              | OpDefault(address: string, path: Option<string>, family: Family)

  /** What callers do: records carry an address, and a default is set on an
      existing record that works on the family. */
  ghost predicate Allowed(t: Table, op: Op) {
    match op
    case OpAdd(a) => a.address != ""
    case OpDefault(address, path, f) =>
      exists a :: a in t.accounts && HasAddress(a, address) && (a.hot || a.family == f)
             && (path.None? || a.path == path.value)
    case _ => true
  }

  function Apply(t: Table, op: Op): Table {
    match op
    case OpAdd(a) => Add(t, a).0
    case OpRemove(address, path) => Remove(t, address, path).0
    case OpReorder(keys) => t.(accounts := Reordered(t.accounts, keys))
    case OpDefault(address, path, f) => SetDefault(t, address, path, f)
  }

  lemma LowerEmpty(s: string)
    ensures Lower(s) == "" <==> s == ""
  {
    assert |Lower(s)| == |s|;
  }

  lemma {:induction false} FillMeaning(t: Table, a: Account, fs: seq<Family>)
    ensures FillDefaults(t, a, fs).accounts == t.accounts
    ensures forall f :: DefaultFor(FillDefaults(t, a, fs), f)
              == if f in fs && WorksOn(a, f) && DefaultFor(t, f).None? then Some(Default(a.address, None))
                else DefaultFor(t, f)
    decreases |fs|
  {
    if fs != [] {
      var u := if WorksOn(a, fs[0]) && DefaultFor(t, fs[0]).None?
               then SetDefaultLocked(t, fs[0], Some(Default(a.address, None))) else t;
      FillMeaning(u, a, fs[1..]);
      assert fs == [fs[0]] + fs[1..];
    }
  }

  /** A record is added unless its address and path are taken; it becomes the
      default of just those of its families that had none. */
  lemma AddKeeps(t: Table, a: Account)
    requires Inv(t) && a.address != ""
    ensures Inv(Add(t, a).0)
    ensures Add(t, a).1 <==> !Holds(t.accounts, a.address, a.path)
    ensures Add(t, a).0.accounts == if Add(t, a).1 then t.accounts + [a] else t.accounts
    ensures forall f :: DefaultFor(Add(t, a).0, f) ==
              if Add(t, a).1 && f !in t.defaults && (a.hot || a.family == f) then Some(Default(a.address, None))
              else DefaultFor(t, f)
  {
    if !Holds(t.accounts, a.address, a.path) {
      var u := Add(t, a).0;
      FillMeaning(t.(accounts := t.accounts + [a]), a, FAMILIES);
      forall f ensures f in FAMILIES {
        InFamilies(f);
      }
      forall i | 0 <= i < |t.accounts| ensures !Is(t.accounts[i], a.address, a.path) {
        assert t.accounts[i] in t.accounts;
      }
      forall f ensures DefaultOk(u, f) {
        InFamilies(f);
        AddKeepsDefault(t, a, u, f);
      }
    }
  }

  lemma InFamilies(f: Family)
    ensures f in FAMILIES
  {
    assert f == FAMILIES[if f.Evm? then 0 else 1];
  }

  lemma AddKeepsDefault(t: Table, a: Account, u: Table, f: Family)
    requires DefaultOk(t, f) && a.address != "" && u.accounts == t.accounts + [a]
    requires DefaultFor(u, f) == if WorksOn(a, f) && DefaultFor(t, f).None? then Some(Default(a.address, None))
             else DefaultFor(t, f)
    ensures DefaultOk(u, f)
  {
    assert u.accounts[|t.accounts|] == a;
    assert forall x | x in t.accounts :: x in u.accounts;
  }

  lemma {:induction false} WithoutMeaning(accounts: seq<Account>, address: string, path: Option<string>)
    ensures forall a :: a in Without(accounts, address, path)
              <==> a in accounts && !(HasAddress(a, address) && (path.None? || a.path == path.value))
    ensures |Without(accounts, address, path)| <= |accounts|
    ensures |Without(accounts, address, path)| == |accounts| ==> Without(accounts, address, path) == accounts
  {
    if accounts != [] {
      WithoutMeaning(accounts[1..], address, path);
      assert accounts == [accounts[0]] + accounts[1..];
    }
  }

  lemma {:induction false} WithoutUnique(accounts: seq<Account>, address: string, path: Option<string>)
    requires Unique(accounts)
    ensures Unique(Without(accounts, address, path))
  {
    if accounts != [] {
      var rest := Without(accounts[1..], address, path);
      WithoutUnique(accounts[1..], address, path);
      WithoutMeaning(accounts[1..], address, path);
      forall a | a in rest ensures !Is(accounts[0], a.address, a.path) {
        var k :| 0 <= k < |accounts[1..]| && accounts[1..][k] == a;
        assert accounts[k + 1] == a;
      }
      UniqueCons(accounts[0], rest);
    }
  }

  lemma UniqueCons(a: Account, rest: seq<Account>)
    requires Unique(rest) && forall x | x in rest :: !Is(a, x.address, x.path)
    ensures Unique([a] + rest)
  {
  }

  /** The record stands in the list, works on the family, and none before it does. */
  ghost predicate FirstWorking(accounts: seq<Account>, f: Family, a: Account) {
    exists i :: 0 <= i < |accounts| && accounts[i] == a && (a.hot || a.family == f)
           && forall j | 0 <= j < i :: !(accounts[j].hot || accounts[j].family == f)
  }

  lemma {:induction false} FirstOnMeaning(accounts: seq<Account>, f: Family)
    ensures FirstOn(accounts, f).Some? ==>
              FirstOn(accounts, f).value in accounts && FirstWorking(accounts, f, FirstOn(accounts, f).value)
    ensures FirstOn(accounts, f).None? ==> forall a | a in accounts :: !(a.hot || a.family == f)
  {
    if accounts != [] {
      assert accounts == [accounts[0]] + accounts[1..];
      if !WorksOn(accounts[0], f) {
        FirstOnMeaning(accounts[1..], f);
        if FirstOn(accounts, f).Some? {
          WorkingLater(accounts, f, FirstOn(accounts, f).value);
        }
      }
    }
  }

  lemma WorkingLater(accounts: seq<Account>, f: Family, a: Account)
    requires accounts != [] && !WorksOn(accounts[0], f) && FirstWorking(accounts[1..], f, a)
    ensures FirstWorking(accounts, f, a)
  {
    var rest := accounts[1..];
    var i :| 0 <= i < |rest| && rest[i] == a && (a.hot || a.family == f)
      && forall j | 0 <= j < i :: !(rest[j].hot || rest[j].family == f);
    assert accounts[i + 1] == a;
    assert forall j | 0 < j < i + 1 :: accounts[j] == rest[j - 1];
  }

  lemma FirstOnWorks(accounts: seq<Account>, f: Family)
    ensures var r := FirstOn(accounts, f);
            if r.Some? then r.value in accounts && WorksOn(r.value, f) else forall a | a in accounts :: !WorksOn(a, f)
  {
    FirstOnMeaning(accounts, f);
  }

  /** Repairing one family leaves the others, */
  lemma RepairLeavesRest(t: Table, address: string, path: Option<string>, f: Family)
    ensures RepairDefault(t, address, path, f).accounts == t.accounts
    ensures forall g | g != f :: DefaultFor(RepairDefault(t, address, path, f), g) == DefaultFor(t, g)
  {
  }

  /** and fixes this one. */
  lemma RepairFixes(t: Table, before: Table, address: string, path: Option<string>, f: Family)
    requires t.accounts == Without(before.accounts, address, path)
    requires DefaultFor(t, f) == DefaultFor(before, f)
    requires DefaultOk(before, f) && Addressed(before.accounts)
    ensures DefaultOk(RepairDefault(t, address, path, f), f)
  {
    WithoutMeaning(before.accounts, address, path);
    FirstOnWorks(t.accounts, f);
    match DefaultFor(t, f)
    case None =>
    case Some(d) =>
      if d.path.Some? && !(Lower(d.address) == Lower(address) && (path.None? || path == d.path)) {
        var b :| b in before.accounts && Is(b, d.address, d.path.value) && WorksOn(b, f);
        assert b in t.accounts && HasAddress(b, d.address);
      }
      if Lower(d.address) != Lower(address) {
        var a :| a in before.accounts && HasAddress(a, d.address) && WorksOn(a, f);
        assert a in t.accounts;
      } else if HoldsOn(t.accounts, address, f) {
        var a :| a in t.accounts && HasAddress(a, address) && WorksOn(a, f);
        assert HasAddress(a, d.address);
        assert path.Some?;
      }
  }

  lemma RemoveKeeps(t: Table, address: string, path: Option<string>)
    requires Inv(t)
    ensures Inv(Remove(t, address, path).0)
    ensures Remove(t, address, path).0.accounts == Without(t.accounts, address, path)
    ensures Remove(t, address, path).1 <==> exists a ::
            a in t.accounts && HasAddress(a, address) && (path.None? || a.path == path.value)
  {
    WithoutMeaning(t.accounts, address, path);
    WithoutUnique(t.accounts, address, path);
    var left := Without(t.accounts, address, path);
    if |left| < |t.accounts| {
      var t0 := t.(accounts := left);
      assert DefaultOk(t, Evm) && DefaultOk(t, Tron);
      RepairLeavesRest(t0, address, path, Evm);
      RepairFixes(t0, t, address, path, Evm);
      var t1 := RepairDefault(t0, address, path, Evm);
      RepairLeavesRest(t1, address, path, Tron);
      RepairFixes(t1, t, address, path, Tron);
      var u := RepairDefault(t1, address, path, Tron);
      forall f ensures DefaultOk(u, f) {
        if f == Evm {
          SameDefaultOk(t1, u, f);
        }
      }
      SomeoneLeft(t.accounts, address, path);
    }
  }

  /** The default `now` of a family that had `before`, the records `left` after a
      removal: kept when another address; kept without the path removed when
      the address still works there; else the first record that works there. */
  ghost predicate Repaired(before: Option<Default>, now: Option<Default>, left: seq<Account>, address: string,
                           path: Option<string>, f: Family)
  {
    if before.None? || before.value.address == "" || Lower(before.value.address) != Lower(address) then now == before
    else if exists a :: a in left && Lower(a.address) == Lower(address) && (a.hot || a.family == f) then
      now == if before.value.path == path then Some(Default(before.value.address, None)) else before
    else if exists a :: a in left && (a.hot || a.family == f) then
      exists a :: FirstWorking(left, f, a) && now == Some(Default(a.address, None))
    else now == None
  }

  lemma RepairMeaning(t: Table, address: string, path: Option<string>, f: Family)
    ensures Repaired(DefaultFor(t, f), DefaultFor(RepairDefault(t, address, path, f), f), t.accounts, address, path, f)
  {
    FirstOnMeaning(t.accounts, f);
    assert HoldsOn(t.accounts, address, f) <==>
           exists a :: a in t.accounts && Lower(a.address) == Lower(address) && (a.hot || a.family == f);
  }

  /** A removal keeps the order of what it leaves, and repairs each family's
      default; removing nothing changes nothing. */
  lemma RemoveRepairs(t: Table, address: string, path: Option<string>)
    ensures var (u, removed) := Remove(t, address, path);
            if removed then
              forall f :: Repaired(DefaultFor(t, f), DefaultFor(u, f), u.accounts, address, path, f)
            else u == t
  {
    var left := Without(t.accounts, address, path);
    if |left| != |t.accounts| {
      var t0 := t.(accounts := left);
      var t1 := RepairDefault(t0, address, path, Evm);
      RepairMeaning(t0, address, path, Evm);
      RepairLeavesRest(t0, address, path, Evm);
      RepairMeaning(t1, address, path, Tron);
      RepairLeavesRest(t1, address, path, Tron);
      forall f ensures Repaired(DefaultFor(t, f), DefaultFor(RepairDefault(t1, address, path, Tron), f), left, address,
          path, f) {
        assert f == Evm || f == Tron;
      }
    }
  }

  lemma WithoutCons(a: seq<Account>, address: string, path: Option<string>)
    requires a != []
    ensures Without(a, address, path) ==
            (if Lower(a[0].address) == Lower(address) && (path.None? || a[0].path == path.value) then [] else [a[0]])
            + Without(a[1..], address, path)
  {
  }

  lemma {:induction false} WithoutAppend(a: seq<Account>, b: seq<Account>, address: string, path: Option<string>)
    ensures Without(a + b, address, path) == Without(a, address, path) + Without(b, address, path)
  {
    if a == [] {
      assert a + b == b;
    } else {
      var all := a + b;
      assert all[0] == a[0] && all[1..] == a[1..] + b;
      WithoutAppend(a[1..], b, address, path);
      WithoutCons(all, address, path);
      WithoutCons(a, address, path);
    }
  }

  lemma SameDefaultOk(t: Table, u: Table, f: Family)
    requires DefaultOk(t, f) && t.accounts == u.accounts && DefaultFor(t, f) == DefaultFor(u, f)
    ensures DefaultOk(u, f)
  {
  }

  lemma {:induction false} SomeoneLeft(accounts: seq<Account>, address: string, path: Option<string>)
    requires |Without(accounts, address, path)| < |accounts|
    ensures exists a :: a in accounts && HasAddress(a, address) && (path.None? || a.path == path.value)
  {
    if !(HasAddress(accounts[0], address) && (path.None? || accounts[0].path == path.value)) {
      SomeoneLeft(accounts[1..], address, path);
      var a :| a in accounts[1..] && HasAddress(a, address) && (path.None? || a.path == path.value);
      assert a in accounts;
    }
  }

  lemma {:induction false} ReorderPermutes(remaining: seq<Account>, keys: seq<(string, string)>)
    ensures multiset(Reordered(remaining, keys)) == multiset(remaining)
  {
    if keys != [] {
      var i := FirstIs(remaining, keys[0].0, keys[0].1);
      if i == |remaining| {
        ReorderPermutes(remaining, keys[1..]);
      } else {
        ReorderPermutes(Drop(remaining, i), keys[1..]);
        assert remaining == remaining[..i] + [remaining[i]] + remaining[i + 1..];
      }
    }
  }

  ghost predicate Referenced(a: Account, keys: seq<(string, string)>) {
    exists k :: k in keys && Is(a, k.0, k.1)
  }

  ghost function Unreferenced(accounts: seq<Account>, keys: seq<(string, string)>): seq<Account> {
    if accounts == [] then []
    else (if Referenced(accounts[0], keys) then [] else [accounts[0]]) + Unreferenced(accounts[1..], keys)
  }

  lemma {:induction false} UnreferencedAppend(a: seq<Account>, b: seq<Account>, keys: seq<(string, string)>)
    ensures Unreferenced(a + b, keys) == Unreferenced(a, keys) + Unreferenced(b, keys)
  {
    if a == [] {
      assert a + b == b;
    } else {
      assert (a + b)[1..] == a[1..] + b;
      UnreferencedAppend(a[1..], b, keys);
    }
  }

  lemma {:induction false} UnreferencedTail(accounts: seq<Account>, keys: seq<(string, string)>)
    requires keys != [] && !Holds(accounts, keys[0].0, keys[0].1)
    ensures Unreferenced(accounts, keys) == Unreferenced(accounts, keys[1..])
  {
    assert keys == [keys[0]] + keys[1..];
    if accounts != [] {
      assert accounts[0] in accounts && forall a | a in accounts[1..] :: a in accounts;
      UnreferencedTail(accounts[1..], keys);
    }
  }

  /** Reordering a table of distinct records: the records not referenced come
      last, in the order they had. */
  lemma {:induction false} ReorderKeepsRest(accounts: seq<Account>, keys: seq<(string, string)>)
    requires Unique(accounts)
    ensures |Unreferenced(accounts, keys)| <= |Reordered(accounts, keys)|
    ensures Reordered(accounts, keys)[|Reordered(accounts, keys)| - |Unreferenced(accounts, keys)|..]
            == Unreferenced(accounts, keys)
  {
    if keys == [] {
      NothingReferenced(accounts);
    } else {
      var i := FirstIs(accounts, keys[0].0, keys[0].1);
      if i == |accounts| {
        UnreferencedTail(accounts, keys);
        ReorderKeepsRest(accounts, keys[1..]);
      } else {
        UnreferencedDrop(accounts, keys, i);
        ReorderKeepsRest(Drop(accounts, i), keys[1..]);
      }
    }
  }

  /** One of the first `k` keys names the record. */
  ghost predicate NamedBefore(a: Account, keys: seq<(string, string)>, k: nat)
    requires k <= |keys|
  {
    exists j :: 0 <= j < k && Is(a, keys[j].0, keys[j].1)
  }

  lemma NamedLater(a: Account, keys: seq<(string, string)>, k: nat)
    requires 0 < k <= |keys| && NamedBefore(a, keys[1..], k - 1)
    ensures NamedBefore(a, keys, k)
  {
    var j :| 0 <= j < k - 1 && Is(a, keys[1..][j].0, keys[1..][j].1);
    assert keys[1..][j] == keys[j + 1];
  }

  /** Reordering a table of distinct records: they follow the keys, so of two
      records the later one is named only by keys after one naming the earlier. */
  lemma {:induction false} ReorderFollowsKeys(accounts: seq<Account>, keys: seq<(string, string)>, p: nat, q: nat,
                                              k: nat)
    requires Unique(accounts) && p < q < |Reordered(accounts, keys)| && k < |keys|
    requires Is(Reordered(accounts, keys)[q], keys[k].0, keys[k].1)
    ensures NamedBefore(Reordered(accounts, keys)[p], keys, k)
    decreases |keys|
  {
    var i, rest := FirstIs(accounts, keys[0].0, keys[0].1), keys[1..];
    if i == |accounts| {
      ReorderedIn(accounts, rest, q);
      ReorderFollowsKeys(accounts, rest, p, q, k - 1);
      NamedLater(Reordered(accounts, rest)[p], keys, k);
    } else {
      var left := Drop(accounts, i);
      DropUnique(accounts, keys[0], i);
      ReorderedIn(left, rest, q - 1);
      if p > 0 {
        ReorderFollowsKeys(left, rest, p - 1, q - 1, k - 1);
        NamedLater(Reordered(left, rest)[p - 1], keys, k);
      }
    }
  }

  lemma ReorderedIn(accounts: seq<Account>, keys: seq<(string, string)>, q: nat)
    requires q < |Reordered(accounts, keys)|
    ensures Reordered(accounts, keys)[q] in accounts
  {
    ReorderPermutes(accounts, keys);
    assert Reordered(accounts, keys)[q] in multiset(Reordered(accounts, keys));
  }

  /** Taking out the one record the first key names leaves the rest unreferenced
      by that key. */
  lemma {:induction false} UnreferencedDrop(accounts: seq<Account>, keys: seq<(string, string)>, i: nat)
    requires Unique(accounts) && keys != [] && i < |accounts| && Is(accounts[i], keys[0].0, keys[0].1)
    ensures Unreferenced(accounts, keys) == Unreferenced(Drop(accounts, i), keys[1..])
    ensures Unique(Drop(accounts, i))
  {
    DropUnique(accounts, keys[0], i);
    UnreferencedTail(Drop(accounts, i), keys);
    assert accounts == accounts[..i] + ([accounts[i]] + accounts[i + 1..]);
    assert keys[0] in keys && Referenced(accounts[i], keys);
    UnreferencedAppend(accounts[..i], [accounts[i]] + accounts[i + 1..], keys);
    UnreferencedAppend([accounts[i]], accounts[i + 1..], keys);
    UnreferencedAppend(accounts[..i], accounts[i + 1..], keys);
  }

  lemma DropUnique(accounts: seq<Account>, key: (string, string), i: nat)
    requires Unique(accounts) && i < |accounts| && Is(accounts[i], key.0, key.1)
    ensures Unique(Drop(accounts, i)) && forall a | a in Drop(accounts, i) :: !Is(a, key.0, key.1)
  {
    var rest := Drop(accounts, i);
    assert forall j | 0 <= j < |rest| :: rest[j] == accounts[if j < i then j else j + 1];
    forall a | a in rest ensures !Is(a, key.0, key.1) {
      var j :| 0 <= j < |rest| && rest[j] == a;
    }
  }

  lemma {:induction false} NothingReferenced(accounts: seq<Account>)
    ensures Unreferenced(accounts, []) == accounts
  {
    if accounts != [] {
      NothingReferenced(accounts[1..]);
    }
  }

  lemma UniqueAsMultiset(a: seq<Account>, b: seq<Account>)
    requires Unique(a) && multiset(a) == multiset(b)
    ensures Unique(b)
  {
    forall i, j | 0 <= i < j < |b| ensures !Is(b[i], b[j].address, b[j].path) {
      if b[i] == b[j] {
        TwiceInMultiset(b, i, j);
        OnceInUnique(a, b[i]);
      } else {
        assert b[i] in multiset(a) && b[j] in multiset(a);
        var k :| 0 <= k < |a| && a[k] == b[i];
        var l :| 0 <= l < |a| && a[l] == b[j];
      }
    }
  }

  lemma TwiceInMultiset(s: seq<Account>, i: nat, j: nat)
    requires i < j < |s| && s[i] == s[j]
    ensures multiset(s)[s[i]] >= 2
  {
    assert s == s[..i] + [s[i]] + s[i + 1..j] + [s[j]] + s[j + 1..];
  }

  lemma OnceInUnique(s: seq<Account>, a: Account)
    requires Unique(s)
    ensures multiset(s)[a] <= 1
  {
    if a in multiset(s) {
      var i :| 0 <= i < |s| && s[i] == a;
      assert s == s[..i] + [a] + s[i + 1..];
      assert a !in s[..i];
      assert a !in s[i + 1..];
    }
  }

  lemma ReorderKeeps(t: Table, keys: seq<(string, string)>)
    requires Inv(t)
    ensures Inv(t.(accounts := Reordered(t.accounts, keys)))
  {
    var u := t.(accounts := Reordered(t.accounts, keys));
    ReorderPermutes(t.accounts, keys);
    UniqueAsMultiset(t.accounts, u.accounts);
    assert forall a :: a in u.accounts <==> a in t.accounts by {
      assert forall a :: a in t.accounts <==> a in multiset(t.accounts);
      assert forall a :: a in u.accounts <==> a in multiset(u.accounts);
    }
    forall f ensures DefaultOk(u, f) {
      assert DefaultOk(t, f);
    }
  }

  lemma DefaultKeeps(t: Table, address: string, path: Option<string>, f: Family)
    requires Inv(t) && Allowed(t, OpDefault(address, path, f))
    ensures Inv(SetDefault(t, address, path, f))
  {
    var u := SetDefault(t, address, path, f);
    var a :| a in t.accounts && HasAddress(a, address) && WorksOn(a, f) && (path.None? || a.path == path.value);
    LowerEmpty(a.address);
    LowerEmpty(address);
    forall g ensures DefaultOk(u, g) {
      assert DefaultOk(t, g);
      if g == f {
        assert HoldsOn(u.accounts, address, f);
        assert path.Some? ==> Is(a, address, path.value);
      }
    }
  }

  lemma StepKeeps(t: Table, op: Op)
    requires Inv(t) && Allowed(t, op)
    ensures Inv(Apply(t, op))
  {
    match op
    case OpAdd(a) => AddKeeps(t, a);
    case OpRemove(address, path) => RemoveKeeps(t, address, path);
    case OpReorder(keys) => ReorderKeeps(t, keys);
    case OpDefault(address, path, f) => DefaultKeeps(t, address, path, f);
  }

  ghost predicate Runs(t: Table, ops: seq<Op>, u: Table)
    decreases |ops|
  {
    if ops == [] then t == u
    else Allowed(t, ops[0]) && Runs(Apply(t, ops[0]), ops[1..], u)
  }

  /** In every run from the empty table: records are unique, each family's
      default is a record that works on it and is absent exactly when none does,
      and a remembered path names a live record. */
  lemma AlwaysSound(ops: seq<Op>, t: Table)
    requires Runs(Table([], map[]), ops, t)
    ensures Inv(t)
  {
    RunKeeps(Table([], map[]), ops, t);
  }

  lemma {:induction false} RunKeeps(t: Table, ops: seq<Op>, u: Table)
    requires Inv(t) && Runs(t, ops, u)
    ensures Inv(u)
    decreases |ops|
  {
    if ops != [] {
      StepKeeps(t, ops[0]);
      RunKeeps(Apply(t, ops[0]), ops[1..], u);
    }
  }

  /** Setting a default that names no record is the one way to break the table:
      the invariant survives exactly when the named record exists. */
  lemma DefaultMustExist(t: Table, address: string, path: Option<string>, f: Family)
    requires Inv(t)
    ensures Inv(SetDefault(t, address, path, f)) <==> Allowed(t, OpDefault(address, path, f))
  {
    var u := SetDefault(t, address, path, f);
    assert DefaultFor(u, f) == Some(Default(address, path));
    if Allowed(t, OpDefault(address, path, f)) {
      DefaultKeeps(t, address, path, f);
    }
    if Inv(u) {
      assert DefaultOk(u, f);
      var a :| a in t.accounts && HasAddress(a, address) && WorksOn(a, f);
      assert path.Some? ==> exists b :: b in t.accounts && Is(b, address, path.value) && WorksOn(b, f);
    }
  }

  /** A concrete case: with one account, a default naming another address. */
  lemma MissingDefaultBreaks()
    ensures exists ops, t, address :: Runs(Table([], map[]), ops, t) && !Inv(SetDefault(t, address, None, Evm))
  {
    var a := Account("0xaa", "", true, Evm);
    var t := Add(Table([], map[]), a).0;
    assert Runs(t, [], t);
    assert Runs(Table([], map[]), [OpAdd(a)], t);
    AlwaysSound([OpAdd(a)], t);
    AddKeeps(Table([], map[]), a);
    assert t.accounts == [a];
    assert Lower("0xaa")[2] == 'a' && Lower("0xbb")[2] == 'b';
    DefaultMustExist(t, "0xbb", None, Evm);
  }

  // Choosing the signer.

  /** The record holds the address, and works on the family when one is named. */
  predicate Usable(a: Account, address: string, f: Option<Family>) {
    Lower(a.address) == Lower(address) && (f.None? || a.hot || a.family == f.value)
  }

  predicate UsableAt(a: Account, address: string, path: Option<string>, f: Option<Family>) {
    Usable(a, address, f) && (path.None? || a.path == path.value)
  }

  /** The first record of that address, path and family, in store order. */
  ghost predicate FirstUsable(accounts: seq<Account>, a: Account, address: string, path: Option<string>,
                              f: Option<Family>)
  {
    exists i :: 0 <= i < |accounts| && accounts[i] == a && UsableAt(a, address, path, f)
           && forall j | 0 <= j < i :: !UsableAt(accounts[j], address, path, f)
  }

  lemma {:induction false} FirstMatchMeaning(accounts: seq<Account>, address: string, path: Option<string>,
                                             f: Option<Family>)
    ensures var r := FirstMatch(accounts, address, path, f);
            r.Some? ==> r.value in accounts && FirstUsable(accounts, r.value, address, path, f)
    ensures FirstMatch(accounts, address, path, f).None? ==>
              forall a | a in accounts :: !UsableAt(a, address, path, f)
  {
    if accounts != [] {
      var r, rest := FirstMatch(accounts, address, path, f), accounts[1..];
      assert accounts == [accounts[0]] + rest;
      if !UsableAt(accounts[0], address, path, f) {
        FirstMatchMeaning(rest, address, path, f);
        if r.Some? {
          UsableLater(accounts, r.value, address, path, f);
        }
      }
    }
  }

  lemma UsableLater(accounts: seq<Account>, a: Account, address: string, path: Option<string>, f: Option<Family>)
    requires accounts != [] && !UsableAt(accounts[0], address, path, f)
    requires FirstUsable(accounts[1..], a, address, path, f)
    ensures FirstUsable(accounts, a, address, path, f)
  {
    var rest := accounts[1..];
    var i :| 0 <= i < |rest| && rest[i] == a && UsableAt(a, address, path, f)
      && forall j | 0 <= j < i :: !UsableAt(rest[j], address, path, f);
    assert accounts[i + 1] == a;
    assert forall j | 0 < j < i + 1 :: accounts[j] == rest[j - 1];
  }

  /** Some record of that address and family has the path. */
  ghost predicate Known(t: Table, address: string, path: Option<string>, f: Option<Family>) {
    path.Some? && exists a :: a in t.accounts && UsableAt(a, address, path, f)
  }

  /** The path remembered of the family's connected account when that is the
      address; without a family, of the EVM one. */
  function Remembered(t: Table, address: string, f: Option<Family>): Option<string> {
    var g := if f.Some? then f.value else Evm;
    if g in t.defaults && t.defaults[g].address != "" && Lower(t.defaults[g].address) == Lower(address)
    then t.defaults[g].path else None
  }

  /** The signer: the first record with the path asked for, when there is one,
      else with the path remembered, when there is one, else with the address. */
  lemma SignerMeaning(t: Table, address: string, path: Option<string>, f: Option<Family>)
    ensures var r := ForSigning(t, address, path, f);
            var wanted := if Known(t, address, path, f) then path
                          else if Known(t, address, Remembered(t, address, f), f) then Remembered(t, address, f)
                          else None;
            && (r.Some? <==> exists a :: a in t.accounts && Usable(a, address, f))
            && (r.Some? ==> FirstUsable(t.accounts, r.value, address, wanted, f))
  {
    FirstMatchMeaning(t.accounts, address, path, f);
    FirstMatchMeaning(t.accounts, address, Remembered(t, address, f), f);
    FirstMatchMeaning(t.accounts, address, None, f);
    FirstIsThere(t, address, path, f);
    FirstIsThere(t, address, Remembered(t, address, f), f);
    FirstIsThere(t, address, None, f);
  }

  lemma FirstIsThere(t: Table, address: string, path: Option<string>, f: Option<Family>)
    ensures forall a | FirstUsable(t.accounts, a, address, path, f) ::
              a in t.accounts && UsableAt(a, address, path, f) && Usable(a, address, f)
  {
  }

  /** With distinct records, an exact record is the one found. */
  lemma ExactSigner(t: Table, address: string, path: string, f: Option<Family>, a: Account)
    requires Inv(t) && a in t.accounts && UsableAt(a, address, Some(path), f)
    ensures ForSigning(t, address, Some(path), f) == Some(a)
  {
    SignerMeaning(t, address, Some(path), f);
    assert Usable(a, address, f) && Known(t, address, Some(path), f);
    var r := ForSigning(t, address, Some(path), f).value;
    var j :| 0 <= j < |t.accounts| && t.accounts[j] == r && UsableAt(r, address, Some(path), f);
    var i :| 0 <= i < |t.accounts| && t.accounts[i] == a;
    assert Is(t.accounts[i], t.accounts[j].address, t.accounts[j].path);
    assert Is(t.accounts[j], t.accounts[i].address, t.accounts[i].path);
  }

  /** The part of the store that holds accounts. */
  class Store {
    var accounts: seq<Account>
    var defaultAccount: Option<string>
    var defaultAccountPath: Option<string>
    var familyDefaults: map<Family, Default>

    constructor ()
      ensures Abs() == Table([], map[]) && Valid()
    {
      accounts, defaultAccount, defaultAccountPath, familyDefaults := [], None, None, map[];
    }

    /** The EVM default lives in two fields, the others in a dictionary. */
    ghost predicate Valid()
      reads this
    {
      Evm !in familyDefaults && (defaultAccount.None? ==> defaultAccountPath.None?)
    }

    function Abs(): Table
      reads this
    {
      if defaultAccount.None? then Table(accounts, familyDefaults)
      else Table(accounts, familyDefaults[Evm := Default(defaultAccount.value, defaultAccountPath)])
    }

    method SetDefaultLockedFields(address: Option<string>, path: Option<string>, f: Family)
      requires Valid() && (address.None? ==> path.None?)
      modifies this`defaultAccount, this`defaultAccountPath, this`familyDefaults
      ensures Valid()
      ensures var d := if address.None? then None else Some(Default(address.value, path));
              Abs() == SetDefaultLocked(old(Abs()), f, d)
    {
      if f == Evm {
        defaultAccount, defaultAccountPath := address, path;
      } else if address.None? {
        familyDefaults := familyDefaults - {f};
      } else {
        familyDefaults := familyDefaults[f := Default(address.value, path)];
      }
    }

    method AddAccount(account: Account) returns (added: bool)
      requires Valid()
      modifies this
      ensures Valid()
      ensures (Abs(), added) == Add(old(Abs()), account)
    {
      for i := 0 to |accounts|
        invariant forall j | 0 <= j < i :: !Is(accounts[j], account.address, account.path)
        invariant Abs() == old(Abs())
      {
        if Is(accounts[i], account.address, account.path) {
          assert accounts[i] in accounts;
          return false;
        }
      }
      accounts := accounts + [account];
      ghost var grown := Abs();
      assert FAMILIES[0..] == FAMILIES;
      for i := 0 to |FAMILIES|
        invariant Valid()
        invariant FillDefaults(grown, account, FAMILIES) == FillDefaults(Abs(), account, FAMILIES[i..])
      {
        assert FAMILIES[i..][1..] == FAMILIES[i + 1..];
        if WorksOn(account, FAMILIES[i]) && DefaultFor(Abs(), FAMILIES[i]).None? {
          SetDefaultLockedFields(Some(account.address), None, FAMILIES[i]);
        }
      }
      added := true;
    }

    method RemoveAccount(address: string, path: Option<string>) returns (removed: bool)
      requires Valid()
      modifies this
      ensures Valid()
      ensures (Abs(), removed) == Remove(old(Abs()), address, path)
    {
      var left := Without(accounts, address, path);
      if |left| == |accounts| {
        return false;
      }
      accounts := left;
      Repair(address, path, FAMILIES[0]);
      Repair(address, path, FAMILIES[1]);
      removed := true;
    }

    method Repair(address: string, path: Option<string>, f: Family)
      requires Valid()
      modifies this`defaultAccount, this`defaultAccountPath, this`familyDefaults
      ensures Valid()
      ensures Abs() == RepairDefault(old(Abs()), address, path, f)
    {
      var d := DefaultFor(Abs(), f);
      if d.None? || d.value.address == "" || Lower(d.value.address) != Lower(address) {
        return;
      }
      if HoldsOn(accounts, address, f) {
        if d.value.path == path {
          SetDefaultLockedFields(Some(d.value.address), None, f);
        }
      } else {
        var first := FirstOn(accounts, f);
        SetDefaultLockedFields(if first.Some? then Some(first.value.address) else None, None, f);
      }
    }

    method ReorderAccounts(orderedKeys: seq<(string, string)>)
      modifies this`accounts
      ensures Abs() == old(Abs()).(accounts := Reordered(old(accounts), orderedKeys))
    {
      var remaining, newList := accounts, [];
      assert orderedKeys[0..] == orderedKeys;
      for k := 0 to |orderedKeys|
        invariant Reordered(accounts, orderedKeys) == newList + Reordered(remaining, orderedKeys[k..])
      {
        assert orderedKeys[k..][1..] == orderedKeys[k + 1..];
        var i := FirstIs(remaining, orderedKeys[k].0, orderedKeys[k].1);
        if i < |remaining| {
          newList := newList + [remaining[i]];
          remaining := Drop(remaining, i);
        }
      }
      accounts := newList + remaining;
    }
  }
}

/** The fork's window on the chain: memoised JSON-RPC reads at a pinned block,
    and the untrusted prefetch that only warms the memo
    (qeth/pyevm_fork.py, `RpcStateReader`). */
module StateReader {
  import opened Options
  import opened Text
  import opened Radix

  /** A request as the memo keys it. */
  datatype Key = Key(method_: string, params: seq<string>)

  /** A JSON result: absent (null) or text. */
  type Json = Option<string>

  /** One entry of a touched-set hint. */
  datatype HintEntry = HintEntry(address: string, storageKeys: seq<string>)

  /** The fixed surroundings of a reader: what a deterministic node answers at
      the pinned block, how addresses are cased, and the accounts never fetched. */
  datatype World = World(node: Key -> Json, checksum: string -> string, statics: set<string>, block: string)

  /** Recasing depends only on the address, not on how it was typed. */
  ghost predicate Checksums(checksum: string -> string) {
    && (forall a {:trigger checksum(a)} :: Lower(checksum(a)) == Lower(a))
    && (forall a, b :: Lower(a) == Lower(b) ==> checksum(a) == checksum(b))
  }

  // Quantities in hexadecimal.

  function HexDigits(ds: seq<nat>): (s: string)
    requires DigitsIn(16, ds)
    ensures |s| == |ds|
  {
    seq(|ds|, i requires 0 <= i < |ds| => HEX_DIGITS[ds[i]])
  }

  /** `hex(n)`. */
  function HexQuantity(n: nat): string {
    "0x" + if n == 0 then "0" else HexDigits(Numeral(16, n))
  }

  predicate AllHex(s: string) {
    s != "" && forall i | 0 <= i < |s| :: HexValue(s[i]).Some?
  }

  function HexNat(s: string): nat
    requires AllHex(s)
  {
    Value(16, seq(|s|, i requires 0 <= i < |s| => HexValue(s[i]).value))
  }

  /** `int(s, 16)`: an optional `0x`, then digits of either case. */
  function ParseHex(s: string): Result<nat> {
    var digits := if |s| >= 2 && Lower(s[..2]) == "0x" then s[2..] else s;
    if AllHex(digits) then Ok(HexNat(digits)) else Raised("invalid literal for int() with base 16")
  }

  /** A digit string writes, one digit at a time, a number in base 16. */
  lemma HexNatSnoc(s: string, c: char)
    requires HexValue(c).Some?
    ensures AllHex([c]) && HexNat([c]) == HexValue(c).value
    ensures AllHex(s) ==> AllHex(s + [c]) && HexNat(s + [c]) == HexNat(s) * 16 + HexValue(c).value
  {
    var one: seq<nat> := [HexValue(c).value];
    assert seq(1, i requires 0 <= i < 1 => HexValue([c][i]).value) == one;
    assert one[..0] == [] && Value(16, one) == HexValue(c).value;
    if AllHex(s) {
      var ds, t := seq(|s|, i requires 0 <= i < |s| => HexValue(s[i]).value), s + [c];
      assert t[..|s|] == s && t[|s|] == c;
      assert seq(|t|, i requires 0 <= i < |t| => HexValue(t[i]).value) == ds + one;
      assert (ds + one)[..|s|] == ds;
    }
  }

  /** The text writes a number in base 16: digits of either case, with an
      optional `0x`. */
  ghost predicate Writes(text: string, n: nat) {
    exists digits ::
      AllHex(digits) && HexNat(digits) == n && (text == digits || text == "0x" + digits || text == "0X" + digits)
  }

  /** `int(s, 16)` succeeds exactly on what writes a number, and gives it. */
  lemma ParseHexExactly(text: string, n: nat)
    ensures ParseHex(text) == Ok(n) <==> Writes(text, n)
  {
    if ParseHex(text) == Ok(n) {
      if |text| >= 2 && Lower(text[..2]) == "0x" {
        assert LowerChar(text[0]) == Lower(text[..2])[0] && LowerChar(text[1]) == Lower(text[..2])[1];
        assert text == text[..2] + text[2..] && (text[..2] == "0x" || text[..2] == "0X");
        assert Writes(text, n);
      } else {
        assert Writes(text, n);
      }
    }
    if Writes(text, n) {
      var digits :| AllHex(digits) && HexNat(digits) == n
                    && (text == digits || text == "0x" + digits || text == "0X" + digits);
      WrittenParses(text, digits);
    }
  }

  lemma NoPrefixInDigits(digits: string)
    requires AllHex(digits)
    ensures |digits| >= 2 ==> Lower(digits[..2]) != "0x"
  {
    assert forall c :: LowerChar(c) == 'x' ==> HexValue(c).None?;
    assert |digits| >= 2 ==> Lower(digits[..2])[1] == LowerChar(digits[1]);
  }

  lemma WrittenParses(text: string, digits: string)
    requires AllHex(digits) && (text == digits || text == "0x" + digits || text == "0X" + digits)
    ensures ParseHex(text) == Ok(HexNat(digits))
  {
    if text == digits {
      NoPrefixInDigits(digits);
    } else {
      assert text[2..] == digits && Lower("0x") == "0x" && Lower("0X") == "0x";
      assert text[..2] == "0x" || text[..2] == "0X";
    }
  }

  lemma HexLetter(d: nat)
    requires d < 16
    ensures LowerChar(HEX_DIGITS[d]) == HEX_DIGITS[d]
    ensures HEX_DIGITS[d] == '0' <==> d == 0
  {
    HexDigitValue(d);
  }

  lemma HexDigitsLower(ds: seq<nat>)
    requires DigitsIn(16, ds)
    ensures Lower(HexDigits(ds)) == HexDigits(ds)
  {
    forall i | 0 <= i < |ds| ensures Lower(HexDigits(ds))[i] == HexDigits(ds)[i] {
      HexLetter(ds[i]);
    }
  }

  /** What a slot key says is the one spelling without leading zeros, in lower
      case. */
  lemma HexQuantityShape(n: nat)
    ensures HexQuantity(n)[..2] == "0x" && |HexQuantity(n)| > 2
    ensures Lower(HexQuantity(n)) == HexQuantity(n)
    ensures HexQuantity(n)[2] == '0' <==> n == 0
    ensures n == 0 ==> HexQuantity(n) == "0x0"
  {
    assert Lower("0x") == "0x" && Lower("0") == "0";
    if n == 0 {
      LowerConcat("0x", "0");
    } else {
      var ds := Numeral(16, n);
      HexDigitsLower(ds);
      LowerConcat("0x", HexDigits(ds));
      HexLetter(ds[0]);
    }
  }

  lemma HexNatOfDigits(ds: seq<nat>)
    requires DigitsIn(16, ds) && ds != []
    ensures AllHex(HexDigits(ds)) && HexNat(HexDigits(ds)) == Value(16, ds)
  {
    var s := HexDigits(ds);
    forall i | 0 <= i < |s| ensures HexValue(s[i]) == Some(ds[i]) {
      HexDigitValue(ds[i]);
    }
    assert seq(|s|, i requires 0 <= i < |s| => HexValue(s[i]).value) == ds;
  }

  lemma ParseOfPrefixed(digits: string)
    requires AllHex(digits)
    ensures ParseHex("0x" + digits) == Ok(HexNat(digits))
  {
    var s := "0x" + digits;
    assert s[2..] == digits && s[..2] == "0x" && Lower("0x") == "0x";
  }

  lemma ParseOfHex(n: nat)
    ensures ParseHex(HexQuantity(n)) == Ok(n)
  {
    if n == 0 {
      HexNatOfDigits([0]);
      assert Value(16, [0]) == 0 by { assert [0][..0] == []; }
      assert HexDigits([0]) == "0" by { assert HEX_DIGITS[0] == '0'; }
      ParseOfPrefixed("0");
    } else {
      ValueOfNumeral(16, n);
      HexNatOfDigits(Numeral(16, n));
      ParseOfPrefixed(HexDigits(Numeral(16, n)));
    }
  }

  // What each read asks for.

  function BalanceKey(w: World, address: string): Key {
    Key("eth_getBalance", [w.checksum(address), w.block])
  }

  function NonceKey(w: World, address: string): Key {
    Key("eth_getTransactionCount", [w.checksum(address), w.block])
  }

  function CodeKey(w: World, address: string): Key {
    Key("eth_getCode", [w.checksum(address), w.block])
  }

  function StorageKey(w: World, address: string, slot: nat): Key {
    Key("eth_getStorageAt", [w.checksum(address), HexQuantity(slot), w.block])
  }

  /** Two storage reads share a memo entry exactly when they are of one slot of
      one account, however the address is cased. */
  lemma StorageKeyExact(w: World, a: string, m: nat, b: string, n: nat)
    requires Checksums(w.checksum)
    ensures StorageKey(w, a, m) == StorageKey(w, b, n) <==> Lower(a) == Lower(b) && m == n
  {
    ParseOfHex(m);
    ParseOfHex(n);
    if StorageKey(w, a, m) == StorageKey(w, b, n) {
      assert StorageKey(w, a, m).params[0] == StorageKey(w, b, n).params[0];
      assert StorageKey(w, a, m).params[1] == StorageKey(w, b, n).params[1];
    }
  }

  /** A storage answer stands for a word: nothing, "" and "0x" for zero. */
  ghost predicate StorageWritten(answer: Json, n: nat) {
    match answer
    case None => n == 0
    case Some(s) => (s in {"", "0x"} && n == 0) || Writes(s, n)
  }

  /** A code answer stands for bytes: nothing and "" for none, else hexadecimal
      text after two characters. */
  ghost predicate CodeWritten(answer: Json, code: seq<Byte>) {
    match answer
    case None => code == []
    case Some(s) => if |s| < 2 then code == [] else Lower(Despaced(s[2..])) == ToHex(code)
  }

  ghost predicate AccountWritten(balance: Json, nonce: Json, code: Json, a: Account) {
    && balance.Some? && Writes(balance.value, a.balance)
    && nonce.Some? && Writes(nonce.value, a.nonce)
    && CodeWritten(code, a.code)
  }

  function IntOf(v: Json): Result<nat> {
    match v case None => Raised("int() can't convert non-string") case Some(s) => ParseHex(s)
  }

  function StorageOf(v: Json): Result<nat> {
    match v
    case None => Ok(0)
    case Some(s) => if s == "" || s == "0x" then Ok(0) else ParseHex(s)
  }

  function CodeOf(v: Json): Result<seq<Byte>> {
    var text := match v case None => "0x" case Some(s) => if s == "" then "0x" else s;
    match FromHex(if |text| < 2 then "" else text[2..])
    case None => Raised("non-hexadecimal number found")
    case Some(code) => Ok(code)
  }

  lemma StorageOfExactly(v: Json, n: nat)
    ensures StorageOf(v) == Ok(n) <==> StorageWritten(v, n)
  {
    if v.Some? {
      ParseHexExactly(v.value, n);
      if v.value in {"", "0x"} {
        NothingWritten(v.value, n);
      }
    }
  }

  lemma NothingWritten(s: string, n: nat)
    requires s in {"", "0x"}
    ensures !Writes(s, n)
  {
    assert HexValue('x').None?;
    forall digits | AllHex(digits) ensures s != digits && s != "0x" + digits && s != "0X" + digits {
      assert |digits| >= 2 ==> digits[1] != 'x';
    }
  }

  lemma CodeOfExactly(v: Json, code: seq<Byte>)
    ensures CodeOf(v) == Ok(code) <==> CodeWritten(v, code)
  {
    if v.Some? && |v.value| >= 2 {
      FromHexExactly(v.value[2..], code);
    }
    assert "0x"[2..] == "";
  }

  lemma DirectAccountExactly(w: World, address: string, a: Account)
    ensures Lower(address) !in w.statics ==>
              (DirectAccount(w, address) == Ok(a) <==>
               AccountWritten(w.node(BalanceKey(w, address)), w.node(NonceKey(w, address)),
                 w.node(CodeKey(w, address)), a))
  {
    var b, n, c := w.node(BalanceKey(w, address)), w.node(NonceKey(w, address)), w.node(CodeKey(w, address));
    if b.Some? {
      ParseHexExactly(b.value, a.balance);
    }
    if n.Some? {
      ParseHexExactly(n.value, a.nonce);
    }
    CodeOfExactly(c, a.code);
  }

  datatype Account = Account(balance: nat, nonce: nat, code: seq<Byte>)

  /** The account as an uncached client would read it. */
  function DirectAccount(w: World, address: string): Result<Account> {
    if Lower(address) in w.statics then Ok(Account(0, 0, []))
    else
      match (IntOf(w.node(BalanceKey(w, address))), IntOf(w.node(NonceKey(w, address))),
        CodeOf(w.node(CodeKey(w, address))))
      case (Raised(e), _, _) => Raised(e)
      case (_, Raised(e), _) => Raised(e)
      case (_, _, Raised(e)) => Raised(e)
      case (Ok(b), Ok(n), Ok(c)) => Ok(Account(b, n, c))
  }

  function DirectStorage(w: World, address: string, slot: nat): Result<nat> {
    StorageOf(w.node(StorageKey(w, address, slot)))
  }

  // What a prefetch plans to fetch.

  const PREFETCH_MAX_KEYS := 512

  /** The `add` closure: skip what is held or queued, and everything past the cap. */
  function AddKey(held: set<Key>, keys: seq<Key>, key: Key): seq<Key> {
    if key in held || key in keys || |keys| >= PREFETCH_MAX_KEYS then keys else keys + [key]
  }

  function AddKeys(held: set<Key>, keys: seq<Key>, wanted: seq<Key>): seq<Key>
    decreases |wanted|
  {
    if wanted == [] then keys else AddKeys(held, AddKey(held, keys, wanted[0]), wanted[1..])
  }

  function SlotKeys(w: World, addr: string, slots: seq<string>): Result<seq<Key>> {
    if slots == [] then Ok([])
    else
      match ParseHex(slots[0])
      case Raised(e) => Raised(e)
      case Ok(n) =>
        match SlotKeys(w, addr, slots[1..])
        case Raised(e) => Raised(e)
        case Ok(rest) => Ok([StorageKey(w, addr, n)] + rest)
  }

  function KeysFor(w: World, addr: string, slots: seq<string>): Result<seq<Key>> {
    match SlotKeys(w, addr, slots)
    case Raised(e) => Raised(e)
    case Ok(ks) => Ok([BalanceKey(w, addr), NonceKey(w, addr), CodeKey(w, addr)] + ks)
  }

  /** The addresses to seed, in order, and the slot list each ends up with: a
      later entry for an address replaces the earlier one's slots. */
  function Gather(w: World, entries: seq<HintEntry>, acc: (seq<string>, map<string, seq<string>>))
    : (seq<string>, map<string, seq<string>>)
  {
    if entries == [] then acc
    else
      var e := entries[0];
      if e.address == "" || Lower(e.address) in w.statics then Gather(w, entries[1..], acc)
      else
        var addr := w.checksum(e.address);
        Gather(w, entries[1..], (acc.0 + [addr], acc.1[addr := e.storageKeys]))
  }

  function SlotsOf(lists: map<string, seq<string>>, addr: string): seq<string> {
    if addr in lists then lists[addr] else []
  }

  function WantedKeys(w: World, addresses: seq<string>, lists: map<string, seq<string>>): Result<seq<Key>> {
    if addresses == [] then Ok([])
    else
      match (KeysFor(w, addresses[0], SlotsOf(lists, addresses[0])), WantedKeys(w, addresses[1..], lists))
      case (Raised(e), _) => Raised(e)
      case (_, Raised(e)) => Raised(e)
      case (Ok(a), Ok(b)) => Ok(a + b)
  }

  /** Every key a hint asks for, sender and target first. */
  function HintKeys(w: World, entries: seq<HintEntry>, fromAddr: string, toAddr: string): Result<seq<Key>> {
    var from, to := w.checksum(fromAddr), w.checksum(toAddr);
    var (addresses, lists) := Gather(w, entries, ([from, to], map[from := [], to := []]));
    WantedKeys(w, addresses, lists)
  }

  /** The keys to seed: none without a hint, or for one that cannot be read. */
  function SeedKeys(w: World, held: set<Key>, hint: Option<seq<HintEntry>>, fromAddr: string,
                    toAddr: string): seq<Key> {
    if hint.None? || hint.value == [] then []
    else
      match HintKeys(w, hint.value, fromAddr, toAddr)
      case Raised(_) => []
      case Ok(wanted) => AddKeys(held, [], wanted)
  }

  lemma {:induction false} AddKeysAppend(held: set<Key>, keys: seq<Key>, a: seq<Key>, b: seq<Key>)
    ensures AddKeys(held, keys, a + b) == AddKeys(held, AddKeys(held, keys, a), b)
    decreases |a|
  {
    if a == [] {
      assert a + b == b;
    } else {
      assert (a + b)[1..] == a[1..] + b;
      AddKeysAppend(held, AddKey(held, keys, a[0]), a[1..], b);
    }
  }

  ghost predicate Distinct(keys: seq<Key>) {
    forall i, j | 0 <= i < j < |keys| :: keys[i] != keys[j]
  }

  ghost predicate FreshPlan(held: set<Key>, keys: seq<Key>) {
    Distinct(keys) && (forall k | k in keys :: k !in held) && |keys| <= PREFETCH_MAX_KEYS
  }

  /** A plan never repeats a key, never asks for a held one, stays within the
      cap, and below the cap covers all that was wanted. */
  lemma {:induction false} AddKeysPlan(held: set<Key>, keys: seq<Key>, wanted: seq<Key>)
    requires FreshPlan(held, keys)
    ensures var plan := AddKeys(held, keys, wanted);
            && FreshPlan(held, plan) && keys <= plan
            && (forall k | k in plan :: k in keys || k in wanted)
            && (|plan| < PREFETCH_MAX_KEYS ==> forall k | k in wanted :: k in held || k in plan)
    decreases |wanted|
  {
    if wanted != [] {
      var queued := AddKey(held, keys, wanted[0]);
      AddKeysPlan(held, queued, wanted[1..]);
      var plan := AddKeys(held, keys, wanted);
      if wanted[0] in queued {
        var i :| 0 <= i < |queued| && queued[i] == wanted[0];
        assert plan[i] == wanted[0];
      }
      assert forall k | k in wanted :: k == wanted[0] || k in wanted[1..];
    }
  }

  /** A reader: its memo, and the log of requests the node has answered. */
  class RpcStateReader {
    const w: World
    var memo: map<Key, Json>
    var answered: seq<Key>

    /** The memo holds the node's own answers, one request each. */
    ghost predicate Valid()
      reads this
    {
      && (forall k | k in memo :: memo[k] == w.node(k))
      && Distinct(answered)
      && (forall k :: k in memo <==> k in answered)
    }

    constructor (w: World)
      ensures this.w == w && Valid() && memo == map[]
    {
      this.w := w;
      memo := map[];
      answered := [];
    }

    /** `_rpc`; `up` says whether a request sent now would be answered. */
    method Rpc(key: Key, up: bool) returns (r: Result<Json>)
      requires Valid()
      modifies this
      ensures Valid()
      ensures r == if key in old(memo) || up then Ok(w.node(key)) else Raised("transport")
      ensures memo == if key in old(memo) || !up then old(memo) else old(memo)[key := w.node(key)]
      ensures answered == old(answered) + if key in old(memo) || !up then [] else [key]
    {
      if key !in memo {
        if !up {
          return Raised("transport");
        }
        memo := memo[key := w.node(key)];
        answered := answered + [key];
      }
      r := Ok(memo[key]);
    }

    /** Whatever was prefetched, an answered read is the direct read; and with
        the node up there is an answer. */
    method GetStorage(address: string, slot: nat, up: bool) returns (r: Result<nat>)
      requires Valid()
      modifies this
      ensures Valid() && old(memo).Keys <= memo.Keys
      ensures r == if StorageKey(w, address, slot) in old(memo) || up then DirectStorage(w, address, slot)
              else Raised("transport")
      ensures StorageKey(w, address, slot) in old(memo) ==> answered == old(answered)
      ensures var key := Key("eth_getStorageAt", [w.checksum(address), HexQuantity(slot), w.block]);
              key in old(memo) || up ==> forall n: nat :: StorageWritten(w.node(key), n) <==> r == Ok(n)
    {
      forall n: nat
        ensures StorageWritten(w.node(StorageKey(w, address, slot)), n) <==> DirectStorage(w, address, slot) == Ok(n)
      {
        StorageOfExactly(w.node(StorageKey(w, address, slot)), n);
      }
      var raw := Rpc(StorageKey(w, address, slot), up);
      match raw
      case Raised(e) => r := Raised(e);
      case Ok(v) => r := StorageOf(v);
    }

    method GetAccount(address: string, up: bool) returns (r: Result<Account>)
      requires Valid()
      modifies this
      ensures Valid() && old(memo).Keys <= memo.Keys
      ensures up || {BalanceKey(w, address), NonceKey(w, address), CodeKey(w, address)} <= old(memo).Keys
              ==> r == DirectAccount(w, address)
      ensures r.Ok? ==> r == DirectAccount(w, address)
      ensures Lower(address) in w.statics ==> answered == old(answered) && r == Ok(Account(0, 0, []))
      ensures var balance := Key("eth_getBalance", [w.checksum(address), w.block]);
              var nonce := Key("eth_getTransactionCount", [w.checksum(address), w.block]);
              var code := Key("eth_getCode", [w.checksum(address), w.block]);
              Lower(address) !in w.statics && (up || {balance, nonce, code} <= old(memo).Keys) ==>
                forall a :: AccountWritten(w.node(balance), w.node(nonce), w.node(code), a) <==> r == Ok(a)
    {
      forall a: Account ensures Lower(address) !in w.statics ==>
          (AccountWritten(w.node(BalanceKey(w, address)), w.node(NonceKey(w, address)), w.node(CodeKey(w, address)), a)
           <==> DirectAccount(w, address) == Ok(a))
      {
        DirectAccountExactly(w, address, a);
      }
      if Lower(address) in w.statics {
        return Ok(Account(0, 0, []));
      }
      var b := Rpc(BalanceKey(w, address), up);
      if b.Raised? {
        return Raised(b.error);
      }
      var balance := IntOf(b.value);
      if balance.Raised? {
        return Raised(balance.error);
      }
      var n := Rpc(NonceKey(w, address), up);
      if n.Raised? {
        return Raised(n.error);
      }
      var nonce := IntOf(n.value);
      if nonce.Raised? {
        return Raised(nonce.error);
      }
      var c := Rpc(CodeKey(w, address), up);
      if c.Raised? {
        return Raised(c.error);
      }
      var code := CodeOf(c.value);
      if code.Raised? {
        return Raised(code.error);
      }
      r := Ok(Account(balance.value, nonce.value, code.value));
    }

    /** The keys a seeding will request, built as the source builds them. */
    method PlanSeed(entries: seq<HintEntry>, fromAddr: string, toAddr: string) returns (keys: Result<seq<Key>>)
      ensures keys == match HintKeys(w, entries, fromAddr, toAddr)
                      case Raised(e) => Raised(e)
                      case Ok(wanted) => Ok(AddKeys(memo.Keys, [], wanted))
    {
      var from, to := w.checksum(fromAddr), w.checksum(toAddr);
      var addresses, lists := [from, to], map[from := [], to := []];
      ghost var start := (addresses, lists);
      assert entries[0..] == entries;
      for i := 0 to |entries|
        invariant Gather(w, entries, start) == Gather(w, entries[i..], (addresses, lists))
      {
        var e := entries[i];
        assert entries[i..][1..] == entries[i + 1..];
        if e.address == "" || Lower(e.address) in w.statics {
          continue;
        }
        var addr := w.checksum(e.address);
        addresses := addresses + [addr];
        lists := lists[addr := e.storageKeys];
      }
      keys := PlanAddresses(addresses, lists);
    }

    method PlanAddresses(addresses: seq<string>, lists: map<string, seq<string>>) returns (r: Result<seq<Key>>)
      ensures r == match WantedKeys(w, addresses, lists)
                   case Raised(e) => Raised(e)
                   case Ok(wanted) => Ok(AddKeys(memo.Keys, [], wanted))
    {
      var keys: seq<Key> := [];
      ghost var done: seq<Key> := [];
      assert addresses[0..] == addresses;
      PrefixedTwice([], [], WantedKeys(w, addresses, lists));
      for i := 0 to |addresses|
        invariant WantedKeys(w, addresses, lists) == Prefixed(done, WantedKeys(w, addresses[i..], lists))
        invariant keys == AddKeys(memo.Keys, [], done)
      {
        var addr := addresses[i];
        assert addresses[i..][1..] == addresses[i + 1..];
        var mine := KeysFor(w, addr, SlotsOf(lists, addr));
        if mine.Raised? {
          return Raised(mine.error);
        }
        PrefixedTwice(done, mine.value, WantedKeys(w, addresses[i + 1..], lists));
        AddKeysAppend(memo.Keys, [], done, mine.value);
        keys := AddKeys(memo.Keys, keys, mine.value);
        done := done + mine.value;
      }
      assert done + [] == done;
      r := Ok(keys);
    }

    /** One entry of `_batch_seed`: a failing request leaves the memo alone. */
    method Seed(key: Key, up: bool)
      requires Valid() && key !in memo
      modifies this
      ensures Valid() && memo == if up then old(memo)[key := w.node(key)] else old(memo)
      ensures |answered| <= |old(answered)| + 1
    {
      if up {
        memo := memo[key := w.node(key)];
        answered := answered + [key];
      }
    }

    /** `prefetch`: whatever the hint says and whichever seed requests fail, the
        memo only gains true answers, one request per new key. */
    method Prefetch(hint: Option<seq<HintEntry>>, fromAddr: string, toAddr: string, up: Key -> bool)
      requires Valid()
      modifies this
      ensures Valid()
      ensures memo.Keys == old(memo).Keys + set k | k in SeedKeys(w, old(memo).Keys, hint, fromAddr, toAddr) && up(k)
      ensures |answered| <= |old(answered)| + 512
    {
      if hint.None? || hint.value == [] {
        return;
      }
      var plan := PlanSeed(hint.value, fromAddr, toAddr);
      if plan.Raised? {
        return;
      }
      AddKeysPlan(memo.Keys, [], HintKeys(w, hint.value, fromAddr, toAddr).value);
      SeedAll(plan.value, up);
    }

    /** `_batch_seed`'s requests, each key once; any of them may fail. */
    method SeedAll(keys: seq<Key>, up: Key -> bool)
      requires Valid() && FreshPlan(memo.Keys, keys)
      modifies this
      ensures Valid()
      ensures memo.Keys == old(memo).Keys + set k | k in keys && up(k)
      ensures |answered| <= |old(answered)| + |keys|
    {
      for i := 0 to |keys|
        invariant Valid()
        invariant memo.Keys == old(memo).Keys + set k | k in keys[..i] && up(k)
        invariant |answered| <= |old(answered)| + i
      {
        assert keys[..i + 1] == keys[..i] + [keys[i]];
        assert keys[i] !in keys[..i];
        Seed(keys[i], up(keys[i]));
      }
      assert keys[..|keys|] == keys;
    }
  }

  function Prefixed(done: seq<Key>, rest: Result<seq<Key>>): Result<seq<Key>> {
    match rest case Raised(e) => Raised(e) case Ok(ks) => Ok(done + ks)
  }

  lemma PrefixedTwice(done: seq<Key>, mine: seq<Key>, rest: Result<seq<Key>>)
    ensures Prefixed(done, Prefixed(mine, rest)) == Prefixed(done + mine, rest)
    ensures Prefixed([], rest) == rest
  {
    if rest.Ok? {
      assert [] + rest.value == rest.value;
      assert done + (mine + rest.value) == done + mine + rest.value;
    }
  }

  lemma {:induction false} SlotIsWanted(w: World, addr: string, slots: seq<string>, i: nat, slot: nat)
    requires i < |slots| && ParseHex(slots[i]) == Ok(slot) && SlotKeys(w, addr, slots).Ok?
    ensures StorageKey(w, addr, slot) in SlotKeys(w, addr, slots).value
  {
    SlotKeysCons(w, addr, slots);
    if i > 0 {
      SlotIsWanted(w, addr, slots[1..], i - 1, slot);
    }
  }

  /** A hinted slot, whatever its spelling, is seeded under the very key the
      lazy read of that slot uses. */
  lemma HintedSlotIsRead(w: World, entry: string, slots: seq<string>, i: nat, address: string, slot: nat)
    requires Checksums(w.checksum) && i < |slots|
    requires Lower(entry) == Lower(address) && ParseHex(slots[i]) == Ok(slot)
    requires SlotKeys(w, w.checksum(entry), slots).Ok?
    ensures StorageKey(w, address, slot) in SlotKeys(w, w.checksum(entry), slots).value
  {
    SlotIsWanted(w, w.checksum(entry), slots, i, slot);
    assert w.checksum(w.checksum(entry)) == w.checksum(address);
  }

  lemma SlotKeysCons(w: World, addr: string, slots: seq<string>)
    requires slots != [] && SlotKeys(w, addr, slots).Ok?
    ensures ParseHex(slots[0]).Ok? && SlotKeys(w, addr, slots[1..]).Ok?
    ensures SlotKeys(w, addr, slots).value
            == [StorageKey(w, addr, ParseHex(slots[0]).value)] + SlotKeys(w, addr, slots[1..]).value
  {
  }

  /** An entry of a hint is about the account at `addr`. */
  predicate About(w: World, e: HintEntry, addr: string) {
    e.address != "" && Lower(e.address) !in w.statics && w.checksum(e.address) == addr
  }

  lemma {:induction false} GatherKeeps(w: World, entries: seq<HintEntry>,
                                       acc: (seq<string>, map<string, seq<string>>), addr: string)
    requires forall e | e in entries :: !About(w, e, addr)
    ensures addr in acc.0 ==> addr in Gather(w, entries, acc).0
    ensures SlotsOf(Gather(w, entries, acc).1, addr) == SlotsOf(acc.1, addr)
    decreases |entries|
  {
    if entries != [] {
      var e := entries[0];
      if e.address == "" || Lower(e.address) in w.statics {
        GatherKeeps(w, entries[1..], acc, addr);
      } else {
        assert !About(w, e, addr);
        GatherKeeps(w, entries[1..], (acc.0 + [w.checksum(e.address)],
          acc.1[w.checksum(e.address) := e.storageKeys]), addr);
      }
    }
  }

  /** The last entry about an account decides its slots. */
  lemma {:induction false} GatherLast(w: World, entries: seq<HintEntry>,
                                      acc: (seq<string>, map<string, seq<string>>), i: nat, addr: string)
    requires i < |entries| && About(w, entries[i], addr)
    requires forall k | i < k < |entries| :: !About(w, entries[k], addr)
    ensures addr in Gather(w, entries, acc).0
    ensures SlotsOf(Gather(w, entries, acc).1, addr) == entries[i].storageKeys
    decreases |entries|
  {
    var e := entries[0];
    var next := if e.address == "" || Lower(e.address) in w.statics then acc
                else (acc.0 + [w.checksum(e.address)], acc.1[w.checksum(e.address) := e.storageKeys]);
    assert Gather(w, entries, acc) == Gather(w, entries[1..], next);
    if i == 0 {
      GatherKeeps(w, entries[1..], next, addr);
    } else {
      GatherLast(w, entries[1..], next, i - 1, addr);
    }
  }

  lemma {:induction false} WantedHas(w: World, addresses: seq<string>, lists: map<string, seq<string>>, addr: string)
    requires addr in addresses && WantedKeys(w, addresses, lists).Ok?
    ensures SlotKeys(w, addr, SlotsOf(lists, addr)).Ok?
    ensures forall k | k in SlotKeys(w, addr, SlotsOf(lists, addr)).value :: k in WantedKeys(w, addresses, lists).value
    decreases |addresses|
  {
    assert WantedKeys(w, addresses[1..], lists).Ok?;
    if addr != addresses[0] {
      WantedHas(w, addresses[1..], lists, addr);
    }
  }

  /** A usable hint is not wasted: below the cap, a slot named by the last entry
      about an account is held or fetched before the lazy read asks for it. */
  lemma HintedSlotIsSeeded(w: World, held: set<Key>, entries: seq<HintEntry>, fromAddr: string, toAddr: string,
                           i: nat, j: nat, address: string, slot: nat)
    requires Checksums(w.checksum) && HintKeys(w, entries, fromAddr, toAddr).Ok?
    requires i < |entries| && About(w, entries[i], w.checksum(address)) && Lower(entries[i].address) == Lower(address)
    requires forall k | i < k < |entries| :: !About(w, entries[k], w.checksum(address))
    requires j < |entries[i].storageKeys| && ParseHex(entries[i].storageKeys[j]) == Ok(slot)
    ensures var plan := SeedKeys(w, held, Some(entries), fromAddr, toAddr);
            |plan| < 512 ==> StorageKey(w, address, slot) in held || StorageKey(w, address, slot) in plan
  {
    var addr, from, to := w.checksum(address), w.checksum(fromAddr), w.checksum(toAddr);
    var start := ([from, to], map[from := [], to := []]);
    GatherLast(w, entries, start, i, addr);
    var (addresses, lists) := Gather(w, entries, start);
    WantedHas(w, addresses, lists, addr);
    HintedSlotIsRead(w, entries[i].address, entries[i].storageKeys, j, address, slot);
    AddKeysPlan(held, [], HintKeys(w, entries, fromAddr, toAddr).value);
  }

  /** The hint has something to say about an account that is not static. */
  ghost predicate Mentioned(w: World, entries: seq<HintEntry>, addr: string) {
    exists e :: e in entries && About(w, e, addr)
  }

  lemma MentionedCons(w: World, entries: seq<HintEntry>, addr: string)
    requires entries != []
    ensures Mentioned(w, entries, addr) <==> About(w, entries[0], addr) || Mentioned(w, entries[1..], addr)
  {
    assert entries == [entries[0]] + entries[1..];
    assert entries[0] in entries;
  }

  lemma {:induction false} GatherGrows(w: World, entries: seq<HintEntry>,
                                       acc: (seq<string>, map<string, seq<string>>), addr: string)
    ensures addr in Gather(w, entries, acc).0 <==> addr in acc.0 || Mentioned(w, entries, addr)
    decreases |entries|
  {
    if entries != [] {
      var e := entries[0];
      var next := if e.address == "" || Lower(e.address) in w.statics then acc
                  else (acc.0 + [w.checksum(e.address)], acc.1[w.checksum(e.address) := e.storageKeys]);
      GatherGrows(w, entries[1..], next, addr);
      MentionedCons(w, entries, addr);
    }
  }

  lemma {:induction false} WantedHasAccount(w: World, addresses: seq<string>, lists: map<string, seq<string>>,
                                            addr: string)
    requires addr in addresses && WantedKeys(w, addresses, lists).Ok?
    ensures {BalanceKey(w, addr), NonceKey(w, addr), CodeKey(w, addr)} <=
            set k | k in WantedKeys(w, addresses, lists).value
    decreases |addresses|
  {
    assert WantedKeys(w, addresses[1..], lists).Ok?;
    if addr != addresses[0] {
      WantedHasAccount(w, addresses[1..], lists, addr);
    } else {
      var mine := KeysFor(w, addr, SlotsOf(lists, addr)).value;
      assert mine[0] == BalanceKey(w, addr) && mine[1] == NonceKey(w, addr) && mine[2] == CodeKey(w, addr);
    }
  }

  predicate SlotsParse(slots: seq<string>) {
    forall i | 0 <= i < |slots| :: ParseHex(slots[i]).Ok?
  }

  lemma {:induction false} ParsedSlots(w: World, addr: string, slots: seq<string>)
    requires SlotsParse(slots)
    ensures SlotKeys(w, addr, slots).Ok?
  {
    if slots != [] {
      assert ParseHex(slots[0]).Ok?;
      assert forall i | 0 <= i < |slots[1..]| :: slots[1..][i] == slots[i + 1];
      ParsedSlots(w, addr, slots[1..]);
    }
  }

  lemma {:induction false} ParsedGather(w: World, entries: seq<HintEntry>,
                                        acc: (seq<string>, map<string, seq<string>>))
    requires forall e | e in entries :: SlotsParse(e.storageKeys)
    requires forall a | a in acc.1 :: SlotsParse(acc.1[a])
    ensures forall a | a in Gather(w, entries, acc).1 :: SlotsParse(Gather(w, entries, acc).1[a])
    decreases |entries|
  {
    if entries != [] {
      var e := entries[0];
      assert SlotsParse(e.storageKeys);
      var next := if e.address == "" || Lower(e.address) in w.statics then acc
                  else (acc.0 + [w.checksum(e.address)], acc.1[w.checksum(e.address) := e.storageKeys]);
      ParsedGather(w, entries[1..], next);
    }
  }

  lemma {:induction false} ParsedWanted(w: World, addresses: seq<string>, lists: map<string, seq<string>>)
    requires forall a | a in lists :: SlotsParse(lists[a])
    ensures WantedKeys(w, addresses, lists).Ok?
    decreases |addresses|
  {
    if addresses != [] {
      ParsedSlots(w, addresses[0], SlotsOf(lists, addresses[0]));
      ParsedWanted(w, addresses[1..], lists);
    }
  }

  /** A hint whose slots all are numbers can be read. */
  lemma ParsedHint(w: World, entries: seq<HintEntry>, fromAddr: string, toAddr: string)
    requires forall e, s | e in entries && s in e.storageKeys :: exists n :: Writes(s, n)
    ensures HintKeys(w, entries, fromAddr, toAddr).Ok?
  {
    forall e | e in entries ensures SlotsParse(e.storageKeys) {
      forall i | 0 <= i < |e.storageKeys| ensures ParseHex(e.storageKeys[i]).Ok? {
        assert e.storageKeys[i] in e.storageKeys;
        var n :| Writes(e.storageKeys[i], n);
        ParseHexExactly(e.storageKeys[i], n);
      }
    }
    var from, to := w.checksum(fromAddr), w.checksum(toAddr);
    var start := ([from, to], map[from := [], to := []]);
    ParsedGather(w, entries, start);
    ParsedWanted(w, Gather(w, entries, start).0, Gather(w, entries, start).1);
  }

  /** Below the cap, the sender, the target and every hinted account that is not
      static have balance, nonce and code held or planned. */
  lemma SeededAccounts(w: World, held: set<Key>, entries: seq<HintEntry>, fromAddr: string, toAddr: string,
                       address: string)
    requires Checksums(w.checksum) && entries != [] && HintKeys(w, entries, fromAddr, toAddr).Ok?
    requires Lower(address) in {Lower(fromAddr), Lower(toAddr)} || exists e ::
             e in entries && About(w, e, w.checksum(address))
    ensures var plan := SeedKeys(w, held, Some(entries), fromAddr, toAddr);
            |plan| < 512 ==>
              {BalanceKey(w, address), NonceKey(w, address), CodeKey(w, address)} <= held + set k | k in plan
  {
    var addr, from, to := w.checksum(address), w.checksum(fromAddr), w.checksum(toAddr);
    var start := ([from, to], map[from := [], to := []]);
    GatherGrows(w, entries, start, addr);
    var (addresses, lists) := Gather(w, entries, start);
    WantedHasAccount(w, addresses, lists, addr);
    assert w.checksum(addr) == w.checksum(address);
    AddKeysPlan(held, [], HintKeys(w, entries, fromAddr, toAddr).value);
  }

  lemma {:induction false} SlotKeysAbout(w: World, addr: string, slots: seq<string>)
    requires SlotKeys(w, addr, slots).Ok?
    ensures forall k | k in SlotKeys(w, addr, slots).value :: k.params != [] && k.params[0] == w.checksum(addr)
  {
    if slots != [] {
      SlotKeysCons(w, addr, slots);
      SlotKeysAbout(w, addr, slots[1..]);
    }
  }

  /** The key is about one of the addresses. */
  ghost predicate AsksAbout(w: World, k: Key, addresses: seq<string>) {
    k.params != [] && exists a :: a in addresses && k.params[0] == w.checksum(a)
  }

  lemma MineAbout(w: World, addresses: seq<string>, lists: map<string, seq<string>>)
    requires addresses != [] && KeysFor(w, addresses[0], SlotsOf(lists, addresses[0])).Ok?
    ensures forall k | k in KeysFor(w, addresses[0], SlotsOf(lists, addresses[0])).value :: AsksAbout(w, k, addresses)
  {
    SlotKeysAbout(w, addresses[0], SlotsOf(lists, addresses[0]));
    assert addresses[0] in addresses;
  }

  lemma {:induction false} WantedAbout(w: World, addresses: seq<string>, lists: map<string, seq<string>>)
    requires WantedKeys(w, addresses, lists).Ok?
    ensures forall k | k in WantedKeys(w, addresses, lists).value :: AsksAbout(w, k, addresses)
    decreases |addresses|
  {
    if addresses != [] {
      MineAbout(w, addresses, lists);
      WantedAbout(w, addresses[1..], lists);
      forall k | AsksAbout(w, k, addresses[1..]) ensures AsksAbout(w, k, addresses) {
        assert forall a | a in addresses[1..] :: a in addresses;
      }
    }
  }

  /** No other account is ever asked about; a static one only as sender or target. */
  lemma OnlyHintedSeeded(w: World, entries: seq<HintEntry>, fromAddr: string, toAddr: string, k: Key)
    requires HintKeys(w, entries, fromAddr, toAddr).Ok? && k in HintKeys(w, entries, fromAddr, toAddr).value
    ensures k.params != []
    ensures exists addr :: k.params[0] == w.checksum(addr)
              && (addr in {w.checksum(fromAddr), w.checksum(toAddr)} || Mentioned(w, entries, addr))
  {
    var from, to := w.checksum(fromAddr), w.checksum(toAddr);
    var start := ([from, to], map[from := [], to := []]);
    var (addresses, lists) := Gather(w, entries, start);
    WantedAbout(w, addresses, lists);
    var addr :| addr in addresses && k.params[0] == w.checksum(addr);
    GatherGrows(w, entries, start, addr);
  }
}

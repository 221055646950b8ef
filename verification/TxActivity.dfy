/** The progressive activity column (qeth/tx_activity.py, `fetch_activities`):
    four passes that emit rows as they become final, two of them fed by futures
    that complete in any order. */
module TxActivity {
  import opened Options
  import opened Text

  const APPROVE := "0x095ea7b3"
  const TRANSFER := "0xa9059cbb"
  const TRANSFER_FROM := "0x23b872dd"

  datatype Tx = Tx(hash: string, fromAddr: string, toAddr: Option<string>, value: int, methodId: string, success: bool)

  datatype Leg = Leg(symbol: string, contract: Option<string>)

  datatype Activity = Activity(verb: string, out: seq<Leg>, inn: seq<Leg>, showArrow: bool, muted: bool)

  /** A token transfer row, and an internal value row (None when unreadable). */
  datatype TokenRow = TokenRow(contract: string, symbol: string, fromAddr: string, toAddr: string)
  datatype InternalRow = InternalRow(value: Option<int>, fromAddr: string, toAddr: string)

  /** A contract's selector names. */
  type Names = map<string, string>

  /** Everything the build reads. `disk` is the ABI cache as found by the n-th
      lookup of a pass; `resolved` and `trace` are what the futures deliver. */
  datatype World = World(
    viewer: string,
    native: string,
    tokens: map<string, seq<TokenRow>>,
    internals: map<string, seq<InternalRow>>,
    symbols: map<string, string>,
    disk: (nat, nat, string) -> Option<Names>,
    resolved: string -> Names,
    trace: string -> Option<int>,
    canTrace: bool)

  function Selector(tx: Tx): string {
    Lower(tx.methodId)
  }

  // The assets a transaction moved.

  function LegKey(l: Leg): string {
    match l.contract
    case None => "native:" + l.symbol
    case Some(c) => if c == "" then "native:" + l.symbol else c
  }

  predicate Seen(legs: seq<Leg>, l: Leg) {
    exists i :: 0 <= i < |legs| && LegKey(legs[i]) == LegKey(l)
  }

  function AddLeg(legs: seq<Leg>, l: Leg): seq<Leg> {
    if Seen(legs, l) then legs else legs + [l]
  }

  datatype Legs = Legs(out: seq<Leg>, inn: seq<Leg>)

  /** One asset moving between two addresses, as far as it touches the viewer. */
  function Move(acc: Legs, viewer: string, fromAddr: string, toAddr: string, l: Leg): Legs {
    Legs(if Lower(fromAddr) == viewer then AddLeg(acc.out, l) else acc.out,
         if Lower(toAddr) == viewer then AddLeg(acc.inn, l) else acc.inn)
  }

  function MoveTokens(acc: Legs, viewer: string, rows: seq<TokenRow>): Legs
    decreases |rows|
  {
    if rows == [] then acc
    else
      var r := rows[0];
      MoveTokens(Move(acc, viewer, r.fromAddr, r.toAddr, Leg(r.symbol, Some(Lower(r.contract)))), viewer, rows[1..])
  }

  function MoveInternals(acc: Legs, viewer: string, native: string, rows: seq<InternalRow>): Legs
    decreases |rows|
  {
    if rows == [] then acc
    else
      var r := rows[0];
      var next := if Paid(r) then Move(acc, viewer, r.fromAddr, r.toAddr, Leg(native, None)) else acc;
      MoveInternals(next, viewer, native, rows[1..])
  }

  function Recipient(tx: Tx): string {
    match tx.toAddr case None => "" case Some(a) => a
  }

  function OwnValue(tx: Tx, viewer: string, native: string): Legs {
    if tx.value <= 0 then Legs([], [])
    else if tx.fromAddr == viewer then Legs([Leg(native, None)], [])
    else if Recipient(tx) == viewer then Legs([], [Leg(native, None)])
    else Legs([], [])
  }

  function RowsOf<T>(m: map<string, seq<T>>, h: string): seq<T> {
    if h in m then m[h] else []
  }

  /** `_coins`. */
  function Coins(w: World, tx: Tx): Legs {
    var h := Lower(tx.hash);
    MoveInternals(MoveTokens(OwnValue(tx, w.viewer, w.native), w.viewer, RowsOf(w.tokens, h)), w.viewer, w.native,
      RowsOf(w.internals, h))
  }

  ghost predicate DistinctLegs(legs: seq<Leg>) {
    forall i, j | 0 <= i < j < |legs| :: LegKey(legs[i]) != LegKey(legs[j])
  }

  lemma {:induction false} TokensDistinct(acc: Legs, viewer: string, rows: seq<TokenRow>)
    requires DistinctLegs(acc.out) && DistinctLegs(acc.inn)
    ensures var r := MoveTokens(acc, viewer, rows);
            DistinctLegs(r.out) && DistinctLegs(r.inn) && acc.out <= r.out && acc.inn <= r.inn
    decreases |rows|
  {
    if rows != [] {
      var r := rows[0];
      TokensDistinct(Move(acc, viewer, r.fromAddr, r.toAddr, Leg(r.symbol, Some(Lower(r.contract)))), viewer,
        rows[1..]);
    }
  }

  lemma {:induction false} InternalsDistinct(acc: Legs, viewer: string, native: string, rows: seq<InternalRow>)
    requires DistinctLegs(acc.out) && DistinctLegs(acc.inn)
    ensures var r := MoveInternals(acc, viewer, native, rows);
            DistinctLegs(r.out) && DistinctLegs(r.inn) && acc.out <= r.out && acc.inn <= r.inn
    decreases |rows|
  {
    if rows != [] {
      var r := rows[0];
      var next := if Paid(r) then Move(acc, viewer, r.fromAddr, r.toAddr, Leg(native, None)) else acc;
      InternalsDistinct(next, viewer, native, rows[1..]);
    }
  }

  /** No asset is listed twice on a side, and the transaction's own value leads. */
  lemma CoinsAreDistinct(w: World, tx: Tx)
    ensures DistinctLegs(Coins(w, tx).out) && DistinctLegs(Coins(w, tx).inn)
    ensures OwnValue(tx, w.viewer, w.native).out <= Coins(w, tx).out &&
            OwnValue(tx, w.viewer, w.native).inn <= Coins(w, tx).inn
  {
    var h := Lower(tx.hash);
    var own := OwnValue(tx, w.viewer, w.native);
    TokensDistinct(own, w.viewer, RowsOf(w.tokens, h));
    InternalsDistinct(MoveTokens(own, w.viewer, RowsOf(w.tokens, h)), w.viewer, w.native, RowsOf(w.internals, h));
  }

  ghost predicate Has(legs: seq<Leg>, key: string) {
    exists i :: 0 <= i < |legs| && LegKey(legs[i]) == key
  }

  function TokenLeg(r: TokenRow): Leg {
    Leg(r.symbol, Some(Lower(r.contract)))
  }

  ghost predicate Sent(viewer: string, rows: seq<TokenRow>, key: string) {
    exists j :: 0 <= j < |rows| && Lower(rows[j].fromAddr) == viewer && LegKey(TokenLeg(rows[j])) == key
  }

  ghost predicate Received(viewer: string, rows: seq<TokenRow>, key: string) {
    exists j :: 0 <= j < |rows| && Lower(rows[j].toAddr) == viewer && LegKey(TokenLeg(rows[j])) == key
  }

  predicate Paid(r: InternalRow) {
    r.value.Some? && r.value.value > 0
  }

  ghost predicate Paying(viewer: string, rows: seq<InternalRow>) {
    exists j :: 0 <= j < |rows| && rows[j].value.Some? && rows[j].value.value > 0 && Lower(rows[j].fromAddr) == viewer
  }

  ghost predicate PaidTo(viewer: string, rows: seq<InternalRow>) {
    exists j :: 0 <= j < |rows| && rows[j].value.Some? && rows[j].value.value > 0 && Lower(rows[j].toAddr) == viewer
  }

  lemma AddLegHas(legs: seq<Leg>, l: Leg, key: string)
    ensures Has(AddLeg(legs, l), key) <==> Has(legs, key) || LegKey(l) == key
  {
    var more := legs + [l];
    assert more[|legs|] == l;
    assert forall i | 0 <= i < |legs| :: more[i] == legs[i];
  }

  lemma {:induction false} TokensMeaning(acc: Legs, viewer: string, rows: seq<TokenRow>, key: string)
    ensures Has(MoveTokens(acc, viewer, rows).out, key) <==> Has(acc.out, key) || Sent(viewer, rows, key)
    ensures Has(MoveTokens(acc, viewer, rows).inn, key) <==> Has(acc.inn, key) || Received(viewer, rows, key)
    decreases |rows|
  {
    if rows != [] {
      var r := rows[0];
      TokensMeaning(Move(acc, viewer, r.fromAddr, r.toAddr, TokenLeg(r)), viewer, rows[1..], key);
      AddLegHas(acc.out, TokenLeg(r), key);
      AddLegHas(acc.inn, TokenLeg(r), key);
      TokenRowsCons(viewer, rows, key);
    }
  }

  lemma TokenRowsCons(viewer: string, rows: seq<TokenRow>, key: string)
    requires rows != []
    ensures Sent(viewer, rows, key) <==>
            (Lower(rows[0].fromAddr) == viewer && LegKey(TokenLeg(rows[0])) == key) || Sent(viewer, rows[1..], key)
    ensures Received(viewer, rows, key) <==>
            (Lower(rows[0].toAddr) == viewer && LegKey(TokenLeg(rows[0])) == key) || Received(viewer, rows[1..], key)
  {
    assert forall j | 0 < j < |rows| :: rows[j] == rows[1..][j - 1];
    assert forall j | 0 <= j < |rows[1..]| :: rows[1..][j] == rows[j + 1];
  }

  lemma {:induction false} InternalsMeaning(acc: Legs, viewer: string, native: string, rows: seq<InternalRow>,
                                            key: string)
    ensures Has(MoveInternals(acc, viewer, native, rows).out, key) <==>
            Has(acc.out, key) || (key == "native:" + native && Paying(viewer, rows))
    ensures Has(MoveInternals(acc, viewer, native, rows).inn, key) <==>
            Has(acc.inn, key) || (key == "native:" + native && PaidTo(viewer, rows))
    decreases |rows|
  {
    if rows != [] {
      var r := rows[0];
      var next := if Paid(r) then Move(acc, viewer, r.fromAddr, r.toAddr, Leg(native, None)) else acc;
      InternalsMeaning(next, viewer, native, rows[1..], key);
      AddLegHas(acc.out, Leg(native, None), key);
      AddLegHas(acc.inn, Leg(native, None), key);
      InternalRowsCons(viewer, rows);
    }
  }

  lemma InternalRowsCons(viewer: string, rows: seq<InternalRow>)
    requires rows != []
    ensures Paying(viewer, rows) <==> (Paid(rows[0]) && Lower(rows[0].fromAddr) == viewer) || Paying(viewer, rows[1..])
    ensures PaidTo(viewer, rows) <==> (Paid(rows[0]) && Lower(rows[0].toAddr) == viewer) || PaidTo(viewer, rows[1..])
  {
    assert forall j | 0 < j < |rows| :: rows[j] == rows[1..][j - 1];
    assert forall j | 0 <= j < |rows[1..]| :: rows[1..][j] == rows[j + 1];
  }

  /** The viewer sent the asset: as the transaction's own value, in a token
      transfer or in an internal payment. */
  ghost predicate Outgoing(w: World, tx: Tx, key: string) {
    var h, coin := Lower(tx.hash), "native:" + w.native;
    || (key == coin && tx.value > 0 && tx.fromAddr == w.viewer)
    || (h in w.tokens && Sent(w.viewer, w.tokens[h], key))
    || (key == coin && h in w.internals && Paying(w.viewer, w.internals[h]))
  }

  ghost predicate Incoming(w: World, tx: Tx, key: string) {
    var h, coin := Lower(tx.hash), "native:" + w.native;
    || (key == coin && tx.value > 0 && tx.fromAddr != w.viewer
        && (tx.toAddr == Some(w.viewer) || (tx.toAddr.None? && w.viewer == "")))
    || (h in w.tokens && Received(w.viewer, w.tokens[h], key))
    || (key == coin && h in w.internals && PaidTo(w.viewer, w.internals[h]))
  }

  /** An asset is listed as going out exactly when the viewer sent it, and as
      coming in exactly when the viewer received it. */
  lemma CoinsMeaning(w: World, tx: Tx, key: string)
    ensures Has(Coins(w, tx).out, key) <==> Outgoing(w, tx, key)
    ensures Has(Coins(w, tx).inn, key) <==> Incoming(w, tx, key)
  {
    var h := Lower(tx.hash);
    var own := OwnValue(tx, w.viewer, w.native);
    TokensMeaning(own, w.viewer, RowsOf(w.tokens, h), key);
    InternalsMeaning(MoveTokens(own, w.viewer, RowsOf(w.tokens, h)), w.viewer, w.native, RowsOf(w.internals, h), key);
    OwnHas(tx, w.viewer, w.native, key);
  }

  /** Assets have one key exactly when they are one token contract, or the coin
      under one symbol. */
  lemma KeysTellAssets(a: Leg, b: Leg)
    requires forall c | c in {a.contract, b.contract} && c.Some? :: !("native:" <= c.value)
    ensures var plain := (l: Leg) => l.contract.None? || l.contract == Some("");
            LegKey(a) == LegKey(b) <==>
            if plain(a) && plain(b) then a.symbol == b.symbol else !plain(a) && !plain(b) && a.contract == b.contract
  {
    assert ("native:" + a.symbol)[7..] == a.symbol && ("native:" + b.symbol)[7..] == b.symbol;
    assert "native:" <= "native:" + a.symbol && "native:" <= "native:" + b.symbol;
  }

  ghost predicate TokenListed(legs: seq<Leg>) {
    exists i :: 0 <= i < |legs| && legs[i].contract.Some?
  }

  /** The viewer sent a token that is not listed yet. */
  ghost predicate SentBeside(legs: seq<Leg>, viewer: string, rows: seq<TokenRow>) {
    exists key :: Sent(viewer, rows, key) && !Has(legs, key)
  }

  lemma AddLegListed(legs: seq<Leg>, l: Leg)
    requires l.contract.Some?
    ensures TokenListed(AddLeg(legs, l)) <==> TokenListed(legs) || !Has(legs, LegKey(l))
  {
    var more := legs + [l];
    assert more[|legs|] == l;
    assert forall i | 0 <= i < |legs| :: more[i] == legs[i];
  }

  lemma {:induction false} TokensListed(acc: Legs, viewer: string, rows: seq<TokenRow>)
    ensures TokenListed(MoveTokens(acc, viewer, rows).out) <==>
            TokenListed(acc.out) || SentBeside(acc.out, viewer, rows)
    decreases |rows|
  {
    if rows != [] {
      var r := rows[0];
      var next := Move(acc, viewer, r.fromAddr, r.toAddr, TokenLeg(r));
      TokensListed(next, viewer, rows[1..]);
      AddLegListed(acc.out, TokenLeg(r));
      BesideCons(acc.out, viewer, rows);
    }
  }

  lemma BesideCons(legs: seq<Leg>, viewer: string, rows: seq<TokenRow>)
    requires rows != []
    ensures var sent := Lower(rows[0].fromAddr) == viewer && !Has(legs, LegKey(TokenLeg(rows[0])));
            SentBeside(legs, viewer, rows) <==> sent || SentBeside(legs, viewer, rows[1..])
  {
    forall key ensures Sent(viewer, rows, key) <==>
        (Lower(rows[0].fromAddr) == viewer && LegKey(TokenLeg(rows[0])) == key) || Sent(viewer, rows[1..], key)
    {
      TokenRowsCons(viewer, rows, key);
    }
  }

  lemma {:induction false} InternalsListed(acc: Legs, viewer: string, native: string, rows: seq<InternalRow>)
    ensures TokenListed(MoveInternals(acc, viewer, native, rows).out) <==> TokenListed(acc.out)
    decreases |rows|
  {
    if rows != [] {
      var r := rows[0];
      var next := if Paid(r) then Move(acc, viewer, r.fromAddr, r.toAddr, Leg(native, None)) else acc;
      InternalsListed(next, viewer, native, rows[1..]);
      var more := acc.out + [Leg(native, None)];
      assert forall i | 0 <= i < |acc.out| :: more[i] == acc.out[i];
    }
  }

  /** The viewer sent a token other than the coin it sent as the transaction's
      own value. */
  ghost predicate SentToken(w: World, tx: Tx) {
    var h := Lower(tx.hash);
    h in w.tokens
    && exists key :: Sent(w.viewer, w.tokens[h], key)
                  && !(key == "native:" + w.native && tx.value > 0 && tx.fromAddr == w.viewer)
  }

  lemma TokenListedMeaning(w: World, tx: Tx)
    ensures TokenListed(Coins(w, tx).out) <==> SentToken(w, tx)
  {
    var h := Lower(tx.hash);
    var own := OwnValue(tx, w.viewer, w.native);
    TokensListed(own, w.viewer, RowsOf(w.tokens, h));
    InternalsListed(MoveTokens(own, w.viewer, RowsOf(w.tokens, h)), w.viewer, w.native, RowsOf(w.internals, h));
    forall key ensures Has(own.out, key) <==> key == "native:" + w.native && tx.value > 0 && tx.fromAddr == w.viewer {
      OwnHas(tx, w.viewer, w.native, key);
    }
  }

  /** Every leg is the coin or a transferred token, under its row's symbol. */
  ghost predicate FromRows(legs: seq<Leg>, native: string, rows: seq<TokenRow>) {
    forall i | 0 <= i < |legs| :: legs[i] == Leg(native, None) || IsRow(legs[i], rows)
  }

  ghost predicate IsRow(l: Leg, rows: seq<TokenRow>) {
    exists j :: 0 <= j < |rows| && l == Leg(rows[j].symbol, Some(Lower(rows[j].contract)))
  }

  lemma {:induction false} TokensFromRows(acc: Legs, viewer: string, native: string, all: seq<TokenRow>, k: nat)
    requires k <= |all| && FromRows(acc.out, native, all) && FromRows(acc.inn, native, all)
    ensures var r := MoveTokens(acc, viewer, all[k..]); FromRows(r.out, native, all) && FromRows(r.inn, native, all)
    decreases |all| - k
  {
    if k < |all| {
      var r := all[k];
      assert all[k..][0] == r && all[k..][1..] == all[k + 1..];
      assert IsRow(TokenLeg(r), all);
      TokensFromRows(Move(acc, viewer, r.fromAddr, r.toAddr, TokenLeg(r)), viewer, native, all, k + 1);
    }
  }

  lemma {:induction false} InternalsFromRows(acc: Legs, viewer: string, native: string, rows: seq<InternalRow>,
                                             all: seq<TokenRow>)
    requires FromRows(acc.out, native, all) && FromRows(acc.inn, native, all)
    ensures var r := MoveInternals(acc, viewer, native, rows);
            FromRows(r.out, native, all) && FromRows(r.inn, native, all)
    decreases |rows|
  {
    if rows != [] {
      var r := rows[0];
      var next := if Paid(r) then Move(acc, viewer, r.fromAddr, r.toAddr, Leg(native, None)) else acc;
      InternalsFromRows(next, viewer, native, rows[1..], all);
    }
  }

  lemma CoinsFromRows(w: World, tx: Tx)
    ensures var rows := if Lower(tx.hash) in w.tokens then w.tokens[Lower(tx.hash)] else [];
            FromRows(Coins(w, tx).out, w.native, rows) && FromRows(Coins(w, tx).inn, w.native, rows)
  {
    var h := Lower(tx.hash);
    var own, rows := OwnValue(tx, w.viewer, w.native), RowsOf(w.tokens, h);
    assert rows[0..] == rows;
    TokensFromRows(own, w.viewer, w.native, rows, 0);
    InternalsFromRows(MoveTokens(own, w.viewer, rows), w.viewer, w.native, RowsOf(w.internals, h), rows);
  }

  lemma OwnHas(tx: Tx, viewer: string, native: string, key: string)
    ensures Has(OwnValue(tx, viewer, native).out, key) <==>
            key == "native:" + native && tx.value > 0 && tx.fromAddr == viewer
    ensures Has(OwnValue(tx, viewer, native).inn, key) <==>
            key == "native:" + native && tx.value > 0 && tx.fromAddr != viewer && Recipient(tx) == viewer
  {
    var l := [Leg(native, None)];
    assert LegKey(l[0]) == "native:" + native;
  }

  /** `_make_activity`; pass 0 knows no symbols. */
  function MakeActivity(verb: string, legs: Legs, sel: string, tx: Tx, symbols: map<string, string>): Activity {
    if sel == APPROVE && tx.toAddr.Some? && tx.toAddr.value != "" then
      var token := Lower(tx.toAddr.value);
      Activity(verb, [Leg(if token in symbols then symbols[token] else "?", Some(token))], [], false, !tx.success)
    else Activity(verb, legs.out, legs.inn, true, !tx.success)
  }

  /** `_wants_native_trace`. */
  predicate WantsTrace(legs: Legs, sel: string, tx: Tx) {
    && tx.success && legs.inn == [] && sel !in [APPROVE, TRANSFER, TRANSFER_FROM]
    && exists i :: 0 <= i < |legs.out| && legs.out[i].contract.Some?
  }

  // Verbs.

  datatype Quick = Quick(verb: string, cold: bool)

  /** `quick_verb` against the names already loaded. */
  function QuickOf(tx: Tx, names: Option<Names>): Quick {
    var sel := Selector(tx);
    if sel == "" || sel == "0x" then Quick("send", false)
    else if tx.toAddr.None? then Quick("deploy", false)
    else if tx.toAddr.value == "" || names.None? || sel !in names.value then Quick(sel, true)
    else Quick(names.value[sel], false)
  }

  predicate NeedsNames(tx: Tx) {
    var sel := Selector(tx);
    sel != "" && sel != "0x" && tx.toAddr.Some? && tx.toAddr.value != ""
  }

  function Callee(tx: Tx): string {
    match tx.toAddr case None => "" case Some(a) => Lower(a)
  }

  /** `_Verbs.name(fetch=False)`: a loaded map sticks, a missing one is asked of the disk. */
  function LoadNames(w: World, maps: map<string, Names>, pass_: nat, n: nat, tx: Tx): map<string, Names> {
    if !NeedsNames(tx) || Callee(tx) in maps then maps
    else
      match w.disk(pass_, n, Callee(tx))
      case None => maps
      case Some(names) => maps[Callee(tx) := names]
  }

  function Loaded(maps: map<string, Names>, tx: Tx): Option<Names> {
    if Callee(tx) in maps then Some(maps[Callee(tx)]) else None
  }

  /** The names known after the first `n` transactions of a pass. */
  function MapsAfter(w: World, maps: map<string, Names>, pass_: nat, txs: seq<Tx>, n: nat): map<string, Names>
    requires n <= |txs|
  {
    if n == 0 then maps else LoadNames(w, MapsAfter(w, maps, pass_, txs, n - 1), pass_, n - 1, txs[n - 1])
  }

  function QuickAt(w: World, maps: map<string, Names>, pass_: nat, txs: seq<Tx>, n: nat): Quick
    requires n < |txs|
  {
    QuickOf(txs[n], Loaded(MapsAfter(w, maps, pass_, txs, n + 1), txs[n]))
  }

  /** What pass 1 records of a transaction. */
  datatype Row = Row(tx: Tx, quick: Quick, legs: Legs)

  function RowAt(w: World, maps: map<string, Names>, txs: seq<Tx>, n: nat): Row
    requires n < |txs|
  {
    Row(txs[n], QuickAt(w, maps, 1, txs, n), Coins(w, txs[n]))
  }

  function RowsFrom(w: World, maps: map<string, Names>, txs: seq<Tx>): (rows: seq<Row>)
    ensures |rows| == |txs|
    ensures forall i | 0 <= i < |txs| :: rows[i] == RowAt(w, maps, txs, i)
  {
    seq(|txs|, i requires 0 <= i < |txs| => RowAt(w, maps, txs, i))
  }

  /** The names in memory when pass 1 starts: pass 0 only runs for a listener. */
  function MapsBefore(w: World, txs: seq<Tx>, listening: bool): map<string, Names> {
    if listening then MapsAfter(w, map[], 0, txs, |txs|) else map[]
  }

  // What a row comes to.

  function Resolved(w: World, row: Row): string {
    var names := w.resolved(Callee(row.tx));
    var sel := Selector(row.tx);
    if sel in names && names[sel] != "" then names[sel] else sel
  }

  function Gained(w: World, row: Row): bool {
    w.canTrace && WantsTrace(row.legs, Selector(row.tx), row.tx)
    && w.trace(row.tx.hash).Some? && w.trace(row.tx.hash).value > 0
  }

  function WithNative(w: World, a: Activity): Activity {
    a.(inn := a.inn + [Leg(w.native, None)])
  }

  /** A row once the callees in `done` are resolved and the hashes in `traced`
      have been looked at. */
  function Act(w: World, row: Row, done: set<string>, traced: set<string>): Activity {
    var verb := if row.quick.cold && Callee(row.tx) in done then Resolved(w, row) else row.quick.verb;
    var a := MakeActivity(verb, row.legs, Selector(row.tx), row.tx, w.symbols);
    if row.tx.hash in traced && Gained(w, row) then WithNative(w, a) else a
  }

  function FinalVerb(w: World, row: Row): string {
    if row.quick.cold then Resolved(w, row) else row.quick.verb
  }

  /** The row's final activity, which mentions no order of completion. */
  function Final(w: World, row: Row): Activity {
    var a := MakeActivity(FinalVerb(w, row), row.legs, Selector(row.tx), row.tx, w.symbols);
    if Gained(w, row) then WithNative(w, a) else a
  }

  ghost predicate DistinctHashes(txs: seq<Tx>) {
    forall i, j | 0 <= i < j < |txs| :: Lower(txs[i].hash) != Lower(txs[j].hash)
  }

  ghost predicate DistinctRows(rows: seq<Row>) {
    forall i, j | 0 <= i < j < |rows| :: rows[i].tx.hash != rows[j].tx.hash
  }

  ghost predicate Within(m: map<string, Activity>, rows: seq<Row>) {
    forall h | h in m :: exists i :: 0 <= i < |rows| && rows[i].tx.hash == h
  }

  /** A dictionary holds exactly the rows, at a given stage. */
  ghost predicate Shows(m: map<string, Activity>, w: World, rows: seq<Row>, done: set<string>, traced: set<string>) {
    Within(m, rows) && forall i | 0 <= i < |rows| ::
      rows[i].tx.hash in m && m[rows[i].tx.hash] == Act(w, rows[i], done, traced)
  }

  /** What a listener has been told: every row that is not waiting for a callee. */
  ghost predicate Told(m: map<string, Activity>, w: World, rows: seq<Row>, done: set<string>, traced: set<string>) {
    && Within(m, rows)
    && forall i | 0 <= i < |rows| && (rows[i].quick.cold ==> Callee(rows[i].tx) in done) ::
         rows[i].tx.hash in m && m[rows[i].tx.hash] == Act(w, rows[i], done, traced)
  }

  /** No placeholder: whatever a batch says of a row, it says with its final verb. */
  ghost predicate Named(batch: map<string, Activity>, w: World, rows: seq<Row>) {
    forall i | 0 <= i < |rows| && rows[i].tx.hash in batch :: batch[rows[i].tx.hash].verb == FinalVerb(w, rows[i])
  }

  ghost predicate AllNamed(batches: seq<map<string, Activity>>, w: World, rows: seq<Row>) {
    forall k | 0 <= k < |batches| :: Named(batches[k], w, rows)
  }

  lemma AllNamedMore(batches: seq<map<string, Activity>>, b: map<string, Activity>, w: World, rows: seq<Row>)
    requires AllNamed(batches, w, rows) && Named(b, w, rows)
    ensures AllNamed(batches + [b], w, rows)
  {
  }

  /** Batches overlaid in the order they were emitted. */
  function Overlay(batches: seq<map<string, Activity>>): map<string, Activity> {
    if batches == [] then map[] else Overlay(batches[..|batches| - 1]) + batches[|batches| - 1]
  }

  lemma OverlayAppend(batches: seq<map<string, Activity>>, b: map<string, Activity>)
    ensures Overlay(batches + [b]) == Overlay(batches) + b
  {
    assert (batches + [b])[..|batches|] == batches;
  }

  ghost predicate ColdCallees(order: seq<string>, rows: seq<Row>) {
    && (forall i, j | 0 <= i < j < |order| :: order[i] != order[j])
    && (forall c :: c in order <==> exists i :: 0 <= i < |rows| && rows[i].quick.cold && Callee(rows[i].tx) == c)
  }

  /** A completion order of the trace futures: each target once. */
  ghost predicate TraceOrder(order: seq<nat>, rows: seq<Row>) {
    && (forall i, j | 0 <= i < j < |order| :: order[i] != order[j])
    && (forall n: nat :: n in order <==> n < |rows| && WantsTrace(rows[n].legs, Selector(rows[n].tx), rows[n].tx))
  }

  // The passes.

  /** The first `n` rows with a verb at hand, without coins, and nothing else. */
  ghost predicate VerbsOnly(early: map<string, Activity>, w: World, txs: seq<Tx>, n: nat)
    requires n <= |txs|
  {
    && (forall h | h in early :: exists i :: 0 <= i < n && txs[i].hash == h)
    && (forall i | 0 <= i < n ::
          var quick := QuickAt(w, map[], 0, txs, i);
          (txs[i].hash in early <==> !quick.cold)
          && (!quick.cold ==>
                early[txs[i].hash] == MakeActivity(quick.verb, Legs([], []), Selector(txs[i]), txs[i], map[])))
  }

  lemma VerbsMore(early: map<string, Activity>, w: World, txs: seq<Tx>, n: nat)
    requires n < |txs| && DistinctHashes(txs) && VerbsOnly(early, w, txs, n)
    ensures var quick := QuickAt(w, map[], 0, txs, n);
            var act := MakeActivity(quick.verb, Legs([], []), Selector(txs[n]), txs[n], map[]);
            VerbsOnly(if quick.cold then early else early[txs[n].hash := act], w, txs, n + 1)
  {
    forall i | 0 <= i < n ensures txs[i].hash != txs[n].hash {
    }
  }

  /** Pass 0: verbs from no-network sources, without coins. */
  method Early(w: World, txs: seq<Tx>) returns (early: map<string, Activity>, maps: map<string, Names>)
    requires DistinctHashes(txs)
    ensures maps == MapsAfter(w, map[], 0, txs, |txs|)
    ensures VerbsOnly(early, w, txs, |txs|)
  {
    early, maps := map[], map[];
    for n := 0 to |txs|
      invariant maps == MapsAfter(w, map[], 0, txs, n)
      invariant VerbsOnly(early, w, txs, n)
    {
      VerbsMore(early, w, txs, n);
      maps := LoadNames(w, maps, 0, n, txs[n]);
      var quick := QuickOf(txs[n], Loaded(maps, txs[n]));
      if !quick.cold {
        early := early[txs[n].hash := MakeActivity(quick.verb, Legs([], []), Selector(txs[n]), txs[n], map[])];
      }
    }
  }

  /** Pass 1: coins and known verbs; the rows already final. */
  method Coined(w: World, txs: seq<Tx>, before: map<string, Names>)
    returns (rows: seq<Row>, out: map<string, Activity>, first: map<string, Activity>)
    requires DistinctHashes(txs)
    ensures rows == RowsFrom(w, before, txs)
    ensures Shows(out, w, rows, {}, {}) && Told(first, w, rows, {}, {}) && Named(first, w, rows)
  {
    rows, out, first := [], map[], map[];
    var maps := before;
    for n := 0 to |txs|
      invariant maps == MapsAfter(w, before, 1, txs, n)
      invariant CoinedTo(w, txs, before, n, rows, out, first)
    {
      var tx := txs[n];
      maps := LoadNames(w, maps, 1, n, tx);
      var row := Row(tx, QuickOf(tx, Loaded(maps, tx)), Coins(w, tx));
      var act := MakeActivity(row.quick.verb, row.legs, Selector(tx), tx, w.symbols);
      CoinedTurn(w, txs, before, rows, row, n, out, first);
      out := out[tx.hash := act];
      first := if row.quick.cold then first else first[tx.hash := act];
      rows := rows + [row];
    }
    assert RowsFrom(w, before, txs)[..|txs|] == RowsFrom(w, before, txs);
  }

  /** The first `n` rows, shown, told and named. */
  ghost predicate CoinedTo(w: World, txs: seq<Tx>, before: map<string, Names>, n: nat, rows: seq<Row>,
                           out: map<string, Activity>, first: map<string, Activity>)
    requires n <= |txs|
  {
    && rows == RowsFrom(w, before, txs)[..n]
    && Shows(out, w, rows, {}, {}) && Told(first, w, rows, {}, {}) && Named(first, w, rows)
  }

  lemma CoinedTurn(w: World, txs: seq<Tx>, before: map<string, Names>, rows: seq<Row>, row: Row, n: nat,
                   out: map<string, Activity>, first: map<string, Activity>)
    requires DistinctHashes(txs) && n < |txs| && row == RowAt(w, before, txs, n)
    requires CoinedTo(w, txs, before, n, rows, out, first)
    ensures var act := MakeActivity(row.quick.verb, row.legs, Selector(row.tx), row.tx, w.symbols);
            CoinedTo(w, txs, before, n + 1, rows + [row], out[row.tx.hash := act],
                     if row.quick.cold then first else first[row.tx.hash := act])
  {
    var act := MakeActivity(row.quick.verb, row.legs, Selector(row.tx), row.tx, w.symbols);
    assert Act(w, row, {}, {}) == act;
    RowsSnoc(w, txs, before, rows, row, n);
    FreshHash(txs, rows, n);
    ShowsMore(out, w, rows, row, {}, {});
    ToldMore(first, w, rows, row, {}, {});
    NamedMore(w, txs, before, rows, row, n, first);
  }

  lemma RowsSnoc(w: World, txs: seq<Tx>, before: map<string, Names>, rows: seq<Row>, row: Row, n: nat)
    requires n < |txs| && rows == RowsFrom(w, before, txs)[..n] && row == RowAt(w, before, txs, n)
    ensures rows + [row] == RowsFrom(w, before, txs)[..n + 1]
    ensures |rows| == n && forall i | 0 <= i < n :: rows[i].tx == txs[i]
  {
  }

  lemma NamedMore(w: World, txs: seq<Tx>, before: map<string, Names>, rows: seq<Row>, row: Row, n: nat,
                  first: map<string, Activity>)
    requires DistinctHashes(txs) && n < |txs|
    requires rows == RowsFrom(w, before, txs)[..n] && row == RowAt(w, before, txs, n)
    requires Within(first, rows) && Named(first, w, rows)
    ensures Named(if row.quick.cold then first else first[row.tx.hash := Act(w, row, {}, {})], w, rows + [row])
  {
    FreshHash(txs, rows, n);
    assert row.tx.hash !in first;
  }

  lemma FreshHash(txs: seq<Tx>, rows: seq<Row>, n: nat)
    requires DistinctHashes(txs) && n < |txs| && |rows| == n && forall i | 0 <= i < n :: rows[i].tx == txs[i]
    ensures forall i | 0 <= i < n :: rows[i].tx.hash != txs[n].hash
  {
  }

  lemma ShowsMore(m: map<string, Activity>, w: World, rows: seq<Row>, row: Row, done: set<string>, traced: set<string>)
    requires Shows(m, w, rows, done, traced) && forall i | 0 <= i < |rows| :: rows[i].tx.hash != row.tx.hash
    ensures Shows(m[row.tx.hash := Act(w, row, done, traced)], w, rows + [row], done, traced)
  {
    WithinMore(m, rows, row, Act(w, row, done, traced));
  }

  lemma ToldMore(m: map<string, Activity>, w: World, rows: seq<Row>, row: Row, done: set<string>, traced: set<string>)
    requires Told(m, w, rows, done, traced) && forall i | 0 <= i < |rows| :: rows[i].tx.hash != row.tx.hash
    ensures Told(m[row.tx.hash := Act(w, row, done, traced)], w, rows + [row], done, traced)
    ensures row.quick.cold && Callee(row.tx) !in done ==> Told(m, w, rows + [row], done, traced)
  {
    WithinMore(m, rows, row, Act(w, row, done, traced));
  }

  lemma WithinMore(m: map<string, Activity>, rows: seq<Row>, row: Row, a: Activity)
    requires Within(m, rows)
    ensures Within(m[row.tx.hash := a], rows + [row]) && Within(m, rows + [row])
  {
    var more := rows + [row];
    forall h | h in m[row.tx.hash := a] || h in m ensures exists i :: 0 <= i < |more| && more[i].tx.hash == h {
      if h in m {
        var i :| 0 <= i < |rows| && rows[i].tx.hash == h;
        assert more[i].tx.hash == h;
      } else {
        assert more[|rows|].tx.hash == h;
      }
    }
  }

  /** The rows of one callee, now with its names. */
  method ResolveOne(w: World, rows: seq<Row>, c: string) returns (batch: map<string, Activity>)
    requires DistinctRows(rows)
    ensures Batched(batch, w, rows, c)
  {
    var names := w.resolved(c);
    batch := map[];
    for k := 0 to |rows|
      invariant Within(batch, rows)
      invariant forall i | 0 <= i < |rows| :: rows[i].tx.hash in batch <==>
                i < k && rows[i].quick.cold && Callee(rows[i].tx) == c
      invariant forall i | 0 <= i < k && rows[i].quick.cold && Callee(rows[i].tx) == c ::
                  batch[rows[i].tx.hash] == Act(w, rows[i], {c}, {})
    {
      var row := rows[k];
      if row.quick.cold && Callee(row.tx) == c {
        var sel := Selector(row.tx);
        var verb := if sel in names && names[sel] != "" then names[sel] else sel;
        batch := batch[row.tx.hash := MakeActivity(verb, row.legs, sel, row.tx, w.symbols)];
      }
    }
  }

  /** One callee's batch: its rows, with its names. */
  ghost predicate Batched(batch: map<string, Activity>, w: World, rows: seq<Row>, c: string) {
    && Within(batch, rows)
    && (forall i | 0 <= i < |rows| :: rows[i].tx.hash in batch <==> rows[i].quick.cold && Callee(rows[i].tx) == c)
    && (forall i | 0 <= i < |rows| && rows[i].quick.cold && Callee(rows[i].tx) == c ::
          batch[rows[i].tx.hash] == Act(w, rows[i], {c}, {}))
  }

  lemma BatchedIsNamed(batch: map<string, Activity>, w: World, rows: seq<Row>, c: string)
    requires Batched(batch, w, rows, c)
    ensures Named(batch, w, rows)
  {
  }

  lemma ActStep(w: World, row: Row, c: string, done: set<string>)
    ensures row.quick.cold && Callee(row.tx) == c ==> Act(w, row, done + {c}, {}) == Act(w, row, {c}, {})
    ensures !(row.quick.cold && Callee(row.tx) == c) ==> Act(w, row, done + {c}, {}) == Act(w, row, done, {})
  {
  }

  lemma WithinUnion(a: map<string, Activity>, b: map<string, Activity>, rows: seq<Row>)
    requires Within(a, rows) && Within(b, rows)
    ensures Within(a + b, rows)
  {
    forall h | h in a + b ensures exists i :: 0 <= i < |rows| && rows[i].tx.hash == h {
      assert h in a || h in b;
    }
  }

  /** A callee's batch moves the result to the next stage, */
  lemma OutForward(w: World, rows: seq<Row>, c: string, done: set<string>, out: map<string, Activity>,
                   batch: map<string, Activity>)
    requires Shows(out, w, rows, done, {}) && Batched(batch, w, rows, c)
    ensures Shows(out + batch, w, rows, done + {c}, {})
  {
    WithinUnion(out, batch, rows);
    forall i | 0 <= i < |rows| ensures (out + batch)[rows[i].tx.hash] == Act(w, rows[i], done + {c}, {}) {
      ActStep(w, rows[i], c, done);
    }
  }

  /** and what a listener has been told. */
  lemma ToldForward(w: World, rows: seq<Row>, c: string, done: set<string>, told: map<string, Activity>,
                    batch: map<string, Activity>)
    requires Told(told, w, rows, done, {}) && Batched(batch, w, rows, c)
    ensures Told(told + batch, w, rows, done + {c}, {})
  {
    WithinUnion(told, batch, rows);
    forall i | 0 <= i < |rows| && (rows[i].quick.cold ==> Callee(rows[i].tx) in done + {c})
      ensures rows[i].tx.hash in told + batch && (told + batch)[rows[i].tx.hash] == Act(w, rows[i], done + {c}, {})
    {
      ActStep(w, rows[i], c, done);
    }
  }

  /** Pass 2: the callees whose names were not at hand, as their futures complete. */
  method ResolvePass(w: World, rows: seq<Row>, listening: bool, order: seq<string>, built: map<string, Activity>,
                     sent: seq<map<string, Activity>>)
    returns (out: map<string, Activity>, batches: seq<map<string, Activity>>)
    requires DistinctRows(rows) && ColdCallees(order, rows)
    requires Shows(built, w, rows, {}, {}) && (if listening then Told(Overlay(sent), w, rows, {}, {}) else sent == [])
    ensures Shows(out, w, rows, (set c | c in order), {})
    ensures if listening then Told(Overlay(batches), w, rows, (set c | c in order), {}) else batches == []
    ensures AllNamed(sent, w, rows) ==> AllNamed(batches, w, rows)
  {
    out, batches := built, sent;
    ghost var done: set<string> := {};
    for k := 0 to |order|
      invariant done == set c | c in order[..k]
      invariant Shows(out, w, rows, done, {})
      invariant if listening then Told(Overlay(batches), w, rows, done, {}) else batches == []
      invariant AllNamed(sent, w, rows) ==> AllNamed(batches, w, rows)
    {
      var batch := ResolveOne(w, rows, order[k]);
      OutForward(w, rows, order[k], done, out, batch);
      out := out + batch;
      if listening {
        ToldForward(w, rows, order[k], done, Overlay(batches), batch);
        OverlayAppend(batches, batch);
        BatchedIsNamed(batch, w, rows, order[k]);
        if AllNamed(batches, w, rows) {
          AllNamedMore(batches, batch, w, rows);
        }
        batches := batches + [batch];
      }
      assert order[..k + 1] == order[..k] + [order[k]];
      done := done + {order[k]};
    }
    assert order[..|order|] == order;
  }

  /** Pass 3: the received coin of one-sided swaps, read from traces. */
  method Traced(w: World, rows: seq<Row>, order: seq<nat>, ghost done: set<string>, start: map<string, Activity>)
    returns (out: map<string, Activity>, batch: map<string, Activity>)
    requires DistinctRows(rows) && TraceOrder(order, rows) && Shows(start, w, rows, done, {}) && w.canTrace
    ensures Shows(out, w, rows, done, set i | 0 <= i < |rows| :: rows[i].tx.hash)
    ensures Within(batch, rows)
    ensures forall i | 0 <= i < |rows| :: rows[i].tx.hash in batch <==> Gained(w, rows[i])
    ensures forall h | h in batch :: h in out && batch[h] == out[h]
  {
    out, batch := start, map[];
    ghost var traced: set<string> := {};
    for k := 0 to |order|
      invariant Shows(out, w, rows, done, traced) && GainedSoFar(out, batch, w, rows, traced)
      invariant traced == HashesOf(rows, order[..k])
    {
      var n := order[k];
      assert n in order;
      var row := rows[n];
      HashesOfMore(rows, order, k);
      var wei := w.trace(row.tx.hash);
      TraceStep(w, rows, done, traced, out, n);
      GainedStep(out, batch, w, rows, traced, n, WithNative(w, out[row.tx.hash]));
      if wei.Some? && wei.value > 0 {
        var a := out[row.tx.hash];
        out := out[row.tx.hash := WithNative(w, a)];
        batch := batch[row.tx.hash := WithNative(w, a)];
      }
      traced := traced + {row.tx.hash};
    }
    AllTraced(w, rows, order, done, out, traced);
  }

  /** The batch holds the rows that gained a coin, as the result shows them. */
  ghost predicate GainedSoFar(out: map<string, Activity>, batch: map<string, Activity>, w: World, rows: seq<Row>,
                              traced: set<string>)
  {
    && Within(batch, rows)
    && (forall i | 0 <= i < |rows| :: rows[i].tx.hash in batch <==> rows[i].tx.hash in traced && Gained(w, rows[i]))
    && (forall h | h in batch :: h in out && batch[h] == out[h])
  }

  lemma GainedStep(out: map<string, Activity>, batch: map<string, Activity>, w: World, rows: seq<Row>,
                   traced: set<string>, n: nat, a: Activity)
    requires DistinctRows(rows) && n < |rows| && GainedSoFar(out, batch, w, rows, traced)
    requires rows[n].tx.hash !in traced
    ensures var h := rows[n].tx.hash;
            if Gained(w, rows[n]) then GainedSoFar(out[h := a], batch[h := a], w, rows, traced + {h})
            else GainedSoFar(out, batch, w, rows, traced + {h})
  {
    assert forall i | 0 <= i < |rows| && i != n :: rows[i].tx.hash != rows[n].tx.hash;
  }

  ghost function HashesOf(rows: seq<Row>, order: seq<nat>): set<string> {
    set n | n in order && n < |rows| :: rows[n].tx.hash
  }

  lemma HashesOfMore(rows: seq<Row>, order: seq<nat>, k: nat)
    requires k < |order| && order[k] < |rows| && DistinctRows(rows)
    requires forall i, j | 0 <= i < j < |order| :: order[i] != order[j]
    ensures HashesOf(rows, order[..k + 1]) == HashesOf(rows, order[..k]) + {rows[order[k]].tx.hash}
    ensures rows[order[k]].tx.hash !in HashesOf(rows, order[..k])
  {
    assert order[..k + 1] == order[..k] + [order[k]];
  }

  /** Looking at one more target. */
  lemma TraceStep(w: World, rows: seq<Row>, done: set<string>, traced: set<string>, out: map<string, Activity>, n: nat)
    requires DistinctRows(rows) && Shows(out, w, rows, done, traced) && n < |rows| && rows[n].tx.hash !in traced
    ensures Gained(w, rows[n]) ==> Shows(out[rows[n].tx.hash := WithNative(w, out[rows[n].tx.hash])], w, rows, done,
            traced + {rows[n].tx.hash})
    ensures !Gained(w, rows[n]) ==> Shows(out, w, rows, done, traced + {rows[n].tx.hash})
  {
    var more := traced + {rows[n].tx.hash};
    forall i | 0 <= i < |rows| && i != n ensures Act(w, rows[i], done, more) == Act(w, rows[i], done, traced) {
      assert rows[i].tx.hash != rows[n].tx.hash;
    }
  }

  /** Once every target was looked at, nothing is gained by looking at the rest. */
  lemma AllTraced(w: World, rows: seq<Row>, order: seq<nat>, done: set<string>, out: map<string, Activity>,
                  traced: set<string>)
    requires TraceOrder(order, rows) && traced == HashesOf(rows, order[..|order|]) && Shows(out, w, rows, done, traced)
    ensures Shows(out, w, rows, done, set i | 0 <= i < |rows| :: rows[i].tx.hash)
    ensures forall i | 0 <= i < |rows| && Gained(w, rows[i]) :: rows[i].tx.hash in traced
  {
    assert order[..|order|] == order;
    var all := set i | 0 <= i < |rows| :: rows[i].tx.hash;
    forall i | 0 <= i < |rows| ensures Gained(w, rows[i]) ==> rows[i].tx.hash in traced {
      if Gained(w, rows[i]) {
        assert i in order;
      }
    }
    forall i | 0 <= i < |rows| ensures Act(w, rows[i], done, all) == Act(w, rows[i], done, traced) {
      assert rows[i].tx.hash in all;
    }
  }

  lemma SameOnRows(a: map<string, Activity>, b: map<string, Activity>, rows: seq<Row>)
    requires Within(a, rows) && Within(b, rows)
    requires forall i | 0 <= i < |rows| ::
             rows[i].tx.hash in a && rows[i].tx.hash in b && a[rows[i].tx.hash] == b[rows[i].tx.hash]
    ensures a == b
  {
    forall h | h in a || h in b ensures h in a && h in b && a[h] == b[h] {
      var i :| 0 <= i < |rows| && rows[i].tx.hash == h;
      assert a[rows[i].tx.hash] == b[rows[i].tx.hash];
    }
  }

  lemma TraceForward(w: World, rows: seq<Row>, done: set<string>, out: map<string, Activity>,
                     told: map<string, Activity>, batch: map<string, Activity>, traced: set<string>)
    requires DistinctRows(rows) && traced == set i | 0 <= i < |rows| :: rows[i].tx.hash
    requires forall i | 0 <= i < |rows| && rows[i].quick.cold :: Callee(rows[i].tx) in done
    requires Shows(out, w, rows, done, traced) && Told(told, w, rows, done, {}) && Within(batch, rows)
    requires forall i | 0 <= i < |rows| :: rows[i].tx.hash in batch <==> Gained(w, rows[i])
    requires forall h | h in batch :: h in out && batch[h] == out[h]
    ensures told + batch == out
  {
    forall i | 0 <= i < |rows|
      ensures rows[i].tx.hash in told + batch && (told + batch)[rows[i].tx.hash] == out[rows[i].tx.hash]
    {
      if !Gained(w, rows[i]) {
        assert rows[i].tx.hash !in batch;
        assert Act(w, rows[i], done, {}) == Act(w, rows[i], done, traced);
      }
    }
    WithinUnion(told, batch, rows);
    SameOnRows(told + batch, out, rows);
  }

  /** Every row, and nothing else, with its final activity. */
  ghost predicate IsFinal(out: map<string, Activity>, w: World, rows: seq<Row>) {
    Within(out, rows) && forall i | 0 <= i < |rows| ::
      rows[i].tx.hash in out && out[rows[i].tx.hash] == Final(w, rows[i])
  }

  lemma ToldAllIsFinal(w: World, rows: seq<Row>, done: set<string>, traced: set<string>, out: map<string, Activity>)
    requires forall i | 0 <= i < |rows| && rows[i].quick.cold :: Callee(rows[i].tx) in done
    requires Shows(out, w, rows, done, traced)
    requires forall i | 0 <= i < |rows| :: rows[i].tx.hash in traced || !Gained(w, rows[i])
    ensures IsFinal(out, w, rows)
  {
  }

  /** The result is the same whatever the order of completion. */
  lemma FinalIsUnique(w: World, rows: seq<Row>, a: map<string, Activity>, b: map<string, Activity>)
    requires IsFinal(a, w, rows) && IsFinal(b, w, rows)
    ensures a == b
  {
    SameOnRows(a, b, rows);
  }

  lemma ToldAllEquals(w: World, rows: seq<Row>, done: set<string>, out: map<string, Activity>,
                      told: map<string, Activity>)
    requires forall i | 0 <= i < |rows| && rows[i].quick.cold :: Callee(rows[i].tx) in done
    requires Shows(out, w, rows, done, {}) && Told(told, w, rows, done, {})
    ensures told == out
  {
    SameOnRows(told, out, rows);
  }

  // What a row shows, on the transaction and what was read alone.

  predicate IsApproval(tx: Tx) {
    Lower(tx.methodId) == "0x095ea7b3" && tx.toAddr.Some? && tx.toAddr.value != ""
  }

  /** Nothing was received for a token sent, and the trace found some coin. */
  ghost predicate Recovered(w: World, tx: Tx) {
    && w.canTrace && tx.success && SentToken(w, tx) && (forall key :: !Incoming(w, tx, key))
    && Lower(tx.methodId) !in ["0x095ea7b3", "0xa9059cbb", "0x23b872dd"]
    && w.trace(tx.hash).Some? && w.trace(tx.hash).value > 0
  }

  /** The two sides of a row: what the viewer sent, and what it received. */
  ghost predicate BothSides(out: seq<Leg>, inn: seq<Leg>, w: World, tx: Tx) {
    && DistinctLegs(out) && DistinctLegs(inn)
    && (forall key :: Has(out, key) <==> Outgoing(w, tx, key))
    && (forall key :: Has(inn, key) <==>
          Incoming(w, tx, key) || (key == "native:" + w.native && Recovered(w, tx)))
    && var rows := if Lower(tx.hash) in w.tokens then w.tokens[Lower(tx.hash)] else [];
       FromRows(out, w.native, rows) && FromRows(inn, w.native, rows)
  }

  /** An approval shows the approved token alone; any other row shows what the
      viewer sent and what it received. */
  ghost predicate Pictured(a: Activity, w: World, tx: Tx) {
    && (a.muted <==> !tx.success)
    && if IsApproval(tx) then
         var token := Lower(tx.toAddr.value);
         && !a.showArrow && a.inn == []
         && a.out == [Leg(if token in w.symbols then w.symbols[token] else "?", Some(token))]
       else
         a.showArrow && BothSides(a.out, a.inn, w, tx)
  }

  ghost predicate SidesMeant(legs: Legs, w: World, tx: Tx) {
    && (forall key :: Has(legs.out, key) <==> Outgoing(w, tx, key))
    && (forall key :: Has(legs.inn, key) <==> Incoming(w, tx, key))
  }

  lemma CoinsMeant(w: World, tx: Tx)
    ensures SidesMeant(Coins(w, tx), w, tx)
  {
    forall key
      ensures Has(Coins(w, tx).out, key) <==> Outgoing(w, tx, key)
      ensures Has(Coins(w, tx).inn, key) <==> Incoming(w, tx, key)
    {
      CoinsMeaning(w, tx, key);
    }
  }

  /** The coin alone on a side. */
  lemma CoinAlone(native: string)
    ensures [] + [Leg(native, None)] == [Leg(native, None)]
    ensures forall key :: Has([Leg(native, None)], key) <==> key == "native:" + native
  {
    assert LegKey([Leg(native, None)][0]) == "native:" + native;
  }

  lemma GainedMeaning(w: World, tx: Tx, quick: Quick)
    ensures Gained(w, Row(tx, quick, Coins(w, tx))) <==> Recovered(w, tx)
    ensures Recovered(w, tx) ==> Coins(w, tx).inn == []
  {
    var legs := Coins(w, tx);
    TokenListedMeaning(w, tx);
    CoinsMeant(w, tx);
    if legs.inn != [] {
      assert Has(legs.inn, LegKey(legs.inn[0]));
    }
  }

  /** The two shapes of a final row. */
  lemma FinalShape(w: World, tx: Tx, quick: Quick)
    ensures var row := Row(tx, quick, Coins(w, tx));
            Final(w, row) ==
            if IsApproval(tx) then
              var token := Lower(tx.toAddr.value);
              Activity(FinalVerb(w, row), [Leg(if token in w.symbols then w.symbols[token] else "?", Some(token))], [],
                       false, !tx.success)
            else
              Activity(FinalVerb(w, row), row.legs.out, if Recovered(w, tx) then [Leg(w.native, None)]
                else row.legs.inn,
                       true, !tx.success)
  {
    GainedMeaning(w, tx, quick);
    CoinAlone(w.native);
  }

  lemma FinalPictured(w: World, tx: Tx, quick: Quick)
    ensures Pictured(Final(w, Row(tx, quick, Coins(w, tx))), w, tx)
  {
    FinalShape(w, tx, quick);
    if !IsApproval(tx) {
      RowSides(w, tx);
    }
  }

  /** What the two sides of such a row mean. */
  lemma RowSides(w: World, tx: Tx)
    ensures var inn := if Recovered(w, tx) then [Leg(w.native, None)] else Coins(w, tx).inn;
            BothSides(Coins(w, tx).out, inn, w, tx)
  {
    CoinsMeant(w, tx);
    CoinsAreDistinct(w, tx);
    CoinsFromRows(w, tx);
    CoinAlone(w.native);
  }

  /** The transaction has a contract to ask for names. */
  predicate Asks(tx: Tx, c: string) {
    Lower(tx.methodId) !in ["", "0x"] && tx.toAddr.Some? && tx.toAddr.value != "" && Lower(tx.toAddr.value) == c
  }

  /** None of the first `n` lookups of a pass finds names for the contract; */
  ghost predicate NoHit(w: World, pass_: nat, txs: seq<Tx>, n: nat, c: string)
    requires n <= |txs|
  {
    forall m: nat | m < n && Asks(txs[m], c) :: w.disk(pass_, m, c).None?
  }

  /** or the first that does finds these. */
  ghost predicate FirstHit(w: World, pass_: nat, txs: seq<Tx>, n: nat, c: string, names: Names)
    requires n <= |txs|
  {
    exists m: nat :: m < n && Asks(txs[m], c) && w.disk(pass_, m, c) == Some(names) && NoHit(w, pass_, txs, m, c)
  }

  lemma {:induction false} MapsExactly(w: World, maps: map<string, Names>, pass_: nat, txs: seq<Tx>, n: nat, c: string)
    requires n <= |txs| && c !in maps
    ensures var after := MapsAfter(w, maps, pass_, txs, n);
            if c in after then FirstHit(w, pass_, txs, n, c, after[c]) else NoHit(w, pass_, txs, n, c)
    decreases n
  {
    if n > 0 {
      MapsExactly(w, maps, pass_, txs, n - 1, c);
    }
  }

  /** The names at hand for the `i`-th transaction: the first found for its
      callee, in pass 0 or up to its turn in pass 1. */
  ghost predicate AtHand(w: World, txs: seq<Tx>, i: nat, listening: bool, c: string, names: Names)
    requires i < |txs|
  {
    || (listening && FirstHit(w, 0, txs, |txs|, c, names))
    || ((listening ==> NoHit(w, 0, txs, |txs|, c)) && FirstHit(w, 1, txs, i + 1, c, names))
  }

  ghost predicate NoneAtHand(w: World, txs: seq<Tx>, i: nat, listening: bool, c: string)
    requires i < |txs|
  {
    (listening ==> NoHit(w, 0, txs, |txs|, c)) && NoHit(w, 1, txs, i + 1, c)
  }

  /** "send", "deploy", the name at hand for the selector, or the resolved name,
      or the selector itself. */
  ghost predicate Verbed(verb: string, w: World, txs: seq<Tx>, i: nat, listening: bool)
    requires i < |txs|
  {
    var sel := Lower(txs[i].methodId);
    if sel in ["", "0x"] then verb == "send"
    else if txs[i].toAddr.None? then verb == "deploy"
    else
      var c := Lower(txs[i].toAddr.value);
      || (exists names :: AtHand(w, txs, i, listening, c, names) && sel in names && verb == names[sel])
      || ((NoneAtHand(w, txs, i, listening, c) || exists names ::
         AtHand(w, txs, i, listening, c, names) && sel !in names)
          && verb == if sel in w.resolved(c) && w.resolved(c)[sel] != "" then w.resolved(c)[sel] else sel)
  }

  lemma NamesAtHand(w: World, txs: seq<Tx>, i: nat, listening: bool, c: string)
    requires i < |txs|
    ensures var maps := MapsAfter(w, MapsBefore(w, txs, listening), 1, txs, i + 1);
            if c in maps then AtHand(w, txs, i, listening, c, maps[c]) else NoneAtHand(w, txs, i, listening, c)
  {
    var before := MapsBefore(w, txs, listening);
    if listening {
      MapsExactly(w, map[], 0, txs, |txs|, c);
    }
    if c in before {
      assert MapsAfter(w, before, 1, txs, 0) == before;
      NamesStick(w, before, 1, txs, 0, i + 1, c);
    } else {
      MapsExactly(w, before, 1, txs, i + 1, c);
    }
  }

  lemma FinalVerbed(w: World, txs: seq<Tx>, i: nat, listening: bool)
    requires i < |txs|
    ensures Verbed(FinalVerb(w, RowAt(w, MapsBefore(w, txs, listening), txs, i)), w, txs, i, listening)
  {
    var tx := txs[i];
    if tx.toAddr.Some? {
      NamesAtHand(w, txs, i, listening, Lower(tx.toAddr.value));
      assert tx.toAddr.value == "" ==> NoneAtHand(w, txs, i, listening, Lower(tx.toAddr.value));
    }
  }

  lemma RowMeaning(w: World, txs: seq<Tx>, listening: bool, i: nat)
    requires i < |txs|
    ensures var a := Final(w, RowAt(w, MapsBefore(w, txs, listening), txs, i));
            Pictured(a, w, txs[i]) && Verbed(a.verb, w, txs, i, listening)
  {
    FinalPictured(w, txs[i], QuickAt(w, MapsBefore(w, txs, listening), 1, txs, i));
    FinalVerbed(w, txs, i, listening);
    FinalShape(w, txs[i], QuickAt(w, MapsBefore(w, txs, listening), 1, txs, i));
  }

  /** The whole result on what was read: a row for every transaction. */
  lemma FinalMeaning(w: World, txs: seq<Tx>, listening: bool, out: map<string, Activity>)
    requires IsFinal(out, w, RowsFrom(w, MapsBefore(w, txs, listening), txs))
    ensures forall h | h in out :: exists i :: 0 <= i < |txs| && txs[i].hash == h
    ensures forall i | 0 <= i < |txs| ::
              txs[i].hash in out && Pictured(out[txs[i].hash], w, txs[i])
              && Verbed(out[txs[i].hash].verb, w, txs, i, listening)
  {
    var rows := RowsFrom(w, MapsBefore(w, txs, listening), txs);
    forall h | h in out ensures exists i :: 0 <= i < |txs| && txs[i].hash == h {
      var i :| 0 <= i < |rows| && rows[i].tx.hash == h;
      assert txs[i].hash == h;
    }
    forall i | 0 <= i < |txs|
      ensures txs[i].hash in out && Pictured(out[txs[i].hash], w, txs[i])
      ensures Verbed(out[txs[i].hash].verb, w, txs, i, listening)
    {
      RowMeaning(w, txs, listening, i);
      assert rows[i] == RowAt(w, MapsBefore(w, txs, listening), txs, i);
    }
  }

  /** The last pass, run unless there is no node to ask. */
  method TracePass(w: World, rows: seq<Row>, listening: bool, order: seq<nat>, ghost done: set<string>,
                   before: map<string, Activity>, sent: seq<map<string, Activity>>)
    returns (out: map<string, Activity>, batches: seq<map<string, Activity>>)
    requires DistinctRows(rows) && TraceOrder(order, rows)
    requires forall i | 0 <= i < |rows| && rows[i].quick.cold :: Callee(rows[i].tx) in done
    requires Shows(before, w, rows, done, {}) &&
             (if listening then Told(Overlay(sent), w, rows, done, {}) else sent == [])
    ensures IsFinal(out, w, rows)
    ensures if listening then Overlay(batches) == out else batches == []
    ensures AllNamed(sent, w, rows) ==> AllNamed(batches, w, rows)
  {
    out, batches := before, sent;
    if !w.canTrace {
      ToldAllIsFinal(w, rows, done, {}, out);
      if listening {
        ToldAllEquals(w, rows, done, out, Overlay(sent));
      }
      return;
    }
    var batch;
    out, batch := Traced(w, rows, order, done, before);
    ghost var traced := set i | 0 <= i < |rows| :: rows[i].tx.hash;
    assert forall i | 0 <= i < |rows| :: rows[i].tx.hash in traced;
    ToldAllIsFinal(w, rows, done, traced, out);
    if listening {
      TraceForward(w, rows, done, out, Overlay(sent), batch, traced);
      FinalIsNamed(w, rows, out, batch);
      batches := Emit(sent, batch, w, rows);
    }
  }

  lemma FinalIsNamed(w: World, rows: seq<Row>, out: map<string, Activity>, batch: map<string, Activity>)
    requires IsFinal(out, w, rows) && forall h | h in batch :: h in out && batch[h] == out[h]
    ensures Named(batch, w, rows)
  {
  }

  lemma EmptyBatch(told: map<string, Activity>, batch: map<string, Activity>)
    requires batch == map[]
    ensures told + batch == told
  {
  }

  lemma DistinctFromTxs(txs: seq<Tx>, rows: seq<Row>)
    requires DistinctHashes(txs) && |rows| == |txs| && forall i | 0 <= i < |txs| :: rows[i].tx == txs[i]
    ensures DistinctRows(rows)
  {
  }

  /** Loaded names stick for the rest of the build. */
  lemma {:induction false} NamesStick(w: World, maps: map<string, Names>, pass_: nat, txs: seq<Tx>, m: nat, n: nat,
                                      c: string)
    requires m <= n <= |txs| && c in MapsAfter(w, maps, pass_, txs, m)
    ensures c in MapsAfter(w, maps, pass_, txs, n) &&
            MapsAfter(w, maps, pass_, txs, n)[c] == MapsAfter(w, maps, pass_, txs, m)[c]
    decreases n
  {
    if m < n {
      NamesStick(w, maps, pass_, txs, m, n - 1, c);
    }
  }

  /** A verb shown by pass 0 is final: pass 1 finds the same one, whatever the
      cache on disk has become in between. */
  lemma EarlyVerbsAreFinal(w: World, txs: seq<Tx>, n: nat)
    requires n < |txs| && !QuickAt(w, map[], 0, txs, n).cold
    ensures QuickAt(w, MapsBefore(w, txs, true), 1, txs, n) == QuickAt(w, map[], 0, txs, n)
  {
    var tx, c := txs[n], Callee(txs[n]);
    var before := MapsBefore(w, txs, true);
    if NeedsNames(tx) {
      NamesStick(w, map[], 0, txs, n + 1, |txs|, c);
      assert c in MapsAfter(w, before, 1, txs, 0);
      NamesStick(w, before, 1, txs, 0, n + 1, c);
    }
  }

  lemma EarlyIsNamed(w: World, txs: seq<Tx>, rows: seq<Row>, early: map<string, Activity>)
    requires rows == RowsFrom(w, MapsBefore(w, txs, true), txs) && VerbsOnly(early, w, txs, |txs|)
    ensures Named(early, w, rows)
  {
    forall i | 0 <= i < |rows| && rows[i].tx.hash in early
      ensures early[rows[i].tx.hash].verb == FinalVerb(w, rows[i])
    {
      EarlyVerbsAreFinal(w, txs, i);
    }
  }

  /** What pass 0 showed is overwritten by the rows of pass 1. */
  lemma EarlyOverwritten(w: World, txs: seq<Tx>, rows: seq<Row>, early: map<string, Activity>,
                         first: map<string, Activity>)
    requires |rows| == |txs| && forall i | 0 <= i < |txs| :: rows[i].tx == txs[i]
    requires forall h | h in early :: exists i :: 0 <= i < |txs| && txs[i].hash == h
    requires Told(first, w, rows, {}, {})
    ensures Told(early + first, w, rows, {}, {})
  {
    forall h | h in early + first ensures exists i :: 0 <= i < |rows| && rows[i].tx.hash == h {
      if h in early {
        var i :| 0 <= i < |txs| && txs[i].hash == h;
        assert rows[i].tx.hash == h;
      }
    }
  }

  /** Batches are emitted unless they are empty. */
  method Emit(sent: seq<map<string, Activity>>, batch: map<string, Activity>, ghost w: World, ghost rows: seq<Row>)
    returns (batches: seq<map<string, Activity>>)
    ensures Overlay(batches) == Overlay(sent) + batch
    ensures AllNamed(sent, w, rows) && Named(batch, w, rows) ==> AllNamed(batches, w, rows)
  {
    if batch == map[] {
      EmptyBatch(Overlay(sent), batch);
      return sent;
    }
    OverlayAppend(sent, batch);
    if AllNamed(sent, w, rows) && Named(batch, w, rows) {
      AllNamedMore(sent, batch, w, rows);
    }
    batches := sent + [batch];
  }

  /** Passes 0 and 1. */
  method FirstPasses(w: World, txs: seq<Tx>, listening: bool)
    returns (rows: seq<Row>, built: map<string, Activity>, batches: seq<map<string, Activity>>)
    requires DistinctHashes(txs)
    ensures rows == RowsFrom(w, MapsBefore(w, txs, listening), txs) && DistinctRows(rows)
    ensures Shows(built, w, rows, {}, {}) &&
            (if listening then Told(Overlay(batches), w, rows, {}, {}) else batches == [])
    ensures AllNamed(batches, w, rows)
  {
    var early, maps := map[], map[];
    if listening {
      early, maps := Early(w, txs);
    }
    var first;
    rows, built, first := Coined(w, txs, maps);
    DistinctFromTxs(txs, rows);
    batches := [];
    if listening {
      EarlyOverwritten(w, txs, rows, early, first);
      EarlyIsNamed(w, txs, rows, early);
      batches := EmitBoth(w, rows, early, first);
    }
  }

  /** What a listener has got after passes 0 and 1. */
  method EmitBoth(w: World, rows: seq<Row>, early: map<string, Activity>, first: map<string, Activity>)
    returns (batches: seq<map<string, Activity>>)
    requires Named(early, w, rows) && Named(first, w, rows)
    ensures Overlay(batches) == early + first && AllNamed(batches, w, rows)
  {
    assert Overlay([]) + early == early;
    batches := Emit([], early, w, rows);
    batches := Emit(batches, first, w, rows);
  }

  /** Passes 2 and 3. */
  method LastPasses(w: World, rows: seq<Row>, listening: bool, resolveOrder: seq<string>, traceOrder: seq<nat>,
                    built: map<string, Activity>, sent: seq<map<string, Activity>>)
    returns (out: map<string, Activity>, batches: seq<map<string, Activity>>)
    requires DistinctRows(rows) && ColdCallees(resolveOrder, rows) && TraceOrder(traceOrder, rows)
    requires Shows(built, w, rows, {}, {}) && AllNamed(sent, w, rows)
    requires if listening then Told(Overlay(sent), w, rows, {}, {}) else sent == []
    ensures IsFinal(out, w, rows) && AllNamed(batches, w, rows)
    ensures if listening then Overlay(batches) == out else batches == []
  {
    var refined, resolved := ResolvePass(w, rows, listening, resolveOrder, built, sent);
    out, batches := TracePass(w, rows, listening, traceOrder, (set c | c in resolveOrder), refined, resolved);
  }

  /** The whole build: the dictionary returned, and the batches emitted. The
      futures complete in the given orders. */
  method FetchActivities(w: World, txs: seq<Tx>, listening: bool, resolveOrder: seq<string>, traceOrder: seq<nat>)
    returns (out: map<string, Activity>, batches: seq<map<string, Activity>>)
    requires DistinctHashes(txs)
    requires ColdCallees(resolveOrder, RowsFrom(w, MapsBefore(w, txs, listening), txs))
    requires TraceOrder(traceOrder, RowsFrom(w, MapsBefore(w, txs, listening), txs))
    ensures IsFinal(out, w, RowsFrom(w, MapsBefore(w, txs, listening), txs))
    ensures forall h | h in out :: exists i :: 0 <= i < |txs| && txs[i].hash == h
    ensures forall i | 0 <= i < |txs| ::
              txs[i].hash in out && Pictured(out[txs[i].hash], w, txs[i])
              && Verbed(out[txs[i].hash].verb, w, txs, i, listening)
    ensures if listening then Overlay(batches) == out else batches == []
    ensures AllNamed(batches, w, RowsFrom(w, MapsBefore(w, txs, listening), txs))
  {
    var rows, built, sent := FirstPasses(w, txs, listening);
    out, batches := LastPasses(w, rows, listening, resolveOrder, traceOrder, built, sent);
    FinalMeaning(w, txs, listening, out);
  }
}

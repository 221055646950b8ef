/** Which chain each dapp sees, and what it was last told (qeth/rpc.py and the
    chain fields of qeth/store.py), as an asyncio step system: every await-free
    segment is one step, and a segment ends where a send waits for its socket. */
module RpcChains {
  import opened Options

  datatype Chain = Chain(id: nat, evm: bool)

  /** A chainChanged subscription, as its socket's dictionary lists it. */
  datatype Entry = Entry(id: nat, origin: Option<string>)

  /** Whom a broadcast is for: after a pick, the subscriptions whose origin has
      not pinned a chain; after a dapp's switch, those of its origin, and with
      no origin all of them. */
  datatype Filter = Unpinned | Only(origin: Option<string>)

  /** Where a broadcast is: queued on the loop; in a send, with the rest of that
      socket's list as it was on arrival, its ticket telling when the send asked
      for the socket's lock; or done. */
  datatype Cursor = Scheduled
                  | Held(socket: nat, entry: Entry, rest: seq<Entry>, ticket: nat)
                  | Finished

  /** A broadcast visits the first `limit` sockets, those listed when it started. */
  datatype Broadcast = Broadcast(filter: Filter, chain: nat, limit: nat, cursor: Cursor)

  /** The Qt thread, between storing a pick and announcing it. */
  datatype Ui = Idle | Announcing(chain: nat)

  /** `seen` is the last chain id each subscription learned: from its dapp's own
      query when subscribing, then by push. */
  datatype State = State(
    chains: seq<Chain>,
    current: nat,
    dapp: nat,
    overrides: map<string, nat>,
    sockets: seq<seq<Entry>>,
    ids: nat,
    seen: map<nat, nat>,
    casts: seq<Broadcast>,
    tickets: nat,
    ui: Ui)

  // The store's view.

  predicate IsEvm(chains: seq<Chain>, id: nat) {
    exists c :: c in chains && c.id == id && c.evm
  }

  function FindChain(chains: seq<Chain>, id: nat): Option<Chain> {
    if chains == [] then None
    else if chains[0].id == id then Some(chains[0])
    else FindChain(chains[1..], id)
  }

  function FindEvm(chains: seq<Chain>, id: nat): Option<Chain> {
    if chains == [] then None
    else if chains[0].id == id && chains[0].evm then Some(chains[0])
    else FindEvm(chains[1..], id)
  }

  function FirstEvm(chains: seq<Chain>): Option<Chain> {
    if chains == [] then None
    else if chains[0].evm then Some(chains[0])
    else FirstEvm(chains[1..])
  }

  /** `Store.current_chain`: the chain with the current id, else the first. */
  function CurrentChain(s: State): Chain
    requires s.chains != []
  {
    match FindChain(s.chains, s.current) case Some(c) => c case None => s.chains[0]
  }

  /** `Store.dapp_chain`. */
  function DappChain(s: State): Chain
    requires s.chains != []
  {
    var cur := CurrentChain(s);
    if cur.evm then cur
    else
      match FindEvm(s.chains, s.dapp)
      case Some(c) => c
      case None => match FirstEvm(s.chains) case Some(c) => c case None => cur
  }

  function Slot(origin: Option<string>): string {
    match origin case None => "" case Some(o) => o
  }

  /** `_chain_for_origin`. */
  function ChainForOrigin(s: State, origin: Option<string>): nat
    requires s.chains != []
  {
    if Slot(origin) in s.overrides then s.overrides[Slot(origin)] else DappChain(s).id
  }

  // How a broadcast goes over the sockets.

  predicate Matches(overrides: map<string, nat>, f: Filter, origin: Option<string>) {
    match f
    case Unpinned => Slot(origin) !in overrides
    case Only(o) => o.None? || origin == o
  }

  /** From what is left of socket `p`, the next subscription to be told. A
      socket's list is taken on reaching it, the filter applied entry by entry. */
  function Scan(overrides: map<string, nat>, sockets: seq<seq<Entry>>, f: Filter, p: nat, rest: seq<Entry>,
                limit: nat, ticket: nat): Cursor
    decreases if p < |sockets| then |sockets| - p else 0, |rest|
  {
    if rest != [] then
      if Matches(overrides, f, rest[0].origin) then Held(p, rest[0], rest[1..], ticket)
      else Scan(overrides, sockets, f, p, rest[1..], limit, ticket)
    else if p + 1 < limit && p + 1 < |sockets| then Scan(overrides, sockets, f, p + 1, sockets[p + 1], limit, ticket)
    else Finished
  }

  function Begin(overrides: map<string, nat>, sockets: seq<seq<Entry>>, f: Filter, ticket: nat): Cursor {
    if sockets == [] then Finished else Scan(overrides, sockets, f, 0, sockets[0], |sockets|, ticket)
  }

  function Resume(s: State, c: Broadcast): Cursor
    requires c.cursor.Held?
  {
    Scan(s.overrides, s.sockets, c.filter, c.cursor.socket, c.cursor.rest, c.limit, s.tickets)
  }

  // Steps.

  datatype Event = UiSet(chain: nat)
                 | UiAnnounce
                 | NewChain(chain: nat)
                 | Switch(origin: Option<string>, chain: nat)
                 | Open
                 | Subscribe(socket: nat, origin: Option<string>)
                 | Unsubscribe(socket: nat, at: nat)
                 | Start(cast: nat)
                 | Deliver(cast: nat)

  predicate Enabled(s: State, e: Event) {
    s.chains != [] &&
    match e
    case UiSet(c) => s.ui.Idle? && FindChain(s.chains, c).Some?
    case UiAnnounce => s.ui.Announcing?
    case NewChain(c) => FindChain(s.chains, c).None?
    case Switch(_, _) => true
    case Open => true
    case Subscribe(p, _) => p < |s.sockets|
    case Unsubscribe(p, n) => p < |s.sockets| && n < |s.sockets[p]|
    case Start(k) =>
      k < |s.casts| && s.casts[k].cursor.Scheduled? && forall i | 0 <= i < k :: !s.casts[i].cursor.Scheduled?
    case Deliver(k) => k < |s.casts| && s.casts[k].cursor.Held? && FirstInLine(s.casts, k)
  }

  /** A socket's lock is first come, first served. */
  predicate FirstInLine(casts: seq<Broadcast>, k: nat)
    requires k < |casts| && casts[k].cursor.Held?
  {
    forall i | 0 <= i < |casts| && i != k && casts[i].cursor.Held? &&
           casts[i].cursor.socket == casts[k].cursor.socket ::
      casts[k].cursor.ticket < casts[i].cursor.ticket
  }

  function Told(seen: map<nat, nat>, id: nat, chain: nat): map<nat, nat> {
    if id in seen then seen[id := chain] else seen
  }

  function Apply(s: State, e: Event): State
    requires Enabled(s, e)
  {
    match e
    case UiSet(c) =>
      s.(current := c, dapp := if IsEvm(s.chains, c) then c else s.dapp, ui := Announcing(c))
    case UiAnnounce =>
      var told := s.(ui := Idle);
      if CurrentChain(s).evm then told.(casts := s.casts + [Broadcast(Unpinned, s.ui.chain, 0, Scheduled)]) else told
    case NewChain(c) =>
      s.(chains := s.chains + [Chain(c, true)])
    case Switch(origin, c) =>
      if !IsEvm(s.chains, c) then s
      else
        var overrides := s.overrides[Slot(origin) := c];
        var cursor := Begin(overrides, s.sockets, Only(origin), s.tickets);
        s.(overrides := overrides, tickets := s.tickets + 1,
           casts := s.casts + [Broadcast(Only(origin), c, |s.sockets|, cursor)])
    case Open =>
      s.(sockets := s.sockets + [[]])
    case Subscribe(p, origin) =>
      s.(sockets := s.sockets[p := s.sockets[p] + [Entry(s.ids, origin)]], ids := s.ids + 1,
         seen := s.seen[s.ids := ChainForOrigin(s, origin)])
    case Unsubscribe(p, n) =>
      s.(sockets := s.sockets[p := s.sockets[p][..n] + s.sockets[p][n + 1..]], seen := s.seen - {s.sockets[p][n].id})
    case Start(k) =>
      var cursor := Begin(s.overrides, s.sockets, s.casts[k].filter, s.tickets);
      s.(casts := s.casts[k := s.casts[k].(limit := |s.sockets|, cursor := cursor)], tickets := s.tickets + 1)
    case Deliver(k) =>
      var c := s.casts[k];
      s.(casts := s.casts[k := c.(cursor := Resume(s, c))], tickets := s.tickets + 1,
         seen := Told(s.seen, c.cursor.entry.id, c.chain))
  }

  ghost predicate Runs(s: State, es: seq<Event>, t: State)
    decreases |es|
  {
    if es == [] then s == t
    else Enabled(s, es[0]) && Runs(Apply(s, es[0]), es[1..], t)
  }

  /** Every switch names the dapp that made it. */
  predicate ScopedSwitches(es: seq<Event>) {
    forall i | 0 <= i < |es| :: es[i].Switch? ==> es[i].origin.Some?
  }

  /** All broadcasts are through, and no pick is waiting to be announced. */
  predicate Quiet(s: State) {
    s.ui.Idle? && forall i | 0 <= i < |s.casts| :: s.casts[i].cursor.Finished?
  }

  /** The wallet has moved to an EVM chain and not said so yet. */
  predicate Unannounced(s: State)
    requires s.chains != []
  {
    s.ui.Announcing? && CurrentChain(s).evm
  }

  /** The store: chain ids unique, the current chain known, and, whenever it is
      EVM, also the dapp chain, which is EVM. */
  ghost predicate StoreInv(s: State) {
    && s.chains != []
    && (forall i, j | 0 <= i < j < |s.chains| :: s.chains[i].id != s.chains[j].id)
    && FindChain(s.chains, s.current).Some?
    && IsEvm(s.chains, s.dapp)
    && (CurrentChain(s).evm ==> s.dapp == s.current)
  }

  // Store lemmas.

  lemma {:induction false} FindChainMeaning(chains: seq<Chain>, id: nat)
    ensures FindChain(chains, id).Some? <==> exists i :: 0 <= i < |chains| && chains[i].id == id
    ensures FindChain(chains, id).Some? ==>
            FindChain(chains, id).value in chains && FindChain(chains, id).value.id == id
  {
    if chains != [] && chains[0].id != id {
      FindChainMeaning(chains[1..], id);
      if i :| 0 <= i < |chains| && chains[i].id == id {
        assert chains[1..][i - 1].id == id;
      }
      if j :| 0 <= j < |chains[1..]| && chains[1..][j].id == id {
        assert chains[j + 1].id == id;
      }
    }
  }

  lemma {:induction false} FindEvmMeaning(chains: seq<Chain>, id: nat)
    ensures FindEvm(chains, id).Some? <==> IsEvm(chains, id)
    ensures FindEvm(chains, id).Some? ==> FindEvm(chains, id).value.id == id && FindEvm(chains, id).value.evm
  {
    if chains != [] {
      FindEvmMeaning(chains[1..], id);
      assert chains == [chains[0]] + chains[1..];
    }
  }

  lemma UniqueChain(chains: seq<Chain>, c: Chain, d: Chain)
    requires forall i, j | 0 <= i < j < |chains| :: chains[i].id != chains[j].id
    requires c in chains && d in chains && c.id == d.id
    ensures c == d
  {
    var i :| 0 <= i < |chains| && chains[i] == c;
    var j :| 0 <= j < |chains| && chains[j] == d;
  }

  /** Under the store invariant the chain dapps see is the remembered one. */
  lemma DappIsRemembered(s: State)
    requires StoreInv(s)
    ensures DappChain(s).id == s.dapp && DappChain(s).evm
    ensures CurrentChain(s).id == s.current
    ensures CurrentChain(s).evm <==> IsEvm(s.chains, s.current)
  {
    FindChainMeaning(s.chains, s.current);
    FindEvmMeaning(s.chains, s.dapp);
    if IsEvm(s.chains, s.current) {
      var c :| c in s.chains && c.id == s.current && c.evm;
      UniqueChain(s.chains, c, CurrentChain(s));
    }
  }

  lemma {:induction false} FindAppended(chains: seq<Chain>, c: Chain, id: nat)
    ensures FindChain(chains + [c], id) ==
            if FindChain(chains, id).Some? then FindChain(chains, id) else if c.id == id then Some(c) else None
  {
    if chains == [] {
      assert chains + [c] == [c];
    } else {
      assert (chains + [c])[1..] == chains[1..] + [c];
      FindAppended(chains[1..], c, id);
    }
  }

  lemma StoreKept(s: State, e: Event)
    requires StoreInv(s) && Enabled(s, e)
    ensures StoreInv(Apply(s, e))
    ensures forall id :: IsEvm(s.chains, id) ==> IsEvm(Apply(s, e).chains, id)
    ensures var t := Apply(s, e);
            !e.UiSet? ==> t.dapp == s.dapp && t.current == s.current && CurrentChain(t) == CurrentChain(s)
    ensures e.UiSet? && !CurrentChain(Apply(s, e)).evm ==> Apply(s, e).dapp == s.dapp
  {
    var t := Apply(s, e);
    DappIsRemembered(s);
    match e
    case UiSet(c) =>
      FindChainMeaning(s.chains, c);
      if IsEvm(s.chains, c) {
        var x :| x in s.chains && x.id == c && x.evm;
        UniqueChain(s.chains, x, CurrentChain(t));
      }
    case NewChain(c) =>
      FindAppended(s.chains, Chain(c, true), s.current);
      FindChainMeaning(s.chains, c);
      forall id | IsEvm(s.chains, id) ensures IsEvm(t.chains, id) {
        var x :| x in s.chains && x.id == id && x.evm;
        assert x in t.chains;
      }
    case _ =>
  }

  // What a scan comes to.

  ghost predicate Clear(overrides: map<string, nat>, f: Filter, entries: seq<Entry>) {
    forall x | x in entries :: !Matches(overrides, f, x.origin)
  }

  /** No match on the sockets after `p` and before `q`. */
  ghost predicate ClearBetween(overrides: map<string, nat>, sockets: seq<seq<Entry>>, f: Filter, p: nat, q: nat) {
    forall r | p < r < q && r < |sockets| :: Clear(overrides, f, sockets[r])
  }

  /** The first match of a list, and what follows it. */
  ghost predicate FirstMatch(overrides: map<string, nat>, f: Filter, list: seq<Entry>, e: Entry, rest: seq<Entry>) {
    Matches(overrides, f, e.origin)
    && exists n :: 0 <= n < |list| && list[n] == e && rest == list[n + 1..] && Clear(overrides, f, list[..n])
  }

  /** Where a scan stops: at the first match, and only for want of one not at all. */
  ghost predicate Stops(overrides: map<string, nat>, sockets: seq<seq<Entry>>, f: Filter, p: nat, rest: seq<Entry>,
                        limit: nat, ticket: nat, c: Cursor)
  {
    match c
    case Scheduled => false
    case Finished => Clear(overrides, f, rest) && ClearBetween(overrides, sockets, f, p, limit)
    case Held(q, e, more, t) =>
      && t == ticket
      && if q == p then FirstMatch(overrides, f, rest, e, more)
         else
           && p < q < limit && q < |sockets| && Clear(overrides, f, rest)
           && ClearBetween(overrides, sockets, f, p, q) && FirstMatch(overrides, f, sockets[q], e, more)
  }

  lemma FirstMatchLater(overrides: map<string, nat>, f: Filter, list: seq<Entry>, e: Entry, rest: seq<Entry>)
    requires list != [] && !Matches(overrides, f, list[0].origin) && FirstMatch(overrides, f, list[1..], e, rest)
    ensures FirstMatch(overrides, f, list, e, rest)
  {
    var n :| 0 <= n < |list| - 1 && list[1..][n] == e && rest == list[1..][n + 1..] &&
        Clear(overrides, f, list[1..][..n]);
    assert list[n + 1] == e && rest == list[n + 2..];
    assert list[..n + 1] == [list[0]] + list[1..][..n];
  }

  lemma {:induction false} ScanMeaning(overrides: map<string, nat>, sockets: seq<seq<Entry>>, f: Filter, p: nat,
                                       rest: seq<Entry>, limit: nat, ticket: nat)
    requires limit <= |sockets|
    ensures Stops(overrides, sockets, f, p, rest, limit, ticket,
                  Scan(overrides, sockets, f, p, rest, limit, ticket))
    decreases if p < |sockets| then |sockets| - p else 0, |rest|
  {
    var c := Scan(overrides, sockets, f, p, rest, limit, ticket);
    if rest != [] {
      if Matches(overrides, f, rest[0].origin) {
        assert rest[0] == c.entry && rest[..0] == [];
      } else {
        ScanMeaning(overrides, sockets, f, p, rest[1..], limit, ticket);
        assert rest == [rest[0]] + rest[1..];
        if c.Held? && c.socket == p {
          FirstMatchLater(overrides, f, rest, c.entry, c.rest);
        }
      }
    } else if p + 1 < limit {
      ScanMeaning(overrides, sockets, f, p + 1, sockets[p + 1], limit, ticket);
    }
  }

  // The invariant of every run.

  ghost predicate Ascending(entries: seq<Entry>) {
    forall i, j | 0 <= i < j < |entries| :: entries[i].id < entries[j].id
  }

  /** Subscriptions are listed as they came, each once, and known. */
  ghost predicate Listing(sockets: seq<seq<Entry>>, ids: nat, seen: map<nat, nat>) {
    && (forall p | 0 <= p < |sockets| :: Ascending(sockets[p]))
    && (forall p, e | 0 <= p < |sockets| && e in sockets[p] :: e.id < ids && e.id in seen)
    && (forall p, q, e, g | 0 <= p < q < |sockets| && e in sockets[p] && g in sockets[q] :: e.id != g.id)
  }

  ghost predicate SocketsInv(s: State) {
    Listing(s.sockets, s.ids, s.seen)
  }

  /** A broadcast in a send is within its limit, and its list as on arrival. */
  ghost predicate CastInv(c: Broadcast, sockets: nat, ids: nat, tickets: nat) {
    && (c.filter.Only? ==> !c.cursor.Scheduled?)
    && c.limit <= sockets
    && (c.cursor.Held? ==>
          && c.cursor.socket < c.limit && c.cursor.ticket < tickets
          && Ascending([c.cursor.entry] + c.cursor.rest)
          && c.cursor.entry.id < ids && forall x | x in c.cursor.rest :: x.id < ids)
  }

  /** Broadcasts of a kind start in the order they were made. */
  ghost predicate StartInOrder(casts: seq<Broadcast>) {
    forall i, j | 0 <= i < j < |casts| && casts[i].filter == casts[j].filter && !casts[j].cursor.Scheduled? ::
      !casts[i].cursor.Scheduled? && casts[i].limit <= casts[j].limit
  }

  ghost predicate CastsInv(s: State) {
    && (forall k | 0 <= k < |s.casts| :: CastInv(s.casts[k], |s.sockets|, s.ids, s.tickets))
    && StartInOrder(s.casts) && OwnTickets(s.casts)
  }

  /** No two sends asked for a lock at once. */
  ghost predicate OwnTickets(casts: seq<Broadcast>) {
    forall i, k | 0 <= i < k < |casts| && casts[i].cursor.Held? && casts[k].cursor.Held? ::
      casts[i].cursor.ticket != casts[k].cursor.ticket
  }

  /** Switch broadcasts are of dapps that are pinned, to EVM chains. */
  ghost predicate PinsInv(s: State) {
    && (forall k | 0 <= k < |s.casts| && s.casts[k].filter.Only? ::
          s.casts[k].filter.origin.Some? && Slot(s.casts[k].filter.origin) in s.overrides)
    && (forall o | o in s.overrides :: IsEvm(s.chains, s.overrides[o]))
  }

  predicate IsLast(casts: seq<Broadcast>, k: nat)
    requires k < |casts|
  {
    forall j | k < j < |casts| :: casts[j].filter != casts[k].filter
  }

  /** What a kind of broadcast should end on. */
  function Latest(s: State, f: Filter): nat {
    match f
    case Unpinned => s.dapp
    case Only(o) => if Slot(o) in s.overrides then s.overrides[Slot(o)] else s.dapp
  }

  /** The last broadcast of each kind carries the chain reported; a pick still
      to be announced excuses the dapps that follow the wallet. */
  ghost predicate LastsInv(s: State)
    requires s.chains != []
  {
    && (s.ui.Announcing? ==> s.ui.chain == s.current)
    && forall k | 0 <= k < |s.casts| && IsLast(s.casts, k) ::
         s.casts[k].chain == Latest(s, s.casts[k].filter) || (s.casts[k].filter.Unpinned? && Unannounced(s))
  }

  /** What holds in every run, whoever comes, goes or switches. */
  ghost predicate Sound(s: State) {
    StoreInv(s) && SocketsInv(s) && CastsInv(s) && PinsInv(s) && LastsInv(s)
  }

  lemma AscendingAppend(entries: seq<Entry>, e: Entry)
    requires Ascending(entries) && forall x | x in entries :: x.id < e.id
    ensures Ascending(entries + [e])
  {
  }

  lemma ListingMore(sockets: seq<seq<Entry>>, ids: nat, seen: map<nat, nat>, p: nat, origin: Option<string>, chain: nat)
    requires Listing(sockets, ids, seen) && p < |sockets|
    ensures Listing(sockets[p := sockets[p] + [Entry(ids, origin)]], ids + 1, seen[ids := chain])
  {
    var e := Entry(ids, origin);
    AscendingAppend(sockets[p], e);
    var more := sockets[p := sockets[p] + [e]];
    forall q, x | 0 <= q < |more| && x in more[q] ensures (x in sockets[q] && x.id < ids) || (q == p && x.id == ids) {
    }
  }

  lemma ListingLess(sockets: seq<seq<Entry>>, ids: nat, seen: map<nat, nat>, p: nat, n: nat)
    requires Listing(sockets, ids, seen) && p < |sockets| && n < |sockets[p]|
    ensures Listing(sockets[p := sockets[p][..n] + sockets[p][n + 1..]], ids, seen - {sockets[p][n].id})
  {
    var less := sockets[p := sockets[p][..n] + sockets[p][n + 1..]];
    var gone := sockets[p][n];
    Removed(sockets[p], n);
    forall q, x | 0 <= q < |less| && x in less[q] ensures x in sockets[q] && x.id != gone.id {
      assert gone in sockets[p];
    }
  }

  lemma SocketsUnderSubscribe(s: State, e: Event)
    requires SocketsInv(s) && Enabled(s, e) && e.Subscribe?
    ensures SocketsInv(Apply(s, e))
  {
    ListingMore(s.sockets, s.ids, s.seen, e.socket, e.origin, ChainForOrigin(s, e.origin));
  }

  lemma SocketsUnderUnsubscribe(s: State, e: Event)
    requires SocketsInv(s) && Enabled(s, e) && e.Unsubscribe?
    ensures SocketsInv(Apply(s, e))
  {
    ListingLess(s.sockets, s.ids, s.seen, e.socket, e.at);
  }

  lemma SocketsUnderOpen(s: State)
    requires SocketsInv(s) && Enabled(s, Open)
    ensures SocketsInv(Apply(s, Open))
  {
    ListingOpened(s.sockets, s.ids, s.seen);
  }

  lemma SocketsUnderDeliver(s: State, k: nat)
    requires SocketsInv(s) && Enabled(s, Deliver(k))
    ensures SocketsInv(Apply(s, Deliver(k)))
  {
    var seen := Told(s.seen, s.casts[k].cursor.entry.id, s.casts[k].chain);
    assert seen.Keys == s.seen.Keys;
    ListingKnows(s.sockets, s.ids, s.seen, seen);
  }

  lemma SocketsKept(s: State, e: Event)
    requires SocketsInv(s) && Enabled(s, e)
    ensures SocketsInv(Apply(s, e))
  {
    match e
    case Subscribe(_, _) => SocketsUnderSubscribe(s, e);
    case Unsubscribe(_, _) => SocketsUnderUnsubscribe(s, e);
    case Open => SocketsUnderOpen(s);
    case Deliver(k) => SocketsUnderDeliver(s, k);
    case _ => SameListing(s, e);
  }

  lemma SameListing(s: State, e: Event)
    requires Enabled(s, e) && !e.Subscribe? && !e.Unsubscribe? && !e.Open? && !e.Deliver?
    ensures Apply(s, e).sockets == s.sockets && Apply(s, e).ids == s.ids && Apply(s, e).seen == s.seen
  {
  }

  lemma ListingOpened(sockets: seq<seq<Entry>>, ids: nat, seen: map<nat, nat>)
    requires Listing(sockets, ids, seen)
    ensures Listing(sockets + [[]], ids, seen)
  {
    var more := sockets + [[]];
    assert more[|sockets|] == [];
    forall q | 0 <= q < |more| ensures Ascending(more[q]) && forall x | x in more[q] ::
           q < |sockets| && x in sockets[q] {
    }
  }

  lemma ListingKnows(sockets: seq<seq<Entry>>, ids: nat, seen: map<nat, nat>, more: map<nat, nat>)
    requires Listing(sockets, ids, seen) && seen.Keys == more.Keys
    ensures Listing(sockets, ids, more)
  {
    assert forall id :: id in seen <==> id in more;
  }

  lemma Removed(entries: seq<Entry>, n: nat)
    requires n < |entries| && Ascending(entries)
    ensures var left := entries[..n] + entries[n + 1..];
            && Ascending(left) && (forall x :: x in left <==> x in entries && x != entries[n])
            && forall x | x in left :: x.id != entries[n].id
  {
    var left := entries[..n] + entries[n + 1..];
    assert forall i | 0 <= i < |left| :: left[i] == entries[if i < n then i else i + 1];
    forall x | x in entries && x != entries[n] ensures x in left {
      var i :| 0 <= i < |entries| && entries[i] == x;
      assert left[if i < n then i else i - 1] == x;
    }
  }

  /** A list from its first match on is in order and stays among the known. */
  lemma FirstMatchInv(overrides: map<string, nat>, f: Filter, list: seq<Entry>, e: Entry, rest: seq<Entry>, ids: nat)
    requires FirstMatch(overrides, f, list, e, rest) && Ascending(list) && forall x | x in list :: x.id < ids
    ensures Ascending([e] + rest) && e.id < ids && forall x | x in rest :: x.id < ids
  {
    var n :| 0 <= n < |list| && list[n] == e && rest == list[n + 1..];
    assert [e] + rest == list[n..];
    AscendingSuffix(list, n);
    KnownSuffix(list, n + 1, ids);
    assert list[n] in list;
  }

  lemma KnownSuffix(list: seq<Entry>, n: nat, ids: nat)
    requires n <= |list| && forall x | x in list :: x.id < ids
    ensures forall x | x in list[n..] :: x.id < ids
  {
  }

  lemma AscendingSuffix(list: seq<Entry>, n: nat)
    requires Ascending(list) && n <= |list|
    ensures Ascending(list[n..])
  {
  }

  lemma ScanInv(s: State, c: Broadcast, overrides: map<string, nat>, p: nat, rest: seq<Entry>)
    requires SocketsInv(s) && c.limit <= |s.sockets| && p < c.limit
    requires Ascending(rest) && forall x | x in rest :: x.id < s.ids
    ensures CastInv(c.(cursor := Scan(overrides, s.sockets, c.filter, p, rest, c.limit, s.tickets)),
                    |s.sockets|, s.ids, s.tickets + 1)
  {
    ScanMeaning(overrides, s.sockets, c.filter, p, rest, c.limit, s.tickets);
    var r := Scan(overrides, s.sockets, c.filter, p, rest, c.limit, s.tickets);
    if r.Held? {
      var list := if r.socket == p then rest else s.sockets[r.socket];
      FirstMatchInv(overrides, c.filter, list, r.entry, r.rest, s.ids);
    }
  }

  lemma BeginInv(s: State, overrides: map<string, nat>, f: Filter, chain: nat)
    requires SocketsInv(s)
    ensures CastInv(Broadcast(f, chain, |s.sockets|, Begin(overrides, s.sockets, f, s.tickets)),
                    |s.sockets|, s.ids, s.tickets + 1)
  {
    if s.sockets != [] {
      ScanInv(s, Broadcast(f, chain, |s.sockets|, Finished), overrides, 0, s.sockets[0]);
    }
  }

  lemma ResumeInv(s: State, k: nat)
    requires SocketsInv(s) && CastsInv(s) && Enabled(s, Deliver(k))
    ensures CastInv(s.casts[k].(cursor := Resume(s, s.casts[k])), |s.sockets|, s.ids, s.tickets + 1)
  {
    var c := s.casts[k];
    assert CastInv(c, |s.sockets|, s.ids, s.tickets);
    assert ([c.cursor.entry] + c.cursor.rest)[1..] == c.cursor.rest;
    ScanInv(s, c, s.overrides, c.cursor.socket, c.cursor.rest);
  }

  /** Nothing a broadcast depends on shrinks. */
  lemma CastInvGrows(c: Broadcast, sockets: nat, ids: nat, tickets: nat, more: nat, moreIds: nat, moreTickets: nat)
    requires CastInv(c, sockets, ids, tickets) && sockets <= more && ids <= moreIds && tickets <= moreTickets
    ensures CastInv(c, more, moreIds, moreTickets)
  {
  }

  /** The broadcast a step moves or makes. */
  function Moved(s: State, e: Event): Option<nat> {
    match e
    case Start(k) => Some(k)
    case Deliver(k) => Some(k)
    case _ => None
  }

  lemma MovedInv(s: State, e: Event)
    requires SocketsInv(s) && CastsInv(s) && Enabled(s, e) && Moved(s, e).Some?
    ensures var t, k := Apply(s, e), Moved(s, e).value;
            CastInv(t.casts[k], |t.sockets|, t.ids, t.tickets) && !t.casts[k].cursor.Scheduled?
  {
    match e
    case Start(k) =>
      assert CastInv(s.casts[k], |s.sockets|, s.ids, s.tickets);
      BeginInv(s, s.overrides, s.casts[k].filter, s.casts[k].chain);
      BeginEnds(s.overrides, s.sockets, s.casts[k].filter, s.tickets);
    case Deliver(k) =>
      ResumeInv(s, k);
      ResumeEnds(s, k);
  }

  lemma BeginEnds(overrides: map<string, nat>, sockets: seq<seq<Entry>>, f: Filter, ticket: nat)
    ensures !Begin(overrides, sockets, f, ticket).Scheduled?
  {
    if sockets != [] {
      ScanMeaning(overrides, sockets, f, 0, sockets[0], |sockets|, ticket);
    }
  }

  lemma ResumeEnds(s: State, k: nat)
    requires CastsInv(s) && Enabled(s, Deliver(k))
    ensures !Resume(s, s.casts[k]).Scheduled?
  {
    var c := s.casts[k];
    assert CastInv(c, |s.sockets|, s.ids, s.tickets);
    ScanMeaning(s.overrides, s.sockets, c.filter, c.cursor.socket, c.cursor.rest, c.limit, s.tickets);
  }

  lemma NewCastInv(s: State, e: Event)
    requires SocketsInv(s) && Enabled(s, e) && |Apply(s, e).casts| > |s.casts|
    ensures var t, n := Apply(s, e), |s.casts|;
            |t.casts| == n + 1 && CastInv(t.casts[n], |t.sockets|, t.ids, t.tickets) && t.casts[..n] == s.casts
    ensures var c := Apply(s, e).casts[|s.casts|]; c.filter.Only? <==> !c.cursor.Scheduled?
    ensures var c := Apply(s, e).casts[|s.casts|]; c.filter.Only? ==> c.limit == |s.sockets|
  {
    if e.Switch? {
      BeginInv(s, s.overrides[Slot(e.origin) := e.chain], Only(e.origin), e.chain);
      BeginEnds(s.overrides[Slot(e.origin) := e.chain], s.sockets, Only(e.origin), s.tickets);
    }
  }

  lemma CastsKept(s: State, e: Event)
    requires SocketsInv(s) && CastsInv(s) && Enabled(s, e)
    ensures CastsInv(Apply(s, e))
  {
    var t := Apply(s, e);
    forall k | 0 <= k < |t.casts| ensures CastInv(t.casts[k], |t.sockets|, t.ids, t.tickets) {
      if k == |s.casts| {
        NewCastInv(s, e);
      } else if Moved(s, e) == Some(k) {
        MovedInv(s, e);
      } else {
        CastInvGrows(s.casts[k], |s.sockets|, s.ids, s.tickets, |t.sockets|, t.ids, t.tickets);
      }
    }
    OrderKept(s, e);
    TicketsKept(s, e);
  }

  lemma TicketsKept(s: State, e: Event)
    requires SocketsInv(s) && CastsInv(s) && Enabled(s, e)
    ensures OwnTickets(Apply(s, e).casts)
  {
    assert forall i | 0 <= i < |s.casts| :: CastInv(s.casts[i], |s.sockets|, s.ids, s.tickets);
    match e
    case Switch(origin, c) =>
      NewTicket(s.overrides[Slot(origin) := c], s.sockets, Only(origin), s.tickets);
    case Start(k) =>
      NewTicket(s.overrides, s.sockets, s.casts[k].filter, s.tickets);
    case Deliver(k) =>
      var c := s.casts[k];
      ScanMeaning(s.overrides, s.sockets, c.filter, c.cursor.socket, c.cursor.rest, c.limit, s.tickets);
    case _ =>
  }

  lemma NewTicket(overrides: map<string, nat>, sockets: seq<seq<Entry>>, f: Filter, ticket: nat)
    ensures var c := Begin(overrides, sockets, f, ticket); c.Held? ==> c.ticket == ticket
  {
    if sockets != [] {
      ScanMeaning(overrides, sockets, f, 0, sockets[0], |sockets|, ticket);
    }
  }

  lemma OrderKept(s: State, e: Event)
    requires SocketsInv(s) && CastsInv(s) && Enabled(s, e)
    ensures StartInOrder(Apply(s, e).casts)
  {
    var t := Apply(s, e);
    if |t.casts| > |s.casts| {
      NewCastInv(s, e);
      assert forall i | 0 <= i < |s.casts| :: CastInv(s.casts[i], |s.sockets|, s.ids, s.tickets);
    } else if Moved(s, e).Some? {
      MovedInv(s, e);
      assert forall i | 0 <= i < |s.casts| :: CastInv(s.casts[i], |s.sockets|, s.ids, s.tickets);
    }
  }

  lemma PinsKept(s: State, e: Event)
    requires Sound(s) && Enabled(s, e) && (e.Switch? ==> e.origin.Some?)
    ensures PinsInv(Apply(s, e))
  {
    StoreKept(s, e);
  }

  /** Broadcasts keep whom they are for and what they carry. */
  ghost predicate SameNews(a: seq<Broadcast>, b: seq<Broadcast>) {
    |a| == |b| && forall k | 0 <= k < |a| :: a[k].filter == b[k].filter && a[k].chain == b[k].chain
  }

  lemma SameLasts(a: seq<Broadcast>, b: seq<Broadcast>, k: nat)
    requires SameNews(a, b) && k < |a|
    ensures IsLast(a, k) <==> IsLast(b, k)
  {
  }

  lemma LastsAppend(s: State, c: Broadcast, k: nat)
    requires k < |s.casts| && IsLast(s.casts + [c], k)
    ensures IsLast(s.casts, k) && c.filter != s.casts[k].filter
  {
    var more := s.casts + [c];
    assert more[|s.casts|] == c;
    assert forall j | 0 <= j < |s.casts| :: more[j] == s.casts[j];
  }

  lemma LastsUnderUi(s: State, e: Event)
    requires Sound(s) && Enabled(s, e) && (e.UiSet? || e.UiAnnounce?)
    ensures Apply(s, e).chains != [] && LastsInv(Apply(s, e))
  {
    var t := Apply(s, e);
    StoreKept(s, e);
    DappIsRemembered(s);
    DappIsRemembered(t);
    forall k | 0 <= k < |t.casts| && IsLast(t.casts, k)
      ensures t.casts[k].chain == Latest(t, t.casts[k].filter) || (t.casts[k].filter.Unpinned? && Unannounced(t))
    {
      if k < |s.casts| && |t.casts| > |s.casts| {
        LastsAppend(s, t.casts[|s.casts|], k);
      }
    }
  }

  lemma LastsUnderSwitch(s: State, e: Event)
    requires Sound(s) && Enabled(s, e) && e.Switch? && e.origin.Some?
    ensures Apply(s, e).chains != [] && LastsInv(Apply(s, e))
  {
    var t := Apply(s, e);
    StoreKept(s, e);
    forall k | 0 <= k < |t.casts| && IsLast(t.casts, k)
      ensures t.casts[k].chain == Latest(t, t.casts[k].filter) || (t.casts[k].filter.Unpinned? && Unannounced(t))
    {
      if k < |s.casts| && |t.casts| > |s.casts| {
        LastsAppend(s, t.casts[|s.casts|], k);
      }
    }
  }

  lemma LastsKept(s: State, e: Event)
    requires Sound(s) && Enabled(s, e) && (e.Switch? ==> e.origin.Some?)
    ensures Apply(s, e).chains != [] && LastsInv(Apply(s, e))
  {
    if e.UiSet? || e.UiAnnounce? {
      LastsUnderUi(s, e);
    } else if e.Switch? {
      LastsUnderSwitch(s, e);
    } else {
      var t := Apply(s, e);
      StoreKept(s, e);
      assert SameNews(s.casts, t.casts);
      forall k | 0 <= k < |t.casts| && IsLast(t.casts, k)
        ensures t.casts[k].chain == Latest(t, t.casts[k].filter) || (t.casts[k].filter.Unpinned? && Unannounced(t))
      {
        SameLasts(s.casts, t.casts, k);
      }
    }
  }

  /** Every step but a switch without an origin keeps the store, the listings
      and the broadcasts sound. */
  lemma StepSound(s: State, e: Event)
    requires Sound(s) && Enabled(s, e) && (e.Switch? ==> e.origin.Some?)
    ensures Sound(Apply(s, e))
  {
    StoreKept(s, e);
    SocketsKept(s, e);
    CastsKept(s, e);
    PinsKept(s, e);
    LastsKept(s, e);
  }

  lemma {:induction false} RunSound(s: State, es: seq<Event>, t: State)
    requires Sound(s) && Runs(s, es, t) && ScopedSwitches(es)
    ensures Sound(t)
    decreases |es|
  {
    if es != [] {
      StepSound(s, es[0]);
      RunSound(Apply(s, es[0]), es[1..], t);
    }
  }

  // Broadcasts in line.

  /** What a broadcast in a send counts on: the subscription it is telling still
      matches and is listed, and so are the matches it has still to tell there. */
  ghost predicate Kept(overrides: map<string, nat>, sockets: seq<seq<Entry>>, c: Broadcast) {
    c.cursor.Held? ==>
      && c.cursor.socket < |sockets| && c.cursor.entry in sockets[c.cursor.socket]
      && Matches(overrides, c.filter, c.cursor.entry.origin)
      && forall x | x in c.cursor.rest && Matches(overrides, c.filter, x.origin) :: x in sockets[c.cursor.socket]
  }

  /** The later broadcast `b` has not overtaken `a`: it is at an earlier socket,
      or behind on the same one, with all that `a` has still to tell before it. */
  ghost predicate Behind(overrides: map<string, nat>, a: Broadcast, b: Broadcast) {
    match (a.cursor, b.cursor)
    case (_, Scheduled) => true
    case (Finished, _) => true
    case (Held(p, e, r, t), Held(q, g, u, v)) =>
      q < p || (q == p && ((e == g && t < v) || e in u)
                && forall x | x in r && Matches(overrides, a.filter, x.origin) :: x in u)
    case _ => false
  }

  lemma FollowsFirst(list: seq<Entry>, n: nat, y: Entry)
    requires n < |list| && Ascending(list) && y in list[n + 1..]
    ensures y in list && y.id > list[n].id
  {
    var j :| 0 <= j < |list[n + 1..]| && list[n + 1..][j] == y;
    assert list[n + 1 + j] == y;
  }

  lemma InFirstMatch(overrides: map<string, nat>, f: Filter, list: seq<Entry>, e: Entry, rest: seq<Entry>, x: Entry)
    requires FirstMatch(overrides, f, list, e, rest) && Ascending(list) && x in list
    ensures Matches(overrides, f, x.origin) ==> x == e || x in rest
    ensures x.id > e.id ==> x in rest
    ensures x in rest ==> x.id > e.id
  {
    var n :| 0 <= n < |list| && list[n] == e && rest == list[n + 1..] && Clear(overrides, f, list[..n]);
    var i :| 0 <= i < |list| && list[i] == x;
    if i < n {
      assert list[..n][i] == x;
    } else if i > n {
      assert rest[i - n - 1] == x;
    }
    if x in rest {
      FollowsFirst(list, n, x);
    }
  }

  /** A scan does not pass a broadcast in a send that is ahead and has kept its
      subscription. */
  lemma ScanStaysBehind(overrides: map<string, nat>, sockets: seq<seq<Entry>>, a: Broadcast, b: Broadcast, p: nat,
                        rest: seq<Entry>, ticket: nat)
    requires a.cursor.Held? && Kept(overrides, sockets, a) && b.filter == a.filter
    requires Ascending([a.cursor.entry] + a.cursor.rest) && Ascending(rest)
    requires forall r | 0 <= r < |sockets| :: Ascending(sockets[r])
    requires p <= a.cursor.socket < b.limit <= |sockets| && a.cursor.ticket < ticket
    requires p == a.cursor.socket ==>
               a.cursor.entry in rest
               && forall x | x in a.cursor.rest && Matches(overrides, a.filter, x.origin) :: x in rest
    ensures Behind(overrides, a, b.(cursor := Scan(overrides, sockets, b.filter, p, rest, b.limit, ticket)))
  {
    var c := Scan(overrides, sockets, b.filter, p, rest, b.limit, ticket);
    var e, q := a.cursor.entry, a.cursor.socket;
    ScanMeaning(overrides, sockets, b.filter, p, rest, b.limit, ticket);
    var list := if q == p then rest else sockets[q];
    assert e in list && Matches(overrides, b.filter, e.origin);
    assert c.Held? && c.socket <= q;
    if c.socket == q {
      InFirstMatch(overrides, b.filter, list, c.entry, c.rest, e);
      forall x | x in a.cursor.rest && Matches(overrides, a.filter, x.origin) ensures x in c.rest {
        AfterFirst(a.cursor.entry, a.cursor.rest, x);
        InFirstMatch(overrides, b.filter, list, c.entry, c.rest, x);
      }
    }
  }

  lemma AfterFirst(e: Entry, rest: seq<Entry>, x: Entry)
    requires Ascending([e] + rest) && x in rest
    ensures x.id > e.id
  {
    assert ([e] + rest)[0 + 1..] == rest;
    FollowsFirst([e] + rest, 0, x);
  }

  /** Going on, a broadcast leaves those behind it behind. */
  lemma ScanStaysAhead(overrides: map<string, nat>, sockets: seq<seq<Entry>>, a: Broadcast, b: Broadcast, ticket: nat)
    requires a.cursor.Held? && b.filter == a.filter && a.limit <= |sockets| && Behind(overrides, a, b)
    requires Ascending(a.cursor.rest)
    ensures Behind(overrides, a.(cursor := Scan(overrides, sockets, a.filter, a.cursor.socket, a.cursor.rest,
            a.limit, ticket)), b)
  {
    var p, rest := a.cursor.socket, a.cursor.rest;
    var c := Scan(overrides, sockets, a.filter, p, rest, a.limit, ticket);
    ScanMeaning(overrides, sockets, a.filter, p, rest, a.limit, ticket);
    if c.Held? && c.socket == p {
      var n :| 0 <= n < |rest| && rest[n] == c.entry && c.rest == rest[n + 1..];
      assert forall x | x in c.rest :: x in rest;
      assert c.entry in rest;
    }
  }

  /** Every broadcast in a send counts on its subscription rightly, and none has
      overtaken an earlier one of its kind. */
  ghost predicate Orderly(s: State) {
    && (forall k | 0 <= k < |s.casts| :: Kept(s.overrides, s.sockets, s.casts[k]))
    && (forall i, k | 0 <= i < k < |s.casts| && s.casts[i].filter == s.casts[k].filter ::
          Behind(s.overrides, s.casts[i], s.casts[k]))
  }

  /** A subscription that goes is not one the broadcast is telling or has listed. */
  ghost predicate SparesAtSocket(overrides: map<string, nat>, c: Broadcast, p: nat, gone: Entry) {
    c.cursor.Held? && c.cursor.socket == p && Matches(overrides, c.filter, gone.origin) ==>
      gone != c.cursor.entry && gone !in c.cursor.rest
  }

  /** A dapp that pins a chain is not the one the broadcast is telling. */
  ghost predicate SparesDapp(c: Broadcast, origin: Option<string>) {
    c.cursor.Held? && c.filter.Unpinned? ==> Slot(c.cursor.entry.origin) != Slot(origin)
  }

  ghost predicate CleanLeave(s: State, p: nat, n: nat)
    requires p < |s.sockets| && n < |s.sockets[p]|
  {
    forall k | 0 <= k < |s.casts| :: SparesAtSocket(s.overrides, s.casts[k], p, s.sockets[p][n])
  }

  ghost predicate CleanPin(s: State, origin: Option<string>) {
    Slot(origin) in s.overrides || forall k | 0 <= k < |s.casts| :: SparesDapp(s.casts[k], origin)
  }

  /** The events that may let broadcasts overtake, when they hit one in a send:
      a subscription leaves that it is telling or has listed, or the dapp it is
      telling pins a chain. */
  ghost predicate Clean(s: State, e: Event) {
    match e
    case Unsubscribe(p, n) => p < |s.sockets| && n < |s.sockets[p]| ==> CleanLeave(s, p, n)
    case Switch(origin, c) => IsEvm(s.chains, c) ==> CleanPin(s, origin)
    case _ => true
  }

  ghost predicate CleanRun(s: State, es: seq<Event>)
    decreases |es|
  {
    es == [] || (Clean(s, es[0]) && Enabled(s, es[0]) && CleanRun(Apply(s, es[0]), es[1..]))
  }

  lemma ScanKept(overrides: map<string, nat>, sockets: seq<seq<Entry>>, c: Broadcast, p: nat, rest: seq<Entry>,
                 ticket: nat)
    requires p < c.limit <= |sockets|
    requires forall x | x in rest && Matches(overrides, c.filter, x.origin) :: x in sockets[p]
    ensures Kept(overrides, sockets, c.(cursor := Scan(overrides, sockets, c.filter, p, rest, c.limit, ticket)))
  {
    var r := Scan(overrides, sockets, c.filter, p, rest, c.limit, ticket);
    ScanMeaning(overrides, sockets, c.filter, p, rest, c.limit, ticket);
    if r.Held? {
      var list := if r.socket == p then rest else sockets[r.socket];
      var n :| 0 <= n < |list| && list[n] == r.entry && r.rest == list[n + 1..];
      assert forall x | x in r.rest :: x in list;
      assert r.entry in list;
    }
  }

  lemma BeginKept(overrides: map<string, nat>, sockets: seq<seq<Entry>>, f: Filter, chain: nat, ticket: nat)
    ensures Kept(overrides, sockets, Broadcast(f, chain, |sockets|, Begin(overrides, sockets, f, ticket)))
  {
    if sockets != [] {
      ScanKept(overrides, sockets, Broadcast(f, chain, |sockets|, Finished), 0, sockets[0], ticket);
    }
  }

  /** A broadcast that starts is behind those of its kind already under way. */
  lemma BeginBehind(s: State, overrides: map<string, nat>, a: Broadcast, chain: nat)
    requires SocketsInv(s) && CastInv(a, |s.sockets|, s.ids, s.tickets) && !a.cursor.Scheduled?
    requires Kept(overrides, s.sockets, a)
    ensures Behind(overrides, a, Broadcast(a.filter, chain, |s.sockets|,
            Begin(overrides, s.sockets, a.filter, s.tickets)))
  {
    if a.cursor.Held? {
      ScanStaysBehind(overrides, s.sockets, a, Broadcast(a.filter, chain, |s.sockets|, Finished), 0, s.sockets[0],
                      s.tickets);
    }
  }

  lemma ResumeBehind(s: State, i: nat, k: nat)
    requires SocketsInv(s) && CastsInv(s) && Enabled(s, Deliver(k)) && i < k && s.casts[i].filter == s.casts[k].filter
    requires Kept(s.overrides, s.sockets, s.casts[i]) && Behind(s.overrides, s.casts[i], s.casts[k])
    ensures Behind(s.overrides, s.casts[i], s.casts[k].(cursor := Resume(s, s.casts[k])))
  {
    var a, b := s.casts[i], s.casts[k];
    assert CastInv(a, |s.sockets|, s.ids, s.tickets) && CastInv(b, |s.sockets|, s.ids, s.tickets);
    AscendingRest(b.cursor.entry, b.cursor.rest);
    if a.cursor.Held? {
      ScanStaysBehind(s.overrides, s.sockets, a, b, b.cursor.socket, b.cursor.rest, s.tickets);
    }
  }

  lemma AscendingRest(e: Entry, rest: seq<Entry>)
    requires Ascending([e] + rest)
    ensures Ascending(rest)
  {
    assert ([e] + rest)[1..] == rest;
    AscendingSuffix([e] + rest, 1);
  }

  lemma ResumeAhead(s: State, i: nat, k: nat)
    requires SocketsInv(s) && CastsInv(s) && Enabled(s, Deliver(i)) && i < k < |s.casts|
    requires s.casts[i].filter == s.casts[k].filter && Behind(s.overrides, s.casts[i], s.casts[k])
    ensures Behind(s.overrides, s.casts[i].(cursor := Resume(s, s.casts[i])), s.casts[k])
  {
    var a := s.casts[i];
    assert CastInv(a, |s.sockets|, s.ids, s.tickets);
    AscendingRest(a.cursor.entry, a.cursor.rest);
    ScanStaysAhead(s.overrides, s.sockets, a, s.casts[k], s.tickets);
  }

  /** How a clean step moves one broadcast, and the pins and lists under it. */
  lemma KeptUnderMove(s: State, e: Event, k: nat)
    requires CastsInv(s) && Orderly(s) && Enabled(s, e) && Moved(s, e).Some? && k < |s.casts|
    ensures Kept(s.overrides, s.sockets, Apply(s, e).casts[k])
  {
    assert Kept(s.overrides, s.sockets, s.casts[k]);
    match e
    case Start(j) =>
      BeginKept(s.overrides, s.sockets, s.casts[j].filter, s.casts[j].chain, s.tickets);
    case Deliver(j) =>
      ResumeKept(s, j);
  }

  lemma KeptUnderSwitch(s: State, e: Event, k: nat)
    requires Orderly(s) && Enabled(s, e) && Clean(s, e) && e.Switch?
    ensures k < |Apply(s, e).casts| ==> Kept(Apply(s, e).overrides, s.sockets, Apply(s, e).casts[k])
  {
    BeginKept(s.overrides[Slot(e.origin) := e.chain], s.sockets, Only(e.origin), e.chain, s.tickets);
    if k < |s.casts| {
      assert Kept(s.overrides, s.sockets, s.casts[k]);
      KeptUnderPin(s, e, k);
    }
  }

  lemma KeptAfter(s: State, e: Event, k: nat)
    requires Sound(s) && Orderly(s) && Enabled(s, e) && Clean(s, e)
    ensures k < |Apply(s, e).casts| ==> Kept(Apply(s, e).overrides, Apply(s, e).sockets, Apply(s, e).casts[k])
  {
    if k < |s.casts| {
      assert Kept(s.overrides, s.sockets, s.casts[k]);
    }
    if Moved(s, e).Some? && k < |s.casts| {
      KeptUnderMove(s, e, k);
    } else if e.Switch? {
      KeptUnderSwitch(s, e, k);
    } else if e.Unsubscribe? && k < |s.casts| {
      KeptUnderLoss(s, e.socket, e.at, k);
    }
  }

  lemma ResumeKept(s: State, k: nat)
    requires CastsInv(s) && Orderly(s) && Enabled(s, Deliver(k))
    ensures Kept(s.overrides, s.sockets, s.casts[k].(cursor := Resume(s, s.casts[k])))
  {
    var c := s.casts[k];
    assert CastInv(c, |s.sockets|, s.ids, s.tickets) && Kept(s.overrides, s.sockets, c);
    ScanKept(s.overrides, s.sockets, c, c.cursor.socket, c.cursor.rest, s.tickets);
  }

  lemma KeptUnderPin(s: State, e: Event, k: nat)
    requires k < |s.casts| && Kept(s.overrides, s.sockets, s.casts[k]) && e.Switch? && Enabled(s, e) && Clean(s, e)
    ensures Kept(Apply(s, e).overrides, s.sockets, s.casts[k])
  {
  }

  lemma KeptUnderLoss(s: State, p: nat, n: nat, k: nat)
    requires SocketsInv(s) && k < |s.casts| && Kept(s.overrides, s.sockets, s.casts[k])
    requires Enabled(s, Unsubscribe(p, n)) && Clean(s, Unsubscribe(p, n))
    ensures Kept(s.overrides, Apply(s, Unsubscribe(p, n)).sockets, s.casts[k])
  {
    Removed(s.sockets[p], n);
  }

  lemma BehindUnderMove(s: State, e: Event, i: nat, k: nat)
    requires Sound(s) && Orderly(s) && Enabled(s, e) && Moved(s, e).Some? && i < k < |s.casts|
    requires s.casts[i].filter == s.casts[k].filter
    ensures Behind(s.overrides, Apply(s, e).casts[i], Apply(s, e).casts[k])
  {
    var j := Moved(s, e).value;
    assert Behind(s.overrides, s.casts[i], s.casts[k]) && Kept(s.overrides, s.sockets, s.casts[i]);
    if e.Start? && k == j {
      assert CastInv(s.casts[i], |s.sockets|, s.ids, s.tickets);
      BeginBehind(s, s.overrides, s.casts[i], s.casts[k].chain);
    } else if e.Deliver? && k == j {
      ResumeBehind(s, i, k);
    } else if e.Deliver? && i == j {
      ResumeAhead(s, i, k);
    }
  }

  lemma BehindUnderSwitch(s: State, e: Event, i: nat, k: nat)
    requires Sound(s) && Orderly(s) && Enabled(s, e) && Clean(s, e) && e.Switch? && i < k < |Apply(s, e).casts|
    requires Apply(s, e).casts[i].filter == Apply(s, e).casts[k].filter
    ensures Behind(Apply(s, e).overrides, Apply(s, e).casts[i], Apply(s, e).casts[k])
  {
    var t := Apply(s, e);
    if k == |s.casts| {
      assert CastInv(s.casts[i], |s.sockets|, s.ids, s.tickets);
      KeptUnderPin(s, e, i);
      BeginBehind(s, t.overrides, s.casts[i], e.chain);
    } else {
      assert Behind(s.overrides, s.casts[i], s.casts[k]);
    }
  }

  lemma BehindAfter(s: State, e: Event, i: nat, k: nat)
    requires Sound(s) && Orderly(s) && Enabled(s, e) && Clean(s, e) && i < k < |Apply(s, e).casts|
    requires Apply(s, e).casts[i].filter == Apply(s, e).casts[k].filter
    ensures Behind(Apply(s, e).overrides, Apply(s, e).casts[i], Apply(s, e).casts[k])
  {
    if Moved(s, e).Some? {
      BehindUnderMove(s, e, i, k);
    } else if e.Switch? {
      BehindUnderSwitch(s, e, i, k);
    } else {
      BehindUnmoved(s, e, i, k);
    }
  }

  lemma BehindUnmoved(s: State, e: Event, i: nat, k: nat)
    requires Orderly(s) && Enabled(s, e) && Moved(s, e).None? && !e.Switch? && i < k < |Apply(s, e).casts|
    requires Apply(s, e).casts[i].filter == Apply(s, e).casts[k].filter
    ensures Behind(Apply(s, e).overrides, Apply(s, e).casts[i], Apply(s, e).casts[k])
  {
    if k < |s.casts| {
      assert Behind(s.overrides, s.casts[i], s.casts[k]);
    }
  }

  lemma OrderlyAfter(s: State, e: Event)
    requires Sound(s) && Orderly(s) && Enabled(s, e) && Clean(s, e)
    ensures Orderly(Apply(s, e))
  {
    var t := Apply(s, e);
    forall k | 0 <= k < |t.casts| ensures Kept(t.overrides, t.sockets, t.casts[k]) {
      KeptAfter(s, e, k);
    }
    forall i, k | 0 <= i < k < |t.casts| && t.casts[i].filter == t.casts[k].filter
      ensures Behind(t.overrides, t.casts[i], t.casts[k])
    {
      BehindAfter(s, e, i, k);
    }
  }

  // What a subscription will have seen once the broadcasts under way are through.

  predicate Listed(s: State, q: nat, y: Entry) {
    q < |s.sockets| && y in s.sockets[q]
  }

  /** The broadcast has not passed the subscription yet. */
  predicate Awaits(c: Broadcast, q: nat, y: Entry) {
    match c.cursor
    case Scheduled => true
    case Held(p, e, rest, _) => (p == q && (e == y || y in rest)) || p < q < c.limit
    case Finished => false
  }

  /** The broadcast's present send is to the subscription. */
  predicate Telling(c: Broadcast, q: nat, y: Entry) {
    c.cursor.Held? && c.cursor.socket == q && c.cursor.entry == y
  }

  predicate WillTell(c: Broadcast, f: Filter, q: nat, y: Entry) {
    c.filter == f && Awaits(c, q, y)
  }

  function After(casts: seq<Broadcast>, f: Filter, q: nat, y: Entry, seen: nat): nat {
    if casts == [] then seen
    else
      var last := casts[|casts| - 1];
      if WillTell(last, f, q, y) then last.chain else After(casts[..|casts| - 1], f, q, y, seen)
  }

  /** The kind of broadcast meant for a dapp. */
  function KindFor(overrides: map<string, nat>, origin: Option<string>): Filter {
    if Slot(origin) in overrides then Only(origin) else Unpinned
  }

  /** The subscription has seen, or is last to be told, its chain. */
  ghost predicate Coherent(s: State, q: nat, y: Entry)
    requires s.chains != [] && y.id in s.seen
  {
    var f := KindFor(s.overrides, y.origin);
    After(s.casts, f, q, y, s.seen[y.id]) == Latest(s, f) || (f.Unpinned? && Unannounced(s))
  }

  ghost predicate AllCoherent(s: State)
    requires s.chains != [] && SocketsInv(s)
  {
    forall q, y | Listed(s, q, y) && Slot(y.origin) != "" :: Coherent(s, q, y)
  }

  lemma AfterAppend(casts: seq<Broadcast>, c: Broadcast, f: Filter, q: nat, y: Entry, seen: nat)
    ensures After(casts + [c], f, q, y, seen) == if WillTell(c, f, q, y) then c.chain else After(casts, f, q, y, seen)
  {
    assert (casts + [c])[..|casts|] == casts;
  }

  /** Only what a broadcast still has to say to the subscription matters. */
  lemma {:induction false} AfterSame(a: seq<Broadcast>, b: seq<Broadcast>, f: Filter, q: nat, y: Entry, seen: nat)
    requires SameNews(a, b) && forall k | 0 <= k < |a| :: WillTell(a[k], f, q, y) == WillTell(b[k], f, q, y)
    ensures After(a, f, q, y, seen) == After(b, f, q, y, seen)
  {
    if a != [] {
      AfterSame(a[..|a| - 1], b[..|b| - 1], f, q, y, seen);
    }
  }

  lemma {:induction false} AfterNone(casts: seq<Broadcast>, f: Filter, q: nat, y: Entry, seen: nat)
    requires forall k | 0 <= k < |casts| :: !WillTell(casts[k], f, q, y)
    ensures After(casts, f, q, y, seen) == seen
  {
    if casts != [] {
      AfterNone(casts[..|casts| - 1], f, q, y, seen);
    }
  }

  lemma {:induction false} AfterAt(casts: seq<Broadcast>, j: nat, f: Filter, q: nat, y: Entry, seen: nat)
    requires j < |casts| && WillTell(casts[j], f, q, y)
    requires forall k | j < k < |casts| :: !WillTell(casts[k], f, q, y)
    ensures After(casts, f, q, y, seen) == casts[j].chain
  {
    if j < |casts| - 1 {
      AfterAt(casts[..|casts| - 1], j, f, q, y, seen);
    }
  }

  /** Telling the subscription the first of its awaited chains leaves the last. */
  lemma {:induction false} AfterPush(a: seq<Broadcast>, b: seq<Broadcast>, k: nat, f: Filter, q: nat, y: Entry,
                                     seen: nat)
    requires SameNews(a, b) && k < |a| && WillTell(a[k], f, q, y) && !WillTell(b[k], f, q, y)
    requires forall i | 0 <= i < |a| && i != k :: WillTell(a[i], f, q, y) == WillTell(b[i], f, q, y)
    requires forall i | 0 <= i < k :: !WillTell(a[i], f, q, y)
    ensures After(b, f, q, y, a[k].chain) == After(a, f, q, y, seen)
  {
    var n := |a| - 1;
    if k == n {
      AfterNone(b, f, q, y, a[k].chain);
    } else {
      AfterPush(a[..n], b[..n], k, f, q, y, seen);
    }
  }

  /** When the later broadcasts of a kind will tell whom an earlier one will, the
      last of them decides. */
  lemma {:induction false} AfterLatest(casts: seq<Broadcast>, f: Filter, q: nat, y: Entry, seen: nat)
    requires forall i, k | 0 <= i < k < |casts| && casts[k].filter == f && WillTell(casts[i], f, q, y) ::
               Awaits(casts[k], q, y)
    requires forall k | 0 <= k < |casts| && casts[k].filter == f && IsLast(casts, k) :: casts[k].chain == seen
    ensures After(casts, f, q, y, seen) == seen
  {
    if casts != [] {
      var n := |casts| - 1;
      if casts[n].filter == f {
        assert IsLast(casts, n);
        if !WillTell(casts[n], f, q, y) {
          AfterNone(casts, f, q, y, seen);
        }
      } else {
        forall k | 0 <= k < n && casts[k].filter == f && IsLast(casts[..n], k) ensures IsLast(casts, k) {
          assert forall j | k < j < n :: casts[..n][j] == casts[j];
        }
        AfterLatest(casts[..n], f, q, y, seen);
      }
    }
  }

  lemma ScanAwaits(overrides: map<string, nat>, sockets: seq<seq<Entry>>, c: Broadcast, p: nat, rest: seq<Entry>,
                   ticket: nat, q: nat, y: Entry)
    requires p < c.limit <= |sockets| && q < |sockets| && y in sockets[q] && Matches(overrides, c.filter, y.origin)
    requires Ascending(rest) && Ascending(sockets[q])
    ensures Awaits(c.(cursor := Scan(overrides, sockets, c.filter, p, rest, c.limit, ticket)), q, y) <==>
            (p == q && y in rest) || p < q < c.limit
  {
    var r := Scan(overrides, sockets, c.filter, p, rest, c.limit, ticket);
    ScanMeaning(overrides, sockets, c.filter, p, rest, c.limit, ticket);
    if r.Held? && r.socket == q {
      var list := if q == p then rest else sockets[q];
      if y in list {
        InFirstMatch(overrides, c.filter, list, r.entry, r.rest, y);
      }
      var n :| 0 <= n < |list| && list[n] == r.entry && r.rest == list[n + 1..];
      assert forall x | x in r.rest :: x in list;
      assert r.entry in list;
    }
  }

  lemma ResumeAwaits(s: State, k: nat, q: nat, y: Entry)
    requires SocketsInv(s) && CastsInv(s) && Enabled(s, Deliver(k)) && Listed(s, q, y)
    requires Matches(s.overrides, s.casts[k].filter, y.origin)
    ensures var c := s.casts[k];
            Awaits(c.(cursor := Resume(s, c)), q, y) <==>
            Awaits(c, q, y) && !(c.cursor.socket == q && c.cursor.entry == y)
  {
    var c := s.casts[k];
    assert CastInv(c, |s.sockets|, s.ids, s.tickets);
    AscendingRest(c.cursor.entry, c.cursor.rest);
    ScanAwaits(s.overrides, s.sockets, c, c.cursor.socket, c.cursor.rest, s.tickets, q, y);
    if y in c.cursor.rest {
      AfterFirst(c.cursor.entry, c.cursor.rest, y);
    }
  }

  lemma BeginAwaits(s: State, overrides: map<string, nat>, f: Filter, chain: nat, q: nat, y: Entry)
    requires SocketsInv(s) && Listed(s, q, y) && Matches(overrides, f, y.origin)
    ensures Awaits(Broadcast(f, chain, |s.sockets|, Begin(overrides, s.sockets, f, s.tickets)), q, y)
  {
    ScanAwaits(overrides, s.sockets, Broadcast(f, chain, |s.sockets|, Finished), 0, s.sockets[0], s.tickets, q, y);
  }

  /** A dapp is told by broadcasts of its own kind alone. */
  lemma OwnKind(s: State, k: nat, origin: Option<string>)
    requires PinsInv(s) && k < |s.casts| && Slot(origin) != ""
    ensures Matches(s.overrides, KindFor(s.overrides, origin), origin)
    ensures Matches(s.overrides, s.casts[k].filter, origin) ==> s.casts[k].filter == KindFor(s.overrides, origin)
  {
  }

  /** The subscription a clean broadcast is telling is the one listed. */
  lemma ToldIsListed(s: State, k: nat, q: nat, y: Entry)
    requires SocketsInv(s) && k < |s.casts| && s.casts[k].cursor.Held? && Kept(s.overrides, s.sockets, s.casts[k])
    requires Listed(s, q, y)
    ensures s.casts[k].cursor.entry.id == y.id <==> s.casts[k].cursor.entry == y && s.casts[k].cursor.socket == q
  {
    var e, p := s.casts[k].cursor.entry, s.casts[k].cursor.socket;
    if e.id == y.id && p == q {
      var i :| 0 <= i < |s.sockets[q]| && s.sockets[q][i] == e;
      var j :| 0 <= j < |s.sockets[q]| && s.sockets[q][j] == y;
      assert i == j;
    }
  }

  /** When a broadcast tells a subscription, no earlier one of its kind has it
      still to tell. */
  lemma NoneBefore(s: State, k: nat, i: nat)
    requires SocketsInv(s) && CastsInv(s) && Orderly(s) && Enabled(s, Deliver(k)) && i < k
    requires s.casts[i].filter == s.casts[k].filter
    ensures !Awaits(s.casts[i], s.casts[k].cursor.socket, s.casts[k].cursor.entry)
  {
    var a, b := s.casts[i], s.casts[k];
    assert Behind(s.overrides, a, b);
    assert CastInv(a, |s.sockets|, s.ids, s.tickets) && CastInv(b, |s.sockets|, s.ids, s.tickets);
    if a.cursor.Held? && a.cursor.socket == b.cursor.socket {
      assert a.cursor.entry in b.cursor.rest;
      AfterFirst(b.cursor.entry, b.cursor.rest, a.cursor.entry);
      if b.cursor.entry in a.cursor.rest {
        AfterFirst(a.cursor.entry, a.cursor.rest, b.cursor.entry);
      }
    }
  }

  /** What a send leaves a subscription awaiting: all it awaited, but for what it
      was just told. */
  lemma DeliverAwaits(s: State, k: nat, q: nat, y: Entry)
    requires Sound(s) && Orderly(s) && Enabled(s, Deliver(k)) && Listed(s, q, y) && Slot(y.origin) != ""
    ensures var f, c, t := KindFor(s.overrides, y.origin), s.casts[k], Apply(s, Deliver(k));
            WillTell(t.casts[k], f, q, y) == (WillTell(c, f, q, y) && !Telling(c, q, y))
  {
    OwnKind(s, k, y.origin);
    if s.casts[k].filter == KindFor(s.overrides, y.origin) {
      ResumeAwaits(s, k, q, y);
    }
  }

  lemma CoherentWhenTold(s: State, k: nat, q: nat, y: Entry)
    requires Sound(s) && Orderly(s) && Enabled(s, Deliver(k)) && Listed(s, q, y) && Slot(y.origin) != ""
    requires Telling(s.casts[k], q, y)
    ensures var f, t := KindFor(s.overrides, y.origin), Apply(s, Deliver(k));
            s.casts[k].filter == f
            && After(t.casts, f, q, y, s.casts[k].chain) == After(s.casts, f, q, y, s.seen[y.id])
  {
    var f, t := KindFor(s.overrides, y.origin), Apply(s, Deliver(k));
    assert Kept(s.overrides, s.sockets, s.casts[k]);
    OwnKind(s, k, y.origin);
    DeliverAwaits(s, k, q, y);
    forall i | 0 <= i < k ensures !WillTell(s.casts[i], f, q, y) {
      if s.casts[i].filter == f {
        NoneBefore(s, k, i);
      }
    }
    AfterPush(s.casts, t.casts, k, f, q, y, s.seen[y.id]);
  }

  lemma CoherentWhenNotTold(s: State, k: nat, q: nat, y: Entry)
    requires Sound(s) && Orderly(s) && Enabled(s, Deliver(k)) && Listed(s, q, y) && Slot(y.origin) != ""
    requires !Telling(s.casts[k], q, y)
    ensures var f, t := KindFor(s.overrides, y.origin), Apply(s, Deliver(k));
            y.id in s.seen && After(t.casts, f, q, y, s.seen[y.id]) == After(s.casts, f, q, y, s.seen[y.id])
  {
    var f, t := KindFor(s.overrides, y.origin), Apply(s, Deliver(k));
    DeliverAwaits(s, k, q, y);
    AfterSame(t.casts, s.casts, f, q, y, s.seen[y.id]);
  }

  lemma CoherentUnderDeliver(s: State, k: nat, q: nat, y: Entry)
    requires Sound(s) && Orderly(s) && Enabled(s, Deliver(k)) && Listed(s, q, y) && Slot(y.origin) != ""
    requires Coherent(s, q, y)
    ensures var t := Apply(s, Deliver(k)); y.id in t.seen && Coherent(t, q, y)
  {
    assert Kept(s.overrides, s.sockets, s.casts[k]);
    ToldIsListed(s, k, q, y);
    if Telling(s.casts[k], q, y) {
      CoherentWhenTold(s, k, q, y);
    } else {
      CoherentWhenNotTold(s, k, q, y);
    }
  }

  lemma CoherentUnderStart(s: State, k: nat, q: nat, y: Entry)
    requires Sound(s) && Enabled(s, Start(k)) && Listed(s, q, y) && Slot(y.origin) != "" && Coherent(s, q, y)
    ensures Coherent(Apply(s, Start(k)), q, y)
  {
    var t, f := Apply(s, Start(k)), KindFor(s.overrides, y.origin);
    OwnKind(s, k, y.origin);
    if s.casts[k].filter == f {
      BeginAwaits(s, s.overrides, f, s.casts[k].chain, q, y);
    }
    AfterSame(t.casts, s.casts, f, q, y, s.seen[y.id]);
  }

  lemma CoherentUnderSwitch(s: State, e: Event, q: nat, y: Entry)
    requires Sound(s) && Enabled(s, e) && e.Switch? && e.origin.Some?
    requires Listed(s, q, y) && Slot(y.origin) != "" && Coherent(s, q, y)
    ensures Apply(s, e).chains != [] && Coherent(Apply(s, e), q, y)
  {
    if IsEvm(s.chains, e.chain) {
      var t := Apply(s, e);
      var f := KindFor(t.overrides, y.origin);
      AfterAppend(s.casts, t.casts[|s.casts|], f, q, y, s.seen[y.id]);
      if e.origin == y.origin {
        BeginAwaits(s, t.overrides, Only(e.origin), e.chain, q, y);
      }
    }
  }

  lemma CoherentUnderUi(s: State, e: Event, q: nat, y: Entry)
    requires Sound(s) && Enabled(s, e) && (e.UiSet? || e.UiAnnounce? || e.NewChain?)
    requires Listed(s, q, y) && Slot(y.origin) != "" && Coherent(s, q, y)
    ensures Apply(s, e).chains != [] && Coherent(Apply(s, e), q, y)
  {
    StoreKept(s, e);
    DappIsRemembered(s);
    if e.UiAnnounce? {
      AfterAppend(s.casts, Broadcast(Unpinned, s.ui.chain, 0, Scheduled), KindFor(s.overrides, y.origin), q, y,
                  s.seen[y.id]);
    }
  }

  /** A newcomer starts from the chain reported for it, and is found by the later
      broadcasts of its kind if by any. */
  lemma NewcomerCoherent(s: State, e: Event)
    requires Sound(s) && Orderly(s) && Enabled(s, e) && e.Subscribe? && Slot(e.origin) != ""
    ensures Apply(s, e).chains != [] && Coherent(Apply(s, e), e.socket, Entry(s.ids, e.origin))
  {
    var f, y := KindFor(s.overrides, e.origin), Entry(s.ids, e.origin);
    DappIsRemembered(s);
    forall i, k | 0 <= i < k < |s.casts| && s.casts[k].filter == f && WillTell(s.casts[i], f, e.socket, y)
      ensures Awaits(s.casts[k], e.socket, y)
    {
      assert Behind(s.overrides, s.casts[i], s.casts[k]);
      assert CastInv(s.casts[i], |s.sockets|, s.ids, s.tickets);
    }
    if !(f.Unpinned? && Unannounced(s)) {
      AfterLatest(s.casts, f, e.socket, y, Latest(s, f));
    }
  }

  lemma CoherentLike(s: State, t: State, q: nat, y: Entry)
    requires s.chains != [] && y.id in s.seen && Coherent(s, q, y)
    requires t.chains == s.chains && t.current == s.current && t.dapp == s.dapp && t.ui == s.ui
    requires t.overrides == s.overrides && t.casts == s.casts && y.id in t.seen && t.seen[y.id] == s.seen[y.id]
    ensures Coherent(t, q, y)
  {
  }

  lemma CoherentUnderListing(s: State, e: Event, q: nat, y: Entry)
    requires Sound(s) && Orderly(s) && Enabled(s, e) && (e.Open? || e.Subscribe? || e.Unsubscribe?)
    requires AllCoherent(s) && Listed(Apply(s, e), q, y) && Slot(y.origin) != ""
    ensures Apply(s, e).chains != [] && y.id in Apply(s, e).seen && Coherent(Apply(s, e), q, y)
  {
    ListedBefore(s, e, q, y);
    if e.Subscribe? && q == e.socket && y == Entry(s.ids, e.origin) {
      NewcomerCoherent(s, e);
    } else {
      CoherentLike(s, Apply(s, e), q, y);
    }
  }

  lemma ListedBefore(s: State, e: Event, q: nat, y: Entry)
    requires SocketsInv(s) && Enabled(s, e) && (e.Open? || e.Subscribe? || e.Unsubscribe?)
    requires Listed(Apply(s, e), q, y)
    ensures (e.Subscribe? && q == e.socket && y == Entry(s.ids, e.origin)) || Listed(s, q, y)
    ensures Listed(s, q, y) ==> y.id in Apply(s, e).seen && y.id in s.seen && Apply(s, e).seen[y.id] == s.seen[y.id]
  {
    if e.Unsubscribe? {
      Removed(s.sockets[e.socket], e.at);
      SocketsKept(s, e);
    }
  }

  /** A clean step keeps broadcasts in order and every dapp coherent. */
  lemma StepKeeps(s: State, e: Event)
    requires Sound(s) && Orderly(s) && AllCoherent(s) && Enabled(s, e) && Clean(s, e) && (e.Switch? ==> e.origin.Some?)
    ensures Sound(Apply(s, e)) && Orderly(Apply(s, e)) && AllCoherent(Apply(s, e))
  {
    var t := Apply(s, e);
    StepSound(s, e);
    OrderlyAfter(s, e);
    forall q, y | Listed(t, q, y) && Slot(y.origin) != "" ensures Coherent(t, q, y) {
      match e
      case Open => CoherentUnderListing(s, e, q, y);
      case Subscribe(_, _) => CoherentUnderListing(s, e, q, y);
      case Unsubscribe(_, _) => CoherentUnderListing(s, e, q, y);
      case Switch(_, _) => CoherentUnderSwitch(s, e, q, y);
      case Start(k) => CoherentUnderStart(s, k, q, y);
      case Deliver(k) => CoherentUnderDeliver(s, k, q, y);
      case _ => CoherentUnderUi(s, e, q, y);
    }
  }

  lemma {:induction false} RunKeeps(s: State, es: seq<Event>, t: State)
    requires Sound(s) && Orderly(s) && AllCoherent(s) && Runs(s, es, t) && CleanRun(s, es) && ScopedSwitches(es)
    ensures Sound(t) && Orderly(t) && AllCoherent(t)
    decreases |es|
  {
    if es != [] {
      StepKeeps(s, es[0]);
      RunKeeps(Apply(s, es[0]), es[1..], t);
    }
  }

  /** A server that has just come up over a sound store. */
  ghost predicate Initial(s: State) {
    StoreInv(s) && s.overrides == map[] && s.sockets == [] && s.seen == map[] && s.casts == [] && s.ui.Idle?
  }

  /** The subscription last saw the chain the server reports for its dapp. */
  predicate UpToDate(s: State, y: Entry)
    requires s.chains != [] && y.id in s.seen
  {
    s.seen[y.id] == ChainForOrigin(s, y.origin)
  }

  /** In every clean run, once all broadcasts are through, every subscription of
      a dapp last saw exactly the chain the server reports for that dapp. */
  lemma SubscribersSeeTheirChain(s: State, es: seq<Event>, t: State)
    requires Initial(s) && Runs(s, es, t) && Quiet(t) && ScopedSwitches(es) && CleanRun(s, es)
    ensures t.chains != []
    ensures forall q, y | Listed(t, q, y) && Slot(y.origin) != "" :: y.id in t.seen && UpToDate(t, y)
  {
    RunKeeps(s, es, t);
    DappIsRemembered(t);
    forall q, y | Listed(t, q, y) && Slot(y.origin) != "" ensures y.id in t.seen && UpToDate(t, y) {
      assert Coherent(t, q, y);
      AfterNone(t.casts, KindFor(t.overrides, y.origin), q, y, t.seen[y.id]);
    }
  }

  /** And in every run what is reported is a known EVM chain. */
  lemma ReportedChainIsEvm(s: State, es: seq<Event>, t: State, origin: Option<string>)
    requires Initial(s) && Runs(s, es, t) && ScopedSwitches(es)
    ensures t.chains != [] && IsEvm(t.chains, ChainForOrigin(t, origin))
  {
    RunSound(s, es, t);
    DappIsRemembered(t);
  }

  /** The first broadcast in line at its socket, among the first `n`. */
  lemma {:induction false} Foremost(casts: seq<Broadcast>, n: nat) returns (k: nat)
    requires n <= |casts| && exists i :: 0 <= i < n && casts[i].cursor.Held?
    ensures k < n && casts[k].cursor.Held?
    ensures forall i | 0 <= i < n && casts[i].cursor.Held? :: casts[k].cursor.ticket <= casts[i].cursor.ticket
    decreases n
  {
    if casts[n - 1].cursor.Held? {
      k := n - 1;
      if exists i :: 0 <= i < n - 1 && casts[i].cursor.Held? {
        var j := Foremost(casts, n - 1);
        if casts[j].cursor.ticket <= casts[k].cursor.ticket {
          k := j;
        }
      }
    } else {
      k := Foremost(casts, n - 1);
    }
  }

  lemma {:induction false} FirstScheduled(casts: seq<Broadcast>) returns (k: nat)
    requires exists i :: 0 <= i < |casts| && casts[i].cursor.Scheduled?
    ensures k < |casts| && casts[k].cursor.Scheduled? && forall i | 0 <= i < k :: !casts[i].cursor.Scheduled?
  {
    k := 0;
    if !casts[0].cursor.Scheduled? {
      assert exists i :: 0 <= i < |casts[1..]| && casts[1..][i].cursor.Scheduled? by {
        var i :| 0 <= i < |casts| && casts[i].cursor.Scheduled?;
        assert casts[1..][i - 1].cursor.Scheduled?;
      }
      k := FirstScheduled(casts[1..]);
      k := k + 1;
    }
  }

  /** Broadcasts never wait on each other for ever: while one is not through,
      some broadcast can start or make its send. */
  lemma NeverStuck(s: State, es: seq<Event>, t: State)
    requires Initial(s) && Runs(s, es, t) && ScopedSwitches(es)
    requires exists k :: 0 <= k < |t.casts| && !t.casts[k].cursor.Finished?
    ensures exists e: Event :: (e.Start? || e.Deliver?) && Enabled(t, e)
  {
    RunSound(s, es, t);
    if exists i :: 0 <= i < |t.casts| && t.casts[i].cursor.Scheduled? {
      var k := FirstScheduled(t.casts);
      assert Enabled(t, Start(k));
    } else {
      var k := Foremost(t.casts, |t.casts|);
      assert Enabled(t, Deliver(k));
    }
  }

  // Broadcasts that overtake.

  /** A later broadcast passes the socket where an earlier one is held exactly
      when nothing matches on its way, up to and including that socket. */
  lemma PassesExactly(s: State, k: nat, q: nat)
    requires CastsInv(s) && Enabled(s, Deliver(k)) && s.casts[k].cursor.socket < q < s.casts[k].limit
    ensures var c, r := s.casts[k], Resume(s, s.casts[k]);
            r.Finished? || (r.Held? && r.socket > q) <==>
            Clear(s.overrides, c.filter, c.cursor.rest)
            && ClearBetween(s.overrides, s.sockets, c.filter, c.cursor.socket, q + 1)
  {
    var c, r := s.casts[k], Resume(s, s.casts[k]);
    assert CastInv(c, |s.sockets|, s.ids, s.tickets);
    ScanMeaning(s.overrides, s.sockets, c.filter, c.cursor.socket, c.cursor.rest, c.limit, s.tickets);
    if r.Held? && r.socket <= q {
      var list := if r.socket == c.cursor.socket then c.cursor.rest else s.sockets[r.socket];
      var n :| 0 <= n < |list| && list[n] == r.entry;
      assert r.entry in list;
    }
  }

  /** In any state a run reaches, a broadcast overtakes an earlier one of its
      kind only if what that one counts on is gone: the subscription it is
      telling, or one it has still to tell there, is unlisted or pinned. */
  lemma OvertakenLostItsPlace(s: State, e: Event, i: nat, k: nat)
    requires Sound(s) && Enabled(s, e) && Moved(s, e) == Some(k) && i < k && s.casts[i].filter == s.casts[k].filter
    requires Behind(s.overrides, s.casts[i], s.casts[k]) && !Behind(s.overrides, s.casts[i], Apply(s, e).casts[k])
    ensures !Kept(s.overrides, s.sockets, s.casts[i])
  {
    if Kept(s.overrides, s.sockets, s.casts[i]) {
      assert CastInv(s.casts[i], |s.sockets|, s.ids, s.tickets);
      match e
      case Start(_) =>
        StartedBefore(s, i, k);
        BeginBehind(s, s.overrides, s.casts[i], s.casts[k].chain);
      case Deliver(_) =>
        ResumeBehind(s, i, k);
    }
  }

  lemma StartedBefore(s: State, i: nat, k: nat)
    requires Enabled(s, Start(k)) && i < k
    ensures !s.casts[i].cursor.Scheduled?
  {
  }

  /** And it is gone only by an event that hit that broadcast in its send. */
  lemma PlaceLostUncleanly(s: State, e: Event, i: nat)
    requires Sound(s) && Orderly(s) && Enabled(s, e) && i < |s.casts| && i < |Apply(s, e).casts|
    requires !Kept(Apply(s, e).overrides, Apply(s, e).sockets, Apply(s, e).casts[i])
    ensures !Clean(s, e) && (e.Switch? || e.Unsubscribe?)
  {
    if Clean(s, e) {
      KeptAfter(s, e, i);
    }
  }

  /** Two broadcasts of one kind reach a coherent subscription, the later first:
      it ends up to date exactly when both carry the same chain. */
  lemma Overtaken(s: State, i: nat, j: nat, q: nat, y: Entry)
    requires Sound(s) && Listed(s, q, y) && Slot(y.origin) != "" && Coherent(s, q, y) && !Unannounced(s)
    requires i < j && Enabled(s, Deliver(j)) && Telling(s.casts[i], q, y) && Telling(s.casts[j], q, y)
    requires s.casts[i].filter == s.casts[j].filter == KindFor(s.overrides, y.origin)
    requires forall k | j < k < |s.casts| :: !WillTell(s.casts[k], s.casts[j].filter, q, y)
    requires Enabled(Apply(s, Deliver(j)), Deliver(i))
    ensures var t := Apply(Apply(s, Deliver(j)), Deliver(i));
            t.chains != [] && y.id in t.seen && (UpToDate(t, y) <==> s.casts[i].chain == s.casts[j].chain)
  {
    DappIsRemembered(s);
    AfterAt(s.casts, j, s.casts[j].filter, q, y, s.seen[y.id]);
  }

  // A switch without an origin.

  predicate DeliversOnly(es: seq<Event>, k: nat) {
    forall i | 0 <= i < |es| :: es[i] == Deliver(k)
  }

  /** The unfiltered broadcast has told a subscription, or has it still to tell. */
  ghost predicate Reaching(s: State, k: nat, chain: nat) {
    && SocketsInv(s) && CastsInv(s) && k < |s.casts| && s.casts[k].filter == Only(None) && s.casts[k].chain == chain
    && forall q, y | Listed(s, q, y) :: s.seen[y.id] == chain || Awaits(s.casts[k], q, y)
  }

  lemma ReachingOn(s: State, k: nat, chain: nat)
    requires Reaching(s, k, chain) && Enabled(s, Deliver(k))
    ensures Reaching(Apply(s, Deliver(k)), k, chain)
  {
    var t := Apply(s, Deliver(k));
    CastsKept(s, Deliver(k));
    SocketsKept(s, Deliver(k));
    forall q, y | Listed(t, q, y) ensures t.seen[y.id] == chain || Awaits(t.casts[k], q, y) {
      ResumeAwaits(s, k, q, y);
    }
  }

  lemma {:induction false} UnfilteredReachesAll(s: State, es: seq<Event>, t: State, k: nat, chain: nat)
    requires Reaching(s, k, chain) && Runs(s, es, t) && DeliversOnly(es, k)
    ensures Reaching(t, k, chain) && t == s.(seen := t.seen, casts := t.casts, tickets := t.tickets)
    decreases |es|
  {
    if es != [] {
      ReachingOn(s, k, chain);
      UnfilteredReachesAll(Apply(s, es[0]), es[1..], t, k, chain);
    }
  }

  /** A switch with no origin is announced to every subscription. Made when all
      was through, it leaves every dapp up to date exactly when each was on that
      chain already. */
  lemma OriginlessSwitch(s: State, chain: nat, es: seq<Event>, t: State)
    requires s.chains != [] && SocketsInv(s) && CastsInv(s) && IsEvm(s.chains, chain)
    requires Runs(Apply(s, Switch(None, chain)), es, t) && DeliversOnly(es, |s.casts|)
    requires |s.casts| < |t.casts| && t.casts[|s.casts|].cursor.Finished?
    ensures t.chains == s.chains && t.sockets == s.sockets && SocketsInv(t)
    ensures (forall q, y | Listed(t, q, y) && Slot(y.origin) != "" :: UpToDate(t, y))
       <==> (forall q, y | Listed(s, q, y) && Slot(y.origin) != "" :: ChainForOrigin(s, y.origin) == chain)
  {
    var k, u := |s.casts|, Apply(s, Switch(None, chain));
    CastsKept(s, Switch(None, chain));
    forall q, y | Listed(u, q, y) ensures Awaits(u.casts[k], q, y) {
      BeginAwaits(s, u.overrides, Only(None), chain, q, y);
    }
    UnfilteredReachesAll(u, es, t, k, chain);
    forall q, y | Listed(s, q, y) && Slot(y.origin) != ""
      ensures UpToDate(t, y) <==> ChainForOrigin(s, y.origin) == chain
    {
      assert Listed(t, q, y) && t.seen[y.id] == chain;
      SameReport(s, t, chain, y.origin);
    }
    assert forall q, y :: Listed(t, q, y) == Listed(s, q, y);
  }

  lemma SameReport(s: State, t: State, chain: nat, origin: Option<string>)
    requires s.chains != [] && t.chains == s.chains && t.current == s.current && t.dapp == s.dapp && Slot(origin) != ""
    requires t.overrides == s.overrides["" := chain]
    ensures ChainForOrigin(t, origin) == ChainForOrigin(s, origin)
  {
  }

  /** The server's dictionaries over the store's chain fields, with the frames of
      the broadcasts under way; each method is one await-free segment. What a
      subscription has seen is history. */
  class RpcServer {
    var chains: seq<Chain>
    var current: nat
    var dapp: nat
    var overrides: map<string, nat>
    var sockets: seq<seq<Entry>>
    var ids: nat
    var casts: seq<Broadcast>
    var tickets: nat
    ghost var seen: map<nat, nat>
    ghost var ui: Ui

    ghost function Abs(): State
      reads this
    {
      State(chains, current, dapp, overrides, sockets, ids, seen, casts, tickets, ui)
    }

    /** `Store.set_current_chain`, on the Qt thread. */
    method SetCurrentChain(chain: nat)
      requires Enabled(Abs(), UiSet(chain))
      modifies this
      ensures Abs() == Apply(old(Abs()), UiSet(chain))
    {
      current := chain;
      if IsEvm(chains, chain) {
        dapp := chain;
      }
      ui := Announcing(chain);
    }

    /** `Store.current_chain`. */
    method GetCurrentChain() returns (cur: Chain)
      requires chains != []
      ensures cur == CurrentChain(Abs())
    {
      assert chains[0..] == chains;
      for i := 0 to |chains|
        invariant FindChain(chains, current) == FindChain(chains[i..], current)
      {
        assert chains[i..][1..] == chains[i + 1..];
        if chains[i].id == current {
          return chains[i];
        }
      }
      cur := chains[0];
    }

    /** `Store.dapp_chain`. */
    method GetDappChain() returns (c: Chain)
      requires chains != []
      ensures c == DappChain(Abs())
    {
      var cur := GetCurrentChain();
      if cur.evm {
        return cur;
      }
      assert chains[0..] == chains;
      for i := 0 to |chains|
        invariant FindEvm(chains, dapp) == FindEvm(chains[i..], dapp)
      {
        assert chains[i..][1..] == chains[i + 1..];
        if chains[i].id == dapp && chains[i].evm {
          return chains[i];
        }
      }
      var first := FirstEvm(chains);
      c := if first.Some? then first.value else cur;
    }

    /** `_chain_for_origin`. */
    method ReportChain(origin: Option<string>) returns (id: nat)
      requires chains != []
      ensures id == ChainForOrigin(Abs(), origin)
    {
      if Slot(origin) in overrides {
        return overrides[Slot(origin)];
      }
      var c := GetDappChain();
      id := c.id;
    }

    /** The window's announcement of a pick: `set_rpc_chain`, for an EVM chain. */
    method AnnounceChain(chain: nat)
      requires chains != [] && ui == Announcing(chain)
      modifies this`casts, this`ui
      ensures Abs() == Apply(old(Abs()), UiAnnounce)
    {
      var cur := GetCurrentChain();
      if cur.evm {
        casts := casts + [Broadcast(Unpinned, chain, 0, Scheduled)];
      }
      ui := Idle;
    }

    /** The loops of `_broadcast_event`, from where a broadcast is to its next send. */
    method NextSend(f: Filter, from: nat, listed: seq<Entry>, limit: nat, ticket: nat) returns (c: Cursor)
      ensures c == Scan(overrides, sockets, f, from, listed, limit, ticket)
    {
      var p, rest := from, listed;
      while true
        invariant Scan(overrides, sockets, f, p, rest, limit, ticket)
               == Scan(overrides, sockets, f, from, listed, limit, ticket)
        decreases if p < |sockets| then |sockets| - p else 0
      {
        while rest != []
          invariant Scan(overrides, sockets, f, p, rest, limit, ticket)
                 == Scan(overrides, sockets, f, from, listed, limit, ticket)
          decreases |rest|
        {
          if Matches(overrides, f, rest[0].origin) {
            return Held(p, rest[0], rest[1..], ticket);
          }
          rest := rest[1..];
        }
        if p + 1 >= limit || p + 1 >= |sockets| {
          return Finished;
        }
        p := p + 1;
        rest := sockets[p];
      }
    }

    /** A broadcast's first segment: nothing to do without sockets. */
    method FirstSend(f: Filter, ticket: nat) returns (c: Cursor)
      ensures c == Begin(overrides, sockets, f, ticket)
    {
      if sockets == [] {
        return Finished;
      }
      c := NextSend(f, 0, sockets[0], |sockets|, ticket);
    }

    /** `wallet_switchEthereumChain`, up to its broadcast's first send. */
    method SwitchChain(origin: Option<string>, chain: nat) returns (r: Result<()>)
      requires chains != []
      modifies this`overrides, this`casts, this`tickets
      ensures Abs() == Apply(old(Abs()), Switch(origin, chain))
      ensures r.Raised? <==> !IsEvm(chains, chain)
    {
      if !IsEvm(chains, chain) {
        return Raised("Unrecognized chain");
      }
      overrides := overrides[Slot(origin) := chain];
      var cursor := FirstSend(Only(origin), tickets);
      casts, tickets := casts + [Broadcast(Only(origin), chain, |sockets|, cursor)], tickets + 1;
      r := Ok(());
    }

    /** A socket is listed from its first subscription on, of whatever type. */
    method OpenSocket()
      requires chains != []
      modifies this`sockets
      ensures Abs() == Apply(old(Abs()), Open)
    {
      sockets := sockets + [[]];
    }

    /** `_register_subscription`, by a dapp that knows its chain. */
    method RegisterSubscription(socket: nat, origin: Option<string>) returns (id: nat)
      requires Enabled(Abs(), Subscribe(socket, origin))
      modifies this`sockets, this`ids, this`seen
      ensures Abs() == Apply(old(Abs()), Subscribe(socket, origin))
      ensures id == old(ids) && sockets == old(sockets)[socket := old(sockets)[socket] + [Entry(id, origin)]]
    {
      id := ids;
      seen := seen[id := ChainForOrigin(Abs(), origin)];
      sockets := sockets[socket := sockets[socket] + [Entry(id, origin)]];
      ids := ids + 1;
    }

    method UnregisterSubscription(socket: nat, at: nat)
      requires Enabled(Abs(), Unsubscribe(socket, at))
      modifies this`sockets, this`seen
      ensures Abs() == Apply(old(Abs()), Unsubscribe(socket, at))
      ensures sockets == old(sockets)[socket := old(sockets[socket][..at] + sockets[socket][at + 1..])]
    {
      seen := seen - {sockets[socket][at].id};
      sockets := sockets[socket := sockets[socket][..at] + sockets[socket][at + 1..]];
    }

    /** A scheduled broadcast starts: it lists the sockets and runs on to its
        first send. */
    method StartBroadcast(k: nat)
      requires Enabled(Abs(), Start(k))
      modifies this`casts, this`tickets
      ensures Abs() == Apply(old(Abs()), Start(k))
    {
      var cursor := FirstSend(casts[k].filter, tickets);
      casts, tickets := casts[k := casts[k].(limit := |sockets|, cursor := cursor)], tickets + 1;
    }

    /** A send is through: its subscription has the chain, and the broadcast runs
        on to its next one. */
    method DeliverAndGoOn(k: nat)
      requires Enabled(Abs(), Deliver(k))
      modifies this`casts, this`tickets, this`seen
      ensures Abs() == Apply(old(Abs()), Deliver(k))
    {
      var c := casts[k];
      var cursor := NextSend(c.filter, c.cursor.socket, c.cursor.rest, c.limit, tickets);
      casts, tickets := casts[k := c.(cursor := cursor)], tickets + 1;
      seen := Told(seen, c.cursor.entry.id, c.chain);
    }

    /** `Store.add_chain`, for an id not known yet. */
    method AddChain(chain: nat)
      requires Enabled(Abs(), NewChain(chain))
      modifies this`chains
      ensures Abs() == Apply(old(Abs()), NewChain(chain))
      ensures chains == old(chains) + [Chain(chain, true)]
    {
      chains := chains + [Chain(chain, true)];
    }
  }
}

/** Which chain a dapp is told, read off the history of a run alone: what was
    added, what was picked in the wallet, and what dapps switched to. */
module RpcHistory {
  import opened Options
  import opened RpcChains

  /** Before the `i`-th event the chain is known and an EVM chain: from the start,
      or because it was added. */
  ghost predicate EvmBy(s: State, es: seq<Event>, i: nat, chain: nat)
    requires i <= |es|
  {
    || (exists n :: 0 <= n < |s.chains| && s.chains[n] == Chain(chain, true))
    || (exists j :: 0 <= j < i && es[j] == NewChain(chain))
  }

  /** No origin and the empty origin are one dapp. */
  predicate SameDapp(a: Option<string>, b: Option<string>) {
    a == b || (a in {None, Some("")} && b in {None, Some("")})
  }

  /** The `i`-th event is a switch by the dapp, to a chain that is accepted. */
  ghost predicate Switches(s: State, es: seq<Event>, i: nat, o: Option<string>)
    requires i < |es|
  {
    es[i].Switch? && SameDapp(es[i].origin, o) && EvmBy(s, es, i, es[i].chain)
  }

  /** The `i`-th event is a pick of an EVM chain in the wallet. */
  ghost predicate Picks(s: State, es: seq<Event>, i: nat)
    requires i < |es|
  {
    es[i].UiSet? && EvmBy(s, es, i, es[i].chain)
  }

  ghost predicate LastSwitch(s: State, es: seq<Event>, i: nat, o: Option<string>) {
    i < |es| && Switches(s, es, i, o) && forall k | i < k < |es| :: !Switches(s, es, k, o)
  }

  ghost predicate NoSwitch(s: State, es: seq<Event>, o: Option<string>) {
    forall k | 0 <= k < |es| :: !Switches(s, es, k, o)
  }

  ghost predicate LastPick(s: State, es: seq<Event>, i: nat) {
    i < |es| && Picks(s, es, i) && forall k | i < k < |es| :: !Picks(s, es, k)
  }

  ghost predicate NoPick(s: State, es: seq<Event>) {
    forall k | 0 <= k < |es| :: !Picks(s, es, k)
  }

  // One step.

  lemma EvmIsListed(chains: seq<Chain>, chain: nat)
    ensures IsEvm(chains, chain) <==> exists n :: 0 <= n < |chains| && chains[n] == Chain(chain, true)
  {
    if IsEvm(chains, chain) {
      var c :| c in chains && c.id == chain && c.evm;
      assert c == Chain(chain, true);
    }
    if n :| 0 <= n < |chains| && chains[n] == Chain(chain, true) {
      assert chains[n] in chains;
    }
  }

  /** An EVM chain is known after a step when it was before or has been added. */
  lemma EvmStep(s: State, e: Event, chain: nat)
    requires Enabled(s, e)
    ensures IsEvm(Apply(s, e).chains, chain) <==> IsEvm(s.chains, chain) || e == NewChain(chain)
  {
    if e.NewChain? {
      var t := Apply(s, e);
      assert t.chains[|s.chains|] == Chain(e.chain, true);
      assert forall c :: c in t.chains <==> c in s.chains || c == Chain(e.chain, true);
    }
  }

  /** The history after the first event, seen from the state it led to. */
  lemma EvmByRest(s: State, es: seq<Event>, i: nat, chain: nat)
    requires es != [] && Enabled(s, es[0]) && i < |es|
    ensures EvmBy(s, es, i + 1, chain) <==> EvmBy(Apply(s, es[0]), es[1..], i, chain)
  {
    EvmStep(s, es[0], chain);
    EvmIsListed(s.chains, chain);
    EvmIsListed(Apply(s, es[0]).chains, chain);
    if j :| 0 <= j < i + 1 && es[j] == NewChain(chain) {
      assert j > 0 ==> es[1..][j - 1] == NewChain(chain);
    }
    if j :| 0 <= j < i && es[1..][j] == NewChain(chain) {
      assert es[j + 1] == NewChain(chain);
    }
  }

  lemma EventsRest(s: State, es: seq<Event>, o: Option<string>)
    requires es != [] && Enabled(s, es[0])
    ensures forall k | 0 <= k < |es| - 1 :: Switches(s, es, k + 1, o) <==> Switches(Apply(s, es[0]), es[1..], k, o)
    ensures forall k | 0 <= k < |es| - 1 :: Picks(s, es, k + 1) <==> Picks(Apply(s, es[0]), es[1..], k)
  {
    forall k | 0 <= k < |es| - 1
      ensures Switches(s, es, k + 1, o) <==> Switches(Apply(s, es[0]), es[1..], k, o)
      ensures Picks(s, es, k + 1) <==> Picks(Apply(s, es[0]), es[1..], k)
    {
      if es[k + 1].Switch? || es[k + 1].UiSet? {
        EvmByRest(s, es, k, es[k + 1].chain);
      }
    }
  }

  /** The last switch or pick is the first event or one of the rest. */
  lemma LastRest(s: State, es: seq<Event>, o: Option<string>)
    requires es != [] && Enabled(s, es[0])
    ensures var u, rest := Apply(s, es[0]), es[1..];
            && (forall i | 0 < i < |es| :: LastSwitch(s, es, i, o) <==> LastSwitch(u, rest, i - 1, o))
            && (LastSwitch(s, es, 0, o) <==> Switches(s, es, 0, o) && NoSwitch(u, rest, o))
            && (NoSwitch(s, es, o) <==> !Switches(s, es, 0, o) && NoSwitch(u, rest, o))
    ensures var u, rest := Apply(s, es[0]), es[1..];
            && (forall i | 0 < i < |es| :: LastPick(s, es, i) <==> LastPick(u, rest, i - 1))
            && (LastPick(s, es, 0) <==> Picks(s, es, 0) && NoPick(u, rest))
            && (NoPick(s, es) <==> !Picks(s, es, 0) && NoPick(u, rest))
  {
    var u, rest := Apply(s, es[0]), es[1..];
    EventsRest(s, es, o);
    forall k | 0 < k < |es|
      ensures Switches(s, es, k, o) <==> Switches(u, rest, k - 1, o)
      ensures Picks(s, es, k) <==> Picks(u, rest, k - 1)
    {
      assert k == (k - 1) + 1;
    }
    assert forall k | 0 <= k < |rest| :: Switches(u, rest, k, o) <==> Switches(s, es, k + 1, o);
    assert forall k | 0 <= k < |rest| :: Picks(u, rest, k) <==> Picks(s, es, k + 1);
  }

  lemma SlotsTellDapps(a: Option<string>, b: Option<string>)
    ensures SameDapp(a, b) <==> Slot(a) == Slot(b)
  {
  }

  lemma PinStep(s: State, es: seq<Event>, o: Option<string>)
    requires es != [] && Enabled(s, es[0])
    ensures var pins := Apply(s, es[0]).overrides;
            && (Switches(s, es, 0, o) ==> Slot(o) in pins && pins[Slot(o)] == es[0].chain)
            && (!Switches(s, es, 0, o) ==>
                  (Slot(o) in pins <==> Slot(o) in s.overrides)
                  && (Slot(o) in pins ==> pins[Slot(o)] == s.overrides[Slot(o)]))
  {
    if es[0].Switch? {
      SlotsTellDapps(es[0].origin, o);
      EvmIsListed(s.chains, es[0].chain);
    }
  }

  lemma PickStep(s: State, es: seq<Event>)
    requires es != [] && Enabled(s, es[0])
    ensures Apply(s, es[0]).dapp == if Picks(s, es, 0) then es[0].chain else s.dapp
  {
    if es[0].UiSet? {
      EvmIsListed(s.chains, es[0].chain);
    }
  }

  // Whole runs.

  /** Switches to a chain are accepted from when it was added, for good. */
  lemma {:induction false} KnownAfterRun(s: State, es: seq<Event>, t: State, chain: nat)
    requires Runs(s, es, t)
    ensures IsEvm(t.chains, chain) <==> EvmBy(s, es, |es|, chain)
    decreases |es|
  {
    if es == [] {
      EvmIsListed(s.chains, chain);
    } else {
      var u := Apply(s, es[0]);
      KnownAfterRun(u, es[1..], t, chain);
      EvmStep(s, es[0], chain);
      EvmIsListed(s.chains, chain);
      EvmIsListed(u.chains, chain);
      assert EvmBy(s, es, |es|, chain) <==> EvmBy(u, es[1..], |es| - 1, chain) by {
        AddedRest(es, chain);
      }
    }
  }

  lemma AddedRest(es: seq<Event>, chain: nat)
    requires es != []
    ensures (exists j :: 0 <= j < |es| && es[j] == NewChain(chain)) <==>
            es[0] == NewChain(chain) || exists j :: 0 <= j < |es| - 1 && es[1..][j] == NewChain(chain)
  {
    if j :| 0 < j < |es| && es[j] == NewChain(chain) {
      assert es[1..][j - 1] == NewChain(chain);
    }
    if j :| 0 <= j < |es| - 1 && es[1..][j] == NewChain(chain) {
      assert es[j + 1] == NewChain(chain);
    }
  }

  /** A dapp is pinned to the chain it last switched to. */
  lemma {:induction false} PinAfterRun(s: State, es: seq<Event>, t: State, o: Option<string>)
    requires Runs(s, es, t)
    ensures forall i: nat | LastSwitch(s, es, i, o) :: Slot(o) in t.overrides && t.overrides[Slot(o)] == es[i].chain
    ensures NoSwitch(s, es, o) ==>
              (Slot(o) in t.overrides <==> Slot(o) in s.overrides)
              && (Slot(o) in t.overrides ==> t.overrides[Slot(o)] == s.overrides[Slot(o)])
    decreases |es|
  {
    if es != [] {
      PinAfterRun(Apply(s, es[0]), es[1..], t, o);
      PinStep(s, es, o);
      LastRest(s, es, o);
    }
  }

  /** The remembered chain is the EVM chain last picked. */
  lemma {:induction false} PickAfterRun(s: State, es: seq<Event>, t: State)
    requires Runs(s, es, t)
    ensures forall i: nat | LastPick(s, es, i) :: t.dapp == es[i].chain
    ensures NoPick(s, es) ==> t.dapp == s.dapp
    decreases |es|
  {
    if es != [] {
      PickAfterRun(Apply(s, es[0]), es[1..], t);
      PickStep(s, es);
      LastRest(s, es, None);
    }
  }

  lemma {:induction false} StoreAfterRun(s: State, es: seq<Event>, t: State)
    requires StoreInv(s) && Runs(s, es, t)
    ensures StoreInv(t)
    decreases |es|
  {
    if es != [] {
      StoreKept(s, es[0]);
      StoreAfterRun(Apply(s, es[0]), es[1..], t);
    }
  }

  /** The chain is the one history gives the dapp: what it last switched to, else
      what was last picked in the wallet, else the chain remembered at the start. */
  ghost predicate Due(s: State, es: seq<Event>, o: Option<string>, chain: nat) {
    && (forall i: nat | LastSwitch(s, es, i, o) :: chain == es[i].chain)
    && (NoSwitch(s, es, o) ==>
          && (forall i: nat | LastPick(s, es, i) :: chain == es[i].chain)
          && (NoPick(s, es) ==> chain == s.dapp))
  }

  /** Every dapp is reported the chain that is due to it. */
  lemma ReportedIsDue(s: State, es: seq<Event>, t: State, o: Option<string>)
    requires StoreInv(s) && s.overrides == map[] && Runs(s, es, t)
    ensures t.chains != [] && Due(s, es, o, ChainForOrigin(t, o))
  {
    StoreAfterRun(s, es, t);
    DappIsRemembered(t);
    PinAfterRun(s, es, t, o);
    PickAfterRun(s, es, t);
  }

  lemma {:induction false} LastOfSome(s: State, es: seq<Event>, o: Option<string>, n: nat) returns (i: nat)
    requires n <= |es| && exists k :: 0 <= k < n && Switches(s, es, k, o)
    requires forall k | n <= k < |es| :: !Switches(s, es, k, o)
    ensures LastSwitch(s, es, i, o)
    decreases n
  {
    if Switches(s, es, n - 1, o) {
      i := n - 1;
    } else {
      i := LastOfSome(s, es, o, n - 1);
    }
  }

  /** Once a network was added, a dapp's switch to it is accepted, and it is the
      chain reported to that dapp until the dapp switches elsewhere. */
  lemma AddThenSwitch(s: State, es: seq<Event>, t: State, j: nat, i: nat, o: string, chain: nat)
    requires Runs(s, es, t) && j < i < |es| && es[j] == NewChain(chain) && es[i] == Switch(Some(o), chain)
    requires forall k | i < k < |es| && es[k].Switch? && SameDapp(es[k].origin, Some(o)) :: es[k].chain == chain
    ensures IsEvm(t.chains, chain) && t.chains != [] && ChainForOrigin(t, Some(o)) == chain
  {
    KnownAfterRun(s, es, t, chain);
    PinAfterRun(s, es, t, Some(o));
    assert Switches(s, es, i, Some(o));
    var last := LastOfSome(s, es, Some(o), |es|);
    assert t.chains != [] by {
      assert exists c :: c in t.chains && c.id == chain && c.evm;
    }
  }

  /** And a pick of it in the wallet is what every dapp that never switched is
      reported, until the next pick. */
  lemma AddThenPick(s: State, es: seq<Event>, t: State, j: nat, i: nat, o: Option<string>, chain: nat)
    requires StoreInv(s) && s.overrides == map[] && Runs(s, es, t)
    requires j < i < |es| && es[j] == NewChain(chain) && es[i] == UiSet(chain)
    requires forall k | i < k < |es| :: !es[k].UiSet?
    requires forall k | 0 <= k < |es| :: !(es[k].Switch? && SameDapp(es[k].origin, o))
    ensures t.chains != [] && ChainForOrigin(t, o) == chain
  {
    assert LastPick(s, es, i);
    ReportedIsDue(s, es, t, o);
  }

  lemma SeesWhatIsDue(s: State, es: seq<Event>, t: State, y: Entry)
    requires StoreInv(s) && s.overrides == map[] && Runs(s, es, t)
    requires t.chains != [] && y.id in t.seen && UpToDate(t, y)
    ensures Due(s, es, y.origin, t.seen[y.id])
  {
    ReportedIsDue(s, es, t, y.origin);
  }

  /** In every clean run, once all broadcasts are through, every subscription of
      a dapp last saw the chain that is due to the dapp. */
  lemma SubscribersSeeWhatIsDue(s: State, es: seq<Event>, t: State)
    requires Initial(s) && Runs(s, es, t) && Quiet(t) && ScopedSwitches(es) && CleanRun(s, es)
    ensures forall q, y | Listed(t, q, y) && y.origin !in {None, Some("")} ::
              y.id in t.seen && Due(s, es, y.origin, t.seen[y.id])
  {
    SubscribersSeeTheirChain(s, es, t);
    forall q, y | Listed(t, q, y) && y.origin !in {None, Some("")}
      ensures y.id in t.seen && Due(s, es, y.origin, t.seen[y.id])
    {
      SeesWhatIsDue(s, es, t, y);
    }
  }

  // The store's chains, sound or not.

  /** The first chain with the id. */
  ghost predicate FirstWithId(chains: seq<Chain>, id: nat, c: Chain) {
    exists i :: 0 <= i < |chains| && chains[i] == c && c.id == id && forall j | 0 <= j < i :: chains[j].id != id
  }

  ghost predicate FirstOfEvm(chains: seq<Chain>, c: Chain) {
    exists i :: 0 <= i < |chains| && chains[i] == c && c.evm && forall j | 0 <= j < i :: !chains[j].evm
  }

  lemma {:induction false} FindChainFirst(chains: seq<Chain>, id: nat)
    ensures FindChain(chains, id).Some? ==> FirstWithId(chains, id, FindChain(chains, id).value)
    ensures FindChain(chains, id).None? ==> forall i | 0 <= i < |chains| :: chains[i].id != id
  {
    if chains != [] && chains[0].id != id {
      var rest := chains[1..];
      FindChainFirst(rest, id);
      assert chains == [chains[0]] + rest;
      if FindChain(chains, id).Some? {
        var c := FindChain(chains, id).value;
        var i :| 0 <= i < |rest| && rest[i] == c && c.id == id && forall j | 0 <= j < i :: rest[j].id != id;
        assert chains[i + 1] == c;
      }
    }
  }

  lemma {:induction false} FirstEvmFirst(chains: seq<Chain>)
    ensures FirstEvm(chains).Some? ==> FirstOfEvm(chains, FirstEvm(chains).value)
    ensures FirstEvm(chains).None? ==> forall i | 0 <= i < |chains| :: !chains[i].evm
  {
    if chains != [] && !chains[0].evm {
      var rest := chains[1..];
      FirstEvmFirst(rest);
      assert chains == [chains[0]] + rest;
      if FirstEvm(chains).Some? {
        var c := FirstEvm(chains).value;
        var i :| 0 <= i < |rest| && rest[i] == c && c.evm && forall j | 0 <= j < i :: !rest[j].evm;
        assert chains[i + 1] == c;
      }
    }
  }

  /** Whatever the settings file holds: the current chain is the first with the
      current id, else the first of all; dapps see it when it is EVM, else the
      remembered EVM chain, else the first EVM chain, else the current one. */
  lemma DappChainMeaning(s: State)
    requires s.chains != []
    ensures var cur := CurrentChain(s);
            FirstWithId(s.chains, s.current, cur)
            || (cur == s.chains[0] && forall i | 0 <= i < |s.chains| :: s.chains[i].id != s.current)
    ensures var cur, c := CurrentChain(s), DappChain(s);
            if cur.evm then c == cur
            else if exists n :: 0 <= n < |s.chains| && s.chains[n] == Chain(s.dapp, true) then c == Chain(s.dapp, true)
            else FirstOfEvm(s.chains, c) || (c == cur && forall i | 0 <= i < |s.chains| :: !s.chains[i].evm)
  {
    FindChainFirst(s.chains, s.current);
    FindEvmMeaning(s.chains, s.dapp);
    EvmIsListed(s.chains, s.dapp);
    FirstEvmFirst(s.chains);
  }

  // Who is listed.

  lemma CutOut(list: seq<Entry>, n: nat, y: Entry)
    requires n < |list| && Ascending(list)
    ensures y in list[..n] + list[n + 1..] <==> y in list && y != list[n]
  {
    assert list == list[..n] + [list[n]] + list[n + 1..];
    assert forall i | 0 <= i < |list| && i != n :: list[i] != list[n] by {
      assert forall i | 0 <= i < n :: list[i].id < list[n].id;
    }
  }

  /** A subscription is listed from when it was made until it is dropped. */
  lemma ListingStep(s: State, e: Event, q: nat, y: Entry)
    requires SocketsInv(s) && Enabled(s, e)
    ensures Listed(Apply(s, e), q, y) <==>
            || (Listed(s, q, y) && !(e.Unsubscribe? && e.socket == q && s.sockets[q][e.at] == y))
            || (e.Subscribe? && e.socket == q && y == Entry(s.ids, e.origin))
  {
    match e
    case Subscribe(p, origin) =>
      assert Apply(s, e).sockets[p] == s.sockets[p] + [Entry(s.ids, origin)];
    case Unsubscribe(p, n) =>
      CutOut(s.sockets[p], n, y);
    case _ =>
  }
}

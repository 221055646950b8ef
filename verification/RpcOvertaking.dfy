/** Concrete runs of the dapp-facing server in which a broadcast overtakes another,
    or a switch has no origin (qeth/rpc.py, `_broadcast_event` and
    `wallet_switchEthereumChain`). */
module RpcOvertaking {
  import opened Options
  import opened RpcChains

  lemma RunOf(s: State, e: Event, more: seq<Event>, t: State)
    requires Enabled(s, e) && Runs(Apply(s, e), more, t)
    ensures Runs(s, [e] + more, t)
  {
    assert ([e] + more)[1..] == more;
  }

  lemma {:induction false} RunThen(s: State, es: seq<Event>, t: State, more: seq<Event>, u: State)
    requires Runs(s, es, t) && Runs(t, more, u)
    ensures Runs(s, es + more, u)
    decreases |es|
  {
    if es == [] {
      assert es + more == more;
    } else {
      assert (es + more)[1..] == es[1..] + more;
      RunThen(Apply(s, es[0]), es[1..], t, more, u);
    }
  }

  predicate Leads(s: State, e: Event, t: State) {
    Enabled(s, e) && Apply(s, e) == t
  }

  lemma TwoSteps(s: State, e: Event, t: State, f: Event, u: State)
    requires Leads(s, e, t) && Leads(t, f, u)
    ensures Runs(s, [e, f], u)
  {
    RunOf(t, f, [], u);
    RunOf(s, e, [f] + [], u);
    assert [e] + ([f] + []) == [e, f];
  }

  lemma FourSteps(s: State, e: Event, t: State, f: Event, u: State, g: Event, v: State, h: Event, w: State)
    requires Leads(s, e, t) && Leads(t, f, u) && Leads(u, g, v) && Leads(v, h, w)
    ensures Runs(s, [e, f, g, h], w)
  {
    TwoSteps(s, e, t, f, u);
    TwoSteps(u, g, v, h, w);
    RunThen(s, [e, f], u, [g, h], w);
    assert [e, f] + [g, h] == [e, f, g, h];
  }

  lemma ScanHit(overrides: map<string, nat>, sockets: seq<seq<Entry>>, f: Filter, p: nat, rest: seq<Entry>, limit: nat,
                ticket: nat)
    requires rest != [] && Matches(overrides, f, rest[0].origin)
    ensures Scan(overrides, sockets, f, p, rest, limit, ticket) == Held(p, rest[0], rest[1..], ticket)
  {
  }

  lemma ScanOn(overrides: map<string, nat>, sockets: seq<seq<Entry>>, f: Filter, p: nat, limit: nat, ticket: nat)
    requires p + 1 < limit <= |sockets|
    ensures Scan(overrides, sockets, f, p, [], limit, ticket)
         == Scan(overrides, sockets, f, p + 1, sockets[p + 1], limit, ticket)
  {
  }

  const A := Entry(0, Some("https://a"))
  const B := Entry(1, Some("https://b"))

  /** A server over three EVM chains, on chain 1. */
  const FRESH := State([Chain(1, true), Chain(10, true), Chain(100, true)], 1, 1, map[], [], 0, map[], [], 0, Idle)

  lemma FreshIsInitial()
    ensures Initial(FRESH) && IsEvm(FRESH.chains, 10) && IsEvm(FRESH.chains, 100)
  {
    assert Chain(1, true) in FRESH.chains && Chain(10, true) in FRESH.chains && Chain(100, true) in FRESH.chains;
  }

  /** Dapps a and b have subscribed. */
  function Subscribed(sockets: seq<seq<Entry>>): State {
    FRESH.(sockets := sockets, ids := 2, seen := map[0 := 1, 1 := 1])
  }

  /** The wallet is on a chain, and of the picks so far these broadcasts are left. */
  function Moment(s: State, chain: nat, casts: seq<Broadcast>, tickets: nat): State {
    s.(current := chain, dapp := chain, casts := casts, tickets := tickets)
  }

  /** A pick, its announcement, and the start of its broadcast. */
  lemma Pick(s: State, chain: nat, first: Cursor)
    requires s.chains == FRESH.chains && s.ui.Idle? && (chain == 10 || chain == 100)
    requires forall k | 0 <= k < |s.casts| :: !s.casts[k].cursor.Scheduled?
    requires Begin(s.overrides, s.sockets, Unpinned, s.tickets) == first
    ensures Runs(s, [UiSet(chain), UiAnnounce] + [Start(|s.casts|)],
                 Moment(s, chain, s.casts + [Broadcast(Unpinned, chain, |s.sockets|, first)], s.tickets + 1))
  {
    FreshIsInitial();
    var s1 := s.(current := chain, dapp := chain, ui := Announcing(chain));
    var s2 := s1.(casts := s.casts + [Broadcast(Unpinned, chain, 0, Scheduled)], ui := Idle);
    var t := Moment(s, chain, s.casts + [Broadcast(Unpinned, chain, |s.sockets|, first)], s.tickets + 1);
    TwoSteps(s, UiSet(chain), s1, UiAnnounce, s2);
    assert s2.casts[|s.casts| := t.casts[|s.casts|]] == t.casts;
    RunOf(s2, Start(|s.casts|), [], t);
    RunThen(s, [UiSet(chain), UiAnnounce], s2, [Start(|s.casts|)] + [], t);
    assert [Start(|s.casts|)] + [] == [Start(|s.casts|)];
  }

  ghost predicate Reaches(s: State, t: State) {
    exists es :: Runs(s, es, t) && ScopedSwitches(es)
  }

  lemma Via(s: State, es: seq<Event>, t: State)
    requires Runs(s, es, t) && ScopedSwitches(es)
    ensures Reaches(s, t)
  {
  }

  lemma ReachesThen(s: State, t: State, u: State)
    requires Reaches(s, t) && Reaches(t, u)
    ensures Reaches(s, u)
  {
    var es :| Runs(s, es, t) && ScopedSwitches(es);
    var more :| Runs(t, more, u) && ScopedSwitches(more);
    RunThen(s, es, t, more, u);
    assert ScopedSwitches(es + more);
  }

  /** Everything is through and a listed dapp is out of date. */
  predicate Stale(s: State, q: nat, y: Entry) {
    Quiet(s) && Listed(s, q, y) && Slot(y.origin) != "" && s.chains != [] && y.id in s.seen && !UpToDate(s, y)
  }

  // Two sockets, and a dapp that leaves.

  const APART := Subscribed([[A], [B]])
  const LEFT := FRESH.(sockets := [[], [B]], ids := 2, seen := map[1 := 1])
  const TELLING_A := Broadcast(Unpinned, 10, 2, Held(0, A, [], 0))
  const HELD := Moment(LEFT, 10, [TELLING_A], 1)
  const PASSED := Moment(LEFT, 100, [TELLING_A, Broadcast(Unpinned, 100, 2, Held(1, B, [], 1))], 2)
  const GOING_ON :=
    Moment(LEFT, 100, [Broadcast(Unpinned, 10, 2, Held(1, B, [], 3)), Broadcast(Unpinned, 100, 2, Finished)], 4)
    .(seen := map[1 := 100])

  lemma ApartReached()
    ensures Reaches(FRESH, APART)
  {
    var s1, s2 := FRESH.(sockets := [[]]), FRESH.(sockets := [[], []]);
    var s3 := s2.(sockets := [[A], []], ids := 1, seen := map[0 := 1]);
    assert [] + [A] == [A] && [[], []][0 := [A]] == [[A], []];
    assert Leads(s2, Subscribe(0, A.origin), s3);
    assert [] + [B] == [B] && [[A], []][1 := [B]] == [[A], [B]];
    assert Leads(s3, Subscribe(1, B.origin), APART);
    FourSteps(FRESH, Open, s1, Open, s2, Subscribe(0, A.origin), s3, Subscribe(1, B.origin), APART);
    Via(FRESH, [Open, Open, Subscribe(0, A.origin), Subscribe(1, B.origin)], APART);
  }

  /** The wallet picks 10; a unsubscribes while it is being told. */
  lemma FirstPickHeld()
    ensures Reaches(APART, HELD)
  {
    ScanHit(map[], [[A], [B]], Unpinned, 0, [A], 2, 0);
    assert [A][1..] == [];
    Pick(APART, 10, Held(0, A, [], 0));
    var s := Moment(APART, 10, [] + [TELLING_A], 1);
    assert [A][..0] + [A][1..] == [] && [[A], [B]][0 := []] == [[], [B]] && APART.seen - {0} == map[1 := 1];
    assert Leads(s, Unsubscribe(0, 0), HELD);
    RunOf(s, Unsubscribe(0, 0), [], HELD);
    assert [Unsubscribe(0, 0)] + [] == [Unsubscribe(0, 0)];
    RunThen(APART, [UiSet(10), UiAnnounce] + [Start(0)], s, [Unsubscribe(0, 0)], HELD);
    Via(APART, [UiSet(10), UiAnnounce] + [Start(0)] + [Unsubscribe(0, 0)], HELD);
  }

  /** It picks 100, and that broadcast passes the socket a has left. */
  lemma SecondPickPasses()
    ensures Reaches(HELD, PASSED)
  {
    ScanOn(map[], [[], [B]], Unpinned, 0, 2, 1);
    ScanHit(map[], [[], [B]], Unpinned, 1, [B], 2, 1);
    assert [B][1..] == [];
    Pick(HELD, 100, Held(1, B, [], 1));
    assert [TELLING_A] + [Broadcast(Unpinned, 100, 2, Held(1, B, [], 1))]
        == [TELLING_A, Broadcast(Unpinned, 100, 2, Held(1, B, [], 1))];
    Via(HELD, [UiSet(100), UiAnnounce] + [Start(1)], PASSED);
  }

  /** The second pick's send to b is through; the first goes on to b. */
  lemma FirstPickGoesOn()
    ensures Reaches(PASSED, GOING_ON)
  {
    var second, through := Broadcast(Unpinned, 100, 2, Held(1, B, [], 1)), Broadcast(Unpinned, 100, 2, Finished);
    var s := PASSED;
    var s1 := Moment(LEFT, 100, [TELLING_A, through], 3).(seen := map[1 := 100]);
    assert s.seen[1 := 100] == s1.seen;
    assert Leads(s, Deliver(1), s1);
    var t := Moment(LEFT, 100, [Broadcast(Unpinned, 10, 2, Held(1, B, [], 3)), through], 4).(seen := map[1 := 100]);
    ScanOn(map[], [[], [B]], Unpinned, 0, 2, 3);
    ScanHit(map[], [[], [B]], Unpinned, 1, [B], 2, 3);
    assert [B][1..] == [];
    assert Leads(s1, Deliver(0), t);
    TwoSteps(s, Deliver(1), s1, Deliver(0), t);
    Via(PASSED, [Deliver(1), Deliver(0)], GOING_ON);
  }

  lemma FirstPickEndsLast() returns (t: State)
    ensures Reaches(GOING_ON, t)
    ensures Stale(t, 1, B)
  {
    var through := Broadcast(Unpinned, 100, 2, Finished);
    var s := Moment(LEFT, 100, [Broadcast(Unpinned, 10, 2, Held(1, B, [], 3)), through], 4).(seen := map[1 := 100]);
    t := Moment(LEFT, 100, [Broadcast(Unpinned, 10, 2, Finished), through], 5).(seen := map[1 := 10]);
    assert s.seen[1 := 10] == t.seen;
    assert Leads(s, Deliver(0), t);
    RunOf(s, Deliver(0), [], t);
    assert [Deliver(0)] + [] == [Deliver(0)];
    assert B in t.sockets[1];
    Via(GOING_ON, [Deliver(0)], t);
  }

  /** So not every run ends well. The first pick is held telling a, which leaves;
      the second passes that socket and tells b first. No switch is ever made,
      and b ends on 10 while the server reports 100. */
  lemma OvertakingBreaks()
    ensures exists t :: Initial(FRESH) && Reaches(FRESH, t) && Stale(t, 1, B)
  {
    FreshIsInitial();
    ApartReached();
    FirstPickHeld();
    SecondPickPasses();
    FirstPickGoesOn();
    var t := FirstPickEndsLast();
    ReachesThen(FRESH, APART, HELD);
    ReachesThen(FRESH, HELD, PASSED);
    ReachesThen(FRESH, PASSED, GOING_ON);
    ReachesThen(FRESH, GOING_ON, t);
  }

  // One socket, and a dapp that switches.

  const TOGETHER := Subscribed([[A, B]])
  const PINNED := TOGETHER.(overrides := map["https://a" := 100])
  const FIRST := Broadcast(Unpinned, 10, 1, Held(0, A, [B], 0))
  const OWN := Broadcast(Only(A.origin), 100, 1, Held(0, A, [B], 1))
  const SECOND := Broadcast(Unpinned, 100, 1, Held(0, B, [], 2))
  const SWITCHED := Moment(PINNED, 10, [FIRST, OWN], 2)
  const QUEUED := Moment(PINNED, 100, [FIRST, OWN, SECOND], 3)
  const JOINED :=
    Moment(PINNED, 100, [FIRST.(cursor := Held(0, B, [], 3)), OWN.(cursor := Finished), SECOND], 5)
    .(seen := map[0 := 100, 1 := 1])

  lemma TogetherReached()
    ensures Reaches(FRESH, TOGETHER)
  {
    var s1 := FRESH.(sockets := [[]]);
    var s2 := s1.(sockets := [[A]], ids := 1, seen := map[0 := 1]);
    assert [] + [A] == [A] && [[]][0 := [A]] == [[A]];
    assert Leads(s1, Subscribe(0, A.origin), s2);
    TwoSteps(FRESH, Open, s1, Subscribe(0, A.origin), s2);
    assert [A] + [B] == [A, B] && [[A]][0 := [A, B]] == [[A, B]];
    assert Leads(s2, Subscribe(0, B.origin), TOGETHER);
    RunOf(s2, Subscribe(0, B.origin), [], TOGETHER);
    assert [Subscribe(0, B.origin)] + [] == [Subscribe(0, B.origin)];
    RunThen(FRESH, [Open, Subscribe(0, A.origin)], s2, [Subscribe(0, B.origin)], TOGETHER);
    Via(FRESH, [Open, Subscribe(0, A.origin)] + [Subscribe(0, B.origin)], TOGETHER);
  }

  /** The wallet picks 10; while it is being told, a switches itself to 100. */
  lemma SwitchWhileTold()
    ensures Reaches(TOGETHER, SWITCHED)
  {
    FreshIsInitial();
    ScanHit(map[], [[A, B]], Unpinned, 0, [A, B], 1, 0);
    assert [A, B][1..] == [B];
    Pick(TOGETHER, 10, Held(0, A, [B], 0));
    var s, t := Moment(TOGETHER, 10, [] + [FIRST], 1), SWITCHED;
    ScanHit(PINNED.overrides, [[A, B]], Only(A.origin), 0, [A, B], 1, 1);
    assert Leads(s, Switch(A.origin, 100), t);
    RunOf(s, Switch(A.origin, 100), [], t);
    assert [Switch(A.origin, 100)] + [] == [Switch(A.origin, 100)];
    RunThen(TOGETHER, [UiSet(10), UiAnnounce] + [Start(0)], s, [Switch(A.origin, 100)], t);
    Via(TOGETHER, [UiSet(10), UiAnnounce] + [Start(0)] + [Switch(A.origin, 100)], SWITCHED);
  }

  /** It picks 100; that broadcast skips a, and queues for b before the first. */
  lemma SecondPickQueues()
    ensures Reaches(SWITCHED, QUEUED)
  {
    assert [A, B][1..] == [B] && [B][1..] == [];
    ScanHit(PINNED.overrides, [[A, B]], Unpinned, 0, [B], 1, 2);
    assert Scan(PINNED.overrides, [[A, B]], Unpinned, 0, [A, B], 1, 2)
        == Scan(PINNED.overrides, [[A, B]], Unpinned, 0, [B], 1, 2);
    Pick(SWITCHED, 100, Held(0, B, [], 2));
    assert [FIRST, OWN] + [SECOND] == [FIRST, OWN, SECOND];
    Via(SWITCHED, [UiSet(100), UiAnnounce] + [Start(2)], QUEUED);
  }

  /** The first pick joins the line for b, and the switch is through. */
  lemma FirstPickJoins()
    ensures Reaches(QUEUED, JOINED)
  {
    var again := FIRST.(cursor := Held(0, B, [], 3));
    var s := QUEUED;
    var s1 := Moment(PINNED, 100, [again, OWN, SECOND], 4).(seen := map[0 := 10, 1 := 1]);
    ScanHit(s.overrides, [[A, B]], Unpinned, 0, [B], 1, 3);
    assert [B][1..] == [] && s.seen[0 := 10] == s1.seen;
    assert Leads(s, Deliver(0), s1);
    var t := JOINED;
    assert s1.seen[0 := 100] == t.seen;
    assert Scan(s.overrides, [[A, B]], Only(A.origin), 0, [B], 1, 4)
        == Scan(s.overrides, [[A, B]], Only(A.origin), 0, [], 1, 4);
    assert Leads(s1, Deliver(1), t);
    TwoSteps(s, Deliver(0), s1, Deliver(1), t);
    Via(QUEUED, [Deliver(0), Deliver(1)], JOINED);
  }

  /** The line for b: the second pick, then the first. */
  lemma FirstPickQueuesLast() returns (t: State)
    ensures Reaches(JOINED, t)
    ensures Stale(t, 0, B)
  {
    var first, own := FIRST.(cursor := Held(0, B, [], 3)), OWN.(cursor := Finished);
    var s := JOINED;
    var s1 := Moment(PINNED, 100, [first, own, SECOND.(cursor := Finished)], 6).(seen := map[0 := 100, 1 := 100]);
    assert s.seen[1 := 100] == s1.seen;
    assert Leads(s, Deliver(2), s1);
    t := Moment(PINNED, 100, [first.(cursor := Finished), own, SECOND.(cursor := Finished)], 7)
         .(seen := map[0 := 100, 1 := 10]);
    assert s1.seen[1 := 10] == t.seen;
    assert Leads(s1, Deliver(0), t);
    TwoSteps(s, Deliver(2), s1, Deliver(0), t);
    assert B in t.sockets[0];
    Via(JOINED, [Deliver(2), Deliver(0)], t);
  }

  /** Nor does it help that both dapps share one socket: there b ends on 10 too,
      because a switched while it was being told. */
  lemma OvertakingOnOneSocket()
    ensures exists t :: Initial(FRESH) && Reaches(FRESH, t) && Stale(t, 0, B)
  {
    FreshIsInitial();
    TogetherReached();
    SwitchWhileTold();
    SecondPickQueues();
    FirstPickJoins();
    var t := FirstPickQueuesLast();
    ReachesThen(FRESH, TOGETHER, SWITCHED);
    ReachesThen(FRESH, SWITCHED, QUEUED);
    ReachesThen(FRESH, QUEUED, JOINED);
    ReachesThen(FRESH, JOINED, t);
  }

  // A switch without an origin.

  /** A concrete case: a dapp on chain 1, and an origin-less request moves its
      picture to chain 10 while the server still reports 1. */
  lemma OriginlessSwitchBreaks()
    ensures exists es, t ::
              && Initial(FRESH) && Runs(FRESH, es, t) && Quiet(t) && CleanRun(FRESH, es)
              && Listed(t, 0, A) && t.chains != [] && A.id in t.seen && !UpToDate(t, A)
  {
    FreshIsInitial();
    var s2 := FRESH.(sockets := [[A]], ids := 1, seen := map[0 := 1]);
    OneDapp(s2);
    var t := SwitchedFor(s2);
    RunThen(FRESH, [Open, Subscribe(0, A.origin)], s2, [Switch(None, 10), Deliver(0)], t);
    CleanThen(FRESH, [Open, Subscribe(0, A.origin)], s2, [Switch(None, 10), Deliver(0)]);
  }

  lemma OneDapp(s2: State)
    requires s2 == FRESH.(sockets := [[A]], ids := 1, seen := map[0 := 1])
    ensures Runs(FRESH, [Open, Subscribe(0, A.origin)], s2) && CleanRun(FRESH, [Open, Subscribe(0, A.origin)])
  {
    var s1 := FRESH.(sockets := [[]]);
    assert [] + [A] == [A] && [[]][0 := [A]] == [[A]];
    assert Leads(s1, Subscribe(0, A.origin), s2);
    TwoSteps(FRESH, Open, s1, Subscribe(0, A.origin), s2);
    CleanTwo(FRESH, Open, s1, Subscribe(0, A.origin), s2);
  }

  lemma SwitchedFor(s2: State) returns (t: State)
    requires s2 == FRESH.(sockets := [[A]], ids := 1, seen := map[0 := 1])
    ensures Runs(s2, [Switch(None, 10), Deliver(0)], t) && CleanRun(s2, [Switch(None, 10), Deliver(0)])
    ensures Quiet(t) && Listed(t, 0, A) && t.chains != [] && A.id in t.seen && !UpToDate(t, A)
  {
    FreshIsInitial();
    var s3 := s2.(overrides := map["" := 10], casts := [Broadcast(Only(None), 10, 1, Held(0, A, [], 0))], tickets := 1);
    ScanHit(map["" := 10], [[A]], Only(None), 0, [A], 1, 0);
    assert [A][1..] == [];
    assert Leads(s2, Switch(None, 10), s3);
    t := s3.(casts := [Broadcast(Only(None), 10, 1, Finished)], seen := map[0 := 10], tickets := 2);
    assert s3.seen[0 := 10] == t.seen;
    assert Leads(s3, Deliver(0), t);
    TwoSteps(s2, Switch(None, 10), s3, Deliver(0), t);
    CleanTwo(s2, Switch(None, 10), s3, Deliver(0), t);
    assert A in t.sockets[0];
  }

  lemma CleanTwo(s: State, e: Event, t: State, f: Event, u: State)
    requires Leads(s, e, t) && Leads(t, f, u) && Clean(s, e) && Clean(t, f)
    ensures CleanRun(s, [e, f])
  {
    assert [e, f][1..] == [f] && [f][1..] == [];
    assert CleanRun(u, []);
    assert CleanRun(t, [f]);
  }

  lemma {:induction false} CleanThen(s: State, es: seq<Event>, t: State, more: seq<Event>)
    requires Runs(s, es, t) && CleanRun(s, es) && CleanRun(t, more)
    ensures CleanRun(s, es + more)
    decreases |es|
  {
    if es == [] {
      assert es + more == more;
    } else {
      assert (es + more)[1..] == es[1..] + more;
      CleanThen(Apply(s, es[0]), es[1..], t, more);
    }
  }
}

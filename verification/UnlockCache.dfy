/** The unlocked hot wallet (qeth/hot_wallet.py, `UnlockCache`): one decrypted
    key, a wall clock that may step either way, and timers that may fire late. */
module UnlockCache {
  import opened Options
  import opened Text

  /** One unlocking. Its number is its identity: two puts of the same key at the
      same time are still different entries. */
  datatype Entry = Entry(id: nat, address: string, key: seq<int>, time: real)

  /** A put and its timer: built outside the lock, installed, timer started,
      timer gone off (its callback still to take the lock), callback done. */
  datatype Phase = Prepared | Installed | Started | Fired | Over

  datatype Put = Put(entry: Entry, phase: Phase, cancelled: bool)

  datatype State = State(
    ttl: real,
    now: real,
    entry: Option<Entry>,
    timer: Option<nat>,
    puts: seq<Put>)

  function Init(ttl: real, now: real): State {
    State(ttl, now, None, None, [])
  }

  datatype Event = Clock(now: real)
                 | Prepare(address: string, key: seq<int>)
                 | Install(id: nat)
                 | StartTimer(id: nat)
                 | Fire(id: nat)
                 | Expire(id: nat)
                 | Get(address: string)
                 | Forget(which: Option<string>)
                 | Retain(addresses: set<string>)

  predicate Enabled(s: State, e: Event) {
    match e
    case Install(i) => i < |s.puts| && s.puts[i].phase.Prepared?
    case StartTimer(i) => i < |s.puts| && s.puts[i].phase.Installed?
    case Fire(i) => i < |s.puts| && s.puts[i].phase.Started? && !s.puts[i].cancelled
    case Expire(i) => i < |s.puts| && s.puts[i].phase.Fired?
    case _ => true
  }

  function WithPhase(s: State, i: nat, phase: Phase): State
    requires i < |s.puts|
  {
    s.(puts := s.puts[i := s.puts[i].(phase := phase)])
  }

  /** `_clear`: drop the entry and cancel its timer. */
  function Clear(s: State): State {
    var puts := if s.timer.Some? && s.timer.value < |s.puts|
                then s.puts[s.timer.value := s.puts[s.timer.value].(cancelled := true)] else s.puts;
    s.(entry := None, timer := None, puts := puts)
  }

  predicate Fresh(s: State, x: Entry) {
    0.0 <= s.now - x.time < s.ttl
  }

  function Apply(s: State, e: Event): State
    requires Enabled(s, e)
  {
    match e
    case Clock(now) => s.(now := now)
    case Prepare(address, key) =>
      s.(puts := s.puts + [Put(Entry(|s.puts|, Lower(address), key, s.now), Prepared, false)])
    case Install(i) => WithPhase(Clear(s), i, Installed).(entry := Some(s.puts[i].entry), timer := Some(i))
    case StartTimer(i) => WithPhase(s, i, Started)
    case Fire(i) => WithPhase(s, i, Fired)
    case Expire(i) =>
      var t := WithPhase(s, i, Over);
      if s.entry.Some? && s.entry.value.id == i then Clear(t) else t
    case Get(address) =>
      if s.entry.Some? && s.entry.value.address == Lower(address) && !Fresh(s, s.entry.value) then Clear(s) else s
    case Forget(address) =>
      if s.entry.Some? && (address.None? || s.entry.value.address == Lower(address.value)) then Clear(s) else s
    case Retain(addresses) =>
      if s.entry.Some? && (forall a | a in addresses && a != "" :: Lower(a) != s.entry.value.address)
      then Clear(s) else s
  }

  /** What `get` returns. */
  function Answer(s: State, address: string): Option<seq<int>> {
    if s.entry.Some? && s.entry.value.address == Lower(address) && Fresh(s, s.entry.value)
    then Some(s.entry.value.key) else None
  }

  ghost predicate Runs(s: State, es: seq<Event>, t: State)
    decreases |es|
  {
    if es == [] then s == t
    else Enabled(s, es[0]) && Runs(Apply(s, es[0]), es[1..], t)
  }

  /** The stored timer is the stored entry's, and every other put that was ever
      installed has had its timer cancelled. */
  ghost predicate Inv(s: State) {
    && (forall i | 0 <= i < |s.puts| :: s.puts[i].entry.id == i)
    && (forall i | 0 <= i < |s.puts| && s.puts[i].phase.Prepared? :: !s.puts[i].cancelled)
    && (match s.entry
        case None => s.timer.None?
        case Some(x) =>
          && s.timer == Some(x.id) && x.id < |s.puts| && s.puts[x.id].entry == x
          && !s.puts[x.id].phase.Prepared? && !s.puts[x.id].phase.Over? && !s.puts[x.id].cancelled)
    && (forall i | 0 <= i < |s.puts| && !s.puts[i].phase.Prepared? && !Current(s, i) :: s.puts[i].cancelled)
  }

  predicate Current(s: State, i: nat) {
    s.entry.Some? && s.entry.value.id == i
  }

  lemma StepKeeps(s: State, e: Event)
    requires Inv(s) && Enabled(s, e)
    ensures Inv(Apply(s, e))
  {
  }

  lemma {:induction false} RunKeeps(s: State, es: seq<Event>, t: State)
    requires Inv(s) && Runs(s, es, t)
    ensures Inv(t) && s.ttl == t.ttl
    decreases |es|
  {
    if es != [] {
      StepKeeps(s, es[0]);
      RunKeeps(Apply(s, es[0]), es[1..], t);
    }
  }

  /** A put that was installed and is no longer the entry stays that way. */
  ghost predicate Gone(s: State, i: nat) {
    i < |s.puts| && !s.puts[i].phase.Prepared? && !Current(s, i)
  }

  lemma GoneStays(s: State, e: Event, i: nat)
    requires Inv(s) && Enabled(s, e) && Gone(s, i)
    ensures Gone(Apply(s, e), i)
  {
    assert s.puts[i].entry.id == i;
  }

  lemma {:induction false} GoneForGood(s: State, es: seq<Event>, t: State, i: nat)
    requires Inv(s) && Runs(s, es, t) && Gone(s, i)
    ensures Gone(t, i)
    decreases |es|
  {
    if es != [] {
      StepKeeps(s, es[0]);
      GoneStays(s, es[0], i);
      GoneForGood(Apply(s, es[0]), es[1..], t, i);
    }
  }

  /** The steps that lock the stored key, other than replacing it. */
  predicate Clears(s: State, e: Event) {
    && s.entry.Some?
    && match e
       case Forget(which) => which.None? || Lower(which.value) == s.entry.value.address
       case Get(address) =>
         && Lower(address) == s.entry.value.address
         && !(s.entry.value.time <= s.now && s.now - s.entry.value.time < s.ttl)
       case Retain(addresses) => forall a | a in addresses && a != "" :: Lower(a) != s.entry.value.address
       case Expire(i) => i == s.entry.value.id
       case _ => false
  }

  /** Steps among which nothing was put and the stored key was not cleared. */
  ghost predicate Undisturbed(s: State, es: seq<Event>)
    decreases |es|
  {
    es == [] || (!es[0].Install? && !Clears(s, es[0]) && Enabled(s, es[0]) && Undisturbed(Apply(s, es[0]), es[1..]))
  }

  /** The run put the stored entry, and has left it alone since. */
  ghost predicate PutAndKept(s: State, es: seq<Event>, pre: seq<Event>, u: State, i: nat, post: seq<Event>) {
    && es == pre + [Install(i)] + post && Runs(s, pre, u)
    && Enabled(u, Install(i)) && Undisturbed(Apply(u, Install(i)), post)
  }

  /** Where a stored entry comes from: the start of the run, or its last put. */
  lemma {:induction false} EntryOrigin(s: State, es: seq<Event>, t: State)
    returns (put: bool, pre: seq<Event>, u: State, i: nat, post: seq<Event>)
    requires Runs(s, es, t) && t.entry.Some?
    ensures put ==> PutAndKept(s, es, pre, u, i, post) && u.puts[i].entry == t.entry.value
    ensures !put ==> Undisturbed(s, es) && s.entry == t.entry
    decreases |es|
  {
    put, pre, u, i, post := false, [], s, 0, [];
    if es != [] {
      put, pre, u, i, post := EntryOrigin(Apply(s, es[0]), es[1..], t);
      if put {
        assert es == [es[0]] + pre + [Install(i)] + post;
        assert ([es[0]] + pre)[1..] == pre;
        pre := [es[0]] + pre;
      } else if es[0].Install? {
        put, pre, u, i, post := true, [], s, es[0].id, es[1..];
      }
    }
  }

  /** In every run: `get` answers only with the key of the most recent put, made
      for that address, not cleared since, and aged at least zero and less than
      the TTL. */
  lemma GetIsLatestPut(ttl: real, now: real, es: seq<Event>, s: State, address: string)
    requires Runs(Init(ttl, now), es, s) && Answer(s, address).Some?
    ensures exists pre, u, i: nat, post ::
              && PutAndKept(Init(ttl, now), es, pre, u, i, post)
              && u.puts[i].entry.address == Lower(address) && u.puts[i].entry.key == Answer(s, address).value
              && 0.0 <= s.now - u.puts[i].entry.time < ttl
  {
    RunKeeps(Init(ttl, now), es, s);
    var put, pre, u, i, post := EntryOrigin(Init(ttl, now), es, s);
  }

  /** In every run: `get` answers only with the key of the put that is installed
      now, made for that address, aged at least zero and less than the TTL. */
  lemma GetIsCurrentAndFresh(ttl: real, now: real, es: seq<Event>, s: State, address: string)
    requires Runs(Init(ttl, now), es, s)
    requires Answer(s, address).Some?
    ensures exists i | 0 <= i < |s.puts| ::
              && Current(s, i) && !s.puts[i].cancelled && s.timer == Some(i)
              && s.puts[i].entry.address == Lower(address) && s.puts[i].entry.key == Answer(s, address).value
              && 0.0 <= s.now - s.puts[i].entry.time < ttl
  {
    RunKeeps(Init(ttl, now), es, s);
    var i := s.entry.value.id;
    assert Current(s, i);
  }

  /** Nothing put, no clearing, and no timer of the stored entry going off. */
  lemma {:induction false} EntryKept(s: State, es: seq<Event>, t: State)
    requires Undisturbed(s, es) && Runs(s, es, t) && s.entry.Some?
    ensures t.entry == s.entry && t.ttl == s.ttl
    decreases |es|
  {
    if es != [] {
      EntryKept(Apply(s, es[0]), es[1..], t);
    }
  }

  /** And it does answer: a key that was put, was neither replaced nor cleared
      since, and is younger than the TTL is what `get` returns for its address,
      in either casing. */
  lemma KeptPutIsAnswered(s: State, es: seq<Event>, pre: seq<Event>, u: State, i: nat, post: seq<Event>, t: State,
                          address: string)
    requires PutAndKept(s, es, pre, u, i, post) && Runs(Apply(u, Install(i)), post, t)
    requires u.puts[i].entry.address == Lower(address)
    requires 0.0 <= t.now - u.puts[i].entry.time && t.now - u.puts[i].entry.time < u.ttl
    ensures Answer(t, address) == Some(u.puts[i].entry.key)
  {
    EntryKept(Apply(u, Install(i)), post, t);
  }

  /** A put is made with the lower-cased address, the key and the time of its call. */
  lemma PutAsCalled(s: State, address: string, key: seq<int>, more: seq<Event>, t: State)
    requires Runs(Apply(s, Prepare(address, key)), more, t)
    ensures |s.puts| < |t.puts|
    ensures t.puts[|s.puts|].entry == Entry(|s.puts|, Lower(address), key, s.now)
  {
    PutsAreKept(Apply(s, Prepare(address, key)), more, t, |s.puts|);
  }

  lemma {:induction false} PutsAreKept(s: State, es: seq<Event>, t: State, i: nat)
    requires Runs(s, es, t) && i < |s.puts|
    ensures i < |t.puts| && t.puts[i].entry == s.puts[i].entry
    decreases |es|
  {
    if es != [] {
      PutsAreKept(Apply(s, es[0]), es[1..], t, i);
    }
  }

  /** Installing a put ends every other one: a key that was replaced, cleared or
      timed out is never returned again, whatever follows. */
  lemma ReplacedKeysStayLocked(ttl: real, now: real, es: seq<Event>, s: State, i: nat, j: nat, more: seq<Event>,
                               t: State)
    requires Runs(Init(ttl, now), es, s) && i < |s.puts| && i != j && !s.puts[i].phase.Prepared?
    requires Enabled(s, Install(j)) && Runs(Apply(s, Install(j)), more, t)
    ensures Gone(t, i)
  {
    RunKeeps(Init(ttl, now), es, s);
    StepKeeps(s, Install(j));
    GoneForGood(Apply(s, Install(j)), more, t, i);
  }

  /** Forgetting an address, or a `get` that finds the entry expired (or from
      the future), or the entry's own timer, all end it for good. */
  lemma ClearedKeysStayLocked(ttl: real, now: real, es: seq<Event>, s: State, e: Event, more: seq<Event>, t: State)
    requires Runs(Init(ttl, now), es, s) && s.entry.Some? && Enabled(s, e)
    requires Clears(s, e) && Runs(Apply(s, e), more, t)
    ensures Gone(t, s.entry.value.id)
  {
    RunKeeps(Init(ttl, now), es, s);
    StepKeeps(s, e);
    GoneForGood(Apply(s, e), more, t, s.entry.value.id);
  }

  /** A timer that went off late, after its entry was replaced, touches nothing
      but itself. */
  lemma LateTimerIsHarmless(ttl: real, now: real, es: seq<Event>, s: State, i: nat)
    requires Runs(Init(ttl, now), es, s) && Enabled(s, Expire(i)) && !Current(s, i)
    ensures Apply(s, Expire(i)).entry == s.entry && Apply(s, Expire(i)).timer == s.timer
    ensures forall j | 0 <= j < |s.puts| :: Apply(s, Expire(i)).puts[j].cancelled == s.puts[j].cancelled
    ensures s.puts[i].cancelled
  {
    RunKeeps(Init(ttl, now), es, s);
  }

  /** While an entry is installed its timer is live: started and neither
      cancelled nor finished, or about to be started. */
  lemma EntryHasLiveTimer(ttl: real, now: real, es: seq<Event>, s: State)
    requires Runs(Init(ttl, now), es, s) && s.entry.Some?
    ensures var i := s.entry.value.id;
            i < |s.puts| && !s.puts[i].cancelled &&
              (Enabled(s, StartTimer(i)) || Enabled(s, Fire(i)) || Enabled(s, Expire(i)))
  {
    RunKeeps(Init(ttl, now), es, s);
  }

  /** The object: every method is one locked block, or the unlocked part of one. */
  class Cache {
    const ttl: real
    var entry: Option<Entry>
    var timer: Option<nat>
    ghost var puts: seq<Put>

    constructor (ttl: real)
      ensures this.ttl == ttl && forall now :: Abs(now) == Init(ttl, now)
    {
      this.ttl := ttl;
      entry, timer, puts := None, None, [];
    }

    ghost function Abs(now: real): State
      reads this
    {
      State(ttl, now, entry, timer, puts)
    }

    method ClearLocked()
      modifies this
      ensures forall now :: Abs(now) == Clear(old(Abs(now)))
    {
      entry := None;
      if timer.Some? {
        ghost var i := timer.value;
        puts := if i < |puts| then puts[i := puts[i].(cancelled := true)] else puts;
        timer := None;
      }
    }

    /** The unlocked start of `put`: the entry and its timer are built; `id` is
        the identity of the new entry. */
    method PreparePut(id: nat, address: string, key: seq<int>, now: real) returns (x: Entry)
      requires id == |puts|
      modifies this`puts
      ensures Abs(now) == Apply(old(Abs(now)), Prepare(address, key))
      ensures x.id < |puts| && puts[x.id] == Put(x, Prepared, false)
    {
      x := Entry(id, Lower(address), key, now);
      puts := puts + [Put(x, Prepared, false)];
    }

    /** The locked part of `put`, for the entry built before it. */
    method PutLocked(x: Entry)
      requires x.id < |puts| && puts[x.id] == Put(x, Prepared, false)
      modifies this
      ensures forall now :: Abs(now) == Apply(old(Abs(now)), Install(x.id))
    {
      ClearLocked();
      assert Abs(x.time) == Clear(old(Abs(x.time)));
      entry := Some(x);
      timer := Some(x.id);
      puts := puts[x.id := puts[x.id].(phase := Installed)];
    }

    /** The end of `put`, after the lock is released. */
    method StartTimerOf(x: Entry)
      requires x.id < |puts| && puts[x.id].phase.Installed?
      modifies this`puts
      ensures forall now :: Abs(now) == Apply(old(Abs(now)), StartTimer(x.id))
    {
      puts := puts[x.id := puts[x.id].(phase := Started)];
    }

    /** A started timer that was not cancelled goes off, some time or other. */
    method TimerFires(x: Entry)
      requires x.id < |puts| && puts[x.id].phase.Started? && !puts[x.id].cancelled
      modifies this`puts
      ensures forall now :: Abs(now) == Apply(old(Abs(now)), Fire(x.id))
    {
      puts := puts[x.id := puts[x.id].(phase := Fired)];
    }

    method GetKey(address: string, now: real) returns (r: Option<seq<int>>)
      modifies this
      ensures r == Answer(old(Abs(now)), address)
      ensures Abs(now) == Apply(old(Abs(now)), Get(address))
    {
      if entry.None? || entry.value.address != Lower(address) {
        return None;
      }
      if !(0.0 <= now - entry.value.time < ttl) {
        ClearLocked();
        return None;
      }
      r := Some(entry.value.key);
    }

    method ForgetKey(address: Option<string>)
      modifies this
      ensures forall now :: Abs(now) == Apply(old(Abs(now)), Forget(address))
    {
      if entry.Some? && (address.None? || entry.value.address == Lower(address.value)) {
        ClearLocked();
      }
    }

    method RetainOnly(addresses: set<string>)
      modifies this
      ensures forall now :: Abs(now) == Apply(old(Abs(now)), Retain(addresses))
    {
      if entry.Some? && (forall a | a in addresses && a != "" :: Lower(a) != entry.value.address) {
        ClearLocked();
      }
    }

    /** `_expire`, run by the timer of put number `i`. */
    method ExpireLocked(x: Entry)
      requires x.id < |puts| && puts[x.id].entry == x && puts[x.id].phase.Fired?
      modifies this
      ensures forall now :: Abs(now) == Apply(old(Abs(now)), Expire(x.id))
    {
      puts := puts[x.id := puts[x.id].(phase := Over)];
      if entry.Some? && entry.value.id == x.id {
        ClearLocked();
      }
    }
  }
}

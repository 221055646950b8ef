/** Concurrent add-network requests and their shared prompts (qeth/rpc.py,
    `wallet_addEthereumChain` and `_confirm_new_chain`; `Store.add_chain`).
    Each await-free segment of a handler is one step. */
module AddChain {
  import opened Options

  /** What a site supplies for a network; `safe` is the outcome of the URL check. */
  datatype Entry = Entry(name: string, rpcUrl: string, safe: bool)

  /** What became of a prompt: a yes, a no, or an exception (the prompt failed,
      or the request that showed it was cancelled). */
  datatype Verdict = Approved | Rejected | Failed

  /** How a request ended: the chain was known, refused for its URLs, added,
      declined, or ended by the exception of the prompt it shared. */
  datatype Outcome = Known | BadUrl | Added | Declined | Broken

  /** A request's handler: showing the prompt it owns, awaiting another's, or done. */
  datatype Phase = Owner(prompt: nat) | Waiter(prompt: nat) | Ended(outcome: Outcome)

  datatype Request = Request(chainId: nat, entry: Entry, phase: Phase, joined: Option<nat>)

  /** A prompt: the request that opened it, what it shows, the user's answer, and
      the answer handed on. */
  datatype Prompt = Prompt(owner: nat, chainId: nat, shown: Entry, answer: Option<Verdict>, result: Option<Verdict>)

  /** How a network came to be stored. */
  datatype Via = Preset | ByUi | Silently | ByPrompt(prompt: nat)

  datatype State = State(
    bridge: bool,
    stored: map<nat, Entry>,
    via: map<nat, Via>,
    pending: map<nat, nat>,
    prompts: seq<Prompt>,
    requests: map<nat, Request>)

  datatype Event = Arrive(request: nat, chainId: nat, entry: Entry)
                 | UiAdd(chainId: nat, entry: Entry)
                 | Answer(prompt: nat, verdict: Verdict)
                 | OwnerResumes(request: nat)
                 | WaiterResumes(request: nat)

  /** `Store.add_chain`: a known id keeps its entry. */
  function Store(s: State, chainId: nat, entry: Entry, via: Via): State {
    if chainId in s.stored then s
    else s.(stored := s.stored[chainId := entry], via := s.via[chainId := via])
  }

  predicate Enabled(s: State, e: Event) {
    match e
    case Arrive(r, _, _) => r !in s.requests
    case UiAdd(_, _) => true
    case Answer(p, _) => p < |s.prompts| && s.prompts[p].answer.None?
    case OwnerResumes(r) =>
      && r in s.requests && s.requests[r].phase.Owner?
      && s.requests[r].phase.prompt < |s.prompts| && s.prompts[s.requests[r].phase.prompt].answer.Some?
    case WaiterResumes(r) =>
      && r in s.requests && s.requests[r].phase.Waiter?
      && s.requests[r].phase.prompt < |s.prompts| && s.prompts[s.requests[r].phase.prompt].result.Some?
  }

  function OutcomeOf(v: Verdict): Outcome {
    match v case Approved => Added case Rejected => Declined case Failed => Broken
  }

  function End(s: State, r: nat, outcome: Outcome): State
    requires r in s.requests
  {
    s.(requests := s.requests[r := s.requests[r].(phase := Ended(outcome))])
  }

  function Apply(s: State, e: Event): State
    requires Enabled(s, e)
  {
    match e
    case Arrive(r, c, entry) =>
      if c in s.stored then s.(requests := s.requests[r := Request(c, entry, Ended(Known), None)])
      else if !entry.safe then s.(requests := s.requests[r := Request(c, entry, Ended(BadUrl), None)])
      else if !s.bridge then
        Store(s, c, entry, Silently).(requests := s.requests[r := Request(c, entry, Ended(Added), None)])
      else if c in s.pending then
        s.(requests := s.requests[r := Request(c, entry, Waiter(s.pending[c]), Some(s.pending[c]))])
      else
        var p := |s.prompts|;
        s.(pending := s.pending[c := p],
           prompts := s.prompts + [Prompt(r, c, entry, None, None)],
           requests := s.requests[r := Request(c, entry, Owner(p), Some(p))])
    case UiAdd(c, entry) => Store(s, c, entry, ByUi)
    case Answer(p, v) => s.(prompts := s.prompts[p := s.prompts[p].(answer := Some(v))])
    case OwnerResumes(r) =>
      var q := s.requests[r];
      var p := q.phase.prompt;
      var v := s.prompts[p].answer.value;
      var freed := s.(prompts := s.prompts[p := s.prompts[p].(result := Some(v))], pending := s.pending - {q.chainId});
      End(if v.Approved? then Store(freed, q.chainId, q.entry, ByPrompt(p)) else freed, r, OutcomeOf(v))
    case WaiterResumes(r) =>
      var q := s.requests[r];
      var p := q.phase.prompt;
      var v := s.prompts[p].result.value;
      End(if v.Approved? then Store(s, q.chainId, q.entry, ByPrompt(p)) else s, r, OutcomeOf(v))
  }

  ghost predicate Runs(s: State, es: seq<Event>, t: State)
    decreases |es|
  {
    if es == [] then s == t
    else Enabled(s, es[0]) && Runs(Apply(s, es[0]), es[1..], t)
  }

  /** A prompt the user may still be looking at. */
  predicate Open(s: State, p: nat) {
    p < |s.prompts| && s.prompts[p].result.None?
  }

  /** At most one prompt is open per chain id, and it is the one requests join. */
  ghost predicate OnePrompt(s: State) {
    forall p: nat | Open(s, p) :: s.prompts[p].chainId in s.pending && s.pending[s.prompts[p].chainId] == p
  }

  ghost predicate PendingOpen(s: State) {
    forall c | c in s.pending :: Open(s, s.pending[c]) && s.prompts[s.pending[c]].chainId == c
  }

  /** What a request's phase says about its prompt, its URLs and the store. */
  ghost predicate RequestInv(s: State, r: nat, q: Request) {
    match q.phase
    case Owner(p) =>
      && Open(s, p) && s.prompts[p].chainId == q.chainId && s.prompts[p].shown == q.entry
      && s.prompts[p].owner == r && q.joined == Some(p) && q.entry.safe && s.bridge
    case Waiter(p) =>
      p < |s.prompts| && s.prompts[p].chainId == q.chainId && q.joined == Some(p) && q.entry.safe && s.bridge
    case Ended(o) =>
      match q.joined
      case Some(p) =>
        && p < |s.prompts| && s.prompts[p].chainId == q.chainId && q.entry.safe && s.bridge
        && s.prompts[p].result == Some(if o.Added? then Approved else if o.Declined? then Rejected else Failed)
        && (o.Added? ==> q.chainId in s.stored) && !o.Known? && !o.BadUrl?
      case None =>
        || (o == Known && q.chainId in s.stored)
        || (o == BadUrl && !q.entry.safe)
        || (o == Added && !s.bridge && q.entry.safe && q.chainId in s.stored)
  }

  /** An approved prompt's network is stored before any requester hears of it. */
  ghost predicate ApprovedStored(s: State) {
    forall p | 0 <= p < |s.prompts| :: s.prompts[p].result == Some(Approved) ==> s.prompts[p].chainId in s.stored
  }

  /** What is stored through a prompt is what that approved prompt showed. */
  ghost predicate StoredAsShown(s: State) {
    && s.via.Keys == s.stored.Keys
    && (forall c | c in s.via && s.via[c].ByPrompt? :: Shown(s, c, s.via[c].prompt))
    && (s.bridge ==> forall c | c in s.via :: !s.via[c].Silently?)
  }

  ghost predicate AnswersHandedOn(s: State) {
    forall p | 0 <= p < |s.prompts| && s.prompts[p].result.Some? :: s.prompts[p].result == s.prompts[p].answer
  }

  ghost predicate Inv(s: State) {
    && OnePrompt(s) && PendingOpen(s) && ApprovedStored(s) && StoredAsShown(s) && AnswersHandedOn(s)
    && forall r | r in s.requests :: RequestInv(s, r, s.requests[r])
  }

  ghost predicate Initial(s: State) {
    && s.pending == map[] && s.prompts == [] && s.requests == map[]
    && s.via == map c | c in s.stored :: Preset
  }

  /** The invariant as far as the request taking the step is concerned. */
  ghost predicate ActorInv(s: State, e: Event) {
    match e
    case OwnerResumes(r) => r in s.requests && RequestInv(s, r, s.requests[r])
    case WaiterResumes(r) => r in s.requests && RequestInv(s, r, s.requests[r])
    case _ => true
  }

  lemma OnePromptKept(s: State, e: Event)
    requires OnePrompt(s) && ActorInv(s, e) && Enabled(s, e)
    ensures OnePrompt(Apply(s, e))
  {
    var t := Apply(s, e);
    forall p: nat | Open(t, p) ensures t.prompts[p].chainId in t.pending && t.pending[t.prompts[p].chainId] == p {
      assert p < |s.prompts| ==> Open(s, p);
    }
  }

  lemma PendingOpenKept(s: State, e: Event)
    requires PendingOpen(s) && ActorInv(s, e) && Enabled(s, e)
    ensures PendingOpen(Apply(s, e))
  {
    var t := Apply(s, e);
    forall c | c in t.pending ensures Open(t, t.pending[c]) && t.prompts[t.pending[c]].chainId == c {
      PendingOpenAt(s, e, c);
    }
  }

  lemma PendingOpenAt(s: State, e: Event, c: nat)
    requires PendingOpen(s) && ActorInv(s, e) && Enabled(s, e)
    requires c in Apply(s, e).pending
    ensures var t := Apply(s, e); Open(t, t.pending[c]) && t.prompts[t.pending[c]].chainId == c
  {
    if e.OwnerResumes? {
      OwnerLeavesOthers(s, e.request, c);
    } else {
      PromptsStayOpen(s, e);
      assert c in s.pending ==> Open(s, s.pending[c]) && s.prompts[s.pending[c]].chainId == c;
    }
  }

  /** Only the owner closes a prompt. */
  lemma PromptsStayOpen(s: State, e: Event)
    requires Enabled(s, e) && !e.OwnerResumes?
    ensures forall p: nat | Open(s, p) :: Open(Apply(s, e), p) && Apply(s, e).prompts[p].chainId == s.prompts[p].chainId
  {
  }

  lemma OwnerLeavesOthers(s: State, r: nat, c: nat)
    requires PendingOpen(s) && Enabled(s, OwnerResumes(r)) && RequestInv(s, r, s.requests[r])
    requires c in Apply(s, OwnerResumes(r)).pending
    ensures var t := Apply(s, OwnerResumes(r)); Open(t, t.pending[c]) && t.prompts[t.pending[c]].chainId == c
  {
    assert c in s.pending && c != s.requests[r].chainId;
    assert s.pending[c] != s.requests[r].phase.prompt;
  }

  lemma AnswersKept(s: State, e: Event)
    requires AnswersHandedOn(s) && Enabled(s, e)
    ensures AnswersHandedOn(Apply(s, e))
  {
    var t := Apply(s, e);
    forall p | 0 <= p < |t.prompts| && t.prompts[p].result.Some? ensures t.prompts[p].result == t.prompts[p].answer {
      if p < |s.prompts| && s.prompts[p].result.Some? {
        assert s.prompts[p].result == s.prompts[p].answer;
      }
    }
  }

  /** A requester that joined a prompt finds its chain stored already. */
  lemma WaiterStoresNothing(s: State, e: Event)
    requires ApprovedStored(s) && ActorInv(s, e) && Enabled(s, e) && e.WaiterResumes?
    ensures Apply(s, e).stored == s.stored && Apply(s, e).via == s.via && Apply(s, e).prompts == s.prompts
  {
  }

  lemma ApprovedStoredKept(s: State, e: Event)
    requires ApprovedStored(s) && ActorInv(s, e) && Enabled(s, e)
    ensures ApprovedStored(Apply(s, e))
  {
    var t := Apply(s, e);
    assert s.stored.Keys <= t.stored.Keys;
    forall p | 0 <= p < |t.prompts| && t.prompts[p].result == Some(Approved) ensures t.prompts[p].chainId in t.stored {
      ApprovedAt(s, e, p);
    }
  }

  lemma ApprovedAt(s: State, e: Event, p: nat)
    requires ApprovedStored(s) && ActorInv(s, e) && Enabled(s, e)
    requires p < |Apply(s, e).prompts| && Apply(s, e).prompts[p].result == Some(Approved)
    ensures Apply(s, e).prompts[p].chainId in Apply(s, e).stored
  {
    assert p < |s.prompts| && s.prompts[p].result == Some(Approved) ==> s.prompts[p].chainId in s.stored;
  }

  /** A network stored through a prompt: approved, for that chain, as shown. */
  ghost predicate Shown(s: State, c: nat, p: nat) {
    && p < |s.prompts| && c in s.stored
    && s.prompts[p].result == Some(Approved) && s.prompts[p].chainId == c && s.prompts[p].shown == s.stored[c]
  }

  lemma ShownKept(s: State, e: Event, c: nat, p: nat)
    requires Shown(s, c, p) && ActorInv(s, e) && Enabled(s, e)
    ensures Shown(Apply(s, e), c, p)
  {
  }

  /** A stored network keeps its entry, whatever is asked for later. */
  lemma {:induction false} EntriesStay(s: State, es: seq<Event>, t: State)
    requires Runs(s, es, t)
    ensures forall c | c in s.stored :: c in t.stored && t.stored[c] == s.stored[c]
    decreases |es|
  {
    if es != [] {
      EntriesStay(Apply(s, es[0]), es[1..], t);
    }
  }

  lemma ShownStored(s: State, e: Event, c: nat)
    requires ApprovedStored(s) && ActorInv(s, e) && Enabled(s, e)
    requires s.via.Keys == s.stored.Keys
    requires c !in s.via && c in Apply(s, e).via
    ensures var via := Apply(s, e).via[c];
            if via.ByPrompt? then Shown(Apply(s, e), c, via.prompt) else via.Silently? ==> !s.bridge
  {
    if e.WaiterResumes? {
      WaiterStoresNothing(s, e);
    }
  }

  lemma StoredAsShownKept(s: State, e: Event)
    requires ApprovedStored(s) && StoredAsShown(s) && ActorInv(s, e) && Enabled(s, e)
    ensures StoredAsShown(Apply(s, e))
  {
    var t := Apply(s, e);
    assert t.via.Keys == t.stored.Keys && t.bridge == s.bridge;
    forall c | c in t.via
      ensures if t.via[c].ByPrompt? then Shown(t, c, t.via[c].prompt) else t.via[c].Silently? ==> !t.bridge
    {
      if c in s.via {
        assert t.via[c] == s.via[c];
        if s.via[c].ByPrompt? {
          ShownKept(s, e, c, s.via[c].prompt);
        }
      } else {
        ShownStored(s, e, c);
      }
    }
  }

  lemma RequestKept(s: State, e: Event, q: Request, r: nat)
    requires PendingOpen(s) && ActorInv(s, e) && Enabled(s, e)
    requires r in s.requests && q == s.requests[r] && RequestInv(s, r, q)
    requires (e.OwnerResumes? || e.WaiterResumes?) ==> r != e.request
    ensures RequestInv(Apply(s, e), r, q)
  {
  }

  lemma RequestsKept(s: State, e: Event)
    requires Inv(s) && Enabled(s, e)
    ensures forall r | r in Apply(s, e).requests :: RequestInv(Apply(s, e), r, Apply(s, e).requests[r])
  {
    var t := Apply(s, e);
    ActorHolds(s, e);
    forall r | r in t.requests ensures RequestInv(t, r, t.requests[r]) {
      if r in s.requests && !((e.OwnerResumes? || e.WaiterResumes?) && r == e.request) {
        RequestKept(s, e, s.requests[r], r);
        assert t.requests[r] == s.requests[r];
      } else {
        ActorRequest(s, e, r);
      }
    }
  }

  /** The request that takes a step, or arrives, is as it should be after it. */
  lemma ActorRequest(s: State, e: Event, r: nat)
    requires PendingOpen(s) && ActorInv(s, e) && Enabled(s, e)
    requires (e.Arrive? || e.OwnerResumes? || e.WaiterResumes?) && r == e.request
    ensures r in Apply(s, e).requests && RequestInv(Apply(s, e), r, Apply(s, e).requests[r])
  {
    match e
    case Arrive(_, c, entry) =>
      if c !in s.stored && entry.safe && s.bridge && c in s.pending {
        assert Open(s, s.pending[c]);
      }
    case OwnerResumes(_) =>
      assert RequestInv(s, r, s.requests[r]);
    case WaiterResumes(_) =>
      assert RequestInv(s, r, s.requests[r]);
  }

  lemma ActorHolds(s: State, e: Event)
    requires Inv(s) && Enabled(s, e)
    ensures ActorInv(s, e)
  {
  }

  lemma StepKeeps(s: State, e: Event)
    requires Inv(s) && Enabled(s, e)
    ensures Inv(Apply(s, e))
  {
    ActorHolds(s, e);
    OnePromptKept(s, e);
    PendingOpenKept(s, e);
    AnswersKept(s, e);
    ApprovedStoredKept(s, e);
    StoredAsShownKept(s, e);
    RequestsKept(s, e);
  }

  lemma {:induction false} RunKeeps(s: State, es: seq<Event>, t: State)
    requires Inv(s) && Runs(s, es, t)
    ensures Inv(t) && t.bridge == s.bridge
    decreases |es|
  {
    if es != [] {
      StepKeeps(s, es[0]);
      RunKeeps(Apply(s, es[0]), es[1..], t);
    }
  }

  /** In every interleaving: never two open prompts for one chain id; requests
      that shared a prompt share its decision; and an entry stored through a
      prompt is the very entry that prompt showed and the user approved. */
  lemma PromptsAreShared(s: State, es: seq<Event>, t: State)
    requires Initial(s) && Runs(s, es, t)
    ensures forall p: nat, q: nat | Open(t, p) && Open(t, q) && t.prompts[p].chainId == t.prompts[q].chainId :: p == q
    ensures forall r, q | r in t.requests && q in t.requests
              && t.requests[r].phase.Ended? && t.requests[q].phase.Ended?
              && t.requests[r].joined.Some? && t.requests[r].joined == t.requests[q].joined ::
              t.requests[r].phase == t.requests[q].phase
    ensures StoredAsShown(t)
  {
    RunKeeps(s, es, t);
    forall r | r in t.requests ensures RequestInv(t, r, t.requests[r]) {
    }
  }

  /** In every interleaving, a request that has ended: as known or added only for
      a stored network, as refused only for its URLs, and as declined, added or
      broken just as the prompt it shared was answered. */
  lemma EndedRightly(s: State, es: seq<Event>, t: State, r: nat)
    requires Initial(s) && Runs(s, es, t) && r in t.requests && t.requests[r].phase.Ended?
    ensures var q := t.requests[r]; var o := q.phase.outcome;
            && (o.Known? || o.Added? ==> q.chainId in t.stored)
            && (o.BadUrl? <==> !q.entry.safe && o != Known)
            && (o in {Declined, Broken} ==> q.joined.Some?)
            && (q.joined.Some? ==>
                  && q.joined.value < |t.prompts| && t.prompts[q.joined.value].chainId == q.chainId
                  && t.prompts[q.joined.value].answer ==
                     Some(if o.Added? then Approved else if o.Declined? then Rejected else Failed))
  {
    RunKeeps(s, es, t);
    assert RequestInv(t, r, t.requests[r]);
  }

  /** A prompt for the chain is open. */
  ghost predicate OpenFor(s: State, c: nat) {
    exists p: nat :: Open(s, p) && s.prompts[p].chainId == c
  }

  lemma PendingMeans(s: State, c: nat)
    requires OnePrompt(s) && PendingOpen(s)
    ensures c in s.pending <==> OpenFor(s, c)
    ensures c in s.pending ==> Open(s, s.pending[c]) && s.prompts[s.pending[c]].chainId == c
  {
  }

  /** A request that arrives is answered at once exactly when its network is
      known, its URLs are refused or nobody can be asked; else it shares the one
      open prompt for its chain, which it opens when there is none. */
  lemma ArrivalMeaning(s: State, es: seq<Event>, t: State, r: nat, c: nat, entry: Entry)
    requires Initial(s) && Runs(s, es, t) && Enabled(t, Arrive(r, c, entry))
    ensures var u := Apply(t, Arrive(r, c, entry)); var phase := u.requests[r].phase;
            if c in t.stored then phase == Ended(Known) && u.stored == t.stored && u.prompts == t.prompts
            else if !entry.safe then phase == Ended(BadUrl) && u.stored == t.stored && u.prompts == t.prompts
            else if !t.bridge then phase == Ended(Added) && u.stored == t.stored[c := entry] && u.prompts == t.prompts
            else if OpenFor(t, c) then
              && phase.Waiter? && u.stored == t.stored && u.prompts == t.prompts
              && Open(t, phase.prompt) && t.prompts[phase.prompt].chainId == c
            else
              && phase == Owner(|t.prompts|) && u.stored == t.stored
              && u.prompts == t.prompts + [Prompt(r, c, entry, None, None)]
  {
    RunKeeps(s, es, t);
    PendingMeans(t, c);
  }

  /** With someone to ask, a site's request changes the store only by an approval
      of exactly what the prompt showed; a requester that merely joined it, or
      was declined, changes nothing. */
  lemma OnlyShownEntriesLand(s: State, es: seq<Event>, t: State, e: Event, c: nat)
    requires Initial(s) && s.bridge && Runs(s, es, t) && Enabled(t, e)
    requires c !in t.stored && c in Apply(t, e).stored && !e.UiAdd?
    ensures e.OwnerResumes?
    ensures var p := t.requests[e.request].phase.prompt;
            p < |t.prompts| && t.prompts[p].answer == Some(Approved) && t.prompts[p].chainId == c
            && Apply(t, e).stored[c] == t.prompts[p].shown
  {
    RunKeeps(s, es, t);
    if e.OwnerResumes? || e.WaiterResumes? {
      assert RequestInv(t, e.request, t.requests[e.request]);
    }
  }

  /** The handlers' segments on the server's own fields; a prompt is the future
      the source keeps in its dictionary. */
  class ChainAdder {
    const bridge: bool
    var stored: map<nat, Entry>
    var pending: map<nat, nat>
    var prompts: seq<Prompt>
    ghost var via: map<nat, Via>
    ghost var requests: map<nat, Request>

    ghost function Abs(): State
      reads this
    {
      State(bridge, stored, via, pending, prompts, requests)
    }

    /** `Store.add_chain`. */
    method AddToStore(chainId: nat, entry: Entry, ghost how: Via)
      modifies this`stored, this`via
      ensures Abs() == Store(old(Abs()), chainId, entry, how)
    {
      if chainId in stored {
        return;
      }
      stored := stored[chainId := entry];
      via := via[chainId := how];
    }

    /** A request up to its first wait: answered at once, or left waiting for a
        prompt, its own or the one already open. */
    method Dispatch(r: nat, chainId: nat, entry: Entry) returns (phase: Phase)
      requires Enabled(Abs(), Arrive(r, chainId, entry))
      modifies this
      ensures Abs() == Apply(old(Abs()), Arrive(r, chainId, entry))
      ensures requests[r].phase == phase
    {
      ghost var joined: Option<nat> := None;
      if chainId in stored {
        phase := Ended(Known);
      } else if !entry.safe {
        phase := Ended(BadUrl);
      } else if !bridge {
        AddToStore(chainId, entry, Silently);
        phase := Ended(Added);
      } else if chainId in pending {
        phase := Waiter(pending[chainId]);
        joined := Some(pending[chainId]);
      } else {
        phase := Owner(|prompts|);
        joined := Some(|prompts|);
        pending := pending[chainId := |prompts|];
        prompts := prompts + [Prompt(r, chainId, entry, None, None)];
      }
      requests := requests[r := Request(chainId, entry, phase, joined)];
    }

    /** The user answers, or the prompt fails. */
    method AnswerPrompt(p: nat, v: Verdict)
      requires Enabled(Abs(), Answer(p, v))
      modifies this`prompts
      ensures Abs() == Apply(old(Abs()), Answer(p, v))
    {
      prompts := prompts[p := prompts[p].(answer := Some(v))];
    }

    /** The owner after the answer: it settles the future, frees the slot and,
        on a yes, adds its own entry. */
    method OwnerResume(r: nat, chainId: nat, entry: Entry, p: nat) returns (outcome: Outcome)
      requires Enabled(Abs(), OwnerResumes(r))
      requires chainId == requests[r].chainId && entry == requests[r].entry && p == requests[r].phase.prompt
      modifies this
      ensures Abs() == Apply(old(Abs()), OwnerResumes(r))
      ensures requests[r].phase == Ended(outcome)
    {
      var v := prompts[p].answer.value;
      prompts := prompts[p := prompts[p].(result := Some(v))];
      pending := pending - {chainId};
      if v.Approved? {
        AddToStore(chainId, entry, ByPrompt(p));
      }
      outcome := OutcomeOf(v);
      requests := requests[r := requests[r].(phase := Ended(outcome))];
    }

    /** A request that joined the prompt, once the future is settled. */
    method WaiterResume(r: nat, chainId: nat, entry: Entry, p: nat) returns (outcome: Outcome)
      requires Enabled(Abs(), WaiterResumes(r))
      requires chainId == requests[r].chainId && entry == requests[r].entry && p == requests[r].phase.prompt
      modifies this
      ensures Abs() == Apply(old(Abs()), WaiterResumes(r))
      ensures requests[r].phase == Ended(outcome)
    {
      var v := prompts[p].result.value;
      if v.Approved? {
        AddToStore(chainId, entry, ByPrompt(p));
      }
      outcome := OutcomeOf(v);
      requests := requests[r := requests[r].(phase := Ended(outcome))];
    }
  }
}

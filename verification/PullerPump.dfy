/**
 * The please-pull pump of the Gantry agent: an admission protocol over a shutdown gate, an admission semaphore, a run
 * semaphore, the set of in-flight digests and the set of digests being re-advertised. Every call is a thread whose
 * program counter names its next atomic step, and a run is any interleaving of such steps. The direct-origin fallback
 * claims digests in the same in-flight set, so its calls take part as well.
 */
module PullerPump {
  import opened Prelude

  type Digest = string
  type CallId = nat

  const ADMISSION_MULTIPLIER := 4

  datatype Config = Config(maxConcurrentPulls: int, advertises: bool)

  function RunLimit(cfg: Config): nat {
    if cfg.maxConcurrentPulls < 1 then 1 else cfg.maxConcurrentPulls
  }

  function AdmitLimit(cfg: Config): nat {
    RunLimit(cfg) * ADMISSION_MULTIPLIER
  }

  datatype Reason = RequestGone | GateClosed | AdmissionFull

  datatype Answer = RecentlyFailed | AlreadyPulling(at: Time) | Declined(reason: Reason) | Started(at: Time) | Forwarded(bool)

  datatype Pc =
    // A please-pull handler, in program order.
    | Lookup | Probe | Mark | Marked | Unmark | Alive | Peek | Reserve | Enter | Overfull | Contend | Lost | Leave | Launch
    // The detached re-advertise of a digest already present.
    | Advertising | Advertised
    // The detached origin pull.
    | Queued | Running | Pulled | Unrun | Unadmitted
    // A direct-origin fallback: its claim, its three guards, and the fetch they let through.
    | Offer | Token | Jitter | Recheck | Fetching
    | Ended

  datatype Resource = Gate | Admit | Run | Claim | Key

  /** What a call at `pc` holds. */
  predicate Holds(pc: Pc, r: Resource) {
    match r
    case Gate => pc.Enter? || pc.Overfull? || pc.Contend? || pc.Lost? || pc.Leave? || pc.Launch? || pc.Advertising? || pc.Advertised? || pc.Queued? || pc.Running? || pc.Pulled? || pc.Unrun? || pc.Unadmitted?
    case Admit => pc.Contend? || pc.Lost? || pc.Launch? || pc.Queued? || pc.Running? || pc.Pulled? || pc.Unrun?
    case Run => pc.Running? || pc.Pulled?
    case Claim => pc.Launch? || pc.Queued? || pc.Running? || pc.Token? || pc.Jitter? || pc.Recheck? || pc.Fetching?
    case Key => pc.Marked? || pc.Unmark? || pc.Advertising?
  }

  /** `taken` and `given` count every acquisition and release the call has made. */
  datatype Call = Call(digest: Digest, pc: Pc, startedAt: Time, answer: Option<Answer>, taken: multiset<Resource>, given: multiset<Resource>)

  datatype Shared = Shared(accepting: bool, wg: int, admitted: int, running: int, inflight: map<Digest, Time>, keys: set<Digest>)

  /** The outcomes of the negative cache or token bucket, the store or provider probe and the request context, and the clock. */
  datatype Oracle = Oracle(refused: bool, present: bool, gone: bool, now: Time)

  /** A channel send blocks while the run semaphore is full; every other step can always be taken. */
  predicate Ready(cfg: Config, sh: Shared, pc: Pc) {
    match pc
    case Queued => sh.running < RunLimit(cfg)
    case Ended => false
    case _ => true
  }

  datatype Op = Keep | Take(r: Resource) | Give(r: Resource)

  /** One atomic step: what it does to the shared state, where the call goes next, and what it has answered. */
  datatype Act = Act(op: Op, next: Pc, startedAt: Time, answer: Option<Answer>) {
    function Says(a: Answer): Act {
      this.(answer := Some(a))
    }

    function At(t: Time): Act {
      this.(startedAt := t)
    }
  }

  function Do(c: Call, op: Op, next: Pc): Act {
    Act(op, next, c.startedAt, c.answer)
  }

  /** The code at each program counter. */
  function Decide(cfg: Config, sh: Shared, c: Call, o: Oracle): Act {
    var d := c.digest;
    match c.pc
    case Lookup => if o.refused then Do(c, Keep, Ended).Says(RecentlyFailed) else Do(c, Keep, Probe)
    case Probe =>
      if !o.present then Do(c, Keep, Alive)
      else if cfg.advertises then Do(c, Keep, Mark)
      else Do(c, Keep, Ended).Says(AlreadyPulling(o.now))
    case Mark => if d in sh.keys then Do(c, Keep, Ended).Says(AlreadyPulling(o.now)) else Do(c, Take(Key), Marked)
    case Marked => if sh.accepting then Do(c, Take(Gate), Advertising).Says(AlreadyPulling(o.now)) else Do(c, Keep, Unmark)
    case Unmark => Do(c, Give(Key), Ended).Says(AlreadyPulling(o.now))
    case Alive => if o.gone then Do(c, Keep, Ended).Says(Declined(RequestGone)) else Do(c, Keep, Peek)
    case Peek => if d in sh.inflight then Do(c, Keep, Ended).Says(AlreadyPulling(sh.inflight[d])) else Do(c, Keep, Reserve)
    case Reserve => if sh.accepting then Do(c, Take(Gate), Enter) else Do(c, Keep, Ended).Says(Declined(GateClosed))
    case Enter => if sh.admitted < AdmitLimit(cfg) then Do(c, Take(Admit), Contend) else Do(c, Keep, Overfull)
    case Overfull => Do(c, Give(Gate), Ended).Says(Declined(AdmissionFull))
    case Contend => if d in sh.inflight then Do(c, Keep, Lost).At(sh.inflight[d]) else Do(c, Take(Claim), Launch).At(o.now)
    case Lost => Do(c, Give(Admit), Leave)
    case Leave => Do(c, Give(Gate), Ended).Says(AlreadyPulling(c.startedAt))
    case Launch => Do(c, Keep, Queued).Says(Started(c.startedAt))
    case Advertising => Do(c, Give(Key), Advertised)
    case Advertised => Do(c, Give(Gate), Ended)
    case Queued => Do(c, Take(Run), Running)
    case Running => Do(c, Give(Claim), Pulled)
    case Pulled => Do(c, Give(Run), Unrun)
    case Unrun => Do(c, Give(Admit), Unadmitted)
    case Unadmitted => Do(c, Give(Gate), Ended)
    case Offer =>
      if o.refused || d in sh.inflight then Do(c, Keep, Ended).Says(Forwarded(false)) else Do(c, Take(Claim), Token).At(o.now)
    case Token => if o.refused then Do(c, Give(Claim), Ended).Says(Forwarded(false)) else Do(c, Keep, Jitter)
    case Jitter => if o.gone then Do(c, Give(Claim), Ended).Says(Forwarded(false)) else Do(c, Keep, Recheck)
    case Recheck => if o.present then Do(c, Give(Claim), Ended).Says(Forwarded(false)) else Do(c, Keep, Fetching).Says(Forwarded(true))
    case Fetching => Do(c, Give(Claim), Ended)
    case Ended => Do(c, Keep, Ended)
  }

  function Acquire(sh: Shared, r: Resource, d: Digest, at: Time): Shared {
    match r
    case Gate => sh.(wg := sh.wg + 1)
    case Admit => sh.(admitted := sh.admitted + 1)
    case Run => sh.(running := sh.running + 1)
    case Claim => sh.(inflight := sh.inflight[d := at])
    case Key => sh.(keys := sh.keys + {d})
  }

  function Release(sh: Shared, r: Resource, d: Digest): Shared {
    match r
    case Gate => sh.(wg := sh.wg - 1)
    case Admit => sh.(admitted := sh.admitted - 1)
    case Run => sh.(running := sh.running - 1)
    case Claim => sh.(inflight := sh.inflight - {d})
    case Key => sh.(keys := sh.keys - {d})
  }

  function Effect(sh: Shared, d: Digest, a: Act): Shared {
    match a.op
    case Keep => sh
    case Take(r) => Acquire(sh, r, d, a.startedAt)
    case Give(r) => Release(sh, r, d)
  }

  function After(c: Call, a: Act): Call {
    c.(pc := a.next, startedAt := a.startedAt, answer := a.answer,
       taken := if a.op.Take? then c.taken + multiset{a.op.r} else c.taken,
       given := if a.op.Give? then c.given + multiset{a.op.r} else c.given)
  }

  /** `drained` records that the wait for the gate has returned. */
  datatype State = State(shared: Shared, calls: map<CallId, Call>, drained: bool)

  datatype Event =
    | Pump(id: CallId, digest: Digest)
    | Fallback(id: CallId, digest: Digest)
    | Move(id: CallId, oracle: Oracle)
    | StopAccepting
    | WaitReturns

  ghost predicate Enabled(cfg: Config, s: State, e: Event) {
    match e
    case Pump(id, _) => id !in s.calls
    case Fallback(id, _) => id !in s.calls
    case Move(id, _) => id in s.calls && Ready(cfg, s.shared, s.calls[id].pc)
    case StopAccepting => true
    case WaitReturns => !s.shared.accepting && s.shared.wg == 0
  }

  function New(d: Digest, pc: Pc): Call {
    Call(d, pc, 0, None, multiset{}, multiset{})
  }

  ghost function Next(cfg: Config, s: State, e: Event): State
    requires Enabled(cfg, s, e)
  {
    match e
    case Pump(id, d) => s.(calls := s.calls[id := New(d, Lookup)])
    case Fallback(id, d) => s.(calls := s.calls[id := New(d, Offer)])
    case Move(id, o) =>
      var c := s.calls[id];
      var a := Decide(cfg, s.shared, c, o);
      s.(shared := Effect(s.shared, c.digest, a), calls := s.calls[id := After(c, a)])
    case StopAccepting => s.(shared := s.shared.(accepting := false))
    case WaitReturns => s.(drained := true)
  }

  // ----- Invariant -----

  ghost function Holders(calls: map<CallId, Call>, r: Resource): set<CallId> {
    set id | id in calls && Holds(calls[id].pc, r)
  }

  predicate Countable(r: Resource) {
    r.Gate? || r.Admit? || r.Run?
  }

  /** The counter of a counted resource. */
  function Amount(sh: Shared, r: Resource): int
    requires Countable(r)
  {
    match r case Gate => sh.wg case Admit => sh.admitted case Run => sh.running
  }

  /** The digests a named resource covers. */
  function Names(sh: Shared, r: Resource): set<Digest>
    requires !Countable(r)
  {
    if r == Claim then sh.inflight.Keys else sh.keys
  }

  ghost predicate Counted(s: State, r: Resource)
    requires Countable(r)
  {
    Amount(s.shared, r) == |Holders(s.calls, r)|
  }

  ghost predicate Has(calls: map<CallId, Call>, id: CallId, r: Resource) {
    id in calls && Holds(calls[id].pc, r)
  }

  ghost predicate HasOwner(calls: map<CallId, Call>, d: Digest, r: Resource) {
    exists id :: Has(calls, id, r) && calls[id].digest == d
  }

  /** Every covered digest has exactly one holder, and every holder's digest is covered. */
  ghost predicate Owned(names: set<Digest>, calls: map<CallId, Call>, r: Resource) {
    && (forall id | Has(calls, id, r) :: calls[id].digest in names)
    && (forall d | d in names :: HasOwner(calls, d, r))
    && (forall i, j | Has(calls, i, r) && Has(calls, j, r) && calls[i].digest == calls[j].digest :: i == j)
  }

  /** Where a call may already have given the resource back. */
  predicate Past(pc: Pc, r: Resource) {
    match r
    case Gate => pc.Ended?
    case Admit => pc.Leave? || pc.Unadmitted? || pc.Ended?
    case Run => pc.Unrun? || pc.Unadmitted? || pc.Ended?
    case Claim => pc.Pulled? || pc.Unrun? || pc.Unadmitted? || pc.Ended?
    case Key => pc.Advertised? || pc.Ended?
  }

  function Bit(b: bool): nat {
    if b then 1 else 0
  }

  /** The call has taken the resource at most once and has given back exactly what it no longer holds. */
  ghost predicate Balanced(c: Call, r: Resource) {
    c.taken[r] == c.given[r] + Bit(Holds(c.pc, r)) && c.given[r] <= Bit(Past(c.pc, r))
  }

  /** The entry of every claimed digest carries its holder's start time. */
  ghost predicate StampedAt(s: State, id: CallId) {
    Has(s.calls, id, Claim) && s.calls[id].digest in s.shared.inflight ==>
      s.shared.inflight[s.calls[id].digest] == s.calls[id].startedAt
  }

  ghost predicate Stamped(s: State) {
    forall id :: StampedAt(s, id)
  }

  ghost predicate Settled(s: State) {
    forall id, r: Resource | id in s.calls :: Balanced(s.calls[id], r)
  }

  ghost predicate Inv(cfg: Config, s: State) {
    && Counted(s, Gate) && Counted(s, Admit) && Counted(s, Run)
    && s.shared.admitted <= AdmitLimit(cfg) && s.shared.running <= RunLimit(cfg)
    && Owned(Names(s.shared, Claim), s.calls, Claim) && Owned(Names(s.shared, Key), s.calls, Key)
    && Stamped(s) && Settled(s)
    && (s.drained ==> !s.shared.accepting && s.shared.wg == 0)
  }

  // ----- One call's step -----

  /** The step takes only what the call lacks and what is free, gives only what it holds, and keeps the rest. */
  ghost predicate Legal(cfg: Config, sh: Shared, c: Call, a: Act) {
    && (forall r: Resource :: Holds(a.next, r) == if a.op == Take(r) then true else if a.op == Give(r) then false else Holds(c.pc, r))
    && (a.op.Take? ==> !Holds(c.pc, a.op.r) && !Past(c.pc, a.op.r) && Free(cfg, sh, c.digest, a.op.r))
    && (a.op.Give? ==> Holds(c.pc, a.op.r) && !Past(c.pc, a.op.r) && Past(a.next, a.op.r))
    && (forall r: Resource | Past(c.pc, r) :: Past(a.next, r))
    && (Holds(c.pc, Claim) ==> a.startedAt == c.startedAt)
  }

  ghost predicate Free(cfg: Config, sh: Shared, d: Digest, r: Resource) {
    match r
    case Gate => sh.accepting
    case Admit => sh.admitted < AdmitLimit(cfg)
    case Run => sh.running < RunLimit(cfg)
    case Claim => d !in sh.inflight
    case Key => d !in sh.keys
  }

  lemma DecideIsLegal(cfg: Config, sh: Shared, c: Call, o: Oracle)
    requires Ready(cfg, sh, c.pc)
    ensures Legal(cfg, sh, c, Decide(cfg, sh, c, o))
  {
    hide AdmitLimit, RunLimit;
  }

  // ----- Every step keeps the invariant -----

  lemma HoldersUpdate(calls: map<CallId, Call>, id: CallId, c: Call, r: Resource)
    ensures |Holders(calls[id := c], r)| == |Holders(calls, r)| + Bit(Holds(c.pc, r)) - Bit(Has(calls, id, r))
  {
    hide Holds;
    assert Holders(calls[id := c], r) == if Holds(c.pc, r) then Holders(calls, r) + {id} else Holders(calls, r) - {id};
  }

  predicate Transfers(names: set<Digest>, names': set<Digest>, d: Digest, held: bool, holds: bool) {
    if held == holds then names' == names
    else if holds then d !in names && names' == names + {d}
    else names' == names - {d}
  }

  lemma HasUpdate(calls: map<CallId, Call>, id: CallId, c: Call, r: Resource, i: CallId)
    requires id in calls ==> calls[id].digest == c.digest
    ensures Has(calls[id := c], i, r) == if i == id then Holds(c.pc, r) else Has(calls, i, r)
    ensures i in calls ==> calls[id := c][i].digest == calls[i].digest
  {
  }

  lemma OwnedUpdate(names: set<Digest>, names': set<Digest>, calls: map<CallId, Call>, id: CallId, c: Call, r: Resource)
    requires Owned(names, calls, r) && id in calls && calls[id].digest == c.digest
    requires Transfers(names, names', c.digest, Holds(calls[id].pc, r), Holds(c.pc, r))
    ensures Owned(names', calls[id := c], r)
  {
    hide Holds;
    var calls' := calls[id := c];
    forall d | d in names' ensures HasOwner(calls', d, r) {
      var i :| if d == c.digest && Holds(c.pc, r) then i == id else Has(calls, i, r) && calls[i].digest == d;
      HasUpdate(calls, id, c, r, i);
    }
    forall i ensures Has(calls', i, r) ==> calls'[i].digest in names' {
      HasUpdate(calls, id, c, r, i);
    }
    forall i, j | Has(calls', i, r) && Has(calls', j, r) && calls'[i].digest == calls'[j].digest ensures i == j {
      HasUpdate(calls, id, c, r, i);
      HasUpdate(calls, id, c, r, j);
    }
  }

  ghost function Moved(s: State, id: CallId, a: Act): State
    requires id in s.calls
  {
    s.(shared := Effect(s.shared, s.calls[id].digest, a), calls := s.calls[id := After(s.calls[id], a)])
  }

  lemma MoveCounts(cfg: Config, s: State, id: CallId, a: Act, r: Resource)
    requires id in s.calls && Legal(cfg, s.shared, s.calls[id], a) && Countable(r) && Counted(s, r)
    ensures Counted(Moved(s, id, a), r)
  {
    hide Holds, Past, Free;
    HoldersUpdate(s.calls, id, After(s.calls[id], a), r);
  }

  lemma MoveOwns(cfg: Config, s: State, id: CallId, a: Act, r: Resource)
    requires id in s.calls && Legal(cfg, s.shared, s.calls[id], a) && !Countable(r) && Owned(Names(s.shared, r), s.calls, r)
    ensures Owned(Names(Moved(s, id, a).shared, r), Moved(s, id, a).calls, r)
  {
    hide Holds, Past, Owned;
    OwnedUpdate(Names(s.shared, r), Names(Moved(s, id, a).shared, r), s.calls, id, After(s.calls[id], a), r);
  }

  lemma MoveBalances(cfg: Config, sh: Shared, c: Call, a: Act, r: Resource)
    requires Legal(cfg, sh, c, a) && Balanced(c, r)
    ensures Balanced(After(c, a), r)
  {
  }

  lemma EffectOnClaims(sh: Shared, d: Digest, a: Act)
    ensures Effect(sh, d, a).inflight ==
            if a.op == Take(Claim) then sh.inflight[d := a.startedAt]
            else if a.op == Give(Claim) then sh.inflight - {d}
            else sh.inflight
  {
  }

  lemma MoveStampsAt(cfg: Config, s: State, id: CallId, a: Act, i: CallId)
    requires id in s.calls && Legal(cfg, s.shared, s.calls[id], a)
    requires StampedAt(s, i)
    requires Has(s.calls, i, Claim) && Has(s.calls, id, Claim) && s.calls[i].digest == s.calls[id].digest ==> i == id
    requires Has(s.calls, i, Claim) ==> s.calls[i].digest in s.shared.inflight
    ensures StampedAt(Moved(s, id, a), i)
  {
    hide Holds, Past, Effect;
    EffectOnClaims(s.shared, s.calls[id].digest, a);
  }

  lemma MoveStamps(cfg: Config, s: State, id: CallId, a: Act)
    requires id in s.calls && Legal(cfg, s.shared, s.calls[id], a) && Owned(Names(s.shared, Claim), s.calls, Claim) && Stamped(s)
    ensures Stamped(Moved(s, id, a))
  {
    hide Holds, Past, Legal, Moved;
    forall i ensures StampedAt(Moved(s, id, a), i) {
      MoveStampsAt(cfg, s, id, a, i);
    }
  }

  lemma MoveSettles(cfg: Config, s: State, id: CallId, a: Act)
    requires id in s.calls && Legal(cfg, s.shared, s.calls[id], a) && Settled(s)
    ensures Settled(Moved(s, id, a))
  {
    hide Holds, Past, Legal, Balanced;
    forall i, r: Resource | i in Moved(s, id, a).calls ensures Balanced(Moved(s, id, a).calls[i], r) {
      if i == id {
        MoveBalances(cfg, s.shared, s.calls[id], a, r);
      }
    }
  }

  lemma HolderIsCounted(s: State, id: CallId, r: Resource)
    requires Countable(r) && Counted(s, r) && Has(s.calls, id, r)
    ensures Amount(s.shared, r) > 0
  {
    hide Holds;
    assert id in Holders(s.calls, r);
  }

  /** No step can leave a counter negative or above its limit. */
  lemma MoveBounds(cfg: Config, s: State, id: CallId, a: Act)
    requires id in s.calls && Legal(cfg, s.shared, s.calls[id], a)
    requires s.shared.admitted <= AdmitLimit(cfg) && s.shared.running <= RunLimit(cfg)
    requires s.drained ==> !s.shared.accepting && s.shared.wg == 0 && Counted(s, Gate)
    ensures var t := Moved(s, id, a);
            && t.shared.admitted <= AdmitLimit(cfg) && t.shared.running <= RunLimit(cfg)
            && (t.drained ==> !t.shared.accepting && t.shared.wg == 0)
  {
    hide Holds, Past, AdmitLimit, RunLimit, Counted;
    if a.op == Give(Gate) && Counted(s, Gate) {
      HolderIsCounted(s, id, Gate);
    }
  }

  lemma MoveKeeps(cfg: Config, s: State, id: CallId, a: Act)
    requires Inv(cfg, s) && id in s.calls && Legal(cfg, s.shared, s.calls[id], a)
    ensures Inv(cfg, Moved(s, id, a))
  {
    hide Legal, Owned, Stamped, Settled, Counted, AdmitLimit, RunLimit, Moved;
    MoveCounts(cfg, s, id, a, Gate);
    MoveCounts(cfg, s, id, a, Admit);
    MoveCounts(cfg, s, id, a, Run);
    MoveOwns(cfg, s, id, a, Claim);
    MoveOwns(cfg, s, id, a, Key);
    MoveStamps(cfg, s, id, a);
    MoveSettles(cfg, s, id, a);
    MoveBounds(cfg, s, id, a);
  }

  /** A call that has just arrived holds nothing. */
  lemma ArrivalKeeps(cfg: Config, s: State, id: CallId, d: Digest, pc: Pc)
    requires Inv(cfg, s) && id !in s.calls && (pc == Lookup || pc == Offer)
    ensures Inv(cfg, s.(calls := s.calls[id := New(d, pc)]))
  {
    hide AdmitLimit, RunLimit, Holds, Owned, StampedAt, Balanced, Holders;
    var c := New(d, pc);
    var t := s.(calls := s.calls[id := c]);
    NewHoldsNothing(c);
    forall r: Resource ensures Holders(t.calls, r) == Holders(s.calls, r) {
      HoldersArrival(s.calls, id, c, r);
    }
    ArrivalOwns(Names(s.shared, Claim), s.calls, id, c, Claim);
    ArrivalOwns(Names(s.shared, Key), s.calls, id, c, Key);
    forall i ensures StampedAt(t, i) {
      ArrivalStamps(s, id, c, i);
    }
  }

  lemma NewHoldsNothing(c: Call)
    requires c == New(c.digest, Lookup) || c == New(c.digest, Offer)
    ensures forall r: Resource :: !Holds(c.pc, r) && Balanced(c, r)
  {
  }

  lemma HoldersArrival(calls: map<CallId, Call>, id: CallId, c: Call, r: Resource)
    requires id !in calls && !Holds(c.pc, r)
    ensures Holders(calls[id := c], r) == Holders(calls, r)
  {
  }

  lemma ArrivalStamps(s: State, id: CallId, c: Call, i: CallId)
    requires id !in s.calls && !Holds(c.pc, Claim) && StampedAt(s, i)
    ensures StampedAt(s.(calls := s.calls[id := c]), i)
  {
  }

  lemma HasArrival(calls: map<CallId, Call>, id: CallId, c: Call, r: Resource, i: CallId)
    requires id !in calls && !Holds(c.pc, r)
    ensures Has(calls[id := c], i, r) == Has(calls, i, r)
    ensures Has(calls, i, r) ==> i in calls && calls[id := c][i] == calls[i]
  {
  }

  lemma ArrivalOwns(names: set<Digest>, calls: map<CallId, Call>, id: CallId, c: Call, r: Resource)
    requires Owned(names, calls, r) && id !in calls && !Holds(c.pc, r)
    ensures Owned(names, calls[id := c], r)
  {
    hide Holds, Has;
    var calls' := calls[id := c];
    forall i ensures Has(calls', i, r) == Has(calls, i, r) && (Has(calls, i, r) ==> i in calls && calls'[i] == calls[i]) {
      HasArrival(calls, id, c, r, i);
    }
    forall d | d in names ensures HasOwner(calls', d, r) {
      var i :| Has(calls, i, r) && calls[i].digest == d;
      assert Has(calls', i, r);
    }
  }

  lemma NextKeeps(cfg: Config, s: State, e: Event)
    requires Inv(cfg, s) && Enabled(cfg, s, e)
    ensures Inv(cfg, Next(cfg, s, e))
  {
    match e
    case Pump(id, d) => ArrivalKeeps(cfg, s, id, d, Lookup);
    case Fallback(id, d) => ArrivalKeeps(cfg, s, id, d, Offer);
    case Move(id, o) =>
      hide Legal, Inv, Decide;
      DecideIsLegal(cfg, s.shared, s.calls[id], o);
      MoveKeeps(cfg, s, id, Decide(cfg, s.shared, s.calls[id], o));
    case StopAccepting => GateKeeps(cfg, s, Next(cfg, s, e));
    case WaitReturns => GateKeeps(cfg, s, Next(cfg, s, e));
  }

  lemma GateKeeps(cfg: Config, s: State, t: State)
    requires Inv(cfg, s) && t.calls == s.calls && (t.shared == s.shared || t.shared == s.shared.(accepting := false))
    requires t.drained ==> !t.shared.accepting && t.shared.wg == 0
    ensures Inv(cfg, t)
  {
    hide Holds, AdmitLimit, RunLimit;
    forall i ensures StampedAt(t, i) {
      assert StampedAt(s, i);
    }
  }

  // ----- Runs -----

  ghost predicate Initial(s: State) {
    s == State(Shared(true, 0, 0, 0, map[], {}), map[], false)
  }

  ghost predicate IsRun(cfg: Config, states: seq<State>, events: seq<Event>) {
    && |states| == |events| + 1
    && forall i | 0 <= i < |events| :: Enabled(cfg, states[i], events[i]) && states[i + 1] == Next(cfg, states[i], events[i])
  }

  lemma InitialKeeps(cfg: Config, s: State)
    requires Initial(s)
    ensures Inv(cfg, s)
  {
  }

  lemma {:induction false} RunKeeps(cfg: Config, states: seq<State>, events: seq<Event>, i: nat)
    requires IsRun(cfg, states, events) && Initial(states[0]) && i <= |events|
    ensures Inv(cfg, states[i])
  {
    hide Inv, Initial, Enabled, Next;
    if i == 0 {
      InitialKeeps(cfg, states[0]);
    } else {
      RunKeeps(cfg, states, events, i - 1);
      NextKeeps(cfg, states[i - 1], events[i - 1]);
    }
  }

  ghost function At(calls: map<CallId, Call>, pc: Pc): set<CallId> {
    set id | id in calls && calls[id].pc == pc
  }

  /** A pull of a digest: the pump's, queued or running, or the fallback's. */
  ghost predicate Pulls(c: Call) {
    c.pc == Queued || c.pc == Running || c.pc == Fetching
  }

  /** The counters are exactly the numbers of calls holding a slot, and stay within their limits. */
  ghost predicate WithinLimits(cfg: Config, s: State) {
    && |At(s.calls, Running)| <= s.shared.running <= RunLimit(cfg)
    && |Holders(s.calls, Admit)| == s.shared.admitted <= AdmitLimit(cfg)
    && |Holders(s.calls, Gate)| == s.shared.wg
  }

  ghost predicate OnePullPerDigest(s: State) {
    forall a, b | a in s.calls && b in s.calls && Pulls(s.calls[a]) && Pulls(s.calls[b]) && s.calls[a].digest == s.calls[b].digest ::
      a == b
  }

  /** A call that has ended released each slot, claim and key it took, once. */
  ghost predicate EndedReleased(s: State) {
    forall id, r: Resource | id in s.calls && s.calls[id].pc == Ended :: s.calls[id].taken[r] == s.calls[id].given[r] <= 1
  }

  lemma LimitsHold(cfg: Config, s: State)
    requires Inv(cfg, s)
    ensures WithinLimits(cfg, s)
  {
    hide AdmitLimit, RunLimit, Owned, Stamped, Settled;
    Includes(At(s.calls, Running), Holders(s.calls, Run));
  }

  lemma PullsAreUnique(names: set<Digest>, s: State)
    requires Owned(names, s.calls, Claim)
    ensures OnePullPerDigest(s)
  {
  }

  lemma EndsReleased(s: State)
    requires Settled(s)
    ensures EndedReleased(s)
  {
    forall id, r: Resource | id in s.calls && s.calls[id].pc == Ended ensures s.calls[id].taken[r] == s.calls[id].given[r] <= 1 {
      assert Balanced(s.calls[id], r);
    }
  }

  /** Every state of every run is within the limits, has at most one pull per digest, and its ended calls hold nothing. */
  lemma PumpIsSafe(cfg: Config, states: seq<State>, events: seq<Event>, i: nat)
    requires IsRun(cfg, states, events) && Initial(states[0]) && i <= |events|
    ensures WithinLimits(cfg, states[i]) && OnePullPerDigest(states[i]) && EndedReleased(states[i])
  {
    hide WithinLimits, OnePullPerDigest, EndedReleased, Initial, Next, Enabled, Counted, Owned, Stamped, Settled, AdmitLimit, RunLimit;
    RunKeeps(cfg, states, events, i);
    LimitsHold(cfg, states[i]);
    PullsAreUnique(Names(states[i].shared, Claim), states[i]);
    EndsReleased(states[i]);
  }

  // ----- Shutdown -----

  predicate OfFallback(pc: Pc) {
    pc.Offer? || pc.Token? || pc.Jitter? || pc.Recheck? || pc.Fetching?
  }

  /** Once the wait for the closed gate has returned, nothing the gate counts is running, held or about to start, ever. */
  ghost predicate Quiet(s: State) {
    && s.shared.wg == 0 && s.shared.admitted == 0 && s.shared.running == 0
    && (forall id | id in s.calls :: !Holds(s.calls[id].pc, Gate) && !Holds(s.calls[id].pc, Admit) && !Holds(s.calls[id].pc, Run))
    && (forall id | Has(s.calls, id, Claim) :: OfFallback(s.calls[id].pc))
    && At(s.calls, Advertising) == {}
  }

  lemma DrainedIsQuiet(cfg: Config, s: State)
    requires Inv(cfg, s) && s.drained
    ensures Quiet(s)
  {
    hide AdmitLimit, RunLimit, Owned, Stamped, Settled;
    assert Holders(s.calls, Gate) == {};
    forall id | id in s.calls ensures !Holds(s.calls[id].pc, Gate) {
      assert id !in Holders(s.calls, Gate);
    }
    assert Holders(s.calls, Admit) == {} && Holders(s.calls, Run) == {};
  }

  lemma {:induction false} DrainedStays(cfg: Config, states: seq<State>, events: seq<Event>, i: nat, j: nat)
    requires IsRun(cfg, states, events) && i <= j <= |events| && states[i].drained
    ensures states[j].drained
  {
    if i < j {
      hide Decide;
      DrainedStays(cfg, states, events, i, j - 1);
    }
  }

  lemma ShutdownIsFinal(cfg: Config, states: seq<State>, events: seq<Event>, i: nat, j: nat)
    requires IsRun(cfg, states, events) && Initial(states[0]) && i < j <= |events| && events[i].WaitReturns?
    ensures Quiet(states[j])
  {
    hide Quiet, Inv, Initial;
    assert states[i + 1].drained;
    DrainedStays(cfg, states, events, i + 1, j);
    RunKeeps(cfg, states, events, j);
    DrainedIsQuiet(cfg, states[j]);
  }

  /** The steps a call holding the gate still has to take before it releases it. */
  function Rank(pc: Pc): nat {
    match pc
    case Enter => 8
    case Contend => 7
    case Launch => 6
    case Queued => 5
    case Running => 4
    case Pulled => 3
    case Unrun => 2
    case Unadmitted => 1
    case Overfull => 1
    case Lost => 2
    case Leave => 1
    case Advertising => 2
    case Advertised => 1
    case _ => 0
  }

  /** The total rank of the calls numbered below `n`. */
  ghost function Work(calls: map<CallId, Call>, n: nat): nat {
    if n == 0 then 0 else Work(calls, n - 1) + if n - 1 in calls then Rank(calls[n - 1].pc) else 0
  }

  ghost function RankOf(calls: map<CallId, Call>, id: CallId): nat {
    if id in calls then Rank(calls[id].pc) else 0
  }

  lemma {:induction false} WorkUpdate(calls: map<CallId, Call>, id: CallId, c: Call, n: nat)
    ensures Work(calls[id := c], n) == Work(calls, n) + if id < n then Rank(c.pc) - RankOf(calls, id) else 0
  {
    hide Rank;
    if n > 0 {
      WorkUpdate(calls, id, c, n - 1);
    }
  }

  /** Behind a closed gate every step of a call that holds it brings the call closer to releasing it; others take no gate. */
  lemma RankDrops(cfg: Config, sh: Shared, c: Call, o: Oracle)
    requires !sh.accepting && Ready(cfg, sh, c.pc)
    ensures Rank(Decide(cfg, sh, c, o).next) + Bit(Holds(c.pc, Gate)) <= Rank(c.pc)
    ensures !Holds(c.pc, Gate) ==> Rank(Decide(cfg, sh, c, o).next) == 0
  {
  }

  ghost predicate DrainStep(s: State, e: Event) {
    e.Move? && Has(s.calls, e.id, Gate)
  }

  /** The number of steps taken by calls while they held the gate. */
  ghost function DrainSteps(states: seq<State>, events: seq<Event>): nat
    requires |states| == |events| + 1
  {
    if events == [] then 0
    else DrainSteps(states[..|events|], events[..|events| - 1]) + Bit(DrainStep(states[|events| - 1], events[|events| - 1]))
  }

  lemma WorkDrops(cfg: Config, s: State, e: Event, n: nat)
    requires Enabled(cfg, s, e) && !s.shared.accepting && (e.Move? ==> e.id < n)
    ensures Work(Next(cfg, s, e).calls, n) + Bit(DrainStep(s, e)) <= Work(s.calls, n)
  {
    hide Decide, Rank, Work, Holds;
    match e
    case Move(id, o) =>
      RankDrops(cfg, s.shared, s.calls[id], o);
      WorkUpdate(s.calls, id, After(s.calls[id], Decide(cfg, s.shared, s.calls[id], o)), n);
    case Pump(id, d) =>
      WorkUpdate(s.calls, id, New(d, Lookup), n);
      NewHasNoRank(d);
    case Fallback(id, d) =>
      WorkUpdate(s.calls, id, New(d, Offer), n);
      NewHasNoRank(d);
    case _ =>
  }

  lemma NewHasNoRank(d: Digest)
    ensures Rank(New(d, Lookup).pc) == 0 && Rank(New(d, Offer).pc) == 0
  {
  }

  lemma ClosedStays(cfg: Config, s: State, e: Event)
    requires Enabled(cfg, s, e) && !s.shared.accepting
    ensures !Next(cfg, s, e).shared.accepting
  {
    hide Decide;
  }

  /** After the gate closes, at most as many draining steps follow as the holders' ranks add up to. */
  lemma {:induction false} DrainIsBounded(cfg: Config, states: seq<State>, events: seq<Event>, n: nat)
    requires IsRun(cfg, states, events) && !states[0].shared.accepting
    requires forall i | 0 <= i < |events| && events[i].Move? :: events[i].id < n
    ensures !states[|events|].shared.accepting
    ensures DrainSteps(states, events) + Work(states[|events|].calls, n) <= Work(states[0].calls, n)
  {
    hide Next, Enabled, Work;
    if events != [] {
      var k := |events| - 1;
      DrainIsBounded(cfg, states[..k + 1], events[..k], n);
      WorkDrops(cfg, states[k], events[k], n);
      ClosedStays(cfg, states[k], events[k]);
    }
  }

  /** The ranks add up to at most eight per call inside the gate. */
  lemma {:induction false} WorkIsSmall(calls: map<CallId, Call>, n: nat)
    ensures Work(calls, n) <= 8 * |Inside(calls, n)|
  {
    hide Holders;
    if n > 0 {
      WorkIsSmall(calls, n - 1);
      assert Inside(calls, n) == if n - 1 in Holders(calls, Gate) then Inside(calls, n - 1) + {n - 1} else Inside(calls, n - 1);
      RankIsSmall(calls, n - 1);
    }
  }

  ghost function Inside(calls: map<CallId, Call>, n: nat): set<CallId> {
    set id | id in Holders(calls, Gate) && id < n
  }

  lemma RankIsSmall(calls: map<CallId, Call>, id: CallId)
    ensures RankOf(calls, id) <= if id in Holders(calls, Gate) then 8 else 0
  {
  }

  /** While anything is inside the gate, some call inside it can take a step. */
  lemma DrainProgresses(cfg: Config, s: State)
    requires Inv(cfg, s) && s.shared.wg > 0
    ensures exists id :: Has(s.calls, id, Gate) && Ready(cfg, s.shared, s.calls[id].pc)
  {
  }

  /** Shutdown always drains: from any reachable state with a closed gate, at most eight steps per call inside it remain. */
  lemma ShutdownDrains(cfg: Config, states: seq<State>, events: seq<Event>, i: nat)
    requires IsRun(cfg, states, events) && Initial(states[0]) && i <= |events| && !states[i].shared.accepting
    ensures DrainSteps(states[i..], events[i..]) <= 8 * states[i].shared.wg
  {
    hide Next, Enabled, Initial, Work, Owned, Stamped, Settled, Holds;
    var n := Bound(events);
    RunKeeps(cfg, states, events, i);
    DrainIsBounded(cfg, states[i..], events[i..], n);
    WorkIsSmall(states[i].calls, n);
    Includes(Inside(states[i].calls, n), Holders(states[i].calls, Gate));
  }

  /** A number above that of every call that moves. */
  ghost function Bound(events: seq<Event>): (n: nat)
    ensures forall i | 0 <= i < |events| && events[i].Move? :: events[i].id < n
  {
    if events == [] then 0
    else
      var e, n := events[|events| - 1], Bound(events[..|events| - 1]);
      if e.Move? && n <= e.id then e.id + 1 else n
  }

  // ----- In-flight claims -----

  /** An in-flight entry belongs to exactly one call and carries its start time. */
  lemma EntryIsOwned(cfg: Config, s: State, d: Digest) returns (id: CallId)
    requires Inv(cfg, s) && d in s.shared.inflight
    ensures Has(s.calls, id, Claim) && s.calls[id].digest == d && s.calls[id].startedAt == s.shared.inflight[d]
    ensures forall other | Has(s.calls, other, Claim) && s.calls[other].digest == d :: other == id
  {
    hide Settled, AdmitLimit, RunLimit, Counted, Holds;
    id :| Has(s.calls, id, Claim) && s.calls[id].digest == d;
    assert StampedAt(s, id);
  }

  /** A pull from the origin under the call's claim: the pump's own, or one the fallback's guards let through. */
  ghost predicate RunsAt(s: State, id: CallId) {
    id in s.calls && (s.calls[id].pc.Running? || s.calls[id].pc.Fetching?)
  }

  /** A guard of the fallback turns the call down: no token, the caller gone, or a provider found after all. */
  predicate Refuses(pc: Pc, o: Oracle) {
    (pc.Token? && o.refused) || (pc.Jitter? && o.gone) || (pc.Recheck? && o.present)
  }

  ghost predicate Declines(s: State, e: Event, id: CallId) {
    e.Move? && e.id == id && id in s.calls && Refuses(s.calls[id].pc, e.oracle)
  }

  /** The call holds a claim under which nothing has been pulled yet. */
  predicate Awaits(pc: Pc) {
    pc.Launch? || pc.Queued? || pc.Token? || pc.Jitter? || pc.Recheck?
  }

  /** The call's claim, if it had one, has been a pull or has been given up. */
  predicate Over(pc: Pc) {
    pc.Running? || pc.Pulled? || pc.Unrun? || pc.Unadmitted? || pc.Fetching? || pc.Ended?
  }

  /** A waiting claim ends waiting, by a pull or by a refusal; after that nothing is claimed or refused again. */
  ghost predicate Follows(pc: Pc, pc': Pc, refused: bool) {
    && (Awaits(pc) ==> if refused then pc' == Ended else Awaits(pc') || pc' == Running || pc' == Fetching)
    && (Over(pc) ==> Over(pc') && !refused && (pc == Ended ==> pc' == Ended))
  }

  lemma DecideFollows(cfg: Config, sh: Shared, c: Call, o: Oracle)
    ensures Follows(c.pc, Decide(cfg, sh, c, o).next, Refuses(c.pc, o))
  {
  }

  lemma ClaimSteps(cfg: Config, s: State, e: Event, id: CallId)
    requires Enabled(cfg, s, e) && id in s.calls
    ensures id in Next(cfg, s, e).calls && Follows(s.calls[id].pc, Next(cfg, s, e).calls[id].pc, Declines(s, e, id))
  {
    hide AdmitLimit, RunLimit, Effect, Decide;
    if e.Move? {
      DecideFollows(cfg, s.shared, s.calls[e.id], e.oracle);
    }
  }

  lemma {:induction false} OverStays(cfg: Config, states: seq<State>, events: seq<Event>, i: nat, k: nat, id: CallId)
    requires IsRun(cfg, states, events) && i <= k <= |events| && id in states[i].calls && Over(states[i].calls[id].pc)
    ensures id in states[k].calls && Over(states[k].calls[id].pc) && (states[i].calls[id].pc == Ended ==> states[k].calls[id].pc == Ended)
    ensures k < |events| ==> !Declines(states[k], events[k], id)
  {
    hide Enabled, Next, Over, Refuses;
    if i < k {
      OverStays(cfg, states, events, i, k - 1, id);
      ClaimSteps(cfg, states[k - 1], events[k - 1], id);
    }
    if k < |events| {
      ClaimSteps(cfg, states[k], events[k], id);
    }
  }

  lemma ClaimAwaitsOrRuns(s: State, id: CallId)
    requires Has(s.calls, id, Claim)
    ensures Awaits(s.calls[id].pc) || RunsAt(s, id)
    ensures RunsAt(s, id) ==> Over(s.calls[id].pc)
  {
  }

  /** A claim that has been given up was a pull that ran, exactly when no guard of the fallback turned its call down. */
  lemma {:induction false} ClaimRuns(cfg: Config, states: seq<State>, events: seq<Event>, i: nat, j: nat, id: CallId)
    requires IsRun(cfg, states, events) && i <= j <= |events|
    requires Has(states[i].calls, id, Claim) && !Has(states[j].calls, id, Claim)
    ensures (exists k :: i <= k < j && RunsAt(states[k], id)) <==> forall k | i <= k < j :: !Declines(states[k], events[k], id)
    decreases j - i
  {
    hide Enabled, Next, Refuses, Over, Awaits;
    ClaimAwaitsOrRuns(states[i], id);
    if RunsAt(states[i], id) {
      forall k | i <= k < j ensures !Declines(states[k], events[k], id) {
        OverStays(cfg, states, events, i, k, id);
      }
    } else {
      ClaimSteps(cfg, states[i], events[i], id);
      WaitGoesOn(states[i + 1], id);
      if Declines(states[i], events[i], id) {
        forall k | i <= k < j ensures !RunsAt(states[k], id) {
          if i < k {
            OverStays(cfg, states, events, i + 1, k, id);
          }
        }
      } else {
        ClaimRuns(cfg, states, events, i + 1, j, id);
      }
    }
  }

  lemma WaitGoesOn(s: State, id: CallId)
    ensures id in s.calls && (Awaits(s.calls[id].pc) || s.calls[id].pc == Running || s.calls[id].pc == Fetching) ==> Has(s.calls, id, Claim)
    ensures id in s.calls && s.calls[id].pc == Ended ==> Over(s.calls[id].pc)
  {
  }

  /** In particular every claim of the pump itself ends as a pull that ran. */
  lemma PumpClaimRuns(cfg: Config, states: seq<State>, events: seq<Event>, i: nat, j: nat, id: CallId)
    requires IsRun(cfg, states, events) && i <= j <= |events|
    requires Has(states[i].calls, id, Claim) && !OfFallback(states[i].calls[id].pc) && !Has(states[j].calls, id, Claim)
    ensures exists k :: i <= k < j && RunsAt(states[k], id)
  {
    hide Enabled, Next, Holds;
    forall k | i <= k < j ensures !Declines(states[k], events[k], id) {
      PumpStaysPump(cfg, states, events, i, k, id);
    }
    ClaimRuns(cfg, states, events, i, j, id);
  }

  lemma {:induction false} PumpStaysPump(cfg: Config, states: seq<State>, events: seq<Event>, i: nat, k: nat, id: CallId)
    requires IsRun(cfg, states, events) && i <= k <= |events| && id in states[i].calls && !OfFallback(states[i].calls[id].pc)
    ensures id in states[k].calls && !OfFallback(states[k].calls[id].pc)
  {
    hide Enabled, Next, OfFallback;
    if i < k {
      PumpStaysPump(cfg, states, events, i, k - 1, id);
      KindStays(cfg, states[k - 1], events[k - 1], id);
    }
  }

  lemma KindStays(cfg: Config, s: State, e: Event, id: CallId)
    requires Enabled(cfg, s, e) && id in s.calls && !OfFallback(s.calls[id].pc)
    ensures id in Next(cfg, s, e).calls && !OfFallback(Next(cfg, s, e).calls[id].pc)
  {
    hide AdmitLimit, RunLimit, Effect, Decide;
    if e.Move? {
      DecideKeepsKind(cfg, s.shared, s.calls[e.id], e.oracle);
    }
  }

  lemma DecideKeepsKind(cfg: Config, sh: Shared, c: Call, o: Oracle)
    ensures !OfFallback(c.pc) ==> !OfFallback(Decide(cfg, sh, c, o).next)
  {
  }

  // ----- A claim that is never a pull -----

  ghost predicate StepsTo(cfg: Config, s: State, e: Event, t: State) {
    Enabled(cfg, s, e) && t == Next(cfg, s, e)
  }

  lemma Extend(cfg: Config, states: seq<State>, events: seq<Event>, e: Event, t: State)
    requires IsRun(cfg, states, events) && StepsTo(cfg, states[|events|], e, t)
    ensures IsRun(cfg, states + [t], events + [e])
  {
    hide Enabled, Next;
  }

  /** Two calls, the first of them a fallback, and nothing shared but the claims. */
  ghost function Pair(f: Call, p: Call, inflight: map<Digest, Time>): State {
    State(Shared(true, 0, 0, 0, inflight, {}), map[0 := f, 1 := p], false)
  }

  lemma FallbackMoves(cfg: Config, f: Call, p: Call, inflight: map<Digest, Time>, o: Oracle, f': Call, inflight': map<Digest, Time>)
    requires var sh := Pair(f, p, inflight).shared;
             var a := Decide(cfg, sh, f, o);
             f.pc != Queued && f.pc != Ended && f' == After(f, a) && Effect(sh, f.digest, a) == sh.(inflight := inflight')
    ensures StepsTo(cfg, Pair(f, p, inflight), Move(0, o), Pair(f', p, inflight'))
  {
    hide Decide, Effect, After;
    assert Pair(f, p, inflight).calls[0 := f'] == Pair(f', p, inflight').calls;
  }

  lemma PumpMoves(cfg: Config, f: Call, p: Call, inflight: map<Digest, Time>, o: Oracle, p': Call)
    requires var sh := Pair(f, p, inflight).shared;
             var a := Decide(cfg, sh, p, o);
             p.pc != Queued && p.pc != Ended && p' == After(p, a) && a.op == Keep
    ensures StepsTo(cfg, Pair(f, p, inflight), Move(1, o), Pair(f, p', inflight))
  {
    hide Decide, After;
    assert Pair(f, p, inflight).calls[1 := p'] == Pair(f, p', inflight).calls;
  }

  /** A fallback and a please-pull for the same digest arrive, and the fallback claims it. */
  lemma FallbackClaimsFirst(cfg: Config, d: Digest, o: Oracle, f: Call) returns (states: seq<State>, events: seq<Event>)
    requires !o.refused && f == Call(d, Token, o.now, None, multiset{Claim}, multiset{})
    ensures IsRun(cfg, states, events) && Initial(states[0]) && |events| == 3
    ensures states[3] == Pair(f, New(d, Lookup), map[d := o.now]) && NothingPulls(states)
  {
    hide Effect, Decide;
    var s0 := State(Shared(true, 0, 0, 0, map[], {}), map[], false);
    var s1 := s0.(calls := map[0 := New(d, Offer)]);
    var s2 := Pair(New(d, Offer), New(d, Lookup), map[]);
    var s3 := Pair(f, New(d, Lookup), map[d := o.now]);
    assert s1.calls[1 := New(d, Lookup)] == s2.calls;
    assert s0.calls[0 := New(d, Offer)] == s1.calls;
    OfferClaims(cfg, d, o, f, s2.shared);
    FallbackMoves(cfg, New(d, Offer), New(d, Lookup), map[], o, f, map[d := o.now]);
    Extend(cfg, [s0], [], Fallback(0, d), s1);
    Extend(cfg, [s0] + [s1], [] + [Fallback(0, d)], Pump(1, d), s2);
    Extend(cfg, [s0] + [s1] + [s2], [] + [Fallback(0, d)] + [Pump(1, d)], Move(0, o), s3);
    states, events := [s0] + [s1] + [s2] + [s3], [] + [Fallback(0, d)] + [Pump(1, d)] + [Move(0, o)];
  }

  lemma OfferClaims(cfg: Config, d: Digest, o: Oracle, f: Call, sh: Shared)
    requires !o.refused && d !in sh.inflight && f == Call(d, Token, o.now, None, multiset{Claim}, multiset{})
    ensures var a := Decide(cfg, sh, New(d, Offer), o);
            After(New(d, Offer), a) == f && Effect(sh, d, a) == sh.(inflight := sh.inflight[d := o.now])
  {
  }
  /** With no cooldown, nothing stored and its caller waiting, a please-pull reaches its peek, and believes a claim. */
  lemma PumpBelieves(cfg: Config, d: Digest, sh: Shared, o: Oracle, at: Pc)
    requires !o.refused && !o.present && !o.gone && d in sh.inflight && (at == Lookup || at == Probe || at == Alive || at == Peek)
    ensures var p := New(d, at);
            var a := Decide(cfg, sh, p, o);
            a.op == Keep &&
            After(p, a) == if at == Peek then New(d, Ended).(answer := Some(AlreadyPulling(sh.inflight[d])))
                           else New(d, if at == Lookup then Probe else if at == Probe then Alive else Peek)
  {
  }

  lemma NoToken(cfg: Config, d: Digest, sh: Shared, o: Oracle, f: Call)
    requires o.refused && d in sh.inflight && f == Call(d, Token, f.startedAt, None, multiset{Claim}, multiset{})
    ensures var a := Decide(cfg, sh, f, o);
            && After(f, a) == f.(pc := Ended, answer := Some(Forwarded(false)), given := multiset{Claim})
            && Effect(sh, d, a) == sh.(inflight := sh.inflight - {d})
  {
  }

  ghost predicate NothingPulls(states: seq<State>) {
    forall i, id | 0 <= i < |states| && id in states[i].calls :: !Pulls(states[i].calls[id])
  }

  /**
   * Not every in-flight entry is a pull: for every digest there is a run from the start in which a fallback claims it, a
   * please-pull is told it is already pulling, and the fallback drops its claim for want of a token. Nothing is ever
   * queued, run or fetched, and nothing is in flight at the end.
   */
  lemma PiggybackOnFallback(cfg: Config, d: Digest, now: Time) returns (states: seq<State>, events: seq<Event>)
    ensures IsRun(cfg, states, events) && Initial(states[0]) && NothingPulls(states)
    ensures var last := states[|events|];
            && last.shared.inflight == map[] && last.calls.Keys == {0, 1} && last.calls[0].pc == Ended
            && last.calls[1] == New(d, Ended).(answer := Some(AlreadyPulling(now)))
  {
    hide Effect, Decide, After, StepsTo;
    var o, claimed := Oracle(false, false, false, now), map[d := now];
    var f := Call(d, Token, now, None, multiset{Claim}, multiset{});
    states, events := FallbackClaimsFirst(cfg, d, o, f);
    states, events := PumpIsTold(cfg, d, o, f, states, events);
    var told := New(d, Ended).(answer := Some(AlreadyPulling(now)));
    var f' := f.(pc := Ended, answer := Some(Forwarded(false)), given := multiset{Claim});
    NoToken(cfg, d, Pair(f, told, claimed).shared, o.(refused := true), f);
    assert claimed - {d} == map[];
    FallbackMoves(cfg, f, told, claimed, o.(refused := true), f', map[]);
    Extend(cfg, states, events, Move(0, o.(refused := true)), Pair(f', told, map[]));
    states, events := states + [Pair(f', told, map[])], events + [Move(0, o.(refused := true))];
  }

  lemma PumpIsTold(cfg: Config, d: Digest, o: Oracle, f: Call, states: seq<State>, events: seq<Event>) returns (states': seq<State>, events': seq<Event>)
    requires !o.refused && !o.present && !o.gone && f.pc == Token && NothingPulls(states)
    requires IsRun(cfg, states, events) && Initial(states[0]) && states[|events|] == Pair(f, New(d, Lookup), map[d := o.now])
    ensures IsRun(cfg, states', events') && Initial(states'[0]) && NothingPulls(states')
    ensures states'[|events'|] == Pair(f, New(d, Ended).(answer := Some(AlreadyPulling(o.now))), map[d := o.now])
  {
    hide Decide, StepsTo, Initial, IsRun;
    states', events' := PumpScreens(cfg, d, o, f, Lookup, states, events);
    states', events' := PumpScreens(cfg, d, o, f, Probe, states', events');
    states', events' := PumpScreens(cfg, d, o, f, Alive, states', events');
    states', events' := PumpScreens(cfg, d, o, f, Peek, states', events');
  }

  lemma PumpScreens(cfg: Config, d: Digest, o: Oracle, f: Call, at: Pc, states: seq<State>, events: seq<Event>) returns (states': seq<State>, events': seq<Event>)
    requires !o.refused && !o.present && !o.gone && f.pc == Token && NothingPulls(states) && (at == Lookup || at == Probe || at == Alive || at == Peek)
    requires IsRun(cfg, states, events) && Initial(states[0]) && states[|events|] == Pair(f, New(d, at), map[d := o.now])
    ensures IsRun(cfg, states', events') && Initial(states'[0]) && NothingPulls(states')
    ensures states'[|events'|] == Pair(f, if at == Peek then New(d, Ended).(answer := Some(AlreadyPulling(o.now)))
                                          else New(d, if at == Lookup then Probe else if at == Probe then Alive else Peek), map[d := o.now])
  {
    hide Decide, StepsTo, After, Initial;
    var claimed := map[d := o.now];
    var p := if at == Peek then New(d, Ended).(answer := Some(AlreadyPulling(o.now)))
             else New(d, if at == Lookup then Probe else if at == Probe then Alive else Peek);
    PumpBelieves(cfg, d, Pair(f, New(d, at), claimed).shared, o, at);
    PumpMoves(cfg, f, New(d, at), claimed, o, p);
    Extend(cfg, states, events, Move(1, o), Pair(f, p, claimed));
    states', events' := states + [Pair(f, p, claimed)], events + [Move(1, o)];
  }

  lemma Includes<T>(a: set<T>, b: set<T>)
    requires a <= b
    ensures |a| <= |b|
  {
    assert b == a + (b - a);
  }

  // ----- The objects behind the steps -----

  class PumpGate {
    var accepting: bool
    var wg: int

    constructor ()
      ensures accepting && wg == 0
    {
      accepting, wg := true, 0;
    }

    method TryAdd() returns (ok: bool)
      modifies this`wg
      ensures ok == accepting && wg == old(wg) + Bit(ok)
    {
      if !accepting {
        return false;
      }
      wg := wg + 1;
      return true;
    }

    /** A wait group panics below zero; every call of the pump holds the gate when it comes here. */
    method Done()
      requires wg > 0
      modifies this`wg
      ensures wg == old(wg) - 1
    {
      wg := wg - 1;
    }

    method Close()
      modifies this`accepting
      ensures !accepting
    {
      accepting := false;
    }
  }

  class InflightMap {
    var byKey: map<Digest, Time>

    constructor ()
      ensures byKey == map[]
    {
      byKey := map[];
    }

    method LookupForIntent(d: Digest) returns (existing: Option<Time>)
      ensures existing == if d in byKey then Some(byKey[d]) else None
    {
      existing := if d in byKey then Some(byKey[d]) else None;
    }

    /** Claims the digest unless it is claimed already; either way returns the entry's start time. */
    method Start(d: Digest, now: Time) returns (startedAt: Time, already: bool)
      modifies this
      ensures already == (d in old(byKey)) && startedAt == (if already then old(byKey)[d] else now)
      ensures byKey == if already then old(byKey) else old(byKey)[d := now]
    {
      if d in byKey {
        return byKey[d], true;
      }
      byKey := byKey[d := now];
      return now, false;
    }

    method Done(d: Digest)
      modifies this
      ensures byKey == old(byKey) - {d}
    {
      byKey := byKey - {d};
    }
  }

  /** The pump: each method is the code between two points at which another goroutine may run. */
  class Pump {
    const cfg: Config
    const gate: PumpGate
    const infl: InflightMap
    var admitted: int
    var running: int
    var keys: set<Digest>

    constructor (maxConcurrentPulls: int, advertises: bool, gate: PumpGate, infl: InflightMap)
      ensures cfg == Config(maxConcurrentPulls, advertises) && this.gate == gate && this.infl == infl
      ensures View() == Shared(gate.accepting, gate.wg, 0, 0, infl.byKey, {})
    {
      cfg := Config(maxConcurrentPulls, advertises);
      this.gate, this.infl := gate, infl;
      admitted, running, keys := 0, 0, {};
    }

    ghost function View(): Shared
      reads this, gate, infl
    {
      Shared(gate.accepting, gate.wg, admitted, running, infl.byKey, keys)
    }

    /** The handler up to the reservation of a gate slot. */
    method Screen(c: Call, o: Oracle) returns (a: Act)
      requires c.pc in {Lookup, Probe, Alive, Peek}
      ensures a == Decide(cfg, View(), c, o) && a.op == Keep
    {
      match c.pc
      case Lookup =>
        if o.refused {
          return Do(c, Keep, Ended).Says(RecentlyFailed);
        }
        return Do(c, Keep, Probe);
      case Probe =>
        if !o.present {
          return Do(c, Keep, Alive);
        }
        if cfg.advertises {
          return Do(c, Keep, Mark);
        }
        return Do(c, Keep, Ended).Says(AlreadyPulling(o.now));
      case Alive =>
        if o.gone {
          return Do(c, Keep, Ended).Says(Declined(RequestGone));
        }
        return Do(c, Keep, Peek);
      case Peek =>
        var existing := infl.LookupForIntent(c.digest);
        if existing.Some? {
          return Do(c, Keep, Ended).Says(AlreadyPulling(existing.value));
        }
        return Do(c, Keep, Reserve);
    }

    /** Re-advertising a digest already present: one at a time per digest, and only while the gate is open. */
    method Advertise(c: Call, o: Oracle) returns (a: Act)
      requires c.pc in {Mark, Marked, Unmark, Advertising, Advertised} && (Holds(c.pc, Gate) ==> gate.wg > 0)
      modifies this`keys, gate
      ensures a == Decide(cfg, old(View()), c, o) && View() == Effect(old(View()), c.digest, a)
    {
      match c.pc
      case Mark =>
        if c.digest in keys {
          return Do(c, Keep, Ended).Says(AlreadyPulling(o.now));
        }
        keys := keys + {c.digest};
        return Do(c, Take(Key), Marked);
      case Marked =>
        var ok := gate.TryAdd();
        if !ok {
          return Do(c, Keep, Unmark);
        }
        return Do(c, Take(Gate), Advertising).Says(AlreadyPulling(o.now));
      case Unmark =>
        keys := keys - {c.digest};
        return Do(c, Give(Key), Ended).Says(AlreadyPulling(o.now));
      case Advertising =>
        keys := keys - {c.digest};
        return Do(c, Give(Key), Advertised);
      case Advertised =>
        gate.Done();
        return Do(c, Give(Gate), Ended);
    }

    /** Reserving a gate and an admission slot and claiming the digest, and undoing the reservation. */
    method Admission(c: Call, o: Oracle) returns (a: Act)
      requires c.pc in {Reserve, Enter, Overfull, Contend, Lost, Leave, Launch} && (Holds(c.pc, Gate) ==> gate.wg > 0)
      modifies this`admitted, gate, infl
      ensures a == Decide(cfg, old(View()), c, o) && View() == Effect(old(View()), c.digest, a)
    {
      match c.pc
      case Reserve =>
        var ok := gate.TryAdd();
        if !ok {
          return Do(c, Keep, Ended).Says(Declined(GateClosed));
        }
        return Do(c, Take(Gate), Enter);
      case Enter =>
        if admitted < AdmitLimit(cfg) {
          admitted := admitted + 1;
          return Do(c, Take(Admit), Contend);
        }
        return Do(c, Keep, Overfull);
      case Overfull =>
        gate.Done();
        return Do(c, Give(Gate), Ended).Says(Declined(AdmissionFull));
      case Contend =>
        var startedAt, already := infl.Start(c.digest, o.now);
        if already {
          return Do(c, Keep, Lost).At(startedAt);
        }
        return Do(c, Take(Claim), Launch).At(startedAt);
      case Lost =>
        admitted := admitted - 1;
        return Do(c, Give(Admit), Leave);
      case Leave =>
        gate.Done();
        return Do(c, Give(Gate), Ended).Says(AlreadyPulling(c.startedAt));
      case Launch =>
        return Do(c, Keep, Queued).Says(Started(c.startedAt));
    }

    /** The detached pull: wait for a run slot, fetch, and release everything in reverse order. */
    method Pull(c: Call, o: Oracle) returns (a: Act)
      requires c.pc in {Queued, Running, Pulled, Unrun, Unadmitted} && Ready(cfg, View(), c.pc) && gate.wg > 0
      modifies this`admitted, this`running, gate, infl
      ensures a == Decide(cfg, old(View()), c, o) && View() == Effect(old(View()), c.digest, a)
    {
      match c.pc
      case Queued =>
        running := running + 1;
        return Do(c, Take(Run), Running);
      case Running =>
        infl.Done(c.digest);
        return Do(c, Give(Claim), Pulled);
      case Pulled =>
        running := running - 1;
        return Do(c, Give(Run), Unrun);
      case Unrun =>
        admitted := admitted - 1;
        return Do(c, Give(Admit), Unadmitted);
      case Unadmitted =>
        gate.Done();
        return Do(c, Give(Gate), Ended);
    }
  }
}

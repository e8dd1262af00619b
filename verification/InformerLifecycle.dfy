/**
 * The life of gateway informer generations on a node: a long start that releases the lock between its sections races
 * with changes of the requirement, with retiring the active generation and with shutdown. Each lock section, and each
 * call made outside the lock, is one step; a run is any interleaving of steps.
 */
module InformerLifecycle {
  import opened Prelude

  /** What remains to be done for a generation, by the goroutine that owns it; `Active` ones belong to the lifecycle. */
  datatype Phase =
    | Adding | Wired | Watching | Synced
    | AddFailed | AddCancelled
    | SyncFailed | SyncCancelled | SyncCleaned
    | Active
    | Aborted | AbortCancelled
    | Retired | RetiredCleaned
    | Gone

  /** `added` and `removed` count event handlers registered with the generation's informers and removed from them. */
  datatype Gen = Gen(phase: Phase, watching: bool, added: nat, removed: nat)

  const HANDLERS := 3

  /** The lifecycle's fields; a context is cancelled when its generation is in `cancelled`. */
  datatype Shared = Shared(required: bool, starting: bool, retiring: bool, generation: nat, active: Option<nat>,
                           startCancel: Option<nat>, failed: bool, cancelled: set<nat>)

  datatype State = State(shared: Shared, gens: map<nat, Gen>)

  // ----- Lock sections -----

  function Cancelling(sh: Shared, g: Option<nat>): set<nat> {
    if g.Some? then sh.cancelled + {g.value} else sh.cancelled
  }

  function SetRequired(sh: Shared, required: bool): Shared {
    sh.(required := required, retiring := !required && sh.active.Some?,
        cancelled := if required then sh.cancelled else Cancelling(sh, sh.startCancel))
  }

  predicate MayStart(sh: Shared) {
    sh.active.None? && sh.required && !sh.starting
  }

  function Begun(sh: Shared): Shared {
    if MayStart(sh)
    then sh.(startCancel := Some(sh.generation + 1), starting := true, failed := false, generation := sh.generation + 1)
    else sh
  }

  predicate MayCommit(sh: Shared, g: nat) {
    sh.required && g !in sh.cancelled
  }

  function Committed(sh: Shared, g: nat): Shared {
    if MayCommit(sh, g)
    then sh.(starting := false, startCancel := None, failed := false, active := Some(g), retiring := !sh.required)
    else sh.(starting := false, startCancel := None)
  }

  function FailureRecorded(sh: Shared): Shared {
    sh.(starting := false, startCancel := None, failed := true)
  }

  predicate MayRetire(sh: Shared, g: nat) {
    sh.active == Some(g) && !sh.required
  }

  function RetiredBy(sh: Shared, g: nat): Shared {
    if MayRetire(sh, g) then sh.(active := None, retiring := false) else sh
  }

  function Closed(sh: Shared): Shared {
    sh.(active := None, required := false, retiring := false, cancelled := Cancelling(sh, sh.startCancel))
  }

  // ----- Steps -----

  datatype Event =
    | Require(required: bool)
    | Begin
    | Own(g: nat, ok: bool)
    | Retire(g: nat)
    | Close
    | ParentEnds(g: nat)

  /** Running the clean-up functions removes every handler that was added. */
  function CleanedUp(gen: Gen, next: Phase): Gen {
    gen.(phase := next, removed := gen.removed + gen.added)
  }

  /** The owner's next step; `ok` is whether a handler registers and whether the caches sync. */
  function Owned(sh: Shared, g: nat, gen: Gen, ok: bool): (Shared, Gen) {
    match gen.phase
    case Adding =>
      if !ok then (sh, CleanedUp(gen, AddFailed))
      else (sh, gen.(added := gen.added + 1, phase := if gen.added + 1 < HANDLERS then Adding else Wired))
    case Wired => (sh, gen.(phase := Watching, watching := true))
    case Watching => (sh, gen.(phase := if ok then Synced else SyncFailed))
    case Synced => (Committed(sh, g), gen.(phase := if MayCommit(sh, g) then Active else Aborted))
    case AddFailed => (sh.(cancelled := sh.cancelled + {g}), gen.(phase := AddCancelled))
    case AddCancelled => (FailureRecorded(sh), gen.(phase := Gone))
    case SyncFailed => (sh.(cancelled := sh.cancelled + {g}), gen.(phase := SyncCancelled))
    case SyncCancelled => (sh, CleanedUp(gen, SyncCleaned))
    case SyncCleaned => (FailureRecorded(sh), gen.(phase := Gone))
    case Aborted => (sh.(cancelled := sh.cancelled + {g}), gen.(phase := AbortCancelled))
    case AbortCancelled => (sh, CleanedUp(gen, Gone))
    case Retired => (sh, CleanedUp(gen, RetiredCleaned))
    case RetiredCleaned => (sh.(cancelled := sh.cancelled + {g}), gen.(phase := Gone))
    case Active => (sh, gen)
    case Gone => (sh, gen)
  }

  ghost predicate Enabled(s: State, e: Event) {
    match e
    case Own(g, _) => g in s.gens && s.gens[g].phase != Active && s.gens[g].phase != Gone
    case ParentEnds(g) => g in s.gens
    case _ => true
  }

  function Retiring(gens: map<nat, Gen>, g: nat): map<nat, Gen> {
    if g in gens then gens[g := gens[g].(phase := Retired)] else gens
  }

  ghost function Next(s: State, e: Event): State
    requires Enabled(s, e)
  {
    match e
    case Require(required) => s.(shared := SetRequired(s.shared, required))
    case Begin =>
      if MayStart(s.shared) then State(Begun(s.shared), s.gens[s.shared.generation + 1 := Gen(Adding, false, 0, 0)]) else s
    case Own(g, ok) =>
      var r := Owned(s.shared, g, s.gens[g], ok);
      State(r.0, s.gens[g := r.1])
    case Retire(g) => if MayRetire(s.shared, g) then State(RetiredBy(s.shared, g), Retiring(s.gens, g)) else s
    case Close => State(Closed(s.shared), if s.shared.active.Some? then Retiring(s.gens, s.shared.active.value) else s.gens)
    case ParentEnds(g) => s.(shared := s.shared.(cancelled := s.shared.cancelled + {g}))
  }

  // ----- Invariant -----

  /** The start of the generation has not yet returned to the lock for the last time. */
  predicate IsStarting(p: Phase) {
    p.Adding? || p.Wired? || p.Watching? || p.Synced? || p.AddFailed? || p.AddCancelled? || p.SyncFailed? || p.SyncCancelled? || p.SyncCleaned?
  }

  /** A retire or close has taken the generation and has not yet cancelled it. */
  predicate IsTearing(p: Phase) {
    p.Retired? || p.RetiredCleaned?
  }

  /** What each phase says of the generation's handlers, informers and context. */
  ghost predicate Fits(cancelled: bool, gen: Gen) {
    && gen.removed == (if gen.phase.AddFailed? || gen.phase.AddCancelled? || gen.phase.SyncCleaned? || gen.phase.RetiredCleaned? || gen.phase.Gone?
                       then gen.added else 0)
    && gen.watching == !(gen.phase.Adding? || gen.phase.Wired? || gen.phase.AddFailed? || gen.phase.AddCancelled? || (gen.phase.Gone? && gen.added < HANDLERS))
    && (gen.phase.AddCancelled? || gen.phase.SyncCancelled? || gen.phase.SyncCleaned? || gen.phase.Aborted? || gen.phase.AbortCancelled? || gen.phase.Gone?
        ==> cancelled)
    && (if gen.phase.Adding? || gen.phase.AddFailed? || gen.phase.AddCancelled? then gen.added < HANDLERS
        else if gen.phase.Gone? then gen.added <= HANDLERS else gen.added == HANDLERS)
  }

  ghost predicate Coherent(s: State, g: nat)
    requires g in s.gens
  {
    && 1 <= g <= s.shared.generation
    && Fits(g in s.shared.cancelled, s.gens[g])
    && (s.gens[g].phase.Active? <==> s.shared.active == Some(g))
    && (IsStarting(s.gens[g].phase) <==> s.shared.startCancel == Some(g))
  }

  ghost predicate Inv(s: State) {
    var sh := s.shared;
    && (forall g | g in s.gens :: Coherent(s, g))
    && (sh.active.Some? ==> sh.active.value in s.gens)
    && (sh.startCancel.Some? ==> sh.startCancel.value in s.gens)
    && sh.starting == sh.startCancel.Some?
    && (sh.starting ==> sh.active.None?)
    && sh.retiring == (sh.active.Some? && !sh.required)
    && (sh.starting && !sh.required ==> sh.startCancel.value in sh.cancelled)
    && (forall g | g in sh.cancelled :: g in s.gens)
  }

  lemma OwnedFits(sh: Shared, g: nat, gen: Gen, ok: bool)
    requires Fits(g in sh.cancelled, gen) && gen.phase != Active && gen.phase != Gone
    requires gen.phase == Synced && !sh.required ==> g in sh.cancelled
    ensures var r := Owned(sh, g, gen, ok); Fits(g in r.0.cancelled, r.1)
  {
    hide Fits, Owned;
    if Rising(gen.phase) {
      RisingFits(sh, g, gen, ok);
    } else if IsStarting(gen.phase) {
      FailingFits(sh, g, gen, ok);
    } else {
      TeardownFits(sh, g, gen, ok);
    }
  }

  predicate Rising(p: Phase) {
    p.Adding? || p.Wired? || p.Watching? || p.Synced?
  }

  lemma RisingFits(sh: Shared, g: nat, gen: Gen, ok: bool)
    requires Fits(g in sh.cancelled, gen) && Rising(gen.phase)
    requires gen.phase == Synced && !sh.required ==> g in sh.cancelled
    ensures var r := Owned(sh, g, gen, ok); Fits(g in r.0.cancelled, r.1)
  {
  }

  lemma FailingFits(sh: Shared, g: nat, gen: Gen, ok: bool)
    requires Fits(g in sh.cancelled, gen) && IsStarting(gen.phase) && !Rising(gen.phase)
    ensures var r := Owned(sh, g, gen, ok); Fits(g in r.0.cancelled, r.1)
  {
  }

  lemma TeardownFits(sh: Shared, g: nat, gen: Gen, ok: bool)
    requires Fits(g in sh.cancelled, gen) && !IsStarting(gen.phase)
    ensures var r := Owned(sh, g, gen, ok); Fits(g in r.0.cancelled, r.1)
  {
  }

  lemma OthersCohere(s: State, t: State, g: nat)
    requires g in s.gens && g in t.gens && t.gens[g] == s.gens[g] && Coherent(s, g)
    requires s.shared.cancelled <= t.shared.cancelled && s.shared.generation <= t.shared.generation
    requires (t.shared.active == Some(g)) == (s.shared.active == Some(g))
    requires (t.shared.startCancel == Some(g)) == (s.shared.startCancel == Some(g))
    ensures Coherent(t, g)
  {
  }

  lemma RequireKeeps(s: State, required: bool)
    requires Inv(s)
    ensures Inv(Next(s, Require(required)))
  {
  }

  lemma BeginKeeps(s: State)
    requires Inv(s)
    ensures Inv(Next(s, Begin))
  {
  }

  lemma InRange(s: State, g: nat)
    requires g in s.gens && Coherent(s, g)
    ensures g <= s.shared.generation
    ensures s.shared.active == Some(g) ==> s.gens[g].phase == Active
    ensures s.shared.startCancel == Some(g) <==> IsStarting(s.gens[g].phase)
    ensures Fits(g in s.shared.cancelled, s.gens[g])
  {
  }

  /** What an owner's step does to the fields, by what it leaves of the start. */
  lemma OwnedShared(sh: Shared, g: nat, gen: Gen, ok: bool)
    requires gen.phase != Active && gen.phase != Gone && (IsStarting(gen.phase) ==> sh.startCancel == Some(g))
    ensures var r := Owned(sh, g, gen, ok);
            && r.0.required == sh.required && r.0.generation == sh.generation
            && sh.cancelled <= r.0.cancelled <= sh.cancelled + {g}
            && (if IsStarting(gen.phase) && !IsStarting(r.1.phase) then !r.0.starting && r.0.startCancel == None
                else r.0.starting == sh.starting && r.0.startCancel == sh.startCancel)
            && (if r.1.phase == Active then r.0.active == Some(g) && r.0.retiring == !sh.required && sh.required && IsStarting(gen.phase)
                else r.0.active == sh.active && r.0.retiring == sh.retiring)
            && (IsStarting(r.1.phase) ==> IsStarting(gen.phase))
  {
  }

  lemma OwnKeeps(s: State, g: nat, ok: bool)
    requires Inv(s) && Enabled(s, Own(g, ok))
    ensures Inv(Next(s, Own(g, ok)))
  {
    hide Coherent, Owned, IsStarting, Fits;
    var t := Next(s, Own(g, ok));
    InRange(s, g);
    OwnedShared(s.shared, g, s.gens[g], ok);
    SyncedIsStarting();
    OwnedFits(s.shared, g, s.gens[g], ok);
    forall i | i in t.gens ensures Coherent(t, i) {
      if i == g {
        OwnedCoheres(s, t, g);
      } else {
        InRange(s, i);
        OthersCohere(s, t, i);
      }
    }
  }

  lemma SyncedIsStarting()
    ensures IsStarting(Synced) && !IsStarting(Active)
  {
  }

  lemma OwnedCoheres(s: State, t: State, g: nat)
    requires g in s.gens && Coherent(s, g) && s.gens[g].phase != Active
    requires g in t.gens && t.shared.generation == s.shared.generation && Fits(g in t.shared.cancelled, t.gens[g])
    requires if IsStarting(s.gens[g].phase) && !IsStarting(t.gens[g].phase) then t.shared.startCancel == None
             else t.shared.startCancel == s.shared.startCancel
    requires if t.gens[g].phase == Active then t.shared.active == Some(g) else t.shared.active == s.shared.active
    requires IsStarting(t.gens[g].phase) ==> IsStarting(s.gens[g].phase)
    ensures Coherent(t, g)
  {
  }

  /** Taking the active generation away to be torn down. */
  lemma TakingKeeps(s: State, t: State)
    requires Inv(s) && t.shared.active == None && !t.shared.retiring && t.shared.startCancel == s.shared.startCancel
    requires t.shared.generation == s.shared.generation && t.shared.starting == s.shared.starting
    requires s.shared.cancelled <= t.shared.cancelled <= Cancelling(s.shared, s.shared.startCancel)
    requires t.gens == if s.shared.active.Some? then Retiring(s.gens, s.shared.active.value) else s.gens
    requires t.shared.starting && !t.shared.required ==> t.shared.startCancel.value in t.shared.cancelled
    ensures Inv(t)
  {
  }

  lemma NextKeeps(s: State, e: Event)
    requires Inv(s) && Enabled(s, e)
    ensures Inv(Next(s, e))
  {
    hide Coherent, Owned;
    match e
    case Require(required) => RequireKeeps(s, required);
    case Begin => BeginKeeps(s);
    case Own(g, ok) => OwnKeeps(s, g, ok);
    case Retire(g) =>
      if MayRetire(s.shared, g) {
        TakingKeeps(s, Next(s, e));
      }
    case Close => TakingKeeps(s, Next(s, e));
    case ParentEnds(g) =>
      forall i | i in s.gens ensures Coherent(Next(s, e), i) {
        OthersCohere(s, Next(s, e), i);
      }
  }

  // ----- Runs -----

  ghost predicate Initial(s: State) {
    s == State(Shared(false, false, false, 0, None, None, false, {}), map[])
  }

  ghost predicate StepsTo(s: State, e: Event, t: State) {
    Enabled(s, e) && t == Next(s, e)
  }

  ghost predicate IsRun(states: seq<State>, events: seq<Event>) {
    && |states| == |events| + 1
    && forall i | 0 <= i < |events| :: StepsTo(states[i], events[i], states[i + 1])
  }

  lemma {:induction false} RunKeeps(states: seq<State>, events: seq<Event>, i: nat)
    requires IsRun(states, events) && Initial(states[0]) && i <= |events|
    ensures Inv(states[i])
  {
    if i == 0 {
    } else {
      hide Inv, Enabled, Next, Initial;
      RunKeeps(states, events, i - 1);
      assert StepsTo(states[i - 1], events[i - 1], states[i]);
      NextKeeps(states[i - 1], events[i - 1]);
    }
  }

  /** The generation's informers are running. */
  ghost predicate Live(s: State, g: nat) {
    g in s.gens && s.gens[g].watching && g !in s.shared.cancelled
  }

  ghost predicate Tearing(s: State, g: nat) {
    g in s.gens && IsTearing(s.gens[g].phase)
  }

  /** The fields tell the truth in every reachable state. */
  lemma FieldsAreTruthful(states: seq<State>, events: seq<Event>, i: nat)
    requires IsRun(states, events) && Initial(states[0]) && i <= |events|
    ensures var sh := states[i].shared;
            && sh.retiring == (sh.active.Some? && !sh.required)
            && (sh.starting ==> sh.active.None?)
            && (sh.active.Some? ==> sh.active.value in states[i].gens && states[i].gens[sh.active.value].phase == Active)
  {
    hide Initial, Next, Enabled;
    RunKeeps(states, events, i);
  }

  /**
   * No handler is ever removed twice, and a generation that is over has had its context cancelled and every handler it
   * registered removed, however it ended.
   */
  lemma AbandonedIsCleaned(states: seq<State>, events: seq<Event>, i: nat, g: nat)
    requires IsRun(states, events) && Initial(states[0]) && i <= |events| && g in states[i].gens
    ensures var gen := states[i].gens[g];
            && gen.removed <= gen.added <= HANDLERS
            && (gen.phase == Gone ==> g in states[i].shared.cancelled && gen.removed == gen.added && !Live(states[i], g))
  {
    hide Initial, Next, Enabled;
    RunKeeps(states, events, i);
    assert Coherent(states[i], g);
  }

  /** A live generation is the active one, the one starting, or one still being torn down. */
  lemma LiveIsHeld(s: State, g: nat)
    requires Inv(s) && Live(s, g)
    ensures s.shared.active == Some(g) || s.shared.startCancel == Some(g) || Tearing(s, g)
  {
  }

  /** Apart from generations still being torn down, at most one is live. */
  lemma AtMostOneCurrent(states: seq<State>, events: seq<Event>, i: nat, g: nat, h: nat)
    requires IsRun(states, events) && Initial(states[0]) && i <= |events|
    requires Live(states[i], g) && Live(states[i], h) && !Tearing(states[i], g) && !Tearing(states[i], h)
    ensures g == h
  {
    hide Initial, Next, Enabled, Coherent;
    RunKeeps(states, events, i);
    LiveIsHeld(states[i], g);
    LiveIsHeld(states[i], h);
  }

  // ----- One live generation at all -----

  ghost predicate Occupies(s: State, g: nat) {
    && g in s.gens
    && (s.gens[g].phase == Active || IsStarting(s.gens[g].phase) || (IsTearing(s.gens[g].phase) && g !in s.shared.cancelled))
  }

  ghost predicate Alone(s: State) {
    forall g, h | Occupies(s, g) && Occupies(s, h) :: g == h
  }

  /** A generation that a retire or close has taken and not yet cancelled is still live. */
  ghost predicate Lingers(s: State, g: nat) {
    Tearing(s, g) && Live(s, g)
  }

  /** A start that takes effect begins only when nothing lingers. */
  ghost predicate Orderly(s: State, e: Event) {
    e.Begin? && MayStart(s.shared) ==> forall g :: !Lingers(s, g)
  }

  lemma OccupiesStep(s: State, e: Event, g: nat)
    requires Inv(s) && Enabled(s, e) && Occupies(Next(s, e), g)
    ensures Occupies(s, g) || (e.Begin? && MayStart(s.shared) && g == s.shared.generation + 1)
  {
  }

  lemma AloneStays(s: State, e: Event)
    requires Inv(s) && Alone(s) && Enabled(s, e) && Orderly(s, e)
    ensures Alone(Next(s, e))
  {
    hide Next, Fits;
    forall g, h | Occupies(Next(s, e), g) && Occupies(Next(s, e), h) ensures g == h {
      OccupiesStep(s, e, g);
      OccupiesStep(s, e, h);
      if e.Begin? && MayStart(s.shared) {
        NothingOccupies(s, g);
        NothingOccupies(s, h);
      }
    }
  }

  lemma NothingOccupies(s: State, g: nat)
    requires Inv(s) && MayStart(s.shared) && !Lingers(s, g)
    ensures !Occupies(s, g)
  {
  }

  lemma {:induction false} RunStaysAlone(states: seq<State>, events: seq<Event>, i: nat)
    requires IsRun(states, events) && Initial(states[0]) && i <= |events|
    requires forall k | 0 <= k < |events| :: Orderly(states[k], events[k])
    ensures Alone(states[i])
  {
    if i > 0 {
      hide Inv, Enabled, Next, Initial, Orderly, Alone;
      RunStaysAlone(states, events, i - 1);
      RunKeeps(states, events, i - 1);
      assert StepsTo(states[i - 1], events[i - 1], states[i]);
      AloneStays(states[i - 1], events[i - 1]);
    }
  }

  /** If no start takes effect while a taken generation lingers, at most one generation is ever live. */
  lemma OneLiveGeneration(states: seq<State>, events: seq<Event>, i: nat, g: nat, h: nat)
    requires IsRun(states, events) && Initial(states[0]) && i <= |events|
    requires forall k | 0 <= k < |events| :: Orderly(states[k], events[k])
    requires Live(states[i], g) && Live(states[i], h)
    ensures g == h
  {
    hide Initial, Next, Enabled, Orderly;
    RunKeeps(states, events, i);
    RunStaysAlone(states, events, i);
    LiveIsHeld(states[i], g);
    LiveIsHeld(states[i], h);
    assert Coherent(states[i], g) && Coherent(states[i], h);
    assert Occupies(states[i], g) && Occupies(states[i], h);
  }

  /** A start that takes effect while a taken generation lingers can bring up a second live one beside it. */
  lemma StartDuringTeardown(s: State, g: nat) returns (states: seq<State>, events: seq<Event>)
    requires Inv(s) && MayStart(s.shared) && Lingers(s, g)
    ensures IsRun(states, events) && states[0] == s && |events| > 0 && events[0] == Begin
    ensures exists h :: h != g && Live(states[|events|], g) && Live(states[|events|], h)
  {
    hide Coherent, StepsTo, Fits;
    var n := s.shared.generation + 1;
    assert g != n && n !in s.shared.cancelled by {
      NumberIsNew(s, g);
    }
    var s1 := State(Begun(s.shared), s.gens[n := Gen(Adding, false, 0, 0)]);
    var s2 := s1.(gens := s.gens[n := Gen(Adding, false, 1, 0)]);
    var s3 := s1.(gens := s.gens[n := Gen(Adding, false, 2, 0)]);
    var s4 := s1.(gens := s.gens[n := Gen(Wired, false, 3, 0)]);
    var s5 := s1.(gens := s.gens[n := Gen(Watching, true, 3, 0)]);
    assert StepsTo(s, Begin, s1) by {
      BeginSteps(s, s1);
    }
    OwnSteps(s1, n, s2);
    OwnSteps(s2, n, s3);
    OwnSteps(s3, n, s4);
    OwnSteps(s4, n, s5);
    states, events := [s, s1, s2, s3, s4, s5], [Begin, Own(n, true), Own(n, true), Own(n, true), Own(n, true)];
    assert |events| == 5 && states[5] == s5 && Live(s5, g) && Live(s5, n);
  }

  lemma {:induction false} Joined(s: seq<State>, es: seq<Event>, t: seq<State>, fs: seq<Event>)
    requires IsRun(s, es) && IsRun(t, fs) && t[0] == s[|es|]
    ensures IsRun(s + t[1..], es + fs) && (s + t[1..])[|es + fs|] == t[|fs|]
  {
    hide StepsTo;
    var states, events := s + t[1..], es + fs;
    forall i | 0 <= i < |events| ensures StepsTo(states[i], events[i], states[i + 1]) {
      if i < |es| {
        assert StepsTo(s[i], es[i], s[i + 1]);
      } else {
        assert StepsTo(t[i - |es|], fs[i - |es|], t[i - |es| + 1]);
      }
    }
  }

  /** That condition is the exact one: from the state of any run where it fails, the run can go on to two live generations. */
  lemma DisorderOverlaps(states: seq<State>, events: seq<Event>) returns (states': seq<State>, events': seq<Event>)
    requires IsRun(states, events) && Initial(states[0]) && !Orderly(states[|events|], Begin)
    ensures IsRun(states', events') && Initial(states'[0]) && events + [Begin] <= events'
    ensures exists g, h :: g != h && Live(states'[|events'|], g) && Live(states'[|events'|], h)
  {
    hide Initial, StepsTo, Inv, MayStart;
    RunKeeps(states, events, |events|);
    var g :| Lingers(states[|events|], g);
    var more, rest := StartDuringTeardown(states[|events|], g);
    Joined(states, events, more, rest);
    states', events' := states + more[1..], events + rest;
    var h :| h != g && Live(more[|rest|], g) && Live(more[|rest|], h);
    assert rest == [Begin] + rest[1..];
  }

  lemma OwnsFirst(sh: Shared, gen: Gen, sh': Shared, gen': Gen)
    requires gen.phase != Active && gen.phase != Gone && Owned(sh, 1, gen, true) == (sh', gen')
    ensures StepsTo(State(sh, map[1 := gen]), Own(1, true), State(sh', map[1 := gen']))
  {
    hide Owned;
    assert map[1 := gen][1 := gen'] == map[1 := gen'];
  }

  lemma FirstBegins(none: Shared, begun: Shared)
    requires none == Shared(false, false, false, 0, None, None, false, {}) && begun == Shared(true, true, false, 1, None, Some(1), false, {})
    ensures var wanted := State(none.(required := true), map[]);
            StepsTo(State(none, map[]), Require(true), wanted) && StepsTo(wanted, Begin, State(begun, map[1 := Gen(Adding, false, 0, 0)]))
  {
  }

  /** A first generation starts and becomes active. */
  lemma FirstBecomesActive(up: Shared) returns (states: seq<State>, events: seq<Event>)
    requires up == Shared(true, false, false, 1, Some(1), None, false, {})
    ensures IsRun(states, events) && Initial(states[0]) && states[|events|] == State(up, map[1 := Gen(Active, true, 3, 0)])
  {
    hide StepsTo;
    var none := Shared(false, false, false, 0, None, None, false, {});
    var wanted := none.(required := true);
    var begun := Shared(true, true, false, 1, None, Some(1), false, {});
    OwnsFirst(begun, Gen(Adding, false, 0, 0), begun, Gen(Adding, false, 1, 0));
    OwnsFirst(begun, Gen(Adding, false, 1, 0), begun, Gen(Adding, false, 2, 0));
    OwnsFirst(begun, Gen(Adding, false, 2, 0), begun, Gen(Wired, false, 3, 0));
    OwnsFirst(begun, Gen(Wired, false, 3, 0), begun, Gen(Watching, true, 3, 0));
    OwnsFirst(begun, Gen(Watching, true, 3, 0), begun, Gen(Synced, true, 3, 0));
    OwnsFirst(begun, Gen(Synced, true, 3, 0), up, Gen(Active, true, 3, 0));
    var s0, s1, s2 := State(none, map[]), State(wanted, map[]), State(begun, map[1 := Gen(Adding, false, 0, 0)]);
    FirstBegins(none, begun);
    states := [s0, s1, s2, State(begun, map[1 := Gen(Adding, false, 1, 0)]), State(begun, map[1 := Gen(Adding, false, 2, 0)]),
               State(begun, map[1 := Gen(Wired, false, 3, 0)]), State(begun, map[1 := Gen(Watching, true, 3, 0)]),
               State(begun, map[1 := Gen(Synced, true, 3, 0)]), State(up, map[1 := Gen(Active, true, 3, 0)])];
    events := [Require(true), Begin, Own(1, true), Own(1, true), Own(1, true), Own(1, true), Own(1, true), Own(1, true)];
  }

  /** It is no longer wanted, a retire takes it, and it is wanted again before the retire has cancelled it. */
  lemma FirstLingers(up: Shared, down: Shared) returns (states: seq<State>, events: seq<Event>)
    requires up == Shared(true, false, false, 1, Some(1), None, false, {}) && down == Shared(true, false, false, 1, None, None, false, {})
    ensures IsRun(states, events) && states[0] == State(up, map[1 := Gen(Active, true, 3, 0)])
    ensures states[|events|] == State(down, map[1 := Gen(Retired, true, 3, 0)])
  {
    var s0 := State(up, map[1 := Gen(Active, true, 3, 0)]);
    var s1 := s0.(shared := up.(required := false, retiring := true));
    var s2 := State(down.(required := false), map[1 := Gen(Retired, true, 3, 0)]);
    var s3 := s2.(shared := down);
    assert StepsTo(s0, Require(false), s1);
    assert Retiring(s1.gens, 1) == s2.gens;
    assert StepsTo(s1, Retire(1), s2);
    assert StepsTo(s2, Require(true), s3);
    states, events := [s0, s1, s2, s3], [Require(false), Retire(1), Require(true)];
  }

  /** Two generations can be live at once: a whole run in which a start overtakes a retire. */
  lemma TwoLiveGenerations() returns (states: seq<State>, events: seq<Event>)
    ensures IsRun(states, events) && Initial(states[0])
    ensures exists g, h :: g != h && Live(states[|events|], g) && Live(states[|events|], h)
  {
    hide StepsTo;
    var up, down := Shared(true, false, false, 1, Some(1), None, false, {}), Shared(true, false, false, 1, None, None, false, {});
    states, events := FirstBecomesActive(up);
    var more, rest := FirstLingers(up, down);
    Joined(states, events, more, rest);
    states, events := states + more[1..], events + rest;
    assert Lingers(states[|events|], 1);
    states, events := DisorderOverlaps(states, events);
  }

  lemma NumberIsNew(s: State, g: nat)
    requires Inv(s) && g in s.gens
    ensures g <= s.shared.generation && s.shared.generation + 1 !in s.shared.cancelled && s.shared.generation + 1 !in s.gens
  {
  }

  lemma BeginSteps(s: State, t: State)
    requires MayStart(s.shared) && t == State(Begun(s.shared), s.gens[s.shared.generation + 1 := Gen(Adding, false, 0, 0)])
    ensures StepsTo(s, Begin, t)
  {
  }

  lemma OwnSteps(s: State, n: nat, t: State)
    requires n in s.gens && t.shared == s.shared && n in t.gens && t.gens == s.gens[n := t.gens[n]]
    requires (s.gens[n].phase == Adding || s.gens[n].phase == Wired) && Owned(s.shared, n, s.gens[n], true) == (s.shared, t.gens[n])
    ensures StepsTo(s, Own(n, true), t)
  {
  }

  /** How many steps the owner of a generation has before it hands the generation over or is done with it. */
  function Rank(gen: Gen): nat {
    match gen.phase
    case Adding => if gen.added < HANDLERS then 9 + HANDLERS - gen.added else 9
    case Wired => 8
    case Watching => 7
    case Synced => 3
    case AddFailed => 2
    case AddCancelled => 1
    case SyncFailed => 3
    case SyncCancelled => 2
    case SyncCleaned => 1
    case Aborted => 2
    case AbortCancelled => 1
    case Retired => 2
    case RetiredCleaned => 1
    case Active => 0
    case Gone => 0
  }

  /** Every owner's step can be taken and is one of finitely many, so a generation ends active or gone. */
  lemma OwnerFinishes(s: State, g: nat, ok: bool)
    requires g in s.gens
    ensures Enabled(s, Own(g, ok)) <==> Rank(s.gens[g]) > 0
    ensures Enabled(s, Own(g, ok)) ==> Rank(Next(s, Own(g, ok)).gens[g]) < Rank(s.gens[g])
  {
  }

  /** Nothing but the owner moves a generation, except that a retire or close takes the active one. */
  lemma OnlyOwnersMove(s: State, e: Event, g: nat)
    requires Inv(s) && Enabled(s, e) && g in s.gens && e != Own(g, true) && e != Own(g, false)
    ensures g in Next(s, e).gens
    ensures Next(s, e).gens[g] == s.gens[g] ||
            ((e.Close? || e == Retire(g)) && s.shared.active == Some(g) && Next(s, e).gens[g] == s.gens[g].(phase := Retired))
  {
  }

  // ----- Readiness -----

  function Ready(sh: Shared, synced: bool): bool {
    if sh.retiring then false
    else if !sh.required then true
    else if sh.starting then false
    else if sh.active.None? then false
    else synced
  }

  /** Ready means exactly that what is required is active and synced, or that nothing is required or left over. */
  lemma ReadyIsExact(states: seq<State>, events: seq<Event>, i: nat, synced: bool)
    requires IsRun(states, events) && Initial(states[0]) && i <= |events|
    ensures var sh := states[i].shared;
            Ready(sh, synced) <==> if sh.required then sh.active.Some? && synced else sh.active.None?
  {
    hide Initial, Next, Enabled;
    RunKeeps(states, events, i);
  }

  // ----- The lock sections as methods -----

  class GatewayInformerLifecycle {
    var required: bool
    var starting: bool
    var retiring: bool
    var generation: nat
    var active: Option<nat>
    var startCancel: Option<nat>
    var failed: bool
    var cancelled: set<nat>

    function View(): Shared
      reads this
    {
      Shared(required, starting, retiring, generation, active, startCancel, failed, cancelled)
    }

    constructor ()
      ensures Initial(State(View(), map[]))
    {
      required, starting, retiring, generation, active, startCancel, failed, cancelled := false, false, false, 0, None, None, false, {};
    }

    method CancelStart()
      modifies this`cancelled
      ensures cancelled == Cancelling(old(View()), startCancel)
    {
      if startCancel.Some? {
        cancelled := cancelled + {startCancel.value};
      }
    }

    method ChangeRequired(required: bool)
      modifies this
      ensures View() == SetRequired(old(View()), required)
    {
      this.required := required;
      retiring := !required && active.Some?;
      if !required {
        CancelStart();
      }
    }

    method BeginStart() returns (begun: bool)
      modifies this
      ensures begun == MayStart(old(View())) && View() == Begun(old(View()))
    {
      if active.Some? || !required || starting {
        return false;
      }
      generation := generation + 1;
      startCancel, starting, failed := Some(generation), true, false;
      return true;
    }

    method CommitStart(g: nat) returns (committed: bool)
      modifies this
      ensures committed == MayCommit(old(View()), g) && View() == Committed(old(View()), g)
    {
      starting, startCancel := false, None;
      if !required || g in cancelled {
        return false;
      }
      failed, active := false, Some(g);
      retiring := !required;
      return true;
    }

    method RecordStartFailure()
      modifies this
      ensures View() == FailureRecorded(old(View()))
    {
      starting, startCancel, failed := false, None, true;
    }

    method TakeForRetire(g: nat) returns (taken: bool)
      modifies this
      ensures taken == MayRetire(old(View()), g) && View() == RetiredBy(old(View()), g)
      ensures !taken ==> unchanged(this)
    {
      if active != Some(g) || required {
        return false;
      }
      active, retiring := None, false;
      return true;
    }

    method TakeForClose() returns (taken: Option<nat>)
      modifies this
      ensures taken == old(active) && View() == Closed(old(View()))
    {
      taken := active;
      active, required, retiring := None, false, false;
      CancelStart();
    }

    method Readiness(synced: bool) returns (ready: bool)
      ensures ready == Ready(View(), synced)
    {
      if retiring {
        return false;
      }
      if !required {
        return true;
      }
      if starting || active.None? {
        return false;
      }
      return synced;
    }
  }
}

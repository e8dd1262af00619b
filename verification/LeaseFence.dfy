/**
 * The fence a controller keeps on its leader lease, and the argument it exists for: whatever delays, failures and late
 * replies its lease writes meet, no two controllers trust their lease at the same instant. Time is real-valued. Every
 * process reads a clock of its own that runs at no less than `rate` times the rate of true time.
 */
module LeaseFence {
  import opened Prelude

  type Proc = string

  // ----- The fence of one process -----

  /** The deadline after a write that began at `start`; `None` is the zero time. */
  function Observe(window: real, validUntil: Option<real>, start: real, own: bool, failed: bool): (r: Option<real>)
    ensures failed ==> r == validUntil
    ensures !failed && !own ==> r.None?
    ensures !failed && own ==> r.Some? && start + window <= r.value && (validUntil.Some? ==> validUntil.value <= r.value)
    ensures r.Some? ==> r == validUntil || (!failed && own && r.value == start + window)
  {
    if failed then validUntil
    else if !own then None
    else if validUntil.Some? && start + window <= validUntil.value then validUntil
    else Some(start + window)
  }

  class Fence {
    const window: real
    var validUntil: Option<real>

    constructor (window: real)
      ensures this.window == window && validUntil == None
    {
      this.window := window;
      validUntil := None;
    }

    method ObserveWrite(start: real, holder: string, identity: string, failed: bool)
      modifies this
      ensures validUntil == Observe(window, old(validUntil), start, holder == identity, failed)
    {
      if failed {
        // The write may have been applied, but an unconfirmed renewal does not extend the fence.
      } else if holder == identity {
        var until := start + window;
        if validUntil.None? || until > validUntil.value {
          validUntil := Some(until);
        }
      } else {
        validUntil := None;
      }
    }
  }

  // ----- Processes, the lease and the writes in flight -----

  datatype Config = Config(window: real, duration: real, rate: real)

  /** The least a clock of that rate advances in `dt`. */
  function Least(rate: real, dt: real): real {
    rate * dt
  }

  ghost predicate Sane(cfg: Config) {
    cfg.rate > 0.0 && cfg.window > 0.0 && cfg.duration >= 0.0
  }

  /** A lease write: who sent it, which holder it names, when it began (on its clock and truly), when it was applied. */
  datatype Write = Write(proc: Proc, holder: string, start: real, began: real, applied: Option<real>, open: bool)

  datatype Lease = Lease(holder: string, appliedAt: real)

  datatype State = State(now: real, clocks: map<Proc, real>, fences: map<Proc, Option<real>>, lease: Option<Lease>, writes: map<nat, Write>)

  datatype Event =
    | Tick(dt: real, clocks: map<Proc, real>)
    | Begin(id: nat, proc: Proc, holder: string)
    | Apply(id: nat)
    | Reply(id: nat, failed: bool)

  /** Another holder's record is replaced only a full lease duration after it was last written, or once released. */
  ghost predicate MayApply(cfg: Config, s: State, w: Write) {
    || s.lease.None?
    || s.lease.value.holder == w.proc
    || s.lease.value.holder == ""
    || s.lease.value.appliedAt + cfg.duration <= s.now
  }

  ghost predicate Enabled(cfg: Config, s: State, e: Event) {
    match e
    case Tick(dt, clocks) =>
      dt >= 0.0 && clocks.Keys == s.clocks.Keys && forall p | p in clocks :: clocks[p] - s.clocks[p] >= Least(cfg.rate, dt)
    case Begin(id, p, _) => id !in s.writes && p in s.clocks && p != ""
    // A write may be applied after its caller has given up on it.
    case Apply(id) => id in s.writes && s.writes[id].applied.None? && MayApply(cfg, s, s.writes[id])
    case Reply(id, failed) => id in s.writes && s.writes[id].open && (!failed ==> s.writes[id].applied.Some?)
  }

  ghost predicate WellFormed(s: State) {
    s.clocks.Keys == s.fences.Keys && forall id | id in s.writes :: s.writes[id].proc in s.clocks && s.writes[id].proc != ""
  }

  ghost function Next(cfg: Config, s: State, e: Event): State
    requires WellFormed(s) && Enabled(cfg, s, e)
  {
    match e
    case Tick(dt, clocks) => s.(now := s.now + dt, clocks := clocks)
    case Begin(id, p, holder) => s.(writes := s.writes[id := Write(p, holder, s.clocks[p], s.now, None, true)])
    case Apply(id) =>
      s.(lease := Some(Lease(s.writes[id].holder, s.now)), writes := s.writes[id := s.writes[id].(applied := Some(s.now))])
    case Reply(id, failed) =>
      var w := s.writes[id];
      var fence := Observe(cfg.window, s.fences[w.proc], w.start, w.holder == w.proc, failed);
      s.(fences := s.fences[w.proc := fence], writes := s.writes[id := w.(open := false)])
  }

  /** The process trusts its lease now. */
  ghost predicate Trusts(s: State, p: Proc) {
    p in s.clocks && p in s.fences && s.fences[p].Some? && s.clocks[p] < s.fences[p].value
  }

  // ----- Invariant -----

  /** A write began no later than it was applied, and since it began its process' clock has run at least at the rate. */
  ghost predicate Timed(cfg: Config, s: State, w: Write) {
    && w.proc in s.clocks && w.proc != "" && w.holder == w.proc
    && w.began <= s.now
    && s.clocks[w.proc] - w.start >= Least(cfg.rate, s.now - w.began)
    && (w.applied.Some? ==> w.began <= w.applied.value <= s.now)
  }

  /** After an applied write, the lease stays its writer's until a full duration has passed. */
  ghost predicate Guarded(cfg: Config, s: State, w: Write) {
    w.applied.Some? ==>
      && s.lease.Some?
      && if s.lease.value.holder == w.proc then w.applied.value <= s.lease.value.appliedAt
         else w.applied.value + cfg.duration <= s.lease.value.appliedAt
  }

  /** A fence deadline comes from an applied write of that process. */
  ghost predicate Earned(cfg: Config, s: State, p: Proc) {
    p in s.fences && s.fences[p].Some? ==> exists id :: id in s.writes && Earns(cfg, s.writes[id], p, s.fences[p].value)
  }

  ghost predicate Earns(cfg: Config, w: Write, p: Proc, deadline: real) {
    w.proc == p && w.applied.Some? && deadline == w.start + cfg.window
  }

  ghost predicate Inv(cfg: Config, s: State) {
    && s.clocks.Keys == s.fences.Keys
    && (forall id | id in s.writes :: Timed(cfg, s, s.writes[id]) && Guarded(cfg, s, s.writes[id]))
    && (forall p | p in s.fences :: Earned(cfg, s, p))
    && (s.lease.Some? ==> s.lease.value.appliedAt <= s.now && s.lease.value.holder != "")
  }

  lemma LeastAdds(rate: real, a: real, b: real)
    ensures Least(rate, a + b) == Least(rate, a) + Least(rate, b)
  {
  }

  lemma TickKeeps(cfg: Config, s: State, dt: real, clocks: map<Proc, real>)
    requires Inv(cfg, s) && WellFormed(s) && Enabled(cfg, s, Tick(dt, clocks))
    ensures Inv(cfg, Next(cfg, s, Tick(dt, clocks)))
  {
    hide Least;
    var t := Next(cfg, s, Tick(dt, clocks));
    forall id | id in t.writes ensures Timed(cfg, t, t.writes[id]) && Guarded(cfg, t, t.writes[id]) {
      var w := s.writes[id];
      assert Timed(cfg, s, w) && Guarded(cfg, s, w);
      LeastAdds(cfg.rate, s.now - w.began, dt);
    }
    forall p | p in t.fences ensures Earned(cfg, t, p) {
      assert Earned(cfg, s, p);
    }
  }

  lemma BeginKeeps(cfg: Config, s: State, id: nat, p: Proc)
    requires Inv(cfg, s) && WellFormed(s) && Enabled(cfg, s, Begin(id, p, p))
    ensures Inv(cfg, Next(cfg, s, Begin(id, p, p)))
  {
    hide Timed, Guarded, Earned;
    var t := Next(cfg, s, Begin(id, p, p));
    forall i | i in t.writes ensures Timed(cfg, t, t.writes[i]) && Guarded(cfg, t, t.writes[i]) {
      if i == id {
        NewTiming(cfg, t, p);
      } else {
        SameTiming(cfg, s, t, s.writes[i], t.writes[i]);
      }
    }
    forall q | q in t.fences ensures Earned(cfg, t, q) {
      EarnedStays(cfg, s, t, q, id);
    }
  }

  lemma SameTiming(cfg: Config, s: State, t: State, w: Write, w': Write)
    requires t.now == s.now && t.clocks == s.clocks && t.lease == s.lease && (w' == w || w' == w.(open := false))
    requires Timed(cfg, s, w) && Guarded(cfg, s, w)
    ensures Timed(cfg, t, w') && Guarded(cfg, t, w')
  {
  }

  lemma NewTiming(cfg: Config, s: State, p: Proc)
    requires p in s.clocks && p != ""
    ensures var w := Write(p, p, s.clocks[p], s.now, None, true); Timed(cfg, s, w) && Guarded(cfg, s, w)
  {
  }

  lemma EarnedStays(cfg: Config, s: State, t: State, p: Proc, id: nat)
    requires Earned(cfg, s, p) && t.fences == s.fences
    requires forall i | i in s.writes && i != id :: i in t.writes && t.writes[i] == s.writes[i]
    requires id in s.writes && s.writes[id].applied.Some? ==>
               id in t.writes && t.writes[id].applied.Some? && t.writes[id].proc == s.writes[id].proc && t.writes[id].start == s.writes[id].start
    ensures Earned(cfg, t, p)
  {
  }

  lemma ApplyKeeps(cfg: Config, s: State, id: nat)
    requires Sane(cfg) && Inv(cfg, s) && WellFormed(s) && Enabled(cfg, s, Apply(id))
    ensures Inv(cfg, Next(cfg, s, Apply(id)))
  {
    hide Least;
    var t := Next(cfg, s, Apply(id));
    forall i | i in t.writes ensures Timed(cfg, t, t.writes[i]) && Guarded(cfg, t, t.writes[i]) {
      assert Timed(cfg, s, s.writes[i]) && Guarded(cfg, s, s.writes[i]);
    }
    assert Timed(cfg, s, s.writes[id]);
    forall q | q in t.fences ensures Earned(cfg, t, q) {
      EarnedStays(cfg, s, t, q, id);
    }
  }

  lemma ReplyKeeps(cfg: Config, s: State, id: nat, failed: bool)
    requires Inv(cfg, s) && WellFormed(s) && Enabled(cfg, s, Reply(id, failed))
    ensures Inv(cfg, Next(cfg, s, Reply(id, failed)))
  {
    hide Timed, Guarded, Earned;
    var t := Next(cfg, s, Reply(id, failed));
    forall i | i in t.writes ensures Timed(cfg, t, t.writes[i]) && Guarded(cfg, t, t.writes[i]) {
      SameTiming(cfg, s, t, s.writes[i], t.writes[i]);
    }
    forall q | q in t.fences ensures Earned(cfg, t, q) {
      EarnedStays(cfg, s, t.(fences := s.fences), q, id);
      OwnHolder(cfg, s, s.writes[id]);
      ReplyEarns(cfg, s, id, failed, q);
    }
  }

  lemma OwnHolder(cfg: Config, s: State, w: Write)
    requires Timed(cfg, s, w)
    ensures w.holder == w.proc
  {
  }

  lemma ReplyEarns(cfg: Config, s: State, id: nat, failed: bool, q: Proc)
    requires WellFormed(s) && Enabled(cfg, s, Reply(id, failed))
    requires Earned(cfg, Next(cfg, s, Reply(id, failed)).(fences := s.fences), q)
    requires s.writes[id].holder == s.writes[id].proc
    ensures Earned(cfg, Next(cfg, s, Reply(id, failed)), q)
  {
    var t := Next(cfg, s, Reply(id, failed));
    if q in t.fences && t.fences[q].Some? {
      if q == s.writes[id].proc && t.fences[q] != s.fences[q] {
        assert Earns(cfg, t.writes[id], q, t.fences[q].value);
      } else {
        var i :| i in t.writes && Earns(cfg, t.writes[i], q, s.fences[q].value);
      }
    }
  }

  /** Every write of this event names its own sender, so nothing is released or given away. */
  ghost predicate NoRelease(e: Event) {
    e.Begin? ==> e.holder == e.proc
  }

  lemma NextKeeps(cfg: Config, s: State, e: Event)
    requires Sane(cfg) && Inv(cfg, s) && Enabled(cfg, s, e) && NoRelease(e)
    ensures WellFormed(s) && Inv(cfg, Next(cfg, s, e))
  {
    hide Inv;
    InvIsWellFormed(cfg, s);
    match e
    case Tick(dt, clocks) => TickKeeps(cfg, s, dt, clocks);
    case Begin(id, p, _) => BeginKeeps(cfg, s, id, p);
    case Apply(id) => ApplyKeeps(cfg, s, id);
    case Reply(id, failed) => ReplyKeeps(cfg, s, id, failed);
  }

  lemma InvIsWellFormed(cfg: Config, s: State)
    requires Inv(cfg, s)
    ensures WellFormed(s)
  {
  }

  // ----- Runs -----

  ghost predicate Initial(s: State) {
    && s.clocks.Keys == s.fences.Keys && s.lease == None && s.writes == map[]
    && forall p | p in s.fences :: s.fences[p] == None
  }

  ghost predicate StepsTo(cfg: Config, s: State, e: Event, t: State) {
    WellFormed(s) && Enabled(cfg, s, e) && t == Next(cfg, s, e)
  }

  ghost predicate IsRun(cfg: Config, states: seq<State>, events: seq<Event>) {
    && |states| == |events| + 1 && Initial(states[0])
    && forall i | 0 <= i < |events| :: StepsTo(cfg, states[i], events[i], states[i + 1])
  }

  lemma {:induction false} RunKeeps(cfg: Config, states: seq<State>, events: seq<Event>, i: nat)
    requires Sane(cfg) && IsRun(cfg, states, events) && i <= |events| && forall e | e in events :: NoRelease(e)
    ensures Inv(cfg, states[i])
  {
    hide Inv, NoRelease, Next, Enabled, Sane;
    if i == 0 {
      InitialKeeps(cfg, states[0]);
    } else {
      RunKeeps(cfg, states, events, i - 1);
      assert StepsTo(cfg, states[i - 1], events[i - 1], states[i]);
      NextKeeps(cfg, states[i - 1], events[i - 1]);
    }
  }

  lemma InitialKeeps(cfg: Config, s: State)
    requires Initial(s)
    ensures Inv(cfg, s)
  {
  }

  /** A process that trusts its lease began, less than a lease duration ago, a write that was applied. */
  lemma TrustIsFresh(cfg: Config, s: State, p: Proc) returns (id: nat)
    requires Sane(cfg) && cfg.window <= Least(cfg.rate, cfg.duration) && Inv(cfg, s) && Trusts(s, p)
    ensures id in s.writes && s.writes[id].proc == p && s.writes[id].applied.Some?
    ensures s.now - s.writes[id].began < cfg.duration
  {
    hide Least;
    assert Earned(cfg, s, p);
    id :| id in s.writes && Earns(cfg, s.writes[id], p, s.fences[p].value);
    assert Timed(cfg, s, s.writes[id]);
    Elapsed(cfg, s.now - s.writes[id].began, s.clocks[p] - s.writes[id].start);
  }

  /** Less than the window on a process' own clock is less than the lease duration in truth. */
  lemma Elapsed(cfg: Config, elapsed: real, reading: real)
    requires Sane(cfg) && Least(cfg.rate, elapsed) <= reading < cfg.window <= Least(cfg.rate, cfg.duration)
    ensures elapsed < cfg.duration
  {
    hide Least;
    if elapsed >= cfg.duration {
      LeastOrder(cfg.rate, cfg.duration, elapsed);
    }
  }

  lemma LeastOrder(rate: real, a: real, b: real)
    requires rate > 0.0 && a <= b
    ensures Least(rate, a) <= Least(rate, b)
  {
    assert Least(rate, b - a) >= 0.0;
    LeastAdds(rate, b - a, a);
  }

  /** A process that trusts its lease is the holder the server has on record. */
  lemma TrustIsHolding(cfg: Config, s: State, p: Proc)
    requires Sane(cfg) && cfg.window <= Least(cfg.rate, cfg.duration) && Inv(cfg, s) && Trusts(s, p)
    ensures s.lease.Some? && s.lease.value.holder == p && s.now < s.lease.value.appliedAt + cfg.duration
  {
    hide Least, Trusts;
    var id := TrustIsFresh(cfg, s, p);
    assert Timed(cfg, s, s.writes[id]) && Guarded(cfg, s, s.writes[id]);
  }

  /** Mutual exclusion over every run without a voluntary release. */
  lemma FencesExclude(cfg: Config, states: seq<State>, events: seq<Event>, i: nat, p: Proc, q: Proc)
    requires Sane(cfg) && cfg.window <= Least(cfg.rate, cfg.duration)
    requires IsRun(cfg, states, events) && i <= |events| && forall e | e in events :: NoRelease(e)
    requires Trusts(states[i], p) && Trusts(states[i], q)
    ensures p == q && states[i].lease.Some? && states[i].lease.value.holder == p
  {
    hide Inv, StepsTo, Initial, Trusts, NoRelease;
    RunKeeps(cfg, states, events, i);
    TrustIsHolding(cfg, states[i], p);
    TrustIsHolding(cfg, states[i], q);
  }

  // ----- Why both conditions are needed -----

  lemma Extend(cfg: Config, states: seq<State>, events: seq<Event>, e: Event, t: State)
    requires IsRun(cfg, states, events) && StepsTo(cfg, states[|events|], e, t)
    ensures IsRun(cfg, states + [t], events + [e])
  {
  }

  ghost function Held(cfg: Config, s: State, id: nat, p: Proc): State
    requires p in s.clocks && p in s.fences
  {
    s.(lease := Some(Lease(p, s.now)),
       fences := s.fences[p := Observe(cfg.window, s.fences[p], s.clocks[p], true, false)],
       writes := s.writes[id := Write(p, p, s.clocks[p], s.now, Some(s.now), false)])
  }

  /** A process that may write the lease can take it at once, and then trusts it. */
  lemma AcquireSteps(cfg: Config, s: State, id: nat, p: Proc) returns (s1: State, s2: State)
    requires Sane(cfg) && WellFormed(s) && id !in s.writes && p in s.clocks && p != ""
    requires MayApply(cfg, s, Write(p, p, s.clocks[p], s.now, None, true))
    ensures StepsTo(cfg, s, Begin(id, p, p), s1) && StepsTo(cfg, s1, Apply(id), s2) && StepsTo(cfg, s2, Reply(id, false), Held(cfg, s, id, p))
    ensures WellFormed(Held(cfg, s, id, p)) && Trusts(Held(cfg, s, id, p), p)
  {
    var w := Write(p, p, s.clocks[p], s.now, None, true);
    s1 := s.(writes := s.writes[id := w]);
    s2 := s1.(lease := Some(Lease(p, s.now)), writes := s1.writes[id := w.(applied := Some(s.now))]);
    assert Held(cfg, s, id, p).writes == s2.writes[id := w.(applied := Some(s.now), open := false)];
  }

  lemma Acquire(cfg: Config, states: seq<State>, events: seq<Event>, id: nat, p: Proc) returns (states': seq<State>, events': seq<Event>)
    requires Sane(cfg) && IsRun(cfg, states, events) && WellFormed(states[|events|])
    requires var s := states[|events|];
             id !in s.writes && p in s.clocks && p != "" && MayApply(cfg, s, Write(p, p, s.clocks[p], s.now, None, true))
    ensures IsRun(cfg, states', events') && states'[0] == states[0] && events' == events + [Begin(id, p, p)] + [Apply(id)] + [Reply(id, false)]
    ensures states'[|events'|] == Held(cfg, states[|events|], id, p) && WellFormed(states'[|events'|]) && Trusts(states'[|events'|], p)
  {
    hide Sane, StepsTo, MayApply, Initial, Trusts, Held;
    var s1, s2 := AcquireSteps(cfg, states[|events|], id, p);
    Extend(cfg, states, events, Begin(id, p, p), s1);
    Extend(cfg, states + [s1], events + [Begin(id, p, p)], Apply(id), s2);
    var s3 := Held(cfg, states[|events|], id, p);
    Extend(cfg, states + [s1] + [s2], events + [Begin(id, p, p)] + [Apply(id)], Reply(id, false), s3);
    states', events' := states + [s1] + [s2] + [s3], events + [Begin(id, p, p)] + [Apply(id)] + [Reply(id, false)];
  }

  /** With a longer window than the clock rate allows, some run lets two processes trust the lease at once. */
  lemma WindowTooLong(cfg: Config, s: State, p: Proc, q: Proc) returns (states: seq<State>, events: seq<Event>)
    requires Sane(cfg) && Least(cfg.rate, cfg.duration) < cfg.window
    requires Initial(s) && p in s.clocks && q in s.clocks && p != q && p != "" && q != ""
    ensures IsRun(cfg, states, events) && (forall e | e in events :: NoRelease(e)) && states[0] == s
    ensures Trusts(states[|events|], p) && Trusts(states[|events|], q)
  {
    hide StepsTo, Least;
    states, events := Acquire(cfg, [s], [], 0, p);
    var s1 := Held(cfg, s, 0, p);
    var later := map x | x in s.clocks :: s.clocks[x] + Least(cfg.rate, cfg.duration);
    var s2 := s1.(now := s1.now + cfg.duration, clocks := later);
    TickSteps(cfg, s1, s2, later);
    Extend(cfg, states, events, Tick(cfg.duration, later), s2);
    states, events := Acquire(cfg, states + [s2], events + [Tick(cfg.duration, later)], 1, q);
  }

  lemma TickSteps(cfg: Config, s: State, t: State, later: map<Proc, real>)
    requires Sane(cfg) && WellFormed(s) && later == map x | x in s.clocks :: s.clocks[x] + Least(cfg.rate, cfg.duration)
    requires t == s.(now := s.now + cfg.duration, clocks := later)
    ensures StepsTo(cfg, s, Tick(cfg.duration, later), t) && WellFormed(t)
  {
  }

  /**
   * A voluntary release is a different hand-over: for every window, another process may take the lease as soon as the
   * release is applied, while the releasing one trusts its fence until the reply clears it, or, if the reply is lost,
   * until it runs out.
   */
  lemma ReleaseOverlaps(cfg: Config, s: State, p: Proc, q: Proc) returns (states: seq<State>, events: seq<Event>)
    requires Sane(cfg) && Initial(s) && p in s.clocks && q in s.clocks && p != q && p != "" && q != ""
    ensures IsRun(cfg, states, events) && states[0] == s && Begin(1, p, "") in events && Reply(1, true) in events
    ensures Trusts(states[|events|], p) && Trusts(states[|events|], q)
  {
    hide StepsTo, Least;
    states, events := Acquire(cfg, [s], [], 0, p);
    var s1 := Held(cfg, s, 0, p);
    var s2, s3, s4 := ReleaseSteps(cfg, s1, p);
    Extend(cfg, states, events, Begin(1, p, ""), s2);
    Extend(cfg, states + [s2], events + [Begin(1, p, "")], Apply(1), s3);
    Extend(cfg, states + [s2] + [s3], events + [Begin(1, p, "")] + [Apply(1)], Reply(1, true), s4);
    states, events := states + [s2] + [s3] + [s4], events + [Begin(1, p, "")] + [Apply(1)] + [Reply(1, true)];
    states, events := Acquire(cfg, states, events, 2, q);
  }

  lemma ReleaseSteps(cfg: Config, s: State, p: Proc) returns (s1: State, s2: State, s3: State)
    requires WellFormed(s) && 1 !in s.writes && p in s.clocks && p != "" && s.lease.Some? && s.lease.value.holder == p
    ensures StepsTo(cfg, s, Begin(1, p, ""), s1) && StepsTo(cfg, s1, Apply(1), s2) && StepsTo(cfg, s2, Reply(1, true), s3)
    ensures WellFormed(s3) && s3.now == s.now && s3.clocks == s.clocks && s3.fences == s.fences && s3.writes.Keys == s.writes.Keys + {1}
    ensures s3.lease.Some? && s3.lease.value.holder == ""
  {
    var w := Write(p, "", s.clocks[p], s.now, None, true);
    s1 := s.(writes := s.writes[1 := w]);
    s2 := s1.(lease := Some(Lease("", s.now)), writes := s1.writes[1 := w.(applied := Some(s.now))]);
    s3 := s2.(writes := s2.writes[1 := w.(applied := Some(s.now), open := false)]);
    assert s2.fences[p := s2.fences[p]] == s2.fences;
  }
}

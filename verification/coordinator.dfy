/** The single-flight gate: the object, and every interleaving of threads at the granularity of its locks. */
module Coordinators {
  import opened Octets

  /** Instants are counted in nanoseconds. */
  const PAIR_COOLDOWN: nat := 30_000_000_000

  type Cooldowns = map<Bytes, nat>

  function Unexpired(c: Cooldowns, now: nat): Cooldowns {
    map id | id in c && now < c[id] :: c[id]
  }

  /** An attempt is admitted exactly when none is in flight and its peer is not cooling down. */
  predicate Admits(active: bool, c: Cooldowns, id: Bytes, now: nat) {
    !active && id !in Unexpired(c, now)
  }

  class PairCoordinator {
    var active: bool
    var cooldown: Cooldowns

    constructor ()
      ensures !active && cooldown == map[]
    {
      active, cooldown := false, map[];
    }

    method Enter(id: Bytes, now: nat) returns (ok: bool)
      modifies this
      ensures ok == Admits(old(active), old(cooldown), id, now)
      ensures active == (old(active) || ok) && cooldown == Unexpired(old(cooldown), now)
    {
      cooldown := Unexpired(cooldown, now);
      if active || id in cooldown {
        return false;
      }
      active := true;
      return true;
    }

    /** The first locked section of `leave`. */
    method Release()
      modifies this`active
      ensures !active
    {
      active := false;
    }

    /** The second locked section of `leave`, for an attempt to be retried later. */
    method CoolDown(id: Bytes, now: nat)
      modifies this`cooldown
      ensures cooldown == old(cooldown)[id := now + PAIR_COOLDOWN]
    {
      cooldown := cooldown[id := now + PAIR_COOLDOWN];
    }

    method Leave(id: Bytes, retryLater: bool, now: nat)
      modifies this
      ensures !active
      ensures cooldown == if retryLater then old(cooldown)[id := now + PAIR_COOLDOWN] else old(cooldown)
    {
      Release();
      if retryLater {
        CoolDown(id, now);
      }
    }
  }

  // ---- Threads ----

  /** Where a thread stands: outside, inside its attempt, or at one of the lock operations of enter and leave. */
  datatype Thread =
    | Outside
    | WantsBoth(id: Bytes)
    | HasActive(id: Bytes)
    | HasBoth(id: Bytes)
    | Inside(id: Bytes)
    | WantsActive(id: Bytes, retry: bool)
    | Clearing(id: Bytes, retry: bool)
    | WantsCooldown(id: Bytes)
    | Recording(id: Bytes)

  datatype Machine = Machine(
    active: bool,
    cooldown: Cooldowns,
    activeLock: Option<nat>,
    cooldownLock: Option<nat>,
    threads: map<nat, Thread>,
    now: nat)

  datatype Move = Call(t: nat, id: Bytes) | Exit(t: nat, retry: bool) | Advance(t: nat) | Tick(later: nat)

  /** Any number of threads, none of them near the gate. */
  predicate Initial(m: Machine) {
    && !m.active && m.cooldown == map[] && m.activeLock.None? && m.cooldownLock.None?
    && forall t :: t in m.threads ==> m.threads[t].Outside?
  }

  function At(m: Machine, t: nat, place: Thread): Machine {
    m.(threads := m.threads[t := place])
  }

  /** The thread's next lock operation, or the section it guards. */
  function AdvanceOf(m: Machine, t: nat): Result<Machine>
    requires t in m.threads
  {
    match m.threads[t]
    case Outside => Err
    case Inside(_) => Err
    case WantsBoth(id) =>
      if m.activeLock.None? then Ok(At(m, t, HasActive(id)).(activeLock := Some(t))) else Err
    case HasActive(id) =>
      if m.cooldownLock.None? then Ok(At(m, t, HasBoth(id)).(cooldownLock := Some(t))) else Err
    case HasBoth(id) =>
      var ok := Admits(m.active, m.cooldown, id, m.now);
      Ok(At(m, t, if ok then Inside(id) else Outside).(
           active := m.active || ok, cooldown := Unexpired(m.cooldown, m.now), activeLock := None, cooldownLock := None))
    case WantsActive(id, retry) =>
      if m.activeLock.None? then Ok(At(m, t, Clearing(id, retry)).(activeLock := Some(t))) else Err
    case Clearing(id, retry) =>
      Ok(At(m, t, if retry then WantsCooldown(id) else Outside).(active := false, activeLock := None))
    case WantsCooldown(id) =>
      if m.cooldownLock.None? then Ok(At(m, t, Recording(id)).(cooldownLock := Some(t))) else Err
    case Recording(id) =>
      Ok(At(m, t, Outside).(cooldown := m.cooldown[id := m.now + PAIR_COOLDOWN], cooldownLock := None))
  }

  function Next(m: Machine, x: Move): Result<Machine> {
    match x
    case Call(t, id) => if t in m.threads && m.threads[t].Outside? then Ok(At(m, t, WantsBoth(id))) else Err
    case Exit(t, retry) =>
      if t in m.threads && m.threads[t].Inside? then Ok(At(m, t, WantsActive(m.threads[t].id, retry))) else Err
    case Advance(t) => if t in m.threads then AdvanceOf(m, t) else Err
    case Tick(later) => if m.now <= later then Ok(m.(now := later)) else Err
  }

  // ---- Single flight ----

  /** Between a successful enter and the first section of its leave. */
  predicate InFlight(th: Thread) {
    th.Inside? || th.WantsActive? || th.Clearing?
  }

  predicate HoldsActive(th: Thread) {
    th.HasActive? || th.HasBoth? || th.Clearing?
  }

  predicate HoldsCooldown(th: Thread) {
    th.HasBoth? || th.Recording?
  }

  predicate SomeoneInFlight(m: Machine) {
    exists t :: t in m.threads && InFlight(m.threads[t])
  }

  predicate LocksHeld(m: Machine) {
    && (forall t :: t in m.threads && HoldsActive(m.threads[t]) ==> m.activeLock == Some(t))
    && (m.activeLock.Some? ==> m.activeLock.value in m.threads && HoldsActive(m.threads[m.activeLock.value]))
    && (forall t :: t in m.threads && HoldsCooldown(m.threads[t]) ==> m.cooldownLock == Some(t))
    && (m.cooldownLock.Some? ==> m.cooldownLock.value in m.threads && HoldsCooldown(m.threads[m.cooldownLock.value]))
  }

  predicate OneInFlight(m: Machine) {
    forall t, u | t in m.threads && u in m.threads && InFlight(m.threads[t]) && InFlight(m.threads[u]) :: t == u
  }

  /** Each lock is held by the thread that says so, and the flag is up exactly for the one thread in flight. */
  predicate Inv(m: Machine) {
    LocksHeld(m) && (m.active <==> SomeoneInFlight(m)) && OneInFlight(m)
  }

  ghost predicate Run(ms: seq<Machine>, moves: seq<Move>) {
    && |ms| == |moves| + 1
    && Initial(ms[0])
    && forall i :: 0 <= i < |moves| ==> Next(ms[i], moves[i]) == Ok(ms[i + 1])
  }

  lemma FlightStays(m: Machine, x: Move, after: Machine, u: nat)
    requires Next(m, x) == Ok(after) && u in m.threads && InFlight(m.threads[u])
    requires !(x.Advance? && x.t == u && m.threads[u].Clearing?)
    ensures SomeoneInFlight(after)
  {
    assert u in after.threads && InFlight(after.threads[u]);
  }

  lemma NextKeepsFlag(m: Machine, x: Move, after: Machine)
    requires Inv(m) && Next(m, x) == Ok(after)
    ensures after.active <==> SomeoneInFlight(after)
  {
    if m.active {
      var u :| u in m.threads && InFlight(m.threads[u]);
      if x.Advance? && x.t in m.threads && m.threads[x.t].Clearing? {
        assert x.t == u;
      } else {
        FlightStays(m, x, after, u);
      }
    } else if after.active {
      assert InFlight(after.threads[x.t]);
    }
  }

  lemma NextKeepsLocks(m: Machine, x: Move, after: Machine)
    requires LocksHeld(m) && Next(m, x) == Ok(after)
    ensures LocksHeld(after)
  {
  }

  lemma NextKeepsOneInFlight(m: Machine, x: Move, after: Machine)
    requires OneInFlight(m) && (SomeoneInFlight(m) ==> m.active) && Next(m, x) == Ok(after)
    ensures OneInFlight(after)
  {
  }

  lemma NextKeepsInv(m: Machine, x: Move, after: Machine)
    requires Inv(m) && Next(m, x) == Ok(after)
    ensures Inv(after)
  {
    NextKeepsLocks(m, x, after);
    NextKeepsOneInFlight(m, x, after);
    NextKeepsFlag(m, x, after);
  }

  lemma {:induction false} RunKeepsInv(ms: seq<Machine>, moves: seq<Move>, i: nat)
    requires Run(ms, moves) && i < |ms|
    ensures Inv(ms[i])
  {
    if i > 0 {
      RunKeepsInv(ms, moves, i - 1);
      NextKeepsInv(ms[i - 1], moves[i - 1], ms[i]);
    }
  }

  /** The flag is up exactly while one thread is in flight, and never two are. */
  lemma SingleFlight(ms: seq<Machine>, moves: seq<Move>, i: nat)
    requires Run(ms, moves) && i < |ms|
    ensures ms[i].active <==> SomeoneInFlight(ms[i])
    ensures OneInFlight(ms[i])
  {
    RunKeepsInv(ms, moves, i);
  }

  // ---- No deadlock ----

  /** The thread is inside enter or leave. */
  predicate Busy(th: Thread) {
    !th.Outside? && !th.Inside?
  }

  /** Whenever some thread is inside enter or leave, some such thread can take its next step. */
  lemma NeverDeadlocks(ms: seq<Machine>, moves: seq<Move>, i: nat, t: nat) returns (u: nat)
    requires Run(ms, moves) && i < |ms| && t in ms[i].threads && Busy(ms[i].threads[t])
    ensures u in ms[i].threads && Busy(ms[i].threads[u]) && AdvanceOf(ms[i], u).Ok?
  {
    RunKeepsInv(ms, moves, i);
    var m := ms[i];
    if m.cooldownLock.Some? {
      u := m.cooldownLock.value;
    } else if m.activeLock.Some? {
      u := m.activeLock.value;
    } else {
      u := t;
    }
  }

  // ---- Cooldown ----

  lemma NextKeepsCooldown(m: Machine, x: Move, after: Machine, id: Bytes, deadline: nat)
    requires Next(m, x) == Ok(after) && after.now < deadline
    requires id in m.cooldown && deadline <= m.cooldown[id] && deadline <= m.now + PAIR_COOLDOWN
    ensures m.now <= after.now
    ensures id in after.cooldown && deadline <= after.cooldown[id]
  {
  }

  lemma {:induction false} CooldownStands(ms: seq<Machine>, moves: seq<Move>, i: nat, j: nat, id: Bytes)
    requires Run(ms, moves) && i <= j < |ms| && id in ms[i].cooldown
    requires ms[i].cooldown[id] <= ms[i].now + PAIR_COOLDOWN
    requires ms[j].now < ms[i].cooldown[id]
    ensures ms[i].now <= ms[j].now
    ensures id in ms[j].cooldown && ms[i].cooldown[id] <= ms[j].cooldown[id]
  {
    if i < j {
      ClockAdvances(ms, moves, j - 1, j);
      CooldownStands(ms, moves, i, j - 1, id);
      NextKeepsCooldown(ms[j - 1], moves[j - 1], ms[j], id, ms[i].cooldown[id]);
    }
  }

  lemma {:induction false} ClockAdvances(ms: seq<Machine>, moves: seq<Move>, i: nat, j: nat)
    requires Run(ms, moves) && i <= j < |ms|
    ensures ms[i].now <= ms[j].now
  {
    if i < j {
      ClockAdvances(ms, moves, i, j - 1);
    }
  }

  /** The thread's step records a cooldown for this peer, or admits an attempt with it. */
  predicate Records(m: Machine, x: Move, id: Bytes) {
    x.Advance? && x.t in m.threads && m.threads[x.t] == Recording(id)
  }

  predicate Decides(m: Machine, x: Move, id: Bytes) {
    x.Advance? && x.t in m.threads && m.threads[x.t] == HasBoth(id)
  }

  /** Once a failed attempt's cooldown is recorded, every attempt with that peer is refused until its deadline. */
  lemma RefusedUntilDeadline(ms: seq<Machine>, moves: seq<Move>, i: nat, j: nat, id: Bytes)
    requires Run(ms, moves) && i < j < |moves|
    requires Records(ms[i], moves[i], id) && Decides(ms[j], moves[j], id)
    requires ms[j].now < ms[i].now + PAIR_COOLDOWN
    ensures ms[j + 1].threads[moves[j].t] == Outside
  {
    assert ms[i + 1].cooldown[id] == ms[i].now + PAIR_COOLDOWN && ms[i + 1].now == ms[i].now;
    CooldownStands(ms, moves, i + 1, j, id);
  }

  /** An attempt is admitted exactly when nothing is in flight and no unexpired cooldown is recorded for its peer. */
  lemma AdmittedExactlyWhenFree(ms: seq<Machine>, moves: seq<Move>, i: nat, id: Bytes)
    requires Run(ms, moves) && i < |moves| && Decides(ms[i], moves[i], id)
    ensures ms[i + 1].threads[moves[i].t] == Inside(id) <==>
            && !SomeoneInFlight(ms[i])
            && !(id in ms[i].cooldown && ms[i].now < ms[i].cooldown[id])
  {
    RunKeepsInv(ms, moves, i);
  }

  lemma Extend(ms: seq<Machine>, moves: seq<Move>, x: Move) returns (ns: seq<Machine>, ys: seq<Move>)
    requires Run(ms, moves) && Next(ms[|moves|], x).Ok?
    ensures Run(ns, ys) && |ys| == |moves| + 1 && ns[|ys|] == Next(ms[|moves|], x).value
  {
    ns, ys := ms + [Next(ms[|moves|], x).value], moves + [x];
    forall i | 0 <= i < |ys|
      ensures Next(ns[i], ys[i]) == Ok(ns[i + 1])
    {
      if i < |moves| {
        assert Next(ms[i], moves[i]) == Ok(ms[i + 1]);
      }
    }
  }

  /** A free gate lets a thread all the way in. */
  lemma Enters(ms: seq<Machine>, moves: seq<Move>, t: nat, id: Bytes) returns (ns: seq<Machine>, ys: seq<Move>)
    requires Run(ms, moves)
    requires var m := ms[|moves|];
             && t in m.threads && m.threads[t].Outside? && m.activeLock.None? && m.cooldownLock.None?
             && Admits(m.active, m.cooldown, id, m.now)
    ensures Run(ns, ys) && |ys| == |moves| + 4
    ensures var m := ms[|moves|];
            ns[|ys|] == At(m, t, Inside(id)).(active := true, cooldown := Unexpired(m.cooldown, m.now))
  {
    ns, ys := Extend(ms, moves, Call(t, id));
    ns, ys := Extend(ns, ys, Advance(t));
    ns, ys := Extend(ns, ys, Advance(t));
    ns, ys := Extend(ns, ys, Advance(t));
    var m := ms[|moves|];
    assert ns[|ys|].threads == m.threads[t := Inside(id)];
  }

  /**
   The gap: `leave` lowers the flag in one locked section and records the cooldown in another, so a second
   attempt with the very same peer can be admitted in between.
   */
  lemma SamePeerAdmittedInTheGap(id: Bytes) returns (ms: seq<Machine>, moves: seq<Move>)
    ensures Run(ms, moves) && |moves| == 11
    ensures 0 in ms[11].threads && 1 in ms[11].threads
    ensures ms[11].threads[0] == WantsCooldown(id) && ms[11].threads[1] == Inside(id)
  {
    ms, moves := [Machine(false, map[], None, None, map[0 := Outside, 1 := Outside], 0)], [];
    ms, moves := Enters(ms, moves, 0, id);
    ms, moves := Extend(ms, moves, Exit(0, true));
    ms, moves := Extend(ms, moves, Advance(0));
    ms, moves := Extend(ms, moves, Advance(0));
    ms, moves := Enters(ms, moves, 1, id);
  }
}

/** Starting, stopping and joining all actors (src/ipc.c), for callers that are serialized. */
module Lifecycle {
  import opened Types
  import opened Registry

  /** ipc_lifecycle_state_t */
  datatype Phase = Stopped | Running | Stopping

  /** A call into a hook or into the port during one generation. */
  datatype Event =
    | Init(a: Actor, rc: int)
    | StartHook(a: Actor)
    | PortStart(a: Actor, rc: int)
    | StopHook(a: Actor)
    | PortStop(a: Actor)

  /** One generation: from a start that found everything stopped until the next such start. */
  datatype Generation = Generation(trace: seq<Event>, succeeded: bool, stopRequested: bool, joined: bool)

  /** The optional hooks an actor has. */
  datatype Hooks = Hooks(start: set<Actor>, stop: set<Actor>)

  // ------------------------------------------------------------------ what the port sees

  function StopOne(a: Actor, h: Hooks): seq<Event> {
    (if a in h.stop then [StopHook(a)] else []) + [PortStop(a)]
  }

  /** stop_actors_through the `n`-th actor of the list. */
  function StopTrace(actors: seq<Actor>, n: nat, h: Hooks): seq<Event>
    requires n <= |actors|
  {
    if n == 0 then [] else StopTrace(actors, n - 1, h) + StopOne(actors[n - 1], h)
  }

  function StartOne(a: Actor, startRc: int, h: Hooks): seq<Event> {
    [Init(a, 0)] + (if a in h.start then [StartHook(a)] else []) + [PortStart(a, startRc)]
  }

  function StartTrace(actors: seq<Actor>, n: nat, h: Hooks): seq<Event>
    requires n <= |actors|
  {
    if n == 0 then [] else StartTrace(actors, n - 1, h) + StartOne(actors[n - 1], 0, h)
  }

  /** How a start goes: everything starts, or the actor at `k` fails to initialize or to start. */
  datatype Outcome = AllStart | InitFails(k: nat, rc: int) | StartFails(k: nat, rc: int)

  predicate OutcomeOk(actors: seq<Actor>, o: Outcome) {
    match o
    case AllStart => true
    case InitFails(k, rc) => k < |actors| && rc != 0
    case StartFails(k, rc) => k < |actors| && rc != 0
  }

  function OutcomeTrace(actors: seq<Actor>, o: Outcome, h: Hooks): seq<Event>
    requires OutcomeOk(actors, o)
  {
    match o
    case AllStart => StartTrace(actors, |actors|, h)
    case InitFails(k, rc) => StartTrace(actors, k, h) + [Init(actors[k], rc)] + StopTrace(actors, k, h)
    case StartFails(k, rc) => StartTrace(actors, k, h) + StartOne(actors[k], rc, h) + StopTrace(actors, k + 1, h)
  }

  /** Actors that were initialized, in order. */
  function InitsIn(trace: seq<Event>): seq<Actor> {
    if trace == [] then []
    else
      var e := trace[|trace| - 1];
      InitsIn(trace[..|trace| - 1]) + if e.Init? && e.rc == 0 then [e.a] else []
  }

  /** Actors the framework told to stop, in order. */
  function StopsIn(trace: seq<Event>): seq<Actor> {
    if trace == [] then []
    else
      var e := trace[|trace| - 1];
      StopsIn(trace[..|trace| - 1]) + if e.PortStop? then [e.a] else []
  }

  lemma {:induction false} ProjectConcat(p: seq<Event>, q: seq<Event>)
    ensures InitsIn(p + q) == InitsIn(p) + InitsIn(q) && StopsIn(p + q) == StopsIn(p) + StopsIn(q)
    decreases |q|
  {
    if q == [] {
      assert p + q == p;
    } else {
      var n := |q| - 1;
      assert (p + q)[..|p + q| - 1] == p + q[..n];
      ProjectConcat(p, q[..n]);
    }
  }

  lemma ProjectOne(e: Event)
    ensures InitsIn([e]) == (if e.Init? && e.rc == 0 then [e.a] else [])
    ensures StopsIn([e]) == (if e.PortStop? then [e.a] else [])
  {
    assert [e][..0] == [];
  }

  lemma ProjectStart(a: Actor, rc: int, h: Hooks)
    ensures InitsIn(StartOne(a, rc, h)) == [a] && StopsIn(StartOne(a, rc, h)) == []
  {
    ProjectOne(Init(a, 0));
    ProjectOne(StartHook(a));
    ProjectOne(PortStart(a, rc));
    ProjectThree([Init(a, 0)], if a in h.start then [StartHook(a)] else [], [PortStart(a, rc)]);
  }

  lemma ProjectStop(a: Actor, h: Hooks)
    ensures InitsIn(StopOne(a, h)) == [] && StopsIn(StopOne(a, h)) == [a]
  {
    ProjectOne(StopHook(a));
    ProjectOne(PortStop(a));
    ProjectConcat(if a in h.stop then [StopHook(a)] else [], [PortStop(a)]);
  }

  lemma ProjectThree(p: seq<Event>, q: seq<Event>, r: seq<Event>)
    ensures InitsIn(p + q + r) == InitsIn(p) + InitsIn(q) + InitsIn(r)
    ensures StopsIn(p + q + r) == StopsIn(p) + StopsIn(q) + StopsIn(r)
  {
    ProjectConcat(p, q);
    ProjectConcat(p + q, r);
  }

  lemma ProjectTraces(actors: seq<Actor>, n: nat, h: Hooks)
    requires n <= |actors|
    ensures InitsIn(StartTrace(actors, n, h)) == actors[..n] && StopsIn(StartTrace(actors, n, h)) == []
    ensures InitsIn(StopTrace(actors, n, h)) == [] && StopsIn(StopTrace(actors, n, h)) == actors[..n]
  {
    ProjectStarts(actors, n, h);
    ProjectStops(actors, n, h);
  }

  lemma {:induction false} ProjectStarts(actors: seq<Actor>, n: nat, h: Hooks)
    requires n <= |actors|
    ensures InitsIn(StartTrace(actors, n, h)) == actors[..n] && StopsIn(StartTrace(actors, n, h)) == []
  {
    if n > 0 {
      ProjectStarts(actors, n - 1, h);
      ProjectStart(actors[n - 1], 0, h);
      ProjectConcat(StartTrace(actors, n - 1, h), StartOne(actors[n - 1], 0, h));
    }
  }

  lemma {:induction false} ProjectStops(actors: seq<Actor>, n: nat, h: Hooks)
    requires n <= |actors|
    ensures InitsIn(StopTrace(actors, n, h)) == [] && StopsIn(StopTrace(actors, n, h)) == actors[..n]
  {
    if n > 0 {
      ProjectStops(actors, n - 1, h);
      ProjectStop(actors[n - 1], h);
      ProjectConcat(StopTrace(actors, n - 1, h), StopOne(actors[n - 1], h));
    }
  }

  /** The actors a start initializes before it ends. */
  function Initialized(actors: seq<Actor>, o: Outcome): seq<Actor>
    requires OutcomeOk(actors, o)
  {
    match o
    case AllStart => actors
    case InitFails(k, _) => actors[..k]
    case StartFails(k, _) => actors[..k + 1]
  }

  /** A start that fails stops exactly the actors it initialized, once each, in list order; one that succeeds stops none. */
  lemma StartStopsWhatItInitialized(actors: seq<Actor>, o: Outcome, h: Hooks)
    requires OutcomeOk(actors, o)
    ensures InitsIn(OutcomeTrace(actors, o, h)) == Initialized(actors, o)
    ensures StopsIn(OutcomeTrace(actors, o, h)) == if o.AllStart? then [] else Initialized(actors, o)
  {
    match o
    case AllStart =>
      ProjectTraces(actors, |actors|, h);
      assert actors[..|actors|] == actors;
    case InitFails(k, rc) =>
      ProjectTraces(actors, k, h);
      ProjectOne(Init(actors[k], rc));
      ProjectThree(StartTrace(actors, k, h), [Init(actors[k], rc)], StopTrace(actors, k, h));
    case StartFails(k, rc) =>
      FailedStart(actors, k, rc, h);
  }

  lemma FailedStart(actors: seq<Actor>, k: nat, rc: int, h: Hooks)
    requires k < |actors| && rc != 0
    ensures InitsIn(OutcomeTrace(actors, StartFails(k, rc), h)) == actors[..k + 1]
    ensures StopsIn(OutcomeTrace(actors, StartFails(k, rc), h)) == actors[..k + 1]
  {
    ProjectStarts(actors, k, h);
    ProjectStart(actors[k], rc, h);
    ProjectThree(StartTrace(actors, k, h), StartOne(actors[k], rc, h), StopTrace(actors, k + 1, h));
    ProjectStops(actors, k + 1, h);
  }

  // ------------------------------------------------------------------ hooks

  /**
   * Hooks are called where they belong: an actor with a start hook has it called between its init and its port start and
   * nobody else has one called; one with a stop hook has it called right before its port stop.
   */
  ghost predicate HookInPlace(t: seq<Event>, p: nat, h: Hooks)
    requires p < |t|
  {
    match t[p]
    case Init(a, rc) => rc == 0 ==> p + 1 < |t| && (if a in h.start then t[p + 1] == StartHook(a) else t[p + 1].PortStart? && t[p + 1].a == a)
    case StartHook(a) => a in h.start && p > 0 && t[p - 1] == Init(a, 0) && p + 1 < |t| && t[p + 1].PortStart? && t[p + 1].a == a
    case PortStart(a, _) => p > 0 && t[p - 1] == if a in h.start then StartHook(a) else Init(a, 0)
    case StopHook(a) => a in h.stop && p + 1 < |t| && t[p + 1] == PortStop(a)
    case PortStop(a) => a in h.stop ==> p > 0 && t[p - 1] == StopHook(a)
  }

  ghost predicate HooksInPlace(t: seq<Event>, h: Hooks) {
    forall p :: 0 <= p < |t| ==> HookInPlace(t, p, h)
  }

  lemma InPlaceConcat(t: seq<Event>, u: seq<Event>, h: Hooks)
    requires HooksInPlace(t, h) && HooksInPlace(u, h)
    ensures HooksInPlace(t + u, h)
  {
    forall p | 0 <= p < |t + u|
      ensures HookInPlace(t + u, p, h)
    {
      if p < |t| {
        assert HookInPlace(t, p, h);
        assert (t + u)[p] == t[p] && (p > 0 ==> (t + u)[p - 1] == t[p - 1]) && (p + 1 < |t| ==> (t + u)[p + 1] == t[p + 1]);
      } else {
        var q := p - |t|;
        assert HookInPlace(u, q, h);
        assert (t + u)[p] == u[q] && (q > 0 ==> (t + u)[p - 1] == u[q - 1]) && (q + 1 < |u| ==> (t + u)[p + 1] == u[q + 1]);
      }
    }
  }

  lemma OneInPlace(a: Actor, rc: int, h: Hooks)
    ensures HooksInPlace(StartOne(a, rc, h), h) && HooksInPlace(StopOne(a, h), h)
  {}

  lemma {:induction false} TracesInPlace(actors: seq<Actor>, n: nat, h: Hooks)
    requires n <= |actors|
    ensures HooksInPlace(StartTrace(actors, n, h), h) && HooksInPlace(StopTrace(actors, n, h), h)
  {
    if n > 0 {
      TracesInPlace(actors, n - 1, h);
      OneInPlace(actors[n - 1], 0, h);
      InPlaceConcat(StartTrace(actors, n - 1, h), StartOne(actors[n - 1], 0, h), h);
      InPlaceConcat(StopTrace(actors, n - 1, h), StopOne(actors[n - 1], h), h);
    }
  }

  lemma OutcomeInPlace(actors: seq<Actor>, o: Outcome, h: Hooks)
    requires OutcomeOk(actors, o)
    ensures HooksInPlace(OutcomeTrace(actors, o, h), h)
  {
    match o
    case AllStart => TracesInPlace(actors, |actors|, h);
    case InitFails(k, rc) =>
      TracesInPlace(actors, k, h);
      InPlaceConcat(StartTrace(actors, k, h), [Init(actors[k], rc)], h);
      InPlaceConcat(StartTrace(actors, k, h) + [Init(actors[k], rc)], StopTrace(actors, k, h), h);
    case StartFails(k, rc) =>
      TracesInPlace(actors, k, h);
      TracesInPlace(actors, k + 1, h);
      OneInPlace(actors[k], rc, h);
      InPlaceConcat(StartTrace(actors, k, h), StartOne(actors[k], rc, h), h);
      InPlaceConcat(StartTrace(actors, k, h) + StartOne(actors[k], rc, h), StopTrace(actors, k + 1, h), h);
  }

  // ------------------------------------------------------------------ the calls

  datatype Life = Life(phase: Phase, history: seq<Generation>)

  datatype Call = StartAll(o: Outcome) | StopAll | RunAll(rc: int)

  function StartRc(l: Life, o: Outcome): int {
    match l.phase
    case Stopping => -EBUSY
    case Running => -EALREADY
    case Stopped => if o.AllStart? then 0 else o.rc
  }

  function Current(l: Life): Generation
    requires l.history != []
  {
    l.history[|l.history| - 1]
  }

  function WithCurrent(l: Life, g: Generation): Life
    requires l.history != []
  {
    l.(history := l.history[|l.history| - 1 := g])
  }

  function Next(l: Life, actors: seq<Actor>, h: Hooks, c: Call): Life
    requires (l.phase != Stopped ==> l.history != []) && (c.StartAll? ==> OutcomeOk(actors, c.o))
  {
    match c
    case StartAll(o) =>
      if l.phase != Stopped then l
      else Life(if o.AllStart? then Running else Stopping,
                l.history + [Generation(OutcomeTrace(actors, o, h), o.AllStart?, false, false)])
    case StopAll =>
      if l.phase != Running then l
      else
        var g := Current(l);
        WithCurrent(l, g.(trace := g.trace + StopTrace(actors, |actors|, h), stopRequested := true)).(phase := Stopping)
    case RunAll(rc) =>
      if rc != 0 || l.phase != Stopping then l
      else WithCurrent(l, Current(l).(joined := true)).(phase := Stopped)
  }

  // ------------------------------------------------------------------ every run

  /** Every actor the generation initialized was told to stop once, in the same order. */
  ghost predicate Balanced(g: Generation, actors: seq<Actor>) {
    InitsIn(g.trace) <= actors && StopsIn(g.trace) == InitsIn(g.trace) && (g.succeeded ==> g.stopRequested)
  }

  ghost predicate LifeOk(l: Life, actors: seq<Actor>) {
    && (forall g :: 0 <= g < |l.history| - 1 ==> Balanced(l.history[g], actors) && l.history[g].joined)
    && (match l.phase
        case Stopped => l.history != [] ==> Balanced(Current(l), actors) && Current(l).joined
        case Stopping => l.history != [] && Balanced(Current(l), actors) && !Current(l).joined
        case Running => l.history != [] && InitsIn(Current(l).trace) == actors && StopsIn(Current(l).trace) == []
                        && Current(l).succeeded && !Current(l).stopRequested && !Current(l).joined)
  }

  /** A new generation, whether it succeeded or was rolled back. */
  lemma NewGeneration(l: Life, actors: seq<Actor>, g: Generation)
    requires LifeOk(l, actors) && l.phase == Stopped && !g.joined && !g.stopRequested
    requires g.succeeded ==> InitsIn(g.trace) == actors && StopsIn(g.trace) == []
    requires !g.succeeded ==> InitsIn(g.trace) <= actors && StopsIn(g.trace) == InitsIn(g.trace)
    ensures LifeOk(Life(if g.succeeded then Running else Stopping, l.history + [g]), actors)
  {}

  lemma StartKeepsLife(l: Life, actors: seq<Actor>, h: Hooks, o: Outcome)
    requires LifeOk(l, actors) && OutcomeOk(actors, o)
    ensures LifeOk(Next(l, actors, h, StartAll(o)), actors)
  {
    StartStopsWhatItInitialized(actors, o, h);
    if l.phase == Stopped {
      NewGeneration(l, actors, Generation(OutcomeTrace(actors, o, h), o.AllStart?, false, false));
    }
  }

  lemma StopKeepsLife(l: Life, actors: seq<Actor>, h: Hooks)
    requires LifeOk(l, actors)
    ensures LifeOk(Next(l, actors, h, StopAll), actors)
  {
    if l.phase == Running {
      ProjectTraces(actors, |actors|, h);
      ProjectConcat(Current(l).trace, StopTrace(actors, |actors|, h));
      assert actors[..|actors|] == actors;
      var g := Current(l);
      assert Balanced(g.(trace := g.trace + StopTrace(actors, |actors|, h), stopRequested := true), actors);
    }
  }

  lemma RunKeepsLife(l: Life, actors: seq<Actor>, h: Hooks, rc: int)
    requires LifeOk(l, actors)
    ensures LifeOk(Next(l, actors, h, RunAll(rc)), actors)
  {}

  lemma CallKeepsLife(l: Life, actors: seq<Actor>, h: Hooks, c: Call)
    requires LifeOk(l, actors) && (c.StartAll? ==> OutcomeOk(actors, c.o))
    ensures LifeOk(Next(l, actors, h, c), actors)
  {
    match c
    case StartAll(o) => StartKeepsLife(l, actors, h, o);
    case StopAll => StopKeepsLife(l, actors, h);
    case RunAll(rc) => RunKeepsLife(l, actors, h, rc);
  }

  ghost function Lives(actors: seq<Actor>, h: Hooks, calls: seq<Call>): (l: Life)
    requires forall i :: 0 <= i < |calls| && calls[i].StartAll? ==> OutcomeOk(actors, calls[i].o)
    ensures LifeOk(l, actors)
  {
    if calls == [] then Life(Stopped, [])
    else
      var before := Lives(actors, h, calls[..|calls| - 1]);
      CallKeepsLife(before, actors, h, calls[|calls| - 1]);
      Next(before, actors, h, calls[|calls| - 1])
  }

  /**
   * Over every sequence of calls: a generation that is followed by another one was joined by a successful
   * ipc_run_all, was stopped by ipc_stop_all if it had started, and stopped each actor it initialized exactly once.
   * So two successful starts always have a stop and a successful join between them.
   */
  lemma StartsAreSeparated(actors: seq<Actor>, h: Hooks, calls: seq<Call>, i: nat, j: nat)
    requires forall c :: 0 <= c < |calls| && calls[c].StartAll? ==> OutcomeOk(actors, calls[c].o)
    requires NoRepeats(actors) && i < j < |Lives(actors, h, calls).history|
    ensures var g := Lives(actors, h, calls).history[i];
            && g.joined && (g.succeeded ==> g.stopRequested)
            && StopsIn(g.trace) == InitsIn(g.trace) && NoRepeats(StopsIn(g.trace)) && InitsIn(g.trace) <= actors
  {
    assert Balanced(Lives(actors, h, calls).history[i], actors);
  }

  ghost predicate AllInPlace(l: Life, h: Hooks) {
    forall g :: 0 <= g < |l.history| ==> HooksInPlace(l.history[g].trace, h)
  }

  lemma CallKeepsHooks(l: Life, actors: seq<Actor>, h: Hooks, c: Call)
    requires LifeOk(l, actors) && (c.StartAll? ==> OutcomeOk(actors, c.o)) && AllInPlace(l, h)
    ensures AllInPlace(Next(l, actors, h, c), h)
  {
    match c
    case StartAll(o) => OutcomeInPlace(actors, o, h);
    case StopAll =>
      if l.phase == Running {
        TracesInPlace(actors, |actors|, h);
        InPlaceConcat(Current(l).trace, StopTrace(actors, |actors|, h), h);
      }
    case RunAll(_) =>
  }

  /** Over every sequence of calls, in every generation, every start and stop hook is called exactly where it belongs. */
  lemma {:induction false} HooksAreCalledInPlace(actors: seq<Actor>, h: Hooks, calls: seq<Call>)
    requires forall i :: 0 <= i < |calls| && calls[i].StartAll? ==> OutcomeOk(actors, calls[i].o)
    ensures AllInPlace(Lives(actors, h, calls), h)
  {
    if calls != [] {
      HooksAreCalledInPlace(actors, h, calls[..|calls| - 1]);
      CallKeepsHooks(Lives(actors, h, calls[..|calls| - 1]), actors, h, calls[|calls| - 1]);
    }
  }

  /** A start succeeds only when everything is stopped, and nothing but a successful ipc_run_all after a stop makes it so. */
  lemma OnlyJoinReopens(l: Life, actors: seq<Actor>, h: Hooks, c: Call)
    requires LifeOk(l, actors) && (c.StartAll? ==> OutcomeOk(actors, c.o))
    ensures l.phase != Stopped && Next(l, actors, h, c).phase == Stopped <==> l.phase == Stopping && c == RunAll(0)
    ensures c.StartAll? && StartRc(l, c.o) == 0 ==> l.phase == Stopped && Next(l, actors, h, c).phase == Running
  {}

  /**
   * What each call does in each phase. A start from stopped opens a generation that initialized what it could; a stop of
   * a running framework stops every actor, in list order, and asks for the join; a successful join of a stopping one
   * ends the generation; any other call changes nothing.
   */
  lemma PhaseLaw(l: Life, actors: seq<Actor>, h: Hooks, c: Call)
    requires LifeOk(l, actors) && (c.StartAll? ==> OutcomeOk(actors, c.o))
    ensures var l' := Next(l, actors, h, c);
            match c
            case StartAll(o) =>
              && (l.phase != Stopped ==> l' == l)
              && (l.phase == Stopped ==>
                    && |l'.history| == |l.history| + 1 && l'.history[..|l.history|] == l.history
                    && l'.phase == (if o.AllStart? then Running else Stopping)
                    && InitsIn(Current(l').trace) == Initialized(actors, o))
            case StopAll =>
              && (l.phase != Running ==> l' == l)
              && (l.phase == Running ==>
                    && l'.phase == Stopping && |l'.history| == |l.history|
                    && StopsIn(Current(l').trace) == actors && Current(l').stopRequested)
            case RunAll(rc) =>
              && (rc != 0 || l.phase != Stopping ==> l' == l)
              && (rc == 0 && l.phase == Stopping ==>
                    && l'.phase == Stopped && |l'.history| == |l.history| && Current(l').joined
                    && Current(l').trace == Current(l).trace)
  {
    match c
    case StartAll(o) => StartStopsWhatItInitialized(actors, o, h);
    case StopAll =>
      if l.phase == Running {
        ProjectTraces(actors, |actors|, h);
        ProjectConcat(Current(l).trace, StopTrace(actors, |actors|, h));
        assert actors[..|actors|] == actors;
      }
    case RunAll(_) =>
  }

  // ------------------------------------------------------------------ the calls in place

  /** The first actor whose port call failed decides how the start goes. */
  predicate Matches(o: Outcome, initRc: seq<int>, startRc: seq<int>)
    requires |initRc| == |startRc| && (!o.AllStart? ==> o.k < |initRc|)
  {
    match o
    case AllStart => forall i :: 0 <= i < |initRc| ==> initRc[i] == startRc[i] == 0
    case InitFails(k, rc) => initRc[k] == rc && forall i :: 0 <= i < k ==> initRc[i] == startRc[i] == 0
    case StartFails(k, rc) => initRc[k] == 0 && startRc[k] == rc && forall i :: 0 <= i < k ==> initRc[i] == startRc[i] == 0
  }

  class Framework {
    const actors: seq<Actor>   // _ipc_actor_list
    const hooks: Hooks
    var phase: Phase           // lifecycle_state
    ghost var history: seq<Generation>

    ghost predicate Valid()
      reads this
    {
      NoRepeats(actors) && LifeOk(View(), actors)
    }

    ghost function View(): Life
      reads this
    {
      Life(phase, history)
    }

    constructor (actors: seq<Actor>, hooks: Hooks)
      requires NoRepeats(actors)
      ensures Valid() && View() == Life(Stopped, []) && this.actors == actors && this.hooks == hooks
    {
      this.actors, this.hooks, phase, history := actors, hooks, Stopped, [];
    }

    /** stop_actors_through: walks the list until it has stopped `last`. */
    method StopActorsThrough(last: Actor, ghost n: nat) returns (trace: seq<Event>)
      requires NoRepeats(actors) && n < |actors| && actors[n] == last
      ensures trace == StopTrace(actors, n + 1, hooks)
    {
      trace := [];
      var i := 0;
      while i < |actors|
        invariant i <= n && trace == StopTrace(actors, i, hooks)
      {
        trace := trace + StopOne(actors[i], hooks);
        if actors[i] == last {
          assert i == n;
          return;
        }
        i := i + 1;
      }
    }

    /** The list walk of ipc_start_all_actors; `initRc[i]` and `startRc[i]` are what the port returns for the i-th actor. */
    method StartEach(initRc: seq<int>, startRc: seq<int>) returns (rc: int, outcome: Outcome, trace: seq<Event>)
      requires NoRepeats(actors) && |initRc| == |startRc| == |actors|
      ensures OutcomeOk(actors, outcome) && trace == OutcomeTrace(actors, outcome, hooks)
      ensures rc == if outcome.AllStart? then 0 else outcome.rc
      ensures Matches(outcome, initRc, startRc)
    {
      trace := [];
      var i := 0;
      while i < |actors|
        invariant i <= |actors| && trace == StartTrace(actors, i, hooks)
        invariant forall j :: 0 <= j < i ==> initRc[j] == startRc[j] == 0
      {
        if initRc[i] != 0 {
          var stops := [];
          if i > 0 { stops := StopActorsThrough(actors[i - 1], i - 1); }
          return initRc[i], InitFails(i, initRc[i]), trace + [Init(actors[i], initRc[i])] + stops;
        }
        if startRc[i] != 0 {
          var stops := StopActorsThrough(actors[i], i);
          return startRc[i], StartFails(i, startRc[i]), trace + StartOne(actors[i], startRc[i], hooks) + stops;
        }
        trace := trace + StartOne(actors[i], 0, hooks);
        i := i + 1;
      }
      return 0, AllStart, trace;
    }

    /** ipc_start_all_actors */
    method StartAllActors(initRc: seq<int>, startRc: seq<int>) returns (rc: int, outcome: Outcome)
      requires Valid() && |initRc| == |startRc| == |actors|
      modifies this
      ensures Valid() && OutcomeOk(actors, outcome)
      ensures View() == Next(old(View()), actors, hooks, StartAll(outcome)) && rc == StartRc(old(View()), outcome)
      ensures old(phase) == Stopped ==> Matches(outcome, initRc, startRc)
      ensures (old(phase) == Stopping ==> rc == -EBUSY) && (old(phase) == Running ==> rc == -EALREADY)
      ensures old(phase) == Stopped ==> (rc == 0 <==> forall i :: 0 <= i < |actors| ==> initRc[i] == startRc[i] == 0)
    {
      outcome := AllStart;
      if phase != Stopped {
        return if phase == Stopping then -EBUSY else -EALREADY, outcome;
      }
      phase := Running;
      var trace;
      rc, outcome, trace := StartEach(initRc, startRc);
      CallKeepsLife(old(View()), actors, hooks, StartAll(outcome));
      history := history + [Generation(trace, rc == 0, false, false)];
      if rc != 0 { phase := Stopping; }
    }

    /** ipc_run_all, given what ipc_port_run_all returns. */
    method RunAllActors(portRc: int) returns (rc: int)
      requires Valid()
      modifies this
      ensures Valid() && View() == Next(old(View()), actors, hooks, RunAll(portRc)) && rc == portRc
    {
      CallKeepsLife(View(), actors, hooks, RunAll(portRc));
      if portRc == 0 && phase == Stopping {
        history := history[|history| - 1 := history[|history| - 1].(joined := true)];
        phase := Stopped;
      }
      return portRc;
    }

    /** The list walk of ipc_stop_all. */
    method StopEach() returns (trace: seq<Event>)
      ensures trace == StopTrace(actors, |actors|, hooks)
    {
      trace := [];
      var i := 0;
      while i < |actors|
        invariant i <= |actors| && trace == StopTrace(actors, i, hooks)
      {
        trace := trace + StopOne(actors[i], hooks);
        i := i + 1;
      }
    }

    /** ipc_stop_all */
    method StopAllActors()
      requires Valid()
      modifies this
      ensures Valid() && View() == Next(old(View()), actors, hooks, StopAll)
    {
      CallKeepsLife(View(), actors, hooks, StopAll);
      if phase != Running { return; }
      phase := Stopping;
      var trace := StopEach();
      ghost var g := history[|history| - 1];
      history := history[|history| - 1 := g.(trace := g.trace + trace, stopRequested := true)];
    }
  }
}

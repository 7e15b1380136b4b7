/**
 * Turns of the pump as lock-granular runs: the message is taken and claimed, the callback of the ask it ends is called, or
 * else its handler, and then come the runs of exactly the calls that callback or handler makes.
 */
module PumpRefinement {
  import opened Types
  import opened Mailbox
  import opened AskTable
  import opened Registry
  import opened Core
  import opened CoreDrain
  import opened CallLaws
  import opened CoreSystem
  import opened Steps
  import opened Refinement
  import I = Interleaving

  // ------------------------------------------------------------------ whose calls a turn makes

  /** The oldest message of `a` ends no ask. */
  predicate EndsNothing(w: World, a: Actor)
    requires Ready(w, a)
  {
    forall i :: 0 <= i < |w.table| ==> !Ends(w.table, i, a, w.actors[a].box.queue[0].header)
  }

  /** Two scripts do the same for the callback of the ask this message ends, or for the handler if it ends none. */
  ghost predicate AgreeOnTurn(w: World, a: Actor, n: nat, h: Script, g: Script)
    requires Ready(w, a)
  {
    var m := w.actors[a].box.queue[0];
    && (forall i :: 0 <= i < |w.table| && Ends(w.table, i, a, m.header) ==> h(n, a, m, w.table[i].callback) == g(n, a, m, w.table[i].callback))
    && (EndsNothing(w, a) ==> h(n, a, m, NULL) == g(n, a, m, NULL))
  }

  /** A turn depends on the calls of that callback or handler, and of no other. */
  lemma TurnDependsOnItsCallbackOnly(w: World, a: Actor, n: nat, h: Script, g: Script)
    requires Good(w) && Ready(w, a) && ScriptOk(w.actors.Keys, h) && ScriptOk(w.actors.Keys, g) && AgreeOnTurn(w, a, n, h, g)
    ensures Turn(w, a, n, h) == Turn(w, a, n, g)
  {
    DispatchLaw(w, a);
    var m := w.actors[a].box.queue[0];
    if i :| 0 <= i < |w.table| && Ends(w.table, i, a, m.header) {
      assert Dispatch(w, a).2 == w.table[i].callback;
    } else {
      assert EndsNothing(w, a);
    }
  }

  // ------------------------------------------------------------------ the calls of a handler

  /** One call: its world, and a run of its own from `s` to `s'`. */
  ghost predicate Performed(c: Call, w: World, w': World, run: seq<I.Action>, s: I.Sys, s': I.Sys) {
    WorldOk(w) && CallOk(w.actors.Keys, c) && w' == Exec(w, c).world && Finished(s, run, s', w')
  }

  /** From `w` and `s`, the calls, one after the other, lead by this run to `w'` and `s'`. */
  ghost predicate CallsRun(calls: seq<Call>, w: World, s: I.Sys, run: seq<I.Action>, s': I.Sys, w': World)
    decreases |calls|
  {
    if calls == [] then run == [] && s' == s && w' == w
    else
      exists first, rest, s1, w1 :: (Performed(calls[0], w, w1, first, s, s1)
        && CallsRun(calls[1..], w1, s1, rest, s', w') && run == first + rest)
  }

  lemma {:induction false} LeadsCompose(s0: I.Sys, p: seq<I.Action>, s1: I.Sys, q: seq<I.Action>, s2: I.Sys)
    requires Leads(s0, p, s1) && Leads(s1, q, s2)
    ensures Leads(s0, p + q, s2)
    decreases |q|
  {
    if q == [] {
      assert p + q == p;
    } else {
      var n := |q| - 1;
      LeadsCompose(s0, p, s1, q[..n], I.After(s1, q[..n]));
      assert (p + q)[..|p + q| - 1] == p + q[..n];
    }
  }

  lemma {:induction false} CallsAreARun(w: World, calls: seq<Call>, s: I.Sys, t: nat) returns (run: seq<I.Action>, s': I.Sys)
    requires Good(w) && CallsOk(w.actors.Keys, calls) && I.Sized(s) && Same(w, s) && t !in s.ops
    ensures CallsRun(calls, w, s, run, s', Perform(w, calls)) && Finished(s, run, s', Perform(w, calls))
    decreases |calls|
  {
    if calls == [] {
      Nothing(s, w);
      run, s' := [], s;
    } else {
      var w1 := Exec(w, calls[0]).world;
      var first, s1 := CallIsARun(w, calls[0], s, t);
      CallStaysGood(w, calls[0]);
      var rest;
      rest, s' := CallsAreARun(w1, calls[1..], s1, t);
      run := first + rest;
      LeadsCompose(s, first, s1, rest, s');
      assert Performed(calls[0], w, w1, first, s, s1);
    }
  }

  // ------------------------------------------------------------------ turns

  /** The message was taken, it ended the ask in slot `i`, and that ask's callback was called on it. */
  ghost predicate CalledBack(w: World, a: Actor, i: nat, t: nat, s: I.Sys, mid: I.Sys)
    requires Ready(w, a) && i < |w.table|
  {
    && Leads(s, [I.Dequeue(t, a), I.ClaimMessage(t), I.RunCallback(t)], mid) && mid.ops == s.ops
    && i < |s.led.holder| && |mid.runs| == |s.runs| + 1 && mid.runs[..|s.runs|] == s.runs
    && var r := mid.runs[|s.runs|];
       r == I.Run(s.led.holder[i], w.table[i].callback, a, r.mail) && r.mail.msg == w.actors[a].box.queue[0]
  }

  /** The message was taken, it ended no ask, and its handler has it. */
  ghost predicate HandedOver(w: World, a: Actor, t: nat, s: I.Sys, mid: I.Sys)
    requires Ready(w, a)
  {
    && Leads(s, [I.Dequeue(t, a), I.ClaimMessage(t)], mid) && mid.runs == s.runs
    && t in mid.ops && mid.ops == s.ops[t := mid.ops[t]]
    && mid.ops[t].Handling? && mid.ops[t].self == a && mid.ops[t].mail.msg == w.actors[a].box.queue[0]
  }

  /** The turn ends the ask in slot `i`: its callback is called, and then come exactly the calls this callback makes. */
  ghost predicate CallbackTurn(w: World, a: Actor, n: nat, h: Script, i: nat, t: nat, s: I.Sys, run: seq<I.Action>, s': I.Sys, w': World)
    requires Ready(w, a) && i < |w.table|
  {
    exists mid, calls :: (CallsRun(h(n, a, w.actors[a].box.queue[0], w.table[i].callback),
                                   WithSlot(WithoutHead(w, a), i, CLEARED), mid, calls, s', w')
      && CalledBack(w, a, i, t, s, mid)
      && run == [I.Dequeue(t, a), I.ClaimMessage(t), I.RunCallback(t)] + calls && s'.runs == mid.runs)
  }

  /** The turn ends no ask: its handler makes exactly the calls of its own, while it holds the message, and returns. */
  ghost predicate HandlerTurn(w: World, a: Actor, n: nat, h: Script, t: nat, s: I.Sys, run: seq<I.Action>, s': I.Sys, w': World)
    requires Ready(w, a)
  {
    exists mid, calls, last :: (CallsRun(h(n, a, w.actors[a].box.queue[0], NULL), WithoutHead(w, a), mid, calls, last, w')
      && HandedOver(w, a, t, s, mid)
      && run == [I.Dequeue(t, a), I.ClaimMessage(t)] + calls + [I.HandlerReturns(t)] && s'.runs == s.runs)
  }

  /** What a whole turn is, at lock granularity. */
  ghost predicate TurnRun(w: World, a: Actor, n: nat, h: Script, t: nat, s: I.Sys, run: seq<I.Action>, s': I.Sys, w': World)
    requires Ready(w, a)
  {
    && Leads(s, run, s') && Same(w', s') && s'.ops == s.ops
    && (forall i :: 0 <= i < |w.table| && Ends(w.table, i, a, w.actors[a].box.queue[0].header) ==>
          CallbackTurn(w, a, n, h, i, t, s, run, s', w'))
    && (EndsNothing(w, a) ==> HandlerTurn(w, a, n, h, t, s, run, s', w'))
  }

  /** Every turn is a run of lock-granular steps; `t` and `u` are operations not in use. */
  lemma TurnIsARun(w: World, a: Actor, n: nat, h: Script, s: I.Sys, t: nat, u: nat) returns (run: seq<I.Action>, s': I.Sys)
    requires Good(w) && Ready(w, a) && ScriptOk(w.actors.Keys, h) && I.Sized(s) && Same(w, s)
    requires t !in s.ops && u !in s.ops && t != u
    ensures TurnRun(w, a, n, h, t, s, run, s', Turn(w, a, n, h))
  {
    if i :| 0 <= i < |w.table| && Ends(w.table, i, a, w.actors[a].box.queue[0].header) {
      run, s' := CallbackTurnIsARun(w, a, n, h, i, s, t);
      forall j | 0 <= j < |w.table| && Ends(w.table, j, a, w.actors[a].box.queue[0].header)
        ensures j == i
      {
        FindUnique(w.table, i);
        FindUnique(w.table, j);
      }
    } else {
      assert EndsNothing(w, a);
      run, s' := HandlerTurnIsARun(w, a, n, h, s, t, u);
    }
  }

  lemma CallbackTurnIsARun(w: World, a: Actor, n: nat, h: Script, i: nat, s: I.Sys, t: nat) returns (run: seq<I.Action>, s': I.Sys)
    requires Good(w) && Ready(w, a) && ScriptOk(w.actors.Keys, h) && I.Sized(s) && Same(w, s) && t !in s.ops
    requires i < |w.table| && Ends(w.table, i, a, w.actors[a].box.queue[0].header)
    ensures Leads(s, run, s') && Same(Turn(w, a, n, h), s') && s'.ops == s.ops
    ensures CallbackTurn(w, a, n, h, i, t, s, run, s', Turn(w, a, n, h))
  {
    DispatchLaw(w, a);
    DispatchStaysGood(w, a);
    FindUnique(w.table, i);
    var w1 := WithSlot(WithoutHead(w, a), i, CLEARED);
    var pre, mid := DispatchIsARun(w, a, s, t);
    assert CalledBack(w, a, i, t, s, mid);
    var calls;
    calls, s' := CallsAreARun(w1, h(n, a, w.actors[a].box.queue[0], w.table[i].callback), mid, t);
    LeadsCompose(s, pre, mid, calls, s');
    run := pre + calls;
  }

  lemma HandOverIsARun(w: World, a: Actor, s: I.Sys, t: nat) returns (run: seq<I.Action>, mid: I.Sys)
    requires Good(w) && Ready(w, a) && I.Sized(s) && Same(w, s) && t !in s.ops && EndsNothing(w, a)
    ensures HandedOver(w, a, t, s, mid) && run == [I.Dequeue(t, a), I.ClaimMessage(t)]
    ensures I.Sized(mid) && Same(WithoutHead(w, a), mid)
  {
    DispatchLaw(w, a);
    run, mid := TakeAndClaim(w, a, s, t);
  }

  lemma HandlerTurnIsARun(w: World, a: Actor, n: nat, h: Script, s: I.Sys, t: nat, u: nat) returns (run: seq<I.Action>, s': I.Sys)
    requires Good(w) && Ready(w, a) && ScriptOk(w.actors.Keys, h) && I.Sized(s) && Same(w, s)
    requires t !in s.ops && u !in s.ops && t != u && EndsNothing(w, a)
    ensures Leads(s, run, s') && Same(Turn(w, a, n, h), s') && s'.ops == s.ops
    ensures HandlerTurn(w, a, n, h, t, s, run, s', Turn(w, a, n, h))
  {
    DispatchLaw(w, a);
    DispatchStaysGood(w, a);
    var pre, mid := HandOverIsARun(w, a, s, t);
    var calls, last := CallsAreARun(WithoutHead(w, a), h(n, a, w.actors[a].box.queue[0], NULL), mid, u);
    LeadsCompose(s, pre, mid, calls, last);
    s' := StepReturn(s, pre + calls, last, t);
    RemoveFresh(s.ops, t, mid.ops[t]);
    run := pre + calls + [I.HandlerReturns(t)];
  }

  // ------------------------------------------------------------------ the pump

  /** From `w` and `s`, the turns of the trace, one after the other, lead by this run to `w'` and `s'`. */
  ghost predicate PumpRun(w: World, trace: seq<Actor>, h: Script, t: nat, s: I.Sys, run: seq<I.Action>, s': I.Sys, w': World)
    decreases |trace|
  {
    if trace == [] then run == [] && s' == s && w' == w
    else
      var n := |trace| - 1;
      exists before, last, mid, w1 :: (PumpRun(w, trace[..n], h, t, s, before, mid, w1)
        && Ready(w1, trace[n]) && TurnRun(w1, trace[n], n, h, t, mid, last, s', w') && run == before + last)
  }

  /** The last turn of a trace. */
  lemma LastTurn(w: World, trace: seq<Actor>, h: Script)
    requires Good(w) && ScriptOk(w.actors.Keys, h) && Turns(w, trace, h).Some? && trace != []
    ensures var n := |trace| - 1;
            && Turns(w, trace[..n], h).Some?
            && var before := Turns(w, trace[..n], h).value;
               && Good(before) && ScriptOk(before.actors.Keys, h) && Ready(before, trace[n])
               && Turns(w, trace, h) == Some(Turn(before, trace[n], n, h))
  {}

  /**
   * Whatever the pump did, it did by lock-granular steps: its turns, in order, each with the callback of the ask it
   * completed, called once on the completing message, and with exactly the calls that callback or handler makes.
   */
  lemma {:induction false} PumpIsARun(w: World, trace: seq<Actor>, h: Script, s: I.Sys, t: nat, u: nat)
    returns (run: seq<I.Action>, s': I.Sys)
    requires Good(w) && ScriptOk(w.actors.Keys, h) && Turns(w, trace, h).Some? && I.Sized(s) && Same(w, s)
    requires t !in s.ops && u !in s.ops && t != u
    ensures PumpRun(w, trace, h, t, s, run, s', Turns(w, trace, h).value)
    ensures Leads(s, run, s') && Same(Turns(w, trace, h).value, s') && s'.ops == s.ops
    decreases |trace|
  {
    if trace == [] {
      run, s' := [], s;
      assert Leads(s, [], s);
    } else {
      var n := |trace| - 1;
      LastTurn(w, trace, h);
      var w1 := Turns(w, trace[..n], h).value;
      var before, mid := PumpIsARun(w, trace[..n], h, s, t, u);
      var last;
      last, s' := TurnIsARun(w1, trace[n], n, h, mid, t, u);
      LeadsCompose(s, before, mid, last, s');
      run := before + last;
    }
  }
}

/**
 * What becomes of an ask that dispatch completed: its callback is called, exactly once. For an ask that failed this says
 * when its callback runs all the same.
 */
module Callbacks {
  import opened Types
  import opened AskTable
  import opened Interleaving
  import opened AtMostOnce

  /** The callback of ask `k` is about to be called. */
  ghost predicate CallPending(s: Sys, k: nat) {
    exists t :: t in s.ops && s.ops[t].Calling? && s.ops[t].ask == k
  }

  ghost predicate Called(s: Sys, k: nat) {
    exists r :: 0 <= r < |s.runs| && s.runs[r].ask == k
  }

  /** Dispatch took ask `k` out of the table. */
  ghost predicate ClaimedByDispatch(l: Ledger, k: nat) {
    exists r :: 0 <= r < |l.retired| && l.retired[r].ask == k && l.retired[r].cause == ByCallback
  }

  ghost predicate ClaimsAreCalled(s: Sys) {
    forall k :: ClaimedByDispatch(s.led, k) ==> CallPending(s, k) || Called(s, k)
  }

  /** An operation that begins an ask, or undoes it, carries the id that ask was given. */
  ghost predicate AskTagged(l: Ledger, op: Op) {
    match op
    case Arming(m) => m.ask < |l.asks| && l.asks[m.ask].askId == m.msg.header.askId
    case Posting(m) => m.ask < |l.asks| && l.asks[m.ask].askId == m.msg.header.askId
    case AskUndo(k, id) => k < |l.asks| && l.asks[k].askId == id
    case _ => true
  }

  ghost predicate AsksTagged(s: Sys) {
    forall t :: t in s.ops ==> AskTagged(s.led, s.ops[t])
  }

  // ------------------------------------------------------------------ steps

  /** Nothing about to call a callback goes away, and none was called. */
  ghost predicate KeepsCalls(s: Sys, s': Sys) {
    s'.runs == s.runs && forall t :: t in s.ops && s.ops[t].Calling? ==> t in s'.ops && s'.ops[t] == s.ops[t]
  }

  lemma QuietStepIsCalled(s: Sys, s': Sys)
    requires ClaimsAreCalled(s) && KeepsCalls(s, s')
    requires forall k :: ClaimedByDispatch(s'.led, k) ==> ClaimedByDispatch(s.led, k) || CallPending(s', k)
    ensures ClaimsAreCalled(s')
  {
    forall k | ClaimedByDispatch(s'.led, k)
      ensures CallPending(s', k) || Called(s', k)
    {
      if ClaimedByDispatch(s.led, k) && CallPending(s, k) {
        var t :| t in s.ops && s.ops[t].Calling? && s.ops[t].ask == k;
        assert s'.ops[t] == s.ops[t];
      } else if ClaimedByDispatch(s.led, k) {
        var r :| 0 <= r < |s.runs| && s.runs[r].ask == k;
        assert s'.runs[r].ask == k;
      }
    }
  }

  /** Only the dispatcher's section adds to what dispatch claimed. */
  lemma OnlyDispatchClaims(s: Sys, a: Action, k: nat)
    requires LedgerOk(s.led) && !a.ClaimMessage? && ClaimedByDispatch(Next(s, a).led, k)
    ensures ClaimedByDispatch(s.led, k)
  {
    var m := StepMoves(s, a);
    var l' := Moved(s.led, m);
    var r :| 0 <= r < |l'.retired| && l'.retired[r].ask == k && l'.retired[r].cause == ByCallback;
    assert s.led.retired[r] == l'.retired[r];
  }

  lemma ClaimIsCalled(s: Sys, t: nat)
    requires LedgerOk(s.led) && ClaimsAreCalled(s) && t in s.ops && s.ops[t].Dequeued?
    ensures ClaimsAreCalled(DoClaimMessage(s, t))
  {
    var s' := DoClaimMessage(s, t);
    forall k | ClaimedByDispatch(s'.led, k)
      ensures ClaimedByDispatch(s.led, k) || CallPending(s', k)
    {
      var r :| 0 <= r < |s'.led.retired| && s'.led.retired[r].ask == k && s'.led.retired[r].cause == ByCallback;
      if r < |s.led.retired| {
        assert s.led.retired[r] == s'.led.retired[r];
      } else {
        assert s'.ops[t].Calling? && s'.ops[t].ask == k;
      }
    }
    QuietStepIsCalled(s, s');
  }

  lemma RunIsCalled(s: Sys, t: nat)
    requires LedgerOk(s.led) && ClaimsAreCalled(s)
    ensures ClaimsAreCalled(Next(s, RunCallback(t)))
  {
    var s' := Next(s, RunCallback(t));
    forall k | ClaimedByDispatch(s'.led, k)
      ensures CallPending(s', k) || Called(s', k)
    {
      assert ClaimedByDispatch(s.led, k);
      if CallPending(s, k) {
        var u :| u in s.ops && s.ops[u].Calling? && s.ops[u].ask == k;
        if u == t { assert s'.runs[|s.runs|].ask == k; } else { assert s'.ops[u] == s.ops[u]; }
      } else {
        var r :| 0 <= r < |s.runs| && s.runs[r].ask == k;
        assert s'.runs[r].ask == k;
      }
    }
  }

  lemma StepIsCalled(s: Sys, a: Action)
    requires LedgerOk(s.led) && ClaimsAreCalled(s)
    ensures ClaimsAreCalled(Next(s, a))
  {
    if a.RunCallback? {
      RunIsCalled(s, a.t);
    } else if a.ClaimMessage? {
      if a.t in s.ops && s.ops[a.t].Dequeued? { ClaimIsCalled(s, a.t); }
    } else {
      OnlyClaimsCall(s, a);
      forall k | ClaimedByDispatch(Next(s, a).led, k)
        ensures ClaimedByDispatch(s.led, k)
      {
        OnlyDispatchClaims(s, a, k);
      }
      QuietStepIsCalled(s, Next(s, a));
    }
  }

  /** Every operation of `s'` is one of `s`, or carries the id its ask was given. */
  ghost predicate OpsTagged(s: Sys, s': Sys) {
    forall t :: t in s'.ops ==> (t in s.ops && s.ops[t] == s'.ops[t]) || AskTagged(s.led, s'.ops[t])
  }

  lemma ContinuingTagged(s: Sys, a: Action)
    requires Sized(s) && AsksTagged(s)
    requires a.Arm? || a.PostRequest? || a.UndoAsk? || a.SendAnswer? || a.UndoAnswer? || a.PostExpiry? || a.UndoExpiry?
          || a.ClaimMessage? || a.RunCallback? || a.HandlerReturns?
    ensures a.t in s.ops ==> OpsTagged(s, Continue(s, a))
  {
    if a.t in s.ops { assert AskTagged(s.led, s.ops[a.t]); }
  }

  /** Operations that begin or undo an ask stem from its reservation or go on for the same ask. */
  lemma NewOpsTagged(s: Sys, a: Action)
    requires Sized(s) && AsksTagged(s) && !a.BeginAsk?
    ensures OpsTagged(s, Next(s, a))
  {
    match a
    case BeginReply(_, _, _, _, _, _, _) =>
    case BeginError(_, _, _, _, _) =>
    case BeginExpiry(_, _, _, _) =>
    case CancelPending(_, _, _) =>
    case SendPlain(_, _) =>
    case Dequeue(_, _) =>
    case Forget(_) =>
    case Purge(_) =>
    case _ => ContinuingTagged(s, a);
  }

  lemma ReservationTagged(s: Sys, a: Action)
    requires Sized(s) && AsksTagged(s) && a.BeginAsk?
    ensures AsksTagged(DoBeginAsk(s, a))
  {}

  lemma StepKeepsTagged(s: Sys, a: Action)
    requires LedgerOk(s.led) && AsksTagged(s)
    ensures AsksTagged(Next(s, a))
  {
    if a.BeginAsk? {
      ReservationTagged(s, a);
    } else {
      StepKeepsLedger(s, a);
      NewOpsTagged(s, a);
    }
  }

  lemma {:induction false} RunIsTracked(s: Sys, actions: seq<Action>)
    requires Safe(s) && ClaimsAreCalled(s) && AsksTagged(s)
    ensures ClaimsAreCalled(After(s, actions)) && AsksTagged(After(s, actions))
    decreases |actions|
  {
    if actions != [] {
      var n := |actions| - 1;
      RunIsTracked(s, actions[..n]);
      RunIsSafe(s, actions[..n]);
      StepIsCalled(After(s, actions[..n]), actions[n]);
      StepKeepsTagged(After(s, actions[..n]), actions[n]);
    }
  }

  // ------------------------------------------------------------------ exactly once

  lemma CalledWasClaimed(s: Sys, k: nat)
    requires Safe(s) && (CallPending(s, k) || Called(s, k))
    ensures ClaimedByDispatch(s.led, k)
  {
    if CallPending(s, k) {
      var t :| t in s.ops && s.ops[t].Calling? && s.ops[t].ask == k;
      assert Retirement(k, ByCallback, s.ops[t].self, s.ops[t].mail.ask) in s.led.retired;
    } else {
      var r :| 0 <= r < |s.runs| && s.runs[r].ask == k;
      assert Completed(s.led, k, s.runs[r].callback, s.runs[r].self, s.runs[r].mail);
    }
  }

  /**
   * Exactly once, over every interleaving from an empty table: dispatch took an ask out if and only if its callback was
   * called or is about to be, and never both; once nothing is about to be called, the asks dispatch took out are exactly
   * those whose callback ran, once each.
   */
  lemma DispatchedAsksAreCalledOnce(n: nat, next: Uint32, actions: seq<Action>, k: nat)
    requires n <= MAX_SLOTS
    ensures Safe(Start(n, next))
    ensures var s := After(Start(n, next), actions);
            && (ClaimedByDispatch(s.led, k) <==> CallPending(s, k) || Called(s, k))
            && !(CallPending(s, k) && Called(s, k))
            && (forall q, r :: 0 <= q < r < |s.runs| ==> s.runs[q].ask != s.runs[r].ask)
  {
    StartIsSafe(n, next);
    RunIsTracked(Start(n, next), actions);
    RunIsSafe(Start(n, next), actions);
    var s := After(Start(n, next), actions);
    if CallPending(s, k) || Called(s, k) { CalledWasClaimed(s, k); }
    CalledOnce(s, k);
  }

  lemma CalledOnce(s: Sys, k: nat)
    requires Safe(s)
    ensures !(CallPending(s, k) && Called(s, k))
  {}

  // ------------------------------------------------------------------ asks that fail

  /** The clean-up of a failed ask takes it out, unless it is out already, and adds nothing to what dispatch claimed. */
  lemma CleanUpRetires(s: Sys, t: nat)
    requires Safe(s) && AsksTagged(s) && t in s.ops && s.ops[t].AskUndo?
    ensures var k, l' := s.ops[t].ask, Next(s, UndoAsk(t)).led;
            k < |s.led.asks| && LedgerOk(l') && Retired(l', k) && (ClaimedByDispatch(l', k) <==> ClaimedByDispatch(s.led, k))
  {
    var k, l' := s.ops[t].ask, Next(s, UndoAsk(t)).led;
    assert AskTagged(s.led, s.ops[t]);
    StepKeepsLedger(s, UndoAsk(t));
    if ClaimedByDispatch(l', k) { OnlyDispatchClaims(s, UndoAsk(t), k); }
    if ClaimedByDispatch(s.led, k) {
      var r :| 0 <= r < |s.led.retired| && s.led.retired[r].ask == k && s.led.retired[r].cause == ByCallback;
      assert l'.retired[r] == s.led.retired[r];
    }
    FailedAskIsNotPending(s, t);
    assert Live(l', k) || Retired(l', k);
    if Live(l', k) { LiveAskIsCarried(l', k); }
  }

  lemma LiveAskIsCarried(l: Ledger, k: nat)
    requires LedgerOk(l) && Live(l, k)
    ensures k < |l.asks| && exists i :: 0 <= i < |l.table| && Carries(l.table[i], l.asks[k].askId)
  {
    var i :| 0 <= i < |l.table| && l.table[i].used && l.holder[i] == k;
    assert Carries(l.table[i], l.asks[k].askId);
  }

  /** A retired ask's cause does not change. */
  lemma CauseStays(s: Sys, actions: seq<Action>, k: nat)
    requires Safe(s) && Retired(s.led, k)
    ensures ClaimedByDispatch(After(s, actions).led, k) <==> ClaimedByDispatch(s.led, k)
  {
    HistoryOnlyGrows(s, actions);
    RunIsSafe(s, actions);
    var l, l' := s.led, After(s, actions).led;
    var p :| 0 <= p < |l.retired| && l.retired[p].ask == k;
    assert l'.retired[p] == l.retired[p];
    if ClaimedByDispatch(l', k) {
      var r :| 0 <= r < |l'.retired| && l'.retired[r].ask == k && l'.retired[r].cause == ByCallback;
      assert r == p;
    }
  }

  /**
   * When the callback of a failed ask runs: whatever happens before and after, an ask whose call is about to clean up and
   * return its error has its callback called if and only if dispatch had taken the ask out before that clean-up.
   */
  lemma FailedAskIsCalledIffClaimedBefore(n: nat, next: Uint32, before: seq<Action>, t: nat, later: seq<Action>)
    requires n <= MAX_SLOTS
    ensures Safe(Start(n, next))
    ensures var s := After(Start(n, next), before);
            t in s.ops && s.ops[t].AskUndo? ==>
              var k, s1 := s.ops[t].ask, Next(s, UndoAsk(t));
              && k < |s.led.asks| && Safe(s1) && Retired(s1.led, k)
              && (CallPending(After(s1, later), k) || Called(After(s1, later), k) <==> ClaimedByDispatch(s.led, k))
  {
    StartIsSafe(n, next);
    RunIsTracked(Start(n, next), before);
    RunIsSafe(Start(n, next), before);
    var s := After(Start(n, next), before);
    if t in s.ops && s.ops[t].AskUndo? {
      FailedAskCallback(s, t, later);
    }
  }

  lemma FailedAskCallback(s: Sys, t: nat, later: seq<Action>)
    requires Safe(s) && ClaimsAreCalled(s) && AsksTagged(s) && t in s.ops && s.ops[t].AskUndo?
    ensures var k, s1 := s.ops[t].ask, Next(s, UndoAsk(t));
            && k < |s.led.asks| && Safe(s1) && Retired(s1.led, k)
            && (CallPending(After(s1, later), k) || Called(After(s1, later), k) <==> ClaimedByDispatch(s.led, k))
  {
    var k, s1 := s.ops[t].ask, Next(s, UndoAsk(t));
    StepKeepsLedger(s, UndoAsk(t));
    StepKeepsRuns(s, UndoAsk(t));
    StepIsCalled(s, UndoAsk(t));
    StepKeepsTagged(s, UndoAsk(t));
    CleanUpRetires(s, t);
    CauseStays(s1, later, k);
    RunIsTracked(s1, later);
    RunIsSafe(s1, later);
    var s2 := After(s1, later);
    if CallPending(s2, k) || Called(s2, k) { CalledWasClaimed(s2, k); }
  }
}

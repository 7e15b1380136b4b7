/**
 * How many answers one ask can get, over every interleaving: a second one is accepted only after a timeout that could not
 * be posted was rolled back on the answered ask, and then it can be.
 */
module SingleReply {
  import opened Types
  import opened AskTable
  import opened Interleaving
  import opened AtMostOnce
  import opened Steps

  /** The step rolls back a timeout of ask `k`: the ask counts as unanswered again. */
  ghost predicate RollsBack(s: Sys, a: Action, k: nat)
    requires Sized(s)
  {
    && a.UndoExpiry? && a.t in s.ops && s.ops[a.t].ExpiryUndo?
    && var i := Find(s.led.table, s.ops[a.t].askId);
       i < |s.led.table| && RollsBackSlot(s, a, i) && s.led.holder[i] == k
  }

  /** A reply or error reply was accepted for ask `k`. */
  ghost predicate Answered(l: Ledger, k: nat) {
    exists x :: 0 <= x < |l.accepted| && l.accepted[x].ask == k
  }

  /** The step rolls back a timeout of an ask that already has its answer. */
  ghost predicate Reopens(s: Sys, a: Action, k: nat)
    requires Sized(s)
  {
    RollsBack(s, a, k) && Answered(s.led, k)
  }

  ghost predicate AnsweredOnce(l: Ledger, k: nat) {
    forall x, y :: 0 <= x < y < |l.accepted| ==> !(l.accepted[x].ask == k && l.accepted[y].ask == k)
  }

  /** Ask `k` has its reply, its error or its timeout, or is gone. */
  ghost predicate Closed(l: Ledger, k: nat)
    requires |l.table| == |l.holder|
  {
    k < |l.asks| && forall i :: 0 <= i < |l.table| && l.table[i].used && l.holder[i] == k ==> l.table[i].replySent
  }

  ghost predicate SingleOk(l: Ledger, k: nat)
    requires |l.table| == |l.holder|
  {
    AnsweredOnce(l, k) && (Answered(l, k) ==> Closed(l, k))
  }

  // ------------------------------------------------------------------ at most one answer, unless reopened

  lemma MoveKeepsSingle(l: Ledger, m: Move, k: nat)
    requires LedgerOk(l) && SingleOk(l, k) && MoveOk(l, m)
    requires m.Mark? && !m.replySent && l.holder[m.i] == k ==> !Answered(l, k)
    ensures |Moved(l, m).table| == |Moved(l, m).holder| && SingleOk(Moved(l, m), k)
  {
    var l' := Moved(l, m);
    if Answered(l', k) && !m.Take? {
      var x :| 0 <= x < |l'.accepted| && l'.accepted[x].ask == k;
      assert l.accepted[x].ask == k;
    }
    if m.Take? && l.holder[m.i] == k {
      assert !Answered(l, k);
    } else if m.Take? && Answered(l', k) {
      var x :| 0 <= x < |l'.accepted| && l'.accepted[x].ask == k;
      assert l.accepted[x].ask == k;
    }
  }

  lemma StepKeepsSingle(s: Sys, a: Action, k: nat)
    requires LedgerOk(s.led) && SingleOk(s.led, k) && !Reopens(s, a, k)
    ensures |Next(s, a).led.table| == |Next(s, a).led.holder| && SingleOk(Next(s, a).led, k)
  {
    var m := StepMoves(s, a);
    MoveKeepsSingle(s.led, m, k);
  }

  /** The `j`-th step of the run reopens ask `k`. */
  ghost predicate ReopenedAt(s0: Sys, actions: seq<Action>, j: nat, k: nat)
    requires Sized(s0) && j < |actions|
  {
    Reopens(After(s0, actions[..j]), actions[j], k)
  }

  ghost predicate NeverReopened(s0: Sys, actions: seq<Action>, k: nat)
    requires Sized(s0)
  {
    forall j :: 0 <= j < |actions| ==> !ReopenedAt(s0, actions, j, k)
  }

  lemma PrefixNeverReopened(s: Sys, actions: seq<Action>, n: nat, k: nat)
    requires Sized(s) && NeverReopened(s, actions, k) && n <= |actions|
    ensures NeverReopened(s, actions[..n], k)
  {
    forall j | 0 <= j < n
      ensures !ReopenedAt(s, actions[..n], j, k)
    {
      assert actions[..n][..j] == actions[..j];
      assert !ReopenedAt(s, actions, j, k);
    }
  }

  lemma {:induction false} UnlessReopened(s: Sys, actions: seq<Action>, k: nat)
    requires Safe(s) && SingleOk(s.led, k) && NeverReopened(s, actions, k)
    ensures SingleOk(After(s, actions).led, k)
    decreases |actions|
  {
    if actions != [] {
      var n := |actions| - 1;
      PrefixNeverReopened(s, actions, n, k);
      UnlessReopened(s, actions[..n], k);
      assert !ReopenedAt(s, actions, n, k);
      RunIsSafe(s, actions[..n]);
      StepKeepsSingle(After(s, actions[..n]), actions[n], k);
    }
  }

  /**
   * Single reply, ask by ask: from an empty table, over every interleaving, a second reply or error reply was accepted for
   * an ask only if some step of the run reopened that very ask.
   */
  lemma AtMostOneAnswer(n: nat, next: Uint32, actions: seq<Action>, k: nat)
    requires n <= MAX_SLOTS
    ensures Safe(Start(n, next))
    ensures !AnsweredOnce(After(Start(n, next), actions).led, k) ==>
              exists j :: 0 <= j < |actions| && ReopenedAt(Start(n, next), actions, j, k)
  {
    StartIsSafe(n, next);
    if NeverReopened(Start(n, next), actions, k) {
      UnlessReopened(Start(n, next), actions, k);
    }
  }

  // ------------------------------------------------------------------ a reopened ask takes another answer

  lemma ReplyTaken(s0: Sys, actions: seq<Action>, s: Sys, i: nat, t: nat) returns (s': Sys)
    requires Leads(s0, actions, s) && TableOk(s.led.table) && i < |s.led.table| && t !in s.ops
    requires s.led.table[i].used && !s.led.table[i].replySent
    ensures var r, k := s.led.table[i], s.led.holder[i];
            && Leads(s0, actions + [BeginReply(t, k, r.askId, r.replyId, r.replyId, [], true)], s')
            && s'.led.table == s.led.table[i := r.(replySent := true)] && s'.led.holder == s.led.holder
            && s'.led.accepted == s.led.accepted + [Acceptance(k, k, Header(r.replyId, Cmd, 0, r.askId, 0, 0), [])]
            && s'.ops.Keys == s.ops.Keys + {t} && (forall u :: u in s.ops ==> s'.ops[u] == s.ops[u])
            && s'.timers == s.timers
  {
    var r, k := s.led.table[i], s.led.holder[i];
    FindUnique(s.led.table, i);
    s' := StepReply(s0, actions, s, BeginReply(t, k, r.askId, r.replyId, r.replyId, [], true));
  }

  lemma RolledBack(s0: Sys, actions: seq<Action>, s: Sys, i: nat, t: nat) returns (s': Sys)
    requires Leads(s0, actions, s) && TableOk(s.led.table) && i < |s.led.table| && s.led.table[i].used && RollsBackSlot(s, UndoExpiry(t), i)
    ensures Leads(s0, actions + [UndoExpiry(t)], s')
    ensures s' == s.(led := Flag(s.led, i, false, false), ops := s.ops - {t})
  {
    s' := StepUndoExpiry(s0, actions, s, t);
  }

  /**
   * The converse: whenever a run reaches a step that reopens an ask, the run that takes this step can go on by accepting
   * another answer for that ask.
   */
  lemma ReopeningAdmitsAnother(s0: Sys, actions: seq<Action>, s: Sys, a: Action, k: nat) returns (reply: Action, s': Sys)
    requires Leads(s0, actions, s) && LedgerOk(s.led) && Reopens(s, a, k)
    ensures reply.BeginReply? && Leads(s0, actions + [a] + [reply], s') && s.led.accepted <= s'.led.accepted
    ensures |s'.led.accepted| == |s.led.accepted| + 1 && s'.led.accepted[|s.led.accepted|].ask == k
    ensures !AnsweredOnce(s'.led, k)
  {
    var i := Find(s.led.table, s.ops[a.t].askId);
    var r := s.led.table[i];
    var s1 := RolledBack(s0, actions, s, i, a.t);
    assert a == UndoExpiry(a.t);
    FlagKeepsLedger(s.led, i, false, false);
    s' := ReplyTaken(s0, actions + [a], s1, i, a.t);
    reply := BeginReply(a.t, k, r.askId, r.replyId, r.replyId, [], true);
    AnsweredAgain(s.led, s'.led, k);
  }

  lemma AnsweredAgain(l: Ledger, l': Ledger, k: nat)
    requires Answered(l, k) && l.accepted <= l'.accepted && |l'.accepted| > |l.accepted|
    requires l'.accepted[|l.accepted|].ask == k
    ensures !AnsweredOnce(l', k)
  {
    var x :| 0 <= x < |l.accepted| && l.accepted[x].ask == k;
    assert l'.accepted[x].ask == k;
  }

  lemma ExpiryTaken(s0: Sys, actions: seq<Action>, s: Sys, i: nat, t: nat) returns (s': Sys)
    requires Leads(s0, actions, s) && TableOk(s.led.table) && i < |s.led.table| && t !in s.ops
    requires s.led.table[i].used && !s.led.table[i].timeoutQueued
    ensures Leads(s0, actions + [BeginExpiry(t, s.led.table[i].actor, s.led.table[i].askId, None)], s')
    ensures s'.led == Flag(s.led, i, true, true) && t in s'.ops
    ensures s'.ops[t].Expiring? && s'.ops[t].self == s.led.table[i].actor && s'.ops[t].mail.msg.header.askId == s.led.table[i].askId
  {
    var r := s.led.table[i];
    FindUnique(s.led.table, i);
    s' := DoBeginExpiry(s, BeginExpiry(t, r.actor, r.askId, None));
    assert Next(s, BeginExpiry(t, r.actor, r.askId, None)) == s';
    Extend(s0, actions, s, BeginExpiry(t, r.actor, r.askId, None));
  }

  /** An answered ask with no timeout queued is reopened by a timeout whose post fails, in every reachable state. */
  lemma FailedPostReopens(s0: Sys, actions: seq<Action>, s: Sys, i: nat, t: nat) returns (s': Sys)
    requires Leads(s0, actions, s) && LedgerOk(s.led) && i < |s.led.table| && t !in s.ops
    requires s.led.table[i].used && Answered(s.led, s.led.holder[i]) && !s.led.table[i].timeoutQueued
    ensures var r := s.led.table[i];
            Leads(s0, actions + [BeginExpiry(t, r.actor, r.askId, None)] + [PostExpiry(t, false)], s')
    ensures |s'.led.table| == |s'.led.holder| && Reopens(s', UndoExpiry(t), s.led.holder[i])
  {
    var r := s.led.table[i];
    var s1 := ExpiryTaken(s0, actions, s, i, t);
    FlagKeepsLedger(s.led, i, true, true);
    s' := StepPostExpiry(s0, actions + [BeginExpiry(t, r.actor, r.askId, None)], s1, t, false);
    FindUnique(s'.led.table, i);
  }

  // ------------------------------------------------------------------ an answered ask turns replies away

  lemma MoveOnClosed(l: Ledger, m: Move, k: nat)
    requires LedgerOk(l) && MoveOk(l, m) && Closed(l, k)
    ensures var l' := Moved(l, m);
            && |l'.table| == |l'.holder| && l.accepted <= l'.accepted
            && (Closed(l', k) <==> !(m.Mark? && !m.replySent && l.holder[m.i] == k))
            && forall x :: |l.accepted| <= x < |l'.accepted| ==> l'.accepted[x].ask != k
  {
    var l' := Moved(l, m);
    if m.Mark? && !m.replySent && l.holder[m.i] == k {
      assert l'.table[m.i].used && l'.holder[m.i] == k;
    }
  }

  /** The exact condition, step by step: a closed ask accepts nothing, and stays closed unless it is rolled back. */
  lemma ClosedUnlessRolledBack(s: Sys, a: Action, k: nat)
    requires LedgerOk(s.led) && Closed(s.led, k)
    ensures var l' := Next(s, a).led;
            && |l'.table| == |l'.holder| && s.led.accepted <= l'.accepted
            && (Closed(l', k) <==> !RollsBack(s, a, k))
            && forall x :: |s.led.accepted| <= x < |l'.accepted| ==> l'.accepted[x].ask != k
  {
    var m := StepMoves(s, a);
    MoveOnClosed(s.led, m, k);
    if RollsBack(s, a, k) { RollBackMarks(s, a, k, m); }
  }

  lemma RollBackMarks(s: Sys, a: Action, k: nat, m: Move)
    requires LedgerOk(s.led) && Closed(s.led, k) && RollsBack(s, a, k) && Explains(s, a, m)
    ensures !Closed(Next(s, a).led, k)
  {
    var i := Find(s.led.table, s.ops[a.t].askId);
    assert Next(s, a) == DoUndoExpiry(s, a.t);
    assert Next(s, a).led == Flag(s.led, i, false, false);
    assert Next(s, a).led.table[i].used && Next(s, a).led.holder[i] == k;
  }

  lemma TurnedAway(l: Ledger, k: nat, fits: Actor -> bool)
    requires LedgerOk(l) && Closed(l, k)
    ensures forall i :: 0 <= i < |l.table| && l.table[i].used && l.holder[i] == k ==>
              && ClaimReply(l.table, l.table[i].askId, l.table[i].replyId, l.table[i].replyId, fits) == Claim(l.table, -EALREADY, NULL)
              && ClaimError(l.table, l.table[i].askId, l.table[i].replyId) == Claim(l.table, -EALREADY, NULL)
  {
    forall i | 0 <= i < |l.table| && l.table[i].used && l.holder[i] == k
      ensures ClaimReply(l.table, l.table[i].askId, l.table[i].replyId, l.table[i].replyId, fits) == Claim(l.table, -EALREADY, NULL)
      ensures ClaimError(l.table, l.table[i].askId, l.table[i].replyId) == Claim(l.table, -EALREADY, NULL)
    {
      AnsweredTurnsRepliesAway(l.table, i, fits);
    }
  }

  /** The `j`-th step of the run rolls back a timeout of ask `k`. */
  ghost predicate RolledBackAt(s0: Sys, actions: seq<Action>, j: nat, k: nat)
    requires Sized(s0) && j < |actions|
  {
    RollsBack(After(s0, actions[..j]), actions[j], k)
  }

  ghost predicate NeverRolledBack(s0: Sys, actions: seq<Action>, k: nat)
    requires Sized(s0)
  {
    forall j :: 0 <= j < |actions| ==> !RolledBackAt(s0, actions, j, k)
  }

  lemma PrefixNeverRolledBack(s: Sys, actions: seq<Action>, n: nat, k: nat)
    requires Sized(s) && NeverRolledBack(s, actions, k) && n <= |actions|
    ensures NeverRolledBack(s, actions[..n], k)
  {
    forall j | 0 <= j < n
      ensures !RolledBackAt(s, actions[..n], j, k)
    {
      assert actions[..n][..j] == actions[..j];
      assert !RolledBackAt(s, actions, j, k);
    }
  }

  /**
   * Once an ask is answered or its timeout is claimed, and as long as no timeout of that ask is rolled back, no answer is
   * accepted for it any more: whatever happens to it or to others, every well-typed reply or error reply finds it already
   * answered until it is retired.
   */
  lemma {:induction false} AnsweredAskStaysClosed(s: Sys, actions: seq<Action>, k: nat, fits: Actor -> bool)
    requires Safe(s) && Closed(s.led, k)
    requires NeverRolledBack(s, actions, k)
    ensures var l := After(s, actions).led;
            && Closed(l, k) && s.led.accepted <= l.accepted
            && (forall x :: |s.led.accepted| <= x < |l.accepted| ==> l.accepted[x].ask != k)
            && (forall i :: 0 <= i < |l.table| && l.table[i].used && l.holder[i] == k ==>
                  && ClaimReply(l.table, l.table[i].askId, l.table[i].replyId, l.table[i].replyId, fits) == Claim(l.table, -EALREADY, NULL)
                  && ClaimError(l.table, l.table[i].askId, l.table[i].replyId) == Claim(l.table, -EALREADY, NULL))
    decreases |actions|
  {
    if actions != [] {
      var n := |actions| - 1;
      PrefixNeverRolledBack(s, actions, n, k);
      AnsweredAskStaysClosed(s, actions[..n], k, fits);
      assert !RolledBackAt(s, actions, n, k);
      RunIsSafe(s, actions[..n]);
      ClosedUnlessRolledBack(After(s, actions[..n]), actions[n], k);
    }
    RunIsSafe(s, actions);
    TurnedAway(After(s, actions).led, k, fits);
  }
}

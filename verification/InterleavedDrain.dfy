/**
 * Drain completeness at lock granularity: whatever is in flight, an ask that counts as answered has an answer queued,
 * on its way, or about to be undone.
 */
module InterleavedDrain {
  import opened Types
  import opened AskTable
  import opened Interleaving
  import opened AtMostOnce

  /** The operation will complete, discard or reopen the ask in slot `r`. */
  predicate OpAnswers(op: Op, r: Slot) {
    match op
    case Answering(m, self) => self == r.actor && Completes(r, r.actor, m.msg.header)
    case Expiring(m, self) => self == r.actor && Completes(r, r.actor, m.msg.header)
    case Dequeued(m, self) => self == r.actor && Completes(r, r.actor, m.msg.header)
    case AnswerUndo(_, id) => id == r.askId
    case ExpiryUndo(_, id, self) => id == r.askId && self == r.actor
    case _ => false
  }

  ghost predicate Queued(s: Sys, r: Slot) {
    exists j :: 0 <= j < |BoxOf(s, r.actor)| && Completes(r, r.actor, BoxOf(s, r.actor)[j].msg.header)
  }

  ghost predicate InFlight(s: Sys, r: Slot) {
    exists t :: t in s.ops && OpAnswers(s.ops[t], r)
  }

  ghost predicate Witnessed(s: Sys, r: Slot) {
    Queued(s, r) || InFlight(s, r)
  }

  ghost predicate AllWitnessed(s: Sys) {
    forall i :: 0 <= i < |s.led.table| && s.led.table[i].used && s.led.table[i].replySent ==> Witnessed(s, s.led.table[i])
  }

  /** Mailboxes keep what they hold and every operation but `t` is as it was. */
  ghost predicate OnlyOp(s: Sys, s': Sys, t: nat) {
    && (forall a: Actor :: BoxOf(s, a) <= BoxOf(s', a))
    && (forall u :: u in s.ops && u != t ==> u in s'.ops && s'.ops[u] == s.ops[u])
  }

  lemma WitnessKept(s: Sys, s': Sys, t: nat, r: Slot)
    requires Witnessed(s, r) && OnlyOp(s, s', t)
    requires t in s.ops && OpAnswers(s.ops[t], r) ==> Witnessed(s', r)
    ensures Witnessed(s', r)
  {
    if Queued(s, r) {
      var j :| 0 <= j < |BoxOf(s, r.actor)| && Completes(r, r.actor, BoxOf(s, r.actor)[j].msg.header);
      assert BoxOf(s', r.actor)[j] == BoxOf(s, r.actor)[j];
    } else {
      var u :| u in s.ops && OpAnswers(s.ops[u], r);
      assert u != t ==> u in s'.ops && OpAnswers(s'.ops[u], r);
    }
  }

  /** A step that changes at most slot `i` and operation `t`. */
  lemma OneSlotWitnessed(s: Sys, s': Sys, t: nat, i: nat)
    requires AllWitnessed(s) && OnlyOp(s, s', t)
    requires |s'.led.table| == |s.led.table|
    requires forall j :: 0 <= j < |s.led.table| && j != i ==> s'.led.table[j] == s.led.table[j]
    requires forall j :: 0 <= j < |s.led.table| && j != i && t in s.ops && s.led.table[j].used && OpAnswers(s.ops[t], s.led.table[j]) ==>
               Witnessed(s', s.led.table[j])
    requires i < |s.led.table| && s'.led.table[i].used && s'.led.table[i].replySent ==> Witnessed(s', s'.led.table[i])
    ensures AllWitnessed(s')
  {
    forall j | 0 <= j < |s'.led.table| && s'.led.table[j].used && s'.led.table[j].replySent
      ensures Witnessed(s', s'.led.table[j])
    {
      if j != i { WitnessKept(s, s', t, s.led.table[j]); }
    }
  }

  lemma SameTableWitnessed(s: Sys, s': Sys, t: nat)
    requires AllWitnessed(s) && OnlyOp(s, s', t) && s'.led.table == s.led.table
    requires forall j :: 0 <= j < |s.led.table| && t in s.ops && s.led.table[j].used && OpAnswers(s.ops[t], s.led.table[j]) ==>
               Witnessed(s', s.led.table[j])
    ensures AllWitnessed(s')
  {
    OneSlotWitnessed(s, s', t, |s.led.table|);
  }

  // ------------------------------------------------------------------ steps

  lemma BeginAskWitnessed(s: Sys, a: Action)
    requires LedgerOk(s.led) && AllWitnessed(s) && a.BeginAsk?
    ensures AllWitnessed(Next(s, a))
  {
    var i := FreeFrom(s.led.table, 0);
    OneSlotWitnessed(s, Next(s, a), a.t, i);
  }

  lemma AcceptWitnessed(s: Sys, t: nat, on: nat, i: nat, m: Message, origin: Origin)
    requires LedgerOk(s.led) && AllWitnessed(s) && t !in s.ops && i < |s.led.table| && s.led.table[i].used
    requires m.header.askId == s.led.table[i].askId && m.header.id == s.led.table[i].replyId
    ensures AllWitnessed(Accept(s, t, on, i, m, origin))
  {
    var s' := Accept(s, t, on, i, m, origin);
    assert OpAnswers(s'.ops[t], s'.led.table[i]);
    OneSlotWitnessed(s, s', t, i);
  }

  lemma BeginReplyWitnessed(s: Sys, a: Action)
    requires LedgerOk(s.led) && AllWitnessed(s) && a.BeginReply?
    ensures AllWitnessed(Next(s, a))
  {
    var i := Find(s.led.table, a.askId);
    if Next(s, a).ops != s.ops {
      AcceptWitnessed(s, a.t, a.on, i, Message(Header(a.descId, Cmd, |a.payload|, a.askId, 0, 0), a.payload), Answer);
    } else {
      OneSlotWitnessed(s, Next(s, a), a.t, i);
    }
  }

  lemma BeginErrorWitnessed(s: Sys, a: Action)
    requires LedgerOk(s.led) && AllWitnessed(s) && a.BeginError?
    ensures AllWitnessed(Next(s, a))
  {
    var i := Find(s.led.table, a.askId);
    if Next(s, a) != s {
      AcceptWitnessed(s, a.t, a.on, i, Message(Header(a.requestReplyId, Cmd, 0, a.askId, 0, a.result), []), Failure);
    }
  }

  lemma BeginExpiryWitnessed(s: Sys, a: Action)
    requires LedgerOk(s.led) && AllWitnessed(s) && a.BeginExpiry?
    ensures AllWitnessed(Next(s, a))
  {
    var s', i := Next(s, a), Find(s.led.table, a.askId);
    if s'.ops != s.ops {
      assert OpAnswers(s'.ops[a.t], s'.led.table[i]);
      OneSlotWitnessed(s, s', a.t, i);
    } else if s' != s {
      SameTableWitnessed(s, s', a.t);
    }
  }

  /** Clean-ups: the slot they act on is discarded or reopened, and they answered no other. */
  lemma UndoWitnessed(s: Sys, a: Action)
    requires LedgerOk(s.led) && AllWitnessed(s) && (a.UndoAsk? || a.UndoAnswer? || a.UndoExpiry?)
    ensures AllWitnessed(Next(s, a))
  {
    if Next(s, a) != s {
      var i := Find(s.led.table, s.ops[a.t].askId);
      OneSlotWitnessed(s, Next(s, a), a.t, i);
    }
  }

  lemma ClaimWitnessed(s: Sys, t: nat)
    requires LedgerOk(s.led) && AllWitnessed(s) && t in s.ops && s.ops[t].Dequeued?
    ensures AllWitnessed(DoClaimMessage(s, t))
  {
    var s' := DoClaimMessage(s, t);
    var h := s.ops[t].mail.msg.header;
    var i := Find(s.led.table, h.askId);
    forall j | 0 <= j < |s.led.table| && s.led.table[j].used && OpAnswers(s.ops[t], s.led.table[j])
      ensures j == i && !s'.led.table[i].used
    {
      FindUnique(s.led.table, j);
    }
    if s'.led == s.led { SameTableWitnessed(s, s', t); } else { OneSlotWitnessed(s, s', t, i); }
  }

  /** An answer or a timeout message moves from its operation into the asker's mailbox, or to its clean-up. */
  lemma HandOnWitnessed(s: Sys, a: Action)
    requires LedgerOk(s.led) && AllWitnessed(s) && (a.SendAnswer? || a.PostExpiry?) && a.t in s.ops
    ensures AllWitnessed(Next(s, a))
  {
    var op, s' := s.ops[a.t], Next(s, a);
    if s' != s {
      forall j | 0 <= j < |s.led.table| && s.led.table[j].used && OpAnswers(op, s.led.table[j])
        ensures Witnessed(s', s.led.table[j])
      {
        var r := s.led.table[j];
        if a.t in s'.ops {
          assert OpAnswers(s'.ops[a.t], r);
        } else {
          assert BoxOf(s', r.actor)[|BoxOf(s, r.actor)|] == op.mail;
        }
      }
      SameTableWitnessed(s, s', a.t);
    }
  }

  lemma RequestWitnessed(s: Sys, a: Action)
    requires LedgerOk(s.led) && AllWitnessed(s) && (a.Arm? || a.PostRequest? || a.RunCallback? || a.HandlerReturns?) && a.t in s.ops
    ensures AllWitnessed(Next(s, a))
  {
    SameTableWitnessed(s, Next(s, a), a.t);
  }

  lemma DequeueWitnessed(s: Sys, t: nat, b: Actor)
    requires LedgerOk(s.led) && AllWitnessed(s)
    ensures AllWitnessed(Next(s, Dequeue(t, b)))
  {
    var s', q := Next(s, Dequeue(t, b)), BoxOf(s, b);
    if s' != s {
      forall i | 0 <= i < |s'.led.table| && s'.led.table[i].used && s'.led.table[i].replySent
        ensures Witnessed(s', s'.led.table[i])
      {
        var r := s.led.table[i];
        if Queued(s, r) {
          var j :| 0 <= j < |BoxOf(s, r.actor)| && Completes(r, r.actor, BoxOf(s, r.actor)[j].msg.header);
          if r.actor != b { assert BoxOf(s', r.actor) == BoxOf(s, r.actor); }
          else if j == 0 { assert OpAnswers(s'.ops[t], r); }
          else { assert BoxOf(s', b)[j - 1] == q[j]; }
        } else {
          var u :| u in s.ops && OpAnswers(s.ops[u], r);
          assert s'.ops[u] == s.ops[u];
        }
      }
    }
  }

  /** Every step but a purge keeps every answered ask witnessed. */
  lemma StepKeepsWitnesses(s: Sys, a: Action)
    requires LedgerOk(s.led) && AllWitnessed(s) && !a.Purge?
    ensures AllWitnessed(Next(s, a))
  {
    match a
    case BeginAsk(_, _, _, _, _, _, _, _) => BeginAskWitnessed(s, a);
    case BeginReply(_, _, _, _, _, _, _) => BeginReplyWitnessed(s, a);
    case BeginError(_, _, _, _, _) => BeginErrorWitnessed(s, a);
    case BeginExpiry(_, _, _, _) => BeginExpiryWitnessed(s, a);
    case CancelPending(_, id, _) => OneSlotWitnessed(s, Next(s, a), 0, Find(s.led.table, id));
    case SendPlain(_, _) => SameTableWitnessed(s, Next(s, a), 0);
    case Dequeue(t, b) => DequeueWitnessed(s, t, b);
    case Forget(_) => SameTableWitnessed(s, Next(s, a), 0);
    case _ => if a.t in s.ops { ContinueWitnessed(s, a); }
  }

  lemma ContinueWitnessed(s: Sys, a: Action)
    requires LedgerOk(s.led) && AllWitnessed(s)
    requires a.Arm? || a.PostRequest? || a.UndoAsk? || a.SendAnswer? || a.UndoAnswer? || a.PostExpiry? || a.UndoExpiry?
          || a.ClaimMessage? || a.RunCallback? || a.HandlerReturns?
    requires a.t in s.ops
    ensures AllWitnessed(Continue(s, a))
  {
    match a
    case UndoAsk(_) => UndoWitnessed(s, a);
    case UndoAnswer(_) => UndoWitnessed(s, a);
    case UndoExpiry(_) => UndoWitnessed(s, a);
    case ClaimMessage(t) => if s.ops[t].Dequeued? { ClaimWitnessed(s, t); }
    case SendAnswer(_, _) => HandOnWitnessed(s, a);
    case PostExpiry(_, _) => HandOnWitnessed(s, a);
    case _ => RequestWitnessed(s, a);
  }

  /** Nothing is queued and no operation is under way. */
  ghost predicate Quiescent(s: Sys) {
    s.ops == map[] && forall a: Actor :: BoxOf(s, a) == []
  }

  lemma {:induction false} RunKeepsWitnesses(s: Sys, actions: seq<Action>)
    requires Safe(s) && AllWitnessed(s) && forall i :: 0 <= i < |actions| ==> !actions[i].Purge?
    ensures AllWitnessed(After(s, actions))
    decreases |actions|
  {
    if actions != [] {
      var k := |actions| - 1;
      RunKeepsWitnesses(s, actions[..k]);
      RunIsSafe(s, actions[..k]);
      StepKeepsWitnesses(After(s, actions[..k]), actions[k]);
    }
  }

  /**
   * Drain completeness over every interleaving without purges: an answered or timed-out ask is always witnessed, and
   * once the system is quiescent every ask still in the table is unanswered.
   */
  lemma QuiescentMeansDrained(n: nat, next: Uint32, actions: seq<Action>)
    requires n <= MAX_SLOTS && forall i :: 0 <= i < |actions| ==> !actions[i].Purge?
    ensures Safe(Start(n, next)) && AllWitnessed(After(Start(n, next), actions))
    ensures var s := After(Start(n, next), actions);
            Quiescent(s) ==> forall i :: 0 <= i < |s.led.table| && s.led.table[i].used ==> !s.led.table[i].replySent && !s.led.table[i].timeoutQueued
  {
    StartIsSafe(n, next);
    RunKeepsWitnesses(Start(n, next), actions);
    RunIsSafe(Start(n, next), actions);
    DrainedWhenQuiescent(After(Start(n, next), actions));
  }

  lemma DrainedWhenQuiescent(s: Sys)
    requires LedgerOk(s.led) && AllWitnessed(s)
    ensures Quiescent(s) ==> forall i :: 0 <= i < |s.led.table| && s.led.table[i].used ==> !s.led.table[i].replySent && !s.led.table[i].timeoutQueued
  {
    QuiescentUnwitnessed(s);
  }

  lemma QuiescentUnwitnessed(s: Sys)
    ensures Quiescent(s) ==> forall r :: !Witnessed(s, r)
  {}
}

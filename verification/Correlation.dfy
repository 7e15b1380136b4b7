/**
 * Which message, reply and cancel acts on which ask. Replies answer requests their callers hold, and askers cancel by
 * ids they were given. As long as no id is given out again while a message, an operation, a timer, a held request or an
 * asker still has it, everything meant for an ask acts on that ask only, and a callback that reports success received
 * the payload of an accepted reply to that very ask's request.
 */
module Correlation {
  import opened Types
  import opened AskTable
  import opened Interleaving
  import opened AtMostOnce

  // ------------------------------------------------------------------ what carries an id

  /** Whoever is pending under the id of ask `k` is ask `k`. */
  ghost predicate TagOk(l: Ledger, k: nat)
    requires |l.table| == |l.holder|
  {
    k < |l.asks| && forall i :: 0 <= i < |l.table| && Carries(l.table[i], l.asks[k].askId) ==> l.holder[i] == k
  }

  /** What a message sent for an ask says, and whose mailbox it is meant for. */
  ghost predicate Content(l: Ledger, a: Actor, m: Mail)
    requires m.ask < |l.asks|
  {
    var info, h := l.asks[m.ask], m.msg.header;
    match m.origin
    case Plain => false
    case Request => a == info.target && h.id == info.requestId && h.replyId == info.replyId && h.result == 0
    case Answer =>
      && a == info.self && h.id == info.replyId && h.result == 0
      && Acceptance(m.ask, m.ask, h, m.msg.payload) in l.accepted
    case Failure =>
      && a == info.self && h.id == info.replyId && h.result != 0
      && Acceptance(m.ask, m.ask, h, m.msg.payload) in l.accepted
    case Expiry => a == info.self && h.id == TIMEOUT_MSG_ID && h.result == -ETIMEDOUT
  }

  /** A message in, or on its way to, the mailbox of `a`. */
  ghost predicate MailOk(l: Ledger, a: Actor, m: Mail)
    requires |l.table| == |l.holder|
  {
    if m.origin == Plain then m.msg.header.askId == 0
    else TagOk(l, m.ask) && m.msg.header.askId == l.asks[m.ask].askId && Content(l, a, m)
  }

  ghost predicate UndoOk(l: Ledger, k: nat, id: Uint32)
    requires |l.table| == |l.holder|
  {
    TagOk(l, k) && l.asks[k].askId == id
  }

  /** A callback about to run, or that ran, for ask `k` on message `m`. */
  ghost predicate CallOk(l: Ledger, k: nat, self: Actor, m: Mail) {
    && k == m.ask < |l.asks| && l.asks[k].self == self && Content(l, self, m)
    && (m.origin == Request ==> l.asks[k].target == self && l.asks[k].requestId in {l.asks[k].replyId, TIMEOUT_MSG_ID})
  }

  ghost predicate OpOk(l: Ledger, op: Op)
    requires |l.table| == |l.holder|
  {
    match op
    case Arming(m) => m.origin == Request && m.ask < |l.asks| && MailOk(l, l.asks[m.ask].target, m)
    case Posting(m) => m.origin == Request && m.ask < |l.asks| && MailOk(l, l.asks[m.ask].target, m)
    case AskUndo(k, id) => UndoOk(l, k, id)
    case Answering(m, self) => m.origin != Plain && MailOk(l, self, m)
    case AnswerUndo(k, id) => UndoOk(l, k, id)
    case Expiring(m, self) => m.origin != Plain && MailOk(l, self, m)
    case ExpiryUndo(k, id, self) => UndoOk(l, k, id)
    case Dequeued(m, self) => MailOk(l, self, m)
    case Calling(k, _, self, m) => CallOk(l, k, self, m)
    case Handling(m, self) => MailOk(l, self, m)
  }

  /** Everything that carries an id carries it for the ask that holds it, if any does. */
  ghost predicate CarriersOk(s: Sys)
    requires Sized(s)
  {
    && (forall a, i :: a in s.boxes && 0 <= i < |s.boxes[a]| ==> MailOk(s.led, a, s.boxes[a][i]))
    && (forall t :: t in s.ops ==> OpOk(s.led, s.ops[t]))
    && (forall k :: k in s.timers ==> TagOk(s.led, k))
    && (forall k :: k in s.handles ==> TagOk(s.led, k))
  }

  /** Every section that took an ask out, and every answer that was accepted, was meant for that ask. */
  ghost predicate OwnOnly(l: Ledger) {
    && (forall r :: 0 <= r < |l.retired| ==> l.retired[r].ask == l.retired[r].on)
    && (forall x :: 0 <= x < |l.accepted| ==> l.accepted[x].ask == l.accepted[x].on)
  }

  ghost predicate RunsCorrelate(s: Sys) {
    forall r :: 0 <= r < |s.runs| ==> CallOk(s.led, s.runs[r].ask, s.runs[r].self, s.runs[r].mail)
  }

  ghost predicate Correlated(s: Sys) {
    LedgerOk(s.led) && CarriersOk(s) && OwnOnly(s.led) && RunsCorrelate(s)
  }

  // ------------------------------------------------------------------ no reuse while carried

  function OpAskId(op: Op): Uint32 {
    match op
    case Arming(m) => m.msg.header.askId
    case Posting(m) => m.msg.header.askId
    case AskUndo(_, id) => id
    case Answering(m, _) => m.msg.header.askId
    case AnswerUndo(_, id) => id
    case Expiring(m, _) => m.msg.header.askId
    case ExpiryUndo(_, id, _) => id
    case Dequeued(m, _) => m.msg.header.askId
    case Calling(_, _, _, _) => 0
    case Handling(m, _) => m.msg.header.askId
  }

  /** A queued message, an operation, a held request, an armed timer or an asker still has the id. */
  ghost predicate IdCarried(s: Sys, id: Uint32) {
    || (exists a, i :: a in s.boxes && 0 <= i < |s.boxes[a]| && s.boxes[a][i].msg.header.askId == id)
    || (exists t :: t in s.ops && OpAskId(s.ops[t]) == id)
    || (exists k :: k in s.timers + s.handles && k < |s.led.asks| && s.led.asks[k].askId == id)
  }

  /** Somebody holds the request of ask `on`, and it carries these ids. */
  ghost predicate HoldsRequest(s: Sys, on: nat, askId: Uint32, replyId: Uint32) {
    exists h :: h in s.ops && s.ops[h].Handling? && s.ops[h].mail.origin == Request && s.ops[h].mail.ask == on
      && s.ops[h].mail.msg.header.askId == askId && s.ops[h].mail.msg.header.replyId == replyId
  }

  /**
   * The API is used as intended: replies and error replies are made with a request that was received and is still held,
   * and an actor cancels with an id that its own ask gave it.
   */
  ghost predicate Genuine(s: Sys, a: Action) {
    match a
    case BeginReply(_, on, id, replyId, _, _, _) => HoldsRequest(s, on, id, replyId)
    case BeginError(_, on, id, replyId, _) => HoldsRequest(s, on, id, replyId)
    case CancelPending(self, id, on) =>
      on in s.handles && on < |s.led.asks| && s.led.asks[on].askId == id && s.led.asks[on].self == self
    case _ => true
  }

  /** An ask that reserves an id reserves one that nothing carries any more. */
  ghost predicate NoReuse(s: Sys, a: Action) {
    a.BeginAsk? ==>
      var id := Reserve(s.led.table, s.led.next, a.self, a.replyId, a.callback).2;
      id.Some? ==> !IdCarried(s, id.value)
  }

  // ------------------------------------------------------------------ the ledger moves under the carriers

  /** Every ask whose id something carries stays the only one that can be pending under it. */
  ghost predicate TagsSurvive(s: Sys, l': Ledger)
    requires Sized(s) && |l'.table| == |l'.holder|
  {
    forall k: nat :: TagOk(s.led, k) && IdCarried(s, s.led.asks[k].askId) ==> TagOk(l', k)
  }

  lemma MoveKeepsTags(s: Sys, m: Move)
    requires LedgerOk(s.led) && MoveOk(s.led, m)
    requires m.Enter? ==> !IdCarried(s, m.info.askId)
    ensures |Moved(s.led, m).table| == |Moved(s.led, m).holder| && TagsSurvive(s, Moved(s.led, m))
  {
    var l, l' := s.led, Moved(s.led, m);
    forall k: nat | TagOk(l, k) && IdCarried(s, l.asks[k].askId)
      ensures TagOk(l', k)
    {
      forall i | 0 <= i < |l'.table| && Carries(l'.table[i], l'.asks[k].askId)
        ensures l'.holder[i] == k
      {
        assert l'.asks[k] == l.asks[k];
        assert Carries(l.table[i], l.asks[k].askId);
      }
    }
  }

  lemma ContentStays(l: Ledger, l': Ledger, a: Actor, m: Mail)
    requires HistoryGrows(l, l') && m.ask < |l.asks| && Content(l, a, m)
    ensures Content(l', a, m)
  {
    if m.origin == Answer || m.origin == Failure {
      var x := Acceptance(m.ask, m.ask, m.msg.header, m.msg.payload);
      var i :| 0 <= i < |l.accepted| && l.accepted[i] == x;
      assert l'.accepted[i] == x;
    }
  }

  /** Carriers stay sound when the ledger moves without reusing a carried id. */
  lemma CarriersSurvive(s: Sys, l': Ledger)
    requires Correlated(s) && HistoryGrows(s.led, l') && |l'.table| == |l'.holder| && TagsSurvive(s, l')
    ensures CarriersOk(s.(led := l')) && RunsCorrelate(s.(led := l'))
  {
    var l := s.led;
    forall a, i | a in s.boxes && 0 <= i < |s.boxes[a]|
      ensures MailOk(l', a, s.boxes[a][i])
    {
      var m := s.boxes[a][i];
      assert MailOk(l, a, m);
      assert IdCarried(s, m.msg.header.askId);
      if m.origin != Plain { ContentStays(l, l', a, m); }
    }
    forall t | t in s.ops
      ensures OpOk(l', s.ops[t])
    {
      OpSurvives(s, l', t);
    }
    forall r | 0 <= r < |s.runs|
      ensures CallOk(l', s.runs[r].ask, s.runs[r].self, s.runs[r].mail)
    {
      ContentStays(l, l', s.runs[r].self, s.runs[r].mail);
    }
  }

  lemma OpSurvives(s: Sys, l': Ledger, t: nat)
    requires Correlated(s) && HistoryGrows(s.led, l') && |l'.table| == |l'.holder| && TagsSurvive(s, l')
    requires t in s.ops
    ensures OpOk(l', s.ops[t])
  {
    assert OpOk(s.led, s.ops[t]);
    assert IdCarried(s, OpAskId(s.ops[t]));
    match s.ops[t]
    case Arming(m) => ContentStays(s.led, l', s.led.asks[m.ask].target, m);
    case Posting(m) => ContentStays(s.led, l', s.led.asks[m.ask].target, m);
    case Answering(m, self) => ContentStays(s.led, l', self, m);
    case Expiring(m, self) => ContentStays(s.led, l', self, m);
    case Dequeued(m, self) => if m.origin != Plain { ContentStays(s.led, l', self, m); }
    case Handling(m, self) => if m.origin != Plain { ContentStays(s.led, l', self, m); }
    case Calling(k, _, self, m) => ContentStays(s.led, l', self, m);
    case _ =>
  }

  /** A step without reuse moves the ledger and leaves every existing carrier sound. */
  lemma LedgerStep(s: Sys, a: Action) returns (m: Move)
    requires Correlated(s) && NoReuse(s, a)
    ensures MoveOk(s.led, m) && Next(s, a).led == Moved(s.led, m)
    ensures LedgerOk(Next(s, a).led) && HistoryGrows(s.led, Next(s, a).led)
    ensures CarriersOk(s.(led := Next(s, a).led)) && RunsCorrelate(s.(led := Next(s, a).led))
  {
    m := StepMoves(s, a);
    MoveKeepsLedger(s.led, m);
    MoveKeepsTags(s, m);
    CarriersSurvive(s, Moved(s.led, m));
  }

  // ------------------------------------------------------------------ what each step sends or hands on

  lemma AppendKeeps(s: Sys, a: Actor, m: Mail)
    requires Sized(s) && CarriersOk(s) && MailOk(s.led, a, m)
    ensures CarriersOk(Append(s, a, m))
  {}

  lemma SetOpKeeps(s: Sys, t: nat, op: Op)
    requires Sized(s) && CarriersOk(s) && OpOk(s.led, op)
    ensures CarriersOk(SetOp(s, t, op))
  {}

  lemma EndOpKeeps(s: Sys, t: nat)
    requires Sized(s) && CarriersOk(s)
    ensures CarriersOk(EndOp(s, t))
  {}

  /** The holder of a slot that carries an id is what its tag says. */
  lemma HolderTagged(l: Ledger, i: nat)
    requires LedgerOk(l) && i < |l.table| && l.table[i].used
    ensures TagOk(l, l.holder[i])
  {}

  lemma BeginAskKeeps(s: Sys, a: Action)
    requires Correlated(s) && NoReuse(s, a) && a.BeginAsk?
    ensures Correlated(Next(s, a))
  {
    var m := LedgerStep(s, a);
    var s', l' := Next(s, a), Next(s, a).led;
    assert OwnOnly(l');
    if a.t !in s.ops && s'.ops != s.ops {
      assert m.Enter?;
      var i := FreeFrom(s.led.table, 0);
      HolderTagged(l', i);
      SetOpKeeps(s.(led := l'), a.t, s'.ops[a.t]);
    }
  }

  lemma AcceptKeeps(s: Sys, t: nat, on: nat, i: nat, msg: Message, origin: Origin)
    requires Correlated(s) && i < |s.led.table| && s.led.table[i].used && !s.led.table[i].replySent
    requires s.led.holder[i] == on && msg.header.askId == s.led.table[i].askId && msg.header.id == s.led.table[i].replyId
    requires if origin == Answer then msg.header.result == 0 else origin == Failure && msg.header.result != 0
    ensures Correlated(Accept(s, t, on, i, msg, origin))
  {
    var l, s' := s.led, Accept(s, t, on, i, msg, origin);
    var m := Take(i, on, msg.header, msg.payload);
    MoveKeepsLedger(l, m);
    MoveKeepsTags(s, m);
    CarriersSurvive(s, s'.led);
    HolderTagged(s'.led, i);
    assert s'.led.accepted[|l.accepted|] == Acceptance(on, on, msg.header, msg.payload);
    SetOpKeeps(s.(led := s'.led), t, s'.ops[t]);
  }

  /** Whoever holds the request of an ask reaches that ask, if it is pending. */
  lemma HeldRequestReaches(s: Sys, on: nat, askId: Uint32, replyId: Uint32)
    requires Correlated(s) && HoldsRequest(s, on, askId, replyId)
    ensures var i := Find(s.led.table, askId);
            && on < |s.led.asks| && s.led.asks[on].replyId == replyId
            && (i < |s.led.table| ==> s.led.holder[i] == on)
  {
    var h :| h in s.ops && s.ops[h].Handling? && s.ops[h].mail.origin == Request && s.ops[h].mail.ask == on
      && s.ops[h].mail.msg.header.askId == askId && s.ops[h].mail.msg.header.replyId == replyId;
    assert OpOk(s.led, s.ops[h]);
  }

  lemma BeginReplyKeeps(s: Sys, a: Action)
    requires Correlated(s) && a.BeginReply? && Genuine(s, a)
    ensures Correlated(Next(s, a))
  {
    var i := Find(s.led.table, a.askId);
    HeldRequestReaches(s, a.on, a.askId, a.requestReplyId);
    if Next(s, a).ops != s.ops {
      AcceptKeeps(s, a.t, a.on, i, Message(Header(a.descId, Cmd, |a.payload|, a.askId, 0, 0), a.payload), Answer);
    } else {
      LedgerOnly(s, a);
    }
  }

  lemma BeginErrorKeeps(s: Sys, a: Action)
    requires Correlated(s) && a.BeginError? && Genuine(s, a)
    ensures Correlated(Next(s, a))
  {
    var i := Find(s.led.table, a.askId);
    HeldRequestReaches(s, a.on, a.askId, a.requestReplyId);
    if Next(s, a) != s {
      AcceptKeeps(s, a.t, a.on, i, Message(Header(a.requestReplyId, Cmd, 0, a.askId, 0, a.result), []), Failure);
    }
  }

  lemma CancelKeeps(s: Sys, a: Action)
    requires Correlated(s) && a.CancelPending? && Genuine(s, a)
    ensures Correlated(Next(s, a))
  {
    assert TagOk(s.led, a.on);
    LedgerOnly(s, a);
  }

  /** A step that changes nothing but the ledger. */
  lemma LedgerOnly(s: Sys, a: Action)
    requires Correlated(s) && NoReuse(s, a) && Next(s, a) == s.(led := Next(s, a).led) && OwnOnly(Next(s, a).led)
    ensures Correlated(Next(s, a))
  {
    var m := LedgerStep(s, a);
  }

  lemma BeginExpiryKeeps(s: Sys, a: Action)
    requires Correlated(s) && a.BeginExpiry?
    ensures Correlated(Next(s, a))
  {
    var m := LedgerStep(s, a);
    var s' := Next(s, a);
    ExpiryBegun(s, a);
    FewerTimers(s.(led := s'.led), s'.timers);
    if s'.ops != s.ops {
      ExpiryMailOk(s, a);
      SetOpKeeps(s.(led := s'.led, timers := s'.timers), a.t, s'.ops[a.t]);
    }
  }

  /** A timeout section changes the ledger and the timers, and begins at most its own operation. */
  lemma ExpiryBegun(s: Sys, a: Action)
    requires Sized(s) && a.BeginExpiry?
    ensures var s' := Next(s, a);
            var s1 := s.(led := s'.led, timers := s'.timers);
            && s'.timers <= s.timers && |s'.led.retired| == |s.led.retired|
            && (if s'.ops == s.ops then s' == s1 else a.t in s'.ops && s' == SetOp(s1, a.t, s'.ops[a.t]))
  {}

  lemma FewerTimers(s: Sys, timers: set<nat>)
    requires Sized(s) && CarriersOk(s) && timers <= s.timers
    ensures CarriersOk(s.(timers := timers))
  {}

  lemma ExpiryMailOk(s: Sys, a: Action)
    requires Correlated(s) && a.BeginExpiry? && Next(s, a).ops != s.ops
    ensures var s' := Next(s, a);
            LedgerOk(s'.led) && a.t in s'.ops && OpOk(s'.led, s'.ops[a.t])
  {
    var i := Find(s.led.table, a.askId);
    ExpiryOp(s, a);
    FlagKeepsLedger(s.led, i, true, true);
    HolderTagged(Flag(s.led, i, true, true), i);
  }

  /** What a timeout section that claims its ask leaves behind. */
  lemma ExpiryOp(s: Sys, a: Action)
    requires Sized(s) && a.BeginExpiry? && Next(s, a).ops != s.ops
    ensures var i, s' := Find(s.led.table, a.askId), Next(s, a);
            && i < |s.led.table| && s.led.table[i].actor == a.self
            && s'.led == Flag(s.led, i, true, true) && a.t in s'.ops
            && s'.ops[a.t] == Expiring(Mail(Message(Header(TIMEOUT_MSG_ID, Cmd, 0, a.askId, 0, -ETIMEDOUT), []),
                                            s.led.holder[i], Expiry), a.self)
  {}

  lemma UndoKeeps(s: Sys, a: Action)
    requires Correlated(s) && (a.UndoAsk? || a.UndoAnswer? || a.UndoExpiry?)
    ensures Correlated(Next(s, a))
  {
    if Next(s, a) != s {
      var m := LedgerStep(s, a);
      EndOpKeeps(s.(led := Next(s, a).led), a.t);
      assert Next(s, a) == EndOp(s.(led := Next(s, a).led), a.t);
      UndoActsForItsAsk(s, a);
    }
  }

  lemma UndoActsForItsAsk(s: Sys, a: Action)
    requires Correlated(s) && (a.UndoAsk? || a.UndoAnswer? || a.UndoExpiry?)
    ensures OwnOnly(Next(s, a).led)
  {
    if a.t in s.ops { assert OpOk(s.led, s.ops[a.t]); }
  }

  lemma ClaimKeeps(s: Sys, t: nat)
    requires Correlated(s)
    ensures Correlated(Next(s, ClaimMessage(t)))
  {
    var s' := Next(s, ClaimMessage(t));
    if s' != s {
      var m := LedgerStep(s, ClaimMessage(t));
      var s1 := s.(led := s'.led);
      ClaimedOpOk(s, t);
      SetOpKeeps(s1, t, s'.ops[t]);
      assert s' == SetOp(s1, t, s'.ops[t]);
    }
  }

  lemma ClaimedOpOk(s: Sys, t: nat)
    requires Correlated(s) && t in s.ops && s.ops[t].Dequeued?
    ensures var s' := DoClaimMessage(s, t);
            |s'.led.table| == |s'.led.holder| && t in s'.ops && OpOk(s'.led, s'.ops[t]) && OwnOnly(s'.led)
  {
    var op, s', i := s.ops[t], DoClaimMessage(s, t), Find(s.led.table, s.ops[t].mail.msg.header.askId);
    assert OpOk(s.led, op);
    if s'.led != s.led {
      assert s.led.holder[i] == op.mail.ask;
      ContentStays(s.led, s'.led, op.self, op.mail);
    }
  }

  /** A send that succeeds: the message moves from its operation to the mailbox. */
  lemma SendKeeps(s: Sys, t: nat, target: Actor, handles: set<nat>)
    requires Correlated(s) && t in s.ops && (s.ops[t].Posting? || s.ops[t].Answering? || s.ops[t].Expiring?)
    requires MailOk(s.led, target, s.ops[t].mail)
    requires forall k :: k in handles ==> k in s.handles || TagOk(s.led, k)
    ensures Correlated(EndOp(Append(s.(handles := handles), target, s.ops[t].mail), t))
  {
    var s1 := s.(handles := handles);
    assert CarriersOk(s1);
    AppendKeeps(s1, target, s.ops[t].mail);
    EndOpKeeps(Append(s1, target, s.ops[t].mail), t);
  }

  /** A send that fails, or a timer that is armed or not: the operation goes on for the same ask. */
  lemma GoOnKeeps(s: Sys, t: nat, op: Op, timers: set<nat>)
    requires Correlated(s) && OpOk(s.led, op) && forall k :: k in timers ==> k in s.timers || TagOk(s.led, k)
    ensures Correlated(SetOp(s.(timers := timers), t, op))
  {
    var s1 := s.(timers := timers);
    assert CarriersOk(s1);
    SetOpKeeps(s1, t, op);
  }

  /** Steps that hand a message on: arm the timer, or send what was prepared. */
  lemma HandOnKeeps(s: Sys, a: Action)
    requires Correlated(s) && (a.Arm? || a.PostRequest? || a.SendAnswer? || a.PostExpiry?) && a.t in s.ops
    ensures Correlated(Next(s, a))
  {
    var op, s' := s.ops[a.t], Next(s, a);
    assert OpOk(s.led, op);
    if a.t !in s'.ops {
      SendKeeps(s, a.t, if op.Posting? then s.led.asks[op.mail.ask].target else op.self, s'.handles);
    } else if s' != s {
      HandedOn(s, a);
      GoOnKeeps(s, a.t, s'.ops[a.t], s'.timers);
    }
  }

  lemma HandedOn(s: Sys, a: Action)
    requires Correlated(s) && (a.Arm? || a.PostRequest? || a.SendAnswer? || a.PostExpiry?) && a.t in s.ops
    requires Next(s, a) != s && a.t in Next(s, a).ops
    ensures var s' := Next(s, a);
            && s' == SetOp(s.(timers := s'.timers), a.t, s'.ops[a.t]) && OpOk(s.led, s'.ops[a.t])
            && forall k :: k in s'.timers ==> k in s.timers || TagOk(s.led, k)
  {
    assert OpOk(s.led, s.ops[a.t]);
  }

  lemma DequeueKeeps(s: Sys, t: nat, b: Actor)
    requires Correlated(s)
    ensures Correlated(Next(s, Dequeue(t, b)))
  {
    if t !in s.ops && BoxOf(s, b) != [] {
      assert MailOk(s.led, b, s.boxes[b][0]);
      var s1 := s.(boxes := s.boxes[b := s.boxes[b][1..]]);
      assert CarriersOk(s1);
      SetOpKeeps(s1, t, Dequeued(s.boxes[b][0], b));
    }
  }

  lemma BoxStepKeeps(s: Sys, a: Action)
    requires Correlated(s) && (a.SendPlain? || a.Dequeue? || a.Purge? || a.Forget?)
    ensures Correlated(Next(s, a))
  {
    match a
    case SendPlain(b, m) => if m.header.askId == 0 { AppendKeeps(s, b, Mail(m, 0, Plain)); }
    case Dequeue(t, b) => DequeueKeeps(s, t, b);
    case Purge(_) =>
    case Forget(_) =>
  }

  /** A callback is called, or a handler returns. */
  lemma ReturnKeeps(s: Sys, a: Action)
    requires Correlated(s) && (a.RunCallback? || a.HandlerReturns?) && a.t in s.ops
    ensures Correlated(Next(s, a))
  {
    assert OpOk(s.led, s.ops[a.t]);
    EndOpKeeps(s, a.t);
  }

  /** Every step that uses the API as intended and reuses no carried id keeps messages and asks matched up. */
  lemma StepKeepsCorrelation(s: Sys, a: Action)
    requires Correlated(s) && NoReuse(s, a) && Genuine(s, a)
    ensures Correlated(Next(s, a))
  {
    match a
    case BeginAsk(_, _, _, _, _, _, _, _) => BeginAskKeeps(s, a);
    case BeginReply(_, _, _, _, _, _, _) => BeginReplyKeeps(s, a);
    case BeginError(_, _, _, _, _) => BeginErrorKeeps(s, a);
    case BeginExpiry(_, _, _, _) => BeginExpiryKeeps(s, a);
    case UndoAsk(_) => UndoKeeps(s, a);
    case UndoAnswer(_) => UndoKeeps(s, a);
    case UndoExpiry(_) => UndoKeeps(s, a);
    case CancelPending(_, _, _) => CancelKeeps(s, a);
    case ClaimMessage(t) => ClaimKeeps(s, t);
    case SendPlain(_, _) => BoxStepKeeps(s, a);
    case Dequeue(_, _) => BoxStepKeeps(s, a);
    case Purge(_) => BoxStepKeeps(s, a);
    case RunCallback(_) => if a.t in s.ops { ReturnKeeps(s, a); }
    case HandlerReturns(_) => if a.t in s.ops { ReturnKeeps(s, a); }
    case Forget(_) => BoxStepKeeps(s, a);
    case _ => if a.t in s.ops { HandOnKeeps(s, a); }
  }

  // ------------------------------------------------------------------ whole runs

  /** Every step of the run uses the API as intended and reuses no id that is still carried. */
  ghost predicate Disciplined(s: Sys, actions: seq<Action>)
    requires Sized(s)
    decreases |actions|
  {
    actions != [] ==>
      var n := |actions| - 1;
      Disciplined(s, actions[..n]) && NoReuse(After(s, actions[..n]), actions[n]) && Genuine(After(s, actions[..n]), actions[n])
  }

  lemma {:induction false} RunKeepsCorrelation(s: Sys, actions: seq<Action>)
    requires Correlated(s) && Disciplined(s, actions)
    ensures Correlated(After(s, actions))
    decreases |actions|
  {
    if actions != [] {
      var n := |actions| - 1;
      RunKeepsCorrelation(s, actions[..n]);
      StepKeepsCorrelation(After(s, actions[..n]), actions[n]);
    }
  }

  /** A request an actor sends itself must not look like its own reply or like a timeout. */
  ghost predicate SelfAskDistinct(info: AskInfo) {
    info.target == info.self ==> info.requestId != info.replyId && info.requestId != TIMEOUT_MSG_ID
  }

  /**
   * Correlation, over every disciplined interleaving: each callback ran on a message sent for its own ask; a result of 0
   * came with the payload, byte for byte, of an accepted reply to that ask's own request and of the reply type the ask
   * expects, unless the ask was a self-ask confusable with its own reply or timeout; any other result is that of an
   * accepted error reply to that ask's own request, or -ETIMEDOUT of the ask's own timeout; and every section that took an
   * ask out, and every reply that was accepted, was meant for that ask by the dispatcher, canceller or replier.
   */
  lemma CallbacksReceiveTheirReply(n: nat, next: Uint32, actions: seq<Action>)
    requires n <= MAX_SLOTS
    ensures Safe(Start(n, next))
    ensures Disciplined(Start(n, next), actions) ==>
      var s := After(Start(n, next), actions);
      && OwnOnly(s.led)
      && forall r :: 0 <= r < |s.runs| ==>
           var k, m := s.runs[r].ask, s.runs[r].mail;
           && m.ask == k < |s.led.asks|
           && (m.msg.header.result == 0 && SelfAskDistinct(s.led.asks[k]) ==>
                 m.msg.header.id == s.led.asks[k].replyId && Acceptance(k, k, m.msg.header, m.msg.payload) in s.led.accepted)
           && (m.msg.header.result != 0 ==>
                 || (m.msg.header.id == s.led.asks[k].replyId && Acceptance(k, k, m.msg.header, m.msg.payload) in s.led.accepted)
                 || (m.origin == Expiry && m.msg.header.id == TIMEOUT_MSG_ID && m.msg.header.result == -ETIMEDOUT))
  {
    StartIsSafe(n, next);
    if Disciplined(Start(n, next), actions) {
      RunKeepsCorrelation(Start(n, next), actions);
      var s := After(Start(n, next), actions);
      forall r | 0 <= r < |s.runs|
        ensures CallOk(s.led, s.runs[r].ask, s.runs[r].self, s.runs[r].mail)
      {}
    }
  }

  /** A reply or error reply that is accepted answers the ask whose request its caller holds. */
  lemma AcceptedReplyAnswersItsRequest(s: Sys, a: Action)
    requires Correlated(s) && Genuine(s, a) && (a.BeginReply? || a.BeginError?) && Next(s, a).led.accepted != s.led.accepted
    ensures var x, accepted := |s.led.accepted|, Next(s, a).led.accepted;
            && |accepted| == x + 1 && accepted[..x] == s.led.accepted
            && HoldsRequest(s, accepted[x].ask, a.askId, a.requestReplyId)
            && (a.BeginReply? ==> accepted[x].header == Header(a.descId, Cmd, |a.payload|, a.askId, 0, 0) && accepted[x].payload == a.payload)
            && (a.BeginError? ==> accepted[x].header == Header(a.requestReplyId, Cmd, 0, a.askId, 0, a.result) && accepted[x].payload == [])
  {
    HeldRequestReaches(s, a.on, a.askId, a.requestReplyId);
    var m := ReplyMoves(s, a);
  }

  /** A cancel that succeeds takes out the canceller's own ask, the one it was given the id for. */
  lemma CancelTakesItsOwnAsk(s: Sys, self: Actor, id: Uint32, on: nat)
    requires Correlated(s) && Genuine(s, CancelPending(self, id, on)) && self != NULL && id != 0
    ensures var (table, rc) := CancelAsk(s.led.table, self, id);
            var l' := Next(s, CancelPending(self, id, on)).led;
            && (rc == 0 <==> Live(s.led, on))
            && (rc == 0 ==> l'.table == table && l'.retired == s.led.retired + [Retirement(on, ByCancel, self, on)])
            && (rc != 0 ==> l' == s.led)
  {
    assert TagOk(s.led, on);
    if Live(s.led, on) {
      var i :| 0 <= i < |s.led.table| && s.led.table[i].used && s.led.holder[i] == on;
      FindUnique(s.led.table, i);
    }
  }

  /** A message of an ask that is no longer pending completes nothing: stale replies and timeouts run no callback. */
  lemma StaleMessagesCompleteNothing(s: Sys, t: nat)
    requires Correlated(s) && t in s.ops && s.ops[t].Dequeued? && s.ops[t].mail.origin != Plain
    requires !Live(s.led, s.ops[t].mail.ask)
    ensures Next(s, ClaimMessage(t)) == SetOp(s, t, Handling(s.ops[t].mail, s.ops[t].self))
  {
    assert OpOk(s.led, s.ops[t]);
  }

  /** A timer that outlived its ask claims nothing when it fires. */
  lemma StaleTimersClaimNothing(s: Sys, k: nat)
    requires Correlated(s) && k in s.timers && !Live(s.led, k)
    ensures k < |s.led.asks| && !ClaimTimeout(s.led.table, s.led.asks[k].self, s.led.asks[k].askId).1
  {
    assert TagOk(s.led, k);
  }

  predicate LooksLikeItsAnswer(info: AskInfo, timeoutQueued: bool) {
    && info.target == info.self
    && (info.requestId == info.replyId || (info.requestId == TIMEOUT_MSG_ID && timeoutQueued))
  }

  /** When a request itself completes its pending ask: exactly for a self-ask whose request looks like its reply or its queued timeout. */
  lemma RequestCompletesItsOwnAskIff(s: Sys, t: nat, i: nat)
    requires Correlated(s) && t in s.ops && s.ops[t].Dequeued? && s.ops[t].mail.origin == Request
    requires i < |s.led.table| && s.led.table[i].used && s.led.holder[i] == s.ops[t].mail.ask
    ensures Completes(s.led.table[i], s.ops[t].self, s.ops[t].mail.msg.header)
       <==> LooksLikeItsAnswer(s.led.asks[s.ops[t].mail.ask], s.led.table[i].timeoutQueued)
  {
    assert OpOk(s.led, s.ops[t]);
  }
}

/**
 * Single lock-granular steps at the end of a run, each with its whole effect on the system spelled out, for building
 * runs step by step.
 */
module Steps {
  import opened Types
  import opened AskTable
  import opened Interleaving
  import opened AtMostOnce

  /** `actions` lead from `s0` to `s`. */
  ghost predicate Leads(s0: Sys, actions: seq<Action>, s: Sys) {
    Sized(s0) && After(s0, actions) == s
  }

  lemma Extend(s0: Sys, actions: seq<Action>, s: Sys, a: Action)
    requires Leads(s0, actions, s)
    ensures Sized(s) && Leads(s0, actions + [a], Next(s, a))
  {
    assert (actions + [a])[..|actions|] == actions;
  }

  // ------------------------------------------------------------------ asks

  /** What a reservation that gets the id `id` sends. */
  function RequestMail(s: Sys, a: Action, id: Uint32): Mail
    requires a.BeginAsk?
  {
    Mail(Message(Header(a.request.id, Cmd, a.request.size, id, a.replyId, 0), a.payload), |s.led.asks|, Request)
  }

  lemma StepAsk(s0: Sys, run: seq<Action>, s: Sys, a: Action) returns (s': Sys)
    requires Leads(s0, run, s) && a.BeginAsk? && a.t !in s.ops && a.self != NULL && a.callback != NULL
    ensures Leads(s0, run + [a], s') && s' == DoBeginAsk(s, a)
    ensures var (table, next, id) := Reserve(s.led.table, s.led.next, a.self, a.replyId, a.callback);
            && s'.led.table == table && s'.led.next == next && s'.boxes == s.boxes && s'.runs == s.runs
            && s'.timers == s.timers && s'.handles == s.handles
            && (id.None? ==> s'.ops == s.ops)
            && (id.Some? ==>
                  && s'.ops == s.ops[a.t := if a.timed then Arming(RequestMail(s, a, id.value)) else Posting(RequestMail(s, a, id.value))]
                  && s'.led.asks == s.led.asks + [AskInfo(a.self, a.target, id.value, a.request.id, a.replyId, a.callback)])
  {
    s' := DoBeginAsk(s, a);
    assert Next(s, a) == s';
    Extend(s0, run, s, a);
  }

  lemma StepArm(s0: Sys, run: seq<Action>, s: Sys, t: nat, ok: bool) returns (s': Sys)
    requires Leads(s0, run, s) && t in s.ops && s.ops[t].Arming?
    ensures Leads(s0, run + [Arm(t, ok)], s')
    ensures var m := s.ops[t].mail;
            s' == if ok then s.(timers := s.timers + {m.ask}, ops := s.ops[t := Posting(m)])
                  else s.(ops := s.ops[t := AskUndo(m.ask, m.msg.header.askId)])
  {
    var m := s.ops[t].mail;
    s' := if ok then s.(timers := s.timers + {m.ask}, ops := s.ops[t := Posting(m)])
          else s.(ops := s.ops[t := AskUndo(m.ask, m.msg.header.askId)]);
    assert Next(s, Arm(t, ok)) == s';
    Extend(s0, run, s, Arm(t, ok));
  }

  lemma StepPost(s0: Sys, run: seq<Action>, s: Sys, t: nat, ok: bool) returns (s': Sys)
    requires Leads(s0, run, s) && t in s.ops && s.ops[t].Posting? && s.ops[t].mail.ask < |s.led.asks|
    ensures Leads(s0, run + [PostRequest(t, ok)], s')
    ensures var m := s.ops[t].mail;
            var target := s.led.asks[m.ask].target;
            s' == if ok then s.(handles := s.handles + {m.ask}, boxes := s.boxes[target := BoxOf(s, target) + [m]], ops := s.ops - {t})
                  else s.(ops := s.ops[t := AskUndo(m.ask, m.msg.header.askId)])
  {
    var m := s.ops[t].mail;
    var target := s.led.asks[m.ask].target;
    s' := if ok then s.(handles := s.handles + {m.ask}, boxes := s.boxes[target := BoxOf(s, target) + [m]], ops := s.ops - {t})
          else s.(ops := s.ops[t := AskUndo(m.ask, m.msg.header.askId)]);
    assert Next(s, PostRequest(t, ok)) == s';
    Extend(s0, run, s, PostRequest(t, ok));
  }

  lemma StepUndoAsk(s0: Sys, run: seq<Action>, s: Sys, t: nat) returns (s': Sys)
    requires Leads(s0, run, s) && t in s.ops && s.ops[t].AskUndo?
    ensures Leads(s0, run + [UndoAsk(t)], s')
    ensures s' == s.(led := RetireById(s.led, s.ops[t].askId, AskFailed, s.ops[t].ask), ops := s.ops - {t})
    ensures s'.led.table == Discard(s.led.table, s.ops[t].askId) && s'.led.next == s.led.next
  {
    s' := s.(led := RetireById(s.led, s.ops[t].askId, AskFailed, s.ops[t].ask), ops := s.ops - {t});
    assert Next(s, UndoAsk(t)) == s';
    Extend(s0, run, s, UndoAsk(t));
  }

  // ------------------------------------------------------------------ answers

  /** A section that claims a slot: the table becomes `table`; when it `won`, operation `t` goes on, with message `m` to `to`. */
  ghost predicate Claims(s: Sys, s': Sys, t: nat, table: seq<Slot>, won: bool, to: Actor, m: Message) {
    && s'.boxes == s.boxes && s'.led.next == s.led.next && s'.runs == s.runs && s'.led.table == table
    && (if won then
          && t in s'.ops && s'.ops == s.ops[t := s'.ops[t]] && (s'.ops[t].Answering? || s'.ops[t].Expiring?)
          && s'.ops[t].self == to && s'.ops[t].mail.msg == m
        else s'.ops == s.ops)
  }

  /** An answer to the ask pending under this id was accepted, with this header and payload. */
  ghost predicate Recorded(s: Sys, s': Sys, id: Uint32, on: nat, h: Header, payload: seq<Byte>)
    requires Sized(s)
  {
    var i := Find(s.led.table, id);
    i < |s.led.table| && s'.led.accepted == s.led.accepted + [Acceptance(s.led.holder[i], on, h, payload)]
  }

  ghost predicate ReplyClaims(s: Sys, a: Action, s': Sys)
    requires a.BeginReply? && Sized(s)
  {
    var c := ClaimReply(s.led.table, a.askId, a.requestReplyId, a.descId, _ => a.fits);
    && Claims(s, s', a.t, c.table, c.rc == 0, c.target, Message(Header(a.descId, Cmd, |a.payload|, a.askId, 0, 0), a.payload))
    && (c.rc == 0 ==> s'.ops[a.t].Answering?)
    && (c.rc == 0 ==> Recorded(s, s', a.askId, a.on, Header(a.descId, Cmd, |a.payload|, a.askId, 0, 0), a.payload))
  }

  lemma ReplyEffect(s: Sys, a: Action)
    requires Sized(s) && a.BeginReply? && a.t !in s.ops && a.askId != 0
    ensures ReplyClaims(s, a, DoBeginReply(s, a))
  {}

  lemma StepReply(s0: Sys, run: seq<Action>, s: Sys, a: Action) returns (s': Sys)
    requires Leads(s0, run, s) && a.BeginReply? && a.t !in s.ops && a.askId != 0
    ensures Leads(s0, run + [a], s') && Sized(s) && ReplyClaims(s, a, s') && s' == DoBeginReply(s, a)
  {
    s' := DoBeginReply(s, a);
    assert Next(s, a) == s';
    ReplyEffect(s, a);
    Extend(s0, run, s, a);
  }

  ghost predicate ErrorClaims(s: Sys, a: Action, s': Sys)
    requires a.BeginError? && Sized(s)
  {
    var c := ClaimError(s.led.table, a.askId, a.requestReplyId);
    && Claims(s, s', a.t, c.table, c.rc == 0, c.target, Message(Header(a.requestReplyId, Cmd, 0, a.askId, 0, a.result), []))
    && (c.rc == 0 ==> s'.ops[a.t].Answering?)
    && (c.rc == 0 ==> Recorded(s, s', a.askId, a.on, Header(a.requestReplyId, Cmd, 0, a.askId, 0, a.result), []))
  }

  lemma ErrorEffect(s: Sys, a: Action)
    requires Sized(s) && a.BeginError? && a.t !in s.ops && a.askId != 0 && a.requestReplyId != 0 && a.result != 0
    ensures ErrorClaims(s, a, DoBeginError(s, a))
  {}

  lemma StepError(s0: Sys, run: seq<Action>, s: Sys, a: Action) returns (s': Sys)
    requires Leads(s0, run, s) && a.BeginError? && a.t !in s.ops && a.askId != 0 && a.requestReplyId != 0 && a.result != 0
    ensures Leads(s0, run + [a], s') && Sized(s) && ErrorClaims(s, a, s')
  {
    s' := DoBeginError(s, a);
    assert Next(s, a) == s';
    ErrorEffect(s, a);
    Extend(s0, run, s, a);
  }

  lemma StepAnswer(s0: Sys, run: seq<Action>, s: Sys, t: nat, ok: bool) returns (s': Sys)
    requires Leads(s0, run, s) && t in s.ops && s.ops[t].Answering?
    ensures Leads(s0, run + [SendAnswer(t, ok)], s')
    ensures var m, target := s.ops[t].mail, s.ops[t].self;
            s' == if ok then s.(boxes := s.boxes[target := BoxOf(s, target) + [m]], ops := s.ops - {t})
                  else s.(ops := s.ops[t := AnswerUndo(m.ask, m.msg.header.askId)])
  {
    var m, target := s.ops[t].mail, s.ops[t].self;
    s' := if ok then s.(boxes := s.boxes[target := BoxOf(s, target) + [m]], ops := s.ops - {t})
          else s.(ops := s.ops[t := AnswerUndo(m.ask, m.msg.header.askId)]);
    assert Next(s, SendAnswer(t, ok)) == s';
    Extend(s0, run, s, SendAnswer(t, ok));
  }

  lemma StepUndoAnswer(s0: Sys, run: seq<Action>, s: Sys, t: nat) returns (s': Sys)
    requires Leads(s0, run, s) && t in s.ops && s.ops[t].AnswerUndo?
    ensures Leads(s0, run + [UndoAnswer(t)], s')
    ensures s' == s.(led := RetireById(s.led, s.ops[t].askId, ReplyFailed, s.ops[t].ask), ops := s.ops - {t})
    ensures s'.led.table == Discard(s.led.table, s.ops[t].askId) && s'.led.next == s.led.next
  {
    s' := s.(led := RetireById(s.led, s.ops[t].askId, ReplyFailed, s.ops[t].ask), ops := s.ops - {t});
    assert Next(s, UndoAnswer(t)) == s';
    Extend(s0, run, s, UndoAnswer(t));
  }

  // ------------------------------------------------------------------ timeouts and cancels

  ghost predicate ExpiryClaims(s: Sys, t: nat, self: Actor, id: Uint32, s': Sys) {
    var (table, claimed) := ClaimTimeout(s.led.table, self, id);
    && Claims(s, s', t, table, claimed, self, Message(Header(TIMEOUT_MSG_ID, Cmd, 0, id, 0, -ETIMEDOUT), []))
    && (claimed ==> s'.ops[t].Expiring?)
  }

  lemma ExpiryEffect(s: Sys, t: nat, self: Actor, id: Uint32)
    requires Sized(s) && t !in s.ops
    ensures ExpiryClaims(s, t, self, id, DoBeginExpiry(s, BeginExpiry(t, self, id, None)))
  {}

  /** The environment reports a timeout, with whatever arguments. */
  lemma StepExpiry(s0: Sys, run: seq<Action>, s: Sys, t: nat, self: Actor, id: Uint32) returns (s': Sys)
    requires Leads(s0, run, s) && t !in s.ops
    ensures Leads(s0, run + [BeginExpiry(t, self, id, None)], s') && ExpiryClaims(s, t, self, id, s')
  {
    var a := BeginExpiry(t, self, id, None);
    s' := DoBeginExpiry(s, a);
    assert Next(s, a) == s';
    ExpiryEffect(s, t, self, id);
    Extend(s0, run, s, a);
  }

  /** The armed timer of the ask in slot `i` fires and claims it. */
  lemma TimerEffect(s: Sys, t: nat, i: nat)
    requires TableOk(s.led.table) && Sized(s) && t !in s.ops && i < |s.led.table| && s.led.table[i].used && !s.led.table[i].timeoutQueued
    requires s.led.holder[i] in s.timers && s.led.holder[i] < |s.led.asks| && SlotRecords(s.led.table[i], s.led.asks[s.led.holder[i]])
    ensures var r, k := s.led.table[i], s.led.holder[i];
            var m := Mail(Message(Header(TIMEOUT_MSG_ID, Cmd, 0, r.askId, 0, -ETIMEDOUT), []), k, Expiry);
            DoBeginExpiry(s, BeginExpiry(t, r.actor, r.askId, Some(k)))
              == s.(led := Flag(s.led, i, true, true), timers := s.timers - {k}, ops := s.ops[t := Expiring(m, r.actor)])
  {
    FindUnique(s.led.table, i);
  }

  lemma StepTimer(s0: Sys, run: seq<Action>, s: Sys, t: nat, i: nat) returns (s': Sys)
    requires Leads(s0, run, s) && TableOk(s.led.table) && t !in s.ops && i < |s.led.table| && s.led.table[i].used && !s.led.table[i].timeoutQueued
    requires s.led.holder[i] in s.timers && s.led.holder[i] < |s.led.asks| && SlotRecords(s.led.table[i], s.led.asks[s.led.holder[i]])
    ensures var r, k := s.led.table[i], s.led.holder[i];
            var m := Mail(Message(Header(TIMEOUT_MSG_ID, Cmd, 0, r.askId, 0, -ETIMEDOUT), []), k, Expiry);
            && Leads(s0, run + [BeginExpiry(t, r.actor, r.askId, Some(k))], s')
            && s' == s.(led := Flag(s.led, i, true, true), timers := s.timers - {k}, ops := s.ops[t := Expiring(m, r.actor)])
  {
    var a := BeginExpiry(t, s.led.table[i].actor, s.led.table[i].askId, Some(s.led.holder[i]));
    s' := DoBeginExpiry(s, a);
    assert Next(s, a) == s';
    TimerEffect(s, t, i);
    Extend(s0, run, s, a);
  }

  lemma StepPostExpiry(s0: Sys, run: seq<Action>, s: Sys, t: nat, ok: bool) returns (s': Sys)
    requires Leads(s0, run, s) && t in s.ops && s.ops[t].Expiring?
    ensures Leads(s0, run + [PostExpiry(t, ok)], s')
    ensures var m, target := s.ops[t].mail, s.ops[t].self;
            s' == if ok then s.(boxes := s.boxes[target := BoxOf(s, target) + [m]], ops := s.ops - {t})
                  else s.(ops := s.ops[t := ExpiryUndo(m.ask, m.msg.header.askId, target)])
  {
    var m, target := s.ops[t].mail, s.ops[t].self;
    s' := if ok then s.(boxes := s.boxes[target := BoxOf(s, target) + [m]], ops := s.ops - {t})
          else s.(ops := s.ops[t := ExpiryUndo(m.ask, m.msg.header.askId, target)]);
    assert Next(s, PostExpiry(t, ok)) == s';
    Extend(s0, run, s, PostExpiry(t, ok));
  }

  lemma UndoExpiryEffect(s: Sys, t: nat)
    requires Sized(s) && t in s.ops && s.ops[t].ExpiryUndo?
    ensures var s' := DoUndoExpiry(s, t);
            && s'.boxes == s.boxes && s'.ops == s.ops - {t} && s'.runs == s.runs && s'.led.next == s.led.next
            && s'.led.table == RollbackTimeout(s.led.table, s.ops[t].self, s.ops[t].askId)
  {}

  lemma StepUndoExpiry(s0: Sys, run: seq<Action>, s: Sys, t: nat) returns (s': Sys)
    requires Leads(s0, run, s) && t in s.ops && s.ops[t].ExpiryUndo?
    ensures Leads(s0, run + [UndoExpiry(t)], s') && s' == DoUndoExpiry(s, t)
    ensures s'.boxes == s.boxes && s'.ops == s.ops - {t} && s'.runs == s.runs
    ensures s'.led.table == RollbackTimeout(s.led.table, s.ops[t].self, s.ops[t].askId) && s'.led.next == s.led.next
  {
    s' := DoUndoExpiry(s, t);
    assert Next(s, UndoExpiry(t)) == s';
    UndoExpiryEffect(s, t);
    Extend(s0, run, s, UndoExpiry(t));
  }

  lemma StepCancel(s: Sys, self: Actor, id: Uint32, on: nat) returns (s': Sys)
    requires Sized(s) && self != NULL && id != 0
    ensures Leads(s, [CancelPending(self, id, on)], s') && s' == DoCancel(s, self, id, on)
    ensures s'.boxes == s.boxes && s'.ops == s.ops && s'.led.next == s.led.next && s'.runs == s.runs
    ensures s'.led.table == CancelAsk(s.led.table, self, id).0
  {
    s' := DoCancel(s, self, id, on);
    assert Next(s, CancelPending(self, id, on)) == s';
    assert s'.led.table == CancelAsk(s.led.table, self, id).0;
    Extend(s, [], s, CancelPending(self, id, on));
    assert [] + [CancelPending(self, id, on)] == [CancelPending(self, id, on)];
  }

  // ------------------------------------------------------------------ plain messages and dispatch

  lemma StepPlain(s0: Sys, run: seq<Action>, s: Sys, a: Actor, m: Message) returns (s': Sys)
    requires Leads(s0, run, s) && m.header.askId == 0
    ensures Leads(s0, run + [SendPlain(a, m)], s')
    ensures s' == s.(boxes := s.boxes[a := BoxOf(s, a) + [Mail(m, 0, Plain)]])
  {
    s' := s.(boxes := s.boxes[a := BoxOf(s, a) + [Mail(m, 0, Plain)]]);
    assert Next(s, SendPlain(a, m)) == s';
    Extend(s0, run, s, SendPlain(a, m));
  }

  lemma StepDequeue(s0: Sys, run: seq<Action>, s: Sys, t: nat, a: Actor) returns (s': Sys)
    requires Leads(s0, run, s) && t !in s.ops && BoxOf(s, a) != []
    ensures Leads(s0, run + [Dequeue(t, a)], s')
    ensures s' == s.(boxes := s.boxes[a := BoxOf(s, a)[1..]], ops := s.ops[t := Dequeued(BoxOf(s, a)[0], a)])
  {
    s' := s.(boxes := s.boxes[a := BoxOf(s, a)[1..]], ops := s.ops[t := Dequeued(BoxOf(s, a)[0], a)]);
    assert Next(s, Dequeue(t, a)) == s';
    Extend(s0, run, s, Dequeue(t, a));
  }

  lemma StepClaim(s0: Sys, run: seq<Action>, s: Sys, t: nat) returns (s': Sys)
    requires Leads(s0, run, s) && TableOk(s.led.table) && t in s.ops && s.ops[t].Dequeued?
    ensures Leads(s0, run + [ClaimMessage(t)], s') && s' == DoClaimMessage(s, t)
    ensures s'.boxes == s.boxes && s'.led.next == s.led.next && s'.runs == s.runs
    ensures var (table, callback) := ClaimDispatch(s.led.table, s.ops[t].self, s.ops[t].mail.msg.header);
            && s'.led.table == table
            && (callback == NULL ==> s'.ops == s.ops[t := Handling(s.ops[t].mail, s.ops[t].self)])
            && (callback != NULL ==>
                  && t in s'.ops && s'.ops == s.ops[t := s'.ops[t]] && s'.ops[t].Calling? && s'.ops[t].callback == callback
                  && s'.ops[t].self == s.ops[t].self && s'.ops[t].mail == s.ops[t].mail)
  {
    s' := DoClaimMessage(s, t);
    assert Next(s, ClaimMessage(t)) == s';
    assert s'.led.table == ClaimDispatch(s.led.table, s.ops[t].self, s.ops[t].mail.msg.header).0;
    Extend(s0, run, s, ClaimMessage(t));
  }

  lemma StepRun(s0: Sys, run: seq<Action>, s: Sys, t: nat) returns (s': Sys)
    requires Leads(s0, run, s) && t in s.ops && s.ops[t].Calling?
    ensures Leads(s0, run + [RunCallback(t)], s')
    ensures var op := s.ops[t];
            s' == s.(runs := s.runs + [Run(op.ask, op.callback, op.self, op.mail)], ops := s.ops - {t})
  {
    var op := s.ops[t];
    s' := s.(runs := s.runs + [Run(op.ask, op.callback, op.self, op.mail)], ops := s.ops - {t});
    assert Next(s, RunCallback(t)) == s';
    Extend(s0, run, s, RunCallback(t));
  }

  lemma StepReturn(s0: Sys, run: seq<Action>, s: Sys, t: nat) returns (s': Sys)
    requires Leads(s0, run, s) && t in s.ops && s.ops[t].Handling?
    ensures Leads(s0, run + [HandlerReturns(t)], s') && s' == s.(ops := s.ops - {t})
  {
    s' := s.(ops := s.ops - {t});
    assert Next(s, HandlerReturns(t)) == s';
    Extend(s0, run, s, HandlerReturns(t));
  }
}

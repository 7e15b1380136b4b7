/**
 * Two runs of the ask protocol, from an empty table and with the API used as intended: one ask gets two answers, and an
 * ask that fails has its callback called.
 */
module Witnesses {
  import opened Types
  import opened AskTable
  import opened Interleaving
  import opened AtMostOnce
  import opened Correlation
  import opened SingleReply
  import opened Callbacks
  import opened Steps

  /** The actions lead from `s0` to `s`, and every one of them uses the API as intended. */
  ghost predicate Reaches(s0: Sys, actions: seq<Action>, s: Sys) {
    Leads(s0, actions, s) && Disciplined(s0, actions)
  }

  lemma DisciplineExtends(s0: Sys, actions: seq<Action>, s: Sys, a: Action)
    requires Reaches(s0, actions, s) && NoReuse(s, a) && Genuine(s, a)
    ensures Disciplined(s0, actions + [a])
  {
    assert (actions + [a])[..|actions|] == actions;
  }

  /** Actor 1 asks actor 2, with a timeout: request 5, reply 7, callback 9. */
  const ASK := BeginAsk(0, 1, 2, Header(5, Cmd, 0, 0, 0, 0), [], 7, 9, true)
  const PENDING := Slot(true, false, false, 1, 7, 1, 9)
  const REQUEST := Mail(Message(Header(5, Cmd, 0, 1, 7, 0), []), 0, Request)
  const EXPIRED := Mail(Message(Header(TIMEOUT_MSG_ID, Cmd, 0, 1, 0, -ETIMEDOUT), []), 0, Expiry)

  /** Ask 0 was made and is in slot 0 of the one-slot table. */
  ghost predicate Asked(s: Sys, slot: Slot) {
    s.led.table == [slot] && s.led.holder == [0] && s.led.asks == [AskInfo(1, 2, 1, 5, 7, 9)]
  }

  lemma FirstReservation()
    ensures Start(1, 1).led.table == [ZERO_SLOT] && FreeFrom([ZERO_SLOT], 0) == 0
    ensures Reserve([ZERO_SLOT], 1, 1, 7, 9) == ([PENDING], 2, Some(1))
  {
    assert Find([ZERO_SLOT], 1) == 1;
    assert AllocIdFrom([ZERO_SLOT], 1, 0) == (Some(1), 2);
    assert [ZERO_SLOT][0 := PENDING] == [PENDING];
  }

  lemma FirstAsk() returns (s: Sys)
    ensures Reaches(Start(1, 1), [ASK], s) && Asked(s, PENDING)
    ensures s.ops == map[0 := Arming(REQUEST)] && s.timers == {} && s.boxes == map[] && s.led.accepted == [] && s.runs == []
  {
    var s0 := Start(1, 1);
    StartIsSafe(1, 1);
    FirstReservation();
    assert Leads(s0, [], s0);
    assert s0.led.holder == [0];
    s := StepAsk(s0, [], s0, ASK);
    assert [] + [ASK] == [ASK];
    DisciplineExtends(s0, [], s0, ASK);
    assert s.led.holder == [0][0 := 0];
  }

  /** The timer of ask 0 is armed. */
  lemma ArmedAsk() returns (s: Sys)
    ensures Reaches(Start(1, 1), [ASK, Arm(0, true)], s) && Asked(s, PENDING)
    ensures s.ops == map[0 := Posting(REQUEST)] && s.timers == {0} && s.boxes == map[] && s.led.accepted == [] && s.runs == []
  {
    var s1 := FirstAsk();
    s := StepArm(Start(1, 1), [ASK], s1, 0, true);
    DisciplineExtends(Start(1, 1), [ASK], s1, Arm(0, true));
    assert [ASK] + [Arm(0, true)] == [ASK, Arm(0, true)];
  }

  // ------------------------------------------------------------------ two answers

  const POSTED := [ASK, Arm(0, true)] + [PostRequest(0, true)]

  lemma RequestPosted() returns (s: Sys)
    ensures Reaches(Start(1, 1), POSTED, s) && Asked(s, PENDING)
    ensures s.ops == map[] && BoxOf(s, 2) == [REQUEST] && s.timers == {0} && s.led.accepted == []
  {
    var s2 := ArmedAsk();
    s := StepPost(Start(1, 1), [ASK, Arm(0, true)], s2, 0, true);
    DisciplineExtends(Start(1, 1), [ASK, Arm(0, true)], s2, PostRequest(0, true));
    assert s.ops == map[];
  }

  lemma RequestTaken() returns (s: Sys)
    ensures Reaches(Start(1, 1), POSTED + [Dequeue(0, 2)], s) && Asked(s, PENDING)
    ensures s.ops == map[0 := Dequeued(REQUEST, 2)] && s.timers == {0} && s.led.accepted == []
  {
    var s3 := RequestPosted();
    s := StepDequeue(Start(1, 1), POSTED, s3, 0, 2);
    DisciplineExtends(Start(1, 1), POSTED, s3, Dequeue(0, 2));
  }

  const DELIVERED := POSTED + [Dequeue(0, 2)] + [ClaimMessage(0)]

  /** The request is with the handler of actor 2. */
  lemma RequestDelivered() returns (s: Sys)
    ensures Reaches(Start(1, 1), DELIVERED, s) && Asked(s, PENDING)
    ensures s.ops == map[0 := Handling(REQUEST, 2)] && s.timers == {0} && s.led.accepted == []
  {
    var s4 := RequestTaken();
    NotItsAnswer(s4);
    s := StepClaim(Start(1, 1), POSTED + [Dequeue(0, 2)], s4, 0);
    DisciplineExtends(Start(1, 1), POSTED + [Dequeue(0, 2)], s4, ClaimMessage(0));
  }

  lemma NotItsAnswer(s: Sys)
    requires Asked(s, PENDING) && s.ops == map[0 := Dequeued(REQUEST, 2)]
    ensures DoClaimMessage(s, 0) == s.(ops := map[0 := Handling(REQUEST, 2)])
    ensures ClaimDispatch(s.led.table, 2, REQUEST.msg.header).1 == NULL
  {
    assert !Completes(PENDING, 2, REQUEST.msg.header);
    assert s.ops[0 := Handling(REQUEST, 2)] == map[0 := Handling(REQUEST, 2)];
  }

  const REPLY := BeginReply(1, 0, 1, 7, 7, [], true)
  const ANSWERED := DELIVERED + [REPLY] + [SendAnswer(1, true)]

  /** Its reply was accepted and is in the mailbox of actor 1; the handler still has the request. */
  lemma ReplySent() returns (s: Sys)
    ensures Reaches(Start(1, 1), ANSWERED, s) && Asked(s, PENDING.(replySent := true))
    ensures s.ops == map[0 := Handling(REQUEST, 2)] && s.timers == {0}
    ensures |s.led.accepted| == 1 && s.led.accepted[0].ask == 0
  {
    var s0 := Start(1, 1);
    var s5 := RequestDelivered();
    var s6 := ReplyTaken(s0, DELIVERED, s5, 0, 1);
    assert HoldsRequest(s5, 0, 1, 7) by { assert s5.ops[0].Handling?; }
    DisciplineExtends(s0, DELIVERED, s5, REPLY);
    assert s6.ops[1].Answering?;
    s := StepAnswer(s0, DELIVERED + [REPLY], s6, 1, true);
    DisciplineExtends(s0, DELIVERED + [REPLY], s6, SendAnswer(1, true));
  }

  const EXPIRY := BeginExpiry(2, 1, 1, Some(0))

  /** The armed timer fires before that reply is dispatched. */
  lemma TimerFired() returns (s: Sys)
    ensures Reaches(Start(1, 1), ANSWERED + [EXPIRY], s) && Asked(s, PENDING.(replySent := true, timeoutQueued := true))
    ensures s.ops == map[0 := Handling(REQUEST, 2), 2 := Expiring(EXPIRED, 1)]
    ensures |s.led.accepted| == 1 && s.led.accepted[0].ask == 0
  {
    var s7 := ReplySent();
    s := StepTimer(Start(1, 1), ANSWERED, s7, 2, 0);
    DisciplineExtends(Start(1, 1), ANSWERED, s7, EXPIRY);
    assert s.ops == map[0 := Handling(REQUEST, 2), 2 := Expiring(EXPIRED, 1)];
  }

  const TIMED_OUT := ANSWERED + [EXPIRY] + [PostExpiry(2, false)]

  /** Its message cannot be posted. */
  lemma TimerFailed() returns (s: Sys)
    ensures Reaches(Start(1, 1), TIMED_OUT, s) && Asked(s, PENDING.(replySent := true, timeoutQueued := true))
    ensures s.ops == map[0 := Handling(REQUEST, 2), 2 := ExpiryUndo(0, 1, 1)]
    ensures |s.led.accepted| == 1 && s.led.accepted[0].ask == 0
  {
    var s8 := TimerFired();
    s := StepPostExpiry(Start(1, 1), ANSWERED + [EXPIRY], s8, 2, false);
    DisciplineExtends(Start(1, 1), ANSWERED + [EXPIRY], s8, PostExpiry(2, false));
    assert s.ops == map[0 := Handling(REQUEST, 2), 2 := ExpiryUndo(0, 1, 1)];
  }

  /**
   * A run in which two replies to one request are accepted, the second after the rollback of a timeout that could not be
   * posted; every message, timer and reply in it is used as the API intends.
   */
  lemma TwoAnswersAreReachable() returns (actions: seq<Action>, s: Sys)
    ensures Reaches(Start(1, 1), actions, s) && actions == TIMED_OUT + [UndoExpiry(2)] + [BeginReply(2, 0, 1, 7, 7, [], true)]
    ensures |s.led.accepted| == 2 && s.led.accepted[0].ask == s.led.accepted[1].ask == 0 && !AnsweredOnce(s.led, 0)
  {
    var s0 := Start(1, 1);
    var s9 := TimerFailed();
    assert s9.led.table[0].used && Find(s9.led.table, 1) == 0;
    var s10 := RolledBack(s0, TIMED_OUT, s9, 0, 2);
    DisciplineExtends(s0, TIMED_OUT, s9, UndoExpiry(2));
    var run := TIMED_OUT + [UndoExpiry(2)];
    s := ReplyTaken(s0, run, s10, 0, 2);
    assert HoldsRequest(s10, 0, 1, 7) by { assert s10.ops[0].Handling?; }
    DisciplineExtends(s0, run, s10, BeginReply(2, 0, 1, 7, 7, [], true));
    actions := run + [BeginReply(2, 0, 1, 7, 7, [], true)];
  }

  // ------------------------------------------------------------------ a failed ask that is called back

  const EARLY := BeginExpiry(1, 1, 1, Some(0))

  /** The timer fires before the request is sent. */
  lemma TimerOvertakes() returns (s: Sys)
    ensures Reaches(Start(1, 1), [ASK, Arm(0, true)] + [EARLY], s) && Asked(s, PENDING.(replySent := true, timeoutQueued := true))
    ensures s.ops == map[0 := Posting(REQUEST), 1 := Expiring(EXPIRED, 1)] && s.boxes == map[] && s.runs == []
  {
    var s2 := ArmedAsk();
    s := StepTimer(Start(1, 1), [ASK, Arm(0, true)], s2, 1, 0);
    DisciplineExtends(Start(1, 1), [ASK, Arm(0, true)], s2, EARLY);
  }

  const EXPIRY_QUEUED := [ASK, Arm(0, true)] + [EARLY] + [PostExpiry(1, true)]

  lemma ExpiryPosted() returns (s: Sys)
    ensures Reaches(Start(1, 1), EXPIRY_QUEUED, s) && Asked(s, PENDING.(replySent := true, timeoutQueued := true))
    ensures s.ops == map[0 := Posting(REQUEST)] && BoxOf(s, 1) == [EXPIRED] && s.runs == []
  {
    var s3 := TimerOvertakes();
    s := StepPostExpiry(Start(1, 1), [ASK, Arm(0, true)] + [EARLY], s3, 1, true);
    DisciplineExtends(Start(1, 1), [ASK, Arm(0, true)] + [EARLY], s3, PostExpiry(1, true));
    assert s.ops == map[0 := Posting(REQUEST)];
  }

  const CALLED_BACK := EXPIRY_QUEUED + [Dequeue(1, 1)] + [ClaimMessage(1)] + [RunCallback(1)]

  lemma TimeoutCallback() returns (s: Sys)
    ensures Reaches(Start(1, 1), CALLED_BACK, s) && s.led.asks == [AskInfo(1, 2, 1, 5, 7, 9)]
    ensures s.ops == map[0 := Posting(REQUEST)] && s.runs == [Run(0, 9, 1, EXPIRED)]
  {
    var s0 := Start(1, 1);
    var s4 := ExpiryPosted();
    var s5 := StepDequeue(s0, EXPIRY_QUEUED, s4, 1, 1);
    DisciplineExtends(s0, EXPIRY_QUEUED, s4, Dequeue(1, 1));
    var run := EXPIRY_QUEUED + [Dequeue(1, 1)];
    assert s5.led.table[0].used && Find(s5.led.table, 1) == 0;
    var s6 := StepClaim(s0, run, s5, 1);
    DisciplineExtends(s0, run, s5, ClaimMessage(1));
    assert s6.ops[1] == Calling(0, 9, 1, EXPIRED);
    s := StepRun(s0, run + [ClaimMessage(1)], s6, 1);
    DisciplineExtends(s0, run + [ClaimMessage(1)], s6, RunCallback(1));
    assert s.ops == map[0 := Posting(REQUEST)];
  }

  const UNSENT := CALLED_BACK + [PostRequest(0, false)]

  lemma RequestUnsent() returns (s: Sys)
    ensures Reaches(Start(1, 1), UNSENT, s) && s.ops == map[0 := AskUndo(0, 1)] && s.runs == [Run(0, 9, 1, EXPIRED)]
  {
    var s7 := TimeoutCallback();
    s := StepPost(Start(1, 1), CALLED_BACK, s7, 0, false);
    DisciplineExtends(Start(1, 1), CALLED_BACK, s7, PostRequest(0, false));
  }

  /**
   * A run in which an ask fails because its request cannot be sent, and its callback was called before, with the timeout
   * of the timer that was armed first.
   */
  lemma FailedAskWasCalled() returns (s: Sys, s': Sys)
    ensures Reaches(Start(1, 1), UNSENT, s) && s.ops == map[0 := AskUndo(0, 1)]
    ensures Reaches(Start(1, 1), UNSENT + [UndoAsk(0)], s') && s'.ops == map[]
    ensures s'.runs == [Run(0, 9, 1, EXPIRED)] && Called(s', 0)
  {
    s := RequestUnsent();
    s' := StepUndoAsk(Start(1, 1), UNSENT, s, 0);
    DisciplineExtends(Start(1, 1), UNSENT, s, UndoAsk(0));
    assert s'.runs[0].ask == 0;
  }
}

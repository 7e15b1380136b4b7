/** Safety over every interleaving: an ask is completed at most once, by one section, in its asker's dispatch. */
module AtMostOnce {
  import opened Types
  import opened AskTable
  import opened Interleaving

  // ------------------------------------------------------------------ the ledger invariant

  ghost predicate SlotRecords(s: Slot, info: AskInfo) {
    s.askId == info.askId && s.replyId == info.replyId && s.actor == info.self && s.callback == info.callback
  }

  /** Ask `k` is in the table. */
  ghost predicate Live(l: Ledger, k: nat)
    requires |l.table| == |l.holder|
  {
    exists i :: 0 <= i < |l.table| && l.table[i].used && l.holder[i] == k
  }

  ghost predicate Retired(l: Ledger, k: nat) {
    exists r :: 0 <= r < |l.retired| && l.retired[r].ask == k
  }

  /** Used slots hold different asks and say what those asks were. */
  ghost predicate HoldersOk(l: Ledger)
    requires |l.table| == |l.holder|
  {
    && (forall i :: 0 <= i < |l.table| && l.table[i].used ==>
          l.holder[i] < |l.asks| && SlotRecords(l.table[i], l.asks[l.holder[i]]))
    && (forall i, j :: 0 <= i < j < |l.table| && l.table[i].used && l.table[j].used ==> l.holder[i] != l.holder[j])
  }

  /** Nobody retires twice, and who retired is gone. */
  ghost predicate RetirementsOk(l: Ledger)
    requires |l.table| == |l.holder|
  {
    && (forall r :: 0 <= r < |l.retired| ==> l.retired[r].ask < |l.asks|)
    && (forall q, r :: 0 <= q < r < |l.retired| ==> l.retired[q].ask != l.retired[r].ask)
    && (forall r, i :: 0 <= r < |l.retired| && 0 <= i < |l.table| && l.table[i].used ==> l.holder[i] != l.retired[r].ask)
  }

  ghost predicate LedgerOk(l: Ledger) {
    && |l.table| == |l.holder| <= MAX_SLOTS && TableOk(l.table)
    && HoldersOk(l) && RetirementsOk(l)
    && UsedCount(l.table) + |l.retired| == |l.asks|
    && (forall k :: 0 <= k < |l.asks| ==> Live(l, k) || Retired(l, k))
  }

  lemma RetireKeepsLedger(l: Ledger, i: nat, cause: Cause, actor: Actor, on: nat)
    requires LedgerOk(l) && i < |l.table| && l.table[i].used
    ensures LedgerOk(Retire(l, i, cause, actor, on))
  {
    var l' := Retire(l, i, cause, actor, on);
    UpdateKeepsTable(l.table, i, ZERO_SLOT);
    UsedCountUpdate(l.table, i, ZERO_SLOT);
    RetireKeepsTrack(l, i, cause, actor, on);
  }

  lemma RetireKeepsTrack(l: Ledger, i: nat, cause: Cause, actor: Actor, on: nat)
    requires LedgerOk(l) && i < |l.table| && l.table[i].used
    ensures var l' := Retire(l, i, cause, actor, on);
            forall k :: 0 <= k < |l'.asks| ==> Live(l', k) || Retired(l', k)
  {
    var l' := Retire(l, i, cause, actor, on);
    forall k | 0 <= k < |l'.asks|
      ensures Live(l', k) || Retired(l', k)
    {
      if Retired(l, k) {
        var r :| 0 <= r < |l.retired| && l.retired[r].ask == k;
        assert l'.retired[r].ask == k;
      } else if k == l.holder[i] {
        assert l'.retired[|l.retired|].ask == k;
      } else {
        var j :| 0 <= j < |l.table| && l.table[j].used && l.holder[j] == k;
        assert l'.table[j].used;
      }
    }
  }

  lemma FlagKeepsLedger(l: Ledger, i: nat, replySent: bool, timeoutQueued: bool)
    requires LedgerOk(l) && i < |l.table| && l.table[i].used && (timeoutQueued ==> replySent)
    ensures LedgerOk(Flag(l, i, replySent, timeoutQueued))
  {
    var l' := Flag(l, i, replySent, timeoutQueued);
    UpdateKeepsTable(l.table, i, l'.table[i]);
    UsedCountUpdate(l.table, i, l'.table[i]);
    forall k | 0 <= k < |l'.asks|
      ensures Live(l', k) || Retired(l', k)
    {
      if Live(l, k) {
        var j :| 0 <= j < |l.table| && l.table[j].used && l.holder[j] == k;
        assert l'.table[j].used;
      } else {
        var r :| 0 <= r < |l.retired| && l.retired[r].ask == k;
        assert l'.retired[r].ask == k;
      }
    }
  }

  lemma OccupyKeepsLedger(l: Ledger, info: AskInfo, next: Uint32)
    requires LedgerOk(l) && FreeFrom(l.table, 0) < |l.table|
    requires info.self != NULL && info.callback != NULL && info.askId != 0
    requires forall j :: 0 <= j < |l.table| ==> !Carries(l.table[j], info.askId)
    ensures LedgerOk(Occupy(l, info, next))
  {
    var i := FreeFrom(l.table, 0);
    var l' := Occupy(l, info, next);
    UpdateKeepsTable(l.table, i, l'.table[i]);
    UsedCountUpdate(l.table, i, l'.table[i]);
    forall k | 0 <= k < |l'.asks|
      ensures Live(l', k) || Retired(l', k)
    {
      if k == |l.asks| {
        assert l'.table[i].used && l'.holder[i] == k;
      } else if Live(l, k) {
        var j :| 0 <= j < |l.table| && l.table[j].used && l.holder[j] == k;
        assert l'.table[j].used && l'.holder[j] == k;
      } else {
        var r :| 0 <= r < |l.retired| && l.retired[r].ask == k;
        assert l'.retired[r].ask == k;
      }
    }
  }

  lemma RetireByIdKeepsLedger(l: Ledger, id: Uint32, cause: Cause, on: nat)
    requires LedgerOk(l)
    ensures LedgerOk(RetireById(l, id, cause, on))
    ensures forall i :: 0 <= i < |l.table| ==> !Carries(RetireById(l, id, cause, on).table[i], id)
  {
    var i := Find(l.table, id);
    if i < |l.table| {
      RetireKeepsLedger(l, i, cause, NULL, on);
    }
  }

  // ------------------------------------------------------------------ how a step moves the ledger

  /** The ways a lock section changes the ledger. */
  datatype Move =
    | Stay
    | Tick(next: Uint32)                                             // the id counter moved, nothing was reserved
    | Enter(info: AskInfo, next: Uint32)
    | Leave(i: nat, cause: Cause, actor: Actor, on: nat)
    | Mark(i: nat, replySent: bool, timeoutQueued: bool)
    | Take(i: nat, on: nat, header: Header, payload: seq<Byte>)      // an answer is accepted

  function Moved(l: Ledger, m: Move): Ledger
    requires MoveOk(l, m)
  {
    match m
    case Stay => l
    case Tick(next) => l.(next := next)
    case Enter(info, next) => Occupy(l, info, next)
    case Leave(i, cause, actor, on) => Retire(l, i, cause, actor, on)
    case Mark(i, sent, queued) => Flag(l, i, sent, queued)
    case Take(i, on, h, p) =>
      Flag(l, i, true, l.table[i].timeoutQueued).(accepted := l.accepted + [Acceptance(l.holder[i], on, h, p)])
  }

  predicate MoveOk(l: Ledger, m: Move) {
    && |l.table| == |l.holder|
    && match m
       case Stay => true
       case Tick(_) => true
       case Enter(info, _) =>
         && FreeFrom(l.table, 0) < |l.table| && info.self != NULL && info.callback != NULL && info.askId != 0
         && Find(l.table, info.askId) == |l.table|
       case Leave(i, _, _, _) => i < |l.table| && l.table[i].used
       case Mark(i, sent, queued) => i < |l.table| && l.table[i].used && (queued ==> sent)
       case Take(i, _, _, _) => i < |l.table| && l.table[i].used && !l.table[i].replySent
  }

  lemma MoveKeepsLedger(l: Ledger, m: Move)
    requires LedgerOk(l) && MoveOk(l, m)
    ensures LedgerOk(Moved(l, m)) && HistoryGrows(l, Moved(l, m))
  {
    match m
    case Stay =>
    case Tick(next) => CounterAndAnswersIrrelevant(l, next, l.accepted);
    case Enter(info, next) => OccupyKeepsLedger(l, info, next);
    case Leave(i, cause, actor, on) => RetireKeepsLedger(l, i, cause, actor, on);
    case Mark(i, sent, queued) => FlagKeepsLedger(l, i, sent, queued);
    case Take(i, on, h, p) =>
      FlagKeepsLedger(l, i, true, l.table[i].timeoutQueued);
      CounterAndAnswersIrrelevant(Flag(l, i, true, l.table[i].timeoutQueued), l.next, l.accepted + [Acceptance(l.holder[i], on, h, p)]);
  }

  /** The invariant looks neither at the id counter nor at the accepted answers. */
  lemma CounterAndAnswersIrrelevant(l: Ledger, next: Uint32, accepted: seq<Acceptance>)
    requires LedgerOk(l)
    ensures LedgerOk(l.(next := next, accepted := accepted))
  {
    var l' := l.(next := next, accepted := accepted);
    forall k | 0 <= k < |l'.asks|
      ensures Live(l', k) || Retired(l', k)
    {
      assert Live(l, k) == Live(l', k) && Retired(l, k) == Retired(l', k);
    }
  }

  /** History only grows. */
  ghost predicate HistoryGrows(l: Ledger, l': Ledger) {
    l.asks <= l'.asks && l.retired <= l'.retired && l.accepted <= l'.accepted
  }

  /** The step rolls back a timeout of the ask in slot `i`. */
  predicate RollsBackSlot(s: Sys, a: Action, i: nat) {
    && a.UndoExpiry? && a.t in s.ops && s.ops[a.t].ExpiryUndo?
    && i == Find(s.led.table, s.ops[a.t].askId) && i < |s.led.table| && s.led.table[i].actor == s.ops[a.t].self
  }

  /** Move `m` is what the step does to the ledger. */
  ghost predicate Explains(s: Sys, a: Action, m: Move)
    requires Sized(s)
  {
    && MoveOk(s.led, m) && Next(s, a).led == Moved(s.led, m)
    && (m.Enter? ==> a.BeginAsk? && Reserve(s.led.table, s.led.next, a.self, a.replyId, a.callback).2 == Some(m.info.askId))
    && (m.Mark? && !m.replySent ==> RollsBackSlot(s, a, m.i))
    && (m.Leave? && m.cause == ByCallback ==> a.ClaimMessage?)
  }

  lemma AskMoves(s: Sys, a: Action) returns (m: Move)
    requires Sized(s) && a.BeginAsk?
    ensures Explains(s, a, m)
  {
    var l := s.led;
    m := Stay;
    if Next(s, a).led != l {
      AllocIdFresh(l.table, l.next, 0);
      var (_, next, id) := Reserve(l.table, l.next, a.self, a.replyId, a.callback);
      m := if id.None? then Tick(next) else Enter(AskInfo(a.self, a.target, id.value, a.request.id, a.replyId, a.callback), next);
    }
  }

  lemma ReplyMoves(s: Sys, a: Action) returns (m: Move)
    requires Sized(s) && (a.BeginReply? || a.BeginError?)
    ensures Explains(s, a, m)
  {
    var l := s.led;
    m := Stay;
    if Next(s, a).led != l {
      var i := Find(l.table, a.askId);
      if a.BeginError? {
        m := Take(i, a.on, Header(a.requestReplyId, Cmd, 0, a.askId, 0, a.result), []);
      } else if !a.fits {
        m := Leave(i, ReplyTooBig, NULL, a.on);
      } else {
        m := Take(i, a.on, Header(a.descId, Cmd, |a.payload|, a.askId, 0, 0), a.payload);
      }
    }
  }

  lemma UndoMoves(s: Sys, a: Action) returns (m: Move)
    requires Sized(s) && (a.UndoAsk? || a.UndoAnswer? || a.UndoExpiry?)
    ensures Explains(s, a, m)
  {
    m := Stay;
    if Next(s, a).led != s.led {
      var op := s.ops[a.t];
      var i := Find(s.led.table, op.askId);
      m := if a.UndoExpiry? then Mark(i, false, false) else Leave(i, if a.UndoAsk? then AskFailed else ReplyFailed, NULL, op.ask);
    }
  }

  /** Each step is one of the moves. */
  lemma StepMoves(s: Sys, a: Action) returns (m: Move)
    requires Sized(s)
    ensures Explains(s, a, m)
  {
    if a.BeginAsk? {
      m := AskMoves(s, a);
    } else if a.BeginReply? || a.BeginError? {
      m := ReplyMoves(s, a);
    } else if a.UndoAsk? || a.UndoAnswer? || a.UndoExpiry? {
      m := UndoMoves(s, a);
    } else {
      m := OtherMoves(s, a);
    }
  }

  lemma OtherMoves(s: Sys, a: Action) returns (m: Move)
    requires Sized(s) && !a.BeginAsk? && !a.BeginReply? && !a.BeginError?
    requires !a.UndoAsk? && !a.UndoAnswer? && !a.UndoExpiry?
    ensures Explains(s, a, m)
  {
    var l := s.led;
    m := Stay;
    if Next(s, a).led == l { return; }
    match a
    case BeginExpiry(_, _, id, _) => m := Mark(Find(l.table, id), true, true);
    case CancelPending(self, id, on) => m := Leave(Find(l.table, id), ByCancel, self, on);
    case ClaimMessage(t) =>
      m := Leave(Find(l.table, s.ops[t].mail.msg.header.askId), ByCallback, s.ops[t].self, s.ops[t].mail.ask);
    case _ => assert false;
  }

  /** Every step, whatever its arguments, keeps the ledger invariant. */
  lemma StepKeepsLedger(s: Sys, a: Action)
    requires LedgerOk(s.led)
    ensures LedgerOk(Next(s, a).led) && HistoryGrows(s.led, Next(s, a).led)
  {
    var m := StepMoves(s, a);
    MoveKeepsLedger(s.led, m);
  }

  // ------------------------------------------------------------------ callbacks

  /** Ask `k` was taken out of the table by the dispatcher of its asker, which got the ask's own callback. */
  ghost predicate Completed(l: Ledger, k: nat, callback: Callback, self: Actor, mail: Mail) {
    && k < |l.asks| && l.asks[k].self == self && l.asks[k].callback == callback
    && Retirement(k, ByCallback, self, mail.ask) in l.retired
  }

  /** Callbacks that ran, and those about to, belong to different asks, each completed by dispatch. */
  ghost predicate RunsOk(s: Sys) {
    && (forall t :: t in s.ops && s.ops[t].Calling? ==>
          Completed(s.led, s.ops[t].ask, s.ops[t].callback, s.ops[t].self, s.ops[t].mail))
    && (forall r :: 0 <= r < |s.runs| ==>
          Completed(s.led, s.runs[r].ask, s.runs[r].callback, s.runs[r].self, s.runs[r].mail))
    && (forall t, u :: t in s.ops && u in s.ops && t != u && s.ops[t].Calling? && s.ops[u].Calling? ==> s.ops[t].ask != s.ops[u].ask)
    && (forall t, r :: t in s.ops && s.ops[t].Calling? && 0 <= r < |s.runs| ==> s.ops[t].ask != s.runs[r].ask)
    && (forall q, r :: 0 <= q < r < |s.runs| ==> s.runs[q].ask != s.runs[r].ask)
  }

  /** Operations about to run a callback in `s'` already were in `s`. */
  ghost predicate NoNewCalls(s: Sys, s': Sys) {
    s'.runs == s.runs && forall t :: t in s'.ops && s'.ops[t].Calling? ==> t in s.ops && s.ops[t] == s'.ops[t]
  }

  lemma CompletedStays(l: Ledger, l': Ledger, k: nat, callback: Callback, self: Actor, mail: Mail)
    requires Completed(l, k, callback, self, mail) && HistoryGrows(l, l')
    ensures Completed(l', k, callback, self, mail)
  {
    var r :| 0 <= r < |l.retired| && l.retired[r] == Retirement(k, ByCallback, self, mail.ask);
    assert l'.retired[r] == l.retired[r];
  }

  lemma QuietStepKeepsRuns(s: Sys, s': Sys)
    requires RunsOk(s) && HistoryGrows(s.led, s'.led) && NoNewCalls(s, s')
    ensures RunsOk(s')
  {
    forall t | t in s'.ops && s'.ops[t].Calling?
      ensures Completed(s'.led, s'.ops[t].ask, s'.ops[t].callback, s'.ops[t].self, s'.ops[t].mail)
    {
      CompletedStays(s.led, s'.led, s.ops[t].ask, s.ops[t].callback, s.ops[t].self, s.ops[t].mail);
    }
    forall r | 0 <= r < |s'.runs|
      ensures Completed(s'.led, s'.runs[r].ask, s'.runs[r].callback, s'.runs[r].self, s'.runs[r].mail)
    {
      CompletedStays(s.led, s'.led, s.runs[r].ask, s.runs[r].callback, s.runs[r].self, s.runs[r].mail);
    }
  }

  lemma CompletedIsGone(l: Ledger, k: nat, callback: Callback, self: Actor, mail: Mail, i: nat)
    requires LedgerOk(l) && Completed(l, k, callback, self, mail) && i < |l.table| && l.table[i].used
    ensures l.holder[i] != k
  {
    var r :| 0 <= r < |l.retired| && l.retired[r] == Retirement(k, ByCallback, self, mail.ask);
  }

  /** No callback of an ask in the table ran or is about to. */
  lemma PendingIsNotCalled(s: Sys, i: nat)
    requires LedgerOk(s.led) && RunsOk(s) && i < |s.led.table| && s.led.table[i].used
    ensures forall u :: u in s.ops && s.ops[u].Calling? ==> s.ops[u].ask != s.led.holder[i]
    ensures forall q :: 0 <= q < |s.runs| ==> s.runs[q].ask != s.led.holder[i]
  {
    forall u | u in s.ops && s.ops[u].Calling?
      ensures s.ops[u].ask != s.led.holder[i]
    {
      CompletedIsGone(s.led, s.ops[u].ask, s.ops[u].callback, s.ops[u].self, s.ops[u].mail, i);
    }
    forall q | 0 <= q < |s.runs|
      ensures s.runs[q].ask != s.led.holder[i]
    {
      CompletedIsGone(s.led, s.runs[q].ask, s.runs[q].callback, s.runs[q].self, s.runs[q].mail, i);
    }
  }

  /** The dispatcher's section: the ask it completes was live, so no callback of it ran or is about to. */
  lemma ClaimKeepsRuns(s: Sys, t: nat)
    requires LedgerOk(s.led) && RunsOk(s) && t in s.ops && s.ops[t].Dequeued?
    ensures RunsOk(DoClaimMessage(s, t))
  {
    var l, op, s' := s.led, s.ops[t], DoClaimMessage(s, t);
    var i := Find(l.table, op.mail.msg.header.askId);
    if s'.led == l {
      QuietStepKeepsRuns(s, s');
    } else {
      var quiet := EndOp(s.(led := s'.led), t);
      MoveKeepsLedger(l, Leave(i, ByCallback, op.self, op.mail.ask));
      QuietStepKeepsRuns(s, quiet);
      var k := l.holder[i];
      assert s'.led.retired[|l.retired|] == Retirement(k, ByCallback, op.self, op.mail.ask);
      assert Retirement(k, ByCallback, op.self, op.mail.ask) in s'.led.retired;
      PendingIsNotCalled(s, i);
    }
  }

  lemma RunKeepsRuns(s: Sys, t: nat)
    requires LedgerOk(s.led) && RunsOk(s)
    ensures RunsOk(Next(s, RunCallback(t)))
  {}

  /** The same callbacks are about to be called, and none was called. */
  ghost predicate SameCalls(s: Sys, s': Sys) {
    && s'.runs == s.runs
    && (forall t :: t in s.ops && s.ops[t].Calling? ==> t in s'.ops && s'.ops[t] == s.ops[t])
    && (forall t :: t in s'.ops && s'.ops[t].Calling? ==> t in s.ops && s.ops[t] == s'.ops[t])
  }

  lemma ContinuingKeepsCalls(s: Sys, a: Action)
    requires Sized(s) && !a.ClaimMessage? && !a.RunCallback?
    requires a.Arm? || a.PostRequest? || a.UndoAsk? || a.SendAnswer? || a.UndoAnswer? || a.PostExpiry? || a.UndoExpiry? || a.HandlerReturns?
    ensures a.t in s.ops ==> SameCalls(s, Continue(s, a))
  {}

  /** Only the dispatcher's section and the call itself change which callbacks are about to be called. */
  lemma OnlyClaimsCall(s: Sys, a: Action)
    requires Sized(s) && !a.ClaimMessage? && !a.RunCallback?
    ensures SameCalls(s, Next(s, a))
  {
    match a
    case BeginAsk(_, _, _, _, _, _, _, _) =>
    case BeginReply(_, _, _, _, _, _, _) =>
    case BeginError(_, _, _, _, _) =>
    case BeginExpiry(_, _, _, _) =>
    case CancelPending(_, _, _) =>
    case SendPlain(_, _) =>
    case Dequeue(_, _) =>
    case Forget(_) =>
    case Purge(_) =>
    case _ => ContinuingKeepsCalls(s, a);
  }

  lemma StepKeepsRuns(s: Sys, a: Action)
    requires LedgerOk(s.led) && RunsOk(s)
    ensures RunsOk(Next(s, a))
  {
    StepKeepsLedger(s, a);
    if a.ClaimMessage? {
      if a.t in s.ops && s.ops[a.t].Dequeued? { ClaimKeepsRuns(s, a.t); }
    } else if a.RunCallback? {
      RunKeepsRuns(s, a.t);
    } else {
      OnlyClaimsCall(s, a);
      QuietStepKeepsRuns(s, Next(s, a));
    }
  }

  // ------------------------------------------------------------------ whole runs

  ghost predicate Safe(s: Sys) {
    LedgerOk(s.led) && RunsOk(s)
  }

  /** Safety is kept by every run. */
  lemma {:induction false} RunIsSafe(s: Sys, actions: seq<Action>)
    requires Safe(s)
    ensures Safe(After(s, actions))
    decreases |actions|
  {
    if actions != [] {
      var n := |actions| - 1;
      RunIsSafe(s, actions[..n]);
      StepKeepsLedger(After(s, actions[..n]), actions[n]);
      StepKeepsRuns(After(s, actions[..n]), actions[n]);
    }
  }

  lemma StartIsSafe(n: nat, next: Uint32)
    requires n <= MAX_SLOTS
    ensures Safe(Start(n, next))
  {
    FreeTableCount(Start(n, next).led.table);
  }

  lemma {:induction false} FreeTableCount(t: seq<Slot>)
    requires forall i :: 0 <= i < |t| ==> !t[i].used
    ensures UsedCount(t) == 0
  {
    if t != [] { FreeTableCount(t[..|t| - 1]); }
  }

  lemma {:induction false} HistoryOnlyGrows(s: Sys, actions: seq<Action>)
    requires Safe(s)
    ensures HistoryGrows(s.led, After(s, actions).led)
    decreases |actions|
  {
    if actions != [] {
      var n := |actions| - 1;
      HistoryOnlyGrows(s, actions[..n]);
      RunIsSafe(s, actions[..n]);
      StepKeepsLedger(After(s, actions[..n]), actions[n]);
    }
  }

  /**
   * At most once, over every interleaving from an empty table: an ask is in the table or was retired, never both,
   * and it was retired once; the used slots number the asks reserved minus the asks retired; no ask's callback
   * runs twice, and each ran with the ask's own function in the asker's dispatch.
   */
  lemma AskedAndAnsweredAtMostOnce(n: nat, next: Uint32, actions: seq<Action>)
    requires n <= MAX_SLOTS
    ensures Safe(Start(n, next))
    ensures var s := After(Start(n, next), actions);
            && UsedCount(s.led.table) == |s.led.asks| - |s.led.retired|
            && (forall k :: 0 <= k < |s.led.asks| ==> (Live(s.led, k) <==> !Retired(s.led, k)))
            && (forall q, r :: 0 <= q < r < |s.led.retired| ==> s.led.retired[q].ask != s.led.retired[r].ask)
            && (forall q, r :: 0 <= q < r < |s.runs| ==> s.runs[q].ask != s.runs[r].ask)
            && (forall r :: 0 <= r < |s.runs| ==>
                  && s.runs[r].ask < |s.led.asks|
                  && s.runs[r].self == s.led.asks[s.runs[r].ask].self
                  && s.runs[r].callback == s.led.asks[s.runs[r].ask].callback)
  {
    StartIsSafe(n, next);
    RunIsSafe(Start(n, next), actions);
    var s := After(Start(n, next), actions);
    forall k | 0 <= k < |s.led.asks| && Live(s.led, k)
      ensures !Retired(s.led, k)
    {
      var i :| 0 <= i < |s.led.table| && s.led.table[i].used && s.led.holder[i] == k;
    }
  }

  lemma TakenOutWasNotCalled(s: Sys, r: nat, q: nat)
    requires Safe(s) && r < |s.led.retired| && s.led.retired[r].cause != ByCallback && q < |s.runs|
    ensures s.runs[q].ask != s.led.retired[r].ask
  {
    var run := s.runs[q];
    assert Completed(s.led, run.ask, run.callback, run.self, run.mail);
    var p :| 0 <= p < |s.led.retired| && s.led.retired[p] == Retirement(run.ask, ByCallback, run.self, run.mail.ask);
    assert p != r;
  }

  /** An ask that any section but the dispatcher's took out never has its callback run, then or later. */
  lemma TakenOutIsNeverCalled(s: Sys, r: nat, actions: seq<Action>)
    requires Safe(s) && r < |s.led.retired| && s.led.retired[r].cause != ByCallback
    ensures forall q :: 0 <= q < |After(s, actions).runs| ==> After(s, actions).runs[q].ask != s.led.retired[r].ask
  {
    HistoryOnlyGrows(s, actions);
    RunIsSafe(s, actions);
    var s' := After(s, actions);
    assert s'.led.retired[r] == s.led.retired[r];
    forall q | 0 <= q < |s'.runs|
      ensures s'.runs[q].ask != s.led.retired[r].ask
    {
      TakenOutWasNotCalled(s', r, q);
    }
  }

  /** Once ipc_ask_cancel has returned 0, the cancelled ask's callback never runs, whatever was in flight. */
  lemma CancelWins(s: Sys, self: Actor, id: Uint32, on: nat, actions: seq<Action>)
    requires Safe(s) && self != NULL && id != 0 && CancelAsk(s.led.table, self, id).1 == 0
    ensures var i := Find(s.led.table, id);
            var s1 := Next(s, CancelPending(self, id, on));
            i < |s.led.table| && Safe(s1)
            && forall q :: 0 <= q < |After(s1, actions).runs| ==> After(s1, actions).runs[q].ask != s.led.holder[i]
  {
    StepKeepsLedger(s, CancelPending(self, id, on));
    StepKeepsRuns(s, CancelPending(self, id, on));
    TakenOutIsNeverCalled(Next(s, CancelPending(self, id, on)), |s.led.retired|, actions);
  }

  /** When an ask that failed returns, its id is not pending. */
  lemma FailedAskIsNotPending(s: Sys, t: nat)
    requires Safe(s) && t in s.ops && s.ops[t].AskUndo?
    ensures var l := Next(s, UndoAsk(t)).led;
            forall i :: 0 <= i < |l.table| ==> !Carries(l.table[i], s.ops[t].askId)
  {
    RetireByIdKeepsLedger(s.led, s.ops[t].askId, AskFailed, s.ops[t].ask);
  }
}

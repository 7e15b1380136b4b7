/**
 * The delayed-send handshake of src/port/posix/posix_ipc_port.c between the callers of one actor, which are
 * serialized, and its timer thread, in steps between lock operations and, for the shared payload buffer, single bytes.
 */
module DelayedSend {
  import opened Types

  datatype Owner = Nobody | Caller | Timer

  /** What a caller wants: a send_after, or the cancel_delayed_send of a stop or a restart. */
  datatype Request = SendAfter(w: Wire) | CancelDelayed

  datatype CallerPc =
    | Idle
    | Entering(r: Request)            // about to take delay_lock
    | Locked(r: Request)              // holds delay_lock, has not looked at delay_active
    | Joining(r: Request)             // told the timer to cancel, released the lock, in pthread_join
    | Relocking(r: Request)           // joined, about to take the lock again
    | Writing(w: Wire, copied: nat)   // holds the lock; header stored, `copied` payload bytes stored

  /** `gen` numbers the delayed message the thread was created for. */
  datatype TimerPc =
    | Absent                          // no thread, or joined
    | Created(gen: nat)
    | Waiting(gen: nat)               // in pthread_cond_timedwait, lock released
    | Holding(gen: nat, expired: bool)
    | Sending(gen: nat, header: Header, copied: seq<Byte>)  // lock released; reading the shared buffer
    | Finished(gen: nat)              // returned, not joined

  datatype Sent = Sent(gen: nat, message: Message)

  /**
   * `given[g]` is the g-th delayed message that was accepted; `sent` what timer threads handed to the mailbox. `told` are
   * those whose thread a caller told to cancel before it left its locked section, `fired` those whose wait expired.
   */
  datatype Port = Port(maxPayload: nat, lock: Owner, active: bool, cancel: bool, header: Header, buffer: seq<Byte>,
                       caller: CallerPc, timer: TimerPc, given: seq<Message>, sent: seq<Sent>, told: set<nat>, fired: set<nat>)

  datatype Action =
    | Begin(r: Request)
    | CallerLock | CallerCheck | CallerJoin | CallerRelock | CallerWrite | CallerCreate(ok: bool)
    | TimerLock | TimerWait | TimerWake(expired: bool) | TimerLeave | TimerCopy | TimerSend

  // ------------------------------------------------------------------ steps

  /** What the caller does once it holds the lock and no thread is active. */
  function Proceed(p: Port, r: Request): Port {
    match r
    case CancelDelayed => p.(lock := Nobody, caller := Idle)
    case SendAfter(w) =>
      if w.header.size > p.maxPayload then p.(lock := Nobody, caller := Idle)
      else p.(lock := Caller, header := w.header, caller := Writing(w, 0))
  }

  function ByteAt(w: Wire, i: nat): Byte
    requires w.Readable() && i < w.header.size
  {
    if w.data.Some? then w.data.value[i] else 0
  }

  function CallerStep(p: Port, a: Action): Port {
    match p.caller
    case Idle => (match a
      case Begin(r) => if r.SendAfter? && !r.w.Readable() then p else p.(caller := Entering(r))
      case _ => p)
    case Entering(r) => if a == CallerLock && p.lock == Nobody then p.(lock := Caller, caller := Locked(r)) else p
    case Locked(r) =>
      if a != CallerCheck then p
      else if p.active then
        p.(cancel := true, lock := Nobody, caller := Joining(r),
           told := if p.timer.Created? || p.timer.Waiting? then p.told + {p.timer.gen} else p.told)
      else Proceed(p, r)
    case Joining(r) => if a == CallerJoin && p.timer.Finished? then p.(timer := Absent, caller := Relocking(r)) else p
    case Relocking(r) =>
      if a == CallerRelock && p.lock == Nobody then Proceed(p.(cancel := false, active := false), r) else p
    case Writing(w, n) =>
      if a == CallerWrite && n < w.header.size && n < |p.buffer| && w.Readable() then
        p.(buffer := p.buffer[n := ByteAt(w, n)], caller := Writing(w, n + 1))
      else if a.CallerCreate? && n == w.header.size && w.Readable() then
        if a.ok then p.(lock := Nobody, active := true, caller := Idle, timer := Created(|p.given|), given := p.given + [Copied(w)])
        else p.(lock := Nobody, caller := Idle)
      else p
  }

  function TimerStep(p: Port, a: Action): Port {
    match p.timer
    case Absent => p
    case Created(g) => if a == TimerLock && p.lock == Nobody then p.(lock := Timer, timer := Holding(g, false)) else p
    case Waiting(g) =>
      if a.TimerWake? && p.lock == Nobody then
        p.(lock := Timer, timer := Holding(g, a.expired), fired := if a.expired then p.fired + {g} else p.fired)
      else p
    case Holding(g, expired) =>
      if a == TimerWait && !p.cancel && !expired then p.(lock := Nobody, timer := Waiting(g))
      else if a == TimerLeave && (p.cancel || expired) then
        p.(lock := Nobody, cancel := false, timer := if p.cancel then Finished(g) else Sending(g, p.header, []))
      else p
    case Sending(g, h, c) =>
      if a == TimerCopy && |c| < h.size && |c| < |p.buffer| then p.(timer := Sending(g, h, c + [p.buffer[|c|]]))
      else if a == TimerSend && |c| == h.size then p.(timer := Finished(g), sent := p.sent + [Sent(g, Message(h, c))])
      else p
    case Finished(_) => p
  }

  /** One step of the caller or of the timer thread; an action that does not apply changes nothing. */
  function Next(p: Port, a: Action): Port {
    match a
    case TimerLock => TimerStep(p, a)
    case TimerWait => TimerStep(p, a)
    case TimerWake(_) => TimerStep(p, a)
    case TimerLeave => TimerStep(p, a)
    case TimerCopy => TimerStep(p, a)
    case TimerSend => TimerStep(p, a)
    case _ => CallerStep(p, a)
  }

  /** ipc_port_actor_init */
  function Start(maxPayload: nat): Port {
    Port(maxPayload, Nobody, false, false, Header(0, Event, 0, 0, 0, 0), seq(if maxPayload > 0 then maxPayload else 1, _ => 0),
         Idle, Absent, [], [], {}, {})
  }

  // ------------------------------------------------------------------ the invariant

  predicate HasLock(c: CallerPc) {
    c.Locked? || c.Writing?
  }

  /** The thread may still send. */
  predicate Alive(t: TimerPc) {
    !t.Absent? && !t.Finished?
  }

  ghost predicate LockOk(p: Port) {
    && (p.lock == Caller <==> HasLock(p.caller)) && (p.lock == Timer <==> p.timer.Holding?)
    && (!p.timer.Absent? ==> p.active)
    && (p.active && p.timer.Absent? ==> p.caller.Relocking?)
    && (p.caller.Joining? ==> p.active)
    && (p.caller.Writing? ==> p.timer.Absent? && !p.active)
    && (p.caller.Relocking? ==> p.timer.Absent?)
  }

  /** While its thread may still send, the header and the buffer hold the latest delayed message. */
  ghost predicate MessageOk(p: Port) {
    && (!p.timer.Absent? ==> p.timer.gen == |p.given| - 1)
    && (Alive(p.timer) ==>
          var m := p.given[|p.given| - 1];
          p.header == m.header && m.header.size == |m.payload| <= |p.buffer| && p.buffer[..m.header.size] == m.payload)
    && (p.timer.Sending? ==>
          p.timer.header == p.header && |p.timer.copied| <= p.header.size && p.timer.copied == p.buffer[..|p.timer.copied|])
  }

  /** What the caller has stored so far of the message it is installing. */
  ghost predicate WritingOk(p: Port) {
    p.caller.Writing? ==>
      var w, n := p.caller.w, p.caller.copied;
      && w.Readable() && p.header == w.header && n <= w.header.size <= p.maxPayload <= |p.buffer|
      && forall i :: 0 <= i < n ==> p.buffer[i] == ByteAt(w, i)
  }

  ghost predicate RequestOk(c: CallerPc) {
    (c.Entering? || c.Locked? || c.Joining? || c.Relocking?) && c.r.SendAfter? ==> c.r.w.Readable()
  }

  /** Delayed messages are sent in the order they were accepted, each at most once, as they were given. */
  ghost predicate SentOk(p: Port) {
    && (forall i :: 0 <= i < |p.sent| ==> p.sent[i].gen < |p.given| && p.sent[i].message == p.given[p.sent[i].gen])
    && (forall i, j :: 0 <= i < j < |p.sent| ==> p.sent[i].gen < p.sent[j].gen)
    && (Alive(p.timer) ==> forall i :: 0 <= i < |p.sent| ==> p.sent[i].gen < p.timer.gen)
  }

  ghost predicate PortOk(p: Port) {
    && p.maxPayload <= |p.buffer| && LockOk(p) && MessageOk(p) && WritingOk(p) && RequestOk(p.caller) && SentOk(p)
  }

  lemma CallerKeepsPort(p: Port, a: Action)
    requires PortOk(p)
    ensures PortOk(CallerStep(p, a))
  {
    if p.caller.Writing? {
      WriteKeepsPort(p, a);
    } else if p.caller.Locked? || p.caller.Relocking? {
      ProceedKeepsPort(p, a);
    }
  }

  lemma ProceedKeepsPort(p: Port, a: Action)
    requires PortOk(p) && (p.caller.Locked? || p.caller.Relocking?)
    ensures PortOk(CallerStep(p, a))
  {}

  lemma WriteKeepsPort(p: Port, a: Action)
    requires PortOk(p) && p.caller.Writing?
    ensures PortOk(CallerStep(p, a))
  {
    var w, n := p.caller.w, p.caller.copied;
    if a.CallerCreate? && n == w.header.size && a.ok {
      assert p.buffer[..n] == Copied(w).payload;
    }
  }

  lemma TimerKeepsPort(p: Port, a: Action)
    requires PortOk(p)
    ensures PortOk(TimerStep(p, a))
  {
    if p.timer.Sending? {
      SendKeepsPort(p, a);
    }
  }

  lemma SendKeepsPort(p: Port, a: Action)
    requires PortOk(p) && p.timer.Sending?
    ensures PortOk(TimerStep(p, a))
  {
    var c := p.timer.copied;
    if a == TimerCopy && |c| < p.header.size {
      assert c + [p.buffer[|c|]] == p.buffer[..|c| + 1];
    }
  }

  // ------------------------------------------------------------------ every interleaving

  function After(p: Port, actions: seq<Action>): Port
    decreases |actions|
  {
    if actions == [] then p else After(Next(p, actions[0]), actions[1..])
  }

  lemma {:induction false} RunKeepsPort(p: Port, actions: seq<Action>)
    requires PortOk(p)
    ensures PortOk(After(p, actions))
    decreases |actions|
  {
    if actions != [] {
      CallerKeepsPort(p, actions[0]);
      TimerKeepsPort(p, actions[0]);
      RunKeepsPort(Next(p, actions[0]), actions[1..]);
    }
  }

  /**
   * Over every interleaving of the callers and the timer threads, each delayed message reaches the mailbox at most
   * once, in order, with its own header and payload bytes: the shared buffer is never overwritten under a thread
   * that is reading it.
   */
  lemma DelayedMessagesArriveIntact(maxPayload: nat, actions: seq<Action>)
    ensures var p := After(Start(maxPayload), actions);
            && (forall i :: 0 <= i < |p.sent| ==> p.sent[i].gen < |p.given| && p.sent[i].message == p.given[p.sent[i].gen])
            && (forall i, j :: 0 <= i < j < |p.sent| ==> p.sent[i].gen < p.sent[j].gen)
            && (p.caller.Writing? ==> !Alive(p.timer))
  {
    RunKeepsPort(Start(maxPayload), actions);
  }

  // ------------------------------------------------------------------ what becomes of each delayed message

  /** The `g`-th delayed message was handed to the mailbox. */
  ghost predicate WasSent(p: Port, g: nat) {
    exists i :: 0 <= i < |p.sent| && p.sent[i].gen == g
  }

  /** The thread of the `g`-th delayed message was created and has not returned. */
  predicate UnderWay(p: Port, g: nat) {
    Alive(p.timer) && p.timer.gen == g
  }

  ghost predicate FlagsOk(p: Port) {
    && (p.cancel ==> p.active)
    && (p.timer.Created? || p.timer.Waiting? || p.timer.Holding? ==> (p.cancel <==> p.timer.gen in p.told))
    && (p.timer.Holding? && p.timer.expired ==> p.timer.gen in p.fired)
    && (p.timer.Sending? ==> p.timer.gen !in p.told && p.timer.gen in p.fired)
    && (forall g :: g in p.told ==> g < |p.given|)
  }

  /** A message whose thread has returned was sent, unless it was cancelled in time; and not before its delay was over. */
  ghost predicate Settled(p: Port, g: nat) {
    (WasSent(p, g) <==> g !in p.told) && (g !in p.told ==> g in p.fired)
  }

  ghost predicate OutcomeOk(p: Port) {
    FlagsOk(p) && forall g :: 0 <= g < |p.given| && !UnderWay(p, g) ==> Settled(p, g)
  }

  lemma StepKeepsFlags(p: Port, a: Action)
    requires PortOk(p) && FlagsOk(p)
    ensures FlagsOk(Next(p, a))
  {}

  /** From `p` to `p'` only the message under way was sent, cancelled or fired. */
  ghost predicate OnlyUnderWay(p: Port, p': Port) {
    && p.sent <= p'.sent && p.told <= p'.told && p.fired <= p'.fired
    && (forall i :: |p.sent| <= i < |p'.sent| ==> UnderWay(p, p'.sent[i].gen))
    && (forall g :: g in p'.told && g !in p.told ==> UnderWay(p, g))
  }

  lemma StepTouchesOnlyUnderWay(p: Port, a: Action)
    requires PortOk(p)
    ensures OnlyUnderWay(p, Next(p, a))
  {}

  /** The messages settled so far stay settled. */
  lemma SettledStays(p: Port, p': Port, g: nat)
    requires OnlyUnderWay(p, p') && !UnderWay(p, g) && Settled(p, g)
    ensures Settled(p', g)
  {
    if WasSent(p, g) {
      var i :| 0 <= i < |p.sent| && p.sent[i].gen == g;
      assert p'.sent[i].gen == g;
    }
    if WasSent(p', g) {
      var i :| 0 <= i < |p'.sent| && p'.sent[i].gen == g;
      assert i < |p.sent|;
      assert p.sent[i].gen == g;
    }
  }

  /** The thread of message `g` returns: it has sent it exactly if it was not cancelled in its section. */
  lemma ReturnSettles(p: Port, a: Action, g: nat)
    requires PortOk(p) && FlagsOk(p) && UnderWay(p, g) && !UnderWay(Next(p, a), g)
    ensures Settled(Next(p, a), g)
  {
    var p' := Next(p, a);
    if p.timer.Sending? {
      assert p'.sent[|p.sent|].gen == g;
    } else {
      assert !WasSent(p', g);
    }
  }

  lemma StepKeepsOutcome(p: Port, a: Action)
    requires PortOk(p) && OutcomeOk(p)
    ensures OutcomeOk(Next(p, a))
  {
    StepKeepsFlags(p, a);
    var p' := Next(p, a);
    forall g | 0 <= g < |p'.given| && !UnderWay(p', g)
      ensures Settled(p', g)
    {
      if UnderWay(p, g) {
        ReturnSettles(p, a, g);
      } else {
        NewlyGivenIsUnderWay(p, a, g);
        StepTouchesOnlyUnderWay(p, a);
        SettledStays(p, p', g);
      }
    }
  }

  lemma NewlyGivenIsUnderWay(p: Port, a: Action, g: nat)
    requires PortOk(p) && g < |Next(p, a).given| && !UnderWay(Next(p, a), g)
    ensures g < |p.given|
  {}

  lemma {:induction false} RunKeepsOutcome(p: Port, actions: seq<Action>)
    requires PortOk(p) && OutcomeOk(p)
    ensures OutcomeOk(After(p, actions))
    decreases |actions|
  {
    if actions != [] {
      CallerKeepsPort(p, actions[0]);
      TimerKeepsPort(p, actions[0]);
      StepKeepsOutcome(p, actions[0]);
      RunKeepsOutcome(Next(p, actions[0]), actions[1..]);
    }
  }

  /**
   * Over every interleaving, each delayed message whose thread has returned was handed to the mailbox if and only if no
   * caller told that thread to cancel before it left its section; and only after its wait expired.
   */
  lemma SentUnlessCancelledInTime(maxPayload: nat, actions: seq<Action>, g: nat)
    ensures var p := After(Start(maxPayload), actions);
            g < |p.given| && !UnderWay(p, g) ==>
              (WasSent(p, g) <==> g !in p.told) && (WasSent(p, g) ==> g in p.fired)
  {
    RunKeepsOutcome(Start(maxPayload), actions);
  }

  /** The thread leaves its section only when it is cancelled or its wait has expired, and then it cannot wait on. */
  lemma LeavesOnlyWhenCancelledOrExpired(p: Port)
    requires PortOk(p) && p.timer.Holding?
    ensures Next(p, TimerLeave) != p <==> p.cancel || p.timer.expired
    ensures Next(p, TimerWait) != p <==> !(p.cancel || p.timer.expired)
    ensures Next(p, TimerLeave).timer.Sending? <==> p.timer.expired && !p.cancel
  {}

  /**
   * What a call has done when it returns: no earlier thread is left that could send, and a send_after has installed
   * exactly its own message, unless that is too big or the thread could not be created.
   */
  lemma CallReturns(p: Port, a: Action)
    requires PortOk(p) && !p.caller.Idle? && Next(p, a).caller.Idle?
    ensures var p' := Next(p, a);
            && (p.caller.Writing? || p.caller.Locked? || p.caller.Relocking?)
            && (p.caller.Writing? ==>
                  var w := p.caller.w;
                  && p.caller.copied == w.header.size && a.CallerCreate?
                  && (a.ok ==> |p'.given| == |p.given| + 1 && p'.given[..|p.given|] == p.given && UnderWay(p', |p.given|)
                                 && p'.given[|p.given|] == Copied(w))
                  && (!a.ok ==> p'.given == p.given && !Alive(p'.timer)))
            && (p.caller.Locked? || p.caller.Relocking? ==>
                  && p'.given == p.given && !Alive(p'.timer)
                  && (p.caller.r.CancelDelayed? || p.caller.r.w.header.size > p.maxPayload))
  {}

  // ------------------------------------------------------------------ no deadlock, no lost message

  /** Whom a caller waits for in pthread_join was told to cancel, or is past the point where it matters. */
  ghost predicate JoinOk(p: Port) {
    p.caller.Joining? && (p.timer.Created? || p.timer.Waiting? || p.timer.Holding?) ==> p.cancel
  }

  lemma StepKeepsJoin(p: Port, a: Action)
    requires PortOk(p) && JoinOk(p)
    ensures JoinOk(Next(p, a))
  {}

  /** Steps the caller still has to take. */
  function CallerLeft(p: Port): nat {
    match p.caller
    case Idle => 0
    case Writing(w, n) => if n <= w.header.size then 1 + (w.header.size - n) else 1
    case Relocking(r) => RequestSize(r) + 2
    case Joining(r) => RequestSize(r) + 3
    case Locked(r) => RequestSize(r) + 4
    case Entering(r) => RequestSize(r) + 5
  }

  function RequestSize(r: Request): nat {
    if r.SendAfter? then r.w.header.size else 0
  }

  /** Steps of the thread the caller may have to wait for before its own next one. */
  function ThreadLeft(p: Port): nat {
    match p.timer
    case Absent => 0
    case Finished(_) => 0
    case Sending(_, h, c) => if p.caller.Joining? then (if |c| <= h.size then 1 + (h.size - |c|) else 1) else 0
    case Holding(_, _) => if p.caller.Joining? then 2 + p.header.size else 1
    case Waiting(_) => if p.caller.Joining? then 3 + p.header.size else 0
    case Created(_) => if p.caller.Joining? then 3 + p.header.size else 0
  }

  /** No deadlock: whatever state callers and thread are in, some step brings the call that is under way closer to its return. */
  lemma CallsCanAlwaysReturn(p: Port) returns (a: Action)
    requires PortOk(p) && JoinOk(p) && !p.caller.Idle?
    ensures var p' := Next(p, a);
            CallerLeft(p') < CallerLeft(p) || (CallerLeft(p') == CallerLeft(p) && ThreadLeft(p') < ThreadLeft(p))
  {
    match p.caller
    case Writing(w, n) => a := if n < w.header.size then CallerWrite else CallerCreate(true);
    case Locked(_) => a := CallerCheck;
    case Joining(_) => a := ThreadStep(p); JoinGetsCloser(p);
    case Relocking(_) => a := CallerRelock;
    case Entering(_) =>
      a := if !p.timer.Holding? then CallerLock else if p.cancel || p.timer.expired then TimerLeave else TimerWait;
  }

  lemma JoinGetsCloser(p: Port)
    requires PortOk(p) && JoinOk(p) && p.caller.Joining?
    ensures var p' := Next(p, ThreadStep(p));
            CallerLeft(p') < CallerLeft(p) || (CallerLeft(p') == CallerLeft(p) && ThreadLeft(p') < ThreadLeft(p))
  {}

  /** The next step of a thread that is being joined, or the join itself. */
  function ThreadStep(p: Port): Action {
    match p.timer
    case Finished(_) => CallerJoin
    case Sending(_, h, c) => if |c| < h.size then TimerCopy else TimerSend
    case Holding(_, _) => TimerLeave
    case Waiting(_) => TimerWake(false)
    case _ => TimerLock
  }

  lemma {:induction false} RunKeepsJoin(p: Port, actions: seq<Action>)
    requires PortOk(p) && JoinOk(p)
    ensures JoinOk(After(p, actions))
    decreases |actions|
  {
    if actions != [] {
      CallerKeepsPort(p, actions[0]);
      TimerKeepsPort(p, actions[0]);
      StepKeepsJoin(p, actions[0]);
      RunKeepsJoin(Next(p, actions[0]), actions[1..]);
    }
  }

  /** After any run, a call that is under way can get closer to its return by some step of its own or of the thread. */
  lemma NoDeadlock(maxPayload: nat, actions: seq<Action>) returns (a: Action)
    ensures var p, p' := After(Start(maxPayload), actions), Next(After(Start(maxPayload), actions), a);
            !p.caller.Idle? ==> CallerLeft(p') < CallerLeft(p) || (CallerLeft(p') == CallerLeft(p) && ThreadLeft(p') < ThreadLeft(p))
  {
    RunKeepsPort(Start(maxPayload), actions);
    RunKeepsJoin(Start(maxPayload), actions);
    a := CallerLock;
    if !After(Start(maxPayload), actions).caller.Idle? {
      a := CallsCanAlwaysReturn(After(Start(maxPayload), actions));
    }
  }

  lemma {:induction false} AfterConcat(p: Port, x: seq<Action>, y: seq<Action>)
    ensures After(p, x + y) == After(After(p, x), y)
    decreases |x|
  {
    if x == [] {
      assert x + y == y;
    } else {
      assert (x + y)[0] == x[0] && (x + y)[1..] == x[1..] + y;
      AfterConcat(Next(p, x[0]), x[1..], y);
    }
  }

  /** The caller stores the rest of the payload. */
  lemma {:induction false} WritesAll(p: Port)
    requires PortOk(p) && p.caller.Writing?
    ensures var w, n := p.caller.w, p.caller.copied;
            n <= w.header.size && After(p, seq(w.header.size - n, _ => CallerWrite)).caller == Writing(w, w.header.size)
    ensures var w, n := p.caller.w, p.caller.copied;
            var p' := After(p, seq(w.header.size - n, _ => CallerWrite));
            p' == p.(caller := p'.caller, buffer := p'.buffer)
    decreases p.caller.w.header.size - p.caller.copied
  {
    var w, n := p.caller.w, p.caller.copied;
    var acts := seq(w.header.size - n, _ => CallerWrite);
    if n < w.header.size {
      var p1 := Next(p, CallerWrite);
      CallerKeepsPort(p, CallerWrite);
      assert acts[0] == CallerWrite && acts[1..] == seq(w.header.size - (n + 1), _ => CallerWrite);
      WritesAll(p1);
    }
  }

  /** The thread reads the rest of the payload. */
  lemma {:induction false} CopiesAll(p: Port)
    requires PortOk(p) && p.timer.Sending?
    ensures var h, c := p.timer.header, p.timer.copied;
            var p' := After(p, seq(h.size - |c|, _ => TimerCopy));
            p'.timer.Sending? && |p'.timer.copied| == h.size && p' == p.(timer := Sending(p.timer.gen, h, p'.timer.copied))
    decreases p.timer.header.size - |p.timer.copied|
  {
    var h, c := p.timer.header, p.timer.copied;
    var acts := seq(h.size - |c|, _ => TimerCopy);
    if |c| < h.size {
      TimerKeepsPort(p, TimerCopy);
      assert acts[0] == TimerCopy && acts[1..] == seq(h.size - (|c| + 1), _ => TimerCopy);
      CopiesAll(Next(p, TimerCopy));
    }
  }

  /** From a free port, what a send_after does. */
  function Installing(w: Wire): seq<Action> {
    [Begin(SendAfter(w)), CallerLock, CallerCheck] + Storing(w.header.size)
  }

  function Storing(size: nat): seq<Action> {
    seq(size, _ => CallerWrite) + [CallerCreate(true)]
  }

  /** What its thread does when nobody disturbs it. */
  function Delivering(w: Wire): seq<Action> {
    [TimerLock, TimerWait, TimerWake(true), TimerLeave] + Handing(w.header.size)
  }

  function Handing(size: nat): seq<Action> {
    seq(size, _ => TimerCopy) + [TimerSend]
  }

  lemma ThreeSteps(p: Port, a: Action, b: Action, c: Action)
    ensures After(p, [a, b, c]) == Next(Next(Next(p, a), b), c)
  {
    assert [a, b, c][1..] == [b, c] && [b, c][1..] == [c] && [c][1..] == [];
    assert After(Next(p, a), [b, c]) == After(Next(Next(p, a), b), [c]);
    assert After(Next(Next(p, a), b), [c]) == After(Next(Next(Next(p, a), b), c), []);
  }

  /** The thread waits out its delay and leaves its section. */
  lemma WaitIsOver(p: Port)
    requires p.timer.Created? && p.lock == Nobody && !p.cancel
    ensures var p' := After(p, [TimerLock, TimerWait, TimerWake(true), TimerLeave]);
            p'.timer == Sending(p.timer.gen, p.header, []) && p'.sent == p.sent && p'.given == p.given
  {
    var g := p.timer.gen;
    assert [TimerLock, TimerWait, TimerWake(true), TimerLeave] == [TimerLock, TimerWait, TimerWake(true)] + [TimerLeave];
    ThreeSteps(p, TimerLock, TimerWait, TimerWake(true));
    AfterConcat(p, [TimerLock, TimerWait, TimerWake(true)], [TimerLeave]);
    OneStep(p.(lock := Timer, timer := Holding(g, true), fired := p.fired + {g}), TimerLeave);
  }

  lemma Stores(p: Port)
    requires PortOk(p) && p.caller.Writing? && p.caller.copied == 0
    ensures var p', w := After(p, Storing(p.caller.w.header.size)), p.caller.w;
            && p'.timer == Created(|p.given|) && p'.given == p.given + [Copied(w)] && p'.sent == p.sent
            && p'.caller.Idle? && p'.lock.Nobody? && p'.cancel == p.cancel && PortOk(p')
  {
    var writes := seq(p.caller.w.header.size, _ => CallerWrite);
    WritesAll(p);
    RunKeepsPort(p, writes);
    AfterConcat(p, writes, [CallerCreate(true)]);
    OneStep(After(p, writes), CallerCreate(true));
    RunKeepsPort(p, Storing(p.caller.w.header.size));
  }

  lemma Installs(p: Port, w: Wire)
    requires PortOk(p) && p.caller.Idle? && p.timer.Absent? && !p.cancel && w.Readable() && w.header.size <= p.maxPayload
    ensures var p' := After(p, Installing(w));
            p'.timer == Created(|p.given|) && p'.given == p.given + [Copied(w)] && p'.sent == p.sent
            && p'.caller.Idle? && p'.lock.Nobody? && !p'.cancel && PortOk(p')
  {
    var start := [Begin(SendAfter(w)), CallerLock, CallerCheck];
    RunKeepsPort(p, start);
    ThreeSteps(p, start[0], start[1], start[2]);
    assert After(p, start) == p.(lock := Caller, header := w.header, caller := Writing(w, 0));
    Stores(After(p, start));
    AfterConcat(p, start, Storing(w.header.size));
  }

  /** The thread hands over what it has read. */
  lemma HandsOver(p: Port)
    requires PortOk(p) && p.timer.Sending? && |p.timer.copied| == p.timer.header.size && p.given != []
    ensures Next(p, TimerSend).sent == p.sent + [Sent(|p.given| - 1, p.given[|p.given| - 1])]
  {
    assert p.timer.copied == p.buffer[..p.header.size];
  }

  lemma ReadsAndSends(p: Port)
    requires PortOk(p) && p.timer.Sending? && p.timer.copied == [] && p.given != []
    ensures After(p, Handing(p.timer.header.size)).sent == p.sent + [Sent(|p.given| - 1, p.given[|p.given| - 1])]
  {
    var copies := seq(p.timer.header.size, _ => TimerCopy);
    CopiesAll(p);
    RunKeepsPort(p, copies);
    AfterConcat(p, copies, [TimerSend]);
    OneStep(After(p, copies), TimerSend);
    HandsOver(After(p, copies));
  }

  lemma Delivers(p: Port, w: Wire)
    requires PortOk(p) && p.timer.Created? && p.lock == Nobody && !p.cancel
    requires w.Readable() && p.given != [] && p.given[|p.given| - 1] == Copied(w)
    ensures After(p, Delivering(w)).sent == p.sent + [Sent(|p.given| - 1, Copied(w))]
  {
    WaitIsOver(p);
    RunKeepsPort(p, [TimerLock, TimerWait, TimerWake(true), TimerLeave]);
    assert p.header == w.header;
    ReadsAndSends(After(p, [TimerLock, TimerWait, TimerWake(true), TimerLeave]));
    AfterConcat(p, [TimerLock, TimerWait, TimerWake(true), TimerLeave], Handing(w.header.size));
  }

  lemma OneStep(p: Port, a: Action)
    ensures After(p, [a]) == Next(p, a)
  {
    assert [a][1..] == [];
    assert After(Next(p, a), []) == Next(p, a);
  }

  /**
   * No delayed message is lost: on a free port, a send_after whose message fits, left alone until its delay is over, has
   * that message enqueued, whole.
   */
  lemma UndisturbedMessageArrives(p: Port, w: Wire)
    requires PortOk(p) && p.caller.Idle? && p.timer.Absent? && !p.cancel && w.Readable() && w.header.size <= p.maxPayload
    ensures After(p, Installing(w) + Delivering(w)).sent == p.sent + [Sent(|p.given|, Copied(w))]
  {
    Installs(p, w);
    var p1 := After(p, Installing(w));
    AfterConcat(p, Installing(w), Delivering(w));
    Delivers(p1, w);
  }

  /** Nothing below generation `floor` can be sent any more. */
  ghost predicate Fenced(p: Port, floor: nat) {
    floor <= |p.given| && (Alive(p.timer) ==> p.timer.gen >= floor)
  }

  lemma {:induction false} FenceHolds(p: Port, floor: nat, actions: seq<Action>)
    requires PortOk(p) && Fenced(p, floor)
    ensures |p.sent| <= |After(p, actions).sent|
    ensures forall i :: |p.sent| <= i < |After(p, actions).sent| ==> After(p, actions).sent[i].gen >= floor
    decreases |actions|
  {
    if actions != [] {
      CallerKeepsPort(p, actions[0]);
      TimerKeepsPort(p, actions[0]);
      var p1 := Next(p, actions[0]);
      FenceStep(p, floor, actions[0]);
      FenceHolds(p1, floor, actions[1..]);
      SentGrows(p1, actions[1..]);
    }
  }

  lemma FenceStep(p: Port, floor: nat, a: Action)
    requires PortOk(p) && Fenced(p, floor)
    ensures Fenced(Next(p, a), floor) && p.sent <= Next(p, a).sent
    ensures forall i :: |p.sent| <= i < |Next(p, a).sent| ==> Next(p, a).sent[i].gen >= floor
  {}

  lemma {:induction false} SentGrows(p: Port, actions: seq<Action>)
    requires PortOk(p)
    ensures p.sent <= After(p, actions).sent
    decreases |actions|
  {
    if actions != [] {
      CallerKeepsPort(p, actions[0]);
      TimerKeepsPort(p, actions[0]);
      FenceStep(p, 0, actions[0]);
      SentGrows(Next(p, actions[0]), actions[1..]);
    }
  }

  /** The generations a call leaves behind when it returns: all but the one it installed itself, if it did. */
  function FloorAt(before: Port, after: Port): nat {
    if |after.given| > |before.given| then |before.given| else |after.given|
  }

  /**
   * Once a send_after, a stop or a restart returns, no delayed message accepted earlier is ever enqueued, whatever
   * happens next: only the message that very send_after installed, and later ones.
   */
  lemma ReturnCutsOffEarlierMessages(p: Port, a: Action, actions: seq<Action>)
    requires PortOk(p) && !p.caller.Idle? && Next(p, a).caller.Idle?
    ensures var p1 := Next(p, a);
            && PortOk(p1)
            && forall i :: |p1.sent| <= i < |After(p1, actions).sent| ==> After(p1, actions).sent[i].gen >= FloorAt(p, p1)
  {
    CallerKeepsPort(p, a);
    TimerKeepsPort(p, a);
    ReturnFences(p, a);
    FenceHolds(Next(p, a), FloorAt(p, Next(p, a)), actions);
  }

  lemma ReturnFences(p: Port, a: Action)
    requires PortOk(p) && !p.caller.Idle? && Next(p, a).caller.Idle?
    ensures Fenced(Next(p, a), FloorAt(p, Next(p, a)))
  {}
}

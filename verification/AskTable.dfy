/**
 * The pending-ask table of src/ipc.c. Each section the code runs under the ask lock is a function on the
 * table; class `PendingAsks` holds the table and the id counter in place and is proved to compute those functions.
 */
module AskTable {
  import opened Types

  /** ipc_pending_ask_t, without the deadline, which is written and never read. */
  datatype Slot = Slot(used: bool, replySent: bool, timeoutQueued: bool,
                       askId: Uint32, replyId: Uint32, actor: Actor, callback: Callback)

  /** A slot after memset(slot, 0, sizeof *slot). */
  const ZERO_SLOT := Slot(false, false, false, 0, 0, NULL, NULL)

  /** IPC_CORE_MAX_INFLIGHT_QUERIES is an int. */
  const MAX_SLOTS := 0x7FFF_FFFF

  predicate Carries(s: Slot, id: Uint32) {
    s.used && s.askId == id
  }

  // ------------------------------------------------------------------ lookups

  /** find_pending_ask from slot `i` on: the first slot in use with this id, or the table size. */
  function FindFrom(t: seq<Slot>, id: Uint32, i: nat): (k: nat)
    requires i <= |t|
    ensures i <= k <= |t|
    ensures k < |t| ==> Carries(t[k], id)
    ensures forall j :: i <= j < k ==> !Carries(t[j], id)
    decreases |t| - i
  {
    if i == |t| || Carries(t[i], id) then i else FindFrom(t, id, i + 1)
  }

  function Find(t: seq<Slot>, id: Uint32): nat {
    FindFrom(t, id, 0)
  }

  /** alloc_pending_ask from slot `i` on: the first free slot, or the table size. */
  function FreeFrom(t: seq<Slot>, i: nat): (k: nat)
    requires i <= |t|
    ensures i <= k <= |t|
    ensures k < |t| ==> !t[k].used
    ensures forall j :: i <= j < k ==> t[j].used
    decreases |t| - i
  {
    if i == |t| || !t[i].used then i else FreeFrom(t, i + 1)
  }

  /** The loop of alloc_ask_id after `checked` nonzero candidates: the chosen id and the counter afterwards. */
  function AllocIdFrom(t: seq<Slot>, next: Uint32, checked: nat): (Option<Uint32>, Uint32)
    requires checked <= |t|
    decreases |t| - checked, if next == 0 then 1 else 0
  {
    if checked == |t| then (None, next)
    else if next == 0 then AllocIdFrom(t, 1, checked)
    else if Find(t, next) == |t| then (Some(next), Inc32(next))
    else AllocIdFrom(t, Inc32(next), checked + 1)
  }

  // ------------------------------------------------------------------ lock sections

  /** The section of ipc_ask_with_id_raw: takes a slot and an id, or reports -ENOMEM. The counter moves even then. */
  function Reserve(t: seq<Slot>, next: Uint32, self: Actor, replyId: Uint32, callback: Callback)
    : (r: (seq<Slot>, Uint32, Option<Uint32>))
    ensures |r.0| == |t|
  {
    var i := FreeFrom(t, 0);
    if i == |t| then (t, next, None)
    else
      var (id, next') := AllocIdFrom(t, next, 0);
      if id.None? then (t, next', None)
      else (t[i := Slot(true, false, false, id.value, replyId, self, callback)], next', id)
  }

  /** The failure sections: clears whatever slot carries the id. */
  function Discard(t: seq<Slot>, id: Uint32): (t': seq<Slot>)
    ensures |t'| == |t|
  {
    var i := Find(t, id);
    if i == |t| then t else t[i := ZERO_SLOT]
  }

  /** First section of ipc_ask_timeout_expired; true when the timeout is claimed. */
  function ClaimTimeout(t: seq<Slot>, actor: Actor, id: Uint32): (r: (seq<Slot>, bool))
    ensures |r.0| == |t|
  {
    var i := Find(t, id);
    if i == |t| || t[i].actor != actor || t[i].timeoutQueued then (t, false)
    else (t[i := t[i].(replySent := true, timeoutQueued := true)], true)
  }

  /** Second section of ipc_ask_timeout_expired, after the post failed. */
  function RollbackTimeout(t: seq<Slot>, actor: Actor, id: Uint32): (t': seq<Slot>)
    ensures |t'| == |t|
  {
    var i := Find(t, id);
    if i == |t| || t[i].actor != actor then t
    else t[i := t[i].(replySent := false, timeoutQueued := false)]
  }

  /** What a reply section tells its caller: the return code and, when it is 0, whom to send to. */
  datatype Claim = Claim(table: seq<Slot>, rc: int, target: Actor)

  /**
   * The section of ipc_reply_raw, for request fields `id` and `requestReplyId` and reply descriptor `descId`;
   * `fits(a)` says whether the reply fits the mailbox of `a`.
   */
  function ClaimReply(t: seq<Slot>, id: Uint32, requestReplyId: Uint32, descId: Uint32, fits: Actor -> bool): (c: Claim)
    ensures |c.table| == |t|
  {
    var i := Find(t, id);
    if i == |t| then Claim(t, -ENOENT, NULL)
    else if t[i].replyId != descId || requestReplyId != descId then Claim(t, -EINVAL, NULL)
    else if t[i].replySent then Claim(t, -EALREADY, NULL)
    else if !fits(t[i].actor) then Claim(t[i := ZERO_SLOT], -EMSGSIZE, NULL)
    else Claim(t[i := t[i].(replySent := true)], 0, t[i].actor)
  }

  /** The section of ipc_reply_error_raw. */
  function ClaimError(t: seq<Slot>, id: Uint32, requestReplyId: Uint32): (c: Claim)
    ensures |c.table| == |t|
  {
    var i := Find(t, id);
    if i == |t| then Claim(t, -ENOENT, NULL)
    else if t[i].replyId != requestReplyId then Claim(t, -EINVAL, NULL)
    else if t[i].replySent then Claim(t, -EALREADY, NULL)
    else Claim(t[i := t[i].(replySent := true)], 0, t[i].actor)
  }

  /** The section of ipc_ask_cancel. */
  function CancelAsk(t: seq<Slot>, self: Actor, id: Uint32): (r: (seq<Slot>, int))
    ensures |r.0| == |t|
  {
    var i := Find(t, id);
    if i == |t| || t[i].actor != self then (t, -ENOENT) else (t[i := ZERO_SLOT], 0)
  }

  /** Whether a message dispatched by `self` completes this slot. */
  predicate Completes(s: Slot, self: Actor, h: Header) {
    && s.used && s.askId == h.askId && s.actor == self
    && (h.id == s.replyId || (h.id == TIMEOUT_MSG_ID && s.timeoutQueued))
  }

  /** The section of ipc_dispatch_actor_handlers; the callback to run, or NULL. */
  function ClaimDispatch(t: seq<Slot>, self: Actor, h: Header): (r: (seq<Slot>, Callback))
    ensures |r.0| == |t|
  {
    if h.askId == 0 then (t, NULL)
    else
      var i := Find(t, h.askId);
      if i < |t| && Completes(t[i], self, h) then (t[i := ZERO_SLOT], t[i].callback) else (t, NULL)
  }

  // ------------------------------------------------------------------ what every section keeps

  ghost predicate SlotOk(s: Slot) {
    if s.used then s.askId != 0 && s.actor != NULL && s.callback != NULL && (s.timeoutQueued ==> s.replySent)
    else s == ZERO_SLOT
  }

  /** Ids in use are nonzero and pairwise distinct, free slots are zeroed, a queued timeout counts as an answer. */
  ghost predicate TableOk(t: seq<Slot>) {
    && (forall i :: 0 <= i < |t| ==> SlotOk(t[i]))
    && (forall i, j :: 0 <= i < j < |t| && t[i].used && t[j].used ==> t[i].askId != t[j].askId)
  }

  function UsedCount(t: seq<Slot>): nat {
    if t == [] then 0 else UsedCount(t[..|t| - 1]) + (if t[|t| - 1].used then 1 else 0)
  }

  lemma {:induction false} UsedCountUpdate(t: seq<Slot>, i: nat, s: Slot)
    requires i < |t|
    ensures UsedCount(t[i := s]) == UsedCount(t) - (if t[i].used then 1 else 0) + (if s.used then 1 else 0)
  {
    var n := |t| - 1;
    if i == n {
      assert t[i := s][..n] == t[..n];
    } else {
      assert t[i := s][..n] == t[..n][i := s];
      UsedCountUpdate(t[..n], i, s);
    }
  }

  /** The only slot that carries an id is the one find_pending_ask returns. */
  lemma FindUnique(t: seq<Slot>, i: nat)
    requires TableOk(t) && i < |t| && t[i].used
    ensures Find(t, t[i].askId) == i
  {}

  lemma {:induction false} AllocIdFresh(t: seq<Slot>, next: Uint32, checked: nat)
    requires checked <= |t|
    ensures var id := AllocIdFrom(t, next, checked).0;
            id.Some? ==> id.value != 0 && forall i :: 0 <= i < |t| ==> !Carries(t[i], id.value)
    decreases |t| - checked, if next == 0 then 1 else 0
  {
    if checked < |t| {
      if next == 0 { AllocIdFresh(t, 1, checked); }
      else if Find(t, next) < |t| { AllocIdFresh(t, Inc32(next), checked + 1); }
    }
  }

  lemma UpdateKeepsTable(t: seq<Slot>, i: nat, s: Slot)
    requires TableOk(t) && i < |t| && SlotOk(s)
    requires s.used ==> forall j :: 0 <= j < |t| && j != i ==> !Carries(t[j], s.askId)
    ensures TableOk(t[i := s])
  {}

  lemma ReserveKeepsTable(t: seq<Slot>, next: Uint32, self: Actor, replyId: Uint32, callback: Callback)
    requires TableOk(t) && self != NULL && callback != NULL
    ensures TableOk(Reserve(t, next, self, replyId, callback).0)
  {
    AllocIdFresh(t, next, 0);
    var i, id := FreeFrom(t, 0), AllocIdFrom(t, next, 0).0;
    if i < |t| && id.Some? {
      UpdateKeepsTable(t, i, Slot(true, false, false, id.value, replyId, self, callback));
    }
  }

  /** Every other lock section keeps the table invariant, for any arguments. */
  lemma SectionsKeepTable(t: seq<Slot>, a: Actor, id: Uint32, q: Uint32, d: Uint32, fits: Actor -> bool, h: Header)
    requires TableOk(t)
    ensures TableOk(Discard(t, id)) && TableOk(CancelAsk(t, a, id).0) && TableOk(ClaimDispatch(t, a, h).0)
    ensures TableOk(ClaimTimeout(t, a, id).0) && TableOk(RollbackTimeout(t, a, id))
    ensures TableOk(ClaimReply(t, id, q, d, fits).table) && TableOk(ClaimError(t, id, q).table)
  {
    forall k | k == Find(t, id) || k == Find(t, h.askId)
      ensures k < |t| ==> TableOk(t[k := ZERO_SLOT])
      ensures k < |t| && t[k].used ==> TableOk(t[k := t[k].(replySent := true)])
      ensures k < |t| && t[k].used ==> TableOk(t[k := t[k].(replySent := true, timeoutQueued := true)])
      ensures k < |t| && t[k].used ==> TableOk(t[k := t[k].(replySent := false, timeoutQueued := false)])
    {
      if k < |t| {
        UpdateKeepsTable(t, k, ZERO_SLOT);
        if t[k].used {
          UpdateKeepsTable(t, k, t[k].(replySent := true));
          UpdateKeepsTable(t, k, t[k].(replySent := true, timeoutQueued := true));
          UpdateKeepsTable(t, k, t[k].(replySent := false, timeoutQueued := false));
        }
      }
    }
  }

  // ------------------------------------------------------------------ id allocation never fails early

  /** The `n`-th nonzero candidate id from `next` on. */
  function Candidate(next: Uint32, n: nat): (c: Uint32)
    ensures c != 0
    decreases n
  {
    var first := if next == 0 then 1 else next;
    if n == 0 then first else Candidate(Inc32(first), n - 1)
  }

  /** The nonzero uint32 values in counter order form one cycle of length 2^32 - 1. */
  lemma {:induction false} CandidateClosed(next: Uint32, n: nat)
    requires n < UINT32_LIMIT - 1
    ensures var first := if next == 0 then 1 else next;
            Candidate(next, n) == if first + n < UINT32_LIMIT then first + n else first + n - UINT32_LIMIT + 1
    decreases n
  {
    if n > 0 {
      var first := if next == 0 then 1 else next;
      CandidateClosed(Inc32(first), n - 1);
    }
  }

  lemma CandidatesDistinct(next: Uint32, m: nat, n: nat)
    requires m < n < UINT32_LIMIT - 1
    ensures Candidate(next, m) != Candidate(next, n)
  {
    CandidateClosed(next, m);
    CandidateClosed(next, n);
  }

  /** alloc_ask_id gives up only when each of its candidates is in use. */
  lemma {:induction false} FailureMeansAllTaken(t: seq<Slot>, next: Uint32, checked: nat, n: nat)
    requires checked <= |t| && AllocIdFrom(t, next, checked).0.None?
    requires n < |t| - checked
    ensures Find(t, Candidate(next, n)) < |t|
    decreases |t| - checked, if next == 0 then 1 else 0
  {
    if next == 0 {
      FailureMeansAllTaken(t, 1, checked, n);
      assert Candidate(0, n) == Candidate(1, n);
    } else if n > 0 {
      FailureMeansAllTaken(t, Inc32(next), checked + 1, n - 1);
    }
  }

  /** The id given out is the first candidate not in use, and the counter is one past it. */
  lemma {:induction false} AllocIdIsFirstFree(t: seq<Slot>, next: Uint32, checked: nat) returns (n: nat)
    requires checked <= |t| && AllocIdFrom(t, next, checked).0.Some?
    ensures n < |t| - checked && AllocIdFrom(t, next, checked).0 == Some(Candidate(next, n))
    ensures Find(t, Candidate(next, n)) == |t| && forall m :: 0 <= m < n ==> Find(t, Candidate(next, m)) < |t|
    ensures AllocIdFrom(t, next, checked).1 == if Candidate(next, n) == 0xFFFF_FFFF then 0 else Candidate(next, n) + 1
    decreases |t| - checked, if next == 0 then 1 else 0
  {
    if next == 0 {
      n := AllocIdIsFirstFree(t, 1, checked);
      forall m: nat ensures Candidate(0, m) == Candidate(1, m) {}
    } else if Find(t, next) == |t| {
      n := 0;
    } else {
      var k := AllocIdIsFirstFree(t, Inc32(next), checked + 1);
      n := k + 1;
      forall m | 0 < m <= n
        ensures Candidate(next, m) == Candidate(Inc32(next), m - 1)
      {}
    }
  }

  /** The slot that keeps the `c`-th candidate from being chosen. */
  function Blocker(t: seq<Slot>, next: Uint32, c: nat): nat {
    Find(t, Candidate(next, c))
  }

  lemma BlockersDistinct(t: seq<Slot>, next: Uint32, m: nat, n: nat)
    requires m < n < UINT32_LIMIT - 1 && Blocker(t, next, m) < |t|
    ensures Blocker(t, next, m) != Blocker(t, next, n)
  {
    CandidatesDistinct(next, m, n);
  }

  function Blockers(t: seq<Slot>, next: Uint32, n: nat): set<nat> {
    set c | 0 <= c < n :: Blocker(t, next, c)
  }

  lemma BlockersStep(t: seq<Slot>, next: Uint32, n: nat)
    requires n > 0
    ensures Blockers(t, next, n) == Blockers(t, next, n - 1) + {Blocker(t, next, n - 1)}
  {}

  lemma {:induction false} BlockerCount(t: seq<Slot>, next: Uint32, n: nat)
    requires n <= |t| <= MAX_SLOTS
    requires forall c :: 0 <= c < n ==> Blocker(t, next, c) < |t|
    ensures |Blockers(t, next, n)| == n
  {
    if n > 0 {
      BlockerCount(t, next, n - 1);
      BlockersStep(t, next, n);
      forall c | 0 <= c < n - 1
        ensures Blocker(t, next, c) != Blocker(t, next, n - 1)
      {
        BlockersDistinct(t, next, c, n - 1);
      }
    }
  }

  lemma {:induction false} IndexSetSize(s: set<nat>, n: nat)
    requires forall i :: i in s ==> i < n
    ensures |s| <= n
  {
    if n > 0 {
      IndexSetSize(s - {n - 1}, n - 1);
    } else {
      assert s == {};
    }
  }

  /**
   * While a slot is free, alloc_ask_id succeeds, from any counter value: across the wrap at 2^32 and
   * the skip of zero it has |t| distinct candidates and at most |t| - 1 ids in use.
   */
  lemma AllocIdSucceeds(t: seq<Slot>, next: Uint32)
    requires |t| <= MAX_SLOTS && FreeFrom(t, 0) < |t|
    ensures AllocIdFrom(t, next, 0).0.Some?
  {
    if AllocIdFrom(t, next, 0).0.None? {
      var free := FreeFrom(t, 0);
      forall c | 0 <= c < |t|
        ensures Blocker(t, next, c) < |t|
      {
        FailureMeansAllTaken(t, next, 0, c);
      }
      BlockerCount(t, next, |t|);
      var taken := Blockers(t, next, |t|);
      assert free !in taken;
      forall i | i in taken + {free}
        ensures i < |t|
      {}
      IndexSetSize(taken + {free}, |t|);
    }
  }

  /** How often the loop of alloc_ask_id goes round. */
  function IterationsFrom(t: seq<Slot>, next: Uint32, checked: nat): nat
    requires checked <= |t|
    decreases |t| - checked, if next == 0 then 1 else 0
  {
    if checked == |t| then 0
    else if next == 0 then 1 + IterationsFrom(t, 1, checked)
    else if Find(t, next) == |t| then 1
    else 1 + IterationsFrom(t, Inc32(next), checked + 1)
  }

  /** At most once per slot and once more: the counter passes zero at most once. */
  lemma {:induction false} AllocIdIterations(t: seq<Slot>, next: Uint32, checked: nat)
    requires checked <= |t| <= MAX_SLOTS
    ensures IterationsFrom(t, next, checked) <= |t| - checked + 1
    ensures 1 <= next && next + (|t| - checked) <= UINT32_LIMIT ==> IterationsFrom(t, next, checked) <= |t| - checked
    decreases |t| - checked, if next == 0 then 1 else 0
  {
    if checked < |t| {
      if next == 0 { AllocIdIterations(t, 1, checked); }
      else if Find(t, next) < |t| { AllocIdIterations(t, Inc32(next), checked + 1); }
    }
  }

  /** The lock section of an ask reports -ENOMEM exactly when every slot is in use. */
  lemma ReserveFailsIffFull(t: seq<Slot>, next: Uint32, self: Actor, replyId: Uint32, callback: Callback)
    requires |t| <= MAX_SLOTS
    ensures Reserve(t, next, self, replyId, callback).2.None? <==> forall i :: 0 <= i < |t| ==> t[i].used
  {
    if FreeFrom(t, 0) < |t| {
      AllocIdSucceeds(t, next);
    }
  }

  // ------------------------------------------------------------------ a claimed timeout shuts out replies

  /** Once answered, and so in particular once its timeout is claimed, an ask turns every well-typed reply away. */
  lemma AnsweredTurnsRepliesAway(t: seq<Slot>, i: nat, fits: Actor -> bool)
    requires TableOk(t) && i < |t| && t[i].used && t[i].replySent
    ensures ClaimReply(t, t[i].askId, t[i].replyId, t[i].replyId, fits) == Claim(t, -EALREADY, NULL)
    ensures ClaimError(t, t[i].askId, t[i].replyId) == Claim(t, -EALREADY, NULL)
  {
    FindUnique(t, i);
  }

  // ------------------------------------------------------------------ the table in place

  class PendingAsks {
    const table: array<Slot>
    var nextAskId: Uint32

    constructor (n: nat)
      ensures fresh(table) && table.Length == n && nextAskId == 1
      ensures forall i :: 0 <= i < n ==> table[i] == ZERO_SLOT
    {
      table := new Slot[n](_ => ZERO_SLOT);
      nextAskId := 1;
    }

    method FindPendingAsk(id: Uint32) returns (i: nat)
      ensures i == Find(table[..], id)
    {
      i := 0;
      while i < table.Length
        invariant i <= table.Length
        invariant Find(table[..], id) == FindFrom(table[..], id, i)
      {
        if table[i].used && table[i].askId == id { return; }
        i := i + 1;
      }
    }

    method AllocPendingAsk() returns (i: nat)
      ensures i == FreeFrom(table[..], 0)
    {
      i := 0;
      while i < table.Length
        invariant i <= table.Length
        invariant FreeFrom(table[..], 0) == FreeFrom(table[..], i)
      {
        if !table[i].used { return; }
        i := i + 1;
      }
    }

    method AllocAskId() returns (id: Option<Uint32>, ghost iterations: nat)
      requires 0 < table.Length <= MAX_SLOTS
      modifies this`nextAskId
      ensures (id, nextAskId) == AllocIdFrom(table[..], old(nextAskId), 0)
      ensures iterations == IterationsFrom(table[..], old(nextAskId), 0)
    {
      var checked := 0;
      iterations := 0;
      while checked < table.Length
        invariant checked <= table.Length
        invariant AllocIdFrom(table[..], old(nextAskId), 0) == AllocIdFrom(table[..], nextAskId, checked)
        invariant iterations + IterationsFrom(table[..], nextAskId, checked) == IterationsFrom(table[..], old(nextAskId), 0)
        decreases table.Length - checked, if nextAskId == 0 then 1 else 0
      {
        var candidate := nextAskId;
        nextAskId := Inc32(nextAskId);
        iterations := iterations + 1;
        if candidate == 0 {
          continue;
        }
        checked := checked + 1;
        var i := FindPendingAsk(candidate);
        if i == table.Length {
          return Some(candidate), iterations;
        }
      }
      id := None;
    }

    method ReserveSlot(self: Actor, replyId: Uint32, callback: Callback) returns (id: Option<Uint32>)
      requires 0 < table.Length <= MAX_SLOTS
      modifies this`nextAskId, table
      ensures (table[..], nextAskId, id) == Reserve(old(table[..]), old(nextAskId), self, replyId, callback)
    {
      var i := AllocPendingAsk();
      if i == table.Length {
        return None;
      }
      ghost var iterations;
      id, iterations := AllocAskId();
      if id.None? {
        return;
      }
      table[i] := Slot(true, false, false, id.value, replyId, self, callback);
    }

    method DiscardAsk(id: Uint32)
      modifies table
      ensures table[..] == Discard(old(table[..]), id)
    {
      var i := FindPendingAsk(id);
      if i < table.Length {
        table[i] := ZERO_SLOT;
      }
    }

    method ClaimAskTimeout(actor: Actor, id: Uint32) returns (claimed: bool)
      modifies table
      ensures (table[..], claimed) == ClaimTimeout(old(table[..]), actor, id)
    {
      var i := FindPendingAsk(id);
      if i == table.Length || table[i].actor != actor || table[i].timeoutQueued {
        return false;
      }
      table[i] := table[i].(replySent := true, timeoutQueued := true);
      return true;
    }

    method RollbackAskTimeout(actor: Actor, id: Uint32)
      modifies table
      ensures table[..] == RollbackTimeout(old(table[..]), actor, id)
    {
      var i := FindPendingAsk(id);
      if i < table.Length && table[i].actor == actor {
        table[i] := table[i].(replySent := false, timeoutQueued := false);
      }
    }

    method ClaimAskReply(id: Uint32, requestReplyId: Uint32, descId: Uint32, fits: Actor -> bool)
      returns (rc: int, target: Actor)
      modifies table
      ensures Claim(table[..], rc, target) == ClaimReply(old(table[..]), id, requestReplyId, descId, fits)
    {
      var i := FindPendingAsk(id);
      if i == table.Length {
        return -ENOENT, NULL;
      }
      if table[i].replyId != descId || requestReplyId != descId {
        return -EINVAL, NULL;
      }
      if table[i].replySent {
        return -EALREADY, NULL;
      }
      if !fits(table[i].actor) {
        table[i] := ZERO_SLOT;
        return -EMSGSIZE, NULL;
      }
      target := table[i].actor;
      table[i] := table[i].(replySent := true);
      rc := 0;
    }

    method ClaimAskError(id: Uint32, requestReplyId: Uint32) returns (rc: int, target: Actor)
      modifies table
      ensures Claim(table[..], rc, target) == ClaimError(old(table[..]), id, requestReplyId)
    {
      var i := FindPendingAsk(id);
      if i == table.Length {
        return -ENOENT, NULL;
      }
      if table[i].replyId != requestReplyId {
        return -EINVAL, NULL;
      }
      if table[i].replySent {
        return -EALREADY, NULL;
      }
      target := table[i].actor;
      table[i] := table[i].(replySent := true);
      rc := 0;
    }

    method CancelPending(self: Actor, id: Uint32) returns (rc: int)
      modifies table
      ensures (table[..], rc) == CancelAsk(old(table[..]), self, id)
    {
      var i := FindPendingAsk(id);
      if i == table.Length || table[i].actor != self {
        return -ENOENT;
      }
      table[i] := ZERO_SLOT;
      return 0;
    }

    method ClaimForDispatch(self: Actor, h: Header) returns (callback: Callback)
      modifies table
      ensures (table[..], callback) == ClaimDispatch(old(table[..]), self, h)
    {
      callback := NULL;
      if h.askId != 0 {
        var i := FindPendingAsk(h.askId);
        if h.id == TIMEOUT_MSG_ID && i < table.Length && table[i].actor == self && table[i].timeoutQueued {
          callback := table[i].callback;
          table[i] := ZERO_SLOT;
        } else if i < table.Length && table[i].actor == self && table[i].replyId == h.id {
          callback := table[i].callback;
          table[i] := ZERO_SLOT;
        }
      }
    }
  }
}

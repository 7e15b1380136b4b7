/**
 * The two views of the API fit together: every call and every dispatch taken as one step (Core) is a run of the
 * lock-granular steps (Interleaving) by one operation that nobody interrupts, with the same ask table, id counter and
 * mailboxes. What is proved over every interleaving therefore holds of the calls as well.
 */
module Refinement {
  import opened Types
  import opened Mailbox
  import opened AskTable
  import opened Registry
  import opened Core
  import opened CoreDrain
  import opened AtMostOnce
  import opened Steps
  import I = Interleaving

  /** The messages of a tagged mailbox. */
  function Bodies(q: seq<I.Mail>): (b: seq<Message>)
    ensures |b| == |q| && forall i :: 0 <= i < |q| ==> b[i] == q[i].msg
  {
    seq(|q|, i requires 0 <= i < |q| => q[i].msg)
  }

  ghost predicate BoxesMatch(actors: map<Actor, ActorState>, s: I.Sys) {
    forall a :: a in actors ==> Bodies(I.BoxOf(s, a)) == actors[a].box.queue
  }

  /** The same table, counter and mailboxes. */
  ghost predicate Same(w: World, s: I.Sys) {
    s.led.table == w.table && s.led.next == w.next && BoxesMatch(w.actors, s)
  }

  lemma AppendMatches(actors: map<Actor, ActorState>, actors': map<Actor, ActorState>, s: I.Sys, s': I.Sys, a: Actor, m: I.Mail)
    requires BoxesMatch(actors, s) && actors'.Keys == actors.Keys && a in actors
    requires actors'[a].box.queue == actors[a].box.queue + [m.msg]
    requires forall b :: b in actors && b != a ==> actors'[b].box.queue == actors[b].box.queue
    requires s'.boxes == s.boxes[a := I.BoxOf(s, a) + [m]]
    ensures BoxesMatch(actors', s')
  {
    forall b | b in actors
      ensures Bodies(I.BoxOf(s', b)) == actors'[b].box.queue
    {
      if b != a { assert I.BoxOf(s', b) == I.BoxOf(s, b); }
    }
  }

  // ------------------------------------------------------------------ calls

  /** What a finished call leaves: the called world's image, no operation of its own, and no callback run. */
  ghost predicate Finished(s0: I.Sys, run: seq<I.Action>, s: I.Sys, w: World) {
    Leads(s0, run, s) && Same(w, s) && s.ops == s0.ops && s.runs == s0.runs
  }

  lemma Nothing(s: I.Sys, w: World)
    requires I.Sized(s) && Same(w, s)
    ensures Finished(s, [], s, w)
  {}

  lemma RemoveFresh<V>(m: map<nat, V>, t: nat, v: V)
    requires t !in m
    ensures m[t := v] - {t} == m
  {}

  lemma ReplaceFresh<V>(m: map<nat, V>, t: nat, u: V, v: V)
    ensures m[t := u][t := v] == m[t := v]
  {}

  /** Operation `t`, begun in `s0`, is the only difference in what is under way. */
  ghost predicate Under(s0: I.Sys, run: seq<I.Action>, s: I.Sys, t: nat) {
    Leads(s0, run, s) && t !in s0.ops && s.runs == s0.runs && t in s.ops && s.ops == s0.ops[t := s.ops[t]]
  }

  ghost function AskAction(w: World, c: Call, t: nat): I.Action
    requires WorldOk(w) && CallOk(w.actors.Keys, c) && c.Ask? && ReachesTable(w, c)
  {
    var payload := Copied(Wire(Header(0, Cmd, c.request.size, 0, 0, 0), c.payload)).payload;
    I.BeginAsk(t, c.self, Prepare(w, c.request).0, Header(EnsureId(c.request).id, Cmd, c.request.size, 0, 0, 0), payload,
               EnsureId(c.reply).id, c.callback, c.timed)
  }

  lemma AskActionSends(w: World, c: Call, s: I.Sys, t: nat, id: Uint32)
    requires WorldOk(w) && CallOk(w.actors.Keys, c) && c.Ask? && ReachesTable(w, c)
    ensures RequestMail(s, AskAction(w, c, t), id).msg == Copied(RequestWire(c, id))
  {}

  lemma ReserveIsAStep(s: I.Sys, a: I.Action) returns (s1: I.Sys)
    requires I.Sized(s) && a.BeginAsk? && a.t !in s.ops && a.self != NULL && a.callback != NULL
    ensures var (table, next, id) := Reserve(s.led.table, s.led.next, a.self, a.replyId, a.callback);
            && Leads(s, [a], s1) && s1.led.table == table && s1.led.next == next && s1.boxes == s.boxes && s1.runs == s.runs
            && (id.None? ==> s1.ops == s.ops)
            && (id.Some? ==>
                  var mail := RequestMail(s, a, id.value);
                  && Under(s, [a], s1, a.t) && s1.ops[a.t] == (if a.timed then I.Arming(mail) else I.Posting(mail))
                  && mail.ask < |s1.led.asks| && s1.led.asks[mail.ask].target == a.target)
  {
    assert Leads(s, [], s);
    s1 := StepAsk(s, [], s, a);
    assert [] + [a] == [a];
  }

  /** The reservation of an ask that reaches the table. */
  lemma AskBegins(w: World, c: Call, s: I.Sys, t: nat) returns (pre: seq<I.Action>, s1: I.Sys)
    requires WorldOk(w) && CallOk(w.actors.Keys, c) && c.Ask? && ReachesTable(w, c) && I.Sized(s) && Same(w, s) && t !in s.ops
    ensures var (table, next, id) := Reserve(w.table, w.next, c.self, EnsureId(c.reply).id, c.callback);
            && Leads(s, pre, s1) && Same(w.(table := table, next := next), s1) && s1.runs == s.runs
            && (id.None? ==> s1.ops == s.ops)
            && (id.Some? ==>
                  && Under(s, pre, s1, t) && (if c.timed then s1.ops[t].Arming? else s1.ops[t].Posting?)
                  && s1.ops[t].mail.msg == Copied(RequestWire(c, id.value)) && s1.ops[t].mail.ask < |s1.led.asks|
                  && s1.led.asks[s1.ops[t].mail.ask].target == Prepare(w, c.request).0)
  {
    var a := AskAction(w, c, t);
    s1 := ReserveIsAStep(s, a);
    pre := [a];
    var id := Reserve(w.table, w.next, c.self, EnsureId(c.reply).id, c.callback).2;
    if id.Some? { AskActionSends(w, c, s, t, id.value); }
  }

  lemma AskIsARun(w: World, c: Call, s: I.Sys, t: nat) returns (run: seq<I.Action>, s': I.Sys)
    requires Good(w) && CallOk(w.actors.Keys, c) && c.Ask? && I.Sized(s) && Same(w, s) && t !in s.ops
    ensures Finished(s, run, s', ExecAsk(w, c).world)
  {
    if !ReachesTable(w, c) {
      Nothing(s, w);
      return [], s;
    }
    var (table, next, id) := Reserve(w.table, w.next, c.self, EnsureId(c.reply).id, c.callback);
    run, s' := AskBegins(w, c, s, t);
    if id.Some? {
      run, s' := RestOfAsk(w.(table := table, next := next), c, s, run, s', t, Prepare(w, c.request).0, id.value);
    }
  }

  /** What a send does to a world, whichever way it ends. */
  ghost predicate Sent(w: World, w': World, a: Actor, m: Wire, rc: int)
    requires m.Readable()
  {
    && a in w.actors && w'.actors.Keys == w.actors.Keys && w'.table == w.table && w'.next == w.next
    && (forall b :: b in w.actors && (b != a || rc != 0) ==> w'.actors[b].box.queue == w.actors[b].box.queue)
    && (rc == 0 ==> w'.actors[a].box.queue == w.actors[a].box.queue + [Copied(m)])
  }

  lemma DeliverSends(w: World, a: Actor, m: Wire)
    requires a in w.actors && m.Readable()
    ensures Sent(w, Deliver(w, a, m).0, a, m, Deliver(w, a, m).1)
    ensures Sent(w, Post(w, a, m).0, a, m, Post(w, a, m).1)
  {
    DeliverAppends(w, a, m);
  }

  lemma RestOfAsk(w: World, c: Call, s0: I.Sys, pre: seq<I.Action>, s: I.Sys, t: nat, target: Actor, id: Uint32)
    returns (run: seq<I.Action>, s': I.Sys)
    requires c.Ask? && c.request.name.Some? && c.reply.name.Some? && Covers(c.payload, c.request) && target in w.actors
    requires Under(s0, pre, s, t) && Same(w, s)
    requires if c.timed then s.ops[t].Arming? else s.ops[t].Posting?
    requires s.ops[t].mail.msg == Copied(RequestWire(c, id))
    requires s.ops[t].mail.ask < |s.led.asks| && s.led.asks[s.ops[t].mail.ask].target == target
    ensures Finished(s0, run, s', AskReserved(w, c, target, id).world)
  {
    if c.timed && c.scheduleRc != 0 {
      run, s' := UnarmedAsk(w, s0, pre, s, t, id);
    } else {
      var s1, run1 := s, pre;
      if c.timed {
        run1, s1 := ArmedAsk(w, s0, pre, s, t);
      }
      DeliverSends(w, target, RequestWire(c, id));
      var (w1, rc) := Deliver(w, target, RequestWire(c, id));
      run, s' := PostOfAsk(w, w1, s0, run1, s1, t, target, RequestWire(c, id), rc);
    }
  }

  /** The timer is armed: the ask goes on. */
  lemma ArmedAsk(w: World, s0: I.Sys, pre: seq<I.Action>, s: I.Sys, t: nat) returns (run: seq<I.Action>, s': I.Sys)
    requires Under(s0, pre, s, t) && Same(w, s) && s.ops[t].Arming?
    ensures Under(s0, run, s', t) && Same(w, s') && s'.ops[t] == I.Posting(s.ops[t].mail) && s'.led == s.led
  {
    s' := StepArm(s0, pre, s, t, true);
    run := pre + [I.Arm(t, true)];
    ReplaceFresh(s0.ops, t, s.ops[t], s'.ops[t]);
  }

  /** The timer could not be armed: the ask is undone. */
  lemma UnarmedAsk(w: World, s0: I.Sys, pre: seq<I.Action>, s: I.Sys, t: nat, id: Uint32)
    returns (run: seq<I.Action>, s': I.Sys)
    requires Under(s0, pre, s, t) && Same(w, s) && s.ops[t].Arming? && s.ops[t].mail.msg.header.askId == id
    ensures Finished(s0, run, s', w.(table := Discard(w.table, id)))
  {
    var s1 := StepArm(s0, pre, s, t, false);
    ReplaceFresh(s0.ops, t, s.ops[t], s1.ops[t]);
    s' := StepUndoAsk(s0, pre + [I.Arm(t, false)], s1, t);
    RemoveFresh(s0.ops, t, s1.ops[t]);
    run := pre + [I.Arm(t, false)] + [I.UndoAsk(t)];
  }

  lemma PostOfAsk(w: World, w1: World, s0: I.Sys, pre: seq<I.Action>, s: I.Sys, t: nat, target: Actor, m: Wire, rc: int)
    returns (run: seq<I.Action>, s': I.Sys)
    requires m.Readable() && Sent(w, w1, target, m, rc) && Under(s0, pre, s, t) && Same(w, s)
    requires s.ops[t].Posting? && s.ops[t].mail.msg == Copied(m)
    requires s.ops[t].mail.ask < |s.led.asks| && s.led.asks[s.ops[t].mail.ask].target == target
    ensures Finished(s0, run, s', if rc != 0 then w1.(table := Discard(w1.table, m.header.askId)) else w1)
  {
    var s2 := StepPost(s0, pre, s, t, rc == 0);
    run := pre + [I.PostRequest(t, rc == 0)];
    if rc == 0 {
      RemoveFresh(s0.ops, t, s.ops[t]);
      AppendMatches(w.actors, w1.actors, s, s2, target, s.ops[t].mail);
      return run, s2;
    }
    ReplaceFresh(s0.ops, t, s.ops[t], s2.ops[t]);
    s' := StepUndoAsk(s0, run, s2, t);
    RemoveFresh(s0.ops, t, s2.ops[t]);
    run := run + [I.UndoAsk(t)];
  }

  /** An answer that was claimed is sent, or undone when the send fails. */
  lemma RestOfAnswer(w: World, w1: World, s0: I.Sys, pre: seq<I.Action>, s: I.Sys, t: nat, target: Actor, m: Wire, rc: int)
    returns (run: seq<I.Action>, s': I.Sys)
    requires m.Readable() && Sent(w, w1, target, m, rc) && Under(s0, pre, s, t) && Same(w, s)
    requires s.ops[t].Answering? && s.ops[t].self == target && s.ops[t].mail.msg == Copied(m)
    ensures Finished(s0, run, s', if rc != 0 then w1.(table := Discard(w1.table, m.header.askId)) else w1)
    ensures s'.led.accepted == s.led.accepted
  {
    var s2 := StepAnswer(s0, pre, s, t, rc == 0);
    run := pre + [I.SendAnswer(t, rc == 0)];
    if rc == 0 {
      RemoveFresh(s0.ops, t, s.ops[t]);
      AppendMatches(w.actors, w1.actors, s, s2, target, s.ops[t].mail);
      s' := s2;
    } else {
      ReplaceFresh(s0.ops, t, s.ops[t], s2.ops[t]);
      run, s' := UnsentAnswer(w1, s0, run, s2, t, m.header.askId);
    }
  }

  /** The answer could not be sent: its ask is dropped. */
  lemma UnsentAnswer(w: World, s0: I.Sys, pre: seq<I.Action>, s: I.Sys, t: nat, id: Uint32)
    returns (run: seq<I.Action>, s': I.Sys)
    requires Under(s0, pre, s, t) && Same(w, s) && s.ops[t].AnswerUndo? && s.ops[t].askId == id
    ensures Finished(s0, run, s', w.(table := Discard(w.table, id))) && s'.led.accepted == s.led.accepted
  {
    s' := StepUndoAnswer(s0, pre, s, t);
    RemoveFresh(s0.ops, t, s.ops[t]);
    run := pre + [I.UndoAnswer(t)];
  }

  lemma FitOnly(t: seq<Slot>, id: Uint32, q: Uint32, d: Uint32, f: Actor -> bool, fits: bool)
    requires Find(t, id) < |t| ==> f(t[Find(t, id)].actor) == fits
    ensures ClaimReply(t, id, q, d, f) == ClaimReply(t, id, q, d, _ => fits)
  {}

  /** The message a reply sends, once its section has claimed the ask. */
  function ReplyWire(c: Call): (m: Wire)
    requires c.Reply? && c.requestMsg.Some? && c.desc.name.Some? && Covers(c.payload, c.desc)
    ensures m.Readable()
  {
    var m := MakeMsg(c.desc, c.payload);
    m.(header := m.header.(askId := c.requestMsg.value.askId))
  }

  /** Whether the reply fits the asker of the ask it names. */
  predicate ReplyFits(w: World, c: Call)
    requires c.Reply? && c.requestMsg.Some?
  {
    var i := Find(w.table, c.requestMsg.value.askId);
    i < |w.table| && w.table[i].actor in w.actors && c.desc.size <= w.actors[w.table[i].actor].box.maxPayload
  }

  /** The accepted reply is on record, as its caller gave it. */
  ghost predicate ReplyRecorded(s: I.Sys, s': I.Sys, c: Call)
    requires I.Sized(s) && c.Reply? && c.requestMsg.Some? && c.desc.name.Some?
  {
    var id := c.requestMsg.value.askId;
    Recorded(s, s', id, 0, Header(EnsureId(c.desc).id, Cmd, c.desc.size, id, 0, 0), Bytes(c.payload, c.desc.size))
  }

  lemma ReplyBegins(w: World, c: Call, s: I.Sys, t: nat) returns (pre: seq<I.Action>, s1: I.Sys)
    requires WorldOk(w) && CallOk(w.actors.Keys, c) && c.Reply? && I.Sized(s) && Same(w, s) && t !in s.ops
    requires c.requestMsg.Some? && c.requestMsg.value.askId != 0 && ValidDescriptor(c.desc, Cmd)
    ensures var r := c.requestMsg.value;
            var claim := ClaimReply(w.table, r.askId, r.replyId, EnsureId(c.desc).id, _ => ReplyFits(w, c));
            && Leads(s, pre, s1) && Same(w.(table := claim.table), s1) && s1.runs == s.runs
            && (if claim.rc != 0 then s1.ops == s.ops
                else Under(s, pre, s1, t) && s1.ops[t].Answering? && s1.ops[t].self == claim.target
                     && s1.ops[t].mail.msg == Copied(ReplyWire(c)) && ReplyRecorded(s, s1, c))
  {
    var r := c.requestMsg.value;
    var a := I.BeginReply(t, 0, r.askId, r.replyId, EnsureId(c.desc).id, Copied(ReplyWire(c)).payload, ReplyFits(w, c));
    assert Leads(s, [], s);
    s1 := StepReply(s, [], s, a);
    pre := [a];
    assert [] + [a] == pre;
    FitOnly(w.table, r.askId, r.replyId, EnsureId(c.desc).id, _ => a.fits, ReplyFits(w, c));
    CopiedBytes(ReplyWire(c));
  }

  lemma ReplyIsARun(w: World, c: Call, s: I.Sys, t: nat) returns (run: seq<I.Action>, s': I.Sys)
    requires Good(w) && CallOk(w.actors.Keys, c) && c.Reply? && I.Sized(s) && Same(w, s) && t !in s.ops
    ensures Finished(s, run, s', ExecReply(w, c).world)
    ensures ExecReply(w, c).rc == 0 ==> c.requestMsg.Some? && c.desc.name.Some? && ReplyRecorded(s, s', c)
  {
    if c.requestMsg.None? || c.requestMsg.value.askId == 0 || !ValidDescriptor(c.desc, Cmd) {
      Nothing(s, w);
      return [], s;
    }
    var r := c.requestMsg.value;
    var f := a => a in w.actors && c.desc.size <= w.actors[a].box.maxPayload;
    FitOnly(w.table, r.askId, r.replyId, EnsureId(c.desc).id, f, ReplyFits(w, c));
    var claim := ClaimReply(w.table, r.askId, r.replyId, EnsureId(c.desc).id, f);
    run, s' := ReplyBegins(w, c, s, t);
    if claim.rc == 0 {
      var w1 := w.(table := claim.table);
      DeliverSends(w1, claim.target, ReplyWire(c));
      var (w2, rc) := Deliver(w1, claim.target, ReplyWire(c));
      run, s' := RestOfAnswer(w1, w2, s, run, s', t, claim.target, ReplyWire(c), rc);
    }
  }

  ghost predicate ErrorRecorded(s: I.Sys, s': I.Sys, c: Call)
    requires I.Sized(s) && c.ReplyError? && c.requestMsg.Some?
  {
    var r := c.requestMsg.value;
    Recorded(s, s', r.askId, 0, Header(r.replyId, Cmd, 0, r.askId, 0, c.result), [])
  }

  lemma ReplyErrorIsARun(w: World, c: Call, s: I.Sys, t: nat) returns (run: seq<I.Action>, s': I.Sys)
    requires Good(w) && c.ReplyError? && I.Sized(s) && Same(w, s) && t !in s.ops
    ensures Finished(s, run, s', ExecReplyError(w, c).world)
    ensures ExecReplyError(w, c).rc == 0 ==> c.requestMsg.Some? && ErrorRecorded(s, s', c)
  {
    if c.requestMsg.None? || c.requestMsg.value.askId == 0 || c.requestMsg.value.replyId == 0 || c.result == 0 {
      Nothing(s, w);
      return [], s;
    }
    var r := c.requestMsg.value;
    var wire := Wire(Header(r.replyId, Cmd, 0, r.askId, 0, c.result), None);
    var a := I.BeginError(t, 0, r.askId, r.replyId, c.result);
    assert Leads(s, [], s);
    var s1 := StepError(s, [], s, a);
    assert [] + [a] == [a];
    var claim := ClaimError(w.table, r.askId, r.replyId);
    assert Same(w.(table := claim.table), s1);
    if claim.rc != 0 { return [a], s1; }
    assert Copied(wire).payload == [];
    var w1 := w.(table := claim.table);
    DeliverSends(w1, claim.target, wire);
    var (w2, rc) := Post(w1, claim.target, wire);
    run, s' := RestOfAnswer(w1, w2, s, [a], s1, t, claim.target, wire, rc);
  }

  lemma TimeoutIsARun(w: World, self: Actor, id: Uint32, s: I.Sys, t: nat) returns (run: seq<I.Action>, s': I.Sys)
    requires Good(w) && self in w.actors && I.Sized(s) && Same(w, s) && t !in s.ops
    ensures Finished(s, run, s', ExecTimeout(w, self, id).world)
  {
    var a := I.BeginExpiry(t, self, id, None);
    assert Leads(s, [], s);
    var s1 := StepExpiry(s, [], s, t, self, id);
    assert [] + [a] == [a];
    var (table, claimed) := ClaimTimeout(w.table, self, id);
    var w1 := w.(table := table);
    assert Same(w1, s1);
    if !claimed { return [a], s1; }
    assert Copied(TimeoutMsg(id)) == s1.ops[t].mail.msg;
    DeliverSends(w1, self, TimeoutMsg(id));
    var (w2, rc) := Post(w1, self, TimeoutMsg(id));
    run, s' := RestOfExpiry(w1, w2, s, [a], s1, t, self, TimeoutMsg(id), rc);
  }

  /** A claimed timeout is posted, or rolled back when the post fails. */
  lemma RestOfExpiry(w: World, w1: World, s0: I.Sys, pre: seq<I.Action>, s: I.Sys, t: nat, self: Actor, m: Wire, rc: int)
    returns (run: seq<I.Action>, s': I.Sys)
    requires m.Readable() && Sent(w, w1, self, m, rc) && Under(s0, pre, s, t) && Same(w, s)
    requires s.ops[t].Expiring? && s.ops[t].self == self && s.ops[t].mail.msg == Copied(m)
    ensures Finished(s0, run, s', if rc != 0 then w1.(table := RollbackTimeout(w1.table, self, m.header.askId)) else w1)
  {
    var s2 := StepPostExpiry(s0, pre, s, t, rc == 0);
    run := pre + [I.PostExpiry(t, rc == 0)];
    if rc == 0 {
      RemoveFresh(s0.ops, t, s.ops[t]);
      AppendMatches(w.actors, w1.actors, s, s2, self, s.ops[t].mail);
      return run, s2;
    }
    ReplaceFresh(s0.ops, t, s.ops[t], s2.ops[t]);
    s' := StepUndoExpiry(s0, run, s2, t);
    RemoveFresh(s0.ops, t, s2.ops[t]);
    run := run + [I.UndoExpiry(t)];
  }

  lemma DeliverIsARun(w: World, a: Actor, m: Wire, s0: I.Sys, pre: seq<I.Action>, s: I.Sys)
    returns (run: seq<I.Action>, s': I.Sys)
    requires a in w.actors && m.Readable() && m.header.askId == 0 && Finished(s0, pre, s, w)
    ensures Finished(s0, run, s', Deliver(w, a, m).0)
  {
    DeliverAppends(w, a, m);
    var (w1, rc) := Deliver(w, a, m);
    if rc != 0 { return pre, s; }
    s' := StepPlain(s0, pre, s, a, Copied(m));
    run := pre + [I.SendPlain(a, Copied(m))];
    AppendMatches(w.actors, w1.actors, s, s', a, I.Mail(Copied(m), 0, I.Plain));
  }

  lemma {:induction false} FanOutIsARun(w: World, m: Wire, n: nat, s: I.Sys) returns (run: seq<I.Action>, s': I.Sys)
    requires m.Readable() && m.header.askId == 0 && n <= |w.subs| && RowsKnown(w.subs, w.actors) && I.Sized(s) && Same(w, s)
    ensures Finished(s, run, s', FanOut(w, m, n).0)
  {
    if n == 0 {
      Nothing(s, w);
      return [], s;
    }
    run, s' := FanOutIsARun(w, m, n - 1, s);
    var w1 := FanOut(w, m, n - 1).0;
    var row := w.subs[n - 1];
    if row.msgId == m.header.id && m.header.size <= w1.actors[row.actor].box.maxPayload {
      run, s' := DeliverIsARun(w1, row.actor, m, s, run, s');
    }
  }

  /** The cancelled ask is on record as taken out by a cancel of this actor. */
  ghost predicate CancelRecorded(s: I.Sys, s': I.Sys, self: Actor, id: Uint32)
    requires I.Sized(s)
  {
    var i := Find(s.led.table, id);
    i < |s.led.table| && s'.led.retired == s.led.retired + [I.Retirement(s.led.holder[i], I.ByCancel, self, 0)]
  }

  /**
   * Every call is an uninterrupted run of lock-granular steps, and the run records the reply it accepts or the ask it
   * cancels.
   */
  lemma CallIsARun(w: World, c: Call, s: I.Sys, t: nat) returns (run: seq<I.Action>, s': I.Sys)
    requires Good(w) && CallOk(w.actors.Keys, c) && I.Sized(s) && Same(w, s) && t !in s.ops
    ensures Finished(s, run, s', Exec(w, c).world)
    ensures c.Cancel? && Exec(w, c).rc == 0 ==> CancelRecorded(s, s', c.self, c.askId)
    ensures c.Reply? && Exec(w, c).rc == 0 ==> c.requestMsg.Some? && c.desc.name.Some? && ReplyRecorded(s, s', c)
    ensures c.ReplyError? && Exec(w, c).rc == 0 ==> c.requestMsg.Some? && ErrorRecorded(s, s', c)
  {
    Nothing(s, w);
    run, s' := [], s;
    match c
    case Ask(_, _, _, _, _, _, _) => run, s' := AskIsARun(w, c, s, t);
    case Reply(_, _, _) => run, s' := ReplyIsARun(w, c, s, t);
    case ReplyError(_, _) => run, s' := ReplyErrorIsARun(w, c, s, t);
    case Cancel(self, id) =>
      if self != NULL && id != 0 && w.running {
        run := [I.CancelPending(self, id, 0)];
        s' := StepCancel(s, self, id, 0);
      }
    case TimeoutExpired(self, id) => run, s' := TimeoutIsARun(w, self, id, s, t);
    case SendCommand(d, payload) =>
      if Prepare(w, d).1 == 0 {
        run, s' := DeliverIsARun(w, Prepare(w, d).0, MakeMsg(d, payload), s, [], s);
      }
    case SendTo(a, direct, payload) =>
      if a != NULL && direct.Some? && w.running && direct.value.id != 0 && direct.value.size <= w.actors[a].box.maxPayload {
        run, s' := DeliverIsARun(w, a, DirectWire(direct.value, payload), s, [], s);
      }
    case Publish(d, payload) =>
      if ValidDescriptor(d, Event) {
        run, s' := FanOutIsARun(w, MakeMsg(d, payload), |w.subs|, s);
      }
  }

  // ------------------------------------------------------------------ dispatch

  lemma TakenMatches(w: World, a: Actor, s: I.Sys, s': I.Sys)
    requires Ready(w, a) && BoxesMatch(w.actors, s) && s'.boxes == s.boxes[a := I.BoxOf(s, a)[1..]] && I.BoxOf(s, a) != []
    ensures BoxesMatch(Dispatch(w, a).0.actors, s')
  {
    forall b | b in w.actors
      ensures Bodies(I.BoxOf(s', b)) == Dispatch(w, a).0.actors[b].box.queue
    {
      if b != a { assert I.BoxOf(s', b) == I.BoxOf(s, b); }
    }
  }

  lemma TakeIsAStep(w: World, a: Actor, s: I.Sys, t: nat) returns (s1: I.Sys)
    requires WorldOk(w) && Ready(w, a) && I.Sized(s) && Same(w, s) && t !in s.ops
    ensures Under(s, [I.Dequeue(t, a)], s1, t) && s1.led == s.led && BoxesMatch(Dispatch(w, a).0.actors, s1)
    ensures s1.ops[t].Dequeued? && s1.ops[t].self == a && s1.ops[t].mail.msg == Dispatch(w, a).1
  {
    assert |I.BoxOf(s, a)| == |w.actors[a].box.queue|;
    assert Leads(s, [], s);
    s1 := StepDequeue(s, [], s, t, a);
    assert [] + [I.Dequeue(t, a)] == [I.Dequeue(t, a)];
    TakenMatches(w, a, s, s1);
  }

  /** The message is taken and claimed; a callback is about to be called, or the message is with its handler. */
  lemma TakeAndClaim(w: World, a: Actor, s: I.Sys, t: nat) returns (run: seq<I.Action>, s2: I.Sys)
    requires WorldOk(w) && Ready(w, a) && I.Sized(s) && Same(w, s) && t !in s.ops
    ensures Under(s, run, s2, t) && Same(Dispatch(w, a).0, s2) && run == [I.Dequeue(t, a), I.ClaimMessage(t)]
    ensures var (w1, m, callback) := Dispatch(w, a);
            var op := s2.ops[t];
            if callback == NULL then op.Handling? && op.self == a && op.mail.msg == m
            else
              var i := Find(s.led.table, m.header.askId);
              op.Calling? && i < |s.led.table| && op == I.Calling(s.led.holder[i], callback, a, op.mail) && op.mail.msg == m
  {
    var s1 := TakeIsAStep(w, a, s, t);
    s2 := StepClaim(s, [I.Dequeue(t, a)], s1, t);
    run := [I.Dequeue(t, a)] + [I.ClaimMessage(t)];
    assert run == [I.Dequeue(t, a), I.ClaimMessage(t)];
    ReplaceFresh(s.ops, t, s1.ops[t], s2.ops[t]);
  }

  /**
   * Every dispatch is a run as well: the message is taken, claimed in one lock section, and when it completes an ask, that
   * ask's callback is the one that runs, on that message; otherwise its handler has it until it returns.
   */
  lemma DispatchIsARun(w: World, a: Actor, s: I.Sys, t: nat) returns (run: seq<I.Action>, s': I.Sys)
    requires Good(w) && Ready(w, a) && I.Sized(s) && Same(w, s) && t !in s.ops
    ensures Leads(s, run, s') && Same(Dispatch(w, a).0, s') && s'.ops == s.ops
    ensures run == [I.Dequeue(t, a), I.ClaimMessage(t), if Dispatch(w, a).2 == NULL then I.HandlerReturns(t) else I.RunCallback(t)]
    ensures var (w1, m, callback) := Dispatch(w, a);
            && (callback == NULL ==> s'.runs == s.runs)
            && (callback != NULL ==>
                  var i := Find(s.led.table, m.header.askId);
                  && i < |s.led.table| && |s'.runs| == |s.runs| + 1 && s.runs <= s'.runs
                  && s'.runs[|s.runs|] == I.Run(s.led.holder[i], callback, a, s'.runs[|s.runs|].mail) && s'.runs[|s.runs|].mail.msg == m)
  {
    var s2;
    run, s2 := TakeAndClaim(w, a, s, t);
    RemoveFresh(s.ops, t, s2.ops[t]);
    if Dispatch(w, a).2 == NULL {
      s' := StepReturn(s, run, s2, t);
      run := run + [I.HandlerReturns(t)];
    } else {
      s' := StepRun(s, run, s2, t);
      run := run + [I.RunCallback(t)];
    }
  }
}

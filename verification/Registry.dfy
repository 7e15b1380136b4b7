/** Static registration: the actor list, the command routes, the event subscriptions and the handler bindings (src/ipc.c). */
module Registry {
  import opened Types
  import Fnv

  type Handler = nat

  /** ipc_msg_desc_t; `name` is None when the name pointer is NULL. */
  datatype Desc = Desc(id: Uint32, kind: Kind, size: nat, name: Option<seq<Byte>>)

  /** ipc_registration_t and ipc_subscription_t */
  datatype Route = Route(msgId: Uint32, name: seq<Byte>, actor: Actor)

  /** ipc_handler_binding_t */
  datatype Binding = Binding(actor: Actor, msgId: Uint32, handler: Handler)

  /** One IPC_ACTOR_HANDLE: which handler an actor registers for which message. */
  datatype Registration = Registration(actor: Actor, msgId: Uint32, kind: Kind, name: seq<Byte>, handler: Handler)

  datatype Tables = Tables(maxRoutes: nat, maxSubs: nat, routes: seq<Route>, subs: seq<Route>, bindings: seq<Binding>)

  /** _ipc_ensure_id */
  function EnsureId(d: Desc): (d': Desc)
    requires d.name.Some?
    ensures d.id != 0 ==> d' == d
  {
    if d.id == 0 then d.(id := Fnv.Hash(d.name.value)) else d
  }

  /** A lazy id is settled once and for all, and touches nothing else. */
  lemma EnsureIdSettles(d: Desc)
    requires d.name.Some?
    ensures EnsureId(d).(id := d.id) == d && EnsureId(EnsureId(d)) == EnsureId(d)
    ensures d.id == 0 ==> forall e: Desc :: e.id == 0 && e.name == d.name ==> EnsureId(e).id == EnsureId(d).id == Fnv.Hash(d.name.value)
  {}

  /** Descriptors with lazy ids whose names have one length and differ in one byte get different ids. */
  lemma LazyIdsKeepNamesApart(d: Desc, e: Desc, i: nat)
    requires d.id == 0 && e.id == 0 && d.name.Some? && e.name.Some? && |d.name.value| == |e.name.value|
    requires i < |d.name.value| && d.name.value[i] != e.name.value[i]
    requires forall j :: 0 <= j < |d.name.value| && j != i ==> d.name.value[j] == e.name.value[j]
    ensures EnsureId(d).id != EnsureId(e).id
  {
    Fnv.OneByteApartHashesDiffer(Fnv.OFFSET_BASIS, d.name.value, e.name.value, i);
  }

  // ------------------------------------------------------------------ lookups

  /** find_registered from row `i` on: the first route with this id, or the number of routes. */
  function RouteFrom(routes: seq<Route>, id: Uint32, i: nat): (k: nat)
    requires i <= |routes|
    ensures i <= k <= |routes|
    ensures k < |routes| ==> routes[k].msgId == id
    ensures forall j :: i <= j < k ==> routes[j].msgId != id
    decreases |routes| - i
  {
    if i == |routes| || routes[i].msgId == id then i else RouteFrom(routes, id, i + 1)
  }

  function FindRegistered(routes: seq<Route>, id: Uint32): Actor {
    var k := RouteFrom(routes, id, 0);
    if k < |routes| then routes[k].actor else NULL
  }

  /** The handler scan of ipc_dispatch_actor_handlers from row `i` on. */
  function BindingFrom(bindings: seq<Binding>, self: Actor, id: Uint32, i: nat): (k: nat)
    requires i <= |bindings|
    ensures i <= k <= |bindings|
    ensures k < |bindings| ==> bindings[k].actor == self && bindings[k].msgId == id
    ensures forall j :: i <= j < k ==> !(bindings[j].actor == self && bindings[j].msgId == id)
    decreases |bindings| - i
  {
    if i == |bindings| || (bindings[i].actor == self && bindings[i].msgId == id) then i
    else BindingFrom(bindings, self, id, i + 1)
  }

  function LookupHandler(bindings: seq<Binding>, self: Actor, id: Uint32): Option<Handler> {
    var k := BindingFrom(bindings, self, id, 0);
    if k < |bindings| then Some(bindings[k].handler) else None
  }

  // ------------------------------------------------------------------ registering

  predicate NameClash(rows: seq<Route>, id: Uint32, name: seq<Byte>) {
    exists i :: 0 <= i < |rows| && rows[i].msgId == id && rows[i].name != name
  }

  predicate Routed(rows: seq<Route>, id: Uint32) {
    exists i :: 0 <= i < |rows| && rows[i].msgId == id
  }

  predicate Subscribed(rows: seq<Route>, id: Uint32, actor: Actor) {
    exists i :: 0 <= i < |rows| && rows[i].msgId == id && rows[i].actor == actor
  }

  /** What register_cmd_unlocked or subscribe_event_unlocked returns. */
  function AdmitRc(t: Tables, r: Registration): int {
    if NameClash(t.routes, r.msgId, r.name) || NameClash(t.subs, r.msgId, r.name) then -EEXIST
    else if r.kind == Cmd then
      if Routed(t.routes, r.msgId) then -EALREADY
      else if |t.routes| >= t.maxRoutes then -ENOMEM else 0
    else
      if Subscribed(t.subs, r.msgId, r.actor) then -EALREADY
      else if |t.subs| >= t.maxSubs then -ENOMEM else 0
  }

  /** _ipc_actor_register_handler_static; None when the process aborts. */
  function Register(t: Tables, r: Registration): Option<Tables> {
    if AdmitRc(t, r) != 0 then None
    else
      var row := Route(r.msgId, r.name, r.actor);
      var t' := if r.kind == Cmd then t.(routes := t.routes + [row]) else t.(subs := t.subs + [row]);
      if |t.bindings| >= t.maxRoutes + t.maxSubs then None
      else Some(t'.(bindings := t.bindings + [Binding(r.actor, r.msgId, r.handler)]))
  }

  /** The tables after the registrations `log`, in order; None when one of them aborted. */
  function Build(maxRoutes: nat, maxSubs: nat, log: seq<Registration>): Option<Tables> {
    if log == [] then Some(Tables(maxRoutes, maxSubs, [], [], []))
    else
      var before := Build(maxRoutes, maxSubs, log[..|log| - 1]);
      if before.None? then None else Register(before.value, log[|log| - 1])
  }

  // ------------------------------------------------------------------ what any successful start-up yields

  /** The rows of one kind, in registration order. */
  function RowsOf(log: seq<Registration>, kind: Kind): seq<Route> {
    if log == [] then []
    else
      var r := log[|log| - 1];
      RowsOf(log[..|log| - 1], kind) + if r.kind == kind then [Route(r.msgId, r.name, r.actor)] else []
  }

  ghost predicate SameRow(row: Route, r: Registration) {
    row == Route(r.msgId, r.name, r.actor)
  }

  lemma {:induction false} RowSource(log: seq<Registration>, kind: Kind, i: nat) returns (k: nat)
    requires i < |RowsOf(log, kind)|
    ensures k < |log| && log[k].kind == kind && SameRow(RowsOf(log, kind)[i], log[k])
  {
    var n := |log| - 1;
    if i < |RowsOf(log[..n], kind)| { k := RowSource(log[..n], kind, i); } else { k := n; }
  }

  lemma {:induction false} RowOf(log: seq<Registration>, k: nat) returns (i: nat)
    requires k < |log|
    ensures i < |RowsOf(log, log[k].kind)| && SameRow(RowsOf(log, log[k].kind)[i], log[k])
  {
    var n := |log| - 1;
    if k < n { i := RowOf(log[..n], k); } else { i := |RowsOf(log[..n], log[k].kind)|; }
  }

  lemma {:induction false} RowsCount(log: seq<Registration>)
    ensures |RowsOf(log, Cmd)| + |RowsOf(log, Event)| == |log|
  {
    if log != [] { RowsCount(log[..|log| - 1]); }
  }

  ghost predicate IdsNameOneMessage(log: seq<Registration>) {
    forall i, j :: 0 <= i < j < |log| && log[i].msgId == log[j].msgId ==> log[i].name == log[j].name
  }

  ghost predicate OneRoutePerCommand(log: seq<Registration>) {
    forall i, j :: 0 <= i < j < |log| && log[i].kind == log[j].kind == Cmd ==> log[i].msgId != log[j].msgId
  }

  ghost predicate OneSubscriptionEach(log: seq<Registration>) {
    forall i, j :: 0 <= i < j < |log| && log[i].kind == log[j].kind == Event && log[i].msgId == log[j].msgId ==>
      log[i].actor != log[j].actor
  }

  /** After any successful start-up the tables hold exactly what was registered, in order. */
  lemma {:induction false} StartupTables(maxRoutes: nat, maxSubs: nat, log: seq<Registration>)
    requires Build(maxRoutes, maxSubs, log).Some?
    ensures var t := Build(maxRoutes, maxSubs, log).value;
            && t.maxRoutes == maxRoutes && t.maxSubs == maxSubs
            && t.routes == RowsOf(log, Cmd) && t.subs == RowsOf(log, Event)
            && |t.routes| <= maxRoutes && |t.subs| <= maxSubs
            && |t.bindings| == |log| == |t.routes| + |t.subs|
            && forall k :: 0 <= k < |log| ==> t.bindings[k] == Binding(log[k].actor, log[k].msgId, log[k].handler)
  {
    RowsCount(log);
    if log != [] { StartupTables(maxRoutes, maxSubs, log[..|log| - 1]); }
  }

  /** What admission of one more registration says about an earlier one of the same id. */
  lemma AdmittedIsNew(t: Tables, init: seq<Registration>, i: nat, r: Registration)
    requires t.routes == RowsOf(init, Cmd) && t.subs == RowsOf(init, Event) && AdmitRc(t, r) == 0
    requires i < |init| && init[i].msgId == r.msgId
    ensures init[i].name == r.name && !(init[i].kind == r.kind == Cmd)
    ensures init[i].kind == r.kind == Event ==> init[i].actor != r.actor
  {
    var k := RowOf(init, i);
  }

  /** Ids name one message, a command has one route, and an actor subscribes to an event once. */
  lemma {:induction false} StartupIsUnambiguous(maxRoutes: nat, maxSubs: nat, log: seq<Registration>)
    requires Build(maxRoutes, maxSubs, log).Some?
    ensures IdsNameOneMessage(log) && OneRoutePerCommand(log) && OneSubscriptionEach(log)
  {
    if log != [] {
      var n := |log| - 1;
      var init := log[..n];
      StartupIsUnambiguous(maxRoutes, maxSubs, init);
      StartupTables(maxRoutes, maxSubs, init);
      forall i | 0 <= i < n && log[i].msgId == log[n].msgId
        ensures log[i].name == log[n].name && !(log[i].kind == log[n].kind == Cmd)
        ensures log[i].kind == log[n].kind == Event ==> log[i].actor != log[n].actor
      {
        AdmittedIsNew(Build(maxRoutes, maxSubs, init).value, init, i, log[n]);
      }
    }
  }

  /** The test for a full handler table in _ipc_actor_register_handler_static never fires. */
  lemma HandlerTableNeverOverflows(maxRoutes: nat, maxSubs: nat, log: seq<Registration>, r: Registration)
    requires Build(maxRoutes, maxSubs, log).Some?
    ensures var t := Build(maxRoutes, maxSubs, log).value;
            Register(t, r).Some? <==> AdmitRc(t, r) == 0
  {
    StartupTables(maxRoutes, maxSubs, log);
    var t := Build(maxRoutes, maxSubs, log).value;
  }

  /** Some earlier registration of this id has another name. */
  ghost predicate ClashesWith(log: seq<Registration>, r: Registration) {
    exists k :: 0 <= k < |log| && log[k].msgId == r.msgId && log[k].name != r.name
  }

  /** The command has a route, or the actor is subscribed to the event, already. */
  ghost predicate Repeats(log: seq<Registration>, r: Registration) {
    exists k :: 0 <= k < |log| && log[k].msgId == r.msgId && log[k].kind == r.kind && (r.kind == Event ==> log[k].actor == r.actor)
  }

  /**
   * What one more registration answers, in terms of those before it: a clash of names comes first, then a repetition,
   * then a full table. Exactly when there is none of these, the start-up goes on.
   */
  lemma AdmissionLaw(maxRoutes: nat, maxSubs: nat, log: seq<Registration>, r: Registration)
    requires Build(maxRoutes, maxSubs, log).Some?
    ensures var rc, full := AdmitRc(Build(maxRoutes, maxSubs, log).value, r), |RowsOf(log, r.kind)| >= if r.kind == Cmd then maxRoutes else maxSubs;
            && rc == (if ClashesWith(log, r) then -EEXIST else if Repeats(log, r) then -EALREADY else if full then -ENOMEM else 0)
            && (Build(maxRoutes, maxSubs, log + [r]).Some? <==> !ClashesWith(log, r) && !Repeats(log, r) && !full)
  {
    StartupTables(maxRoutes, maxSubs, log);
    HandlerTableNeverOverflows(maxRoutes, maxSubs, log, r);
    assert (log + [r])[..|log|] == log;
    RowsSayWhatTheLogSays(log, r, Cmd);
    RowsSayWhatTheLogSays(log, r, Event);
  }

  lemma RowsSayWhatTheLogSays(log: seq<Registration>, r: Registration, kind: Kind)
    ensures NameClash(RowsOf(log, kind), r.msgId, r.name)
       <==> exists k :: 0 <= k < |log| && log[k].kind == kind && log[k].msgId == r.msgId && log[k].name != r.name
    ensures Routed(RowsOf(log, kind), r.msgId) <==> exists k :: 0 <= k < |log| && log[k].kind == kind && log[k].msgId == r.msgId
    ensures Subscribed(RowsOf(log, kind), r.msgId, r.actor)
       <==> exists k :: 0 <= k < |log| && log[k].kind == kind && log[k].msgId == r.msgId && log[k].actor == r.actor
  {
    var rows := RowsOf(log, kind);
    if NameClash(rows, r.msgId, r.name) {
      var i :| 0 <= i < |rows| && rows[i].msgId == r.msgId && rows[i].name != r.name;
      var k := RowSource(log, kind, i);
    }
    if k :| 0 <= k < |log| && log[k].kind == kind && log[k].msgId == r.msgId && log[k].name != r.name {
      var i := RowOf(log, k);
    }
    RoutedAsLogged(log, r, kind);
    SubscribedAsLogged(log, r, kind);
  }

  lemma RoutedAsLogged(log: seq<Registration>, r: Registration, kind: Kind)
    ensures Routed(RowsOf(log, kind), r.msgId) <==> exists k :: 0 <= k < |log| && log[k].kind == kind && log[k].msgId == r.msgId
  {
    var rows := RowsOf(log, kind);
    if i :| 0 <= i < |rows| && rows[i].msgId == r.msgId {
      var k := RowSource(log, kind, i);
    }
    if k :| 0 <= k < |log| && log[k].kind == kind && log[k].msgId == r.msgId {
      var i := RowOf(log, k);
    }
  }

  lemma SubscribedAsLogged(log: seq<Registration>, r: Registration, kind: Kind)
    ensures Subscribed(RowsOf(log, kind), r.msgId, r.actor)
       <==> exists k :: 0 <= k < |log| && log[k].kind == kind && log[k].msgId == r.msgId && log[k].actor == r.actor
  {
    var rows := RowsOf(log, kind);
    if i :| 0 <= i < |rows| && rows[i].msgId == r.msgId && rows[i].actor == r.actor {
      var k := RowSource(log, kind, i);
    }
    if k :| 0 <= k < |log| && log[k].kind == kind && log[k].msgId == r.msgId && log[k].actor == r.actor {
      var i := RowOf(log, k);
    }
  }

  // ------------------------------------------------------------------ routing end to end

  /** A sent command goes to the actor that registered it. */
  lemma CommandReachesItsActor(maxRoutes: nat, maxSubs: nat, log: seq<Registration>, k: nat)
    requires Build(maxRoutes, maxSubs, log).Some? && k < |log| && log[k].kind == Cmd
    ensures FindRegistered(Build(maxRoutes, maxSubs, log).value.routes, log[k].msgId) == log[k].actor
  {
    StartupTables(maxRoutes, maxSubs, log);
    StartupIsUnambiguous(maxRoutes, maxSubs, log);
    var i := RowOf(log, k);
    var j := RowSource(log, Cmd, RouteFrom(RowsOf(log, Cmd), log[k].msgId, 0));
    assert j == k;
  }

  /** The actors an event is fanned out to are those that registered it, and no others. */
  lemma EventReachesItsActors(maxRoutes: nat, maxSubs: nat, log: seq<Registration>, id: Uint32, actor: Actor)
    requires Build(maxRoutes, maxSubs, log).Some?
    ensures Subscribed(Build(maxRoutes, maxSubs, log).value.subs, id, actor)
       <==> exists k :: 0 <= k < |log| && log[k].kind == Event && log[k].msgId == id && log[k].actor == actor
  {
    StartupTables(maxRoutes, maxSubs, log);
    var rows := RowsOf(log, Event);
    if Subscribed(rows, id, actor) {
      var i :| 0 <= i < |rows| && rows[i].msgId == id && rows[i].actor == actor;
      var k := RowSource(log, Event, i);
    }
    if k :| 0 <= k < |log| && log[k].kind == Event && log[k].msgId == id && log[k].actor == actor {
      var i := RowOf(log, k);
    }
  }

  /** An earlier registration of the other kind, of the same name and on the same actor. */
  ghost predicate Shadowed(log: seq<Registration>, k: nat)
    requires k < |log|
  {
    exists j :: 0 <= j < k && log[j].actor == log[k].actor && log[j].name == log[k].name
      && log[j].msgId == log[k].msgId && log[j].kind != log[k].kind
  }

  /**
   * A message delivered to an actor that registered a handler for it runs that very binding, unless a command
   * and an event of one name are both bound on the actor: then the earlier binding takes both.
   */
  lemma DispatchRunsItsBinding(maxRoutes: nat, maxSubs: nat, log: seq<Registration>, k: nat)
    requires Build(maxRoutes, maxSubs, log).Some? && k < |log|
    ensures BindingFrom(Build(maxRoutes, maxSubs, log).value.bindings, log[k].actor, log[k].msgId, 0) == k
       <==> !Shadowed(log, k)
  {
    StartupTables(maxRoutes, maxSubs, log);
    StartupIsUnambiguous(maxRoutes, maxSubs, log);
    var bindings := Build(maxRoutes, maxSubs, log).value.bindings;
    var first := BindingFrom(bindings, log[k].actor, log[k].msgId, 0);
    assert bindings[k].actor == log[k].actor && bindings[k].msgId == log[k].msgId;
    if first != k {
      assert first < k;
      assert bindings[first] == Binding(log[first].actor, log[first].msgId, log[first].handler);
    }
  }

  /** Where every name has one kind, each message runs exactly the handler registered for it. */
  lemma OneKindPerNameRoutesExactly(maxRoutes: nat, maxSubs: nat, log: seq<Registration>, k: nat)
    requires Build(maxRoutes, maxSubs, log).Some? && k < |log|
    requires forall i, j :: 0 <= i < |log| && 0 <= j < |log| && log[i].name == log[j].name ==> log[i].kind == log[j].kind
    ensures LookupHandler(Build(maxRoutes, maxSubs, log).value.bindings, log[k].actor, log[k].msgId) == Some(log[k].handler)
  {
    StartupTables(maxRoutes, maxSubs, log);
    DispatchRunsItsBinding(maxRoutes, maxSubs, log, k);
  }

  // ------------------------------------------------------------------ the tables in place

  class RegistrationTables {
    const maxRoutes: nat
    const maxSubs: nat
    const regTable: array<Route>
    const subTable: array<Route>
    const handlerTable: array<Binding>
    var regCount: nat
    var subCount: nat
    var handlerCount: nat
    var actors: seq<Actor>    // the linked list _ipc_actor_list

    ghost predicate Valid()
      reads this
    {
      && regTable.Length == maxRoutes && subTable.Length == maxSubs && handlerTable.Length == maxRoutes + maxSubs
      && regTable != subTable
      && regCount <= maxRoutes && subCount <= maxSubs && handlerCount <= maxRoutes + maxSubs
      && NoRepeats(actors)
    }

    ghost function View(): Tables
      reads this, regTable, subTable, handlerTable
      requires Valid()
    {
      Tables(maxRoutes, maxSubs, regTable[..regCount], subTable[..subCount], handlerTable[..handlerCount])
    }

    constructor (maxRoutes: nat, maxSubs: nat)
      ensures Valid() && View() == Tables(maxRoutes, maxSubs, [], [], []) && actors == []
    {
      this.maxRoutes, this.maxSubs := maxRoutes, maxSubs;
      regTable := new Route[maxRoutes](_ => Route(0, [], NULL));
      subTable := new Route[maxSubs](_ => Route(0, [], NULL));
      handlerTable := new Binding[maxRoutes + maxSubs](_ => Binding(NULL, 0, 0));
      regCount, subCount, handlerCount, actors := 0, 0, 0, [];
    }

    /** _ipc_actor_register_static: appends the actor unless it is listed, so the list never repeats one. */
    method RegisterActor(actor: Actor, closed: bool)
      requires Valid()
      modifies this`actors
      ensures Valid()
      ensures actors == if closed || actor in old(actors) then old(actors) else old(actors) + [actor]
    {
      if closed { return; }
      var i := 0;
      while i < |actors|
        invariant i <= |actors|
        invariant actor !in actors[..i]
      {
        if actors[i] == actor { return; }
        i := i + 1;
      }
      assert actor !in actors;
      actors := actors + [actor];
    }

    method ScanClash(rows: array<Route>, n: nat, id: Uint32, name: seq<Byte>) returns (clash: bool)
      requires n <= rows.Length
      ensures clash == NameClash(rows[..n], id, name)
    {
      var i := 0;
      while i < n
        invariant i <= n
        invariant !NameClash(rows[..i], id, name)
      {
        if rows[i].msgId == id && rows[i].name != name {
          assert rows[..n][i] == rows[i];
          return true;
        }
        assert rows[..i + 1] == rows[..i] + [rows[i]];
        i := i + 1;
      }
      return false;
    }

    /** detect_id_collision */
    method DetectIdCollision(id: Uint32, name: seq<Byte>) returns (rc: int)
      requires Valid()
      ensures rc == if NameClash(View().routes, id, name) || NameClash(View().subs, id, name) then -EEXIST else 0
    {
      var clash := ScanClash(regTable, regCount, id, name);
      if clash { return -EEXIST; }
      clash := ScanClash(subTable, subCount, id, name);
      return if clash then -EEXIST else 0;
    }

    /** register_cmd_unlocked */
    method RegisterCommand(r: Registration) returns (rc: int)
      requires Valid() && r.kind == Cmd
      modifies this`regCount, regTable
      ensures Valid() && rc == old(AdmitRc(View(), r))
      ensures View() == if rc == 0 then old(View()).(routes := old(View()).routes + [Route(r.msgId, r.name, r.actor)]) else old(View())
    {
      rc := DetectIdCollision(r.msgId, r.name);
      if rc != 0 { return; }
      var i := 0;
      while i < regCount
        invariant i <= regCount
        invariant !Routed(regTable[..i], r.msgId)
      {
        if regTable[i].msgId == r.msgId {
          assert View().routes[i].msgId == r.msgId;
          return -EALREADY;
        }
        assert regTable[..i + 1] == regTable[..i] + [regTable[i]];
        i := i + 1;
      }
      if regCount >= maxRoutes { return -ENOMEM; }
      regTable[regCount] := Route(r.msgId, r.name, r.actor);
      regCount := regCount + 1;
      return 0;
    }

    /** subscribe_event_unlocked */
    method SubscribeEvent(r: Registration) returns (rc: int)
      requires Valid() && r.kind == Event
      modifies this`subCount, subTable
      ensures Valid() && rc == old(AdmitRc(View(), r))
      ensures View() == if rc == 0 then old(View()).(subs := old(View()).subs + [Route(r.msgId, r.name, r.actor)]) else old(View())
    {
      rc := DetectIdCollision(r.msgId, r.name);
      if rc != 0 { return; }
      var i := 0;
      while i < subCount
        invariant i <= subCount
        invariant !Subscribed(subTable[..i], r.msgId, r.actor)
      {
        if subTable[i].msgId == r.msgId && subTable[i].actor == r.actor {
          assert View().subs[i] == subTable[i];
          return -EALREADY;
        }
        assert subTable[..i + 1] == subTable[..i] + [subTable[i]];
        i := i + 1;
      }
      if subCount >= maxSubs { return -ENOMEM; }
      subTable[subCount] := Route(r.msgId, r.name, r.actor);
      subCount := subCount + 1;
      return 0;
    }

    /** _ipc_actor_register_handler_static; false when the process aborts. Closed registration changes nothing. */
    method RegisterHandler(r: Registration, closed: bool) returns (ok: bool)
      requires Valid()
      modifies this, regTable, subTable, handlerTable
      ensures Valid() && ok == (closed || old(Register(View(), r)).Some?)
      ensures closed ==> View() == old(View()) && actors == old(actors)
      ensures !closed && ok ==> View() == old(Register(View(), r)).value
      ensures !closed ==> actors == if r.actor in old(actors) then old(actors) else old(actors) + [r.actor]
    {
      if closed { return true; }
      RegisterActor(r.actor, false);
      var rc;
      if r.kind == Event {
        rc := SubscribeEvent(r);
      } else {
        rc := RegisterCommand(r);
      }
      if rc != 0 || handlerCount >= maxRoutes + maxSubs { return false; }
      handlerTable[handlerCount] := Binding(r.actor, r.msgId, r.handler);
      handlerCount := handlerCount + 1;
      return true;
    }

    method FindRoute(id: Uint32) returns (actor: Actor)
      requires Valid()
      ensures actor == FindRegistered(View().routes, id)
    {
      var i := 0;
      while i < regCount
        invariant i <= regCount
        invariant RouteFrom(View().routes, id, 0) == RouteFrom(View().routes, id, i)
      {
        if regTable[i].msgId == id { return regTable[i].actor; }
        i := i + 1;
      }
      return NULL;
    }

    method FindHandler(self: Actor, id: Uint32) returns (h: Option<Handler>)
      requires Valid()
      ensures h == LookupHandler(View().bindings, self, id)
    {
      var i := 0;
      while i < handlerCount
        invariant i <= handlerCount
        invariant BindingFrom(View().bindings, self, id, 0) == BindingFrom(View().bindings, self, id, i)
      {
        if handlerTable[i].actor == self && handlerTable[i].msgId == id { return Some(handlerTable[i].handler); }
        i := i + 1;
      }
      return None;
    }
  }

  ghost predicate NoRepeats(s: seq<Actor>) {
    forall i, j :: 0 <= i < j < |s| ==> s[i] != s[j]
  }
}

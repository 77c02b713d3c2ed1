/** Comms modules and the services they register: loading, unloading and status changes. */
module Modules {
  import opened Basics

  datatype Status = Init | Sleeping | Running | Exited

  /** The requests that wait for a module: the one that loaded it and those that unload it. */
  datatype Module = Module(name: string, status: Status, insmod: Option<nat>, rmmod: seq<nat>)

  datatype Answer = Answer(id: nat, errno: Option<Errno>)

  /** services gives the owner of each service, or None for the broker's own; received are
      the insmod and rmmod requests so far, and dropped those destroyed unanswered. */
  datatype Host = Host(
    modules: map<Uuid, Module>, services: map<string, Option<Uuid>>,
    answers: seq<Answer>, received: set<nat>, dropped: set<nat>)

  datatype Action =
    | Insmod(request: Option<nat>, uuid: Uuid, file: Option<string>, start: Option<Errno>)
    | Rmmod(id: nat, name: string, found: Option<Uuid>, stop: Option<Errno>)
    | Unload(uuid: Uuid, stop: Option<Errno>)
    | Keepalive(uuid: Uuid, status: Status, errnum: Option<Errno>)
    | AddService(sender: Uuid, service: string)
    | RemoveService(sender: Uuid, service: string)

  function Without(services: map<string, Option<Uuid>>, uuid: Uuid): map<string, Option<Uuid>> {
    map s | s in services && services[s] != Some(uuid) :: services[s]
  }

  function Removed(h: Host, uuid: Uuid): Host {
    h.(services := Without(h.services, uuid), modules := h.modules - {uuid})
  }

  function Respond(h: Host, request: Option<nat>, errno: Option<Errno>): Host {
    match request
    case Some(id) => h.(answers := h.answers + [Answer(id, errno)])
    case None => h
  }

  function Receive(h: Host, request: Option<nat>): Host {
    h.(received := h.received + match request case Some(id) => {id} case None => {})
  }

  function ServiceError(services: map<string, Option<Uuid>>, name: string): Option<Errno> {
    if '.' in name then Some(EINVAL) else if name in services then Some(EEXIST) else None
  }

  /** Why loading fails: file is the name that the module file gives, if it can be opened. */
  function LoadError(services: map<string, Option<Uuid>>, file: Option<string>, start: Option<Errno>)
      : (e: Option<Errno>)
    ensures e.None? ==> file.Some?
  {
    if file.None? then Some(ENOENT)
    else if ServiceError(services, file.value).Some? then ServiceError(services, file.value)
    else start
  }

  /** The response to a request that loads is deferred if loading gets under way. */
  function Load(h: Host, request: Option<nat>, uuid: Uuid, file: Option<string>, start: Option<Errno>): Host {
    var e := LoadError(h.services, file, start);
    if e.Some? then Respond(h, request, e)
    else h.(modules := h.modules[uuid := Module(file.value, Init, request, [])],
            services := h.services[file.value := Some(uuid)])
  }

  /** found is the module of that name that is found first, if there is one. */
  function AskUnload(h: Host, id: nat, found: Option<Uuid>, stop: Option<Errno>): Host
    requires found.Some? ==> found.value in h.modules
  {
    if found.None? then Respond(h, Some(id), Some(ENOENT))
    else if stop.Some? then Respond(h, Some(id), stop)
    else h.(modules := h.modules[found.value := h.modules[found.value].(rmmod := [id] + h.modules[found.value].rmmod)])
  }

  /** What the request that loaded a module is told when the module leaves Init. */
  function InitReply(m: Module, status: Status, errnum: Option<Errno>): seq<Answer> {
    if m.status == Init && m.insmod.Some?
    then [Answer(m.insmod.value, if status == Exited then errnum else None)] else []
  }

  function Replies(m: Module, status: Status, errnum: Option<Errno>): seq<Answer> {
    InitReply(m, status, errnum) + if status == Exited then Done(m.rmmod) else []
  }

  function Done(rmmod: seq<nat>): seq<Answer> {
    seq(|rmmod|, i requires 0 <= i < |rmmod| => Answer(rmmod[i], None))
  }

  /** The module has gone from one status to another. */
  function Changed(h: Host, uuid: Uuid, status: Status, errnum: Option<Errno>): Host
    requires uuid in h.modules
  {
    var m := h.modules[uuid];
    var g := h.(answers := h.answers + Replies(m, status, errnum));
    if status == Exited then Removed(g, uuid)
    else g.(modules := g.modules[uuid := m.(status := status, insmod := if m.status == Init then None else m.insmod)])
  }

  /** The requests that wait for a module. */
  function Waiting(m: Module): set<nat> {
    (match m.insmod case Some(id) => {id} case None => {}) + set id | id in m.rmmod
  }

  /** The synchronous unload: the requests that wait are destroyed with the module. */
  function Unloaded(h: Host, uuid: Uuid, stop: Option<Errno>): Host
    requires uuid in h.modules
  {
    if stop.Some? then h
    else Removed(h, uuid).(dropped := h.dropped + Waiting(h.modules[uuid]))
  }

  /** found is the module of that name, if there is one. */
  predicate Found(modules: map<Uuid, Module>, name: string, found: Option<Uuid>) {
    if found.Some? then found.value in modules && modules[found.value].name == name
    else forall u <- modules :: modules[u].name != name
  }

  /** A uuid is new, requests are new, and the status changes as module_set_status asserts. */
  predicate Enabled(h: Host, a: Action) {
    match a
    case Insmod(request, uuid, _, _) => uuid !in h.modules && (request.Some? ==> request.value !in h.received)
    case Rmmod(id, name, found, _) => id !in h.received && Found(h.modules, name, found)
    case Unload(uuid, _) => uuid in h.modules
    case Keepalive(uuid, status, _) => uuid in h.modules && status != Init && status != h.modules[uuid].status
    case AddService(_, _) => true
    case RemoveService(_, _) => true
  }

  function Next(h: Host, a: Action): Host
    requires Enabled(h, a)
  {
    match a
    case Insmod(request, uuid, file, start) => Load(Receive(h, request), request, uuid, file, start)
    case Rmmod(id, _, found, stop) => AskUnload(Receive(h, Some(id)), id, found, stop)
    case Unload(uuid, stop) => Unloaded(h, uuid, stop)
    case Keepalive(uuid, status, errnum) => Changed(h, uuid, status, errnum)
    case AddService(sender, s) =>
      if sender in h.modules && ServiceError(h.services, s).None?
      then h.(services := h.services[s := Some(sender)]) else h
    case RemoveService(sender, s) =>
      if s in h.services && h.services[s] == Some(sender) then h.(services := h.services - {s}) else h
  }

  // ---------------------------------------------------------------- invariants

  /** Who owns a service is loaded; who is loaded has not exited; and only while a module
      initialises does the request that loaded it wait. */
  ghost predicate HostOk(h: Host) {
    && (forall s <- h.services :: h.services[s].Some? ==> h.services[s].value in h.modules)
    && (forall u <- h.modules :: ModuleOk(h.modules[u]))
  }

  predicate ModuleOk(m: Module) {
    m.status != Exited && (m.insmod.Some? ==> m.status == Init)
  }

  ghost predicate Distinct(answers: seq<Answer>) {
    forall i, j | 0 <= i < j < |answers| :: answers[i].id != answers[j].id
  }

  predicate NoRepeat(m: Module) {
    && (forall i, j | 0 <= i < j < |m.rmmod| :: m.rmmod[i] != m.rmmod[j])
    && (m.insmod.Some? ==> m.insmod.value !in m.rmmod)
  }

  /** No request has been answered twice, waits twice, or waits although it has been
      answered or dropped. */
  ghost predicate Once(h: Host) {
    && Distinct(h.answers)
    && (forall u <- h.modules :: NoRepeat(h.modules[u]) && Waiting(h.modules[u]) <= h.received)
    && (forall u, v | u in h.modules && v in h.modules && u != v :: Waiting(h.modules[u]) !! Waiting(h.modules[v]))
    && (forall u <- h.modules :: Waiting(h.modules[u]) !! Ids(h.answers) && Waiting(h.modules[u]) !! h.dropped)
    && Ids(h.answers) !! h.dropped && Ids(h.answers) <= h.received && h.dropped <= h.received
  }

  ghost predicate Parked(h: Host, id: nat) {
    exists u :: u in h.modules && id in Waiting(h.modules[u])
  }

  /** Every request received has been answered exactly once, or waits for exactly one
      module, once, or has been dropped. */
  ghost predicate Accounted(h: Host) {
    Once(h) && forall id <- h.received :: id in Ids(h.answers) || id in h.dropped || Parked(h, id)
  }

  lemma NextKeeps(h: Host, a: Action)
    requires HostOk(h) && Enabled(h, a)
    ensures HostOk(Next(h, a))
  {
  }

  ghost function Ids(answers: seq<Answer>): set<nat> {
    set i | 0 <= i < |answers| :: answers[i].id
  }

  lemma IdsConcat(x: seq<Answer>, y: seq<Answer>)
    ensures Ids(x + y) == Ids(x) + Ids(y)
  {
    forall id | id in Ids(x) + Ids(y) ensures id in Ids(x + y) {
      if id in Ids(x) {
        var i :| 0 <= i < |x| && x[i].id == id;
        assert (x + y)[i].id == id;
      } else {
        var i :| 0 <= i < |y| && y[i].id == id;
        assert (x + y)[|x| + i].id == id;
      }
    }
  }

  lemma IdsOne(a: Answer)
    ensures Ids([a]) == {a.id}
  {
    assert [a][0].id in Ids([a]);
  }

  /** Answering requests that have not been answered, each once. */
  lemma AnswersDistinct(x: seq<Answer>, y: seq<Answer>)
    requires Distinct(x) && Distinct(y) && Ids(x) !! Ids(y)
    ensures Distinct(x + y)
  {
    var z := x + y;
    forall i, j | 0 <= i < j < |z| ensures z[i].id != z[j].id {
      if i < |x| <= j {
        assert x[i].id in Ids(x) && y[j - |x|].id in Ids(y);
      }
    }
  }

  /** A new request that is answered at once. */
  lemma RespondAccounted(h: Host, id: nat, errno: Option<Errno>)
    requires Accounted(h) && id !in h.received
    ensures Accounted(Respond(Receive(h, Some(id)), Some(id), errno))
  {
    var g := Respond(Receive(h, Some(id)), Some(id), errno);
    IdsOne(Answer(id, errno));
    IdsConcat(h.answers, [Answer(id, errno)]);
    AnswersDistinct(h.answers, [Answer(id, errno)]);
    forall x | Parked(h, x) ensures Parked(g, x) {
      var u :| u in h.modules && x in Waiting(h.modules[u]);
      assert u in g.modules && x in Waiting(g.modules[u]);
    }
  }

  /** A new request that waits for module u, or a module that nobody waits for. */
  lemma WaitOnce(h: Host, u: Uuid, m: Module, news: set<nat>)
    requires Once(h) && news !! h.received && NoRepeat(m)
    requires Waiting(m) == news + if u in h.modules then Waiting(h.modules[u]) else {}
    ensures Once(h.(modules := h.modules[u := m], received := h.received + news))
  {
  }

  lemma WaitAccounted(h: Host, u: Uuid, m: Module, news: set<nat>)
    requires Accounted(h) && news !! h.received && NoRepeat(m)
    requires Waiting(m) == news + if u in h.modules then Waiting(h.modules[u]) else {}
    ensures Accounted(h.(modules := h.modules[u := m], received := h.received + news))
  {
    WaitOnce(h, u, m, news);
    var g := h.(modules := h.modules[u := m], received := h.received + news);
    forall id | id in news || Parked(h, id) ensures Parked(g, id) {
      if id in news {
        assert u in g.modules && id in Waiting(g.modules[u]);
      } else {
        var v :| v in h.modules && id in Waiting(h.modules[v]);
        assert v in g.modules && id in Waiting(g.modules[v]);
      }
    }
  }

  lemma DoneIds(rmmod: seq<nat>)
    ensures Ids(Done(rmmod)) == set id | id in rmmod
  {
    forall id | id in rmmod ensures id in Ids(Done(rmmod)) {
      var i :| 0 <= i < |rmmod| && rmmod[i] == id;
      assert Done(rmmod)[i].id == id;
    }
  }

  lemma RepliesIds(m: Module, status: Status, errnum: Option<Errno>)
    requires ModuleOk(m) && NoRepeat(m)
    ensures Distinct(Replies(m, status, errnum))
    ensures Ids(Replies(m, status, errnum)) ==
      if status == Exited then Waiting(m) else if m.insmod.Some? then {m.insmod.value} else {}
  {
    var x := InitReply(m, status, errnum);
    var y := if status == Exited then Done(m.rmmod) else [];
    if x != [] {
      IdsOne(x[0]);
    }
    assert Ids(x) == if m.insmod.Some? then {m.insmod.value} else {};
    DoneIds(m.rmmod);
    IdsConcat(x, y);
    AnswersDistinct(x, y);
  }

  /** g is h after the requests gone, which waited for module u, are answered or dropped. */
  ghost predicate Settled(h: Host, g: Host, u: Uuid, gone: set<nat>, more: seq<Answer>) {
    && u in h.modules && gone <= Waiting(h.modules[u]) && Distinct(more)
    && g.answers == h.answers + more && g.received == h.received
    && gone == Ids(more) + (g.dropped - h.dropped) && h.dropped <= g.dropped && Ids(more) !! g.dropped
    && (forall v | v in h.modules && v != u :: v in g.modules && g.modules[v] == h.modules[v])
    && (forall v | v in g.modules :: v in h.modules)
    && if u in g.modules then NoRepeat(g.modules[u]) && Waiting(g.modules[u]) == Waiting(h.modules[u]) - gone
       else gone == Waiting(h.modules[u])
  }

  lemma SettledOnce(h: Host, g: Host, u: Uuid, gone: set<nat>, more: seq<Answer>)
    requires Once(h) && Settled(h, g, u, gone, more)
    ensures Once(g)
  {
    IdsConcat(h.answers, more);
    AnswersDistinct(h.answers, more);
  }

  lemma SettledAccounted(h: Host, g: Host, u: Uuid, gone: set<nat>, more: seq<Answer>)
    requires Accounted(h) && Settled(h, g, u, gone, more)
    ensures Accounted(g)
  {
    SettledOnce(h, g, u, gone, more);
    IdsConcat(h.answers, more);
    forall id | Parked(h, id) && id !in gone ensures Parked(g, id) {
      var v :| v in h.modules && id in Waiting(h.modules[v]);
      assert v in g.modules && id in Waiting(g.modules[v]);
    }
  }

  lemma ChangedAccounted(h: Host, u: Uuid, status: Status, errnum: Option<Errno>)
    requires HostOk(h) && Accounted(h) && u in h.modules && status != Init
    ensures Accounted(Changed(h, u, status, errnum))
  {
    var m := h.modules[u];
    assert ModuleOk(m);
    RepliesIds(m, status, errnum);
    var more := Replies(m, status, errnum);
    SettledAccounted(h, Changed(h, u, status, errnum), u, Ids(more), more);
  }

  lemma UnloadAccounted(h: Host, u: Uuid)
    requires Accounted(h) && u in h.modules
    ensures Accounted(Next(h, Unload(u, None)))
  {
    assert h.answers + [] == h.answers;
    assert Ids([]) == {};
    SettledAccounted(h, Next(h, Unload(u, None)), u, Waiting(h.modules[u]), []);
  }

  lemma SameAccounted(h: Host, g: Host)
    requires Accounted(h) && g == h.(services := g.services)
    ensures Accounted(g)
  {
    forall id | Parked(h, id) ensures Parked(g, id) {
      var v :| v in h.modules && id in Waiting(h.modules[v]);
      assert v in g.modules && id in Waiting(g.modules[v]);
    }
  }

  lemma LoadAccounted(h: Host, request: Option<nat>, uuid: Uuid, file: Option<string>, start: Option<Errno>)
    requires HostOk(h) && Accounted(h) && Enabled(h, Insmod(request, uuid, file, start))
    ensures Accounted(Next(h, Insmod(request, uuid, file, start)))
  {
    var news := match request case Some(id) => {id} case None => {};
    var g := Next(h, Insmod(request, uuid, file, start));
    if LoadError(h.services, file, start).None? {
      var m := Module(file.value, Init, request, []);
      assert Waiting(m) == news;
      WaitAccounted(h, uuid, m, news);
      SameAccounted(h.(modules := h.modules[uuid := m], received := h.received + news), g);
    } else if request.Some? {
      RespondAccounted(h, request.value, g.answers[|h.answers|].errno);
    } else {
      assert g == h;
    }
  }

  lemma AskAccounted(h: Host, id: nat, name: string, found: Option<Uuid>, stop: Option<Errno>)
    requires Accounted(h) && Enabled(h, Rmmod(id, name, found, stop))
    ensures Accounted(Next(h, Rmmod(id, name, found, stop)))
  {
    if found.Some? && stop.None? {
      var m := h.modules[found.value];
      var n := m.(rmmod := [id] + m.rmmod);
      assert id !in Waiting(m);
      assert NoRepeat(n);
      assert Waiting(n) == {id} + Waiting(m);
      WaitAccounted(h, found.value, n, {id});
    } else {
      RespondAccounted(h, id, if found.Some? then stop else Some(ENOENT));
    }
  }

  lemma NextAccounted(h: Host, a: Action)
    requires HostOk(h) && Accounted(h) && Enabled(h, a)
    ensures Accounted(Next(h, a))
  {
    match a
    case Insmod(request, uuid, file, start) => LoadAccounted(h, request, uuid, file, start);
    case Rmmod(id, name, found, stop) => AskAccounted(h, id, name, found, stop);
    case Unload(uuid, stop) => if stop.None? { UnloadAccounted(h, uuid); }
    case Keepalive(uuid, status, errnum) => ChangedAccounted(h, uuid, status, errnum);
    case AddService(_, _) => SameAccounted(h, Next(h, a));
    case RemoveService(_, _) => SameAccounted(h, Next(h, a));
  }

  // ---------------------------------------------------------------- runs

  datatype Run = Run(states: seq<Host>, actions: seq<Action>)

  /** The broker starts with its own services and no modules. */
  ghost predicate Initial(h: Host) {
    && h.modules == map[] && h.answers == [] && h.received == {} && h.dropped == {}
    && forall s <- h.services :: h.services[s] == None
  }

  ghost predicate IsRun(r: Run) {
    && |r.states| == |r.actions| + 1 && Initial(r.states[0])
    && forall i | 0 <= i < |r.actions| ::
         Enabled(r.states[i], r.actions[i]) && r.states[i + 1] == Next(r.states[i], r.actions[i])
  }

  /** In every run each service of a module belongs to one that is loaded, and each insmod
      or rmmod request has been answered exactly once, waits for a loaded module, or was
      dropped by a synchronous unload. */
  lemma {:induction false} Lifecycle(r: Run, i: nat)
    requires IsRun(r) && i < |r.states|
    ensures HostOk(r.states[i]) && Accounted(r.states[i])
  {
    if i > 0 {
      Lifecycle(r, i - 1);
      NextKeeps(r.states[i - 1], r.actions[i - 1]);
      NextAccounted(r.states[i - 1], r.actions[i - 1]);
    }
  }

  ghost predicate Owns(h: Host, u: Uuid) {
    exists s :: s in h.services && h.services[s] == Some(u)
  }

  /** Once a module has exited it has no service left and nothing waits for it: all that did
      has been answered. */
  lemma ExitLeavesNothing(r: Run, i: nat)
    requires IsRun(r) && i < |r.actions| && r.actions[i].Keepalive? && r.actions[i].status == Exited
    ensures var u := r.actions[i].uuid;
      && u in r.states[i].modules && u !in r.states[i + 1].modules
      && !Owns(r.states[i + 1], u)
      && (forall id <- Waiting(r.states[i].modules[u]) ::
            id in Ids(r.states[i + 1].answers) && !Parked(r.states[i + 1], id))
  {
    Lifecycle(r, i);
    Lifecycle(r, i + 1);
    var u := r.actions[i].uuid;
    var m := r.states[i].modules[u];
    assert ModuleOk(m);
    RepliesIds(m, Exited, r.actions[i].errnum);
    IdsConcat(r.states[i].answers, Replies(m, Exited, r.actions[i].errnum));
  }

  /** A synchronous unload of a module that requests wait for. */
  predicate Drops(h: Host, a: Action) {
    a.Unload? && a.stop.None? && a.uuid in h.modules && Waiting(h.modules[a.uuid]) != {}
  }

  lemma DropsStep(h: Host, a: Action)
    requires HostOk(h) && Accounted(h) && Enabled(h, a)
    ensures h.dropped <= Next(h, a).dropped
    ensures Next(h, a).dropped == h.dropped <==> !Drops(h, a)
  {
  }

  /** Requests are lost by exactly one thing.  In every run nothing has been dropped if and
      only if no step was a synchronous unload of a module that requests waited for, and then
      every request received has been answered, exactly once, or waits for a loaded module,
      and not both. */
  lemma {:induction false} DroppedIff(r: Run, i: nat)
    requires IsRun(r) && i < |r.states|
    ensures r.states[i].dropped == {} <==> forall j | 0 <= j < i :: !Drops(r.states[j], r.actions[j])
    ensures r.states[i].dropped == {} ==>
      && Distinct(r.states[i].answers)
      && forall id <- r.states[i].received :: id in Ids(r.states[i].answers) <==> !Parked(r.states[i], id)
  {
    Lifecycle(r, i);
    if i > 0 {
      DroppedIff(r, i - 1);
      Lifecycle(r, i - 1);
      DropsStep(r.states[i - 1], r.actions[i - 1]);
    }
  }

  /** The broker gets there: it loads a module for itself, a user asks to unload it, and the
      broker unloads it synchronously before it has exited. */
  lemma UnloadDropsRequest(services: map<string, Option<Uuid>>, uuid: Uuid, name: string, id: nat) returns (r: Run)
    requires ServiceError(services, name).None? && forall s <- services :: services[s] == None
    ensures IsRun(r) && |r.actions| == 3 && r.states[0].services == services
    ensures r.actions[1] == Rmmod(id, name, Some(uuid), None) && r.actions[2] == Unload(uuid, None)
    ensures var last := r.states[3];
      id in last.received && id in last.dropped && id !in Ids(last.answers) && !Parked(last, id)
  {
    var h0 := Host(map[], services, [], {}, {});
    var m := Module(name, Init, None, []);
    var h1 := Next(h0, Insmod(None, uuid, Some(name), None));
    assert h1.modules == map[uuid := m];
    var h2 := Next(h1, Rmmod(id, name, Some(uuid), None));
    assert [id] + [] == [id];
    assert h2.modules == map[uuid := m.(rmmod := [id])];
    assert id in Waiting(h2.modules[uuid]);
    var h3 := Next(h2, Unload(uuid, None));
    r := Run([h0, h1, h2, h3],
             [Insmod(None, uuid, Some(name), None), Rmmod(id, name, Some(uuid), None), Unload(uuid, None)]);
    Lifecycle(r, 3);
  }
}

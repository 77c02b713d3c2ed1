/** What the answers to insmod and rmmod say, and who owns a service, over whole runs. */
module ModuleAnswers {
  import opened Basics
  import opened Modules

  /** Step i answers request id. */
  ghost predicate Told(r: Run, i: nat, id: nat, errno: Option<Errno>)
    requires IsRun(r) && i < |r.actions|
  {
    News(r.states[i], r.actions[i], Answer(id, errno))
  }

  ghost predicate News(h: Host, a: Action, x: Answer)
    requires Enabled(h, a)
  {
    var after := Next(h, a).answers;
    |h.answers| <= |after| && x in after[|h.answers|..]
  }

  /** Why a module is not loaded: no file, a period in its name, a name in use, or a start
      that failed. */
  predicate LoadFailed(services: map<string, Option<Uuid>>, file: Option<string>, start: Option<Errno>, errno: Errno) {
    match file
    case None => errno == ENOENT
    case Some(name) =>
      || ('.' in name && errno == EINVAL)
      || ('.' !in name && name in services && errno == EEXIST)
      || ('.' !in name && name !in services && start == Some(errno))
  }

  predicate NoneNamed(h: Host, name: string) {
    forall u <- h.modules :: h.modules[u].name != name
  }

  /** The module comes out of initialisation: it runs, or it has exited with errno. */
  predicate LeavesInit(h: Host, a: Action, g: Host, u: Uuid, errno: Option<Errno>) {
    && a.Keepalive? && a.uuid == u && u in h.modules && h.modules[u].status == Init
    && if a.status == Exited then errno == a.errnum && u !in g.modules
       else errno.None? && u in g.modules && g.modules[u].status == a.status && a.status != Init
  }

  predicate Exits(h: Host, a: Action, g: Host, u: Uuid) {
    a.Keepalive? && a.uuid == u && a.status == Exited && u in h.modules && u !in g.modules
  }

  /** What a single answer means. */
  predicate Meant(h: Host, a: Action, g: Host, x: Answer) {
    || (a.Insmod? && a.request == Some(x.id) && x.errno.Some? && LoadFailed(h.services, a.file, a.start, x.errno.value))
    || (a.Rmmod? && a.id == x.id && x.errno.Some?
        && if a.found.None? then x.errno == Some(ENOENT) && NoneNamed(h, a.name) else x.errno == a.stop)
    || (a.Keepalive? && a.uuid in h.modules && h.modules[a.uuid].insmod == Some(x.id)
        && LeavesInit(h, a, g, a.uuid, x.errno))
    || (a.Keepalive? && a.uuid in h.modules && x.id in h.modules[a.uuid].rmmod && x.errno.None?
        && Exits(h, a, g, a.uuid))
  }

  lemma ChangeMeant(h: Host, uuid: Uuid, status: Status, errnum: Option<Errno>, x: Answer)
    requires Enabled(h, Keepalive(uuid, status, errnum)) && x in Replies(h.modules[uuid], status, errnum)
    ensures Meant(h, Keepalive(uuid, status, errnum), Changed(h, uuid, status, errnum), x)
  {
    var m := h.modules[uuid];
    if x !in InitReply(m, status, errnum) {
      assert x in Done(m.rmmod);
    }
  }

  lemma AnswerMeant(h: Host, a: Action, x: Answer)
    requires Enabled(h, a) && News(h, a, x)
    ensures Meant(h, a, Next(h, a), x)
  {
    match a
    case Keepalive(uuid, status, errnum) =>
      assert Next(h, a).answers[|h.answers|..] == Replies(h.modules[uuid], status, errnum);
      ChangeMeant(h, uuid, status, errnum, x);
    case _ =>
  }

  // ---------------------------------------------------------------- insmod

  /** Request id waits, if at all, as the request that loaded module u. */
  ghost predicate Loading(h: Host, id: nat, u: Uuid) {
    && id in h.received
    && forall v <- h.modules :: (h.modules[v].insmod == Some(id) ==> v == u) && id !in h.modules[v].rmmod
  }

  lemma LoadingStep(h: Host, a: Action, id: nat, u: Uuid)
    requires Enabled(h, a) && Loading(h, id, u)
    ensures Loading(Next(h, a), id, u)
  {
  }

  lemma LoadingStarts(h: Host, a: Action, id: nat)
    requires Enabled(h, a) && Once(h) && a.Insmod? && a.request == Some(id)
    ensures Loading(Next(h, a), id, a.uuid)
  {
    forall v | v in h.modules ensures h.modules[v].insmod != Some(id) && id !in h.modules[v].rmmod {
      assert Waiting(h.modules[v]) <= h.received;
    }
  }

  lemma {:induction false} LoadingLasts(r: Run, j: nat, i: nat, id: nat)
    requires IsRun(r) && j < i < |r.states| && r.actions[j].Insmod? && r.actions[j].request == Some(id)
    ensures Loading(r.states[i], id, r.actions[j].uuid)
    decreases i
  {
    if i == j + 1 {
      Lifecycle(r, j);
      LoadingStarts(r.states[j], r.actions[j], id);
    } else {
      LoadingLasts(r, j, i - 1, id);
      LoadingStep(r.states[i - 1], r.actions[i - 1], id, r.actions[j].uuid);
    }
  }

  /** In every run insmod is answered with success only in the step in which its module comes
      out of initialisation, to run or to exit without error.  It is answered with an error
      only by that exit's, or at once because loading failed, with the errno of the cause. */
  lemma InsmodTold(r: Run, j: nat, i: nat, id: nat, errno: Option<Errno>)
    requires IsRun(r) && j <= i < |r.actions| && r.actions[j].Insmod? && r.actions[j].request == Some(id)
    requires Told(r, i, id, errno)
    ensures var a := r.actions[j];
      if i == j then errno.Some? && LoadFailed(r.states[j].services, a.file, a.start, errno.value)
      else LeavesInit(r.states[i], r.actions[i], r.states[i + 1], a.uuid, errno)
  {
    AnswerMeant(r.states[i], r.actions[i], Answer(id, errno));
    if j < i {
      LoadingLasts(r, j, i, id);
    }
  }

  /** A load that does not fail for one of these causes leaves the module initialising, as the
      owner of the service of its name, and its request waiting. */
  lemma InsmodLoads(r: Run, i: nat)
    requires IsRun(r) && i < |r.actions| && r.actions[i].Insmod?
    requires var a := r.actions[i]; forall e :: !LoadFailed(r.states[i].services, a.file, a.start, e)
    ensures var a, g := r.actions[i], r.states[i + 1];
      && a.file.Some? && a.uuid in g.modules && g.modules[a.uuid] == Module(a.file.value, Init, a.request, [])
      && a.file.value in g.services && g.services[a.file.value] == Some(a.uuid)
      && g.answers == r.states[i].answers
  {
    var a, h := r.actions[i], r.states[i];
    assert !LoadFailed(h.services, a.file, a.start, ENOENT);
    assert !LoadFailed(h.services, a.file, a.start, EINVAL);
    assert !LoadFailed(h.services, a.file, a.start, EEXIST);
    assert a.start.Some? ==> !LoadFailed(h.services, a.file, a.start, a.start.value);
  }

  // ---------------------------------------------------------------- rmmod

  /** Request id waits, if at all, for module u to exit. */
  ghost predicate Unloading(h: Host, id: nat, u: Uuid) {
    && id in h.received
    && forall v <- h.modules :: h.modules[v].insmod != Some(id) && (id in h.modules[v].rmmod ==> v == u)
  }

  lemma UnloadingStep(h: Host, a: Action, id: nat, u: Uuid)
    requires Enabled(h, a) && Unloading(h, id, u)
    ensures Unloading(Next(h, a), id, u)
  {
  }

  lemma UnloadingStarts(h: Host, a: Action, id: nat, u: Uuid)
    requires Enabled(h, a) && Once(h) && a.Rmmod? && a.id == id && (a.found.Some? ==> a.found.value == u)
    ensures Unloading(Next(h, a), id, u)
  {
    forall v | v in h.modules ensures h.modules[v].insmod != Some(id) && id !in h.modules[v].rmmod {
      assert Waiting(h.modules[v]) <= h.received;
    }
  }

  lemma {:induction false} UnloadingLasts(r: Run, j: nat, i: nat, id: nat, u: Uuid)
    requires IsRun(r) && j < i < |r.states| && r.actions[j].Rmmod? && r.actions[j].id == id
    requires r.actions[j].found.Some? ==> r.actions[j].found.value == u
    ensures Unloading(r.states[i], id, u)
    decreases i
  {
    if i == j + 1 {
      Lifecycle(r, j);
      UnloadingStarts(r.states[j], r.actions[j], id, u);
    } else {
      UnloadingLasts(r, j, i - 1, id, u);
      UnloadingStep(r.states[i - 1], r.actions[i - 1], id, u);
    }
  }

  /** In every run rmmod is answered with success only in the step in which its module exits,
      and with an error only at once: ENOENT if no module has the name, or why it could not be
      told to stop. */
  lemma RmmodTold(r: Run, j: nat, i: nat, id: nat, errno: Option<Errno>, u: Uuid)
    requires IsRun(r) && j <= i < |r.actions| && r.actions[j].Rmmod? && r.actions[j].id == id
    requires r.actions[j].found.Some? ==> r.actions[j].found.value == u
    requires Told(r, i, id, errno)
    ensures var a := r.actions[j];
      if i == j then errno.Some? && if a.found.None? then errno == Some(ENOENT) && NoneNamed(r.states[j], a.name)
                                    else errno == a.stop
      else errno.None? && Exits(r.states[i], r.actions[i], r.states[i + 1], u)
  {
    AnswerMeant(r.states[i], r.actions[i], Answer(id, errno));
    if j < i {
      UnloadingLasts(r, j, i, id, u);
    }
  }

  // ---------------------------------------------------------------- services

  /** u removes its service s, or is gone. */
  predicate GivesUp(a: Action, g: Host, u: Uuid, s: string) {
    a == RemoveService(u, s) || (u !in g.modules && (a.Unload? || (a.Keepalive? && a.status == Exited)) && a.uuid == u)
  }

  /** Nobody takes a service away but its owner, by asking or by going. */
  lemma OwnerStays(h: Host, a: Action, s: string)
    requires HostOk(h) && Enabled(h, a) && s in h.services
    ensures var g, owner := Next(h, a), h.services[s];
      if owner.Some? && GivesUp(a, g, owner.value, s) then s !in g.services
      else s in g.services && g.services[s] == owner
  {
  }

  /** A new service has a free name without period, and belongs to the module that asked for
      it or that was loaded under that name. */
  lemma ServiceGained(h: Host, a: Action, s: string)
    requires Enabled(h, a) && s !in h.services
    ensures s in Next(h, a).services <==>
      && '.' !in s
      && (|| (a.AddService? && a.service == s && a.sender in h.modules)
          || (a.Insmod? && a.file == Some(s) && a.start.None?))
    ensures s in Next(h, a).services ==> Next(h, a).services[s] == Some(if a.AddService? then a.sender else a.uuid)
  {
  }

  /** In every run a service stays with its owner until the owner gives it up. */
  lemma {:induction false} ServiceKept(r: Run, i: nat, j: nat, s: string, u: Uuid)
    requires IsRun(r) && i <= j < |r.states| && s in r.states[i].services && r.states[i].services[s] == Some(u)
    requires forall k | i <= k < j :: !GivesUp(r.actions[k], r.states[k + 1], u, s)
    ensures s in r.states[j].services && r.states[j].services[s] == Some(u) && u in r.states[j].modules
    decreases j
  {
    Lifecycle(r, j);
    if i < j {
      ServiceKept(r, i, j - 1, s, u);
      Lifecycle(r, j - 1);
      OwnerStays(r.states[j - 1], r.actions[j - 1], s);
    }
  }
}

/** The module hash, the service switch and the module objects that both point to. */
module ModuleHost {
  import opened Basics
  import opened Services
  import opened Modules

  lemma PutRemove<K, V>(m: map<K, V>, k: K, v: V)
    requires k !in m
    ensures m[k := v] - {k} == m
  {
  }

  lemma OwnThenDisown(owners: map<string, Option<Uuid>>, name: string, uuid: Uuid)
    requires name !in owners && forall s <- owners :: owners[s] != Some(uuid)
    ensures Without(owners[name := Some(uuid)], uuid) == owners
  {
  }

  class CommsModule {
    const uuid: Uuid
    const name: string
    var status: Status
    var insmod: Option<nat>
    var rmmod: seq<nat>

    ghost function View(): Module
      reads this
    {
      Module(name, status, insmod, rmmod)
    }

    constructor (uuid: Uuid, name: string)
      ensures View() == Module(name, Init, None, []) && this.uuid == uuid
    {
      this.uuid, this.name, status, insmod, rmmod := uuid, name, Init, None, [];
    }

    method PopRmmod() returns (id: Option<nat>)
      modifies `rmmod
      ensures old(rmmod) == [] ==> id == None && rmmod == []
      ensures old(rmmod) != [] ==> id == Some(old(rmmod)[0]) && rmmod == old(rmmod)[1..]
    {
      if rmmod == [] {
        return None;
      }
      id, rmmod := Some(rmmod[0]), rmmod[1..];
    }
  }

  class ModuleHost {
    /** The target of a service is the module it belongs to, or null for the broker's own. */
    const switch: Switch<CommsModule?>
    var modules: map<Uuid, CommsModule>
    var answers: seq<Answer>
    ghost var received: set<nat>
    ghost var dropped: set<nat>

    /** Modules are found under their own uuid, so no two entries are the same object. */
    ghost predicate Keyed()
      reads `modules
    {
      forall u <- modules :: modules[u].uuid == u
    }

    ghost predicate Valid()
      reads `modules, switch
    {
      && switch.Valid() && Keyed()
      && (forall s <- switch.services :: TargetOk(switch.services[s]))
    }

    /** A service registered under a uuid points at the module of that uuid. */
    ghost predicate TargetOk(svc: Service<CommsModule?>)
      reads `modules
    {
      svc.uuid.Some? ==> svc.uuid.value in modules && svc.target == modules[svc.uuid.value]
    }

    ghost function Table(): map<Uuid, Module>
      reads `modules, modules.Values
    {
      map u | u in modules :: modules[u].View()
    }

    ghost function Owners(): map<string, Option<Uuid>>
      reads switch
    {
      map s | s in switch.services :: switch.services[s].uuid
    }

    ghost function View(): Host
      reads this, switch, modules.Values
    {
      Host(Table(), Owners(), answers, received, dropped)
    }

    constructor ()
      ensures Valid() && fresh(switch) && Initial(View())
    {
      switch := new Switch();
      modules, answers, received, dropped := map[], [], {}, {};
    }

    method Answer(request: Option<nat>, errno: Option<Errno>)
      modifies `answers
      ensures answers == if request.Some? then old(answers) + [Modules.Answer(request.value, errno)] else old(answers)
    {
      if request.Some? {
        answers := answers + [Modules.Answer(request.value, errno)];
      }
    }

    /** A module that is not loaded owns no service. */
    lemma Unowned(uuid: Uuid)
      requires Valid() && uuid !in modules
      ensures uuid !in Table() && forall s <- Owners() :: Owners()[s] != Some(uuid)
    {
      forall s | s in Owners() ensures Owners()[s] != Some(uuid) {
        assert TargetOk(switch.services[s]);
      }
    }

    method AddModule(uuid: Uuid, name: string) returns (p: CommsModule)
      requires Valid() && uuid !in modules
      modifies `modules
      ensures Valid() && fresh(p) && modules == old(modules)[uuid := p]
      ensures Table() == old(Table())[uuid := Module(name, Init, None, [])]
    {
      p := new CommsModule(uuid, name);
      modules := modules[uuid := p];
    }

    /** service_add on behalf of a module. */
    method AddFor(uuid: Uuid, name: string) returns (rc: Option<Errno>)
      requires Valid() && uuid in modules
      modifies switch
      ensures Valid() && rc == ServiceError(old(Owners()), name)
      ensures rc.Some? ==> switch.services == old(switch.services)
      ensures Owners() == if rc.None? then old(Owners())[name := Some(uuid)] else old(Owners())
    {
      rc := switch.Add(name, Some(uuid), modules[uuid]);
    }

    /** Create a module and register it as a service under its own name. */
    method Attach(uuid: Uuid, name: string) returns (rc: Option<Errno>)
      requires Valid() && uuid !in modules
      modifies `modules, switch
      ensures Valid() && rc == ServiceError(old(Owners()), name)
      ensures rc.Some? ==> Table() == old(Table()) && Owners() == old(Owners())
      ensures rc.None? ==> uuid in modules && fresh(modules[uuid])
      ensures rc.None? ==> Table() == old(Table())[uuid := Module(name, Init, None, [])]
      ensures rc.None? ==> Owners() == old(Owners())[name := Some(uuid)]
    {
      Unowned(uuid);
      var p := AddModule(uuid, name);
      rc := AddFor(uuid, name);
      if rc.Some? {
        RemoveModule(uuid);
        PutRemove(old(Table()), uuid, Module(name, Init, None, []));
      }
    }

    method PushInsmod(uuid: Uuid, request: Option<nat>)
      requires Keyed() && uuid in modules
      modifies modules[uuid]
      ensures Table() == old(Table())[uuid := old(Table())[uuid].(insmod := request)]
    {
      modules[uuid].insmod := request;
    }

    /** Take a module out of the switch and the hash. */
    method Detach(uuid: Uuid)
      requires Valid() && uuid in modules
      modifies `modules, switch
      ensures Valid() && modules == old(modules) - {uuid} && Table() == old(Table()) - {uuid}
      ensures Owners() == Without(old(Owners()), uuid)
    {
      Disown(uuid);
      RemoveModule(uuid);
    }

    /** service_remove_byuuid. */
    method Disown(uuid: Uuid)
      requires Valid()
      modifies switch
      ensures Valid() && Owners() == Without(old(Owners()), uuid)
      ensures forall s <- switch.services :: switch.services[s].uuid != Some(uuid)
    {
      switch.RemoveByUuid(uuid);
    }

    method RemoveModule(uuid: Uuid)
      requires Valid() && uuid in modules && forall s <- switch.services :: switch.services[s].uuid != Some(uuid)
      modifies `modules
      ensures Valid() && modules == old(modules) - {uuid} && Table() == old(Table()) - {uuid}
    {
      modules := modules - {uuid};
    }

    /** Start a module that has been attached; on failure it is detached. */
    method Launch(request: Option<nat>, uuid: Uuid, start: Option<Errno>)
      requires Valid() && uuid in modules
      modifies `modules, switch, modules[uuid]
      ensures Valid()
      ensures start.Some? ==> Table() == old(Table()) - {uuid} && Owners() == Without(old(Owners()), uuid)
      ensures start.None? ==> Table() == old(Table())[uuid := old(Table())[uuid].(insmod := request)]
      ensures start.None? ==> Owners() == old(Owners())
    {
      PushInsmod(uuid, request);
      if start.Some? {
        Detach(uuid);
      }
    }

    /** Load and start a module; on failure everything is as before. */
    method LoadByPath(request: Option<nat>, uuid: Uuid, file: Option<string>, start: Option<Errno>)
        returns (rc: Option<Errno>)
      requires Valid() && uuid !in modules
      modifies `modules, switch
      ensures Valid()
      ensures rc == LoadError(old(Owners()), file, start)
      ensures rc.Some? ==> Table() == old(Table()) && Owners() == old(Owners())
      ensures rc.None? ==> Table() == old(Table())[uuid := Module(file.value, Init, request, [])]
      ensures rc.None? ==> Owners() == old(Owners())[file.value := Some(uuid)]
    {
      if file.None? {
        return Some(ENOENT);
      }
      rc := AttachAndLaunch(request, uuid, file.value, start);
    }

    method AttachAndLaunch(request: Option<nat>, uuid: Uuid, name: string, start: Option<Errno>)
        returns (rc: Option<Errno>)
      requires Valid() && uuid !in modules
      modifies `modules, switch
      ensures Valid()
      ensures rc == LoadError(old(Owners()), Some(name), start)
      ensures rc.Some? ==> Table() == old(Table()) && Owners() == old(Owners())
      ensures rc.None? ==> Table() == old(Table())[uuid := Module(name, Init, request, [])]
      ensures rc.None? ==> Owners() == old(Owners())[name := Some(uuid)]
    {
      ghost var table, owners := Table(), Owners();
      Unowned(uuid);
      rc := Attach(uuid, name);
      if rc.None? {
        Launch(request, uuid, start);
        if start.Some? {
          PutRemove(table, uuid, Module(name, Init, None, []));
          OwnThenDisown(owners, name, uuid);
        }
        rc := start;
      }
    }

    method Insmod(request: Option<nat>, uuid: Uuid, file: Option<string>, start: Option<Errno>)
      requires Valid() && uuid !in modules && (request.Some? ==> request.value !in received)
      modifies this, switch
      ensures Valid() && View() == Load(Receive(old(View()), request), request, uuid, file, start)
    {
      received := received + match request case Some(id) => {id} case None => {};
      var rc := LoadByPath(request, uuid, file, start);
      if rc.Some? {
        ghost var table := Table();
        Answer(request, rc);
        assert Table() == table;
      }
    }

    /** The first module of that name in the order of the hash. */
    method LookupByName(name: string) returns (p: CommsModule?)
      requires Valid()
      ensures p == null ==> forall u <- modules :: modules[u].name != name
      ensures p != null ==> p.name == name && p.uuid in modules && modules[p.uuid] == p
    {
      var uuids := modules.Keys;
      while uuids != {}
        invariant uuids <= modules.Keys
        invariant forall u | u in modules && u !in uuids :: modules[u].name != name
        decreases uuids
      {
        var u :| u in uuids;
        if modules[u].name == name {
          return modules[u];
        }
        uuids := uuids - {u};
      }
      p := null;
    }

    method UnloadAsync(id: nat, name: string, stop: Option<Errno>)
        returns (rc: Option<Errno>, ghost found: Option<Uuid>)
      requires Valid()
      modifies modules.Values
      ensures Valid() && Found(old(Table()), name, found)
      ensures rc == if found.None? then Some(ENOENT) else stop
      ensures rc.Some? ==> Table() == old(Table())
      ensures rc.None? ==>
        var m := old(Table())[found.value]; Table() == old(Table())[found.value := m.(rmmod := [id] + m.rmmod)]
    {
      var p := LookupByName(name);
      found := if p == null then None else Some(p.uuid);
      if p == null {
        return Some(ENOENT), found;
      }
      if stop.None? {
        PushRmmod(p.uuid, id);
      }
      rc := stop;
    }

    method Rmmod(id: nat, name: string, stop: Option<Errno>) returns (ghost found: Option<Uuid>)
      requires Valid() && id !in received
      modifies this, modules.Values
      ensures Valid() && Found(old(Table()), name, found)
      ensures View() == AskUnload(Receive(old(View()), Some(id)), id, found, stop)
    {
      received := received + {id};
      var rc;
      rc, found := UnloadAsync(id, name, stop);
      if rc.Some? {
        Answer(Some(id), rc);
      }
    }

    method PushRmmod(uuid: Uuid, id: nat)
      requires Keyed() && uuid in modules
      modifies modules[uuid]
      ensures Table() == old(Table())[uuid := old(Table())[uuid].(rmmod := [id] + old(Table())[uuid].rmmod)]
    {
      modules[uuid].rmmod := [id] + modules[uuid].rmmod;
    }

    /** The synchronous unload of the broker itself; requests that wait are destroyed. */
    method Unload(name: string, stop: Option<Errno>) returns (rc: Option<Errno>, ghost found: Option<Uuid>)
      requires Valid()
      modifies `modules, `dropped, switch
      ensures Valid() && Found(old(Table()), name, found)
      ensures rc == if found.None? then Some(ENOENT) else stop
      ensures found.None? ==> View() == old(View())
      ensures found.Some? ==> View() == Unloaded(old(View()), found.value, stop)
    {
      var p := LookupByName(name);
      found := if p == null then None else Some(p.uuid);
      if p == null {
        return Some(ENOENT), found;
      }
      if stop.None? {
        Destroy(p.uuid);
      }
      rc := stop;
    }

    /** Take a module out and destroy the requests that wait for it. */
    method Destroy(uuid: Uuid)
      requires Valid() && uuid in modules
      modifies `modules, `dropped, switch
      ensures Valid() && Table() == old(Table()) - {uuid} && Owners() == Without(old(Owners()), uuid)
      ensures dropped == old(dropped) + Waiting(old(Table())[uuid])
    {
      dropped := dropped + Waiting(modules[uuid].View());
      Detach(uuid);
    }

    method AddService(sender: Uuid, name: string) returns (rc: Option<Errno>)
      requires Valid()
      modifies switch
      ensures Valid() && View() == Next(old(View()), Action.AddService(sender, name))
      ensures rc == if sender !in modules then Some(ENOENT) else ServiceError(old(Owners()), name)
    {
      if sender !in modules {
        return Some(ENOENT);
      }
      rc := AddFor(sender, name);
    }

    method RemoveService(sender: Uuid, name: string) returns (rc: Option<Errno>)
      requires Valid()
      modifies switch
      ensures Valid() && View() == Next(old(View()), Action.RemoveService(sender, name))
      ensures rc == if name !in old(Owners()) || old(Owners())[name].None? then Some(ENOENT)
                    else if old(Owners())[name] != Some(sender) then Some(EINVAL) else None
    {
      if name !in switch.services || switch.services[name].uuid.None? {
        return Some(ENOENT);
      }
      if switch.services[name].uuid != Some(sender) {
        return Some(EINVAL);
      }
      switch.Remove(name);
      rc := None;
    }

    /** Answer the requests that waited for a module to exit. */
    method AnswerRmmods(p: CommsModule)
      modifies `answers, p`rmmod
      ensures p.rmmod == [] && answers == old(answers) + Done(old(p.rmmod))
    {
      var id := p.PopRmmod();
      ghost var k := Bit(id.Some?);
      while id.Some?
        invariant 0 <= k <= |old(p.rmmod)|
        invariant p.rmmod == old(p.rmmod)[k..]
        invariant id.Some? ==> k > 0 && id.value == old(p.rmmod)[k - 1]
        invariant id.None? ==> p.rmmod == []
        invariant answers == old(answers) + Done(old(p.rmmod)[..k - Bit(id.Some?)])
        decreases |p.rmmod| + Bit(id.Some?)
      {
        Answer(id, None);
        assert old(p.rmmod)[..k] == old(p.rmmod)[..k - 1] + [id.value];
        id := p.PopRmmod();
        if id.Some? {
          k := k + 1;
        }
      }
      assert old(p.rmmod)[..k] == old(p.rmmod);
    }

    /** Change the status and, coming from Init, answer the request that loaded the module. */
    method EnterStatus(p: CommsModule, status: Status, errnum: Option<Errno>)
      modifies `answers, p
      ensures var m := old(p.View());
        p.View() == m.(status := status, insmod := if m.status == Init then None else m.insmod)
      ensures answers == old(answers) + InitReply(old(p.View()), status, errnum)
    {
      var prev := p.status;
      p.status := status;
      if prev == Init {
        var id := p.insmod;
        p.insmod := None;
        Answer(id, if status == Exited then errnum else None);
      }
    }

    /** EnterStatus, as the table sees it. */
    method Proceed(uuid: Uuid, status: Status, errnum: Option<Errno>)
      requires Keyed() && uuid in modules
      modifies `answers, modules[uuid]
      ensures answers == old(answers) + InitReply(old(Table())[uuid], status, errnum)
      ensures var m := old(Table())[uuid];
        Table() == old(Table())[uuid := m.(status := status, insmod := if m.status == Init then None else m.insmod)]
    {
      EnterStatus(modules[uuid], status, errnum);
    }

    /** A module has exited: its services go and all that waits for it is answered. */
    method Farewell(p: CommsModule, errnum: Option<Errno>)
      requires Valid()
      modifies `answers, switch, p
      ensures Valid() && Owners() == Without(old(Owners()), p.uuid)
      ensures forall s <- switch.services :: switch.services[s].uuid != Some(p.uuid)
      ensures answers == old(answers) + Replies(old(p.View()), Exited, errnum)
    {
      EnterStatus(p, Exited, errnum);
      Disown(p.uuid);
      AnswerRmmods(p);
    }

    method Exit(uuid: Uuid, errnum: Option<Errno>)
      requires Valid() && uuid in modules
      modifies `answers, `modules, switch, modules[uuid]
      ensures Valid() && Table() == old(Table()) - {uuid} && Owners() == Without(old(Owners()), uuid)
      ensures answers == old(answers) + Replies(old(Table())[uuid], Exited, errnum)
    {
      Farewell(modules[uuid], errnum);
      RemoveModule(uuid);
    }

    method SetStatus(uuid: Uuid, status: Status, errnum: Option<Errno>)
      requires Valid() && uuid in modules
      requires status != Init && status != modules[uuid].status && modules[uuid].status != Exited
      modifies `answers, `modules, switch, modules[uuid]
      ensures Valid() && View() == Changed(old(View()), uuid, status, errnum)
    {
      if status == Exited {
        Exit(uuid, errnum);
      } else {
        Proceed(uuid, status, errnum);
      }
    }
  }
}

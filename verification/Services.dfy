/** The service switch of service.c: a request goes to the service whose name is the first
    word of its topic. */
module Services {
  import opened Basics

  /** What stands before the first period of s. */
  function FirstWord(s: string): (w: string)
    ensures w <= s && '.' !in w
    ensures |w| < |s| ==> s[|w|] == '.'
  {
    if s == "" || s[0] == '.' then "" else [s[0]] + FirstWord(s[1..])
  }

  /** A topic belongs to a service if it is the name, or the name and a method. */
  predicate Matches(name: string, topic: string) {
    name <= topic && (|name| < |topic| ==> topic[|name|] == '.')
  }

  /** Names have no period, so at most one name matches a topic: its first word. */
  lemma MatchIsFirstWord(name: string, topic: string)
    requires '.' !in name
    ensures Matches(name, topic) <==> name == FirstWord(topic)
  {
    var w := FirstWord(topic);
    assert forall i | 0 <= i < |w| :: w[i] == topic[i] && w[i] != '.';
    if Matches(name, topic) {
      assert forall i | 0 <= i < |name| :: name[i] == topic[i] && name[i] != '.';
      assert |name| == |w|;
    }
  }

  /** Who answers for a service: the broker itself, or a comms module. */
  datatype Service<T> = Service(uuid: Option<Uuid>, target: T)

  class Switch<T> {
    var services: map<string, Service<T>>

    /** service_add keeps this. */
    ghost predicate Valid()
      reads this
    {
      forall name <- services :: '.' !in name
    }

    constructor ()
      ensures Valid() && services == map[]
    {
      services := map[];
    }

    method Add(name: string, uuid: Option<Uuid>, target: T) returns (rc: Option<Errno>)
      requires Valid()
      modifies this
      ensures Valid()
      ensures rc == if '.' in name then Some(EINVAL) else if name in old(services) then Some(EEXIST) else None
      ensures services == if rc.None? then old(services)[name := Service(uuid, target)] else old(services)
    {
      if '.' in name {
        return Some(EINVAL);
      }
      if name in services {
        return Some(EEXIST);
      }
      services := services[name := Service(uuid, target)];
      rc := None;
    }

    method Remove(name: string)
      requires Valid()
      modifies this
      ensures Valid() && services == old(services) - {name}
    {
      services := services - {name};
    }

    /** Collect the names registered under uuid, then delete them. */
    method RemoveByUuid(uuid: Uuid)
      requires Valid()
      modifies this
      ensures Valid()
      ensures services == map name | name in old(services) && old(services)[name].uuid != Some(uuid)
                            :: old(services)[name]
    {
      var trash: seq<string> := [];
      var todo := services.Keys;
      while todo != {}
        invariant todo <= services.Keys && services == old(services)
        invariant forall i, j | 0 <= i < j < |trash| :: trash[i] != trash[j]
        invariant forall name ::
          name in trash <==> name in services && name !in todo && services[name].uuid == Some(uuid)
        decreases todo
      {
        var name :| name in todo;
        todo := todo - {name};
        if services[name].uuid == Some(uuid) {
          trash := [name] + trash;
        }
      }
      ghost var all := trash;
      while trash != []
        invariant forall name <- trash :: name in all
        invariant forall i, j | 0 <= i < j < |trash| :: trash[i] != trash[j]
        invariant services == map name | name in old(services) && (name in trash || name !in all) :: old(services)[name]
        decreases |trash|
      {
        services := services - {trash[0]};
        trash := trash[1..];
      }
    }

    /** The service that a topic is for, or ENOSYS. */
    method Lookup(topic: string) returns (svc: Option<Service<T>>)
      requires Valid()
      ensures svc.Some? <==> exists name :: name in services && Matches(name, topic)
      ensures forall name | name in services && Matches(name, topic) :: svc == Some(services[name])
    {
      forall name | name in services ensures Matches(name, topic) <==> name == FirstWord(topic) {
        MatchIsFirstWord(name, topic);
      }
      var length := 0;
      while length < |topic| && topic[length] != '.'
        invariant length <= |topic| && length <= |FirstWord(topic)|
        decreases |topic| - length
      {
        FirstWordPast(topic, length);
        length := length + 1;
      }
      FirstWordEnds(topic, length);
      if topic[..length] in services {
        svc := Some(services[topic[..length]]);
      } else {
        svc := None;
      }
    }
  }

  lemma FirstWordPast(topic: string, n: nat)
    requires n < |topic| && n <= |FirstWord(topic)| && topic[n] != '.'
    ensures n < |FirstWord(topic)|
  {
  }

  lemma FirstWordEnds(topic: string, n: nat)
    requires n <= |FirstWord(topic)| && n <= |topic| && (n < |topic| ==> topic[n] == '.')
    ensures FirstWord(topic) == topic[..n]
  {
    var w := FirstWord(topic);
    assert forall i | 0 <= i < |w| :: w[i] == topic[i] && w[i] != '.';
  }
}

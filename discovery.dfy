/**
 * The service directory: three independent maps from service name to
 * exchange name, one per role, held by `LocalDiscovery`.
 */
module Discovery {
  import opened Errors
  import opened MapValues

  /** The three namespaces: the exchange a service is called on, the exchange a
      remote service publishes on, and the exchange this process publishes on. */
  datatype Role = Remote | RemotePublisher | LocalPublisher

  /** The contents of a directory, one registry per role. */
  datatype Registries = Registries(
    remote: map<string, string>,
    remotePublisher: map<string, string>,
    localPublisher: map<string, string>)
  {
    /** The registry of one role. */
    function Get(role: Role): map<string, string> {
      match role
      case Remote => remote
      case RemotePublisher => remotePublisher
      case LocalPublisher => localPublisher
    }

    /** Registration: bind `name` to `exchange` in `role`, silently replacing an earlier binding. */
    function Register(role: Role, name: string, exchange: string): (d: Registries)
      ensures d.Get(role) == Get(role)[name := exchange]
      ensures forall other :: other != role ==> d.Get(other) == Get(other)
    {
      match role
      case Remote => this.(remote := remote[name := exchange])
      case RemotePublisher => this.(remotePublisher := remotePublisher[name := exchange])
      case LocalPublisher => this.(localPublisher := localPublisher[name := exchange])
    }

    /** Unregistration: `del` on the role's registry, a KeyError when `name` is absent. */
    function Unregister(role: Role, name: string): (r: Result<Registries>)
      ensures r.Ok? <==> name in Get(role)
      ensures r.Err? ==> r.error == KeyError(name)
      ensures r.Ok? ==> r.value.Get(role) == Get(role) - {name}
      ensures r.Ok? ==> forall other :: other != role ==> r.value.Get(other) == Get(other)
    {
      if name !in Get(role) then Err(KeyError(name))
      else match role
        case Remote => Ok(this.(remote := remote - {name}))
        case RemotePublisher => Ok(this.(remotePublisher := remotePublisher - {name}))
        case LocalPublisher => Ok(this.(localPublisher := localPublisher - {name}))
    }

    /** Discovery: the exchange bound to `name` in `role`, or UnableToDiscover naming the service. */
    function Lookup(role: Role, name: string): (r: Result<string>)
      ensures r.Ok? <==> name in Get(role)
      ensures r.Ok? ==> r.value == Get(role)[name]
      ensures r.Err? ==> r.error == UnableToDiscover(name)
    {
      match role
      case Remote => if name in remote then Ok(remote[name]) else Err(UnableToDiscover(name))
      case RemotePublisher =>
        if name in remotePublisher then Ok(remotePublisher[name]) else Err(UnableToDiscover(name))
      case LocalPublisher =>
        if name in localPublisher then Ok(localPublisher[name]) else Err(UnableToDiscover(name))
    }
  }

  /** The directory of a freshly constructed `LocalDiscovery`. */
  const Empty := Registries(map[], map[], map[])

  /** A fresh directory discovers nothing, in any role. */
  lemma EmptyDiscoversNothing(role: Role, name: string)
    ensures Empty.Lookup(role, name) == Err(UnableToDiscover(name))
  {
  }

  /** What was registered is what is discovered. */
  lemma RegisterThenLookup(d: Registries, role: Role, name: string, exchange: string)
    ensures d.Register(role, name, exchange).Lookup(role, name) == Ok(exchange)
  {
  }

  /** Registering a name twice in a role keeps only the later exchange. */
  lemma RegisterOverwrites(d: Registries, role: Role, name: string, first: string, second: string)
    ensures d.Register(role, name, first).Register(role, name, second) == d.Register(role, name, second)
    ensures d.Register(role, name, first).Register(role, name, second).Lookup(role, name) == Ok(second)
  {
  }

  /** Registration touches no other name of the role and nothing in the other roles. */
  lemma RegisterLeavesOthers(d: Registries, role: Role, name: string, exchange: string, role': Role, name': string)
    requires role' != role || name' != name
    ensures d.Register(role, name, exchange).Lookup(role', name') == d.Lookup(role', name')
  {
  }

  /** After a successful unregistration the name is no longer discovered, a
      second unregistration fails, and every other entry is as before. */
  lemma UnregisterRemovesOnlyThatName(d: Registries, role: Role, name: string, role': Role, name': string)
    requires d.Unregister(role, name).Ok?
    ensures d.Unregister(role, name).value.Lookup(role, name) == Err(UnableToDiscover(name))
    ensures d.Unregister(role, name).value.Unregister(role, name) == Err(KeyError(name))
    ensures role' != role || name' != name ==>
      d.Unregister(role, name).value.Lookup(role', name') == d.Lookup(role', name')
  {
  }

  /** Unregistering a name that was just registered for the first time restores the directory. */
  lemma RegisterThenUnregister(d: Registries, role: Role, name: string, exchange: string)
    requires name !in d.Get(role)
    ensures d.Register(role, name, exchange).Unregister(role, name) == Ok(d)
  {
    var u := d.Register(role, name, exchange).Unregister(role, name);
    assert d.Get(role)[name := exchange] - {name} == d.Get(role);
    assert u.value.Get(Remote) == d.Get(Remote);
    assert u.value.Get(RemotePublisher) == d.Get(RemotePublisher);
    assert u.value.Get(LocalPublisher) == d.Get(LocalPublisher);
  }

  /** In the snapshot of a role, registration trades the copy of the replaced
      exchange, if any, for one copy of the new one. */
  lemma RegisterSnapshot(d: Registries, role: Role, name: string, exchange: string)
    ensures ValuesOf(d.Register(role, name, exchange).Get(role)) ==
      (if name in d.Get(role) then ValuesOf(d.Get(role)) - multiset{d.Get(role)[name]}
       else ValuesOf(d.Get(role))) + multiset{exchange}
  {
    ValuesOfUpdate(d.Get(role), name, exchange);
  }

  /** In the snapshot of a role, unregistration drops exactly one copy of the removed exchange. */
  lemma UnregisterSnapshot(d: Registries, role: Role, name: string)
    requires d.Unregister(role, name).Ok?
    ensures ValuesOf(d.Unregister(role, name).value.Get(role)) ==
      ValuesOf(d.Get(role)) - multiset{d.Get(role)[name]}
  {
    ValuesOfDelete(d.Get(role), name);
  }

  /** The in-memory directory; its three registries are updated in place. */
  class LocalDiscovery {
    var remoteRegistry: map<string, string>
    var remotePublisherRegistry: map<string, string>
    var localPublisherRegistry: map<string, string>

    /** The directory's current contents. */
    function State(): Registries
      reads this
    {
      Registries(remoteRegistry, remotePublisherRegistry, localPublisherRegistry)
    }

    constructor ()
      ensures State() == Empty
    {
      remoteRegistry := map[];
      remotePublisherRegistry := map[];
      localPublisherRegistry := map[];
    }

    /** `_register_remote`: item assignment in the remote registry. */
    method StoreRemote(serviceName: string, exchangeName: string)
      modifies this
      ensures State() == old(State()).Register(Remote, serviceName, exchangeName)
    {
      remoteRegistry := remoteRegistry[serviceName := exchangeName];
    }

    /** `_register_remote_publisher`: item assignment in the remote publisher registry. */
    method StoreRemotePublisher(serviceName: string, exchangeName: string)
      modifies this
      ensures State() == old(State()).Register(RemotePublisher, serviceName, exchangeName)
    {
      remotePublisherRegistry := remotePublisherRegistry[serviceName := exchangeName];
    }

    /** `_register_local_publisher`: item assignment in the local publisher registry. */
    method StoreLocalPublisher(serviceName: string, exchangeName: string)
      modifies this
      ensures State() == old(State()).Register(LocalPublisher, serviceName, exchangeName)
    {
      localPublisherRegistry := localPublisherRegistry[serviceName := exchangeName];
    }

    /** Public registration of a remote service; delegates to `StoreRemote`. */
    method RegisterRemoteService(serviceName: string, exchangeName: string)
      modifies this
      ensures State() == old(State()).Register(Remote, serviceName, exchangeName)
    {
      StoreRemote(serviceName, exchangeName);
    }

    /** Public registration of a remote publisher; delegates to `StoreRemotePublisher`. */
    method RegisterRemotePublisher(serviceName: string, exchangeName: string)
      modifies this
      ensures State() == old(State()).Register(RemotePublisher, serviceName, exchangeName)
    {
      StoreRemotePublisher(serviceName, exchangeName);
    }

    /** Public registration of a local publisher; delegates to `StoreLocalPublisher`. */
    method RegisterLocalPublisher(serviceName: string, exchangeName: string)
      modifies this
      ensures State() == old(State()).Register(LocalPublisher, serviceName, exchangeName)
    {
      StoreLocalPublisher(serviceName, exchangeName);
    }

    method UnregisterRemoteService(serviceName: string) returns (r: Outcome)
      modifies this
      ensures old(State()).Unregister(Remote, serviceName).Ok? ==>
        r == Pass && State() == old(State()).Unregister(Remote, serviceName).value
      ensures old(State()).Unregister(Remote, serviceName).Err? ==>
        r == Fail(KeyError(serviceName)) && State() == old(State())
    {
      if serviceName !in remoteRegistry {
        return Fail(KeyError(serviceName));
      }
      remoteRegistry := remoteRegistry - {serviceName};
      r := Pass;
    }

    method UnregisterRemotePublisher(serviceName: string) returns (r: Outcome)
      modifies this
      ensures old(State()).Unregister(RemotePublisher, serviceName).Ok? ==>
        r == Pass && State() == old(State()).Unregister(RemotePublisher, serviceName).value
      ensures old(State()).Unregister(RemotePublisher, serviceName).Err? ==>
        r == Fail(KeyError(serviceName)) && State() == old(State())
    {
      if serviceName !in remotePublisherRegistry {
        return Fail(KeyError(serviceName));
      }
      remotePublisherRegistry := remotePublisherRegistry - {serviceName};
      r := Pass;
    }

    method UnregisterLocalPublisher(serviceName: string) returns (r: Outcome)
      modifies this
      ensures old(State()).Unregister(LocalPublisher, serviceName).Ok? ==>
        r == Pass && State() == old(State()).Unregister(LocalPublisher, serviceName).value
      ensures old(State()).Unregister(LocalPublisher, serviceName).Err? ==>
        r == Fail(KeyError(serviceName)) && State() == old(State())
    {
      if serviceName !in localPublisherRegistry {
        return Fail(KeyError(serviceName));
      }
      localPublisherRegistry := localPublisherRegistry - {serviceName};
      r := Pass;
    }

    method GetRemote(serviceName: string) returns (r: Result<string>)
      ensures r == State().Lookup(Remote, serviceName)
    {
      if serviceName !in remoteRegistry {
        return Err(UnableToDiscover(serviceName));
      }
      r := Ok(remoteRegistry[serviceName]);
    }

    method GetRemotePublisher(serviceName: string) returns (r: Result<string>)
      ensures r == State().Lookup(RemotePublisher, serviceName)
    {
      if serviceName !in remotePublisherRegistry {
        return Err(UnableToDiscover(serviceName));
      }
      r := Ok(remotePublisherRegistry[serviceName]);
    }

    method GetLocalPublisher(serviceName: string) returns (r: Result<string>)
      ensures r == State().Lookup(LocalPublisher, serviceName)
    {
      if serviceName !in localPublisherRegistry {
        return Err(UnableToDiscover(serviceName));
      }
      r := Ok(localPublisherRegistry[serviceName]);
    }

    /** The exchanges of every role, keyed by the role's name; each role holds
        one copy of an exchange per service registered on it, in no order. */
    ghost function GetAllExchanges(): (r: map<string, multiset<string>>)
      reads this
      ensures r.Keys == {"remote", "remote_publisher", "local_publisher"}
      ensures r["remote"] == ValuesOf(remoteRegistry)
      ensures r["remote_publisher"] == ValuesOf(remotePublisherRegistry)
      ensures r["local_publisher"] == ValuesOf(localPublisherRegistry)
      ensures |r["remote"]| == |remoteRegistry|
      ensures |r["remote_publisher"]| == |remotePublisherRegistry|
      ensures |r["local_publisher"]| == |localPublisherRegistry|
    {
      ValuesOfSize(remoteRegistry);
      ValuesOfSize(remotePublisherRegistry);
      ValuesOfSize(localPublisherRegistry);
      map[
        "remote" := ValuesOf(remoteRegistry),
        "remote_publisher" := ValuesOf(remotePublisherRegistry),
        "local_publisher" := ValuesOf(localPublisherRegistry)]
    }
  }
}

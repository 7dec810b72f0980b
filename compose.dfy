/**
  The in-memory docker-compose document and its mutation engine
  (api/docker/service.go), with the in-memory steps of the insert and delete
  request workflows (api/docker/controller.go) as methods on the same object.
 */
module Docker {
  import opened Wrappers
  import opened GoMaps
  import opened ComposeTypes
  import opened Workflow

  /** The version a new document gets when none is given. */
  const DEFAULT_VERSION := "3.8"

  /**
    The volumes as the pre-save step leaves them: the same names, every nil
    entry replaced by an empty volume, every other entry as it was.
   */
  function FilledVolumes(m: map<string, Option<Volume>>): (r: map<string, Option<Volume>>)
    ensures r.Keys == m.Keys
    ensures forall k :: k in r ==> r[k].Some?
    ensures forall k :: k in m && m[k].Some? ==> r[k] == m[k]
    ensures forall k :: k in m && m[k].None? ==> r[k] == Some(EMPTY_VOLUME)
  {
    map k | k in m :: if m[k].None? then Some(EMPTY_VOLUME) else m[k]
  }

  /** A `*DockerCompose`: the version and three possibly-nil, name-keyed maps of possibly-nil entries. */
  class Compose {
    var version: string
    var services: GoMap<Option<Service>>
    var networks: GoMap<Option<Network>>
    var volumes: GoMap<Option<Volume>>

    /** All three maps exist, as after loading and in every new document. */
    predicate Initialized()
      reads this
    {
      services.Some? && networks.Some? && volumes.Some?
    }

    /** `CreateNewDockerCompose(v)`: an empty document, at version "3.8" when `v` is empty. */
    constructor Create(v: string)
      ensures version == (if v == "" then DEFAULT_VERSION else v)
      ensures services == Some(map[]) && networks == Some(map[]) && volumes == Some(map[])
      ensures Initialized()
    {
      version := if v == "" then DEFAULT_VERSION else v;
      services := Some(map[]);
      networks := Some(map[]);
      volumes := Some(map[]);
    }

    /**
      The struct that decoding fills in: any block the descriptor omits is
      left nil. The decoding itself is not part of this model.
     */
    constructor Decoded(
      v: string, s: GoMap<Option<Service>>, n: GoMap<Option<Network>>, vol: GoMap<Option<Volume>>)
      ensures version == v && services == s && networks == n && volumes == vol
    {
      version, services, networks, volumes := v, s, n, vol;
    }

    /** The normalisation after loading: every nil map becomes an empty one; present maps are kept. */
    method InitMissingMaps()
      modifies this`services, this`networks, this`volumes
      ensures Initialized()
      ensures services == InitIfNil(old(services))
      ensures networks == InitIfNil(old(networks))
      ensures volumes == InitIfNil(old(volumes))
    {
      if services.None? {
        services := Some(map[]);
      }
      if networks.None? {
        networks := Some(map[]);
      }
      if volumes.None? {
        volumes := Some(map[]);
      }
    }

    /** The step before saving: every nil volume entry becomes an empty volume; a nil map stays nil. */
    method FillNilVolumes()
      modifies this`volumes
      ensures old(volumes).None? ==> volumes.None?
      ensures old(volumes).Some? ==> volumes == Some(FilledVolumes(old(volumes).value))
      ensures old(Initialized()) ==> Initialized()
    {
      if volumes.Some? {
        var m := volumes.value;
        var todo := m.Keys;
        while todo != {}
          invariant todo <= m.Keys
          invariant volumes.Some? && volumes.value.Keys == m.Keys
          invariant forall k :: k in m ==> volumes.value[k] == if k in todo then m[k] else FilledVolumes(m)[k]
          decreases todo
        {
          var k :| k in todo;
          if volumes.value[k].None? {
            volumes := Some(volumes.value[k := Some(EMPTY_VOLUME)]);
          }
          todo := todo - {k};
        }
        assert volumes.value == FilledVolumes(m);
      }
    }

    /** `AddService`: an upsert; a nil services map is created first. */
    method AddService(name: string, service: Option<Service>)
      modifies this`services
      ensures services == Store(InitIfNil(old(services)), name, service)
      ensures old(Initialized()) ==> Initialized()
    {
      if services.None? {
        services := Some(map[]);
      }
      services := Store(services, name, service);
    }

    /** `UpdateService`: overwrites an existing entry; a missing name is an error and changes nothing. */
    method UpdateService(name: string, service: Option<Service>) returns (err: Outcome<ComposeError>)
      modifies this`services
      ensures !old(Has(services, name)) ==>
        err == Fail(DoesNotExist(ServiceEntity, name)) && services == old(services)
      ensures old(Has(services, name)) ==>
        err == Pass && services == Store(old(services), name, service)
      ensures Keys(services) == old(Keys(services))
    {
      if !Has(services, name) {
        return Fail(DoesNotExist(ServiceEntity, name));
      }
      services := Store(services, name, service);
      err := Pass;
    }

    /** `DeleteService`: removes an existing entry; a missing name is an error and changes nothing. */
    method DeleteService(name: string) returns (err: Outcome<ComposeError>)
      modifies this`services
      ensures !old(Has(services, name)) ==>
        err == Fail(DoesNotExist(ServiceEntity, name)) && services == old(services)
      ensures old(Has(services, name)) ==>
        err == Pass && services == Remove(old(services), name)
      ensures old(Initialized()) ==> Initialized()
    {
      if !Has(services, name) {
        return Fail(DoesNotExist(ServiceEntity, name));
      }
      services := Remove(services, name);
      err := Pass;
    }

    /** `GetService`: the stored entry (possibly nil) when the name is present, an error otherwise. */
    function GetService(name: string): (r: Result<Option<Service>, ComposeError>)
      reads this
      ensures r.Success? <==> Has(services, name)
      ensures r.Success? ==> Lookup(services, name) == Some(r.value)
      ensures r.Failure? ==> r.error == DoesNotExist(ServiceEntity, name)
    {
      match Lookup(services, name)
      case Some(s) => Success(s)
      case None => Failure(DoesNotExist(ServiceEntity, name))
    }

    /** `ListServices`: every service name exactly once, in no particular order. */
    method ListServices() returns (names: seq<string>)
      ensures forall n :: n in names <==> Has(services, n)
      ensures |names| == |Keys(services)|
      ensures forall i, j :: 0 <= i < j < |names| ==> names[i] != names[j]
    {
      names := [];
      var todo := Keys(services);
      while todo != {}
        invariant todo <= Keys(services)
        invariant forall n :: n in names <==> n in Keys(services) && n !in todo
        invariant |names| + |todo| == |Keys(services)|
        invariant forall i, j :: 0 <= i < j < |names| ==> names[i] != names[j]
        decreases todo
      {
        var n :| n in todo;
        names := names + [n];
        todo := todo - {n};
      }
    }

    /** `AddNetwork`: an upsert; a nil networks map is created first. */
    method AddNetwork(name: string, network: Option<Network>)
      modifies this`networks
      ensures networks == Store(InitIfNil(old(networks)), name, network)
      ensures old(Initialized()) ==> Initialized()
    {
      if networks.None? {
        networks := Some(map[]);
      }
      networks := Store(networks, name, network);
    }

    /** `DeleteNetwork`: removes an existing entry; a missing name is an error and changes nothing. */
    method DeleteNetwork(name: string) returns (err: Outcome<ComposeError>)
      modifies this`networks
      ensures !old(Has(networks, name)) ==>
        err == Fail(DoesNotExist(NetworkEntity, name)) && networks == old(networks)
      ensures old(Has(networks, name)) ==>
        err == Pass && networks == Remove(old(networks), name)
      ensures old(Initialized()) ==> Initialized()
    {
      if !Has(networks, name) {
        return Fail(DoesNotExist(NetworkEntity, name));
      }
      networks := Remove(networks, name);
      err := Pass;
    }

    /**
      `AddVolume`: an upsert. Unlike the other two adds, its nil guard assigns
      nil to the nil map and so does nothing; the write that follows needs the
      map to exist, which becomes the precondition.
     */
    method AddVolume(name: string, volume: Option<Volume>)
      requires volumes.Some?
      modifies this`volumes
      ensures volumes == Store(old(volumes), name, volume)
      ensures old(Initialized()) ==> Initialized()
    {
      volumes := Store(volumes, name, volume);
    }

    /** `DeleteVolume`: removes an existing entry; a missing name is an error and changes nothing. */
    method DeleteVolume(name: string) returns (err: Outcome<ComposeError>)
      modifies this`volumes
      ensures !old(Has(volumes, name)) ==>
        err == Fail(DoesNotExist(VolumeEntity, name)) && volumes == old(volumes)
      ensures old(Has(volumes, name)) ==>
        err == Pass && volumes == Remove(old(volumes), name)
      ensures volumes == Remove(old(volumes), name)
      ensures old(Initialized()) ==> Initialized()
    {
      if !Has(volumes, name) {
        return Fail(DoesNotExist(VolumeEntity, name));
      }
      volumes := Remove(volumes, name);
      err := Pass;
    }

    /**
      The insert workflow after loading: upsert the request's service, volume
      and network, then copy the request service's AUTH_KEY value into the
      environment of every service, the new one included. Every service and
      its environment must be non-nil, since the copy writes into them.
     */
    method Insert(req: InsertRequest)
      requires volumes.Some?
      requires req.service.value.environment.Some?
      requires forall k :: k in Keys(services) && k != req.service.name ==>
        services.value[k].Some? && services.value[k].value.environment.Some?
      modifies this`services, this`volumes, this`networks
      ensures services == Some(Broadcast(
        Store(InitIfNil(old(services)), req.service.name, Some(req.service.value)).value,
        AuthKeyOf(req.service.value)))
      ensures volumes == Store(old(volumes), req.volume.name, Some(req.volume.value))
      ensures networks == Store(InitIfNil(old(networks)), req.network.name, Some(req.network.value))
      ensures old(Initialized()) ==> Initialized()
    {
      AddService(req.service.name, Some(req.service.value));
      AddVolume(req.volume.name, Some(req.volume.value));
      AddNetwork(req.network.name, Some(req.network.value));
      BroadcastAuthKey(AuthKeyOf(req.service.value));
    }

    /** The loop of the insert workflow that writes `key` under AUTH_KEY into every service's environment. */
    method BroadcastAuthKey(key: string)
      requires services.Some? && AllEnvReady(services.value)
      modifies this`services
      ensures services == Some(Broadcast(old(services).value, key))
    {
      var m := services.value;
      var todo := m.Keys;
      while todo != {}
        invariant todo <= m.Keys
        invariant services.Some? && services.value.Keys == m.Keys
        invariant forall k :: k in m ==>
          services.value[k] == if k in todo then m[k] else Some(WithAuthKey(m[k].value, key))
        decreases todo
      {
        var k :| k in todo;
        services := Some(services.value[k := Some(WithAuthKey(services.value[k].value, key))]);
        todo := todo - {k};
      }
      assert services.value == Broadcast(m, key);
    }

    /**
      The delete workflow after loading: while the service is still present,
      delete the top-level volume named by the source of each of its mounts,
      ignoring the error for a source that names none; then delete the
      service. The service must exist and be non-nil, since its mounts are
      read through the pointer.
     */
    method Delete(req: DeleteRequest)
      requires Has(services, req.name) && services.value[req.name].Some?
      modifies this`services, this`volumes
      ensures services == Remove(old(services), req.name)
      ensures volumes == Cascade(old(volumes), old(services).value[req.name].value.volumes)
      ensures volumes.None? <==> old(volumes).None?
      ensures Keys(volumes) == Keys(old(volumes)) - MountSources(old(services).value[req.name].value.volumes)
      ensures forall k :: k !in MountSources(old(services).value[req.name].value.volumes) ==>
        Lookup(volumes, k) == Lookup(old(volumes), k)
      ensures old(Initialized()) ==> Initialized()
    {
      var mounts := services.value[req.name].value.volumes;
      DeleteMountedVolumes(mounts);
      CascadeRemovesExactly(old(volumes), mounts);
      var ignored := DeleteService(req.name);
    }

    /** The cascade loop of the delete workflow: `DeleteVolume` on each mount's source, errors ignored. */
    method DeleteMountedVolumes(mounts: seq<string>)
      modifies this`volumes
      ensures volumes == Cascade(old(volumes), mounts)
    {
      for i := 0 to |mounts|
        invariant volumes == Cascade(old(volumes), mounts[..i])
      {
        var ignored := DeleteVolume(MountSource(mounts[i]));
        assert mounts[..i + 1][..i] == mounts[..i];
      }
      assert mounts[..|mounts|] == mounts;
    }
  }
}

/** Clients of the document model whose concrete cases are verified against the contracts alone. */
module Scenarios {
  import opened Wrappers
  import opened GoMaps
  import opened ComposeTypes
  import opened Workflow
  import opened Docker

  /** A service with the given mounts and environment and zero values elsewhere. */
  function Mounting(mounts: seq<string>, env: map<string, string>): Service
  {
    Service(Some(env), mounts, ZERO_SETTINGS)
  }

  /** The mount "data:/var/lib/data" refers to the top-level volume "data". */
  lemma DataMountSource()
    ensures MountSource("data:/var/lib/data") == "data"
  {
    MountSourceUnique("data:/var/lib/data", "data");
  }

  /** A mount `source:target` refers to `source` whenever the source has no `:` of its own. */
  lemma MountSourceOfMount(source: string, target: string)
    requires ':' !in source
    ensures MountSource(source + ":" + target) == source
  {
    var mount := source + ":" + target;
    assert mount[..|source|] == source;
    assert mount[|source|] == ':';
    MountSourceUnique(mount, source);
  }

  /** The volumes two mounts refer to. */
  lemma MountSourcesOfPair(a: string, b: string)
    ensures MountSources([a, b]) == {MountSource(a), MountSource(b)}
  {
    var pair := [a, b];
    assert pair[..1] == [a];
    assert [a][..0] == [];
    assert MountSources([a]) == MountSources([]) + {MountSource(a)};
    assert MountSources(pair) == MountSources([a]) + {MountSource(b)};
  }

  /**
    A new document at the default version; add a volume and a service that
    mounts it; then run the delete workflow on the service: both maps end up
    empty. With `cache` and `/data` this is the "cache"/"api" scenario.
   */
  method CacheAddThenDelete(cache: string, target: string) returns (c: Compose)
    requires ':' !in cache
    ensures c.version == "3.8"
    ensures c.services == Some(map[]) && c.volumes == Some(map[])
  {
    c := new Compose.Create("");
    c.AddVolume(cache, Some(EMPTY_VOLUME));
    var mount := cache + ":" + target;
    var api := Mounting([mount], map[AUTH_KEY := "abc"]);
    c.AddService("api", Some(api));
    MountSourceOfMount(cache, target);
    assert MountSources(api.volumes) == {cache} by {
      assert api.volumes[..0] == [];
    }
    DeleteOnly(c, "api", api, cache);
  }

  /** The delete workflow on the only service, whose mounts name only the only volume. */
  method DeleteOnly(c: Compose, name: string, service: Service, volume: string)
    requires c.services == Some(map[name := Some(service)])
    requires Keys(c.volumes) == {volume}
    requires MountSources(service.volumes) == {volume}
    modifies c
    ensures c.services == Some(map[]) && c.volumes == Some(map[])
    ensures c.version == old(c.version)
  {
    c.Delete(DeleteRequest(name));
    assert c.volumes.value.Keys == {};
    assert c.volumes.value == map[];
    assert c.services.value.Keys == {};
    assert c.services.value == map[];
  }

  /**
    Loading a descriptor that declares only its version: decoding leaves all
    three maps nil, and the normalisation after loading makes each one an
    existing, empty map.
   */
  method LoadBareDescriptor(v: string) returns (c: Compose)
    ensures c.version == v && c.Initialized()
    ensures c.services == Some(map[]) && c.networks == Some(map[]) && c.volumes == Some(map[])
  {
    c := new Compose.Decoded(v, None, None, None);
    c.InitMissingMaps();
  }

  /** Two services added under distinct names are listed once each. */
  method ListAfterTwoAdds() returns (names: seq<string>)
    ensures |names| == 2 && "api" in names && "db" in names
  {
    var c := new Compose.Create("");
    c.AddService("api", None);
    c.AddService("db", None);
    c.AddService("api", Some(Mounting([], map[])));
    assert Keys(c.services) == {"api", "db"};
    names := c.ListServices();
  }

  /**
    Services "web" and "db" both mount volume `data`; deleting "web" removes
    `data` although "db" still mounts it, skips the mount source `scratch`
    that no volume is declared for, and keeps the unrelated volume `logs`.
   */
  method SharedVolumeIsRemoved(data: string, logs: string, scratch: string) returns (c: Compose)
    requires ':' !in data && ':' !in scratch
    requires logs != data && logs != scratch
    ensures Keys(c.services) == {"db"}
    ensures Keys(c.volumes) == {logs}
  {
    c := new Compose.Create("3.8");
    c.AddVolume(data, Some(EMPTY_VOLUME));
    c.AddVolume(logs, Some(EMPTY_VOLUME));
    var webMounts := [data + ":" + "/var/lib/data", scratch];
    var web := Mounting(webMounts, map[]);
    c.AddService("web", Some(web));
    c.AddService("db", Some(Mounting([data + ":" + "/db"], map[])));
    MountSourceOfMount(data, "/var/lib/data");
    MountSourceUnique(scratch, scratch);
    MountSourcesOfPair(webMounts[0], webMounts[1]);
    assert [webMounts[0], webMounts[1]] == webMounts;
    DeleteWeb(c, web, data, logs, scratch);
  }

  /** The delete workflow on "web", whose mounts name `data` and `scratch`. */
  method DeleteWeb(c: Compose, web: Service, data: string, logs: string, scratch: string)
    requires logs != data && logs != scratch
    requires Keys(c.volumes) == {data, logs}
    requires Keys(c.services) == {"web", "db"}
    requires c.services.value["web"] == Some(web)
    requires MountSources(web.volumes) == {data, scratch}
    modifies c
    ensures Keys(c.services) == {"db"}
    ensures Keys(c.volumes) == {logs}
  {
    c.Delete(DeleteRequest("web"));
  }

  /**
    The broadcast of the insert workflow for a service "new" whose AUTH_KEY
    is "k", stored beside a service "old": "old" gains AUTH_KEY "k" beside
    its own entry, and "new" is stored as it came.
   */
  lemma InsertBroadcastsKey(other: Service)
    requires other.environment == Some(map["PORT" := "80"])
    ensures var s := Mounting([], map[AUTH_KEY := "k"]);
      var stored := Store(Some(map["old" := Some(other)]), "new", Some(s)).value;
      var r := Broadcast(stored, AuthKeyOf(s));
      && r.Keys == {"old", "new"}
      && r["old"] == Some(other.(environment := Some(map["PORT" := "80", AUTH_KEY := "k"])))
      && r["new"] == Some(s)
  {
    var s := Mounting([], map[AUTH_KEY := "k"]);
    var stored := Store(Some(map["old" := Some(other)]), "new", Some(s)).value;
    assert AuthKeyOf(s) == "k";
    BroadcastKeepsOwner(stored, "new");
  }

  /** Deleting a name that is not there reports it and leaves the document unchanged. */
  method StrictDeleteOfMissing() returns (err: Outcome<ComposeError>, c: Compose)
    ensures err == Fail(DoesNotExist(ServiceEntity, "missing"))
    ensures c.version == "3.8"
    ensures c.services == Some(map[]) && c.networks == Some(map[]) && c.volumes == Some(map[])
  {
    c := new Compose.Create("");
    err := c.DeleteService("missing");
  }
}

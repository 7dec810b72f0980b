/**
  The in-memory steps of the insert and delete request workflows
  (api/docker/controller.go), stated on values: what the shared-secret
  broadcast does to the services, and what the volume cascade does to the
  top-level volumes.
 */
module Workflow {
  import opened Wrappers
  import opened GoMaps
  import opened ComposeTypes

  /** The environment key the insert workflow copies into every service. */
  const AUTH_KEY := "AUTH_KEY"

  // ---------------------------------------------------------------------------
  // Mount sources: `strings.Split(mount, ":")[0]`

  /** The part of a mount string before its first `:`, or all of it when it has none. */
  function MountSource(mount: string): (r: string)
    ensures |r| <= |mount| && r == mount[..|r|]
    ensures ':' !in r
    ensures |r| < |mount| ==> mount[|r|] == ':'
  {
    if mount == [] || mount[0] == ':' then [] else [mount[0]] + MountSource(mount[1..])
  }

  /** The three properties of MountSource single out one prefix: MountSource is the only such prefix. */
  lemma {:induction false} MountSourceUnique(mount: string, p: string)
    requires |p| <= |mount| && p == mount[..|p|]
    requires ':' !in p
    requires |p| == |mount| || mount[|p|] == ':'
    ensures p == MountSource(mount)
  {
    if p == [] {
      assert mount == [] || mount[0] == ':';
    } else {
      assert mount[0] == p[0] != ':';
      assert p[1..] == mount[1..][..|p| - 1];
      MountSourceUnique(mount[1..], p[1..]);
      assert p == [mount[0]] + p[1..];
    }
  }

  /** Every top-level volume name the mounts refer to. */
  function MountSources(mounts: seq<string>): set<string>
    decreases |mounts|
  {
    if mounts == [] then {}
    else MountSources(mounts[..|mounts| - 1]) + {MountSource(mounts[|mounts| - 1])}
  }

  /** A name is a mount source exactly when some mount's part before the first `:` is that name. */
  lemma {:induction false} MountSourcesMembers(mounts: seq<string>, name: string)
    ensures name in MountSources(mounts) <==> exists i :: 0 <= i < |mounts| && MountSource(mounts[i]) == name
    decreases |mounts|
  {
    if mounts != [] {
      var init := mounts[..|mounts| - 1];
      MountSourcesMembers(init, name);
      if name in MountSources(init) {
        var i :| 0 <= i < |init| && MountSource(init[i]) == name;
        assert mounts[i] == init[i];
      }
      if exists i :: 0 <= i < |mounts| && MountSource(mounts[i]) == name {
        var i :| 0 <= i < |mounts| && MountSource(mounts[i]) == name;
        if i < |init| {
          assert mounts[i] == init[i];
        }
      }
    }
  }

  // ---------------------------------------------------------------------------
  // Shared-secret broadcast: `v.Environment["AUTH_KEY"] = value` for every service

  /** The value `env["AUTH_KEY"]` reads: the zero value "" when the key or the map is missing. */
  function AuthKeyOf(s: Service): string
  {
    match Lookup(s.environment, AUTH_KEY)
    case Some(v) => v
    case None => ""
  }

  /**
    Every service of `m` is one the broadcast can write into: the pointer and
    its environment map are non-nil.
   */
  predicate AllEnvReady(m: map<string, Option<Service>>)
  {
    forall k :: k in m ==> m[k].Some? && m[k].value.environment.Some?
  }

  function WithAuthKey(s: Service, key: string): Service
    requires s.environment.Some?
  {
    s.(environment := Store(s.environment, AUTH_KEY, key))
  }

  /**
    Every service after the broadcast of `key`: the same names, each service
    now holding `key` under AUTH_KEY, every other environment entry and every
    other field as before.
   */
  function Broadcast(m: map<string, Option<Service>>, key: string): (r: map<string, Option<Service>>)
    requires AllEnvReady(m)
    ensures r.Keys == m.Keys
    ensures AllEnvReady(r)
    ensures forall k :: k in r ==> Lookup(r[k].value.environment, AUTH_KEY) == Some(key)
    ensures forall k, e :: k in r && e != AUTH_KEY ==>
      Lookup(r[k].value.environment, e) == Lookup(m[k].value.environment, e)
    ensures forall k :: k in r ==> r[k].value.(environment := m[k].value.environment) == m[k].value
  {
    map k | k in m :: Some(WithAuthKey(m[k].value, key))
  }

  /**
    A service whose own environment already holds AUTH_KEY comes out of the
    broadcast of its own value unchanged.
   */
  lemma BroadcastKeepsOwner(m: map<string, Option<Service>>, name: string)
    requires AllEnvReady(m)
    requires name in m && Has(m[name].value.environment, AUTH_KEY)
    ensures Broadcast(m, AuthKeyOf(m[name].value))[name] == m[name]
  {
    var s := m[name].value;
    var env := s.environment.value;
    assert env[AUTH_KEY := env[AUTH_KEY]] == env;
  }

  /**
    A service whose environment lacks AUTH_KEY, broadcasting its own value,
    gains AUTH_KEY = "" everywhere.
   */
  lemma BroadcastOfMissingKeyIsEmpty(m: map<string, Option<Service>>, name: string, k: string)
    requires AllEnvReady(m)
    requires name in m && !Has(m[name].value.environment, AUTH_KEY)
    requires k in m
    ensures Lookup(Broadcast(m, AuthKeyOf(m[name].value))[k].value.environment, AUTH_KEY) == Some("")
  {
  }

  // ---------------------------------------------------------------------------
  // Volume cascade: `DeleteVolume(compose, MountSource(v))` for each mount, errors ignored

  /**
    The top-level volumes after deleting, in order, the source of each mount;
    a source that names no volume leaves the map as it was.
   */
  function Cascade<V>(volumes: GoMap<V>, mounts: seq<string>): GoMap<V>
    decreases |mounts|
  {
    if mounts == [] then volumes
    else Remove(Cascade(volumes, mounts[..|mounts| - 1]), MountSource(mounts[|mounts| - 1]))
  }

  /**
    The cascade removes exactly the volumes named by a mount source and no
    other: there is no reference counting, and sources that name no volume
    are skipped.
   */
  lemma {:induction false} CascadeRemovesExactly<V>(volumes: GoMap<V>, mounts: seq<string>)
    ensures Cascade(volumes, mounts).None? <==> volumes.None?
    ensures Keys(Cascade(volumes, mounts)) == Keys(volumes) - MountSources(mounts)
    ensures forall k :: k !in MountSources(mounts) ==> Lookup(Cascade(volumes, mounts), k) == Lookup(volumes, k)
    decreases |mounts|
  {
    if mounts != [] {
      var init := mounts[..|mounts| - 1];
      CascadeRemovesExactly(volumes, init);
    }
  }
}

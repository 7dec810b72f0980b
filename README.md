# docker-compose manager: document model and mutation engine

This project models, in Dafny, the in-memory core of a small service that edits
a docker-compose descriptor on request: the `DockerCompose` document (a version
string and three name-keyed maps of services, networks and volumes), the
operations of the mutation engine on it (`api/docker/service.go`), and the
in-memory steps of the two request workflows that drive it, Insert and Delete
(`api/docker/controller.go`).

Modules:

- `Wrappers` (wrappers.dfy): `Option`, `Result`, `Outcome` (an `error` return).
- `GoMaps` (gomaps.dfy): Go's `map[string]V` as `Option<map<string, V>>`, where
  `None` is the nil map. Reading or deleting in a nil map reports "absent";
  writing into one panics, so `Store` requires the map to exist.
- `ComposeTypes` (types.dfy): `Service`, `Network`, `Volume` and the nested
  configuration blocks; the request shapes of `dto.go`; the
  `DoesNotExist(entity, name)` error. A nil `*Service` (or `*Network`,
  `*Volume`) inside a map is `None`. Only `Service.environment` and
  `Service.volumes` affect behaviour; the other fields are kept, grouped in
  `ServiceSettings`.
- `Workflow` (workflow.dfy): value-level definitions of what the controller's
  loops compute: the mount source (`strings.Split(m, ":")[0]`), the AUTH_KEY
  broadcast, the volume cascade. It also holds the lemmas about them.
- `Docker` (compose.dfy): the class `Compose` with the document's four fields.
  Every engine operation and both workflows are methods on it. Each method's
  frame (`modifies this`services`, ...) names exactly the maps it may change.
- `Scenarios` (scenarios.dfy): client methods and lemmas whose concrete
  cases are verified against the contracts alone.

Go panics become preconditions: writing into a nil map, or dereferencing a nil
service pointer. The decoded document, the file path and the request bodies
become parameters.

## Model

Three definitions carry no contract of their own, because they are the
reference semantics the contracts below are stated in:

- `GoMaps.Lookup` (api/docker/service.go:214, 223, 232, 275) is the `_, ok := m[k]`
  read. A nil map and a missing key both read as absent. `InitIfNil`, `Store`
  and `Remove` are specified key by key through it.
- `Workflow.AuthKeyOf` (api/docker/controller.go:39) is the
  `Environment["AUTH_KEY"]` read of the inserted service, which gives Go's zero
  value "" for a missing key or map. `BroadcastKeepsOwner` and
  `BroadcastOfMissingKeyIsEmpty` state what the broadcast does with it in each case.
- `Workflow.Cascade` (api/docker/controller.go:82-84) is the delete loop as a
  value. `CascadeRemovesExactly` states which volumes it removes, and
  `Compose.DeleteMountedVolumes` is proved equal to it.

| member | source | states |
|---|---|---|
| `GoMaps.InitIfNil` | api/docker/service.go:139-148 | the result exists; a present map is returned as it is; a nil map becomes one with the same (no) keys and lookups |
| `GoMaps.Store` | api/docker/service.go:209 | after `m[k] = v` the key holds `v`, every other key reads as before, and the key set grows by `k` only |
| `GoMaps.Remove` | api/docker/service.go:226 | after `delete(m, k)` the key is absent and every other key reads as before; nil stays nil; a missing key leaves the map identical; a present key shrinks the key set by exactly one |
| `GoMaps.StoreLastWriteWins` | api/docker/service.go:205-210 | writing the same name twice leaves exactly one entry, holding the second value |
| `Workflow.MountSource` | api/docker/controller.go:83 | the result is a prefix of the mount, contains no `:`, and is either the whole mount or followed by a `:` |
| `Workflow.MountSourceUnique` | api/docker/controller.go:83 | any prefix with those three properties equals `MountSource`, so they define the part before the first `:` |
| `Workflow.MountSourcesMembers` | api/docker/controller.go:82-83 | a name is among the mount sources exactly when some mount's part before its first `:` is that name |
| `Workflow.Broadcast` | api/docker/controller.go:38-40 | same service names; every service ends up with a non-nil environment holding `key` under AUTH_KEY; every other environment entry and every non-environment field is unchanged |
| `Workflow.BroadcastKeepsOwner` | api/docker/controller.go:32-40 | a service that already holds AUTH_KEY comes out of the broadcast of its own value identical |
| `Workflow.BroadcastOfMissingKeyIsEmpty` | api/docker/controller.go:39 | when the inserted service has no AUTH_KEY, every service receives the zero value "" |
| `Workflow.CascadeRemovesExactly` | api/docker/controller.go:82-84 | the cascade removes exactly the volumes named by a mount source, with no reference counting; sources that name no volume are skipped; all other volumes read as before; nil stays nil |
| `Docker.FilledVolumes` | api/docker/service.go:166-176 | same names; no entry is nil; non-nil entries are unchanged; nil entries become `Volume{}` |
| `Docker.Compose.Create` | api/docker/service.go:192-201 | version "3.8" for an empty argument and the argument otherwise; all three maps present and empty |
| `Docker.Compose.Decoded` | api/docker/service.go:133-134 | the struct as decoding leaves it: each field as given, nil maps included |
| `Docker.Compose.InitMissingMaps` | api/docker/service.go:139-148 | afterwards all three maps are present; a map that was present is unchanged; the version is untouched |
| `Docker.Compose.FillNilVolumes` | api/docker/service.go:166-176 | the volumes become `FilledVolumes` of the old ones; a nil volumes map stays nil; nothing else changes |
| `Docker.Compose.AddService` | api/docker/service.go:205-210 | upsert: a nil map is created, then the name holds the value; only the services map changes |
| `Docker.Compose.UpdateService` | api/docker/service.go:213-219 | a missing name, nil map included, gives `DoesNotExist` and no change; a present name is overwritten; the key set never changes |
| `Docker.Compose.DeleteService` | api/docker/service.go:222-228 | a missing name gives `DoesNotExist` and no change; a present name is removed, only that key, and networks and volumes are untouched |
| `Docker.Compose.GetService` | api/docker/service.go:231-237 | succeeds exactly when the name is present, with the stored (possibly nil) entry; otherwise `DoesNotExist` |
| `Docker.Compose.ListServices` | api/docker/service.go:240-246 | every service name exactly once and nothing else; the length is the number of services; empty for a nil or empty map |
| `Docker.Compose.AddNetwork` | api/docker/service.go:249-254 | upsert as for services, on the networks map only |
| `Docker.Compose.DeleteNetwork` | api/docker/service.go:257-263 | strict delete as for services, on the networks map only |
| `Docker.Compose.AddVolume` | api/docker/service.go:266-271 | upsert on the volumes map, which must already exist because the nil guard does nothing |
| `Docker.Compose.DeleteVolume` | api/docker/service.go:274-280 | strict delete as for services, on the volumes map only; the new map is `Remove` of the old either way |
| `Docker.Compose.Insert` | api/docker/controller.go:32-40 | the request's service, volume and network are upserted under their request names, even empty ones; then every service receives the request service's AUTH_KEY value ("" when absent); requires the volumes map, every service and every environment to be non-nil |
| `Docker.Compose.BroadcastAuthKey` | api/docker/controller.go:38-40 | the loop leaves the services map equal to `Broadcast` of the old one |
| `Docker.Compose.DeleteMountedVolumes` | api/docker/controller.go:82-84 | the loop leaves the volumes equal to `Cascade` of the old ones over the mounts, in order, ignoring each delete's error |
| `Docker.Compose.Delete` | api/docker/controller.go:82-86 | requires the service to exist and be non-nil; afterwards its key is gone and other services are unchanged; volumes lose exactly the mount sources read before the service was removed; networks are untouched |
| `Scenarios.DataMountSource` | api/docker/controller.go:83 | the mount "data:/var/lib/data" refers to volume "data" |
| `Scenarios.MountSourceOfMount` | api/docker/controller.go:83 | a mount `source:target` whose source has no `:` refers to `source` |
| `Scenarios.CacheAddThenDelete` | api/docker/controller.go:82-86 | a new document, plus one volume and one service mounting it, then the delete workflow: both maps are empty and the version is "3.8" |
| `Scenarios.LoadBareDescriptor` | api/docker/service.go:133-148 | a descriptor that declares only its version decodes to three nil maps, and after the load normalisation all three exist and are empty, with the version kept |
| `Scenarios.ListAfterTwoAdds` | api/docker/service.go:240-246 | after three adds under two names, the list has exactly those two names |
| `Scenarios.SharedVolumeIsRemoved` | api/docker/controller.go:82-84 | deleting one of two services that share a volume removes that volume anyway, and keeps an unrelated one |
| `Scenarios.InsertBroadcastsKey` | api/docker/controller.go:38-40 | the other service gains AUTH_KEY beside its own entry; the inserted service is stored as it came |
| `Scenarios.StrictDeleteOfMissing` | api/docker/service.go:222-228 | deleting a missing service reports `DoesNotExist` and leaves the new document as it was: version "3.8" and all three maps empty |

## Left out

- YAML decoding and encoding (`yaml.Unmarshal`/`yaml.Marshal`, service.go:134, 178, 284) and the `Volume.MarshalYAML` hook (service.go:153-162) belong to a third-party library whose code is not part of this model, so the decode/encode round trip is not stated. `Compose.Decoded` takes the decoded fields as parameters.
- File reads and writes in `LoadDockerCompose`/`SaveDockerCompose` and their error returns, and `PrintCompose` (stdout): I/O.
- `RestartDockerCompose` (service.go:104-124): it runs external `docker compose` processes, and the workflows ignore its result.
- The HTTP layer of controller.go (body parsing, status codes, responses), the routes and middleware, configuration loading and startup. The request values become the parameters of `Insert` and `Delete`.
- Pointer aliasing. This covers the shared `emptyVolume` pointer in the pre-save loop, and the aliasing of the inserted service with the request value. The model works on values. For the insert broadcast, the value written is read once before the loop. In the source it is re-read on each pass, but the only aliased write stores that same value back, so the two agree.
- Map iteration order: the loops pick the next key arbitrarily (`:|`), so every order Go may choose is covered.
- Concurrency: the engine assumes exclusive access to one document.
- Every mutation is meant to create its target map before writing into it. `AddVolume` does not: its guard assigns nil to a nil map. The model follows the code and makes "volumes present" a precondition of `AddVolume` and `Insert`.
- A saved document is meant to have all three maps present. The pre-save step in the code only replaces nil volume entries. It does nothing about nil maps, and `FillNilVolumes` models exactly that.
- Go `int` fields (retries, replicas, max attempts) are unbounded `int`: no operation computes with them.

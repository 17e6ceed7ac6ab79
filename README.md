# Protomappers of the Waypoint plugin SDK, in Dafny

This project models package `protomappers` of the Waypoint plugin SDK: the
conversion functions ("mappers") between the wire messages of package `pb`
and the native values that plugin code consumes, and the table `All` that
lists them for the SDK's argument resolution.

Two parts are modelled.

- **The mapper table** (`registry.dfy`, module `MapperRegistry`). Every Go type
  in a mapper signature is a `TypeTag`; every mapper is an `Entry` giving its
  name, its parameter types in order, its result type, and whether it also
  returns an `error`. `All` is the table in source order. The lemmas prove what
  the signatures imply: there are 18 entries; no two produce the same type;
  every entry converts a wire message into a native value or the reverse;
  every entry has an inverse in the table; only the terminal-UI mappers take
  the call's context and internal handle; and the fallible entries are exactly
  the mapstructure-based ones plus `TerminalUI`.
- **The plain-data mappers** (`protomappers.dfy`, module `ProtoMappers`, over
  the value types in `datadir.dfy`, `pb.dfy` and `component.dfy`). These are
  the project, app and component working-directory pairs and the label-set
  pair. Each is a total function. The lemmas prove the round trips in both
  directions.

`hclog.Logger` is a single Go type. It is the result of `Logger`, the only
parameter of `LoggerProto`, and the `log` parameter of `TerminalUI` and
`TerminalUIProto`. It is therefore one tag, `Log`, which is both an ambient
value and the native side of the logger pair. As a result, "every entry other
than the terminal-UI pair has exactly one non-ambient input" does not hold for
`LoggerProto`. Instead, `AmbientInputs` proves what the signatures give: the
call handles `Ctx` and `Internal` appear only in the terminal-UI pair, and
`Log` appears only there and in `LoggerProto`. The value an entry converts is
its first parameter that is not a call handle (`Subject`).

**Assumption.** The code of `datadir.NewBasicDir` is not part of this model.
`Datadir.NewBasicDir` states its assumed contract: the handle it returns
reports its first argument as `CacheDir()` and its second as `DataDir()`. The
model's body for it is chosen to meet exactly that contract. The round trips
through a native directory handle rest on this assumption; they are not proofs
about the real `datadir` package.

## Model

| member | source | states |
|---|---|---|
| `MapperRegistry.AllOutputsDistinct` | internal-shared/protomappers/mappers.go:21-40 | the table has exactly 18 entries and no two entries produce the same type, so a required type has at most one candidate mapper |
| `MapperRegistry.ProducerIsPosition` | internal-shared/protomappers/mappers.go:21-40 | the type produced at position i of the table is produced by no other position (the lookup by result type finds exactly i) |
| `MapperRegistry.AllNamesDistinct` | internal-shared/protomappers/mappers.go:21-40 | the 18 listed functions have pairwise different names |
| `MapperRegistry.SubjectFrom` | internal-shared/protomappers/mappers.go:131-136 | finds the first parameter that is not the context or the internal handle, and reports none only when every parameter is such a handle |
| `MapperRegistry.SubjectsOfAll` | internal-shared/protomappers/mappers.go:43-197 | every entry converts exactly one value, read off its signature (for `TerminalUI`, the message after the context) |
| `MapperRegistry.EveryEntryCrossesTheBoundary` | internal-shared/protomappers/mappers.go:43-197 | every mapper converts a wire message into a native value or a native value into a wire message, never wire to wire or native to native |
| `MapperRegistry.PartnersUndo` | internal-shared/protomappers/mappers.go:21-40 | the table pairs its entries: each entry has a different partner whose partner is the entry itself, and the partner converts what the entry produces back into what the entry converts |
| `MapperRegistry.EveryEntryHasInverse` | internal-shared/protomappers/mappers.go:21-40 | for every entry taking W to N, another entry takes N to W |
| `MapperRegistry.AmbientInputs` | internal-shared/protomappers/mappers.go:131-167 | only `TerminalUI` takes a context; only `TerminalUI` and `TerminalUIProto` take the internal handle, and only they have more than one parameter; the logger is taken by those two and by `LoggerProto` |
| `MapperRegistry.FallibleEntries` | internal-shared/protomappers/mappers.go:43-161 | an entry returns an error exactly when it is Source, SourceProto, JobInfo, JobInfoProto, DeploymentConfig, DeploymentConfigProto or TerminalUI |
| `Datadir.NewBasicDir` | internal-shared/protomappers/mappers.go:79 | ASSUMED contract of the constructor: the handle reports the first argument as CacheDir() and the second as DataDir() |
| `ProtoMappers.DatadirProject` | internal-shared/protomappers/mappers.go:78-81 | total; the project handle reports the message's cache path as CacheDir() and its data path as DataDir() |
| `ProtoMappers.DatadirProjectProto` | internal-shared/protomappers/mappers.go:83-88 | total; the message's cache field is the handle's CacheDir() and its data field the handle's DataDir() |
| `ProtoMappers.DatadirApp` | internal-shared/protomappers/mappers.go:91-94 | total; the app handle reports the message's cache path as CacheDir() and its data path as DataDir() |
| `ProtoMappers.DatadirAppProto` | internal-shared/protomappers/mappers.go:96-101 | total; the message's cache field is the handle's CacheDir() and its data field the handle's DataDir() |
| `ProtoMappers.DatadirComponent` | internal-shared/protomappers/mappers.go:104-107 | total; the component handle reports the message's cache path as CacheDir() and its data path as DataDir() |
| `ProtoMappers.DatadirComponentProto` | internal-shared/protomappers/mappers.go:109-114 | total; the message's cache field is the handle's CacheDir() and its data field the handle's DataDir() |
| `ProtoMappers.DatadirProjectWireRoundTrip` | internal-shared/protomappers/mappers.go:78-88 | wire to native to wire returns the same message; the paths are neither lost nor swapped |
| `ProtoMappers.DatadirProjectNativeRoundTrip` | internal-shared/protomappers/mappers.go:78-88 | native to wire to native returns a handle with the same CacheDir() and DataDir() |
| `ProtoMappers.DatadirProjectExample` | internal-shared/protomappers/mappers.go:78-88 | cache "/c" and data "/d" survive the trip through the native handle and back |
| `ProtoMappers.DatadirAppWireRoundTrip` | internal-shared/protomappers/mappers.go:91-101 | wire to native to wire returns the same app message |
| `ProtoMappers.DatadirAppNativeRoundTrip` | internal-shared/protomappers/mappers.go:91-101 | native to wire to native returns an app handle with the same two paths |
| `ProtoMappers.DatadirComponentWireRoundTrip` | internal-shared/protomappers/mappers.go:104-114 | wire to native to wire returns the same component message |
| `ProtoMappers.DatadirComponentNativeRoundTrip` | internal-shared/protomappers/mappers.go:104-114 | native to wire to native returns a component handle with the same two paths |
| `ProtoMappers.LabelSet` | internal-shared/protomappers/mappers.go:189-193 | total; the native label set has exactly the message's keys, each with the message's value |
| `ProtoMappers.LabelSetProto` | internal-shared/protomappers/mappers.go:195-197 | total; the message has exactly the label set's keys, each with the label set's value |
| `ProtoMappers.LabelSetWireRoundTrip` | internal-shared/protomappers/mappers.go:189-197 | wire to native to wire: no label is added, dropped or rewritten |
| `ProtoMappers.LabelSetNativeRoundTrip` | internal-shared/protomappers/mappers.go:189-197 | native to wire to native: no label is added, dropped or rewritten |
| `ProtoMappers.LabelSetExample` | internal-shared/protomappers/mappers.go:189-193 | the message {"env": "prod"} gives a label set with exactly one entry, env -> prod |

## Left out

- `Source`, `SourceProto`, `JobInfo`, `JobInfoProto`, `DeploymentConfig`, `DeploymentConfigProto`: their behaviour is all `mapstructure.Decode`, a reflection-based library that is not part of this model. They appear only as fallible table entries, and no round trip is claimed for them.
- `Logger`, `LoggerProto`: they depend on the process-wide default logger `hclog.L()` and on `ResetNamed`/`Name`, which are not part of this model. They appear only as table entries.
- `TerminalUI`, `TerminalUIProto`: broker dialing, the gRPC client and server, the `AcceptAndServe` goroutine, the `panic` in the server factory and the cleanup registrations are transport and concurrency. They appear only as table entries; the model records their parameters, results and fallibility.
- The argument-resolution engine that consumes `All` (argument bag, chaining, caching, error kinds) is not in package `protomappers` and is not modelled. The table lemmas state what such an engine could rely on; they do not model the engine itself.
- Only the data that the mappers read and write is modelled. Go references and their sharing are not modelled: a nil input, which makes the Go mappers panic, has no counterpart. The label map that Go shares between the message and the label set is modelled as a copied value. Generated protobuf bookkeeping, such as unknown fields that a round trip would drop, is not modelled either.
- `Datadir.NewBasicDir`: its contract is assumed, not proved (see "Assumption" above). Directory implementations other than the basic one are not modelled. The native round-trip lemmas state only what holds for any implementation: the same `CacheDir()` and `DataDir()` come back.

# Tools-metadata selection and the storage-get hook command

This project models two small parts of juju in Dafny and proves properties of them.

**Tools metadata selection** (`tools.dfy`, module `Tools`, from `environs/tools/simplestreams.go`).
The constraint types and their two constructors are modelled. So is `Ids`, which turns the constraint's
series and architectures into product ids `com.ubuntu.juju:<series version>:<arch>`. So is `productId`,
which gives the same id for one metadata record. `excludeDefaultSource` drops the data sources whose URL
starts with `https://juju.canonical.com/tools`. `appendMatchingTools` adds a source's matching tools
records to the records found so far, without replacing any of them.
The model proves these properties:
- `Ids` lists the ids series by series, each with every architecture. The id at position
  `i * |arches| + j` belongs to series `i` and architecture `j`, and there are `|series| * |arches|` ids.
- When a series has no version, `Ids` returns that series' error and no partial list.
- A record's product id is the element `Ids` lists for its series and architecture.
- Excluding sources keeps exactly the sources not at the official location, in their original order.
  Doing it twice gives the same result.
- `appendMatchingTools` keeps the old records as a prefix and leaves their FullPath alone.
- What it appends are exactly the map entries that pass the series and version tests and whose
  `release-version-arch` key is not already among the old records. Each is appended once, with FullPath
  set from the source.
- Appending the same map again adds nothing.

Two behaviours follow from the code as written:
- The key index (`toolsMap`) is built only from the records present on entry. Two new records with the
  same key are therefore both appended.
- A versioned constraint whose version is `0.0.0` equals `version.Zero`. It is then treated as a general
  constraint for major 0 and minor 0 that accepts development builds (`VersionedZeroConstraintIsGeneral`).

**storage-get** (`storage_get.dfy`, module `Jujuc`, from `worker/uniter/runner/jujuc/storage-get.go`).
`StorageGetCommand` is a class. `Init` checks its arguments in the source's order: no arguments, then no
keys, then an invalid storage id. It changes the storage tag and the keys only on success. `Run` returns
what it would hand to the output formatter, and gives nothing back when the tag has no attachment. If some
key is neither `kind` nor `location`, it returns an error naming the first such key. Otherwise, with one key
and the `smart` format, it returns the bare value. In every other case it returns the map from each
requested key to its value.

Helpers from other packages are parameters of the model:
- `simplestreams.SeriesVersion` is a `map<string, string>` lookup.
- `version.MustParse` is a partial `parse` function. Every place that would panic is excluded by a
  precondition.
- `Number.IsDev` is a predicate `isDev`.
- `DataSource.URL` is a function `url`.
- `names.IsValidStorage` is a predicate `isValidStorage`.
- The hook context is a map from storage tag to attachment.

`wrappers.dfy` holds the Option and Result types.

## Model

| member | source | states |
|---|---|---|
| `Tools.NewVersionedToolsConstraint` | environs/tools/simplestreams.go:39-42 | the constraint carries the lookup parameters and the parsed version; a version string that does not parse (a MustParse panic) is excluded |
| `Tools.NewGeneralToolsConstraint` | environs/tools/simplestreams.go:45-48 | the constraint carries the lookup parameters and version.Zero, so it is a general constraint |
| `Tools.FirstUnresolved` | environs/tools/simplestreams.go:53-57 | the series whose error Ids returns is the first one without a version: every earlier series has one |
| `Tools.Ids` | environs/tools/simplestreams.go:51-65 | with every series resolved, the result is the series-major list of all ids; otherwise it is the error of the first unresolved series and no list |
| `Tools.AllIdsLength` | environs/tools/simplestreams.go:51-65 | there are exactly \|series\| × \|arches\| ids |
| `Tools.AllIdsAt` | environs/tools/simplestreams.go:53-62 | the id at position i·\|arches\| + j is "com.ubuntu.juju:" + version of series i + ":" + arch j |
| `Tools.ProductIdOf` | environs/tools/simplestreams.go:79-85 | fails exactly when the record's release has no series version, with that series' error |
| `Tools.ProductIdOfAgreesWithIds` | environs/tools/simplestreams.go:79-85 | a record of series i and architecture j has as product id the element Ids lists at position i·\|arches\| + j |
| `Tools.NonDefault` | environs/tools/simplestreams.go:87-96 | the kept sources are no more than the given ones and none has a URL starting with the official tools URL |
| `Tools.NonDefaultMembership` | environs/tools/simplestreams.go:89-94 | a source is kept if and only if it is given and its URL does not start with the official tools URL |
| `Tools.NonDefaultAppend` | environs/tools/simplestreams.go:88-95 | filtering a concatenation is concatenating the filtered parts, so kept sources stay in input order |
| `Tools.NonDefaultIdempotent` | environs/tools/simplestreams.go:87-96 | excluding the official location twice is the same as once |
| `Tools.ExcludeDefaultSource` | environs/tools/simplestreams.go:87-96 | the loop returns exactly the order-preserving filter NonDefault of its input |
| `Tools.OtherConstraintMatches` | environs/tools/simplestreams.go:139-142 | a constraint that is not a tools constraint admits every record of its series, whatever its version |
| `Tools.VersionedConstraintMatches` | environs/tools/simplestreams.go:154-158 | a constraint built for a non-zero version admits exactly the records of its series whose version parses to that version |
| `Tools.GeneralConstraintMatches` | environs/tools/simplestreams.go:144-153 | a general constraint admits exactly the records of its series with its major version, its minor version when that is not negative, and no dev build when only released tools are wanted |
| `Tools.VersionedZeroConstraintIsGeneral` | environs/tools/simplestreams.go:144-153 | a versioned constraint whose version is Zero admits the same records as the general constraint for 0.0 that allows dev builds |
| `Tools.IndexByKey` | environs/tools/simplestreams.go:132-136 | the index holds exactly the release-version-arch keys of the accumulated records, each mapped to a record with that key |
| `Tools.AppendUnseen` | environs/tools/simplestreams.go:137-164 | the loop appends to the accumulator the selected records, each under a distinct map key, sets their FullPath from the source, and leaves every other record's FullPath as it was |
| `Tools.AppendMatchingTools` | environs/tools/simplestreams.go:129-165 | the input is a prefix of the output; a map entry is appended if and only if it is in the constraint's series, passes its version test and its key is absent from the records on entry; appended records get FullPath = source.URL(Path); the FullPath of old and unappended records is unchanged |
| `Tools.SecondPassSelectsNothing` | environs/tools/simplestreams.go:160-163 | after the selected records are appended, running the same selection over the same map selects nothing more |
| `Jujuc.KeyValue` | worker/uniter/runner/jujuc/storage-get.go:65-69 | "kind" maps to the attachment's Kind and "location" to its Location |
| `Jujuc.FirstInvalidKey` | worker/uniter/runner/jujuc/storage-get.go:64-72 | the key Run reports is the first one that is neither "kind" nor "location" |
| `Jujuc.ValuesForContents` | worker/uniter/runner/jujuc/storage-get.go:62-74 | the map's domain is exactly the set of requested keys, with "kind" to Kind and "location" to Location |
| `Jujuc.SingleKeyValues` | worker/uniter/runner/jujuc/storage-get.go:73-79 | for one key, the bare value printed is the only entry of the map that would otherwise be printed |
| `Jujuc.RepeatedKeyValues` | worker/uniter/runner/jujuc/storage-get.go:64-69 | asking for a key again does not change the map |
| `Jujuc.StorageGetCommand.constructor` | worker/uniter/runner/jujuc/storage-get.go:22-24 | a new command holds the hook context, an empty storage tag and no keys |
| `Jujuc.StorageGetCommand.Init` | worker/uniter/runner/jujuc/storage-get.go:42-55 | zero args fail with "no storage instance specified"; one arg fails with "no attribute keys specified" before the id is checked; an invalid id fails with "invalid storage ID"; each failure leaves the fields unchanged; on success the tag is built from args[0], keys = args[1:] (at least one), and no error is returned |
| `Jujuc.StorageGetCommand.Run` | worker/uniter/runner/jujuc/storage-get.go:57-81 | no attachment gives no error and no output; an unknown key gives "invalid storage instance key" for the first such key and no output; otherwise one key with the smart format writes the bare value and every other case writes the key to value map |

## Left out

- `Fetch` (environs/tools/simplestreams.go:102-125) retrieves signed or unsigned metadata over the network through simplestreams and converts the result by type assertion. This is I/O in another package.
- The `init` struct-tag registration, the `ContentDownload` constant, the `DefaultBaseURL` variable and the JSON tags of `ToolsMetadata` are reflection and serialisation. `excludeDefaultSource` compares against its own literal, not against `DefaultBaseURL`, and so does the model.
- `LookupParams` keeps only the series and architectures. The cloud spec is not used by the modelled code.
- The type assertions `val.(*ToolsMetadata)` are not modelled. The records are typed as `ToolsMetadata` objects, so those panics cannot happen in the model.
- The helpers `version.MustParse`, `Number.IsDev`, `simplestreams.SeriesVersion`, `set.NewStrings`, `names.IsValidStorage` and `names.NewStorageTag` are parameters or plain values. Their own definitions are not part of this model. Neither is the set of storage kinds, which belongs to the storage package.
- The error returned by `DataSource.URL` is ignored by the source. The model's `url` function always gives a string.
- Go's map iteration order is not modelled as any particular order. The model picks keys nondeterministically and states only what is appended, not its order.
- `Size` is `int64` in the source. The model uses an unbounded integer; no code here computes with it.
- Error values are constructors of `InitError`, `RunError` and `SeriesError`. The message text, including `%q` quoting, is not modelled.
- `Info`, `SetFlags`, flag parsing and the smart/yaml/json rendering done by `cmd.Output.Write` are not modelled. The chosen format's name is a constant field of the command, set when it is created.
- Jujuc.StorageGetCommand.Run: returns the value handed to `Write` and assumes the write succeeds. An error from the formatter or from the output stream is not modelled.
- Go's distinction between a nil slice and an empty slice is not modelled; both are the empty sequence.
- The presence/liveness tests (state/presence/presence_test.go) are integration tests that need a live coordination server, goroutines and timeouts. The presence implementation they exercise is not part of this model.

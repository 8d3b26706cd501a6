# torcx wire-record conversions in Dafny

This project models the layer of torcx, the addon manager, that turns wire
records into internal values. All of it lives in `internal/torcx/types.go`.

- **Archive formats.** A format is a plain string. Decoding accepts only
  `"tgz"` and `"squashfs"`. Decoding an `Archive` record defaults an absent
  format to `tgz`. `FileSuffix` gives the file extension of a format.
- **Image converters.** These map between the internal `Image` and the two
  wire generations `ImageV0` and `ImageV1`, plus list wrappers that convert
  entry by entry.
- **Remote catalogs.** `RemoteFromJSONV0` flattens a V0 remote's keys into
  armored keyrings. `RemoteContentsFromJSONV1` builds a name-keyed catalog:
  unnamed entries are dropped and the last entry with a name wins.
  `RemoteVersionFromJSONV1` copies one version record field by field.

Files and modules:

- `util.dfy`: `Wrappers` (`Option`, `Result`) and `Seqs` (`Map`, the meaning
  of the source's `for … append` loops).
- `wire.dfy`: `Wire`, the wire records. They are defined outside
  `types.go`, so only the fields the conversions read are kept.
- `images.dfy`: `Images`, the `Image` record, its converters, and the list
  methods.
- `archives.dfy`: `Archives`, the formats, `Archive`, and their decoders.
- `remotes.dfy`: `Remotes`, remotes and remote catalogs.

Where the source changes state, the model does too. Go's pointer-receiver
decoders (`*arf = …`, `*ar = …`) become the classes `ArchiveFormatVar` and
`ArchiveVar`, whose `UnmarshalJSON` methods assign their `value` field only
on success. Each one is proved against a pure function: `ParseArchiveFormat`
or `DecodeArchive`. The loops that build lists and maps with `append` or map
assignment become methods with loops. Their postconditions tie the result to
`Seqs.Map` or to the specification function `Remotes.Catalog`. The
single-expression converters are functions.

The design description of this layer calls the V1 image round trip
lossless. The code does not do that: `ToJSONV1` writes an empty remote
(`types.go:159`). The model follows the code, so the V1 round trip is the
identity exactly when the remote is empty.

## Model

| member | source | states |
|---|---|---|
| `Archives.ParseArchiveFormat` | internal/torcx/types.go:99-114 | decoding a format string succeeds exactly when it is `tgz` or `squashfs` and then yields that same string; any other string, `""` included, is an `InvalidArchiveFormat` error |
| `Archives.FormatRoundTrip` | internal/torcx/types.go:99-114 | every valid format decodes back to itself |
| `Archives.EmptyFormatRejected` | internal/torcx/types.go:105-112 | the unknown (empty) format is not special-cased by the format decoder: it is rejected |
| `Archives.ArchiveFormatVar.UnmarshalJSON` | internal/torcx/types.go:99-114 | the target is written with the decoded format exactly when the string is valid; on error it keeps its old value; the outcome agrees with `ParseArchiveFormat` |
| `Archives.DecodeArchive` | internal/torcx/types.go:116-130 | a successful decode never has the unknown format; an absent format gives `tgz`; a present format must be valid and is kept as given; image fields and path pass through; the only error is the format decoder's |
| `Archives.AbsentVersusEmptyFormat` | internal/torcx/types.go:116-130 | an explicit empty format is an error, while an absent format decodes to `tgz` |
| `Archives.ArchiveVar.UnmarshalJSON` | internal/torcx/types.go:116-130 | the target is assigned only on success, with the value `DecodeArchive` gives; on error it is left unchanged and the error is the one `DecodeArchive` gives |
| `Archives.FileSuffix` | internal/torcx/types.go:132-135 | the suffix is `.torcx.` followed by the format |
| `Archives.FileSuffixInjective` | internal/torcx/types.go:132-135 | distinct formats have distinct suffixes; `tgz` gives `.torcx.tgz` and `squashfs` gives `.torcx.squashfs` |
| `Images.ImageV0RoundTrip` | internal/torcx/types.go:137-152 | internal → V0 → internal keeps name and reference and clears the remote; it is the identity exactly when the remote is empty |
| `Images.ImageV0WireRoundTrip` | internal/torcx/types.go:137-152 | V0 → internal → V0 is the identity |
| `Images.ImageV1RoundTrip` | internal/torcx/types.go:154-171 | `ToJSONV1` always writes an empty remote, so internal → V1 → internal clears the remote and is the identity exactly when the remote is empty |
| `Images.ImageV1WireRoundTrip` | internal/torcx/types.go:154-171 | `ImageFromJSONV1` copies the remote; V1 → internal → V1 is the identity exactly when the wire remote is empty |
| `Images.ImagesToJSONV0` | internal/torcx/types.go:173-181 | the output list has the input's length and order, and entry i is `ToJSONV0` of input entry i |
| `Images.ImagesFromJSONV0` | internal/torcx/types.go:183-191 | the output list has the input's length and order, and entry i is `ImageFromJSONV0` of input entry i |
| `Images.ImagesToJSONV1` | internal/torcx/types.go:193-201 | the output list has the input's length and order, and entry i is `ToJSONV1` of input entry i |
| `Images.ImagesFromJSONV1` | internal/torcx/types.go:203-211 | the output list has the input's length and order, and entry i is `ImageFromJSONV1` of input entry i |
| `Images.ImagesV0RoundTrip` | internal/torcx/types.go:173-191 | a list round trip through V0 keeps length, order, names and references, and clears every remote |
| `Images.ImagesV1RoundTrip` | internal/torcx/types.go:193-211 | a list round trip through V1 is the identity exactly when no image in the list has a remote |
| `Remotes.RemoteFromJSONV0` | internal/torcx/types.go:234-243 | the template URL is the base URL; the armored keys have the same length as the key records, and key i is record i's armored keyring |
| `Remotes.RemoteVersionFromJSONV1Faithful` | internal/torcx/types.go:290-299 | each wire field lands in its namesake, so the translation is injective and loses nothing |
| `Remotes.CatalogKeys` | internal/torcx/types.go:251-273 | the catalog's keys are exactly the non-empty names among the entries |
| `Remotes.CatalogLastWins` | internal/torcx/types.go:255-268 | the value for a name is the translation of the last entry with that name: its name and default version are copied and its versions are mapped through `RemoteVersionFromJSONV1` in order |
| `Remotes.RemoteContentsFromJSONV1` | internal/torcx/types.go:250-273 | the nested loops build exactly `Catalog` of the entries; its keys are the non-empty names and each key maps to its last entry's translation |
| `Remotes.UnnamedEntryDropped` | internal/torcx/types.go:255-258 | an unnamed entry next to a named one gives a catalog holding only the named one |
| `Remotes.DuplicateNameLastWins` | internal/torcx/types.go:268 | two entries with the same name give one catalog entry, the translation of the second |

## Left out

- JSON byte parsing by `encoding/json` (`types.go:102`, `types.go:121`) is not modelled. This covers syntax errors, non-string values, field tags and the `null` literal. A format arrives as an already-parsed string. An `Archive` arrives as a record whose format is absent or a string.
- The error text built by `fmt.Errorf` (`types.go:111`) is not modelled. It is a single `InvalidArchiveFormat` outcome.
- Go's nil-versus-empty slice distinction is not modelled. `ImagesToJSONV0/V1` leave `Images` nil for empty input, while the `From` functions return an empty slice. Both are the empty sequence here.
- `kindValueJSON`, `ConfigV0` and `ImageManifestV0` are bare structs with no decoding logic in this file, so they are not modelled.
- `CommonConfig`, `ApplyConfig`, `ProfileConfig`, `Assets` and the label constants are plain containers with no behaviour, so they are not modelled.
- The wire records come from files that are not part of this model. They keep only the fields the conversions read.

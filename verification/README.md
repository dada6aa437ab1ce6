# go-ucfg merge and normalisation, modelled in Dafny

This project models the merge engine of go-ucfg, the configuration library vendored by Beats
(`vendor/github.com/elastic/go-ucfg/merge.go`). The engine has two halves:

- The **normaliser** turns an arbitrary Go value into a canonical configuration tree. The value
  may be a map, a struct, a slice, a scalar, a duration, a regular expression or an existing
  `*Config`.
  - A signed integer above zero is stored as an unsigned one.
  - Durations and regular expressions become strings.
  - Strings go through the splice parser when variable expansion is on.
  - Squashed struct fields are flattened into their parent.
  - Two writes to the same name are a `DuplicateKey` error, unless the second value is nil.
- The **merger** (`mergeConfig`) folds one tree into another, key by key.
  - Where both sides hold a sub-config it descends.
  - Otherwise the source's value wins outright.
  - Keys only the target has are kept.
  - It never fails.

The modules:

- `Values` (values.dfy): the value variants (`Node`), the context each value carries (`Ctx`), the
  tree (`Tree`: named fields plus array elements), the error kinds, and the `Externals` record
  standing for collaborators outside merge.go.
- `Input` (input.dfy): the Go values the normaliser accepts, as a closed datatype (`Native`), with
  struct tags already parsed, and `fieldName`.
- `Paths` (paths.dfy): `parsePath`, `GetValue` and `SetValue`, with the behaviour merge.go relies
  on.
- `Normalizer` (normalize.dfy): the normaliser as pure functions.
- `NormalizeFacts` (normalize_facts.dfy): the properties of the normaliser.
- `Merge` (merge.dfy): the merge as a function on trees (`Merged`) and its properties.
- `Engine` (engine.dfy): a `Config` class whose fields the imperative code updates in place.
  - `MergeConfig` and the `normalize*Into` loops are methods over it.
  - `NormalizeArray` builds its element list in a loop.
  - Each method is proved equal to the pure definition above it.

Two behaviours of the code worth spelling out:

- **Integer sign.** merge.go:253 tests `i > 0`, so a positive signed integer becomes Uint and
  zero stays Int (`NormalizeFacts.IntegerKinds`).
- **Arrays in a merge.** Array-form sub-configs merge by keeping the target's elements
  (merge.go:32-46).
  - `toConfig` succeeds on any sub-config, array form included.
  - `mergeConfig` then descends and visits only named fields, so an array-form source merged onto
    an array-form target keeps the target's elements (`Merge.MergedKeepsTargetArray`).

## Model

| member | source | states |
|---|---|---|
| Engine.Config.Merge | vendor/github.com/elastic/go-ucfg/merge.go:10-17 | A normalisation error is returned and leaves the config untouched. Otherwise the config becomes the merge of its old contents with the normalised input, with no error. A well-formed config stays well formed. |
| Engine.MergeNormalizedWellFormed | vendor/github.com/elastic/go-ucfg/merge.go:10-17 | Merging a normalised input into a well-formed config gives a well-formed config. |
| Engine.MergeConfig | vendor/github.com/elastic/go-ucfg/merge.go:19-49 | The loop over the source's keys leaves `to` equal to `Merged(old to, from)` and always returns no error. Its invariant: the keys visited so far hold their merged entry and the others are untouched. |
| Engine.MergeSub | vendor/github.com/elastic/go-ucfg/merge.go:44-46 | The recursive call merges the two sub-configs and its error is passed on; by induction that error is always none. The entry keeps the target's context. |
| Merge.MergedAt | vendor/github.com/elastic/go-ucfg/merge.go:26-46 | The entry left under a source key: a copy of the source value under the key, unless both sides are sub-configs. In that case it is a sub-config under the target's context. |
| Merge.MergedOn | vendor/github.com/elastic/go-ucfg/merge.go:20-47 | After a set of source keys is processed, the keys are the target's keys plus those. Processed keys hold their merged entry and the other target keys are unchanged. |
| Merge.MergedOnStep | vendor/github.com/elastic/go-ucfg/merge.go:20-47 | Processing one more key extends the partial result by exactly that key. |
| Merge.Merged | vendor/github.com/elastic/go-ucfg/merge.go:19-49 | The keys are the union of both sides and the target's array is kept. Target-only keys keep their value. Where either side is not a sub-config, the source's value wins, attached under the key. |
| Merge.MergedDescends | vendor/github.com/elastic/go-ucfg/merge.go:32-46 | Where both sides are sub-configs, the result holds their recursive merge under the target's context. |
| Merge.MergedWellFormed | vendor/github.com/elastic/go-ucfg/merge.go:19-49 | Merging two well-formed trees gives a well-formed tree: every context names its key or index. |
| Merge.MergedSelf | vendor/github.com/elastic/go-ucfg/merge.go:19-49 | A well-formed tree merged into itself is unchanged. |
| Merge.MergedIdempotent | vendor/github.com/elastic/go-ucfg/merge.go:19-49 | Merging the same well-formed source a second time changes nothing. |
| Merge.MergedIntoEmpty | vendor/github.com/elastic/go-ucfg/merge.go:26-29 | Merging into an empty target gives the source's fields. |
| Merge.MergedEmptySource | vendor/github.com/elastic/go-ucfg/merge.go:20-48 | Merging a source without named fields leaves the target unchanged. |
| Merge.MergedSourceLeafWins | vendor/github.com/elastic/go-ucfg/merge.go:32-42 | A path that reads a non-sub-config value in the source reads the same value in the result. |
| Merge.MergedKeepsTargetPath | vendor/github.com/elastic/go-ucfg/merge.go:26-46 | A path that reads a value in the target and is Missing in the source reads the target's value in the result. |
| Merge.MergedKeepsTargetArray | vendor/github.com/elastic/go-ucfg/merge.go:32-46 | Two sub-configs merged under a key keep the target's array elements. |
| Normalizer.Normalize | vendor/github.com/elastic/go-ucfg/merge.go:53-78 | InvalidTopLevelType exactly when the input is not a config, a map or a struct (as Go does for every input `Native` represents, except a top-level regexp and an untyped nil, see Left out). A ready-made config is returned as it is. |
| Engine.NormalizeTop | vendor/github.com/elastic/go-ucfg/merge.go:53-78 | Returns a config and error whose outcome equals `Normalize`. |
| Normalizer.NormalizeValue | vendor/github.com/elastic/go-ucfg/merge.go:230-285 | Every value produced carries the context given. An error is never InvalidTopLevelType. |
| Normalizer.NormalizeString | vendor/github.com/elastic/go-ucfg/merge.go:287-305 | Fails exactly when expansion is on and the parser fails (ParseSplice with its message); a plain string equal to the input exactly when expansion is off or the parse is constant; a reference exactly when the parse is one reference; otherwise a splice. |
| Normalizer.ArrayValue | vendor/github.com/elastic/go-ucfg/merge.go:199-228 | Succeeds exactly when every element normalises; a success is an array-form sub-config (no named fields) under the given context whose elements are `ArrayElems`'s list; an error is `ArrayElems`'s, the first failing element's. |
| Normalizer.ArrayElems | vendor/github.com/elastic/go-ucfg/merge.go:213-224 | One value per element in order, element `i` normalised under the context named by `i` in decimal; succeeds exactly when every element does; an error is the first failing element's. |
| Engine.NormalizeArray | vendor/github.com/elastic/go-ucfg/merge.go:199-228 | The loop's result equals `ArrayValue`, so it has that function's length, order, index-context and first-error properties. |
| Normalizer.NormalizeMapValue | vendor/github.com/elastic/go-ucfg/merge.go:189-197 | Succeeds exactly when `MapInto` on an empty tree does; a success is that tree as a sub-config under the given context; an error is `MapInto`'s. |
| Normalizer.NormalizeStructValue | vendor/github.com/elastic/go-ucfg/merge.go:179-187 | Succeeds exactly when `StructInto` on an empty tree does; a success is that tree as a sub-config under the given context; an error is `StructInto`'s. |
| Normalizer.MapInto | vendor/github.com/elastic/go-ucfg/merge.go:89-107 | A key type other than string or interface is KeyInvalidTypeMerge. A success keeps the array and every existing key. |
| Normalizer.EntriesInto | vendor/github.com/elastic/go-ucfg/merge.go:95-106 | Writing entries keeps the array and every existing key, and never yields InvalidTopLevelType. |
| Normalizer.StructInto | vendor/github.com/elastic/go-ucfg/merge.go:118-147 | A success keeps the array and every existing key. |
| Normalizer.FieldsInto | vendor/github.com/elastic/go-ucfg/merge.go:122-146 | Writing fields keeps the array and every existing key, and never yields InvalidTopLevelType. |
| Normalizer.SetField | vendor/github.com/elastic/go-ucfg/merge.go:149-177 | A success keeps the array and every existing key. |
| Engine.NormalizeMap | vendor/github.com/elastic/go-ucfg/merge.go:80-87 | A fresh config whose outcome equals `MapInto` on an empty tree. |
| Engine.NormalizeStruct | vendor/github.com/elastic/go-ucfg/merge.go:109-116 | A fresh config whose outcome equals `StructInto` on an empty tree. |
| Engine.NormalizeMapInto | vendor/github.com/elastic/go-ucfg/merge.go:89-107 | The loop's error and the config it leaves equal `MapInto` of the old config. The invariant is that the config equals the first `i` entries written. |
| Engine.NormalizeStructInto | vendor/github.com/elastic/go-ucfg/merge.go:118-147 | The loop's error and the config it leaves equal `StructInto` of the old config, including the recursive squash calls on the same config. |
| Engine.NormalizeSetField | vendor/github.com/elastic/go-ucfg/merge.go:149-177 | The error and the config left equal `SetField` of the old config. |
| NormalizeFacts.IntegerKinds | vendor/github.com/elastic/go-ucfg/merge.go:251-258 | A signed integer above zero becomes Uint of the same value. Zero and negative ones stay Int. Unsigned integers become Uint. |
| NormalizeFacts.SpecialTypesAsStrings | vendor/github.com/elastic/go-ucfg/merge.go:239-244 | A duration becomes the string of its rendering. A regular expression becomes its source string. |
| NormalizeFacts.SetFieldOutcomes | vendor/github.com/elastic/go-ucfg/merge.go:161-176 | Once the value normalises: a found value with a nil new value leaves the config unchanged, with a concrete one is DuplicateKey; a lookup error other than Missing is passed on. |
| NormalizeFacts.SetFieldAbsentStores | vendor/github.com/elastic/go-ucfg/merge.go:161-176 | A Missing path is always stored successfully, and the value reads back from that path. |
| NormalizeFacts.SetFieldTwice | vendor/github.com/elastic/go-ucfg/merge.go:162-173 | Writing a name a second time: nil leaves the config as the first write made it, and a concrete value is DuplicateKey. |
| NormalizeFacts.NilPlaceholderOverwritten | vendor/github.com/elastic/go-ucfg/merge.go:162-176 | When the lookup reads a stored nil as Missing, a later value is stored over an earlier nil. |
| NormalizeFacts.NilReadsMissingAfterStore | vendor/github.com/elastic/go-ucfg/merge.go:162-168 | After a nil is stored, a lookup that reads nil as Missing reports Missing there. |
| NormalizeFacts.DuplicateStructField | vendor/github.com/elastic/go-ucfg/merge.go:137-139 | Two struct fields with the same derived name: a nil second field is dropped, and a concrete one is DuplicateKey. |
| NormalizeFacts.SquashFlattens | vendor/github.com/elastic/go-ucfg/merge.go:127-136 | A squashed struct or map is normalised into the same config. Any other squashed value is SquashNeedsObject naming the Go field. |
| NormalizeFacts.SquashedChildAtTopLevel | vendor/github.com/elastic/go-ucfg/merge.go:127-139 | A squashed struct's field appears at the parent's level and the squashed field's own name does not. |
| NormalizeFacts.FreshPlainField | vendor/github.com/elastic/go-ucfg/merge.go:161-176 | A plain name not yet present gains exactly one entry. |
| NormalizeFacts.FlatFieldsKeys | vendor/github.com/elastic/go-ucfg/merge.go:95-106 | The keys after writing plain entries are the old keys plus the entry keys. |
| NormalizeFacts.FlatFieldsValues | vendor/github.com/elastic/go-ucfg/merge.go:95-106 | Old keys keep their values and each entry key holds its normalised value. |
| NormalizeFacts.FlatFieldsFresh | vendor/github.com/elastic/go-ucfg/merge.go:95-106 | Keys of entries not yet written are still absent. |
| NormalizeFacts.EntriesIntoFlat | vendor/github.com/elastic/go-ucfg/merge.go:95-106 | Entries with distinct plain keys, none already present, are all written, without error. |
| NormalizeFacts.MapFlat | vendor/github.com/elastic/go-ucfg/merge.go:80-107 | A map with distinct, non-numeric (not starting with a digit after an optional sign), separator-free string keys whose values all normalise gives exactly those keys, each holding its normalised value under its own name, whatever the visiting order. |
| NormalizeFacts.NormalizeWellFormed | vendor/github.com/elastic/go-ucfg/merge.go:53-78 | Every normalised top-level tree is well formed. |
| NormalizeFacts.NormalizeValueWellFormed | vendor/github.com/elastic/go-ucfg/merge.go:213-219 | Every normalised value's sub-config is well formed, with elements named by their decimal index. |
| NormalizeFacts.MapIntoWellFormed | vendor/github.com/elastic/go-ucfg/merge.go:89-107 | Writing a map keeps a tree well formed. |
| NormalizeFacts.EntriesIntoWellFormed | vendor/github.com/elastic/go-ucfg/merge.go:95-106 | Writing entries keeps a tree well formed. |
| NormalizeFacts.StructIntoWellFormed | vendor/github.com/elastic/go-ucfg/merge.go:118-147 | Writing a struct keeps a tree well formed. |
| NormalizeFacts.FieldsIntoWellFormed | vendor/github.com/elastic/go-ucfg/merge.go:122-146 | Writing fields, squashed ones included, keeps a tree well formed. |
| NormalizeFacts.SetFieldWellFormed | vendor/github.com/elastic/go-ucfg/merge.go:161-176 | A successful field write keeps a tree well formed. |
| NormalizeFacts.ArrayElemsAbort | vendor/github.com/elastic/go-ucfg/merge.go:219-222 | Once an element fails, every longer prefix fails with the same error. |
| NormalizeFacts.EntriesIntoStep | vendor/github.com/elastic/go-ucfg/merge.go:96-104 | One more entry: a key that is not a string fails with KeyInvalidTypeMerge; otherwise the entry is written with SetField into what the earlier entries produced. |
| NormalizeFacts.EntriesIntoFlatStep | vendor/github.com/elastic/go-ucfg/merge.go:96-104 | Writing one more fresh plain key extends the flat map of written entries by exactly that key. |
| NormalizeFacts.EntriesIntoAbort | vendor/github.com/elastic/go-ucfg/merge.go:101-104 | Once an entry fails, every longer prefix fails with the same error. |
| NormalizeFacts.FieldsIntoAbort | vendor/github.com/elastic/go-ucfg/merge.go:142-144 | Once a field fails, every longer prefix fails with the same error. |
| Paths.ParsePath | vendor/github.com/elastic/go-ucfg/merge.go:161 | The path is never empty. Joining it with the separator gives the name back, and an empty separator keeps the name whole. |
| Paths.Split | vendor/github.com/elastic/go-ucfg/merge.go:161 | Cutting at a non-empty separator gives a non-empty list that joins back to the input. |
| Paths.GetValue | vendor/github.com/elastic/go-ucfg/merge.go:162-168 | The only errors are Missing and ExpectedObject. When a stored nil reads as Missing, a success is never nil. |
| Paths.SetValue | vendor/github.com/elastic/go-ucfg/merge.go:176 | The only error is ExpectedObject. A success adds the first segment's key, changes no other key and keeps the array. |
| Paths.SetThenGet | vendor/github.com/elastic/go-ucfg/merge.go:176 | A stored value reads back from the same path under the last segment's context. |
| Paths.MissingMeansSettable | vendor/github.com/elastic/go-ucfg/merge.go:162-176 | Where the lookup reports Missing, the store succeeds. |
| Paths.SetValueWellFormed | vendor/github.com/elastic/go-ucfg/merge.go:176 | Storing keeps a tree well formed. |
| Values.Cpy | vendor/github.com/elastic/go-ucfg/merge.go:28 | A copy keeps the value and takes the new context. |
| Values.ToConfig | vendor/github.com/elastic/go-ucfg/merge.go:32-42 | Succeeds exactly on a sub-config and returns that sub-config. |
| Values.Decimal | vendor/github.com/elastic/go-ucfg/merge.go:214 | An index renders as a non-empty string of decimal digits. |
| Values.DecimalRoundTrip | vendor/github.com/elastic/go-ucfg/merge.go:214 | Reading the digits back gives the index. |
| Values.DecimalInjective | vendor/github.com/elastic/go-ucfg/merge.go:214-218 | Distinct indices give distinct element contexts. |
| Input.FieldName | vendor/github.com/elastic/go-ucfg/merge.go:138 | A non-empty tag name is used as it is. Otherwise the name is the Go name lower-cased (`Lower`). |
| Input.Lower | vendor/github.com/elastic/go-ucfg/merge.go:138 | Every character is lower-cased in place. |

## Left out

- Reflection is not modelled. The input is the closed datatype `Input.Native`, with pointers and interfaces already followed (`chaseValue`) and struct tags already parsed (`parseTags`). A Go type the dispatch does not know is `NUnsupported`, standing for a non-nil chan, func or unsafe.Pointer.
- Complex64, Complex128 and Uintptr kinds: merge.go:280 calls `v.IsNil()` on them, which panics in Go. The model has no panic and maps these kinds to `NUnsupported`, so they give UnsupportedInputType.
- Metadata and the parent back-link of each value's context are not modelled. A context keeps only the field name or index. So `normalizeValue`'s `SetContext` on an existing `*Config` (merge.go:272-273), which depends on the parent, is modelled as always setting the context.
- Floating-point values are opaque bit patterns and are never computed with.
- `time.Duration.String` and `parseSplice` are code outside merge.go. They are parameters (`Externals.durationString`, `Externals.parseSplice`), so every property holds for any rendering and any parser.
- Whether `GetValue` reports a stored nil as Missing is decided in code that is not part of this model. It is a parameter (`Externals.nilReadsAsMissing`), and the duplicate-key lemmas state both cases.
- `Paths.GetValue` and `Paths.SetValue` handle named segments only. Numeric segments that index into arrays are not modelled, and `parsePath` is modelled as a plain split at the separator.
- `Input.Lower` lower-cases ASCII letters only. `strings.ToLower` also folds other Unicode letters.
- `Values.ToConfig` succeeds on sub-configs only. References and splices are not resolved, since their resolution lives outside merge.go. A nil value is also treated as not a config, which is a choice about `cfgNil.toConfig`, code outside merge.go: a source nil replaces a target sub-config, and a source sub-config replaces a target nil.
- Rebranding a named type into `*Config` (`tryTConfig`) is not modelled separately. Such an input appears as `NConfig`.
- A squashed field that holds a `*Config` or a regular expression has kind Struct in Go and is normalised as a struct of its private fields. The model has no struct view of those types, so squashing one is modelled as SquashNeedsObject.
- Nested configs are values, not shared objects. In Go, `mergeConfig` recurses on the `*Config` stored inside the target and changes it in place. `Engine.MergeSub` merges a temporary copy and writes the result back under the key, which gives the same final contents but does not model aliasing between two configs that share a sub-config.
- The same holds at the top level. For a ready-made `*Config`, `normalize` (merge.go:57-58) returns the caller's own object, so `c.Merge(c)` merges a config through an alias of itself. `Engine.NormalizeTop` copies the contents into a fresh `Config` instead, so the model merges a snapshot of the input.
- Normalizer.Normalize: two top-level inputs are not modelled as Go treats them. A `regexp.Regexp` (or a pointer to one) has kind Struct in Go, so merge.go:68-70 normalises it as a struct of its private fields; the model has no struct view of it and gives InvalidTopLevelType. An untyped nil (`c.Merge(nil)`) makes `vFrom.Type()` at merge.go:56 panic in Go; the model has no panic and gives InvalidTopLevelType for `NNil`.
- The order of a Go map's keys is the order of `Input.Native`'s entry list. The merge visits the source's keys in an unspecified order, which the proof covers because keys are independent.
- On an error the normaliser's partly filled config is discarded by every caller. The methods' contracts therefore say nothing about the config's contents after an error.
- `Merge` options such as path separator and variable expansion are `Values.Options`. Other options (metadata, tag name, resolvers) are not part of this model.

# grunt-assemble: option normalisation

A Dafny model of how the `assemble` Grunt task turns a target's options into
the metadata it hands to the Assemble engine (`tasks/assemble.js`).

- **mergeOptions**: reads option `name` at task level
  (`assemble.options.<name>`) and at target level
  (`assemble.<target>.options.<name>`). A missing or falsy value becomes `[]`.
  Each side is arrayified. The two arrays are joined with lodash `_.union`.
- **normalizeOptions**: maps over every key of `target.options(defaults)`.
  `partials` is arrayified first. A value that is then an array is replaced by
  `mergeOptions(key)`. Every other value is kept.
- **log level**: `options.log` defaults to `{}`. Its `level` is then set to the
  command-line `--log` value, else the configured level, else `'error'`.

Modules:

- `JsValues` (`js_values.dfy`): JavaScript values. `Elem` is a non-array
  value. `Value` is an option value: `Single(Elem)` or `List(seq<Elem>)`.
  Objects carry an identity `ref`. Dafny's `==` agrees with lodash's
  SameValueZero (objects are equal only to themselves, `NaN` equals `NaN`,
  there is one zero) whenever each identity is carried by one property map
  (`RefsConsistent`). Truthiness follows JavaScript, so `x || []` is modelled
  exactly.
- `LodashUnion` (`lodash_union.dfy`): `_.union` as `Dedup(a + b)`. `Dedup`
  appends an element only when it has not been seen, as lodash's uniqueness
  pass does. It is proved to be the unique repeat-free sequence of the same
  elements in first-occurrence order.
- `AssembleTask` (`assemble_options.dfy`): `MergeOptions`, `NormalizeOptions`
  and the log level (`ResolveLogLevel`, `WithLogLevel`). `TaskOptions` composes
  them.
- `GruntfileExamples` (`gruntfile_examples.dfy`): the repository's own
  Gruntfile targets used as concrete inputs.

Two raw configuration levels are parameters (`taskOptions`, `targetOptions`).
They stand in for the `grunt.config` look-ups. The merged map from
`target.options(defaults)` is a parameter (`options`). The command-line value
is a parameter (`cli`). So is the identity of the fresh `{}` created for a
missing `options.log` (`freshRef`).

Notes on behaviour the model makes explicit:

- `partials` is forced into array form only when it is a key of
  `target.options(defaults)`. `normalizeOptions` maps over existing keys and
  adds none, so an option given nowhere (and absent from the defaults) stays
  absent.
- A list-valued option is rebuilt from the raw configuration only. Entries
  that come only from the engine defaults are dropped.
- An option that is an array at task level but a non-array at target level is
  a non-array in `target.options(...)`, so it passes through unmerged.
- A truthy non-object `options.log` (say the string `'debug'`) silently loses
  the level assignment. The engine then sees the string and no level.

## Model

| member | source | states |
|---|---|---|
| `AssembleTask.LevelElems` | tasks/assemble.js:139-140 | A missing or falsy option at one level contributes no entries; an array contributes its entries; a single truthy non-array value contributes exactly that one entry |
| `AssembleTask.MergeOptions` | tasks/assemble.js:137-142 | The merge holds exactly the entries of the task-level and target-level values, nothing else, and no entry twice |
| `AssembleTask.MergeOptionsOrder` | tasks/assemble.js:141 | The merge is the distinct task-level entries in first-occurrence order followed by the target-only entries in first-occurrence order |
| `AssembleTask.MergeOptionsInFirstOccurrenceOrder` | tasks/assemble.js:139-141 | The merge lists its entries in the order of their first occurrence in the task-level then target-level entries |
| `AssembleTask.MergeOptionsFirstOccurrence` | tasks/assemble.js:139-141 | Any repeat-free list of the merged entries in first-occurrence order equals the merge |
| `AssembleTask.MergeOptionsNoSameValueZeroRepeats` | tasks/assemble.js:141 | When each object identity among the entries has one property map, no two entries of the merge are equal under lodash's SameValueZero |
| `AssembleTask.MergeOptionsMissingLevels` | tasks/assemble.js:139-141 | With the option at neither level the merge is `[]`; a single non-array value at one level alone gives a one-entry list |
| `AssembleTask.MergeOptionsSameListBothLevels` | tasks/assemble.js:141 | The same repeat-free array at both levels merges to that array, with no entry doubled |
| `AssembleTask.NormalizeValue` | tasks/assemble.js:157-169 | `partials` and any array value become the merge of that option; any other value is returned unchanged |
| `AssembleTask.NormalizeOptions` | tasks/assemble.js:150-173 | Same key set as the input, no key added or removed; non-array values other than `partials` unchanged; `partials` and every array-valued key become the merge of that option |
| `AssembleTask.NormalizedArrays` | tasks/assemble.js:157-169 | After normalisation `partials` and every array-valued option are arrays, repeat-free, holding exactly the entries of the raw task-level and target-level values |
| `AssembleTask.DefaultOnlyEntriesDropped` | tasks/assemble.js:154-166 | An array entry present in neither raw configuration level (only in the defaults) is absent after normalisation |
| `AssembleTask.NormalizeOptionsIdempotent` | tasks/assemble.js:157-169 | Normalising already-normalised options changes nothing |
| `AssembleTask.ConfiguredLevel` | tasks/assemble.js:72-73 | An object `options.log` gives its `level` property; a missing or falsy `options.log` reads as `{}`, and any other value has no `level`, so both give `undefined` |
| `AssembleTask.ResolveLogLevel` | tasks/assemble.js:73 | The level is always truthy: the command-line value when set, else the configured level when set, else `'error'` |
| `AssembleTask.WithLogLevel` | tasks/assemble.js:72-73 | Adds `log` and changes no other key; a missing or falsy `options.log` becomes a fresh object `freshRef` whose only property is the resolved `level`; an existing object keeps its identity and other properties, gains only `level`, and its `level` reads back as the resolved level; any other value is left unchanged |
| `AssembleTask.TaskOptions` | tasks/assemble.js:38-73 | The options handed on hold the input keys plus `log`; every other key holds its normalised value; a missing or non-array `log` gets the same update as the raw options would, so its `level` is the resolved level whenever it can be assigned |
| `AssembleTask.TaskLogLevelPrecedence` | tasks/assemble.js:72-73 | After normalisation and the log step, `options.log.level` is the command-line value if set, else the configured level if set, else `'error'` |
| `AssembleTask.StringLogLosesLevel` | tasks/assemble.js:72-73 | `log: 'debug'` is kept as the string and its `level` reads `undefined` |
| `JsValues.SameValueZeroIsEquality` | tasks/assemble.js:141 | Among elements whose object identities each carry one property map, Dafny's `==` is lodash's SameValueZero |
| `JsValues.SnapshotsOfOneObject` | tasks/assemble.js:141 | Two snapshots of one object with different properties are SameValueZero-equal but not `==`, and are not identity-consistent |
| `LodashUnion.Union` | tasks/assemble.js:141 | `_.union(a, b)` holds exactly the elements of `a` and `b`, each once |
| `LodashUnion.Dedup` | tasks/assemble.js:141 | De-duplication keeps exactly the input's elements and never lengthens the input |
| `LodashUnion.DedupDistinct` | tasks/assemble.js:141 | No element occurs twice after de-duplication |
| `LodashUnion.UnionOrder` | tasks/assemble.js:141 | `_.union(a, b)` is `a` de-duplicated followed by the elements only in `b`, de-duplicated, in their order |
| `LodashUnion.UnionKeepsDistinctPrefix` | tasks/assemble.js:141 | When `a` has no repeats the union begins with `a` unchanged |
| `LodashUnion.DedupOfDistinct` | tasks/assemble.js:141 | De-duplicating a repeat-free sequence returns it unchanged |
| `LodashUnion.DedupFirstOccurrenceOrder` | tasks/assemble.js:141 | De-duplication lists elements in the order of their first occurrence |
| `LodashUnion.DedupCharacterized` | tasks/assemble.js:141 | Any repeat-free sequence of the same elements in first-occurrence order equals the de-duplication |
| `GruntfileExamples.CustomHelpersMergedOnce` | Gruntfile.js:125-148 | `helpers: ['test/helpers/*.js']` at both levels merges to one entry |
| `GruntfileExamples.NestedLayoutsPartials` | Gruntfile.js:124-139 | A `partials` string given at target level becomes a one-element array |
| `GruntfileExamples.NestedLayoutsHelpers` | Gruntfile.js:124-139 | The task-level `helpers` array, absent at target level, is kept as it is |
| `GruntfileExamples.NestedLayoutsPlainValues` | Gruntfile.js:124-139 | The merged scalar `layout` and `flatten` pass through normalisation unchanged |
| `GruntfileExamples.BazPartialsKept` | Gruntfile.js:39-95 | A `partials` array given only at target level is kept as it is |
| `GruntfileExamples.BlankAssetsPassThrough` | Gruntfile.js:301-302 | An empty-string `assets` passes through unchanged |
| `GruntfileExamples.CollectionsKeptByIdentity` | Gruntfile.js:308-314 | The three target-level collection objects are all kept in order; a task-level object with the same content and another identity (added to the Gruntfile's input) is not a duplicate |

## Left out

- The files normaliser (`normalize.files`, tasks/assemble.js:15, 41): `lib/normalize` is not part of this model, and its glob expansion is filesystem work.
- The build-and-write driver (tasks/assemble.js:102-128): the external `assemble(...).build` engine, the `async.each` fan-out, file writes and logging. On an engine error the code calls `done(false)` and does not return, so "no files written on error" is not a property of this code.
- Configuration and context loading: `plasma.load`, `processContext`, template expansion by `grunt.config.process` and `grunt.config` look-ups, and the save/restore of `grunt.config.data` (tasks/assemble.js:35, 76-93, 132-135). These are foreign libraries and global host state; the raw configuration levels are parameters instead.
- Mixin loading with `require`, `try`/`catch` and `file.expand` (tasks/assemble.js:51-69): module loading and filesystem globbing.
- The attachment of `components` and `grunt` to the options (tasks/assemble.js:48-49): they come from the files normaliser and the host.
- Debug JSON dumps (tasks/assemble.js:88-90, 117-120): file I/O.
- Grunt's `this.options(defaults)` merge: its result is taken as the input `options`.
- `fs-utils.arrayify` is specified only as "an array stays as it is; anything else becomes a one-element array". Its handling of `undefined` is not modelled; it never reaches the result, because `partials` is re-merged afterwards.
- Numbers are integers. Fractional numbers are not modelled; `NaN` and the single zero are.
- Arrays nested inside an option array are modelled as opaque objects with an identity. This matches how SameValueZero compares them; their contents are not modelled.
- `WithLogLevel`: when `options.log` is itself an array, JavaScript would attach `level` to the array; the model gives arrays no properties and leaves such a `log` unchanged.
- Object identity: an `Obj` is a snapshot of one object's properties. Two snapshots of the same object with different properties (as `WithLogLevel` produces when it updates `options.log`) are the same object to JavaScript but differ under Dafny's `==`. The merge matches lodash only on inputs whose identities are consistent (`RefsConsistent`, `SnapshotsOfOneObject`); the model does not track an object's properties changing over time.

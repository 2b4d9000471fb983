# ListInPlaceEdit plugin: configuration-time logic

This project models the configuration-time part of the AdminForth plugin
`ListInPlaceEditPlugin`. The plugin lets one or more columns of a resource's
list view be edited in place.

- **Column augmenter** (`modifyResourceConfig`). It walks the resource's columns
  in order and picks those whose names are in `options.columns`. For each picked
  column it throws if the column already declares a `components.list` component.
  Otherwise it creates `components` when it is missing and writes
  `components.list = { file, meta: { pluginInstanceId, columnName } }`.
  The throw happens in the middle of the walk, so the picked columns before the
  conflicting one have already been updated. The model keeps this partial update.
- **Column validator** (`validateConfigAfterDiscover`). It throws for the first
  configured name, in `options.columns` order, that no column of the resource has.
  The message names the column and the resource label.
- **`instanceUniqueRepresentation`** returns the constant `'single'`.

Layout:

- `columns.dfy` (module `Columns`): column values, the `list` binding, `Attach`,
  the two configuration errors and their message texts.
- `augment.dfy` (module `Augmenter`): the augmenter as a function on column
  values (`Augment`), its closed form (`AugmentPartialUpdate`) and the properties
  derived from it.
- `validate.dfy` (module `Validator`): `Find` (the array `find`), `Validate`, and
  its properties.
- `plugin.dfy` (module `Plugin`): the classes `Column`, `Resource` and
  `ListInPlaceEditPlugin`. `ModifyResourceConfig` updates the column objects in
  place and is proved equal, state and outcome, to `Augmenter.Augment`.

A `throw` is modelled as the result `Fail(error)` of type `Outcome`; finishing
normally is `Pass`. In the source, the plugin instance id is a field of the host base class
(read at index.ts:31), and the editor path comes from calling
`this.componentPath('InPlaceEdit.vue')` once per picked column (index.ts:29). The
model treats both as opaque strings fixed when the plugin object is built, so its
constructor takes them as parameters; the source's constructor stores only
`options` (index.ts:10).

A failing augmentation leaves the picked columns before the conflicting one
updated, because the throw happens during the walk (index.ts:20-23). The model
keeps this (`Augmenter.FailureIsPartial`). The configured names are an array, and
their order decides which missing name the validator reports (index.ts:40-42).

## Model

| member | source | states |
|---|---|---|
| `Columns.Attach` | index.ts:25-34 | only the `list` key is written: a missing `components` becomes `{list}`, and existing keys other than `list` keep their values; `list` is the binding with the editor file, the instance id and the column's own name |
| `Columns.MessageNamesColumn` | index.ts:21-23 | both error messages contain the column name; the unknown-column message also contains the resource label (index.ts:42) |
| `Columns.Message` | index.ts:22 | the exact texts of the two thrown errors (index.ts:22, index.ts:42): each starts with `Column ` followed by the column name, and the unknown-column text ends with the resource label |
| `Augmenter.Step` | index.ts:25-34 | one pass of the `forEach` body with no conflict: a picked column gets the `list` binding with its own name, the id and the file; any other column is unchanged; the name never changes |
| `Augmenter.Augment` | index.ts:16-35 | the augmenter on column values, in column order, stopping at the first conflict; the column list keeps its length |
| `Augmenter.FirstConflict` | index.ts:20-23 | the first picked column that already has a list component: it conflicts and no column before it does |
| `Augmenter.AugmentPartialUpdate` | index.ts:16-35 | closed form: the outcome is the duplicate-list error for the first conflicting column, or success when there is none; columns before that point are updated, the rest are unchanged |
| `Augmenter.KeepsNames` | index.ts:16-35 | augmentation never adds, removes, reorders or renames a column |
| `Augmenter.SucceedsIff` | index.ts:20-23 | augmentation succeeds if and only if no picked column already has a list component |
| `Augmenter.SuccessBindsTargets` | index.ts:16-34 | after success every picked column has `list` set to the binding with its own name, the plugin instance id and the editor file, and every other column is unchanged |
| `Augmenter.LeavesUntargeted` | index.ts:16-18 | a column whose name is not configured is unchanged, even when augmentation fails |
| `Augmenter.FailureIsPartial` | index.ts:20-23 | on failure the error names the first conflicting column; picked columns before it already have the binding; it and all later columns keep their prior state |
| `Augmenter.AugmentTwiceFails` | index.ts:21-28 | once any column is picked, running the augmenter again on its result always fails |
| `Validator.Find` | index.ts:41 | `find` by name: `None` exactly when no column has the name, otherwise the first column that has it |
| `Validator.Validate` | index.ts:40-44 | the `forEach`/`find`/`throw` over the configured names: a failure is an unknown-column error with the resource label, for a configured name that no column has (first-missing in `Validator.ReportsFirstMissing`, both directions in `Validator.SucceedsIff`) |
| `Validator.FirstMissing` | index.ts:40-43 | the first configured name that no column has |
| `Validator.ReportsFirstMissing` | index.ts:40-44 | validation fails with the unknown-column error for the first missing name in configured order, carrying the resource label, or succeeds when no name is missing |
| `Validator.SucceedsIff` | index.ts:40-44 | validation succeeds if and only if every configured name is the name of some column |
| `Validator.FailureNamesColumnAndLabel` | index.ts:40-42 | a failure reports a configured name that no column has, and its message contains that name and the resource label |
| `Validator.UnaffectedByAugment` | index.ts:40-44 | augmentation does not change the validation verdict, so configured names that the augmenter skipped are still reported |
| `Plugin.ListInPlaceEditPlugin.ModifyResourceConfig` | index.ts:13-36 | updates the column objects in place; the new column states and the outcome are exactly `Augmenter.Augment` of the old states |
| `Plugin.ListInPlaceEditPlugin.ValidateConfigAfterDiscover` | index.ts:38-45 | succeeds if and only if every configured name matches a column name; on failure it reports the resource label and a configured name that no column has, and every configured name before it has a column |
| `Plugin.ListInPlaceEditPlugin.InstanceUniqueRepresentation` | index.ts:47-49 | `'single'`, whatever the options |
| `Plugin.ListInPlaceEditPlugin.constructor` | index.ts:8-11 | stores the options, as the source's constructor does, and the two host-supplied strings that the model fixes at construction |

## Left out

- `setupEndpoints` (index.ts:51-82), the `update-field` endpoint. It relays to host
  operations that are not part of this model: routing, `getRecordByPrimaryKey`,
  `updateResourceRecord` and authentication. Its own logic is building `{ [field]: value }`
  and passing on `result.error`.
- A `resourceId` that matches no resource (index.ts:59, 64). The code does not
  handle it, so there is no behaviour to state.
- `super.modifyResourceConfig`, the `AdminForthPlugin` base class and
  `this.componentPath` (index.ts:9, 14, 29) are host library code. The component
  path is an opaque string.
- The `adminforth` parameter, which this logic does not use.
- `types.ts`, which declares `PluginOptions`, is not part of this model. The options
  are taken to hold the list of configured column names.
- `modifyResourceConfig` is `async`, so its `throw` rejects a promise. The model
  returns the error as `Fail`.
- Plugin.ListInPlaceEditPlugin.ModifyResourceConfig: fuses the `filter` and the
  `forEach` into one pass over the columns. This is equivalent because the filter
  reads only names and the loop never writes one.
- Plugin.ListInPlaceEditPlugin.ModifyResourceConfig: requires the column objects
  to be distinct. Column names are unique within a resource, which implies this.
  Two columns that share one `components` object are not modelled either: each
  column's `components` is a value.
- JavaScript truthiness: `components?.list` and `!column.components` count a key
  as present when it exists. A key that holds a falsy value such as `''` or
  `null` is treated as absent.
- Concurrency of request handling, which belongs to the host.

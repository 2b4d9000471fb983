/** The parts of a resource configuration that the in-place-edit plugin reads and
    writes: a column's name and its optional `components` record, the binding the
    plugin attaches under the `list` key, and the configuration errors it raises. */
module Columns {

  datatype Option<+T> = None | Some(value: T)

  /** Metadata handed to the inline editor: the plugin instance that owns the
      binding and the column the editor edits. */
  datatype Meta = Meta(pluginInstanceId: string, columnName: string)

  /** A UI component declared for one view of a column. */
  datatype Component =
    | Binding(file: string, meta: Meta)  // a component file with metadata, the shape this plugin writes
    | Declared(path: string)             // any other component declaration made by the host configuration

  /** The `components` record of a column: view name (`list`, `show`, ...) to component. */
  type Components = map<string, Component>

  /** A column as the plugin sees it. `components` is `None` when the column has none. */
  datatype ColumnState = ColumnState(name: string, components: Option<Components>)

  const LIST_KEY: string := "list"

  /** The column already declares a component for the list view. */
  predicate HasList(c: ColumnState) {
    c.components.Some? && LIST_KEY in c.components.value
  }

  /** The effect of one successful step on a column: create `components` if it is
      missing, then write the inline-edit binding under `list` and nothing else. */
  function Attach(c: ColumnState, id: string, file: string): (r: ColumnState)
    ensures r.name == c.name
    ensures HasList(r)
    ensures r.components.value[LIST_KEY] == Binding(file, Meta(id, c.name))
    ensures c.components.None? ==> r.components.value.Keys == {LIST_KEY}
    ensures c.components.Some? ==> r.components.value.Keys == c.components.value.Keys + {LIST_KEY}
    ensures c.components.Some? ==>
      forall key :: key in c.components.value && key != LIST_KEY ==>
        r.components.value[key] == c.components.value[key]
  {
    var existing := if c.components.Some? then c.components.value else map[];
    ColumnState(c.name, Some(existing[LIST_KEY := Binding(file, Meta(id, c.name))]))
  }

  /** The two configuration errors; both abort the configuration build. */
  datatype ConfigError =
    | DuplicateListComponent(column: string)
    | UnknownColumn(column: string, resourceLabel: string)

  /** What a configuration-time hook does: finish, or throw an error. */
  datatype Outcome = Pass | Fail(error: ConfigError)

  /** The text of the thrown `Error`. */
  function Message(e: ConfigError): (m: string)
    ensures OccursAt(m, "Column ", 0) && OccursAt(m, e.column, 7)
    ensures e.UnknownColumn? ==>
      |e.resourceLabel| <= |m| && OccursAt(m, e.resourceLabel, |m| - |e.resourceLabel|)
  {
    match e
    case DuplicateListComponent(name) =>
      var m := "Column " + name + " already has a list component defined. "
        + "ListInplaceEdit plugin cannot be used on columns that already have list components.";
      assert m[7..7 + |name|] == name;
      m
    case UnknownColumn(name, resourceLabel) =>
      var m := "Column " + name + " specified in ListInplaceEdit plugin not found in resource " + resourceLabel;
      assert m[7..7 + |name|] == name;
      assert m[|m| - |resourceLabel|..] == resourceLabel;
      m
  }

  /** `t` occurs in `s` starting at position `k`. */
  predicate OccursAt(s: string, t: string, k: nat) {
    k + |t| <= |s| && s[k..k + |t|] == t
  }

  predicate Contains(s: string, t: string) {
    exists k: nat | k <= |s| :: OccursAt(s, t, k)
  }

  /** Every error message names the offending column; the unknown-column message
      also names the resource label. */
  lemma MessageNamesColumn(e: ConfigError)
    ensures Contains(Message(e), e.column)
    ensures e.UnknownColumn? ==> Contains(Message(e), e.resourceLabel)
  {
  }
}

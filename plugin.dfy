/** The plugin object and the host configuration objects it works on: columns
    whose `components` field it updates in place, and the resource holding them. */
module Plugin {
  import opened Columns
  import Augmenter
  import Validator

  datatype PluginOptions = PluginOptions(columns: seq<string>)

  /** A column definition of the resource configuration. */
  class Column {
    var name: string
    var components: Option<Components>

    constructor (name: string, components: Option<Components>)
      ensures this.name == name && this.components == components
    {
      this.name := name;
      this.components := components;
    }

    function State(): ColumnState
      reads this
    {
      ColumnState(name, components)
    }
  }

  /** A resource configuration: its label and its ordered column definitions. */
  class Resource {
    var resourceLabel: string
    var columns: seq<Column>

    constructor (resourceLabel: string, columns: seq<Column>)
      ensures this.resourceLabel == resourceLabel && this.columns == columns
    {
      this.resourceLabel := resourceLabel;
      this.columns := columns;
    }
  }

  /** The values the column objects currently hold, in column order. */
  function States(cols: seq<Column>): (r: seq<ColumnState>)
    reads cols
    ensures |r| == |cols|
    ensures forall i :: 0 <= i < |cols| ==> r[i] == cols[i].State()
  {
    seq(|cols|, i requires 0 <= i < |cols| reads cols => cols[i].State())
  }

  /** No column object appears twice (column names are unique within a resource). */
  predicate Distinct(cols: seq<Column>) {
    forall i, j :: 0 <= i < j < |cols| ==> cols[i] != cols[j]
  }

  class ListInPlaceEditPlugin {
    const options: PluginOptions
    /** The id the host's base class assigns to this plugin instance, fixed here
        when the object is built. */
    const pluginInstanceId: string
    /** What the host's `componentPath('InPlaceEdit.vue')` returns, taken as an
        opaque string fixed when the object is built. */
    const editorFile: string

    constructor (options: PluginOptions, pluginInstanceId: string, editorFile: string)
      ensures this.options == options
      ensures this.pluginInstanceId == pluginInstanceId && this.editorFile == editorFile
    {
      this.options := options;
      this.pluginInstanceId := pluginInstanceId;
      this.editorFile := editorFile;
    }

    /** Attaches the inline-edit binding to every configured column, in column
        order, and throws at the first configured column that already has a
        list component; what was attached before the throw stays. */
    method ModifyResourceConfig(resource: Resource) returns (r: Outcome)
      requires Distinct(resource.columns)
      modifies resource.columns
      ensures r == Augmenter.Augment(options.columns, pluginInstanceId, editorFile,
                                     old(States(resource.columns))).outcome
      ensures States(resource.columns) ==
              Augmenter.Augment(options.columns, pluginInstanceId, editorFile,
                                old(States(resource.columns))).columns
    {
      var cols := resource.columns;
      ghost var before := States(cols);
      ghost var k := Augmenter.FirstConflict(options.columns, before);
      Augmenter.AugmentPartialUpdate(options.columns, pluginInstanceId, editorFile, before);
      var i := 0;
      while i < |cols|
        invariant i <= k
        invariant forall j :: 0 <= j < i ==>
          cols[j].State() == Augmenter.Step(options.columns, pluginInstanceId, editorFile, before[j])
        invariant forall j :: i <= j < |cols| ==> cols[j].State() == before[j]
      {
        var column := cols[i];
        if column.name in options.columns {
          if column.components.Some? && LIST_KEY in column.components.value {
            r := Fail(DuplicateListComponent(column.name));
            return;
          }
          if column.components.None? {
            column.components := Some(map[]);
          }
          column.components := Some(column.components.value[LIST_KEY := Binding(editorFile, Meta(pluginInstanceId, column.name))]);
        }
        i := i + 1;
      }
      r := Pass;
    }

    /** Checks, after schema discovery, that every configured column exists and
        throws for the first one that does not, naming it and the resource label. */
    function ValidateConfigAfterDiscover(resource: Resource): (r: Outcome)
      reads resource, resource.columns
      ensures r.Pass? <==>
        forall name :: name in options.columns ==>
          exists i :: 0 <= i < |resource.columns| && resource.columns[i].name == name
      ensures r.Fail? ==>
        && r.error == UnknownColumn(r.error.column, resource.resourceLabel)
        && r.error.column in options.columns
        && (forall i :: 0 <= i < |resource.columns| ==> resource.columns[i].name != r.error.column)
      ensures r.Fail? ==>
        exists k :: 0 <= k < |options.columns| && options.columns[k] == r.error.column &&
          forall j :: 0 <= j < k ==>
            exists i :: 0 <= i < |resource.columns| && resource.columns[i].name == options.columns[j]
    {
      var cs := States(resource.columns);
      Validator.SucceedsIff(options.columns, cs, resource.resourceLabel);
      Validator.ReportsFirstMissing(options.columns, cs, resource.resourceLabel);
      assert forall name :: Validator.Known(cs, name) <==>
        exists i :: 0 <= i < |resource.columns| && resource.columns[i].name == name;
      Validator.Validate(options.columns, cs, resource.resourceLabel)
    }

    /** The representation the host uses to tell instances of this plugin apart:
        the same constant whatever the options. */
    function InstanceUniqueRepresentation(pluginOptions: PluginOptions): (r: string)
      ensures r == "single"
    {
      "single"
    }
  }
}

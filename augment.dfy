/** The column augmenter on values: the specification that the in-place method
    `ListInPlaceEditPlugin.ModifyResourceConfig` is proved against, and what it
    guarantees about the configured columns. */
module Augmenter {
  import opened Columns

  /** The column is selected: its name is one of the configured names. */
  predicate Targeted(targets: seq<string>, c: ColumnState) {
    c.name in targets
  }

  /** A selected column that already declares a list component. */
  predicate Conflicts(targets: seq<string>, c: ColumnState) {
    Targeted(targets, c) && HasList(c)
  }

  /** What a non-conflicting pass does to one column. */
  function Step(targets: seq<string>, id: string, file: string, c: ColumnState): (r: ColumnState)
    ensures r.name == c.name
    ensures !Targeted(targets, c) ==> r == c
    ensures Targeted(targets, c) ==> HasList(r) && r.components.value[LIST_KEY] == Binding(file, Meta(id, c.name))
  {
    if Targeted(targets, c) then Attach(c, id, file) else c
  }

  datatype Augmented = Augmented(outcome: Outcome, columns: seq<ColumnState>)

  /** The augmenter in column order: selected columns receive the binding one
      after another, and the first selected column that already has a list
      component throws, leaving the columns before it updated and itself and the
      rest as they were. */
  function Augment(targets: seq<string>, id: string, file: string, cs: seq<ColumnState>): (r: Augmented)
    ensures |r.columns| == |cs|
  {
    if cs == [] then Augmented(Pass, [])
    else if Conflicts(targets, cs[0]) then Augmented(Fail(DuplicateListComponent(cs[0].name)), cs)
    else
      var rest := Augment(targets, id, file, cs[1..]);
      Augmented(rest.outcome, [Step(targets, id, file, cs[0])] + rest.columns)
  }

  /** The position of the first conflicting column, or |cs| when there is none. */
  function FirstConflict(targets: seq<string>, cs: seq<ColumnState>): (k: nat)
    ensures k <= |cs|
    ensures k < |cs| ==> Conflicts(targets, cs[k])
    ensures forall j :: 0 <= j < k ==> !Conflicts(targets, cs[j])
  {
    if cs == [] then 0
    else if Conflicts(targets, cs[0]) then 0
    else 1 + FirstConflict(targets, cs[1..])
  }

  /** Closed form of the augmenter: it fails exactly at the first conflict, the
      columns before it have been stepped and the others are untouched. */
  lemma {:induction false} AugmentPartialUpdate(targets: seq<string>, id: string, file: string, cs: seq<ColumnState>)
    ensures var k := FirstConflict(targets, cs);
      Augment(targets, id, file, cs).outcome ==
        (if k < |cs| then Fail(DuplicateListComponent(cs[k].name)) else Pass)
    ensures var k := FirstConflict(targets, cs);
      forall i :: 0 <= i < |cs| ==>
        Augment(targets, id, file, cs).columns[i] ==
          (if i < k then Step(targets, id, file, cs[i]) else cs[i])
  {
    if cs != [] && !Conflicts(targets, cs[0]) {
      AugmentPartialUpdate(targets, id, file, cs[1..]);
      var r := Augment(targets, id, file, cs);
      var rest := Augment(targets, id, file, cs[1..]);
      assert r.columns == [Step(targets, id, file, cs[0])] + rest.columns;
      forall i | 1 <= i < |cs|
        ensures r.columns[i] == rest.columns[i - 1]
      {
      }
    }
  }

  /** The augmenter never adds, removes or reorders columns, and never renames one. */
  lemma {:induction false} KeepsNames(targets: seq<string>, id: string, file: string, cs: seq<ColumnState>)
    ensures var r := Augment(targets, id, file, cs);
      |r.columns| == |cs| && forall i :: 0 <= i < |cs| ==> r.columns[i].name == cs[i].name
  {
    AugmentPartialUpdate(targets, id, file, cs);
  }

  /** Augmentation succeeds if and only if no selected column already has a list component. */
  lemma {:induction false} SucceedsIff(targets: seq<string>, id: string, file: string, cs: seq<ColumnState>)
    ensures Augment(targets, id, file, cs).outcome.Pass? <==>
      forall i :: 0 <= i < |cs| ==> !Conflicts(targets, cs[i])
  {
    AugmentPartialUpdate(targets, id, file, cs);
  }

  /** After a successful augmentation every selected column carries the inline-edit
      binding with its own name and the plugin instance id, its other components are
      kept, and every other column is as it was. */
  lemma {:induction false} SuccessBindsTargets(targets: seq<string>, id: string, file: string, cs: seq<ColumnState>)
    requires Augment(targets, id, file, cs).outcome.Pass?
    ensures var r := Augment(targets, id, file, cs);
      forall i :: 0 <= i < |cs| && Targeted(targets, cs[i]) ==>
        r.columns[i] == Attach(cs[i], id, file) &&
        r.columns[i].components.value[LIST_KEY] == Binding(file, Meta(id, cs[i].name))
    ensures var r := Augment(targets, id, file, cs);
      forall i :: 0 <= i < |cs| && !Targeted(targets, cs[i]) ==> r.columns[i] == cs[i]
  {
    AugmentPartialUpdate(targets, id, file, cs);
  }

  /** Columns whose names are not configured are untouched, whether or not the
      augmentation fails. */
  lemma {:induction false} LeavesUntargeted(targets: seq<string>, id: string, file: string, cs: seq<ColumnState>, i: nat)
    requires i < |cs| && !Targeted(targets, cs[i])
    ensures Augment(targets, id, file, cs).columns[i] == cs[i]
  {
    AugmentPartialUpdate(targets, id, file, cs);
  }

  /** A failing augmentation names the first conflicting column; the selected
      columns before it already carry the binding, and it and every later column
      keep their prior state. */
  lemma {:induction false} FailureIsPartial(targets: seq<string>, id: string, file: string, cs: seq<ColumnState>)
    requires Augment(targets, id, file, cs).outcome.Fail?
    ensures var r := Augment(targets, id, file, cs); var k := FirstConflict(targets, cs);
      && k < |cs|
      && Conflicts(targets, cs[k])
      && r.outcome.error == DuplicateListComponent(cs[k].name)
      && (forall j :: 0 <= j < k && Targeted(targets, cs[j]) ==> r.columns[j] == Attach(cs[j], id, file))
      && r.columns[k..] == cs[k..]
  {
    AugmentPartialUpdate(targets, id, file, cs);
    var r := Augment(targets, id, file, cs);
    var k := FirstConflict(targets, cs);
    assert r.columns[k..] == cs[k..] by {
      forall j | 0 <= j < |cs| - k ensures r.columns[k..][j] == cs[k..][j] {
        assert r.columns[k + j] == cs[k + j];
      }
    }
  }

  /** Augmentation is not idempotent: once some selected column exists, running
      the augmenter again on its result always fails. */
  lemma {:induction false} AugmentTwiceFails(targets: seq<string>, id: string, file: string, cs: seq<ColumnState>, i: nat)
    requires i < |cs| && Targeted(targets, cs[i])
    ensures var once := Augment(targets, id, file, cs).columns;
      Augment(targets, id, file, once).outcome.Fail?
  {
    AugmentPartialUpdate(targets, id, file, cs);
    var once := Augment(targets, id, file, cs).columns;
    var k := FirstConflict(targets, cs);
    var j := if i < k then i else k;
    assert Conflicts(targets, once[j]);
    SucceedsIff(targets, id, file, once);
  }
}

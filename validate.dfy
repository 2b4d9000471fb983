/** The column validator that runs after schema discovery: every configured
    column name must be the name of some column of the resource. */
module Validator {
  import opened Columns
  import Augmenter

  /** Some column of the resource has this name. */
  predicate Known(cs: seq<ColumnState>, name: string) {
    exists i :: 0 <= i < |cs| && cs[i].name == name
  }

  /** The first column with the given name, as an array `find` returns it. */
  function Find(cs: seq<ColumnState>, name: string): (r: Option<ColumnState>)
    ensures r.None? <==> !Known(cs, name)
    ensures r.Some? ==> r.value.name == name
    ensures r.Some? ==>
      exists i :: 0 <= i < |cs| && cs[i] == r.value && (forall j :: 0 <= j < i ==> cs[j].name != name)
  {
    if cs == [] then None
    else if cs[0].name == name then Some(cs[0])
    else
      var r := Find(cs[1..], name);
      assert Known(cs[1..], name) ==> Known(cs, name);
      r
  }

  /** The configured names in order; the first one `Find` misses throws,
      naming that column and the resource label. */
  function Validate(configured: seq<string>, cs: seq<ColumnState>, resourceLabel: string): (r: Outcome)
    ensures r.Fail? ==> r.error.UnknownColumn? && r.error.resourceLabel == resourceLabel
    ensures r.Fail? ==> r.error.column in configured && !Known(cs, r.error.column)
  {
    if configured == [] then Pass
    else if Find(cs, configured[0]).None? then Fail(UnknownColumn(configured[0], resourceLabel))
    else Validate(configured[1..], cs, resourceLabel)
  }

  /** The position of the first configured name with no column, or |configured|. */
  function FirstMissing(configured: seq<string>, cs: seq<ColumnState>): (k: nat)
    ensures k <= |configured|
    ensures k < |configured| ==> !Known(cs, configured[k])
    ensures forall j :: 0 <= j < k ==> Known(cs, configured[j])
  {
    if configured == [] then 0
    else if !Known(cs, configured[0]) then 0
    else 1 + FirstMissing(configured[1..], cs)
  }

  /** Closed form of the validator: it reports exactly the first missing name. */
  lemma {:induction false} ReportsFirstMissing(configured: seq<string>, cs: seq<ColumnState>, resourceLabel: string)
    ensures var k := FirstMissing(configured, cs);
      Validate(configured, cs, resourceLabel) ==
        (if k < |configured| then Fail(UnknownColumn(configured[k], resourceLabel)) else Pass)
  {
    if configured != [] && Known(cs, configured[0]) {
      ReportsFirstMissing(configured[1..], cs, resourceLabel);
    }
  }

  /** Validation succeeds if and only if every configured name is a column name. */
  lemma {:induction false} SucceedsIff(configured: seq<string>, cs: seq<ColumnState>, resourceLabel: string)
    ensures Validate(configured, cs, resourceLabel).Pass? <==>
      forall name :: name in configured ==> Known(cs, name)
  {
    ReportsFirstMissing(configured, cs, resourceLabel);
    var k := FirstMissing(configured, cs);
    if k < |configured| {
      assert configured[k] in configured;
    }
  }

  /** A failure is an unknown-column error whose message names a configured name
      that has no column, and the resource label. */
  lemma FailureNamesColumnAndLabel(configured: seq<string>, cs: seq<ColumnState>, resourceLabel: string)
    requires Validate(configured, cs, resourceLabel).Fail?
    ensures var e := Validate(configured, cs, resourceLabel).error;
      && e.UnknownColumn?
      && e.column in configured
      && !Known(cs, e.column)
      && e.resourceLabel == resourceLabel
      && Contains(Message(e), e.column)
      && Contains(Message(e), resourceLabel)
  {
    ReportsFirstMissing(configured, cs, resourceLabel);
    MessageNamesColumn(Validate(configured, cs, resourceLabel).error);
  }

  /** Augmentation does not change what validation decides: names the augmenter
      ignored because no column had them are still reported here. */
  lemma {:induction false} UnaffectedByAugment(targets: seq<string>, id: string, file: string,
                            configured: seq<string>, cs: seq<ColumnState>, resourceLabel: string)
    ensures Validate(configured, Augmenter.Augment(targets, id, file, cs).columns, resourceLabel) ==
            Validate(configured, cs, resourceLabel)
  {
    var after := Augmenter.Augment(targets, id, file, cs).columns;
    Augmenter.KeepsNames(targets, id, file, cs);
    forall name
      ensures Known(after, name) <==> Known(cs, name)
    {
      if Known(cs, name) {
        var i :| 0 <= i < |cs| && cs[i].name == name;
        assert after[i].name == name;
      }
      if Known(after, name) {
        var i :| 0 <= i < |after| && after[i].name == name;
        assert cs[i].name == name;
      }
    }
    ReportsFirstMissing(configured, cs, resourceLabel);
    ReportsFirstMissing(configured, after, resourceLabel);
    assert FirstMissing(configured, cs) == FirstMissing(configured, after);
  }
}

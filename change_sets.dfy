/** `organize_changes_by_file`: the simple (non-complex) settings whose key path has a widget,
    grouped by target file into `{file: [{key_path, value}, ...]}`. */
module ChangeSets {
  import opened Outcomes
  import opened Dicts
  import opened JsonValues
  import opened Schemas
  import opened Widgets

  datatype Change = Change(keyPath: string, value: Json)

  /** Target file (relative path) to its changes in schema order. */
  type FileChanges = Dict<seq<Change>>

  /** The change a setting contributes: none for a complex setting or for a key path without a
      widget, otherwise the widget's current value under the setting's key path. */
  function Contribution(s: Setting, widgets: Dict<Widget>): Option<Change> {
    if !s.complex && s.keyPath in Keys(widgets) then
      Some(Change(s.keyPath, Get(widgets, s.keyPath).value.CurrentValue()))
    else None
  }

  /** One pass of the innermost loop body. */
  function AddSetting(fc: FileChanges, s: Setting, widgets: Dict<Widget>): FileChanges {
    match Contribution(s, widgets)
    case None => fc
    case Some(c) => Put(fc, s.file, GetOr(fc, s.file, []) + [c])
  }

  function OrganizeFrom(fc: FileChanges, ss: seq<Setting>, widgets: Dict<Widget>): FileChanges
    decreases |ss|
  {
    if ss == [] then fc else OrganizeFrom(AddSetting(fc, ss[0], widgets), ss[1..], widgets)
  }

  /** The change set built from the settings `ss`, visited in order, starting from `{}`. */
  function Organize(ss: seq<Setting>, widgets: Dict<Widget>): FileChanges {
    OrganizeFrom([], ss, widgets)
  }

  lemma OrganizeFromCons(fc: FileChanges, s: Setting, rest: seq<Setting>, widgets: Dict<Widget>)
    ensures OrganizeFrom(fc, [s] + rest, widgets) == OrganizeFrom(AddSetting(fc, s, widgets), rest, widgets)
  {
    assert ([s] + rest)[1..] == rest;
  }

  /** Visiting two runs of settings one after the other is visiting their concatenation. */
  lemma {:induction false} OrganizeFromAppend(fc: FileChanges, a: seq<Setting>, b: seq<Setting>, widgets: Dict<Widget>)
    ensures OrganizeFrom(fc, a + b, widgets) == OrganizeFrom(OrganizeFrom(fc, a, widgets), b, widgets)
    decreases |a|
  {
    if a == [] {
      assert a + b == b;
    } else {
      assert (a + b)[0] == a[0] && (a + b)[1..] == a[1..] + b;
      OrganizeFromAppend(AddSetting(fc, a[0], widgets), a[1..], b, widgets);
    }
  }

  /** The reference definition: the changes for `file`, setting by setting, in order. */
  function ChangesFor(ss: seq<Setting>, widgets: Dict<Widget>, file: string): seq<Change> {
    if ss == [] then []
    else
      var c := Contribution(ss[0], widgets);
      (if c.Some? && ss[0].file == file then [c.value] else []) + ChangesFor(ss[1..], widgets, file)
  }

  /** The target files of the contributing settings, in order, with repeats. */
  function ContributingFiles(ss: seq<Setting>, widgets: Dict<Widget>): seq<string> {
    if ss == [] then []
    else (if Contribution(ss[0], widgets).Some? then [ss[0].file] else []) + ContributingFiles(ss[1..], widgets)
  }

  /** The first occurrence of every element of `xs` not already in `seen`, in order. */
  function FirstOccurrences(xs: seq<string>, seen: seq<string>): seq<string> {
    if xs == [] then []
    else if xs[0] in seen then FirstOccurrences(xs[1..], seen)
    else [xs[0]] + FirstOccurrences(xs[1..], seen + [xs[0]])
  }

  lemma OrganizeFromGet(fc: FileChanges, ss: seq<Setting>, widgets: Dict<Widget>, file: string)
    ensures GetOr(OrganizeFrom(fc, ss, widgets), file, []) == GetOr(fc, file, []) + ChangesFor(ss, widgets, file)
    ensures file in Keys(OrganizeFrom(fc, ss, widgets)) <==> file in Keys(fc) || ChangesFor(ss, widgets, file) != []
  {
    OrganizeFromList(fc, ss, widgets, file);
    OrganizeFromHasFile(fc, ss, widgets, file);
  }

  /** A file's list gains exactly its settings' changes, in order. */
  lemma {:induction false} OrganizeFromList(fc: FileChanges, ss: seq<Setting>, widgets: Dict<Widget>, file: string)
    ensures GetOr(OrganizeFrom(fc, ss, widgets), file, []) == GetOr(fc, file, []) + ChangesFor(ss, widgets, file)
    decreases |ss|
  {
    if ss != [] {
      var fc' := AddSetting(fc, ss[0], widgets);
      var c := Contribution(ss[0], widgets);
      var mine := if c.Some? && ss[0].file == file then [c.value] else [];
      var rest := ChangesFor(ss[1..], widgets, file);
      assert GetOr(OrganizeFrom(fc', ss[1..], widgets), file, []) == GetOr(fc', file, []) + rest by {
        OrganizeFromList(fc', ss[1..], widgets, file);
      }
      assert GetOr(fc', file, []) == GetOr(fc, file, []) + mine by {
        AddSettingGet(fc, ss[0], widgets, file);
      }
      assert ChangesFor(ss, widgets, file) == mine + rest;
      ConcatAssoc(GetOr(fc, file, []), mine, rest);
    }
  }


  /** A file is in the change set exactly when it was before or gains a change. */
  lemma {:induction false} OrganizeFromHasFile(fc: FileChanges, ss: seq<Setting>, widgets: Dict<Widget>, file: string)
    ensures file in Keys(OrganizeFrom(fc, ss, widgets)) <==> file in Keys(fc) || ChangesFor(ss, widgets, file) != []
    decreases |ss|
  {
    if ss != [] {
      var fc' := AddSetting(fc, ss[0], widgets);
      var c := Contribution(ss[0], widgets);
      var mine := if c.Some? && ss[0].file == file then [c.value] else [];
      var rest := ChangesFor(ss[1..], widgets, file);
      assert file in Keys(OrganizeFrom(fc', ss[1..], widgets)) <==> file in Keys(fc') || rest != [] by {
        OrganizeFromHasFile(fc', ss[1..], widgets, file);
      }
      assert file in Keys(fc') <==> file in Keys(fc) || mine != [] by {
        AddSettingGet(fc, ss[0], widgets, file);
      }
      assert ChangesFor(ss, widgets, file) == mine + rest;
    }
  }

  /** One pass of the loop body appends the setting's change to its own file's list only. */
  lemma AddSettingGet(fc: FileChanges, s: Setting, widgets: Dict<Widget>, file: string)
    ensures var c := Contribution(s, widgets);
            var mine := if c.Some? && s.file == file then [c.value] else [];
            && GetOr(AddSetting(fc, s, widgets), file, []) == GetOr(fc, file, []) + mine
            && (file in Keys(AddSetting(fc, s, widgets)) <==> file in Keys(fc) || mine != [])
  {
    var c := Contribution(s, widgets);
    if !(c.Some? && s.file == file) {
      assert GetOr(fc, file, []) + [] == GetOr(fc, file, []);
    }
  }

  lemma AddSettingKeys(fc: FileChanges, s: Setting, widgets: Dict<Widget>)
    ensures Keys(AddSetting(fc, s, widgets))
         == if Contribution(s, widgets).Some? && s.file !in Keys(fc) then Keys(fc) + [s.file] else Keys(fc)
  {
  }

  lemma {:induction false} OrganizeFromKeys(fc: FileChanges, ss: seq<Setting>, widgets: Dict<Widget>)
    ensures Keys(OrganizeFrom(fc, ss, widgets)) == Keys(fc) + FirstOccurrences(ContributingFiles(ss, widgets), Keys(fc))
    decreases |ss|
  {
    if ss == [] {
      assert Keys(fc) + [] == Keys(fc);
    } else {
      var fc' := AddSetting(fc, ss[0], widgets);
      OrganizeFromKeys(fc', ss[1..], widgets);
      AddSettingKeys(fc, ss[0], widgets);
      OrganizeFromKeysStep(fc, ss, widgets, Keys(fc), Keys(fc'), ContributingFiles(ss[1..], widgets));
    }
  }

  lemma OrganizeFromKeysStep(fc: FileChanges, ss: seq<Setting>, widgets: Dict<Widget>, a: seq<string>, b: seq<string>, rest: seq<string>)
    requires ss != [] && a == Keys(fc) && rest == ContributingFiles(ss[1..], widgets)
    requires b == if Contribution(ss[0], widgets).Some? && ss[0].file !in a then a + [ss[0].file] else a
    requires Keys(OrganizeFrom(AddSetting(fc, ss[0], widgets), ss[1..], widgets)) == b + FirstOccurrences(rest, b)
    ensures Keys(OrganizeFrom(fc, ss, widgets)) == a + FirstOccurrences(ContributingFiles(ss, widgets), a)
  {
    var contributes := Contribution(ss[0], widgets).Some?;
    assert ContributingFiles(ss, widgets) == (if contributes then [ss[0].file] else []) + rest;
    FirstOccurrencesStep(a, ss[0].file, rest, contributes);
  }

  /** One step of the file order: a contributing file is recorded unless already seen. */
  lemma FirstOccurrencesStep(a: seq<string>, f: string, rest: seq<string>, contributes: bool)
    ensures var b := if contributes && f !in a then a + [f] else a;
            b + FirstOccurrences(rest, b) == a + FirstOccurrences((if contributes then [f] else []) + rest, a)
  {
    if contributes {
      FirstOccurrencesCons(f, rest, a);
      if f !in a {
        assert a + [f] + FirstOccurrences(rest, a + [f]) == a + ([f] + FirstOccurrences(rest, a + [f]));
      }
    } else {
      assert [] + rest == rest;
    }
  }

  lemma FirstOccurrencesCons(x: string, xs: seq<string>, seen: seq<string>)
    ensures FirstOccurrences([x] + xs, seen)
         == if x in seen then FirstOccurrences(xs, seen) else [x] + FirstOccurrences(xs, seen + [x])
  {
    assert ([x] + xs)[1..] == xs;
  }

  /** The change list a file gets is exactly its settings' changes in schema order, and a file
      appears in the change set if and only if it gets at least one change. */
  lemma OrganizeByFile(ss: seq<Setting>, widgets: Dict<Widget>, file: string)
    ensures Get(Organize(ss, widgets), file)
         == if ChangesFor(ss, widgets, file) == [] then None else Some(ChangesFor(ss, widgets, file))
  {
    OrganizeFromGet([], ss, widgets, file);
    assert GetOr([], file, []) + ChangesFor(ss, widgets, file) == ChangesFor(ss, widgets, file);
  }

  /** Files appear in the change set in the order of their first contributing setting, once each. */
  lemma OrganizeFileOrder(ss: seq<Setting>, widgets: Dict<Widget>)
    ensures Keys(Organize(ss, widgets)) == FirstOccurrences(ContributingFiles(ss, widgets), [])
  {
    OrganizeFromKeys([], ss, widgets);
  }

  /** Every change in the change set comes from a non-complex setting for that file whose key
      path has a widget, and carries that widget's current value. */
  lemma {:induction false} ChangesAreSimpleAndPresent(ss: seq<Setting>, widgets: Dict<Widget>, file: string, c: Change)
    requires c in ChangesFor(ss, widgets, file)
    ensures c.keyPath in Keys(widgets)
    ensures c.value == Get(widgets, c.keyPath).value.CurrentValue()
    ensures exists s :: s in ss && !s.complex && s.file == file && s.keyPath == c.keyPath
  {
    var head := Contribution(ss[0], widgets);
    if head.Some? && ss[0].file == file && c == head.value {
      assert ss[0] in ss;
    } else {
      ChangesAreSimpleAndPresent(ss[1..], widgets, file, c);
      var s :| s in ss[1..] && !s.complex && s.file == file && s.keyPath == c.keyPath;
      assert s in ss;
    }
  }

  /** Creating the file's list when it is missing and then appending to it is appending to
      the list the file had, or to an empty one. */
  lemma AppendChange(fc: FileChanges, f: string, c: Change)
    ensures var fc0 := if f in Keys(fc) then fc else Put(fc, f, []);
            Put(fc0, f, Get(fc0, f).value + [c]) == Put(fc, f, GetOr(fc, f, []) + [c])
  {
    if f in Keys(fc) {
      assert Get(fc, f).value == GetOr(fc, f, []);
    } else {
      var fc0 := Put(fc, f, []);
      assert Get(fc0, f) == Some([]);
      assert GetOr(fc, f, []) == [];
      assert [] + [c] == [c];
      PutPut(fc, f, [], [c]);
    }
  }

  /** The innermost loop body: a simple setting whose key path has a widget appends its
      change to its file's list, creating the list first when the file is new. */
  method AddOneSetting(fileChanges0: FileChanges, setting: Setting, widgets: Dict<Widget>)
    returns (fileChanges: FileChanges)
    ensures fileChanges == AddSetting(fileChanges0, setting, widgets)
  {
    fileChanges := fileChanges0;
    if !setting.complex {
      var keyPath := setting.keyPath;
      var filePath := setting.file;
      if keyPath in Keys(widgets) {
        if filePath !in Keys(fileChanges) {
          fileChanges := Put(fileChanges, filePath, []);
        }
        var value := Get(widgets, keyPath).value.CurrentValue();
        fileChanges := Put(fileChanges, filePath, Get(fileChanges, filePath).value + [Change(keyPath, value)]);
        AppendChange(fileChanges0, filePath, Change(keyPath, value));
      }
    }
  }

  /** The innermost loop of `organize_changes_by_file`: the settings of one group, in order. */
  method AddGroupSettings(fileChanges0: FileChanges, settings: seq<Setting>, widgets: Dict<Widget>)
    returns (fileChanges: FileChanges)
    ensures fileChanges == OrganizeFrom(fileChanges0, settings, widgets)
  {
    fileChanges := fileChanges0;
    var k := 0;
    while k < |settings|
      invariant 0 <= k <= |settings|
      invariant OrganizeFrom(fileChanges0, settings, widgets) == OrganizeFrom(fileChanges, settings[k..], widgets)
    {
      ghost var before := fileChanges;
      fileChanges := AddOneSetting(fileChanges, settings[k], widgets);
      assert settings[k..] == [settings[k]] + settings[k + 1..];
      OrganizeFromCons(before, settings[k], settings[k + 1..], widgets);
      k := k + 1;
    }
  }

  /** The middle loop of `organize_changes_by_file`: the groups of one tab, in order. */
  method AddTabGroups(fileChanges0: FileChanges, groups: Dict<Group>, widgets: Dict<Widget>)
    returns (fileChanges: FileChanges)
    ensures fileChanges == OrganizeFrom(fileChanges0, GroupsTraversal(groups), widgets)
  {
    fileChanges := fileChanges0;
    var j := 0;
    assert groups[0..] == groups;
    while j < |groups|
      invariant 0 <= j <= |groups|
      invariant OrganizeFrom(fileChanges0, GroupsTraversal(groups), widgets)
             == OrganizeFrom(fileChanges, GroupsTraversal(groups[j..]), widgets)
    {
      var settings := groups[j].1.settings;
      GroupsTraversalAt(groups, j);
      ghost var before := fileChanges;
      fileChanges := AddGroupSettings(fileChanges, settings, widgets);
      OrganizeFromAppend(before, settings, GroupsTraversal(groups[j + 1..]), widgets);
      j := j + 1;
    }
  }

  /** `organize_changes_by_file(settings, schema)`: every tab, every group, every setting. */
  method OrganizeChangesByFile(widgets: Dict<Widget>, schema: Schema) returns (fileChanges: FileChanges)
    ensures fileChanges == Organize(Traversal(schema), widgets)
  {
    var tabs := schema.tabs;
    fileChanges := [];
    var i := 0;
    assert tabs[0..] == tabs;
    while i < |tabs|
      invariant 0 <= i <= |tabs|
      invariant Organize(Traversal(schema), widgets) == OrganizeFrom(fileChanges, TabsTraversal(tabs[i..]), widgets)
    {
      TabsTraversalAt(tabs, i);
      ghost var before := fileChanges;
      fileChanges := AddTabGroups(fileChanges, tabs[i].1.groups, widgets);
      OrganizeFromAppend(before, GroupsTraversal(tabs[i].1.groups), TabsTraversal(tabs[i + 1..]), widgets);
      i := i + 1;
    }
  }
}

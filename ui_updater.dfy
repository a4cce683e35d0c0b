/** `UIUpdater`: the form's widget cells, keyed by setting path, filled with the schema's
    defaults, read back as a change dict, and refilled from a preset.  A key the form has
    no cell for is skipped, and a cell that is neither an Entry nor a BooleanVar is never
    written or read. */
module UiUpdater {
  import opened Outcomes
  import opened Dicts
  import opened JsonValues
  import opened Schemas
  import opened Widgets
  import opened ConfigManager

  /** Writes `v` into the cell at `k` when the form has one. */
  function Assign(widgets: Dict<Widget>, k: string, v: Json): (r: Dict<Widget>)
    ensures Keys(r) == Keys(widgets)
    ensures Get(r, k) == if k in Keys(widgets) then Some(Get(widgets, k).value.WithValue(v)) else None
    ensures forall k' :: k' != k ==> Get(r, k') == Get(widgets, k')
  {
    if k in Keys(widgets) then Put(widgets, k, Get(widgets, k).value.WithValue(v)) else widgets
  }

  /** `for key_path, new_value in changes.items()`, writing each value in turn. */
  function PresetInto(widgets: Dict<Widget>, changes: Dict<Json>): Dict<Widget>
    decreases |changes|
  {
    if changes == [] then widgets
    else PresetInto(Assign(widgets, changes[0].0, changes[0].1), changes[1..])
  }

  /** The (key path, default) pairs of some settings, in order; a setting without a default
      contributes None. */
  function DefaultPairs(settings: seq<Setting>): (r: Dict<Json>)
    ensures |r| == |settings|
    ensures forall i :: 0 <= i < |settings| ==> r[i] == (settings[i].keyPath, settings[i].default)
  {
    if settings == [] then [] else [(settings[0].keyPath, settings[0].default)] + DefaultPairs(settings[1..])
  }

  /** The cells after `initialize_with_defaults`: every setting of the schema, in traversal
      order, writes its default into its cell. */
  function Defaults(widgets: Dict<Widget>, schema: Schema): Dict<Widget> {
    PresetInto(widgets, DefaultPairs(Traversal(schema)))
  }

  /** `for key_path, widget in settings.items()` collecting `widget.get()` of every Entry and
      BooleanVar into `changes`. */
  function CaptureInto(changes: Dict<Json>, widgets: Dict<Widget>): Dict<Json>
    decreases |widgets|
  {
    if widgets == [] then changes
    else
      var (k, w) := widgets[0];
      CaptureInto(if w.IsEntryOrBooleanVar() then Put(changes, k, w.CurrentValue()) else changes, widgets[1..])
  }

  /** `capture_ui_state(settings)`. */
  function Capture(widgets: Dict<Widget>): Dict<Json> {
    CaptureInto([], widgets)
  }

  /** The Python dict passed in as `settings`; the three operations write into its cells. */
  class WidgetForm {
    var widgets: Dict<Widget>

    constructor(widgets0: Dict<Widget>)
      ensures widgets == widgets0
    {
      widgets := widgets0;
    }

    /** Writes a cell, or skips a key the form does not have (`if key_path in settings`). */
    method Fill(k: string, v: Json)
      modifies this
      ensures widgets == Assign(old(widgets), k, v)
    {
      var cell := Get(widgets, k);
      if cell.Some? {
        widgets := Put(widgets, k, cell.value.WithValue(v));
      }
    }

    /** `for setting in group_data['settings']`: the innermost loop of
        `initialize_with_defaults`. */
    method FillGroupDefaults(settings: seq<Setting>)
      modifies this
      ensures widgets == PresetInto(old(widgets), DefaultPairs(settings))
    {
      var j := 0;
      while j < |settings|
        invariant 0 <= j <= |settings|
        invariant PresetInto(widgets, DefaultPairs(settings[j..])) == PresetInto(old(widgets), DefaultPairs(settings))
      {
        assert settings[j..] == [settings[j]] + settings[j + 1..];
        var setting := settings[j];
        Fill(setting.keyPath, setting.default);
        j := j + 1;
      }
    }

    /** `for group_data in tab_data['groups'].values()`. */
    method FillTabDefaults(groups: Dict<Group>)
      modifies this
      ensures widgets == PresetInto(old(widgets), DefaultPairs(GroupsTraversal(groups)))
    {
      var j := 0;
      while j < |groups|
        invariant 0 <= j <= |groups|
        invariant PresetInto(widgets, DefaultPairs(GroupsTraversal(groups[j..])))
               == PresetInto(old(widgets), DefaultPairs(GroupsTraversal(groups)))
      {
        var before := widgets;
        FillGroupDefaults(groups[j].1.settings);
        GroupsTraversalAt(groups, j);
        PresetDefaultsAppend(before, groups[j].1.settings, GroupsTraversal(groups[j + 1..]));
        j := j + 1;
      }
    }

    /** `initialize_with_defaults(settings)`, with the schema `get_schema()` returns. */
    method InitializeWithDefaults(m: Manager)
      modifies this
      ensures widgets == Defaults(old(widgets), m.schema)
    {
      var tabs := m.schema.tabs;
      var i := 0;
      while i < |tabs|
        invariant 0 <= i <= |tabs|
        invariant PresetInto(widgets, DefaultPairs(TabsTraversal(tabs[i..])))
               == PresetInto(old(widgets), DefaultPairs(TabsTraversal(tabs)))
      {
        var before := widgets;
        FillTabDefaults(tabs[i].1.groups);
        TabsTraversalAt(tabs, i);
        PresetDefaultsAppend(before, GroupsTraversal(tabs[i].1.groups), TabsTraversal(tabs[i + 1..]));
        i := i + 1;
      }
    }

    /** `capture_ui_state(settings)`. */
    method CaptureUiState() returns (changes: Dict<Json>)
      ensures changes == Capture(widgets)
    {
      changes := [];
      var i := 0;
      while i < |widgets|
        invariant 0 <= i <= |widgets|
        invariant CaptureInto(changes, widgets[i..]) == Capture(widgets)
      {
        assert widgets[i..][0] == widgets[i] && widgets[i..][1..] == widgets[i + 1..];
        var (keyPath, widget) := widgets[i];
        if widget.Entry? {
          changes := Put(changes, keyPath, widget.CurrentValue());
        } else if widget.BooleanVar? {
          changes := Put(changes, keyPath, widget.CurrentValue());
        }
        i := i + 1;
      }
    }

    /** `update_ui_with_preset(settings, changes)`. */
    method UpdateUiWithPreset(changes: Dict<Json>)
      modifies this
      ensures widgets == PresetInto(old(widgets), changes)
    {
      var i := 0;
      while i < |changes|
        invariant 0 <= i <= |changes|
        invariant PresetInto(widgets, changes[i..]) == PresetInto(old(widgets), changes)
      {
        assert changes[i..][0] == changes[i] && changes[i..][1..] == changes[i + 1..];
        var (keyPath, newValue) := changes[i];
        Fill(keyPath, newValue);
        i := i + 1;
      }
    }
  }

  lemma {:induction false} PresetIntoAppend(widgets: Dict<Widget>, a: Dict<Json>, b: Dict<Json>)
    ensures PresetInto(widgets, a + b) == PresetInto(PresetInto(widgets, a), b)
    decreases |a|
  {
    if a == [] {
      assert a + b == b;
    } else {
      assert (a + b)[0] == a[0] && (a + b)[1..] == a[1..] + b;
      PresetIntoAppend(Assign(widgets, a[0].0, a[0].1), a[1..], b);
    }
  }

  /** Filling the defaults of two runs of settings one after the other is filling those of
      the whole run. */
  lemma PresetDefaultsAppend(widgets: Dict<Widget>, a: seq<Setting>, b: seq<Setting>)
    ensures PresetInto(PresetInto(widgets, DefaultPairs(a)), DefaultPairs(b)) == PresetInto(widgets, DefaultPairs(a + b))
  {
    DefaultPairsAppend(a, b);
    PresetIntoAppend(widgets, DefaultPairs(a), DefaultPairs(b));
  }

  lemma DefaultPairsAppend(a: seq<Setting>, b: seq<Setting>)
    ensures DefaultPairs(a + b) == DefaultPairs(a) + DefaultPairs(b)
  {
    var l, r := DefaultPairs(a + b), DefaultPairs(a) + DefaultPairs(b);
    assert |l| == |r|;
    forall i | 0 <= i < |l| ensures l[i] == r[i] {
      if i < |a| {
        assert (a + b)[i] == a[i];
      } else {
        assert (a + b)[i] == b[i - |a|];
      }
    }
  }

  /** Writing values never adds or removes a cell, nor reorders the cells. */
  lemma {:induction false} PresetKeepsCells(widgets: Dict<Widget>, changes: Dict<Json>)
    ensures Keys(PresetInto(widgets, changes)) == Keys(widgets)
    decreases |changes|
  {
    if changes != [] {
      PresetKeepsCells(Assign(widgets, changes[0].0, changes[0].1), changes[1..]);
    }
  }

  /** After a preset, a cell the preset names holds the preset's value (an Entry shows
      `str(new_value)`, a BooleanVar holds `new_value`); every other cell is unchanged, and a
      preset key the form has no cell for is ignored. */
  lemma {:induction false} PresetGet(widgets: Dict<Widget>, changes: Dict<Json>, k: string)
    requires Distinct(changes)
    ensures Get(PresetInto(widgets, changes), k)
         == if k in Keys(changes) && k in Keys(widgets)
            then Some(Get(widgets, k).value.WithValue(Get(changes, k).value))
            else Get(widgets, k)
    decreases |changes|
  {
    if changes != [] {
      var (k0, v0) := changes[0];
      var rest := changes[1..];
      var next := Assign(widgets, k0, v0);
      assert Distinct(rest) by {
        forall i, j | 0 <= i < j < |rest| ensures rest[i].0 != rest[j].0 {
          assert rest[i] == changes[i + 1] && rest[j] == changes[j + 1];
        }
      }
      assert Keys(changes) == [k0] + Keys(rest);
      PresetGet(next, rest, k);
      if k == k0 {
        assert k !in Keys(rest) by {
          forall i | 0 <= i < |rest| ensures rest[i].0 != k {
            assert rest[i] == changes[i + 1];
          }
        }
      }
    }
  }

  /** Without repeated keys in the collected dict, capturing keeps that property. */
  lemma {:induction false} CaptureIntoDistinct(changes: Dict<Json>, widgets: Dict<Widget>)
    requires Distinct(changes)
    ensures Distinct(CaptureInto(changes, widgets))
    decreases |widgets|
  {
    if widgets != [] {
      var (k, w) := widgets[0];
      if w.IsEntryOrBooleanVar() {
        PutPreservesDistinct(changes, k, w.CurrentValue());
      }
      CaptureIntoDistinct(if w.IsEntryOrBooleanVar() then Put(changes, k, w.CurrentValue()) else changes, widgets[1..]);
    }
  }

  lemma {:induction false} CaptureIntoGet(changes: Dict<Json>, widgets: Dict<Widget>, k: string)
    requires Distinct(widgets)
    ensures Get(CaptureInto(changes, widgets), k)
         == if k in Keys(widgets) && Get(widgets, k).value.IsEntryOrBooleanVar()
            then Some(Get(widgets, k).value.CurrentValue())
            else Get(changes, k)
    decreases |widgets|
  {
    if widgets != [] {
      var (k0, w0) := widgets[0];
      var rest := widgets[1..];
      var next := if w0.IsEntryOrBooleanVar() then Put(changes, k0, w0.CurrentValue()) else changes;
      assert Distinct(rest) by {
        forall i, j | 0 <= i < j < |rest| ensures rest[i].0 != rest[j].0 {
          assert rest[i] == widgets[i + 1] && rest[j] == widgets[j + 1];
        }
      }
      assert Keys(widgets) == [k0] + Keys(rest);
      CaptureIntoGet(next, rest, k);
      if k == k0 {
        assert k !in Keys(rest) by {
          forall i | 0 <= i < |rest| ensures rest[i].0 != k {
            assert rest[i] == widgets[i + 1];
          }
        }
      }
    }
  }

  /** The captured state has exactly the keys whose cell is an Entry or a BooleanVar, each
      mapped to what that cell's `get()` returns, and no key twice. */
  lemma CaptureExact(widgets: Dict<Widget>, k: string)
    requires Distinct(widgets)
    ensures Distinct(Capture(widgets))
    ensures Get(Capture(widgets), k)
         == if k in Keys(widgets) && Get(widgets, k).value.IsEntryOrBooleanVar()
            then Some(Get(widgets, k).value.CurrentValue())
            else None
  {
    CaptureIntoDistinct([], widgets);
    CaptureIntoGet([], widgets, k);
  }

  /** Capturing the form and loading the capture back as a preset leaves every cell as it
      was: the save/load cycle of presets loses nothing. */
  lemma CaptureThenPreset(widgets: Dict<Widget>)
    requires Distinct(widgets)
    ensures PresetInto(widgets, Capture(widgets)) == widgets
  {
    var captured := Capture(widgets);
    var after := PresetInto(widgets, captured);
    CaptureIntoDistinct([], widgets);
    PresetKeepsCells(widgets, captured);
    forall k ensures Get(widgets, k) == Get(after, k) {
      CaptureExact(widgets, k);
      PresetGet(widgets, captured, k);
    }
    DictExtensional(widgets, after);
  }

  /** After `initialize_with_defaults`, a cell whose key path the schema names holds that
      setting's default; cells the schema does not name are unchanged. */
  lemma DefaultsGet(widgets: Dict<Widget>, schema: Schema, k: string)
    requires Distinct(DefaultPairs(Traversal(schema)))
    ensures Keys(Defaults(widgets, schema)) == Keys(widgets)
    ensures forall s :: s in Traversal(schema) && s.keyPath == k && k in Keys(widgets) ==>
              Get(Defaults(widgets, schema), k) == Some(Get(widgets, k).value.WithValue(s.default))
    ensures (forall s :: s in Traversal(schema) ==> s.keyPath != k) ==>
              Get(Defaults(widgets, schema), k) == Get(widgets, k)
  {
    var pairs := DefaultPairs(Traversal(schema));
    PresetKeepsCells(widgets, pairs);
    PresetGet(widgets, pairs, k);
    forall s | s in Traversal(schema) && s.keyPath == k && k in Keys(widgets)
      ensures Get(Defaults(widgets, schema), k) == Some(Get(widgets, k).value.WithValue(s.default))
    {
      var i :| 0 <= i < |Traversal(schema)| && Traversal(schema)[i] == s;
      DistinctGet(pairs, i);
    }
    if forall s :: s in Traversal(schema) ==> s.keyPath != k {
      forall i | 0 <= i < |pairs| ensures pairs[i].0 != k {
        assert Traversal(schema)[i] in Traversal(schema);
      }
    }
  }

  /** A setting without a default makes its Entry show the text `None`. */
  lemma MissingDefaultShowsNone(widgets: Dict<Widget>, schema: Schema, s: Setting, text: string)
    requires Distinct(DefaultPairs(Traversal(schema)))
    requires s in Traversal(schema) && s.default == JNull
    requires Get(widgets, s.keyPath) == Some(Entry(text))
    ensures Get(Defaults(widgets, schema), s.keyPath) == Some(Entry("None"))
  {
    DefaultsGet(widgets, schema, s.keyPath);
  }

  /** The form of the unit tests: an empty Entry at `key1`, a cleared BooleanVar at `key2`. */
  function TestForm(): Dict<Widget> {
    [("key1", Entry("")), ("key2", BooleanVar(JBool(false)))]
  }

  function TestSetting(keyPath: string, valueType: string, default: Json): Setting {
    Setting("Label", "", "test_file.json", keyPath, valueType, default, None, false, JObj([]))
  }

  /** A one-tab, one-group schema with a string default for `key1` and `true` for `key2`. */
  function TestSchema(): Schema {
    var settings := [TestSetting("key1", "string", JStr("default_value")), TestSetting("key2", "boolean", JBool(true))];
    Schema([("Tab1", Tab([("Group1", Group(1, settings))]))])
  }

  /** The defaults fill the Entry with the string and set the BooleanVar. */
  lemma TestDefaults()
    ensures Defaults(TestForm(), TestSchema()) == [("key1", Entry("default_value")), ("key2", BooleanVar(JBool(true)))]
  {
    var pairs := [("key1", JStr("default_value")), ("key2", JBool(true))];
    assert Traversal(TestSchema()) == TestSchema().tabs[0].1.groups[0].1.settings;
    assert DefaultPairs(Traversal(TestSchema())) == pairs;
    assert "key1" != "key2";
  }

  /** Typed text and a cleared checkbox come back as the string and `False`. */
  lemma TestCapture()
    ensures Capture([("key1", Entry("current_value")), ("key2", BooleanVar(JBool(false)))])
         == [("key1", JStr("current_value")), ("key2", JBool(false))]
  {
    assert "key1" != "key2";
  }

  /** A preset writes its string into the Entry and its boolean into the BooleanVar. */
  lemma TestPreset()
    ensures PresetInto(TestForm(), [("key1", JStr("preset_value")), ("key2", JBool(true))])
         == [("key1", Entry("preset_value")), ("key2", BooleanVar(JBool(true)))]
  {
    assert "key1" != "key2";
  }
}

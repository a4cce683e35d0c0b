/** The schema editor's two tree mutations: `save_changes`, which adds or updates a tab, a
    group and a setting from the form's fields, and `delete_item`, which removes the tab,
    group or setting selected in the tree.  The form's fields, the tree selection and
    `float()` are inputs; writing and reloading the schema file and refreshing the tree are
    not part of this model. */
module SchemaEditor {
  import opened Outcomes
  import opened Dicts
  import opened PyStrings
  import opened JsonValues
  import opened Schemas

  /** What the form holds when Save is pressed. */
  datatype SaveForm = SaveForm(
    tabName: string,
    groupName: string,
    groupColumn: string,
    settingLabel: string,
    description: string,
    file: string,
    keyPath: string,
    valueType: string,
    default: string,
    complex: bool,
    uiType: string,
    widgetWidth: string,
    inlineWithPrevious: bool,
    topLabel: string,
    topLabelVisible: bool,
    leftLabelVisible: bool)

  /** How `save_changes` ends: saved (whether it created an item, and which label it then
      selects in the tree), stopped by an "Input Error" message box, or aborted by an
      exception that escapes the handler. */
  datatype SaveOutcome =
    | Saved(createdNew: bool, select: Option<string>)
    | InputError(message: string)
    | Raised(error: Error)

  /** The tree after the handler, and how it ended. */
  datatype SaveResult = SaveResult(schema: Schema, outcome: SaveOutcome)

  const InvalidDefaultMessage := "Invalid default value for the selected type"
  const EmptyTabMessage := "Please enter a valid tab name"
  const NoSelectionMessage := "Please select an item to delete"

  /** The lowercased texts `save_changes` reads as a true boolean default. */
  predicate IsTrueText(text: string) {
    Lower(text) in ["yes", "true", "t", "1"]
  }

  /** The default as stored: an empty text is kept, an `integer` default is `int(text)`, a
      `float` default is `parseFloat(text)`, a `boolean` default is true when the lowercased
      text is one of yes/true/t/1, and any other type keeps the text.  None is the
      ValueError that the handler turns into an "Input Error". */
  function CoerceDefault(text: string, valueType: string, parseFloat: string -> Option<Json>): Option<Json> {
    if text == "" then Some(JStr(text))
    else if valueType == "integer" then
      match ParseInt(text)
      case Ok(n) => Some(JInt(n))
      case Err(_) => None
    else if valueType == "float" then parseFloat(text)
    else if valueType == "boolean" then Some(JBool(IsTrueText(text)))
    else Some(JStr(text))
  }

  /** `int(field) if field else fallback`. */
  function IntOrDefault(field: string, fallback: int): Result<int> {
    if field == "" then Ok(fallback) else ParseInt(field)
  }

  /** A width or a line count typed as the decimal digits of `n` is saved as `n`, and an empty
      field saves the fallback. */
  lemma IntOrDefaultReadsBack(n: int, fallback: int)
    ensures IntOrDefault(IntToDecimal(n), fallback) == Ok(n)
    ensures IntOrDefault("", fallback) == Ok(fallback)
  {
    IntRoundTrip(n);
  }

  /** The `ui_element` object of a saved setting. */
  function UiElement(form: SaveForm, widgetWidth: int): Json {
    JObj([
      ("type", JStr(form.uiType)),
      ("widget_width", JInt(widgetWidth)),
      ("inline_with_previous", JBool(form.inlineWithPrevious)),
      ("top_label", JStr(form.topLabel)),
      ("top_label_visible", JBool(form.topLabelVisible)),
      ("left_label_visible", JBool(form.leftLabelVisible))])
  }

  /** The `new_setting` dict: always an empty `criteria` object. */
  function NewSetting(form: SaveForm, default: Json, widgetWidth: int): Setting {
    Setting(form.settingLabel, form.description, form.file, form.keyPath, form.valueType,
            default, Some(JObj([])), form.complex, UiElement(form, widgetWidth))
  }

  /** The index of the first setting labelled `target`, if any. */
  function FirstWithLabel(settings: seq<Setting>, target: string): (r: Option<nat>)
    ensures r.Some? ==> r.value < |settings| && settings[r.value].labelText == target
    ensures r.Some? ==> forall j :: 0 <= j < r.value ==> settings[j].labelText != target
    ensures r.None? ==> forall j :: 0 <= j < |settings| ==> settings[j].labelText != target
  {
    if settings == [] then None
    else if settings[0].labelText == target then Some(0)
    else
      match FirstWithLabel(settings[1..], target)
      case None => None
      case Some(i) => Some(i + 1)
  }

  /** The settings list after the `for`/`else` loop: the first setting with the same label is
      replaced in place, or else the new setting is appended. */
  function Upserted(settings: seq<Setting>, s: Setting): seq<Setting> {
    match FirstWithLabel(settings, s.labelText)
    case Some(i) => settings[i := s]
    case None => settings + [s]
  }

  /** The group step: with a group name, an absent group is created with the parsed column
      and no settings, and an existing group gets the parsed column and keeps its settings.
      The flag says whether a group was created. */
  function SaveGroup(tab: Tab, groupName: string, groupColumn: string): Result<(Tab, bool)> {
    if groupName == "" then Ok((tab, false))
    else
      match IntOrDefault(groupColumn, 1)
      case Err(e) => Err(e)
      case Ok(column) =>
        match Get(tab.groups, groupName)
        case None => Ok((Tab(Put(tab.groups, groupName, Group(column, []))), true))
        case Some(g) => Ok((Tab(Put(tab.groups, groupName, Group(column, g.settings))), false))
  }

  /** The setting step: with a label, the new setting is built (`int(widget_width)` is
      evaluated while it is built), the group is looked up by name, and the setting is
      upserted into its list.  The flag says whether the setting was appended. */
  function SaveSetting(tab: Tab, form: SaveForm, default: Json): Result<(Tab, bool)> {
    if form.settingLabel == "" then Ok((tab, false))
    else
      match IntOrDefault(form.widgetWidth, 10)
      case Err(e) => Err(e)
      case Ok(width) =>
        var s := NewSetting(form, default, width);
        match Get(tab.groups, form.groupName)
        case None => Err(KeyError(form.groupName))
        case Some(g) =>
          Ok((Tab(Put(tab.groups, form.groupName, Group(g.column, Upserted(g.settings, s)))),
              FirstWithLabel(g.settings, s.labelText).None?))
  }

  /** The label the tree selects afterwards: the newest item created, or else the label that
      was selected before, when there was a non-empty one. */
  function SelectAfterSave(created: bool, form: SaveForm, selectedLabel: Option<string>): Option<string> {
    if created then
      if form.settingLabel != "" then Some(form.settingLabel)
      else if form.groupName != "" then Some(form.groupName)
      else Some(form.tabName)
    else if selectedLabel.Some? && selectedLabel.value != "" then selectedLabel
    else None
  }

  /** `save_changes()` on the tree `schema`. */
  function Save(schema: Schema, form: SaveForm, selectedLabel: Option<string>, parseFloat: string -> Option<Json>): SaveResult {
    match CoerceDefault(form.default, form.valueType, parseFloat)
    case None => SaveResult(schema, InputError(InvalidDefaultMessage))
    case Some(default) =>
      if form.tabName == "" then SaveResult(schema, InputError(EmptyTabMessage))
      else
        var tabCreated := form.tabName !in Keys(schema.tabs);
        var tabs := if tabCreated then Put(schema.tabs, form.tabName, Tab([])) else schema.tabs;
        var tab := Get(tabs, form.tabName).value;
        match SaveGroup(tab, form.groupName, form.groupColumn)
        case Err(e) => SaveResult(Schema(tabs), Raised(e))
        case Ok((tab', groupCreated)) =>
          var tabs' := Put(tabs, form.tabName, tab');
          match SaveSetting(tab', form, default)
          case Err(e) => SaveResult(Schema(tabs'), Raised(e))
          case Ok((tab'', appended)) =>
            var created := tabCreated || groupCreated || appended;
            SaveResult(Schema(Put(tabs', form.tabName, tab'')), Saved(created, SelectAfterSave(created, form, selectedLabel)))
  }

  /** The tree item `delete_item` finds selected, by its kind and the labels on its path. */
  datatype Selection =
    | NoSelection
    | TabItem(tab: string)
    | GroupItem(tab: string, group: string)
    | SettingItem(tab: string, group: string, settingLabel: string)

  datatype DeleteOutcome = Deleted | SelectionError(message: string) | DeleteRaised(error: Error)

  datatype DeleteResult = DeleteResult(schema: Schema, outcome: DeleteOutcome)

  /** `[s for s in settings if s['label'] != label]`. */
  function WithoutLabel(settings: seq<Setting>, target: string): seq<Setting> {
    if settings == [] then []
    else if settings[0].labelText == target then WithoutLabel(settings[1..], target)
    else [settings[0]] + WithoutLabel(settings[1..], target)
  }

  /** `delete_item()` on the tree `schema`. */
  function Delete(schema: Schema, selection: Selection): DeleteResult {
    match selection
    case NoSelection => DeleteResult(schema, SelectionError(NoSelectionMessage))
    case TabItem(t) =>
      if t in Keys(schema.tabs) then DeleteResult(Schema(Remove(schema.tabs, t)), Deleted)
      else DeleteResult(schema, DeleteRaised(KeyError(t)))
    case GroupItem(t, g) =>
      (match Get(schema.tabs, t)
       case None => DeleteResult(schema, DeleteRaised(KeyError(t)))
       case Some(tab) =>
         if g in Keys(tab.groups) then DeleteResult(Schema(Put(schema.tabs, t, Tab(Remove(tab.groups, g)))), Deleted)
         else DeleteResult(schema, DeleteRaised(KeyError(g))))
    case SettingItem(t, g, l) =>
      match Get(schema.tabs, t)
      case None => DeleteResult(schema, DeleteRaised(KeyError(t)))
      case Some(tab) =>
        match Get(tab.groups, g)
        case None => DeleteResult(schema, DeleteRaised(KeyError(g)))
        case Some(group) =>
          var group' := Group(group.column, WithoutLabel(group.settings, l));
          DeleteResult(Schema(Put(schema.tabs, t, Tab(Put(tab.groups, g, group')))), Deleted)
  }

  /** The `for index, setting in enumerate(settings_list)` loop with its `else` branch. */
  method UpsertSetting(settings: seq<Setting>, s: Setting) returns (list: seq<Setting>, appended: bool)
    ensures list == Upserted(settings, s)
    ensures appended <==> FirstWithLabel(settings, s.labelText).None?
  {
    list := settings;
    var index := 0;
    while index < |list|
      invariant 0 <= index <= |list| && list == settings
      invariant forall j :: 0 <= j < index ==> settings[j].labelText != s.labelText
    {
      if list[index].labelText == s.labelText {
        FirstWithLabelAt(settings, s.labelText, index);
        list := list[index := s];
        return list, false;
      }
      index := index + 1;
    }
    list := list + [s];
    appended := true;
  }

  /** The `if group_name:` block of `save_changes`: with no group name nothing happens;
      otherwise the column field must parse, the named group gets the parsed column (1 when
      the field is empty), keeps its settings or starts with none when new, the flag says
      whether it is new, and every other group is unchanged. */
  method UpdateGroup(tab: Tab, groupName: string, groupColumn: string) returns (r: Result<(Tab, bool)>)
    ensures r == SaveGroup(tab, groupName, groupColumn)
    ensures groupName == "" ==> r == Ok((tab, false))
    ensures groupName != "" ==> (r.Ok? <==> IntOrDefault(groupColumn, 1).Ok?)
    ensures groupName != "" && r.Ok? ==>
              && Get(r.value.0.groups, groupName)
                 == Some(Group(IntOrDefault(groupColumn, 1).value,
                               if groupName in Keys(tab.groups) then Get(tab.groups, groupName).value.settings else []))
              && (r.value.1 <==> groupName !in Keys(tab.groups))
              && forall g :: g != groupName ==> Get(r.value.0.groups, g) == Get(tab.groups, g)
  {
    if groupName == "" {
      return Ok((tab, false));
    }
    var column := IntOrDefault(groupColumn, 1);
    if column.Err? {
      return Err(column.error);
    }
    var group := Get(tab.groups, groupName);
    if group.None? {
      return Ok((Tab(Put(tab.groups, groupName, Group(column.value, []))), true));
    }
    return Ok((Tab(Put(tab.groups, groupName, Group(column.value, group.value.settings))), false));
  }

  /** The `if setting_label:` block of `save_changes`. */
  method UpdateSetting(tab: Tab, form: SaveForm, default: Json) returns (r: Result<(Tab, bool)>)
    ensures r == SaveSetting(tab, form, default)
  {
    if form.settingLabel == "" {
      return Ok((tab, false));
    }
    var width := IntOrDefault(form.widgetWidth, 10);
    if width.Err? {
      return Err(width.error);
    }
    var s := NewSetting(form, default, width.value);
    var group := Get(tab.groups, form.groupName);
    if group.None? {
      return Err(KeyError(form.groupName));
    }
    var list, appended := UpsertSetting(group.value.settings, s);
    return Ok((Tab(Put(tab.groups, form.groupName, Group(group.value.column, list))), appended));
  }

  /** The schema tree the editor holds (`json_data`) and the two handlers that change it. */
  class SchemaEditorState {
    var data: Schema

    constructor(data0: Schema)
      ensures data == data0
    {
      data := data0;
    }

    method SaveChanges(form: SaveForm, selectedLabel: Option<string>, parseFloat: string -> Option<Json>)
      returns (outcome: SaveOutcome)
      modifies this
      ensures SaveResult(data, outcome) == Save(old(data), form, selectedLabel, parseFloat)
    {
      var default := CoerceDefault(form.default, form.valueType, parseFloat);
      if default.None? {
        return InputError(InvalidDefaultMessage);
      }
      if form.tabName == "" {
        return InputError(EmptyTabMessage);
      }
      var created := false;
      if form.tabName !in Keys(data.tabs) {
        data := Schema(Put(data.tabs, form.tabName, Tab([])));
        created := true;
      }
      var grouped := UpdateGroup(Get(data.tabs, form.tabName).value, form.groupName, form.groupColumn);
      if grouped.Err? {
        return Raised(grouped.error);
      }
      var (tab, groupCreated) := grouped.value;
      data := Schema(Put(data.tabs, form.tabName, tab));
      var upserted := UpdateSetting(tab, form, default.value);
      if upserted.Err? {
        return Raised(upserted.error);
      }
      var (tab', appended) := upserted.value;
      data := Schema(Put(data.tabs, form.tabName, tab'));
      created := created || groupCreated || appended;
      outcome := Saved(created, SelectAfterSave(created, form, selectedLabel));
    }

    method DeleteItem(selection: Selection) returns (outcome: DeleteOutcome)
      modifies this
      ensures DeleteResult(data, outcome) == Delete(old(data), selection)
    {
      match selection {
        case NoSelection =>
          return SelectionError(NoSelectionMessage);
        case TabItem(t) =>
          if t !in Keys(data.tabs) {
            return DeleteRaised(KeyError(t));
          }
          data := Schema(Remove(data.tabs, t));
        case GroupItem(t, g) =>
          var tab := Get(data.tabs, t);
          if tab.None? {
            return DeleteRaised(KeyError(t));
          }
          if g !in Keys(tab.value.groups) {
            return DeleteRaised(KeyError(g));
          }
          data := Schema(Put(data.tabs, t, Tab(Remove(tab.value.groups, g))));
        case SettingItem(t, g, l) =>
          var tab := Get(data.tabs, t);
          if tab.None? {
            return DeleteRaised(KeyError(t));
          }
          var group := Get(tab.value.groups, g);
          if group.None? {
            return DeleteRaised(KeyError(g));
          }
          var kept := WithoutLabel(group.value.settings, l);
          data := Schema(Put(data.tabs, t, Tab(Put(tab.value.groups, g, Group(group.value.column, kept)))));
      }
      outcome := Deleted;
    }
  }

  /** The loop stops at the first setting with the label. */
  lemma FirstWithLabelAt(settings: seq<Setting>, target: string, i: nat)
    requires i < |settings| && settings[i].labelText == target
    requires forall j :: 0 <= j < i ==> settings[j].labelText != target
    ensures FirstWithLabel(settings, target) == Some(i)
  {
  }

  /** Upserting keeps every other setting where it was and grows the list by at most one: the
      first setting with the same label is replaced at its index, and only when there is none
      is the new setting appended at the end. */
  lemma UpsertShape(settings: seq<Setting>, s: Setting)
    ensures var r := Upserted(settings, s);
            && |settings| <= |r| <= |settings| + 1
            && s in r
            && (|r| == |settings| + 1 <==> forall j :: 0 <= j < |settings| ==> settings[j].labelText != s.labelText)
            && (forall j :: 0 <= j < |settings| && settings[j].labelText != s.labelText ==> r[j] == settings[j])
            && (|r| == |settings| + 1 ==> r[|settings|] == s)
  {
    var r := Upserted(settings, s);
    match FirstWithLabel(settings, s.labelText)
    case Some(i) =>
      assert r[i] == s;
      assert settings[i].labelText == s.labelText;
    case None =>
      assert r[|settings|] == s;
  }

  /** Upserting the same setting twice is upserting it once. */
  lemma UpsertIdempotent(settings: seq<Setting>, s: Setting)
    ensures Upserted(Upserted(settings, s), s) == Upserted(settings, s)
  {
    var r := Upserted(settings, s);
    match FirstWithLabel(settings, s.labelText)
    case Some(i) =>
      FirstWithLabelAt(r, s.labelText, i);
    case None =>
      FirstWithLabelAt(r, s.labelText, |settings|);
  }

  /** Deleting a setting keeps exactly the settings with another label. */
  lemma {:induction false} WithoutLabelMembers(settings: seq<Setting>, target: string, s: Setting)
    ensures s in WithoutLabel(settings, target) <==> s in settings && s.labelText != target
  {
    if settings != [] {
      WithoutLabelMembers(settings[1..], target, s);
      assert settings == [settings[0]] + settings[1..];
    }
  }

  /** Deleting a setting from a list is deleting it from each part: the kept settings stay in
      their original order. */
  lemma {:induction false} WithoutLabelAppend(a: seq<Setting>, b: seq<Setting>, target: string)
    ensures WithoutLabel(a + b, target) == WithoutLabel(a, target) + WithoutLabel(b, target)
  {
    if a == [] {
      assert a + b == b;
    } else {
      assert (a + b)[0] == a[0] && (a + b)[1..] == a[1..] + b;
      WithoutLabelAppend(a[1..], b, target);
    }
  }

  /** Deleting twice removes nothing more. */
  lemma {:induction false} WithoutLabelIdempotent(settings: seq<Setting>, target: string)
    ensures WithoutLabel(WithoutLabel(settings, target), target) == WithoutLabel(settings, target)
  {
    if settings != [] {
      WithoutLabelIdempotent(settings[1..], target);
    }
  }

  /** A default that fails to convert, or an empty tab name, stops `save_changes` with an
      input error before anything is changed. */
  lemma SaveRejects(schema: Schema, form: SaveForm, selectedLabel: Option<string>, parseFloat: string -> Option<Json>)
    requires CoerceDefault(form.default, form.valueType, parseFloat).None? || form.tabName == ""
    ensures Save(schema, form, selectedLabel, parseFloat).schema == schema
    ensures Save(schema, form, selectedLabel, parseFloat).outcome.InputError?
  {
  }

  /** Once the input checks pass, the tab exists afterwards (even when an exception cuts the
      handler short), it is appended when new, and every other tab is untouched. */
  lemma SaveFrame(schema: Schema, form: SaveForm, selectedLabel: Option<string>, parseFloat: string -> Option<Json>, t: string)
    requires CoerceDefault(form.default, form.valueType, parseFloat).Some? && form.tabName != ""
    ensures var after := Save(schema, form, selectedLabel, parseFloat).schema;
            && Keys(after.tabs) == (if form.tabName in Keys(schema.tabs) then Keys(schema.tabs) else Keys(schema.tabs) + [form.tabName])
            && (t != form.tabName ==> Get(after.tabs, t) == Get(schema.tabs, t))
  {
  }

  /** With a group name and a column that parses, the group afterwards has that column; it
      keeps its settings when no setting is saved, and starts with none when it is new. */
  lemma SaveGroupColumn(schema: Schema, form: SaveForm, selectedLabel: Option<string>, parseFloat: string -> Option<Json>)
    requires CoerceDefault(form.default, form.valueType, parseFloat).Some? && form.tabName != ""
    requires form.groupName != "" && IntOrDefault(form.groupColumn, 1).Ok?
    requires form.settingLabel == ""
    ensures var before := Get(schema.tabs, form.tabName);
            var after := Save(schema, form, selectedLabel, parseFloat);
            var group := Get(Get(after.schema.tabs, form.tabName).value.groups, form.groupName);
            && after.outcome.Saved?
            && group.Some?
            && group.value.column == IntOrDefault(form.groupColumn, 1).value
            && group.value.settings
               == (if before.Some? && form.groupName in Keys(before.value.groups)
                   then Get(before.value.groups, form.groupName).value.settings else [])
            && forall g :: g != form.groupName ==>
                 Get(Get(after.schema.tabs, form.tabName).value.groups, g)
                 == (if before.Some? then Get(before.value.groups, g) else None)
  {
  }

  /** When a setting is saved, its group's list is the previous list with the new setting
      upserted, and that setting carries an empty `criteria` object, the `complex` flag of
      the form, and the converted default. */
  lemma SaveUpsertsSetting(schema: Schema, form: SaveForm, selectedLabel: Option<string>, parseFloat: string -> Option<Json>)
    requires form.settingLabel != ""
    requires Save(schema, form, selectedLabel, parseFloat).outcome.Saved?
    ensures var default := CoerceDefault(form.default, form.valueType, parseFloat).value;
            var tab0 := if form.tabName in Keys(schema.tabs) then Get(schema.tabs, form.tabName).value else Tab([]);
            var tab1 := SaveGroup(tab0, form.groupName, form.groupColumn).value.0;
            var prior := Get(tab1.groups, form.groupName).value;
            var s := NewSetting(form, default, IntOrDefault(form.widgetWidth, 10).value);
            var group := Get(Get(Save(schema, form, selectedLabel, parseFloat).schema.tabs, form.tabName).value.groups, form.groupName);
            && group == Some(Group(prior.column, Upserted(prior.settings, s)))
            && s.criteria == Some(JObj([])) && s.complex == form.complex && s.default == default
            && forall g :: g != form.groupName ==>
                 Get(Get(Save(schema, form, selectedLabel, parseFloat).schema.tabs, form.tabName).value.groups, g)
                 == Get(tab0.groups, g)
  {
  }

  /** An integer default written out in decimal is stored as that integer. */
  lemma CoerceIntegerRoundTrip(n: int, parseFloat: string -> Option<Json>)
    ensures CoerceDefault(IntToDecimal(n), "integer", parseFloat) == Some(JInt(n))
  {
    IntRoundTrip(n);
  }

  /** A boolean default shown as Python shows it (`True`/`False`) is stored as that boolean. */
  lemma CoerceBooleanRoundTrip(b: bool, parseFloat: string -> Option<Json>)
    ensures CoerceDefault(Repr(JBool(b)), "boolean", parseFloat) == Some(JBool(b))
  {
    if b {
      assert Lower("True") == "true";
    } else {
      assert Lower("False") == "false";
      assert "false" != "yes" && "false" != "true" && "false" != "t" && "false" != "1";
    }
  }

  /** Deleting a tab removes that key; deleting a group removes it from its tab; deleting a
      setting removes every setting with that label from its group and keeps the rest in
      order.  Every other tab, and every other group of the tab, keeps its value. */
  lemma DeleteRemoves(schema: Schema, selection: Selection)
    requires Delete(schema, selection).outcome.Deleted?
    ensures var after := Delete(schema, selection).schema;
            match selection
            case NoSelection => false
            case TabItem(t) => after.tabs == Remove(schema.tabs, t)
            case GroupItem(t, g) =>
              && Keys(after.tabs) == Keys(schema.tabs)
              && Get(after.tabs, t) == Some(Tab(Remove(Get(schema.tabs, t).value.groups, g)))
              && (forall t' :: t' != t ==> Get(after.tabs, t') == Get(schema.tabs, t'))
            case SettingItem(t, g, l) =>
              var group := Get(Get(schema.tabs, t).value.groups, g).value;
              && Keys(after.tabs) == Keys(schema.tabs)
              && Get(Get(after.tabs, t).value.groups, g) == Some(Group(group.column, WithoutLabel(group.settings, l)))
              && (forall t' :: t' != t ==> Get(after.tabs, t') == Get(schema.tabs, t'))
              && Keys(Get(after.tabs, t).value.groups) == Keys(Get(schema.tabs, t).value.groups)
              && (forall g' :: g' != g ==> Get(Get(after.tabs, t).value.groups, g') == Get(Get(schema.tabs, t).value.groups, g'))
  {
  }

  /** Pressing Delete with nothing selected reports the selection error and changes nothing. */
  lemma DeleteNeedsSelection(schema: Schema)
    ensures Delete(schema, NoSelection) == DeleteResult(schema, SelectionError(NoSelectionMessage))
  {
  }
}

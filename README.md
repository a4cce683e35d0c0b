# ServerValueChanger write-back engine, modelled in Dafny

ServerValueChanger is a Tkinter tool for editing a game server's JSON files. Its core is a
schema-driven write-back engine. A schema lists tabs. Each tab holds groups, and each group
holds settings. A setting names a `file`, a dot-separated `key_path`, and a `complex` flag.
When the user applies changes, the engine does the following:

- It runs the one hard-coded complex rule first. Every top-level record whose `_parent` is
  `5485a8684bdc2da71d8b4567` gets `_props.StackMaxSize` set to `int(value)`. A missing file
  or a `ValueError` is logged and swallowed.
- It groups the simple (non-complex) settings that have a widget by target file, in schema
  order.
- For each file, it resolves the path from its first segment (`database` or `configs`,
  looked up in the configuration), loads the JSON, writes each change along its key path
  (creating missing objects on the way), and writes the file back. Any exception stops the
  run and is re-raised.

The model also covers the supporting pieces:

- The configuration's dot-path lookup.
- The widget map operations: fill with defaults, capture, and apply a preset.
- The schema editor's two tree mutations, save and delete.

Modules, one per file:

- `Outcomes`: Option, Result, and the Python exception kinds.
- `Dicts`: insertion-ordered Python dicts as sequences of entries.
- `PyStrings`: `split`, `lower`, `strip`, `int()`, `str()` of integers.
- `JsonValues`: JSON values as `json.load` returns them, `str()`, `repr()` and `int()` on them.
- `Schemas`: the schema tree and its traversal order.
- `Widgets`: widget cells (Entry, BooleanVar, other).
- `Files`: the file system as a map from path to stored document.
- `ConfigManager`: `get_setting`.
- `PathResolver`: `resolve_full_path`, which batch_apply.py and complex_config_handler.py
  define in identical words.
- `ChangeSets`: `organize_changes_by_file`.
- `KeyPathWriter`: the key-path write loop inside `apply_changes`.
- `ComplexConfig`: `update_ammo_stack_size`.
- `BatchApply`: `apply_changes`.
- `UiUpdater`: `UIUpdater`'s three methods, on a `WidgetForm` class whose `widgets` field
  they update.
- `SchemaEditor`: `save_changes` and `delete_item`, on a `SchemaEditorState` class holding
  the `json_data` tree.

The loops that build a result or walk the schema are methods whose `ensures` ties their
result, or their new state, to a fold function; the lemmas state the source's promises about
those folds, and nested loops are written as one method per loop level. Three loops are
functions instead, because they only compute a value: the segment loop of `get_setting`
(config_manager.py:67) is the recursive `ConfigManager.Walk`, the cursor loop that walks a key
path (batch_apply.py:85-88) is the recursive `KeyPathWriter.SetPath`, and the list
comprehension of `delete_item` (edit.py:202) is `SchemaEditor.WithoutLabel`.

Files, the configuration, the widget map and the form fields are inputs. `float()` is a
parameter of the default coercion.

`get_schema` returns the stored `schema` field, so it is the `schema` field of
`ConfigManager.Manager`. Neither `get_setting` nor `get_schema` changes the manager: both are
functions of it.

## Model

| member | source | states |
|---|---|---|
| Dicts.Get | config_manager.py:68 | `d.get(k)` finds a value exactly when `k` is a key, and the value belongs to an entry with that key |
| Dicts.Put | batch_apply.py:89 | `d[k] = v`: an existing key keeps its position and a new key goes last; `k` then maps to `v` and every other key keeps its value |
| Dicts.Remove | edit.py:192 | `del d[k]` drops every entry with key `k`, keeps the other keys in order, and keeps their values |
| PyStrings.JoinSplit | batch_apply.py:83 | joining the pieces of `split` restores the string, and no piece contains the separator |
| PyStrings.SplitJoin | batch_apply.py:83 | splitting a join of separator-free pieces gives those pieces back |
| PyStrings.SplitOnce | batch_apply.py:47 | `split('/', 1)` yields one piece exactly when there is no `/`, else the two sides of the first `/` |
| PyStrings.Lower | edit.py:51 | `lower()` leaves no ASCII capital, keeps the length, and returns a string without capitals as it is, so lowering twice is lowering once |
| PyStrings.IntRoundTrip | edit.py:47 | `int(str(n)) == n` for every integer |
| JsonValues.ShownIntReadsBack | complex_config_handler.py:66 | an integer shown in an Entry as `str(n)` reads back as `n` |
| JsonValues.LookupConcat | batch_apply.py:85-88 | walking a key path in two stages is walking it at once |
| Files.WriteJson | batch_apply.py:96-97 | the written document reads back, and no other file changes |
| ConfigManager.WalkFinds | config_manager.py:64-73 | the walk returns `x` exactly when the key path leads to `x` and `x` is not null; otherwise it raises KeyError naming the setting, or AttributeError |
| ConfigManager.GetSettingFinds | config_manager.py:60-73 | `get_setting(p)` returns the non-null value at the dot path `p`, and raises only KeyError(p) or AttributeError |
| ConfigManager.WalkMissingSegment | config_manager.py:67-71 | a segment missing, or null, at any depth raises KeyError naming the setting path |
| ConfigManager.SampleLoggingLevel | tests/test_config_manager.py:48-50 | in the sample configuration, `logging.level` is `'INFO'` |
| ConfigManager.SampleMissingSetting | tests/test_config_manager.py:52-55 | in the sample configuration, `non.existing.setting` raises KeyError |
| PathResolver.PosixJoinShape | batch_apply.py:55 | the joined path is the remainder when the remainder is absolute; otherwise it starts with the base and ends with the remainder, with at most one `/` between |
| PathResolver.SplitOnceCut | batch_apply.py:47 | `split('/', 1)` cuts at the first `/` |
| PathResolver.ResolveKnownRoot | batch_apply.py:47-55 | `database/rest` resolves to `paths.server_database` joined with `rest`, and `configs/rest` to `paths.server_config` joined with `rest` |
| PathResolver.ResolveUnknownRoot | complex_config_handler.py:98-104 | the unknown-base ValueError is raised exactly when the first segment is neither `database` nor `configs` |
| PathResolver.ResolveBareRoot | batch_apply.py:47-55 | a bare `database` with no `/` fails at `split('/', 1)[1]` with IndexError |
| PathResolver.ResolvedUnderBase | complex_config_handler.py:98-106 | a resolved path has two parts and lies under the configured base, unless the remainder is absolute |
| PathResolver.ComplexTestPath | tests/test_complex_config_handler.py:17-22 | with base `database`, `database/test_items.json` resolves to itself |
| ChangeSets.AddGroupSettings | batch_apply.py:135-147 | the innermost loop appends the changes of one group's settings, as the fold over them does |
| ChangeSets.AddTabGroups | batch_apply.py:134-147 | the group loop appends the changes of a tab's settings in traversal order |
| ChangeSets.OrganizeChangesByFile | batch_apply.py:124-148 | the loops build the fold of the whole schema traversal |
| ChangeSets.OrganizeFromAppend | batch_apply.py:133-135 | folding two runs of settings one after the other is folding the whole run |
| ChangeSets.OrganizeFromGet | batch_apply.py:139-147 | each file's list gains exactly its file's changes in traversal order, and a file appears only when a change was appended to it |
| ChangeSets.AddSettingKeys | batch_apply.py:139-141 | a contributing setting adds its file at the end, once |
| ChangeSets.OrganizeFromKeys | batch_apply.py:140-141 | the files appear in the order their first contributing setting is met |
| ChangeSets.AppendChange | batch_apply.py:140-147 | creating the list when missing and then appending equals appending to the list or to `[]` |
| ChangeSets.OrganizeByFile | batch_apply.py:133-147 | a file maps to its changes in schema order, and a file without changes is absent |
| ChangeSets.OrganizeFileOrder | batch_apply.py:140-141 | the change set's files come in order of first use, with no repeats |
| ChangeSets.ChangesAreSimpleAndPresent | batch_apply.py:136-143 | every change comes from a non-complex setting of that file whose key path has a widget, and carries that widget's value |
| KeyPathWriter.ApplyFileChanges | batch_apply.py:82-89 | the change loop computes the in-order application of the file's changes, stopping at the first exception |
| KeyPathWriter.SetPathOnEmpty | batch_apply.py:85-89 | writing into an empty object builds the nested objects of the key path |
| KeyPathWriter.SetPathNewBranch | batch_apply.py:86-87 | a missing first key gets a fresh nested branch appended after the existing keys |
| KeyPathWriter.SetPathSucceeds | batch_apply.py:85-89 | a write succeeds exactly when every prefix of the key path is missing or an object; otherwise it raises TypeError |
| KeyPathWriter.SetPathGet | batch_apply.py:89 | after a write, `doc[k1]...[kn]` is the value |
| KeyPathWriter.SetPathFrame | batch_apply.py:85-89 | a path that is neither a prefix nor an extension of the key path reads as before |
| KeyPathWriter.SetPathTopKeys | batch_apply.py:86-89 | the top-level keys stay in order, with the first key appended when it is new |
| KeyPathWriter.SetPathCurrent | batch_apply.py:89 | writing the value already there returns the document unchanged |
| KeyPathWriter.SetPathTwice | batch_apply.py:82-89 | a second write to the same key path overrides the first |
| KeyPathWriter.ApplyChangeIdempotent | batch_apply.py:83-89 | applying one change twice equals applying it once |
| KeyPathWriter.ApplyChangeListCons | batch_apply.py:82 | the change loop applies the first change and then the rest, or stops at its exception |
| KeyPathWriter.ApplyChangeListAppend | batch_apply.py:82 | the change loop over two runs of changes is the loop over their concatenation |
| KeyPathWriter.ApplyChangeListFrame | batch_apply.py:82-89 | a path unrelated to every change reads as before |
| KeyPathWriter.LastWriteWins | batch_apply.py:82-89 | a key path holds the value of the last change to it |
| KeyPathWriter.ApplyChangeListHolds | batch_apply.py:82-89 | after a prefix-free change list, every key path holds its value |
| KeyPathWriter.ApplyChangeListCurrent | batch_apply.py:82-89 | changes that already hold leave the document unchanged |
| KeyPathWriter.ApplyChangeListIdempotent | batch_apply.py:82-89 | applying a prefix-free change list twice equals applying it once |
| KeyPathWriter.ApplyTwiceCanFail | batch_apply.py:82-89 | writing `a.b` and then `a` succeeds on `{}`, but the same list applied to its own result raises TypeError |
| ComplexConfig.RewriteDataInPlace | complex_config_handler.py:64-66 | the record loop computes the rewrite of every record, stopping at the first exception |
| ComplexConfig.RewriteRecordMatches | complex_config_handler.py:65-66 | a record with another `_parent` is unchanged; a matching one gets `_props.StackMaxSize = int(value)`, as a key-path write would set it |
| ComplexConfig.RewriteRecordErrors | complex_config_handler.py:65-66 | for a matching record, a bad `int(value)` raises first; then a missing `_props` raises KeyError (nothing is created), and a non-object `_props` raises TypeError |
| ComplexConfig.RewriteRecordsPointwise | complex_config_handler.py:64-66 | the rewrite succeeds exactly when every record's does, keeps the record ids in order, and rewrites each record on its own |
| ComplexConfig.HandleSettingSkips | complex_config_handler.py:48-81 | a setting that is not complex, not `_props.StackMaxSize` or has no widget, and any swallowed FileNotFoundError or ValueError, leaves the files and the result map as they were |
| ComplexConfig.HandleSettingWrites | complex_config_handler.py:56-76 | a successful setting writes the rewritten document to the resolved file, records it under the setting's file in the result map, and touches no other file |
| ComplexConfig.AmmoFromAppend | complex_config_handler.py:45-47 | the settings loop over two runs of settings is the loop over their concatenation, stopping at an escaped exception |
| ComplexConfig.AmmoFromFrame | complex_config_handler.py:45-83 | no file is created, and a file that no handled setting resolves to is untouched |
| ComplexConfig.AmmoFromKeys | complex_config_handler.py:60-76 | the rule never creates a file |
| ComplexConfig.HandleSettingRecords | complex_config_handler.py:48-81 | one setting adds its file to `file_changes` exactly when it is handled and its `try` block completes, and leaves every other entry alone |
| ComplexConfig.AmmoFromRecords | complex_config_handler.py:45-83 | when nothing escapes, `file_changes` holds a relative path exactly when it was there before or some handled setting for it completed its `try` block in the state the loop had reached |
| ComplexConfig.AmmoFromLastRewrite | complex_config_handler.py:45-83 | when nothing escapes, a file's entry in `file_changes` is the document the last completing setting for it wrote: the file as it stood then, with the rule applied |
| ComplexConfig.UpdateAmmoStackSizeRecords | complex_config_handler.py:43-83 | the returned `file_changes` holds exactly the relative paths some handled setting rewrote |
| ComplexConfig.AmmoGroup | complex_config_handler.py:47-81 | the innermost loop handles one group's settings, as the fold over them does |
| ComplexConfig.AmmoTab | complex_config_handler.py:46-81 | the group loop handles a tab's settings in traversal order |
| ComplexConfig.AmmoStackSize | complex_config_handler.py:32-83 | the three loops compute the fold over the whole schema traversal |
| ComplexConfig.FiftyReads | tests/test_complex_config_handler.py:60-61 | the Entry text `'50'` is read as 50 |
| ComplexConfig.AmmoRecordRewritten | complex_config_handler.py:65-66 | an ammo record takes the new size, and a record with another parent keeps its size |
| ComplexConfig.TestItemsRewritten | tests/test_complex_config_handler.py:84-90 | the test file's sizes 10 and 20 become 50 and 30 stays 30 |
| BatchApply.WriteFile | batch_apply.py:73-97 | processing one file never creates or removes a file |
| BatchApply.WriteFiles | batch_apply.py:72-113 | the file loop never creates or removes a file |
| BatchApply.WriteAll | batch_apply.py:72-113 | the file loop processes the files in order and stops at the first exception, which it returns |
| BatchApply.ApplyAll | batch_apply.py:57-113 | `apply_changes` runs the complex rule, then the change set, then the file loop |
| BatchApply.WriteFilesAppend | batch_apply.py:72 | the file loop over two runs of files is the loop over their concatenation, stopping at the first exception |
| BatchApply.FailureStopsLaterFiles | batch_apply.py:101-113 | a file whose processing raises ends the run with that exception; earlier files stay written and later files are not written |
| BatchApply.WriteFileFrame | batch_apply.py:74-97 | a written file held a parseable document before and now holds that document with the changes applied; no other file changes |
| BatchApply.WriteFilesFrame | batch_apply.py:72-97 | a file that no entry of the change set resolves to is untouched |
| BatchApply.WriteFilesResult | batch_apply.py:72-97 | when the run raises nothing and the files resolve to different paths, each file holds its original document with its changes applied |
| BatchApply.ComplexFailureWritesNothingElse | batch_apply.py:65-72 | an exception that escapes the complex rule is the run's exception, and every file no handled complex setting resolves to keeps its contents |
| BatchApply.ApplyChangesWritesChangeSets | batch_apply.py:65-97 | when the whole run raises nothing and the change set's files resolve to different paths, each such file holds the document the complex rule left there with its changes applied in order |
| BatchApply.ApplyChangesSimpleFile | batch_apply.py:65-97 | as above, a file no handled complex setting resolves to holds its original document with its changes applied in order |
| BatchApply.ApplyChangesFrame | batch_apply.py:65-97 | a file that neither a handled complex setting nor the change set resolves to keeps its contents, whether or not the run raises, and no file is created |
| Widgets.WithCurrentValue | ui_updater.py:44-48 | writing a cell's own `get()` back into it leaves the cell as it was |
| Widgets.EntryShowsInt | ui_updater.py:44-46 | an integer written into an Entry as `str(n)` is read back by `int()` as `n` |
| UiUpdater.Assign | ui_updater.py:73-78 | a key with a cell gets the value written into that cell; a key without one is skipped; no other cell changes |
| UiUpdater.WidgetForm.Fill | ui_updater.py:73-78 | writes one cell as `Assign` does |
| UiUpdater.WidgetForm.FillGroupDefaults | ui_updater.py:39-48 | the innermost loop writes one group's defaults in order |
| UiUpdater.WidgetForm.FillTabDefaults | ui_updater.py:38-48 | the group loop writes a tab's defaults in traversal order |
| UiUpdater.WidgetForm.InitializeWithDefaults | ui_updater.py:30-48 | the cells end as the defaults of the whole schema traversal make them |
| UiUpdater.WidgetForm.CaptureUiState | ui_updater.py:50-63 | returns the capture of the cells, changing nothing |
| UiUpdater.WidgetForm.UpdateUiWithPreset | ui_updater.py:65-78 | the cells end as writing the preset's entries in order makes them |
| UiUpdater.PresetIntoAppend | ui_updater.py:72 | a preset of two runs of entries is the two presets one after the other |
| UiUpdater.PresetDefaultsAppend | ui_updater.py:37-39 | filling the defaults of two runs of settings in turn is filling those of the whole run |
| UiUpdater.DefaultPairsAppend | ui_updater.py:37-41 | the defaults of two runs of settings are the defaults of each, in order |
| UiUpdater.PresetKeepsCells | ui_updater.py:72-78 | a preset never adds, removes or reorders a cell |
| UiUpdater.PresetGet | ui_updater.py:72-78 | a named cell holds the preset's value; other cells and keys the form lacks are unaffected |
| UiUpdater.CaptureIntoDistinct | ui_updater.py:57-63 | the captured dict never holds a key twice |
| UiUpdater.CaptureIntoGet | ui_updater.py:57-63 | the captured dict holds each Entry's and BooleanVar's current value and nothing else |
| UiUpdater.CaptureExact | ui_updater.py:57-63 | the capture has exactly the Entry and BooleanVar keys, each mapped to that cell's `get()` |
| UiUpdater.CaptureThenPreset | ui_updater.py:50-78 | loading a capture back as a preset leaves every cell unchanged |
| UiUpdater.DefaultsGet | ui_updater.py:37-48 | a cell named by the schema holds that setting's default; other cells are unchanged and no cell is added |
| UiUpdater.MissingDefaultShowsNone | ui_updater.py:40-46 | a setting without a default makes its Entry show `None` |
| UiUpdater.TestDefaults | tests/ui_updater.py:51-86 | the test schema fills `key1` with `default_value` and sets `key2` |
| UiUpdater.TestCapture | tests/ui_updater.py:88-95 | typed text and a cleared checkbox come back as `'current_value'` and false |
| UiUpdater.TestPreset | tests/ui_updater.py:97-106 | the test preset writes `preset_value` and true into the two cells |
| SchemaEditor.IntOrDefaultReadsBack | edit.py:69 | a width typed as the decimal digits of `n` is saved as `n`, and an empty field saves the fallback |
| SchemaEditor.FirstWithLabel | edit.py:96-99 | finds the first setting with the label, or reports that there is none |
| SchemaEditor.FirstWithLabelAt | edit.py:96-99 | the loop stops at the first setting carrying the label |
| SchemaEditor.UpsertSetting | edit.py:95-102 | the `for`/`else` loop replaces the first setting with the label, or appends and reports the append |
| SchemaEditor.UpdateGroup | edit.py:66-74 | with no group name the tab is unchanged and no group is created; otherwise a column field that does not parse raises, the named group gets the parsed column (1 when empty) and keeps its settings (none when new), the flag is set exactly when the group is new, and every other group is unchanged |
| SchemaEditor.UpdateSetting | edit.py:76-102 | the setting block builds the setting, looks up its group and upserts, as the setting step says |
| SchemaEditor.SchemaEditorState.SaveChanges | edit.py:44-116 | the handler's tree and outcome are those of `Save`, including the partial changes left by an escaped exception |
| SchemaEditor.SchemaEditorState.DeleteItem | edit.py:184-202 | the handler's tree and outcome are those of `Delete` |
| SchemaEditor.UpsertShape | edit.py:95-102 | the list grows by at most one, an append happens exactly when no setting has the label, and other settings stay in place |
| SchemaEditor.UpsertIdempotent | edit.py:95-102 | saving the same setting twice equals saving it once |
| SchemaEditor.WithoutLabelMembers | edit.py:201-202 | after deleting, a setting is kept exactly when it carries another label |
| SchemaEditor.WithoutLabelAppend | edit.py:202 | deleting from two runs of settings is deleting from each, so the order is kept |
| SchemaEditor.WithoutLabelIdempotent | edit.py:202 | deleting a label twice removes nothing more |
| SchemaEditor.SaveRejects | edit.py:44-58 | a default that does not convert, or an empty tab name, gives an input error and leaves the tree unchanged |
| SchemaEditor.SaveFrame | edit.py:62-64 | the tab exists afterwards, is appended when new, and no other tab changes |
| SchemaEditor.SaveGroupColumn | edit.py:66-74 | the group gets the parsed column (1 when empty); an existing group keeps its settings and a new one starts with none; every other group of the tab keeps its value (none when the tab is new) |
| SchemaEditor.SaveUpsertsSetting | edit.py:76-102 | the group's list is the previous list with the new setting upserted, and that setting has an empty `criteria`, the form's `complex` flag and the converted default; every other group of the tab keeps its value |
| SchemaEditor.CoerceIntegerRoundTrip | edit.py:46-47 | an integer default written in decimal is stored as that integer |
| SchemaEditor.CoerceBooleanRoundTrip | edit.py:50-51 | a boolean default written `True` or `False` is stored as that boolean |
| SchemaEditor.DeleteRemoves | edit.py:191-202 | deleting a tab removes that key; deleting a group removes it from its tab; deleting a setting removes that label from its group and keeps the other settings in order; every other tab, and for a setting every other group of its tab, keeps its value |
| SchemaEditor.DeleteNeedsSelection | edit.py:186-189 | with nothing selected, a selection error is reported and the tree is unchanged |

## Left out

- Logging, message boxes, the Tkinter widgets themselves, `update_tree`, `clear_fields`,
  `select_item_by_label` and `populate_fields` are not modelled. `save_changes` reports
  which label it would select.
- File I/O is a map from path to document. Concurrency, permissions and exceptions other
  than FileNotFoundError and JSONDecodeError (such as PermissionError and IsADirectoryError)
  are not modelled.
- Each write in the model is a single map update. `json.dump`'s formatting and
  `ensure_ascii` are not modelled.
- `os.path.join` is POSIX joining of two strings. Windows drive letters and backslashes are
  not modelled.
- Floating-point JSON numbers are not modelled. The `float` branch of the default coercion
  is a parameter of `SchemaEditor.CoerceDefault`.
- `str.lower`, `str.strip` and `int()` are modelled on ASCII. Unicode case folding,
  Unicode whitespace and non-ASCII digits are not.
- `repr()` quotes strings with single quotes and does not escape inner quotes.
- KeyPathWriter.SetPath: the source mutates the loaded document in place through a cursor.
  The model rebuilds the document value, so aliasing between parts of the document is not
  captured.
- UiUpdater.WidgetForm: the source mutates each widget object in place. The model keeps one
  cell value per key, so two keys sharing one widget object are not captured.
- Widgets.Widget.WithValue: `BooleanVar.set(v)` converts `v` with Tcl's `getboolean` at the
  time of the call. It raises TypeError for None, lists and dicts and TclError for a string
  that is not a boolean word, and stores a Python bool otherwise. The model stores `v` as
  given and never raises there.
- UiUpdater.Defaults, UiUpdater.DefaultsGet and UiUpdater.WidgetForm.InitializeWithDefaults:
  a BooleanVar whose setting has no default (or a non-boolean one) makes
  `initialize_with_defaults` raise at ui_updater.py:48; the model writes the value instead.
- UiUpdater.PresetGet and UiUpdater.WidgetForm.UpdateUiWithPreset: a preset value that is not
  a boolean, written into a BooleanVar, makes `update_ui_with_preset` raise at
  ui_updater.py:78; the model writes the value instead.
- KeyPathWriter.ApplyChangeListIdempotent: proved only for prefix-free change lists.
  KeyPathWriter.ApplyTwiceCanFail shows a list that is not prefix-free where a second
  application raises TypeError.
- UiUpdater.PresetGet: stated for presets without repeated keys, as a Python dict is.
- UiUpdater.DefaultsGet: stated for schemas whose key paths are all different. With repeats,
  the last setting's default wins.
- BatchApply.WriteFilesResult: stated for change sets whose files resolve to different paths.
  Two names for one file would see each other's writes.
- BatchApply.ApplyChangesWritesChangeSets and BatchApply.ApplyChangesSimpleFile: stated, for
  the same reason, for change sets whose files resolve to different paths.
- The `complex` flag is a boolean. Truthiness of other JSON values is not modelled.
- A schema is always `{"tabs": ...}` of objects with `groups` and `settings`. A schema
  document missing those keys is not modelled.
- `SchemaEditor.Save` leaves out the file save and reload (`save_json`, `load_config`). It
  assumes the reloaded tree equals the saved one.
- `ConfigManager.load_config` and `load_schema` are not modelled: the configuration and the
  schema are given values.
- gui.py, app_logic.py, main.py, preset_manager.py, directory_validator.py, tooltip.py and
  logger_setup.py are not part of this model. They are layout, startup, dialogs and logging.
- tests/test_batch_apply.py, tests/test_change_tracker.py and tests/test_change_handlers.py
  target modules and constructors that the code does not define, so they are not modelled.

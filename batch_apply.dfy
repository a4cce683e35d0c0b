/** `BatchApply.apply_changes`: the complex rule first, then the simple changes grouped by
    file, each file loaded, changed key path by key path, and written back.  Any exception
    while a file is processed is re-raised and stops the run, so later files are not written
    while earlier ones stay written. */
module BatchApply {
  import opened Outcomes
  import opened Dicts
  import opened JsonValues
  import opened Schemas
  import opened Widgets
  import opened Files
  import opened ConfigManager
  import opened PathResolver
  import opened ChangeSets
  import opened KeyPathWriter
  import opened ComplexConfig

  /** The files after a run, and the exception that escaped, if any. */
  datatype BatchRun = BatchRun(fs: FileSystem, raised: Option<Error>)

  /** The `try` block for one file: resolve, load, apply the changes, write back. */
  function WriteFile(resolve: string -> Result<string>, fs: FileSystem, relativePath: string, changes: seq<Change>): (r: Result<FileSystem>)
    ensures r.Ok? ==> r.value.Keys == fs.Keys
  {
    match resolve(relativePath)
    case Err(e) => Err(e)
    case Ok(path) =>
      match ReadJson(fs, path)
      case Err(e) => Err(e)
      case Ok(data) =>
        match ApplyChangeList(data, changes)
        case Err(e) => Err(e)
        case Ok(doc) => Ok(WriteJson(fs, path, doc))
  }

  /** `for relative_path, changes in file_changes.items()`, stopping at the first exception. */
  function WriteFiles(resolve: string -> Result<string>, fs: FileSystem, fc: FileChanges): (r: BatchRun)
    ensures r.fs.Keys == fs.Keys
    decreases |fc|
  {
    if fc == [] then BatchRun(fs, None)
    else
      match WriteFile(resolve, fs, fc[0].0, fc[0].1)
      case Err(e) => BatchRun(fs, Some(e))
      case Ok(fs') => WriteFiles(resolve, fs', fc[1..])
  }

  /** `resolve_full_path` against the configuration `m`; the file steps take it as a
      parameter, so that what they promise holds for any resolver. */
  function Resolver(m: Manager): string -> Result<string> {
    p => ResolveFullPath(m, p)
  }

  /** `apply_changes(settings, schema)`: the complex rule, then the simple changes. */
  function ApplyChanges(m: Manager, widgets: Dict<Widget>, schema: Schema, fs: FileSystem): BatchRun {
    var complex := UpdateAmmoStackSize(m, widgets, schema, fs);
    if complex.raised.Some? then BatchRun(complex.state.fs, complex.raised)
    else WriteFiles(Resolver(m), complex.state.fs, Organize(Traversal(schema), widgets))
  }

  /** The file loop, as the source writes it. */
  method WriteAll(resolve: string -> Result<string>, fs0: FileSystem, fileChanges: FileChanges) returns (run: BatchRun)
    ensures run == WriteFiles(resolve, fs0, fileChanges)
  {
    var fs := fs0;
    var i := 0;
    while i < |fileChanges|
      invariant 0 <= i <= |fileChanges|
      invariant WriteFiles(resolve, fs0, fileChanges) == WriteFiles(resolve, fs, fileChanges[i..])
    {
      assert fileChanges[i..][0] == fileChanges[i] && fileChanges[i..][1..] == fileChanges[i + 1..];
      var (relativePath, changes) := fileChanges[i];
      var resolved := resolve(relativePath);
      if resolved.Err? {
        return BatchRun(fs, Some(resolved.error));
      }
      var filePath := resolved.value;
      var loaded := ReadJson(fs, filePath);
      if loaded.Err? {
        return BatchRun(fs, Some(loaded.error));
      }
      var data := ApplyFileChanges(loaded.value, changes);
      if data.Err? {
        return BatchRun(fs, Some(data.error));
      }
      fs := WriteJson(fs, filePath, data.value);
      i := i + 1;
    }
    return BatchRun(fs, None);
  }

  /** `apply_changes(settings, schema)` as the source runs it. */
  method ApplyAll(m: Manager, widgets: Dict<Widget>, schema: Schema, fs: FileSystem) returns (run: BatchRun)
    ensures run == ApplyChanges(m, widgets, schema, fs)
  {
    var complex := AmmoStackSize(m, widgets, schema, fs);
    if complex.raised.Some? {
      return BatchRun(complex.state.fs, complex.raised);
    }
    var fileChanges := OrganizeChangesByFile(widgets, schema);
    run := WriteAll(Resolver(m), complex.state.fs, fileChanges);
  }

  lemma {:induction false} WriteFilesAppend(resolve: string -> Result<string>, fs: FileSystem, a: FileChanges, b: FileChanges)
    ensures WriteFiles(resolve, fs, a + b)
         == var r := WriteFiles(resolve, fs, a); if r.raised.Some? then r else WriteFiles(resolve, r.fs, b)
    decreases |a|
  {
    if a == [] {
      assert a + b == b;
    } else {
      assert (a + b)[0] == a[0] && (a + b)[1..] == a[1..] + b;
      var w := WriteFile(resolve, fs, a[0].0, a[0].1);
      if w.Ok? {
        WriteFilesAppend(resolve, w.value, a[1..], b);
      }
    }
  }

  /** A file whose processing raises stops the run with that exception: the files before it
      stay written, and neither it nor any later file is written. */
  lemma FailureStopsLaterFiles(resolve: string -> Result<string>, fs: FileSystem, before: FileChanges, failing: (string, seq<Change>), after: FileChanges)
    requires WriteFiles(resolve, fs, before).raised.None?
    requires WriteFile(resolve, WriteFiles(resolve, fs, before).fs, failing.0, failing.1).Err?
    ensures WriteFiles(resolve, fs, before + [failing] + after)
         == BatchRun(WriteFiles(resolve, fs, before).fs, Some(WriteFile(resolve, WriteFiles(resolve, fs, before).fs, failing.0, failing.1).error))
  {
    WriteFilesAppend(resolve, fs, before, [failing] + after);
    assert before + [failing] + after == before + ([failing] + after);
  }

  /** Writing one file changes only its resolved path, and only a path that already held a
      readable document. */
  lemma WriteFileFrame(resolve: string -> Result<string>, fs: FileSystem, relativePath: string, changes: seq<Change>)
    requires WriteFile(resolve, fs, relativePath, changes).Ok?
    ensures var path := resolve(relativePath).value;
            var fs' := WriteFile(resolve, fs, relativePath, changes).value;
            && path in fs && fs[path].Parses?
            && fs'.Keys == fs.Keys
            && fs'[path] == Parses(ApplyChangeList(fs[path].doc, changes).value)
            && forall p :: p in fs && p != path ==> fs'[p] == fs[p]
  {
  }

  /** The set of files never grows, and a path no file of the change set resolves to is left
      as it was, whatever happens. */
  lemma {:induction false} WriteFilesFrame(resolve: string -> Result<string>, fs: FileSystem, fc: FileChanges, p: string)
    requires p in fs
    requires forall i :: 0 <= i < |fc| ==> resolve(fc[i].0) != Ok(p)
    ensures WriteFiles(resolve, fs, fc).fs.Keys == fs.Keys
    ensures WriteFiles(resolve, fs, fc).fs[p] == fs[p]
    decreases |fc|
  {
    if fc != [] {
      var w := WriteFile(resolve, fs, fc[0].0, fc[0].1);
      if w.Ok? {
        WriteFileFrame(resolve, fs, fc[0].0, fc[0].1);
        assert forall i :: 1 <= i < |fc| ==> fc[1..][i - 1] == fc[i];
        WriteFilesFrame(resolve, w.value, fc[1..], p);
      }
    }
  }

  /** The files of the change set resolve to pairwise different paths. */
  predicate DistinctTargets(resolve: string -> Result<string>, fc: FileChanges) {
    forall i, j :: 0 <= i < |fc| && 0 <= j < |fc| && i != j ==> resolve(fc[i].0) != resolve(fc[j].0)
  }

  /** A file that is written successfully hands the rest of the run its new files. */
  lemma WriteFilesCons(resolve: string -> Result<string>, fs: FileSystem, first: (string, seq<Change>), rest: FileChanges)
    requires WriteFile(resolve, fs, first.0, first.1).Ok?
    ensures WriteFiles(resolve, fs, [first] + rest) == WriteFiles(resolve, WriteFile(resolve, fs, first.0, first.1).value, rest)
  {
    assert ([first] + rest)[0] == first && ([first] + rest)[1..] == rest;
  }

  /** A run that raises nothing wrote its first file successfully. */
  lemma WriteFilesFirstOk(resolve: string -> Result<string>, fs: FileSystem, first: (string, seq<Change>), rest: FileChanges)
    requires WriteFiles(resolve, fs, [first] + rest).raised.None?
    ensures WriteFile(resolve, fs, first.0, first.1).Ok?
  {
    assert ([first] + rest)[0] == first;
  }

  lemma DistinctTargetsTail(resolve: string -> Result<string>, fc: FileChanges)
    requires fc != [] && DistinctTargets(resolve, fc)
    ensures DistinctTargets(resolve, fc[1..])
  {
    var rest := fc[1..];
    forall a, b | 0 <= a < |rest| && 0 <= b < |rest| && a != b
      ensures resolve(rest[a].0) != resolve(rest[b].0)
    {
      assert rest[a] == fc[a + 1] && rest[b] == fc[b + 1];
    }
  }

  lemma DistinctTargetsFirst(resolve: string -> Result<string>, fc: FileChanges)
    requires fc != [] && DistinctTargets(resolve, fc)
    ensures forall k :: 0 <= k < |fc[1..]| ==> resolve(fc[1..][k].0) != resolve(fc[0].0)
  {
    forall k | 0 <= k < |fc[1..]| ensures resolve(fc[1..][k].0) != resolve(fc[0].0) {
      assert fc[1..][k] == fc[k + 1];
    }
  }

  /** When every file is written and the files resolve to different paths, each file holds
      its original document with its changes applied in order. */
  lemma {:induction false} WriteFilesResult(resolve: string -> Result<string>, fs: FileSystem, fc: FileChanges, i: nat)
    requires WriteFiles(resolve, fs, fc).raised.None? && DistinctTargets(resolve, fc) && i < |fc|
    ensures resolve(fc[i].0).Ok?
    ensures var path := resolve(fc[i].0).value;
            && path in fs && fs[path].Parses?
            && ApplyChangeList(fs[path].doc, fc[i].1).Ok?
            && WriteFiles(resolve, fs, fc).fs[path] == Parses(ApplyChangeList(fs[path].doc, fc[i].1).value)
    decreases |fc|
  {
    var first, rest := fc[0], fc[1..];
    assert fc == [first] + rest;
    WriteFilesFirstOk(resolve, fs, first, rest);
    var fs' := WriteFile(resolve, fs, first.0, first.1).value;
    assert WriteFiles(resolve, fs, fc) == WriteFiles(resolve, fs', rest) by {
      WriteFilesCons(resolve, fs, first, rest);
    }
    var path0 := resolve(first.0).value;
    assert fs'.Keys == fs.Keys && path0 in fs && fs[path0].Parses?
        && fs'[path0] == Parses(ApplyChangeList(fs[path0].doc, first.1).value)
        && forall p :: p in fs && p != path0 ==> fs'[p] == fs[p] by {
      WriteFileFrame(resolve, fs, first.0, first.1);
    }
    if i == 0 {
      DistinctTargetsFirst(resolve, fc);
      WriteFilesFrame(resolve, fs', rest, path0);
    } else {
      DistinctTargetsTail(resolve, fc);
      assert rest[i - 1] == fc[i];
      WriteFilesResult(resolve, fs', rest, i - 1);
      var path := resolve(fc[i].0).value;
      assert path != path0 by {
        assert resolve(fc[i].0) != resolve(fc[0].0);
      }
      assert fs'[path] == fs[path];
    }
  }

  /** When the complex rule raises, the run stops there: a path no handled complex setting
      resolves to keeps its contents, whatever the change set asks for it. */
  lemma ComplexFailureWritesNothingElse(m: Manager, widgets: Dict<Widget>, schema: Schema, fs: FileSystem, p: string)
    requires UpdateAmmoStackSize(m, widgets, schema, fs).raised.Some?
    requires p in fs
    requires forall k :: 0 <= k < |Traversal(schema)| && Handled(Traversal(schema)[k], widgets) ==>
               ResolveFullPath(m, Traversal(schema)[k].file) != Ok(p)
    ensures ApplyChanges(m, widgets, schema, fs).raised == UpdateAmmoStackSize(m, widgets, schema, fs).raised
    ensures ApplyChanges(m, widgets, schema, fs).fs.Keys == fs.Keys
    ensures ApplyChanges(m, widgets, schema, fs).fs[p] == fs[p]
  {
    AmmoFromFrame(m, widgets, ComplexState(fs, []), Traversal(schema), p);
  }

  /** A run that raises nothing, over a change set whose files resolve to different paths:
      each file of the change set ends holding the document the complex rule left there,
      with that file's changes applied in order. */
  lemma ApplyChangesWritesChangeSets(m: Manager, widgets: Dict<Widget>, schema: Schema, fs: FileSystem, i: nat)
    requires ApplyChanges(m, widgets, schema, fs).raised.None?
    requires DistinctTargets(Resolver(m), Organize(Traversal(schema), widgets))
    requires i < |Organize(Traversal(schema), widgets)|
    ensures UpdateAmmoStackSize(m, widgets, schema, fs).raised.None?
    ensures ResolveFullPath(m, Organize(Traversal(schema), widgets)[i].0).Ok?
    ensures var fc := Organize(Traversal(schema), widgets);
            var complexFs := UpdateAmmoStackSize(m, widgets, schema, fs).state.fs;
            var path := ResolveFullPath(m, fc[i].0).value;
            && path in fs && path in complexFs && complexFs[path].Parses?
            && ApplyChangeList(complexFs[path].doc, fc[i].1).Ok?
            && path in ApplyChanges(m, widgets, schema, fs).fs
            && ApplyChanges(m, widgets, schema, fs).fs[path] == Parses(ApplyChangeList(complexFs[path].doc, fc[i].1).value)
  {
    var complex := UpdateAmmoStackSize(m, widgets, schema, fs);
    AmmoFromKeys(m, widgets, ComplexState(fs, []), Traversal(schema));
    WriteFilesResult(Resolver(m), complex.state.fs, Organize(Traversal(schema), widgets), i);
  }

  /** As above, for a file no handled complex setting resolves to: it ends holding its
      original document with its changes applied in order. */
  lemma ApplyChangesSimpleFile(m: Manager, widgets: Dict<Widget>, schema: Schema, fs: FileSystem, i: nat)
    requires ApplyChanges(m, widgets, schema, fs).raised.None?
    requires DistinctTargets(Resolver(m), Organize(Traversal(schema), widgets))
    requires i < |Organize(Traversal(schema), widgets)|
    requires forall k :: 0 <= k < |Traversal(schema)| && Handled(Traversal(schema)[k], widgets) ==>
               ResolveFullPath(m, Traversal(schema)[k].file) != ResolveFullPath(m, Organize(Traversal(schema), widgets)[i].0)
    ensures ResolveFullPath(m, Organize(Traversal(schema), widgets)[i].0).Ok?
    ensures var fc := Organize(Traversal(schema), widgets);
            var path := ResolveFullPath(m, fc[i].0).value;
            && path in fs && fs[path].Parses?
            && ApplyChangeList(fs[path].doc, fc[i].1).Ok?
            && path in ApplyChanges(m, widgets, schema, fs).fs
            && ApplyChanges(m, widgets, schema, fs).fs[path] == Parses(ApplyChangeList(fs[path].doc, fc[i].1).value)
  {
    ApplyChangesWritesChangeSets(m, widgets, schema, fs, i);
    var path := ResolveFullPath(m, Organize(Traversal(schema), widgets)[i].0).value;
    AmmoFromFrame(m, widgets, ComplexState(fs, []), Traversal(schema), path);
  }

  /** A path that neither a handled complex setting nor a file of the change set resolves to
      keeps its contents, whether the run raises or not. */
  lemma ApplyChangesFrame(m: Manager, widgets: Dict<Widget>, schema: Schema, fs: FileSystem, p: string)
    requires p in fs
    requires forall k :: 0 <= k < |Traversal(schema)| && Handled(Traversal(schema)[k], widgets) ==>
               ResolveFullPath(m, Traversal(schema)[k].file) != Ok(p)
    requires forall k :: 0 <= k < |Organize(Traversal(schema), widgets)| ==>
               ResolveFullPath(m, Organize(Traversal(schema), widgets)[k].0) != Ok(p)
    ensures ApplyChanges(m, widgets, schema, fs).fs.Keys == fs.Keys
    ensures ApplyChanges(m, widgets, schema, fs).fs[p] == fs[p]
  {
    var complex := UpdateAmmoStackSize(m, widgets, schema, fs);
    AmmoFromFrame(m, widgets, ComplexState(fs, []), Traversal(schema), p);
    if complex.raised.None? {
      var fc := Organize(Traversal(schema), widgets);
      assert forall k :: 0 <= k < |fc| ==> Resolver(m)(fc[k].0) != Ok(p);
      WriteFilesFrame(Resolver(m), complex.state.fs, fc, p);
    }
  }
}

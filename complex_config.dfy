/** `ComplexConfigHandler.update_ammo_stack_size`: the one hard-coded complex rule.  For each
    complex setting with key path `_props.StackMaxSize` that has a widget, the target file is
    loaded, every top-level record whose `_parent` is the ammunition parent id gets
    `_props.StackMaxSize = int(value)`, and the file is written back.  A missing file and any
    ValueError (unknown root, undecodable JSON, a value `int()` rejects) are logged and
    swallowed; every other exception propagates. */
module ComplexConfig {
  import opened Outcomes
  import opened Dicts
  import opened PyStrings
  import opened JsonValues
  import opened Schemas
  import opened Widgets
  import opened Files
  import opened ConfigManager
  import opened PathResolver
  import KeyPathWriter

  const AmmoParent := "5485a8684bdc2da71d8b4567"
  const StackKeyPath := "_props.StackMaxSize"

  /** The loop body for one record `item_data`: `item_data.get('_parent')` (AttributeError
      when the record is not a dict), then for a match `item_data['_props']['StackMaxSize'] =
      int(value)`, where `int(value)` is evaluated before `item_data['_props']` is looked up. */
  function RewriteRecord(item: Json, value: Json): Result<Json> {
    if !item.JObj? then Err(AttributeError)
    else if Get(item.fields, "_parent") != Some(JStr(AmmoParent)) then Ok(item)
    else
      match IntOf(value)
      case Err(e) => Err(e)
      case Ok(n) =>
        match Get(item.fields, "_props")
        case None => Err(KeyError("_props"))
        case Some(props) =>
          if !props.JObj? then Err(TypeError)
          else Ok(JObj(Put(item.fields, "_props", JObj(Put(props.fields, "StackMaxSize", JInt(n))))))
  }

  /** `for item_id, item_data in data.items()`, stopping at the first exception. */
  function RewriteRecords(records: Dict<Json>, value: Json): Result<Dict<Json>>
    decreases |records|
  {
    if records == [] then Ok([])
    else
      match RewriteRecord(records[0].1, value)
      case Err(e) => Err(e)
      case Ok(item) =>
        match RewriteRecords(records[1..], value)
        case Err(e) => Err(e)
        case Ok(rest) => Ok([(records[0].0, item)] + rest)
  }

  /** The rewrite of a loaded document: `data.items()` needs a dict (AttributeError otherwise). */
  function RewriteData(data: Json, value: Json): Result<Json> {
    if !data.JObj? then Err(AttributeError)
    else
      match RewriteRecords(data.fields, value)
      case Err(e) => Err(e)
      case Ok(fields) => Ok(JObj(fields))
  }

  /** The records already rewritten, followed by the outcome of the rest. */
  function Prepend(done: Dict<Json>, rest: Result<Dict<Json>>): Result<Dict<Json>> {
    if rest.Ok? then Ok(done + rest.value) else rest
  }

  lemma RewriteRecordsCons(records: Dict<Json>, value: Json)
    requires records != [] && RewriteRecord(records[0].1, value).Ok?
    ensures RewriteRecords(records, value)
         == Prepend([(records[0].0, RewriteRecord(records[0].1, value).value)], RewriteRecords(records[1..], value))
  {
  }

  lemma PrependTwice(a: Dict<Json>, b: Dict<Json>, r: Result<Dict<Json>>)
    ensures Prepend(a, Prepend(b, r)) == Prepend(a + b, r)
  {
    if r.Ok? {
      assert a + (b + r.value) == (a + b) + r.value;
    }
  }

  /** The record loop as the source runs it, rewriting the records where they stand. */
  method RewriteDataInPlace(data: Json, value: Json) returns (r: Result<Json>)
    ensures r == RewriteData(data, value)
  {
    if !data.JObj? {
      return Err(AttributeError);
    }
    var records := data.fields;
    var i := 0;
    assert Prepend(records[..0], RewriteRecords(records[0..], value)) == RewriteRecords(records, value) by {
      assert records[..0] == [] && records[0..] == records;
      var all := RewriteRecords(records, value);
      if all.Ok? {
        assert [] + all.value == all.value;
      }
    }
    while i < |records|
      invariant 0 <= i <= |records| && |records| == |data.fields|
      invariant RewriteRecords(data.fields, value) == Prepend(records[..i], RewriteRecords(records[i..], value))
    {
      var item := RewriteRecord(records[i].1, value);
      assert records[i..][0] == records[i] && records[i..][1..] == records[i + 1..];
      if item.Err? {
        return Err(item.error);
      }
      var entry := (records[i].0, item.value);
      RewriteRecordsCons(records[i..], value);
      PrependTwice(records[..i], [entry], RewriteRecords(records[i + 1..], value));
      var before := records;
      records := records[i := entry];
      assert records[i + 1..] == before[i + 1..];
      assert records[..i + 1] == before[..i] + [entry];
      i := i + 1;
    }
    assert records[..i] == records && records[i..] == [] && records + [] == records;
    return Ok(JObj(records));
  }

  /** A matching record gets `_props.StackMaxSize = int(value)` exactly as the key-path writer
      would put it there, when its `_props` is a dict; a record whose `_parent` differs is
      returned unchanged. */
  lemma RewriteRecordMatches(item: Json, value: Json, n: int)
    requires item.JObj? && IntOf(value) == Ok(n)
    ensures Get(item.fields, "_parent") != Some(JStr(AmmoParent)) ==> RewriteRecord(item, value) == Ok(item)
    ensures Get(item.fields, "_parent") == Some(JStr(AmmoParent)) && Get(item.fields, "_props").Some?
              && Get(item.fields, "_props").value.JObj? ==>
              RewriteRecord(item, value) == KeyPathWriter.SetPath(item, ["_props", "StackMaxSize"], JInt(n))
  {
    if Get(item.fields, "_parent") == Some(JStr(AmmoParent)) && Get(item.fields, "_props").Some? {
      assert ["_props", "StackMaxSize"][1..] == ["StackMaxSize"];
    }
  }

  /** Unlike the key-path writer, a matching record without `_props` is not given one: the
      rewrite raises KeyError (once `int(value)` has succeeded), and a `_props` that is not a
      dict raises TypeError. */
  lemma RewriteRecordErrors(item: Json, value: Json)
    requires item.JObj? && Get(item.fields, "_parent") == Some(JStr(AmmoParent))
    ensures IntOf(value).Err? ==> RewriteRecord(item, value) == Err(IntOf(value).error)
    ensures IntOf(value).Ok? && "_props" !in Keys(item.fields) ==> RewriteRecord(item, value) == Err(KeyError("_props"))
    ensures IntOf(value).Ok? && Get(item.fields, "_props").Some? && !Get(item.fields, "_props").value.JObj? ==>
              RewriteRecord(item, value) == Err(TypeError)
  {
  }

  /** The rewrite of a non-empty run of records: the first record, then the rest. */
  lemma RewriteRecordsFirst(records: Dict<Json>, value: Json)
    requires records != []
    ensures RewriteRecords(records, value).Ok?
        <==> RewriteRecord(records[0].1, value).Ok? && RewriteRecords(records[1..], value).Ok?
    ensures RewriteRecords(records, value).Ok? ==>
              RewriteRecords(records, value).value
              == [(records[0].0, RewriteRecord(records[0].1, value).value)] + RewriteRecords(records[1..], value).value
  {
  }

  lemma {:induction false} RewriteRecordsOk(records: Dict<Json>, value: Json)
    ensures RewriteRecords(records, value).Ok? <==> forall i :: 0 <= i < |records| ==> RewriteRecord(records[i].1, value).Ok?
    decreases |records|
  {
    if records != [] {
      RewriteRecordsOk(records[1..], value);
      RewriteRecordsFirst(records, value);
      assert forall i :: 1 <= i < |records| ==> records[1..][i - 1] == records[i];
      if !RewriteRecords(records, value).Ok? && RewriteRecord(records[0].1, value).Ok? {
        var i :| 0 <= i < |records[1..]| && !RewriteRecord(records[1..][i].1, value).Ok?;
        assert !RewriteRecord(records[i + 1].1, value).Ok?;
      }
    }
  }

  lemma {:induction false} RewriteRecordsOutput(records: Dict<Json>, value: Json)
    requires RewriteRecords(records, value).Ok?
    ensures Keys(RewriteRecords(records, value).value) == Keys(records)
    ensures forall i :: 0 <= i < |records| ==> RewriteRecord(records[i].1, value) == Ok(RewriteRecords(records, value).value[i].1)
    decreases |records|
  {
    if records != [] {
      RewriteRecordsFirst(records, value);
      RewriteRecordsOutput(records[1..], value);
      var out := RewriteRecords(records, value).value;
      var first := (records[0].0, RewriteRecord(records[0].1, value).value);
      var rest := RewriteRecords(records[1..], value).value;
      assert out == [first] + rest;
      assert Keys(out) == Keys(records) by {
        KeysCons(first, rest);
        KeysCons(records[0], records[1..]);
        assert records == [records[0]] + records[1..];
      }
      forall i | 0 <= i < |records|
        ensures RewriteRecord(records[i].1, value) == Ok(out[i].1)
      {
        if i > 0 {
          assert records[1..][i - 1] == records[i] && rest[i - 1] == out[i];
        }
      }
    }
  }

  /** The records keep their ids and their order; each one is rewritten on its own, and the
      rewrite fails exactly when some record's does. */
  lemma RewriteRecordsPointwise(records: Dict<Json>, value: Json)
    ensures RewriteRecords(records, value).Ok? <==> forall i :: 0 <= i < |records| ==> RewriteRecord(records[i].1, value).Ok?
    ensures RewriteRecords(records, value).Ok? ==>
              var out := RewriteRecords(records, value).value;
              && Keys(out) == Keys(records)
              && forall i :: 0 <= i < |records| ==> RewriteRecord(records[i].1, value) == Ok(out[i].1)
  {
    RewriteRecordsOk(records, value);
    if RewriteRecords(records, value).Ok? {
      RewriteRecordsOutput(records, value);
    }
  }

  /** The complex rule's state: the files, and the `file_changes` result map (relative path
      to the rewritten document). */
  datatype ComplexState = ComplexState(fs: FileSystem, fileChanges: Dict<Json>)

  /** The state reached, and the exception that escaped, if any. */
  datatype ComplexRun = ComplexRun(state: ComplexState, raised: Option<Error>)

  /** The settings the rule handles. */
  predicate Handled(s: Setting, widgets: Dict<Widget>) {
    s.complex && s.keyPath == StackKeyPath && s.keyPath in Keys(widgets)
  }

  /** The exceptions the handler catches: FileNotFoundError and ValueError. */
  predicate Swallowed(e: Error) {
    e.FileNotFound? || e.IsValueError()
  }

  /** The `try` block for one handled setting: resolve, load, rewrite; the new document, or
      the exception. */
  function Attempt(m: Manager, fs: FileSystem, s: Setting, value: Json): Result<(string, Json)> {
    match ResolveFullPath(m, s.file)
    case Err(e) => Err(e)
    case Ok(path) =>
      match ReadJson(fs, path)
      case Err(e) => Err(e)
      case Ok(data) =>
        match RewriteData(data, value)
        case Err(e) => Err(e)
        case Ok(doc) => Ok((path, doc))
  }

  /** The loop body for one setting, with the handler's `except` clauses. */
  function HandleSetting(m: Manager, widgets: Dict<Widget>, st: ComplexState, s: Setting): ComplexRun {
    if !Handled(s, widgets) then ComplexRun(st, None)
    else
      var value := Get(widgets, s.keyPath).value.CurrentValue();
      match Attempt(m, st.fs, s, value)
      case Err(e) => if Swallowed(e) then ComplexRun(st, None) else ComplexRun(st, Some(e))
      case Ok((path, doc)) =>
        ComplexRun(ComplexState(WriteJson(st.fs, path, doc), Put(st.fileChanges, s.file, doc)), None)
  }

  /** The settings in order, stopping at the first exception that escapes. */
  function AmmoFrom(m: Manager, widgets: Dict<Widget>, st: ComplexState, ss: seq<Setting>): ComplexRun
    decreases |ss|
  {
    if ss == [] then ComplexRun(st, None)
    else
      var r := HandleSetting(m, widgets, st, ss[0]);
      if r.raised.Some? then r else AmmoFrom(m, widgets, r.state, ss[1..])
  }

  /** `update_ammo_stack_size(settings, schema)` on the files `fs`. */
  function UpdateAmmoStackSize(m: Manager, widgets: Dict<Widget>, schema: Schema, fs: FileSystem): ComplexRun {
    AmmoFrom(m, widgets, ComplexState(fs, []), Traversal(schema))
  }

  lemma {:induction false} AmmoFromAppend(m: Manager, widgets: Dict<Widget>, st: ComplexState, a: seq<Setting>, b: seq<Setting>)
    ensures AmmoFrom(m, widgets, st, a + b)
         == var r := AmmoFrom(m, widgets, st, a); if r.raised.Some? then r else AmmoFrom(m, widgets, r.state, b)
    decreases |a|
  {
    if a == [] {
      assert a + b == b;
    } else {
      assert (a + b)[0] == a[0] && (a + b)[1..] == a[1..] + b;
      var r := HandleSetting(m, widgets, st, a[0]);
      if r.raised.None? {
        AmmoFromAppend(m, widgets, r.state, a[1..], b);
      }
    }
  }

  /** Settings the rule does not handle, and handled settings whose failure is swallowed,
      leave the files and the result map as they were. */
  lemma HandleSettingSkips(m: Manager, widgets: Dict<Widget>, st: ComplexState, s: Setting)
    ensures !Handled(s, widgets) ==> HandleSetting(m, widgets, st, s) == ComplexRun(st, None)
    ensures Handled(s, widgets) &&
            Attempt(m, st.fs, s, Get(widgets, s.keyPath).value.CurrentValue()).Err? &&
            Swallowed(Attempt(m, st.fs, s, Get(widgets, s.keyPath).value.CurrentValue()).error) ==>
              HandleSetting(m, widgets, st, s) == ComplexRun(st, None)
  {
  }

  /** A handled setting whose file is rewritten: the resolved file now holds the rewritten
      document, the result map records it under the relative path, and no other file changes. */
  lemma HandleSettingWrites(m: Manager, widgets: Dict<Widget>, st: ComplexState, s: Setting)
    requires Handled(s, widgets)
    requires Attempt(m, st.fs, s, Get(widgets, s.keyPath).value.CurrentValue()).Ok?
    ensures var value := Get(widgets, s.keyPath).value.CurrentValue();
            var path := ResolveFullPath(m, s.file).value;
            var r := HandleSetting(m, widgets, st, s);
            && path in st.fs && st.fs[path].Parses?
            && r.raised == None
            && RewriteData(st.fs[path].doc, value) == Ok(r.state.fs[path].doc)
            && Get(r.state.fileChanges, s.file) == Some(r.state.fs[path].doc)
            && r.state.fs.Keys == st.fs.Keys
            && forall p :: p in st.fs && p != path ==> r.state.fs[p] == st.fs[p]
  {
  }

  /** Every file the rule writes existed and was readable before: the set of files never
      grows, and a file no handled setting resolves to is left as it was. */
  lemma {:induction false} AmmoFromFrame(m: Manager, widgets: Dict<Widget>, st: ComplexState, ss: seq<Setting>, p: string)
    requires p in st.fs
    requires forall i :: 0 <= i < |ss| && Handled(ss[i], widgets) ==> ResolveFullPath(m, ss[i].file) != Ok(p)
    ensures AmmoFrom(m, widgets, st, ss).state.fs.Keys == st.fs.Keys
    ensures AmmoFrom(m, widgets, st, ss).state.fs[p] == st.fs[p]
    decreases |ss|
  {
    if ss != [] {
      var r := HandleSetting(m, widgets, st, ss[0]);
      assert r.state.fs.Keys == st.fs.Keys && r.state.fs[p] == st.fs[p] by {
        if Handled(ss[0], widgets) {
          var value := Get(widgets, ss[0].keyPath).value.CurrentValue();
          if Attempt(m, st.fs, ss[0], value).Ok? {
            HandleSettingWrites(m, widgets, st, ss[0]);
          }
        }
      }
      if r.raised.None? {
        assert forall i :: 1 <= i < |ss| ==> ss[1..][i - 1] == ss[i];
        AmmoFromFrame(m, widgets, r.state, ss[1..], p);
      }
    }
  }

  /** The files never grow: every file the rule writes existed before. */
  lemma {:induction false} AmmoFromKeys(m: Manager, widgets: Dict<Widget>, st: ComplexState, ss: seq<Setting>)
    ensures AmmoFrom(m, widgets, st, ss).state.fs.Keys == st.fs.Keys
    decreases |ss|
  {
    if ss != [] {
      var r := HandleSetting(m, widgets, st, ss[0]);
      assert r.state.fs.Keys == st.fs.Keys by {
        if Handled(ss[0], widgets) && Attempt(m, st.fs, ss[0], Get(widgets, ss[0].keyPath).value.CurrentValue()).Ok? {
          HandleSettingWrites(m, widgets, st, ss[0]);
        }
      }
      if r.raised.None? {
        AmmoFromKeys(m, widgets, r.state, ss[1..]);
      }
    }
  }

  /** Setting `s`, met in state `st`, rewrites the file `f`: it is a handled setting for `f`
      and its `try` block runs to the end. */
  predicate Rewrites(m: Manager, widgets: Dict<Widget>, st: ComplexState, s: Setting, f: string) {
    s.file == f && Handled(s, widgets) && Attempt(m, st.fs, s, Get(widgets, s.keyPath).value.CurrentValue()).Ok?
  }

  /** One setting adds `f` to the result map exactly when it rewrites `f`, and leaves the
      entry of `f` alone otherwise. */
  lemma HandleSettingRecords(m: Manager, widgets: Dict<Widget>, st: ComplexState, s: Setting, f: string)
    requires HandleSetting(m, widgets, st, s).raised.None?
    ensures f in Keys(HandleSetting(m, widgets, st, s).state.fileChanges)
        <==> f in Keys(st.fileChanges) || Rewrites(m, widgets, st, s, f)
    ensures !Rewrites(m, widgets, st, s, f) ==>
              Get(HandleSetting(m, widgets, st, s).state.fileChanges, f) == Get(st.fileChanges, f)
  {
    if Handled(s, widgets) && Attempt(m, st.fs, s, Get(widgets, s.keyPath).value.CurrentValue()).Ok? {
      var doc := Attempt(m, st.fs, s, Get(widgets, s.keyPath).value.CurrentValue()).value.1;
      assert HandleSetting(m, widgets, st, s).state.fileChanges == Put(st.fileChanges, s.file, doc);
    } else {
      assert HandleSetting(m, widgets, st, s).state == st;
    }
  }

  /** The settings before the last one ran without raising, and the last one is handled in
      the state they reached. */
  lemma AmmoFromLast(m: Manager, widgets: Dict<Widget>, st: ComplexState, ss: seq<Setting>)
    requires ss != [] && AmmoFrom(m, widgets, st, ss).raised.None?
    ensures AmmoFrom(m, widgets, st, ss[..|ss| - 1]).raised.None?
    ensures AmmoFrom(m, widgets, st, ss)
         == HandleSetting(m, widgets, AmmoFrom(m, widgets, st, ss[..|ss| - 1]).state, ss[|ss| - 1])
  {
    var n := |ss| - 1;
    assert ss == ss[..n] + [ss[n]];
    AmmoFromAppend(m, widgets, st, ss[..n], [ss[n]]);
    assert [ss[n]][0] == ss[n] && [ss[n]][1..] == [];
  }

  /** Some setting of `ss`, met in the state the run from `st` has reached, rewrites `f`. */
  predicate RewrittenWithin(m: Manager, widgets: Dict<Widget>, st: ComplexState, ss: seq<Setting>, f: string) {
    exists i :: 0 <= i < |ss| && Rewrites(m, widgets, AmmoFrom(m, widgets, st, ss[..i]).state, ss[i], f)
  }

  /** Splitting the last element off a search over the prefixes of a sequence. */
  lemma ExistsPrefixLast<T>(ss: seq<T>, pre: seq<T>, p: (seq<T>, T) -> bool)
    requires ss != [] && pre == ss[..|ss| - 1]
    ensures (exists i :: 0 <= i < |ss| && p(ss[..i], ss[i]))
        <==> (exists i :: 0 <= i < |pre| && p(pre[..i], pre[i])) || p(pre, ss[|ss| - 1])
  {
    if exists i :: 0 <= i < |ss| && p(ss[..i], ss[i]) {
      var i :| 0 <= i < |ss| && p(ss[..i], ss[i]);
      if i < |pre| {
        assert pre[..i] == ss[..i] && pre[i] == ss[i];
      }
    }
    if exists i :: 0 <= i < |pre| && p(pre[..i], pre[i]) {
      var i :| 0 <= i < |pre| && p(pre[..i], pre[i]);
      assert pre[..i] == ss[..i] && pre[i] == ss[i];
    }
  }

  /** The prefixes of `ss[..|ss| - 1]` are those of `ss`, short of the last. */
  lemma ForallPrefixLast<T>(ss: seq<T>, pre: seq<T>, p: (seq<T>, T) -> bool, i: nat)
    requires ss != [] && pre == ss[..|ss| - 1] && i < |pre|
    requires forall j :: i < j < |ss| ==> !p(ss[..j], ss[j])
    ensures p(pre[..i], pre[i]) == p(ss[..i], ss[i])
    ensures forall j :: i < j < |pre| ==> !p(pre[..j], pre[j])
  {
    assert pre[..i] == ss[..i] && pre[i] == ss[i];
    forall j | i < j < |pre|
      ensures !p(pre[..j], pre[j])
    {
      assert pre[..j] == ss[..j] && pre[j] == ss[j];
    }
  }

  lemma RewrittenWithinLast(m: Manager, widgets: Dict<Widget>, st: ComplexState, ss: seq<Setting>, f: string)
    requires ss != []
    ensures RewrittenWithin(m, widgets, st, ss, f)
        <==> RewrittenWithin(m, widgets, st, ss[..|ss| - 1], f)
             || Rewrites(m, widgets, AmmoFrom(m, widgets, st, ss[..|ss| - 1]).state, ss[|ss| - 1], f)
  {
    ExistsPrefixLast(ss, ss[..|ss| - 1], (pre, s) => Rewrites(m, widgets, AmmoFrom(m, widgets, st, pre).state, s, f));
  }

  /** A run that raises nothing records a file in its result map exactly when the file was
      recorded before or some handled setting for it rewrote it. */
  lemma {:induction false} AmmoFromRecords(m: Manager, widgets: Dict<Widget>, st: ComplexState, ss: seq<Setting>, f: string)
    requires AmmoFrom(m, widgets, st, ss).raised.None?
    ensures f in Keys(AmmoFrom(m, widgets, st, ss).state.fileChanges)
        <==> f in Keys(st.fileChanges) || RewrittenWithin(m, widgets, st, ss, f)
    decreases |ss|
  {
    if ss != [] {
      var pre := ss[..|ss| - 1];
      AmmoFromLast(m, widgets, st, ss);
      AmmoFromRecords(m, widgets, st, pre, f);
      HandleSettingRecords(m, widgets, AmmoFrom(m, widgets, st, pre).state, ss[|ss| - 1], f);
      RewrittenWithinLast(m, widgets, st, ss, f);
    }
  }

  /** A last setting that does not rewrite `f` leaves its entry in the result map alone. */
  lemma LastKeepsEntry(m: Manager, widgets: Dict<Widget>, st: ComplexState, ss: seq<Setting>, f: string)
    requires ss != [] && AmmoFrom(m, widgets, st, ss).raised.None?
    requires !Rewrites(m, widgets, AmmoFrom(m, widgets, st, ss[..|ss| - 1]).state, ss[|ss| - 1], f)
    ensures Get(AmmoFrom(m, widgets, st, ss).state.fileChanges, f)
         == Get(AmmoFrom(m, widgets, st, ss[..|ss| - 1]).state.fileChanges, f)
  {
    AmmoFromLast(m, widgets, st, ss);
    HandleSettingRecords(m, widgets, AmmoFrom(m, widgets, st, ss[..|ss| - 1]).state, ss[|ss| - 1], f);
  }

  /** A last setting that rewrites `f` records the document it wrote. */
  lemma LastRewritesHere(m: Manager, widgets: Dict<Widget>, st: ComplexState, ss: seq<Setting>, f: string)
    requires ss != [] && AmmoFrom(m, widgets, st, ss).raised.None?
    requires Rewrites(m, widgets, AmmoFrom(m, widgets, st, ss[..|ss| - 1]).state, ss[|ss| - 1], f)
    ensures var before := AmmoFrom(m, widgets, st, ss[..|ss| - 1]).state;
            var value := Get(widgets, ss[|ss| - 1].keyPath).value.CurrentValue();
            var path := ResolveFullPath(m, f).value;
            && ResolveFullPath(m, f).Ok? && path in before.fs && before.fs[path].Parses?
            && RewriteData(before.fs[path].doc, value).Ok?
            && Get(AmmoFrom(m, widgets, st, ss).state.fileChanges, f) == Some(RewriteData(before.fs[path].doc, value).value)
  {
    AmmoFromLast(m, widgets, st, ss);
    HandleSettingWrites(m, widgets, AmmoFrom(m, widgets, st, ss[..|ss| - 1]).state, ss[|ss| - 1]);
  }

  /** A run that raises nothing records, for each file, the document written by the last
      setting that rewrote it: that file as it stood just before, with the rule applied. */
  lemma {:induction false} AmmoFromLastRewrite(m: Manager, widgets: Dict<Widget>, st: ComplexState, ss: seq<Setting>, f: string, i: nat)
    requires AmmoFrom(m, widgets, st, ss).raised.None?
    requires i < |ss| && Rewrites(m, widgets, AmmoFrom(m, widgets, st, ss[..i]).state, ss[i], f)
    requires forall j :: i < j < |ss| ==> !Rewrites(m, widgets, AmmoFrom(m, widgets, st, ss[..j]).state, ss[j], f)
    ensures var before := AmmoFrom(m, widgets, st, ss[..i]).state;
            var path := ResolveFullPath(m, f).value;
            && ResolveFullPath(m, f).Ok? && path in before.fs && before.fs[path].Parses?
            && RewriteData(before.fs[path].doc, Get(widgets, ss[i].keyPath).value.CurrentValue()).Ok?
            && Get(AmmoFrom(m, widgets, st, ss).state.fileChanges, f)
               == Some(RewriteData(before.fs[path].doc, Get(widgets, ss[i].keyPath).value.CurrentValue()).value)
    decreases |ss|, 1
  {
    if i == |ss| - 1 {
      LastRewritesHere(m, widgets, st, ss, f);
    } else {
      EarlierRewrite(m, widgets, st, ss, f, i);
    }
  }

  /** What the run over all but the last setting inherits from the whole run. */
  lemma EarlierRewriteFacts(m: Manager, widgets: Dict<Widget>, st: ComplexState, ss: seq<Setting>, f: string, i: nat)
    requires AmmoFrom(m, widgets, st, ss).raised.None?
    requires i < |ss| - 1
    requires forall j :: i < j < |ss| ==> !Rewrites(m, widgets, AmmoFrom(m, widgets, st, ss[..j]).state, ss[j], f)
    ensures var pre := ss[..|ss| - 1];
            && AmmoFrom(m, widgets, st, pre).raised.None?
            && Get(AmmoFrom(m, widgets, st, ss).state.fileChanges, f) == Get(AmmoFrom(m, widgets, st, pre).state.fileChanges, f)
            && pre[..i] == ss[..i] && pre[i] == ss[i]
            && forall j :: i < j < |pre| ==> !Rewrites(m, widgets, AmmoFrom(m, widgets, st, pre[..j]).state, pre[j], f)
  {
    var pre := ss[..|ss| - 1];
    assert AmmoFrom(m, widgets, st, pre).raised.None? by {
      AmmoFromLast(m, widgets, st, ss);
    }
    assert Get(AmmoFrom(m, widgets, st, ss).state.fileChanges, f)
        == Get(AmmoFrom(m, widgets, st, pre).state.fileChanges, f) by {
      LastKeepsEntry(m, widgets, st, ss, f);
    }
    assert pre[..i] == ss[..i] && pre[i] == ss[i];
    assert forall j :: i < j < |pre| ==> !Rewrites(m, widgets, AmmoFrom(m, widgets, st, pre[..j]).state, pre[j], f) by {
      ForallPrefixLast(ss, pre, (pre, s) => Rewrites(m, widgets, AmmoFrom(m, widgets, st, pre).state, s, f), i);
    }
  }

  /** The case of a rewrite before the last setting: the last setting keeps the entry. */
  lemma {:induction false} EarlierRewrite(m: Manager, widgets: Dict<Widget>, st: ComplexState, ss: seq<Setting>, f: string, i: nat)
    requires AmmoFrom(m, widgets, st, ss).raised.None?
    requires i < |ss| - 1 && Rewrites(m, widgets, AmmoFrom(m, widgets, st, ss[..i]).state, ss[i], f)
    requires forall j :: i < j < |ss| ==> !Rewrites(m, widgets, AmmoFrom(m, widgets, st, ss[..j]).state, ss[j], f)
    ensures var before := AmmoFrom(m, widgets, st, ss[..i]).state;
            var path := ResolveFullPath(m, f).value;
            && ResolveFullPath(m, f).Ok? && path in before.fs && before.fs[path].Parses?
            && RewriteData(before.fs[path].doc, Get(widgets, ss[i].keyPath).value.CurrentValue()).Ok?
            && Get(AmmoFrom(m, widgets, st, ss).state.fileChanges, f)
               == Some(RewriteData(before.fs[path].doc, Get(widgets, ss[i].keyPath).value.CurrentValue()).value)
    decreases |ss|, 0
  {
    var pre := ss[..|ss| - 1];
    EarlierRewriteFacts(m, widgets, st, ss, f, i);
    AmmoFromLastRewrite(m, widgets, st, pre, f, i);
  }

  /** `update_ammo_stack_size` returns `file_changes` holding exactly the relative paths some
      handled setting rewrote. */
  lemma UpdateAmmoStackSizeRecords(m: Manager, widgets: Dict<Widget>, schema: Schema, fs: FileSystem, f: string)
    requires UpdateAmmoStackSize(m, widgets, schema, fs).raised.None?
    ensures f in Keys(UpdateAmmoStackSize(m, widgets, schema, fs).state.fileChanges)
        <==> RewrittenWithin(m, widgets, ComplexState(fs, []), Traversal(schema), f)
  {
    AmmoFromRecords(m, widgets, ComplexState(fs, []), Traversal(schema), f);
  }

  /** The innermost loop, over the settings of one group. */
  method AmmoGroup(m: Manager, widgets: Dict<Widget>, st0: ComplexState, settings: seq<Setting>)
    returns (run: ComplexRun)
    ensures run == AmmoFrom(m, widgets, st0, settings)
  {
    var st := st0;
    var k := 0;
    while k < |settings|
      invariant 0 <= k <= |settings|
      invariant AmmoFrom(m, widgets, st0, settings) == AmmoFrom(m, widgets, st, settings[k..])
    {
      assert settings[k..][0] == settings[k] && settings[k..][1..] == settings[k + 1..];
      var step := HandleSetting(m, widgets, st, settings[k]);
      if step.raised.Some? {
        return step;
      }
      st := step.state;
      k := k + 1;
    }
    return ComplexRun(st, None);
  }

  /** The middle loop, over the groups of one tab. */
  method AmmoTab(m: Manager, widgets: Dict<Widget>, st0: ComplexState, groups: Dict<Group>)
    returns (run: ComplexRun)
    ensures run == AmmoFrom(m, widgets, st0, GroupsTraversal(groups))
  {
    var st := st0;
    var j := 0;
    assert groups[0..] == groups;
    while j < |groups|
      invariant 0 <= j <= |groups|
      invariant AmmoFrom(m, widgets, st0, GroupsTraversal(groups)) == AmmoFrom(m, widgets, st, GroupsTraversal(groups[j..]))
    {
      GroupsTraversalAt(groups, j);
      AmmoFromAppend(m, widgets, st, groups[j].1.settings, GroupsTraversal(groups[j + 1..]));
      var step := AmmoGroup(m, widgets, st, groups[j].1.settings);
      if step.raised.Some? {
        return step;
      }
      st := step.state;
      j := j + 1;
    }
    return ComplexRun(st, None);
  }

  /** `update_ammo_stack_size(settings, schema)`: every tab, every group, every setting. */
  method AmmoStackSize(m: Manager, widgets: Dict<Widget>, schema: Schema, fs: FileSystem)
    returns (run: ComplexRun)
    ensures run == UpdateAmmoStackSize(m, widgets, schema, fs)
  {
    var tabs := schema.tabs;
    var st := ComplexState(fs, []);
    var i := 0;
    assert tabs[0..] == tabs;
    while i < |tabs|
      invariant 0 <= i <= |tabs|
      invariant UpdateAmmoStackSize(m, widgets, schema, fs) == AmmoFrom(m, widgets, st, TabsTraversal(tabs[i..]))
    {
      TabsTraversalAt(tabs, i);
      AmmoFromAppend(m, widgets, st, GroupsTraversal(tabs[i].1.groups), TabsTraversal(tabs[i + 1..]));
      var step := AmmoTab(m, widgets, st, tabs[i].1.groups);
      if step.raised.Some? {
        return step;
      }
      st := step.state;
      i := i + 1;
    }
    return ComplexRun(st, None);
  }

  lemma FiftyReads()
    ensures IntOf(JStr("50")) == Ok(50)
  {
    IntRoundTrip(50);
    DecimalFifty();
  }

  /** An ammunition record with a `_props` dict holding only `StackMaxSize`. */
  function AmmoRecord(parent: string, size: int): Json {
    JObj([("_parent", JStr(parent)), ("_props", JObj([("StackMaxSize", JInt(size))]))])
  }

  lemma AmmoRecordRewritten(parent: string, size: int, value: Json, n: int)
    requires IntOf(value) == Ok(n)
    ensures RewriteRecord(AmmoRecord(parent, size), value)
         == Ok(if parent == AmmoParent then AmmoRecord(parent, n) else AmmoRecord(parent, size))
  {
    var props := JObj([("StackMaxSize", JInt(size))]);
    var props' := JObj([("StackMaxSize", JInt(n))]);
    assert "_parent" != "_props" by {
      assert "_parent"[2] != "_props"[2];
    }
    PutSecond("_parent", JStr(parent), "_props", props, props');
    PutOnly("StackMaxSize", JInt(size), JInt(n));
  }

  lemma RewriteOneRecord(k: string, r: Json, o: Json, value: Json)
    requires RewriteRecord(r, value) == Ok(o)
    ensures RewriteRecords([(k, r)], value) == Ok([(k, o)])
  {
    assert [(k, r)][1..] == [];
    assert [(k, o)] + [] == [(k, o)];
  }

  lemma RewriteTwoRecords(k1: string, k2: string, r1: Json, r2: Json, o1: Json, o2: Json, value: Json)
    requires RewriteRecord(r1, value) == Ok(o1)
    requires RewriteRecord(r2, value) == Ok(o2)
    ensures RewriteRecords([(k1, r1), (k2, r2)], value) == Ok([(k1, o1), (k2, o2)])
  {
    RewriteOneRecord(k2, r2, o2, value);
    assert [(k1, r1), (k2, r2)][1..] == [(k2, r2)];
    assert [(k1, o1)] + [(k2, o2)] == [(k1, o1), (k2, o2)];
  }

  /** A file of three records is rewritten record by record. */
  lemma RewriteThreeRecords(k1: string, k2: string, k3: string, r1: Json, r2: Json, r3: Json,
                            o1: Json, o2: Json, o3: Json, value: Json)
    requires RewriteRecord(r1, value) == Ok(o1)
    requires RewriteRecord(r2, value) == Ok(o2)
    requires RewriteRecord(r3, value) == Ok(o3)
    ensures RewriteData(JObj([(k1, r1), (k2, r2), (k3, r3)]), value) == Ok(JObj([(k1, o1), (k2, o2), (k3, o3)]))
  {
    RewriteTwoRecords(k2, k3, r2, r3, o2, o3, value);
    assert [(k1, r1), (k2, r2), (k3, r3)][1..] == [(k2, r2), (k3, r3)];
    assert [(k1, o1)] + [(k2, o2), (k3, o3)] == [(k1, o1), (k2, o2), (k3, o3)];
  }

  /** The handler's test: with an Entry holding `50`, items 1 and 2 (ammunition) get 50 and
      item 3 (another parent) keeps 30. */
  lemma TestItemsRewritten()
    ensures RewriteData(JObj([("item1", AmmoRecord(AmmoParent, 10)), ("item2", AmmoRecord(AmmoParent, 20)),
                              ("item3", AmmoRecord("some_other_parent", 30))]), JStr("50"))
         == Ok(JObj([("item1", AmmoRecord(AmmoParent, 50)), ("item2", AmmoRecord(AmmoParent, 50)),
                     ("item3", AmmoRecord("some_other_parent", 30))]))
  {
    FiftyReads();
    AmmoRecordRewritten(AmmoParent, 10, JStr("50"), 50);
    AmmoRecordRewritten(AmmoParent, 20, JStr("50"), 50);
    AmmoRecordRewritten("some_other_parent", 30, JStr("50"), 50);
    RewriteThreeRecords("item1", "item2", "item3",
                        AmmoRecord(AmmoParent, 10), AmmoRecord(AmmoParent, 20), AmmoRecord("some_other_parent", 30),
                        AmmoRecord(AmmoParent, 50), AmmoRecord(AmmoParent, 50), AmmoRecord("some_other_parent", 30),
                        JStr("50"));
  }
}

/** `resolve_full_path`, which the batch writer and the complex handler each define in the
    same words: the first segment of a relative path picks a base directory from the
    configuration, and the rest of the path is joined onto it. */
module PathResolver {
  import opened Outcomes
  import opened PyStrings
  import opened JsonValues
  import opened ConfigManager

  /** `os.path.join(a, b)` for two strings on POSIX: an absolute `b` replaces `a`, otherwise
      `b` is appended after a single `/` unless `a` is empty or already ends with one. */
  function PosixJoin(a: string, b: string): string {
    if |b| > 0 && b[0] == '/' then b
    else if a == [] || a[|a| - 1] == '/' then a + b
    else a + "/" + b
  }

  /** The configuration entry naming the base directory of a root, if the root is known. */
  function BaseSettingFor(root: string): Option<string> {
    if root == "database" then Some("paths.server_database")
    else if root == "configs" then Some("paths.server_config")
    else None
  }

  /** `resolve_full_path(file_path)`, with Python's evaluation order: the root is checked,
      then `get_setting` runs, then `split('/', 1)[1]` is indexed (IndexError when the path
      has no `/`), then the join (TypeError when the base setting is not a string). */
  function ResolveFullPath(m: Manager, filePath: string): Result<string> {
    var parts := SplitOnce(filePath, '/');
    match BaseSettingFor(parts[0])
    case None => Err(UnknownBaseDirectory(filePath))
    case Some(setting) =>
      match GetSetting(m, setting)
      case Err(e) => Err(e)
      case Ok(base) =>
        if |parts| < 2 then Err(IndexError)
        else if !base.JStr? then Err(TypeError)
        else Ok(PosixJoin(base.s, parts[1]))
  }

  /** The joined path is the second part when that is absolute, and otherwise begins with the
      first part and ends with the second. */
  lemma PosixJoinShape(a: string, b: string)
    ensures |b| > 0 && b[0] == '/' ==> PosixJoin(a, b) == b
    ensures !(|b| > 0 && b[0] == '/') ==>
              && |PosixJoin(a, b)| >= |a| + |b|
              && PosixJoin(a, b)[..|a|] == a
              && PosixJoin(a, b)[|PosixJoin(a, b)| - |b|..] == b
              && (|PosixJoin(a, b)| == |a| + |b| || PosixJoin(a, b)[|a|] == '/')
  {
    var r := PosixJoin(a, b);
    if !(|b| > 0 && b[0] == '/') {
      if a == [] || a[|a| - 1] == '/' {
        assert r == a + b;
        assert r[..|a|] == a && r[|r| - |b|..] == b;
      } else {
        assert r == a + "/" + b;
        assert r[..|a|] == a && r[|r| - |b|..] == b;
      }
    }
  }

  /** A path under `database/` or `configs/` resolves to the configured base directory joined
      with everything after the first `/`; any other first segment is rejected with ValueError. */
  lemma ResolveKnownRoot(m: Manager, root: string, rest: string, base: string)
    requires root == "database" || root == "configs"
    requires GetSetting(m, if root == "database" then "paths.server_database" else "paths.server_config") == Ok(JStr(base))
    ensures ResolveFullPath(m, root + "/" + rest) == Ok(PosixJoin(base, rest))
  {
    var s := root + "/" + rest;
    var parts := SplitOnce(s, '/');
    assert '/' !in root;
    assert s == root + ['/'] + rest;
    SplitOnceCut(root, rest, '/');
  }

  /** `split('/', 1)` cuts at the first separator: the piece before it and everything after. */
  lemma SplitOnceCut(a: string, b: string, sep: char)
    requires sep !in a
    ensures SplitOnce(a + [sep] + b, sep) == [a, b]
  {
    var s := a + [sep] + b;
    IndexOfFirst(a, [sep] + b, sep);
    assert s == a + ([sep] + b);
    assert s[..|a|] == a && s[|a| + 1..] == b;
  }

  /** The first `c` of `a + t` is the first `c` of `t` when `a` holds none. */
  lemma {:induction false} IndexOfFirst(a: string, t: string, c: char)
    requires c !in a && |t| > 0 && t[0] == c
    ensures IndexOf(a + t, c) == |a|
    decreases |a|
  {
    if a == [] {
      assert a + t == t;
    } else {
      assert (a + t)[0] == a[0] && (a + t)[1..] == a[1..] + t;
      IndexOfFirst(a[1..], t, c);
    }
  }

  /** The root is rejected (as a ValueError) exactly when it is neither `database` nor `configs`. */
  lemma ResolveUnknownRoot(m: Manager, filePath: string)
    ensures ResolveFullPath(m, filePath) == Err(UnknownBaseDirectory(filePath))
        <==> SplitOnce(filePath, '/')[0] !in {"database", "configs"}
    ensures UnknownBaseDirectory(filePath).IsValueError()
  {
    var root := SplitOnce(filePath, '/')[0];
    var choice := BaseSettingFor(root);
    assert choice.None? <==> root !in {"database", "configs"};
    if choice.Some? {
      var got := GetSetting(m, choice.value);
      assert got.Err? ==> got.error != UnknownBaseDirectory(filePath) by {
        GetSettingFinds(m, choice.value, JNull);
      }
      var parts := SplitOnce(filePath, '/');
      assert ResolveFullPath(m, filePath)
          == if got.Err? then Err(got.error)
             else if |parts| < 2 then Err(IndexError)
             else if !got.value.JStr? then Err(TypeError)
             else Ok(PosixJoin(got.value.s, parts[1]));
    } else {
      assert ResolveFullPath(m, filePath) == Err(UnknownBaseDirectory(filePath));
    }
  }

  /** A bare `database` (no `/`) passes the root check, and once the base directory is found
      it fails indexing the part after the `/`. */
  lemma ResolveBareRoot(m: Manager)
    requires GetSetting(m, "paths.server_database").Ok?
    ensures ResolveFullPath(m, "database") == Err(IndexError)
  {
    var parts := SplitOnce("database", '/');
    assert |parts| == 1 by {
      assert '/' !in "database";
    }
    assert BaseSettingFor(parts[0]) == Some("paths.server_database");
  }

  /** A resolved path lies under the base directory, unless the remainder is itself absolute. */
  lemma ResolvedUnderBase(m: Manager, filePath: string)
    requires ResolveFullPath(m, filePath).Ok?
    ensures var parts := SplitOnce(filePath, '/');
            var base := GetSetting(m, BaseSettingFor(parts[0]).value).value.s;
            var r := ResolveFullPath(m, filePath).value;
            |parts| == 2 &&
            (if |parts[1]| > 0 && parts[1][0] == '/' then r == parts[1] else r[..|base|] == base)
  {
    var parts := SplitOnce(filePath, '/');
    var base := GetSetting(m, BaseSettingFor(parts[0]).value).value.s;
    PosixJoinShape(base, parts[1]);
  }

  /** The complex handler's test: base directory `database`, file `database/test_items.json`
      (written as its segments). */
  lemma ComplexTestPath(m: Manager)
    requires GetSetting(m, "paths.server_database") == Ok(JStr("database"))
    ensures ResolveFullPath(m, "database" + "/" + "test_items.json") == Ok("database" + "/" + "test_items.json")
  {
    ResolveKnownRoot(m, "database", "test_items.json", "database");
  }
}

/** `ConfigManager`: the application configuration and the settings schema, loaded once at
    construction, and the dot-path lookup `get_setting` over the configuration.  The loaders
    are not modelled: a manager is built from the two trees they would have read, and
    `get_schema` is the `schema` field. */
module ConfigManager {
  import opened Outcomes
  import opened Dicts
  import opened PyStrings
  import opened JsonValues
  import opened Schemas

  datatype Manager = Manager(config: Json, schema: Schema)

  /** The cursor loop of `get_setting`: `value = value.get(key)` for each segment in turn.
      A cursor that is not a dict has no `get` (AttributeError); a missing key or a JSON null
      raises KeyError naming the whole setting path. */
  function Walk(value: Json, keys: seq<string>, settingPath: string): Result<Json>
    decreases |keys|
  {
    if keys == [] then Ok(value)
    else if !value.JObj? then Err(AttributeError)
    else
      match Get(value.fields, keys[0])
      case None => Err(KeyError(settingPath))
      case Some(next) =>
        if next == JNull then Err(KeyError(settingPath)) else Walk(next, keys[1..], settingPath)
  }

  /** `get_setting(setting_path)`. */
  function GetSetting(m: Manager, settingPath: string): Result<Json> {
    Walk(m.config, Split(settingPath, '.'), settingPath)
  }

  /** The walk returns exactly the value the segments lead to, when that value is not null
      (falsy values such as 0, false and "" are returned), and otherwise fails with KeyError
      or AttributeError. */
  lemma {:induction false} WalkFinds(value: Json, keys: seq<string>, settingPath: string, x: Json)
    requires |keys| >= 1
    ensures Walk(value, keys, settingPath) == Ok(x) <==> Lookup(value, keys) == Some(x) && x != JNull
    ensures Walk(value, keys, settingPath).Err? ==>
              Walk(value, keys, settingPath).error in {KeyError(settingPath), AttributeError}
    decreases |keys|
  {
    if value.JObj? && Get(value.fields, keys[0]).Some? {
      var next := Get(value.fields, keys[0]).value;
      if |keys| > 1 && next != JNull {
        WalkFinds(next, keys[1..], settingPath, x);
      } else if |keys| > 1 {
        assert Lookup(next, keys[1..]) == None;
      } else {
        assert keys[1..] == [];
      }
    }
  }

  /** `get_setting` succeeds with `x` exactly when the dotted path leads to the non-null `x`. */
  lemma GetSettingFinds(m: Manager, settingPath: string, x: Json)
    ensures GetSetting(m, settingPath) == Ok(x) <==> Lookup(m.config, Split(settingPath, '.')) == Some(x) && x != JNull
    ensures GetSetting(m, settingPath).Err? ==> GetSetting(m, settingPath).error in {KeyError(settingPath), AttributeError}
  {
    WalkFinds(m.config, Split(settingPath, '.'), settingPath, x);
  }

  /** A segment missing from a dict reached through the earlier segments, or holding null,
      raises KeyError for the whole path. */
  lemma {:induction false} WalkMissingSegment(value: Json, keys: seq<string>, settingPath: string, i: nat)
    requires i < |keys|
    requires Lookup(value, keys[..i]).Some? && Lookup(value, keys[..i]).value.JObj?
    requires Get(Lookup(value, keys[..i]).value.fields, keys[i]) in {None, Some(JNull)}
    ensures Walk(value, keys, settingPath) == Err(KeyError(settingPath))
    decreases i
  {
    if i == 0 {
      assert keys[..0] == [];
    } else {
      assert keys[..i][0] == keys[0] && keys[..i][1..] == keys[1..][..i - 1];
      var next := Get(value.fields, keys[0]).value;
      assert Lookup(value, keys[..i]) == Lookup(next, keys[1..][..i - 1]);
      if next != JNull {
        WalkMissingSegment(next, keys[1..], settingPath, i - 1);
      }
    }
  }

  /** The configuration the settings tests load. */
  function SampleConfig(): Json {
    JObj([
      ("paths", JObj([
        ("server_database", JStr("S:/server config test/SPT_Data/Server/database")),
        ("server_config", JStr("S:/server config test/SPT_Data/Server/configs"))])),
      ("logging", JObj([("level", JStr("INFO")), ("file", JStr("app.log"))])),
      ("backup", JObj([("directory", JStr("backup"))]))])
  }

  lemma LoggingLevelPieces()
    ensures "logging.level" == "logging" + ['.'] + "level"
  {
  }

  lemma NonExistingPieces()
    ensures "non.existing.setting" == "non" + ['.'] + "existing.setting"
  {
  }

  lemma SplitLoggingLevel()
    ensures Split("logging.level", '.') == ["logging", "level"]
  {
    LoggingLevelPieces();
    SplitAtFirst("logging", "level", '.');
    SplitNoSeparator("level", '.');
  }

  /** A two-segment path whose segments lead through a dict to a non-null value reads it. */
  lemma WalkTwoSegments(m: Manager, settingPath: string, first: string, second: string, inner: Json, x: Json)
    requires Split(settingPath, '.') == [first, second]
    requires m.config.JObj? && Get(m.config.fields, first) == Some(inner)
    requires inner.JObj? && Get(inner.fields, second) == Some(x) && x != JNull
    ensures GetSetting(m, settingPath) == Ok(x)
  {
    assert [second][1..] == [];
    assert Walk(inner, [second], settingPath) == Ok(x);
    assert [first, second][1..] == [second];
  }

  /** `logging.level` reads `'INFO'` from the sample configuration. */
  lemma SampleLoggingLevel(schema: Schema)
    ensures GetSetting(Manager(SampleConfig(), schema), "logging.level") == Ok(JStr("INFO"))
  {
    SplitLoggingLevel();
    var d := SampleConfig().fields;
    var logging := JObj([("level", JStr("INFO")), ("file", JStr("app.log"))]);
    assert Get(d, "logging") == Some(logging) by {
      assert "logging"[0] != d[0].0[0] && d[1] == ("logging", logging);
      assert Get(d, "logging") == Get(d[1..], "logging");
    }
    assert Get(logging.fields, "level") == Some(JStr("INFO"));
    WalkTwoSegments(Manager(SampleConfig(), schema), "logging.level", "logging", "level", logging, JStr("INFO"));
  }

  lemma GetAbsentOfThree(d: Dict<Json>, k: string)
    requires |d| == 3 && d[0].0 != k && d[1].0 != k && d[2].0 != k
    ensures Get(d, k) == None
  {
    assert d[1..][1..][1..] == [];
  }

  /** A first segment missing from the configuration raises KeyError for the whole path. */
  lemma MissingFirstSegment(m: Manager, settingPath: string)
    requires m.config.JObj? && Get(m.config.fields, Split(settingPath, '.')[0]) == None
    ensures GetSetting(m, settingPath) == Err(KeyError(settingPath))
  {
    var keys := Split(settingPath, '.');
    assert keys[..0] == [];
    WalkMissingSegment(m.config, keys, settingPath, 0);
  }

  /** `non.existing.setting` raises KeyError on the sample configuration. */
  lemma SampleMissingSetting(schema: Schema)
    ensures GetSetting(Manager(SampleConfig(), schema), "non.existing.setting") == Err(KeyError("non.existing.setting"))
  {
    NonExistingPieces();
    SplitAtFirst("non", "existing.setting", '.');
    assert Get(SampleConfig().fields, "non") == None by {
      var d := SampleConfig().fields;
      assert "non"[0] != d[0].0[0] && "non"[0] != d[1].0[0] && "non"[0] != d[2].0[0];
      GetAbsentOfThree(d, "non");
    }
    MissingFirstSegment(Manager(SampleConfig(), schema), "non.existing.setting");
  }
}

/** The key-path writer inside `apply_changes`: a change `{key_path, value}` is written into a
    loaded document by walking the dot-separated segments, creating `{}` for every missing
    intermediate key, and assigning the value under the last segment. */
module KeyPathWriter {
  import opened Outcomes
  import opened Dicts
  import opened PyStrings
  import opened JsonValues
  import opened ChangeSets

  /** The segments of a change's key path (`change['key_path'].split('.')`). */
  function KeyPathOf(c: Change): (keys: seq<string>)
    ensures |keys| >= 1
  {
    Split(c.keyPath, '.')
  }

  /** The cursor walk: for each segment but the last, `if key not in d: d[key] = {}` then
      `d = d[key]`; finally `d[keys[-1]] = value`.  A cursor that is not a dict raises
      TypeError (`in`, subscripting and item assignment all fail on lists, strings, numbers
      and None).  The document is rebuilt along the path instead of mutated in place. */
  function SetPath(d: Json, keys: seq<string>, v: Json): Result<Json>
    requires |keys| >= 1
    decreases |keys|
  {
    if !d.JObj? then Err(TypeError)
    else if |keys| == 1 then Ok(JObj(Put(d.fields, keys[0], v)))
    else
      var child := GetOr(d.fields, keys[0], JObj([]));
      match SetPath(child, keys[1..], v)
      case Err(e) => Err(e)
      case Ok(c) => Ok(JObj(Put(d.fields, keys[0], c)))
  }

  function ApplyChange(d: Json, c: Change): Result<Json> {
    SetPath(d, KeyPathOf(c), c.value)
  }

  /** `for change in changes: ...`: the changes in order, stopping at the first exception. */
  function ApplyChangeList(d: Json, cs: seq<Change>): Result<Json>
    decreases |cs|
  {
    if cs == [] then Ok(d)
    else
      match ApplyChange(d, cs[0])
      case Err(e) => Err(e)
      case Ok(next) => ApplyChangeList(next, cs[1..])
  }

  /** The loop over one file's changes, as the source writes it. */
  method ApplyFileChanges(data: Json, changes: seq<Change>) returns (r: Result<Json>)
    ensures r == ApplyChangeList(data, changes)
  {
    var d := data;
    var i := 0;
    while i < |changes|
      invariant 0 <= i <= |changes|
      invariant ApplyChangeList(data, changes) == ApplyChangeList(d, changes[i..])
    {
      assert changes[i..][0] == changes[i] && changes[i..][1..] == changes[i + 1..];
      var keys := Split(changes[i].keyPath, '.');
      var step := SetPath(d, keys, changes[i].value);
      if step.Err? {
        return Err(step.error);
      }
      d := step.value;
      i := i + 1;
    }
    return Ok(d);
  }

  /** Every prefix of the path that already exists in the document is a dict. */
  predicate PathWritable(d: Json, keys: seq<string>) {
    forall i :: 0 <= i < |keys| ==> match Lookup(d, keys[..i]) case None => true case Some(x) => x.JObj?
  }

  /** A chain of single-key dicts holding `v` at the end of `keys`: what the walk builds
      where the document has nothing. */
  function Nest(keys: seq<string>, v: Json): Json
    decreases |keys|
  {
    if keys == [] then v else JObj([(keys[0], Nest(keys[1..], v))])
  }

  /** Writing into an empty dict creates exactly the chain of dicts the path names. */
  lemma {:induction false} SetPathOnEmpty(keys: seq<string>, v: Json)
    requires |keys| >= 1
    ensures SetPath(JObj([]), keys, v) == Ok(Nest(keys, v))
    decreases |keys|
  {
    if |keys| > 1 {
      SetPathOnEmpty(keys[1..], v);
    } else {
      assert keys[1..] == [];
    }
  }

  /** When the first segment is missing, a new entry holding the nested chain is appended
      after every existing top-level key, and nothing else changes. */
  lemma SetPathNewBranch(fields: Dict<Json>, keys: seq<string>, v: Json)
    requires |keys| >= 1 && keys[0] !in Keys(fields)
    ensures SetPath(JObj(fields), keys, v) == Ok(JObj(fields + [(keys[0], Nest(keys[1..], v))]))
  {
    if |keys| == 1 {
      assert Nest(keys[1..], v) == v;
      PutNew(fields, keys[0], v);
    } else {
      SetPathOnEmpty(keys[1..], v);
      PutNew(fields, keys[0], Nest(keys[1..], v));
    }
  }

  /** Looking up a non-empty prefix of `keys` below a dict goes through the first segment. */
  lemma LookupPrefix(d: Json, keys: seq<string>, i: nat)
    requires d.JObj? && 1 <= i <= |keys|
    ensures Lookup(d, keys[..i])
         == match Get(d.fields, keys[0]) case None => None case Some(c) => Lookup(c, keys[1..][..i - 1])
  {
    assert keys[..i][0] == keys[0] && keys[..i][1..] == keys[1..][..i - 1];
  }

  /** The walk fails exactly when some existing prefix of the path is not a dict; it fails
      with TypeError. */
  lemma {:induction false} SetPathSucceeds(d: Json, keys: seq<string>, v: Json)
    requires |keys| >= 1
    ensures SetPath(d, keys, v).Ok? <==> PathWritable(d, keys)
    ensures SetPath(d, keys, v).Err? ==> SetPath(d, keys, v).error == TypeError
    decreases |keys|
  {
    assert keys[..0] == [];
    if !d.JObj? {
      assert Lookup(d, keys[..0]) == Some(d);
    } else if |keys| == 1 {
    } else if keys[0] in Keys(d.fields) {
      var child := Get(d.fields, keys[0]).value;
      SetPathSucceeds(child, keys[1..], v);
      forall i | 1 <= i < |keys|
        ensures Lookup(d, keys[..i]) == Lookup(child, keys[1..][..i - 1])
      {
        LookupPrefix(d, keys, i);
      }
      if PathWritable(child, keys[1..]) {
        forall i | 0 <= i < |keys|
          ensures match Lookup(d, keys[..i]) case None => true case Some(x) => x.JObj?
        {
          if i > 0 {
            assert Lookup(d, keys[..i]) == Lookup(child, keys[1..][..i - 1]);
          }
        }
      } else {
        var i :| 0 <= i < |keys[1..]| && !(match Lookup(child, keys[1..][..i]) case None => true case Some(x) => x.JObj?);
        assert Lookup(d, keys[..i + 1]) == Lookup(child, keys[1..][..i]);
      }
    } else {
      SetPathNewBranch(d.fields, keys, v);
      forall i | 0 <= i < |keys|
        ensures match Lookup(d, keys[..i]) case None => true case Some(x) => x.JObj?
      {
        if i > 0 {
          LookupPrefix(d, keys, i);
        }
      }
    }
  }

  /** After a successful write, the path leads to the value written. */
  lemma {:induction false} SetPathGet(d: Json, keys: seq<string>, v: Json)
    requires |keys| >= 1 && SetPath(d, keys, v).Ok?
    ensures Lookup(SetPath(d, keys, v).value, keys) == Some(v)
    decreases |keys|
  {
    if |keys| > 1 {
      SetPathGet(GetOr(d.fields, keys[0], JObj([])), keys[1..], v);
    } else {
      assert keys[1..] == [];
    }
  }

  /** Two key paths that part ways at some segment: neither is a prefix of the other. */
  predicate Diverges(a: seq<string>, b: seq<string>)
    decreases |a|
  {
    a != [] && b != [] && (a[0] != b[0] || Diverges(a[1..], b[1..]))
  }

  /** A write leaves every path that parts ways with the written one as it was. */
  lemma {:induction false} SetPathFrame(d: Json, keys: seq<string>, v: Json, p: seq<string>)
    requires |keys| >= 1 && SetPath(d, keys, v).Ok?
    requires Diverges(keys, p)
    ensures Lookup(SetPath(d, keys, v).value, p) == Lookup(d, p)
    decreases |keys|
  {
    if keys[0] == p[0] {
      var child := GetOr(d.fields, keys[0], JObj([]));
      SetPathFrame(child, keys[1..], v, p[1..]);
      if keys[0] !in Keys(d.fields) {
        assert Lookup(child, p[1..]) == None;
      }
    }
  }

  /** The top-level keys keep their order; the first segment is appended when it is new. */
  lemma SetPathTopKeys(d: Json, keys: seq<string>, v: Json)
    requires |keys| >= 1 && SetPath(d, keys, v).Ok?
    ensures Keys(SetPath(d, keys, v).value.fields)
         == if keys[0] in Keys(d.fields) then Keys(d.fields) else Keys(d.fields) + [keys[0]]
  {
  }

  /** Writing the value a path already holds changes nothing. */
  lemma {:induction false} SetPathCurrent(d: Json, keys: seq<string>, v: Json)
    requires |keys| >= 1 && Lookup(d, keys) == Some(v)
    ensures SetPath(d, keys, v) == Ok(d)
    decreases |keys|
  {
    var c := Get(d.fields, keys[0]).value;
    if |keys| == 1 {
      PutCurrent(d.fields, keys[0], v);
    } else {
      SetPathCurrent(c, keys[1..], v);
      PutCurrent(d.fields, keys[0], c);
    }
  }

  /** Writing the same path twice is writing it once with the second value (last write wins). */
  lemma {:induction false} SetPathTwice(d: Json, keys: seq<string>, a: Json, b: Json)
    requires |keys| >= 1 && SetPath(d, keys, a).Ok?
    ensures SetPath(SetPath(d, keys, a).value, keys, b) == SetPath(d, keys, b)
    decreases |keys|
  {
    if |keys| == 1 {
      PutPut(d.fields, keys[0], a, b);
    } else {
      var child := GetOr(d.fields, keys[0], JObj([]));
      var c1 := SetPath(child, keys[1..], a).value;
      SetPathTwice(child, keys[1..], a, b);
      assert GetOr(Put(d.fields, keys[0], c1), keys[0], JObj([])) == c1;
      if SetPath(child, keys[1..], b).Ok? {
        PutPut(d.fields, keys[0], c1, SetPath(child, keys[1..], b).value);
      }
    }
  }

  /** One change applied twice gives the document it gave once. */
  lemma ApplyChangeIdempotent(d: Json, c: Change)
    requires ApplyChange(d, c).Ok?
    ensures ApplyChange(ApplyChange(d, c).value, c) == ApplyChange(d, c)
  {
    SetPathTwice(d, KeyPathOf(c), c.value, c.value);
  }

  lemma ApplyChangeListCons(d: Json, c: Change, cs: seq<Change>)
    ensures ApplyChangeList(d, [c] + cs)
         == if ApplyChange(d, c).Ok? then ApplyChangeList(ApplyChange(d, c).value, cs) else Err(ApplyChange(d, c).error)
  {
    assert ([c] + cs)[0] == c && ([c] + cs)[1..] == cs;
  }

  /** Applying a list in two parts is applying it at once. */
  lemma {:induction false} ApplyChangeListAppend(d: Json, a: seq<Change>, b: seq<Change>)
    ensures ApplyChangeList(d, a + b)
         == if ApplyChangeList(d, a).Ok? then ApplyChangeList(ApplyChangeList(d, a).value, b) else ApplyChangeList(d, a)
    decreases |a|
  {
    if a == [] {
      assert a + b == b;
    } else {
      assert (a + b)[0] == a[0] && (a + b)[1..] == a[1..] + b;
      if ApplyChange(d, a[0]).Ok? {
        ApplyChangeListAppend(ApplyChange(d, a[0]).value, a[1..], b);
      }
    }
  }

  /** Changes whose paths all part ways with `p` leave `p` as it was. */
  lemma {:induction false} ApplyChangeListFrame(d: Json, cs: seq<Change>, p: seq<string>)
    requires ApplyChangeList(d, cs).Ok?
    requires forall i :: 0 <= i < |cs| ==> Diverges(KeyPathOf(cs[i]), p)
    ensures Lookup(ApplyChangeList(d, cs).value, p) == Lookup(d, p)
    decreases |cs|
  {
    if cs != [] {
      assert Diverges(KeyPathOf(cs[0]), p);
      SetPathFrame(d, KeyPathOf(cs[0]), cs[0].value, p);
      ApplyChangeListFrame(ApplyChange(d, cs[0]).value, cs[1..], p);
    }
  }

  /** Within one file, the last change to a path decides what the path holds, provided the
      later changes write elsewhere. */
  lemma LastWriteWins(d: Json, cs: seq<Change>, j: nat)
    requires ApplyChangeList(d, cs).Ok? && j < |cs|
    requires forall i :: j < i < |cs| ==> Diverges(KeyPathOf(cs[i]), KeyPathOf(cs[j]))
    ensures Lookup(ApplyChangeList(d, cs).value, KeyPathOf(cs[j])) == Some(cs[j].value)
  {
    var c := cs[j];
    var tail := cs[j + 1..];
    var r1 := ApplyChangeList(d, cs[..j]);
    assert r1.Ok? && ApplyChangeList(d, cs) == ApplyChangeList(r1.value, [c] + tail) by {
      SplitAround(cs, j);
      ApplyChangeListAppend(d, cs[..j], [c] + tail);
    }
    var r2 := ApplyChange(r1.value, c);
    assert r2.Ok? && ApplyChangeList(d, cs) == ApplyChangeList(r2.value, tail) by {
      ApplyChangeListCons(r1.value, c, tail);
    }
    assert Lookup(r2.value, KeyPathOf(c)) == Some(c.value) by {
      SetPathGet(r1.value, KeyPathOf(c), c.value);
    }
    assert forall i :: 0 <= i < |tail| ==> Diverges(KeyPathOf(tail[i]), KeyPathOf(c)) by {
      forall i | 0 <= i < |tail| ensures Diverges(KeyPathOf(tail[i]), KeyPathOf(c)) {
        assert tail[i] == cs[j + 1 + i];
      }
    }
    ApplyChangeListFrame(r2.value, tail, KeyPathOf(c));
  }

  lemma SplitAround<T>(s: seq<T>, j: nat)
    requires j < |s|
    ensures s == s[..j] + ([s[j]] + s[j + 1..])
  {
  }

  lemma HeadTail<T>(s: seq<T>)
    requires |s| > 0
    ensures s == [s[0]] + s[1..]
  {
  }

  /** No change's path is a prefix of, or equal to, another's. */
  predicate PrefixFree(cs: seq<Change>) {
    forall i, j :: 0 <= i < |cs| && 0 <= j < |cs| && i != j ==> Diverges(KeyPathOf(cs[i]), KeyPathOf(cs[j]))
  }

  /** After a prefix-free list is applied, every path holds its change's value. */
  lemma {:induction false} ApplyChangeListHolds(d: Json, cs: seq<Change>)
    requires ApplyChangeList(d, cs).Ok? && PrefixFree(cs)
    ensures forall i :: 0 <= i < |cs| ==> Lookup(ApplyChangeList(d, cs).value, KeyPathOf(cs[i])) == Some(cs[i].value)
    decreases |cs|
  {
    if cs != [] {
      var d1 := ApplyChange(d, cs[0]).value;
      var rest := cs[1..];
      assert PrefixFree(rest) by {
        forall i, j | 0 <= i < |rest| && 0 <= j < |rest| && i != j
          ensures Diverges(KeyPathOf(rest[i]), KeyPathOf(rest[j]))
        {
          assert rest[i] == cs[i + 1] && rest[j] == cs[j + 1];
        }
      }
      ApplyChangeListHolds(d1, rest);
      SetPathGet(d, KeyPathOf(cs[0]), cs[0].value);
      forall i | 0 <= i < |rest| ensures Diverges(KeyPathOf(rest[i]), KeyPathOf(cs[0])) {
        assert rest[i] == cs[i + 1];
      }
      ApplyChangeListFrame(d1, rest, KeyPathOf(cs[0]));
      forall i | 0 <= i < |cs|
        ensures Lookup(ApplyChangeList(d, cs).value, KeyPathOf(cs[i])) == Some(cs[i].value)
      {
        if i > 0 {
          assert cs[i] == rest[i - 1];
        }
      }
    }
  }

  /** A list whose every path already holds its value changes nothing. */
  lemma {:induction false} ApplyChangeListCurrent(d: Json, cs: seq<Change>)
    requires forall i :: 0 <= i < |cs| ==> Lookup(d, KeyPathOf(cs[i])) == Some(cs[i].value)
    ensures ApplyChangeList(d, cs) == Ok(d)
    decreases |cs|
  {
    if cs != [] {
      SetPathCurrent(d, KeyPathOf(cs[0]), cs[0].value);
      assert forall i :: 0 <= i < |cs[1..]| ==> cs[1..][i] == cs[i + 1];
      ApplyChangeListCurrent(d, cs[1..]);
    }
  }

  /** Applying a prefix-free change list twice gives the document it gave once. */
  lemma ApplyChangeListIdempotent(d: Json, cs: seq<Change>)
    requires ApplyChangeList(d, cs).Ok? && PrefixFree(cs)
    ensures ApplyChangeList(ApplyChangeList(d, cs).value, cs) == ApplyChangeList(d, cs)
  {
    ApplyChangeListHolds(d, cs);
    ApplyChangeListCurrent(ApplyChangeList(d, cs).value, cs);
  }

  lemma SplitSamples()
    ensures Split("a.b", '.') == ["a", "b"] && Split("a", '.') == ["a"]
  {
    assert Split("", '.') == [""];
    assert Split("b", '.') == ["b"] by {
      assert "b"[1..] == "" && "b"[0] == 'b';
      assert ['b'] + "" == "b";
    }
    assert Split("a", '.') == ["a"] by {
      assert "a"[1..] == "" && "a"[0] == 'a';
      assert ['a'] + "" == "a";
    }
    assert Split(".b", '.') == ["", "b"] by {
      assert ".b"[1..] == "b" && ".b"[0] == '.';
    }
    assert "a.b"[1..] == ".b" && "a.b"[0] == 'a';
    assert ['a'] + "" == "a";
  }

  /** Without prefix-freedom a second application can fail: `a.b = 1` then `a = 5` succeeds
      once, but the second pass meets the integer 5 where it needs a dict. */
  lemma ApplyTwiceCanFail()
    ensures ApplyChangeList(JObj([]), [Change("a.b", JInt(1)), Change("a", JInt(5))]) == Ok(JObj([("a", JInt(5))]))
    ensures ApplyChangeList(JObj([("a", JInt(5))]), [Change("a.b", JInt(1)), Change("a", JInt(5))]) == Err(TypeError)
  {
    var cs := [Change("a.b", JInt(1)), Change("a", JInt(5))];
    var once := JObj([("a", JObj([("b", JInt(1))]))]);
    var result := JObj([("a", JInt(5))]);
    SplitSamples();
    assert ApplyChange(JObj([]), cs[0]) == Ok(once) by {
      SetPathOnEmpty(["a", "b"], JInt(1));
    }
    assert ApplyChange(once, cs[1]) == Ok(result) by {
      assert KeyPathOf(cs[1]) == ["a"];
      assert once.fields[0].0 == "a" && once.fields[1..] == [];
      assert Put(once.fields, "a", JInt(5)) == [("a", JInt(5))] + once.fields[1..] == [("a", JInt(5))];
      assert SetPath(once, ["a"], JInt(5)) == Ok(JObj(Put(once.fields, "a", JInt(5))));
    }
    assert ApplyChangeList(once, cs[1..]) == Ok(result) by {
      ApplyChangeListCons(once, cs[1], []);
      HeadTail(cs[1..]);
    }
    HeadTail(cs);
    assert ApplyChangeList(JObj([]), cs) == Ok(result) by {
      ApplyChangeListCons(JObj([]), cs[0], cs[1..]);
    }
    assert ApplyChangeList(result, cs) == Err(TypeError) by {
      assert ApplyChange(result, cs[0]) == Err(TypeError);
      ApplyChangeListCons(result, cs[0], cs[1..]);
    }
  }
}

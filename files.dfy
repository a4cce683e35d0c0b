/** The JSON files the engine reads and rewrites, keyed by full path.  `open` of a missing path
    raises FileNotFoundError and `json.load` of a file that is not JSON raises
    JSONDecodeError; `json.dump` then `json.load` gives the document back. */
module Files {
  import opened Outcomes
  import opened JsonValues

  datatype Stored = Parses(doc: Json) | Unparseable

  type FileSystem = map<string, Stored>

  /** `with open(path, 'r') as f: json.load(f)`. */
  function ReadJson(fs: FileSystem, path: string): (r: Result<Json>)
    ensures r.Ok? <==> path in fs && fs[path].Parses?
    ensures r.Ok? ==> r.value == fs[path].doc
    ensures path !in fs ==> r == Err(FileNotFound(path))
  {
    if path !in fs then Err(FileNotFound(path))
    else if fs[path].Unparseable? then Err(JsonDecodeError(path))
    else Ok(fs[path].doc)
  }

  /** `with open(path, 'w') as f: json.dump(doc, f)`. */
  function WriteJson(fs: FileSystem, path: string, doc: Json): (r: FileSystem)
    ensures r.Keys == fs.Keys + {path}
    ensures ReadJson(r, path) == Ok(doc)
    ensures forall p :: p != path && p in fs ==> r[p] == fs[p]
  {
    fs[path := Parses(doc)]
  }
}

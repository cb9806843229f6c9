/**
  Where an anomaly detection model stores its fitted state: a file under the
  model storage directory, named after the model unless an explicit path is
  configured.
 */
module AnomalyModel {
  import opened Errors
  import opened Features

  /** An absolute POSIX path: one that starts with the separator. */
  predicate IsAbsolute(p: string)
  {
    |p| > 0 && p[0] == '/'
  }

  predicate StartsWith(s: string, prefix: string)
  {
    |prefix| <= |s| && s[..|prefix|] == prefix
  }

  predicate EndsWith(s: string, suffix: string)
  {
    |suffix| <= |s| && s[|s| - |suffix|..] == suffix
  }

  /**
    `os.path.join(a, b)` on POSIX: an absolute b replaces a; otherwise b is
    appended to a, with a separator between them unless a is empty or
    already ends with one. Joining more parts joins them one at a time.
   */
  function Join(a: string, b: string): (r: string)
    ensures EndsWith(r, b)
    ensures !IsAbsolute(b) ==> StartsWith(r, a) && |r| <= |a| + 1 + |b|
    ensures IsAbsolute(b) ==> r == b
  {
    if IsAbsolute(b) then b
    else if a == [] || a[|a| - 1] == '/' then a + b
    else a + "/" + b
  }

  /**
    `model_path`: the given path under the storage directory when the path
    is true in Python's sense, else `<name>/<name>.pickle` under it; a part
    that is not a string makes `os.path.join` raise TypeError.
   */
  function ModelPath(base: string, name: Value, path: Value): (r: Result<string>)
    ensures r.Ok? <==> (if Truthy(path) then path.Str? else name.Str?)
    ensures r.Err? ==> r.error == TypeError
  {
    if Truthy(path) then
      if path.Str? then Ok(Join(base, path.s)) else Err(TypeError)
    else if name.Str? then Ok(Join(Join(base, name.s), name.s + ".pickle"))
    else Err(TypeError)
  }

  /** A model as its base class builds it: only the file its state is stored in. */
  datatype StoredModel = StoredModel(storeFile: string)

  /**
    The base constructor: MODEL_NAME must be present and true in Python's
    sense, PATH must be present, and a PATH that is false in Python's sense
    counts as no path.
   */
  function NewStoredModel(base: string, kwargs: map<string, Value>): (r: Result<StoredModel>)
    ensures r.Ok? ==> "MODEL_NAME" in kwargs && Truthy(kwargs["MODEL_NAME"]) && "PATH" in kwargs
  {
    if "MODEL_NAME" !in kwargs then Err(KeyError("MODEL_NAME"))
    else if !Truthy(kwargs["MODEL_NAME"]) then Err(AssertionError)
    else if "PATH" !in kwargs then Err(KeyError("PATH"))
    else
      var file :- ModelPath(base, kwargs["MODEL_NAME"], if Truthy(kwargs["PATH"]) then kwargs["PATH"] else Null);
      Ok(StoredModel(file))
  }

  /** A relative path given lies under the storage directory and ends with that path. */
  lemma GivenPathUnderBase(base: string, name: Value, path: string)
    requires path != [] && !IsAbsolute(path)
    ensures var r := ModelPath(base, name, Str(path));
      r.Ok? && StartsWith(r.value, base) && EndsWith(r.value, path)
  {
  }

  /** An absolute path given is used as it is: the storage directory is ignored. */
  lemma AbsolutePathIgnoresBase(base: string, name: Value, path: string)
    requires IsAbsolute(path)
    ensures ModelPath(base, name, Str(path)) == Ok(path)
  {
  }

  /**
    Without a path, a plain model name gives `<base>/<name>/<name>.pickle`:
    a directory named after the model holding one pickle file.
   */
  lemma DefaultPathLayout(base: string, name: string)
    requires name != [] && !IsAbsolute(name) && name[|name| - 1] != '/'
    ensures var r := ModelPath(base, Str(name), Null);
      && r == Ok(Join(base, name) + "/" + name + ".pickle")
      && StartsWith(r.value, base)
      && EndsWith(r.value, "/" + name + ".pickle")
  {
    var dir := Join(base, name);
    var file := name + ".pickle";
    assert dir[|dir| - 1] == name[|name| - 1];
    assert file[0] == name[0];
    assert Join(dir, file) == dir + "/" + file;
    assert dir + "/" + file == dir + "/" + name + ".pickle";
    assert (dir + "/" + file)[..|base|] == dir[..|base|];
  }

  /** Whatever the name, the default path ends with the name followed by `.pickle`. */
  lemma DefaultPathEndsInPickle(base: string, name: string)
    ensures var r := ModelPath(base, Str(name), Null);
      r.Ok? && EndsWith(r.value, name + ".pickle")
  {
  }

  /** The constructor raises KeyError when MODEL_NAME is absent, whatever else is given. */
  lemma MissingNameRaises(base: string, kwargs: map<string, Value>)
    requires "MODEL_NAME" !in kwargs
    ensures NewStoredModel(base, kwargs) == Err(KeyError("MODEL_NAME"))
  {
  }

  /** A MODEL_NAME that is false in Python's sense fails the constructor's assertion. */
  lemma FalsyNameRaises(base: string, kwargs: map<string, Value>)
    requires "MODEL_NAME" in kwargs && !Truthy(kwargs["MODEL_NAME"])
    ensures NewStoredModel(base, kwargs) == Err(AssertionError)
  {
  }

  /** With a true MODEL_NAME, the PATH key must still be present, even to say there is no path. */
  lemma MissingPathRaises(base: string, kwargs: map<string, Value>)
    requires "MODEL_NAME" in kwargs && Truthy(kwargs["MODEL_NAME"]) && "PATH" !in kwargs
    ensures NewStoredModel(base, kwargs) == Err(KeyError("PATH"))
  {
  }

  /**
    With both keys present and the name true, a PATH that is false in
    Python's sense (None, an empty string) selects the default location,
    and a string name yields a store file.
   */
  lemma FalsyPathIsDefault(base: string, kwargs: map<string, Value>)
    requires "MODEL_NAME" in kwargs && kwargs["MODEL_NAME"].Str? && kwargs["MODEL_NAME"].s != []
    requires "PATH" in kwargs && !Truthy(kwargs["PATH"])
    ensures var name := kwargs["MODEL_NAME"].s;
      NewStoredModel(base, kwargs) == Ok(StoredModel(Join(Join(base, name), name + ".pickle")))
  {
    assert ModelPath(base, kwargs["MODEL_NAME"], Null).Ok?;
  }

  /** With both keys present, the name true and PATH a non-empty string, that path decides the store file. */
  lemma GivenPathDecides(base: string, kwargs: map<string, Value>)
    requires "MODEL_NAME" in kwargs && Truthy(kwargs["MODEL_NAME"])
    requires "PATH" in kwargs && kwargs["PATH"].Str? && kwargs["PATH"].s != []
    ensures NewStoredModel(base, kwargs) == Ok(StoredModel(Join(base, kwargs["PATH"].s)))
  {
  }
}

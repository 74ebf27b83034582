/** Loading an experiment of the inference server
    (`ml_inference_server/utils/config_loader.py`): the experiment
    document is merged over the base document and tagged with the
    experiment's name, description and path; and the experiment files of
    a directory are listed. The file contents and the directory listing
    are parameters. */
module MlConfigLoader {
  import opened Wrappers
  import opened Text
  import opened ConfigValue

  /** `os.path.join(directory, name)` for a relative name. */
  function JoinPath(directory: string, name: string): string
  {
    if directory == "" || directory[|directory| - 1] == '/' then directory + name else directory + "/" + name
  }

  /** The base document's path: the one given, or `experiments/base_config.yaml`
      beside the package directory `scriptDir`. */
  function BasePath(given: Option<string>, scriptDir: string): (r: string)
    ensures given.Some? ==> r == given.value
  {
    match given
    case Some(p) => p
    case None => JoinPath(JoinPath(JoinPath(scriptDir, ".."), "experiments"), "base_config.yaml")
  }

  /** The metadata keys written into the merged configuration. */
  const NameKey := "_experiment_name"
  const DescriptionKey := "_experiment_description"
  const PathKey := "_experiment_path"

  /** What `load_experiment_config` returns: `None` stands for a file that
      cannot be opened, the base first. The documents are used as loaded:
      an empty file loads as `None`, which has neither `copy` nor
      `items`. */
  function Loaded(experimentPath: string, basePath: string, baseDoc: Option<Value>, expDoc: Option<Value>): (r: Result<Dict>)
    ensures baseDoc.None? ==> r == Err(FileNotFoundError(basePath))
    ensures baseDoc.Some? && expDoc.None? ==> r == Err(FileNotFoundError(experimentPath))
  {
    match baseDoc
    case None => Err(FileNotFoundError(basePath))
    case Some(base) =>
      match expDoc
      case None => Err(FileNotFoundError(experimentPath))
      case Some(exp) =>
        match MergeDocuments(base, exp)
        case Err(e) => Err(e)
        case Ok(merged) =>
          Ok(merged[NameKey := Lookup(exp.d, "name", VStr("unnamed"))]
                   [DescriptionKey := Lookup(exp.d, "description", VStr(""))]
                   [PathKey := VStr(experimentPath)])
  }

  /** `load_experiment_config(experiment_path, base_config_path)`. */
  method LoadExperimentConfig(experimentPath: string, givenBase: Option<string>, scriptDir: string,
                              baseDoc: Option<Value>, expDoc: Option<Value>) returns (r: Result<Dict>)
    ensures r == Loaded(experimentPath, BasePath(givenBase, scriptDir), baseDoc, expDoc)
  {
    var basePath := BasePath(givenBase, scriptDir);
    if baseDoc.None? {
      return Err(FileNotFoundError(basePath));
    }
    if expDoc.None? {
      return Err(FileNotFoundError(experimentPath));
    }
    var base, exp := baseDoc.value, expDoc.value;
    if !(base.VDict? || base.VList?) {
      return Err(AttributeError("copy"));
    }
    if !exp.VDict? {
      return Err(AttributeError("items"));
    }
    if base.VList? {
      return Err(TypeError);
    }
    var merged := DeepMerge(base.d, exp.d);
    merged := merged[NameKey := Lookup(exp.d, "name", VStr("unnamed"))];
    merged := merged[DescriptionKey := Lookup(exp.d, "description", VStr(""))];
    merged := merged[PathKey := VStr(experimentPath)];
    return Ok(merged);
  }

  /** Both documents dictionaries: the merge succeeds and carries the
      experiment's name ("unnamed" without one), its description ("" without
      one) and its path; every other key is the merge's, so an experiment
      value that is not a dictionary overrides the base's, and a key only
      the base has keeps the base's value. */
  lemma LoadedMetadata(experimentPath: string, basePath: string, base: Dict, exp: Dict, k: string)
    requires k != NameKey && k != DescriptionKey && k != PathKey
    ensures var r := Loaded(experimentPath, basePath, Some(VDict(base)), Some(VDict(exp)));
      r.Ok? &&
      r.value[NameKey] == (if "name" in exp then exp["name"] else VStr("unnamed")) &&
      r.value[DescriptionKey] == (if "description" in exp then exp["description"] else VStr("")) &&
      r.value[PathKey] == VStr(experimentPath) &&
      r.value.Keys == base.Keys + exp.Keys + {NameKey, DescriptionKey, PathKey} &&
      (k in exp && !exp[k].VDict? ==> k in r.value && r.value[k] == exp[k]) &&
      (k in base && k !in exp ==> k in r.value && r.value[k] == base[k])
  {
    assert MergeDocuments(VDict(base), VDict(exp)) == Ok(Merged(base, exp));
  }

  /** The names of files listed for the experiments. */
  predicate IsExperimentFile(name: string)
  {
    |name| >= 5 && name[|name| - 5..] == ".yaml" && name != "base_config.yaml"
  }

  /** The paths of the experiment files among `names`, in listing order. */
  function Chosen(directory: string, names: seq<string>): (r: seq<string>)
    ensures |r| <= |names|
  {
    if names == [] then []
    else
      var init := Chosen(directory, names[..|names| - 1]);
      var last := names[|names| - 1];
      if IsExperimentFile(last) then init + [JoinPath(directory, last)] else init
  }

  /** A path is chosen exactly when it is that of an experiment file of
      the listing. */
  lemma {:induction false} ChosenMembers(directory: string, names: seq<string>, p: string)
    ensures p in Chosen(directory, names) <==>
      exists i :: 0 <= i < |names| && IsExperimentFile(names[i]) && p == JoinPath(directory, names[i])
  {
    if names != [] {
      var init := names[..|names| - 1];
      ChosenMembers(directory, init, p);
      if p in Chosen(directory, init) {
        var i :| 0 <= i < |init| && IsExperimentFile(init[i]) && p == JoinPath(directory, init[i]);
        assert names[i] == init[i];
      }
      if exists i :: 0 <= i < |names| && IsExperimentFile(names[i]) && p == JoinPath(directory, names[i]) {
        var i :| 0 <= i < |names| && IsExperimentFile(names[i]) && p == JoinPath(directory, names[i]);
        if i < |names| - 1 {
          assert init[i] == names[i];
        }
      }
    }
  }

  /** `list_available_experiments(experiments_dir)`, with the directory's
      entries as `names`: the paths of the ".yaml" files other than
      `base_config.yaml`, sorted. */
  method ListAvailableExperiments(directory: string, names: seq<string>) returns (r: seq<string>)
    ensures SortedStrings(r)
    ensures multiset(r) == multiset(Chosen(directory, names))
  {
    var experiments := [];
    for i := 0 to |names|
      invariant experiments == Chosen(directory, names[..i])
    {
      assert names[..i + 1][..i] == names[..i];
      if IsExperimentFile(names[i]) {
        experiments := experiments + [JoinPath(directory, names[i])];
      }
    }
    assert names[..|names|] == names;
    r := SortStrings(experiments);
  }

  /** The listing holds a path exactly when the directory has an
      experiment file of that name. */
  lemma ListedPaths(directory: string, names: seq<string>, r: seq<string>, p: string)
    requires multiset(r) == multiset(Chosen(directory, names))
    ensures p in r <==> exists i :: 0 <= i < |names| && IsExperimentFile(names[i]) && p == JoinPath(directory, names[i])
  {
    ChosenMembers(directory, names, p);
    assert p in r <==> p in multiset(r);
    assert p in Chosen(directory, names) <==> p in multiset(Chosen(directory, names));
  }

  /** The base document is never listed. */
  lemma BaseNotListed(directory: string, names: seq<string>, r: seq<string>)
    requires multiset(r) == multiset(Chosen(directory, names))
    requires directory != "" && directory[|directory| - 1] == '/'
    ensures directory + "base_config.yaml" !in r
  {
    ListedPaths(directory, names, r, directory + "base_config.yaml");
    forall i | 0 <= i < |names| && IsExperimentFile(names[i])
      ensures JoinPath(directory, names[i]) != directory + "base_config.yaml"
    {
      assert JoinPath(directory, names[i])[|directory|..] == names[i];
    }
  }
}

/** Runtime validation of the dummio module protocol (`dummio.protocol`):
    a backend module must offer `save(data, *, filepath, ...)` and
    `load(filepath, ...)` with matching annotations. A module is reduced to
    what the check inspects: whether each attribute exists, whether it is
    callable, and the type hints of a callable. */
module Protocol {
  import opened Wrappers

  /** A type annotation. A union is compared as a set of its members. */
  datatype TypeHint = Named(name: string) | UnionOf(members: set<string>)

  /** `dummio.constants.PathType`. */
  const PathType: TypeHint := UnionOf({"str", "pathlib.Path", "upath.UPath"})

  const ReturnKey := "return"

  /** What `get_type_hints` reports for a function: the annotated
      parameters in declaration order, then the return annotation when
      there is one. */
  datatype Signature = Signature(params: seq<(string, TypeHint)>, result: Option<TypeHint>)
  {
    /** Parameter names are distinct and none is the reserved `return`. */
    predicate WellFormed()
    {
      (forall i, j :: 0 <= i < j < |params| ==> params[i].0 != params[j].0) &&
      (forall i :: 0 <= i < |params| ==> params[i].0 != ReturnKey)
    }

    /** `list(hints.keys())`. */
    function Keys(): (ks: seq<string>)
      ensures |ks| == |params| + (if result.Some? then 1 else 0)
      ensures forall i :: 0 <= i < |params| ==> ks[i] == params[i].0
      ensures result.Some? ==> ks[|params|] == ReturnKey
    {
      seq(|params|, i requires 0 <= i < |params| => params[i].0) + (if result.Some? then [ReturnKey] else [])
    }

    /** `hints[key]`, or `None` where the lookup raises KeyError. */
    function Lookup(key: string): Option<TypeHint>
    {
      if key == ReturnKey then result else Find(params, key)
    }
  }

  /** The hint of the first parameter called `key`. */
  function Find(ps: seq<(string, TypeHint)>, key: string): (r: Option<TypeHint>)
    ensures r.None? <==> forall i :: 0 <= i < |ps| ==> ps[i].0 != key
    ensures r.Some? ==> exists i :: 0 <= i < |ps| && ps[i] == (key, r.value)
  {
    if |ps| == 0 then None
    else if ps[0].0 == key then Some(ps[0].1)
    else Find(ps[1..], key)
  }

  /** A parameter with no earlier namesake is the one found. */
  lemma {:induction false} FindFirst(ps: seq<(string, TypeHint)>, i: nat)
    requires i < |ps|
    requires forall j :: 0 <= j < i ==> ps[j].0 != ps[i].0
    ensures Find(ps, ps[i].0) == Some(ps[i].1)
  {
    if i > 0 {
      FindFirst(ps[1..], i - 1);
    }
  }

  /** A module attribute as the check sees it. */
  datatype Attribute = NotCallable | Function(sig: Signature)

  /** A module: its `save` and `load` attributes, where present. */
  datatype Module = Module(save: Option<Attribute>, load: Option<Attribute>)
  {
    predicate WellFormed()
    {
      (save.Some? && save.value.Function? ==> save.value.sig.WellFormed()) &&
      (load.Some? && load.value.Function? ==> load.value.sig.WellFormed())
    }
  }

  datatype ProtocolError =
    | MissingSave
    | MissingLoad
    | SaveNotCallable
    | SaveArgumentNames
    | SaveFilepathType
    | LoadNotCallable
    | LoadWithoutHints
    | LoadFirstArgument
    | LoadFilepathType
    | LoadWithoutReturn
    | ReturnTypeMismatch
  {
    function Kind(): ErrorKind
    {
      match this
      case MissingSave => AttributeError
      case MissingLoad => AttributeError
      case LoadWithoutHints => IndexError
      case LoadWithoutReturn => KeyError
      case _ => TypeError
    }

    /** The text each error is raised with. The IndexError and the KeyError
        are Python's own, from `[0]` on an empty list and from
        `signature["return"]`. */
    function Message(): string
    {
      match this
      case MissingSave => "Module is missing 'save' attribute"
      case MissingLoad => "Module is missing 'load' attribute"
      case SaveNotCallable => "'save' attribute is not callable"
      case SaveArgumentNames => "First two arguments of 'save' must be 'data' and 'filepath'"
      case SaveFilepathType => "'filepath' argument of 'save' must be of type PathType"
      case LoadNotCallable => "'load' attribute is not callable"
      case LoadWithoutHints => "list index out of range"
      case LoadFirstArgument => "First argument of 'load' must be 'filepath'"
      case LoadFilepathType => "'filepath' argument of 'load' must be of type PathType"
      case LoadWithoutReturn => "'return'"
      case ReturnTypeMismatch => "Return type of 'load' must match 'data' argument type of 'save'"
    }
  }

  /** `xs[:n]`. */
  function Take<T>(xs: seq<T>, n: nat): (r: seq<T>)
    ensures |r| == if |xs| <= n then |xs| else n
    ensures forall i :: 0 <= i < |r| ==> r[i] == xs[i]
  {
    if |xs| <= n then xs else xs[..n]
  }

  /** `assert_module_protocol`: the first failing check decides the error.
      Its contract states the attribute checks and what a pass implies;
      `SaveErrors`, `LoadErrors` and `ReturnErrors` state every error case,
      and `PassIffConforms` the meaning of a pass. */
  function AssertModuleProtocol(m: Module): (r: Outcome<ProtocolError>)
    ensures r == Fail(MissingSave) <==> m.save.None?
    ensures r == Fail(MissingLoad) <==> m.save.Some? && m.load.None?
    ensures r.Fail? && r.error.Kind() == AttributeError <==> m.save.None? || m.load.None?
    ensures r.Pass? ==> m.save.Some? && m.save.value.Function? && m.load.Some? && m.load.value.Function?
  {
    if m.save.None? then Fail(MissingSave)
    else if m.load.None? then Fail(MissingLoad)
    else if m.save.value.NotCallable? then Fail(SaveNotCallable)
    else
      var saveHints := m.save.value.sig;
      if Take(saveHints.Keys(), 2) != ["data", "filepath"] then Fail(SaveArgumentNames)
      else if saveHints.Lookup("filepath") != Some(PathType) then Fail(SaveFilepathType)
      else if m.load.value.NotCallable? then Fail(LoadNotCallable)
      else
        var loadHints := m.load.value.sig;
        var keys := loadHints.Keys();
        if |keys| == 0 then Fail(LoadWithoutHints)
        else if keys[0] != "filepath" then Fail(LoadFirstArgument)
        else if loadHints.Lookup("filepath") != Some(PathType) then Fail(LoadFilepathType)
        else if loadHints.Lookup(ReturnKey).None? then Fail(LoadWithoutReturn)
        else if loadHints.Lookup(ReturnKey) != saveHints.Lookup("data") then Fail(ReturnTypeMismatch)
        else Pass
  }

  /** The save hints start with `data` and then `filepath`. */
  predicate SaveNamed(s: Signature)
  {
    |s.params| >= 2 && s.params[0].0 == "data" && s.params[1].0 == "filepath"
  }

  /** The load hints start with the parameter `filepath`. */
  predicate LoadNamed(l: Signature)
  {
    |l.params| >= 1 && l.params[0].0 == "filepath"
  }

  /** The protocol stated directly: `save(data, filepath: PathType, ...)`
      and `load(filepath: PathType, ...)` whose return annotation is the
      annotation of `save`'s `data`. */
  predicate Conforms(m: Module)
  {
    m.save.Some? && m.save.value.Function? && m.load.Some? && m.load.value.Function? &&
    var s := m.save.value.sig;
    var l := m.load.value.sig;
    SaveNamed(s) && s.params[1].1 == PathType &&
    LoadNamed(l) && l.params[0].1 == PathType &&
    l.result == Some(s.params[0].1)
  }

  /** The key check on `save` is `SaveNamed`, after which both lookups
      succeed. */
  lemma SaveKeys(s: Signature)
    requires s.WellFormed()
    ensures Take(s.Keys(), 2) == ["data", "filepath"] <==> SaveNamed(s)
    ensures SaveNamed(s) ==> s.Lookup("filepath") == Some(s.params[1].1) && s.Lookup("data") == Some(s.params[0].1)
  {
    var ks := s.Keys();
    if Take(ks, 2) == ["data", "filepath"] {
      assert ks[1] == "filepath";
      assert |s.params| >= 2;
    }
    if SaveNamed(s) {
      assert Take(ks, 2) == ["data", "filepath"];
      FindFirst(s.params, 0);
      FindFirst(s.params, 1);
    }
  }

  /** The key check on `load` is `LoadNamed`, after which the `filepath`
      lookup succeeds; the keys are empty only without any hint. */
  lemma LoadKeys(l: Signature)
    requires l.WellFormed()
    ensures |l.Keys()| == 0 <==> |l.params| == 0 && l.result.None?
    ensures |l.Keys()| > 0 ==> (l.Keys()[0] == "filepath" <==> LoadNamed(l))
    ensures LoadNamed(l) ==> l.Lookup("filepath") == Some(l.params[0].1)
  {
    if LoadNamed(l) {
      FindFirst(l.params, 0);
    }
  }

  /** A well-formed module passes exactly when it conforms to the protocol. */
  lemma PassIffConforms(m: Module)
    requires m.WellFormed()
    ensures AssertModuleProtocol(m).Pass? <==> Conforms(m)
  {
    if m.save.Some? && m.save.value.Function? {
      SaveKeys(m.save.value.sig);
    }
    if m.load.Some? && m.load.value.Function? {
      LoadKeys(m.load.value.sig);
    }
  }

  /** Both attributes exist and `save` is callable, so its hints are read. */
  predicate SaveInspected(m: Module)
  {
    m.save.Some? && m.load.Some? && m.save.value.Function?
  }

  /** `save`'s hints pass both of their checks. */
  predicate SaveAccepted(m: Module)
  {
    SaveInspected(m) && SaveNamed(m.save.value.sig) && m.save.value.sig.params[1].1 == PathType
  }

  /** `save` passed and `load` is callable, so its hints are read. */
  predicate LoadInspected(m: Module)
  {
    SaveAccepted(m) && m.load.value.Function?
  }

  /** `load`'s first hint passes both of its checks. */
  predicate LoadAccepted(m: Module)
  {
    LoadInspected(m) && LoadNamed(m.load.value.sig) && m.load.value.sig.params[0].1 == PathType
  }

  /** The attribute checks and the checks on `save`, each error exactly
      when every earlier check passed and its own fails. */
  lemma SaveErrors(m: Module)
    requires m.WellFormed()
    ensures AssertModuleProtocol(m) == Fail(MissingSave) <==> m.save.None?
    ensures AssertModuleProtocol(m) == Fail(MissingLoad) <==> m.save.Some? && m.load.None?
    ensures AssertModuleProtocol(m) == Fail(SaveNotCallable) <==> m.save == Some(NotCallable) && m.load.Some?
    ensures AssertModuleProtocol(m) == Fail(SaveArgumentNames) <==> SaveInspected(m) && !SaveNamed(m.save.value.sig)
    ensures AssertModuleProtocol(m) == Fail(SaveFilepathType)
        <==> SaveInspected(m) && SaveNamed(m.save.value.sig) && m.save.value.sig.params[1].1 != PathType
  {
    if SaveInspected(m) {
      SaveKeys(m.save.value.sig);
    }
  }

  /** The checks on `load`, each error exactly when every earlier check
      passed and its own fails, up to the return annotation. An empty set
      of hints is an IndexError. */
  lemma LoadErrors(m: Module)
    requires m.WellFormed()
    ensures AssertModuleProtocol(m) == Fail(LoadNotCallable) <==> SaveAccepted(m) && m.load.value.NotCallable?
    ensures AssertModuleProtocol(m) == Fail(LoadWithoutHints)
        <==> LoadInspected(m) && |m.load.value.sig.params| == 0 && m.load.value.sig.result.None?
    ensures AssertModuleProtocol(m) == Fail(LoadFirstArgument)
        <==> LoadInspected(m) && !LoadNamed(m.load.value.sig)
             && !(|m.load.value.sig.params| == 0 && m.load.value.sig.result.None?)
    ensures AssertModuleProtocol(m) == Fail(LoadFilepathType)
        <==> LoadInspected(m) && LoadNamed(m.load.value.sig) && m.load.value.sig.params[0].1 != PathType
  {
    if SaveInspected(m) {
      SaveKeys(m.save.value.sig);
    }
    if SaveInspected(m) && m.load.value.Function? {
      LoadKeys(m.load.value.sig);
    }
  }

  /** The checks on `load`'s return annotation, the last ones made: a
      missing one is a KeyError, a different one a TypeError. */
  lemma ReturnErrors(m: Module)
    requires m.WellFormed()
    ensures AssertModuleProtocol(m) == Fail(LoadWithoutReturn) <==> LoadAccepted(m) && m.load.value.sig.result.None?
    ensures AssertModuleProtocol(m) == Fail(ReturnTypeMismatch)
        <==> LoadAccepted(m) && m.load.value.sig.result.Some?
             && m.load.value.sig.result != Some(m.save.value.sig.params[0].1)
  {
    if SaveInspected(m) {
      SaveKeys(m.save.value.sig);
    }
    if SaveInspected(m) && m.load.value.Function? {
      LoadKeys(m.load.value.sig);
    }
  }

  /** The hints of a backend such as `df_csv`: `save(data: DataFrame, *,
      filepath: PathType, **kwargs: Any) -> None` and `load(filepath:
      PathType, **kwargs: Any) -> DataFrame`. */
  function FrameBackend(): Module
  {
    Module(
      Some(Function(Signature([("data", Named("pandas.DataFrame")), ("filepath", PathType), ("kwargs", Named("typing.Any"))], Some(Named("NoneType"))))),
      Some(Function(Signature([("filepath", PathType), ("kwargs", Named("typing.Any"))], Some(Named("pandas.DataFrame"))))))
  }

  /** Such a backend passes. */
  lemma FrameBackendConforms()
    ensures AssertModuleProtocol(FrameBackend()).Pass?
  {
    var m := FrameBackend();
    assert m.save.value.sig.WellFormed();
    assert m.load.value.sig.WellFormed();
    PassIffConforms(m);
  }

  /** A backend whose `load` returns something other than what `save`
      accepts is refused with a TypeError. */
  lemma MismatchedReturnRefused()
    ensures AssertModuleProtocol(FrameBackend().(load := Some(Function(Signature([("filepath", PathType)], Some(Named("pandas.Series"))))))) == Fail(ReturnTypeMismatch)
    ensures ReturnTypeMismatch.Kind() == TypeError
  {
    var m := FrameBackend().(load := Some(Function(Signature([("filepath", PathType)], Some(Named("pandas.Series"))))));
    assert m.save.value.sig.WellFormed();
    assert m.load.value.sig.WellFormed();
    ReturnErrors(m);
  }
}

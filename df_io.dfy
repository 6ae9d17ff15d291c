/** Format resolution and dispatch for data-frame I/O (`dummio.pandas.df_io`).
    A format name is inferred from the path's suffix, reconciled with an
    explicit `format` argument, checked against the closed set of supported
    formats, and the call is routed to the backend named after it. */
module DfIo {
  import opened Wrappers
  import opened Values
  import opened Strings
  import opened Paths
  import opened Frames
  import opened Backends

  const Csv := "csv"
  const Feather := "feather"
  const Parquet := "parquet"
  const SupportedFormats: seq<string> := [Csv, Feather, Parquet]

  /** Keyword names that `load` reads or writes in the keyword bag. */
  const Usecols := "usecols"
  const Columns := "columns"

  /** A format; equality is by name, as for the source's dataclass. */
  datatype Format = Format(name: string)

  datatype DfIoError =
    | Unresolvable
    | Unsupported(name: string)
    | Conflict(inferred: string, provided: string)
    | ColumnsWithUsecols
    | UnsupportedMethod(name: string)
  {
    /** `Format.save_method`/`load_method` raise RuntimeError; everything
        else is a ValueError. */
    function Kind(): ErrorKind
    {
      if UnsupportedMethod? then RuntimeError else ValueError
    }

    /** The exception message. It names the offending format, and a conflict
        names both the inferred and the provided format. */
    function Message(): (m: string)
      ensures Unsupported? || UnsupportedMethod? ==> Contains(m, name)
      ensures Conflict? ==> Contains(m, inferred) && Contains(m, provided)
    {
      match this
      case Unresolvable =>
        "File format could not be inferred from the file extension and `format` was not provided."
      case Unsupported(n) => UnsupportedMessage(n)
      case UnsupportedMethod(n) => UnsupportedMessage(n)
      case ColumnsWithUsecols => "Cannot specify both `columns` and `usecols`."
      case Conflict(i, p) => ConflictMessage(i, p)
    }
  }

  function ConflictMessage(i: string, p: string): (m: string)
    ensures Contains(m, i) && Contains(m, p)
  {
    var a := "Conflicting format information: inferred '";
    var b := "' from file extension, but format='";
    var m := a + i + b + p + "' was specified.";
    assert OccursAt(m, i, |a|);
    assert OccursAt(m, p, |a| + |i| + |b|);
    m
  }

  function UnsupportedMessage(n: string): (m: string)
    ensures Contains(m, n)
  {
    var a := "Unsupported format '";
    var m := a + n + "'";
    assert OccursAt(m, n, |a|);
    m
  }

  /** The message the save-conflict test matches on is part of the error. */
  lemma ConflictMessageMatchesTest()
    ensures Contains(Conflict("csv", "parquet").Message(),
                     "Conflicting format information: inferred '" + "csv" + "' from file extension, " +
                     "but format='" + "parquet" + "' was specified")
  {
    var m := Conflict("csv", "parquet").Message();
    var t := "Conflicting format information: inferred '" + "csv" + "' from file extension, " +
             "but format='" + "parquet" + "' was specified";
    assert "' from file extension, but format='" == "' from file extension, " + "but format='";
    assert "' was specified." == "' was specified" + ".";
    assert m == t + ".";
    assert OccursAt(m, t, 0);
  }

  /** The static replacement for the `importlib` lookup of
      `dummio.pandas.df_<name>`. */
  const Registry: map<string, Backend> :=
    map[Csv := CsvBackend, Feather := FeatherBackend, Parquet := ParquetBackend]

  /** The registry holds exactly the supported formats, and each entry is the
      backend module named after its key. */
  lemma RegistryMatchesSupportedFormats()
    ensures Registry.Keys == set n | n in SupportedFormats
    ensures forall n :: n in Registry ==> Registry[n].Name() == n
    ensures forall n :: n in Registry ==> Registry[n].ModuleName() == "dummio.pandas.df_" + n
    ensures forall b: Backend :: b.Name() in Registry && Registry[b.Name()] == b
  {
  }

  /** `Format.save_method`: rejects an unsupported name before any lookup. */
  function SaveMethod(f: Format): (r: Result<BackendMethod, DfIoError>)
    ensures r.Success? <==> f.name in SupportedFormats
    ensures r.Failure? ==> r.error == UnsupportedMethod(f.name)
    ensures r.Success? ==> r.value.op == SaveOp && r.value.backend.Name() == f.name
  {
    if f.name !in SupportedFormats then Failure(UnsupportedMethod(f.name))
    else Success(BackendMethod(Registry[f.name], SaveOp))
  }

  /** `Format.load_method`: rejects an unsupported name before any lookup. */
  function LoadMethod(f: Format): (r: Result<BackendMethod, DfIoError>)
    ensures r.Success? <==> f.name in SupportedFormats
    ensures r.Failure? ==> r.error == UnsupportedMethod(f.name)
    ensures r.Success? ==> r.value.op == LoadOp && r.value.backend.Name() == f.name
  {
    if f.name !in SupportedFormats then Failure(UnsupportedMethod(f.name))
    else Success(BackendMethod(Registry[f.name], LoadOp))
  }

  /** A pathlib suffix is a dot followed by dot-free text, so stripping its
      leading dots removes exactly the first character. */
  lemma StripSuffixDot(s: string)
    requires |s| > 0 && s[0] == '.'
    requires forall k :: 0 < k < |s| ==> s[k] != '.'
    ensures LStrip(s, '.') == s[1..]
  {
    assert LeadingRun(s[1..], '.') == 0;
  }

  /** Lower-casing cannot produce a dot. */
  lemma ToLowerKeepsDotsOut(s: string)
    requires '.' !in s
    ensures '.' !in ToLower(s)
  {
    var e := ToLower(s);
    forall k | 0 <= k < |e| ensures e[k] != '.' {
      assert e[k] == LowerChar(s[k]);
    }
  }

  /** A final component with no usable suffix: no dot after its first
      character, or a dot at its very end. */
  predicate LacksExtension(name: string)
  {
    (forall k :: 0 < k < |name| ==> name[k] != '.') || (|name| > 0 && name[|name| - 1] == '.')
  }

  /** A well-formed inferred name: non-empty, no dot, no upper-case letter. */
  predicate LowerCaseExtension(e: string)
  {
    e != "" && '.' !in e && forall k :: 0 <= k < |e| ==> !IsUpper(e[k])
  }

  /** The extension `_infer_format` computes from a final component:
      empty exactly when the component lacks a suffix; otherwise the text
      after the suffix's dot, lower-cased. */
  lemma ExtensionOfName(name: string)
    ensures var e := ToLower(LStrip(Suffix(name), '.'));
      && (e == "" <==> LacksExtension(name))
      && (e != "" ==> Suffix(name) != "" && e == ToLower(Suffix(name)[1..]) && LowerCaseExtension(e))
  {
    var suffix := Suffix(name);
    if suffix != "" {
      StripSuffixDot(suffix);
      var rest := suffix[1..];
      assert '.' !in rest by {
        forall k | 0 <= k < |rest| ensures rest[k] != '.' {
          assert rest[k] == suffix[k + 1];
        }
      }
      ToLowerKeepsDotsOut(rest);
      assert suffix[|suffix| - 1] == name[|name| - 1];
      assert |ToLower(rest)| == |rest|;
      assert rest == "" ==> suffix == ".";
    } else {
      assert LStrip(suffix, '.') == "";
    }
  }

  /** `_infer_format`: the path's last suffix, leading dots stripped and
      lower-cased; no format when that leaves nothing. So `"DATA.CSV"`
      infers `csv` and `"data"` infers nothing. */
  function InferFormat(filepath: FilePath): (r: Option<Format>)
    ensures r.None? <==> LacksExtension(FinalComponent(filepath.text))
    ensures r.Some? ==> PathSuffix(filepath) != "" && r.value.name == ToLower(PathSuffix(filepath)[1..])
    ensures r.Some? ==> LowerCaseExtension(r.value.name)
  {
    ExtensionOfName(FinalComponent(filepath.text));
    var extension := ToLower(LStrip(PathSuffix(filepath), '.'));
    if extension == "" then None else Some(Format(extension))
  }

  /** In `base.ext` with a dot-free `ext`, the last dot is the one joining
      them. */
  lemma LastDotOfName(base: string, ext: string)
    requires '.' !in ext
    ensures LastIndexOf(base + "." + ext, '.') == |base|
  {
    var name := base + "." + ext;
    var i := LastIndexOf(name, '.');
    assert name[|base|] == '.';
  }

  /** So the suffix of `base.ext` is `.ext` when `base` is not empty. */
  lemma SuffixOfName(base: string, ext: string)
    requires base != "" && '.' !in ext
    ensures Suffix(base + "." + ext) == "." + ext
  {
    LastDotOfName(base, ext);
    assert (base + "." + ext)[|base|..] == "." + ext;
  }

  /** `base.ext` has a separator only where `base` or `ext` has one. */
  lemma NoSeparatorInName(base: string, ext: string)
    requires '/' !in base && '/' !in ext
    ensures '/' !in base + "." + ext
  {
    var name := base + "." + ext;
    forall k | 0 <= k < |name| ensures name[k] != '/' {
      if k < |base| { assert name[k] == base[k]; }
      else if k > |base| { assert name[k] == ext[k - |base| - 1]; }
    }
  }

  /** A name `base.ext` with no separator infers the lower-cased `ext`,
      whatever dots `base` holds: only the last suffix counts. */
  lemma InferFromName(filepath: FilePath, base: string, ext: string)
    requires filepath.text == base + "." + ext
    requires base != "" && ext != "" && '/' !in base && '/' !in ext && '.' !in ext
    ensures InferFormat(filepath) == Some(Format(ToLower(ext)))
  {
    NoSeparatorInName(base, ext);
    FinalComponentOfName(filepath.text);
    SuffixOfName(base, ext);
    assert PathSuffix(filepath) == "." + ext;
    assert ("." + ext)[1..] == ext;
    assert LeadingRun(ext, '.') == 0;
    assert LStrip("." + ext, '.') == ext;
    assert |ToLower(ext)| == |ext|;
  }

  /** A final component with no dot infers nothing. */
  lemma InferWithoutDot(filepath: FilePath)
    requires '.' !in filepath.text
    ensures InferFormat(filepath).None?
  {
    FinalComponentChars(filepath.text, '.');
  }

  lemma LowerCsv()
    ensures ToLower("CSV") == "csv"
  {
  }

  /** `<base>.CSV` infers `csv`: the extension is lower-cased, so
      `"DATA.CSV"` infers `csv`. */
  lemma InferUpperCaseExtension(base: string)
    requires base != "" && '/' !in base
    ensures InferFormat(StrPath(base + "." + "CSV")) == Some(Format("csv"))
  {
    InferFromName(StrPath(base + "." + "CSV"), base, "CSV");
    LowerCsv();
  }

  /** A leading dot is not a suffix: a name such as `".bashrc"` infers
      nothing. */
  lemma InferNothingFromLeadingDot(rest: string)
    requires rest != "" && '/' !in rest && '.' !in rest
    ensures InferFormat(StrPath("." + rest)) == None
  {
    var name := "." + rest;
    NoSeparatorInName("", rest);
    assert "" + "." + rest == name;
    FinalComponentOfName(name);
    assert forall k :: 0 < k < |name| ==> name[k] == rest[k - 1];
  }

  /** Only the final component counts: a dot in a directory name, as in
      `"dir.v2/data"`, gives no format. */
  lemma InferNothingFromDottedDirectory(dir: string, name: string)
    requires name != "" && '/' !in name && '.' !in name
    ensures InferFormat(StrPath(dir + "/" + name)) == None
  {
    FinalComponentOfJoin(dir, name);
    assert LacksExtension(name);
  }

  /** A `format` argument counts only when it is truthy: `None` and `""`
      are both absent. */
  predicate Given(inputFormat: Option<string>)
  {
    inputFormat.Some? && inputFormat.value != ""
  }

  /** `_resolve_format`. The provided format, when given, is the effective
      one; otherwise the inferred one. The effective format must be
      supported, and that is checked before the conflict check, which only
      fires when `allowConflict` is false. The provided name is not
      lower-cased. */
  function ResolveFormat(filepath: FilePath, inputFormat: Option<string>, allowConflict: bool): (r: Result<Format, DfIoError>)
    ensures r.Success? ==> r.value.name in SupportedFormats
    ensures r.Success? && Given(inputFormat) ==> r.value.name == inputFormat.value
    ensures r.Success? && !Given(inputFormat) ==> InferFormat(filepath) == Some(r.value)
    ensures r == Failure(Unresolvable) <==> !Given(inputFormat) && InferFormat(filepath).None?
    ensures r.Failure? && r.error.Unsupported? ==>
              r.error.name !in SupportedFormats &&
              if Given(inputFormat) then r.error.name == inputFormat.value
              else InferFormat(filepath) == Some(Format(r.error.name))
    ensures Given(inputFormat) && inputFormat.value !in SupportedFormats ==>
              r == Failure(Unsupported(inputFormat.value))
    ensures (r.Failure? && r.error.Conflict?) <==>
              && !allowConflict && Given(inputFormat) && inputFormat.value in SupportedFormats
              && InferFormat(filepath).Some? && InferFormat(filepath).value.name != inputFormat.value
    ensures r.Failure? && r.error.Conflict? ==>
              r.error == Conflict(InferFormat(filepath).value.name, inputFormat.value)
    ensures r.Failure? ==> r.error.Unresolvable? || r.error.Unsupported? || r.error.Conflict?
  {
    var inferred := InferFormat(filepath);
    var provided := if Given(inputFormat) then Some(Format(inputFormat.value)) else None;
    var format := if provided.Some? then provided else inferred;
    if format.None? then
      Failure(Unresolvable)
    else if format.value.name !in SupportedFormats then
      Failure(Unsupported(format.value.name))
    else if provided.Some? && inferred.Some? && !allowConflict && provided != inferred then
      Failure(Conflict(inferred.value.name, provided.value.name))
    else
      Success(format.value)
  }

  /** With conflicts allowed (the load path) resolution never reports a
      conflict, and a given supported format always wins. */
  lemma PermissiveResolutionHonoursProvidedFormat(filepath: FilePath, inputFormat: Option<string>)
    requires Given(inputFormat) && inputFormat.value in SupportedFormats
    ensures ResolveFormat(filepath, inputFormat, true) == Success(Format(inputFormat.value))
  {
  }

  /** Strict and permissive resolution agree except where strict resolution
      reports a conflict. */
  lemma StrictDiffersOnlyByConflict(filepath: FilePath, inputFormat: Option<string>)
    ensures var strict := ResolveFormat(filepath, inputFormat, false);
            strict != ResolveFormat(filepath, inputFormat, true) ==>
              strict.Failure? && strict.error.Conflict?
  {
  }

  /** A name `base.ext` whose `ext` is already lower case infers `ext`. */
  lemma InferLowerName(filepath: FilePath, base: string, ext: string)
    requires filepath.text == base + "." + ext
    requires base != "" && ext != "" && '/' !in base && '/' !in ext && '.' !in ext
    requires forall k :: 0 <= k < |ext| ==> !IsUpper(ext[k])
    ensures InferFormat(filepath) == Some(Format(ext))
  {
    InferFromName(filepath, base, ext);
    assert ToLower(ext) == ext;
  }

  /** `save`: resolves strictly, then calls the selected backend's `save`
      with the frame, the path and the keyword bag unchanged. Every
      resolution error is raised before the backend is called. */
  function Save(data: Frame, filepath: FilePath, format: Option<string>, kwargs: Kwargs): (r: Result<SaveCall, DfIoError>)
    ensures r.Failure? <==> ResolveFormat(filepath, format, false).Failure?
    ensures r.Failure? ==> r.error == ResolveFormat(filepath, format, false).error
    ensures r.Success? ==>
              && r.value.target.op == SaveOp
              && r.value.target.backend.Name() == ResolveFormat(filepath, format, false).value.name
              && r.value.data == data && r.value.filepath == filepath && r.value.kwargs == kwargs
  {
    var resolved := ResolveFormat(filepath, format, false);
    if resolved.Failure? then Failure(resolved.error)
    else
      var saveMethod := SaveMethod(resolved.value);
      Success(SaveCall(saveMethod.value, data, filepath, kwargs))
  }

  /** The `columns` argument as the value passed to a columnar backend. */
  function ColumnsArg(columns: Option<seq<string>>): Value
  {
    if columns.Some? then StrList(columns.value) else NoneVal
  }

  /** The keyword bag a csv load passes on: a given `columns` has become
      `usecols`, nothing else is added or changed, and no `columns` key is
      passed. */
  predicate CsvLoadKwargs(columns: Option<seq<string>>, kwargs: Kwargs, passed: Kwargs)
  {
    && Columns !in passed
    && (forall k :: k in kwargs ==> k in passed && passed[k] == kwargs[k])
    && (columns.None? ==> passed == kwargs)
    && (columns.Some? ==> passed.Keys == kwargs.Keys + {Usecols} && passed[Usecols] == StrList(columns.value))
  }

  /** The keyword bag a feather or parquet load passes on: the caller's
      keywords unchanged plus `columns`, which is `None` when not given. */
  predicate ColumnarLoadKwargs(columns: Option<seq<string>>, kwargs: Kwargs, passed: Kwargs)
  {
    && passed.Keys == kwargs.Keys + {Columns}
    && passed[Columns] == (if columns.Some? then StrList(columns.value) else NoneVal)
    && (forall k :: k in kwargs ==> passed[k] == kwargs[k])
  }

  /** The csv branch of `load`: a given `columns` is moved into `usecols`,
      which is an error when `usecols` is already there. */
  method CsvKeywords(columns: Option<seq<string>>, kwargs: Kwargs) returns (r: Result<Kwargs, DfIoError>)
    requires Columns !in kwargs
    ensures r.Failure? <==> columns.Some? && Usecols in kwargs
    ensures r.Failure? ==> r.error == ColumnsWithUsecols
    ensures r.Success? ==> CsvLoadKwargs(columns, kwargs, r.value)
  {
    var kw := kwargs;
    if columns.Some? {
      if Usecols in kw {
        return Failure(ColumnsWithUsecols);
      }
      kw := kw[Usecols := StrList(columns.value)];
    }
    return Success(kw);
  }

  /** The feather and parquet branch of `load`: `columns` is passed as a
      keyword of its own. */
  method ColumnarKeywords(columns: Option<seq<string>>, kwargs: Kwargs) returns (passed: Kwargs)
    requires Columns !in kwargs
    ensures ColumnarLoadKwargs(columns, kwargs, passed)
  {
    passed := kwargs;
    passed := passed[Columns := ColumnsArg(columns)];
  }

  /** What `load` does once the format is resolved to `fmt`. */
  predicate Dispatched(fmt: Format, filepath: FilePath, columns: Option<seq<string>>, kwargs: Kwargs,
                       r: Result<LoadCall, DfIoError>)
  {
    if fmt.name == Csv && columns.Some? && Usecols in kwargs then
      r == Failure(ColumnsWithUsecols)
    else
      && r.Success?
      && r.value.target.op == LoadOp
      && r.value.target.backend.Name() == fmt.name
      && r.value.filepath == filepath
      && if fmt.name == Csv then CsvLoadKwargs(columns, kwargs, r.value.kwargs)
         else ColumnarLoadKwargs(columns, kwargs, r.value.kwargs)
  }

  /** The dispatch half of `load`, for a resolved supported format. */
  method LoadResolved(fmt: Format, filepath: FilePath, columns: Option<seq<string>>, kwargs: Kwargs)
    returns (r: Result<LoadCall, DfIoError>)
    requires fmt.name in SupportedFormats && Columns !in kwargs
    ensures Dispatched(fmt, filepath, columns, kwargs, r)
  {
    var loadMethod := LoadMethod(fmt).value;
    if fmt.name == Csv {
      var kw := CsvKeywords(columns, kwargs);
      if kw.Failure? {
        return Failure(kw.error);
      }
      return Success(LoadCall(loadMethod, filepath, kw.value));
    }
    var kw := ColumnarKeywords(columns, kwargs);
    return Success(LoadCall(loadMethod, filepath, kw));
  }

  /** `load`: resolves permissively, so it never reports a conflict. For
      csv, a given `columns` becomes the `usecols` keyword, and that is an
      error when `usecols` is already there; for feather and parquet,
      `columns` is passed as it is. `columns` is a parameter of its own, so
      the caller's bag never holds it. */
  method Load(filepath: FilePath, format: Option<string>, columns: Option<seq<string>>, kwargs: Kwargs)
    returns (r: Result<LoadCall, DfIoError>)
    requires Columns !in kwargs
    ensures var resolved := ResolveFormat(filepath, format, true);
      && (resolved.Failure? ==> r == Failure(resolved.error))
      && (resolved.Success? ==> Dispatched(resolved.value, filepath, columns, kwargs, r))
    ensures r.Failure? ==> !r.error.Conflict?
  {
    var resolved := ResolveFormat(filepath, format, true);
    if resolved.Failure? {
      return Failure(resolved.error);
    }
    r := LoadResolved(resolved.value, filepath, columns, kwargs);
  }

  /* Scenarios from the module's documentation and its tests, stated for
     every path of any kind whose text is `base.ext` or `dir/base.ext`,
     for every file stem `base` (a non-empty name without separators). */

  predicate Stem(base: string)
  {
    base != "" && '/' !in base
  }

  /** A path named `base.ext`, bare or under a directory `dir`, as a test's
      `tmp_path / "data.csv"` is. */
  predicate ScenarioPath(filepath: FilePath, dir: string, base: string, ext: string)
  {
    filepath.text == base + "." + ext || filepath.text == dir + "/" + base + "." + ext
  }

  /** The extensions the scenarios use: plain lower-case names. */
  const ScenarioExtensions: seq<string> := ["csv", "txt", "unknown", "xyz", "feather"]

  lemma ScenarioExtension(ext: string)
    requires ext in ScenarioExtensions
    ensures ext != "" && '/' !in ext && '.' !in ext
    ensures forall k :: 0 <= k < |ext| ==> !IsUpper(ext[k])
  {
  }

  /** Paths with the same final component infer the same format. */
  lemma InferBySameName(p: FilePath, q: FilePath)
    requires FinalComponent(p.text) == FinalComponent(q.text)
    ensures InferFormat(p) == InferFormat(q)
  {
    assert PathSuffix(p) == PathSuffix(q);
  }

  /** The final component of a scenario path is `base.ext`. */
  lemma ScenarioName(filepath: FilePath, dir: string, base: string, ext: string)
    requires base != "" && '/' !in base && '/' !in ext && ScenarioPath(filepath, dir, base, ext)
    ensures FinalComponent(filepath.text) == base + "." + ext
  {
    var name := base + "." + ext;
    NoSeparatorInName(base, ext);
    assert |name| > 1;
    if filepath.text == name {
      FinalComponentOfName(name);
    } else {
      assert filepath.text == dir + "/" + name;
      FinalComponentOfJoin(dir, name);
    }
  }

  /** A path named `base.ext` infers `ext`, whatever its directory. */
  lemma InferStem(filepath: FilePath, dir: string, base: string, ext: string)
    requires Stem(base) && ext in ScenarioExtensions && ScenarioPath(filepath, dir, base, ext)
    ensures InferFormat(filepath) == Some(Format(ext))
  {
    ScenarioExtension(ext);
    var bare := StrPath(base + "." + ext);
    InferLowerName(bare, base, ext);
    ScenarioName(filepath, dir, base, ext);
    FinalComponentOfName(bare.text);
    InferBySameName(filepath, bare);
  }

  /** The format names the scenarios use, against the supported set. */
  lemma ScenarioNames()
    ensures "xyz" !in SupportedFormats && "CSV" !in SupportedFormats
    ensures "txt" !in SupportedFormats && "unknown" !in SupportedFormats
    ensures "txt" != "csv" && "feather" != "csv" && "csv" != "parquet"
  {
  }

  /** Saving `base.csv` as parquet is a conflict naming both formats. */
  lemma SaveRejectsMisleadingExtension(data: Frame, filepath: FilePath, dir: string, base: string, kwargs: Kwargs)
    requires Stem(base) && ScenarioPath(filepath, dir, base, "csv")
    ensures Save(data, filepath, Some("parquet"), kwargs) == Failure(Conflict("csv", "parquet"))
  {
    ScenarioNames();
    InferStem(filepath, dir, base, "csv");
  }

  /** Saving `base.txt` as csv is a conflict: `.txt` implies another format. */
  lemma SaveRejectsTextExtension(data: Frame, filepath: FilePath, dir: string, base: string, kwargs: Kwargs)
    requires Stem(base) && ScenarioPath(filepath, dir, base, "txt")
    ensures Save(data, filepath, Some("csv"), kwargs) == Failure(Conflict("txt", "csv"))
  {
    ScenarioNames();
    InferStem(filepath, dir, base, "txt");
  }

  /** The module documentation says saving `mydata.unknown` with
      `format='csv'` is supported, but the conflict check compares the
      inferred name `unknown` with `csv` whether or not `unknown` is a
      supported format, so the code raises a conflict. The model follows
      the code. */
  lemma SaveRejectsUnknownExtension(data: Frame, filepath: FilePath, dir: string, base: string, kwargs: Kwargs)
    requires Stem(base) && ScenarioPath(filepath, dir, base, "unknown")
    ensures Save(data, filepath, Some("csv"), kwargs) == Failure(Conflict("unknown", "csv"))
  {
    ScenarioNames();
    InferStem(filepath, dir, base, "unknown");
  }

  /** An unsupported provided format is reported before any conflict, and
      the provided format is not lower-cased. */
  lemma SaveReportsUnsupportedBeforeConflict(data: Frame, filepath: FilePath, dir: string, base: string, kwargs: Kwargs)
    requires Stem(base) && ScenarioPath(filepath, dir, base, "csv")
    ensures Save(data, filepath, Some("xyz"), kwargs) == Failure(Unsupported("xyz"))
    ensures Save(data, filepath, Some("CSV"), kwargs) == Failure(Unsupported("CSV"))
  {
    ScenarioNames();
  }

  /** An inferred format outside the supported set is unsupported. */
  lemma SaveRejectsUnsupportedExtension(data: Frame, filepath: FilePath, dir: string, base: string, kwargs: Kwargs)
    requires Stem(base) && ScenarioPath(filepath, dir, base, "xyz")
    ensures Save(data, filepath, None, kwargs) == Failure(Unsupported("xyz"))
  {
    ScenarioNames();
    InferStem(filepath, dir, base, "xyz");
  }

  /** Without an extension a format must be given, and `""` does not count;
      a given format needs no extension. */
  lemma SaveNeedsFormatWithoutExtension(data: Frame, filepath: FilePath, kwargs: Kwargs)
    requires '.' !in filepath.text
    ensures Save(data, filepath, None, kwargs) == Failure(Unresolvable)
    ensures Save(data, filepath, Some(""), kwargs) == Failure(Unresolvable)
    ensures var r := Save(data, filepath, Some("feather"), kwargs);
              r.Success? && r.value.target == BackendMethod(FeatherBackend, SaveOp)
  {
    ScenarioNames();
    InferWithoutDot(filepath);
  }

  /** Saving `base.csv` selects the csv backend. */
  lemma SaveInfersCsv(data: Frame, filepath: FilePath, dir: string, base: string, kwargs: Kwargs)
    requires Stem(base) && ScenarioPath(filepath, dir, base, "csv")
    ensures var r := Save(data, filepath, None, kwargs);
              r.Success? && r.value.target == BackendMethod(CsvBackend, SaveOp)
  {
    InferStem(filepath, dir, base, "csv");
    var r := Save(data, filepath, None, kwargs);
    NamesDistinct(r.value.target.backend, CsvBackend);
  }

  /** Naming the format of `base.csv` explicitly as csv changes nothing. */
  lemma SaveAgreeingFormat(data: Frame, filepath: FilePath, dir: string, base: string, kwargs: Kwargs)
    requires Stem(base) && ScenarioPath(filepath, dir, base, "csv")
    ensures Save(data, filepath, Some("csv"), kwargs) == Save(data, filepath, None, kwargs)
  {
    InferStem(filepath, dir, base, "csv");
  }

  /** Loading a misnamed `base.feather` with `format='csv'` reads csv,
      where saving under those arguments would be a conflict. */
  lemma LoadOverridesMisleadingExtension(filepath: FilePath, dir: string, base: string)
    requires Stem(base) && ScenarioPath(filepath, dir, base, "feather")
    ensures ResolveFormat(filepath, Some("csv"), true) == Success(Format("csv"))
    ensures ResolveFormat(filepath, Some("csv"), false) == Failure(Conflict("feather", "csv"))
  {
    ScenarioNames();
    InferStem(filepath, dir, base, "feather");
  }

  /** A caller of `load`, relying on its contract alone, with a file under
      a local directory. */
  method LoadClient(dir: string, base: string, kwargs: Kwargs)
    requires Stem(base) && Columns !in kwargs && Usecols !in kwargs
  {
    var path := LocalPath(dir + "/" + base + "." + "feather");
    LoadOverridesMisleadingExtension(path, dir, base);
    var r := Load(path, Some("csv"), Some(["a"]), kwargs);
    assert r.Success? && r.value.kwargs.Keys == kwargs.Keys + {Usecols};
    var clash := Load(path, Some("csv"), Some(["a"]), kwargs[Usecols := StrList(["b"])]);
    assert clash == Failure(ColumnsWithUsecols);
  }
}

# dummio data-frame I/O core, modelled in Dafny

This project models the data-frame I/O layer of `dummio`, a small Python
library of uniform `save`/`load` functions, together with the module
protocol that every such backend must follow.

- **`DfIo`** (`dummio/pandas/df_io.py`):
  - infers a format name from the last suffix of a path;
  - reconciles it with an explicit `format` argument, strictly on `save` and permissively on `load`;
  - checks the result against the closed set `csv`, `feather`, `parquet`;
  - dispatches to the backend module named after the format. On a csv load, `columns` is rewritten to `usecols`.
- **`DfCsv`** (`dummio/pandas/df_csv.py`): the csv backend, which defaults `index=False` for an unnamed index.
- **`PandasUtils`** (`dummio/pandas/utils.py`): `add_storage_options`, which puts a universal path's storage options into a caller's keyword dictionary, in place.
- **`SeriesParquet`** (`dummio/pandas/series_parquet.py`): stores a series as a one-column parquet frame and reads it back.
- **`Protocol`** (`dummio/protocol.py`): the ordered checks `assert_module_protocol` makes on a module's `save` and `load` signatures.

Supporting modules:

- `Wrappers`: `Option`, `Result`, and `Outcome` (pass or fail), and `ErrorKind`, the Python exception classes raised.
- `Values`: labels, keyword values, and the `**kwargs` bag as a `map`.
- `Strings`: `rfind`, `lstrip` and ASCII `lower`.
- `Paths`: the three kinds of `PathType`, and pathlib's final-component and suffix rules.
- `Frames`: frames and series as named columns over an index.
- `Backends`: the backend modules, reduced to the calls made on them.

## How the model is organised

- Python exceptions become the `Failure` branch of a `Result`, or the `Fail` branch of an `Outcome`. Each error datatype says which exception class it stands for (`Kind`).
- The backend modules are records of the call that would be made: `SaveCall` and `LoadCall` hold the target module function and its arguments.
- `importlib.import_module("dummio.pandas.df_<name>")` is replaced by the static map `DfIo.Registry`. The map is proved to hold exactly the supported formats.
- Code that updates a dictionary step by step is written as a method:
  - `DfIo.Load`, `DfCsv.Save` and `SeriesParquet.Save` update a local copy of the dictionary or frame.
  - `PandasUtils.AddStorageOptions` updates the caller's `KwargsDict` object in place.
  - Each method's contract states the new state outright, or ties it to a specification function.
- The scenarios from the documentation and the tests are stated for a path of any kind whose text is `base.ext` or `dir/base.ext`, for every stem `base`. So they cover the tests' `tmp_path / "data.csv"`.
- Pure conditional code is written as functions: `_infer_format`, `_resolve_format`, `df_io.save`, `series_parquet.load` and `assert_module_protocol`.
  - The first four carry contracts that state their results.
  - `Protocol.AssertModuleProtocol` has a light contract: the two attribute checks, and what a pass implies. Its full specification is in lemmas about it. `SaveErrors`, `LoadErrors` and `ReturnErrors` give each error exactly, and `PassIffConforms` says what a pass means.
- `series_parquet.load` delegates to `df_parquet.load`. It takes that reader as a function argument `read`, so the model shows that the path and keywords are forwarded unchanged.
- `assert_module_protocol` receives the reflected type hints as a record: the annotated parameters in order, then the return annotation.

### Path suffix rule

- `Paths.Suffix` takes the text from the final component's last `.`, or nothing when the only dot is the first character. A lone trailing `.` counts as a suffix; the Python 3.14 documentation of `PurePath.suffix` records that change.
- `Paths.SuffixBeforePython314` is the rule of earlier releases, which also drop a suffix that is a lone trailing `.`.
- `Paths.SuffixRulesDifferOnlyOnLoneDot` proves that the two rules differ only where `Suffix` gives `"."` and the older rule gives nothing.
- After `lstrip(".")` both of those give an empty extension, so the inferred format is the same under either rule.

### Code and documentation disagree

- The module docstring of `dummio/pandas/df_io.py` (lines 36-38) says `save(df, filepath='mydata.unknown', format='csv')` is supported.
- The conflict check at lines 108-113 compares the inferred name `unknown` with the provided `csv`, whether or not `unknown` is a supported format, so the code raises a conflict error.
- The model follows the code; see `DfIo.SaveRejectsUnknownExtension`.

## Model

| member | source | states |
|---|---|---|
| Strings.LastIndexOf | dummio/pandas/df_io.py:81 | the result is -1 or an index holding the character, with no occurrence after it |
| Strings.LeadingRun | dummio/pandas/df_io.py:81 | the length of the leading run of the character: every position before it holds the character, the one at it does not |
| Strings.LStrip | dummio/pandas/df_io.py:81 | the result is a suffix of the input, every dropped character is the stripped one, and the result does not start with it |
| Strings.LowerChar | dummio/pandas/df_io.py:81 | upper-case ASCII letters map to their lower-case letter, everything else is kept; the result is never upper case |
| Strings.ToLower | dummio/pandas/df_io.py:81 | the same length as the input, lowered character by character |
| Strings.ToLowerProperties | dummio/pandas/df_io.py:81 | no upper-case letter survives, other characters stay in place, and lowering is idempotent |
| Paths.FinalComponent | dummio/pandas/df_io.py:81 | the final component has no separator, is never `.`, and is drawn from the path's characters |
| Paths.FinalComponentChars | dummio/pandas/df_io.py:81 | the final component holds no character that the path does not |
| Paths.FinalComponentOfName | dummio/pandas/df_io.py:81 | a bare name is its own final component |
| Paths.FinalComponentOfJoin | dummio/pandas/df_io.py:81 | `dir/name` has final component `name`, whatever `dir` holds |
| Paths.FinalComponentTrailingSlash | dummio/pandas/df_io.py:81 | a trailing separator does not change the final component |
| Paths.FinalComponentTrailingDot | dummio/pandas/df_io.py:81 | a trailing `.` segment does not change the final component |
| Paths.Suffix | dummio/pandas/df_io.py:81 | empty exactly when there is no dot after the first character; otherwise a proper tail of the name that starts with its only dot |
| Paths.SuffixBeforePython314 | dummio/pandas/df_io.py:81 | empty exactly when there is no dot after the first character or the name ends in a dot; otherwise the same suffix as `Suffix`, longer than a lone dot |
| Paths.SuffixRulesDifferOnlyOnLoneDot | dummio/pandas/df_io.py:81 | the older pathlib suffix rule differs from the current one only on a suffix that is a lone dot |
| Values.Truthy | dummio/pandas/df_csv.py:23 | Python truthiness of an index name: false exactly for `None`, the empty string and `0` |
| Paths.PathSuffix | dummio/pandas/df_io.py:81 | `UPath(filepath).suffix`: the suffix of the path's final component; `InferFormat`'s contract is stated through it |
| Backends.Backend.Name | dummio/pandas/df_io.py:67 | the format name each backend module is named after |
| Backends.Backend.ModuleName | dummio/pandas/df_io.py:67-75 | the module `importlib` loads for a backend, `dummio.pandas.df_` followed by its format name |
| Backends.NamesDistinct | dummio/pandas/df_io.py:67 | distinct backend modules have distinct format names |
| DfIo.DfIoError.Kind | dummio/pandas/df_io.py:66-161 | an unsupported name in `save_method` or `load_method` (lines 66 and 74) is a RuntimeError; the resolution errors (105, 107, 110) and the `columns`/`usecols` clash (161) are ValueErrors |
| DfIo.DfIoError.Message | dummio/pandas/df_io.py:105-112 | an unsupported-format message names the format; a conflict message names both the inferred and the provided format |
| DfIo.ConflictMessage | dummio/pandas/df_io.py:110-113 | the conflict message contains both the inferred and the provided name |
| DfIo.UnsupportedMessage | dummio/pandas/df_io.py:107 | the message contains the offending name |
| DfIo.ConflictMessageMatchesTest | tests/pandas/test_df_io.py:18-20 | the conflict message for csv against parquet contains the text the test matches on |
| DfIo.RegistryMatchesSupportedFormats | dummio/pandas/df_io.py:50-53 | the static backend map holds exactly the supported formats, each mapped to the backend named after it, whose module is `dummio.pandas.df_` followed by the name |
| DfIo.SaveMethod | dummio/pandas/df_io.py:62-68 | succeeds exactly for a supported name, with that backend's `save`; otherwise a RuntimeError naming the format |
| DfIo.LoadMethod | dummio/pandas/df_io.py:70-76 | succeeds exactly for a supported name, with that backend's `load`; otherwise a RuntimeError naming the format |
| DfIo.ExtensionOfName | dummio/pandas/df_io.py:81-83 | the stripped, lowered suffix is empty exactly when the name lacks an extension, and is otherwise the lowered text after the suffix's dot, without a dot or an upper-case letter |
| DfIo.InferFormat | dummio/pandas/df_io.py:79-84 | no format exactly when the final component has no extension; otherwise the lowered text after the last dot, non-empty, dot-free and lower case |
| DfIo.InferFromName | dummio/pandas/df_io.py:79-84 | any `base.ext` infers the lowered `ext`, however many dots `base` has |
| DfIo.InferLowerName | dummio/pandas/df_io.py:79-84 | `base.ext` with a lower-case `ext` infers `ext` itself |
| DfIo.InferWithoutDot | dummio/pandas/df_io.py:82-83 | a path without a dot, such as `data`, infers nothing |
| DfIo.InferUpperCaseExtension | dummio/pandas/df_io.py:81 | any `base.CSV`, such as `DATA.CSV`, infers `csv` |
| DfIo.InferNothingFromLeadingDot | dummio/pandas/df_io.py:81-83 | a name whose only dot leads, such as `.bashrc`, infers nothing |
| DfIo.InferNothingFromDottedDirectory | dummio/pandas/df_io.py:81-83 | a dot in a directory name does not count: `dir/name` with a dot-free `name`, such as `dir.v2/data`, infers nothing |
| DfIo.ResolveFormat | dummio/pandas/df_io.py:87-114 | a supported result; a given format (not `None`, not empty) wins, otherwise the inferred one; unresolvable exactly when neither exists; unsupported before conflict, with the provided name taken as is; a conflict exactly when strict, both given, supported and different, naming inferred and provided; no other error |
| DfIo.PermissiveResolutionHonoursProvidedFormat | dummio/pandas/df_io.py:156 | with conflicts allowed, a given supported format is the result whatever the extension |
| DfIo.StrictDiffersOnlyByConflict | dummio/pandas/df_io.py:108-113 | strict and permissive resolution differ only where the strict one reports a conflict |
| DfIo.Save | dummio/pandas/df_io.py:117-134 | fails exactly when strict resolution fails, with its error; otherwise calls the resolved backend's `save` with the frame, path and keywords unchanged |
| DfIo.CsvKeywords | dummio/pandas/df_io.py:158-163 | fails exactly when `columns` is given and `usecols` is already a keyword; otherwise `columns` becomes `usecols`, nothing else changes, and no `columns` key is passed |
| DfIo.ColumnarKeywords | dummio/pandas/df_io.py:164 | the caller's keywords unchanged plus `columns`, `None` when not given |
| DfIo.LoadResolved | dummio/pandas/df_io.py:157-164 | for a resolved supported format, calls that backend's `load` with the path and the csv or columnar keywords, or fails on `columns` with `usecols` for csv |
| DfIo.Load | dummio/pandas/df_io.py:137-164 | propagates resolution errors and never reports a conflict; for csv with `columns` and `usecols` both present fails before any call; for csv moves `columns` to `usecols` and passes no `columns` key, or passes the keywords unchanged; for feather and parquet passes `columns`, `None` included, beside the unchanged keywords |
| DfIo.InferBySameName | dummio/pandas/df_io.py:81 | paths with the same final component infer the same format |
| DfIo.ScenarioName | tests/pandas/test_df_io.py:12 | the final component of `base.ext`, bare or under any directory as `tmp_path / "data.csv"` is, is `base.ext` |
| DfIo.InferStem | dummio/pandas/df_io.py:79-84 | a path of any kind named `base.ext`, bare or under any directory, infers `ext` for each extension the scenarios use |
| DfIo.SaveRejectsMisleadingExtension | tests/pandas/test_df_io.py:17-20 | saving `base.csv` as parquet is a conflict naming csv and parquet |
| DfIo.SaveRejectsTextExtension | dummio/pandas/df_io.py:31 | saving `base.txt` as csv is a conflict |
| DfIo.SaveRejectsUnknownExtension | dummio/pandas/df_io.py:108-113 | saving `base.unknown` as csv is a conflict, as the code does, not as the docstring says |
| DfIo.SaveReportsUnsupportedBeforeConflict | dummio/pandas/df_io.py:106-108 | saving `base.csv` with format `xyz` or `CSV` reports an unsupported format, not a conflict |
| DfIo.SaveRejectsUnsupportedExtension | dummio/pandas/df_io.py:106-107 | an inferred `xyz` is unsupported |
| DfIo.SaveNeedsFormatWithoutExtension | dummio/pandas/df_io.py:102-105 | for a path with no dot, no format and the empty format are both unresolvable; a given format needs no extension |
| DfIo.SaveInfersCsv | tests/pandas/test_df_io.py:12 | saving `base.csv` selects the csv backend |
| DfIo.SaveAgreeingFormat | tests/pandas/test_df_io.py:13 | naming the inferred format explicitly changes nothing |
| DfIo.LoadOverridesMisleadingExtension | tests/pandas/test_df_io.py:22-24 | `base.feather` with format csv resolves to csv on load and is a conflict on save |
| DfCsv.Save | dummio/pandas/df_csv.py:10-25 | `index=False` is added exactly when no `index` keyword is given and the index name is falsy; a given `index` is kept; no other key is added or changed; frame and path are passed as given |
| DfCsv.Load | dummio/pandas/df_csv.py:28-35 | the reader gets the path and the keywords as they are |
| PandasUtils.WithStorageOptions | dummio/pandas/utils.py:12-20 | a universal path whose keywords lack `storage_options` gets a copy of its options under that key; every existing entry is kept; no other key appears |
| PandasUtils.AddStorageOptions | dummio/pandas/utils.py:12-20 | the caller's dictionary afterwards is `WithStorageOptions` of its old contents |
| PandasUtils.WithStorageOptionsIdempotent | dummio/pandas/utils.py:19-20 | adding storage options twice equals adding them once |
| PandasUtils.PlainPathsUnchanged | tests/pandas/test_utils.py:21-22 | plain strings and local paths leave the keywords unchanged |
| SeriesParquet.ToFrame | dummio/pandas/series_parquet.py:29 | `to_frame`: one column over the series's index and values, named after the series, or `0` for an unnamed series |
| SeriesParquet.SeriesFrame | dummio/pandas/series_parquet.py:29-32 | the stored frame has one column, named exactly as the series, over the series's index and values |
| SeriesParquet.Save | dummio/pandas/series_parquet.py:16-39 | calls the parquet backend's `save` with the series as that one-column frame, the path, and unchanged keywords |
| SeriesParquet.UnnamedSeriesKeepsNoName | dummio/pandas/series_parquet.py:29-32 | an unnamed series is stored under the column name `None`, where `to_frame` alone would use `0` |
| SeriesParquet.LoadError.Kind | dummio/pandas/series_parquet.py:57-62 | more than one column (58) and no column (60) are RuntimeErrors; the failed assertion (62) is an AssertionError |
| SeriesParquet.LoadError.Message | dummio/pandas/series_parquet.py:56-62 | the texts the two RuntimeErrors and the failed assertion carry |
| SeriesParquet.ColumnSeries | dummio/pandas/series_parquet.py:61-63 | the series takes the only column's name and values and the frame's index |
| SeriesParquet.Squeeze | dummio/pandas/series_parquet.py:61 | `squeeze` on a one-column frame is a scalar exactly when the frame has one row, and otherwise the column as a series |
| SeriesParquet.LoadAsWritten | dummio/pandas/series_parquet.py:42-63 | as written: more than one column or no column is a RuntimeError; the assertion fails exactly for one column and one row; otherwise the column is returned as the series |
| SeriesParquet.Load | dummio/pandas/series_parquet.py:54-63 | as intended: more than one column or no column is a RuntimeError; exactly one column is returned as the series |
| SeriesParquet.LoadAsWrittenAgreesOffSingleRow | dummio/pandas/series_parquet.py:61-62 | the code as written and the intended load agree exactly when the frame is not one row by one column |
| SeriesParquet.RoundTrip | tests/pandas/test_series_parquet.py:14-25 | when the store returns the frame that was saved, load returns the series, named or not |
| SeriesParquet.RoundTripAsWritten | tests/pandas/test_series_parquet.py:14-25 | as written, the round trip holds for every series whose length is not one |
| SeriesParquet.SingleElementRoundTripFails | dummio/pandas/series_parquet.py:61-62 | as written, loading a saved one-element series fails with an AssertionError |
| SeriesParquet.SaveThenLoad | tests/pandas/test_series_parquet.py:14-25 | a series saved with `Save` and read back through the store with the intended load is returned unchanged |
| SeriesParquet.SaveThenLoadAsWritten | tests/pandas/test_series_parquet.py:14-25 | with the load as written, the same holds for every series whose length is not one |
| Protocol.ProtocolError.Kind | dummio/protocol.py:11-43 | the missing attributes (12, 14) are AttributeErrors; `[0]` on empty hints (37) an IndexError; `signature["return"]` without a return hint (42) a KeyError; every other check a TypeError |
| Protocol.ProtocolError.Message | dummio/protocol.py:11-43 | the text each check raises with; Python's own texts for the IndexError and the KeyError |
| Protocol.AssertModuleProtocol | dummio/protocol.py:9-43 | a missing `save`, or else a missing `load`, is the AttributeError and the only one; a pass implies both attributes are callable. The error cases are stated by `SaveErrors`, `LoadErrors` and `ReturnErrors`, and a pass by `PassIffConforms` |
| Protocol.Signature.Keys | dummio/protocol.py:24 | the keys are the annotated parameter names in order, then `return` when there is a return annotation |
| Protocol.Signature.Lookup | dummio/protocol.py:27-42 | `signature[key]`: the return annotation for `return`, otherwise the parameter's hint; `None` stands for the KeyError |
| Protocol.Find | dummio/protocol.py:27 | absent exactly when no parameter has the name; otherwise the hint of a parameter with that name |
| Protocol.FindFirst | dummio/protocol.py:27 | a parameter with no earlier namesake is the one found |
| Protocol.Take | dummio/protocol.py:24 | the first `n` elements, or all of them when there are fewer |
| Protocol.SaveKeys | dummio/protocol.py:23-28 | the first two keys are `data`, `filepath` exactly when the first two parameters have those names, after which both lookups succeed |
| Protocol.LoadKeys | dummio/protocol.py:36-40 | the keys are empty exactly without any hint; the first key is `filepath` exactly when the first parameter is named so, after which its lookup succeeds |
| Protocol.SaveErrors | dummio/protocol.py:11-28 | a missing `save`, then a missing `load`, then a non-callable `save`, then misnamed `save` arguments, then a wrong `filepath` type: each error exactly when every earlier check passed and its own fails |
| Protocol.LoadErrors | dummio/protocol.py:34-41 | a non-callable `load`, then no hints at all (IndexError), then a wrong first argument, then a wrong `filepath` type: each exactly when every earlier check passed and its own fails |
| Protocol.ReturnErrors | dummio/protocol.py:42-43 | after all other checks pass, a missing return hint is a KeyError and one other than `save`'s `data` type a TypeError |
| Protocol.PassIffConforms | dummio/protocol.py:9-43 | the check passes exactly when the module conforms to the protocol as stated directly |
| Protocol.FrameBackendConforms | tests/test_assert_module_protocol.py:30-32 | a frame backend with the signatures of `df_csv` passes |
| Protocol.MismatchedReturnRefused | dummio/protocol.py:42-43 | a `load` whose return type differs from `save`'s `data` type is refused with a TypeError |

## Left out

- File, object-store and cloud I/O, and the pandas and pyarrow readers and writers. A backend is the record of the call made to it; what it writes or reads is not modelled.
- Frame contents: dtypes, nulls and value fidelity. Cells are opaque values; only shape and names are modelled.
- `importlib.import_module` is replaced by a static map. `ImportError` for a missing optional dependency is not modelled.
- The `warnings.catch_warnings` block in `series_parquet.save` has no effect on results and is not modelled.
- `get_type_hints`, `hasattr` and `callable` are reflection. Their results are the input record `Protocol.Module`.
- Unannotated parameters do not appear in that record, as they do not appear in `get_type_hints`.
- The comment that later `save` arguments are keyword-only is not checked by the source, and not by the model.
- Protocol.SaveErrors: requires well-formed signatures (distinct parameter names, none called `return`), which a Python function always has.
- Protocol.LoadErrors: requires well-formed signatures, for the same reason.
- Protocol.PassIffConforms: requires well-formed signatures, for the same reason.
- DfIo.Load: requires that the keyword bag has no `columns` key, because `columns` is a named parameter and Python never puts it in `**kwargs`.
- Strings.ToLower: lower-cases ASCII letters only; Unicode case mapping is not modelled.
- Paths: POSIX separators only. Windows drives and backslashes are not modelled, nor URL query strings in universal paths.
- Values: labels are `None`, strings or integers, with Python truthiness for those three kinds only. Other label types (floats, tuples, multi-index names) are not modelled.

## Findings

| source | as written | input that shows it | evidently intended | confidence | as-written member | corrected member |
|---|---|---|---|---|---|---|
| dummio/pandas/series_parquet.py:61-62 | `df.squeeze()` squeezes every axis of length one, so a frame of one row and one column becomes a scalar and the `isinstance` assertion fails | saving and loading a one-element series such as `pd.Series([1])` | the single column is returned as a series whatever the number of rows, as the assertion message says | high; not executed | SeriesParquet.LoadAsWritten, SeriesParquet.SingleElementRoundTripFails | SeriesParquet.Load, SeriesParquet.RoundTrip |
